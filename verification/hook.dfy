/**
 * The `useData` hook as an object: the two state slots, the shared store it
 * reads through the context (no provider: the default context), and the
 * fetch and timer handles it creates and tears down. The operations a host
 * calls (`Retry`, `Mutate`, `RunCycle`, `Settle`, `FireTimer`, `Rerender`,
 * `Unmount`) are each proved to perform exactly the corresponding step of the
 * state machine in module Revalidation and to keep its invariant. The others
 * (`WriteCache`, `SetData`, `Cleanup`, `StartFetch`, `EffectBody`) are helpers
 * that those operations call: each performs one piece of a step, and the
 * invariant holds only once the whole step is done.
 */
module Hook {
  import opened Boxed
  import Config
  import Cache
  import opened Revalidation
  import HookProperties

  class Subscription<K(==), V, E> {
    /** The provider in scope, or null when the default context is used. */
    const store: Config.DataCacheConfig?<K, V>
    const settings: Settings
    var url: K
    var mounted: bool
    var data: AsyncData<Result<JsValue<V>, E>>
    var retries: RetryState
    var fetches: seq<Fetch<K>>
    var timers: seq<Timer>
    var installed: Option<Effect<K>>
    var onErrorLog: seq<E>

    /** `useContext(DataCacheContext)`. */
    function Context(): Cache.DataCache<K, V>
      reads store
    {
      if store == null then Cache.DefaultContext else Cache.Provided(store.cache)
    }

    function State(): Hook<K, V, E>
      reads this, store
    {
      Hook(settings, url, mounted, data, retries, Context(), fetches, timers, installed, onErrorLog)
    }

    ghost predicate Valid()
      reads this, store
    {
      Inv(State())
    }

    /** The first render of `useData(url, fetcher, options)`. */
    constructor (url: K, options: UseDataOptions, store: Config.DataCacheConfig?<K, V>)
      ensures this.store == store
      ensures State() == Init(url, options, Context())
      ensures Valid() && EffectDue(State())
    {
      this.store := store;
      this.settings := ResolveOptions(options);
      this.url := url;
      this.mounted := true;
      this.data := NotAsked;
      this.retries := RetryState(0, false);
      this.fetches := [];
      this.timers := [];
      this.installed := None;
      this.onErrorLog := [];
    }

    /** `cache.set(url, value)` through whichever store is in scope. */
    method WriteCache(key: K, value: JsValue<V>)
      modifies store
      ensures Context() == Cache.Set(old(Context()), key, value)
    {
      if store != null {
        store.Set(key, value);
      }
    }

    method SetData(d: AsyncData<Result<JsValue<V>, E>>)
      modifies this
      ensures State() == Revalidation.SetData(old(State()), d)
    {
      if mounted {
        data := d;
      }
    }

    method Retry()
      requires Valid()
      modifies this
      ensures Valid()
      ensures State() == Revalidation.Retry(old(State()))
    {
      if mounted {
        retries := RetryState(retries.count + 1, true);
      }
    }

    method Mutate(value: JsValue<V>, revalidate: Option<bool>)
      requires Valid()
      modifies this, store
      ensures Valid()
      ensures State() == Revalidation.Mutate(old(State()), value, revalidate)
    {
      WriteCache(url, value);
      if mounted {
        retries := RetryState(retries.count + 1, revalidate.GetOr(false));
      }
    }

    /** The effect's cleanup: cancel the captured future, clear the timer. */
    method Cleanup()
      modifies this
      ensures State() == Revalidation.Cleanup(old(State()))
    {
      if installed.Some? {
        var effect := installed.value;
        match effect.future {
          case ValueFuture =>
          case FetchFuture(id) =>
            if id < |fetches| && fetches[id].status.Pending? {
              fetches := fetches[id := fetches[id].(status := Cancelled)];
            }
        }
        match effect.timer {
          case None =>
          case Some(t) =>
            if t < |timers| {
              timers := timers[t := timers[t].(armed := false)];
            }
        }
        installed := None;
      }
    }

    /** Calls the fetcher for the current url and returns its handle. */
    method StartFetch(origin: Origin) returns (id: nat)
      modifies this
      ensures State() == Revalidation.StartFetch(old(State()), origin)
      ensures id == |old(fetches)|
    {
      id := |fetches|;
      fetches := fetches + [Fetch(url, origin, Pending)];
    }

    /** The effect body: serve from the cache or fetch, then set the timer. */
    method EffectBody()
      modifies this
      ensures State() == Revalidation.EffectBody(old(State()))
    {
      var future: Captured;
      match Cache.Get(Context(), url) {
        case Some(v) =>
          data := Done(Ok(Val(v)));
          if retries.revalidate {
            var _ := StartFetch(HitPath);
          }
          future := ValueFuture;
        case None =>
          data := Loading;
          var id := StartFetch(MissPath);
          future := FetchFuture(id);
      }
      var timer: Option<nat> := None;
      if Truthy(settings.revalidateEvery) {
        timer := Some(|timers|);
        timers := timers + [Timer(TimeoutMs(settings.revalidateEvery), true)];
      }
      installed := Some(Effect(url, retries, future, timer));
    }

    /** The commit after a render: re-run the effect if `[url, retries]` changed. */
    method RunCycle()
      requires Valid()
      modifies this
      ensures Valid()
      ensures State() == Revalidation.RunCycle(old(State()))
    {
      HookProperties.CyclePreservesInv(State());
      if EffectDue(State()) {
        Cleanup();
        EffectBody();
      }
    }

    /** The fetch with handle `id` settles with `result`. */
    method Settle(id: nat, result: Result<JsValue<V>, E>)
      requires Valid()
      modifies this, store
      ensures Valid()
      ensures State() == Revalidation.Settle(old(State()), id, result)
    {
      HookProperties.StepPreservesInv(State(), FetchSettles(id, result));
      if id < |fetches| && fetches[id].status.Pending? {
        var f := fetches[id];
        fetches := fetches[id := f.(status := Settled)];
        match result {
          case Ok(value) =>
            WriteCache(f.url, value);
            SetData(Done(Ok(value)));
          case Error(e) =>
            if settings.retryOnError && mounted {
              retries := RetryState(retries.count + 1, true);
            }
            onErrorLog := onErrorLog + [e];
            SetData(Done(Error(e)));
        }
      }
    }

    /** Timer `t` elapses: if it is still armed it calls `retry`. */
    method FireTimer(t: nat)
      requires Valid()
      modifies this
      ensures Valid()
      ensures State() == Revalidation.FireTimer(old(State()), t)
      ensures old(mounted && t < |timers| && timers[t].armed) ==>
                && retries == RetryState(old(retries.count) + 1, true)
                && !timers[t].armed
                && EffectDue(State())
    {
      if t < |timers| && timers[t].armed {
        if mounted {
          HookProperties.TimerFireTriggersCycle(State(), t);
        }
        timers := timers[t := timers[t].(armed := false)];
        Retry();
      }
    }

    /** A render with a new `url` prop, and its commit. */
    method Rerender(newUrl: K)
      requires Valid()
      modifies this
      ensures Valid()
      ensures State() == Revalidation.Rerender(old(State()), newUrl)
      ensures old(mounted) ==> url == newUrl && installed.Some? && installed.value.url == newUrl
    {
      if mounted {
        url := newUrl;
        RunCycle();
      }
    }

    /** Unmount: the last cleanup, after which state updates are dropped. */
    method Unmount()
      requires Valid()
      modifies this
      ensures Valid()
      ensures State() == Revalidation.Unmount(old(State()))
    {
      HookProperties.CleanupQuiesces(State());
      Cleanup();
      mounted := false;
    }
  }
}
