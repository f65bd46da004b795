/**
 * What the revalidation state machine guarantees: the effect of each event on
 * the cache and the state slots, the invariant every event keeps (one armed
 * timer at most, every miss-path fetch cancelled by the next cleanup), and
 * properties of whole event sequences.
 */
module HookProperties {
  import opened Boxed
  import Config
  import Cache
  import opened Revalidation

  // ---------------------------------------------------------------- options

  /** Without options: retry on error, and revalidate every 60 seconds. */
  lemma DefaultOptions()
    ensures ResolveOptions(UseDataOptions(None, None)) == Settings(true, Seconds(60))
    ensures Truthy(ResolveOptions(UseDataOptions(None, None)).revalidateEvery)
  {
  }

  // ------------------------------------------------------- mutate and retry

  /** `mutate` writes only the hook's own key. */
  lemma MutateKeepsOtherKeys<K, V, E>(h: Hook<K, V, E>, value: JsValue<V>, revalidate: Option<bool>, k: K)
    requires k != h.url
    ensures Cache.Get(Mutate(h, value, revalidate).store, k) == Cache.Get(h.store, k)
  {
    if h.store.Provided? {
      Config.SetKeepsOtherKeys(h.store.record, h.url, value, k);
    }
  }

  /** Because the count strictly grows, every `mutate` on a mounted hook makes
      the effect due again, whatever the effect last ran with. */
  lemma MutateTriggersCycle<K, V, E>(h: Hook<K, V, E>, value: JsValue<V>, revalidate: Option<bool>)
    requires Inv(h) && h.mounted
    ensures Mutate(h, value, revalidate).retries.count > h.retries.count
    ensures EffectDue(Mutate(h, value, revalidate))
    ensures Inv(Mutate(h, value, revalidate))
  {
  }

  /** Likewise for `retry`. */
  lemma RetryTriggersCycle<K, V, E>(h: Hook<K, V, E>)
    requires Inv(h) && h.mounted
    ensures Retry(h).retries.count > h.retries.count
    ensures EffectDue(Retry(h))
    ensures Inv(Retry(h))
  {
  }

  /** A timer that is still armed fires once: it is disarmed and calls
      `retry`, so a new cycle is due; nothing but the timer and the token changes. */
  lemma TimerFireTriggersCycle<K, V, E>(h: Hook<K, V, E>, t: nat)
    requires Inv(h) && h.mounted
    requires t < |h.timers| && h.timers[t].armed
    ensures FireTimer(h, t).retries == RetryState(h.retries.count + 1, true)
    ensures EffectDue(FireTimer(h, t))
    ensures FireTimer(h, t).timers == h.timers[t := Timer(h.timers[t].delayMs, false)]
    ensures FireTimer(h, t).(timers := h.timers, retries := h.retries) == h
    ensures Inv(FireTimer(h, t))
  {
  }

  // ---------------------------------------------------------------- cleanup

  /** After the cleanup no timer can fire and no miss-path fetch is pending;
      fetches started on the hit path are not touched. */
  lemma CleanupQuiesces<K, V, E>(h: Hook<K, V, E>)
    requires Inv(h)
    ensures Inv(Cleanup(h))
    ensures forall t :: 0 <= t < |Cleanup(h).timers| ==> !Cleanup(h).timers[t].armed
    ensures forall i :: 0 <= i < |Cleanup(h).fetches| && Cleanup(h).fetches[i].origin.MissPath? ==>
              !Cleanup(h).fetches[i].status.Pending?
    ensures forall i :: 0 <= i < |h.fetches| && h.fetches[i].origin.HitPath? ==> Cleanup(h).fetches[i] == h.fetches[i]
  {
    var r := Cleanup(h);
    if h.installed.Some? {
      var e := h.installed.value;
      forall t | 0 <= t < |r.timers|
        ensures !r.timers[t].armed
      {
        if h.timers[t].armed {
          assert e.timer == Some(t);
        }
      }
      forall i | 0 <= i < |r.fetches| && r.fetches[i].origin.MissPath?
        ensures !r.fetches[i].status.Pending?
      {
        if h.fetches[i].status.Pending? {
          assert e.future == FetchFuture(i);
        }
      }
    }
  }

  // ----------------------------------------------------------------- cycles

  /** A cycle on a cache hit shows the cached value at once, never Loading,
      and starts a fetch iff the `retries` token asks for revalidation; that
      fetch is not the future the cleanup will cancel. */
  lemma CycleOnHit<K, V, E>(h: Hook<K, V, E>, v: V)
    requires EffectDue(h) && Cache.Get(h.store, h.url) == Some(v)
    ensures RunCycle(h).data == Done(Ok(Val(v)))
    ensures |RunCycle(h).fetches| == |h.fetches| + (if h.retries.revalidate then 1 else 0)
    ensures h.retries.revalidate ==> RunCycle(h).fetches[|h.fetches|] == Fetch(h.url, HitPath, Pending)
    ensures RunCycle(h).installed.Some? && RunCycle(h).installed.value.future == ValueFuture
    ensures RunCycle(h).store == h.store && RunCycle(h).retries == h.retries
  {
  }

  /** A cycle on a cache miss shows Loading and starts exactly one fetch, the
      one the next cleanup will cancel. */
  lemma CycleOnMiss<K, V, E>(h: Hook<K, V, E>)
    requires EffectDue(h) && Cache.Get(h.store, h.url).None?
    ensures RunCycle(h).data == Loading
    ensures |RunCycle(h).fetches| == |h.fetches| + 1
    ensures RunCycle(h).fetches[|h.fetches|] == Fetch(h.url, MissPath, Pending)
    ensures RunCycle(h).installed == Some(Effect(h.url, h.retries, FetchFuture(|h.fetches|), RunCycle(h).installed.value.timer))
    ensures RunCycle(h).store == h.store && RunCycle(h).retries == h.retries
  {
  }

  /** A cycle arms a timer iff `revalidate` is truthy (so `false` and `0`
      disable it), with a delay of that many seconds in milliseconds; it is
      then the only armed timer. */
  lemma CycleArmsTimer<K, V, E>(h: Hook<K, V, E>)
    requires Inv(h) && EffectDue(h)
    ensures RunCycle(h).installed.Some?
    ensures RunCycle(h).installed.value.timer.Some? <==> Truthy(h.settings.revalidateEvery)
    ensures Truthy(h.settings.revalidateEvery) ==>
              && RunCycle(h).installed.value.timer == Some(|h.timers|)
              && RunCycle(h).timers == Cleanup(h).timers + [Timer(h.settings.revalidateEvery.n * 1000, true)]
    ensures forall t :: 0 <= t < |RunCycle(h).timers| && RunCycle(h).timers[t].armed ==> t == |h.timers|
  {
    CleanupQuiesces(h);
  }

  /** A cycle keeps the invariant. */
  lemma CyclePreservesInv<K, V, E>(h: Hook<K, V, E>)
    requires Inv(h)
    ensures Inv(RunCycle(h))
  {
    if EffectDue(h) {
      CleanupQuiesces(h);
      var c := Cleanup(h);
      var r := EffectBody(c);
      assert forall i :: 0 <= i < |c.fetches| ==> r.fetches[i] == c.fetches[i];
      assert forall t :: 0 <= t < |c.timers| ==> r.timers[t] == c.timers[t];
    }
  }

  /** A timer the cleanup cleared never calls `retry`. */
  lemma ClearedTimerNeverFires<K, V, E>(h: Hook<K, V, E>, t: nat)
    requires Inv(h)
    ensures FireTimer(Cleanup(h), t) == Cleanup(h)
  {
    CleanupQuiesces(h);
  }

  /** A render with a different url re-runs the effect for that url: the old
      effect's miss-path fetch is cancelled, the new url is served from the
      cache or fetched, and the new effect depends on the new url. */
  lemma NewUrlRunsCycle<K, V, E>(h: Hook<K, V, E>, url: K)
    requires Inv(h) && h.mounted && h.installed.Some? && h.installed.value.url != url
    ensures EffectDue(h.(url := url))
    ensures Rerender(h, url).url == url && Rerender(h, url).retries == h.retries
    ensures Rerender(h, url).installed.Some?
    ensures Rerender(h, url).installed.value.url == url && Rerender(h, url).installed.value.retries == h.retries
    ensures Rerender(h, url).data ==
              (if Cache.Get(h.store, url).Some? then Done(Ok(Val(Cache.Get(h.store, url).value))) else Loading)
    ensures forall i :: 0 <= i < |h.fetches| && h.fetches[i].origin.MissPath? ==>
              !Rerender(h, url).fetches[i].status.Pending?
    ensures Inv(Rerender(h, url))
  {
    var g := h.(url := url);
    CleanupQuiesces(g);
    CyclePreservesInv(g);
    var c := Cleanup(g);
    var r := EffectBody(c);
    assert forall i :: 0 <= i < |c.fetches| ==> r.fetches[i] == c.fetches[i];
  }

  /** While the invariant holds, at most one timer is armed. */
  lemma AtMostOneArmedTimer<K, V, E>(h: Hook<K, V, E>, t1: nat, t2: nat)
    requires Inv(h)
    requires t1 < |h.timers| && t2 < |h.timers| && h.timers[t1].armed && h.timers[t2].armed
    ensures t1 == t2
  {
  }

  // ----------------------------------------------------------- settlements

  /** A successful fetch writes the cache under the url it was started for,
      then shows the value; the `retries` token and `onError` are untouched. */
  lemma SettleOkWritesCache<K, V, E>(h: Hook<K, V, E>, id: nat, value: JsValue<V>)
    requires id < |h.fetches| && h.fetches[id].status.Pending?
    ensures Settle(h, id, Ok(value)).store == Cache.Set(h.store, h.fetches[id].url, value)
    ensures h.store.Provided? ==> Cache.Get(Settle(h, id, Ok(value)).store, h.fetches[id].url) == FromNullable(value)
    ensures h.mounted ==> Settle(h, id, Ok(value)).data == Done(Ok(value))
    ensures Settle(h, id, Ok(value)).retries == h.retries
    ensures Settle(h, id, Ok(value)).onErrorLog == h.onErrorLog
  {
  }

  /** A failed fetch leaves the cache alone, calls `onError` exactly once with
      the error, calls `retry` iff `retryOnError`, and shows the error. */
  lemma SettleErrorKeepsCache<K, V, E>(h: Hook<K, V, E>, id: nat, e: E)
    requires id < |h.fetches| && h.fetches[id].status.Pending?
    ensures Settle(h, id, Error(e)).store == h.store
    ensures Settle(h, id, Error(e)).onErrorLog == h.onErrorLog + [e]
    ensures Settle(h, id, Error(e)).retries ==
              if h.settings.retryOnError && h.mounted then RetryState(h.retries.count + 1, true) else h.retries
    ensures h.mounted ==> Settle(h, id, Error(e)).data == Done(Error(e))
  {
  }

  /** A cancelled fetch has no effect when it settles. */
  lemma CancelledFetchIsIgnored<K, V, E>(h: Hook<K, V, E>, id: nat, result: Result<JsValue<V>, E>)
    requires id < |h.fetches| && h.fetches[id].status.Cancelled?
    ensures Settle(h, id, result) == h
  {
  }

  // ------------------------------------------------------------- invariant

  lemma StepPreservesInv<K, V, E>(h: Hook<K, V, E>, e: Event<K, V, E>)
    requires Inv(h)
    ensures Inv(Step(h, e))
  {
    match e
    case MutateCall(value, revalidate) =>
    case RetryCall =>
    case Commit => CyclePreservesInv(h);
    case NewUrl(url) => if h.mounted { CyclePreservesInv(h.(url := url)); }
    case FetchSettles(id, result) =>
    case TimerFires(t) =>
    case Unmounted => CleanupQuiesces(h);
  }

  /** Every sequence of events from a state satisfying the invariant keeps it. */
  lemma {:induction false} RunPreservesInv<K, V, E>(h: Hook<K, V, E>, events: seq<Event<K, V, E>>)
    requires Inv(h)
    ensures Inv(Run(h, events))
    decreases |events|
  {
    if events != [] {
      StepPreservesInv(h, events[0]);
      RunPreservesInv(Step(h, events[0]), events[1..]);
    }
  }

  // ----------------------------------------------------------------- traces

  /** The `retries` count never goes down. */
  lemma {:induction false} CountNeverDecreases<K, V, E>(h: Hook<K, V, E>, events: seq<Event<K, V, E>>)
    ensures Run(h, events).retries.count >= h.retries.count
    decreases |events|
  {
    if events != [] {
      var next := Step(h, events[0]);
      assert next.retries.count >= h.retries.count by {
        match events[0]
        case Commit =>
        case NewUrl(url) =>
        case _ =>
      }
      CountNeverDecreases(next, events[1..]);
    }
  }

  /** Only successes and `mutate` write the cache: along events with no
      `mutate` and only failed settlements, the store is never changed. */
  lemma {:induction false} FailuresNeverWriteCache<K, V, E>(h: Hook<K, V, E>, events: seq<Event<K, V, E>>)
    requires forall i :: 0 <= i < |events| ==> !events[i].MutateCall?
    requires forall i :: 0 <= i < |events| && events[i].FetchSettles? ==> events[i].result.Error?
    ensures Run(h, events).store == h.store
    decreases |events|
  {
    if events != [] {
      var next := Step(h, events[0]);
      assert next.store == h.store;
      FailuresNeverWriteCache(next, events[1..]);
    }
  }

  /** Without a provider the store stays the default context whatever
      happens, so every cycle takes the miss path. */
  lemma {:induction false} DefaultContextAlwaysMisses<K, V, E>(h: Hook<K, V, E>, events: seq<Event<K, V, E>>)
    requires h.store.DefaultContext?
    ensures Run(h, events).store.DefaultContext?
    ensures EffectDue(Run(h, events)) ==> RunCycle(Run(h, events)).data == Loading
    decreases |events|
  {
    if events != [] {
      var next := Step(h, events[0]);
      assert next.store.DefaultContext?;
      DefaultContextAlwaysMisses(next, events[1..]);
    }
  }

  /** With a falsy `revalidate` option no timer is ever created. */
  lemma {:induction false} FalsyRevalidateNeverSetsTimer<K, V, E>(h: Hook<K, V, E>, events: seq<Event<K, V, E>>)
    requires !Truthy(h.settings.revalidateEvery) && h.timers == []
    ensures Run(h, events).timers == []
    decreases |events|
  {
    if events != [] {
      var next := Step(h, events[0]);
      assert next.timers == [] && next.settings == h.settings;
      FalsyRevalidateNeverSetsTimer(next, events[1..]);
    }
  }

  /** After unmounting nothing new is started: no fetch, no timer, and the
      state slots no longer change; no timer can fire. */
  lemma {:induction false} UnmountedStaysQuiet<K, V, E>(h: Hook<K, V, E>, events: seq<Event<K, V, E>>)
    requires Inv(h) && !h.mounted
    ensures |Run(h, events).fetches| == |h.fetches|
    ensures |Run(h, events).timers| == |h.timers|
    ensures forall t :: 0 <= t < |Run(h, events).timers| ==> !Run(h, events).timers[t].armed
    ensures Run(h, events).data == h.data && Run(h, events).retries == h.retries
    decreases |events|
  {
    if events != [] {
      var next := Step(h, events[0]);
      StepPreservesInv(h, events[0]);
      assert |next.fetches| == |h.fetches| && |next.timers| == |h.timers|;
      assert !next.mounted && next.data == h.data && next.retries == h.retries;
      UnmountedStaysQuiet(next, events[1..]);
    }
  }
}
