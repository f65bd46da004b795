/**
 * The per-subscription revalidation state machine that `useData` drives, as
 * pure functions over a snapshot of everything the hook touches: its two state
 * slots (`data`, `retries`), the shared cache store, the fetches and timers it
 * has started, the effect currently installed (its dependencies and what its
 * cleanup will cancel and clear) and the calls made to `onError`.
 *
 * React's scheduling is made explicit: a state update only records the new
 * value, and `RunCycle` is the commit after a render, which re-runs the effect
 * (cleanup first) exactly when its dependencies `[url, retries]` changed.
 */
module Revalidation {
  import opened Boxed
  import Cache

  // ---------------------------------------------------------------- options

  const DefaultRevalidateSeconds: int := 60

  /** The `revalidate` option: `false`, or a number of seconds. */
  datatype Revalidate = RevalidateFalse | Seconds(n: int)

  /** The recognised options as the caller passes them; None is `undefined`. */
  datatype UseDataOptions = UseDataOptions(retryOnError: Option<bool>, revalidate: Option<Revalidate>)

  /** The options after the destructuring defaults are applied. */
  datatype Settings = Settings(retryOnError: bool, revalidateEvery: Revalidate)

  function ResolveOptions(options: UseDataOptions): (s: Settings)
    ensures options.retryOnError.None? ==> s.retryOnError
    ensures options.retryOnError.Some? ==> s.retryOnError == options.retryOnError.value
    ensures options.revalidate.None? ==> s.revalidateEvery == Seconds(DefaultRevalidateSeconds)
    ensures options.revalidate.Some? ==> s.revalidateEvery == options.revalidate.value
  {
    Settings(options.retryOnError.GetOr(true), options.revalidate.GetOr(Seconds(DefaultRevalidateSeconds)))
  }

  /** JavaScript truthiness of the `revalidate` option: `false` and `0` are falsy. */
  predicate Truthy(r: Revalidate)
    ensures Truthy(r) <==> r != RevalidateFalse && r != Seconds(0)
  {
    r.Seconds? && r.n != 0
  }

  /** The `setTimeout` delay: seconds times 1000. */
  function TimeoutMs(r: Revalidate): (ms: int)
    requires r.Seconds?
    ensures ms % 1000 == 0 && ms / 1000 == r.n
    ensures ms != 0 <==> Truthy(r)
  {
    r.n * 1000
  }

  // ------------------------------------------------------------------ state

  /** The `retries` state slot, the token whose change re-runs the effect. */
  datatype RetryState = RetryState(count: int, revalidate: bool)

  /** Which branch of the effect started a fetch. */
  datatype Origin = MissPath | HitPath

  datatype FetchStatus = Pending | Cancelled | Settled

  /** One call of the fetcher: the url it was started for and where it stands. */
  datatype Fetch<K> = Fetch(url: K, origin: Origin, status: FetchStatus)

  /** One `setTimeout` call: its delay and whether it can still fire. */
  datatype Timer = Timer(delayMs: int, armed: bool)

  /** The future the effect keeps for its cleanup: on a cache hit the already
      resolved `Future.value(...).tap(...)` wrapper, on a miss the fetch. */
  datatype Captured = ValueFuture | FetchFuture(id: nat)

  /** An installed effect: the dependencies it ran with and what its cleanup
      cancels and clears. */
  datatype Effect<K> = Effect(url: K, retries: RetryState, future: Captured, timer: Option<nat>)

  datatype Hook<K(==), V, E> = Hook(
    settings: Settings,
    url: K,
    mounted: bool,
    data: AsyncData<Result<JsValue<V>, E>>,
    retries: RetryState,
    store: Cache.DataCache<K, V>,
    fetches: seq<Fetch<K>>,
    timers: seq<Timer>,
    installed: Option<Effect<K>>,
    onErrorLog: seq<E>)

  // ------------------------------------------------------------- invariant

  /** What holds between events: the installed effect's handles exist and its
      dependencies are not ahead of the state; the only timer that can fire is
      the installed effect's; the only miss-path fetch still pending is the one
      the installed effect will cancel. */
  ghost predicate Inv<K, V, E>(h: Hook<K, V, E>)
  {
    && (!h.mounted ==> h.installed.None?)
    && (h.installed.Some? ==>
          && h.installed.value.retries.count <= h.retries.count
          && (h.installed.value.future.FetchFuture? ==>
                h.installed.value.future.id < |h.fetches| && h.fetches[h.installed.value.future.id].origin.MissPath?)
          && (h.installed.value.timer.Some? ==> h.installed.value.timer.value < |h.timers|))
    && (h.timers != [] ==> Truthy(h.settings.revalidateEvery))
    && (forall t :: 0 <= t < |h.timers| ==> h.timers[t].delayMs == h.settings.revalidateEvery.n * 1000)
    && (forall t :: 0 <= t < |h.timers| && h.timers[t].armed ==>
          h.installed.Some? && h.installed.value.timer == Some(t))
    && (forall i :: 0 <= i < |h.fetches| && h.fetches[i].status.Pending? && h.fetches[i].origin.MissPath? ==>
          h.installed.Some? && h.installed.value.future == FetchFuture(i))
  }

  /** React re-runs the effect after a render iff the component is mounted and
      `[url, retries]` differ from the dependencies of the installed effect. */
  predicate EffectDue<K(==), V, E>(h: Hook<K, V, E>)
    ensures !h.mounted ==> !EffectDue(h)
    ensures h.mounted && h.installed.None? ==> EffectDue(h)
    ensures h.mounted && h.installed.Some? ==>
              (EffectDue(h) <==> (h.installed.value.url, h.installed.value.retries) != (h.url, h.retries))
  {
    h.mounted && (h.installed.None? || h.installed.value.url != h.url || h.installed.value.retries != h.retries)
  }

  // ------------------------------------------------------------ operations

  /** The first render: `data` is NotAsked and `retries` is `{count: 0, revalidate: false}`. */
  function Init<K(==), V, E>(url: K, options: UseDataOptions, store: Cache.DataCache<K, V>): (h: Hook<K, V, E>)
    ensures h.data == NotAsked && h.retries == RetryState(0, false)
    ensures h.settings == ResolveOptions(options) && h.url == url && h.store == store
    ensures h.mounted && h.installed.None? && h.fetches == [] && h.timers == [] && h.onErrorLog == []
    ensures Inv(h) && EffectDue(h)
  {
    Hook(ResolveOptions(options), url, true, NotAsked, RetryState(0, false), store, [], [], None, [])
  }

  /** `setData`; React drops an update to an unmounted component. */
  function SetData<K(==), V, E>(h: Hook<K, V, E>, d: AsyncData<Result<JsValue<V>, E>>): Hook<K, V, E>
  {
    if h.mounted then h.(data := d) else h
  }

  /** `retry`: a new `retries` token with the count bumped and revalidation asked for. */
  function Retry<K(==), V, E>(h: Hook<K, V, E>): (r: Hook<K, V, E>)
    ensures h.mounted ==> r.retries.count == h.retries.count + 1 && r.retries.revalidate
    ensures !h.mounted ==> r.retries == h.retries
    ensures r.(retries := h.retries) == h
  {
    if h.mounted then h.(retries := RetryState(h.retries.count + 1, true)) else h
  }

  /** `mutate(value, revalidate = false)`: write the cache, then a new `retries` token. */
  function Mutate<K(==), V, E>(h: Hook<K, V, E>, value: JsValue<V>, revalidate: Option<bool>): (r: Hook<K, V, E>)
    ensures Cache.Get(r.store, h.url) == (if h.store.Provided? then FromNullable(value) else None)
    ensures h.mounted ==> r.retries.count == h.retries.count + 1
    ensures h.mounted ==> r.retries.revalidate == (revalidate == Some(true))
    ensures !h.mounted ==> r.retries == h.retries
    ensures r.(store := h.store, retries := h.retries) == h
  {
    var written := h.(store := Cache.Set(h.store, h.url, value));
    if written.mounted then written.(retries := RetryState(h.retries.count + 1, revalidate.GetOr(false))) else written
  }

  /** `future.cancel()`: a pending fetch is cancelled; the resolved value wrapper has nothing to stop. */
  function CancelFuture<K>(fetches: seq<Fetch<K>>, future: Captured): (r: seq<Fetch<K>>)
    ensures future.ValueFuture? ==> r == fetches
    ensures |r| == |fetches|
    ensures forall i :: 0 <= i < |r| && future != FetchFuture(i) ==> r[i] == fetches[i]
    ensures forall i :: 0 <= i < |r| ==> r[i].url == fetches[i].url && r[i].origin == fetches[i].origin
    ensures future.FetchFuture? && future.id < |r| ==>
              r[future.id].status == (if fetches[future.id].status.Pending? then Cancelled else fetches[future.id].status)
  {
    match future
    case ValueFuture => fetches
    case FetchFuture(id) =>
      if id < |fetches| && fetches[id].status.Pending? then fetches[id := fetches[id].(status := Cancelled)] else fetches
  }

  /** `clearTimeout(handle)`; `clearTimeout(undefined)` does nothing. */
  function ClearTimeout(timers: seq<Timer>, handle: Option<nat>): (r: seq<Timer>)
    ensures handle.None? ==> r == timers
    ensures |r| == |timers|
    ensures forall t :: 0 <= t < |r| && handle != Some(t) ==> r[t] == timers[t]
    ensures handle.Some? && handle.value < |r| ==> r[handle.value] == Timer(timers[handle.value].delayMs, false)
  {
    match handle
    case None => timers
    case Some(t) => if t < |timers| then timers[t := timers[t].(armed := false)] else timers
  }

  /** The effect's cleanup: cancel the captured future and clear the timer. */
  function Cleanup<K(==), V, E>(h: Hook<K, V, E>): (r: Hook<K, V, E>)
    ensures r.installed.None?
    ensures |r.fetches| == |h.fetches| && |r.timers| == |h.timers|
    ensures r.(fetches := h.fetches, timers := h.timers, installed := h.installed) == h
  {
    match h.installed
    case None => h
    case Some(e) => h.(fetches := CancelFuture(h.fetches, e.future), timers := ClearTimeout(h.timers, e.timer), installed := None)
  }

  /** A call of the fetcher for the current url. */
  function StartFetch<K(==), V, E>(h: Hook<K, V, E>, origin: Origin): Hook<K, V, E>
  {
    h.(fetches := h.fetches + [Fetch(h.url, origin, Pending)])
  }

  /** The effect body: the hit or miss branch, then the revalidation timer. */
  function EffectBody<K(==), V, E>(h: Hook<K, V, E>): Hook<K, V, E>
  {
    var cached := Cache.Get(h.store, h.url);
    var served :=
      if cached.Some? then
        var done := h.(data := Done(Ok(Val(cached.value))));
        if h.retries.revalidate then StartFetch(done, HitPath) else done
      else
        StartFetch(h.(data := Loading), MissPath);
    var future := if cached.Some? then ValueFuture else FetchFuture(|h.fetches|);
    var armed := Truthy(h.settings.revalidateEvery);
    var timed :=
      if armed then served.(timers := served.timers + [Timer(TimeoutMs(h.settings.revalidateEvery), true)])
      else served;
    var timer := if armed then Some(|served.timers|) else None;
    timed.(installed := Some(Effect(h.url, h.retries, future, timer)))
  }

  /** The commit after a render: if the dependencies changed, the previous
      effect's cleanup runs and then the effect body. */
  function RunCycle<K(==), V, E>(h: Hook<K, V, E>): Hook<K, V, E>
  {
    if EffectDue(h) then EffectBody(Cleanup(h)) else h
  }

  /** A fetch settles. A cancelled or already settled fetch runs none of its
      taps. Otherwise, on Error: `retry()` if `retryOnError`, `onError(error)`,
      then `Done(Error)`; on Ok: `cache.set(url, value)`, then `Done(Ok)`. */
  function Settle<K(==), V, E>(h: Hook<K, V, E>, id: nat, result: Result<JsValue<V>, E>): (r: Hook<K, V, E>)
    ensures id >= |h.fetches| || !h.fetches[id].status.Pending? ==> r == h
    ensures id < |h.fetches| && h.fetches[id].status.Pending? ==>
      && r.fetches == h.fetches[id := h.fetches[id].(status := Settled)]
      && r.data == (if h.mounted then Done(result) else h.data)
      && r.timers == h.timers && r.installed == h.installed
  {
    if id >= |h.fetches| || !h.fetches[id].status.Pending? then h
    else
      var f := h.fetches[id];
      var settled := h.(fetches := h.fetches[id := f.(status := Settled)]);
      match result
      case Ok(value) =>
        SetData(settled.(store := Cache.Set(settled.store, f.url, value)), Done(Ok(value)))
      case Error(e) =>
        var retried := if h.settings.retryOnError then Retry(settled) else settled;
        SetData(retried.(onErrorLog := retried.onErrorLog + [e]), Done(Error(e)))
  }

  /** An armed timer fires: it calls `retry`, and cannot fire again. */
  function FireTimer<K(==), V, E>(h: Hook<K, V, E>, t: nat): Hook<K, V, E>
  {
    if t < |h.timers| && h.timers[t].armed then Retry(h.(timers := h.timers[t := h.timers[t].(armed := false)]))
    else h
  }

  /** A render with a new `url` prop, and its commit. */
  function Rerender<K(==), V, E>(h: Hook<K, V, E>, url: K): Hook<K, V, E>
  {
    if h.mounted then RunCycle(h.(url := url)) else h
  }

  /** The component unmounts: the last cleanup runs and state updates stop. */
  function Unmount<K(==), V, E>(h: Hook<K, V, E>): (r: Hook<K, V, E>)
    ensures !r.mounted && r.installed.None?
  {
    Cleanup(h).(mounted := false)
  }

  // ---------------------------------------------------------------- traces

  datatype Event<K, V, E> =
    | MutateCall(value: JsValue<V>, revalidate: Option<bool>)
    | RetryCall
    | Commit
    | NewUrl(url: K)
    | FetchSettles(id: nat, result: Result<JsValue<V>, E>)
    | TimerFires(timer: nat)
    | Unmounted

  function Step<K(==), V, E>(h: Hook<K, V, E>, e: Event<K, V, E>): Hook<K, V, E>
  {
    match e
    case MutateCall(value, revalidate) => Mutate(h, value, revalidate)
    case RetryCall => Retry(h)
    case Commit => RunCycle(h)
    case NewUrl(url) => Rerender(h, url)
    case FetchSettles(id, result) => Settle(h, id, result)
    case TimerFires(t) => FireTimer(h, t)
    case Unmounted => Unmount(h)
  }

  function Run<K(==), V, E>(h: Hook<K, V, E>, events: seq<Event<K, V, E>>): Hook<K, V, E>
    decreases |events|
  {
    if events == [] then h else Run(Step(h, events[0]), events[1..])
  }
}
