/**
 * Concrete runs of the hook object, as a host would drive it: renders and
 * commits, fetch settlements, mutations. Each method returns what a caller
 * would observe and states it.
 */
module Scenarios {
  import opened Boxed
  import Config
  import Cache
  import opened Revalidation
  import opened Hook

  type Shown = AsyncData<Result<JsValue<string>, string>>

  /** Empty cache: NotAsked, then Loading, then the fetched value, which is cached. */
  method MissThenSuccess() returns (observed: seq<Shown>, cached: Option<string>)
    ensures observed == [NotAsked, Loading, Done(Ok(Val("A")))]
    ensures cached == Some("A")
  {
    var store := new Config.DataCacheConfig<string, string>(None);
    var sub := new Subscription<string, string, string>("user/1", UseDataOptions(None, None), store);
    observed := [sub.data];
    sub.RunCycle();
    observed := observed + [sub.data];
    sub.Settle(0, Ok(Val("A")));
    observed := observed + [sub.data];
    cached := store.Get("user/1");
  }

  /** A cached value is shown at once on mount, with no fetch; `mutate(v)`
      without revalidation shows the new value, still with no fetch. */
  method MutateWithoutRevalidate() returns (onMount: Shown, afterMutate: Shown, fetchCount: nat, cached: Option<string>)
    ensures onMount == Done(Ok(Val("A")))
    ensures afterMutate == Done(Ok(Val("B")))
    ensures fetchCount == 0
    ensures cached == Some("B")
  {
    var store := new Config.DataCacheConfig<string, string>(Some(map["user/1" := Val("A")]));
    var sub := new Subscription<string, string, string>("user/1", UseDataOptions(None, Some(RevalidateFalse)), store);
    sub.RunCycle();
    onMount := sub.data;
    sub.Mutate(Val("B"), Some(false));
    sub.RunCycle();
    afterMutate := sub.data;
    fetchCount := |sub.fetches|;
    cached := store.Get("user/1");
  }

  /** A fetcher that always fails, with `retryOnError`: each failure is
      reported once and retried at the next commit; the cache stays empty. */
  method FailingFetcherRetries() returns (shown: Shown, reported: seq<string>, fetchCount: nat, cached: Option<string>)
    ensures shown == Done(Error("boom"))
    ensures reported == ["boom", "boom"]
    ensures fetchCount == 2
    ensures cached == None
  {
    var store := new Config.DataCacheConfig<string, string>(None);
    var sub := new Subscription<string, string, string>("user/1", UseDataOptions(Some(true), Some(RevalidateFalse)), store);
    sub.RunCycle();
    sub.Settle(0, Error("boom"));
    sub.RunCycle();
    sub.Settle(1, Error("boom"));
    shown := sub.data;
    reported := sub.onErrorLog;
    fetchCount := |sub.fetches|;
    cached := store.Get("user/1");
  }

  /** Without a provider a mutated value is never found: the next cycle
      shows Loading and fetches. */
  method DefaultContextIgnoresMutate() returns (shown: Shown, fetchCount: nat)
    ensures shown == Loading
    ensures fetchCount == 2
  {
    var sub := new Subscription<string, string, string>("user/1", UseDataOptions(None, None), null);
    sub.RunCycle();
    sub.Mutate(Val("A"), None);
    sub.RunCycle();
    shown := sub.data;
    fetchCount := |sub.fetches|;
  }

  /** A `revalidate` of 0 is falsy: no timer is set. */
  method ZeroRevalidateSetsNoTimer() returns (timerCount: nat)
    ensures timerCount == 0
  {
    var sub := new Subscription<string, string, string>("user/1", UseDataOptions(None, Some(Seconds(0))), null);
    sub.RunCycle();
    timerCount := |sub.timers|;
  }

  /** A record read before a write keeps its contents: the write installs a
      new record instead of changing the old one. */
  method SnapshotSurvivesSet() returns (snapshot: Config.Record<string, string>, current: Config.Record<string, string>)
    ensures snapshot == map["k" := Val("A")]
    ensures current == map["k" := Val("B"), "j" := Val("C")]
  {
    var store := new Config.DataCacheConfig<string, string>(Some(map["k" := Val("A")]));
    snapshot := store.cache;
    store.Set("k", Val("B"));
    store.Set("j", Val("C"));
    current := store.cache;
  }

  /** The revalidation a cache hit starts is not the future its cleanup
      cancels, so it outlives the cycle: here it settles after a later
      `mutate` and replaces the mutated value both on screen and in the cache. */
  lemma StaleRevalidationOverwritesMutate()
    ensures var before := Run(Init<string, string, string>("k", UseDataOptions(None, Some(RevalidateFalse)),
                                                             Cache.Provided(map["k" := Val("A")])),
                              [Commit, MutateCall(Val("B"), Some(true)), Commit, MutateCall(Val("C"), None), Commit]);
            var after := Settle(before, 0, Ok(Val("D")));
            && before.data == Done(Ok(Val("C")))
            && after.data == Done(Ok(Val("D")))
            && Cache.Get(after.store, "k") == Some("D")
  {
    var h0 := Init<string, string, string>("k", UseDataOptions(None, Some(RevalidateFalse)), Cache.Provided(map["k" := Val("A")]));
    var h1 := RunCycle(h0);
    assert h1.fetches == [] && h1.installed == Some(Effect("k", RetryState(0, false), ValueFuture, None));
    var h2 := Mutate(h1, Val("B"), Some(true));
    assert h2.store == Cache.Provided(map["k" := Val("B")]) && h2.retries == RetryState(1, true);
    var h3 := RunCycle(h2);
    assert h3.fetches == [Fetch("k", HitPath, Pending)];
    var h4 := Mutate(h3, Val("C"), None);
    assert h4.store == Cache.Provided(map["k" := Val("C")]) && h4.retries == RetryState(2, false);
    var h5 := RunCycle(h4);
    assert h5.fetches == [Fetch("k", HitPath, Pending)] && h5.data == Done(Ok(Val("C")));
    var events: seq<Event<string, string, string>> :=
      [Commit, MutateCall(Val("B"), Some(true)), Commit, MutateCall(Val("C"), None), Commit];
    assert Run(h4, events[4..]) == h5;
    assert Run(h3, events[3..]) == h5;
    assert Run(h2, events[2..]) == h5;
    assert Run(h1, events[1..]) == h5;
    assert Run(h0, events) == h5;
  }
}
