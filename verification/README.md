# use-boxed-data: cache store and revalidation hook, modelled in Dafny

This project models the core of `use-boxed-data`, a React data-fetching layer
built on the Option/Result/AsyncData types of a Future library:

- the keyed cache store: the `DataCacheConfig` provider, whose `cache` state
  slot is a record read through `Option.fromNullable` and replaced by a
  copy-on-write spread on every write, and the default context value used when
  no provider is mounted (empty record, `get` finds nothing, `set` does nothing);
- the per-subscription revalidation state machine of `useData`: the `data`
  slot (`NotAsked | Loading | Done(Ok | Error)`), the `retries` token
  (`{count, revalidate}`), `mutate`, `retry`, fetch settlement, the effect
  body (cache hit or miss, then the revalidation timer) and its cleanup.

Files:

- `boxed.dfy` (module `Boxed`): Option, Result, AsyncData, and `JsValue`, a
  value that may be `null`/`undefined`, with `FromNullable`.
- `config.dfy` (module `Config`): the provider's record operations and the
  `DataCacheConfig` class whose `cache` field `Set` replaces.
- `cache.dfy` (module `Cache`): the `DataCache` the hook sees through the
  context: a provider's record, or the default context.
- `revalidation.dfy` (module `Revalidation`): the hook as pure transitions on
  a `Hook` snapshot (state slots, store, fetch handles, timer handles, the
  installed effect, the `onError` calls), the invariant `Inv`, and `Step`/`Run`
  over event sequences.
- `properties.dfy` (module `HookProperties`): lemmas about one event and
  about whole event sequences.
- `hook.dfy` (module `Hook`): the class `Subscription`, whose methods change
  its fields step by step. The operations a host calls (`Retry`, `Mutate`,
  `RunCycle`, `Settle`, `FireTimer`, `Rerender`, `Unmount`) are each proved to
  perform exactly one transition of `Revalidation` while keeping `Inv`. The
  helpers they call (`WriteCache`, `SetData`, `Cleanup`, `StartFetch`,
  `EffectBody`) each perform one piece of a transition and promise no
  invariant of their own.
- `scenarios.dfy` (module `Scenarios`): concrete runs with their observed
  results.

React's scheduling is explicit here. A state update only records the new
value. `RunCycle` is the commit after a render. It re-runs the effect, cleanup
first, exactly when the component is mounted and `[url, retries]` differ from
the dependencies of the installed effect (`EffectDue`). An update to an
unmounted component is dropped. A fetch is a handle that later settles
(`Settle`); a timer is a handle with a delay that may fire (`FireTimer`).

Behaviour of the code that the model keeps:

- No guard stops a fetch started on the cache-hit path. On a cache hit the
  future kept for the cleanup is the already resolved
  `Future.value(...).tap(...)` wrapper (lib/hook.ts:82), not the background
  fetch started inside it (lib/hook.ts:87). So the cleanup
  (lib/hook.ts:105) does not stop that fetch, and it can land after a later
  `mutate` and replace the mutated value on screen and in the cache.
  `Scenarios.StaleRevalidationOverwritesMutate` shows such a run. Only
  miss-path fetches are cancelled (`HookProperties.CleanupQuiesces`).
- The timer is set when the effect runs (lib/hook.ts:101), not after a
  fetch settles, whatever the fetch does.
- Any falsy `revalidate` disables the timer (lib/hook.ts:101): `0` as well as
  `false`.
- After unmount, a hit-path fetch that is still running still writes the
  cache and still calls `onError`; only `setData` and `setRetry` are dropped.

## Model

| member | source | states |
|---|---|---|
| `Boxed.FromNullable` | lib/config.tsx:22 | Some exactly when the value is neither null nor undefined, and then it carries that value |
| `Config.Initial` | lib/config.tsx:16-18 | the provider's initial record is the `fallback` prop, or the empty record when it is absent |
| `Config.GetValue` | lib/config.tsx:21-24 | a lookup returns Some(v) iff the key is present and holds a non-nullish v; otherwise None |
| `Config.SetValue` | lib/config.tsx:25-26 | a write adds the key, stores the value under it and leaves every other key's value as it was |
| `Config.GetAfterSet` | lib/config.tsx:21-26 | after a write the key reads back as `fromNullable` of the written value, so Some(v) for a non-nullish v |
| `Config.SetKeepsOtherKeys` | lib/config.tsx:26 | a write does not change what any other key reads |
| `Config.LastWriteWins` | lib/config.tsx:26 | two writes to one key equal the second alone |
| `Config.SetIdempotent` | lib/config.tsx:26 | writing the same value twice equals writing it once |
| `Config.DataCacheConfig.constructor` | lib/config.tsx:14-18 | the state slot starts as the fallback record or `{}` |
| `Config.DataCacheConfig.Set` | lib/config.tsx:25-26 | the slot is replaced by the old record with one slot overwritten; the key now reads as the value, other keys as before |
| `Cache.Snapshot` | lib/cache.ts:14 | the default context's record is empty; a provider's is its record |
| `Cache.Get` | lib/cache.ts:15 | the default context finds nothing for any key; a provider reads its record |
| `Cache.Set` | lib/cache.ts:16 | the default context's `set` changes nothing; a provider's replaces its record by the written copy |
| `Cache.DefaultNeverHits` | lib/cache.ts:15-16 | without a provider, after any series of writes the store is unchanged and every read is None |
| `Cache.ProvidedLastWriteWins` | lib/config.tsx:25-26 | with a provider, a key reads as its last written value whatever writes to other keys follow |
| `Cache.ReadAfterOtherWrites` | lib/config.tsx:26 | writes to other keys never change what a key reads |
| `Revalidation.ResolveOptions` | lib/hook.ts:35-40 | `retryOnError` defaults to true and `revalidate` to 60 seconds; given values are kept |
| `Revalidation.Truthy` | lib/hook.ts:101 | the `revalidate` option is falsy exactly for `false` and `0` |
| `Revalidation.TimeoutMs` | lib/hook.ts:101 | the timer delay is the number of seconds in whole milliseconds, and is non-zero exactly when the option is truthy |
| `Revalidation.EffectDue` | lib/hook.ts:109 | the effect runs on the first commit and afterwards exactly when `[url, retries]` differ from the installed effect's; never after unmount |
| `Revalidation.CancelFuture` | lib/hook.ts:105 | cancelling the value wrapper stops nothing; cancelling a fetch marks that pending fetch cancelled and leaves every other fetch as it was |
| `Revalidation.ClearTimeout` | lib/hook.ts:107 | `clearTimeout(undefined)` does nothing; clearing a handle disarms that timer and leaves every other timer as it was |
| `Revalidation.Init` | lib/hook.ts:42-50 | a fresh subscription has `data = NotAsked`, `retries = {count: 0, revalidate: false}`, no fetch, no timer, and its effect is due |
| `Revalidation.Retry` | lib/hook.ts:59-61 | `retry` bumps the count by one and sets `revalidate`, and changes nothing else |
| `Revalidation.Mutate` | lib/hook.ts:53-56 | `mutate(v, r)` makes the url read as v, bumps the count and sets `revalidate` to r (false when omitted), and changes nothing else |
| `Revalidation.Cleanup` | lib/hook.ts:103-108 | the cleanup uninstalls the effect and only touches fetch and timer states |
| `Revalidation.Settle` | lib/hook.ts:64-74 | a cancelled or settled fetch has no effect; a pending one becomes settled and its result is shown |
| `Revalidation.Unmount` | lib/hook.ts:103-108 | after unmount no effect is installed and the hook is no longer mounted |
| `HookProperties.DefaultOptions` | lib/hook.ts:35-40 | with no options the hook retries on error and revalidates every 60 seconds |
| `HookProperties.MutateKeepsOtherKeys` | lib/hook.ts:54 | `mutate` writes only the hook's own key |
| `HookProperties.MutateTriggersCycle` | lib/hook.ts:53-56 | every `mutate` on a mounted hook strictly increases the count, so the effect's dependencies change and a new cycle runs |
| `HookProperties.RetryTriggersCycle` | lib/hook.ts:59-61 | every `retry` strictly increases the count and makes a new cycle due |
| `HookProperties.TimerFireTriggersCycle` | lib/hook.ts:101 | an armed timer that fires is disarmed and calls `retry`: the count goes up by one with `revalidate` set, a new cycle is due, nothing else changes and the invariant holds |
| `HookProperties.CleanupQuiesces` | lib/hook.ts:103-108 | after cleanup no timer is armed and no miss-path fetch is pending, while hit-path fetches are left as they were |
| `HookProperties.CycleOnHit` | lib/hook.ts:78-90 | on a hit the cycle shows `Done(Ok(cached))`, never Loading, and starts a fetch iff `retries.revalidate`; the future kept for cleanup is the value wrapper |
| `HookProperties.CycleOnMiss` | lib/hook.ts:91-96 | on a miss the cycle shows Loading and starts exactly one fetch, which is the future the cleanup will cancel |
| `HookProperties.CycleArmsTimer` | lib/hook.ts:99-101 | a cycle arms a timer iff `revalidate` is truthy, with delay seconds × 1000, and it is then the only armed timer |
| `HookProperties.ClearedTimerNeverFires` | lib/hook.ts:107 | once the cleanup has cleared the timers, a timer firing changes nothing |
| `HookProperties.NewUrlRunsCycle` | lib/hook.ts:78-109 | a new url makes the effect due; the old effect's miss-path fetch is cancelled, the new url is served from the cache or shows Loading, and the new effect depends on the new url |
| `HookProperties.CyclePreservesInv` | lib/hook.ts:77-109 | a commit keeps the invariant |
| `HookProperties.AtMostOneArmedTimer` | lib/hook.ts:106-107 | at most one timer is armed at any time |
| `HookProperties.SettleOkWritesCache` | lib/hook.ts:72-73 | a success writes the value under the fetch's url, then shows `Done(Ok(value))`; `retries` and `onError` are untouched |
| `HookProperties.SettleErrorKeepsCache` | lib/hook.ts:66-73 | a failure leaves the cache unchanged, calls `onError` once with the error, bumps the count with `revalidate` set iff `retryOnError`, and shows `Done(Error(e))` |
| `HookProperties.CancelledFetchIsIgnored` | lib/hook.ts:105 | a cancelled fetch changes nothing when it settles |
| `HookProperties.StepPreservesInv` | lib/hook.ts:53-109 | every event keeps the invariant |
| `HookProperties.RunPreservesInv` | lib/hook.ts:53-109 | every sequence of events keeps the invariant |
| `HookProperties.CountNeverDecreases` | lib/hook.ts:55 | the `retries` count never decreases along any sequence of events |
| `HookProperties.FailuresNeverWriteCache` | lib/hook.ts:66-72 | along events without `mutate` whose settlements all fail, the store never changes |
| `HookProperties.DefaultContextAlwaysMisses` | lib/cache.ts:15-16 | without a provider the store stays the default context, and every cycle shows Loading |
| `HookProperties.FalsyRevalidateNeverSetsTimer` | lib/hook.ts:101 | with `revalidate` false or 0 no timer is ever created |
| `HookProperties.UnmountedStaysQuiet` | lib/hook.ts:103-108 | after unmount no fetch or timer is started, no timer can fire, and `data` and `retries` stay as they were |
| `Hook.Subscription.constructor` | lib/hook.ts:32-50 | the first render builds the initial state of `Revalidation.Init` and satisfies the invariant |
| `Hook.Subscription.WriteCache` | lib/hook.ts:54 | `cache.set` goes to the provider in scope, or does nothing with the default context |
| `Hook.Subscription.SetData` | lib/hook.ts:73 | `setData` replaces `data` while mounted |
| `Hook.Subscription.Retry` | lib/hook.ts:59-61 | performs `Revalidation.Retry` and keeps the invariant |
| `Hook.Subscription.Mutate` | lib/hook.ts:53-56 | performs `Revalidation.Mutate`, writing the shared store, and keeps the invariant |
| `Hook.Subscription.Cleanup` | lib/hook.ts:103-108 | performs `Revalidation.Cleanup` |
| `Hook.Subscription.StartFetch` | lib/hook.ts:65 | records one new pending fetch for the current url and returns its handle |
| `Hook.Subscription.EffectBody` | lib/hook.ts:78-101 | performs `Revalidation.EffectBody` |
| `Hook.Subscription.RunCycle` | lib/hook.ts:77-109 | performs `Revalidation.RunCycle` and keeps the invariant |
| `Hook.Subscription.Settle` | lib/hook.ts:64-74 | performs `Revalidation.Settle` and keeps the invariant |
| `Hook.Subscription.FireTimer` | lib/hook.ts:101 | performs `Revalidation.FireTimer` and keeps the invariant; an armed timer on a mounted hook is disarmed, bumps the count with `revalidate` set, and makes the effect due |
| `Hook.Subscription.Rerender` | lib/hook.ts:109 | performs `Revalidation.Rerender` and keeps the invariant; while mounted, the installed effect afterwards depends on the new url |
| `Hook.Subscription.Unmount` | lib/hook.ts:103-108 | the last cleanup runs and the hook stops accepting state updates |
| `Scenarios.MissThenSuccess` | lib/hook.ts:92-96 | an empty cache shows NotAsked, Loading, then the fetched value, which is then cached |
| `Scenarios.MutateWithoutRevalidate` | lib/hook.ts:53-56 | a cached value is shown on mount without a fetch, and `mutate(v)` shows v without a fetch |
| `Scenarios.FailingFetcherRetries` | lib/hook.ts:66-73 | a fetcher that always fails is retried at each commit, `onError` sees each failure once, and the cache stays empty |
| `Scenarios.DefaultContextIgnoresMutate` | lib/cache.ts:15-16 | without a provider a mutated value is never found and the next cycle fetches again |
| `Scenarios.ZeroRevalidateSetsNoTimer` | lib/hook.ts:101 | `revalidate: 0` sets no timer |
| `Scenarios.SnapshotSurvivesSet` | lib/config.tsx:25-26 | a record read before writes keeps its contents while the slot moves on |
| `Scenarios.StaleRevalidationOverwritesMutate` | lib/hook.ts:78-105 | a hit-path revalidation that outlives its cycle replaces a later `mutate`'s value on screen and in the cache |

## Left out

- React itself: rendering, batching of state updates, `useCallback`
  memoisation and the stale `getValue` closure it can produce, and the
  notification of other components when the provider's record changes. The
  store is one object shared by reference, so every subscription reads the
  latest record.
- `mutate` and `retry` closures from an older render would write under that
  render's url; the model always uses the current url.
- The options object is not an effect dependency; the model fixes the
  settings for the life of a subscription.
- The fetcher, its transport and the pass-through `...options`: a fetch is a
  handle that later settles to Ok or Error.
- The Future library's internals: `cancel` is modelled as stopping all of the
  fetch's taps. Whether cancellation propagates through the trailing
  `.mapOk(identity)` stage is not modelled. The already resolved
  `Future.value(...).tap(...)` is taken to run during the effect.
- Real time: a timer has a delay in milliseconds and fires only as an explicit
  event.
- What the `onError` callback itself does: only the errors passed to it are
  recorded.
- JavaScript numbers: `revalidate` is a whole number of seconds. Fractions,
  NaN and the clamping of negative delays are not modelled, and the
  `retries` count is an unbounded integer.
- Config.GetValue: only the record's own keys are read. In JavaScript
  `cache[key]` also finds properties inherited from `Object.prototype`, so a
  url such as `"constructor"` or `"toString"` hits in the source and misses in
  the model.
- Keys: any type with equality stands for `string | number | symbol`. The
  conversion of number keys to property names (`1` and `"1"` sharing a slot)
  is not modelled.
- `vite.config.ts`: build configuration, with no behaviour.
