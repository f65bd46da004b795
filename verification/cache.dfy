/**
 * The `DataCache` shape the hook reads through the context: either the store of
 * a mounted `DataCacheConfig` provider, or the default context value used when
 * no provider is mounted, whose record is empty, whose `get` finds nothing and
 * whose `set` does nothing.
 */
module Cache {
  import opened Boxed
  import Config

  datatype DataCache<K(==), V> = Provided(record: Config.Record<K, V>) | DefaultContext

  /** The `cache` field of the context value. */
  function Snapshot<K(==), V>(store: DataCache<K, V>): (r: Config.Record<K, V>)
    ensures store.DefaultContext? ==> r == map[]
    ensures store.Provided? ==> r == store.record
  {
    match store
    case Provided(record) => record
    case DefaultContext => map[]
  }

  /** The context's `get`. */
  function Get<K(==), V>(store: DataCache<K, V>, key: K): (r: Option<V>)
    ensures r == Config.GetValue(Snapshot(store), key)
    ensures store.DefaultContext? ==> r.None?
  {
    match store
    case Provided(record) => Config.GetValue(record, key)
    case DefaultContext => None
  }

  /** The context's `set`. */
  function Set<K(==), V>(store: DataCache<K, V>, key: K, value: JsValue<V>): (r: DataCache<K, V>)
    ensures r.Provided? <==> store.Provided?
    ensures store.Provided? ==> r.record == Config.SetValue(store.record, key, value)
    ensures store.DefaultContext? ==> r == store
  {
    match store
    case Provided(record) => Provided(Config.SetValue(record, key, value))
    case DefaultContext => DefaultContext
  }

  /** Applies a series of `set` calls in order. */
  function SetAll<K(==), V>(store: DataCache<K, V>, writes: seq<(K, JsValue<V>)>): DataCache<K, V>
    decreases |writes|
  {
    if writes == [] then store else SetAll(Set(store, writes[0].0, writes[0].1), writes[1..])
  }

  /** With the default context no series of writes is ever visible to a read. */
  lemma {:induction false} DefaultNeverHits<K, V>(writes: seq<(K, JsValue<V>)>, key: K)
    ensures SetAll(DefaultContext, writes) == DefaultContext
    ensures Get(SetAll(DefaultContext, writes), key) == None
    decreases |writes|
  {
    if writes != [] {
      DefaultNeverHits(writes[1..], key);
    }
  }

  /** With a provider, the last write to a key decides what a read returns,
      whatever writes to other keys follow it. */
  lemma {:induction false} ProvidedLastWriteWins<K, V>(
    record: Config.Record<K, V>, key: K, value: JsValue<V>, later: seq<(K, JsValue<V>)>)
    requires forall i :: 0 <= i < |later| ==> later[i].0 != key
    ensures Get(SetAll(Provided(record), [(key, value)] + later), key) == FromNullable(value)
    decreases |later|
  {
    var store := Set(Provided(record), key, value);
    assert ([(key, value)] + later)[1..] == later;
    ReadAfterOtherWrites(store, key, later);
  }

  lemma {:induction false} ReadAfterOtherWrites<K, V>(
    store: DataCache<K, V>, key: K, later: seq<(K, JsValue<V>)>)
    requires forall i :: 0 <= i < |later| ==> later[i].0 != key
    ensures Get(SetAll(store, later), key) == Get(store, key)
    decreases |later|
  {
    if later != [] {
      var next := Set(store, later[0].0, later[0].1);
      if store.Provided? {
        Config.SetKeepsOtherKeys(store.record, later[0].0, later[0].1, key);
      }
      assert Get(next, key) == Get(store, key);
      ReadAfterOtherWrites(next, key, later[1..]);
    }
  }
}
