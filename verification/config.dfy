/**
 * The cache provider (`DataCacheConfig`): a record from keys to values held in
 * one state slot. Reads go through `Option.fromNullable`; writes replace the
 * whole record by a copy with one slot overwritten, so a snapshot taken before
 * a write is never changed by it.
 */
module Config {
  import opened Boxed

  /** The provider's `cache` state: a record keyed by string, number or symbol.
      A key that is absent reads as `undefined`. */
  type Record<K(==), V> = map<K, JsValue<V>>

  /** The initial state of the provider: the `fallback` prop, or `{}`. */
  function Initial<K(==), V>(fallback: Option<Record<K, V>>): (r: Record<K, V>)
    ensures fallback.None? ==> r == map[]
    ensures fallback.Some? ==> r == fallback.value
  {
    fallback.GetOr(map[])
  }

  /** `getValue`: `Option.fromNullable(cache[key])`. */
  function GetValue<K(==), V>(cache: Record<K, V>, key: K): (r: Option<V>)
    ensures r.Some? <==> key in cache && cache[key].Val?
    ensures r.Some? ==> cache[key] == Val(r.value)
  {
    if key in cache then FromNullable(cache[key]) else None
  }

  /** `setValue`: the spread `{...cache, [key]: value}`. */
  function SetValue<K(==), V>(cache: Record<K, V>, key: K, value: JsValue<V>): (r: Record<K, V>)
    ensures r.Keys == cache.Keys + {key}
    ensures r[key] == value
    ensures forall k :: k in cache && k != key ==> r[k] == cache[k]
  {
    cache[key := value]
  }

  /** A non-nullish value written under a key is read back from it. */
  lemma GetAfterSet<K, V>(cache: Record<K, V>, key: K, value: JsValue<V>)
    ensures GetValue(SetValue(cache, key, value), key) == FromNullable(value)
    ensures value.Val? ==> GetValue(SetValue(cache, key, value), key) == Some(value.value)
  {
  }

  /** A write leaves every other key as it was. */
  lemma SetKeepsOtherKeys<K, V>(cache: Record<K, V>, key: K, value: JsValue<V>, other: K)
    requires other != key
    ensures GetValue(SetValue(cache, key, value), other) == GetValue(cache, other)
  {
  }

  /** Last write wins: a second write to the same key hides the first. */
  lemma LastWriteWins<K, V>(cache: Record<K, V>, key: K, first: JsValue<V>, second: JsValue<V>)
    ensures SetValue(SetValue(cache, key, first), key, second) == SetValue(cache, key, second)
  {
  }

  /** Writing the same value twice is the same as writing it once. */
  lemma SetIdempotent<K, V>(cache: Record<K, V>, key: K, value: JsValue<V>)
    ensures SetValue(SetValue(cache, key, value), key, value) == SetValue(cache, key, value)
  {
  }

  /** The provider component: its `cache` state slot, the getter and the setter. */
  class DataCacheConfig<K(==), V> {
    var cache: Record<K, V>

    constructor (fallback: Option<Record<K, V>>)
      ensures cache == Initial(fallback)
    {
      cache := fallback.GetOr(map[]);
    }

    /** `getValue` on the current record. */
    function Get(key: K): Option<V>
      reads this
    {
      GetValue(cache, key)
    }

    /** Replaces the state slot by a fresh record. Records are values, so a
        record a reader obtained before the write keeps its contents. */
    method Set(key: K, value: JsValue<V>)
      modifies this
      ensures cache == SetValue(old(cache), key, value)
      ensures Get(key) == FromNullable(value)
      ensures forall k :: k != key ==> Get(k) == GetValue(old(cache), k)
    {
      cache := SetValue(cache, key, value);
    }
  }
}
