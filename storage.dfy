/**
 * The device's asynchronous key-value store (`AsyncStorage`). Values are kept
 * as the records themselves rather than as JSON text. A store is `reliable` or
 * not: a reliable store carries out every call, while on an unreliable one any
 * call may reject, the outcome being chosen nondeterministically. A rejected
 * write or removal leaves the store as it was.
 */
module Storage {
  import opened Wrappers

  /** The key the auth context persists the session record under. */
  const UserKey := "user"

  /** The key the API client persists the bearer token under. */
  const TokenKey := "auth_token"

  /** Outcome of `getItem`: a value, `null` for an absent key, or a rejected call. */
  datatype Read<V> = Found(value: V) | Missing | ReadFailed

  function Lookup<V>(items: map<string, V>, key: string): (r: Option<V>)
    ensures r.Some? <==> key in items
    ensures r.Some? ==> items[key] == r.value
  {
    if key in items then Some(items[key]) else None
  }

  class KeyValueStore<V> {
    var items: map<string, V>
    /** Whether every platform call succeeds. */
    const reliable: bool

    constructor (initial: map<string, V>, reliable: bool)
      ensures items == initial && this.reliable == reliable
    {
      items := initial;
      this.reliable := reliable;
    }

    /** `getItem(key)`. */
    method GetItem(key: string) returns (r: Read<V>)
      ensures r.Found? ==> Lookup(items, key) == Some(r.value)
      ensures r.Missing? ==> key !in items
      ensures reliable ==> !r.ReadFailed?
    {
      var failed: bool := *;
      failed := failed && !reliable;
      if failed {
        r := ReadFailed;
      } else if key in items {
        r := Found(items[key]);
      } else {
        r := Missing;
      }
    }

    /** `setItem(key, value)`; `ok` is false when the call rejected. */
    method SetItem(key: string, value: V) returns (ok: bool)
      modifies this
      ensures ok ==> items == old(items)[key := value]
      ensures !ok ==> items == old(items)
      ensures reliable ==> ok
    {
      ok := *;
      ok := ok || reliable;
      if ok {
        items := items[key := value];
      }
    }

    /** `removeItem(key)`; `ok` is false when the call rejected. */
    method RemoveItem(key: string) returns (ok: bool)
      modifies this
      ensures ok ==> items == old(items) - {key}
      ensures !ok ==> items == old(items)
      ensures reliable ==> ok
    {
      ok := *;
      ok := ok || reliable;
      if ok {
        items := items - {key};
      }
    }
  }
}
