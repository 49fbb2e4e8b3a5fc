/**
 * The browser's `localStorage`, abstracted as a finite map from keys to
 * string values, together with the JavaScript truthiness test that the
 * components apply to the value `getItem` returns (`string | null`).
 */
module Storage {

  datatype Option<+T> = None | Some(value: T)

  /** The contents of `localStorage`. */
  type Store = map<string, string>

  /** `localStorage.getItem(key)`: the stored string, or `null` when absent. */
  function GetItem(store: Store, key: string): (r: Option<string>)
    ensures r.Some? <==> key in store
    ensures r.Some? ==> r.value == store[key]
  {
    if key in store then Some(store[key]) else None
  }

  /** `localStorage.setItem(key, value)`: overwrites `key` and no other key. */
  function SetItem(store: Store, key: string, value: string): (r: Store)
    ensures GetItem(r, key) == Some(value)
    ensures forall k :: k != key ==> GetItem(r, k) == GetItem(store, k)
    ensures r.Keys == store.Keys + {key}
  {
    store[key := value]
  }

  /** JavaScript truthiness of a `string | null`: `null` and `""` are falsy. */
  predicate Truthy(s: Option<string>)
  {
    s.Some? && s.value != ""
  }
}
