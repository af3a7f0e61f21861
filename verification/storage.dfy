/** The browser's origin-scoped key/value store (`localStorage`), made an
    explicit immutable value that the session operations take and return. */
module Storage {
  import opened Wrappers

  type Store = map<string, string>

  /** The one slot the session persists its token in. */
  const TokenKey: string := "jwtToken"

  /** `localStorage.getItem`: the stored string, or `null` when the key is absent. */
  function GetItem(st: Store, key: string): Option<string>
  {
    if key in st then Some(st[key]) else None
  }

  /** `localStorage.setItem`. */
  function SetItem(st: Store, key: string, value: string): Store
  {
    st[key := value]
  }

  /** `localStorage.removeItem`; removing an absent key changes nothing. */
  function RemoveItem(st: Store, key: string): Store
  {
    st - {key}
  }

  /** JavaScript truthiness of a `getItem` result: `null` and `""` are falsy. */
  predicate Truthy(v: Option<string>)
  {
    v.Some? && v.value != ""
  }

  /** The two stores hold the same value (or nothing) under every key but `key`. */
  ghost predicate AgreeExcept(a: Store, b: Store, key: string)
  {
    forall k :: k != key ==> GetItem(a, k) == GetItem(b, k)
  }
}
