/** The durable key/value store (services/state_store.py), as a map from key
    to the saved string. A key saved with the empty string reads back as
    absent, because `get` treats empty data like a missing key. */
module StateStore {
  import opened Base

  type Store = map<string, string>

  /** `StateStore.get`: the saved value, or `None` when the key is missing or
      its data is empty. */
  function Get(st: Store, key: string): Option<string> {
    if key in st && st[key] != "" then Some(st[key]) else None
  }

  /** Two stores agree on every key other than `key`, both in what is saved
      and in what `Get` returns. */
  ghost predicate SameExcept(st: Store, st': Store, key: string) {
    forall k :: k != key ==> (k in st <==> k in st') && (k in st ==> st[k] == st'[k])
  }

  /** `StateStore.set`. */
  function Set(st: Store, key: string, value: string): (r: Store)
    ensures value != "" ==> Get(r, key) == Some(value)
    ensures value == "" ==> Get(r, key) == None
    ensures SameExcept(st, r, key)
    ensures forall k :: k != key ==> Get(r, k) == Get(st, k)
  {
    st[key := value]
  }

  /** `StateStore.delete`. */
  function Delete(st: Store, key: string): (r: Store)
    ensures Get(r, key) == None
    ensures key !in r
    ensures SameExcept(st, r, key)
    ensures forall k :: k != key ==> Get(r, k) == Get(st, k)
  {
    st - {key}
  }
}
