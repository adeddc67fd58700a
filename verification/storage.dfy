/** The extension's local key/value store (`chrome.storage.local`), shared by
    the background process and the popup. Reads and writes are treated as
    immediate. */
module Storage {
  import opened Wrappers

  /** A JSON value held under one key. */
  datatype Value = Null | Num(n: int) | Str(s: string) | Bool(b: bool)

  type Store = map<string, Value>

  /** The item under `key`, if any. */
  function Get(st: Store, key: string): (r: Option<Value>)
    ensures r.Some? <==> key in st
    ensures r.Some? ==> r.value == st[key]
  {
    if key in st then Some(st[key]) else None
  }

  /** `set(items)`: a merge, so keys outside `items` keep their values. */
  function SetItems(st: Store, items: map<string, Value>): (r: Store)
    ensures r.Keys == st.Keys + items.Keys
    ensures forall k :: k in items ==> r[k] == items[k]
    ensures forall k :: k in st && k !in items ==> r[k] == st[k]
  {
    st + items
  }

  /** `remove(keys)`: only the named keys disappear. */
  function RemoveKeys(st: Store, keys: set<string>): (r: Store)
    ensures r.Keys == st.Keys - keys
    ensures forall k :: k in r ==> r[k] == st[k]
  {
    st - keys
  }

  /** `clear()`: every key disappears, whatever component wrote it. */
  function ClearAll(st: Store): (r: Store)
    ensures forall k :: Get(r, k).None?
  {
    map[]
  }
}
