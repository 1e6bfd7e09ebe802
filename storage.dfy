/** The browser's `localStorage` / `sessionStorage`: a string-keyed store.
    The application only ever writes `JSON.stringify` of a flat object whose
    fields are strings, so a stored item is modelled by what `JSON.parse`
    makes of it: such an object, or text that does not parse. */
module Storage {
  import opened Common

  datatype StoredItem =
    | JsonObject(fields: map<string, string>)
    | NotJson(text: string)

  /** `item` is truthy in JavaScript: every serialized object is, and so
      is every non-empty string; only the empty string is not. */
  predicate Truthy(item: StoredItem)
  {
    !(item.NotJson? && item.text == "")
  }

  /** `getItem(key)`: null when the key is absent. */
  function Lookup(items: map<string, StoredItem>, key: string): (r: Option<StoredItem>)
    ensures r.Some? <==> key in items
    ensures r.Some? ==> r.value == items[key]
  {
    if key in items then Some(items[key]) else None
  }

  class KeyValueStore {
    var items: map<string, StoredItem>

    constructor ()
      ensures items == map[]
    {
      items := map[];
    }

    function GetItem(key: string): (r: Option<StoredItem>)
      reads this
    {
      Lookup(items, key)
    }

    /** `setItem(key, value)`: only `key` changes. */
    method SetItem(key: string, value: StoredItem)
      modifies this
      ensures items == old(items)[key := value]
      ensures forall k :: k != key ==> Lookup(items, k) == Lookup(old(items), k)
    {
      items := items[key := value];
    }

    /** `removeItem(key)`: `key` is gone, nothing else changes. */
    method RemoveItem(key: string)
      modifies this
      ensures items == old(items) - {key}
      ensures key !in items
      ensures forall k :: k != key ==> Lookup(items, k) == Lookup(old(items), k)
    {
      items := items - {key};
    }
  }
}
