/** The browser's `localStorage`: one mutable map from keys to strings, shared by
    the session context (which writes the token slot) and the API client (which
    reads it before every request). */
module Browser {
  import opened Js

  /** `localStorage.getItem(key)` on a snapshot of the storage: null when absent. */
  function Lookup(items: map<string, string>, key: string): (r: Option<string>)
    ensures r.Some? <==> key in items
    ensures r.Some? ==> r.value == items[key]
  {
    if key in items then Some(items[key]) else None
  }

  class LocalStorage {
    var items: map<string, string>

    constructor (initial: map<string, string>)
      ensures items == initial
    {
      items := initial;
    }

    /** `localStorage.getItem(key)` */
    method GetItem(key: string) returns (r: Option<string>)
      ensures r == Lookup(items, key)
    {
      if key in items {
        r := Some(items[key]);
      } else {
        r := None;
      }
    }

    /** `localStorage.setItem(key, value)` converts the value to a string first. */
    method SetItem(key: string, value: Value)
      modifies this
      ensures items == old(items)[key := ToJsString(value)]
    {
      items := items[key := ToJsString(value)];
    }

    /** `localStorage.removeItem(key)` removes the key if present and is otherwise a no-op. */
    method RemoveItem(key: string)
      modifies this
      ensures items == old(items) - {key}
    {
      items := items - {key};
    }
  }
}
