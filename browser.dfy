/** The browser's persisted key-value store (`localStorage`), shared by every part of the client. */
module Browser {
  import opened Wrappers

  /** The key under which the bearer token is persisted. */
  const TokenKey := "token"
  /** The key under which the serialised user is persisted. */
  const UserKey := "user"

  type Entries = map<string, string>

  /** `localStorage.getItem(key)`: the stored text, or `null` when the key is absent. */
  function Lookup(entries: Entries, key: string): (r: Option<string>)
    ensures r.Some? <==> key in entries
    ensures r.Some? ==> r.value == entries[key]
  {
    if key in entries then Some(entries[key]) else None
  }

  /** One browser tab's `localStorage`; every component holds a reference to the same object. */
  class LocalStorage {
    var entries: Entries

    constructor (initial: Entries)
      ensures entries == initial
    {
      entries := initial;
    }

    function GetItem(key: string): (r: Option<string>)
      reads this
      ensures r == Lookup(entries, key)
    {
      Lookup(entries, key)
    }

    method SetItem(key: string, value: string)
      modifies this
      ensures entries == old(entries)[key := value]
    {
      entries := entries[key := value];
    }

    method RemoveItem(key: string)
      modifies this
      ensures entries == old(entries) - {key}
    {
      entries := entries - {key};
    }
  }
}
