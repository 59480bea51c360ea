/**
 * The browser's `localStorage` as a string-to-string map that the
 * page code reads and writes one entry at a time.
 */
module Storage {
  import Types

  /** `getItem(key)`: the stored string, or `null` (here `None`) when absent. */
  function Lookup(items: map<string, string>, key: string): (r: Types.Option<string>)
    ensures r.Some? <==> key in items
    ensures r.Some? ==> r.value == items[key]
  {
    if key in items then Types.Some(items[key]) else Types.None
  }

  /** Writing an entry and reading it back gives what was written. */
  lemma LookupAfterSet(items: map<string, string>, key: string, value: string)
    ensures Lookup(items[key := value], key) == Types.Some(value)
  {
  }

  /** Writing or removing one entry leaves every other entry readable as before. */
  lemma LookupOtherKey(items: map<string, string>, key: string, value: string, other: string)
    requires other != key
    ensures Lookup(items[key := value], other) == Lookup(items, other)
    ensures Lookup(items - {key}, other) == Lookup(items, other)
  {
  }

  class LocalStorage {
    var items: map<string, string>

    constructor (initial: map<string, string>)
      ensures items == initial
    {
      items := initial;
    }

    /** `getItem(key)` on the current entries. */
    function GetItem(key: string): (r: Types.Option<string>)
      reads this
      ensures r.Some? <==> key in items
      ensures r.Some? ==> r.value == items[key]
    {
      Lookup(items, key)
    }

    method SetItem(key: string, value: string)
      modifies this
      ensures items == old(items)[key := value]
    {
      items := items[key := value];
    }

    method RemoveItem(key: string)
      modifies this
      ensures items == old(items) - {key}
    {
      items := items - {key};
    }
  }
}
