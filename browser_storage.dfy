/**
 * The browser's `localStorage`: a string-keyed store of strings that lives
 * across page loads. The application's modules share one such object, so it
 * is a class whose single field the mutators reassign.
 */
module BrowserStorage {
  import opened Wrappers

  /** The value stored under `key`, or `None` (JavaScript `null`) when the key is absent. */
  function Lookup(items: map<string, string>, key: string): (v: Option<string>)
    ensures v.Some? <==> key in items
    ensures v.Some? ==> v.value == items[key]
  {
    if key in items then Some(items[key]) else None
  }

  class Storage {
    var items: map<string, string>

    constructor (initial: map<string, string>)
      ensures items == initial
    {
      items := initial;
    }

    /** `localStorage.getItem(key)`: the stored string, or `null` when the key is absent. */
    function GetItem(key: string): (v: Option<string>)
      reads this
    {
      Lookup(items, key)
    }

    /** `localStorage.setItem(key, value)`: overwrites one key, nothing else changes. */
    method SetItem(key: string, value: string)
      modifies this
      ensures items == old(items)[key := value]
    {
      items := items[key := value];
    }

    /** `localStorage.removeItem(key)`: drops one key (a no-op when absent), nothing else changes. */
    method RemoveItem(key: string)
      modifies this
      ensures items == old(items) - {key}
    {
      items := items - {key};
    }
  }
}
