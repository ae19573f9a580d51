/**
 * The browser services the application uses to persist its stores: the
 * `localStorage` key/value store and JSON encoding, both taken abstractly.
 */
module Storage {
  import opened Wrappers

  /**
   * `JSON.stringify` and `JSON.parse` for one collection. `parse` yields
   * `None` exactly where `JSON.parse` throws.
   */
  datatype Codec<!T> = Codec(stringify: seq<T> -> string, parse: string -> Option<seq<T>>)

  /** The string stored under `key`, or `None` (null) for a key never set. */
  function Get(entries: map<string, string>, key: string): Option<string>
  {
    if key in entries then Some(entries[key]) else None
  }

  /** `localStorage`: strings under string keys, surviving a restart of the application. */
  class LocalStorage {
    var entries: map<string, string>

    constructor (initial: map<string, string>)
      ensures entries == initial
    {
      entries := initial;
    }

    /** `getItem` */
    function GetItem(key: string): Option<string>
      reads this
    {
      Get(entries, key)
    }

    /** `setItem`: stores `value` under `key`, leaving the other keys alone. */
    method SetItem(key: string, value: string)
      modifies this
      ensures entries == old(entries)[key := value]
    {
      entries := entries[key := value];
    }
  }
}
