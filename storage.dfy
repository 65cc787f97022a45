/**
 * The device's persistent key-value store (AsyncStorage) as the two
 * providers see it: a map from keys to string values. Whether a read, write
 * or removal throws is decided by the platform, so each operation takes that
 * outcome as a parameter; an operation that throws leaves the map unchanged.
 */
module Storage {
  import opened Optional

  /** The result of `getItem`: the stored value (`null` when the key is absent), or a thrown error. */
  datatype Read = Got(value: Option<string>) | ReadThrew

  class Store {
    var entries: map<string, string>

    constructor (initial: map<string, string>)
      ensures entries == initial
    {
      entries := initial;
    }

    /** The value stored under `key`, if any. */
    function Lookup(key: string): (v: Option<string>)
      reads this
      ensures v.Some? <==> key in entries
      ensures v.Some? ==> entries[key] == v.value
    {
      if key in entries then Some(entries[key]) else None
    }

    method GetItem(key: string, throws: bool) returns (r: Read)
      ensures r.ReadThrew? <==> throws
      ensures r.Got? ==> r.value == Lookup(key)
    {
      if throws {
        r := ReadThrew;
      } else {
        r := Got(Lookup(key));
      }
    }

    method SetItem(key: string, value: string, throws: bool) returns (ok: bool)
      modifies this
      ensures ok == !throws
      ensures entries == if throws then old(entries) else old(entries)[key := value]
    {
      ok := !throws;
      if ok {
        entries := entries[key := value];
      }
    }

    method RemoveItem(key: string, throws: bool) returns (ok: bool)
      modifies this
      ensures ok == !throws
      ensures entries == if throws then old(entries) else old(entries) - {key}
    {
      ok := !throws;
      if ok {
        entries := entries - {key};
      }
    }
  }
}
