/** The browser's `localStorage`: a string-to-string map. When storage is
    unavailable every call throws; `available` stands for that, and the
    callers' `try`/`catch` paths see the `Threw` outcome. */
module KeyValueStore {
  import opened Wrappers

  /** The outcome of `getItem`: it threw, or it returned the value or `null`. */
  datatype Read = Threw | Got(value: Option<string>)

  function Lookup(entries: map<string, string>, key: string): (r: Option<string>)
    ensures r.Some? <==> key in entries
    ensures r.Some? ==> r.value == entries[key]
  {
    if key in entries then Some(entries[key]) else None
  }

  class Store {
    var entries: map<string, string>
    var available: bool

    constructor(entries: map<string, string>, available: bool)
      ensures this.entries == entries && this.available == available
    {
      this.entries := entries;
      this.available := available;
    }

    /** What `getItem(key)` yields in the current state. */
    function ReadOf(key: string): Read
      reads this
    {
      if available then Got(Lookup(entries, key)) else Threw
    }

    method GetItem(key: string) returns (r: Read)
      ensures r.Threw? <==> !available
      ensures r.Got? ==> (r.value.Some? <==> key in entries)
      ensures r.Got? && r.value.Some? ==> r.value.value == entries[key]
      ensures r == ReadOf(key)
    {
      if !available {
        return Threw;
      }
      if key in entries {
        r := Got(Some(entries[key]));
      } else {
        r := Got(None);
      }
    }

    method SetItem(key: string, value: string) returns (threw: bool)
      modifies this
      ensures threw == !available && available == old(available)
      ensures entries == if threw then old(entries) else old(entries)[key := value]
    {
      threw := !available;
      if !threw {
        entries := entries[key := value];
      }
    }

    method RemoveItem(key: string) returns (threw: bool)
      modifies this
      ensures threw == !available && available == old(available)
      ensures entries == if threw then old(entries) else old(entries) - {key}
    {
      threw := !available;
      if !threw {
        entries := entries - {key};
      }
    }
  }
}
