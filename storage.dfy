/**
 * AsyncStorage, the device's persistent key/value store: every value is the JSON text of a record.
 * JSON.parse and JSON.stringify are given per record type as a `Codec`.
 */
module Storage {
  import opened Wrappers

  class KeyValueStore {
    var items: map<string, string>

    constructor ()
      ensures items == map[]
    {
      items := map[];
    }

    /** `AsyncStorage.getItem(key)`: null for a key never written. */
    function GetItem(key: string): (r: Option<string>)
      reads this
      ensures r.Some? <==> key in items
      ensures r.Some? ==> r.value == items[key]
    {
      if key in items then Some(items[key]) else None
    }

    method SetItem(key: string, value: string)
      modifies this
      ensures items == old(items)[key := value]
    {
      items := items[key := value];
    }

    method RemoveItem(key: string)
      modifies this
      ensures items == old(items) - {key}
    {
      items := items - {key};
    }
  }

  /** JSON.parse (None when it throws) and JSON.stringify for one record type. */
  datatype Codec<!T> = Codec(parse: string -> Option<T>, show: T -> string)

  /** JSON.stringify never yields "" for a record, and JSON.parse reads back what it wrote. */
  ghost predicate RoundTrips<T(!new)>(c: Codec<T>) {
    forall x :: c.show(x) != "" && c.parse(c.show(x)) == Some(x)
  }
}
