/**
 * Go's built-in map[string]int. A map value is a reference: assigning it or
 * passing it to a function copies the reference, so every holder sees every
 * insert, update and delete. The class keeps the entries as a Dafny map.
 */
module GoMaps {

  class StrIntMap {
    var entries: map<string, int>

    /** `make(map[string]int)` (init empty) or a map literal (init its entries). */
    constructor (init: map<string, int>)
      ensures entries == init
    {
      entries := init;
    }

    /**
     * The comma-ok lookup `v, ok := m[key]`: ok reports presence, and a missing
     * key reads as the zero value 0.
     */
    method Get(key: string) returns (value: int, ok: bool)
      ensures ok <==> key in entries
      ensures ok ==> value == entries[key]
      ensures !ok ==> value == 0
    {
      ok := key in entries;
      value := if ok then entries[key] else 0;
    }

    /**
     * `m[key] = value`: inserts or overwrites one entry and leaves every other
     * entry as it was.
     */
    method Set(key: string, value: int)
      modifies this
      ensures entries == old(entries)[key := value]
      ensures key in entries && entries[key] == value
      ensures forall k :: k != key ==> (k in entries <==> k in old(entries))
      ensures forall k :: k != key && k in entries ==> entries[k] == old(entries)[k]
      ensures |entries| == if key in old(entries) then |old(entries)| else |old(entries)| + 1
    {
      entries := entries[key := value];
    }

    /**
     * `delete(m, key)`: removes that key if present (a no-op otherwise) and
     * leaves every other entry as it was.
     */
    method Delete(key: string)
      modifies this
      ensures entries == old(entries) - {key}
      ensures key !in entries
      ensures forall k :: k != key ==> (k in entries <==> k in old(entries))
      ensures forall k :: k != key && k in entries ==> entries[k] == old(entries)[k]
      ensures |entries| == if key in old(entries) then |old(entries)| - 1 else |old(entries)|
    {
      entries := entries - {key};
    }
  }
}
