/**
 * The reference-types example: a slice and a map handed to functions. The
 * slice header is copied, so a write to an element reaches the caller's
 * backing array while an append only rebinds the callee's copy; the map is
 * shared, so an insert is seen by the caller.
 */
module ReferenceTypes {
  import opened GoSlices
  import opened GoMaps

  /**
   * modifySlice: slice[0] = 10 writes into the caller's backing array, then
   * slice = append(slice, 20) rebinds only the local header, which is
   * returned here as what the function prints. When the caller's slice has
   * spare capacity the 20 is written into the shared backing array just past
   * the caller's length (invisible through the caller's header, but there);
   * otherwise the local slice moves to a fresh array. No other cell of the
   * backing array changes. Go panics on an empty slice, hence the requirement.
   */
  method ModifySlice(slice: Slice) returns (local: Slice)
    requires slice.Valid() && slice.len >= 1
    modifies slice.data
    ensures slice.Elems() == old(slice.Elems())[0 := 10]
    ensures local.Valid() && local.len == slice.len + 1
    ensures local.Elems() == slice.Elems() + [20]
    ensures slice.len < slice.Cap() ==> local.data == slice.data && slice.data[slice.off + slice.len] == 20
    ensures slice.len == slice.Cap() ==> fresh(local.data)
    ensures forall k :: 0 <= k < slice.data.Length && k != slice.off && k != slice.off + slice.len ==>
              slice.data[k] == old(slice.data[k])
  {
    SetAt(slice, 0, 10);
    local := Append(slice, [20]);
  }

  /** modifyMap: m["newKey"] = 50 inserts into the caller's map; other entries stay. */
  method ModifyMap(m: StrIntMap)
    modifies m
    ensures m.entries == old(m.entries)["newKey" := 50]
    ensures forall k :: k in old(m.entries) && k != "newKey" ==> k in m.entries && m.entries[k] == old(m.entries)[k]
  {
    m.Set("newKey", 50);
  }

  /** main: the caller sees [10 2 3] (same length) and the map gains newKey. */
  method ReferenceTypesDemo() returns (before: seq<int>, after: seq<int>, printedInside: seq<int>, myMap: map<string, int>)
    ensures before == [1, 2, 3] && after == [10, 2, 3] && printedInside == [10, 2, 3, 20]
    ensures myMap == map["key1" := 10, "key2" := 20, "newKey" := 50]
  {
    var mySlice := Literal([1, 2, 3]);
    before := mySlice.Elems();
    var local := ModifySlice(mySlice);
    printedInside := local.Elems();
    after := mySlice.Elems();
    var m := new StrIntMap(map["key1" := 10, "key2" := 20]);
    ModifyMap(m);
    myMap := m.entries;
  }
}
