/**
 * The append and copy examples on []int.
 */
module BasicSlices {
  import opened GoSlices

  /** slices1: append(slice1, 4, 5) gives [1 2 3 4 5] and leaves slice1 as [1 2 3]. */
  method Slices1() returns (slice1: seq<int>, slice2: seq<int>)
    ensures slice1 == [1, 2, 3]
    ensures slice2 == [1, 2, 3, 4, 5] && |slice2| == |slice1| + 2
  {
    var s1 := Literal([1, 2, 3]);
    var s2 := Append(s1, [4, 5]);
    slice1, slice2 := s1.Elems(), s2.Elems();
  }

  /**
   * slices2: copy(slice2, slice1) into make([]int, 2) copies min(2, 3) = 2
   * elements; the source is unchanged and the destination keeps length 2.
   */
  method Slices2() returns (copied: int, slice1: seq<int>, slice2: seq<int>)
    ensures copied == 2
    ensures slice1 == [1, 2, 3]
    ensures slice2 == [1, 2]
  {
    var s1 := Literal([1, 2, 3]);
    var s2 := Make(2);
    copied := Copy(s2, s1);
    slice1, slice2 := s1.Elems(), s2.Elems();
  }
}
