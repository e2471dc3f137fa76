/**
 * Declaring slices: a make'd slice filled by index, and a slice taken from an
 * array with arr[1:4].
 */
module SliceDeclaration {
  import opened GoSlices

  /**
   * `for i := range s { s[i] = i * 10 }`: index i gets 10*i, in increasing
   * order; cells of the backing array outside the slice are untouched.
   */
  method FillTimesTen(s: Slice)
    requires s.Valid()
    modifies s.data
    ensures forall i :: 0 <= i < s.len ==> s.Elems()[i] == 10 * i
    ensures forall k :: 0 <= k < s.data.Length && !(s.off <= k < s.off + s.len) ==> s.data[k] == old(s.data[k])
  {
    var i := 0;
    while i < s.len
      invariant 0 <= i <= s.len
      invariant forall k :: 0 <= k < i ==> s.data[s.off + k] == 10 * k
      invariant forall k :: 0 <= k < s.data.Length && !(s.off <= k < s.off + i) ==> s.data[k] == old(s.data[k])
    {
      SetAt(s, i, i * 10);
      i := i + 1;
    }
  }

  /**
   * main: make([]int, 5) starts as five zeros and becomes [0 10 20 30 40];
   * arr[1:4] over [0 1 2 3 4] is [1 2 3], of length 3 and capacity 4.
   */
  method SliceDeclarationDemo() returns (initial: seq<int>, filled: seq<int>, slice3: seq<int>, slice3Cap: nat)
    ensures initial == [0, 0, 0, 0, 0]
    ensures filled == [0, 10, 20, 30, 40]
    ensures slice3 == [1, 2, 3] && slice3Cap == 4
  {
    var slice1 := Make(5);
    initial := slice1.Elems();
    FillTimesTen(slice1);
    filled := slice1.Elems();
    var arr := Literal([0, 1, 2, 3, 4]);
    var s3 := SubSlice(arr, 1, 4);
    slice3, slice3Cap := s3.Elems(), s3.Cap();
  }
}
