/**
 * Declaring an array: [5]int starts zeroed, an indexed loop writes i*2 into
 * each cell, and a range loop reads the (index, value) pairs back.
 */
module ArrayDeclaration {

  /** `for i := 0; i < len(a); i++ { a[i] = i * 2 }`. */
  method FillDoubled(a: array<int>)
    modifies a
    ensures forall k :: 0 <= k < a.Length ==> a[k] == 2 * k
  {
    var i := 0;
    while i < a.Length
      invariant 0 <= i <= a.Length
      invariant forall k :: 0 <= k < i ==> a[k] == 2 * k
      invariant forall k :: i <= k < a.Length ==> a[k] == old(a[k])
    {
      a[i] := i * 2;
      i := i + 1;
    }
  }

  /** `for i, value := range a`: visits every index in order with its element. */
  method RangePairs(a: array<int>) returns (pairs: seq<(int, int)>)
    ensures |pairs| == a.Length
    ensures forall i :: 0 <= i < |pairs| ==> pairs[i] == (i, a[i])
  {
    pairs := [];
    for i := 0 to a.Length
      invariant |pairs| == i
      invariant forall k :: 0 <= k < i ==> pairs[k] == (k, a[k])
    {
      pairs := pairs + [(i, a[i])];
    }
  }

  /** main: the zeroed [5]int, filled to [0 2 4 6 8], then ranged over. */
  method ArrayDeclarationDemo() returns (initial: seq<int>, filled: seq<int>, pairs: seq<(int, int)>)
    ensures initial == [0, 0, 0, 0, 0]
    ensures filled == [0, 2, 4, 6, 8]
    ensures pairs == [(0, 0), (1, 2), (2, 4), (3, 6), (4, 8)]
  {
    var arr1 := new int[5](_ => 0);
    initial := arr1[..];
    FillDoubled(arr1);
    filled := arr1[..];
    pairs := RangePairs(arr1);
  }
}
