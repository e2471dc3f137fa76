/**
 * Go's built-in []int slices. A slice value is a header -- a backing array,
 * an offset into it and a length -- that is copied by assignment while the
 * backing array is shared. The capacity is what remains of the backing array
 * after the offset. Writes through any header that shares the backing array
 * are seen through every other one; appending past the capacity moves the
 * result to a fresh array.
 */
module GoSlices {

  datatype Slice = Slice(data: array<int>, off: nat, len: nat) {

    /** The header stays inside its backing array. */
    predicate Valid() {
      off + len <= data.Length
    }

    /** cap(s) */
    function Cap(): nat
      requires Valid()
    {
      data.Length - off
    }

    /** The elements the slice shows, s[0..len(s)]. */
    function Elems(): seq<int>
      reads data
      requires Valid()
    {
      data[off..off + len]
    }
  }

  function Min(a: int, b: int): int {
    if a <= b then a else b
  }

  /** A slice literal `[]int{...}`: a fresh backing array exactly as long as the literal. */
  method Literal(xs: seq<int>) returns (s: Slice)
    ensures s.Valid() && fresh(s.data)
    ensures s.off == 0 && s.Cap() == |xs|
    ensures s.Elems() == xs
  {
    var a := new int[|xs|](i requires 0 <= i < |xs| => xs[i]);
    s := Slice(a, 0, |xs|);
  }

  /** `make([]int, n)`: a fresh zero-filled slice of length and capacity n. */
  method Make(n: nat) returns (s: Slice)
    ensures s.Valid() && fresh(s.data)
    ensures s.off == 0 && s.len == n && s.Cap() == n
    ensures forall i :: 0 <= i < n ==> s.Elems()[i] == 0
  {
    var a := new int[n](_ => 0);
    s := Slice(a, 0, n);
  }

  /**
   * `s[i] = v` writes one cell of the backing array: every header sharing that
   * array sees the write, and no other cell changes.
   */
  method SetAt(s: Slice, i: nat, v: int)
    requires s.Valid() && i < s.len
    modifies s.data
    ensures s.Elems() == old(s.Elems())[i := v]
    ensures s.data[s.off + i] == v
    ensures forall k :: 0 <= k < s.data.Length && k != s.off + i ==> s.data[k] == old(s.data[k])
  {
    s.data[s.off + i] := v;
  }

  /**
   * `s[lo:hi]`: a new header over the same backing array. Go allows hi up to
   * cap(s) (not only len(s)) and panics otherwise.
   */
  function SubSlice(s: Slice, lo: nat, hi: nat): (r: Slice)
    reads s.data
    requires s.Valid() && lo <= hi <= s.Cap()
    ensures r.Valid() && r.data == s.data
    ensures r.len == hi - lo && r.Cap() == s.Cap() - lo
    ensures r.Elems() == s.data[s.off + lo .. s.off + hi]
    ensures hi <= s.len ==> r.Elems() == s.Elems()[lo..hi]
  {
    Slice(s.data, s.off + lo, hi - lo)
  }

  /** The capacity chosen when append must reallocate: double, or exactly what is needed. */
  function GrownCap(oldCap: nat, needed: nat): (c: nat)
    ensures c >= needed && c >= oldCap
  {
    if needed > 2 * oldCap then needed else 2 * oldCap
  }

  /**
   * `append(s, xs...)`. When the new elements fit in the capacity they are
   * written into the shared backing array just past len(s) and the result
   * shares that array; otherwise the result lives in a fresh array. Either
   * way the elements s itself shows are untouched, and the result shows them
   * followed by xs.
   */
  method Append(s: Slice, xs: seq<int>) returns (t: Slice)
    requires s.Valid()
    modifies s.data
    ensures t.Valid() && t.len == s.len + |xs|
    ensures t.Elems() == old(s.Elems()) + xs
    ensures s.Elems() == old(s.Elems())
    ensures s.len + |xs| <= s.Cap() ==> t.data == s.data && t.off == s.off
    ensures s.len + |xs| > s.Cap() ==> fresh(t.data) && t.off == 0 && unchanged(s.data)
    ensures forall k :: 0 <= k < s.data.Length && !(s.off + s.len <= k < s.off + s.len + |xs|) ==>
              s.data[k] == old(s.data[k])
  {
    var end := s.off + s.len;
    if s.len + |xs| <= s.Cap() {
      var j := 0;
      while j < |xs|
        invariant 0 <= j <= |xs|
        invariant forall k :: 0 <= k < s.data.Length ==>
                    s.data[k] == (if end <= k < end + j then xs[k - end] else old(s.data[k]))
      {
        s.data[end + j] := xs[j];
        j := j + 1;
      }
      t := Slice(s.data, s.off, s.len + |xs|);
      assert t.Elems() == old(s.Elems()) + xs by {
        forall k | 0 <= k < t.len
          ensures t.Elems()[k] == (old(s.Elems()) + xs)[k]
        {
          if k < s.len {
            assert t.Elems()[k] == s.data[s.off + k];
          }
        }
      }
    } else {
      var content := s.data[s.off..end] + xs;
      var c := GrownCap(s.Cap(), |content|);
      var a := new int[c](i requires 0 <= i < c => if i < |content| then content[i] else 0);
      t := Slice(a, 0, |content|);
      assert t.Elems() == content;
    }
  }

  /**
   * `copy(dst, src)`: copies min(len(dst), len(src)) elements and returns that
   * count. The source is read before anything is written, so overlapping
   * slices behave as a move. Nothing outside the copied prefix of dst changes.
   */
  method Copy(dst: Slice, src: Slice) returns (n: int)
    requires dst.Valid() && src.Valid()
    modifies dst.data
    ensures n == Min(dst.len, src.len)
    ensures dst.Elems() == old(src.Elems())[..n] + old(dst.Elems())[n..]
    ensures forall k :: 0 <= k < dst.data.Length && !(dst.off <= k < dst.off + n) ==>
              dst.data[k] == old(dst.data[k])
  {
    n := Min(dst.len, src.len);
    var moved := src.Elems()[..n];
    var j := 0;
    while j < n
      invariant 0 <= j <= n
      invariant forall k :: 0 <= k < dst.data.Length ==>
                  dst.data[k] == (if dst.off <= k < dst.off + j then moved[k - dst.off] else old(dst.data[k]))
    {
      dst.data[dst.off + j] := moved[j];
      j := j + 1;
    }
    forall k | 0 <= k < dst.len
      ensures dst.Elems()[k] == (old(src.Elems())[..n] + old(dst.Elems())[n..])[k]
    {
      assert dst.Elems()[k] == dst.data[dst.off + k];
    }
  }
}
