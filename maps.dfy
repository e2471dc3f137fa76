/**
 * The map walkthrough: inserting, updating, looking up and deleting entries,
 * iterating in key order through a sorted key list, sharing a map through a
 * copied reference, and comparing two maps entry by entry.
 */
module MapsExamples {
  import opened GoMaps

  // ---------------------------------------------------------------
  // Map equality
  // ---------------------------------------------------------------

  /** The reference notion of equality: same key set, same value under every key. */
  ghost predicate SameEntries(a: map<string, int>, b: map<string, int>) {
    a.Keys == b.Keys && forall k :: k in a ==> a[k] == b[k]
  }

  /** SameEntries is Dafny's map equality, hence an equivalence. */
  lemma SameEntriesIsEquality(a: map<string, int>, b: map<string, int>)
    ensures SameEntries(a, b) <==> a == b
    ensures SameEntries(a, a)
    ensures SameEntries(a, b) <==> SameEntries(b, a)
  {
  }

  /** A subset as large as its superset is the whole superset. */
  lemma SubsetOfSameSize(small: set<string>, big: set<string>)
    requires small <= big && |small| == |big|
    ensures small == big
  {
    var rest := big - small;
    assert big == small + rest;
    assert small * rest == {};
    assert |rest| == 0;
  }

  /**
   * mapsEqual: false as soon as the sizes differ; otherwise walks the entries
   * of a and fails on the first key missing from b or mapped to another value.
   * The walk order is Go's unspecified map order, modelled by picking any
   * remaining key.
   */
  method MapsEqual(a: StrIntMap, b: StrIntMap) returns (eq: bool)
    ensures |a.entries| != |b.entries| ==> !eq
    ensures (exists k :: k in a.entries && (k !in b.entries || b.entries[k] != a.entries[k])) ==> !eq
    ensures eq <==> SameEntries(a.entries, b.entries)
  {
    if |a.entries| != |b.entries| {
      return false;
    }
    var remaining := a.entries.Keys;
    while remaining != {}
      invariant remaining <= a.entries.Keys
      invariant forall k :: k in a.entries && k !in remaining ==> k in b.entries && b.entries[k] == a.entries[k]
      decreases remaining
    {
      var key :| key in remaining;
      var valB, ok := b.Get(key);
      if !ok || a.entries[key] != valB {
        return false;
      }
      remaining := remaining - {key};
    }
    SubsetOfSameSize(a.entries.Keys, b.entries.Keys);
    return true;
  }

  // ---------------------------------------------------------------
  // String order and sort.Strings
  // ---------------------------------------------------------------

  /**
   * Go's string comparison: lexicographic over the bytes. UTF-8 keeps code
   * point order, so comparing characters gives the same order.
   */
  predicate LessEq(a: string, b: string) {
    |a| == 0 || (|b| > 0 && (a[0] < b[0] || (a[0] == b[0] && LessEq(a[1..], b[1..]))))
  }

  lemma {:induction false} LessEqTotal(a: string, b: string)
    ensures LessEq(a, b) || LessEq(b, a)
  {
    if |a| > 0 && |b| > 0 && a[0] == b[0] {
      LessEqTotal(a[1..], b[1..]);
    }
  }

  lemma {:induction false} LessEqTransitive(a: string, b: string, c: string)
    requires LessEq(a, b) && LessEq(b, c)
    ensures LessEq(a, c)
  {
    if |a| > 0 && a[0] == b[0] && b[0] == c[0] {
      LessEqTransitive(a[1..], b[1..], c[1..]);
    }
  }

  lemma {:induction false} LessEqAntisymmetric(a: string, b: string)
    requires LessEq(a, b) && LessEq(b, a)
    ensures a == b
  {
    if |a| > 0 {
      LessEqAntisymmetric(a[1..], b[1..]);
      assert a == [a[0]] + a[1..] && b == [b[0]] + b[1..];
    }
  }

  ghost predicate Sorted(s: seq<string>) {
    forall i, j :: 0 <= i < j < |s| ==> LessEq(s[i], s[j])
  }

  /** One insertion step: puts x in front of the first element it does not exceed. */
  function Insert(x: string, s: seq<string>): (r: seq<string>)
    requires Sorted(s)
    ensures Sorted(r)
    ensures multiset(r) == multiset(s) + multiset{x}
    ensures |r| == |s| + 1
  {
    if s == [] then [x]
    else if LessEq(x, s[0]) then
      assert forall j :: 0 <= j < |s| ==> LessEq(x, s[j]) by {
        forall j | 0 <= j < |s| ensures LessEq(x, s[j]) {
          if j > 0 { LessEqTransitive(x, s[0], s[j]); }
        }
      }
      [x] + s
    else
      LessEqTotal(x, s[0]);
      var rest := Insert(x, s[1..]);
      assert s == [s[0]] + s[1..];
      assert forall y :: y in rest ==> LessEq(s[0], y) by {
        forall y | y in rest ensures LessEq(s[0], y) {
          assert y in multiset(rest);
          if y != x {
            assert y in multiset(s[1..]);
            var j :| 0 <= j < |s[1..]| && s[1..][j] == y;
            assert s[j + 1] == y;
          }
        }
      }
      [s[0]] + rest
  }

  /**
   * sort.Strings: the result is in ascending order and is a permutation of
   * the input (the same strings, each as often).
   */
  function SortStrings(s: seq<string>): (r: seq<string>)
    ensures Sorted(r)
    ensures multiset(r) == multiset(s)
    ensures |r| == |s|
  {
    if s == [] then []
    else
      assert s == [s[0]] + s[1..];
      Insert(s[0], SortStrings(s[1..]))
  }

  /**
   * The ordered-iteration steps: collect every key of the map into a slice by
   * appending, in map order, then sort it. The result holds each key exactly
   * once and nothing else, and is ascending.
   */
  method OrderedKeys(fruits: StrIntMap) returns (keys: seq<string>)
    ensures |keys| == |fruits.entries|
    ensures multiset(keys) == multiset(fruits.entries.Keys)
    ensures forall k :: k in keys <==> k in fruits.entries
    ensures Sorted(keys)
  {
    keys := [];
    var remaining := fruits.entries.Keys;
    while remaining != {}
      invariant remaining <= fruits.entries.Keys
      invariant multiset(keys) + multiset(remaining) == multiset(fruits.entries.Keys)
      decreases remaining
    {
      var k :| k in remaining;
      assert multiset(remaining) == multiset(remaining - {k}) + multiset{k} by {
        assert remaining == (remaining - {k}) + {k};
      }
      keys := keys + [k];
      remaining := remaining - {k};
    }
    keys := SortStrings(keys);
    assert |multiset(fruits.entries.Keys)| == |fruits.entries.Keys|;
    forall k ensures k in keys <==> k in fruits.entries {
      assert k in keys <==> k in multiset(keys);
      assert k in multiset(fruits.entries.Keys) <==> k in fruits.entries.Keys;
    }
  }

  /** A list holding exactly the keys of a map, each once, has no repeated element. */
  lemma KeysDistinct(keys: seq<string>, m: map<string, int>)
    requires multiset(keys) == multiset(m.Keys)
    ensures forall i, j :: 0 <= i < j < |keys| ==> keys[i] != keys[j]
  {
    forall i, j | 0 <= i < j < |keys| ensures keys[i] != keys[j] {
      var x := keys[i];
      var front, back := keys[..i + 1], keys[i + 1..];
      assert keys == front + back;
      assert front[i] == x;
      assert multiset(front)[x] >= 1;
      assert x in multiset(m.Keys);
      assert x in m.Keys;
      assert multiset(keys)[x] == 1;
      assert multiset(back)[x] == 0;
      assert back[j - i - 1] == keys[j];
      assert keys[j] in multiset(back);
    }
  }

  // ---------------------------------------------------------------
  // The walkthrough's mutation steps
  // ---------------------------------------------------------------

  /**
   * The building and updating steps: ages built with make, then Charlie
   * inserted and Bob raised by one.
   */
  method InsertAndUpdate() returns (ages: map<string, int>)
    ensures ages == map["Alice" := 30, "Bob" := 26, "Charlie" := 40]
  {
    var a := new StrIntMap(map[]);
    a.Set("Alice", 30);
    a.Set("Bob", 25);
    a.Set("Charlie", 40);
    var bob, present := a.Get("Bob");
    a.Set("Bob", bob + 1);
    ages := a.entries;
  }

  /** The delete step: deleting "oranges" from the fruits literal. */
  method DeleteOranges() returns (fruits: map<string, int>)
    ensures fruits == map["apples" := 5, "bananas" := 7]
  {
    var f := new StrIntMap(map["apples" := 5, "oranges" := 3, "bananas" := 7]);
    f.Delete("oranges");
    fruits := f.entries;
  }

  /** The lookup step: comma-ok lookups of a present and an absent key. */
  method LookupDemo() returns (apples: int, applesOk: bool, grapes: int, grapesOk: bool)
    ensures apples == 5 && applesOk
    ensures grapes == 0 && !grapesOk
  {
    var f := new StrIntMap(map["apples" := 5, "oranges" := 3, "bananas" := 7]);
    apples, applesOk := f.Get("apples");
    grapes, grapesOk := f.Get("grapes");
  }

  /** The ordered-iteration step on the fruits left after the delete: keys in order. */
  method OrderedFruits() returns (keys: seq<string>)
    ensures keys == ["apples", "bananas"]
  {
    var f := new StrIntMap(map["apples" := 5, "bananas" := 7]);
    keys := OrderedKeys(f);
    KeysDistinct(keys, f.entries);
    assert keys[0] in f.entries && keys[1] in f.entries;
    assert LessEq(keys[0], keys[1]);
    assert !LessEq("bananas", "apples");
  }

  /** The reference step: a copied map reference writes into the same storage. */
  method CopyMapAlias() returns (alice: int)
    ensures alice == 99
  {
    var ages := new StrIntMap(map["Alice" := 30, "Bob" := 26, "Charlie" := 40]);
    var copyMap := ages;
    copyMap.Set("Alice", 99);
    var present;
    alice, present := ages.Get("Alice");
  }

  /** The equality step: two literals with the same entries compare equal. */
  method EqualityDemo() returns (eq: bool)
    ensures eq
  {
    var a := new StrIntMap(map["x" := 1, "y" := 2]);
    var b := new StrIntMap(map["x" := 1, "y" := 2]);
    eq := MapsEqual(a, b);
  }
}
