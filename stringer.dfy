/**
 * The fmt.Stringer example: a value-receiver String method that renders a
 * Person as "Name (Age years old)".
 */
module Stringer {
  import opened Fmt

  datatype Person = Person(Name: string, Age: int) {

    /**
     * String renders the name, then the age in decimal wrapped in
     * " (" ... " years old)". A value receiver: the person is not changed.
     */
    function String(): (s: string)
      ensures |s| > |Name| + |YearsOldSuffix| && s[..|Name|] == Name
      ensures s[|s| - |YearsOldSuffix|..] == " years old)"
    {
      NameWithAge(Name, Age)
    }
  }

  /** The rendering loses neither field: it determines the person. */
  lemma StringInjective(p: Person, q: Person)
    ensures p.String() == q.String() <==> p == q
  {
    if p.String() == q.String() {
      // The age text never contains " (", so the name is what precedes the last " (".
      NameOfRendering(p.Name, p.Age);
      NameOfRendering(q.Name, q.Age);
      assert p.Name == q.Name;
      NameWithAgeInjective(p.Name, p.Age, q.Age);
    }
  }

  /**
   * The name is everything before the last "(" of the rendering: the age text
   * and the suffix contain no "(".
   */
  lemma NameOfRendering(name: string, age: int)
    ensures var s := NameWithAge(name, age);
            LastOpenParen(s) == |name| + 1
  {
    var s := NameWithAge(name, age);
    var d := Decimal(age);
    assert s == name + " (" + d + YearsOldSuffix;
    assert forall i :: |name| + 2 <= i < |s| ==> s[i] != '(' by {
      forall i | |name| + 2 <= i < |s| ensures s[i] != '(' {
        if i < |name| + 2 + |d| {
          assert s[i] == d[i - |name| - 2];
          DecimalHasNoParen(age, i - |name| - 2);
        } else {
          assert s[i] == YearsOldSuffix[i - |name| - 2 - |d|];
        }
      }
    }
    assert s[|name| + 1] == '(';
    LastOpenParenIs(s, |name| + 1);
  }

  lemma DecimalHasNoParen(n: int, i: nat)
    requires i < |Decimal(n)|
    ensures Decimal(n)[i] != '('
  {
    if n < 0 {
      if i > 0 {
        assert Decimal(n)[i] == NatDecimal(-n)[i - 1];
      }
    }
  }

  /** Position of the last '(' in s, or -1. */
  function LastOpenParen(s: string): (k: int)
    ensures -1 <= k < |s|
    ensures k >= 0 ==> s[k] == '('
    ensures forall i :: k < i < |s| ==> s[i] != '('
  {
    if s == [] then -1
    else if s[|s| - 1] == '(' then |s| - 1
    else LastOpenParen(s[..|s| - 1])
  }

  lemma {:induction false} LastOpenParenIs(s: string, k: nat)
    requires k < |s| && s[k] == '('
    requires forall i :: k < i < |s| ==> s[i] != '('
    ensures LastOpenParen(s) == k
  {
    if |s| - 1 != k {
      LastOpenParenIs(s[..|s| - 1], k);
    }
  }

  /** StringerExample: the person the example prints. */
  lemma StringerExample()
    ensures Person("Test User", 30).String() == "Test User (30 years old)"
  {
  }
}
