/**
 * The two pieces of fmt that the formatting examples rely on: the %d verb
 * (base-10 text of an int, with a leading '-' when negative) and the
 * "%s (%d years old)" rendering that both the Stringer and the Formatter
 * examples produce.
 */
module Fmt {

  predicate IsDigit(c: char) {
    '0' <= c <= '9'
  }

  function DigitChar(d: nat): (c: char)
    requires d < 10
    ensures IsDigit(c) && (c as int) - ('0' as int) == d
  {
    ('0' as int + d) as char
  }

  /** The decimal digits of n, most significant first, without leading zeros. */
  function NatDecimal(n: nat): (s: string)
    ensures |s| >= 1
    ensures forall i :: 0 <= i < |s| ==> IsDigit(s[i])
    ensures |s| > 1 ==> s[0] != '0'
  {
    if n < 10 then [DigitChar(n)]
    else NatDecimal(n / 10) + [DigitChar(n % 10)]
  }

  /** %d: the text Go prints for an int. */
  function Decimal(n: int): (s: string)
    ensures |s| >= 1
    ensures s[0] == '-' <==> n < 0
  {
    if n < 0 then "-" + NatDecimal(-n) else NatDecimal(n)
  }

  /** Reads a run of digits back as a number. */
  function DigitsValue(s: string): nat
    requires forall i :: 0 <= i < |s| ==> IsDigit(s[i])
  {
    if s == [] then 0
    else
      assert IsDigit(s[|s| - 1]);
      DigitsValue(s[..|s| - 1]) * 10 + ((s[|s| - 1] as int) - ('0' as int))
  }

  /** Reads %d text back: an optional '-' and then digits. */
  function ParseDecimal(s: string): int
    requires |s| >= 1
    requires forall i :: 0 < i < |s| ==> IsDigit(s[i])
    requires s[0] == '-' || IsDigit(s[0])
  {
    var digits: int := if s[0] == '-' then DigitsValue(s[1..]) else DigitsValue(s);
    if s[0] == '-' then -digits else digits
  }

  lemma {:induction false} NatDecimalRoundTrip(n: nat)
    ensures DigitsValue(NatDecimal(n)) == n
  {
    if n >= 10 {
      var s := NatDecimal(n);
      assert s[..|s| - 1] == NatDecimal(n / 10);
      NatDecimalRoundTrip(n / 10);
    }
  }

  /** %d loses nothing: parsing the printed text gives the number back. */
  lemma DecimalRoundTrip(n: int)
    ensures ParseDecimal(Decimal(n)) == n
  {
    if n < 0 {
      assert Decimal(n)[1..] == NatDecimal(-n);
      NatDecimalRoundTrip(-n);
    } else {
      NatDecimalRoundTrip(n);
    }
  }

  const YearsOldSuffix: string := " years old)"

  /** fmt.Sprintf("%s (%d years old)", name, age). */
  function NameWithAge(name: string, age: int): (s: string)
    ensures |s| == |name| + 2 + |Decimal(age)| + |YearsOldSuffix|
    ensures s[..|name|] == name
    ensures s[|name|..|name| + 2] == " ("
    ensures s[|s| - |YearsOldSuffix|..] == YearsOldSuffix
  {
    name + " (" + Decimal(age) + YearsOldSuffix
  }

  /**
   * Given the name, the rendering determines the age: the text between
   * name + " (" and " years old)" parses back to it.
   */
  lemma NameWithAgeRecoversAge(name: string, age: int)
    ensures var s := NameWithAge(name, age);
            s[|name| + 2 .. |s| - |YearsOldSuffix|] == Decimal(age) &&
            ParseDecimal(s[|name| + 2 .. |s| - |YearsOldSuffix|]) == age
  {
    var s := NameWithAge(name, age);
    assert s[|name| + 2 .. |s| - |YearsOldSuffix|] == Decimal(age);
    DecimalRoundTrip(age);
  }

  /** Two renderings with the same name are equal exactly when the ages are. */
  lemma NameWithAgeInjective(name: string, age1: int, age2: int)
    ensures NameWithAge(name, age1) == NameWithAge(name, age2) <==> age1 == age2
  {
    if NameWithAge(name, age1) == NameWithAge(name, age2) {
      NameWithAgeRecoversAge(name, age1);
      NameWithAgeRecoversAge(name, age2);
    }
  }
}
