/**
 * The control-structures walkthrough: a parity test with Go's remainder, a
 * value switch on the day number, a tagless switch on score thresholds, and
 * three loop forms whose visited values and exit values are exact.
 */
module ControlStructures {

  /** |b| */
  function Abs(b: int): (m: int)
    ensures m >= 0
  {
    if b >= 0 then b else -b
  }

  /**
   * Go's integer division truncates toward zero: the quotient of the sizes,
   * negated when exactly one operand is negative (-3 / 2 == -1).
   */
  function GoQuot(a: int, b: int): (q: int)
    requires b != 0
    ensures Abs(q) == Abs(a) / Abs(b)
    ensures q != 0 ==> ((q > 0) <==> ((a > 0) == (b > 0)))
  {
    var m := (if a >= 0 then a else -a) / Abs(b);
    if (a >= 0) == (b > 0) then m else -m
  }

  /**
   * Go's % is `a - (a / b) * b` with the truncating division: the remainder
   * takes the sign of the dividend (-3 % 2 == -1), unlike Dafny's Euclidean %.
   */
  function GoRem(a: int, b: int): (r: int)
    requires b != 0
    ensures a == GoQuot(a, b) * b + r
    ensures a >= 0 ==> 0 <= r < Abs(b)
    ensures a < 0 ==> -Abs(b) < r <= 0
  {
    var m := Abs(b);
    var r := if a >= 0 then a % m else -((-a) % m);
    QuotRemSplit(a, b);
    r
  }

  /** Dafny's division on the sizes, with the signs put back, rebuilds a. */
  lemma QuotRemSplit(a: int, b: int)
    requires b != 0
    ensures a == GoQuot(a, b) * b + (if a >= 0 then a % Abs(b) else -((-a) % Abs(b)))
  {
    var m := Abs(b);
    var n := if a >= 0 then a else -a;
    var q := n / m;
    assert n == q * m + n % m;
    assert b == m || b == -m;
    if a >= 0 && b > 0 {
      assert GoQuot(a, b) * b == q * m;
    } else if a >= 0 {
      assert GoQuot(a, b) * b == (-q) * (-m) == q * m;
    } else if b > 0 {
      assert GoQuot(a, b) * b == (-q) * m == -(q * m);
    } else {
      assert GoQuot(a, b) * b == q * (-m) == -(q * m);
    }
  }

  /** The if/else on n % 2 == 0. */
  function Parity(n: int): (p: string)
    ensures p == "is even" <==> n % 2 == 0
    ensures p == "is even" || p == "is odd"
  {
    if GoRem(n, 2) == 0 then "is even" else "is odd"
  }

  /** Negating n keeps the branch, stepping by one flips it, and odd negatives leave remainder -1. */
  lemma ParityIsEvenness(n: int)
    ensures Parity(n) == Parity(-n)
    ensures Parity(n) != Parity(n + 1)
    ensures n < 0 && Parity(n) == "is odd" ==> GoRem(n, 2) == -1
  {
  }

  /** switch day: 1, 2, 3 name a weekday; anything else falls to the default. */
  function DayName(day: int): (name: string)
    ensures day == 1 ==> name == "Monday"
    ensures day == 2 ==> name == "Tuesday"
    ensures day == 3 ==> name == "Wednesday"
    ensures (1 <= day <= 3) <==> name != "Another day"
  {
    match day
    case 1 => "Monday"
    case 2 => "Tuesday"
    case 3 => "Wednesday"
    case _ => "Another day"
  }

  /** The named days are told apart: the switch cases are distinct. */
  lemma DayNameInjective(d1: int, d2: int)
    requires 1 <= d1 <= 3 && 1 <= d2 <= 3
    ensures DayName(d1) == DayName(d2) <==> d1 == d2
  {
  }

  datatype Grade = A | B | C | DOrLower {
    function Label(): string {
      match this
      case A => "Grade: A"
      case B => "Grade: B"
      case C => "Grade: C"
      case DOrLower => "Grade: D or lower"
    }

    function Rank(): nat {
      match this
      case A => 3
      case B => 2
      case C => 1
      case DOrLower => 0
    }
  }

  /**
   * The tagless switch: the first case whose threshold the score reaches
   * decides. Because of the order, each grade covers one band of scores.
   */
  function GradeOf(score: int): (g: Grade)
    ensures g == A <==> score >= 90
    ensures g == B <==> 80 <= score < 90
    ensures g == C <==> 70 <= score < 80
    ensures g == DOrLower <==> score < 70
  {
    if score >= 90 then A
    else if score >= 80 then B
    else if score >= 70 then C
    else DOrLower
  }

  /** A higher score never earns a lower grade. */
  lemma GradeMonotone(s1: int, s2: int)
    requires s1 <= s2
    ensures GradeOf(s1).Rank() <= GradeOf(s2).Rank()
  {
  }

  function Max0(n: int): nat {
    if n > 0 then n else 0
  }

  /** `for i := 0; i < n; i++`: visits 0, 1, ..., n-1 in increasing order. */
  method ClassicLoop(n: int) returns (visited: seq<int>)
    ensures |visited| == Max0(n)
    ensures forall k :: 0 <= k < |visited| ==> visited[k] == k
  {
    visited := [];
    var i := 0;
    while i < n
      invariant 0 <= i == |visited| <= Max0(n)
      invariant forall k :: 0 <= k < i ==> visited[k] == k
    {
      visited := visited + [i];
      i := i + 1;
    }
  }

  /** `for counter < limit { counter++ }`: visits 0 .. limit-1 and exits at limit (or 0). */
  method WhileLoop(limit: int) returns (counter: int, visited: seq<int>)
    ensures counter == Max0(limit)
    ensures |visited| == counter
    ensures forall k :: 0 <= k < |visited| ==> visited[k] == k
  {
    counter := 0;
    visited := [];
    while counter < limit
      invariant 0 <= counter == |visited| <= Max0(limit)
      invariant forall k :: 0 <= k < counter ==> visited[k] == k
    {
      visited := visited + [counter];
      counter := counter + 1;
    }
  }

  /** `for { if j >= limit { break }; j++ }`: terminates, exits at limit (or 0). */
  method BreakLoop(limit: int) returns (j: int, visited: seq<int>)
    ensures j == Max0(limit)
    ensures |visited| == j
    ensures forall k :: 0 <= k < |visited| ==> visited[k] == k
  {
    j := 0;
    visited := [];
    while true
      invariant 0 <= j == |visited| <= Max0(limit)
      invariant forall k :: 0 <= k < j ==> visited[k] == k
      decreases limit - j
    {
      if j >= limit {
        break;
      }
      visited := visited + [j];
      j := j + 1;
    }
  }

  /** main with its constants: n = 10, day = 3, score = 82 and loop bounds 5, 3, 3. */
  method ControlStructuresDemo()
    returns (parity: string, day: string, grade: string, classic: seq<int>,
             counter: int, whileVisited: seq<int>, j: int, breakVisited: seq<int>)
    ensures parity == "is even" && day == "Wednesday" && grade == "Grade: B"
    ensures classic == [0, 1, 2, 3, 4]
    ensures counter == 3 && whileVisited == [0, 1, 2]
    ensures j == 3 && breakVisited == [0, 1, 2]
  {
    parity := Parity(10);
    day := DayName(3);
    grade := GradeOf(82).Label();
    classic := ClassicLoop(5);
    counter, whileVisited := WhileLoop(3);
    j, breakVisited := BreakLoop(3);
  }
}
