/**
 * The fmt.Formatter example: Person.Format chooses what to write from the
 * verb and the '+' flag. The fmt.State sink is modelled by returning the
 * text written to it; the State's flag queries by the set of flags present.
 */
module Formatter {
  import opened Fmt

  /** What Format can ask of fmt.State here: which flags ('+', '-', '#', ' ', '0') were given. */
  datatype State = State(flags: set<char>) {
    predicate Flag(c: char) {
      c in flags
    }
  }

  datatype Person = Person(Name: string, Age: int) {

    /**
     * Format: for %v with '+', the name and age as "Name (Age years old)";
     * for %v without '+', just the name; for any other verb the switch has no
     * matching case and no default, so nothing is written.
     */
    function Format(f: State, c: char): (written: string)
      ensures c == 'v' && f.Flag('+') ==> written == NameWithAge(Name, Age)
      ensures c == 'v' && !f.Flag('+') ==> written == Name
      ensures c != 'v' ==> written == ""
    {
      match c
      case 'v' => if f.Flag('+') then NameWithAge(Name, Age) else Name
      case _ => ""
    }
  }

  /** Only the '+' flag matters: any two states that agree on it write the same text. */
  lemma FormatIgnoresOtherFlags(p: Person, f: State, g: State, c: char)
    requires f.Flag('+') == g.Flag('+')
    ensures p.Format(f, c) == p.Format(g, c)
  {
  }

  /** %v never shows the age: persons with the same name print alike. */
  lemma PlainVerbShowsOnlyName(p: Person, q: Person, f: State)
    requires !f.Flag('+') && p.Name == q.Name
    ensures p.Format(f, 'v') == q.Format(f, 'v')
  {
  }

  /** %+v shows both fields: it separates persons that differ in age. */
  lemma PlusVerbShowsAge(p: Person, q: Person, f: State)
    requires f.Flag('+') && p.Name == q.Name && p.Age != q.Age
    ensures p.Format(f, 'v') != q.Format(f, 'v')
  {
    NameWithAgeInjective(p.Name, p.Age, q.Age);
  }

  /** FormatterExample: "%v" prints the name, "%+v" the name with the age. */
  lemma FormatterExample()
    ensures Person("Test User", 30).Format(State({}), 'v') == "Test User"
    ensures Person("Test User", 30).Format(State({'+'}), 'v') == "Test User (30 years old)"
  {
  }
}
