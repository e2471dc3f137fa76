/**
 * The structs walkthrough: a Person value type with a value-receiver Greet,
 * an Account updated in place through a pointer receiver, constructor
 * functions, field-wise struct equality and field promotion from embedded
 * structs. Account.Balance is a float64 in Go; here it is a real, and
 * rounding is not modelled.
 */
module StructsAndMethods {

  datatype Person = Person(Name: string, Age: int) {

    /** Greet has a value receiver: it reads the fields and changes nothing. */
    function Greet(): (g: string)
      ensures |g| == |GreetingPrefix| + |Name|
      ensures g[..|GreetingPrefix|] == GreetingPrefix && g[|GreetingPrefix|..] == Name
    {
      GreetingPrefix + Name
    }
  }

  const GreetingPrefix: string := "Hello, my name is "

  /** The greeting depends on the name only, and tells names apart. */
  lemma GreetDeterminesName(p: Person, q: Person)
    ensures p.Greet() == q.Greet() <==> p.Name == q.Name
  {
  }

  /** NewPerson returns the Person literal with exactly the given fields. */
  function NewPerson(name: string, age: int): (p: Person)
    ensures p.Name == name && p.Age == age
  {
    Person(name, age)
  }

  /** Every Person is what NewPerson builds from its own fields. */
  lemma NewPersonRoundTrip(p: Person)
    ensures NewPerson(p.Name, p.Age) == p
  {
  }

  /** Struct comparison with == is field by field. */
  lemma StructEquality(p: Person, q: Person)
    ensures p == q <==> p.Name == q.Name && p.Age == q.Age
    ensures Person("Alice", 30) == Person("Alice", 30)
    ensures Person("Alice", 30) != Person("Bob", 20)
  {
  }

  class Account {
    var Owner: string
    var Balance: real
    var active: bool

    /** The composite literal &Account{Owner: ..., Balance: ..., active: ...}. */
    constructor (owner: string, balance: real, isActive: bool)
      ensures Owner == owner && Balance == balance && active == isActive
    {
      Owner, Balance, active := owner, balance, isActive;
    }

    /**
     * Deposit has a pointer receiver: it adds the amount to the balance of the
     * caller's account and marks it active; the owner is untouched.
     */
    method Deposit(amount: real)
      modifies this
      ensures Balance == old(Balance) + amount
      ensures active
      ensures Owner == old(Owner)
    {
      Balance := Balance + amount;
      active := true;
    }
  }

  /** NewAccount: a freshly allocated account for the owner, empty and active. */
  method NewAccount(owner: string) returns (a: Account)
    ensures fresh(a)
    ensures a.Owner == owner && a.Balance == 0.0 && a.active
  {
    a := new Account(owner, 0.0, true);
  }

  /** The demo's acct := NewAccount("Alice"); acct.Deposit(100). */
  method DepositDemo() returns (owner: string, balance: real, isActive: bool)
    ensures owner == "Alice" && balance == 100.0 && isActive
  {
    var acct := NewAccount("Alice");
    acct.Deposit(100.0);
    owner, balance, isActive := acct.Owner, acct.Balance, acct.active;
  }

  datatype Address = Address(City: string, State: string)

  /**
   * Employee embeds Person and Address; their fields are promoted, so
   * emp.Name means emp.Person.Name and emp.City means emp.Address.City.
   */
  datatype Employee = Employee(person: Person, Position: string, address: Address) {
    function Name(): string
    {
      person.Name
    }

    function Age(): int
    {
      person.Age
    }

    function City(): string
    {
      address.City
    }

    function State(): string
    {
      address.State
    }
  }

  /**
   * Promoted fields read the embedded structs, and the demo employee's Name
   * and City are "Derek" and "Seattle".
   */
  lemma PromotedFields(emp: Employee)
    ensures emp.Name() == emp.person.Name && emp.Age() == emp.person.Age
    ensures emp.City() == emp.address.City && emp.State() == emp.address.State
    ensures var derek := Employee(Person("Derek", 22), "Software Engineer", Address("Seattle", "WA"));
            derek.Name() == "Derek" && derek.City() == "Seattle"
  {
  }
}
