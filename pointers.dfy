/**
 * The pointers walkthrough. A Go variable whose address is taken is a heap
 * cell (IntVar, PersonVar); a *int or *Person is a reference to that cell.
 * Which writes reach the caller follows from the modifies clauses: a
 * function given a value can change nothing the caller holds, one given a
 * pointer can change exactly the pointee.
 */
module Pointers {
  import opened GoSlices
  import opened GoMaps

  class IntVar {
    var value: int

    constructor (v: int)
      ensures value == v
    {
      value := v;
    }
  }

  class PersonVar {
    var Name: string
    var Age: int

    constructor (name: string, age: int)
      ensures Name == name && Age == age
    {
      Name, Age := name, age;
    }
  }

  /**
   * incrementValue: x is the function's own copy. x++ bumps that copy, which
   * is returned here only to show it, and then dropped; the method modifies
   * nothing, so no caller variable changes.
   */
  method IncrementValue(x: int) returns (copy: int)
    ensures copy == x + 1
  {
    copy := x;
    copy := copy + 1;
  }

  /** incrementPointer: *x++ raises the pointee by one and touches nothing else. */
  method IncrementPointer(x: IntVar)
    modifies x
    ensures x.value == old(x.value) + 1
  {
    x.value := x.value + 1;
  }

  /** newCounter: the address of a local that escapes -- a fresh cell holding 100. */
  method NewCounter() returns (c: IntVar)
    ensures fresh(c) && c.value == 100
  {
    c := new IntVar(100);
  }

  /** birthday: p.Age++ through the pointer; the name is untouched. */
  method Birthday(p: PersonVar)
    modifies p
    ensures p.Age == old(p.Age) + 1
    ensures p.Name == old(p.Name)
  {
    p.Age := p.Age + 1;
  }

  /** `*p = v`: a store through the pointer into the variable it points to. */
  method Store(p: IntVar, v: int)
    modifies p
    ensures p.value == v
  {
    p.value := v;
  }

  /** The basic pointer steps: writes through p := &a and ptrB := &b land in a and b. */
  method WriteThroughPointers() returns (a: int, b: int)
    ensures a == 20 && b == 15
  {
    var aVar := new IntVar(10);
    var p := aVar;
    Store(p, 20);
    var bVar := new IntVar(5);
    var ptrB := bVar;
    Store(ptrB, 15);
    a, b := aVar.value, bVar.value;
  }

  /** Values versus pointers in calls: the by-value call leaves x at 10, the by-pointer call makes it 11. */
  method ValueVersusPointer() returns (afterValue: int, afterPointer: int)
    ensures afterValue == 10 && afterPointer == 11
  {
    var x := new IntVar(10);
    var dropped := IncrementValue(x.value);
    afterValue := x.value;
    IncrementPointer(x);
    afterPointer := x.value;
  }

  /** The nil-pointer step: a nil pointer is given new memory before it is dereferenced. */
  method NilThenAllocate() returns (v: int)
    ensures v == 99
  {
    var n: IntVar? := null;
    if n == null {
      n := new IntVar(99);
    }
    v := n.value;
  }

  /** Struct pointers and returned pointers: writes through p2 := &p1 and birthday(&p1) reach p1; newCounter gives 100. */
  method StructPointerDemo() returns (name: string, ageAfterWrite: int, ageAfterBirthday: int, counter: int)
    ensures name == "Alice" && ageAfterWrite == 30 && ageAfterBirthday == 31
    ensures counter == 100
  {
    var p1 := new PersonVar("Alice", 29);
    var p2 := p1;
    p2.Age := 30;
    ageAfterWrite := p1.Age;
    Birthday(p1);
    ageAfterBirthday := p1.Age;
    name := p1.Name;
    var c := NewCounter();
    counter := c.value;
  }

  /**
   * Pointer comparison: pointers compare by identity. Two pointers to one variable are
   * equal; pointers to two variables are not, though both hold 5.
   */
  method ComparePointers() returns (sameVariable: bool, differentVariables: bool, valuesEqual: bool)
    ensures sameVariable && !differentVariables && valuesEqual
  {
    var a1 := new IntVar(5);
    var a2 := new IntVar(5);
    var ptr1 := a1;
    var ptr2 := a1;
    var ptr3 := a2;
    sameVariable := ptr1 == ptr2;
    differentVariables := ptr1 == ptr3;
    valuesEqual := ptr1.value == ptr3.value;
  }

  /**
   * Slices and maps as references: a copied slice header shares the backing array and a copied
   * map shares its storage, so writes through the copy show in the original.
   */
  method SharedHeaders() returns (s: seq<int>, m: map<string, int>)
    ensures s == [99, 2, 3]
    ensures m == map["x" := 42]
  {
    var orig := Literal([1, 2, 3]);
    var sCopy := orig;
    SetAt(sCopy, 0, 99);
    s := orig.Elems();
    var mOrig := new StrIntMap(map["x" := 1]);
    var mCopy := mOrig;
    mCopy.Set("x", 42);
    m := mOrig.entries;
  }
}
