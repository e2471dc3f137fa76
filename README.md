# Go language walkthroughs, modelled in Dafny

The repository is a set of small Go programs, each showing one language
feature. This project models the ones that hold deterministic logic:

- the rectangle-area validator `CalcArea` and its test vectors (`Example`);
- Go maps as shared references, `mapsEqual`, and key extraction with
  `sort.Strings` (`GoMaps`, `MapsExamples`);
- pointers: which writes reach the caller, pointer identity, and slice and map
  headers that share storage (`Pointers`, `ReferenceTypes`);
- a struct with a value-receiver method, an account updated through a
  pointer receiver, constructor functions, struct equality and promoted
  fields (`StructsAndMethods`);
- `fmt.Stringer` and `fmt.Formatter` implementations that render a person,
  with `%d` modelled in `Fmt` (`Stringer`, `Formatter`);
- the parity, day and grade switches and three loop forms
  (`ControlStructures`);
- `append`, `copy`, `make`, sub-slicing and fill loops over slices and arrays
  (`GoSlices`, `BasicSlices`, `SliceDeclaration`, `ArrayDeclaration`).

Modelling choices:

- A Go map is a class (`GoMaps.StrIntMap`) whose `entries` field the methods
  reassign. Copying the map copies the reference, as in Go.
- A Go slice is a header value (`GoSlices.Slice`): a shared `array<int>`, an
  offset and a length. The capacity is what remains of the array. `append`
  writes in place when the new elements fit. Otherwise it moves to a fresh
  array.
- A Go variable whose address is taken is a heap cell (`IntVar`, `PersonVar`).
  A function that gets a value has no `modifies` clause. A function that gets
  a pointer modifies exactly the pointee.
- Value types (`Person`, `Employee`, `Address`) are datatypes. Methods with a
  value receiver are functions, so they cannot change the receiver.
- Each `main` is split into demo methods, one per section. Each returns the
  values the Go program prints and states them in its postcondition.
- Go's `error` is `Example.Error` (`Nil` or `Failure(message)`). An
  `fmt.State` is the set of flags it reports. The text written to it is the
  function's result.
- Integers are unbounded. Go's truncating `/` and `%` are written out as
  `ControlStructures.GoQuot` and `ControlStructures.GoRem`.
- Strings are ordered by comparing characters. This is Go's byte order,
  because UTF-8 keeps code-point order.

## Model

| member | source | states |
|---|---|---|
| Example.CalcArea | 12_testing/basics/example/example.go:7-15 | an error is returned exactly when a side is below 1; on error the area is 0 and the error is the fixed message; otherwise the area is w*h and positive |
| Example.CalcAreaSymmetric | 12_testing/basics/example/example.go:11-14 | swapping width and height gives the same result, error or area |
| Example.CalcAreaCoversSides | 12_testing/basics/example/example.go:14 | a successful area is at least as large as each side |
| Example.TestCalcAreaSuccess | 12_testing/basics/example/example_test.go:8-15 | (3,5) gives 15 with no error |
| Example.TestCalcAreaFail | 12_testing/basics/example/example_test.go:17-26 | (-3,6) fails and the error text equals the error message constant |
| Example.TestCalcAreaViaTable | 12_testing/basics/example/example_test.go:28-53 | every table row (1,1), (5,6), (1,99), (7,6) gives its expected area with no error |
| Example.CommentedOutRowsAreRejected | 12_testing/basics/example/example_test.go:38-39 | the commented-out rows (-8,-8) and (0,5) are rejected with area 0 and the message |
| GoMaps.StrIntMap.constructor | 06_maps/01_maps.go:24-33 | `make` and a map literal hold exactly the given entries |
| GoMaps.StrIntMap.Get | 06_maps/01_maps.go:51-55 | comma-ok lookup: ok is presence; a present key gives its value and a missing key gives 0 |
| GoMaps.StrIntMap.Set | 06_maps/01_maps.go:42-43 | the key now maps to the value; every other key keeps its presence and value; size grows by one only for a new key |
| GoMaps.StrIntMap.Delete | 06_maps/01_maps.go:61 | the key is gone; every other entry is unchanged; size drops by one only if the key was there |
| MapsExamples.SameEntriesIsEquality | 06_maps/01_maps.go:157-169 | same keys with the same values is exactly map equality, so the relation is reflexive and symmetric |
| MapsExamples.MapsEqual | 06_maps/01_maps.go:158-169 | false when the sizes differ; false when a key of a is missing from b or has another value; true exactly when the two maps have the same entries |
| MapsExamples.LessEqTotal | 06_maps/01_maps.go:81 | any two strings are comparable in Go's string order |
| MapsExamples.LessEqTransitive | 06_maps/01_maps.go:81 | Go's string order is transitive |
| MapsExamples.LessEqAntisymmetric | 06_maps/01_maps.go:81 | two strings that are each at most the other are equal |
| MapsExamples.Insert | 06_maps/01_maps.go:81 | inserting into a sorted list gives a sorted list with one more copy of the string |
| MapsExamples.SortStrings | 06_maps/01_maps.go:81 | `sort.Strings` yields an ascending permutation of its input |
| MapsExamples.OrderedKeys | 06_maps/01_maps.go:77-81 | the key list has length len(fruits), holds each key exactly once and no other string, and is ascending |
| MapsExamples.KeysDistinct | 06_maps/01_maps.go:77-81 | a list holding each key of a map exactly once has no repeated element |
| MapsExamples.InsertAndUpdate | 06_maps/01_maps.go:24-43 | after the inserts and the update of Bob, ages is {Alice:30, Bob:26, Charlie:40} |
| MapsExamples.DeleteOranges | 06_maps/01_maps.go:29-61 | deleting "oranges" leaves exactly {apples:5, bananas:7} |
| MapsExamples.LookupDemo | 06_maps/01_maps.go:51-55 | "apples" gives (5, true); "grapes" gives (0, false) |
| MapsExamples.OrderedFruits | 06_maps/01_maps.go:77-86 | the ordered iteration of the remaining fruits is ["apples", "bananas"] |
| MapsExamples.CopyMapAlias | 06_maps/01_maps.go:141-145 | a write through copyMap is seen through ages |
| MapsExamples.EqualityDemo | 06_maps/01_maps.go:151-154 | {"x":1,"y":2} compared with an identical literal gives true |
| GoSlices.Literal | 02_built-in_nonprimitive_types/02_slices/basic_slices/basic_slices.go:7 | a slice literal is a fresh array holding exactly the listed elements, with capacity equal to its length |
| GoSlices.Make | 05_arrays_and_slices/01_declaration_and_initialization/slices/slices.go:7 | `make([]int, n)` is fresh, of length and capacity n, and zero-filled |
| GoSlices.SetAt | 11_pointers/pointers_examples.go:127 | an element write changes that one cell of the shared backing array and no other |
| GoSlices.SubSlice | 05_arrays_and_slices/01_declaration_and_initialization/slices/slices.go:17 | `s[lo:hi]` shares the array, has length hi-lo and capacity cap-lo, and shows elements lo to hi-1 |
| GoSlices.Append | 02_built-in_nonprimitive_types/02_slices/basic_slices/basic_slices.go:8 | the result shows the old elements followed by the new ones; the source slice's elements never change; the result shares the array exactly when the new elements fit |
| GoSlices.Copy | 02_built-in_nonprimitive_types/02_slices/basic_slices/basic_slices.go:16 | copies and returns min(len(dst), len(src)) elements; the rest of dst and all other cells are unchanged |
| BasicSlices.Slices1 | 02_built-in_nonprimitive_types/02_slices/basic_slices/basic_slices.go:5-10 | append gives [1,2,3,4,5], two longer than the source, and slice1 stays [1,2,3] |
| BasicSlices.Slices2 | 02_built-in_nonprimitive_types/02_slices/basic_slices/basic_slices.go:12-18 | copy moves 2 elements, giving [1,2]; the source stays [1,2,3] |
| SliceDeclaration.FillTimesTen | 05_arrays_and_slices/01_declaration_and_initialization/slices/slices.go:8-10 | after the loop index i holds 10*i; nothing outside the slice changes |
| SliceDeclaration.SliceDeclarationDemo | 05_arrays_and_slices/01_declaration_and_initialization/slices/slices.go:5-22 | five zeros become [0,10,20,30,40]; arr[1:4] is [1,2,3] with capacity 4 |
| ArrayDeclaration.FillDoubled | 04_arrays_and_slices/01_declaration_and_initialization/arrays/arrays.go:8-10 | after the loop a[k] == 2*k for every k |
| ArrayDeclaration.RangePairs | 04_arrays_and_slices/01_declaration_and_initialization/arrays/arrays.go:12-14 | the range loop visits every index in order, paired with its element |
| ArrayDeclaration.ArrayDeclarationDemo | 04_arrays_and_slices/01_declaration_and_initialization/arrays/arrays.go:5-15 | the array starts as five zeros, ends as [0,2,4,6,8], and ranges as the pairs (i, 2i) |
| Pointers.IncrementValue | 11_pointers/pointers_examples.go:15-17 | x++ raises only the callee's copy by 1; the method may modify nothing, so no caller variable changes |
| Pointers.IncrementPointer | 11_pointers/pointers_examples.go:20-22 | the pointee rises by exactly 1; only the pointee may change |
| Pointers.NewCounter | 11_pointers/pointers_examples.go:25-28 | a freshly allocated cell holding 100 |
| Pointers.Birthday | 11_pointers/pointers_examples.go:31-33 | Age rises by 1 and Name is unchanged |
| Pointers.Store | 11_pointers/pointers_examples.go:49 | `*p = v` leaves the pointee holding v |
| Pointers.WriteThroughPointers | 11_pointers/pointers_examples.go:40-60 | after `*p = 20` and `*ptrB = 15`, a is 20 and b is 15 |
| Pointers.ValueVersusPointer | 11_pointers/pointers_examples.go:65-70 | incrementValue leaves x at 10; incrementPointer makes it 11 |
| Pointers.NilThenAllocate | 11_pointers/pointers_examples.go:75-84 | the nil pointer is given new memory holding 99 |
| Pointers.StructPointerDemo | 11_pointers/pointers_examples.go:89-106 | the write through p2 makes p1.Age 30; birthday makes it 31; the name stays Alice; the counter is 100 |
| Pointers.ComparePointers | 11_pointers/pointers_examples.go:111-119 | two pointers to one variable are equal; pointers to two variables holding equal values are not |
| Pointers.SharedHeaders | 11_pointers/pointers_examples.go:124-138 | writes through the copied slice and map headers show in the originals: [99,2,3] and {x:42} |
| ReferenceTypes.ModifySlice | 01_basic_constructs_and_elementary_data_types/06_variables/reference_types/reference_types.go:6-10 | needs a non-empty slice; the caller's element 0 becomes 10 and the others stay; the local slice is one longer and ends in 20; with spare capacity the 20 lands in the shared backing array just past the caller's length, otherwise the local slice is in a fresh array; no other cell of the backing array changes |
| ReferenceTypes.ModifyMap | 01_basic_constructs_and_elementary_data_types/06_variables/reference_types/reference_types.go:13-16 | the caller's map gains newKey → 50 and every other entry stays |
| ReferenceTypes.ReferenceTypesDemo | 01_basic_constructs_and_elementary_data_types/06_variables/reference_types/reference_types.go:18-30 | the caller's slice goes from [1,2,3] to [10,2,3] with the same length; the callee prints [10,2,3,20]; the map gains newKey |
| StructsAndMethods.Person.Greet | 07_structs_and_methods/01_structs_and_methods.go:47-50 | the greeting is the fixed prefix followed by the name; a value receiver cannot change the person |
| StructsAndMethods.GreetDeterminesName | 07_structs_and_methods/01_structs_and_methods.go:48-50 | two people get the same greeting exactly when their names are equal |
| StructsAndMethods.NewPerson | 07_structs_and_methods/01_structs_and_methods.go:63-65 | the result has exactly the given name and age |
| StructsAndMethods.NewPersonRoundTrip | 07_structs_and_methods/01_structs_and_methods.go:63-65 | rebuilding any Person from its own fields gives that Person |
| StructsAndMethods.StructEquality | 07_structs_and_methods/01_structs_and_methods.go:149-154 | struct == compares field by field; {Alice,30} equals {Alice,30} and differs from {Bob,20} |
| StructsAndMethods.Account.constructor | 07_structs_and_methods/01_structs_and_methods.go:69 | the composite literal sets all three fields as given |
| StructsAndMethods.Account.Deposit | 07_structs_and_methods/01_structs_and_methods.go:52-56 | Balance rises by the amount, the account becomes active, and Owner is unchanged |
| StructsAndMethods.NewAccount | 07_structs_and_methods/01_structs_and_methods.go:67-70 | a fresh account with the owner, balance 0 and active set |
| StructsAndMethods.DepositDemo | 07_structs_and_methods/01_structs_and_methods.go:112-114 | NewAccount("Alice") then Deposit(100) gives owner Alice, balance 100, active |
| StructsAndMethods.PromotedFields | 07_structs_and_methods/01_structs_and_methods.go:120-127 | emp.Name is emp.Person.Name and emp.City is emp.Address.City; the demo gives Derek and Seattle |
| Fmt.NatDecimal | 06_output_formatting/custom_formatting_with_stringer/custom_formatting_with_stringer.go:11 | %d of a natural number is a non-empty run of digits with no leading zero |
| Fmt.Decimal | 06_output_formatting/custom_formatting_with_stringer/custom_formatting_with_stringer.go:11 | %d text is non-empty and starts with '-' exactly for negative numbers |
| Fmt.DecimalRoundTrip | 06_output_formatting/custom_formatting_with_stringer/custom_formatting_with_stringer.go:11 | parsing the %d text of n gives back n |
| Fmt.NameWithAge | 06_output_formatting/custom_formatting_with_stringer/custom_formatting_with_stringer.go:11 | "%s (%d years old)" starts with the name, then " (", and ends with " years old)"; the length is exact |
| Fmt.NameWithAgeRecoversAge | 06_output_formatting/custom_formatting_with_stringer/custom_formatting_with_stringer.go:11 | the text between the name's " (" and " years old)" is the age's %d text and parses back to the age |
| Fmt.NameWithAgeInjective | 06_output_formatting/custom_formatting_with_stringer/custom_formatting_with_stringer.go:11 | for one name, two renderings are equal exactly when the ages are |
| Stringer.Person.String | 06_output_formatting/custom_formatting_with_stringer/custom_formatting_with_stringer.go:10-12 | the text starts with Name and ends with " years old)"; a value receiver cannot change the person |
| Stringer.StringInjective | 06_output_formatting/custom_formatting_with_stringer/custom_formatting_with_stringer.go:10-12 | two people render alike exactly when they are equal |
| Stringer.StringerExample | 06_output_formatting/custom_formatting_with_stringer/custom_formatting_with_stringer.go:14-17 | {"Test User", 30} renders as "Test User (30 years old)" |
| Formatter.Person.Format | 06_output_formatting/custom_formatting_with_formatter/custom_formatting_with_formatter.go:12-21 | %+v writes "Name (Age years old)"; %v writes just Name; any other verb writes nothing |
| Formatter.FormatIgnoresOtherFlags | 06_output_formatting/custom_formatting_with_formatter/custom_formatting_with_formatter.go:12-21 | the output depends on the flags only through '+' |
| Formatter.PlainVerbShowsOnlyName | 06_output_formatting/custom_formatting_with_formatter/custom_formatting_with_formatter.go:17-18 | without '+', people with equal names print alike, whatever their ages |
| Formatter.PlusVerbShowsAge | 06_output_formatting/custom_formatting_with_formatter/custom_formatting_with_formatter.go:15-16 | with '+', people with one name and different ages print differently |
| Formatter.FormatterExample | 06_output_formatting/custom_formatting_with_formatter/custom_formatting_with_formatter.go:23-27 | %v gives "Test User" and %+v gives "Test User (30 years old)" |
| ControlStructures.GoQuot | 09_control_structures/03_switch_case_construct/01_switch_case_construct_2.go:10 | Go's `/` truncates: the quotient's size is the quotient of the sizes, and a nonzero quotient is positive exactly when the operands' signs agree |
| ControlStructures.GoRem | 09_control_structures/03_switch_case_construct/01_switch_case_construct_2.go:10 | Go's `%`: a is rebuilt as GoQuot(a, b) * b + r, and r has the sign of the dividend and is smaller in size than the divisor |
| ControlStructures.Parity | 09_control_structures/03_switch_case_construct/01_switch_case_construct_2.go:10-14 | the even branch is taken exactly when n is even, negatives included; the only outputs are "is even" and "is odd" |
| ControlStructures.ParityIsEvenness | 09_control_structures/03_switch_case_construct/01_switch_case_construct_2.go:10-14 | n and -n take the same branch and n, n+1 take different ones; odd negatives have Go remainder -1 |
| ControlStructures.DayName | 09_control_structures/03_switch_case_construct/01_switch_case_construct_2.go:26-35 | 1 is "Monday", 2 is "Tuesday", 3 is "Wednesday", and every other day is "Another day" |
| ControlStructures.DayNameInjective | 09_control_structures/03_switch_case_construct/01_switch_case_construct_2.go:26-35 | days 1 to 3 get distinct names |
| ControlStructures.GradeOf | 09_control_structures/03_switch_case_construct/01_switch_case_construct_2.go:40-49 | first match decides: A for 90 and up, B for 80-89, C for 70-79, D or lower below 70; exactly one grade applies |
| ControlStructures.GradeMonotone | 09_control_structures/03_switch_case_construct/01_switch_case_construct_2.go:40-49 | a higher score never gets a lower grade |
| ControlStructures.ClassicLoop | 09_control_structures/03_switch_case_construct/01_switch_case_construct_2.go:53-55 | the loop visits 0 to n-1 in increasing order |
| ControlStructures.WhileLoop | 09_control_structures/03_switch_case_construct/01_switch_case_construct_2.go:59-63 | the loop visits 0 to limit-1 and exits with counter at limit (0 if limit is negative) |
| ControlStructures.BreakLoop | 09_control_structures/03_switch_case_construct/01_switch_case_construct_2.go:67-74 | the loop terminates, visits 0 to limit-1, and exits with j at limit (0 if limit is negative) |
| ControlStructures.ControlStructuresDemo | 09_control_structures/03_switch_case_construct/01_switch_case_construct_2.go:8-74 | 10 is even, day 3 is Wednesday, 82 is grade B, the loops visit 0..4, 0..2 and 0..2 and exit at 3 |

## Left out

- Goroutines, channels, `select`, `sync.WaitGroup`, tickers and `context`
  (12_concurrency/03_channel_patterns.go, 12_coroutines/coroutines_examples.go)
  are not part of this model. Fan-in, worker pools, pipelines and cancellation
  are concurrency, and the timing depends on sleeps and random delays.
- Floating point: `Account.Balance` is a `real` and rounding is not modelled.
  The float averages and float-to-int conversions of other files are not part
  of this model.
- `encoding/json` marshalling and unmarshalling in the structs file: a foreign
  library.
- `fmt.Println`/`Printf` output of structs, maps and slices: printing. The
  demo methods return the printed values instead.
- `fmt.State` and `Fprintf` plumbing: the writer is the returned string.
- MapsExamples.SortStrings: `sort.Strings` sorts the slice in place. Here it
  is a function on a sequence that yields the sorted permutation, so the
  in-place update of the slice's array is not modelled.
- GoSlices.Append: the growth rule is only "double, or exactly what is
  needed". Go's slower growth above 256 elements and its rounding to
  allocation size classes are not modelled. Only the capacity of a
  reallocated result depends on this.
- Example.CalcArea: Go's 64-bit wrap-around of `w*h` is not modelled. The
  code makes no promise about overflow, and integers here are unbounded.
- The map iteration order in `mapsEqual` and the key collection loop is
  unspecified in Go. The model picks an arbitrary remaining key each time, so
  no order is assumed.
- The `t.Parallel`/`time.Sleep` test and `t.Run` plumbing: the test harness.
  The table of `TestCalcAreaInParallel` is the same as in
  `TestCalcAreaViaTable`. `12_testing/basics/example_test.go` repeats the same
  vectors, so one set of lemmas covers both test files.
- Sections of the walkthroughs that only print literals are not modelled:
  - in 06_maps/01_maps.go: the nil map, struct-valued maps, maps of slices,
    maps of maps, and the unordered range printing;
  - in the structs file: the anonymous struct, slices and maps of structs,
    the direct field write `p2.Age = 31` on the local value `p2`, and
    `p3.Age++` through the pointer `p3`, which is the same pointer write as
    `Pointers.Birthday`;
  - in the switch file: the `if value := n * 2` short statement and the range
    loops over a slice and a map;
  - the `[]string` literal in slices.go.
- UTF-8 decoding in range loops over strings: runtime behaviour with no logic
  in the repository.
