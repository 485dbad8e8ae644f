/** The scenarios of the package's tests, stated over the model with the
    tests' own struct and values. */
module OptScenarios {
  import opened Opt

  /** The tests' payload type, a struct of an integer and a string. */
  datatype TestStruct = TestStruct(n: int, s: string)

  /** Go's zero value of `TestStruct`. */
  const ZeroStruct := TestStruct(0, "")

  const Hello := TestStruct(42, "Hello, World!")

  /** `Set` on a variable already holding `Hello` (storing a different
      struct), and on a zero variable (storing `Hello`), leaves the new value in
      place and marked set. */
  method SetScenario(startSet: bool) returns (value: TestStruct, ok: bool)
    ensures ok && value == (if startSet then TestStruct(24, "!dlorW ,olleH") else Hello)
  {
    var o;
    if startSet {
      o := new Var.Hold(ZeroStruct, New(Hello));
      o.Set(TestStruct(24, "!dlorW ,olleH"));
    } else {
      o := new Var(ZeroStruct);
      o.Set(Hello);
    }
    value, ok := Get(o.Contents()).0, Get(o.Contents()).1;
  }

  /** `Reset` on a variable holding a value, and on a zero variable, leaves it
      empty with the zero payload. */
  method ResetScenario(startSet: bool) returns (value: TestStruct, ok: bool)
    ensures !ok && value == ZeroStruct
  {
    var o;
    if startSet {
      o := new Var.Hold(ZeroStruct, New(Hello));
    } else {
      o := new Var(ZeroStruct);
    }
    o.Reset();
    value, ok := Get(o.Contents()).0, Get(o.Contents()).1;
  }

  /** `Of` on a nil pointer is empty with a zero payload; on a pointer to
      `Hello` it holds `Hello`. */
  lemma OfScenarios()
    ensures Of(Nil, ZeroStruct) == Opt(false, ZeroStruct)
    ensures Of(To(Hello), ZeroStruct) == Opt(true, Hello)
  {
  }

  /** `Get` on `New(Hello)` and on the zero `Opt`. */
  lemma GetScenarios()
    ensures Get(New(Hello)) == (Hello, true)
    ensures Get(Empty(ZeroStruct)) == (ZeroStruct, false)
  {
  }

  /** `Map` projecting the integer field, over a set and an empty `Opt`. */
  lemma MapScenarios()
    ensures Map(New(TestStruct(42, "Hello, World")), (v: TestStruct) => v.n, 0) == Opt(true, 42)
    ensures Map(Empty(ZeroStruct), (v: TestStruct) => v.n, 0) == Opt(false, 0)
  {
  }

  /** `FlatMap` with a function returning `New` of the integer field, and with
      one returning the empty `Opt[int]`, each over a set and an empty `Opt`. */
  lemma FlatMapScenarios()
    ensures FlatMap(New(Hello), (v: TestStruct) => New(v.n), 0) == Opt(true, 42)
    ensures FlatMap(Empty(ZeroStruct), (v: TestStruct) => New(v.n), 0) == Opt(false, 0)
    ensures FlatMap(New(Hello), (v: TestStruct) => Empty(0), 0) == Opt(false, 0)
    ensures FlatMap(Empty(ZeroStruct), (v: TestStruct) => Empty(0), 0) == Opt(false, 0)
  {
  }
}
