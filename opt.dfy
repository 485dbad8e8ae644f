/** The Go package `opt`: an optional value held without pointers.

    `Opt<T>` is a value (a Go struct, copied on assignment), so it is a datatype.
    Go's "zero value of T" has no counterpart in Dafny, so every operation that
    produces an empty `Opt` receives that zero value explicitly as `zero`.
    A Go pointer `*T` is a `Pointer<T>`: `Nil`, or `To(target)` for a pointer
    whose referent is `target`. A Go variable of type `Opt[T]`, the thing the
    pointer-receiver methods `Set` and `Reset` update in place, is a `Var<T>`.
 */
module Opt {

  /** An optional value: `isSet` says whether `value` is meaningful. */
  datatype Opt<T> = Opt(isSet: bool, value: T)

  /** A Go pointer `*T`, seen through what it points to. */
  datatype Pointer<T> = Nil | To(target: T)

  /** `Opt[T]{}`, the zero value of `Opt[T]`: empty, with the zero payload. */
  function Empty<T>(zero: T): (r: Opt<T>)
    ensures Get(r) == (zero, false)
    ensures Ptr(r) == Nil
  {
    Opt(false, zero)
  }

  /** The state the zero value suggests: an empty `Opt` carries no stale
      payload. `New`, `Of`, `Map`, `Set` and `Reset` produce only canonical
      values, and `FlatMap` does when its function does. A struct literal in Go
      can still build an `Opt` outside it, so it is not a type invariant. */
  ghost predicate Canonical<T>(o: Opt<T>, zero: T)
  {
    o.isSet || o.value == zero
  }

  /** `New`: an `Opt` holding `value`. */
  function New<T>(value: T): (r: Opt<T>)
    ensures Get(r) == (value, true)
    ensures Ptr(r) == To(value)
  {
    Opt(true, value)
  }

  /** `Of`: a nil pointer gives the empty `Opt`, any other pointer an `Opt`
      holding (a copy of) its referent. These two ensures pin the result down
      completely (see `OfCharacterized`). */
  function Of<T>(ptr: Pointer<T>, zero: T): (r: Opt<T>)
    ensures Ptr(r) == ptr
    ensures Canonical(r, zero)
  {
    match ptr
    case Nil => Empty(zero)
    case To(v) => New(v)
  }

  /** `Get`: the payload together with the presence flag. The pair loses
      nothing: it reassembles `o`. */
  function Get<T>(o: Opt<T>): (r: (T, bool))
    ensures Opt(r.1, r.0) == o
  {
    (o.value, o.isSet)
  }

  /** `Ptr`: nil exactly when the `Opt` is empty, otherwise a pointer to (a copy
      of) its payload. */
  function Ptr<T>(o: Opt<T>): (p: Pointer<T>)
    ensures p.Nil? <==> !o.isSet
    ensures p.To? ==> p.target == o.value
  {
    if o.isSet then To(o.value) else Nil
  }

  /** `Map`: applies `f` to the payload of a set `Opt`; an empty one maps to
      the empty `Opt[U]`, whatever `f` is. */
  function Map<T, U>(o: Opt<T>, f: T -> U, zero: U): (r: Opt<U>)
    ensures r.isSet <==> o.isSet
    ensures o.isSet ==> r.value == f(o.value)
    ensures Canonical(r, zero)
  {
    if o.isSet then New(f(o.value)) else Empty(zero)
  }

  /** `FlatMap`: a set `Opt` yields whatever `f` returns for its payload, empty
      or not; an empty one yields the empty `Opt[U]`. */
  function FlatMap<T, U>(o: Opt<T>, f: T -> Opt<U>, zero: U): (r: Opt<U>)
    ensures o.isSet ==> r == f(o.value)
    ensures !o.isSet ==> r == Empty(zero)
  {
    if o.isSet then f(o.value) else Empty(zero)
  }

  /** An addressable variable of type `Opt[T]`, updated in place by the
      pointer-receiver methods. `zero` is the zero value of `T` that `Reset`
      stores. */
  class Var<T> {
    const zero: T
    var isSet: bool
    var value: T

    /** The value currently stored in the variable. */
    function Contents(): Opt<T>
      reads this
    {
      Opt(isSet, value)
    }

    /** `var o Opt[T]`: a variable starting at the zero value. */
    constructor (zero: T)
      ensures this.zero == zero
      ensures Contents() == Empty(zero)
    {
      this.zero := zero;
      isSet := false;
      value := zero;
    }

    /** `o := init`: a variable starting at a given value. */
    constructor Hold(zero: T, init: Opt<T>)
      ensures this.zero == zero
      ensures Contents() == init
    {
      this.zero := zero;
      isSet := init.isSet;
      value := init.value;
    }

    /** `Set`: stores `v` and marks the variable set, whatever it held. */
    method Set(v: T)
      modifies this
      ensures isSet && value == v
      ensures Contents() == After(SetTo(v), zero)
    {
      value := v;
      isSet := true;
    }

    /** `Reset`: empties the variable and clears its payload to zero, whatever
        it held. */
    method Reset()
      modifies this
      ensures !isSet && value == zero
      ensures Contents() == After(Cleared, zero)
    {
      value := zero;
      isSet := false;
    }
  }

  /** `Of` as opt.go writes it: a local zero `Opt`, filled by `Set` when the
      pointer is not nil. */
  method BuildOf<T>(ptr: Pointer<T>, zero: T) returns (r: Opt<T>)
    ensures r == Of(ptr, zero)
  {
    var res := new Var(zero);
    if ptr.To? {
      res.Set(ptr.target);
    }
    r := res.Contents();
  }

  /** `Map` as opt.go writes it: a local zero `Opt[U]`, filled by `Set` with
      `f` of the payload when the input is set. */
  method BuildMap<T, U>(o: Opt<T>, f: T -> U, zero: U) returns (r: Opt<U>)
    ensures r == Map(o, f, zero)
  {
    var res := new Var(zero);
    if o.isSet {
      res.Set(f(o.value));
    }
    r := res.Contents();
  }

  /** The two in-place updates of a variable. */
  datatype Mutation<T> = SetTo(v: T) | Cleared

  /** The value a mutation leaves in a variable whose zero payload is `zero`.
      It takes no prior value: neither `Set` nor `Reset` reads the old state. */
  function After<T>(m: Mutation<T>, zero: T): Opt<T>
  {
    match m
    case SetTo(v) => New(v)
    case Cleared => Empty(zero)
  }

  /** The value of a variable holding `o` after the mutations `ms`, in order. */
  function Run<T>(o: Opt<T>, ms: seq<Mutation<T>>, zero: T): Opt<T>
    decreases |ms|
  {
    if ms == [] then o else Run(After(ms[0], zero), ms[1..], zero)
  }
}
