/** Properties of the `opt` package that relate several of its operations. */
module OptLaws {
  import opened Opt

  /** `New` stores its argument, and `Get` hands it back as present. */
  lemma GetNew<T>(v: T)
    ensures Get(New(v)) == (v, true)
  {
  }

  /** `Get` on the zero `Opt` gives the zero payload and `false`. */
  lemma GetEmpty<T>(zero: T)
    ensures Get(Empty(zero)) == (zero, false)
  {
  }

  /** `Get` loses nothing: two `Opt`s with the same `Get` are the same. */
  lemma GetInjective<T>(a: Opt<T>, b: Opt<T>)
    ensures Get(a) == Get(b) <==> a == b
  {
  }

  /** `Of` is exactly the `Opt` that converts back to the pointer and carries
      no stale payload. */
  lemma OfCharacterized<T>(ptr: Pointer<T>, zero: T, r: Opt<T>)
    ensures r == Of(ptr, zero) <==> Ptr(r) == ptr && Canonical(r, zero)
  {
  }

  /** A non-nil pointer gives the same as `New` of its referent; nil gives the
      zero `Opt`. */
  lemma OfIsNewOrEmpty<T>(ptr: Pointer<T>, zero: T)
    ensures ptr.To? ==> Of(ptr, zero) == New(ptr.target)
    ensures ptr.Nil? ==> Of(ptr, zero) == Empty(zero)
  {
  }

  /** `Ptr` undoes `Of` for every pointer. */
  lemma PtrOf<T>(ptr: Pointer<T>, zero: T)
    ensures Ptr(Of(ptr, zero)) == ptr
  {
  }

  /** `Of` undoes `Ptr` exactly on the canonical `Opt`s: an empty `Opt` built as
      a struct literal with a non-zero payload comes back with the payload
      cleared. */
  lemma OfPtr<T>(o: Opt<T>, zero: T)
    ensures Of(Ptr(o), zero) == o <==> Canonical(o, zero)
  {
  }

  /** Every mutation leaves a canonical value, and reads no prior state. */
  lemma AfterCanonical<T>(m: Mutation<T>, zero: T)
    ensures Canonical(After(m, zero), zero)
    ensures m.SetTo? ==> Get(After(m, zero)) == (m.v, true)
    ensures m.Cleared? ==> After(m, zero) == Empty(zero) && Get(After(m, zero)) == (zero, false)
  {
  }

  /** After any non-empty run of `Set`s and `Reset`s, the variable holds what
      the last one left, whatever it held before. */
  lemma {:induction false} RunLast<T>(o: Opt<T>, ms: seq<Mutation<T>>, zero: T)
    requires ms != []
    ensures Run(o, ms, zero) == After(ms[|ms| - 1], zero)
    decreases |ms|
  {
    if |ms| > 1 {
      RunLast(After(ms[0], zero), ms[1..], zero);
      assert ms[1..][|ms[1..]| - 1] == ms[|ms| - 1];
    }
  }

  /** Repeating a `Set(v)` or a `Reset()` changes nothing further. */
  lemma RunIdempotent<T>(o: Opt<T>, ms: seq<Mutation<T>>, m: Mutation<T>, zero: T)
    ensures Run(o, ms + [m, m], zero) == Run(o, ms + [m], zero)
  {
    RunLast(o, ms + [m, m], zero);
    RunLast(o, ms + [m], zero);
  }

  /** A variable that starts canonical stays canonical under `Set` and
      `Reset`. */
  lemma {:induction false} RunCanonical<T>(o: Opt<T>, ms: seq<Mutation<T>>, zero: T)
    requires Canonical(o, zero)
    ensures Canonical(Run(o, ms, zero), zero)
    decreases |ms|
  {
    if ms != [] {
      RunCanonical(After(ms[0], zero), ms[1..], zero);
    }
  }

  /** An empty `Opt` maps to the same result whatever the function: `Map`
      does not depend on `f` there. */
  lemma MapIgnoresFunctionWhenEmpty<T, U>(o: Opt<T>, f: T -> U, g: T -> U, zero: U)
    requires !o.isSet
    ensures Map(o, f, zero) == Map(o, g, zero) == Empty(zero)
  {
  }

  /** `Map` is `FlatMap` with the function's result wrapped by `New`. */
  lemma MapIsFlatMapNew<T, U>(o: Opt<T>, f: T -> U, zero: U)
    ensures Map(o, f, zero) == FlatMap(o, x => New(f(x)), zero)
  {
  }

  /** `Map` over a set `Opt` is `New` of the function's result. */
  lemma MapNew<T, U>(v: T, f: T -> U, zero: U)
    ensures Map(New(v), f, zero) == New(f(v))
  {
  }

  /** Mapping the identity gives the input back exactly on canonical `Opt`s. */
  lemma MapIdentity<T>(o: Opt<T>, zero: T)
    ensures Map(o, x => x, zero) == o <==> Canonical(o, zero)
  {
  }

  /** Two `Map`s in a row are one `Map` of the composed function. */
  lemma MapCompose<T, U, V>(o: Opt<T>, f: T -> U, g: U -> V, zu: U, zv: V)
    ensures Map(Map(o, f, zu), g, zv) == Map(o, x => g(f(x)), zv)
  {
  }

  /** An empty `Opt` flat-maps to the zero `Opt[U]` whatever the function. */
  lemma FlatMapIgnoresFunctionWhenEmpty<T, U>(o: Opt<T>, f: T -> Opt<U>, g: T -> Opt<U>, zero: U)
    requires !o.isSet
    ensures FlatMap(o, f, zero) == FlatMap(o, g, zero) == Empty(zero)
  {
  }

  /** `FlatMap` over `New(v)` is `f(v)`, including an empty `f(v)`. */
  lemma FlatMapNew<T, U>(v: T, f: T -> Opt<U>, zero: U)
    ensures FlatMap(New(v), f, zero) == f(v)
  {
  }

  /** `FlatMap` with `New` gives the input back exactly on canonical `Opt`s. */
  lemma FlatMapNewIdentity<T>(o: Opt<T>, zero: T)
    ensures FlatMap(o, New, zero) == o <==> Canonical(o, zero)
  {
  }

  /** A `FlatMap` whose function only returns canonical `Opt`s returns a
      canonical `Opt`. */
  lemma FlatMapCanonical<T, U>(o: Opt<T>, f: T -> Opt<U>, zero: U)
    requires forall x :: Canonical(f(x), zero)
    ensures Canonical(FlatMap(o, f, zero), zero)
  {
  }

  /** `FlatMap` is associative. */
  lemma FlatMapAssociative<T, U, V>(o: Opt<T>, f: T -> Opt<U>, g: U -> Opt<V>, zu: U, zv: V)
    ensures FlatMap(FlatMap(o, f, zu), g, zv) == FlatMap(o, x => FlatMap(f(x), g, zv), zv)
  {
  }
}
