# opt: an optional value without pointers, in Dafny

The Go package `opt` (file `opt.go`) defines one generic type, `Opt[T]`, a struct
with a presence flag `IsSet` and a payload `Value`. Its zero value is the empty
optional. The package has eight operations:

- `New` and `Of` construct an `Opt`. `Of` takes a `*T`.
- `Get` and `Ptr` read one.
- `Set` and `Reset` update a variable in place (pointer receivers).
- `Map` and `FlatMap` combine an `Opt` with a function.

The model has three modules:

- `Opt` (`opt.dfy`) holds the data model and the operations.
  - `Opt<T>` is a datatype, since `Opt[T]` is a Go value copied on assignment.
  - `Pointer<T>` (`Nil | To(target)`) stands for `*T`.
  - `Var<T>` is a class for a Go variable of type `Opt[T]`. Its fields are `isSet` and `value`, and its methods `Set` and `Reset` overwrite them in place.
  - Go's zero value of a type parameter has no Dafny counterpart, so it is passed explicitly as `zero`. `Var` keeps it as a constant field.
  - `BuildOf` and `BuildMap` follow the Go bodies of `Of` and `Map`: they fill a local zero `Var` with `Set`. Each is proved equal to the pure function of the same name.
  - `Mutation`, `After` and `Run` describe the values that sequences of `Set` and `Reset` leave.
- `OptLaws` (`opt_laws.dfy`) holds the laws relating the operations: round trips, identities, composition, associativity, and the canonical-state invariant.
- `OptScenarios` (`opt_scenarios.dfy`) restates the scenarios of `opt_test.go` with its `TestStruct` payload and its values.

`Canonical(o, zero)` means `o.isSet || o.value == zero`: an empty `Opt` carries no stale payload. `New`, `Of`, `Map`, `Set` and `Reset` produce only canonical values; `FlatMap` does when its function does (`FlatMapCanonical`), since it returns the function's result unchanged. A Go struct literal such as `Opt[T]{IsSet: false, Value: x}` can still break it. That is why `Of(Ptr(o)) == o` and `FlatMap(o, New) == o` hold exactly when `o` is canonical, and the laws say so in both directions.

The lemmas about `Run` (`RunLast`, `RunIdempotent`, `RunCanonical`) are the value-level form of what `Set` and `Reset` promise: each overwrites the variable whatever it held before, so repeating one changes nothing. `Var.Set` and `Var.Reset` state the same thing for one call, through `After`.

## Model

| member | source | states |
|---|---|---|
| Opt.Empty | opt.go:4-11 | the zero `Opt[T]{}` reads back through `Get` as `(zero, false)` and converts to a nil pointer |
| Opt.New | opt.go:13-19 | `Get` of the result is `(value, true)`, and `Ptr` of it points to `value` |
| Opt.Get | opt.go:33-36 | the returned pair, payload and presence flag, reassembles the `Opt` exactly |
| Opt.Of | opt.go:21-31 | the result converts back to the given pointer with `Ptr`, and an empty result has the zero payload |
| Opt.Ptr | opt.go:38-45 | the result is nil exactly when the `Opt` is empty; when not nil it points to the payload |
| Opt.Map | opt.go:60-69 | the result is set exactly when the input is; then its payload is `f` of the input's payload; it is always canonical |
| Opt.FlatMap | opt.go:71-78 | a set input yields exactly `f` of its payload, empty or not; an empty input yields `Opt[U]{}` |
| Opt.Var.constructor | opt.go:4-11 | a fresh variable holds the zero `Opt`, empty with the zero payload |
| Opt.Var.Hold | opt_test.go:95-98 | a variable initialised by assignment holds the assigned `Opt` |
| Opt.Var.Set | opt.go:47-51 | from any prior state the variable is set and holds `v`; this is the value `After(SetTo(v))` |
| Opt.Var.Reset | opt.go:53-58 | from any prior state the variable is empty and holds the zero payload, i.e. equals `Opt[T]{}` |
| Opt.BuildOf | opt.go:23-31 | the local-variable-and-`Set` body of `Of` computes exactly `Of` |
| Opt.BuildMap | opt.go:61-69 | the local-variable-and-`Set` body of `Map` computes exactly `Map` |
| OptLaws.GetNew | opt.go:13-19 | `Get(New(v))` is `(v, true)` |
| OptLaws.GetEmpty | opt.go:33-36 | `Get` of the zero `Opt` is `(zero, false)` |
| OptLaws.GetInjective | opt.go:33-36 | two `Opt`s have the same `Get` if and only if they are equal |
| OptLaws.OfCharacterized | opt.go:21-31 | an `Opt` equals `Of(ptr)` if and only if it converts back to `ptr` and is canonical |
| OptLaws.OfIsNewOrEmpty | opt.go:23-31 | `Of` of a non-nil pointer equals `New` of its referent; `Of(nil)` is the zero `Opt` |
| OptLaws.PtrOf | opt.go:39-45 | `Ptr(Of(p))` is `p` for every pointer |
| OptLaws.OfPtr | opt.go:23-45 | `Of(Ptr(o))` is `o` if and only if `o` is canonical |
| OptLaws.AfterCanonical | opt.go:48-58 | `Set(v)` leaves `Get` returning `(v, true)`; `Reset` leaves the zero `Opt`; both leave a canonical value |
| OptLaws.RunLast | opt.go:48-58 | after any non-empty sequence of `Set`s and `Reset`s the variable holds what the last one left, whatever it held before |
| OptLaws.RunIdempotent | opt.go:48-58 | repeating the last `Set(v)` or `Reset()` changes nothing further |
| OptLaws.RunCanonical | opt.go:48-58 | a canonical variable stays canonical under any sequence of `Set`s and `Reset`s |
| OptLaws.MapIgnoresFunctionWhenEmpty | opt.go:61-69 | on an empty `Opt`, `Map` gives the zero `Opt[U]` for every function |
| OptLaws.MapIsFlatMapNew | opt.go:61-78 | `Map(o, f)` equals `FlatMap(o, x => New(f(x)))` |
| OptLaws.MapNew | opt.go:61-69 | `Map(New(v), f)` is `New(f(v))` |
| OptLaws.MapIdentity | opt.go:61-69 | mapping the identity returns the input if and only if the input is canonical |
| OptLaws.MapCompose | opt.go:61-69 | `Map(Map(o, f), g)` equals `Map(o, g after f)` |
| OptLaws.FlatMapIgnoresFunctionWhenEmpty | opt.go:72-78 | on an empty `Opt`, `FlatMap` gives `Opt[U]{}` for every function |
| OptLaws.FlatMapNew | opt.go:72-78 | `FlatMap(New(v), f)` is `f(v)`, including an empty `f(v)` |
| OptLaws.FlatMapNewIdentity | opt.go:72-78 | `FlatMap(o, New)` returns `o` if and only if `o` is canonical |
| OptLaws.FlatMapCanonical | opt.go:72-78 | if `f` only returns canonical `Opt`s, so does `FlatMap(o, f)` |
| OptLaws.FlatMapAssociative | opt.go:72-78 | `FlatMap(FlatMap(o, f), g)` equals `FlatMap(o, x => FlatMap(f(x), g))` |
| OptScenarios.SetScenario | opt_test.go:88-123 | `Set` on a set variable and on a zero variable leaves the new value, marked set |
| OptScenarios.ResetScenario | opt_test.go:125-152 | `Reset` on a set variable and on a zero variable leaves it empty with the zero payload |
| OptScenarios.OfScenarios | opt_test.go:29-56 | `Of(nil)` is empty with a zero payload; `Of` of a pointer to a struct holds that struct |
| OptScenarios.GetScenarios | opt_test.go:58-86 | `Get` on `New(x)` is `(x, true)`; on the zero `Opt` it is `(zero, false)` |
| OptScenarios.MapScenarios | opt_test.go:154-186 | projecting a field through `Map` over a set and an empty `Opt` |
| OptScenarios.FlatMapScenarios | opt_test.go:188-251 | the four `FlatMap` cases: set or empty input, function returning a value or nothing |

## Left out

- Pointer identity and aliasing: `Ptr` returns the address of the receiver's copy (opt.go:41), and `Of` dereferences its argument. The model sees a pointer only through its referent (`Pointer<T>`), so which storage it points to is not modelled.
- Go's zero value of a type parameter: the model takes it as an explicit `zero` argument, or as the `zero` constant of a `Var`. The model does not check that the caller passes the real zero value of the type.
- Panics inside the user-supplied function of `Map` and `FlatMap`: the function is a total Dafny function. That it is not called on an empty input is stated as "the result does not depend on the function" (`MapIgnoresFunctionWhenEmpty`, `FlatMapIgnoresFunctionWhenEmpty`), since a pure function's calls are not observable.
- Copy semantics for composite payloads need no model: `Opt<T>` is a datatype, so every copy is an independent value.
- `opt_test.go` supplies only the scenarios in `OptScenarios`. Its assertion library is not part of this model.
