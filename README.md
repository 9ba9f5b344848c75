# function2: a model of the qualified callable wrapper

This project models `function.hpp` of the `function2` library. The header is a
type-erased callable wrapper, `my::function<Signature>`, and its move-only twin
`my::non_copyable_function<Signature>`. The wrapper keeps the signature's return
type, its parameter list and its `const` / `volatile` qualifier in its own type.
The model has three parts:

- **Signature decomposition** (`UnwrapTraits`). `unwrap_trait` has twelve partial
  specialisations: plain function types, function pointers and pointers to member
  functions, each with four cv-qualifier combinations. C++ types are abstract
  terms (`CTypes.CType`). The specialisations form a table, and `Unwrap` takes the
  matching one. No match gives `None`, the compile error of the undefined
  primary template. `Classify` is an independent recogniser of the twelve
  shapes. The lemmas prove that the patterns are disjoint: exactly one
  specialisation matches every supported shape and none matches any other type,
  so the partial ordering by which C++ chooses among several matching
  specialisations never comes into play. They also describe the members the
  trait exposes.
- **The wrapper** (`Wrapper`). `Instantiation` holds the template arguments of
  `detail::function<Fn, Copyable, Constant, Volatile>`. `Function` is an object of
  that type together with its erasure. The erasure is modelled as the
  `wrapper_impl<R(Args...)>` interface: the signature it erases and what its
  virtual call does. The header implements that interface only once, as
  `fake_wrapper_impl`, which returns `R()`. Both constructors install it. `Call`
  models the four `call_operator` specialisations. `FunctionBase`,
  `CopyableFunction` and `NonCopyableFunction` model the aliases.
- **The factory** (`Factory`). This is the wrapper type that `make_function`
  names for a callable argument. It decomposes `&Fn::operator()` and computes
  the copy policy `is_copy_assignable && is_copy_constructible` of
  `std::decay_t<Fn>`.

A value of type `R` is either `Wrapper.ValueInitialised(R)` (the expression
`R()`) or some other value of that type. `R()` is ill-formed for a reference
type, so the members that evaluate it require `CTypes.ValueInitialisable(R)`. Compile errors are `None` results, or
preconditions where the class template has no definition at all: a `function`
whose `Fn` is not `R(Args...)`, or a call whose arguments do not match the
signature.

Three behaviours of the code are worth stating, and the model follows the code
in each:

- The `const`, `volatile` and `const volatile` call operators return `R()`
  without reaching the erasure. The forwarding they should do is commented out
  with FIXME notes at function.hpp:197, function.hpp:209 and function.hpp:221.
- Neither constructor stores its argument: the converting constructor at
  function.hpp:237-239 ignores its `T&&`, and no erasure holds a callable.
- `Copyable` is only a template argument. Nothing in the class reads it, and the
  `clone` of the erasure interface is commented out at function.hpp:154.

## Model

| member | source | states |
|---|---|---|
| `UnwrapTraits.TraitBase` | function.hpp:29-54 | `unwrap_trait_base<R(Args...), IsMember, IsConst, IsVolatile>` exposes the unqualified `R(Args...)` as `decayed_type`, whose return type and parameters are `return_type` and the argument list, and the three flags as given; it has no `class_type` |
| `UnwrapTraits.WithClass` | function.hpp:56-61 | adding `class_trait_base<C>` gives `class_type = C` and leaves every other member as it was |
| `UnwrapTraits.Match` | function.hpp:67-129 | a specialisation's pattern matches a type exactly when the type has that specialisation's shape, so no two patterns overlap; on a match `is_member` holds for the member-pointer kind and `is_const` / `is_volatile` are the specialisation's qualifiers |
| `UnwrapTraits.Candidates` | function.hpp:64-129 | the viable specialisations of a table are no more than the table's entries, each comes from an entry whose pattern matches, and every matching entry contributes its members |
| `UnwrapTraits.Unwrap` | function.hpp:64-129 | the trait is defined exactly on the twelve shapes, and there it gives the members of the specialisation for that shape |
| `UnwrapTraits.CandidatesInDistinctTable` | function.hpp:64-129 | over a table without repetitions, the matching specialisations are the one of the type's shape (if present) and nothing else |
| `UnwrapTraits.SpecialisationsComplete` | function.hpp:67-129 | the twelve specialisations are pairwise distinct and cover every kind x qualifier pair |
| `UnwrapTraits.ExactlyOneSpecialisation` | function.hpp:64-129 | every supported shape is matched by exactly one specialisation; every other type by none |
| `UnwrapTraits.ShapeDecomposes` | function.hpp:29-129 | each of the twelve shapes, for any return type, class and parameter list (empty included), yields decayed type `R(Args...)`, return type, arguments, `is_member`, `is_const`, `is_volatile` and `class_type` as its specialisation declares |
| `UnwrapTraits.DescriptorDeterminesType` | function.hpp:67-129 | the descriptor together with the matched shape gives back the original type, so decomposition loses nothing |
| `UnwrapTraits.UnwrapPreservesQualifiers` | function.hpp:72-129 | `is_const` / `is_volatile` equal the qualifier on the shape; for function pointers this is the qualifier of the pointer itself |
| `UnwrapTraits.UnwrapMemberInfo` | function.hpp:56-129 | `is_member` holds exactly for member pointers; exactly those carry `class_type`, and it is the enclosing class |
| `UnwrapTraits.UnwrapDecayedType` | function.hpp:35-44 | `decayed_type` is the unqualified `R(Args...)` with the return type and the ordered argument list of the function inside the shape |
| `UnwrapTraits.UnsupportedShapes` | function.hpp:64-65 | ref-qualified, `noexcept` and C-variadic functions, and cv-qualified member pointers, have no descriptor |
| `Wrapper.Default` | function.hpp:165-168 | `R()`, for a type that can be value-initialised, is the value-initialised value of type `R` |
| `Wrapper.FakeErasure` | function.hpp:161-170 | the fake erasure erases the given signature, and for every argument list its call returns `R()` |
| `Wrapper.DefaultConstruct` | function.hpp:233-235 | the default constructor gives a valid wrapper of the requested type whose erasure returns `R()` for every argument list |
| `Wrapper.ConstructFrom` | function.hpp:237-239 | the converting constructor gives a valid wrapper of the requested type whose erasure behaves exactly like the default-constructed one, whatever argument it was given |
| `Wrapper.Call` | function.hpp:178-223 | whichever of the four call operators the instantiation inherits, a call with fitting arguments yields a value of the return type `R` |
| `Wrapper.CallThrough` | function.hpp:178-223 | the unqualified call operator is reachable only through an unqualified access path, the `const` one through a plain or `const` path, the `volatile` one through a plain or `volatile` path, the `const volatile` one through all four; a reachable call is the call operator and yields an `R` |
| `Wrapper.UnqualifiedCallForwards` | function.hpp:178-187 | the unqualified call operator returns exactly what the held erasure returns for the same arguments |
| `Wrapper.QualifiedCallIgnoresErasure` | function.hpp:189-223 | the const, volatile and const volatile call operators return `R()`, and replacing the erasure by any other of the same signature does not change their result |
| `Wrapper.ConstructedCallIsDefault` | function.hpp:225-243 | a wrapper from either constructor returns `R()` through any of the four call operators |
| `Wrapper.FunctionBase` | function.hpp:245-251 | `function_base` is defined exactly for the twelve shapes; it instantiates the unqualified `R(Args...)` of the signature with the given copy policy and with `Constant` / `Volatile` equal to the signature's qualifier |
| `Wrapper.CopyableFunction` | function.hpp:255-257 | `my::function` is defined for the twelve shapes, is copyable, and is qualified as its signature |
| `Wrapper.NonCopyableFunction` | function.hpp:259-261 | `my::non_copyable_function` is defined for the twelve shapes, is not copyable, and is qualified as its signature |
| `Wrapper.AliasesDifferInCopyPolicy` | function.hpp:255-261 | the two aliases are defined for the same signatures and differ only in `Copyable` |
| `Wrapper.CallableAsQualified` | function.hpp:189-251 | a wrapper named by a signature can be called through an access path exactly when that path's qualifiers are among the signature's |
| `Factory.DeducedFn` | function.hpp:264-265 | the forwarding reference deduces a reference type exactly for an lvalue argument, keeps the argument's cv-qualifier, and decays to the callable's class |
| `Factory.SelectInstantiation` | function.hpp:266-272 | the template arguments `make_function` builds from the type of `&Fn::operator()` are those of `function_base` applied to that type, and there are none when that expression has no type |
| `Factory.MakeFunctionTypeAsWritten` | function.hpp:264-272 | as written, every lvalue argument makes the selection ill-formed; for rvalues, the code as written and the decayed form agree |
| `Factory.MakeFunctionType` | function.hpp:264-272 | with the decayed `Fn`, the factory is defined exactly for a single unqualified-ref, non-`noexcept` call operator; the wrapper has that operator's `R(Args...)`, `Copyable = is_copy_assignable && is_copy_constructible` and the operator's qualifiers |
| `Factory.MakeFunctionIsFunctionBase` | function.hpp:264-272 | the wrapper `make_function` picks is `function_base` of the call operator's member pointer type with the class's copy policy |
| `Factory.LvalueClosureExample` | function.hpp:264-272 | a named capturing closure with `int(int, int) const` is rejected as written, and the decayed form gives the const, move-only wrapper of `int(int, int)` |
| `Factory.ConstCallOperatorNeverForwards` | function.hpp:189-198 | a callable with a `const` call operator, such as every closure not declared `mutable`, gets a wrapper whose call returns `R()` without reaching its erasure |

## Findings

| source | as written | input that shows it | evidently intended | confidence | as-written member | corrected member |
|---|---|---|---|---|---|---|
| function.hpp:264-272 | `make_function(Fn&& functional)` forms `&Fn::operator()` with `Fn` as deduced. For an lvalue argument `Fn` is `X&`, and a reference type cannot come before `::`, so the call does not compile | `int k = 1; auto f = [k](int a, int b) { return a + b + k; }; make_function(f);` | decompose `&std::decay_t<Fn>::operator()`, the type whose copy traits are already examined, so lvalues work too | medium; not executed | `Factory.MakeFunctionTypeAsWritten` (shown by its contract and by `Factory.LvalueClosureExample`) | `Factory.MakeFunctionType` (with `Factory.MakeFunctionIsFunctionBase`) |

## Left out

- Heap ownership is left out: `std::unique_ptr`, `std::make_unique` and the virtual destructors. The model keeps only the state both constructors leave: an erasure of the wrapper's own signature (`Wrapper.Valid`).
- Moved-from wrappers are not modelled and are outside `Wrapper.Valid`. The implicitly declared move constructor and move assignment leave the source's `_impl` null, and the unqualified call operator then dereferences a null pointer (function.hpp:185).
- Perfect forwarding (`std::forward`, `Args&&`) is left out. Argument values pass through unchanged.
- C++ conversions are not modelled. `Wrapper.ArgumentsFit` asks for one value of exactly each parameter type.
- The `volatile` access semantics are left out.
- The object `make_function` constructs is not part of this model, only its type. The construction expression at function.hpp:273 does not name a callable that can be stored, and no erasure in the header could hold one.
- A payload erasure and clone-on-copy do not exist in the header, so neither is modelled. The commented-out `clone` at function.hpp:154 is not modelled.
- Copy and move operations of the wrapper are not modelled. The `std::unique_ptr` member makes the implicit copy constructor deleted, whatever `Copyable` says. Copying from a non-const lvalue still compiles: the converting constructor at function.hpp:237-239 with `T = function&` is the better match, and it installs a fresh fake erasure. A copy from a const lvalue selects the deleted copy constructor. The model records `Copyable` as a template argument only.
- `CTypes.ValueInitialisable`: rules out reference and function types for `R()`, but does not tell apart a class without an accessible default constructor. For such an `R` the code does not compile at function.hpp:167, 196, 208 and 220, while `Wrapper.DefaultConstruct`, `Wrapper.ConstructFrom` and `Wrapper.Call` accept it.
- The model follows C++17 and later, where `noexcept` is part of the function type. Under C++14 a `noexcept` call operator has the plain member-function type, so `make_function` accepts it there, while `Factory.MakeFunctionType` and `UnwrapTraits.Unwrap` give `None`.
- A pointer to a cv-qualified function type cannot be formed in C++, so the model says nothing about one.
- The rest of the C++ type system is left out: template argument deduction beyond the forwarding reference, overload resolution of `&Fn::operator()`, SFINAE and the well-formedness of types. A call operator that is overloaded or a template is a single `Factory.OverloadedCallOperator` case. A static `operator()` is not modelled.
- Parameter type adjustments are not modelled, such as array-to-pointer decay and dropping top-level cv. Parameter lists are taken as written.
- Among function-type qualifiers, the model covers cv, ref-qualifiers, `noexcept` and the C ellipsis. No other qualifier is modelled.
- The commented-out forwarding in the three qualified call operators is not modelled. They return `R()`, as the code does.
