/** The type-erased wrapper `my::detail::function` and its aliases.

    An instantiation `function<R(Args...), Copyable, Constant, Volatile>`
    owns one erasure behind the interface `wrapper_impl<R(Args...)>`, whose
    only operation is a call producing an `R`. The only implementation of
    that interface is `fake_wrapper_impl`, which returns `R()`. The call
    operator comes from the `call_operator` specialisation chosen by
    `(Constant, Volatile)`: the unqualified one forwards to the erasure, the
    three qualified ones return `R()` without touching it.
 */
module Wrapper {
  import opened CTypes
  import opened UnwrapTraits

  /** A run-time value of a C++ type: either the value-initialised `R()`,
      or some other value of that type. */
  datatype Value = ValueInitialised(ty: CType) | Computed(ty: CType, id: nat)

  /** `ReturnType()`, which is only well-formed for a type that can be
      value-initialised. */
  function Default(ret: CType): (v: Value)
    requires ValueInitialisable(ret)
    ensures v.ValueInitialised? && v.ty == ret
  {
    ValueInitialised(ret)
  }

  /** The arguments are one value of each parameter type, in order. */
  predicate ArgumentsFit(params: seq<CType>, args: seq<Value>) {
    |args| == |params| && forall i :: 0 <= i < |args| ==> args[i].ty == params[i]
  }

  /** An object behind `wrapper_impl<R(Args...)>`: the signature it was
      instantiated with and what its virtual call operator does. */
  datatype Erasure = Erasure(signature: CType, invoke: seq<Value> -> Value)

  /** `fake_wrapper_impl<R(Args...)>`: its call ignores its arguments and
      has no state to read. */
  function FakeErasure(signature: CType): (e: Erasure)
    requires IsSignature(signature) && ValueInitialisable(signature.returnType)
    ensures e.signature == signature
    ensures forall args :: e.invoke(args) == ValueInitialised(signature.returnType)
  {
    Erasure(signature, (args: seq<Value>) => Default(signature.returnType))
  }

  /** The template arguments of `function<Fn, Copyable, Constant, Volatile>`. */
  datatype Instantiation = Instantiation(signature: CType, copyable: bool, constant: bool, volatile: bool)

  /** The class template is only defined for `Fn = R(Args...)`. */
  predicate Instantiable(inst: Instantiation) {
    IsSignature(inst.signature)
  }

  /** The qualifier of the one call operator the instantiation inherits. */
  function CallQualifier(inst: Instantiation): CV {
    CV(inst.constant, inst.volatile)
  }

  /** A `function` object: its type and the erasure `_impl` points to. */
  datatype Function = Function(inst: Instantiation, impl: Erasure)

  /** A wrapper as its constructors leave it: `_impl` points to an erasure
      of the wrapper's own signature, whose call yields a value of the return
      type for every fitting argument list, and `R()` is well-formed (the
      qualified call operators and the fake erasure both evaluate it). A
      moved-from wrapper, whose `_impl` is null, is not `Valid`. */
  ghost predicate Valid(f: Function) {
    && Instantiable(f.inst)
    && ValueInitialisable(f.inst.signature.returnType)
    && f.impl.signature == f.inst.signature
    && forall args :: ArgumentsFit(f.inst.signature.parameters, args) ==>
         f.impl.invoke(args).ty == f.inst.signature.returnType
  }

  /** The default constructor installs the fake erasure. */
  function DefaultConstruct(inst: Instantiation): (f: Function)
    requires Instantiable(inst) && ValueInitialisable(inst.signature.returnType)
    ensures Valid(f) && f.inst == inst
    ensures forall args :: f.impl.invoke(args) == ValueInitialised(inst.signature.returnType)
  {
    Function(inst, FakeErasure(inst.signature))
  }

  /** The converting constructor `function(T&&)` discards its argument and
      installs the fake erasure as well. */
  function ConstructFrom<T>(inst: Instantiation, callable: T): (f: Function)
    requires Instantiable(inst) && ValueInitialisable(inst.signature.returnType)
    ensures Valid(f) && f.inst == inst
    ensures forall args :: f.impl.invoke(args) == DefaultConstruct(inst).impl.invoke(args)
  {
    Function(inst, FakeErasure(inst.signature))
  }

  /** `operator()(Args...)` of the `call_operator` specialisation for
      `(Constant, Volatile)`. */
  function Call(f: Function, args: seq<Value>): (r: Value)
    requires Valid(f) && ArgumentsFit(f.inst.signature.parameters, args)
    ensures r.ty == f.inst.signature.returnType
  {
    var ret := f.inst.signature.returnType;
    match (f.inst.constant, f.inst.volatile)
    case (false, false) => f.impl.invoke(args)
    case (true, false) => Default(ret)
    case (false, true) => Default(ret)
    case (true, true) => Default(ret)
  }

  /** Calling through an access path qualified with `access` (a `const&`,
      a `volatile&`, ...): well-formed only when the call operator is at
      least as qualified as the path. Each specialisation declares one call
      operator, so the unqualified one is reachable through an unqualified
      path only, the `const` one through a plain or `const` path, the
      `volatile` one through a plain or `volatile` path, and the
      `const volatile` one through all four. */
  function CallThrough(f: Function, access: CV, args: seq<Value>): (r: Option<Value>)
    requires Valid(f) && ArgumentsFit(f.inst.signature.parameters, args)
    ensures CallQualifier(f.inst) == Unqualified ==> (r.Some? <==> access == Unqualified)
    ensures CallQualifier(f.inst) == CV(true, false) ==> (r.Some? <==> !access.isVolatile)
    ensures CallQualifier(f.inst) == CV(false, true) ==> (r.Some? <==> !access.isConst)
    ensures CallQualifier(f.inst) == CV(true, true) ==> r.Some?
    ensures r.Some? ==> r.value == Call(f, args) && r.value.ty == f.inst.signature.returnType
  {
    if AtMostAsQualified(access, CallQualifier(f.inst)) then Some(Call(f, args)) else None
  }

  /** The unqualified call operator returns what the erasure returns. */
  lemma UnqualifiedCallForwards(f: Function, args: seq<Value>)
    requires Valid(f) && ArgumentsFit(f.inst.signature.parameters, args)
    requires CallQualifier(f.inst) == Unqualified
    ensures Call(f, args) == f.impl.invoke(args)
  {
  }

  /** The qualified call operators return `R()` whatever the erasure does:
      any other erasure of the same signature gives the same result. */
  lemma QualifiedCallIgnoresErasure(f: Function, args: seq<Value>, other: Erasure)
    requires Valid(f) && ArgumentsFit(f.inst.signature.parameters, args)
    requires CallQualifier(f.inst) != Unqualified
    requires Valid(f.(impl := other))
    ensures Call(f, args) == ValueInitialised(f.inst.signature.returnType)
    ensures Call(f, args) == Call(f.(impl := other), args)
  {
  }

  /** A wrapper built by either constructor answers every call, through
      every call operator, with `R()`. */
  lemma ConstructedCallIsDefault<T>(inst: Instantiation, callable: T, args: seq<Value>)
    requires Instantiable(inst) && ValueInitialisable(inst.signature.returnType)
    requires ArgumentsFit(inst.signature.parameters, args)
    ensures Call(DefaultConstruct(inst), args) == ValueInitialised(inst.signature.returnType)
    ensures Call(ConstructFrom(inst, callable), args) == ValueInitialised(inst.signature.returnType)
  {
  }

  /** `detail::function_base<Signature, Copyable>`: the wrapper for
      `Signature`'s decayed type, with the call operator qualified as
      `Signature` is. */
  function FunctionBase(signature: CType, copyable: bool): (r: Option<Instantiation>)
    ensures r.Some? <==> Classify(signature).Some?
    ensures r.Some? ==>
              && Instantiable(r.value)
              && r.value.copyable == copyable
              && CallQualifier(r.value) == QualifierOf(signature)
              && r.value.signature == Signature(FunctionOf(signature).returnType, FunctionOf(signature).parameters)
  {
    match Unwrap(signature)
    case None => None
    case Some(d) =>
      UnwrapPreservesQualifiers(signature);
      UnwrapDecayedType(signature);
      Some(Instantiation(d.decayedType, copyable, d.isConst, d.isVolatile))
  }

  /** The public alias `my::function<Signature>`: copyable. */
  function CopyableFunction(signature: CType): (r: Option<Instantiation>)
    ensures r.Some? <==> Classify(signature).Some?
    ensures r.Some? ==> r.value.copyable && CallQualifier(r.value) == QualifierOf(signature)
  {
    FunctionBase(signature, true)
  }

  /** The public alias `my::non_copyable_function<Signature>`: move-only. */
  function NonCopyableFunction(signature: CType): (r: Option<Instantiation>)
    ensures r.Some? <==> Classify(signature).Some?
    ensures r.Some? ==> !r.value.copyable && CallQualifier(r.value) == QualifierOf(signature)
  {
    FunctionBase(signature, false)
  }

  /** The two aliases differ in the copy policy only. */
  lemma AliasesDifferInCopyPolicy(signature: CType)
    ensures CopyableFunction(signature).Some? <==> NonCopyableFunction(signature).Some?
    ensures CopyableFunction(signature).Some? ==>
              CopyableFunction(signature).value.(copyable := false) == NonCopyableFunction(signature).value
  {
  }

  /** A wrapper named by a qualified signature can be called through an
      access path of that signature's qualifier and through an unqualified
      one, but not through a path with a qualifier the signature lacks. */
  lemma CallableAsQualified(signature: CType, copyable: bool, access: CV, args: seq<Value>)
    requires FunctionBase(signature, copyable).Some?
    requires ValueInitialisable(FunctionBase(signature, copyable).value.signature.returnType)
    requires ArgumentsFit(FunctionBase(signature, copyable).value.signature.parameters, args)
    ensures var f := DefaultConstruct(FunctionBase(signature, copyable).value);
            CallThrough(f, access, args).Some? <==> AtMostAsQualified(access, QualifierOf(signature))
  {
  }
}
