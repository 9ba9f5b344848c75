/** The type selection of `my::make_function`.

    `make_function(Fn&& functional)` names the wrapper type
    `detail::function<decayed, Copyable, is_const, is_volatile>`, where the
    three signature members come from `unwrap_trait` of the type of
    `&Fn::operator()` and `Copyable` is whether `std::decay_t<Fn>` is both
    copy-assignable and copy-constructible. The object it then builds is not
    part of this model.
 */
module Factory {
  import opened CTypes
  import opened UnwrapTraits
  import opened Wrapper

  /** What the class of the callable declares as `operator()`. */
  datatype CallOperatorDecl =
    | NoCallOperator
      /** Several overloads or a member template: `&Fn::operator()` names no single member. */
    | OverloadedCallOperator
      /** Exactly one non-template, non-static `operator()` of function type `memberType`. */
    | CallOperator(memberType: CType)

  /** A class type used as a callable, with the traits the factory asks about. */
  datatype CallableClass = CallableClass(
    id: nat,
    callOperator: CallOperatorDecl,
    copyAssignable: bool,
    copyConstructible: bool)

  /** The argument expression passed to `make_function`: an object of the
      class, its cv-qualifier and its value category. */
  datatype Argument = Argument(callable: CallableClass, cv: CV, isLvalue: bool)

  function ClassType(c: CallableClass): CType {
    Named(c.id, Unqualified)
  }

  /** Deduction of `Fn` for the forwarding reference `Fn&&`: `cv X&` for an
      lvalue, `cv X` for an rvalue. */
  function DeducedFn(a: Argument): (fn: CType)
    ensures fn.Reference? <==> a.isLvalue
    ensures Decay(fn) == ClassType(a.callable)
    ensures fn.Reference? ==> fn.referent.cv == a.cv && !fn.isRvalue
    ensures fn.Named? ==> fn.cv == a.cv
  {
    var x := Named(a.callable.id, a.cv);
    if a.isLvalue then Reference(x, false) else x
  }

  /** The type of `&Fn::operator()` where `Fn` is `c` or a qualified or
      reference form of it. A reference type cannot appear before `::`, and
      a missing or overloaded `operator()` cannot have its address taken
      without a target type. */
  function OperatorPointer(fn: CType, c: CallableClass): (r: Option<CType>)
    requires Decay(fn) == ClassType(c)
    ensures r.Some? <==> fn.Named? && c.callOperator.CallOperator?
    ensures r.Some? ==> r.value == MemberPointer(ClassType(c), c.callOperator.memberType, Unqualified)
  {
    if fn.Reference? then None
    else
      match c.callOperator
      case CallOperator(m) => Some(MemberPointer(ClassType(c), m, Unqualified))
      case _ => None
  }

  /** `is_copy_assignable<decay_t<Fn>> && is_copy_constructible<decay_t<Fn>>`. */
  function CopyPolicy(c: CallableClass): bool {
    c.copyAssignable && c.copyConstructible
  }

  /** The template arguments `make_function` passes to `detail::function`
      once the type of `&Fn::operator()` is known: those of `function_base`
      for that member pointer type, and none when it has no type. */
  function SelectInstantiation(op: Option<CType>, copyable: bool): (r: Option<Instantiation>)
    ensures op.Some? ==> r == FunctionBase(op.value, copyable)
    ensures op.None? ==> r.None?
  {
    match op
    case None => None
    case Some(p) =>
      match Unwrap(p)
      case None => None
      case Some(d) => Some(Instantiation(d.decayedType, copyable, d.isConst, d.isVolatile))
  }

  /** `make_function` as written: `&Fn::operator()` with `Fn` as deduced.
      Every lvalue argument is rejected, because `Fn` is then a reference
      type; on rvalues it agrees with the decayed form. */
  function MakeFunctionTypeAsWritten(a: Argument): (r: Option<Instantiation>)
    ensures a.isLvalue ==> r.None?
    ensures !a.isLvalue ==> r == MakeFunctionType(a)
  {
    SelectInstantiation(OperatorPointer(DeducedFn(a), a.callable), CopyPolicy(a.callable))
  }

  /** `make_function` with `&std::decay_t<Fn>::operator()`, which accepts
      lvalue arguments as well. */
  function MakeFunctionType(a: Argument): (r: Option<Instantiation>)
    ensures r.Some? <==> a.callable.callOperator.CallOperator? &&
                         a.callable.callOperator.memberType.FunctionType? &&
                         IsFunctionWith(a.callable.callOperator.memberType, a.callable.callOperator.memberType.cv)
    ensures r.Some? ==>
              var m := a.callable.callOperator.memberType;
              && Instantiable(r.value)
              && r.value.signature == Signature(m.returnType, m.parameters)
              && r.value.copyable == (a.callable.copyAssignable && a.callable.copyConstructible)
              && r.value.constant == m.cv.isConst
              && r.value.volatile == m.cv.isVolatile
  {
    var op := OperatorPointer(Decay(DeducedFn(a)), a.callable);
    SelectInstantiation(op, CopyPolicy(a.callable))
  }

  /** The wrapper `make_function` selects is `function_base` of the member
      pointer type of the call operator with the class's copy policy. */
  lemma MakeFunctionIsFunctionBase(a: Argument)
    requires a.callable.callOperator.CallOperator?
    ensures MakeFunctionType(a) ==
            FunctionBase(MemberPointer(ClassType(a.callable), a.callable.callOperator.memberType, Unqualified),
                         CopyPolicy(a.callable))
  {
  }

  /** A named capturing closure `auto f = [k](int a, int b) { ... };`
      passed as `make_function(f)`; its copy assignment is deleted. */
  lemma LvalueClosureExample()
    ensures var i32 := Named(0, Unqualified);
            var closure := CallableClass(1, CallOperator(FunctionType(i32, [i32, i32], false, CV(true, false), NoRef, false)), false, true);
            var a := Argument(closure, Unqualified, true);
            && MakeFunctionTypeAsWritten(a) == None
            && MakeFunctionType(a) == Some(Instantiation(Signature(i32, [i32, i32]), false, true, false))
  {
  }

  /** A callable whose `operator()` is `const` (every closure not declared
      `mutable`) gets a wrapper whose call never reaches its erasure. */
  lemma ConstCallOperatorNeverForwards(a: Argument, f: Function, args: seq<Value>)
    requires MakeFunctionType(a).Some? && a.callable.callOperator.memberType.cv.isConst
    requires f.inst == MakeFunctionType(a).value && Valid(f)
    requires ArgumentsFit(f.inst.signature.parameters, args)
    ensures Call(f, args) == ValueInitialised(a.callable.callOperator.memberType.returnType)
  {
  }
}
