/** The signature traits of `my::detail::unwrap_traits`.

    `unwrap_trait<Fn>` has no primary definition and twelve partial
    specialisations: a function type, a function pointer and a pointer to
    member function, each with the four cv-qualifier combinations. C++ picks
    the specialisation whose pattern matches `Fn`; when none matches the
    trait is incomplete and any use of it is a compile error. The model keeps
    the twelve patterns as a table, selects among them as the compiler does
    (`Unwrap`), and proves the selection against an independent recogniser
    of the twelve shapes (`Classify`).
 */
module UnwrapTraits {
  import opened CTypes

  /** What `unwrap_trait_base` and `class_trait_base` expose. */
  datatype Descriptor = Descriptor(
    decayedType: CType,
    returnType: CType,
    argumentTypes: seq<CType>,
    isMember: bool,
    isConst: bool,
    isVolatile: bool,
    classType: Option<CType>)

  /** `unwrap_trait_base<ReturnType(Args...), IsMember, IsConst, IsVolatile>`. */
  function TraitBase(ret: CType, args: seq<CType>, isMember: bool, isConst: bool, isVolatile: bool): (d: Descriptor)
    ensures IsSignature(d.decayedType)
    ensures d.decayedType.returnType == d.returnType == ret
    ensures d.decayedType.parameters == d.argumentTypes == args
    ensures d.isMember == isMember && d.isConst == isConst && d.isVolatile == isVolatile
    ensures d.classType.None?
  {
    Descriptor(Signature(ret, args), ret, args, isMember, isConst, isVolatile, None)
  }

  /** Adding `class_trait_base<ClassType>` as a second base. */
  function WithClass(d: Descriptor, cls: CType): (r: Descriptor)
    ensures r.classType == Some(cls)
    ensures r.(classType := d.classType) == d
  {
    d.(classType := Some(cls))
  }

  datatype Kind = FunctionKind | FunctionPointerKind | MemberPointerKind

  /** One partial specialisation of `unwrap_trait`: its kind and the
      qualifier its pattern carries. */
  datatype Specialisation = Specialisation(kind: Kind, cv: CV)

  /** The twelve specialisations, in declaration order. */
  const Specialisations: seq<Specialisation> := [
    Specialisation(FunctionKind, CV(false, false)),
    Specialisation(FunctionKind, CV(true, false)),
    Specialisation(FunctionKind, CV(false, true)),
    Specialisation(FunctionKind, CV(true, true)),
    Specialisation(FunctionPointerKind, CV(false, false)),
    Specialisation(FunctionPointerKind, CV(true, false)),
    Specialisation(FunctionPointerKind, CV(false, true)),
    Specialisation(FunctionPointerKind, CV(true, true)),
    Specialisation(MemberPointerKind, CV(false, false)),
    Specialisation(MemberPointerKind, CV(true, false)),
    Specialisation(MemberPointerKind, CV(false, true)),
    Specialisation(MemberPointerKind, CV(true, true))
  ]

  /** Matching `t` against the pattern of specialisation `s`:
      - `ReturnType(Args...) cv`;
      - `ReturnType(* cv)(Args...)`, where the qualifier is the pointer's;
      - `ReturnType(ClassType::*)(Args...) cv`, where the qualifier is the
        member function's and the member pointer itself is unqualified.
      On a match, the members the specialisation inherits. A pattern
      matches exactly the types of its own shape, so no two overlap. */
  function Match(s: Specialisation, t: CType): (r: Option<Descriptor>)
    ensures r.Some? <==> Classify(t) == Some(s)
    ensures r.Some? ==> && r.value.isMember == (s.kind == MemberPointerKind)
                        && r.value.isConst == s.cv.isConst
                        && r.value.isVolatile == s.cv.isVolatile
  {
    match s.kind
    case FunctionKind =>
      if IsFunctionWith(t, s.cv)
      then Some(TraitBase(t.returnType, t.parameters, false, s.cv.isConst, s.cv.isVolatile))
      else None
    case FunctionPointerKind =>
      if t.Pointer? && t.cv == s.cv && IsFunctionWith(t.pointee, Unqualified)
      then Some(TraitBase(t.pointee.returnType, t.pointee.parameters, false, s.cv.isConst, s.cv.isVolatile))
      else None
    case MemberPointerKind =>
      if t.MemberPointer? && t.cv == Unqualified && IsFunctionWith(t.member, s.cv)
      then Some(WithClass(TraitBase(t.member.returnType, t.member.parameters, true, s.cv.isConst, s.cv.isVolatile), t.classType))
      else None
  }

  /** The members of every specialisation in `specs` whose pattern matches `t`. */
  function Candidates(specs: seq<Specialisation>, t: CType): (r: seq<Descriptor>)
    ensures |r| <= |specs|
    ensures forall d :: d in r ==> exists s :: s in specs && Match(s, t) == Some(d)
    ensures forall s :: s in specs && Match(s, t).Some? ==> Match(s, t).value in r
  {
    if specs == [] then []
    else
      var rest := Candidates(specs[1..], t);
      match Match(specs[0], t)
      case Some(d) => [d] + rest
      case None => rest
  }

  /** `unwrap_trait<t>`: the members of the matching specialisation, or
      `None` when no specialisation matches (the trait is incomplete). The
      patterns are disjoint (`ExactlyOneSpecialisation`), so the partial
      ordering by which C++ would choose among several matches never comes
      into play; the `|c| == 1` test only makes that visible.
      The trait is defined exactly on the twelve supported shapes, and there
      it is the members of the specialisation of the type's shape. */
  function Unwrap(t: CType): (r: Option<Descriptor>)
    ensures r.Some? <==> Classify(t).Some?
    ensures r.Some? ==> r == Match(Classify(t).value, t)
  {
    ExactlyOneSpecialisation(t);
    var c := Candidates(Specialisations, t);
    if |c| == 1 then Some(c[0]) else None
  }

  /** Which of the twelve supported shapes `t` has, if any, read off `t`
      directly. */
  function Classify(t: CType): Option<Specialisation> {
    match t
    case FunctionType(_, _, _, cv, _, _) =>
      if IsFunctionWith(t, cv) then Some(Specialisation(FunctionKind, cv)) else None
    case Pointer(p, cv) =>
      if IsSignature(p) then Some(Specialisation(FunctionPointerKind, cv)) else None
    case MemberPointer(_, m, cv) =>
      if cv == Unqualified && m.FunctionType? && IsFunctionWith(m, m.cv)
      then Some(Specialisation(MemberPointerKind, m.cv))
      else None
    case _ => None
  }

  /** The type that specialisation `s` matches once its pattern variables
      are bound (`cls` is used by member pointers only). */
  function Shape(s: Specialisation, ret: CType, params: seq<CType>, cls: CType): CType {
    var f := FunctionType(ret, params, false, s.cv, NoRef, false);
    match s.kind
    case FunctionKind => f
    case FunctionPointerKind => Pointer(Signature(ret, params), s.cv)
    case MemberPointerKind => MemberPointer(cls, f, Unqualified)
  }

  /** The function type inside a supported shape. */
  function FunctionOf(t: CType): CType {
    match t
    case Pointer(p, _) => p
    case MemberPointer(_, m, _) => m
    case _ => t
  }

  /** The qualifier a supported shape carries: that of the function type,
      of the function pointer itself, or of the member function. */
  function QualifierOf(t: CType): CV {
    match t
    case FunctionType(_, _, _, cv, _, _) => cv
    case Pointer(_, cv) => cv
    case MemberPointer(_, m, _) => if m.FunctionType? then m.cv else Unqualified
    case _ => Unqualified
  }

  /** Over a table without repetitions, the candidates for `t` are the one
      specialisation of `t`'s shape if the table holds it, and nothing else. */
  lemma {:induction false} CandidatesInDistinctTable(specs: seq<Specialisation>, t: CType)
    requires forall i, j :: 0 <= i < j < |specs| ==> specs[i] != specs[j]
    ensures Classify(t).Some? && Classify(t).value in specs ==>
              Candidates(specs, t) == [Match(Classify(t).value, t).value]
    ensures !(Classify(t).Some? && Classify(t).value in specs) ==> Candidates(specs, t) == []
  {
    if specs != [] {
      var tail := specs[1..];
      assert forall i, j :: 0 <= i < j < |tail| ==> tail[i] != tail[j] by {
        forall i, j | 0 <= i < j < |tail| ensures tail[i] != tail[j] {
          assert tail[i] == specs[i + 1] && tail[j] == specs[j + 1];
        }
      }
      CandidatesInDistinctTable(tail, t);
      if Classify(t) == Some(specs[0]) {
        assert specs[0] !in tail by {
          forall k | 0 <= k < |tail| ensures tail[k] != specs[0] {
            assert tail[k] == specs[k + 1];
          }
        }
      } else {
        assert Classify(t).Some? && Classify(t).value in specs <==>
               Classify(t).Some? && Classify(t).value in tail;
      }
    }
  }

  /** The table lists each of the 3 x 4 shapes exactly once. */
  lemma SpecialisationsComplete(s: Specialisation)
    ensures s in Specialisations
    ensures forall i, j :: 0 <= i < j < |Specialisations| ==> Specialisations[i] != Specialisations[j]
  {
    assert Specialisations[0] == Specialisation(FunctionKind, CV(false, false));
    match s.kind
    case FunctionKind =>
      assert s == Specialisations[2 * (if s.cv.isVolatile then 1 else 0) + (if s.cv.isConst then 1 else 0)];
    case FunctionPointerKind =>
      assert s == Specialisations[4 + 2 * (if s.cv.isVolatile then 1 else 0) + (if s.cv.isConst then 1 else 0)];
    case MemberPointerKind =>
      assert s == Specialisations[8 + 2 * (if s.cv.isVolatile then 1 else 0) + (if s.cv.isConst then 1 else 0)];
  }

  /** Every type is matched by exactly one specialisation when it has one
      of the twelve supported shapes, and by none otherwise. */
  lemma ExactlyOneSpecialisation(t: CType)
    ensures |Candidates(Specialisations, t)| == (if Classify(t).Some? then 1 else 0)
    ensures Classify(t).Some? ==> Candidates(Specialisations, t) == [Match(Classify(t).value, t).value]
  {
    if Classify(t).Some? {
      SpecialisationsComplete(Classify(t).value);
    } else {
      SpecialisationsComplete(Specialisation(FunctionKind, Unqualified));
    }
    CandidatesInDistinctTable(Specialisations, t);
  }

  /** Each of the twelve shapes decomposes into the expected descriptor,
      whatever its return type, class and (possibly empty) parameter list. */
  lemma ShapeDecomposes(s: Specialisation, ret: CType, params: seq<CType>, cls: CType)
    ensures Classify(Shape(s, ret, params, cls)) == Some(s)
    ensures Unwrap(Shape(s, ret, params, cls)).Some?
    ensures var d := Unwrap(Shape(s, ret, params, cls)).value;
            && d.decayedType == Signature(ret, params)
            && d.returnType == ret
            && d.argumentTypes == params
            && d.isMember == (s.kind == MemberPointerKind)
            && d.isConst == s.cv.isConst
            && d.isVolatile == s.cv.isVolatile
            && d.classType == (if s.kind == MemberPointerKind then Some(cls) else None)
  {
  }

  /** A descriptor together with the shape it was read from gives back the
      type it came from. */
  lemma DescriptorDeterminesType(t: CType)
    requires Unwrap(t).Some?
    ensures Classify(t).Some?
    ensures var d := Unwrap(t).value;
            t == Shape(Classify(t).value, d.returnType, d.argumentTypes,
                       if d.classType.Some? then d.classType.value else d.returnType)
  {
  }

  /** `is_const` and `is_volatile` are the qualifier written on the shape:
      for a function pointer the pointer's own, `*const` / `*volatile`. */
  lemma UnwrapPreservesQualifiers(t: CType)
    requires Unwrap(t).Some?
    ensures CV(Unwrap(t).value.isConst, Unwrap(t).value.isVolatile) == QualifierOf(t)
  {
  }

  /** `is_member` holds exactly for the member pointer shapes, and only
      they carry a `class_type`: the class the pointer is a member of. */
  lemma UnwrapMemberInfo(t: CType)
    requires Unwrap(t).Some?
    ensures Unwrap(t).value.isMember <==> t.MemberPointer?
    ensures Unwrap(t).value.classType.Some? <==> Unwrap(t).value.isMember
    ensures t.MemberPointer? ==> Unwrap(t).value.classType == Some(t.classType)
  {
  }

  /** `decayed_type` is the unqualified `R(Args...)` of the function inside
      the shape: same return type, same parameters in the same order. */
  lemma UnwrapDecayedType(t: CType)
    requires Unwrap(t).Some?
    ensures FunctionOf(t).FunctionType?
    ensures var d := Unwrap(t).value;
            && d.returnType == FunctionOf(t).returnType
            && d.argumentTypes == FunctionOf(t).parameters
            && d.decayedType == Signature(d.returnType, d.argumentTypes)
            && IsSignature(d.decayedType)
  {
  }

  /** Types outside the twelve shapes have no descriptor; among them the
      ref-qualified and the `noexcept` member functions (`noexcept` being
      part of the function type since C++17), member pointers that are
      themselves cv-qualified, and C-variadic functions. */
  lemma UnsupportedShapes(c: CType, ret: CType, params: seq<CType>, cv: CV)
    ensures Unwrap(MemberPointer(c, FunctionType(ret, params, false, cv, LvalueRef, false), Unqualified)).None?
    ensures Unwrap(MemberPointer(c, FunctionType(ret, params, false, cv, RvalueRef, false), Unqualified)).None?
    ensures Unwrap(MemberPointer(c, FunctionType(ret, params, false, cv, NoRef, true), Unqualified)).None?
    ensures cv != Unqualified ==> Unwrap(MemberPointer(c, Signature(ret, params), cv)).None?
    ensures Unwrap(FunctionType(ret, params, true, cv, NoRef, false)).None?
  {
  }
}
