/** C++ types as abstract terms.

    Only the structure that the signature traits of function.hpp pattern-match
    on is represented: function types (with their cv-, ref- and noexcept
    qualifiers and a C-style ellipsis), pointers, pointers to members and
    references. Every other type (fundamental types, classes, enumerations)
    is an uninterpreted name with its own cv-qualifier.
 */
module CTypes {

  datatype Option<+T> = None | Some(value: T)

  /** A cv-qualifier: `const`, `volatile`, both or neither. */
  datatype CV = CV(isConst: bool, isVolatile: bool)

  const Unqualified := CV(false, false)

  /** `a` is no more qualified than `b`. */
  predicate AtMostAsQualified(a: CV, b: CV) {
    (a.isConst ==> b.isConst) && (a.isVolatile ==> b.isVolatile)
  }

  /** The ref-qualifier of a function type: none, `&` or `&&`. */
  datatype RefQualifier = NoRef | LvalueRef | RvalueRef

  datatype CType =
    | Named(id: nat, cv: CV)
      /** `R(P...)` followed by its qualifiers; `variadic` is a trailing C `...`. */
    | FunctionType(returnType: CType, parameters: seq<CType>, variadic: bool,
                   cv: CV, ref: RefQualifier, isNoexcept: bool)
      /** `T * cv`: the qualifier is the pointer's own. */
    | Pointer(pointee: CType, cv: CV)
      /** `T C::* cv`: the qualifier is the member pointer's own. */
    | MemberPointer(classType: CType, member: CType, cv: CV)
    | Reference(referent: CType, isRvalue: bool)

  /** `t` is a function type `R(P...) cv` with no ellipsis, no ref-qualifier
      and no `noexcept`: the form the pattern `ReturnType(Args...) cv` binds. */
  predicate IsFunctionWith(t: CType, cv: CV) {
    t.FunctionType? && !t.variadic && t.cv == cv && t.ref == NoRef && !t.isNoexcept
  }

  /** The unqualified function type `R(P...)`. */
  function Signature(ret: CType, params: seq<CType>): CType {
    FunctionType(ret, params, false, Unqualified, NoRef, false)
  }

  predicate IsSignature(t: CType) {
    IsFunctionWith(t, Unqualified)
  }

  /** `T()` is a well-formed expression: not for a reference type, whose
      value-initialisation is ill-formed, nor for a function type. Classes
      without a default constructor are not told apart from other names. */
  predicate ValueInitialisable(t: CType) {
    !t.Reference? && !t.FunctionType?
  }

  /** `std::decay_t` restricted to what the factory needs: drop a reference
      and the top-level cv-qualifier of a named type. */
  function Decay(t: CType): CType {
    match t
    case Reference(u, _) => if u.Named? then Named(u.id, Unqualified) else u
    case Named(id, _) => Named(id, Unqualified)
    case _ => t
  }
}
