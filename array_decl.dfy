/**
 * Model of type-names/array-decl/array_decl.py: type trees built from one basic type by
 * const, pointer, reference and array operations, their declarations (the declarator syntax
 * of clause 8 of ISO/IEC 14882:2011, with `const` written after what it qualifies), the
 * normalisation that moves `const` from an array onto its element, their English
 * descriptions, and the generator that enumerates the trees under its pruning rules.
 */
module ArrayDecl {
  import opened Wrappers
  import Decimal
  import TypeDecl

  /** `BasicType(token)` and the `Operation` subclasses, each over its operand. */
  datatype PyType =
    | BasicType(token: string)
    | Const(operand: PyType)
    | Pointer(operand: PyType)
    | LValueReference(operand: PyType)
    | RValueReference(operand: PyType)
    | UnsizedArray(operand: PyType)
    | SizedArray(operand: PyType)

  /** `isinstance(t, Array)`. */
  predicate IsArray(t: PyType) {
    t.UnsizedArray? || t.SizedArray?
  }

  /** `isinstance(t, Reference)`. */
  predicate IsReference(t: PyType) {
    t.LValueReference? || t.RValueReference?
  }

  function Size(t: PyType): nat {
    if t.BasicType? then 1 else 1 + Size(t.operand)
  }

  /** The `level` attribute: 1 for a basic type, one more than the operand's otherwise. */
  function Level(t: PyType): (l: nat)
    ensures l >= 1
  {
    if t.BasicType? then 1 else Level(t.operand) + 1
  }

  /** The basic type at the bottom of the tree. */
  function BaseToken(t: PyType): string {
    if t.BasicType? then t.token else BaseToken(t.operand)
  }

  /** `without_const()`: a `Const` gives its operand, every other type itself. */
  function WithoutConst(t: PyType): (r: PyType)
    ensures Size(r) <= Size(t)
  {
    if t.Const? then t.operand else t
  }

  // ---------------------------------------------------------------------------
  // Array operations and the size of a SizedArray
  // ---------------------------------------------------------------------------

  /**
   * The `array_operations` property: `[]` for a basic type, the operand's list with the
   * array itself appended for an array, the operand's list for any other operation.
   */
  function ArrayOperations(t: PyType): seq<PyType> {
    if t.BasicType? then []
    else if IsArray(t) then ArrayOperations(t.operand) + [t]
    else ArrayOperations(t.operand)
  }

  /** `u` is `t` or lies somewhere beneath it. */
  predicate Subterm(u: PyType, t: PyType) {
    u == t || (!t.BasicType? && Subterm(u, t.operand))
  }

  lemma {:induction false} SubtermSize(u: PyType, t: PyType)
    requires Subterm(u, t)
    ensures Size(u) <= Size(t)
    ensures Size(u) == Size(t) ==> u == t
  {
    if u != t {
      SubtermSize(u, t.operand);
    }
  }

  /**
   * `array_operations` lists exactly the arrays in the tree, each one beneath the next:
   * innermost first, outermost last.
   */
  lemma {:induction false} ArrayOperationsSpec(t: PyType)
    ensures forall i :: 0 <= i < |ArrayOperations(t)| ==>
              IsArray(ArrayOperations(t)[i]) && Subterm(ArrayOperations(t)[i], t)
    ensures forall i :: 0 <= i < |ArrayOperations(t)| - 1 ==>
              Size(ArrayOperations(t)[i]) < Size(ArrayOperations(t)[i + 1])
    ensures forall u :: Subterm(u, t) && IsArray(u) ==> u in ArrayOperations(t)
  {
    if !t.BasicType? {
      ArrayOperationsSpec(t.operand);
      var ops, below := ArrayOperations(t), ArrayOperations(t.operand);
      if IsArray(t) {
        assert ops == below + [t];
        forall i | 0 <= i < |below| ensures Size(below[i]) < Size(t) {
          SubtermSize(below[i], t.operand);
        }
      }
      forall u | Subterm(u, t) && IsArray(u) ensures u in ops {
        if u != t {
          assert u in below;
        }
      }
    }
  }

  /** The nearest array at or beneath a type, and its size as far as it has one. */
  datatype NearestArray = NoArray | UnsizedNearest | SizedNearest(size: int)

  /**
   * The arrays `SizedArray.__init__` can size: the constructor reads the `size` of the last
   * entry of its operand's `array_operations`, which an `UnsizedArray` does not have.
   */
  predicate Constructible(t: PyType)
    decreases t, 0
  {
    match t
    case BasicType(_) => true
    case SizedArray(x) => Constructible(x) && !Nearest(x).UnsizedNearest?
    case _ => Constructible(t.operand)
  }

  /**
   * The last entry of `array_operations`: none, an `UnsizedArray`, or a `SizedArray` with its
   * `size` (5 with no array beneath it, one less than the nearest array beneath otherwise).
   */
  function Nearest(t: PyType): NearestArray
    requires Constructible(t)
    decreases t, 1
  {
    match t
    case BasicType(_) => NoArray
    case UnsizedArray(_) => UnsizedNearest
    case SizedArray(x) =>
      (match Nearest(x)
       case NoArray => SizedNearest(5)
       case SizedNearest(k) => SizedNearest(k - 1)
       case UnsizedNearest => NoArray)
    case _ => Nearest(t.operand)
  }

  /** The `size` attribute of a `SizedArray`. */
  function ArraySize(t: PyType): int
    requires t.SizedArray? && Constructible(t)
  {
    Nearest(t).size
  }

  /**
   * `Nearest` describes the last entry of `array_operations`, and a `SizedArray` with `k`
   * arrays at or beneath it has size `6 - k`: every array beneath a `SizedArray` is sized.
   */
  lemma {:induction false} NearestSpec(t: PyType)
    requires Constructible(t)
    ensures Nearest(t).NoArray? <==> ArrayOperations(t) == []
    ensures Nearest(t).UnsizedNearest? <==>
              ArrayOperations(t) != [] && ArrayOperations(t)[|ArrayOperations(t)| - 1].UnsizedArray?
    ensures Nearest(t).SizedNearest? ==> Nearest(t).size == 6 - |ArrayOperations(t)|
  {
    if !t.BasicType? {
      NearestSpec(t.operand);
    }
  }

  /** The size rule: 5 with no array beneath, one less than the nearest array beneath otherwise. */
  lemma SizedArraySize(x: PyType)
    requires Constructible(SizedArray(x))
    ensures ArrayOperations(x) == [] ==> ArraySize(SizedArray(x)) == 5
    ensures ArrayOperations(x) != [] ==>
              var last := ArrayOperations(x)[|ArrayOperations(x)| - 1];
              last.SizedArray? && Constructible(last) &&
              ArraySize(SizedArray(x)) == ArraySize(last) - 1
    ensures ArraySize(SizedArray(x)) == 5 - |ArrayOperations(x)|
  {
    NearestSpec(x);
    NearestSpec(SizedArray(x));
    if ArrayOperations(x) != [] {
      LastArrayOperation(x);
    }
  }

  /** The last entry of `array_operations` is itself constructible, with the same nearest array. */
  lemma {:induction false} LastArrayOperation(t: PyType)
    requires Constructible(t) && ArrayOperations(t) != []
    ensures var last := ArrayOperations(t)[|ArrayOperations(t)| - 1];
            Constructible(last) && Nearest(last) == Nearest(t)
  {
    if !IsArray(t) {
      LastArrayOperation(t.operand);
    }
  }

  // ---------------------------------------------------------------------------
  // Declarations
  // ---------------------------------------------------------------------------

  /** No reference anywhere in the tree. */
  predicate NoReferences(t: PyType) {
    !IsReference(t) && (t.BasicType? || NoReferences(t.operand))
  }

  /**
   * `Reference.declaration()` takes no suffix, so a reference can only be the outermost
   * operation of a type that is declared.
   */
  predicate ReferencesAtRoot(t: PyType) {
    if IsReference(t) then NoReferences(t.operand) else NoReferences(t)
  }

  /**
   * `definition_token`: `" const"`, `"*"`, `"&"`, `"&&"`, `"[]"`, and `'[%d]' % size` for a
   * `SizedArray`.
   */
  function DefinitionToken(t: PyType): string
    requires !t.BasicType? && Constructible(t)
  {
    match t
    case Const(_) => " const"
    case Pointer(_) => "*"
    case LValueReference(_) => "&"
    case RValueReference(_) => "&&"
    case UnsizedArray(_) => "[]"
    case SizedArray(_) => "[" + Decimal.IntString(ArraySize(t)) + "]"
  }

  /** `ParenthesizedOperationForArray`: parentheses around the argument over an array. */
  function Parenthesized(operand: PyType, argument: string): string {
    if IsArray(operand) then "(" + argument + ")" else argument
  }

  /**
   * `declaration(suffix)` of a reference-free type: a basic type is `token + suffix`, `Const`
   * passes `" const" + suffix` inward, `Pointer` passes `"*" + suffix` (parenthesised over an
   * array), arrays pass `suffix + "[]"` or `suffix + "[N]"`.
   */
  function DeclarationWith(t: PyType, suffix: string): string
    requires Constructible(t) && NoReferences(t)
    decreases t
  {
    match t
    case BasicType(token) => token + suffix
    case Const(x) => DeclarationWith(x, DefinitionToken(t) + suffix)
    case Pointer(x) => DeclarationWith(x, Parenthesized(x, DefinitionToken(t) + suffix))
    case UnsizedArray(x) => DeclarationWith(x, suffix + DefinitionToken(t))
    case SizedArray(x) => DeclarationWith(x, suffix + DefinitionToken(t))
  }

  /** `declaration()`: a reference starts from `"&"` or `"&&"`, other types from `""`. */
  function Declaration(t: PyType): string
    requires Constructible(t) && ReferencesAtRoot(t)
  {
    if IsReference(t) then DeclarationWith(t.operand, Parenthesized(t.operand, DefinitionToken(t)))
    else DeclarationWith(t, "")
  }

  /** A declaration starts with the basic type's token: the declarator follows it. */
  lemma {:induction false} DeclarationWithStartsWithToken(t: PyType, suffix: string)
    requires Constructible(t) && NoReferences(t)
    ensures |BaseToken(t)| <= |DeclarationWith(t, suffix)|
    ensures DeclarationWith(t, suffix)[..|BaseToken(t)|] == BaseToken(t)
  {
    match t
    case BasicType(_) =>
    case Const(x) => DeclarationWithStartsWithToken(x, DefinitionToken(t) + suffix);
    case Pointer(x) => DeclarationWithStartsWithToken(x, Parenthesized(x, DefinitionToken(t) + suffix));
    case UnsizedArray(x) => DeclarationWithStartsWithToken(x, suffix + DefinitionToken(t));
    case SizedArray(x) => DeclarationWithStartsWithToken(x, suffix + DefinitionToken(t));
  }

  lemma DeclarationStartsWithToken(t: PyType)
    requires Constructible(t) && ReferencesAtRoot(t)
    ensures |BaseToken(t)| <= |Declaration(t)| && Declaration(t)[..|BaseToken(t)|] == BaseToken(t)
  {
    if IsReference(t) {
      DeclarationWithStartsWithToken(t.operand, Parenthesized(t.operand, DefinitionToken(t)));
    } else {
      DeclarationWithStartsWithToken(t, "");
    }
  }

  // ---------------------------------------------------------------------------
  // Agreement with typedecl.hpp on const-free types
  // ---------------------------------------------------------------------------

  /** No `Const` anywhere in the tree. */
  predicate ConstFree(t: PyType) {
    !t.Const? && (t.BasicType? || ConstFree(t.operand))
  }

  /** Every `SizedArray` in the tree has a size `std::to_string` can spell (not negative). */
  predicate SizesNatural(t: PyType)
    requires Constructible(t)
  {
    match t
    case BasicType(_) => true
    case SizedArray(x) => ArraySize(t) >= 0 && SizesNatural(x)
    case _ => SizesNatural(t.operand)
  }

  /** The same type as a tree of typedecl.hpp, without references. */
  function ToCType(t: PyType): TypeDecl.CType
    requires Constructible(t) && SizesNatural(t)
  {
    match t
    case BasicType(token) => TypeDecl.Basic(token)
    case Const(x) => TypeDecl.Cv(TypeDecl.ConstQual, ToCType(x))
    case Pointer(x) => TypeDecl.Pointer(ToCType(x))
    case LValueReference(x) => TypeDecl.LRef(ToCType(x))
    case RValueReference(x) => TypeDecl.RRef(ToCType(x))
    case UnsizedArray(x) => TypeDecl.UnsizedArray(ToCType(x))
    case SizedArray(x) => TypeDecl.SizedArray(ToCType(x), ArraySize(t))
  }

  /**
   * On reference-free, const-free types the two renderers agree: both thread the suffix
   * inward and parenthesise pointers over arrays.
   */
  lemma {:induction false} DeclarationWithAgrees(t: PyType, suffix: string)
    requires Constructible(t) && SizesNatural(t) && NoReferences(t) && ConstFree(t)
    ensures TypeDecl.Renderable(ToCType(t))
    ensures DeclarationWith(t, suffix) == TypeDecl.Value(ToCType(t), suffix)
  {
    match t
    case BasicType(_) =>
    case Pointer(x) =>
      DeclarationWithAgrees(x, Parenthesized(x, "*" + suffix));
      assert TypeDecl.IsArray(ToCType(x)) == IsArray(x);
    case UnsizedArray(x) =>
      DeclarationWithAgrees(x, suffix + "[]");
    case SizedArray(x) =>
      DeclarationWithAgrees(x, suffix + DefinitionToken(t));
      assert DefinitionToken(t) == TypeDecl.Bound(ArraySize(t));
  }

  /** `declaration()` and `typedecl<T>()` spell a const-free type alike. */
  lemma DeclarationAgreesWithTypedecl(t: PyType)
    requires Constructible(t) && SizesNatural(t) && ReferencesAtRoot(t) && ConstFree(t)
    ensures TypeDecl.TypedeclDefined(ToCType(t))
    ensures Declaration(t) == TypeDecl.Typedecl(ToCType(t))
  {
    if IsReference(t) {
      DeclarationWithAgrees(t.operand, Parenthesized(t.operand, DefinitionToken(t)));
      assert TypeDecl.IsArray(ToCType(t.operand)) == IsArray(t.operand);
    } else {
      DeclarationWithAgrees(t, "");
    }
  }

  /**
   * With `const` they differ: `declaration()` writes it after the type (`int const`),
   * `typedecl<T>()` before it (`const int`).
   */
  lemma ConstPlacementDiffers()
    ensures Declaration(Const(BasicType("int"))) == "int const"
    ensures TypeDecl.Typedecl(TypeDecl.Cv(TypeDecl.ConstQual, TypeDecl.Basic("int"))) == "const int"
  {
  }

  // ---------------------------------------------------------------------------
  // Normalisation
  // ---------------------------------------------------------------------------

  /** `array.__class__(operand)`: an array of the same kind over another operand. */
  function SameArrayOver(arrayType: PyType, operand: PyType): PyType
    requires IsArray(arrayType)
  {
    if arrayType.UnsizedArray? then UnsizedArray(operand) else SizedArray(operand)
  }

  /**
   * `normalized()`: a `Const` over an array becomes the array of `Const` element (dropping
   * a `Const` the element already had), normalised again; any other operation normalises
   * its operand; a basic type is unchanged.
   */
  function Normalized(t: PyType): PyType
    decreases Size(t)
  {
    match t
    case BasicType(_) => t
    case Const(x) =>
      if IsArray(x) then
        assert Size(x) == 1 + Size(x.operand);
        SameArrayOver(x, Normalized(Const(WithoutConst(x.operand))))
      else Const(Normalized(x))
    case Pointer(x) => Pointer(Normalized(x))
    case LValueReference(x) => LValueReference(Normalized(x))
    case RValueReference(x) => RValueReference(Normalized(x))
    case UnsizedArray(x) => UnsizedArray(Normalized(x))
    case SizedArray(x) => SizedArray(Normalized(x))
  }

  /** No `Const` applied directly to a `Const`. */
  predicate NoConstOverConst(t: PyType) {
    (t.Const? ==> !t.operand.Const?) && (t.BasicType? || NoConstOverConst(t.operand))
  }

  /** No `Const` applied directly to an array. */
  predicate NoConstOverArray(t: PyType) {
    (t.Const? ==> !IsArray(t.operand)) && (t.BasicType? || NoConstOverArray(t.operand))
  }

  /** The kinds of the arrays, innermost first: `true` for a `SizedArray`. */
  function ArrayKinds(t: PyType): seq<bool> {
    if t.BasicType? then []
    else if IsArray(t) then ArrayKinds(t.operand) + [t.SizedArray?]
    else ArrayKinds(t.operand)
  }

  /**
   * Normalisation leaves no `Const` over an array, keeps `Const` over `Const` out, and keeps
   * the arrays, their kinds and order, the references and the basic type.
   */
  lemma {:induction false} NormalizedSpec(t: PyType)
    requires NoConstOverConst(t)
    ensures NoConstOverArray(Normalized(t)) && NoConstOverConst(Normalized(t))
    ensures ArrayKinds(Normalized(t)) == ArrayKinds(t)
    ensures IsReference(Normalized(t)) == IsReference(t) && IsArray(Normalized(t)) == IsArray(WithoutConst(t))
    ensures NoReferences(Normalized(t)) == NoReferences(t)
    ensures BaseToken(Normalized(t)) == BaseToken(t)
    decreases Size(t)
  {
    match t
    case BasicType(_) =>
    case Const(x) =>
      if IsArray(x) {
        var inner := Const(WithoutConst(x.operand));
        assert Size(inner) < Size(t) by {
          assert Size(x) == 1 + Size(x.operand);
        }
        NormalizedSpec(inner);
      } else {
        NormalizedSpec(x);
      }
    case Pointer(x) => NormalizedSpec(x);
    case LValueReference(x) => NormalizedSpec(x);
    case RValueReference(x) => NormalizedSpec(x);
    case UnsizedArray(x) => NormalizedSpec(x);
    case SizedArray(x) => NormalizedSpec(x);
  }

  /**
   * `normalized()` returns the type itself exactly when there is no `Const` over an array
   * (for types without `Const` over `Const`, which the generator never builds).
   */
  lemma {:induction false} NormalizedIdentity(t: PyType)
    requires NoConstOverConst(t)
    ensures Normalized(t) == t <==> NoConstOverArray(t)
  {
    NormalizedSpec(t);
    if NoConstOverArray(t) {
      NormalizedFixes(t);
    }
  }

  lemma {:induction false} NormalizedFixes(t: PyType)
    requires NoConstOverArray(t)
    ensures Normalized(t) == t
  {
    if !t.BasicType? {
      NormalizedFixes(t.operand);
    }
  }

  /** Normalising twice is normalising once. */
  lemma NormalizedIdempotent(t: PyType)
    requires NoConstOverConst(t)
    ensures Normalized(Normalized(t)) == Normalized(t)
  {
    NormalizedSpec(t);
    NormalizedFixes(Normalized(t));
  }

  /** Whether a type can be built depends only on the kinds of its arrays. */
  lemma {:induction false} ConstructibleByKinds(t: PyType)
    ensures Constructible(t) <==> KindsConstructible(ArrayKinds(t))
  {
    if !t.BasicType? {
      ConstructibleByKinds(t.operand);
      if IsArray(t) {
        KindsConstructibleSnoc(ArrayKinds(t.operand), t.SizedArray?);
        if Constructible(t.operand) {
          NearestKinds(t.operand);
        }
      }
    }
  }

  /** A sized array never stands right above an unsized one. */
  predicate KindsConstructible(kinds: seq<bool>) {
    forall i :: 0 <= i < |kinds| - 1 ==> kinds[i + 1] ==> kinds[i]
  }

  lemma KindsConstructibleSnoc(kinds: seq<bool>, sized: bool)
    ensures KindsConstructible(kinds + [sized]) <==>
              KindsConstructible(kinds) && (sized ==> kinds == [] || kinds[|kinds| - 1])
  {
    var k := kinds + [sized];
    if KindsConstructible(k) {
      forall i | 0 <= i < |kinds| - 1 ensures kinds[i + 1] ==> kinds[i] {
        assert k[i] == kinds[i] && k[i + 1] == kinds[i + 1];
      }
      if sized && kinds != [] {
        assert k[|kinds|] && k[|kinds| - 1] == kinds[|kinds| - 1];
      }
    }
    if KindsConstructible(kinds) && (sized ==> kinds == [] || kinds[|kinds| - 1]) {
      forall i | 0 <= i < |k| - 1 ensures k[i + 1] ==> k[i] {
        if i + 1 < |kinds| {
          assert k[i] == kinds[i] && k[i + 1] == kinds[i + 1];
        } else {
          assert k[i] == kinds[|kinds| - 1];
        }
      }
    }
  }

  /** The nearest array is unsized exactly when the last kind is. */
  lemma NearestKinds(t: PyType)
    requires Constructible(t)
    ensures Nearest(t).UnsizedNearest? <==> ArrayKinds(t) != [] && !ArrayKinds(t)[|ArrayKinds(t)| - 1]
  {
    NearestSpec(t);
    KindsMatchOperations(t);
  }

  lemma {:induction false} KindsMatchOperations(t: PyType)
    ensures |ArrayKinds(t)| == |ArrayOperations(t)|
    ensures forall i :: 0 <= i < |ArrayKinds(t)| ==> ArrayKinds(t)[i] == ArrayOperations(t)[i].SizedArray?
  {
    if !t.BasicType? {
      KindsMatchOperations(t.operand);
    }
  }

  /** Normalising a buildable type gives a buildable type with the same declaration shape. */
  lemma NormalizedConstructible(t: PyType)
    requires NoConstOverConst(t) && Constructible(t)
    ensures Constructible(Normalized(t))
    ensures ReferencesAtRoot(t) ==> ReferencesAtRoot(Normalized(t))
  {
    NormalizedSpec(t);
    ConstructibleByKinds(t);
    ConstructibleByKinds(Normalized(t));
    if ReferencesAtRoot(t) && IsReference(t) {
      NormalizedSpec(t.operand);
    }
  }

  // ---------------------------------------------------------------------------
  // Normalisation keeps the C++ type
  // ---------------------------------------------------------------------------

  /** The arrays of a type, counted; normalisation keeps their number. */
  lemma NormalizedArrayCount(t: PyType)
    requires NoConstOverConst(t)
    ensures |ArrayOperations(Normalized(t))| == |ArrayOperations(t)|
  {
    NormalizedSpec(t);
    KindsMatchOperations(t);
    KindsMatchOperations(Normalized(t));
  }

  /** `std::is_array` of the C++ type: an array, or `Const` over one. */
  lemma IsArrayToCType(t: PyType)
    requires Constructible(t) && SizesNatural(t)
    ensures TypeDecl.IsArray(ToCType(t)) == IsArray(WithoutConst(t))
  {
  }

  /** After normalisation a type is still an array (perhaps a `Const` one) exactly when it was. */
  lemma NormalizedKeepsArray(t: PyType)
    requires NoConstOverConst(t)
    ensures IsArray(WithoutConst(Normalized(t))) == IsArray(WithoutConst(t))
  {
    NormalizedSpec(t);
    if t.Const? && !IsArray(t.operand) {
      NormalizedSpec(t.operand);
    }
  }

  /**
   * `const` on an array is `const` on its element: qualifying the element `e` of typedecl.hpp
   * gives the type of `Const(e)`, with any `const` `e` already had absorbed.
   */
  lemma QualifyConst(e: PyType)
    requires Constructible(e) && SizesNatural(e)
    ensures Constructible(Const(WithoutConst(e))) && SizesNatural(Const(WithoutConst(e)))
    ensures TypeDecl.QualifyElement(TypeDecl.ConstQual, ToCType(e)) == ToCType(Const(WithoutConst(e)))
  {
  }

  /** The reference-free types without `Const` over `Const` that `ToCType` maps. */
  predicate Spellable(t: PyType) {
    Constructible(t) && SizesNatural(t) && NoReferences(t) && NoConstOverConst(t)
  }

  /**
   * Moving `const` from an array onto its element (section 8.3.4 of ISO/IEC 14882:2011: the
   * two are the same type) changes nothing `typedecl.hpp` writes: the type before and after
   * `normalized()` is spelled alike after every suffix.
   */
  lemma {:induction false} NormalizedSameSpelling(t: PyType, suffix: string)
    requires Spellable(t)
    ensures Constructible(Normalized(t)) && SizesNatural(Normalized(t))
    ensures TypeDecl.Renderable(ToCType(t)) && TypeDecl.Renderable(ToCType(Normalized(t)))
    ensures TypeDecl.Value(ToCType(Normalized(t)), suffix) == TypeDecl.Value(ToCType(t), suffix)
    decreases Size(t), 2
  {
    NormalizedConstructible(t);
    match t
    case BasicType(_) =>
    case Pointer(x) =>
      NormalizedSameSpelling(x, TypeDecl.ParenthesizeIfArray(ToCType(x), "*" + suffix));
      NormalizedKeepsArray(x);
      IsArrayToCType(x);
      IsArrayToCType(Normalized(x));
    case UnsizedArray(x) =>
      NormalizedSameSpelling(x, suffix + "[]");
    case SizedArray(x) =>
      NormalizedSameSpelling(x, suffix + TypeDecl.Bound(ArraySize(t)));
      NormalizedArrayCount(x);
      SizedArraySize(x);
      SizedArraySize(Normalized(x));
    case Const(x) => NormalizedConstSameSpelling(x, suffix);
    case _ =>
  }

  /** `NormalizedSameSpelling` for `Const(x)`. */
  lemma {:induction false} NormalizedConstSameSpelling(x: PyType, suffix: string)
    requires Spellable(Const(x))
    ensures Constructible(Normalized(Const(x))) && SizesNatural(Normalized(Const(x)))
    ensures TypeDecl.Renderable(ToCType(Const(x))) && TypeDecl.Renderable(ToCType(Normalized(Const(x))))
    ensures TypeDecl.Value(ToCType(Normalized(Const(x))), suffix) == TypeDecl.Value(ToCType(Const(x)), suffix)
    decreases Size(x) + 1, 1
  {
    if IsArray(x) {
      NormalizedConstArraySameSpelling(x, suffix);
    } else {
      NormalizedConstructible(Const(x));
      NormalizedSameSpelling(x, "const" + suffix);
    }
  }

  /**
   * `NormalizedSameSpelling` for `Const` over an array: both spell an array whose element is
   * `Const` over the old element (without its own `const`), with the same bound.
   */
  lemma {:induction false} NormalizedConstArraySameSpelling(x: PyType, suffix: string)
    requires IsArray(x) && Spellable(Const(x))
    ensures Constructible(Normalized(Const(x))) && SizesNatural(Normalized(Const(x)))
    ensures TypeDecl.Renderable(ToCType(Const(x))) && TypeDecl.Renderable(ToCType(Normalized(Const(x))))
    ensures TypeDecl.Value(ToCType(Normalized(Const(x))), suffix) == TypeDecl.Value(ToCType(Const(x)), suffix)
    decreases Size(x) + 1, 0
  {
    NormalizedConstructible(Const(x));
    var e := x.operand;
    var inner := Const(WithoutConst(e));
    assert Constructible(x) && SizesNatural(x);
    assert Constructible(e) && SizesNatural(e);
    assert NoReferences(x) && NoReferences(e) && NoConstOverConst(x) && NoConstOverConst(e);
    assert Spellable(inner);
    assert Size(inner) <= Size(x) by {
      assert Size(x) == 1 + Size(e);
    }
    QualifyConst(e);
    if x.UnsizedArray? {
      NormalizedSameSpelling(inner, suffix + "[]");
    } else {
      NormalizedSameSpelling(inner, suffix + TypeDecl.Bound(ArraySize(x)));
      NormalizedArrayCount(inner);
      assert ArrayOperations(inner) == ArrayOperations(e);
      SizedArraySize(e);
      SizedArraySize(Normalized(inner));
    }
  }

  /**
   * `normalized()` keeps the type: `typedecl<T>()` spells a declarable tree and its
   * normalisation alike, so the generated `std::is_same` of the two holds.
   */
  lemma NormalizedKeepsType(t: PyType)
    requires Constructible(t) && SizesNatural(t) && ReferencesAtRoot(t) && NoConstOverConst(t)
    ensures Constructible(Normalized(t)) && SizesNatural(Normalized(t))
    ensures TypeDecl.TypedeclDefined(ToCType(t)) && TypeDecl.TypedeclDefined(ToCType(Normalized(t)))
    ensures TypeDecl.Typedecl(ToCType(Normalized(t))) == TypeDecl.Typedecl(ToCType(t))
  {
    if IsReference(t) {
      var x := t.operand;
      var tok := if t.LValueReference? then "&" else "&&";
      NormalizedSameSpelling(x, TypeDecl.ParenthesizeIfArray(ToCType(x), tok));
      NormalizedKeepsArray(x);
      IsArrayToCType(x);
      IsArrayToCType(Normalized(x));
    } else {
      NormalizedSameSpelling(t, "");
    }
  }

  // ---------------------------------------------------------------------------
  // Descriptions
  // ---------------------------------------------------------------------------

  /**
   * `description_prefix` and `description_prefix_plural`: the plural of `Const` and of the
   * references is their singular (`description_prefix_plural is None`).
   */
  function DescriptionPrefix(t: PyType, plural: bool): string
    requires !t.BasicType? && Constructible(t)
  {
    match t
    case Const(_) => "const"
    case Pointer(_) => if plural then "pointers to" else "pointer to"
    case LValueReference(_) => "lvalue reference to"
    case RValueReference(_) => "rvalue reference to"
    case UnsizedArray(_) => if plural then "arrays of" else "array of"
    case SizedArray(_) =>
      (if plural then "arrays of" else "array of") + " " + Decimal.IntString(ArraySize(t))
  }

  /**
   * Whether the operand is described in the plural: always under an array
   * (`pluralize_operand_description`), never under a pointer, and under `Const` and the
   * references exactly when the type itself is described in the plural.
   */
  function PluralizeOperand(t: PyType, plural: bool): bool
    requires !t.BasicType?
  {
    if IsArray(t) then true else if t.Pointer? then false else plural
  }

  /** `raw_description(plural)`: the token (with an `s` in the plural), or prefix, space, operand. */
  function RawDescription(t: PyType, plural: bool): string
    requires Constructible(t)
  {
    if t.BasicType? then t.token + (if plural then "s" else "")
    else DescriptionPrefix(t, plural) + " " + RawDescription(t.operand, PluralizeOperand(t, plural))
  }

  /** The `description` property: like the singular raw description, with its first phrase in brackets. */
  function Description(t: PyType): string
    requires Constructible(t)
  {
    if t.BasicType? then "[" + t.token + "]"
    else "[" + DescriptionPrefix(t, false) + "] " + RawDescription(t.operand, PluralizeOperand(t, false))
  }

  /** The first phrase of a description: the token, or the outermost operation's prefix. */
  function FirstPhrase(t: PyType): string
    requires Constructible(t)
  {
    if t.BasicType? then t.token else DescriptionPrefix(t, false)
  }

  /** The `description` is the singular raw description with its first phrase bracketed. */
  lemma DescriptionBracketsFirstPhrase(t: PyType)
    requires Constructible(t)
    ensures |FirstPhrase(t)| <= |RawDescription(t, false)|
    ensures RawDescription(t, false)[..|FirstPhrase(t)|] == FirstPhrase(t)
    ensures Description(t) == "[" + FirstPhrase(t) + "]" + RawDescription(t, false)[|FirstPhrase(t)|..]
  {
    if t.BasicType? {
      assert RawDescription(t, false) == t.token + "";
      BracketedAlone(t.token);
    } else {
      OperationDescription(t);
      BracketedBeforeSpace(FirstPhrase(t), RawDescription(t.operand, PluralizeOperand(t, false)));
    }
  }

  /** An operation's two descriptions share the prefix and the operand's raw description. */
  lemma OperationDescription(t: PyType)
    requires Constructible(t) && !t.BasicType?
    ensures var rest := RawDescription(t.operand, PluralizeOperand(t, false));
            RawDescription(t, false) == FirstPhrase(t) + " " + rest &&
            Description(t) == "[" + FirstPhrase(t) + "] " + rest
  {
  }

  lemma BracketedAlone(first: string)
    ensures (first + "")[..|first|] == first && "[" + first + "]" == "[" + first + "]" + (first + "")[|first|..]
  {
    assert (first + "")[|first|..] == "";
  }

  lemma BracketedBeforeSpace(first: string, rest: string)
    ensures (first + " " + rest)[..|first|] == first
    ensures "[" + first + "] " + rest == "[" + first + "]" + (first + " " + rest)[|first|..]
  {
    assert (first + " " + rest)[|first|..] == " " + rest;
  }

  /** A suffix of the second half is a suffix of the whole. */
  lemma SuffixOfConcat(a: string, b: string, n: string)
    requires EndsWith(b, n)
    ensures EndsWith(a + b, n)
  {
    assert (a + b)[|a + b| - |n|..] == b[|b| - |n|..];
  }

  /**
   * The pointer or array nearest to the basic type, if any: its noun agrees with it ("array of
   * ints", "pointer to int").
   */
  function Determiner(t: PyType): Option<bool>
  {
    if t.BasicType? then None
    else
      match Determiner(t.operand)
      case Some(d) => Some(d)
      case None => if IsArray(t) then Some(true) else if t.Pointer? then Some(false) else None
  }

  /** The basic type's noun, plural when its determiner is an array or, with none, when the whole is. */
  function Noun(t: PyType, plural: bool): string {
    BaseToken(t) + (if Determiner(t).GetOr(plural) then "s" else "")
  }

  lemma RawDescriptionOfOperation(t: PyType, plural: bool)
    requires Constructible(t) && !t.BasicType?
    ensures RawDescription(t, plural)
            == (DescriptionPrefix(t, plural) + " ") + RawDescription(t.operand, PluralizeOperand(t, plural))
  {
  }

  /** The noun of an operation is its operand's noun, in the number the operation gives it. */
  lemma NounOfOperand(t: PyType, plural: bool)
    requires !t.BasicType?
    ensures Noun(t, plural) == Noun(t.operand, PluralizeOperand(t, plural))
  {
  }

  /** Every description ends with the noun, which is plural exactly as `Noun` says. */
  lemma {:induction false} DescriptionEndsWithNoun(t: PyType, plural: bool)
    requires Constructible(t)
    ensures EndsWith(RawDescription(t, plural), Noun(t, plural))
  {
    if t.BasicType? {
      assert RawDescription(t, plural) == Noun(t, plural);
      EndsWithItself(Noun(t, plural));
    } else {
      var p := PluralizeOperand(t, plural);
      DescriptionEndsWithNoun(t.operand, p);
      RawDescriptionOfOperation(t, plural);
      NounOfOperand(t, plural);
      SuffixOfConcat(DescriptionPrefix(t, plural) + " ", RawDescription(t.operand, p), Noun(t.operand, p));
    }
  }

  /** `suffix` is the end of `s`. */
  predicate EndsWith(s: string, suffix: string) {
    |suffix| <= |s| && s[|s| - |suffix|..] == suffix
  }

  lemma EndsWithItself(s: string)
    ensures EndsWith(s, s)
  {
  }

  /** The `description` of a `SizedArray(BasicType('int'))` and of a pointer. */
  lemma DescriptionExamples()
    ensures Description(SizedArray(BasicType("int"))) == "[array of 5] ints"
    ensures Description(Pointer(BasicType("int"))) == "[pointer to] int"
  {
    FiveIntsDescription();
    PointerIntDescription();
  }

  lemma FiveIntsDescription()
    ensures Description(SizedArray(BasicType("int"))) == "[array of 5] ints"
  {
    FiveIntsPrefix(false);
    assert RawDescription(BasicType("int"), true) == "int" + "s";
    assert "[" + "array of 5" + "] " + ("int" + "s") == "[array of 5] ints";
  }

  lemma PointerIntDescription()
    ensures Description(Pointer(BasicType("int"))) == "[pointer to] int"
  {
    assert Description(Pointer(BasicType("int"))) == "[" + "pointer to" + "] " + ("int" + "");
    assert "[" + "pointer to" + "] " + ("int" + "") == "[pointer to] int";
  }

  /** The prefix of `SizedArray(BasicType('int'))`: its size is 5. */
  lemma FiveIntsPrefix(plural: bool)
    ensures DescriptionPrefix(SizedArray(BasicType("int")), plural)
            == (if plural then "arrays of 5" else "array of 5")
  {
    assert ArraySize(SizedArray(BasicType("int"))) == 5;
    assert Decimal.IntString(5) == "5";
  }

  /** The description `debug()` prints. */
  lemma DebugDescription()
    ensures RawDescription(Pointer(UnsizedArray(Const(Pointer(SizedArray(BasicType("int")))))), false)
            == "pointer to " + "array of " + "const " + "pointers to " + "array of 5 ints"
  {
    var ints := SizedArray(BasicType("int"));
    DebugDescriptionShape(ints);
    FiveIntsPrefix(false);
    assert RawDescription(ints, false) == "array of 5" + " " + "ints";
    DebugDescriptionSpelling();
  }

  /** The operations of `debug()`'s type over an array `x`, described from the outside in. */
  lemma DebugDescriptionShape(x: PyType)
    requires IsArray(x) && Constructible(x)
    ensures var t := Pointer(UnsizedArray(Const(Pointer(x))));
            Constructible(t) &&
            RawDescription(t, false)
            == "pointer to" + " " + ("array of" + " " + ("const" + " " + ("pointers to" + " " + RawDescription(x, false))))
  {
    var u := UnsizedArray(Const(Pointer(x)));
    assert RawDescription(Pointer(x), true) == "pointers to" + " " + RawDescription(x, false);
    assert RawDescription(Const(Pointer(x)), true) == "const" + " " + RawDescription(Pointer(x), true);
    assert RawDescription(u, false) == "array of" + " " + RawDescription(Const(Pointer(x)), true);
  }

  lemma DebugDescriptionSpelling()
    ensures "pointer to" + " " + ("array of" + " " + ("const" + " " + ("pointers to" + " " + ("array of 5" + " " + "ints"))))
            == "pointer to " + "array of " + "const " + "pointers to " + "array of 5 ints"
  {
  }

  /** The type `debug()` builds: normalisation leaves it alone, and its declaration. */
  lemma DebugExample()
    ensures var t := Pointer(UnsizedArray(Const(Pointer(SizedArray(BasicType("int"))))));
            Normalized(t) == t && Declaration(t) == "int(* const(*)[])[5]"
  {
    var t := Pointer(UnsizedArray(Const(Pointer(SizedArray(BasicType("int"))))));
    NormalizedFixes(t);
    DebugDeclaration();
  }

  /** The declaration of `debug()`'s type, threaded inward one operation at a time. */
  lemma DebugDeclaration()
    ensures Declaration(Pointer(UnsizedArray(Const(Pointer(SizedArray(BasicType("int")))))))
            == "int(* const(*)[])[5]"
  {
    var ints := SizedArray(BasicType("int"));
    DebugShape(ints);
    FiveIntsDeclaration(DebugSuffix());
    DebugSpelling();
  }

  lemma DebugSpelling()
    ensures "int" + "(* const(*)[])" + "[5]" == "int(* const(*)[])[5]"
  {
  }

  /**
   * What the four outer operations of `debug()`'s type pass to its innermost array: the
   * pointer's `(*`, the `const`, the inner pointer over the unsized array and the `)`.
   */
  function DebugSuffix(): (r: string)
    ensures r == "(* const(*)[])"
  {
    "(" + ("*" + (" const" + ("(" + ("*" + "") + ")" + "[]"))) + ")"
  }

  /** The operations of `debug()`'s type over an array `x`, threaded inward one at a time. */
  lemma DebugShape(x: PyType)
    requires IsArray(x) && Constructible(x) && NoReferences(x)
    ensures var t := Pointer(UnsizedArray(Const(Pointer(x))));
            Constructible(t) && ReferencesAtRoot(t) && Declaration(t) == DeclarationWith(x, DebugSuffix())
  {
    var p := Pointer(x);
    var c := Const(p);
    var u := UnsizedArray(c);
    DeclarationWithPointer(u, "");
    DeclarationWithUnsized(c, "(" + ("*" + "") + ")");
    DeclarationWithConst(p, "(" + ("*" + "") + ")" + "[]");
    DeclarationWithPointer(x, " const" + ("(" + ("*" + "") + ")" + "[]"));
    assert Declaration(Pointer(u)) == DeclarationWith(Pointer(u), "");
  }

  /** One step of `DeclarationWith` through a `Pointer`. */
  lemma DeclarationWithPointer(x: PyType, suffix: string)
    requires Constructible(x) && NoReferences(x)
    ensures Constructible(Pointer(x)) && NoReferences(Pointer(x))
    ensures DeclarationWith(Pointer(x), suffix) == DeclarationWith(x, Parenthesized(x, "*" + suffix))
  {
  }

  /** One step of `DeclarationWith` through a `Const`. */
  lemma DeclarationWithConst(x: PyType, suffix: string)
    requires Constructible(x) && NoReferences(x)
    ensures Constructible(Const(x)) && NoReferences(Const(x))
    ensures DeclarationWith(Const(x), suffix) == DeclarationWith(x, " const" + suffix)
  {
  }

  /** One step of `DeclarationWith` through an `UnsizedArray`. */
  lemma DeclarationWithUnsized(x: PyType, suffix: string)
    requires Constructible(x) && NoReferences(x)
    ensures Constructible(UnsizedArray(x)) && NoReferences(UnsizedArray(x))
    ensures DeclarationWith(UnsizedArray(x), suffix) == DeclarationWith(x, suffix + "[]")
  {
  }

  /** `SizedArray(BasicType('int'))` declared with any suffix. */
  lemma FiveIntsDeclaration(suffix: string)
    ensures DeclarationWith(SizedArray(BasicType("int")), suffix) == "int" + suffix + "[5]"
  {
    assert ArraySize(SizedArray(BasicType("int"))) == 5;
    assert Decimal.IntString(5) == "5";
  }

  /** `Const` over arrays moves down to the element, dropping a `Const` already there. */
  lemma NormalizationExamples()
    ensures Normalized(Const(SizedArray(SizedArray(BasicType("int")))))
            == SizedArray(SizedArray(Const(BasicType("int"))))
    ensures Normalized(Const(UnsizedArray(Const(BasicType("int")))))
            == UnsizedArray(Const(BasicType("int")))
    ensures Declaration(SizedArray(SizedArray(Const(BasicType("int"))))) == "int const[4][5]"
  {
    assert Decimal.IntString(4) == "4" && Decimal.IntString(5) == "5";
  }

  // ---------------------------------------------------------------------------
  // Definitions and aliases
  // ---------------------------------------------------------------------------

  /** The `alias` attribute: `'A%d' % level`. */
  function Alias(t: PyType): string {
    "A" + Decimal.NatString(Level(t))
  }

  /** The `definition` property: the token, or the operand's alias followed by the operation's token. */
  function Definition(t: PyType): string
    requires Constructible(t)
  {
    if t.BasicType? then t.token else Alias(t.operand) + DefinitionToken(t)
  }

  /** Each alias is defined from the alias one level down, so the `using` lines nest. */
  lemma DefinitionUsesOperandAlias(t: PyType)
    requires Constructible(t) && !t.BasicType?
    ensures Alias(t) == "A" + Decimal.NatString(Level(t.operand) + 1)
    ensures |Alias(t.operand)| <= |Definition(t)|
    ensures Definition(t)[..|Alias(t.operand)|] == Alias(t.operand)
  {
  }

  // ---------------------------------------------------------------------------
  // Generation
  // ---------------------------------------------------------------------------

  const MaxLevels: nat := 2
  const MaxGuessedDeclarations: nat := 2000
  const MaxTypedecls: nat := 7

  /** The `Operation` subclasses, as `generate` tries them. */
  datatype Kind = ConstKind | PointerKind | LValueReferenceKind | RValueReferenceKind
                | UnsizedArrayKind | SizedArrayKind

  /** The order of the six `generate_with_operand` calls in `generate`. */
  const GenerationOrder: seq<Kind> :=
    [ConstKind, PointerKind, LValueReferenceKind, RValueReferenceKind, UnsizedArrayKind, SizedArrayKind]

  /** `cls(operand)`. */
  function Wrap(k: Kind, operand: PyType): (t: PyType)
    ensures !t.BasicType? && t.operand == operand && Level(t) == Level(operand) + 1
  {
    match k
    case ConstKind => Const(operand)
    case PointerKind => Pointer(operand)
    case LValueReferenceKind => LValueReference(operand)
    case RValueReferenceKind => RValueReference(operand)
    case UnsizedArrayKind => UnsizedArray(operand)
    case SizedArrayKind => SizedArray(operand)
  }

  /** The kind of an operation. */
  function KindOf(t: PyType): (k: Kind)
    requires !t.BasicType?
    ensures Wrap(k, t.operand) == t
  {
    match t
    case Const(_) => ConstKind
    case Pointer(_) => PointerKind
    case LValueReference(_) => LValueReferenceKind
    case RValueReference(_) => RValueReferenceKind
    case UnsizedArray(_) => UnsizedArrayKind
    case SizedArray(_) => SizedArrayKind
  }

  /**
   * The pruning in `generate_with_operand`: nothing over a reference; no `Const` over `Const`;
   * no pointer over two pointers in a row (each possibly `Const`); no array over three
   * arrays or directly over the outermost array being unsized.
   */
  predicate CanWrap(k: Kind, operand: PyType) {
    !IsReference(operand) &&
    match k
    case ConstKind => !operand.Const?
    case PointerKind =>
      var op1 := WithoutConst(operand);
      !(op1.Pointer? && WithoutConst(op1.operand).Pointer?)
    case LValueReferenceKind => true
    case RValueReferenceKind => true
    case _ =>
      var ops := ArrayOperations(operand);
      |ops| > 0 ==> |ops| < 3 && !ops[|ops| - 1].UnsizedArray?
  }

  /** The number of pointers in a row at the top, each possibly `Const`. */
  function PointerRun(t: PyType): nat
    decreases Size(t)
  {
    match WithoutConst(t)
    case Pointer(x) => assert Size(x) < Size(t); 1 + PointerRun(x)
    case _ => 0
  }

  predicate PointerRunsBounded(t: PyType) {
    PointerRun(t) <= 2 && (t.BasicType? || PointerRunsBounded(t.operand))
  }

  /** No array stands directly over an unsized one. */
  predicate NoArrayOverUnsized(t: PyType) {
    (IsArray(t) ==> var ops := ArrayOperations(t.operand); ops == [] || !ops[|ops| - 1].UnsizedArray?) &&
    (t.BasicType? || NoArrayOverUnsized(t.operand))
  }

  /**
   * The types the generator builds: references only outermost, no `Const` over `Const`, at
   * most two pointers in a row, at most three arrays, unsized arrays only outside sized ones.
   */
  predicate GeneratedShape(t: PyType) {
    ReferencesAtRoot(t) && NoConstOverConst(t) && PointerRunsBounded(t) &&
    |ArrayOperations(t)| <= 3 && NoArrayOverUnsized(t)
  }

  /** A type whose normalised form can be declared. */
  predicate Declarable(t: PyType) {
    Constructible(t) && Constructible(Normalized(t)) && ReferencesAtRoot(Normalized(t))
  }

  lemma PointerRunOfConst(t: PyType)
    requires !t.Const?
    ensures PointerRun(Const(t)) == PointerRun(t)
  {
  }

  /** The pruning admits exactly the wrappings that keep the generator's shape. */
  lemma CanWrapKeepsShape(k: Kind, t: PyType)
    requires GeneratedShape(t)
    ensures CanWrap(k, t) <==> GeneratedShape(Wrap(k, t))
  {
    var w := Wrap(k, t);
    assert IsReference(t) ==> !NoReferences(t);
    match k
    case ConstKind =>
      if !t.Const? {
        PointerRunOfConst(t);
      }
    case PointerKind =>
      assert PointerRun(w) == 1 + PointerRun(t);
      var op1 := WithoutConst(t);
      if op1.Pointer? {
        assert PointerRun(t) == 1 + PointerRun(op1.operand);
        var op2 := WithoutConst(op1.operand);
        assert op2.Pointer? <==> PointerRun(op1.operand) > 0;
      } else {
        assert PointerRun(t) == 0;
      }
    case LValueReferenceKind =>
    case RValueReferenceKind =>
    case UnsizedArrayKind =>
      assert ArrayOperations(w) == ArrayOperations(t) + [w];
    case SizedArrayKind =>
      assert ArrayOperations(w) == ArrayOperations(t) + [w];
  }

  /** The shape is kept by every operand. */
  lemma {:induction false} ShapeOfOperand(t: PyType)
    requires GeneratedShape(t) && !t.BasicType?
    ensures GeneratedShape(t.operand)
  {
    var x := t.operand;
    assert |ArrayOperations(x)| <= |ArrayOperations(t)|;
    assert ReferencesAtRoot(x) by {
      assert NoReferences(x);
    }
    assert PointerRunsBounded(x) && NoConstOverConst(x) && NoArrayOverUnsized(x);
  }

  /** A well-shaped type can be built, and so can its normal form. */
  lemma {:induction false} ShapeConstructible(t: PyType)
    requires GeneratedShape(t)
    ensures Constructible(t)
  {
    if !t.BasicType? {
      ShapeOfOperand(t);
      ShapeConstructible(t.operand);
      if t.SizedArray? {
        NearestSpec(t.operand);
      }
    }
  }

  lemma ShapeDeclarable(t: PyType)
    requires GeneratedShape(t)
    ensures Declarable(t)
  {
    ShapeConstructible(t);
    NormalizedConstructible(t);
  }

  /** Every `SizedArray` the generator builds has size 5, 4 or 3. */
  lemma {:induction false} GeneratedSizes(t: PyType)
    requires GeneratedShape(t) && t.SizedArray?
    ensures Constructible(t) && 3 <= ArraySize(t) <= 5
  {
    ShapeConstructible(t);
    SizedArraySize(t.operand);
  }

  /**
   * `generate(type)` visits, before its children, the type itself; then, below the level
   * limit, what each of the six operations over it generates, in order.
   */
  function Enumerate(t: PyType, maxLevels: nat): (r: seq<PyType>)
    ensures |r| > 0 && r[0] == t
    ensures GeneratedShape(t) ==> forall i :: 0 <= i < |r| ==> GeneratedShape(r[i])
    decreases if Level(t) < maxLevels then maxLevels - Level(t) else 0, 1, 0
  {
    [t] + (if Level(t) < maxLevels then Children(t, maxLevels, 0) else [])
  }

  /** The types generated over `t` by the operations from `GenerationOrder[i]` on. */
  function Children(t: PyType, maxLevels: nat, i: nat): (r: seq<PyType>)
    requires Level(t) < maxLevels && i <= 6
    ensures GeneratedShape(t) ==> forall j :: 0 <= j < |r| ==> GeneratedShape(r[j])
    decreases maxLevels - Level(t), 0, 6 - i
  {
    if i == 6 then [] else Branch(t, maxLevels, i) + Children(t, maxLevels, i + 1)
  }

  /** `generate_with_operand(t)` of the operation `GenerationOrder[i]`. */
  function Branch(t: PyType, maxLevels: nat, i: nat): (r: seq<PyType>)
    requires Level(t) < maxLevels && i < 6
    ensures GeneratedShape(t) ==> forall j :: 0 <= j < |r| ==> GeneratedShape(r[j])
    decreases maxLevels - Level(t), 0, 0
  {
    var k := GenerationOrder[i];
    if CanWrap(k, t) then
      assert GeneratedShape(t) ==> GeneratedShape(Wrap(k, t)) by {
        if GeneratedShape(t) {
          CanWrapKeepsShape(k, t);
        }
      }
      Enumerate(Wrap(k, t), maxLevels)
    else []
  }

  /** Everything generated from `t` is built over `t`, within the level limit. */
  lemma {:induction false} EnumerateSound(t: PyType, m: nat, u: PyType)
    requires u in Enumerate(t, m) && Level(t) <= m
    ensures Subterm(t, u) && Level(u) <= m
    decreases if Level(t) < m then m - Level(t) else 0, 1, 0
  {
    if u != t {
      ChildrenSound(t, m, 0, u);
    }
  }

  lemma {:induction false} ChildrenSound(t: PyType, m: nat, i: nat, u: PyType)
    requires Level(t) < m && i <= 6 && u in Children(t, m, i)
    ensures Subterm(t, u) && Level(u) <= m
    decreases m - Level(t), 0, 6 - i
  {
    if u in Branch(t, m, i) {
      var w := Wrap(GenerationOrder[i], t);
      EnumerateSound(w, m, u);
      SubtermTrans(t, w, u);
    } else {
      ChildrenSound(t, m, i + 1, u);
    }
  }

  lemma {:induction false} SubtermTrans(t: PyType, w: PyType, u: PyType)
    requires !w.BasicType? && w.operand == t && Subterm(w, u)
    ensures Subterm(t, u)
  {
    if u != w {
      SubtermTrans(t, w, u.operand);
    }
  }

  /** The operation directly over `t` on the way up to `u`. */
  lemma {:induction false} StepTowards(t: PyType, u: PyType) returns (k: Kind)
    requires Subterm(t, u) && u != t
    ensures Subterm(Wrap(k, t), u)
  {
    if u.operand == t {
      k := KindOf(u);
    } else {
      k := StepTowards(t, u.operand);
    }
  }

  lemma {:induction false} SubtermShape(t: PyType, u: PyType)
    requires Subterm(t, u) && GeneratedShape(u)
    ensures GeneratedShape(t)
  {
    if u != t {
      ShapeOfOperand(u);
      SubtermShape(t, u.operand);
    }
  }

  lemma {:induction false} SubtermLevel(t: PyType, u: PyType)
    requires Subterm(t, u)
    ensures Level(t) <= Level(u)
    ensures Level(t) == Level(u) ==> t == u
  {
    if u != t {
      SubtermLevel(t, u.operand);
    }
  }

  /** What one operation generates is among the children. */
  lemma {:induction false} BranchInChildren(t: PyType, m: nat, i: nat, j: nat, u: PyType)
    requires Level(t) < m && j <= i < 6 && u in Branch(t, m, i)
    ensures u in Children(t, m, j)
    decreases i - j
  {
    if j < i {
      BranchInChildren(t, m, i, j + 1, u);
    }
  }

  function IndexOfKind(k: Kind): (i: nat)
    ensures i < 6 && GenerationOrder[i] == k
  {
    match k
    case ConstKind => 0
    case PointerKind => 1
    case LValueReferenceKind => 2
    case RValueReferenceKind => 3
    case UnsizedArrayKind => 4
    case SizedArrayKind => 5
  }

  /**
   * The generator misses nothing: every well-shaped type built over `t` within the level
   * limit is generated from `t`.
   */
  lemma {:induction false} EnumerateComplete(t: PyType, m: nat, u: PyType)
    requires GeneratedShape(u) && Subterm(t, u) && Level(u) <= m
    ensures u in Enumerate(t, m)
    decreases Level(u) - Level(t)
  {
    SubtermLevel(t, u);
    if u != t {
      var k := StepTowards(t, u);
      var w := Wrap(k, t);
      SubtermShape(w, u);
      SubtermShape(t, w);
      CanWrapKeepsShape(k, t);
      SubtermLevel(w, u);
      EnumerateComplete(w, m, u);
      var i := IndexOfKind(k);
      assert u in Branch(t, m, i);
      BranchInChildren(t, m, i, 0, u);
    }
  }

  /**
   * From a well-shaped start within the limit, the generator produces exactly the
   * well-shaped types built over it within the level limit.
   */
  lemma EnumerateExactly(t: PyType, m: nat, u: PyType)
    requires GeneratedShape(t) && Level(t) <= m
    ensures u in Enumerate(t, m) <==> GeneratedShape(u) && Subterm(t, u) && Level(u) <= m
  {
    if u in Enumerate(t, m) {
      EnumerateSound(t, m, u);
    }
    if GeneratedShape(u) && Subterm(t, u) && Level(u) <= m {
      EnumerateComplete(t, m, u);
    }
  }

  /** `BasicType.generate('int')` with `MAX_LEVELS == 2`: the type and its six operations. */
  lemma EnumerateBasic(token: string)
    ensures var b := BasicType(token);
            Enumerate(b, MaxLevels)
            == [b, Const(b), Pointer(b), LValueReference(b), RValueReference(b), UnsizedArray(b), SizedArray(b)]
  {
    var b := BasicType(token);
    BasicLastChildren(token);
    BasicChildren(token, 2);
    BasicChildren(token, 1);
    BasicChildren(token, 0);
    assert Children(b, MaxLevels, 2)
        == [LValueReference(b), RValueReference(b), UnsizedArray(b), SizedArray(b)];
    assert Children(b, MaxLevels, 1)
        == [Pointer(b), LValueReference(b), RValueReference(b), UnsizedArray(b), SizedArray(b)];
  }

  /** The last three operations over a basic type. */
  lemma BasicLastChildren(token: string)
    ensures var b := BasicType(token);
            Children(b, MaxLevels, 3) == [RValueReference(b), UnsizedArray(b), SizedArray(b)]
  {
    var b := BasicType(token);
    BasicChildren(token, 5);
    BasicChildren(token, 4);
    BasicChildren(token, 3);
    assert Children(b, MaxLevels, 6) == [];
    assert Children(b, MaxLevels, 5) == [SizedArray(b)];
    assert Children(b, MaxLevels, 4) == [UnsizedArray(b), SizedArray(b)];
  }

  /** Each operation applies once to a basic type, and its result has no children. */
  lemma BasicChildren(token: string, i: nat)
    requires i < 6
    ensures Children(BasicType(token), MaxLevels, i)
            == [Wrap(GenerationOrder[i], BasicType(token))] + Children(BasicType(token), MaxLevels, i + 1)
  {
    var b := BasicType(token);
    assert CanWrap(GenerationOrder[i], b);
    assert Enumerate(Wrap(GenerationOrder[i], b), MaxLevels) == [Wrap(GenerationOrder[i], b)];
  }

  // ---------------------------------------------------------------------------
  // The generator's output and counters
  // ---------------------------------------------------------------------------

  /**
   * One block `generate` prints for a type: the `using` line (alias, definition, description),
   * the `is_same` assertion and the `typedecl` assertion, each possibly commented out.
   */
  datatype Emitted = Emitted(
    source: PyType,
    alias: string,
    definition: string,
    description: string,
    declaration: string,
    declarationAsserted: bool,
    typedeclAsserted: bool)

  /** The module-level counters and everything printed so far. */
  datatype Output = Output(totalTypes: nat, guessedDeclarations: nat, typedecls: nat, emitted: seq<Emitted>)

  const Initial := Output(0, 0, 0, [])

  /**
   * One call of `generate` for `t`, without its children: the declaration is guessed while
   * fewer than `MAX_GUESSED_DECLARATIONS` were, and checked against `typedecl` while fewer
   * than `MAX_TYPEDECLS` were and there is one.
   */
  function Step(t: PyType, out: Output): Output
    requires GeneratedShape(t)
  {
    ShapeDeclarable(t);
    var declared := out.guessedDeclarations < MaxGuessedDeclarations;
    var declaration := if declared then Declaration(Normalized(t)) else "?";
    var checked := out.typedecls < MaxTypedecls && declaration != "?";
    Output(
      out.totalTypes + 1,
      if declared then out.guessedDeclarations + 1 else out.guessedDeclarations,
      if checked then out.typedecls + 1 else out.typedecls,
      out.emitted + [Emitted(t, Alias(t), Definition(t), Description(t), declaration, declared, checked)])
  }

  /** `generate` applied to each of `ts` in turn. */
  function Run(ts: seq<PyType>, out: Output): Output
    requires forall i :: 0 <= i < |ts| ==> GeneratedShape(ts[i])
  {
    if ts == [] then out else Run(ts[1..], Step(ts[0], out))
  }

  lemma {:induction false} RunAppend(a: seq<PyType>, b: seq<PyType>, out: Output)
    requires forall i :: 0 <= i < |a| ==> GeneratedShape(a[i])
    requires forall i :: 0 <= i < |b| ==> GeneratedShape(b[i])
    ensures forall i :: 0 <= i < |a + b| ==> GeneratedShape((a + b)[i])
    ensures Run(a + b, out) == Run(b, Run(a, out))
  {
    assert forall i :: 0 <= i < |a + b| ==> GeneratedShape((a + b)[i]) by {
      forall i | 0 <= i < |a + b| ensures GeneratedShape((a + b)[i]) {
        if i < |a| {
          assert (a + b)[i] == a[i];
        } else {
          assert (a + b)[i] == b[i - |a|];
        }
      }
    }
    if a != [] {
      assert (a + b)[0] == a[0];
      assert (a + b)[1..] == a[1..] + b;
      RunAppend(a[1..], b, Step(a[0], out));
    } else {
      assert a + b == b;
    }
  }

  function Min(a: nat, b: nat): nat {
    if a < b then a else b
  }

  /** The number of printed blocks with a real declaration (not `"?"`). */
  function RealDeclarations(e: seq<Emitted>): nat {
    if e == [] then 0
    else RealDeclarations(e[..|e| - 1]) + (if e[|e| - 1].declaration != "?" then 1 else 0)
  }

  /** What block `i` holds, given the blocks before it. */
  predicate EntryValid(e: seq<Emitted>, i: nat)
    requires i < |e|
  {
    var x := e[i];
    Constructible(x.source) &&
    x.alias == Alias(x.source) && x.definition == Definition(x.source) &&
    x.description == Description(x.source) &&
    x.declarationAsserted == (i < MaxGuessedDeclarations) &&
    (x.declarationAsserted ==> Declarable(x.source) && x.declaration == Declaration(Normalized(x.source))) &&
    (!x.declarationAsserted ==> x.declaration == "?") &&
    x.typedeclAsserted == (x.declaration != "?" && RealDeclarations(e[..i]) < MaxTypedecls)
  }

  /**
   * The counters agree with the output: one block per type, the first
   * `MAX_GUESSED_DECLARATIONS` declarations guessed, the first `MAX_TYPEDECLS` real
   * declarations checked against `typedecl`.
   */
  predicate Consistent(out: Output) {
    out.totalTypes == |out.emitted| &&
    out.guessedDeclarations == Min(|out.emitted|, MaxGuessedDeclarations) &&
    out.typedecls == Min(RealDeclarations(out.emitted), MaxTypedecls) &&
    forall i :: 0 <= i < |out.emitted| ==> EntryValid(out.emitted, i)
  }

  lemma StepConsistent(t: PyType, out: Output)
    requires GeneratedShape(t) && Consistent(out)
    ensures Consistent(Step(t, out))
    ensures Step(t, out).emitted[..|out.emitted|] == out.emitted
    ensures Step(t, out).emitted[|out.emitted|].source == t
  {
    var e, e' := out.emitted, Step(t, out).emitted;
    ShapeDeclarable(t);
    assert e'[..|e|] == e;
    assert RealDeclarations(e') == RealDeclarations(e) + (if e'[|e|].declaration != "?" then 1 else 0);
    forall i | 0 <= i < |e'| ensures EntryValid(e', i) {
      if i < |e| {
        assert EntryValid(e, i);
        assert e'[..i] == e[..i];
      }
    }
  }

  /** Running keeps the counters consistent and appends one block per type, in order. */
  lemma {:induction false} RunConsistent(ts: seq<PyType>, out: Output)
    requires forall i :: 0 <= i < |ts| ==> GeneratedShape(ts[i])
    requires Consistent(out)
    ensures Consistent(Run(ts, out))
    ensures |Run(ts, out).emitted| == |out.emitted| + |ts|
    ensures Run(ts, out).emitted[..|out.emitted|] == out.emitted
    ensures forall i :: 0 <= i < |ts| ==> Run(ts, out).emitted[|out.emitted| + i].source == ts[i]
  {
    if ts != [] {
      var next := Step(ts[0], out);
      StepConsistent(ts[0], out);
      RunConsistent(ts[1..], next);
      var r := Run(ts, out).emitted;
      assert r[..|next.emitted|] == next.emitted;
      assert r[..|out.emitted|] == next.emitted[..|out.emitted|];
      forall i | 0 <= i < |ts| ensures r[|out.emitted| + i].source == ts[i] {
        if i == 0 {
          assert r[|out.emitted|] == next.emitted[|out.emitted|];
        } else {
          assert ts[i] == ts[1..][i - 1];
        }
      }
    }
  }

  /** With no `"?"` in the output, every block counts as a real declaration. */
  lemma {:induction false} AllReal(e: seq<Emitted>)
    requires forall i :: 0 <= i < |e| ==> e[i].declaration != "?"
    ensures RealDeclarations(e) == |e|
  {
    if e != [] {
      AllReal(e[..|e| - 1]);
    }
  }

  // ---------------------------------------------------------------------------
  // The generator as the program runs it
  // ---------------------------------------------------------------------------

  /** The module-level counters and the printed blocks, updated as `generate` runs. */
  class Generator {
    var totalTypes: nat
    var guessedDeclarations: nat
    var typedecls: nat
    var emitted: seq<Emitted>
    /** The types `generate` was called for, in order. */
    ghost var generated: seq<PyType>

    function State(): Output
      reads this
    {
      Output(totalTypes, guessedDeclarations, typedecls, emitted)
    }

    /** The state is what running `generate` on `generated` from the start gives. */
    ghost predicate Valid()
      reads this
    {
      (forall i :: 0 <= i < |generated| ==> GeneratedShape(generated[i])) &&
      State() == Run(generated, Initial)
    }

    /** The counters start at zero with nothing printed. */
    constructor()
      ensures Valid() && State() == Initial && generated == []
    {
      totalTypes := 0;
      guessedDeclarations := 0;
      typedecls := 0;
      emitted := [];
      generated := [];
    }

    /** `Type.generate(type)`: print the block for `type`, then generate over it below `MAX_LEVELS`. */
    method Generate(t: PyType)
      requires Valid() && GeneratedShape(t)
      modifies this
      ensures Valid()
      ensures generated == old(generated) + Enumerate(t, MaxLevels)
      decreases if Level(t) < MaxLevels then MaxLevels - Level(t) else 0, 1
    {
      EmitBlock(t);
      if Level(t) < MaxLevels {
        ghost var before := generated;
        GenerateWithOperand(ConstKind, t);
        GenerateWithOperand(PointerKind, t);
        GenerateWithOperand(LValueReferenceKind, t);
        GenerateWithOperand(RValueReferenceKind, t);
        GenerateWithOperand(UnsizedArrayKind, t);
        GenerateWithOperand(SizedArrayKind, t);
        ghost var m := MaxLevels;
        assert generated == before + Branch(t, m, 0) + Branch(t, m, 1) + Branch(t, m, 2)
               + Branch(t, m, 3) + Branch(t, m, 4) + Branch(t, m, 5);
        ChildrenInOrder(t, MaxLevels, old(generated));
      } else {
        assert Enumerate(t, MaxLevels) == [t];
      }
    }

    /**
     * The part of `Type.generate(type)` before the recursion: guess the declaration while
     * fewer than `MAX_GUESSED_DECLARATIONS` were, check it with `typedecl` while fewer than
     * `MAX_TYPEDECLS` were and there is one, print the block and count the type.
     */
    method EmitBlock(t: PyType)
      requires Valid() && GeneratedShape(t)
      modifies this
      ensures Valid()
      ensures State() == Step(t, old(State()))
      ensures generated == old(generated) + [t]
    {
      ShapeDeclarable(t);
      RunSnoc(generated, t, Initial);
      ghost var next := Step(t, State());
      var declared := guessedDeclarations < MaxGuessedDeclarations;
      var declaration: string;
      if declared {
        declaration := Declaration(Normalized(t));
        guessedDeclarations := guessedDeclarations + 1;
      } else {
        declaration := "?";
      }
      var checked := typedecls < MaxTypedecls && declaration != "?";
      if checked {
        typedecls := typedecls + 1;
      }
      emitted := emitted + [Emitted(t, Alias(t), Definition(t), Description(t), declaration, declared, checked)];
      totalTypes := totalTypes + 1;
      generated := generated + [t];
      assert State() == next;
    }

    /** `cls.generate_with_operand(operand)`: generate `cls(operand)` unless the pruning forbids it. */
    method GenerateWithOperand(k: Kind, operand: PyType)
      requires Valid() && GeneratedShape(operand) && Level(operand) < MaxLevels
      modifies this
      ensures Valid()
      ensures generated == old(generated) + Branch(operand, MaxLevels, IndexOfKind(k))
      decreases MaxLevels - Level(operand), 0
    {
      if CanWrap(k, operand) {
        CanWrapKeepsShape(k, operand);
        Generate(Wrap(k, operand));
      }
    }

    /** `BasicType.generate(token)`: the blocks of everything generated from the basic type. */
    method GenerateBasic(token: string)
      requires Valid()
      modifies this
      ensures Valid()
      ensures var ts := Enumerate(BasicType(token), MaxLevels);
              (forall i :: 0 <= i < |ts| ==> GeneratedShape(ts[i])) &&
              State() == Run(ts, old(State()))
    {
      Generate(BasicType(token));
      RunAppend(old(generated), Enumerate(BasicType(token), MaxLevels), Initial);
    }
  }

  /** A valid generator's counters agree with what it printed. */
  lemma ValidIsConsistent(g: Generator)
    requires g.Valid()
    ensures Consistent(g.State())
  {
    RunConsistent(g.generated, Initial);
  }

  /** One more type: one more `Step`. */
  lemma RunSnoc(ts: seq<PyType>, t: PyType, out: Output)
    requires forall i :: 0 <= i < |ts| ==> GeneratedShape(ts[i])
    requires GeneratedShape(t)
    ensures forall i :: 0 <= i < |ts + [t]| ==> GeneratedShape((ts + [t])[i])
    ensures Run(ts + [t], out) == Step(t, Run(ts, out))
  {
    RunAppend(ts, [t], out);
    assert [t][1..] == [];
  }

  /** The six branches of the children, in `generate`'s order, after any earlier types. */
  lemma ChildrenInOrder(t: PyType, m: nat, before: seq<PyType>)
    requires Level(t) < m
    ensures before + Enumerate(t, m)
            == before + [t] + Branch(t, m, 0) + Branch(t, m, 1) + Branch(t, m, 2)
               + Branch(t, m, 3) + Branch(t, m, 4) + Branch(t, m, 5)
  {
    ChildrenStep(t, m, 0);
    ChildrenStep(t, m, 1);
    ChildrenStep(t, m, 2);
    ChildrenStep(t, m, 3);
    ChildrenStep(t, m, 4);
    ChildrenStep(t, m, 5);
    assert Children(t, m, 6) == [];
    ConcatChain(before, [t], Branch(t, m, 0), Branch(t, m, 1), Branch(t, m, 2), Branch(t, m, 3),
      Branch(t, m, 4), Branch(t, m, 5), Children(t, m, 0), Children(t, m, 1), Children(t, m, 2),
      Children(t, m, 3), Children(t, m, 4), Children(t, m, 5));
  }

  lemma ChildrenStep(t: PyType, m: nat, i: nat)
    requires Level(t) < m && i < 6
    ensures Children(t, m, i) == Branch(t, m, i) + Children(t, m, i + 1)
  {
  }

  /** Regrouping a chain of concatenations. */
  lemma ConcatChain<T>(p: seq<T>, h: seq<T>, b0: seq<T>, b1: seq<T>, b2: seq<T>, b3: seq<T>,
                       b4: seq<T>, b5: seq<T>, c0: seq<T>, c1: seq<T>, c2: seq<T>, c3: seq<T>,
                       c4: seq<T>, c5: seq<T>)
    requires c0 == b0 + c1 && c1 == b1 + c2 && c2 == b2 + c3 && c3 == b3 + c4 && c4 == b4 + c5
    requires c5 == b5 + []
    ensures p + (h + c0) == p + h + b0 + b1 + b2 + b3 + b4 + b5
  {
    assert c5 == b5;
  }

  /**
   * `main()`: generate from `BasicType('int')` and report the counters; with
   * `MAX_LEVELS == 2` that is seven types, each with a guessed declaration and a
   * `typedecl` assertion.
   */
  method RunMain() returns (totalTypes: nat, guessedDeclarations: nat, typedecls: nat)
    ensures totalTypes == 7 && guessedDeclarations == 7 && typedecls == 7
  {
    var generator := new Generator();
    generator.GenerateBasic("int");
    BasicCounters("int");
    totalTypes, guessedDeclarations, typedecls :=
      generator.totalTypes, generator.guessedDeclarations, generator.typedecls;
  }

  /** `BasicType.generate` with `MAX_LEVELS == 2` visits seven types. */
  lemma EnumerateBasicCount(token: string)
    ensures |Enumerate(BasicType(token), MaxLevels)| == 7
  {
    EnumerateBasic(token);
  }

  /**
   * The counters after `generate` of a basic type: seven types, seven guessed declarations,
   * seven `typedecl` checks (no declaration is `"?"` when the token does not start with `?`).
   */
  lemma BasicCounters(token: string)
    requires token != "" && token[0] != '?'
    ensures var ts := Enumerate(BasicType(token), MaxLevels);
            (forall i :: 0 <= i < |ts| ==> GeneratedShape(ts[i])) &&
            var out := Run(ts, Initial);
            out.totalTypes == 7 && out.guessedDeclarations == 7 && out.typedecls == 7
  {
    var b := BasicType(token);
    var ts := Enumerate(b, MaxLevels);
    EnumerateBasicCount(token);
    assert GeneratedShape(b);
    RunConsistent(ts, Initial);
    var e := Run(ts, Initial).emitted;
    forall i | 0 <= i < |e| ensures e[i].declaration != "?" {
      BlockOverBasic(token, e, ts, i);
    }
    AllReal(e);
  }

  /** Block `i` of the run over a basic type has a real declaration. */
  lemma BlockOverBasic(token: string, e: seq<Emitted>, ts: seq<PyType>, i: nat)
    requires token != "" && token[0] != '?'
    requires ts == Enumerate(BasicType(token), MaxLevels) && |ts| == 7 && |e| == 7 && i < 7
    requires EntryValid(e, i) && e[i].source == ts[i]
    ensures e[i].declaration != "?"
  {
    EnumerateSound(BasicType(token), MaxLevels, ts[i]);
    RealDeclarationOver(BasicType(token), e[i]);
  }

  /** A guessed declaration of a type over a token not starting with `?` is never `"?"`. */
  lemma RealDeclarationOver(b: PyType, x: Emitted)
    requires b.BasicType? && b.token != "" && b.token[0] != '?'
    requires Subterm(b, x.source) && GeneratedShape(x.source)
    requires x.declarationAsserted ==> Declarable(x.source) && x.declaration == Declaration(Normalized(x.source))
    requires x.declarationAsserted
    ensures x.declaration != "?"
  {
    var u := x.source;
    TokenOfSubterm(b, u);
    NormalizedSpec(u);
    DeclarationStartsWithToken(Normalized(u));
    assert Declaration(Normalized(u))[0] == b.token[0];
  }

  /** A type built over another has the same basic type. */
  lemma {:induction false} TokenOfSubterm(t: PyType, u: PyType)
    requires Subterm(t, u)
    ensures BaseToken(u) == BaseToken(t)
  {
    if u != t {
      TokenOfSubterm(t, u.operand);
    }
  }
}
