/**
 * Model of typedecl/typedecl.hpp: `typedecl<T>()` spells a C++ type as a declaration
 * (the declarator syntax of clause 8 of ISO/IEC 14882:2011).
 *
 * Every `impl<...>::value(suffix)` returns one string concatenation and recurses on the
 * operand type with a longer suffix: the declarator is built from the outside in, so the
 * innermost (basic) type writes its name first and everything the outer layers added
 * follows it. Here `impl<T>` is `Value(T, suffix)` dispatched over a type tree.
 */
module TypeDecl {
  import opened Wrappers
  import Decimal

  /** A non-empty set of cv-qualifiers. */
  datatype CvQual = CvQual(isConst: bool, isVolatile: bool) {
    predicate Nonempty() {
      isConst || isVolatile
    }

    /** The qualifier words the `impl<const T>`, `impl<volatile T>` and `impl<const volatile T>` pass on. */
    function Spelling(): string
      requires Nonempty()
    {
      if isConst && isVolatile then "const volatile" else if isConst then "const" else "volatile"
    }

    /** Qualifying twice qualifies with both sets. */
    function Union(other: CvQual): CvQual {
      CvQual(isConst || other.isConst, isVolatile || other.isVolatile)
    }
  }

  const ConstQual := CvQual(true, false)
  const VolatileQual := CvQual(false, true)
  const ConstVolatileQual := CvQual(true, true)

  /**
   * The type trees: a type registered with `DEFINE_TYPEDECL` (its spelling is the macro
   * argument), a cv-qualified type, a pointer, lvalue and rvalue references, and arrays of
   * unknown and of known bound.
   */
  datatype CType =
    | Basic(name: string)
    | Cv(qual: CvQual, operand: CType)
    | Pointer(operand: CType)
    | LRef(operand: CType)
    | RRef(operand: CType)
    | UnsizedArray(operand: CType)
    | SizedArray(operand: CType, bound: nat)

  function Size(t: CType): nat {
    match t
    case Basic(_) => 1
    case Cv(_, x) => 1 + Size(x)
    case Pointer(x) => 1 + Size(x)
    case LRef(x) => 1 + Size(x)
    case RRef(x) => 1 + Size(x)
    case UnsizedArray(x) => 1 + Size(x)
    case SizedArray(x, _) => 1 + Size(x)
  }

  /**
   * `std::is_array<T>::value`. A cv-qualified array is an array too: C++ does not tell a
   * `const` array from an array of `const` elements.
   */
  predicate IsArray(t: CType) {
    t.UnsizedArray? || t.SizedArray? || (t.Cv? && (t.operand.UnsizedArray? || t.operand.SizedArray?))
  }

  /**
   * The element type of a cv-qualified array: the qualifiers move onto the element and join
   * any it already has (`const` on an array of `volatile int` is an array of
   * `const volatile int`, the type `impl<const volatile T[N]>` matches).
   */
  function QualifyElement(q: CvQual, element: CType): (r: CType)
    ensures Size(r) <= Size(element) + 1
  {
    if element.Cv? then Cv(q.Union(element.qual), element.operand) else Cv(q, element)
  }

  /**
   * The types some `impl<T>::value(suffix)` specialisation spells. A reference has no
   * `value(suffix)` (its `value()` takes no argument), so references appear only at the root
   * and are handled by `Typedecl`. A cv-qualifier applies to a registered type, a pointer or
   * an array; C++ has no cv-qualified cv-qualified type and ignores cv on references.
   */
  predicate Renderable(t: CType)
    decreases Size(t), 1
  {
    match t
    case Basic(_) => true
    case Cv(q, x) => CvRenderable(q, x)
    case Pointer(x) => Renderable(x)
    case UnsizedArray(x) => Renderable(x)
    case SizedArray(x, _) => Renderable(x)
    case _ => false
  }

  /** `Renderable` for `x` qualified by `q`. */
  predicate CvRenderable(q: CvQual, x: CType)
    decreases Size(x) + 1, 0
  {
    q.Nonempty() &&
    match x
    case Basic(_) => true
    case Pointer(_) => Renderable(x)
    case UnsizedArray(e) => Renderable(QualifyElement(q, e))
    case SizedArray(e, _) => Renderable(QualifyElement(q, e))
    case _ => false
  }

  /** The bound of a sized array, `"[" + std::to_string(N) + "]"`. */
  function Bound(n: nat): string {
    "[" + Decimal.NatString(n) + "]"
  }

  /** `parenthesize_if_array<T>::value(arg)`: parentheses around `arg` when `T` is an array. */
  function ParenthesizeIfArray(x: CType, arg: string): string {
    if IsArray(x) then "(" + arg + ")" else arg
  }

  /**
   * `impl<T>::value(suffix)`:
   * - `DEFINE_TYPEDECL(T)`: the name, then the suffix;
   * - cv on a registered type: the qualifiers, one space, the name, the suffix
   *   (`prefix_cv_qual_if_basictype<T, BASICTYPE>`);
   * - cv on a pointer: the qualifiers are put in front of the suffix, with no space
   *   (`prefix_cv_qual_if_basictype<T, COMPOSITION>`);
   * - cv on an array: an array of cv-qualified elements (the disambiguating `impl<const T[N]>`
   *   and similar specialisations);
   * - `impl<T*>`: `*` in front of the suffix, parenthesised when `T` is an array;
   * - `array_impl` and `sized_array_impl`: `[]` or `[N]` after the suffix.
   */
  function Value(t: CType, suffix: string): string
    requires Renderable(t)
    decreases Size(t), 1
  {
    match t
    case Basic(name) => name + suffix
    case Cv(q, x) => CvValue(q, x, suffix)
    case Pointer(x) => Value(x, ParenthesizeIfArray(x, "*" + suffix))
    case UnsizedArray(x) => Value(x, suffix + "[]")
    case SizedArray(x, n) => Value(x, suffix + Bound(n))
  }

  /** `Value` for `x` qualified by `q`. */
  function CvValue(q: CvQual, x: CType, suffix: string): string
    requires CvRenderable(q, x)
    decreases Size(x) + 1, 0
  {
    match x
    case Basic(name) => q.Spelling() + " " + name + suffix
    case Pointer(_) => Value(x, q.Spelling() + suffix)
    case UnsizedArray(e) => Value(QualifyElement(q, e), suffix + "[]")
    case SizedArray(e, n) => Value(QualifyElement(q, e), suffix + Bound(n))
  }

  /** The types `typedecl<T>()` accepts: a renderable type, or a reference to one. */
  predicate TypedeclDefined(t: CType) {
    match t
    case LRef(x) => Renderable(x)
    case RRef(x) => Renderable(x)
    case _ => Renderable(t)
  }

  /**
   * `typedecl<T>()`: `impl<T>::value()` with the empty suffix; `impl<T&>` and `impl<T&&>`
   * start from `&` or `&&`, parenthesised when `T` is an array.
   */
  function Typedecl(t: CType): string
    requires TypedeclDefined(t)
  {
    match t
    case LRef(x) => Value(x, ParenthesizeIfArray(x, "&"))
    case RRef(x) => Value(x, ParenthesizeIfArray(x, "&&"))
    case _ => Value(t, "")
  }

  // ---------------------------------------------------------------------------
  // The declarator read inside out
  // ---------------------------------------------------------------------------

  /**
   * What comes before the declarator's centre: the type's name (or its qualifiers and name),
   * then the pointer stars and opening parentheses from the inside out.
   */
  function Left(t: CType): string
    requires Renderable(t)
    decreases Size(t), 1
  {
    match t
    case Basic(name) => name
    case Cv(q, x) => CvLeft(q, x)
    case Pointer(x) => if IsArray(x) then Left(x) + "(*" else Left(x) + "*"
    case UnsizedArray(x) => Left(x)
    case SizedArray(x, _) => Left(x)
  }

  /** `Left` for `x` qualified by `q`. */
  function CvLeft(q: CvQual, x: CType): string
    requires CvRenderable(q, x)
    decreases Size(x) + 1, 0
  {
    match x
    case Basic(name) => q.Spelling() + " " + name
    case Pointer(_) => Left(x) + q.Spelling()
    case UnsizedArray(e) => Left(QualifyElement(q, e))
    case SizedArray(e, _) => Left(QualifyElement(q, e))
  }

  /** What comes after the declarator's centre: closing parentheses and array bounds. */
  function Right(t: CType): string
    requires Renderable(t)
    decreases Size(t), 1
  {
    match t
    case Basic(_) => ""
    case Cv(q, x) => CvRight(q, x)
    case Pointer(x) => if IsArray(x) then ")" + Right(x) else Right(x)
    case UnsizedArray(x) => "[]" + Right(x)
    case SizedArray(x, n) => Bound(n) + Right(x)
  }

  /** `Right` for `x` qualified by `q`. */
  function CvRight(q: CvQual, x: CType): string
    requires CvRenderable(q, x)
    decreases Size(x) + 1, 0
  {
    match x
    case Basic(_) => ""
    case Pointer(_) => Right(x)
    case UnsizedArray(e) => "[]" + Right(QualifyElement(q, e))
    case SizedArray(e, n) => Bound(n) + Right(QualifyElement(q, e))
  }

  /**
   * Threading the suffix inward places it at the declarator's centre: what the outer layers
   * pass down ends up between the left and the right part of the type's own spelling.
   */
  lemma {:induction false} ValueSplits(t: CType, suffix: string)
    requires Renderable(t)
    ensures Value(t, suffix) == Left(t) + suffix + Right(t)
    decreases Size(t), 2
  {
    match t
    case Basic(_) =>
    case Cv(q, x) =>
      CvValueSplits(q, x, suffix);
    case Pointer(x) =>
      PointerValueSplits(x, suffix);
    case UnsizedArray(x) =>
      ArrayValueSplits(x, None, suffix);
    case SizedArray(x, n) =>
      ArrayValueSplits(x, Some(n), suffix);
    case _ =>
  }

  /** `ValueSplits` for a pointer. */
  lemma {:induction false} PointerValueSplits(x: CType, suffix: string)
    requires Renderable(Pointer(x))
    ensures Value(Pointer(x), suffix) == Left(Pointer(x)) + suffix + Right(Pointer(x))
    decreases Size(x) + 1, 1
  {
    var arg := ParenthesizeIfArray(x, "*" + suffix);
    ValueSplits(x, arg);
    PointerRegroup(IsArray(x), Value(x, arg), Left(x), suffix, Right(x));
  }

  /** The pieces of `PointerValueSplits`, over plain strings. */
  lemma PointerRegroup(paren: bool, value: string, left: string, suffix: string, right: string)
    requires value == left + (if paren then "(" + ("*" + suffix) + ")" else "*" + suffix) + right
    ensures value == (if paren then left + "(*" else left + "*") + suffix + (if paren then ")" + right else right)
  {
    if paren {
      Regroup(left, "(*", suffix, ")", right);
    } else {
      Regroup(left, "*", suffix, "", right);
    }
  }

  /** `ValueSplits` for an array of unknown bound (`None`) or of bound `n`. */
  lemma {:induction false} ArrayValueSplits(x: CType, n: Option<nat>, suffix: string)
    requires Renderable(ArrayOf(x, n))
    ensures var t := ArrayOf(x, n); Value(t, suffix) == Left(t) + suffix + Right(t)
    decreases Size(x) + 1, 1
  {
    var bound := if n.None? then "[]" else Bound(n.value);
    ValueSplits(x, suffix + bound);
    Regroup(Left(x), "", suffix, bound, Right(x));
  }

  /** Regrouping the pieces around the centre of a split. */
  lemma Regroup(left: string, before: string, suffix: string, after: string, right: string)
    ensures left + (before + suffix + after) + right == (left + before) + suffix + (after + right)
    ensures before == "" ==> left + (suffix + after) + right == left + suffix + (after + right)
    ensures after == "" ==> left + (before + suffix) + right == (left + before) + suffix + right
  {
    if before == "" {
      assert before + suffix == suffix;
    }
    if after == "" {
      assert before + suffix + after == before + suffix;
      assert after + right == right;
    }
  }

  /** `ValueSplits` for a cv-qualified type. */
  lemma {:induction false} CvValueSplits(q: CvQual, x: CType, suffix: string)
    requires Renderable(Cv(q, x))
    ensures Value(Cv(q, x), suffix) == Left(Cv(q, x)) + suffix + Right(Cv(q, x))
    decreases Size(Cv(q, x)), 1
  {
    match x {
      case Basic(_) =>
      case Pointer(_) =>
        ValueSplits(x, q.Spelling() + suffix);
        SplitShift(Left(x), q.Spelling(), suffix, Right(x));
      case UnsizedArray(e) =>
        assert Size(Cv(q, x)) == Size(e) + 2;
        CvArraySplits(q, e, None, suffix);
      case SizedArray(e, n) =>
        assert Size(Cv(q, x)) == Size(e) + 2;
        CvArraySplits(q, e, Some(n), suffix);
    }
  }

  /** `ValueSplits` for a cv-qualified array, of unknown bound (`None`) or of bound `n`. */
  lemma {:induction false} CvArraySplits(q: CvQual, e: CType, n: Option<nat>, suffix: string)
    requires Renderable(Cv(q, ArrayOf(e, n)))
    ensures var t := Cv(q, ArrayOf(e, n)); Value(t, suffix) == Left(t) + suffix + Right(t)
    decreases Size(e) + 2, 0
  {
    var element := QualifyElement(q, e);
    var bound := if n.None? then "[]" else Bound(n.value);
    CvArrayParts(q, e, n, suffix);
    ValueSplits(element, suffix + bound);
    Regroup(Left(element), "", suffix, bound, Right(element));
  }

  /** One step of `Value`, `Left` and `Right` on a cv-qualified array. */
  lemma CvArrayParts(q: CvQual, e: CType, n: Option<nat>, suffix: string)
    requires Renderable(Cv(q, ArrayOf(e, n)))
    ensures Renderable(QualifyElement(q, e))
    ensures var element, bound := QualifyElement(q, e), if n.None? then "[]" else Bound(n.value);
            var t := Cv(q, ArrayOf(e, n));
            Value(t, suffix) == Value(element, suffix + bound) &&
            Left(t) == Left(element) && Right(t) == bound + Right(element)
  {
    if n.None? {
      assert ArrayOf(e, n) == UnsizedArray(e);
    } else {
      assert ArrayOf(e, n) == SizedArray(e, n.value);
    }
  }

  /** An array of `e` of unknown bound (`None`) or of bound `n`. */
  function ArrayOf(e: CType, n: Option<nat>): CType {
    if n.None? then UnsizedArray(e) else SizedArray(e, n.value)
  }

  /** Moving a piece across the centre of a split. */
  lemma SplitShift(left: string, piece: string, suffix: string, right: string)
    ensures left + (piece + suffix) + right == (left + piece) + suffix + right
  {
  }

  /** `typedecl<T>()` of a non-reference is the left part followed by the right part. */
  lemma TypedeclSplits(t: CType)
    requires Renderable(t)
    ensures Typedecl(t) == Left(t) + Right(t)
  {
    ValueSplits(t, "");
    assert Left(t) + "" == Left(t);
  }

  /**
   * A cv-qualified array is spelled as the array of cv-qualified elements: `const int[3]`
   * and `const (int[3])` are one type and one spelling.
   */
  lemma CvArrayIsArrayOfCv(q: CvQual, element: CType, n: nat, suffix: string)
    requires Renderable(Cv(q, SizedArray(element, n)))
    ensures Renderable(SizedArray(QualifyElement(q, element), n))
    ensures Value(Cv(q, SizedArray(element, n)), suffix) == Value(SizedArray(QualifyElement(q, element), n), suffix)
  {
  }

  // ---------------------------------------------------------------------------
  // Parentheses
  // ---------------------------------------------------------------------------

  /** The number of occurrences of `c` in `s`. */
  function Count(s: string, c: char): nat {
    if s == [] then 0 else (if s[0] == c then 1 else 0) + Count(s[1..], c)
  }

  lemma {:induction false} CountAppend(a: string, b: string, c: char)
    ensures Count(a + b, c) == Count(a, c) + Count(b, c)
    decreases |a|
  {
    if a == [] {
      assert a + b == b;
    } else {
      assert (a + b)[1..] == a[1..] + b;
      CountAppend(a[1..], b, c);
    }
  }

  lemma {:induction false} CountAbsent(s: string, c: char)
    requires forall i :: 0 <= i < |s| ==> s[i] != c
    ensures Count(s, c) == 0
    decreases |s|
  {
    if s != [] {
      CountAbsent(s[1..], c);
    }
  }

  /** The registered names of a type contain no parentheses. */
  predicate PlainNames(t: CType) {
    match t
    case Basic(name) => '(' !in name && ')' !in name
    case Cv(_, x) => PlainNames(x)
    case Pointer(x) => PlainNames(x)
    case LRef(x) => PlainNames(x)
    case RRef(x) => PlainNames(x)
    case UnsizedArray(x) => PlainNames(x)
    case SizedArray(x, _) => PlainNames(x)
  }

  lemma QualifyElementPlain(q: CvQual, e: CType)
    requires PlainNames(e)
    ensures PlainNames(QualifyElement(q, e))
  {
  }

  /** The number of pointers whose pointee is an array: each one needs a pair of parentheses. */
  function PointersToArrays(t: CType): nat
    requires Renderable(t)
    decreases Size(t), 1
  {
    match t
    case Basic(_) => 0
    case Cv(q, x) => CvPointersToArrays(q, x)
    case Pointer(x) => (if IsArray(x) then 1 else 0) + PointersToArrays(x)
    case UnsizedArray(x) => PointersToArrays(x)
    case SizedArray(x, _) => PointersToArrays(x)
  }

  /** `PointersToArrays` for `x` qualified by `q`. */
  function CvPointersToArrays(q: CvQual, x: CType): nat
    requires CvRenderable(q, x)
    decreases Size(x) + 1, 0
  {
    match x
    case Basic(_) => 0
    case Pointer(_) => PointersToArrays(x)
    case UnsizedArray(e) => PointersToArrays(QualifyElement(q, e))
    case SizedArray(e, _) => PointersToArrays(QualifyElement(q, e))
  }

  lemma BoundHasNoParentheses(n: nat)
    ensures Count(Bound(n), '(') == 0
    ensures Count(Bound(n), ')') == 0
  {
    var d := Decimal.NatString(n);
    CountAbsent("[" + d + "]", '(');
    CountAbsent("[" + d + "]", ')');
  }

  lemma SpellingHasNoParentheses(q: CvQual)
    requires q.Nonempty()
    ensures Count(q.Spelling(), '(') == 0 && Count(q.Spelling(), ')') == 0
  {
    CountAbsent(q.Spelling(), '(');
    CountAbsent(q.Spelling(), ')');
  }

  /**
   * All opening parentheses are on the left, all closing ones on the right, one pair for
   * each pointer to an array.
   */
  lemma {:induction false} ParenthesesBalance(t: CType)
    requires Renderable(t) && PlainNames(t)
    ensures Count(Left(t), '(') == PointersToArrays(t) && Count(Left(t), ')') == 0
    ensures Count(Right(t), ')') == PointersToArrays(t) && Count(Right(t), '(') == 0
    decreases Size(t), 1
  {
    match t {
      case Basic(name) =>
        CountAbsent(name, '(');
        CountAbsent(name, ')');
      case Cv(q, x) =>
        CvParentheses(q, x);
      case Pointer(x) =>
        ParenthesesBalance(x);
        if IsArray(x) {
          CountAppend(Left(x), "(*", '(');
          CountAppend(Left(x), "(*", ')');
          CountAppend(")", Right(x), '(');
          CountAppend(")", Right(x), ')');
        } else {
          CountAppend(Left(x), "*", '(');
          CountAppend(Left(x), "*", ')');
        }
      case UnsizedArray(x) =>
        ParenthesesBalance(x);
        CountAppend("[]", Right(x), '(');
        CountAppend("[]", Right(x), ')');
      case SizedArray(x, n) =>
        ParenthesesBalance(x);
        BoundHasNoParentheses(n);
        CountAppend(Bound(n), Right(x), '(');
        CountAppend(Bound(n), Right(x), ')');
    }
  }

  /** The qualified case of `ParenthesesBalance`. */
  lemma {:induction false} CvParentheses(q: CvQual, x: CType)
    requires Renderable(Cv(q, x)) && PlainNames(Cv(q, x))
    ensures Count(Left(Cv(q, x)), '(') == PointersToArrays(Cv(q, x)) && Count(Left(Cv(q, x)), ')') == 0
    ensures Count(Right(Cv(q, x)), ')') == PointersToArrays(Cv(q, x)) && Count(Right(Cv(q, x)), '(') == 0
    decreases Size(Cv(q, x)), 0
  {
    SpellingHasNoParentheses(q);
    match x {
      case Basic(name) =>
        CountAbsent(name, '(');
        CountAbsent(name, ')');
        CountAppend(q.Spelling() + " ", name, '(');
        CountAppend(q.Spelling() + " ", name, ')');
        CountAppend(q.Spelling(), " ", '(');
        CountAppend(q.Spelling(), " ", ')');
      case Pointer(_) =>
        ParenthesesBalance(x);
        CountAppend(Left(x), q.Spelling(), '(');
        CountAppend(Left(x), q.Spelling(), ')');
      case UnsizedArray(e) =>
        QualifyElementPlain(q, e);
        var element := QualifyElement(q, e);
        assert Size(element) < Size(Cv(q, x));
        ParenthesesBalance(element);
        CountAppend("[]", Right(element), '(');
        CountAppend("[]", Right(element), ')');
      case SizedArray(e, n) =>
        QualifyElementPlain(q, e);
        var element := QualifyElement(q, e);
        assert Size(element) < Size(Cv(q, x));
        ParenthesesBalance(element);
        BoundHasNoParentheses(n);
        CountAppend(Bound(n), Right(element), '(');
        CountAppend(Bound(n), Right(element), ')');
    }
  }

  /** `typedecl<T>()` of a non-reference holds as many `(` as `)`, one pair per pointer to an array. */
  lemma TypedeclParentheses(t: CType)
    requires Renderable(t) && PlainNames(t)
    ensures Count(Typedecl(t), '(') == PointersToArrays(t)
    ensures Count(Typedecl(t), ')') == PointersToArrays(t)
  {
    TypedeclSplits(t);
    ParenthesesBalance(t);
    CountAppend(Left(t), Right(t), '(');
    CountAppend(Left(t), Right(t), ')');
  }

  // ---------------------------------------------------------------------------
  // Examples
  // ---------------------------------------------------------------------------

  const Int := Basic("int")

  /** `DEFINE_TYPEDECL(int)` and cv on a registered type. */
  lemma BasicExamples()
    ensures Typedecl(Int) == "int"
    ensures Typedecl(Cv(ConstQual, Int)) == "const int"
    ensures Typedecl(Cv(VolatileQual, Int)) == "volatile int"
    ensures Typedecl(Cv(ConstVolatileQual, Int)) == "const volatile int"
  {
  }

  /** cv on a pointer goes into the declarator; a pointer to an array is parenthesised. */
  lemma PointerExamples()
    ensures Typedecl(Cv(ConstQual, Pointer(Int))) == "int*const"
    ensures Typedecl(Pointer(SizedArray(Int, 5))) == "int(*)[5]"
    ensures Typedecl(Pointer(Cv(ConstQual, Pointer(Int)))) == "int*const*"
  {
    assert Decimal.NatString(5) == "5";
  }

  /** References, and arrays of cv-qualified elements. */
  lemma ReferenceAndArrayExamples()
    ensures Typedecl(LRef(Basic("X"))) == "X&"
    ensures Typedecl(RRef(Basic("X"))) == "X&&"
    ensures Typedecl(LRef(SizedArray(Int, 3))) == "int(&)[3]"
    ensures Typedecl(Cv(ConstQual, SizedArray(Int, 3))) == "const int[3]"
    ensures Typedecl(SizedArray(SizedArray(Int, 3), 2)) == "int[2][3]"
  {
    ArrayExamples();
  }

  lemma ArrayExamples()
    ensures Typedecl(LRef(SizedArray(Int, 3))) == "int(&)[3]"
    ensures Typedecl(Cv(ConstQual, SizedArray(Int, 3))) == "const int[3]"
    ensures Typedecl(SizedArray(SizedArray(Int, 3), 2)) == "int[2][3]"
  {
    assert Bound(3) == "[3]" by {
      assert Decimal.NatString(3) == "3";
    }
    assert Bound(2) == "[2]" by {
      assert Decimal.NatString(2) == "2";
    }
  }
}
