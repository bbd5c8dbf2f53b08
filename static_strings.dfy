/**
 * Model of the `static_string` facility (static-strings/static-strings.hpp) and of the
 * behaviour its tests assert (static-strings/test-static-strings.cpp).
 *
 * A `static_string<Char, c0, ..., cn-1>` is a compile-time list of units of one character
 * type. Here it is a value holding the character type and the sequence of unit codes.
 * Everything the C++ compiler rejects while building a type (no terminator to scan for, a
 * read past the provider's buffer, a unit that does not survive the `char...` pack, no
 * operand, operands of different character types) is a `Failure` of the model.
 */
module StaticStrings {
  import opened Wrappers

  /** The unit types a sequence or a provider may use (the template parameter `Char`). */
  datatype CharType = Char | WChar | Char16 | Char32

  /** The runtime string types `std::basic_string<Char>`. */
  datatype StringType = String | WString | U16String | U32String

  /** The `string_type` alias: `std::basic_string` of the unit type. */
  function StringTypeOf(ct: CharType): StringType {
    match ct
    case Char => String
    case WChar => WString
    case Char16 => U16String
    case Char32 => U32String
  }

  /** Range of `char`, taken as signed 8-bit (its signedness is implementation-defined). */
  const CharMin: int := -128
  const CharMax: int := 127

  /** The values a unit of type `ct` can hold (`wchar_t` taken as signed 32-bit). */
  predicate InRange(ct: CharType, u: int) {
    match ct
    case Char => CharMin <= u <= CharMax
    case WChar => -0x8000_0000 <= u < 0x8000_0000
    case Char16 => 0 <= u < 0x1_0000
    case Char32 => 0 <= u < 0x1_0000_0000
  }

  /** A unit that can be a template argument of type `char` without narrowing. */
  predicate FitsInChar(u: int) {
    CharMin <= u <= CharMax
  }

  /** Why the compiler refuses to build a sequence. */
  datatype BuildError =
    | NoTerminator       // the length scan ran off the provider's buffer
    | ReadPastBuffer     // `str()[len - 1]` lies outside the provider's buffer
    | UnitNotChar        // a unit does not fit the `char...` pack of `build_from_provider`
    | NoOperands         // `concat<>` has no definition
    | CharTypeMismatch   // no `concat` specialisation matches operands of two unit types

  /** `static_string<Char, units...>`. */
  datatype StaticString = StaticString(charType: CharType, units: seq<int>)

  /** Every unit is a value of the sequence's unit type. */
  predicate WellFormed(s: StaticString) {
    forall i :: 0 <= i < |s.units| ==> InRange(s.charType, s.units[i])
  }

  /** `static_string<Char>`, the specialisation without units. */
  function Empty(ct: CharType): StaticString {
    StaticString(ct, [])
  }

  /** The `size` enumerator. */
  function Size(s: StaticString): nat {
    |s.units|
  }

  /** `char_at<i>::value`: the unit at position `i`; a position past the end is refused. */
  function CharAt(s: StaticString, i: nat): int
    requires i < Size(s)
  {
    s.units[i]
  }

  /** `static_string<Char, chars...>` left after peeling the first unit `c`. */
  function Rest(s: StaticString): StaticString
    requires Size(s) > 0
  {
    StaticString(s.charType, s.units[1..])
  }

  // ---------------------------------------------------------------------------
  // Materialisation: `string()` and `append_to`
  // ---------------------------------------------------------------------------

  /** A value of `string_type`. */
  datatype RuntimeString = RuntimeString(stringType: StringType, units: seq<int>)

  /**
   * `append_to(string)`: `string += c` for each unit, first to last, onto the buffer the
   * caller passes in; nothing already in the buffer changes.
   */
  method AppendTo(s: StaticString, buffer: seq<int>) returns (result: seq<int>)
    ensures |result| == |buffer| + Size(s)
    ensures result[..|buffer|] == buffer
    ensures forall i :: 0 <= i < Size(s) ==> result[|buffer| + i] == CharAt(s, i)
  {
    result := buffer;
    var k := 0;
    while k < |s.units|
      invariant 0 <= k <= |s.units|
      invariant result == buffer + s.units[..k]
    {
      result := result + [s.units[k]];
      k := k + 1;
    }
  }

  /**
   * `string()`: a fresh runtime string of the matching type holding exactly `size` units,
   * the i-th being `char_at<i>`; embedded zero units are kept and no terminator is added.
   */
  method Materialize(s: StaticString) returns (r: RuntimeString)
    ensures r.stringType == StringTypeOf(s.charType)
    ensures |r.units| == Size(s)
    ensures forall i :: 0 <= i < Size(s) ==> r.units[i] == CharAt(s, i)
  {
    var units := AppendTo(s, []);
    r := RuntimeString(StringTypeOf(s.charType), units);
  }

  // ---------------------------------------------------------------------------
  // Search: `find<c>` and `NOT_FOUND`
  // ---------------------------------------------------------------------------

  /** `NOT_FOUND`: `size_t(-1)`, which no position reaches. */
  const NotFound: int := -1

  /**
   * `find<c>::value`: the lowest position holding `c`, `NOT_FOUND` when there is none.
   * Peels one unit at a time, as a type-level search does.
   */
  function Find(s: StaticString, c: int): (r: int)
    ensures r == NotFound || 0 <= r < Size(s)
    ensures r != NotFound ==> CharAt(s, r) == c && forall j :: 0 <= j < r ==> CharAt(s, j) != c
    ensures r == NotFound <==> c !in s.units
    decreases |s.units|
  {
    if Size(s) == 0 then NotFound
    else if s.units[0] == c then 0
    else
      var k := Find(Rest(s), c);
      if k == NotFound then NotFound
      else
        assert forall j :: 1 <= j <= k ==> CharAt(s, j) == CharAt(Rest(s), j - 1);
        k + 1
  }

  /** The contract of `Find` determines it: the first position holding `c` is the answer. */
  lemma FindFirst(s: StaticString, c: int, k: nat)
    requires k < Size(s) && CharAt(s, k) == c
    requires forall j :: 0 <= j < k ==> CharAt(s, j) != c
    ensures Find(s, c) == k
  {
    assert s.units[k] == c;
  }

  // ---------------------------------------------------------------------------
  // Providers and length resolution
  // ---------------------------------------------------------------------------

  /**
   * A provider: the unit type of `str()`, the array `str()` points into (a string literal,
   * terminating zero included) and the value of a `size` enumerator if it declares one.
   */
  datatype Provider = Provider(charType: CharType, buffer: seq<int>, declaredSize: Option<int>)

  predicate ProviderWellFormed(p: Provider) {
    forall i :: 0 <= i < |p.buffer| ==> InRange(p.charType, p.buffer[i])
  }

  /**
   * `has_size`: the probe forms `int(*)[T::size]`, which is a type only for a positive
   * bound; a size of zero (or below) is a deduction failure and counts as absent.
   */
  predicate HasSize(p: Provider) {
    p.declaredSize.Some? && p.declaredSize.value > 0
  }

  /**
   * `size_for<P, false>::str_length`: the offset of the first zero unit. Reading past the
   * end of the array is not a constant expression, so a buffer without zero fails.
   */
  function StrLength(buffer: seq<int>): (r: Option<nat>)
    ensures r.None? <==> 0 !in buffer
    ensures r.Some? ==> r.value < |buffer| && buffer[r.value] == 0
    ensures r.Some? ==> forall i :: 0 <= i < r.value ==> buffer[i] != 0
  {
    if buffer == [] then None
    else if buffer[0] == 0 then Some(0)
    else
      match StrLength(buffer[1..])
      case None => None
      case Some(n) => Some(1 + n)
  }

  /** `size_for<P>::value`: the declared size when `has_size` detects it, else the scan. */
  function SizeFor(p: Provider): Option<nat> {
    if HasSize(p) then Some(p.declaredSize.value as nat) else StrLength(p.buffer)
  }

  /** The `len` `from_provider` uses: the explicit argument if given, else `size_for`. */
  function ResolvedLength(p: Provider, explicitLen: Option<nat>): Option<nat> {
    if explicitLen.Some? then explicitLen else SizeFor(p)
  }

  /**
   * `build_from_provider<P, len, Char, chars...>`: prepend `str()[len - 1]` to the pack
   * and recurse down to `len == 0`, where the pack becomes a `static_string`. Every unit
   * passes through the `char...` pack, so every unit used must fit in `char`.
   */
  function BuildFromProvider(buffer: seq<int>, len: nat, ct: CharType, acc: seq<int>): (s: StaticString)
    requires len <= |buffer|
    requires forall i :: 0 <= i < len ==> FitsInChar(buffer[i])
    ensures s.charType == ct
    ensures s.units == buffer[..len] + acc
    decreases len
  {
    if len == 0 then StaticString(ct, acc)
    else BuildFromProvider(buffer, len - 1, ct, [buffer[len - 1]] + acc)
  }

  /** Whether the first `len` units of the buffer all fit in `char`. */
  predicate PrefixFitsInChar(buffer: seq<int>, len: nat)
    requires len <= |buffer|
  {
    forall i :: 0 <= i < len ==> FitsInChar(buffer[i])
  }

  /** `from_provider<P>` (`explicitLen == None`) and `from_provider<P, len>`. */
  function FromProvider(p: Provider, explicitLen: Option<nat>): (r: Result<StaticString, BuildError>)
    requires ProviderWellFormed(p)
    ensures r.Success? ==> r.value.charType == p.charType && WellFormed(r.value)
  {
    var len := ResolvedLength(p, explicitLen);
    if len.None? then Failure(NoTerminator)
    else if len.value > |p.buffer| then Failure(ReadPastBuffer)
    else if !PrefixFitsInChar(p.buffer, len.value) then Failure(UnitNotChar)
    else Success(BuildFromProvider(p.buffer, len.value, p.charType, []))
  }

  /** An explicit length is used verbatim, embedded zero units included. */
  lemma FromProviderExplicitLength(p: Provider, len: nat)
    requires ProviderWellFormed(p)
    requires len <= |p.buffer| && PrefixFitsInChar(p.buffer, len)
    ensures FromProvider(p, Some(len)) == Success(StaticString(p.charType, p.buffer[..len]))
  {
    assert p.buffer[..len] + [] == p.buffer[..len];
  }

  /** An explicit length past the provider's array is refused. */
  lemma FromProviderPastBuffer(p: Provider, len: nat)
    requires ProviderWellFormed(p)
    requires len > |p.buffer|
    ensures FromProvider(p, Some(len)) == Failure(ReadPastBuffer)
  {
  }

  /** With a positive declared size and no explicit length, the declared size is used. */
  lemma FromProviderDeclaredSize(p: Provider)
    requires ProviderWellFormed(p) && HasSize(p)
    requires p.declaredSize.value <= |p.buffer| && PrefixFitsInChar(p.buffer, p.declaredSize.value)
    ensures FromProvider(p, None) == Success(StaticString(p.charType, p.buffer[..p.declaredSize.value]))
  {
    assert p.buffer[..p.declaredSize.value] + [] == p.buffer[..p.declaredSize.value];
  }

  /**
   * With a positive declared size and no explicit length, the build succeeds exactly when the
   * declared size lies within the provider's array and every unit before it fits in `char`;
   * a size past the array reads `str()[size - 1]` outside it.
   */
  lemma FromProviderDeclaredOutcomes(p: Provider)
    requires ProviderWellFormed(p) && HasSize(p)
    ensures FromProvider(p, None).Success? <==>
              p.declaredSize.value <= |p.buffer| && PrefixFitsInChar(p.buffer, p.declaredSize.value)
    ensures p.declaredSize.value > |p.buffer| ==> FromProvider(p, None) == Failure(ReadPastBuffer)
    ensures p.declaredSize.value <= |p.buffer| && !PrefixFitsInChar(p.buffer, p.declaredSize.value) ==>
              FromProvider(p, None) == Failure(UnitNotChar)
  {
  }

  /**
   * Without a usable declared size the buffer is scanned: the build succeeds exactly when
   * the buffer holds a zero unit and every unit before the first one fits in `char`; the
   * sequence then holds those units, none of them zero, and the zero follows them. A unit
   * after the first zero is never read.
   */
  lemma FromProviderScanned(p: Provider)
    requires ProviderWellFormed(p) && !HasSize(p)
    ensures FromProvider(p, None).Success? <==>
              0 in p.buffer && PrefixFitsInChar(p.buffer, StrLength(p.buffer).value)
    ensures FromProvider(p, None) == Failure(NoTerminator) <==> 0 !in p.buffer
    ensures FromProvider(p, None) == Failure(UnitNotChar) <==>
              0 in p.buffer && !PrefixFitsInChar(p.buffer, StrLength(p.buffer).value)
    ensures FromProvider(p, None).Failure? ==> 0 !in p.buffer || exists i :: 0 <= i < |p.buffer| && !FitsInChar(p.buffer[i])
    ensures FromProvider(p, None).Success? ==>
              var s := FromProvider(p, None).value;
              0 !in s.units && s.units + [0] == p.buffer[..Size(s) + 1]
  {
    var n := StrLength(p.buffer);
    if n.Some? && !PrefixFitsInChar(p.buffer, n.value) {
      var i :| 0 <= i < n.value && !FitsInChar(p.buffer[i]);
      assert 0 <= i < |p.buffer| && !FitsInChar(p.buffer[i]);
    }
    if FromProvider(p, None).Success? {
      var s := FromProvider(p, None).value;
      assert p.buffer[..n.value + 1] == p.buffer[..n.value] + [0];
    }
  }

  /** A unit that does not fit in `char` but stands after the first zero does not stop the build. */
  lemma UnitAfterTerminatorIgnored()
    ensures var p := Provider(Char16, [104, 0, 300], None);
            ProviderWellFormed(p) && FromProvider(p, None) == Success(StaticString(Char16, [104]))
  {
    var p := Provider(Char16, [104, 0, 300], None);
    assert ProviderWellFormed(p);
    assert p.buffer[1..] == [0, 300];
    assert StrLength(p.buffer) == Some(1);
    assert PrefixFitsInChar(p.buffer, 1);
    assert BuildFromProvider(p.buffer, 1, Char16, []).units == p.buffer[..1] == [104];
  }

  /** A declared size of zero is not detected, so the buffer is scanned instead. */
  lemma ZeroDeclaredSizeIsScanned(p: Provider)
    requires p.declaredSize == Some(0)
    ensures SizeFor(p) == StrLength(p.buffer)
  {
  }

  // ---------------------------------------------------------------------------
  // Concatenation
  // ---------------------------------------------------------------------------

  /**
   * `concat<CTStrings...>`: one operand is returned as it is; two or more merge the first
   * two and recurse. There is no zero-operand case, and the two merged operands must
   * share their unit type.
   */
  function Concat(operands: seq<StaticString>): Result<StaticString, BuildError>
    decreases |operands|
  {
    if |operands| == 0 then Failure(NoOperands)
    else if |operands| == 1 then Success(operands[0])
    else if operands[0].charType != operands[1].charType then Failure(CharTypeMismatch)
    else Concat([StaticString(operands[0].charType, operands[0].units + operands[1].units)] + operands[2..])
  }

  /** All units of the operands, in argument order. */
  function AllUnits(operands: seq<StaticString>): seq<int> {
    if operands == [] then [] else operands[0].units + AllUnits(operands[1..])
  }

  /** The sum of the operands' sizes. */
  function TotalSize(operands: seq<StaticString>): nat {
    if operands == [] then 0 else Size(operands[0]) + TotalSize(operands[1..])
  }

  predicate SameCharType(operands: seq<StaticString>)
    requires |operands| > 0
  {
    forall i :: 0 <= i < |operands| ==> operands[i].charType == operands[0].charType
  }

  lemma {:induction false} AllUnitsLength(operands: seq<StaticString>)
    ensures |AllUnits(operands)| == TotalSize(operands)
  {
    if operands != [] {
      AllUnitsLength(operands[1..]);
    }
  }

  /**
   * `concat` succeeds exactly when there is an operand and all operands share one unit type;
   * it then holds all units in argument order and its size is the sum of the sizes.
   */
  lemma {:induction false} ConcatSpec(operands: seq<StaticString>)
    ensures Concat(operands).Success? <==> |operands| > 0 && SameCharType(operands)
    ensures |operands| == 0 ==> Concat(operands) == Failure(NoOperands)
    ensures Concat(operands).Failure? && |operands| > 0 ==> Concat(operands).error == CharTypeMismatch
    ensures Concat(operands).Success? ==>
              Concat(operands).value == StaticString(operands[0].charType, AllUnits(operands))
    ensures Concat(operands).Success? ==> Size(Concat(operands).value) == TotalSize(operands)
    decreases |operands|
  {
    AllUnitsLength(operands);
    if |operands| == 1 {
      assert AllUnits(operands) == operands[0].units + AllUnits([]);
    } else if |operands| > 1 {
      if operands[0].charType != operands[1].charType {
        assert !SameCharType(operands);
      } else {
        var merged := StaticString(operands[0].charType, operands[0].units + operands[1].units);
        var next := [merged] + operands[2..];
        ConcatSpec(next);
        assert next[1..] == operands[2..];
        assert operands[1..][1..] == operands[2..];
        assert AllUnits(next) == AllUnits(operands);
        assert SameCharType(next) <==> SameCharType(operands) by {
          if SameCharType(next) {
            forall i | 0 <= i < |operands| ensures operands[i].charType == operands[0].charType {
              if i >= 2 { assert operands[i] == next[i - 1]; }
            }
          }
          if SameCharType(operands) {
            forall i | 0 <= i < |next| ensures next[i].charType == next[0].charType {
              if i >= 1 { assert next[i] == operands[i + 1]; }
            }
          }
        }
      }
    }
  }

  /** Concatenation of one operand is the identity. */
  lemma ConcatOne(a: StaticString)
    ensures Concat([a]) == Success(a)
  {
  }

  /** An empty operand is neutral wherever it stands. */
  lemma ConcatEmptyNeutral(a: StaticString, b: StaticString)
    requires a.charType == b.charType
    ensures Concat([a, Empty(a.charType), b]) == Concat([a, b])
  {
    ConcatSpec([a, Empty(a.charType), b]);
    ConcatSpec([a, b]);
    assert AllUnits([a, Empty(a.charType), b]) == a.units + b.units by {
      assert [a, Empty(a.charType), b][1..] == [Empty(a.charType), b];
      assert [Empty(a.charType), b][1..] == [b];
    }
    assert AllUnits([a, b]) == a.units + b.units by {
      assert [a, b][1..] == [b];
    }
  }

  /** Nested and flat concatenations of three operands agree. */
  lemma ConcatAssociative(a: StaticString, b: StaticString, c: StaticString)
    requires a.charType == b.charType == c.charType
    ensures Concat([a, b]).Success? && Concat([b, c]).Success?
    ensures Concat([Concat([a, b]).value, c]) == Concat([a, b, c])
    ensures Concat([a, Concat([b, c]).value]) == Concat([a, b, c])
  {
    var ab := StaticString(a.charType, a.units + b.units);
    var bc := StaticString(a.charType, b.units + c.units);
    ConcatSpec([a, b]);
    ConcatSpec([b, c]);
    ConcatSpec([a, b, c]);
    ConcatSpec([ab, c]);
    ConcatSpec([a, bc]);
    assert [a, b, c][1..] == [b, c] && [b, c][1..] == [c] && [a, b][1..] == [b];
    assert [ab, c][1..] == [c] && [a, bc][1..] == [bc];
    assert AllUnits([a, b, c]) == a.units + b.units + c.units;
    assert AllUnits([ab, c]) == a.units + b.units + c.units;
    assert AllUnits([a, bc]) == a.units + (b.units + c.units);
  }

  /** Concatenation keeps the units in range of their type. */
  lemma {:induction false} ConcatWellFormed(operands: seq<StaticString>)
    requires forall i :: 0 <= i < |operands| ==> WellFormed(operands[i])
    ensures Concat(operands).Success? ==> WellFormed(Concat(operands).value)
    decreases |operands|
  {
    if |operands| > 1 && operands[0].charType == operands[1].charType {
      var a, b := operands[0], operands[1];
      var merged := StaticString(a.charType, a.units + b.units);
      assert WellFormed(a) && WellFormed(b);
      assert WellFormed(merged) by {
        forall i | 0 <= i < |merged.units| ensures InRange(merged.charType, merged.units[i]) {
          if i < |a.units| {
            assert merged.units[i] == a.units[i];
          } else {
            assert merged.units[i] == b.units[i - |a.units|];
          }
        }
      }
      var next := [merged] + operands[2..];
      forall i | 0 <= i < |next| ensures WellFormed(next[i]) {
        if i >= 1 { assert next[i] == operands[i + 1]; }
      }
      ConcatWellFormed(next);
    }
  }
}
