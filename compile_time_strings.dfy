/**
 * Model of the narrow-only `ctstring_impl` facility
 * (compile-time-strings/compile-time-strings.hpp).
 *
 * `ctstring_impl<c, chars...>` is a type-level list of `char` constants; here it is the
 * matching cons list. `ctstring<P>` always scans the provider for its first `'\0'`, and
 * `concat` also accepts zero operands.
 */
module CompileTimeStrings {
  import opened Wrappers

  /** `ctstring_impl<>` and `ctstring_impl<c, chars...>`. */
  datatype CtString = Nil | Cons(head: char, tail: CtString)

  /** The `size` enumerator: 0, or 1 + the number of remaining constants. */
  function Size(s: CtString): nat {
    match s
    case Nil => 0
    case Cons(_, tail) => 1 + Size(tail)
  }

  /** `string()`: `""`, or `c` prepended to the string of the remaining constants. */
  function ToString(s: CtString): string {
    match s
    case Nil => ""
    case Cons(c, tail) => [c] + ToString(tail)
  }

  /** The list holding the given characters in order. */
  function FromSeq(cs: seq<char>): (s: CtString)
    ensures ToString(s) == cs
  {
    if cs == [] then Nil else Cons(cs[0], FromSeq(cs[1..]))
  }

  /** The materialised string has exactly `size` characters. */
  lemma {:induction false} SizeIsLength(s: CtString)
    ensures |ToString(s)| == Size(s)
  {
    match s
    case Nil =>
    case Cons(_, tail) => SizeIsLength(tail);
  }

  /** The list is determined by its string: `string()` loses nothing. */
  lemma {:induction false} ToStringInjective(s: CtString, t: CtString)
    requires ToString(s) == ToString(t)
    ensures s == t
  {
    match s
    case Nil =>
    case Cons(c, tail) =>
      match t
      case Nil =>
      case Cons(d, tail2) =>
        assert ToString(s)[0] == c && ToString(t)[0] == d;
        assert ToString(tail) == ToString(s)[1..] && ToString(tail2) == ToString(t)[1..];
        ToStringInjective(tail, tail2);
  }

  /** `ctstring_impl<chars1..., chars2...>`: the two packs joined. */
  function Append(a: CtString, b: CtString): CtString {
    match a
    case Nil => b
    case Cons(c, tail) => Cons(c, Append(tail, b))
  }

  /** Joining the packs joins the strings and adds the sizes. */
  lemma {:induction false} AppendSpec(a: CtString, b: CtString)
    ensures ToString(Append(a, b)) == ToString(a) + ToString(b)
    ensures Size(Append(a, b)) == Size(a) + Size(b)
  {
    match a
    case Nil =>
    case Cons(c, tail) =>
      AppendSpec(tail, b);
      assert [c] + (ToString(tail) + ToString(b)) == ([c] + ToString(tail)) + ToString(b);
  }

  /**
   * `make_ctstring<P, len, chars...>`: prepend `str()[len - 1]` to the pack and recurse down
   * to `len == 0`. A `len` past the provider's array is a read outside it, which is refused
   * before this is reached.
   */
  function MakeCtString(buffer: seq<char>, len: nat, acc: CtString): (s: CtString)
    requires len <= |buffer|
    ensures ToString(s) == buffer[..len] + ToString(acc)
    decreases len
  {
    if len == 0 then acc
    else
      var s := MakeCtString(buffer, len - 1, Cons(buffer[len - 1], acc));
      assert buffer[..len - 1] + [buffer[len - 1]] == buffer[..len];
      s
  }

  /**
   * `__impl::str_length`: the offset of the first `'\0'`. A buffer without one makes the
   * scan read past the array, which is not a constant expression.
   */
  function StrLength(buffer: seq<char>): (r: Option<nat>)
    ensures r.None? <==> '\0' !in buffer
    ensures r.Some? ==> r.value < |buffer| && buffer[r.value] == '\0'
    ensures r.Some? ==> forall i :: 0 <= i < r.value ==> buffer[i] != '\0'
  {
    if buffer == [] then None
    else if buffer[0] == '\0' then Some(0)
    else
      match StrLength(buffer[1..])
      case None => None
      case Some(n) => Some(1 + n)
  }

  /**
   * `ctstring<P>` for a provider whose `str()` points into `buffer`: always the scanned
   * length, so the content stops at the first `'\0'`; there is no explicit-length path.
   */
  function CtStringOf(buffer: seq<char>): Option<CtString> {
    match StrLength(buffer)
    case None => None
    case Some(n) => Some(MakeCtString(buffer, n, Nil))
  }

  /**
   * `ctstring<P>` exists exactly when the buffer holds a `'\0'`; its string is the part of
   * the buffer before the first one, so it never contains `'\0'`.
   */
  lemma CtStringOfSpec(buffer: seq<char>)
    ensures CtStringOf(buffer).Some? <==> '\0' in buffer
    ensures CtStringOf(buffer).Some? ==>
              var str := ToString(CtStringOf(buffer).value);
              '\0' !in str && str + ['\0'] == buffer[..|str| + 1]
  {
    if CtStringOf(buffer).Some? {
      var n := StrLength(buffer).value;
      assert ToString(CtStringOf(buffer).value) == buffer[..n];
      assert buffer[..n + 1] == buffer[..n] + ['\0'];
    }
  }

  /**
   * `concat<CTStrings...>`: `concat<>` is `ctstring_impl<>`, `concat<X>` is `X`, and
   * `concat<A, B, rest...>` is `concat<A ++ B, rest...>`.
   */
  function Concat(operands: seq<CtString>): CtString
    decreases |operands|
  {
    if |operands| == 0 then Nil
    else if |operands| == 1 then operands[0]
    else Concat([Append(operands[0], operands[1])] + operands[2..])
  }

  /** The strings of the operands joined in argument order. */
  function JoinStrings(operands: seq<CtString>): string {
    if operands == [] then "" else ToString(operands[0]) + JoinStrings(operands[1..])
  }

  /** The sum of the operands' sizes. */
  function TotalSize(operands: seq<CtString>): nat {
    if operands == [] then 0 else Size(operands[0]) + TotalSize(operands[1..])
  }

  lemma {:induction false} JoinStringsLength(operands: seq<CtString>)
    ensures |JoinStrings(operands)| == TotalSize(operands)
  {
    if operands != [] {
      SizeIsLength(operands[0]);
      JoinStringsLength(operands[1..]);
    }
  }

  /** `concat` holds every operand's constants in argument order; sizes add up. */
  lemma {:induction false} ConcatSpec(operands: seq<CtString>)
    ensures ToString(Concat(operands)) == JoinStrings(operands)
    ensures Size(Concat(operands)) == TotalSize(operands)
    decreases |operands|
  {
    if |operands| == 1 {
      assert JoinStrings(operands) == ToString(operands[0]) + JoinStrings([]);
      assert TotalSize(operands) == Size(operands[0]) + TotalSize([]);
    } else if |operands| > 1 {
      var merged := Append(operands[0], operands[1]);
      var next := [merged] + operands[2..];
      ConcatSpec(next);
      AppendSpec(operands[0], operands[1]);
      assert next[1..] == operands[2..] && operands[1..][1..] == operands[2..];
      assert JoinStrings(next) == JoinStrings(operands);
      assert TotalSize(next) == TotalSize(operands);
    }
  }

  /** The zero- and one-operand cases. */
  lemma ConcatBaseCases(a: CtString)
    ensures Concat([]) == Nil && ToString(Concat([])) == "" && Size(Concat([])) == 0
    ensures Concat([a]) == a
  {
  }

  lemma {:induction false} AppendAssociative(a: CtString, b: CtString, c: CtString)
    ensures Append(Append(a, b), c) == Append(a, Append(b, c))
  {
    match a
    case Nil =>
    case Cons(_, tail) => AppendAssociative(tail, b, c);
  }

  /** Nested and flat concatenations of three operands agree. */
  lemma ConcatAssociative(a: CtString, b: CtString, c: CtString)
    ensures Concat([Concat([a, b]), c]) == Concat([a, b, c])
    ensures Concat([a, Concat([b, c])]) == Concat([a, b, c])
  {
    assert [a, b, c][2..] == [c] && [a, b][2..] == [] && [b, c][2..] == [];
    assert [Append(a, b)] + [c] == [Append(a, b), c];
    AppendAssociative(a, b, c);
  }

  /** test-compile-time-strings.cpp: the provider `EMPTY`. */
  lemma TestEmptyProvider()
    ensures CtStringOf("\0") == Some(Nil)
  {
    ScanLiteral("");
    assert "" + "\0" == "\0";
  }

  /** test-compile-time-strings.cpp: the provider `Hello`. */
  lemma TestHelloProvider()
    ensures var h := CtStringOf("Hello \0"); h.Some? && Size(h.value) == 6 && ToString(h.value) == "Hello "
  {
    ScanLiteral("Hello ");
    assert "Hello " + "\0" == "Hello \0";
  }

  /** test-compile-time-strings.cpp: the provider `World`. */
  lemma TestWorldProvider()
    ensures var w := CtStringOf("World\0"); w.Some? && Size(w.value) == 5 && ToString(w.value) == "World"
  {
    ScanLiteral("World");
    assert "World" + "\0" == "World\0";
  }

  /** test-compile-time-strings.cpp: `concat<H, W>`, `concat<H, W, !>` and `concat<>`. */
  lemma TestConcat()
    ensures var hw := Concat([FromSeq("Hello "), FromSeq("World")]);
            Size(hw) == 11 && ToString(hw) == "Hello World"
    ensures var x := Concat([FromSeq("Hello "), FromSeq("World"), FromSeq("!")]);
            Size(x) == 12 && ToString(x) == "Hello World!"
    ensures Size(Concat([])) == 0 && ToString(Concat([])) == ""
  {
    var h, w, e := FromSeq("Hello "), FromSeq("World"), FromSeq("!");
    ConcatSpec([h, w]);
    ConcatSpec([h, w, e]);
    assert [h, w][1..] == [w] && [h, w, e][1..] == [w, e] && [w, e][1..] == [e];
    assert JoinStrings([e]) == "!" && JoinStrings([w]) == "World";
    assert JoinStrings([w, e]) == "World!";
    assert JoinStrings([h, w]) == "Hello World";
    assert JoinStrings([h, w, e]) == "Hello World!";
    SizeIsLength(Concat([h, w]));
    SizeIsLength(Concat([h, w, e]));
  }

  /** The scan stops at the first `'\0'`, wherever it is. */
  lemma StrLengthIs(buffer: seq<char>, n: nat)
    requires n < |buffer| && buffer[n] == '\0'
    requires forall i :: 0 <= i < n ==> buffer[i] != '\0'
    ensures StrLength(buffer) == Some(n)
  {
  }

  /** A provider literal without an embedded `'\0'` gives exactly its characters. */
  lemma ScanLiteral(text: string)
    requires '\0' !in text
    ensures CtStringOf(text + "\0") == Some(FromSeq(text))
    ensures Size(FromSeq(text)) == |text|
  {
    var buffer := text + "\0";
    StrLengthIs(buffer, |text|);
    assert buffer[..|text|] == text;
    var s := MakeCtString(buffer, |text|, Nil);
    assert ToString(s) == text;
    ToStringInjective(s, FromSeq(text));
    SizeIsLength(s);
  }
}
