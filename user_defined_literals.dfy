/**
 * Model of the literal operators of user-defined-literals.cpp (user-defined literals are
 * described in section 2.14.8 of ISO/IEC 14882:2011): the `binary_literal` template fold
 * behind `_bULL` for numeric literals, the runtime `_bULL` loop for string literals, and the
 * `_s` operator.
 */
module UserDefinedLiterals {
  import opened Wrappers
  import CompileTimeStrings

  /** `unsigned long long` holds values modulo 2^64. */
  const Two64: nat := 0x1_0000_0000_0000_0000

  type ULongLong = x: nat | x < Two64

  /**
   * `(n << 1) | bit` on `unsigned long long`: the top bit is shifted out; the shifted value
   * is even, so or-ing the bit in adds it.
   */
  function ShiftIn(n: ULongLong, bit: nat): ULongLong
    requires bit <= 1
  {
    if n < Two64 / 2 then 2 * n + bit else 2 * n - Two64 + bit
  }

  predicate IsBinaryDigit(c: char) {
    c == '0' || c == '1'
  }

  /** `B - '0'` for a binary digit. */
  function DigitBit(c: char): (b: nat)
    requires IsBinaryDigit(c)
    ensures b <= 1
  {
    if c == '0' then 0 else 1
  }

  /**
   * The mathematical value of a string of binary digits, most significant first (a
   * character other than `'1'` counts as a zero digit; it is only applied to digits).
   */
  function BinaryValue(digits: seq<char>): nat {
    if digits == [] then 0
    else 2 * BinaryValue(digits[..|digits| - 1]) + (if digits[|digits| - 1] == '1' then 1 else 0)
  }

  /**
   * `binary_literal<N, BB...>::value`: `N` for no digits, otherwise the fold continues with
   * `(N << 1) | (B - '0')`. A character other than `'0'` or `'1'` (an `'_'` included) fires
   * the `static_assert`, which is `None` here.
   */
  function BinaryLiteral(n: ULongLong, digits: seq<char>): Option<ULongLong>
    decreases |digits|
  {
    if digits == [] then Some(n)
    else if !IsBinaryDigit(digits[0]) then None
    else BinaryLiteral(ShiftIn(n, DigitBit(digits[0])), digits[1..])
  }

  /** The digits of a string literal once the `'_'` separators are dropped. */
  function WithoutSeparators(s: seq<char>): seq<char> {
    if s == [] then []
    else (if s[0] == '_' then [] else [s[0]]) + WithoutSeparators(s[1..])
  }

  /** Dropping separators distributes over concatenation. */
  lemma {:induction false} WithoutSeparatorsAppend(a: seq<char>, b: seq<char>)
    ensures WithoutSeparators(a + b) == WithoutSeparators(a) + WithoutSeparators(b)
    decreases |a|
  {
    if a == [] {
      assert a + b == b;
    } else {
      assert (a + b)[1..] == a[1..] + b;
      WithoutSeparatorsAppend(a[1..], b);
    }
  }

  /** Appending digits shifts the value left by their number and adds their value. */
  lemma {:induction false} BinaryValueAppend(a: seq<char>, b: seq<char>)
    ensures BinaryValue(a + b) == BinaryValue(a) * Pow2(|b|) + BinaryValue(b)
    decreases |b|
  {
    if b == [] {
      assert a + b == a;
    } else {
      var pre, bit := b[..|b| - 1], if b[|b| - 1] == '1' then 1 else 0;
      assert (a + b)[..|a + b| - 1] == a + pre;
      BinaryValueAppend(a, pre);
      var va, vp, p := BinaryValue(a), BinaryValue(pre), Pow2(|pre|);
      assert BinaryValue(a + b) == 2 * BinaryValue(a + pre) + bit;
      assert BinaryValue(b) == 2 * vp + bit;
      assert Pow2(|b|) == 2 * p;
      ShiftedSum(va, vp, p, bit);
    }
  }

  lemma ShiftedSum(va: nat, vp: nat, p: nat, bit: nat)
    ensures 2 * (va * p + vp) + bit == va * (2 * p) + (2 * vp + bit)
  {
  }

  lemma SingleCharacter(c: char)
    ensures WithoutSeparators([c]) == if c == '_' then [] else [c]
    ensures BinaryValue([c]) == if c == '1' then 1 else 0
  {
    assert [c][..0] == [];
  }

  /** The characters the runtime `_bULL` accepts. */
  predicate IsBinaryOrSeparator(c: char) {
    IsBinaryDigit(c) || c == '_'
  }

  /** Shifting in a bit in 64 bits is shifting it in exactly and reducing modulo 2^64. */
  lemma ShiftInModulo(x: nat, bit: nat)
    requires bit <= 1
    ensures ShiftIn(x % Two64, bit) == (2 * x + bit) % Two64
  {
    var q, r := x / Two64, x % Two64;
    assert x == q * Two64 + r;
    assert 2 * x + bit == 2 * q * Two64 + (2 * r + bit);
    if r < Two64 / 2 {
      assert (2 * x + bit) % Two64 == 2 * r + bit;
    } else {
      assert 2 * x + bit == (2 * q + 1) * Two64 + (2 * r + bit - Two64);
      assert (2 * x + bit) % Two64 == 2 * r + bit - Two64;
    }
  }

  /**
   * `operator"" _bULL(s, sz)`: `'0'` shifts left, `'1'` shifts left and sets bit 0, `'_'` is
   * skipped, anything else throws "Not a binary digit". The value is the digits' value
   * modulo 2^64: bits shifted out at the top are lost.
   */
  method BinaryLiteralRuntime(s: seq<char>) returns (r: Result<ULongLong, string>)
    ensures r.Failure? <==> exists i :: 0 <= i < |s| && !IsBinaryOrSeparator(s[i])
    ensures r.Failure? ==> r.error == "Not a binary digit"
    ensures r.Success? ==> r.value == BinaryValue(WithoutSeparators(s)) % Two64
  {
    var value: ULongLong := 0;
    for i := 0 to |s|
      invariant forall j :: 0 <= j < i ==> IsBinaryOrSeparator(s[j])
      invariant value == BinaryValue(WithoutSeparators(s[..i])) % Two64
    {
      var ch := s[i];
      assert s[..i + 1] == s[..i] + [ch];
      if ch == '0' {
        DigitStep(s[..i], ch, value);
        value := ShiftIn(value, 0);
      } else if ch == '1' {
        DigitStep(s[..i], ch, value);
        value := ShiftIn(value, 1);
      } else if ch == '_' {
        SeparatorStep(s[..i]);
      } else {
        return Failure("Not a binary digit");
      }
    }
    assert s[..|s|] == s;
    return Success(value);
  }

  /** One digit more in the runtime loop: the value is shifted in, modulo 2^64. */
  lemma DigitStep(prefix: seq<char>, ch: char, value: ULongLong)
    requires IsBinaryDigit(ch)
    requires value == BinaryValue(WithoutSeparators(prefix)) % Two64
    ensures ShiftIn(value, DigitBit(ch)) == BinaryValue(WithoutSeparators(prefix + [ch])) % Two64
  {
    var digits := WithoutSeparators(prefix);
    WithoutSeparatorsAppend(prefix, [ch]);
    SingleCharacter(ch);
    assert WithoutSeparators(prefix + [ch]) == digits + [ch];
    BinaryValueAppend(digits, [ch]);
    assert Pow2(1) == 2;
    ShiftInModulo(BinaryValue(digits), DigitBit(ch));
  }

  /** A separator in the runtime loop leaves the digits as they were. */
  lemma SeparatorStep(prefix: seq<char>)
    ensures WithoutSeparators(prefix + ['_']) == WithoutSeparators(prefix)
  {
    WithoutSeparatorsAppend(prefix, ['_']);
    SingleCharacter('_');
    assert WithoutSeparators(prefix) + [] == WithoutSeparators(prefix);
  }

  /** Folding one more digit is one more `ShiftIn` of the result. */
  lemma {:induction false} BinaryLiteralSnoc(n: ULongLong, digits: seq<char>, d: char)
    requires IsBinaryDigit(d)
    ensures BinaryLiteral(n, digits + [d]) ==
              match BinaryLiteral(n, digits)
              case None => None
              case Some(v) => Some(ShiftIn(v, DigitBit(d)))
    decreases |digits|
  {
    if digits == [] {
      assert [d][1..] == [];
    } else {
      assert (digits + [d])[1..] == digits[1..] + [d];
      if IsBinaryDigit(digits[0]) {
        BinaryLiteralSnoc(ShiftIn(n, DigitBit(digits[0])), digits[1..], d);
      }
    }
  }

  /**
   * The template fold from 0 succeeds exactly on strings of binary digits, and then gives
   * their value modulo 2^64.
   */
  lemma {:induction false} BinaryLiteralSpec(digits: seq<char>)
    ensures BinaryLiteral(0, digits).Some? <==> forall i :: 0 <= i < |digits| ==> IsBinaryDigit(digits[i])
    ensures BinaryLiteral(0, digits).Some? ==> BinaryLiteral(0, digits).value == BinaryValue(digits) % Two64
    decreases |digits|
  {
    if digits != [] {
      var pre, d := digits[..|digits| - 1], digits[|digits| - 1];
      assert digits == pre + [d];
      BinaryLiteralSpec(pre);
      if IsBinaryDigit(d) {
        BinaryLiteralSnoc(0, pre, d);
        if BinaryLiteral(0, pre).Some? {
          ShiftInModulo(BinaryValue(pre), DigitBit(d));
        } else {
          var i :| 0 <= i < |pre| && !IsBinaryDigit(pre[i]);
          assert digits[i] == pre[i];
        }
      } else {
        BinaryLiteralRejects(0, digits, |digits| - 1);
      }
    }
  }

  /** A non-binary character anywhere makes the fold fail. */
  lemma {:induction false} BinaryLiteralRejects(n: ULongLong, digits: seq<char>, k: nat)
    requires k < |digits| && !IsBinaryDigit(digits[k])
    ensures BinaryLiteral(n, digits) == None
    decreases k
  {
    if k > 0 && IsBinaryDigit(digits[0]) {
      BinaryLiteralRejects(ShiftIn(n, DigitBit(digits[0])), digits[1..], k - 1);
    }
  }

  /**
   * On strings made only of `'0'` and `'1'` the runtime loop and the template fold agree:
   * the fold gives what `BinaryLiteralRuntime` promises.
   */
  lemma RuntimeAgreesWithTemplate(s: seq<char>)
    requires forall i :: 0 <= i < |s| ==> IsBinaryDigit(s[i])
    ensures WithoutSeparators(s) == s
    ensures BinaryLiteral(0, s) == Some(BinaryValue(s) % Two64)
  {
    NoSeparators(s);
    BinaryLiteralSpec(s);
  }

  lemma {:induction false} NoSeparators(s: seq<char>)
    requires forall i :: 0 <= i < |s| ==> s[i] != '_'
    ensures WithoutSeparators(s) == s
  {
    if s != [] {
      NoSeparators(s[1..]);
    }
  }

  /** The template form rejects a separator. */
  lemma TemplateRejectsSeparator()
    ensures BinaryLiteral(0, "1_0") == None
  {
    BinaryLiteralRejects(0, "1_0", 1);
  }

  /** The value of `n` zero digits after a one is 2^n. */
  lemma {:induction false} OneThenZeros(n: nat)
    ensures var digits := ['1'] + seq(n, _ => '0');
            (forall i :: 0 <= i < |digits| ==> IsBinaryDigit(digits[i])) &&
            BinaryValue(digits) == Pow2(n)
  {
    var digits := ['1'] + seq(n, _ => '0');
    if n > 0 {
      OneThenZeros(n - 1);
      assert digits[..|digits| - 1] == ['1'] + seq(n - 1, _ => '0');
    }
  }

  function Pow2(n: nat): nat {
    if n == 0 then 1 else 2 * Pow2(n - 1)
  }

  /** A one followed by 64 zeros shifts its only bit out of the 64-bit value. */
  lemma SixtyFiveDigitsWrapAround()
    ensures BinaryLiteral(0, ['1'] + seq(64, _ => '0')) == Some(0)
  {
    OneThenZeros(64);
    BinaryLiteralSpec(['1'] + seq(64, _ => '0'));
    assert Pow2(64) == Two64 by {
      Pow2Value(64);
    }
  }

  lemma {:induction false} Pow2Value(n: nat)
    requires n == 64
    ensures Pow2(n) == Two64
  {
    assert Pow2(0) == 1;
    assert Pow2(8) == 256;
    assert Pow2(16) == 65536;
    assert Pow2(32) == 0x1_0000_0000 by { Pow2Add(16, 16); }
    Pow2Add(32, 32);
  }

  lemma {:induction false} Pow2Add(a: nat, b: nat)
    ensures Pow2(a + b) == Pow2(a) * Pow2(b)
    decreases a
  {
    if a > 0 {
      Pow2Add(a - 1, b);
    }
  }

  /** The digits printed by `main`: `0101_b` is 5 and `10000000000_b` is 1024. */
  lemma TemplateExamples()
    ensures BinaryLiteral(0, "0101") == Some(5)
    ensures BinaryLiteral(0, "1111") == Some(15)
    ensures BinaryLiteral(0, "10000000000") == Some(1024)
  {
  }

  /**
   * `"1101_0100__0011_0001"_b`: every character is a digit or a separator, so the literal is
   * accepted, and the digits around the separators read 54321.
   */
  lemma RuntimeExample()
    ensures var s := "1101_0100__0011_0001";
            (forall i :: 0 <= i < |s| ==> IsBinaryOrSeparator(s[i])) &&
            BinaryValue(WithoutSeparators(s)) % Two64 == 54321
  {
    RuntimeExampleCharacters();
    RuntimeExampleSplits();
    RuntimeExampleValue("1101_0100__0011_0001");
  }

  lemma RuntimeExampleCharacters()
    ensures var s := "1101_0100__0011_0001";
            forall i :: 0 <= i < |s| ==> IsBinaryOrSeparator(s[i])
  {
  }

  lemma RuntimeExampleSplits()
    ensures "1101_0100__0011_0001" == "1101_0100_" + "_0011_0001"
  {
  }

  lemma RuntimeExampleValue(s: string)
    requires s == "1101_0100_" + "_0011_0001"
    ensures BinaryValue(WithoutSeparators(s)) % Two64 == 54321
  {
    SeparatorsExample();
    assert "11010100" + "00110001" == "1101010000110001";
    ValueExample();
  }

  /** The string literal `main` passes to `_b` comes back as 54321, without an exception. */
  method RuntimeLiteralExample() returns (r: Result<ULongLong, string>)
    ensures r == Success(54321)
  {
    RuntimeExample();
    r := BinaryLiteralRuntime("1101_0100__0011_0001");
  }

  lemma SeparatorsExample()
    ensures WithoutSeparators("1101_0100_" + "_0011_0001") == "11010100" + "00110001"
  {
    FirstHalf();
    SecondHalf();
    WithoutSeparatorsAppend("1101_0100_", "_0011_0001");
  }

  lemma FirstHalf()
    ensures WithoutSeparators("1101_0100_") == "11010100"
  {
    assert "1101_0100_" == "1101_" + "0100_";
    assert WithoutSeparators("1101_") == "1101";
    assert WithoutSeparators("0100_") == "0100";
    WithoutSeparatorsAppend("1101_", "0100_");
  }

  lemma SecondHalf()
    ensures WithoutSeparators("_0011_0001") == "00110001"
  {
    assert "_0011_0001" == "_0011" + "_0001";
    assert WithoutSeparators("_0011") == "0011";
    assert WithoutSeparators("_0001") == "0001";
    WithoutSeparatorsAppend("_0011", "_0001");
  }

  lemma ValueExample()
    ensures BinaryValue("1101010000110001") == 54321
  {
    var d1, d2, d3, d4 := "1101", "0100", "0011", "0001";
    assert "1101010000110001" == d1 + d2 + d3 + d4;
    NibbleValues();
    assert Pow2(4) == 16;
    BinaryValueAppend(d1, d2);
    BinaryValueAppend(d1 + d2, d3);
    BinaryValueAppend(d1 + d2 + d3, d4);
  }

  lemma NibbleValues()
    ensures BinaryValue("1101") == 13 && BinaryValue("0100") == 4
    ensures BinaryValue("0011") == 3 && BinaryValue("0001") == 1
  {
    assert "1101"[..3] == "110" && "110"[..2] == "11" && "11"[..1] == "1";
    assert "0100"[..3] == "010" && "010"[..2] == "01" && "01"[..1] == "0";
    assert "0011"[..3] == "001" && "001"[..2] == "00" && "00"[..1] == "0";
    assert "0001"[..3] == "000" && "000"[..2] == "00";
    SingleCharacter('0');
    SingleCharacter('1');
  }

  /** `operator"" _s(s, sz)`: `std::string(s, s + sz)`, exactly `sz` characters. */
  function StringLiteral(buffer: seq<char>, sz: nat): string
    requires sz <= |buffer|
  {
    buffer[..sz]
  }

  /** `std::string(const char*)`: the characters before the first `'\0'`. */
  function CString(buffer: seq<char>): Option<string> {
    match CompileTimeStrings.StrLength(buffer)
    case None => None
    case Some(n) => Some(buffer[..n])
  }

  /**
   * For a string literal `text` (its array is `text` plus a terminating `'\0'`, and `sz` is
   * `|text|`), `_s` keeps every character, embedded `'\0'` included, while the `const char*`
   * constructor stops at the first `'\0'`: it is shorter exactly when `text` holds one.
   */
  lemma StringLiteralKeepsZeros(text: string)
    ensures StringLiteral(text + "\0", |text|) == text
    ensures CString(text + "\0").Some?
    ensures |CString(text + "\0").value| <= |text|
    ensures |CString(text + "\0").value| < |text| <==> '\0' in text
  {
    var buffer := text + "\0";
    assert buffer[..|text|] == text;
    assert buffer[|text|] == '\0';
    var n := CompileTimeStrings.StrLength(buffer).value;
    if '\0' in text {
      var k :| 0 <= k < |text| && text[k] == '\0';
      assert buffer[k] == '\0';
    } else {
      assert forall i :: 0 <= i < |text| ==> buffer[i] != '\0';
    }
  }

  /** `"abc\0"_s` has length 4 where `std::string("abc\0")` has length 3. */
  lemma AbcExample()
    ensures |StringLiteral("abc\0\0", 4)| == 4
    ensures CString("abc\0\0") == Some("abc")
  {
    StringLiteralKeepsZeros("abc\0");
    assert "abc\0" + "\0" == "abc\0\0";
    CompileTimeStrings.StrLengthIs("abc\0\0", 3);
    assert "abc\0\0"[..3] == "abc";
  }
}
