/** The cases of static-strings/test-static-strings.cpp, stated over the model. */
module StaticStringsTests {
  import opened Wrappers
  import opened StaticStrings

  /** The unit codes of a string literal's characters. */
  function Codes(s: string): (r: seq<int>)
    ensures |r| == |s|
    ensures forall i :: 0 <= i < |s| ==> r[i] == s[i] as int
  {
    seq(|s|, i requires 0 <= i < |s| => s[i] as int)
  }

  /** A provider whose `str()` returns the literal `text` (its terminating zero included). */
  function LiteralProvider(ct: CharType, text: string, declared: Option<int>): Provider {
    Provider(ct, Codes(text) + [0], declared)
  }

  /** A literal of ASCII characters without an embedded zero. */
  predicate PlainAscii(text: string) {
    forall i :: 0 <= i < |text| ==> 0 < text[i] as int < 128
  }

  /** Scanning a literal without embedded zero stops at its terminator. */
  lemma ScanLiteral(ct: CharType, text: string)
    requires PlainAscii(text)
    ensures ProviderWellFormed(LiteralProvider(ct, text, None))
    ensures FromProvider(LiteralProvider(ct, text, None), None) == Success(StaticString(ct, Codes(text)))
  {
    var p := LiteralProvider(ct, text, None);
    assert p.buffer[|text|] == 0;
    var n := StrLength(p.buffer);
    assert forall i :: 0 <= i < |text| ==> p.buffer[i] != 0;
    assert n.value == |text|;
    assert p.buffer[..|text|] == Codes(text);
    FromProviderExplicitLength(p, |text|);
  }

  /** testBuildingWithStringProviders: "" gives the empty sequence, "Hello" five units. */
  lemma BuildingWithStringProviders()
    ensures FromProvider(LiteralProvider(Char, "", None), None) == Success(Empty(Char))
    ensures FromProvider(LiteralProvider(Char, "Hello", None), None) == Success(StaticString(Char, Codes("Hello")))
  {
    ScanLiteral(Char, "");
    ScanLiteral(Char, "Hello");
  }

  /** testConcat: "Hello " with "World", with and without an empty operand between. */
  lemma ConcatHelloWorld()
    ensures Concat([StaticString(Char, Codes("Hello ")), StaticString(Char, Codes("World"))])
            == Success(StaticString(Char, Codes("Hello World")))
    ensures Concat([StaticString(Char, Codes("Hello ")), Empty(Char), StaticString(Char, Codes("World"))])
            == Success(StaticString(Char, Codes("Hello World")))
  {
    var hello, world := StaticString(Char, Codes("Hello ")), StaticString(Char, Codes("World"));
    ConcatSpec([hello, world]);
    assert [hello, world][1..] == [world];
    assert Codes("Hello ") + Codes("World") == Codes("Hello World");
    ConcatEmptyNeutral(hello, world);
  }

  /** testStringProviderWithExplicitSize: a declared size of 11 keeps the embedded zero. */
  lemma ExplicitSize()
    ensures FromProvider(LiteralProvider(Char, "Hello\0World", Some(11)), None)
            == Success(StaticString(Char, Codes("Hello") + [0] + Codes("World")))
    ensures FromProvider(LiteralProvider(Char, "Hello\0World", Some(11)), Some(7))
            == Success(StaticString(Char, Codes("Hello") + [0] + Codes("W")))
  {
    var p := LiteralProvider(Char, "Hello\0World", Some(11));
    assert p.buffer[..11] == Codes("Hello") + [0] + Codes("World");
    assert p.buffer[..7] == Codes("Hello") + [0] + Codes("W");
    FromProviderDeclaredSize(p);
    FromProviderExplicitLength(p, 7);
  }

  /** testCharTypes: the unit type and the string type follow the provider's unit type. */
  lemma CharTypes(ct: CharType)
    ensures FromProvider(LiteralProvider(ct, "World", None), None) == Success(StaticString(ct, Codes("World")))
    ensures StringTypeOf(Char) == String && StringTypeOf(WChar) == WString
    ensures StringTypeOf(Char16) == U16String && StringTypeOf(Char32) == U32String
  {
    ScanLiteral(ct, "World");
  }

  /** testCharAt: positions 0 to 4 of "Hello"; position 5 is refused by the precondition. */
  lemma CharAtHello()
    ensures var hello := StaticString(Char, Codes("Hello"));
            CharAt(hello, 0) == 'H' as int && CharAt(hello, 1) == 'e' as int &&
            CharAt(hello, 2) == 'l' as int && CharAt(hello, 3) == 'l' as int &&
            CharAt(hello, 4) == 'o' as int && Size(hello) == 5
  {
  }

  /** testFind: the empty sequence holds nothing. */
  lemma FindInEmpty()
    ensures Find(Empty(Char), 'a' as int) == NotFound
  {
  }

  /** The units of "abacab". */
  predicate IsAbacab(s: StaticString) {
    s.units == ['a' as int, 'b' as int, 'a' as int, 'c' as int, 'a' as int, 'b' as int]
  }

  /** testFind: in "abacab", 'a' is at 0, 'b' at 1, 'c' at 3, and there is no 'd'. */
  lemma FindAbacab(s: StaticString)
    requires IsAbacab(s)
    ensures Find(s, 'a' as int) == 0 && Find(s, 'b' as int) == 1
    ensures Find(s, 'c' as int) == 3 && Find(s, 'd' as int) == NotFound
  {
    FindInAbacab(s, 'a' as int, 0);
    FindInAbacab(s, 'b' as int, 1);
    FindInAbacab(s, 'c' as int, 3);
    NotInAbacab(s);
  }

  lemma FindInAbacab(s: StaticString, c: int, k: nat)
    requires IsAbacab(s)
    requires (k == 0 && c == 'a' as int) || (k == 1 && c == 'b' as int) || (k == 3 && c == 'c' as int)
    ensures Find(s, c) == k
  {
    FindFirst(s, c, k);
  }

  lemma NotInAbacab(s: StaticString)
    requires IsAbacab(s)
    ensures Find(s, 'd' as int) == NotFound
  {
    assert 'd' as int !in s.units;
  }

  /** testBuildingWithIndividualChars, and what `string()` gives for the other cases. */
  method Materializations() {
    var e := Materialize(Empty(Char));
    assert e == RuntimeString(String, []);

    var hello := Materialize(StaticString(Char, Codes("Hello")));
    assert hello.units == Codes("Hello");

    var embedded := Materialize(StaticString(Char, Codes("Hello") + [0] + Codes("World")));
    assert |embedded.units| == 11 && embedded.units[5] == 0;

    var wide := Materialize(StaticString(Char16, Codes("World")));
    assert wide.stringType == U16String && wide.units == Codes("World");
  }
}
