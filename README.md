# C++11 compile-time strings, type declarations and binary literals, in Dafny

This project models the parts of the `c-plus-plus-11` examples repository that compute
something, and proves properties of the model:

- **`static_string`** (`static-strings/static-strings.hpp`). An immutable sequence of units of one
  character type, built from individual units or from a *string provider*. A provider is a
  type whose `str()` returns a buffer. Its length is, in this order of priority:
  - an explicit template argument;
  - the provider's own `size`;
  - the position of the first zero unit.

  Sequences are concatenated left to right and materialised into a `std::basic_string` by
  `string()`, which appends one unit at a time. `char_at` and `find`/`NOT_FOUND` have no
  definition in the header. They are modelled from the assertions of
  `static-strings/test-static-strings.cpp`.
- **`ctstring_impl`** (`compile-time-strings/compile-time-strings.hpp`). The older narrow-only
  compile-time string: a cons list of `char` constants, built from a provider up to its first
  `'\0'`, with a `concat` that also accepts zero operands.
- **`typedecl<T>()`** (`typedecl/typedecl.hpp`). Spells a C++ type as a declaration. The
  `impl<...>` specialisations thread a suffix inward through cv-qualifiers, pointers, references
  and arrays, and parenthesise a pointer or reference whose pointee is an array. This is the
  declarator syntax of clause 8 of ISO/IEC 14882:2011.
- **The declaration generator** (`type-names/array-decl/array_decl.py`). The same type trees
  as Python objects, with:
  - their declarations, descriptions and definitions;
  - the normalisation that moves `const` from an array onto its element;
  - the size rule of `SizedArray`;
  - the generator that enumerates trees under its pruning rules while counting what it
    printed.
- **User-defined literals** (`user-defined-literals.cpp`) of section 2.14.8 of
  ISO/IEC 14882:2011:
  - the `binary_literal` template fold behind `_bULL`;
  - the run-time `_bULL` loop, which skips `_` separators and throws on any other character;
  - `_s`, which keeps embedded zero characters.

## Project layout

- `wrappers.dfy`: `Option` and `Result`.
- `decimal.dfy`: the decimal spelling of `std::to_string` and of Python's `'%d'`, with its
  read-back round trip.
- `static_strings.dfy`: `StaticStrings`, the model of `static-strings.hpp`.
- `static_strings_tests.dfy`: `StaticStringsTests`, the cases of `test-static-strings.cpp`.
- `compile_time_strings.dfy`: `CompileTimeStrings`, with the cases of
  `test-compile-time-strings.cpp`.
- `typedecl.dfy`: `TypeDecl`.
- `array_decl.dfy`: `ArrayDecl`. This includes the `Generator` class, whose fields are the
  module-level counters of `array_decl.py` and the blocks it printed.
- `user_defined_literals.dfy`: `UserDefinedLiterals`.

### How the model relates to the code

- **Compile-time definitions.** Template specialisations and type-level recursion become
  functions over datatypes. Where the compiler would reject a program, the model does one of
  two things:
  - it gives a `Result` failure or `None` when the source handles the case by failing to
    build (no terminator, reading past the buffer, a unit that does not fit in `char`, no
    `concat` operands, mixed character types, a `static_assert` on a non-binary digit);
  - it uses a precondition when the test states that the use must not compile (`char_at<5>`
    on a five-unit string).
- **Imperative code.**
  - `append_to` becomes a method with a loop.
  - The run-time `_bULL` becomes a method with a `for` loop.
  - `Type.generate` becomes methods of the `Generator` class proved against the pure
    functions `Step`, `Run` and `Enumerate`.
- **`has_size`.** The probe forms `int(*)[T::size]`. A bound of zero or below is a deduction
  failure (section 14.8.2 paragraph 8 of ISO/IEC 14882:2011), so only a positive declared size
  counts. A provider that declares `size = 0` is scanned for its terminator.
- **`find`.** There is no implementation to follow. `NotFound` is `-1`, which is distinct from
  every position.
- **Typedecl.** Where the two renderers overlap (no `const`, no references below the root)
  `array_decl.py`'s `declaration()` and `typedecl<T>()` are proved to agree. With `const` they
  differ: Python writes `int const`, `typedecl` writes `const int`.
- **Definitions without a contract of their own.** These functions model the code directly
  and are specified by the lemmas about them:
  - `StaticStrings.CharAt` is `char_at<i>::value`, from the assertions at
    `static-strings/test-static-strings.cpp:108-117`;
  - `StaticStrings.Concat` is `concat` (`static-strings/static-strings.hpp:105-116,128-129`);
  - `ArrayDecl.Normalized` is `normalized()` (`type-names/array-decl/array_decl.py:106-107,160-165,184-192`);
  - `ArrayDecl.DeclarationWith` and `ArrayDecl.Declaration` are `declaration(suffix)` and
    `declaration()` (`type-names/array-decl/array_decl.py:99-100,181-182,199-202,219-225,255-256`);
  - `TypeDecl.Value` is `impl<T>::value(suffix)` (`typedecl/typedecl.hpp:28-152,165-178`);
  - `TypeDecl.Typedecl` is `typedecl<T>()` (`typedecl/typedecl.hpp:159-162`);
  - `UserDefinedLiterals.BinaryLiteral` is the `binary_literal` fold behind `_bULL`
    (`user-defined-literals.cpp:5-16,23`).

## Model

| member | source | states |
|---|---|---|
| Decimal.NatString | typedecl/typedecl.hpp:135 | the digits of `std::to_string(N)`: non-empty, all decimal digits, no leading zero |
| Decimal.NatStringRoundTrip | typedecl/typedecl.hpp:135 | reading the decimal spelling back gives the number |
| Decimal.NatStringInjective | type-names/array-decl/array_decl.py:21 | different numbers have different spellings, so the aliases `A1`, `A2`, ... are distinct |
| StaticStrings.AppendTo | static-strings/static-strings.hpp:29-53 | `append_to` keeps the buffer's old contents and then adds exactly the units, first to last |
| StaticStrings.Materialize | static-strings/static-strings.hpp:21-23 | `string()` has the unit type's string type, length `size`, and holds unit `i` at position `i` (embedded zeros kept; empty for the empty sequence) |
| StaticStrings.Find | static-strings/test-static-strings.cpp:120-129 | `find` gives the lowest position holding the unit, or `NOT_FOUND` exactly when the unit is absent |
| StaticStrings.FindFirst | static-strings/test-static-strings.cpp:124-127 | a position holding the unit with none before it is what `find` returns |
| StaticStrings.StrLength | static-strings/static-strings.hpp:97-99 | `str_length` is the offset of the first zero unit; it fails exactly when the buffer has none |
| StaticStrings.BuildFromProvider | static-strings/static-strings.hpp:60-73 | prepending `str()[len-1]` down to `len == 0` yields `str()[0..len)` in order, before the accumulated pack |
| StaticStrings.FromProvider | static-strings/static-strings.hpp:122-126 | a built sequence has the provider's unit type and only values that type can hold |
| StaticStrings.FromProviderExplicitLength | static-strings/static-strings.hpp:122-126 | an explicit length within the buffer gives exactly the first `len` units, past embedded zeros too |
| StaticStrings.FromProviderPastBuffer | static-strings/static-strings.hpp:65 | an explicit length beyond the buffer would read `str()[len-1]` outside it and fails |
| StaticStrings.FromProviderDeclaredSize | static-strings/static-strings.hpp:86-92 | a positive declared `size` is used as the length |
| StaticStrings.FromProviderDeclaredOutcomes | static-strings/static-strings.hpp:60-92 | with a positive declared `size` the build succeeds exactly when the size lies within the buffer and every unit before it fits in `char`; a size past the buffer reads outside it and fails, a unit that does not fit fails as such |
| StaticStrings.FromProviderScanned | static-strings/static-strings.hpp:60-102 | without a detected `size` the buffer is scanned: the build succeeds exactly when there is a zero and every unit before the first zero fits in `char`; it fails for lack of a zero exactly when there is none, and on an unfit unit exactly when one precedes the first zero; a built sequence holds the units before the first zero |
| StaticStrings.UnitAfterTerminatorIgnored | static-strings/static-strings.hpp:94-102 | a unit after the first zero is never read: `{104, 0, 300}` as `char16_t` builds the one-unit sequence `{104}` |
| StaticStrings.ZeroDeclaredSizeIsScanned | static-strings/static-strings.hpp:76-84 | a declared size of 0 is not detected, so the length is the scanned one |
| StaticStrings.ConcatSpec | static-strings/static-strings.hpp:105-116 | `concat` builds exactly when there is at least one operand and all share one unit type; the result holds all units in argument order and its size is the sum; otherwise it fails with no operands or a type mismatch |
| StaticStrings.ConcatOne | static-strings/static-strings.hpp:108-111 | one operand is returned unchanged |
| StaticStrings.ConcatEmptyNeutral | static-strings/test-static-strings.cpp:50-52 | an empty operand between two others changes nothing |
| StaticStrings.ConcatAssociative | static-strings/static-strings.hpp:113-116 | concatenating nested pairs gives the same sequence as the flat three-operand `concat` |
| StaticStrings.ConcatWellFormed | static-strings/static-strings.hpp:113-116 | concatenation keeps every unit within its type's range |
| StaticStringsTests.ScanLiteral | static-strings/static-strings.hpp:94-102 | a literal without embedded zero gives a sequence of exactly its characters |
| StaticStringsTests.BuildingWithStringProviders | static-strings/test-static-strings.cpp:17-35 | the providers `""` and `"Hello"` give the empty sequence and the five units of `Hello` |
| StaticStringsTests.ConcatHelloWorld | static-strings/test-static-strings.cpp:38-53 | `concat<Hello, World>` and `concat<Hello, Empty, World>` both give `Hello World` |
| StaticStringsTests.ExplicitSize | static-strings/test-static-strings.cpp:89-105 | a declared size of 11 keeps the embedded zero of `Hello\0World`; an explicit length of 7 gives `Hello\0W` |
| StaticStringsTests.CharTypes | static-strings/test-static-strings.cpp:56-86 | for every unit type the provider `World` gives `World`; char, wchar_t, char16_t and char32_t map to string, wstring, u16string and u32string |
| StaticStringsTests.CharAtHello | static-strings/test-static-strings.cpp:108-117 | `char_at<0..4>` of `Hello` are `H e l l o`, and the size is 5 |
| StaticStringsTests.FindInEmpty | static-strings/test-static-strings.cpp:121-122 | `find` on the empty sequence is `NOT_FOUND` |
| StaticStringsTests.FindAbacab | static-strings/test-static-strings.cpp:124-128 | in `abacab`, `a`, `b` and `c` are found at 0, 1 and 3, and `d` is not found |
| CompileTimeStrings.FromSeq | compile-time-strings/compile-time-strings.hpp:22-29 | the list built from characters materialises to exactly those characters |
| CompileTimeStrings.SizeIsLength | compile-time-strings/compile-time-strings.hpp:13-29 | `string()` has exactly `size` characters |
| CompileTimeStrings.ToStringInjective | compile-time-strings/compile-time-strings.hpp:26-28 | lists with equal strings are equal, so `string()` loses nothing |
| CompileTimeStrings.AppendSpec | compile-time-strings/compile-time-strings.hpp:68-71 | joining two packs joins their strings and adds their sizes |
| CompileTimeStrings.MakeCtString | compile-time-strings/compile-time-strings.hpp:35-47 | `make_ctstring<P, len>` yields `str()[0..len)` in order, before the accumulated pack |
| CompileTimeStrings.StrLength | compile-time-strings/compile-time-strings.hpp:50-52 | `str_length` is the offset of the first `'\0'`; it fails exactly when there is none |
| CompileTimeStrings.CtStringOfSpec | compile-time-strings/compile-time-strings.hpp:77-80 | `ctstring<P>` exists exactly when the buffer holds a `'\0'`; its string is the part before the first one and holds no `'\0'` |
| CompileTimeStrings.ConcatSpec | compile-time-strings/compile-time-strings.hpp:55-71 | `concat` of any number of operands materialises to their strings joined in order, with the sum of their sizes |
| CompileTimeStrings.ConcatBaseCases | compile-time-strings/compile-time-strings.hpp:58-66 | `concat<>` is the empty string of size 0, and `concat<X>` is `X` |
| CompileTimeStrings.AppendAssociative | compile-time-strings/compile-time-strings.hpp:68-71 | merging packs is associative |
| CompileTimeStrings.ConcatAssociative | compile-time-strings/compile-time-strings.hpp:68-71 | nested pairwise `concat` equals the flat three-operand `concat` |
| CompileTimeStrings.ScanLiteral | compile-time-strings/compile-time-strings.hpp:77-80 | a provider literal without `'\0'` gives exactly its characters |
| CompileTimeStrings.TestEmptyProvider | compile-time-strings/test-compile-time-strings.cpp:37-38 | the empty provider gives the empty list |
| CompileTimeStrings.TestHelloProvider | compile-time-strings/test-compile-time-strings.cpp:40-41 | `Hello ` has size 6 and spelling `Hello ` |
| CompileTimeStrings.TestWorldProvider | compile-time-strings/test-compile-time-strings.cpp:43-44 | `World` has size 5 and spelling `World` |
| CompileTimeStrings.TestConcat | compile-time-strings/test-compile-time-strings.cpp:46-53 | H+W is `Hello World` (11), H+W+`!` is `Hello World!` (12), `concat<>` is empty (0) |
| TypeDecl.ValueSplits | typedecl/typedecl.hpp:46-152 | every `value(suffix)` places the suffix at the centre of the declarator: the left part, the suffix, the right part |
| TypeDecl.PointerValueSplits | typedecl/typedecl.hpp:69-92 | for `impl<T*>`, `*` goes after the left part, and over an array `(*` and `)` enclose the suffix |
| TypeDecl.ArrayValueSplits | typedecl/typedecl.hpp:109-140 | for arrays, `[]` or `[N]` goes right after the suffix, before the element's right part |
| TypeDecl.CvValueSplits | typedecl/typedecl.hpp:28-66 | for cv-qualified types the suffix also ends up at the centre |
| TypeDecl.CvArraySplits | typedecl/typedecl.hpp:119-152 | for cv-qualified arrays the suffix also ends up at the centre |
| TypeDecl.TypedeclSplits | typedecl/typedecl.hpp:159-162 | `typedecl<T>()` of a non-reference is its left part followed by its right part |
| TypeDecl.CvArrayIsArrayOfCv | typedecl/typedecl.hpp:143-152 | `const T[N]` is spelled as an array of `const T`, i.e. the same as `(const T)[N]` |
| TypeDecl.ParenthesesBalance | typedecl/typedecl.hpp:69-92 | all `(` are left of the centre and all `)` right of it, one of each per pointer to an array |
| TypeDecl.TypedeclParentheses | typedecl/typedecl.hpp:69-162 | `typedecl<T>()` has as many `(` as `)`, one pair per pointer to an array |
| TypeDecl.BasicExamples | typedecl/typedecl.hpp:46-66 | `int`, `const int`, `volatile int`, `const volatile int` |
| TypeDecl.PointerExamples | typedecl/typedecl.hpp:38-43 | `int*const`, `int(*)[5]` and `int*const*`: cv on a pointer goes into the declarator, a pointer to an array is parenthesised |
| TypeDecl.ReferenceAndArrayExamples | typedecl/typedecl.hpp:94-106 | `X&`, `X&&`, `int(&)[3]`, `const int[3]` and `int[2][3]` |
| ArrayDecl.ArrayOperationsSpec | type-names/array-decl/array_decl.py:102-104 | `array_operations` lists exactly the arrays in the tree, innermost first |
| ArrayDecl.NearestSpec | type-names/array-decl/array_decl.py:267-275 | the last array operation is absent, unsized or sized as `Nearest` says; a sized one has size 6 minus the number of arrays at or below it |
| ArrayDecl.SizedArraySize | type-names/array-decl/array_decl.py:268-275 | a `SizedArray` has size 5 with no array beneath; otherwise the last array beneath is sized and this size is one less; in all cases 5 minus the number of arrays beneath |
| ArrayDecl.LastArrayOperation | type-names/array-decl/array_decl.py:274-275 | the last array operation can itself be built and has the same nearest array |
| ArrayDecl.DeclarationStartsWithToken | type-names/array-decl/array_decl.py:99-100 | every declaration starts with the basic type's token |
| ArrayDecl.DeclarationWithAgrees | type-names/array-decl/array_decl.py:181-256 | for types without references or `const`, `declaration(suffix)` is `typedecl`'s `value(suffix)` |
| ArrayDecl.DeclarationAgreesWithTypedecl | type-names/array-decl/array_decl.py:223-225 | for const-free types with references only at the root, `declaration()` equals `typedecl<T>()` |
| ArrayDecl.ConstPlacementDiffers | type-names/array-decl/array_decl.py:181-182 | with `const` the two differ: `int const` against `const int` |
| ArrayDecl.NormalizedSpec | type-names/array-decl/array_decl.py:184-192 | normalisation leaves no `const` over an array and adds no `const` over `const`; it keeps the arrays with their kinds and order, the references and the basic type |
| ArrayDecl.NormalizedIdentity | type-names/array-decl/array_decl.py:160-165 | normalisation returns the type itself exactly when it has no `const` over an array |
| ArrayDecl.NormalizedIdempotent | type-names/array-decl/array_decl.py:184-192 | normalising twice is normalising once |
| ArrayDecl.NormalizedConstructible | type-names/array-decl/array_decl.py:184-192 | the normal form of a type that can be built can be built and declared |
| ArrayDecl.NormalizedSameSpelling | type-names/array-decl/array_decl.py:184-192 | for reference-free types, normalising does not change the C++ type: `typedecl`'s `value(suffix)` spells the type and its normal form alike, after every suffix |
| ArrayDecl.NormalizedConstSameSpelling | type-names/array-decl/array_decl.py:184-190 | the same for `Const` over any operand |
| ArrayDecl.NormalizedConstArraySameSpelling | type-names/array-decl/array_decl.py:185-190 | the same for `Const` over an array, whose `const` normalisation moves onto the element |
| ArrayDecl.NormalizedKeepsType | type-names/array-decl/array_decl.py:32-52 | the generated `std::is_same<alias, declaration>` compares a type with its normal form, and these are one type: `typedecl<T>()` spells them alike, references at the root included |
| ArrayDecl.ConstructibleByKinds | type-names/array-decl/array_decl.py:267-275 | whether a `SizedArray` can be sized depends only on the sequence of array kinds |
| ArrayDecl.DescriptionBracketsFirstPhrase | type-names/array-decl/array_decl.py:89-91 | `description` is the singular raw description with its first phrase put in brackets |
| ArrayDecl.DescriptionEndsWithNoun | type-names/array-decl/array_decl.py:93-97 | every description ends with the basic type's token, pluralised by the innermost array (always) or pointer (never) above it |
| ArrayDecl.DescriptionExamples | type-names/array-decl/array_decl.py:281-283 | `[array of 5] ints` and `[pointer to] int` |
| ArrayDecl.DebugDescription | type-names/array-decl/array_decl.py:306-307 | the raw description of `debug()`'s type is `pointer to array of const pointers to array of 5 ints` |
| ArrayDecl.DebugExample | type-names/array-decl/array_decl.py:309-312 | normalisation leaves `debug()`'s type unchanged, and its declaration is `int(* const(*)[])[5]` |
| ArrayDecl.NormalizationExamples | type-names/array-decl/array_decl.py:184-192 | `const` over `int[4][5]` becomes `int const[4][5]`, and a `const` already on the element is not doubled |
| ArrayDecl.DefinitionUsesOperandAlias | type-names/array-decl/array_decl.py:128-130 | the alias is `A` and the level; each definition starts with the operand's alias |
| ArrayDecl.Wrap | type-names/array-decl/array_decl.py:125 | `cls(operand)` is one level above its operand |
| ArrayDecl.CanWrapKeepsShape | type-names/array-decl/array_decl.py:121-253 | the pruning admits a wrapping exactly when the result keeps the generated shape |
| ArrayDecl.ShapeConstructible | type-names/array-decl/array_decl.py:244-275 | the pruning ensures that every generated `SizedArray` can compute its size |
| ArrayDecl.GeneratedSizes | type-names/array-decl/array_decl.py:268-275 | every generated `SizedArray` has size 5, 4 or 3 |
| ArrayDecl.Enumerate | type-names/array-decl/array_decl.py:23-64 | `generate` visits the type itself first, and everything it visits has the generated shape |
| ArrayDecl.EnumerateSound | type-names/array-decl/array_decl.py:58-64 | everything generated from `t` is built over `t` within `MAX_LEVELS` |
| ArrayDecl.EnumerateComplete | type-names/array-decl/array_decl.py:58-64 | every well-shaped type built over `t` within `MAX_LEVELS` is generated |
| ArrayDecl.EnumerateExactly | type-names/array-decl/array_decl.py:23-64 | a type is generated exactly when it is well shaped, built over the start and within `MAX_LEVELS` |
| ArrayDecl.EnumerateBasic | type-names/array-decl/array_decl.py:58-64 | from a basic type with `MAX_LEVELS == 2` the generator visits the type and its six operations, in order |
| ArrayDecl.RunAppend | type-names/array-decl/array_decl.py:23-56 | running two lists of types in turn is running their concatenation |
| ArrayDecl.StepConsistent | type-names/array-decl/array_decl.py:30-56 | one `generate` step keeps the counters in agreement with the printed blocks and appends the block for the type |
| ArrayDecl.RunConsistent | type-names/array-decl/array_decl.py:30-56 | counters agree with the output: one block per type in order, at most 2000 guessed declarations, at most 7 `typedecl` assertions, on real declarations only |
| ArrayDecl.Generator.constructor | type-names/array-decl/array_decl.py:13-15 | the counters start at zero with nothing printed |
| ArrayDecl.Generator.EmitBlock | type-names/array-decl/array_decl.py:30-56 | the new state is one `Step`: the declaration is guessed below 2000, checked below 7 and when real, and the block is printed and counted |
| ArrayDecl.Generator.Generate | type-names/array-decl/array_decl.py:24-66 | the types `generate` visits, in order, are exactly `Enumerate(t)`, and the state stays the run over them |
| ArrayDecl.Generator.GenerateWithOperand | type-names/array-decl/array_decl.py:121-126 | a wrapping the pruning forbids generates nothing; an allowed one generates `cls(operand)` and everything over it |
| ArrayDecl.Generator.GenerateBasic | type-names/array-decl/array_decl.py:80-83 | `BasicType.generate(token)` adds the run over everything enumerated from the basic type |
| ArrayDecl.ValidIsConsistent | type-names/array-decl/array_decl.py:30-56 | a generator's counters always agree with what it printed |
| ArrayDecl.BasicCounters | type-names/array-decl/array_decl.py:297-303 | from a basic type the run prints 7 types, guesses 7 declarations and asserts 7 `typedecl`s |
| ArrayDecl.RunMain | type-names/array-decl/array_decl.py:290-303 | `main()` reports 7 types, 7 guessed declarations and 7 typedecls |
| UserDefinedLiterals.BinaryLiteralSpec | user-defined-literals.cpp:5-16 | the fold from 0 succeeds exactly on strings of `0`/`1`, with their binary value modulo 2^64 |
| UserDefinedLiterals.BinaryLiteralRejects | user-defined-literals.cpp:12 | any character other than `0` or `1` fires the `static_assert`, wherever it stands |
| UserDefinedLiterals.TemplateRejectsSeparator | user-defined-literals.cpp:12 | `_` is rejected by the template form |
| UserDefinedLiterals.BinaryLiteralRuntime | user-defined-literals.cpp:26-39 | the run-time `_bULL` throws `Not a binary digit` exactly when a character is not `0`, `1` or `_`; otherwise it returns the value of the digits without separators modulo 2^64 (0 for empty input) |
| UserDefinedLiterals.RuntimeAgreesWithTemplate | user-defined-literals.cpp:10-39 | on strings of `0`/`1` the run-time loop and the template fold give the same value |
| UserDefinedLiterals.SixtyFiveDigitsWrapAround | user-defined-literals.cpp:14 | a one followed by 64 zeros shifts its only bit out and gives 0 |
| UserDefinedLiterals.TemplateExamples | user-defined-literals.cpp:60-77 | `0101` is 5, `1111` is 15, and `10000000000` is 1024 |
| UserDefinedLiterals.RuntimeExample | user-defined-literals.cpp:80-81 | every character of `"1101_0100__0011_0001"` is a digit or `_`, and the digits between the separators read 54321 |
| UserDefinedLiterals.RuntimeLiteralExample | user-defined-literals.cpp:80-81 | the run-time `_bULL` returns 54321 for that literal and does not throw |
| UserDefinedLiterals.StringLiteralKeepsZeros | user-defined-literals.cpp:47-49 | `_s` keeps every character of the literal, while `std::string(const char*)` stops at the first `'\0'` and is shorter exactly when the literal holds one |
| UserDefinedLiterals.AbcExample | user-defined-literals.cpp:84-85 | `"abc\0"_s` has length 4 and `std::string("abc\0")` has length 3 |

## Left out

- Printing and I/O are left out: the `cout` output of `user-defined-literals.cpp` `main`, and the `print`/`printerr` lines of `array_decl.py`. The generator records each block it would print (alias, definition, description, declaration, and whether each assertion is commented out). It does not model the indentation, the `%r` representation or the text of the lines.
- `array_decl.py`'s `debug()` prints `type is normalized` and an `# Expected` string. The first compares Python object identity. The second contains spaces `declaration()` never writes, and it is not asserted. The model states the normalisation as value equality and proves the declaration that is actually produced.
- In `normalized()`, "returns the same object" is object identity, which the model states as equality of values.
- `array_decl.hpp`, the header the generated program includes, is not part of this model.
- `MAX_LEVELS` is the constant 2, as in the source. The enumeration lemmas hold for any level limit, but the totals of 7 are proved only for 2.
- ArrayDecl.BasicCounters: requires a token that is non-empty and does not start with `?`, so that no guessed declaration can read as the `'?'` placeholder. The program applies it to `int`.
- The narrowing and signed literal operators `_b`, `_bU`, `_bL`, `_bUL` and `_bLL` are left out. Both their template and run-time forms convert the 64-bit value in an implementation-defined way. Only `_bULL` is modelled.
- The throw of the run-time `_bULL` is modelled as a `Result` failure carrying its message.
- `unsigned long long` is modelled as the naturals below 2^64, with the shift's wrap-around written out.
- The static-string unit type is a value (`Char`, `WChar`, `Char16`, `Char32`) and units are integer codes, rather than a type parameter. This lets the unit ranges, the string-type mapping and the "passes through a `char` pack" condition be stated. `char` is taken as signed 8-bit and `wchar_t` as signed 32-bit, which are implementation-defined.
- The `char...` pack of `build_from_provider` is modelled as the `UnitNotChar` failure when a unit used does not fit in `char` (-128..127).
- `has_size` and `std::decay` are modelled as a mechanism: a positive declared size, and the provider's unit type.
- Template partial specialisation itself is not modelled.
- `rfind` and `substring` do not exist in the code and are not modelled. `char_at` and `find` have no implementation; they are modelled from the test assertions.
- CompileTimeStrings: characters are Dafny `char` values (Unicode scalar values) rather than 8-bit C++ `char`; the model does not restrict their range.
- The Cygwin `std::to_string` shim in `typedecl.hpp` is left out; `to_string` is the decimal spelling of `Decimal`.
- `typedecl.hpp` does not define some types: references below the root, cv on cv, and cv on a reference. These are outside `Renderable`/`TypedeclDefined`, which is the condition each function requires.
- The files demonstrating the compiler's own rules are not modelled: value categories and deduction, reference collapsing, member-function qualifiers, perfect forwarding, rvalue references, `curry` and `unified-assignment.cpp`. They contain no algorithm of the repository's own.
