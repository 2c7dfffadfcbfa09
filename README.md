# RegexDsl pattern builder, modelled in Dafny

RegexDsl is a Kotlin library that builds regular-expression patterns from builder
calls instead of writing them by hand. A `RegexScope` keeps an ordered list of
elements. Its builder operations each append to that list:

- anchors and alternation;
- escaped literals;
- metacharacters and character sets, each with an optional quantifier;
- lookarounds;
- non-capturing, named and indexed groups.

`buildRegex` serialises a configured root scope into the pattern text.

This project models that core:

- the element family and its one serialiser;
- the 17-entry escape table and the escaping transform;
- the quantifier constants and factories;
- the character-set builders;
- the scope builder, with its private group counter;
- the standalone `IndexProvider.Impl` counter;
- the serialising half of `buildRegex`.

The project proves properties of the model:

- escaping is exact on its fast path and loses nothing;
- every quantifier suffix reads back as the call that made it;
- every builder operation appends exactly the documented text;
- group indices are counted per scope;
- the library's own test patterns come out as expected, including the nested URL pattern.

Modules, one per Kotlin file:

- `Internal`;
- `Quantifiers`;
- `MetaCharacters`;
- `Elements` (RegexElement.kt);
- `Groups`;
- `CharacterSets`;
- `IndexProviders`;
- `Scopes` (RegexScope.kt);
- `Builder`;
- two helper modules:
  - `Wrappers` (Option and Result);
  - `Decimal` (Kotlin's `"$n"` rendering of integers, with a reading-back function).

Stateful parts are classes:

- `Scopes.RegexScope` has `components: seq<Element>` and `currentIndex: int`.
- `CharacterSets.AbstractCharacterSet` has `elements: seq<Element>` and a `negated` flag. The flag stands for the two subclasses.
- `IndexProviders.IndexProvider` has `index` and `step`.

A Kotlin `StringBuilder` is a string parameter that `AppendTo(buffer) returns (out)` extends.

A configuration block (a lambda with a receiver) becomes one of two things:

- a child scope or character set that the caller configures first and then passes in;
- a method that makes the block's calls on the scope it is given.

The child must be a different object from the parent. It enters the parent's list as the element value it holds at that moment.

## Where the model follows the code

Unlike standard regular-expression group numbering, which counts every capturing group of the pattern, each scope here counts only its own groups. The points below are what the code does:

- Group indices are not shared across a pattern. Each `RegexScope` starts its own `currentIndex` at 0, and every block runs on a fresh `RegexScope()`. A group opened inside a nested scope therefore gets index 1.
  - `Builder.NestedCounterExample` shows this.
  - So does `Builder.NestedGroupsExample`: in `(a(b)c)` both groups' returned references are `\1`.
- `matchIndexedGroup` takes its index after appending the body. `matchNamedGroup` takes one before, after checking the name.
- The quantifier factories validate nothing. Negative and inverted bounds are rendered as given (`Quantifiers.ParseMake` holds for every integer).
- A quantified string of length other than one is wrapped in a capturing group. That group takes an index of the scope. The empty string is wrapped too (`Builder.AutoWrapExample`).
- `IndexProvider.Impl` is not used by `RegexScope`.

## Model

| member | source | states |
|---|---|---|
| Internal.EscapeMapEntries | src/commonMain/kotlin/io/github/stream29/regexdsl/Internal.kt:3-21 | the table's keys are exactly the 14 punctuation characters `. \ ^ $ [ ] ( ) * + ? { } \|` and newline, carriage return, tab; each punctuation key maps to a backslash and itself, the three control characters to `\n`, `\r`, `\t` |
| Internal.EscapeChar | src/commonMain/kotlin/io/github/stream29/regexdsl/Internal.kt:28-33 | the text one character becomes: its table entry when it has one, otherwise the character itself (its properties: Internal.EscapedSingle, Internal.EscapedLength) |
| Internal.Escaped | src/commonMain/kotlin/io/github/stream29/regexdsl/Internal.kt:26-35 | the escaped form of a whole string, each character in order (its properties: the Internal lemmas in this table) |
| Internal.EscapedIdentity | src/commonMain/kotlin/io/github/stream29/regexdsl/Internal.kt:23-25 | escaping returns its input unchanged if and only if no character of it is a table key, so the fast path returns what the slow path would |
| Internal.EscapableCountZero | src/commonMain/kotlin/io/github/stream29/regexdsl/Internal.kt:24 | no character needs escaping exactly when the number of table characters in the string is zero |
| Internal.EscapedLength | src/commonMain/kotlin/io/github/stream29/regexdsl/Internal.kt:26-35 | the escaped length is the input length plus the number of input characters found in the table |
| Internal.EscapedConcat | src/commonMain/kotlin/io/github/stream29/regexdsl/Internal.kt:26-35 | escaping distributes over concatenation |
| Internal.EscapedSnoc | src/commonMain/kotlin/io/github/stream29/regexdsl/Internal.kt:27-33 | one more input character appends that character's table entry, or the character itself when it has none |
| Internal.EscapedSingle | src/commonMain/kotlin/io/github/stream29/regexdsl/Internal.kt:27-33 | a one-character string escapes to that character's escape |
| Internal.UnescapeEscaped | src/commonMain/kotlin/io/github/stream29/regexdsl/Internal.kt:26-35 | the escaped text reads back as the original, so distinct literals never escape alike and untabled characters keep their order |
| Internal.Escape | src/commonMain/kotlin/io/github/stream29/regexdsl/Internal.kt:23-36 | `String.escaped()` with its fast path and per-character loop; both paths return the escaped form, for every string including the empty one |
| Internal.EscapedExample | src/commonTest/kotlin/io/github/stream29/regexdsl/RegexScopeTest.kt:81-88 | `a.b*c+d?` escapes to `a\.b\*c\+d\?` |
| Decimal.IntToString | src/commonMain/kotlin/io/github/stream29/regexdsl/Group.kt:18 | the decimal rendering is non-empty, starts with `-` exactly for negative numbers and is otherwise made of digits, with no leading zero except for `0` itself |
| Decimal.ParseIntOfIntToString | src/commonMain/kotlin/io/github/stream29/regexdsl/Quantifier.kt:49 | a rendered integer reads back as itself, so distinct integers render differently |
| Quantifiers.Exactly | src/commonMain/kotlin/io/github/stream29/regexdsl/Quantifier.kt:49 | `exactly(times)`: the suffix `{times}` with no check on `times` (its properties: Quantifiers.ParseExactly) |
| Quantifiers.AtLeast | src/commonMain/kotlin/io/github/stream29/regexdsl/Quantifier.kt:57 | `atLeast(times)`: `{times,}` (its properties: Quantifiers.ParseAtLeast) |
| Quantifiers.AtLeastLazy | src/commonMain/kotlin/io/github/stream29/regexdsl/Quantifier.kt:65 | `atLeastLazy(times)`: `{times,}?` (its properties: Quantifiers.ParseAtLeastLazy) |
| Quantifiers.InRange | src/commonMain/kotlin/io/github/stream29/regexdsl/Quantifier.kt:73 | `inRange(range)`: `{first,last}` (its properties: Quantifiers.ParseInRange) |
| Quantifiers.InRangeLazy | src/commonMain/kotlin/io/github/stream29/regexdsl/Quantifier.kt:81 | `inRangeLazy(range)`: `{first,last}?` (its properties: Quantifiers.ParseInRangeLazy) |
| Quantifiers.ParseExactly | src/commonMain/kotlin/io/github/stream29/regexdsl/Quantifier.kt:49 | `exactly(n)` is `{n}` and reads back as that call with `n`, for every integer |
| Quantifiers.ParseAtLeast | src/commonMain/kotlin/io/github/stream29/regexdsl/Quantifier.kt:57 | `atLeast(n)` is `{n,}` and reads back as that call with `n` |
| Quantifiers.ParseAtLeastLazy | src/commonMain/kotlin/io/github/stream29/regexdsl/Quantifier.kt:65 | `atLeastLazy(n)` is `{n,}?` and reads back as that call with `n` |
| Quantifiers.ParseInRange | src/commonMain/kotlin/io/github/stream29/regexdsl/Quantifier.kt:73 | `inRange(a..b)` is `{a,b}` from the range's first and last bounds and reads back as that call, for inverted or negative bounds too |
| Quantifiers.ParseInRangeLazy | src/commonMain/kotlin/io/github/stream29/regexdsl/Quantifier.kt:81 | `inRangeLazy(a..b)` is `{a,b}?` and reads back as that call |
| Quantifiers.ParseMake | src/commonMain/kotlin/io/github/stream29/regexdsl/Quantifier.kt:20-81 | every constant and every factory call, with any arguments, yields a suffix that reads back as exactly that call |
| Quantifiers.MakeInjective | src/commonMain/kotlin/io/github/stream29/regexdsl/Quantifier.kt:13-81 | two different calls never produce the same quantifier |
| Quantifiers.LazyIsGreedyThenQuestionMark | src/commonMain/kotlin/io/github/stream29/regexdsl/Quantifier.kt:27-81 | `atLeastOneLazy`, `atLeastLazy(n)` and `inRangeLazy(r)` are their greedy counterparts followed by `?` |
| Quantifiers.FactoryExamples | src/commonTest/kotlin/io/github/stream29/regexdsl/QuantifierTest.kt:40-76 | `exactly(2)`, `atLeast(2)`, `atLeastLazy(2)`, `inRange(2..4)`, `inRangeLazy(2..4)` are `{2}`, `{2,}`, `{2,}?`, `{2,4}`, `{2,4}?` |
| Builder.ConstantQuantifiersExample | src/commonTest/kotlin/io/github/stream29/regexdsl/QuantifierTest.kt:8-36 | the constants `anyTimes`, `atLeastOne`, `atLeastOneLazy`, `atMostOne` (Quantifier.kt:20-41) after `a` give `a*`, `a+`, `a+?`, `a?` |
| MetaCharacters.ValueRoundTrip | src/commonMain/kotlin/io/github/stream29/regexdsl/MetaCharacter.kt:15-68 | the seven metacharacters have seven distinct values `.`, `\s`, `\S`, `\w`, `\W`, `\d`, `\D`, and the value identifies the metacharacter |
| MetaCharacters.ValueShape | src/commonMain/kotlin/io/github/stream29/regexdsl/MetaCharacter.kt:26-68 | every value is `.` or a backslash followed by one character |
| MetaCharacters.MetaCharacter.Value | src/commonMain/kotlin/io/github/stream29/regexdsl/MetaCharacter.kt:26-68 | the text each of the seven accessors stands for (its properties: MetaCharacters.ValueRoundTrip, MetaCharacters.ValueShape) |
| Elements.Serialize | src/commonMain/kotlin/io/github/stream29/regexdsl/RegexElement.kt:11-31 | the one serialiser for every `appendTo`: a fragment verbatim, a metacharacter's value, `\index`, `\k<name>`, `[`…`]`, `[^`…`]`, and a scope's components in order (its properties: the Elements and Groups lemmas in this table) |
| Elements.SerializeAll | src/commonMain/kotlin/io/github/stream29/regexdsl/RegexScope.kt:24-26 | the texts of a list of elements one after another (its properties: Elements.SerializeAllConcat and the lemmas after it) |
| Elements.SingleVerbatim | src/commonMain/kotlin/io/github/stream29/regexdsl/RegexElement.kt:28-31 | a raw fragment serialises to its own text with no escaping |
| Elements.SerializeAllSnoc | src/commonMain/kotlin/io/github/stream29/regexdsl/RegexElement.kt:13-17 | appending one element adds exactly that element's text after what is already there |
| Elements.SerializeAllConcat | src/commonMain/kotlin/io/github/stream29/regexdsl/RegexScope.kt:24-26 | a list of elements serialises to the concatenation of their texts, in order and without delimiters |
| Elements.SerializeAllPrefix | src/commonMain/kotlin/io/github/stream29/regexdsl/RegexScope.kt:24-26 | a list that only grew at its end serialises to a text that only grew at its end |
| Elements.SerializeWrapped | src/commonMain/kotlin/io/github/stream29/regexdsl/RegexScope.kt:258-260 | an opening fragment, a nested scope and a closing fragment serialise as the opening, the scope's text and the closing |
| Groups.IndexedGroupRefText | src/commonMain/kotlin/io/github/stream29/regexdsl/Group.kt:17-19 | an indexed reference is a backslash and the index in decimal, and the index reads back from the text |
| Groups.NamedGroupRefText | src/commonMain/kotlin/io/github/stream29/regexdsl/Group.kt:34-36 | a named reference is `\k<`, the name and `>`, with no check on the name |
| Groups.GroupRefsInjective | src/commonMain/kotlin/io/github/stream29/regexdsl/Group.kt:13-37 | two references of the same kind serialise alike only when their index or name is equal |
| Groups.GroupRefExamples | src/commonTest/kotlin/io/github/stream29/regexdsl/GroupTest.kt:9-21 | `IndexedGroupRef(1)` is `\1` and `NamedGroupRef("test")` is `\k<test>` |
| CharacterSets.AbstractCharacterSet.constructor | src/commonMain/kotlin/io/github/stream29/regexdsl/CharacterSet.kt:12-14 | a new set has no members; the flag selects the positive or negated kind |
| CharacterSets.AbstractCharacterSet.Range | src/commonMain/kotlin/io/github/stream29/regexdsl/CharacterSet.kt:50-52 | appends exactly one member `from-to` at the end, without comparing the bounds |
| CharacterSets.AbstractCharacterSet.AddChar | src/commonMain/kotlin/io/github/stream29/regexdsl/CharacterSet.kt:59-61 | appends exactly one member, the character unescaped |
| CharacterSets.AbstractCharacterSet.AddMeta | src/commonMain/kotlin/io/github/stream29/regexdsl/CharacterSet.kt:68-70 | appends the metacharacter element itself, whose text is its value verbatim |
| CharacterSets.AbstractCharacterSet.AppendTo | src/commonMain/kotlin/io/github/stream29/regexdsl/CharacterSet.kt:23-41 | the buffer is extended by `[` (or `[^` when negated), the members' texts in insertion order, and `]` |
| CharacterSets.MixedMembersExample | src/commonTest/kotlin/io/github/stream29/regexdsl/CharacterSetTest.kt:43-51 | `add('a')`, `range('0','9')`, `add('_')` give `[a0-9_]`: members are neither sorted nor merged |
| CharacterSets.NegatedRangeExample | src/commonTest/kotlin/io/github/stream29/regexdsl/CharacterSetTest.kt:67-73 | a negated set over `a-z` is `[^a-z]` |
| CharacterSets.MetaMemberExample | src/commonTest/kotlin/io/github/stream29/regexdsl/QuantifierTest.kt:89-96 | a metacharacter member keeps its backslash: `[a\d]` |
| IndexProviders.NthIndexClosedForm | src/commonMain/kotlin/io/github/stream29/regexdsl/IndexProvider.kt:14-23 | the k-th call returns `startFrom + (k - 1) * step`, so the first returns `startFrom` |
| IndexProviders.NthIndexIncreasing | src/commonMain/kotlin/io/github/stream29/regexdsl/IndexProvider.kt:20-22 | with a positive step, later calls return strictly larger indices, so none repeats |
| IndexProviders.IndexProvider.constructor | src/commonMain/kotlin/io/github/stream29/regexdsl/IndexProvider.kt:14-18 | the counter starts one step before `startFrom` |
| IndexProviders.IndexProvider.NextIndex | src/commonMain/kotlin/io/github/stream29/regexdsl/IndexProvider.kt:19-23 | returns the previous value plus `step`, which is also the new counter value; `step` is unchanged |
| IndexProviders.DefaultProviderExample | src/commonMain/kotlin/io/github/stream29/regexdsl/IndexProvider.kt:15-22 | with the defaults 1 and 1 the first three calls return 1, 2, 3 |
| IndexProviders.SteppedProviderExample | src/commonMain/kotlin/io/github/stream29/regexdsl/IndexProvider.kt:15-22 | starting at 10 with step 5 the calls return 10, 15, 20 |
| Scopes.IdentifierIsPlain | src/commonMain/kotlin/io/github/stream29/regexdsl/RegexScope.kt:217-218 | a name matching `[a-zA-Z][a-zA-Z0-9_-]*` needs no escaping and contains no `>` |
| Scopes.IdentifierExamples | src/commonMain/kotlin/io/github/stream29/regexdsl/RegexScope.kt:218 | `test`, `ip` and `a-b_9` are identifiers; the empty name, `1st`, `_x` and `a b` are not |
| Scopes.IsIdentifier | src/commonMain/kotlin/io/github/stream29/regexdsl/RegexScope.kt:218 | whole-string match of `[a-zA-Z][a-zA-Z0-9_-]*` (its properties: Scopes.IdentifierIsPlain, Scopes.IdentifierExamples) |
| Scopes.Utf16Length | src/commonMain/kotlin/io/github/stream29/regexdsl/RegexScope.kt:102 | Kotlin's `String.length`: at least the number of characters and at most twice it, counting two UTF-16 units for a character outside the Basic Multilingual Plane |
| Scopes.Utf16LengthOne | src/commonMain/kotlin/io/github/stream29/regexdsl/RegexScope.kt:102 | a string has Kotlin length one exactly when it is a single character of the Basic Multilingual Plane |
| Scopes.RegexScope.constructor | src/commonMain/kotlin/io/github/stream29/regexdsl/RegexScope.kt:14-17 | a new scope has no components and its counter is 0 |
| Scopes.RegexScope.NextIndex | src/commonMain/kotlin/io/github/stream29/regexdsl/RegexScope.kt:18-22 | increments the counter by one and returns its new value |
| Scopes.RegexScope.AppendTo | src/commonMain/kotlin/io/github/stream29/regexdsl/RegexScope.kt:24-26 | extends the buffer by every component's text, in order |
| Scopes.RegexScope.MatchStringBegin | src/commonMain/kotlin/io/github/stream29/regexdsl/RegexScope.kt:34-36 | appends the one fragment `^`; the counter is untouched |
| Scopes.RegexScope.InsertOr | src/commonMain/kotlin/io/github/stream29/regexdsl/RegexScope.kt:43-45 | appends the one fragment `\|`; the counter is untouched |
| Scopes.RegexScope.MatchStringEnd | src/commonMain/kotlin/io/github/stream29/regexdsl/RegexScope.kt:52-54 | appends the one fragment `$`; the counter is untouched |
| Scopes.RegexScope.MatchWordBoundary | src/commonMain/kotlin/io/github/stream29/regexdsl/RegexScope.kt:62-64 | appends the one fragment `\b`; the counter is untouched |
| Scopes.RegexScope.MatchNonWordBoundary | src/commonMain/kotlin/io/github/stream29/regexdsl/RegexScope.kt:72-74 | appends the one fragment `\B`; the counter is untouched |
| Scopes.RegexScope.MatchChar | src/commonMain/kotlin/io/github/stream29/regexdsl/RegexScope.kt:84-88 | appends the escaped character and, only when a quantifier is given, its suffix |
| Scopes.RegexScope.MatchString | src/commonMain/kotlin/io/github/stream29/regexdsl/RegexScope.kt:100-106 | Kotlin length one (one UTF-16 unit): as the character form; otherwise with a quantifier: `(` escaped text `)` and the suffix, taking one index; otherwise the escaped text alone, counter untouched |
| Scopes.RegexScope.MatchElement | src/commonMain/kotlin/io/github/stream29/regexdsl/RegexScope.kt:114-118 | appends the element itself and, only when a quantifier is given, its suffix |
| Scopes.RegexScope.MatchCharacterSet | src/commonMain/kotlin/io/github/stream29/regexdsl/RegexScope.kt:128-130 | appends the configured set as `[` members `]` and the optional suffix |
| Scopes.RegexScope.MatchNegatedCharacterSet | src/commonMain/kotlin/io/github/stream29/regexdsl/RegexScope.kt:140-142 | appends the configured set as `[^` members `]` and the optional suffix |
| Scopes.RegexScope.Lookahead | src/commonMain/kotlin/io/github/stream29/regexdsl/RegexScope.kt:151-155 | appends `(?=`, the child scope, `)`; the counter is untouched |
| Scopes.RegexScope.LookaheadNegative | src/commonMain/kotlin/io/github/stream29/regexdsl/RegexScope.kt:164-168 | appends `(?!`, the child scope, `)`; the counter is untouched |
| Scopes.RegexScope.Lookbehind | src/commonMain/kotlin/io/github/stream29/regexdsl/RegexScope.kt:179-183 | appends `(?<=`, the child scope, `)`; the counter is untouched |
| Scopes.RegexScope.LookbehindNegative | src/commonMain/kotlin/io/github/stream29/regexdsl/RegexScope.kt:194-198 | appends `(?<!`, the child scope, `)`; the counter is untouched |
| Scopes.RegexScope.MatchUncapturedGroup | src/commonMain/kotlin/io/github/stream29/regexdsl/RegexScope.kt:209-215 | appends `(?:`, the child scope, `)` and the optional suffix; the counter is untouched |
| Scopes.RegexScope.MatchNamedGroup | src/commonMain/kotlin/io/github/stream29/regexdsl/RegexScope.kt:232-245 | an invalid name fails and changes nothing; a valid one advances the counter by one, appends `(?<name>`, the child, `)` and the optional suffix, and returns the reference by name |
| Scopes.RegexScope.MatchIndexedGroup | src/commonMain/kotlin/io/github/stream29/regexdsl/RegexScope.kt:257-264 | appends `(`, the child, `)` and the optional suffix, then advances the counter by one and returns a reference to the new value |
| Builder.BuildRegex | src/commonMain/kotlin/io/github/stream29/regexdsl/Builder.kt:15-19 | the pattern is the configured root scope's serialisation |
| Builder.EmptyConfigurationExample | src/commonMain/kotlin/io/github/stream29/regexdsl/Builder.kt:16-17 | an empty configuration yields the empty pattern |
| Builder.SimpleExample | src/commonTest/kotlin/io/github/stream29/regexdsl/BuilderTest.kt:9-14 | `match("abc")` yields `abc` |
| Builder.SpecialCharsExample | src/commonTest/kotlin/io/github/stream29/regexdsl/RegexScopeTest.kt:81-88 | `match("a.b*c+d?")` yields `a\.b\*c\+d\?` |
| Builder.MetaCharactersExample | src/commonTest/kotlin/io/github/stream29/regexdsl/BuilderTest.kt:17-32 | ten digit metacharacters and two dashes yield `\d\d\d-\d\d\d-\d\d\d\d` |
| Builder.QuantifiersExample | src/commonTest/kotlin/io/github/stream29/regexdsl/BuilderTest.kt:36-44 | quantified digits yield `\d{3}-\d{3}-\d{4}` |
| Builder.EmailExample | src/commonTest/kotlin/io/github/stream29/regexdsl/BuilderTest.kt:48-62 | three indexed groups yield `(\w+)@(\w+)\.(\w+)` and return references 1, 2, 3 |
| Builder.CharacterSetsExample | src/commonTest/kotlin/io/github/stream29/regexdsl/BuilderTest.kt:66-77 | two sets yield `[abc][0-9]` |
| Builder.NegatedSetExample | src/commonMain/kotlin/io/github/stream29/regexdsl/RegexScope.kt:140-142 | a quantified negated set yields `[^abc]+` |
| Builder.IndexedGroupExample | src/commonTest/kotlin/io/github/stream29/regexdsl/GroupTest.kt:25-34 | a group and a reference to the index it returned yield `(abc) \1` |
| Builder.NamedGroupExample | src/commonTest/kotlin/io/github/stream29/regexdsl/GroupTest.kt:40-49 | a named group and its reference yield `(?<test>abc) \k<test>` |
| Builder.MultipleIndexedGroupsExample | src/commonTest/kotlin/io/github/stream29/regexdsl/GroupTest.kt:55-70 | two groups and two references yield `(abc) (def) \1 \2` |
| Builder.NestedGroupsExample | src/commonTest/kotlin/io/github/stream29/regexdsl/GroupTest.kt:97-112 | nested groups yield `(a(b)c) \1 \2`, and both groups' returned references are `\1` |
| Builder.NestedCounterExample | src/commonMain/kotlin/io/github/stream29/regexdsl/RegexScope.kt:17-22 | a group in a nested scope is numbered 1 while the parent's groups are numbered 1, 2, 3 around it |
| Builder.InvalidNameExample | src/commonMain/kotlin/io/github/stream29/regexdsl/RegexScope.kt:237 | a named group called `1abc` is rejected and the pattern stays as it was |
| Builder.AutoWrapExample | src/commonMain/kotlin/io/github/stream29/regexdsl/RegexScope.kt:100-106 | quantified multi-character and empty strings become capturing groups `(ab)+` and `()*`, so the next group is numbered 3 |
| Builder.SingleCharQuantifierExample | src/commonMain/kotlin/io/github/stream29/regexdsl/RegexScope.kt:102 | a quantified one-character string is not wrapped: `a{2,4}?` |
| Builder.SupplementaryCharExample | src/commonMain/kotlin/io/github/stream29/regexdsl/RegexScope.kt:100-106 | one character outside the Basic Multilingual Plane has Kotlin length two, so with a quantifier it is wrapped as `(\U{1F600})+` and takes an index |
| Builder.AllMetaCharactersExample | src/commonTest/kotlin/io/github/stream29/regexdsl/MetaCharacterTest.kt:66-76 | the seven metacharacters yield `.*\s\S\w\W\d\D` |
| Builder.AnchorsExample | src/commonMain/kotlin/io/github/stream29/regexdsl/RegexScope.kt:34-54 | anchors and alternation yield `^a\|b$` |
| Builder.BoundariesExample | src/commonMain/kotlin/io/github/stream29/regexdsl/RegexScope.kt:62-74 | the boundary fragments yield `\bab\B` |
| Builder.LookaroundExample | src/commonMain/kotlin/io/github/stream29/regexdsl/RegexScope.kt:151-215 | the four lookarounds and an optional non-capturing group yield `(?=a)(?!b)(?<=c)(?<!a)(?:ab)?` and take no index |
| Builder.UrlExample | src/commonTest/kotlin/io/github/stream29/regexdsl/BuilderTest.kt:81-120 | the nested URL configuration yields `^https?://((?<ip>\d+\.\d+\.\d+\.\d+(:\d*)?)\|(?<domain>(\w+\.)*\w+))(?<path>(/[^/]+)*)$`, and the root scope numbers two groups |

## Left out

- `toRegex()` and every statement about what a pattern matches: these need the host regular-expression engine, which is not part of this model. The model stops at the pattern text.
- Kotlin `Char` is a UTF-16 code unit, while a Dafny `char` is a Unicode scalar value. A string is modelled as its scalar values, and its Kotlin length is given by `Scopes.Utf16Length`. A lone surrogate, which a Kotlin `Char` or `String` can hold, cannot be represented. So the model's `match(Char)`, `add(Char)` and `range` take scalar values. They cannot receive a lone surrogate. They also accept a character outside the Basic Multilingual Plane, which no Kotlin `Char` can hold. Escaping a string works per scalar value rather than per UTF-16 unit, and both give the same text, because no table key is a surrogate.
- Scopes.IsIdentifier: the name check uses the host engine on `[a-zA-Z][a-zA-Z0-9_-]*`; the model uses a hand-written predicate for the same language.
- The message text of the `require` failure: `MatchNamedGroup` returns `Err(IllegalArgument)` and changes nothing.
- Lambdas with receivers, `inline` calls and `@PublishedApi`: each block is a child object configured before the call, or a method run on the scope it is given.
  - A child appended to a parent is copied as a value. Changing the child object later does not change the parent. The library stores the object itself, but nothing in it touches a scope after its block returns.
- `Int` overflow: `currentIndex`, `IndexProvider.Impl.index` and decimal rendering use unbounded integers. Past 2^31 − 1 the library wraps around and the model does not.
- Value-class (`@JvmInline`) representation, `Annotation.kt` (no runtime behaviour) and `build.gradle.kts` (build configuration).
- `StringBuilder` identity: a buffer is a string passed in and returned. Who else holds the buffer is not modelled.
- Builder.UrlExample, Builder.EmailExample, Builder.MetaCharactersExample, Builder.QuantifiersExample and the other examples whose patterns are long state the pattern as a concatenation of literal pieces. The pieces spell the test's literal character for character, but the model does not state it as one literal. Builder.SpecialCharsExample and Internal.EscapedExample do the same for `a.b*c+d?`.
- The multiple-named-groups test (GroupTest.kt, two named groups and their references) is not restated. It follows from `Scopes.RegexScope.MatchNamedGroup` and `Groups.NamedGroupRefText`, as the single named group does.
