/**
 * The build entry point (Builder.kt) and end-to-end patterns. `buildRegex` makes a
 * fresh root scope, runs the caller's configuration block on it and serialises it
 * into a fresh buffer. A configuration block is modelled by a method that makes its
 * builder calls on the scope it is given; a nested block is such a method run on a
 * fresh child scope before the child is passed to the group operation. BuildRegex
 * does the serialising part. Compiling the text with the host regex engine is not
 * modelled.
 */
module Builder {
  import opened Wrappers
  import opened Internal
  import opened Quantifiers
  import opened MetaCharacters
  import opened Elements
  import opened CharacterSets
  import opened Scopes
  import opened Groups

  /** Serialises the configured root scope into an empty buffer. */
  method BuildRegex(root: RegexScope) returns (pattern: string)
    ensures pattern == root.Pattern()
  {
    var sb := "";
    sb := root.AppendTo(sb);
    pattern := sb;
  }

  /** Characters outside the escape table that the example literals use. */
  predicate IsPlainChar(c: char) {
    'a' <= c <= 'z' || '0' <= c <= '9' || c == ' ' || c == '@' || c == ':' || c == '/' || c == '-'
  }

  /** A literal made of plain characters escapes to itself. */
  lemma EscapedPlain(s: string)
    requires forall i :: 0 <= i < |s| ==> IsPlainChar(s[i])
    ensures Escaped(s) == s
  {
    forall i | 0 <= i < |s| ensures s[i] !in EscapeMap {
      PlainNotInTable(s[i]);
    }
    EscapedIdentity(s);
  }

  /** Proof helper: no plain character is a key of the escape table. */
  lemma PlainNotInTable(c: char)
    requires IsPlainChar(c)
    ensures c !in EscapeMap
  {
    EscapeMapEntries(c);
  }

  /** The block `{ match(s) }` on a fresh scope, for a plain literal. */
  method Literal(s: string) returns (scope: RegexScope)
    requires forall i :: 0 <= i < |s| ==> IsPlainChar(s[i])
    ensures fresh(scope) && scope.currentIndex == 0
    ensures scope.Pattern() == s
  {
    scope := new RegexScope();
    EscapedPlain(s);
    scope.MatchString(s, None);
  }

  // Proof helpers. The lemmas from here to GroupOpenings, and PortText and
  // SegmentText further down, state small facts about string literals on their
  // own, so that each example's proof only has to chain them together.

  /** The plain literals of the URL scheme escape to themselves. */
  lemma SchemeLiterals()
    ensures Escaped("http") == "http" && Escaped("s") == "s" && Escaped("://") == "://"
  {
    EscapedPlain("http");
    EscapedPlain("s");
    EscapedPlain("://");
  }

  /** So do the port and path separators. */
  lemma SeparatorLiterals()
    ensures Escaped(":") == ":" && Escaped("/") == "/"
  {
    EscapedPlain(":");
    EscapedPlain("/");
  }

  /** Regrouping the pieces appended after a prefix. */
  lemma Regroup(p: string, a: string, b: string, c: string, d: string)
    ensures p + a + b + c + d == p + (a + b + c + d)
  {
  }

  /** Prepending nothing changes nothing; used where a fresh scope's empty pattern
      starts a chain of appended pieces. */
  lemma EmptyPrefix(s: string)
    ensures "" + s == s
  {
  }

  /** The opening texts of the named groups the examples use. */
  lemma GroupOpenings()
    ensures "(?<" + "ip" + ">" == "(?<ip>" && "(?<" + "domain" + ">" == "(?<domain>"
    ensures "(?<" + "path" + ">" == "(?<path>"
  {
  }

  /** An empty configuration yields the empty pattern. */
  method EmptyConfigurationExample() returns (pattern: string)
    ensures pattern == ""
  {
    var root := new RegexScope();
    pattern := BuildRegex(root);
  }

  /** A plain literal: `abc`. */
  method SimpleExample() returns (pattern: string)
    ensures pattern == "abc"
  {
    var root := new RegexScope();
    EscapedPlain("abc");
    root.MatchString("abc", None);
    pattern := BuildRegex(root);
  }

  /** Special characters of a literal are escaped: `a\.b\*c\+d\?`. */
  method SpecialCharsExample() returns (pattern: string)
    ensures pattern == "a\\." + "b\\*" + "c\\+" + "d\\?"
  {
    var root := new RegexScope();
    EscapedExample();
    root.MatchString("a." + "b*" + "c+" + "d?", None);
    pattern := BuildRegex(root);
  }

  /** Three digit metacharacters in a row. */
  method ThreeDigits(scope: RegexScope)
    modifies scope
    ensures scope.Pattern() == old(scope.Pattern()) + "\\d\\d\\d"
    ensures scope.currentIndex == old(scope.currentIndex)
  {
    var d := Meta(DigitChar);
    scope.MatchElement(d, None);
    scope.MatchElement(d, None);
    scope.MatchElement(d, None);
  }

  /** Twelve calls, one per metacharacter or dash: `\d\d\d-\d\d\d-\d\d\d\d`. */
  method MetaCharactersExample() returns (pattern: string)
    ensures pattern == "\\d\\d\\d" + "-" + "\\d\\d\\d" + "-" + "\\d\\d\\d" + "\\d"
  {
    EscapedPlain("-");
    EmptyPrefix("\\d\\d\\d");
    var root := new RegexScope();
    ThreeDigits(root);
    root.MatchString("-", None);
    ThreeDigits(root);
    root.MatchString("-", None);
    ThreeDigits(root);
    root.MatchElement(Meta(DigitChar), None);
    pattern := BuildRegex(root);
  }

  /** A run of exactly `n` digits followed by a dash: `\d{n}-`. */
  method DigitsThenDash(scope: RegexScope, n: int)
    modifies scope
    ensures scope.Pattern() == old(scope.Pattern()) + "\\d" + Exactly(n).value + "-"
    ensures scope.currentIndex == old(scope.currentIndex)
  {
    EscapedPlain("-");
    scope.MatchElement(Meta(DigitChar), Some(Exactly(n)));
    scope.MatchString("-", None);
  }

  /** Exact quantifiers: `\d{3}-\d{3}-\d{4}`. */
  method QuantifiersExample() returns (pattern: string)
    ensures pattern == "\\d{3}-" + "\\d{3}-" + "\\d{4}"
  {
    FactoryExamples();
    var root := new RegexScope();
    DigitsThenDash(root, 3);
    assert root.Pattern() == "\\d{3}-";
    DigitsThenDash(root, 3);
    assert "\\d" + Exactly(3).value + "-" == "\\d{3}-";
    root.MatchElement(Meta(DigitChar), Some(Exactly(4)));
    assert "\\d" + Exactly(4).value == "\\d{4}";
    pattern := BuildRegex(root);
  }

  /** The block `matchIndexedGroup { match(wordChar, atLeastOne) }`. */
  method WordGroup(scope: RegexScope) returns (r: Element)
    modifies scope
    ensures scope.Pattern() == old(scope.Pattern()) + "(\\w+)"
    ensures scope.currentIndex == old(scope.currentIndex) + 1
    ensures r == IndexedGroupRef(scope.currentIndex)
  {
    var body := new RegexScope();
    body.MatchElement(Meta(WordChar), Some(AtLeastOne));
    r := scope.MatchIndexedGroup(None, body);
  }

  /** Three indexed groups on one scope: `(\w+)@(\w+)\.(\w+)`, numbered 1, 2, 3. */
  method EmailExample() returns (pattern: string, r1: Element, r2: Element, r3: Element)
    ensures pattern == "(\\w+)" + "@" + "(\\w+)" + "\\." + "(\\w+)"
    ensures r1 == IndexedGroupRef(1) && r2 == IndexedGroupRef(2) && r3 == IndexedGroupRef(3)
  {
    EscapedPlain("@");
    EscapedSingle('.');
    EmptyPrefix("(\\w+)");
    var root := new RegexScope();
    r1 := WordGroup(root);
    root.MatchString("@", None);
    r2 := WordGroup(root);
    root.MatchString(".", None);
    r3 := WordGroup(root);
    pattern := BuildRegex(root);
  }

  /** Two character sets: `[abc][0-9]`. */
  method CharacterSetsExample() returns (pattern: string)
    ensures pattern == "[abc][0-9]"
  {
    var root := new RegexScope();
    var letters := new AbstractCharacterSet(false);
    letters.AddChar('a');
    letters.AddChar('b');
    letters.AddChar('c');
    root.MatchCharacterSet(None, letters);
    var digits := new AbstractCharacterSet(false);
    digits.Range('0', '9');
    root.MatchCharacterSet(None, digits);
    pattern := BuildRegex(root);
  }

  /** A negated set with a quantifier: `[^abc]+`. */
  method NegatedSetExample() returns (pattern: string)
    ensures pattern == "[^abc]+"
  {
    var root := new RegexScope();
    var cs := new AbstractCharacterSet(true);
    cs.AddChar('a');
    cs.AddChar('b');
    cs.AddChar('c');
    root.MatchNegatedCharacterSet(Some(AtLeastOne), cs);
    pattern := BuildRegex(root);
  }

  /** The block `matchIndexedGroup { match(text) }` followed by `match(" ")`. */
  method GroupThenSpace(scope: RegexScope, text: string) returns (r: Element)
    requires forall i :: 0 <= i < |text| ==> IsPlainChar(text[i])
    modifies scope
    ensures scope.Pattern() == old(scope.Pattern()) + "(" + text + ") "
    ensures scope.currentIndex == old(scope.currentIndex) + 1
    ensures r == IndexedGroupRef(scope.currentIndex)
  {
    EscapedPlain(" ");
    var body := Literal(text);
    r := scope.MatchIndexedGroup(None, body);
    scope.MatchString(" ", None);
  }

  /** A group and a reference to the index it returned: `(abc) \1`. */
  method IndexedGroupExample() returns (pattern: string, r: Element)
    ensures pattern == "(" + "abc" + ") " + "\\1" && r == IndexedGroupRef(1)
  {
    GroupRefExamples();
    EmptyPrefix("(");
    var root := new RegexScope();
    r := GroupThenSpace(root, "abc");
    root.MatchElement(r, None);
    pattern := BuildRegex(root);
  }

  /** The block `matchNamedGroup("test") { match("abc") }`. */
  method TestGroup(scope: RegexScope) returns (r: Result<Element>)
    modifies scope
    ensures scope.Pattern() == old(scope.Pattern()) + "(?<test>abc)"
    ensures scope.currentIndex == old(scope.currentIndex) + 1
    ensures r == Ok(NamedGroupRef("test"))
  {
    assert IsIdentifier("test");
    var body := Literal("abc");
    r := scope.MatchNamedGroup("test", None, body);
  }

  /** A named group and its backreference: `(?<test>abc) \k<test>`. */
  method NamedGroupExample() returns (pattern: string, r: Result<Element>)
    ensures pattern == "(?<test>abc)" + " " + "\\k<test>"
    ensures r == Ok(NamedGroupRef("test"))
  {
    EscapedPlain(" ");
    GroupRefExamples();
    EmptyPrefix("(?<test>abc)");
    var root := new RegexScope();
    r := TestGroup(root);
    root.MatchString(" ", None);
    root.MatchElement(r.value, None);
    pattern := BuildRegex(root);
  }

  /** Two groups referred to by number: `(abc) (def) \1 \2`. */
  method MultipleIndexedGroupsExample() returns (pattern: string)
    ensures pattern == "(" + "abc" + ") " + "(" + "def" + ") " + "\\1" + " " + "\\2"
  {
    EscapedPlain(" ");
    GroupRefExamples();
    EmptyPrefix("(");
    var root := new RegexScope();
    var _ := GroupThenSpace(root, "abc");
    var _ := GroupThenSpace(root, "def");
    root.MatchElement(IndexedGroupRef(1), None);
    root.MatchString(" ", None);
    root.MatchElement(IndexedGroupRef(2), None);
    pattern := BuildRegex(root);
  }

  /** The body `match("a"); matchIndexedGroup { match("b") }; match("c")`. */
  method NestedBody(scope: RegexScope) returns (inner: Element)
    modifies scope
    ensures scope.Pattern() == old(scope.Pattern()) + "a(b)c"
    ensures scope.currentIndex == old(scope.currentIndex) + 1
    ensures inner == IndexedGroupRef(scope.currentIndex)
  {
    EscapedPlain("a");
    EscapedPlain("c");
    scope.MatchString("a", None);
    var b := Literal("b");
    inner := scope.MatchIndexedGroup(None, b);
    scope.MatchString("c", None);
  }

  /** The outer group of the nested-groups pattern: `(a(b)c)`. */
  method NestedGroup(scope: RegexScope) returns (outer: Element, inner: Element)
    modifies scope
    ensures scope.Pattern() == old(scope.Pattern()) + "(a(b)c)"
    ensures scope.currentIndex == old(scope.currentIndex) + 1
    ensures outer == IndexedGroupRef(scope.currentIndex) && inner == IndexedGroupRef(1)
  {
    EmptyPrefix("a(b)c");
    var body := new RegexScope();
    inner := NestedBody(body);
    outer := scope.MatchIndexedGroup(None, body);
  }

  /** Nested indexed groups with backreferences: `(a(b)c) \1 \2`. Each scope counts
      its own groups, so the inner group's returned reference is 1, the same as the
      outer one's, although the inner group is the second group of the pattern. */
  method NestedGroupsExample() returns (pattern: string, outer: Element, inner: Element)
    ensures pattern == "(a(b)c)" + " " + "\\1" + " " + "\\2"
    ensures outer == IndexedGroupRef(1) && inner == IndexedGroupRef(1)
  {
    EscapedPlain(" ");
    GroupRefExamples();
    EmptyPrefix("(a(b)c)");
    var root := new RegexScope();
    outer, inner := NestedGroup(root);
    root.MatchString(" ", None);
    root.MatchElement(IndexedGroupRef(1), None);
    root.MatchString(" ", None);
    root.MatchElement(IndexedGroupRef(2), None);
    pattern := BuildRegex(root);
  }

  /** A group opened in a nested scope gets index 1 even when the parent scope has
      already numbered two groups, and the parent's counter is untouched by it. */
  method NestedCounterExample() returns (first: Element, second: Element, nested: Element, third: Element)
    ensures first == IndexedGroupRef(1) && second == IndexedGroupRef(2)
    ensures nested == IndexedGroupRef(1) && third == IndexedGroupRef(3)
  {
    var root := new RegexScope();
    var a := new RegexScope();
    first := root.MatchIndexedGroup(None, a);
    var b := new RegexScope();
    second := root.MatchIndexedGroup(None, b);
    var look := new RegexScope();
    var c := new RegexScope();
    nested := look.MatchIndexedGroup(None, c);
    root.Lookahead(look);
    var d := new RegexScope();
    third := root.MatchIndexedGroup(None, d);
  }

  /** An invalid group name is rejected and leaves the scope as it was. In the
      library the rejection is an `IllegalArgumentException` from `require`, so
      `buildRegex` returns no pattern at all unless the block catches it; the
      pattern stated here is the one of that caught case. */
  method InvalidNameExample() returns (pattern: string, r: Result<Element>)
    ensures pattern == "x" && r == Err(IllegalArgument)
  {
    EscapedPlain("x");
    var root := new RegexScope();
    root.MatchString("x", None);
    var body := Literal("abc");
    assert !IsIdentifier("1abc");
    r := root.MatchNamedGroup("1abc", None, body);
    pattern := BuildRegex(root);
  }

  /** `match("ab", atLeastOne)`: wrapped, because the string is longer than one character. */
  method WrappedAb(scope: RegexScope)
    modifies scope
    ensures scope.Pattern() == old(scope.Pattern()) + "(ab)+"
    ensures scope.currentIndex == old(scope.currentIndex) + 1
  {
    EscapedPlain("ab");
    scope.MatchString("ab", Some(AtLeastOne));
  }

  /** `match("", anyTimes)`: the empty string is wrapped as well. */
  method WrappedEmpty(scope: RegexScope)
    modifies scope
    ensures scope.Pattern() == old(scope.Pattern()) + "()*"
    ensures scope.currentIndex == old(scope.currentIndex) + 1
  {
    assert Escaped("") == "";
    scope.MatchString("", Some(AnyTimes));
  }

  /** The block `matchIndexedGroup { match(text) }`. */
  method GroupOf(scope: RegexScope, text: string) returns (r: Element)
    requires forall i :: 0 <= i < |text| ==> IsPlainChar(text[i])
    modifies scope
    ensures scope.Pattern() == old(scope.Pattern()) + "(" + text + ")"
    ensures scope.currentIndex == old(scope.currentIndex) + 1
    ensures r == IndexedGroupRef(scope.currentIndex)
  {
    var body := Literal(text);
    r := scope.MatchIndexedGroup(None, body);
  }

  /** A quantified multi-character string is wrapped in a capturing group, which
      takes an index: `(ab)+`, then the empty group `()*` that a quantified empty
      string becomes, so that the group `(c)` after them is numbered 3. */
  method AutoWrapExample() returns (pattern: string, r: Element)
    ensures pattern == "(ab)+" + "()*" + "(" + "c" + ")"
    ensures r == IndexedGroupRef(3)
  {
    EmptyPrefix("(ab)+");
    var root := new RegexScope();
    WrappedAb(root);
    WrappedEmpty(root);
    r := GroupOf(root, "c");
    pattern := BuildRegex(root);
  }

  /** A single character outside the Basic Multilingual Plane is two UTF-16 units
      long, so with a quantifier it is wrapped like any longer string: `(\U{1F600})+`. */
  method SupplementaryCharExample() returns (pattern: string, index: int)
    ensures pattern == "(" + "\U{1F600}" + ")" + "+"
    ensures index == 1
  {
    EscapeMapEntries('\U{1F600}');
    EscapedSingle('\U{1F600}');
    assert Utf16Length("\U{1F600}") == 2;
    EmptyPrefix("(");
    var root := new RegexScope();
    root.MatchString("\U{1F600}", Some(AtLeastOne));
    pattern := BuildRegex(root);
    index := root.currentIndex;
  }

  /** The four quantifier constants after a one-character string: `a*`, `a+`, `a+?`, `a?`. */
  method ConstantQuantifiersExample() returns (p1: string, p2: string, p3: string, p4: string)
    ensures p1 == "a*" && p2 == "a+" && p3 == "a+?" && p4 == "a?"
  {
    EscapedPlain("a");
    var r1 := new RegexScope();
    r1.MatchString("a", Some(AnyTimes));
    p1 := BuildRegex(r1);
    var r2 := new RegexScope();
    r2.MatchString("a", Some(AtLeastOne));
    p2 := BuildRegex(r2);
    var r3 := new RegexScope();
    r3.MatchString("a", Some(AtLeastOneLazy));
    p3 := BuildRegex(r3);
    var r4 := new RegexScope();
    r4.MatchString("a", Some(AtMostOne));
    p4 := BuildRegex(r4);
  }

  /** A one-character string with a quantifier is not wrapped: `a{2,4}?`. */
  method SingleCharQuantifierExample() returns (pattern: string)
    ensures pattern == "a{2,4}?"
  {
    EscapedPlain("a");
    FactoryExamples();
    var root := new RegexScope();
    root.MatchString("a", Some(InRangeLazy(IntRange(2, 4))));
    pattern := BuildRegex(root);
  }

  /** The space and word metacharacters: `\s\S\w\W`. */
  method SpaceAndWord(scope: RegexScope)
    modifies scope
    ensures scope.Pattern() == old(scope.Pattern()) + "\\s\\S\\w\\W"
    ensures scope.currentIndex == old(scope.currentIndex)
  {
    scope.MatchElement(Meta(SpaceChar), None);
    scope.MatchElement(Meta(NonSpaceChar), None);
    scope.MatchElement(Meta(WordChar), None);
    scope.MatchElement(Meta(NonWordChar), None);
  }

  /** The seven metacharacters: `.*\s\S\w\W\d\D`. */
  method AllMetaCharactersExample() returns (pattern: string)
    ensures pattern == ".*" + "\\s\\S\\w\\W" + "\\d" + "\\D"
  {
    var root := new RegexScope();
    root.MatchElement(Meta(AnyChar), Some(AnyTimes));
    assert root.Pattern() == ".*";
    SpaceAndWord(root);
    root.MatchElement(Meta(DigitChar), None);
    root.MatchElement(Meta(NonDigitChar), None);
    pattern := BuildRegex(root);
  }

  /** Anchors and alternation: `^a|b$`. */
  method AnchorsExample() returns (pattern: string)
    ensures pattern == "^" + "a" + "|" + "b" + "$"
  {
    EscapedPlain("a");
    EscapedPlain("b");
    EmptyPrefix("^");
    var root := new RegexScope();
    root.MatchStringBegin();
    root.MatchString("a", None);
    root.InsertOr();
    root.MatchString("b", None);
    root.MatchStringEnd();
    pattern := BuildRegex(root);
  }

  /** The word-boundary fragments: `\bab\B`. */
  method BoundariesExample() returns (pattern: string)
    ensures pattern == "\\b" + "ab" + "\\B"
  {
    EscapedPlain("ab");
    EmptyPrefix("\\b");
    var root := new RegexScope();
    root.MatchWordBoundary();
    root.MatchString("ab", None);
    root.MatchNonWordBoundary();
    pattern := BuildRegex(root);
  }

  /** Both lookaheads: `(?=a)(?!b)`. */
  method Lookaheads(scope: RegexScope)
    modifies scope
    ensures scope.Pattern() == old(scope.Pattern()) + "(?=a)(?!b)"
    ensures scope.currentIndex == old(scope.currentIndex)
  {
    var a := Literal("a");
    scope.Lookahead(a);
    var b := Literal("b");
    scope.LookaheadNegative(b);
  }

  /** Both lookbehinds: `(?<=c)(?<!a)`. */
  method Lookbehinds(scope: RegexScope)
    modifies scope
    ensures scope.Pattern() == old(scope.Pattern()) + "(?<=c)(?<!a)"
    ensures scope.currentIndex == old(scope.currentIndex)
  {
    var c := Literal("c");
    scope.Lookbehind(c);
    var a := Literal("a");
    scope.LookbehindNegative(a);
  }

  /** The block `matchUncapturedGroup(atMostOne) { match("ab") }`. */
  method OptionalAb(scope: RegexScope)
    modifies scope
    ensures scope.Pattern() == old(scope.Pattern()) + "(?:ab)?"
    ensures scope.currentIndex == old(scope.currentIndex)
  {
    var ab := Literal("ab");
    scope.MatchUncapturedGroup(Some(AtMostOne), ab);
  }

  /** The four lookarounds and a quantified non-capturing group; none takes an index. */
  method LookaroundExample() returns (pattern: string, index: int)
    ensures pattern == "(?=a)(?!b)" + "(?<=c)(?<!a)" + "(?:ab)?"
    ensures index == 0
  {
    EmptyPrefix("(?=a)(?!b)");
    var root := new RegexScope();
    Lookaheads(root);
    Lookbehinds(root);
    OptionalAb(root);
    pattern := BuildRegex(root);
    index := root.currentIndex;
  }

  /** `\d+\.`: a digit run and a dot, written with the character form. */
  method DigitsDot(scope: RegexScope)
    modifies scope
    ensures scope.Pattern() == old(scope.Pattern()) + "\\d+\\."
    ensures scope.currentIndex == old(scope.currentIndex)
  {
    EscapedSingle('.');
    scope.MatchElement(Meta(DigitChar), Some(AtLeastOne));
    scope.MatchChar('.', None);
  }

  /** `\d+`: a digit run. */
  method DigitRun(scope: RegexScope)
    modifies scope
    ensures scope.Pattern() == old(scope.Pattern()) + "\\d+"
    ensures scope.currentIndex == old(scope.currentIndex)
  {
    scope.MatchElement(Meta(DigitChar), Some(AtLeastOne));
  }

  /** The block `{ match(':'); match(digitChar, anyTimes) }` on a fresh scope. */
  method PortBlock() returns (scope: RegexScope)
    ensures fresh(scope) && scope.currentIndex == 0
    ensures scope.Pattern() == ":" + "\\d" + "*"
  {
    SeparatorLiterals();
    EmptyPrefix(":");
    scope := new RegexScope();
    scope.MatchChar(':', None);
    scope.MatchElement(Meta(DigitChar), Some(AnyTimes));
  }

  /** The block `matchIndexedGroup(atMostOne) { … }` around the port. */
  method OptionalPort(scope: RegexScope)
    modifies scope
    ensures scope.Pattern() == old(scope.Pattern()) + "(:\\d*)?"
    ensures scope.currentIndex == old(scope.currentIndex) + 1
  {
    var before := scope.Pattern();
    var port := PortBlock();
    var _ := scope.MatchIndexedGroup(Some(AtMostOne), port);
    Regroup(before, "(", port.Pattern(), ")", "?");
    PortText();
  }

  /** Proof helper: the port group's pieces spell `(:\d*)?`. */
  lemma PortText()
    ensures "(" + (":" + "\\d" + "*") + ")" + "?" == "(:\\d*)?"
  {
  }

  /** The text of the `ip` group's body, piece by piece. */
  const IpPattern: string := "\\d+\\." + "\\d+\\." + "\\d+\\." + "\\d+" + "(:\\d*)?"

  /** The body of the `ip` group: four digit runs joined by dots and an optional
      port group, on a fresh scope. */
  method IpBlock() returns (scope: RegexScope)
    ensures fresh(scope) && scope.currentIndex == 1
    ensures scope.Pattern() == IpPattern
  {
    EmptyPrefix("\\d+\\.");
    scope := new RegexScope();
    DigitsDot(scope);
    DigitsDot(scope);
    DigitsDot(scope);
    DigitRun(scope);
    OptionalPort(scope);
  }

  /** The block `matchIndexedGroup(anyTimes) { match(wordChar, atLeastOne); match('.') }`. */
  method DottedLabels(scope: RegexScope)
    modifies scope
    ensures scope.Pattern() == old(scope.Pattern()) + "(\\w+\\.)*"
    ensures scope.currentIndex == old(scope.currentIndex) + 1
  {
    var dotted := new RegexScope();
    EscapedSingle('.');
    dotted.MatchElement(Meta(WordChar), Some(AtLeastOne));
    dotted.MatchChar('.', None);
    var _ := scope.MatchIndexedGroup(Some(AnyTimes), dotted);
  }

  /** `\w+`: a word run. */
  method WordRun(scope: RegexScope)
    modifies scope
    ensures scope.Pattern() == old(scope.Pattern()) + "\\w+"
    ensures scope.currentIndex == old(scope.currentIndex)
  {
    scope.MatchElement(Meta(WordChar), Some(AtLeastOne));
  }

  /** The text of the `domain` group's body, piece by piece. */
  const DomainPattern: string := "(\\w+\\.)*" + "\\w+"

  /** The body of the `domain` group: dotted labels, then a last label. */
  method DomainBlock() returns (scope: RegexScope)
    ensures fresh(scope) && scope.currentIndex == 1
    ensures scope.Pattern() == DomainPattern
  {
    EmptyPrefix("(\\w+\\.)*");
    scope := new RegexScope();
    DottedLabels(scope);
    WordRun(scope);
  }

  /** The text of the host alternative, piece by piece. */
  const HostPattern: string := "(?<ip>" + IpPattern + ")" + "|" + "(?<domain>" + DomainPattern + ")"

  /** The host alternative: the named `ip` group or the named `domain` group. */
  method HostBlock() returns (scope: RegexScope)
    ensures fresh(scope) && scope.currentIndex == 2
    ensures scope.Pattern() == HostPattern
  {
    assert IsIdentifier("ip") && IsIdentifier("domain");
    GroupOpenings();
    EmptyPrefix("(?<ip>");
    scope := new RegexScope();
    var ip := IpBlock();
    var _ := scope.MatchNamedGroup("ip", None, ip);
    scope.InsertOr();
    var domain := DomainBlock();
    var _ := scope.MatchNamedGroup("domain", None, domain);
  }

  /** The text of the `path` group's body. */
  const PathPattern: string := "(/[^/]+)*"

  /** The block `{ match('/'); matchNegatedCharacterSet(atLeastOne) { add('/') } }`
      on a fresh scope: one path segment. */
  method SegmentBlock() returns (scope: RegexScope)
    ensures fresh(scope) && scope.currentIndex == 0
    ensures scope.Pattern() == "/[^/]+"
  {
    SeparatorLiterals();
    EmptyPrefix("/");
    scope := new RegexScope();
    scope.MatchChar('/', None);
    var notSlash := new AbstractCharacterSet(true);
    notSlash.AddChar('/');
    assert notSlash.MembersText() == "/" by { EmptyPrefix("/"); }
    scope.MatchNegatedCharacterSet(Some(AtLeastOne), notSlash);
    SegmentText();
  }

  /** Proof helper: the path segment's pieces spell `/[^/]+`. */
  lemma SegmentText()
    ensures "/" + "[^" + "/" + "]" + "+" == "/[^/]+"
  {
  }

  /** The block `matchIndexedGroup(anyTimes) { … }` around a path segment. */
  method PathSegments(scope: RegexScope)
    modifies scope
    ensures scope.Pattern() == old(scope.Pattern()) + PathPattern
    ensures scope.currentIndex == old(scope.currentIndex) + 1
  {
    var segment := SegmentBlock();
    var _ := scope.MatchIndexedGroup(Some(AnyTimes), segment);
  }

  /** `^http`: the start anchor and the scheme's fixed letters. */
  method SchemeStart(scope: RegexScope)
    modifies scope
    ensures scope.Pattern() == old(scope.Pattern()) + "^http"
    ensures scope.currentIndex == old(scope.currentIndex)
  {
    SchemeLiterals();
    scope.MatchStringBegin();
    scope.MatchString("http", None);
  }

  /** `s?://`: the optional `s` and the separator. */
  method SchemeEnd(scope: RegexScope)
    modifies scope
    ensures scope.Pattern() == old(scope.Pattern()) + "s?://"
    ensures scope.currentIndex == old(scope.currentIndex)
  {
    SchemeLiterals();
    scope.MatchChar('s', Some(AtMostOne));
    scope.MatchString("://", None);
  }

  /** `match("http"); match('s', atMostOne); match("://")` after the start anchor. */
  method Scheme(scope: RegexScope)
    modifies scope
    ensures scope.Pattern() == old(scope.Pattern()) + "^https?://"
    ensures scope.currentIndex == old(scope.currentIndex)
  {
    SchemeStart(scope);
    SchemeEnd(scope);
  }

  /** The block `matchIndexedGroup { matchNamedGroup("ip") { … }; insertOr(); matchNamedGroup("domain") { … } }`. */
  method HostGroup(scope: RegexScope)
    modifies scope
    ensures scope.Pattern() == old(scope.Pattern()) + "(" + HostPattern + ")"
    ensures scope.currentIndex == old(scope.currentIndex) + 1
  {
    var host := HostBlock();
    var _ := scope.MatchIndexedGroup(None, host);
  }

  /** The block `matchNamedGroup("path") { … }`. */
  method PathGroup(scope: RegexScope)
    modifies scope
    ensures scope.Pattern() == old(scope.Pattern()) + "(?<path>" + PathPattern + ")"
    ensures scope.currentIndex == old(scope.currentIndex) + 1
  {
    assert IsIdentifier("path");
    GroupOpenings();
    EmptyPrefix(PathPattern);
    var path := new RegexScope();
    PathSegments(path);
    var _ := scope.MatchNamedGroup("path", None, path);
  }

  /** The URL pattern, assembled from the texts above:
      `^https?://((?<ip>\d+\.\d+\.\d+\.\d+(:\d*)?)|(?<domain>(\w+\.)*\w+))(?<path>(/[^/]+)*)$`.
      The root scope numbers two groups, the host group and the path group. */
  method UrlExample() returns (pattern: string, index: int)
    ensures pattern == "^https?://" + "(" + HostPattern + ")" + "(?<path>" + PathPattern + ")" + "$"
    ensures index == 2
  {
    EmptyPrefix("^https?://");
    var root := new RegexScope();
    Scheme(root);
    HostGroup(root);
    PathGroup(root);
    root.MatchStringEnd();
    pattern := BuildRegex(root);
    index := root.currentIndex;
  }
}
