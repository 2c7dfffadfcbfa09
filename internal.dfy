/**
 * The escaper of literal text (Internal.kt): a fixed table from the 17 characters
 * that are special in a pattern to their two-character escapes, and the transform
 * that replaces each such character by its escape and keeps every other one.
 */
module Internal {

  /** The escape table, entry for entry. */
  const EscapeMap: map<char, string> := map[
    '.' := "\\.",
    '\\' := "\\\\",
    '^' := "\\^",
    '$' := "\\$",
    '[' := "\\[",
    ']' := "\\]",
    '(' := "\\(",
    ')' := "\\)",
    '*' := "\\*",
    '+' := "\\+",
    '?' := "\\?",
    '{' := "\\{",
    '}' := "\\}",
    '|' := "\\|",
    '\n' := "\\n",
    '\r' := "\\r",
    '\t' := "\\t"
  ]

  /** The characters whose escape is a backslash followed by the character itself. */
  predicate IsPunctuationKey(c: char) {
    c == '.' || c == '\\' || c == '^' || c == '$' || c == '[' || c == ']' || c == '('
    || c == ')' || c == '*' || c == '+' || c == '?' || c == '{' || c == '}' || c == '|'
  }

  /** The letter that names a control character in its escape. */
  function ControlLetter(c: char): char {
    if c == '\n' then 'n' else if c == '\r' then 'r' else if c == '\t' then 't' else c
  }

  /** What the table holds: the 14 punctuation keys escape to themselves after a
      backslash, newline, carriage return and tab to `\n`, `\r`, `\t`. */
  lemma EscapeMapEntries(c: char)
    ensures c in EscapeMap <==> IsPunctuationKey(c) || c == '\n' || c == '\r' || c == '\t'
    ensures IsPunctuationKey(c) ==> EscapeMap[c] == ['\\', c]
    ensures c == '\n' || c == '\r' || c == '\t' ==> EscapeMap[c] == ['\\', ControlLetter(c)]
  {
  }

  /** The text one character stands for after escaping. */
  function EscapeChar(c: char): string {
    if c in EscapeMap then EscapeMap[c] else [c]
  }

  /** The escaped form of a whole string: each character in turn. */
  function Escaped(s: string): string {
    if s == [] then [] else EscapeChar(s[0]) + Escaped(s[1..])
  }

  /** The fast-path test: no character of `s` is a key of the table. */
  predicate NoneNeedsEscape(s: string) {
    forall i :: 0 <= i < |s| ==> s[i] !in EscapeMap
  }

  /** How many characters of `s` the table escapes. */
  function EscapableCount(s: string): nat {
    if s == [] then 0 else (if s[0] in EscapeMap then 1 else 0) + EscapableCount(s[1..])
  }

  /** Escaping distributes over concatenation. */
  lemma {:induction false} EscapedConcat(a: string, b: string)
    ensures Escaped(a + b) == Escaped(a) + Escaped(b)
    decreases |a|
  {
    if a == [] {
      assert a + b == b;
    } else {
      assert (a + b)[0] == a[0];
      assert (a + b)[1..] == a[1..] + b;
      EscapedConcat(a[1..], b);
    }
  }

  /** Escaping a string one character longer appends that character's escape. */
  lemma EscapedSnoc(s: string, c: char)
    ensures Escaped(s + [c]) == Escaped(s) + EscapeChar(c)
  {
    EscapedConcat(s, [c]);
    assert Escaped([c]) == EscapeChar(c) + Escaped([]);
  }

  /** Each table entry is two characters long, so the output grows by one
      character per escaped input character. */
  lemma {:induction false} EscapedLength(s: string)
    ensures |Escaped(s)| == |s| + EscapableCount(s)
    decreases |s|
  {
    if s != [] {
      EscapeMapEntries(s[0]);
      EscapedLength(s[1..]);
    }
  }

  /** No character of `s` is escapable exactly when the count is zero. */
  lemma {:induction false} EscapableCountZero(s: string)
    ensures EscapableCount(s) == 0 <==> NoneNeedsEscape(s)
    decreases |s|
  {
    if s != [] {
      EscapableCountZero(s[1..]);
      assert forall i :: 0 < i < |s| ==> s[i] == s[1..][i - 1];
    }
  }

  /** The fast path is sound and exact: escaping leaves `s` unchanged
      precisely when no character of `s` is in the table. */
  lemma {:induction false} EscapedIdentity(s: string)
    ensures Escaped(s) == s <==> NoneNeedsEscape(s)
    decreases |s|
  {
    EscapedLength(s);
    EscapableCountZero(s);
    if s != [] && NoneNeedsEscape(s) {
      EscapedIdentity(s[1..]);
      assert NoneNeedsEscape(s[1..]) by {
        assert forall i :: 0 <= i < |s[1..]| ==> s[1..][i] == s[i + 1];
      }
      assert s == [s[0]] + s[1..];
    }
  }

  /** Reads escaped text back: a backslash and the next character stand for the
      character that was escaped; any other character stands for itself. */
  function Unescape(t: string): string
    decreases |t|
  {
    if 2 <= |t| && t[0] == '\\' then [UnescapeLetter(t[1])] + Unescape(t[2..])
    else if t == [] then []
    else [t[0]] + Unescape(t[1..])
  }

  /** The inverse of ControlLetter on the three control letters. */
  function UnescapeLetter(c: char): char {
    if c == 'n' then '\n' else if c == 'r' then '\r' else if c == 't' then '\t' else c
  }

  /** Escaping loses nothing: the escaped text reads back as the original, so two
      different literals never escape to the same pattern text. */
  lemma {:induction false} UnescapeEscaped(s: string)
    ensures Unescape(Escaped(s)) == s
    decreases |s|
  {
    if s != [] {
      var c := s[0];
      var rest := Escaped(s[1..]);
      EscapeMapEntries(c);
      UnescapeEscaped(s[1..]);
      var t := EscapeChar(c) + rest;
      if c in EscapeMap {
        assert t[0] == '\\' && t[1] == ControlLetter(c);
        assert t[2..] == rest;
      } else {
        assert t[0] == c && t[1..] == rest;
      }
      assert s == [c] + s[1..];
    }
  }

  /** `String.escaped()`: the fast path returns the input itself, otherwise the
      characters are escaped one by one into a fresh buffer. */
  method Escape(s: string) returns (r: string)
    ensures r == Escaped(s)
  {
    if forall i | 0 <= i < |s| :: s[i] !in EscapeMap {
      EscapedIdentity(s);
      return s;
    }
    r := "";
    for i := 0 to |s|
      invariant r == Escaped(s[..i])
    {
      var c := s[i];
      if c in EscapeMap {
        r := r + EscapeMap[c];
      } else {
        r := r + [c];
      }
      EscapedSnoc(s[..i], c);
      assert s[..i + 1] == s[..i] + [c];
    }
    assert s[..|s|] == s;
  }

  /** A one-character string escapes to that character's escape. */
  lemma EscapedSingle(c: char)
    ensures Escaped([c]) == EscapeChar(c)
  {
    assert [c][1..] == [];
  }

  /** Escaping the literal `a.b*c+d?` of the scope tests, written piece by piece. */
  lemma EscapedExample()
    ensures Escaped("a." + "b*" + "c+" + "d?") == "a\\." + "b\\*" + "c\\+" + "d\\?"
  {
    EscapedExamplePairs();
    EscapedConcatFour("a.", "b*", "c+", "d?");
  }

  /** The four two-character pieces of that literal, escaped. */
  lemma EscapedExamplePairs()
    ensures Escaped("a.") == "a\\." && Escaped("b*") == "b\\*"
    ensures Escaped("c+") == "c\\+" && Escaped("d?") == "d\\?"
  {
    EscapedPair('a', '.');
    EscapedPair('b', '*');
    EscapedPair('c', '+');
    EscapedPair('d', '?');
  }

  lemma EscapedConcatFour(p1: string, p2: string, p3: string, p4: string)
    ensures Escaped(p1 + p2 + p3 + p4) == Escaped(p1) + Escaped(p2) + Escaped(p3) + Escaped(p4)
  {
    EscapedConcat(p1 + p2 + p3, p4);
    EscapedConcat(p1 + p2, p3);
    EscapedConcat(p1, p2);
  }

  lemma EscapedPair(c: char, d: char)
    ensures Escaped([c, d]) == EscapeChar(c) + EscapeChar(d)
  {
    assert [c, d][1..] == [d];
    EscapedSingle(d);
  }
}
