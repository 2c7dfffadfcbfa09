/**
 * The scope builder (RegexScope.kt): an ordered, growing list of elements and a
 * private group counter that starts at 0. Every builder operation appends to the
 * list. A configuration block of the library is modelled by a child scope (or a
 * character set) that the caller has already configured and passes in; the child
 * is a distinct object with its own counter, and it enters this scope's list as the
 * element value it holds at that moment.
 */
module Scopes {
  import opened Wrappers
  import opened Internal
  import opened Quantifiers
  import opened MetaCharacters
  import opened Elements
  import opened CharacterSets

  /** The components an optional trailing quantifier adds. */
  function QuantifierPart(q: Option<Quantifier>): seq<Element> {
    if q.Some? then [Single(q.value.value)] else []
  }

  /** `text` followed by the quantifier's suffix, if there is one. */
  function Quantified(text: string, q: Option<Quantifier>): string {
    if q.Some? then text + q.value.value else text
  }

  /** Kotlin's `String.length`: the number of UTF-16 code units, which is two for
      a character outside the Basic Multilingual Plane. */
  function Utf16Length(s: string): (n: nat)
    ensures |s| <= n <= 2 * |s|
  {
    if s == [] then 0 else (if s[0] as int < 0x1_0000 then 1 else 2) + Utf16Length(s[1..])
  }

  /** A string has Kotlin length one exactly when it is one character of the
      Basic Multilingual Plane; a single supplementary character has length two. */
  lemma Utf16LengthOne(s: string)
    ensures Utf16Length(s) == 1 <==> |s| == 1 && s[0] as int < 0x1_0000
  {
    if 0 < |s| {
      assert Utf16Length(s) == (if s[0] as int < 0x1_0000 then 1 else 2) + Utf16Length(s[1..]);
    }
  }

  predicate IsAsciiLetter(c: char) {
    'a' <= c <= 'z' || 'A' <= c <= 'Z'
  }

  predicate IsIdentifierPart(c: char) {
    IsAsciiLetter(c) || '0' <= c <= '9' || c == '_' || c == '-'
  }

  /** Whole-string match of `[a-zA-Z][a-zA-Z0-9_-]*`, the rule group names must meet. */
  predicate IsIdentifier(name: string) {
    0 < |name| && IsAsciiLetter(name[0]) && forall i :: 1 <= i < |name| ==> IsIdentifierPart(name[i])
  }

  /** A valid group name needs no escaping and cannot close the `(?<name>` or
      `\k<name>` delimiter early. */
  lemma IdentifierIsPlain(name: string)
    requires IsIdentifier(name)
    ensures NoneNeedsEscape(name)
    ensures forall i :: 0 <= i < |name| ==> name[i] != '>'
  {
    forall i | 0 <= i < |name| ensures name[i] !in EscapeMap {
      EscapeMapEntries(name[i]);
    }
  }

  /** The identifier rule on a few names. */
  lemma IdentifierExamples()
    ensures IsIdentifier("test") && IsIdentifier("ip") && IsIdentifier("a-b_9")
    ensures !IsIdentifier("") && !IsIdentifier("1st") && !IsIdentifier("_x") && !IsIdentifier("a b")
  {
    assert "a b"[1] == ' ';
  }

  class RegexScope {
    var components: seq<Element>
    var currentIndex: int

    constructor ()
      ensures components == [] && currentIndex == 0
    {
      components := [];
      currentIndex := 0;
    }

    /** The text this scope serialises to. */
    function Pattern(): string
      reads this
    {
      SerializeAll(components)
    }

    /** The element value this scope becomes when nested in another one. */
    function AsElement(): Element
      reads this
    {
      Scope(components)
    }

    /** `nextIndex`: advances the counter and returns its new value. */
    method NextIndex() returns (index: int)
      modifies this`currentIndex
      ensures currentIndex == old(currentIndex) + 1
      ensures index == currentIndex
    {
      currentIndex := currentIndex + 1;
      index := currentIndex;
    }

    /** `appendTo`: every component's text, in order, after the buffer. */
    method AppendTo(buffer: string) returns (out: string)
      ensures out == buffer + Pattern()
    {
      out := buffer;
      for i := 0 to |components|
        invariant out == buffer + SerializeAll(components[..i])
      {
        SerializeAllSnoc(components[..i], components[i]);
        assert components[..i + 1] == components[..i] + [components[i]];
        out := out + Serialize(components[i]);
      }
      assert components[..|components|] == components;
    }

    /** Appends one raw fragment. */
    method AppendFragment(text: string)
      modifies this`components
      ensures components == old(components) + [Single(text)]
      ensures Pattern() == old(Pattern()) + text
    {
      components := components + [Single(text)];
      SingleVerbatim(text);
      SerializeAllConcat(old(components), [Single(text)]);
    }

    method MatchStringBegin()
      modifies this`components
      ensures components == old(components) + [Single("^")]
      ensures Pattern() == old(Pattern()) + "^"
    {
      AppendFragment("^");
    }

    method InsertOr()
      modifies this`components
      ensures components == old(components) + [Single("|")]
      ensures Pattern() == old(Pattern()) + "|"
    {
      AppendFragment("|");
    }

    method MatchStringEnd()
      modifies this`components
      ensures components == old(components) + [Single("$")]
      ensures Pattern() == old(Pattern()) + "$"
    {
      AppendFragment("$");
    }

    method MatchWordBoundary()
      modifies this`components
      ensures components == old(components) + [Single("\\b")]
      ensures Pattern() == old(Pattern()) + "\\b"
    {
      AppendFragment("\\b");
    }

    method MatchNonWordBoundary()
      modifies this`components
      ensures components == old(components) + [Single("\\B")]
      ensures Pattern() == old(Pattern()) + "\\B"
    {
      AppendFragment("\\B");
    }

    /** Appends the optional quantifier's suffix as its own fragment. */
    method AppendQuantifier(q: Option<Quantifier>)
      modifies this`components
      ensures components == old(components) + QuantifierPart(q)
      ensures Pattern() == Quantified(old(Pattern()), q)
    {
      if q.Some? {
        AppendFragment(q.value.value);
      } else {
        assert components == old(components) + [];
      }
    }

    /** `match(Char, Quantifier?)`: the escaped character, then the quantifier if any. */
    method MatchChar(c: char, q: Option<Quantifier>)
      modifies this`components
      ensures components == old(components) + [Single(Escaped([c]))] + QuantifierPart(q)
      ensures Pattern() == Quantified(old(Pattern()) + Escaped([c]), q)
    {
      var e := Escape([c]);
      AppendFragment(e);
      AppendQuantifier(q);
    }

    /** `match(String, Quantifier?)`: a string of Kotlin length one behaves as the
        character form; any other string with a quantifier is wrapped in a capturing
        group, which takes an index of this scope; otherwise the escaped string alone. */
    method MatchString(s: string, q: Option<Quantifier>)
      modifies this
      decreases if q.Some? then 1 else 0
      ensures Utf16Length(s) == 1 ==>
        components == old(components) + [Single(Escaped(s))] + QuantifierPart(q)
        && currentIndex == old(currentIndex)
        && Pattern() == Quantified(old(Pattern()) + Escaped(s), q)
      ensures Utf16Length(s) != 1 && q.Some? ==>
        components == old(components)
          + [Single("("), Scope([Single(Escaped(s))]), Single(")"), Single(q.value.value)]
        && currentIndex == old(currentIndex) + 1
        && Pattern() == old(Pattern()) + "(" + Escaped(s) + ")" + q.value.value
      ensures Utf16Length(s) != 1 && q.None? ==>
        components == old(components) + [Single(Escaped(s))]
        && currentIndex == old(currentIndex)
        && Pattern() == old(Pattern()) + Escaped(s)
    {
      if Utf16Length(s) == 1 {
        Utf16LengthOne(s);
        assert s == [s[0]];
        MatchChar(s[0], q);
      } else if q.Some? {
        var child := new RegexScope();
        child.MatchString(s, None);
        assert child.components == [Single(Escaped(s))];
        assert child.Pattern() == Escaped(s);
        var _ := MatchIndexedGroup(q, child);
        assert QuantifierPart(q) == [Single(q.value.value)];
      } else {
        var e := Escape(s);
        AppendFragment(e);
      }
    }

    /** `match(RegexElement, Quantifier?)`: the element itself, then the quantifier if any. */
    method MatchElement(e: Element, q: Option<Quantifier>)
      modifies this`components
      ensures components == old(components) + [e] + QuantifierPart(q)
      ensures Pattern() == Quantified(old(Pattern()) + Serialize(e), q)
    {
      components := components + [e];
      SerializeAllSnoc(old(components), e);
      AppendQuantifier(q);
    }

    /** `matchCharacterSet`: the configured positive set, then the quantifier if any. */
    method MatchCharacterSet(q: Option<Quantifier>, set_: AbstractCharacterSet)
      requires !set_.negated
      modifies this`components
      ensures components == old(components) + [CharacterSet(set_.elements)] + QuantifierPart(q)
      ensures Pattern() == Quantified(old(Pattern()) + "[" + set_.MembersText() + "]", q)
    {
      MatchElement(set_.AsElement(), q);
    }

    /** `matchNegatedCharacterSet`: the configured negated set, then the quantifier if any. */
    method MatchNegatedCharacterSet(q: Option<Quantifier>, set_: AbstractCharacterSet)
      requires set_.negated
      modifies this`components
      ensures components == old(components) + [NegatedCharacterSet(set_.elements)] + QuantifierPart(q)
      ensures Pattern() == Quantified(old(Pattern()) + "[^" + set_.MembersText() + "]", q)
    {
      MatchElement(set_.AsElement(), q);
    }

    /** Appends `open`, the child scope, `)` and the optional quantifier. */
    method AppendGroup(open: string, child: RegexScope, q: Option<Quantifier>)
      requires child != this
      modifies this`components
      ensures components == old(components) + [Single(open), Scope(child.components), Single(")")] + QuantifierPart(q)
      ensures Pattern() == Quantified(old(Pattern()) + open + child.Pattern() + ")", q)
    {
      var group := [Single(open), child.AsElement(), Single(")")];
      components := components + group;
      SerializeWrapped(open, child.components, ")");
      SerializeAllConcat(old(components), group);
      AppendQuantifier(q);
    }

    /** `lookahead`: `(?=` child `)`; takes no index. */
    method Lookahead(child: RegexScope)
      requires child != this
      modifies this`components
      ensures components == old(components) + [Single("(?="), Scope(child.components), Single(")")]
      ensures Pattern() == old(Pattern()) + "(?=" + child.Pattern() + ")"
    {
      AppendGroup("(?=", child, None);
    }

    /** `lookaheadNegative`: `(?!` child `)`; takes no index. */
    method LookaheadNegative(child: RegexScope)
      requires child != this
      modifies this`components
      ensures components == old(components) + [Single("(?!"), Scope(child.components), Single(")")]
      ensures Pattern() == old(Pattern()) + "(?!" + child.Pattern() + ")"
    {
      AppendGroup("(?!", child, None);
    }

    /** `lookbehind`: `(?<=` child `)`; takes no index. */
    method Lookbehind(child: RegexScope)
      requires child != this
      modifies this`components
      ensures components == old(components) + [Single("(?<="), Scope(child.components), Single(")")]
      ensures Pattern() == old(Pattern()) + "(?<=" + child.Pattern() + ")"
    {
      AppendGroup("(?<=", child, None);
    }

    /** `lookbehindNegative`: `(?<!` child `)`; takes no index. */
    method LookbehindNegative(child: RegexScope)
      requires child != this
      modifies this`components
      ensures components == old(components) + [Single("(?<!"), Scope(child.components), Single(")")]
      ensures Pattern() == old(Pattern()) + "(?<!" + child.Pattern() + ")"
    {
      AppendGroup("(?<!", child, None);
    }

    /** `matchUncapturedGroup`: `(?:` child `)` and the quantifier if any; takes no index. */
    method MatchUncapturedGroup(q: Option<Quantifier>, child: RegexScope)
      requires child != this
      modifies this`components
      ensures components == old(components) + [Single("(?:"), Scope(child.components), Single(")")] + QuantifierPart(q)
      ensures Pattern() == Quantified(old(Pattern()) + "(?:" + child.Pattern() + ")", q)
    {
      AppendGroup("(?:", child, q);
    }

    /** `matchNamedGroup`: rejects a name that is not an identifier and changes
        nothing; otherwise takes an index of this scope, appends `(?<name>` child `)`
        and the quantifier if any, and returns the reference by name. */
    method MatchNamedGroup(name: string, q: Option<Quantifier>, child: RegexScope) returns (r: Result<Element>)
      requires child != this
      modifies this
      ensures !IsIdentifier(name) ==>
        r == Err(IllegalArgument)
        && components == old(components) && currentIndex == old(currentIndex)
      ensures IsIdentifier(name) ==>
        r == Ok(NamedGroupRef(name))
        && currentIndex == old(currentIndex) + 1
        && components == old(components)
          + [Single("(?<" + name + ">"), Scope(child.components), Single(")")] + QuantifierPart(q)
        && Pattern() == Quantified(old(Pattern()) + ("(?<" + name + ">") + child.Pattern() + ")", q)
    {
      if !IsIdentifier(name) {
        return Err(IllegalArgument);
      }
      var _ := NextIndex();
      AppendGroup("(?<" + name + ">", child, q);
      r := Ok(NamedGroupRef(name));
    }

    /** `matchIndexedGroup`: appends `(` child `)` and the quantifier if any, then
        advances this scope's counter and returns a reference to its new value. */
    method MatchIndexedGroup(q: Option<Quantifier>, child: RegexScope) returns (r: Element)
      requires child != this
      modifies this
      ensures currentIndex == old(currentIndex) + 1
      ensures r == IndexedGroupRef(currentIndex)
      ensures components == old(components) + [Single("("), Scope(child.components), Single(")")] + QuantifierPart(q)
      ensures Pattern() == Quantified(old(Pattern()) + "(" + child.Pattern() + ")", q)
    {
      AppendGroup("(", child, q);
      var index := NextIndex();
      r := IndexedGroupRef(index);
    }
  }
}
