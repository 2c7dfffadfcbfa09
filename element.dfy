/**
 * The closed family of pattern elements (RegexElement.kt and its implementors) and
 * the one serialiser that all their `appendTo` methods amount to. Character sets and
 * scopes are mutable objects in the library; an element here is the value such an
 * object holds once its configuration block has finished.
 */
module Elements {
  import opened Decimal
  import opened MetaCharacters

  datatype Element =
    | Single(text: string)                        // a raw fragment, appended verbatim
    | Meta(meta: MetaCharacter)
    | IndexedGroupRef(index: int)                 // `\index`
    | NamedGroupRef(name: string)                 // `\k<name>`
    | CharacterSet(members: seq<Element>)         // `[...]`
    | NegatedCharacterSet(members: seq<Element>)  // `[^...]`
    | Scope(components: seq<Element>)             // a nested or root RegexScope

  /** The text `appendTo` appends for one element. */
  function Serialize(e: Element): string
    decreases e
  {
    match e
    case Single(text) => text
    case Meta(m) => m.Value()
    case IndexedGroupRef(i) => "\\" + IntToString(i)
    case NamedGroupRef(name) => "\\k<" + name + ">"
    case CharacterSet(ms) => "[" + SerializeAll(ms) + "]"
    case NegatedCharacterSet(ms) => "[^" + SerializeAll(ms) + "]"
    case Scope(cs) => SerializeAll(cs)
  }

  /** The elements' texts one after another, with no delimiter. */
  function SerializeAll(es: seq<Element>): string
    decreases es
  {
    if es == [] then "" else Serialize(es[0]) + SerializeAll(es[1..])
  }

  /** Serialising a concatenation of element lists concatenates their texts. */
  lemma {:induction false} SerializeAllConcat(a: seq<Element>, b: seq<Element>)
    ensures SerializeAll(a + b) == SerializeAll(a) + SerializeAll(b)
    decreases |a|
  {
    if a == [] {
      assert a + b == b;
    } else {
      assert (a + b)[0] == a[0];
      assert (a + b)[1..] == a[1..] + b;
      SerializeAllConcat(a[1..], b);
    }
  }

  /** A list that only grew at the end serialises to a text that only grew at the end. */
  lemma SerializeAllPrefix(a: seq<Element>, b: seq<Element>)
    requires a <= b
    ensures SerializeAll(a) <= SerializeAll(b)
  {
    assert b == a + b[|a|..];
    SerializeAllConcat(a, b[|a|..]);
  }

  /** One element appended to a list adds exactly that element's text. */
  lemma SerializeAllSnoc(a: seq<Element>, e: Element)
    ensures SerializeAll(a + [e]) == SerializeAll(a) + Serialize(e)
  {
    SerializeAllConcat(a, [e]);
    assert SerializeAll([e]) == Serialize(e) + SerializeAll([]);
  }

  /** A raw fragment serialises to its text with no escaping of its own. */
  lemma SingleVerbatim(text: string)
    ensures Serialize(Single(text)) == text
    ensures SerializeAll([Single(text)]) == text
  {
    assert [Single(text)][1..] == [];
  }

  /** Wrapping a scope in an opening and closing fragment surrounds its text. */
  lemma SerializeWrapped(open: string, cs: seq<Element>, close: string)
    ensures SerializeAll([Single(open), Scope(cs), Single(close)])
         == open + SerializeAll(cs) + close
  {
    assert [Single(open), Scope(cs), Single(close)] == [Single(open)] + [Scope(cs)] + [Single(close)];
    SerializeAllSnoc([Single(open)] + [Scope(cs)], Single(close));
    SerializeAllSnoc([Single(open)], Scope(cs));
    SingleVerbatim(open);
  }
}
