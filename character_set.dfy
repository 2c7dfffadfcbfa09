/**
 * Character sets (CharacterSet.kt). The sealed base class owns the member list;
 * its two subclasses differ only in the opening bracket they write. One class with
 * a `negated` flag stands for both: `negated == false` is CharacterSet and
 * `negated == true` is NegatedCharacterSet.
 */
module CharacterSets {
  import opened Elements
  import opened MetaCharacters

  class AbstractCharacterSet {
    var elements: seq<Element>
    const negated: bool

    constructor (negated: bool)
      ensures elements == [] && this.negated == negated
    {
      elements := [];
      this.negated := negated;
    }

    /** The element value the finished set becomes inside a scope. */
    function AsElement(): Element
      reads this
    {
      if negated then NegatedCharacterSet(elements) else CharacterSet(elements)
    }

    /** The members' text, in the order they were added. */
    function MembersText(): string
      reads this
    {
      SerializeAll(elements)
    }

    /** `range(from, to)`: one member `from-to`; the order of the bounds is not checked. */
    method Range(from: char, to: char)
      modifies this
      ensures elements == old(elements) + [Single([from, '-', to])]
      ensures MembersText() == old(MembersText()) + [from, '-', to]
    {
      elements := elements + [Single([from, '-', to])];
      SerializeAllSnoc(old(elements), Single([from, '-', to]));
    }

    /** `add(char)`: the character itself, unescaped. */
    method AddChar(c: char)
      modifies this
      ensures elements == old(elements) + [Single([c])]
      ensures MembersText() == old(MembersText()) + [c]
    {
      elements := elements + [Single([c])];
      SerializeAllSnoc(old(elements), Single([c]));
    }

    /** `add(metaCharacter)`: the metacharacter element, written verbatim. */
    method AddMeta(m: MetaCharacter)
      modifies this
      ensures elements == old(elements) + [Meta(m)]
      ensures MembersText() == old(MembersText()) + m.Value()
    {
      elements := elements + [Meta(m)];
      SerializeAllSnoc(old(elements), Meta(m));
    }

    /** `appendTo`: the opening bracket, every member in order, the closing bracket. */
    method AppendTo(buffer: string) returns (out: string)
      ensures out == buffer + (if negated then "[^" else "[") + MembersText() + "]"
      ensures out == buffer + Serialize(AsElement())
    {
      var open := if negated then "[^" else "[";
      out := buffer + open;
      for i := 0 to |elements|
        invariant out == buffer + open + SerializeAll(elements[..i])
      {
        SerializeAllSnoc(elements[..i], elements[i]);
        assert elements[..i + 1] == elements[..i] + [elements[i]];
        out := out + Serialize(elements[i]);
      }
      assert elements[..|elements|] == elements;
      out := out + "]";
    }
  }

  /** The set built in the mixed-members test serialises as `[a0-9_]`:
      members keep their call order and are neither sorted nor merged. */
  method MixedMembersExample() returns (text: string)
    ensures text == "[a0-9_]"
  {
    var cs := new AbstractCharacterSet(false);
    cs.AddChar('a');
    cs.Range('0', '9');
    cs.AddChar('_');
    text := cs.AppendTo("");
  }

  /** A negated set over one range serialises as `[^a-z]`. */
  method NegatedRangeExample() returns (text: string)
    ensures text == "[^a-z]"
  {
    var cs := new AbstractCharacterSet(true);
    cs.Range('a', 'z');
    text := cs.AppendTo("");
  }

  /** A metacharacter member keeps its backslash: `[a\d]`. */
  method MetaMemberExample() returns (text: string)
    ensures text == "[a\\d]"
  {
    var cs := new AbstractCharacterSet(false);
    cs.AddChar('a');
    cs.AddMeta(DigitChar);
    text := cs.AppendTo("");
  }
}
