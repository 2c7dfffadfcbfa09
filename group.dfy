/**
 * Backreferences (Group.kt). Both are immutable values; neither constructor checks
 * its argument: the index may be any integer and the name any string. Names are
 * checked only when a named group is opened (see module Scopes).
 */
module Groups {
  import opened Wrappers
  import opened Decimal
  import opened Elements

  /** An indexed backreference is a backslash and the index in decimal, and the
      index can be read back from the text: distinct indices never collide. */
  lemma IndexedGroupRefText(index: int)
    ensures Serialize(IndexedGroupRef(index))[0] == '\\'
    ensures ParseInt(Serialize(IndexedGroupRef(index))[1..]) == Some(index)
  {
    var t := Serialize(IndexedGroupRef(index));
    assert t[1..] == IntToString(index);
    ParseIntOfIntToString(index);
  }

  /** A named backreference is `\k<`, the name, `>`; the name is recovered from
      the text by dropping those delimiters. */
  lemma NamedGroupRefText(name: string)
    ensures Serialize(NamedGroupRef(name))[..3] == "\\k<"
    ensures Serialize(NamedGroupRef(name))[|Serialize(NamedGroupRef(name))| - 1] == '>'
    ensures Serialize(NamedGroupRef(name))[3..|Serialize(NamedGroupRef(name))| - 1] == name
  {
  }

  /** Two references of the same kind serialise alike only if they are equal. */
  lemma GroupRefsInjective(i: int, j: int, m: string, n: string)
    ensures Serialize(IndexedGroupRef(i)) == Serialize(IndexedGroupRef(j)) ==> i == j
    ensures Serialize(NamedGroupRef(m)) == Serialize(NamedGroupRef(n)) ==> m == n
  {
    IndexedGroupRefText(i);
    IndexedGroupRefText(j);
    NamedGroupRefText(m);
    NamedGroupRefText(n);
  }

  /** The reference texts of the group tests. */
  lemma GroupRefExamples()
    ensures Serialize(IndexedGroupRef(1)) == "\\1"
    ensures Serialize(IndexedGroupRef(2)) == "\\2"
    ensures Serialize(NamedGroupRef("test")) == "\\k<test>"
  {
    assert IntToString(1) == "1" && IntToString(2) == "2";
  }
}
