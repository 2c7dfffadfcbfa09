/**
 * Metacharacters (MetaCharacter.kt). The Kotlin value class has an internal
 * constructor, so outside the library only the seven predefined accessors produce
 * one; the model makes those seven the only values.
 */
module MetaCharacters {
  import opened Wrappers

  datatype MetaCharacter =
    | AnyChar       // `.`
    | SpaceChar     // `\s`
    | NonSpaceChar  // `\S`
    | WordChar      // `\w`
    | NonWordChar   // `\W`
    | DigitChar     // `\d`
    | NonDigitChar  // `\D`
  {
    /** The pattern text the metacharacter stands for. */
    function Value(): string {
      match this
      case AnyChar => "."
      case SpaceChar => "\\s"
      case NonSpaceChar => "\\S"
      case WordChar => "\\w"
      case NonWordChar => "\\W"
      case DigitChar => "\\d"
      case NonDigitChar => "\\D"
    }
  }

  /** The metacharacter whose text is `v`, if any. */
  function FromValue(v: string): Option<MetaCharacter> {
    if v == "." then Some(AnyChar)
    else if v == "\\s" then Some(SpaceChar)
    else if v == "\\S" then Some(NonSpaceChar)
    else if v == "\\w" then Some(WordChar)
    else if v == "\\W" then Some(NonWordChar)
    else if v == "\\d" then Some(DigitChar)
    else if v == "\\D" then Some(NonDigitChar)
    else None
  }

  /** The text of a metacharacter identifies it: the seven values are distinct and
      are exactly the texts FromValue accepts. */
  lemma ValueRoundTrip(m: MetaCharacter, v: string)
    ensures FromValue(m.Value()) == Some(m)
    ensures FromValue(v) == Some(m) ==> m.Value() == v
  {
  }

  /** `.` or a backslash and one letter: the shape every value has. */
  lemma ValueShape(m: MetaCharacter)
    ensures m.Value() == "." || (|m.Value()| == 2 && m.Value()[0] == '\\')
  {
  }
}
