/**
 * Quantifiers (Quantifier.kt): an opaque wrapper around the suffix text that is
 * written after the element it repeats. The four constants and five factories are
 * the only ways to obtain one; the factories do not check their bounds.
 */
module Quantifiers {
  import opened Wrappers
  import opened Decimal

  /** Kotlin's constructor is internal: only the values `Make(o)` returns below, the
      four constants and the five factories, stand for the library's quantifiers.
      The datatype constructor itself is used only to define them. */
  datatype Quantifier = Quantifier(value: string)

  /** Kotlin's `a..b`: the factories read only its first and last bounds. */
  datatype IntRange = IntRange(first: int, last: int)

  const AnyTimes: Quantifier := Quantifier("*")
  const AtLeastOne: Quantifier := Quantifier("+")
  const AtLeastOneLazy: Quantifier := Quantifier("+?")
  const AtMostOne: Quantifier := Quantifier("?")

  function Exactly(times: int): Quantifier {
    Quantifier("{" + IntToString(times) + "}")
  }

  function AtLeast(times: int): Quantifier {
    Quantifier("{" + IntToString(times) + ",}")
  }

  function AtLeastLazy(times: int): Quantifier {
    Quantifier("{" + IntToString(times) + ",}?")
  }

  function InRange(range: IntRange): Quantifier {
    Quantifier("{" + IntToString(range.first) + "," + IntToString(range.last) + "}")
  }

  function InRangeLazy(range: IntRange): Quantifier {
    Quantifier("{" + IntToString(range.first) + "," + IntToString(range.last) + "}?")
  }

  /** Every lazy quantifier is its greedy counterpart followed by `?`. */
  lemma LazyIsGreedyThenQuestionMark(times: int, range: IntRange)
    ensures AtLeastOneLazy.value == AtLeastOne.value + "?"
    ensures AtLeastLazy(times).value == AtLeast(times).value + "?"
    ensures InRangeLazy(range).value == InRange(range).value + "?"
  {
  }

  /** Which constant or factory call a quantifier came from, with its arguments. */
  datatype Origin =
    | FromAnyTimes
    | FromAtLeastOne
    | FromAtLeastOneLazy
    | FromAtMostOne
    | FromExactly(times: int)
    | FromAtLeast(times: int)
    | FromAtLeastLazy(times: int)
    | FromInRange(range: IntRange)
    | FromInRangeLazy(range: IntRange)

  /** The quantifier each origin produces. */
  function Make(o: Origin): Quantifier {
    match o
    case FromAnyTimes => AnyTimes
    case FromAtLeastOne => AtLeastOne
    case FromAtLeastOneLazy => AtLeastOneLazy
    case FromAtMostOne => AtMostOne
    case FromExactly(n) => Exactly(n)
    case FromAtLeast(n) => AtLeast(n)
    case FromAtLeastLazy(n) => AtLeastLazy(n)
    case FromInRange(r) => InRange(r)
    case FromInRangeLazy(r) => InRangeLazy(r)
  }

  /** The position of the first `c` in `s`, or `|s|` when there is none. */
  function IndexOf(s: string, c: char): (k: nat)
    ensures k <= |s|
    ensures forall i :: 0 <= i < k ==> s[i] != c
    ensures k < |s| ==> s[k] == c
  {
    if s == [] then 0 else if s[0] == c then 0 else 1 + IndexOf(s[1..], c)
  }

  /** Reads a quantifier suffix back into the call that produced it. */
  function Parse(v: string): Option<Origin> {
    if v == "*" then Some(FromAnyTimes)
    else if v == "+" then Some(FromAtLeastOne)
    else if v == "+?" then Some(FromAtLeastOneLazy)
    else if v == "?" then Some(FromAtMostOne)
    else if 3 <= |v| && v[0] == '{' && v[|v| - 1] == '}' then ParseBraced(v[1..|v| - 1], false)
    else if 4 <= |v| && v[0] == '{' && v[|v| - 2] == '}' && v[|v| - 1] == '?' then
      ParseBraced(v[1..|v| - 2], true)
    else None
  }

  /** Reads the text between the braces: `n`, `n,` or `lo,hi`. */
  function ParseBraced(inner: string, lazy: bool): Option<Origin> {
    var k := IndexOf(inner, ',');
    if k == |inner| then
      if lazy then None
      else match ParseInt(inner)
        case Some(n) => Some(FromExactly(n))
        case None => None
    else
      match ParseInt(inner[..k])
      case None => None
      case Some(lo) =>
        if inner[k + 1..] == "" then Some(if lazy then FromAtLeastLazy(lo) else FromAtLeast(lo))
        else match ParseInt(inner[k + 1..])
          case None => None
          case Some(hi) =>
            Some(if lazy then FromInRangeLazy(IntRange(lo, hi)) else FromInRange(IntRange(lo, hi)))
  }

  /** A rendered integer holds no comma and no brace. */
  lemma NoCommaInInt(n: int)
    ensures forall i :: 0 <= i < |IntToString(n)| ==> IntToString(n)[i] != ',' && IntToString(n)[i] != '}'
  {
    forall i | 0 <= i < |IntToString(n)|
      ensures IntToString(n)[i] != ',' && IntToString(n)[i] != '}'
    {
      IntToStringChars(n, i);
    }
  }

  lemma IndexOfAfterCommaFree(a: string, b: string)
    requires forall i :: 0 <= i < |a| ==> a[i] != ','
    ensures IndexOf(a + "," + b, ',') == |a|
  {
    var s := a + "," + b;
    var k := IndexOf(s, ',');
    assert s[|a|] == ',';
    assert forall i :: 0 <= i < |a| ==> s[i] == a[i];
  }

  lemma ParseExactly(n: int)
    ensures Parse(Exactly(n).value) == Some(FromExactly(n))
  {
    var s := IntToString(n);
    var v := Exactly(n).value;
    assert v[0] == '{' && v[|v| - 1] == '}';
    assert v[1..|v| - 1] == s;
    NoCommaInInt(n);
    ParseIntOfIntToString(n);
  }

  lemma ParseInnerAtLeast(n: int, lazy: bool)
    ensures ParseBraced(IntToString(n) + "," + "", lazy)
         == Some(if lazy then FromAtLeastLazy(n) else FromAtLeast(n))
  {
    var s := IntToString(n);
    NoCommaInInt(n);
    IndexOfAfterCommaFree(s, "");
    assert (s + "," + "")[..|s|] == s;
    assert (s + "," + "")[|s| + 1..] == "";
    ParseIntOfIntToString(n);
  }

  lemma ParseAtLeast(n: int)
    ensures Parse(AtLeast(n).value) == Some(FromAtLeast(n))
  {
    var v := AtLeast(n).value;
    assert v[0] == '{' && v[|v| - 1] == '}';
    assert v[1..|v| - 1] == IntToString(n) + "," + "";
    ParseInnerAtLeast(n, false);
  }

  lemma ParseAtLeastLazy(n: int)
    ensures Parse(AtLeastLazy(n).value) == Some(FromAtLeastLazy(n))
  {
    var v := AtLeastLazy(n).value;
    assert v[0] == '{' && v[|v| - 2] == '}' && v[|v| - 1] == '?';
    assert v[1..|v| - 2] == IntToString(n) + "," + "";
    ParseInnerAtLeast(n, true);
  }

  lemma ParseInnerRange(r: IntRange, lazy: bool)
    ensures ParseBraced(IntToString(r.first) + "," + IntToString(r.last), lazy)
         == Some(if lazy then FromInRangeLazy(r) else FromInRange(r))
  {
    var a, b := IntToString(r.first), IntToString(r.last);
    NoCommaInInt(r.first);
    IndexOfAfterCommaFree(a, b);
    assert (a + "," + b)[..|a|] == a;
    assert (a + "," + b)[|a| + 1..] == b;
    ParseIntOfIntToString(r.first);
    ParseIntOfIntToString(r.last);
  }

  lemma ParseInRange(r: IntRange)
    ensures Parse(InRange(r).value) == Some(FromInRange(r))
  {
    var v := InRange(r).value;
    NoCommaInInt(r.last);
    assert v[0] == '{' && v[|v| - 1] == '}';
    assert v[1..|v| - 1] == IntToString(r.first) + "," + IntToString(r.last);
    ParseInnerRange(r, false);
  }

  lemma ParseInRangeLazy(r: IntRange)
    ensures Parse(InRangeLazy(r).value) == Some(FromInRangeLazy(r))
  {
    var v := InRangeLazy(r).value;
    assert v[0] == '{' && v[|v| - 2] == '}' && v[|v| - 1] == '?';
    assert v[1..|v| - 2] == IntToString(r.first) + "," + IntToString(r.last);
    ParseInnerRange(r, true);
  }

  /** Every quantifier suffix reads back as the call that produced it, so no two
      different calls (not even with negative or inverted bounds) yield the same
      quantifier. */
  lemma ParseMake(o: Origin)
    ensures Parse(Make(o).value) == Some(o)
  {
    match o
    case FromAnyTimes =>
    case FromAtLeastOne =>
    case FromAtLeastOneLazy =>
    case FromAtMostOne =>
    case FromExactly(n) => ParseExactly(n);
    case FromAtLeast(n) => ParseAtLeast(n);
    case FromAtLeastLazy(n) => ParseAtLeastLazy(n);
    case FromInRange(r) => ParseInRange(r);
    case FromInRangeLazy(r) => ParseInRangeLazy(r);
  }

  /** Different calls never produce the same quantifier. */
  lemma MakeInjective(o1: Origin, o2: Origin)
    ensures Make(o1) == Make(o2) ==> o1 == o2
  {
    ParseMake(o1);
    ParseMake(o2);
  }

  /** The values the quantifier tests pin down. */
  lemma FactoryExamples()
    ensures Exactly(2).value == "{2}" && Exactly(3).value == "{3}" && Exactly(4).value == "{4}"
    ensures AtLeast(2).value == "{2,}" && AtLeastLazy(2).value == "{2,}?"
    ensures InRange(IntRange(2, 4)).value == "{2,4}" && InRangeLazy(IntRange(2, 4)).value == "{2,4}?"
  {
    assert IntToString(2) == "2" && IntToString(3) == "3" && IntToString(4) == "4";
  }
}
