/** Camera dimensions and their "WxH" text form.

    `Size.parseSize` belongs to a library outside this model, so its grammar
    is an assumption here: the text up to the first 'x' and the text after it
    must each be one or more ASCII digits whose value fits in an `int`. */
module SizeText {
  import opened Wrappers
  import opened JavaLang

  datatype Size = Size(width: Int32, height: Int32)

  /** The position of the first `c` in `s`, if there is one. */
  function IndexOf(s: string, c: char): (r: Option<nat>)
    ensures r.Some? ==> r.value < |s| && s[r.value] == c
    ensures r.Some? ==> forall i :: 0 <= i < r.value ==> s[i] != c
    ensures r.None? ==> forall i :: 0 <= i < |s| ==> s[i] != c
  {
    if |s| == 0 then None
    else if s[0] == c then Some(0)
    else
      match IndexOf(s[1..], c)
      case None => None
      case Some(j) => Some(j + 1)
  }

  /** One side of "WxH": a non-empty digit string whose value fits in an `int`. */
  function ParseDimension(t: string): Option<Int32>
  {
    if 1 <= |t| && AllDigits(t) && DigitsValue(t) <= Int32Max then Some(DigitsValue(t)) else None
  }

  /** The stand-in for `Size.parseSize`; None where the library throws. */
  function ParseSize(s: string): (r: Option<Size>)
    ensures r.Some? ==> r.value.width >= 0 && r.value.height >= 0
  {
    match IndexOf(s, 'x')
    case None => None
    case Some(i) =>
      match (ParseDimension(s[..i]), ParseDimension(s[i + 1..]))
      case (Some(w), Some(h)) => Some(Size(w, h))
      case _ => None
  }

  /** The "WxH" text of a size with non-negative sides. */
  function SizeToString(size: Size): (s: string)
    requires size.width >= 0 && size.height >= 0
  {
    DecimalText(size.width) + "x" + DecimalText(size.height)
  }

  /** Every size with non-negative sides survives being written as "WxH" and
      parsed back. */
  lemma ParseSizeOfToString(size: Size)
    requires size.width >= 0 && size.height >= 0
    ensures ParseSize(SizeToString(size)) == Some(size)
  {
    var w, h := DecimalText(size.width), DecimalText(size.height);
    var s := SizeToString(size);
    assert s[|w|] == 'x';
    assert forall i :: 0 <= i < |w| ==> s[i] == w[i] && IsDigit(s[i]);
    assert IndexOf(s, 'x') == Some(|w|);
    assert s[..|w|] == w;
    assert s[|w| + 1..] == h;
    DecimalTextValue(size.width);
    DecimalTextValue(size.height);
  }

  /** Text without an 'x' never parses. */
  lemma ParseSizeNeedsSeparator(s: string)
    requires forall i :: 0 <= i < |s| ==> s[i] != 'x'
    ensures ParseSize(s) == None
  {
  }

  /** Text whose first 'x' has no digits on one side never parses. */
  lemma ParseSizeNeedsBothSides(s: string, i: nat)
    requires i < |s| && s[i] == 'x'
    requires forall j :: 0 <= j < i ==> s[j] != 'x'
    requires i == 0 || i == |s| - 1
    ensures ParseSize(s) == None
  {
  }
}
