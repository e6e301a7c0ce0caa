/**
 * The slice of the browser document the clock touches: a `div` element with
 * the inline style properties the clock writes and its list of children, and
 * the CSS value strings the clock builds for those properties, each with the
 * parser that reads it back.
 */
module Dom {
  import opened Wrappers
  import Decimal

  /**
   * The inline style properties of one element. A property that was never
   * assigned reads as the empty string, as `element.style.<name>` does.
   */
  datatype CssStyle = CssStyle(
    width: string,
    height: string,
    background: string,
    position: string,
    top: string,
    left: string,
    transform: string,
    mozTransform: string,
    webkitTransform: string)

  /** The style of a freshly created element. */
  const Unstyled := CssStyle("", "", "", "", "", "", "", "", "")

  /** A `div` element: its inline style and its children, in document order. */
  class Element {
    var width: string
    var height: string
    var background: string
    var position: string
    var top: string
    var left: string
    var transform: string
    var mozTransform: string
    var webkitTransform: string
    var children: seq<Element>

    /** `document.createElement("div")`. */
    constructor ()
      ensures Style() == Unstyled && children == []
    {
      width, height, background := "", "", "";
      position, top, left := "", "", "";
      transform, mozTransform, webkitTransform := "", "", "";
      children := [];
    }

    function Style(): CssStyle
      reads this
    {
      CssStyle(width, height, background, position, top, left, transform, mozTransform, webkitTransform)
    }

    /** `appendChild` of an element that has no parent yet. */
    method AppendChild(child: Element)
      modifies this
      ensures children == old(children) + [child]
      ensures Style() == old(Style())
    {
      children := children + [child];
    }
  }

  /** The shape of a CSS pixel length: a non-empty number followed by the unit "px". */
  predicate IsPxLength(s: string) {
    |s| >= 3 && s[|s| - 2..] == "px"
  }

  /** A length in pixels, `n.toString() + "px"`. */
  function Px(n: nat): (s: string)
    ensures IsPxLength(s)
  {
    Decimal.ToString(n) + "px"
  }

  function ParsePx(s: string): Option<nat> {
    if |s| >= 2 && s[|s| - 2..] == "px" && Decimal.IsCanonical(s[..|s| - 2])
    then Some(Decimal.Parse(s[..|s| - 2]))
    else None
  }

  /** A pixel length reads back as the number it was built from. */
  lemma PxRoundTrip(n: nat)
    ensures ParsePx(Px(n)) == Some(n)
  {
    var s := Px(n);
    assert s[|s| - 2..] == "px" && s[..|s| - 2] == Decimal.ToString(n);
    Decimal.ParseToString(n);
  }

  /** Every string that reads as a pixel length is the one built from its value. */
  lemma PxParsed(s: string, n: nat)
    requires ParsePx(s) == Some(n)
    ensures Px(n) == s
  {
    Decimal.ToStringParse(s[..|s| - 2]);
    assert s == s[..|s| - 2] + s[|s| - 2..];
  }

  const RotatePrefix := "rotate("
  const RotateSuffix := "deg)"

  /** A CSS rotation transform, `"rotate(" + n.toString() + "deg)"`. */
  function Rotate(n: nat): (s: string)
    ensures |s| > |RotatePrefix| + |RotateSuffix|
    ensures s[..|RotatePrefix|] == RotatePrefix && s[|s| - |RotateSuffix|..] == RotateSuffix
  {
    RotatePrefix + Decimal.ToString(n) + RotateSuffix
  }

  function ParseRotate(s: string): Option<nat> {
    var lo, hi := |RotatePrefix|, |s| - |RotateSuffix|;
    if lo <= hi && s[..lo] == RotatePrefix && s[hi..] == RotateSuffix && Decimal.IsCanonical(s[lo..hi])
    then Some(Decimal.Parse(s[lo..hi]))
    else None
  }

  /** A rotation transform reads back as the angle it was built from. */
  lemma RotateRoundTrip(n: nat)
    ensures ParseRotate(Rotate(n)) == Some(n)
  {
    var s := Rotate(n);
    var hi := |s| - |RotateSuffix|;
    assert s[..|RotatePrefix|] == RotatePrefix;
    assert s[hi..] == RotateSuffix;
    assert s[|RotatePrefix|..hi] == Decimal.ToString(n);
    Decimal.ParseToString(n);
  }

  /** Every string that reads as a rotation is the one built from its angle. */
  lemma RotateParsed(s: string, n: nat)
    requires ParseRotate(s) == Some(n)
    ensures Rotate(n) == s
  {
    var lo, hi := |RotatePrefix|, |s| - |RotateSuffix|;
    Decimal.ToStringParse(s[lo..hi]);
    assert s == s[..lo] + s[lo..hi] + s[hi..];
  }

  /** Two rotation transforms are equal exactly when their angles are. */
  lemma RotateInjective(a: nat, b: nat)
    ensures Rotate(a) == Rotate(b) <==> a == b
  {
    RotateRoundTrip(a);
    RotateRoundTrip(b);
  }

  const FillPrefix := "transparent url( "
  const FillSuffix := " ) top left no-repeat"

  /** `s` is the background shorthand with `url` between its fixed prefix and suffix. */
  predicate IsFillAround(s: string, url: string) {
    && |s| == |FillPrefix| + |url| + |FillSuffix|
    && s[..|FillPrefix|] == FillPrefix && s[|s| - |FillSuffix|..] == FillSuffix
    && s[|FillPrefix|..|s| - |FillSuffix|] == url
  }

  /** A transparent background showing the image at `url` once, anchored top left. */
  function BackgroundFill(url: string): (s: string)
    ensures IsFillAround(s, url)
  {
    FillPrefix + url + FillSuffix
  }

  function ParseBackgroundFill(s: string): Option<string> {
    var lo, hi := |FillPrefix|, |s| - |FillSuffix|;
    if lo <= hi && s[..lo] == FillPrefix && s[hi..] == FillSuffix
    then Some(s[lo..hi])
    else None
  }

  /** The image address can be read back from the background value. */
  lemma BackgroundFillRoundTrip(url: string)
    ensures ParseBackgroundFill(BackgroundFill(url)) == Some(url)
  {
  }
}
