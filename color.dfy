/**
 * Colour conversions of packages/core/src/utils/color.ts: six-digit hex to an `rgba(...)`
 * string, the first `rgb(`/`rgba(` triple in a string back to hex, and the YIQ darkness test.
 * Each regular expression of the source is a deterministic matcher here; the comments say
 * why greedy matching never needs to backtrack for these patterns.
 */
module Color {
  import opened Wrappers
  import opened Strings

  datatype Rgb = Rgb(r: nat, g: nat, b: nat)

  /**
   * `/^#?([a-f\d]{2})([a-f\d]{2})([a-f\d]{2})$/i`: the six digits of a match, if any.
   * A seven-character string needs the leading '#'; a six-character one cannot have it,
   * because '#' is not a hex digit.
   */
  function HexBody(s: string): (body: Option<string>)
    ensures body.Some? ==> |body.value| == 6 && forall i :: 0 <= i < 6 ==> IsHexDigit(body.value[i])
    ensures body.Some? <==> ValidHex(s)
  {
    var candidate := if |s| == 7 && s[0] == '#' then s[1..] else s;
    if |candidate| == 6 && forall i :: 0 <= i < 6 ==> IsHexDigit(candidate[i]) then Some(candidate)
    else None
  }

  /** The strings the hex pattern accepts, stated independently of the matcher. */
  predicate ValidHex(s: string)
  {
    (|s| == 6 && forall i :: 0 <= i < 6 ==> IsHexDigit(s[i]))
    || (|s| == 7 && s[0] == '#' && forall i :: 1 <= i < 7 ==> IsHexDigit(s[i]))
  }

  /** `parseInt(pair, 16)` for the digit pair starting at `i`. */
  function PairValue(body: string, i: nat): (v: nat)
    requires i + 2 <= |body| && IsHexDigit(body[i]) && IsHexDigit(body[i + 1])
    ensures v < 256
  {
    HexValue(body[i]) * 16 + HexValue(body[i + 1])
  }

  /** The three components of a matching hex colour. */
  function ParseHex(s: string): (c: Option<Rgb>)
    ensures c.Some? <==> ValidHex(s)
    ensures c.Some? ==> c.value.r < 256 && c.value.g < 256 && c.value.b < 256
  {
    match HexBody(s)
    case None => None
    case Some(body) => Some(Rgb(PairValue(body, 0), PairValue(body, 2), PairValue(body, 4)))
  }

  /** How a template literal renders `alpha` when the caller passes none (`alpha = 1`). */
  const DefaultAlphaText: string := "1"

  /** The template literal `rgba(${r}, ${g}, ${b}, ${alpha})` over rendered components. */
  function RgbaString(r: string, g: string, b: string, alphaText: string): string
  {
    "rgba(" + r + ", " + g + ", " + b + ", " + alphaText + ")"
  }

  function RgbaText(c: Rgb, alphaText: string): string
  {
    RgbaString(NatToString(c.r), NatToString(c.g), NatToString(c.b), alphaText)
  }

  /**
   * `hexToRgba(hex, alpha)`, where `alphaText` is the text JavaScript renders for the
   * number `alpha`.
   */
  function HexToRgba(hex: string, alphaText: string): (out: string)
    ensures !ValidHex(hex) ==> out == hex
    ensures ValidHex(hex) ==> exists c: Rgb :: c.r < 256 && c.g < 256 && c.b < 256 && out == RgbaText(c, alphaText)
  {
    match ParseHex(hex)
    case None => hex
    case Some(c) => RgbaText(c, alphaText)
  }

  /** Length of the maximal run of `\d` starting at `j` (greedy `\d+`). */
  function DigitsFrom(s: string, j: nat): (n: nat)
    requires j <= |s|
    ensures j + n <= |s|
    ensures forall k :: j <= k < j + n ==> IsDigit(s[k])
    ensures j + n == |s| || !IsDigit(s[j + n])
    decreases |s| - j
  {
    if j < |s| && IsDigit(s[j]) then 1 + DigitsFrom(s, j + 1) else 0
  }

  /** Length of the maximal run of `\s` starting at `j` (greedy `\s*`). */
  function SpacesFrom(s: string, j: nat): (n: nat)
    requires j <= |s|
    ensures j + n <= |s|
    ensures forall k :: j <= k < j + n ==> IsJsWhitespace(s[k])
    ensures j + n == |s| || !IsJsWhitespace(s[j + n])
    decreases |s| - j
  {
    if j < |s| && IsJsWhitespace(s[j]) then 1 + SpacesFrom(s, j + 1) else 0
  }

  /**
   * `(\d+),\s*` at position `j`: the digits and the position after the spaces. Greedy
   * `\d+` must be followed by ',', which is not a digit, and `\s*` by a digit, which is not
   * a space, so the maximal runs are the only candidates.
   */
  function MatchNumberComma(s: string, j: nat): (m: Option<(string, nat)>)
    requires j <= |s|
    ensures m.Some? ==> |m.value.0| > 0 && AllDigits(m.value.0) && j < m.value.1 <= |s|
  {
    var n := DigitsFrom(s, j);
    if n == 0 || j + n >= |s| || s[j + n] != ',' then None
    else Some((s[j..j + n], j + n + 1 + SpacesFrom(s, j + n + 1)))
  }

  /** The last, greedy `(\d+)`. */
  function MatchNumber(s: string, j: nat): (m: Option<string>)
    requires j <= |s|
    ensures m.Some? ==> |m.value| > 0 && AllDigits(m.value)
  {
    var n := DigitsFrom(s, j);
    if n == 0 then None else Some(s[j..j + n])
  }

  /** `(\d+),\s*(\d+),\s*(\d+)` at position `j`. */
  function MatchTriple(s: string, j: nat): (m: Option<(string, string, string)>)
    requires j <= |s|
    ensures m.Some? ==> AllDigits(m.value.0) && AllDigits(m.value.1) && AllDigits(m.value.2)
  {
    match MatchNumberComma(s, j)
    case None => None
    case Some((a, j2)) =>
      match MatchNumberComma(s, j2)
      case None => None
      case Some((b, j3)) =>
        match MatchNumber(s, j3)
        case None => None
        case Some(d) => Some((a, b, d))
  }

  /**
   * `rgba?\(` followed by the triple, at position `i`. After "rgb", an 'a' cannot also be
   * the '(' the short form needs, so at most one alternative applies.
   */
  function MatchRgbAt(s: string, i: nat): (m: Option<(string, string, string)>)
    ensures m.Some? ==> AllDigits(m.value.0) && AllDigits(m.value.1) && AllDigits(m.value.2)
  {
    if OccursAt(s, "rgba(", i) then MatchTriple(s, i + 5)
    else if OccursAt(s, "rgb(", i) then MatchTriple(s, i + 4)
    else None
  }

  /** `String.prototype.match` without the `g` flag: the leftmost position that matches. */
  function FindRgb(s: string, from: nat): (m: Option<(nat, (string, string, string))>)
    ensures m.Some? ==> from <= m.value.0 && MatchRgbAt(s, m.value.0) == Some(m.value.1)
    ensures forall i: nat :: from <= i && (m.None? || i < m.value.0) ==> MatchRgbAt(s, i).None?
    decreases |s| + 1 - from
  {
    if from > |s| then None
    else
      match MatchRgbAt(s, from)
      case Some(t) => Some((from, t))
      case None => FindRgb(s, from + 1)
  }

  /** `parseInt(d).toString(16).padStart(2, '0')` */
  function ComponentHex(d: string): string
    requires AllDigits(d)
  {
    PadStart2(NatToHex(DecimalValue(d)))
  }

  function RgbaToHex(rgba: string): (out: string)
  {
    match FindRgb(rgba, 0)
    case None => rgba
    case Some((_, (r, g, b))) => "#" + ComponentHex(r) + ComponentHex(g) + ComponentHex(b)
  }

  /** Without any `rgb(`/`rgba(` triple the input comes back unchanged. */
  lemma RgbaToHexNoMatch(rgba: string)
    requires forall i: nat :: MatchRgbAt(rgba, i).None?
    ensures RgbaToHex(rgba) == rgba
  {
  }

  /** What `rgbaToHex` builds from the leftmost match. */
  lemma RgbaToHexFound(rgba: string)
    requires FindRgb(rgba, 0).Some?
    ensures var t := FindRgb(rgba, 0).value.1;
      RgbaToHex(rgba) == "#" + ComponentHex(t.0) + ComponentHex(t.1) + ComponentHex(t.2)
  {
  }

  /**
   * Components up to 255 come out as two hex digits each that the hex parser of this file
   * reads back as the captured decimal numbers.
   */
  lemma RgbaToHexReadsBack(rgba: string)
    requires FindRgb(rgba, 0).Some?
    requires var t := FindRgb(rgba, 0).value.1;
      DecimalValue(t.0) < 256 && DecimalValue(t.1) < 256 && DecimalValue(t.2) < 256
    ensures var t := FindRgb(rgba, 0).value.1;
      ParseHex(RgbaToHex(rgba)) == Some(Rgb(DecimalValue(t.0), DecimalValue(t.1), DecimalValue(t.2)))
  {
    var t := FindRgb(rgba, 0).value.1;
    RgbaToHexFound(rgba);
    ByteHex(DecimalValue(t.0));
    ByteHex(DecimalValue(t.1));
    ByteHex(DecimalValue(t.2));
    ParseHexPairs(DecimalValue(t.0), DecimalValue(t.1), DecimalValue(t.2));
  }

  /** Three bytes written as hex pairs after '#' parse back to themselves. */
  lemma ParseHexPairs(a: nat, b: nat, c: nat)
    requires a < 256 && b < 256 && c < 256
    ensures ParseHex("#" + [HexChar(a / 16), HexChar(a % 16)] + [HexChar(b / 16), HexChar(b % 16)]
                     + [HexChar(c / 16), HexChar(c % 16)]) == Some(Rgb(a, b, c))
  {
    var body := [HexChar(a / 16), HexChar(a % 16)] + [HexChar(b / 16), HexChar(b % 16)]
                + [HexChar(c / 16), HexChar(c % 16)];
    var out := "#" + [HexChar(a / 16), HexChar(a % 16)] + [HexChar(b / 16), HexChar(b % 16)]
               + [HexChar(c / 16), HexChar(c % 16)];
    assert out[1..] == body;
    assert HexBody(out) == Some(body);
    assert PairValue(body, 0) == a && PairValue(body, 2) == b && PairValue(body, 4) == c;
  }

  /** Components up to 255 give '#' and exactly six lower-case hex digits. */
  lemma RgbaToHexShape(rgba: string)
    requires FindRgb(rgba, 0).Some?
    requires var t := FindRgb(rgba, 0).value.1;
      DecimalValue(t.0) < 256 && DecimalValue(t.1) < 256 && DecimalValue(t.2) < 256
    ensures var out := RgbaToHex(rgba);
      |out| == 7 && out[0] == '#' && LowerHexString(out[1..])
  {
    var t := FindRgb(rgba, 0).value.1;
    RgbaToHexFound(rgba);
    ComponentHexShape(t.0);
    ComponentHexShape(t.1);
    ComponentHexShape(t.2);
    HashSix(ComponentHex(t.0), ComponentHex(t.1), ComponentHex(t.2));
  }

  lemma ComponentHexShape(d: string)
    requires AllDigits(d) && DecimalValue(d) < 256
    ensures |ComponentHex(d)| == 2 && LowerHexString(ComponentHex(d))
  {
    ByteHex(DecimalValue(d));
  }

  lemma HashSix(p: string, q: string, r: string)
    requires |p| == 2 && |q| == 2 && |r| == 2
    requires LowerHexString(p) && LowerHexString(q) && LowerHexString(r)
    ensures var out := "#" + p + q + r;
      |out| == 7 && out[0] == '#' && LowerHexString(out[1..])
  {
    LowerHexConcat(p, q);
    LowerHexConcat(p + q, r);
    assert ("#" + p + q + r)[1..] == p + q + r;
  }

  /** Greedy `\d+` stops exactly at the end of a digit block followed by a non-digit. */
  lemma {:induction false} DigitsAt(s: string, j: nat, n: nat)
    requires j + n <= |s|
    requires forall k :: j <= k < j + n ==> IsDigit(s[k])
    requires j + n == |s| || !IsDigit(s[j + n])
    ensures DigitsFrom(s, j) == n
    decreases n
  {
    if n > 0 {
      DigitsAt(s, j + 1, n - 1);
    }
  }

  /** `(\d+),\s*` reads a digit block followed by ", " and a digit. */
  lemma NumberCommaAt(s: string, j: nat, n: nat)
    requires 0 < n && j + n + 2 < |s|
    requires forall k :: j <= k < j + n ==> IsDigit(s[k])
    requires s[j + n] == ',' && s[j + n + 1] == ' ' && IsDigit(s[j + n + 2])
    ensures MatchNumberComma(s, j) == Some((s[j..j + n], j + n + 2))
  {
    DigitsAt(s, j, n);
    assert SpacesFrom(s, j + n + 2) == 0;
  }

  /** The digit block `x` sits at position `j` of `s`. */
  predicate BlockAt(s: string, j: nat, x: string)
  {
    j + |x| <= |s| && (forall k :: j <= k < j + |x| ==> IsDigit(s[k])) && s[j..j + |x|] == x
  }

  /** ", " sits at position `j` of `s`. */
  predicate SeparatorAt(s: string, j: nat)
  {
    j + 2 <= |s| && s[j] == ',' && s[j + 1] == ' '
  }

  /**
   * Where `rgbaText` puts things: "rgba(", then `a`, ", ", `b`, ", ", `d` and something
   * that is not a digit.
   */
  predicate RgbaLayout(s: string, a: string, b: string, d: string)
  {
    var j2 := 5 + |a| + 2;
    var j3 := j2 + |b| + 2;
    && 0 < |a| && 0 < |b| && 0 < |d| && j3 + |d| < |s|
    && OccursAt(s, "rgba(", 0)
    && BlockAt(s, 5, a) && SeparatorAt(s, 5 + |a|)
    && BlockAt(s, j2, b) && SeparatorAt(s, j2 + |b|)
    && BlockAt(s, j3, d) && !IsDigit(s[j3 + |d|])
  }

  lemma RgbaTextLayout(a: string, b: string, d: string, alphaText: string)
    requires |a| > 0 && AllDigits(a) && |b| > 0 && AllDigits(b) && |d| > 0 && AllDigits(d)
    ensures RgbaLayout(RgbaString(a, b, d, alphaText), a, b, d)
  {
    var s := RgbaString(a, b, d, alphaText);
    var j2 := 5 + |a| + 2;
    var j3 := j2 + |b| + 2;
    assert s == "rgba(" + a + ", " + b + ", " + d + (", " + alphaText + ")");
    BlockIn("rgba(", a, ", " + b + ", " + d + (", " + alphaText + ")"));
    BlockIn("rgba(" + a + ", ", b, ", " + d + (", " + alphaText + ")"));
    BlockIn("rgba(" + a + ", " + b + ", ", d, ", " + alphaText + ")");
  }

  /** A digit string between two others is a digit block at the length of the first. */
  lemma BlockIn(p: string, x: string, q: string)
    requires AllDigits(x)
    ensures BlockAt(p + x + q, |p|, x)
  {
    var s := p + x + q;
    forall k | |p| <= k < |p| + |x| ensures IsDigit(s[k]) {
      assert s[k] == x[k - |p|];
    }
    assert s[|p|..|p| + |x|] == x;
  }

  /** The rgba matcher reads back three digit blocks laid out as `rgbaText` lays them out. */
  lemma RgbaDigitsParse(a: string, b: string, d: string, alphaText: string)
    requires |a| > 0 && AllDigits(a) && |b| > 0 && AllDigits(b) && |d| > 0 && AllDigits(d)
    ensures MatchRgbAt(RgbaString(a, b, d, alphaText), 0) == Some((a, b, d))
  {
    RgbaTextLayout(a, b, d, alphaText);
    LayoutParses(RgbaString(a, b, d, alphaText), a, b, d);
  }

  /** Three digit blocks laid out as `rgbaText` lays them out are what the matcher reads. */
  lemma LayoutParses(s: string, a: string, b: string, d: string)
    requires RgbaLayout(s, a, b, d)
    ensures MatchRgbAt(s, 0) == Some((a, b, d))
  {
    var j2 := 5 + |a| + 2;
    var j3 := j2 + |b| + 2;
    BlockComma(s, 5, a, j2);
    BlockComma(s, j2, b, j3);
    BlockEnd(s, j3, d);
    TripleAt(s, 5, a, j2, b, j3, d);
    RgbaOpenAt(s, (a, b, d));
  }

  /** A digit block, ", " and a digit read as `(\d+),\s*`. */
  lemma BlockComma(s: string, j: nat, x: string, next: nat)
    requires 0 < |x| && BlockAt(s, j, x) && SeparatorAt(s, j + |x|) && next == j + |x| + 2
    requires next < |s| && IsDigit(s[next])
    ensures next <= |s| && MatchNumberComma(s, j) == Some((x, next))
  {
    NumberCommaAt(s, j, |x|);
  }

  /** A digit block followed by a non-digit reads as `(\d+)`. */
  lemma BlockEnd(s: string, j: nat, x: string)
    requires 0 < |x| && BlockAt(s, j, x) && j + |x| < |s| && !IsDigit(s[j + |x|])
    ensures MatchNumber(s, j) == Some(x)
  {
    DigitsAt(s, j, |x|);
  }

  /** The triple matcher chains its three number matches. */
  lemma TripleAt(s: string, j: nat, a: string, j2: nat, b: string, j3: nat, d: string)
    requires j <= |s| && j2 <= |s| && j3 <= |s|
    requires MatchNumberComma(s, j) == Some((a, j2)) && MatchNumberComma(s, j2) == Some((b, j3))
    requires MatchNumber(s, j3) == Some(d)
    ensures MatchTriple(s, j) == Some((a, b, d))
  {
  }

  /** After "rgba(" the long alternative applies. */
  lemma RgbaOpenAt(s: string, t: (string, string, string))
    requires OccursAt(s, "rgba(", 0) && 5 <= |s| && MatchTriple(s, 5) == Some(t)
    ensures MatchRgbAt(s, 0) == Some(t)
  {
  }

  /** `rgbaToHex` of an `rgba(...)` string re-renders its three components. */
  lemma RgbaToHexOfRgbaText(c: Rgb, alphaText: string)
    ensures RgbaToHex(RgbaText(c, alphaText))
      == "#" + ComponentHex(NatToString(c.r)) + ComponentHex(NatToString(c.g)) + ComponentHex(NatToString(c.b))
  {
    var s := RgbaText(c, alphaText);
    RgbaDigitsParse(NatToString(c.r), NatToString(c.g), NatToString(c.b), alphaText);
    assert FindRgb(s, 0) == Some((0, (NatToString(c.r), NatToString(c.g), NatToString(c.b))));
    RgbaToHexFound(s);
  }

  /** The hex pair a component was parsed from, rendered back in lower case. */
  lemma PairRoundTrip(body: string, i: nat)
    requires i + 2 <= |body| && IsHexDigit(body[i]) && IsHexDigit(body[i + 1])
    ensures ComponentHex(NatToString(PairValue(body, i))) == [LowerChar(body[i]), LowerChar(body[i + 1])]
  {
    var v := PairValue(body, i);
    DecimalRoundTrip(v);
    ByteHex(v);
    assert v / 16 == HexValue(body[i]) && v % 16 == HexValue(body[i + 1]);
    LowerHexDigit(body[i]);
    LowerHexDigit(body[i + 1]);
  }

  /** The three components of a six-digit body, re-rendered, give the body in lower case. */
  lemma BodyRoundTrip(body: string)
    requires |body| == 6 && forall i :: 0 <= i < 6 ==> IsHexDigit(body[i])
    ensures "#" + ComponentHex(NatToString(PairValue(body, 0))) + ComponentHex(NatToString(PairValue(body, 2)))
      + ComponentHex(NatToString(PairValue(body, 4))) == "#" + Lower(body)
  {
    var x, y, z := ComponentHex(NatToString(PairValue(body, 0))), ComponentHex(NatToString(PairValue(body, 2))),
      ComponentHex(NatToString(PairValue(body, 4)));
    PairsRoundTrip(body);
    AssembleSix(body, x, y, z);
  }

  lemma PairsRoundTrip(body: string)
    requires |body| == 6 && forall i :: 0 <= i < 6 ==> IsHexDigit(body[i])
    ensures ComponentHex(NatToString(PairValue(body, 0))) == [LowerChar(body[0]), LowerChar(body[1])]
    ensures ComponentHex(NatToString(PairValue(body, 2))) == [LowerChar(body[2]), LowerChar(body[3])]
    ensures ComponentHex(NatToString(PairValue(body, 4))) == [LowerChar(body[4]), LowerChar(body[5])]
  {
    PairRoundTrip(body, 0);
    PairRoundTrip(body, 2);
    PairRoundTrip(body, 4);
  }

  lemma AssembleSix(body: string, x: string, y: string, z: string)
    requires |body| == 6
    requires x == [LowerChar(body[0]), LowerChar(body[1])]
    requires y == [LowerChar(body[2]), LowerChar(body[3])]
    requires z == [LowerChar(body[4]), LowerChar(body[5])]
    ensures "#" + x + y + z == "#" + Lower(body)
  {
    LowerSix(body);
  }

  /**
   * For a valid six-digit hex colour, `rgbaToHex(hexToRgba(h))` is '#' followed by the
   * digits of `h` in lower case, whatever alpha is used.
   */
  lemma HexRoundTrip(hex: string, alphaText: string)
    requires ValidHex(hex)
    ensures RgbaToHex(HexToRgba(hex, alphaText)) == "#" + Lower(HexBody(hex).value)
  {
    var body := HexBody(hex).value;
    var c := Rgb(PairValue(body, 0), PairValue(body, 2), PairValue(body, 4));
    assert HexToRgba(hex, alphaText) == RgbaText(c, alphaText);
    RgbaToHexOfRgbaText(c, alphaText);
    BodyRoundTrip(body);
  }

  lemma LowerSix(body: string)
    requires |body| == 6
    ensures Lower(body) == [LowerChar(body[0]), LowerChar(body[1])] + [LowerChar(body[2]), LowerChar(body[3])]
      + [LowerChar(body[4]), LowerChar(body[5])]
  {
  }

  /** `isDarkColor`: the YIQ brightness `(299r + 587g + 114b) / 1000` is below 128. */
  function IsDarkColor(hex: string): bool
  {
    match ParseHex(hex)
    case None => false
    case Some(c) => ((c.r * 299 + c.g * 587 + c.b * 114) as real) / 1000.0 < 128.0
  }

  /** The darkness test in integer form, and false for anything the pattern rejects. */
  lemma IsDarkColorSpec(hex: string)
    ensures !ValidHex(hex) ==> !IsDarkColor(hex)
    ensures ValidHex(hex) ==> var c := ParseHex(hex).value;
      IsDarkColor(hex) <==> 299 * c.r + 587 * c.g + 114 * c.b < 128000
  {
    if ValidHex(hex) {
      var c := ParseHex(hex).value;
      var sum := c.r * 299 + c.g * 587 + c.b * 114;
      assert (sum as real) / 1000.0 < 128.0 <==> sum < 128000;
    }
  }
}
