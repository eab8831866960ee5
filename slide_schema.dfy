/**
 * The slide renderer of src/schema/renderer.tsx, minus React: how an element's position
 * becomes a CSS placement (`getPositionStyle` with its `parseValue` and anchor switch),
 * the order elements are drawn in (the `zIndex` sort), and which elements draw nothing
 * (hidden ones, unknown types, empty tag groups, QR codes without a URL).
 */
module SchemaRenderer {
  import opened Wrappers
  import opened Strings
  import opened Sequences
  import opened SchemaVariables

  // ---------------------------------------------------------------------------------------
  // `parseFloat`

  /** The length of the run of decimal digits that starts `s`. */
  function DigitRun(s: string): (n: nat)
    ensures n <= |s| && AllDigits(s[..n]) && (n < |s| ==> !IsDigit(s[n]))
    decreases |s|
  {
    if s != [] && IsDigit(s[0]) then
      var m := DigitRun(s[1..]);
      assert s[..m + 1] == [s[0]] + s[1..][..m];
      m + 1
    else 0
  }

  /** The value of the digits after a decimal point: '25' is 0.25. */
  function FractionValue(fraction: string): (f: real)
    requires AllDigits(fraction)
    ensures 0.0 <= f <= 1.0
  {
    if fraction == [] then 0.0 else (DigitValue(fraction[0]) as real + FractionValue(fraction[1..])) / 10.0
  }

  /** The value of the decimal numeral `whole` '.' `fraction`. */
  function DecimalReal(whole: string, fraction: string): real
    requires AllDigits(whole) && AllDigits(fraction)
  {
    DecimalValue(whole) as real + FractionValue(fraction)
  }

  /**
   * `parseFloat(s)` restricted to plain decimals: leading white space is skipped, then an
   * optional sign, digits, and an optional '.' with more digits; whatever follows is
   * ignored. `None` is NaN, the result when no digit is found.
   */
  function ParseFloat(s: string): (r: Option<real>)
  {
    var t := TrimStart(s);
    var u := if |t| > 0 && (t[0] == '-' || t[0] == '+') then t[1..] else t;
    var n := DigitRun(u);
    var m := if n < |u| && u[n] == '.' then DigitRun(u[n + 1..]) else 0;
    if n == 0 && m == 0 then None
    else
      var fraction := if m > 0 then u[n + 1..][..m] else "";
      var v := DecimalReal(u[..n], fraction);
      Some(if |t| > 0 && t[0] == '-' then -v else v)
  }

  /** A digit run followed by something that is not a digit is exactly that run. */
  lemma {:induction false} DigitRunPrefix(w: string, rest: string)
    requires AllDigits(w) && (rest == [] || !IsDigit(rest[0]))
    ensures DigitRun(w + rest) == |w|
    decreases |w|
  {
    if w != [] {
      assert (w + rest)[1..] == w[1..] + rest;
      DigitRunPrefix(w[1..], rest);
    } else {
      assert w + rest == rest;
    }
  }

  /**
   * `parseFloat` reads a whole number written out in decimal back as that number,
   * whatever non-numeric suffix follows it ('50%', '12px').
   */
  lemma ParseFloatNat(k: nat, rest: string)
    requires rest == [] || (!IsDigit(rest[0]) && rest[0] != '.')
    ensures ParseFloat(NatToString(k) + rest) == Some(k as real)
  {
    ParseFloatDigits(NatToString(k), rest);
    DecimalRoundTrip(k);
  }

  /** A run of digits not followed by a digit or '.' parses as its decimal value. */
  lemma ParseFloatDigits(w: string, rest: string)
    requires |w| > 0 && AllDigits(w)
    requires rest == [] || (!IsDigit(rest[0]) && rest[0] != '.')
    ensures ParseFloat(w + rest) == Some(DecimalValue(w) as real)
  {
    DigitsThenRest(w, rest);
    ParseFloatRun(w + rest, |w|);
  }

  /** The shape of a digit run followed by a suffix that starts with neither a digit nor '.'. */
  lemma DigitsThenRest(w: string, rest: string)
    requires |w| > 0 && AllDigits(w)
    requires rest == [] || (!IsDigit(rest[0]) && rest[0] != '.')
    ensures var s := w + rest;
      TrimStart(s) == s && IsDigit(s[0]) && DigitRun(s) == |w| && (|w| == |s| || s[|w|] != '.')
      && s[..|w|] == w
  {
    var s := w + rest;
    assert s[0] == w[0];
    DigitRunPrefix(w, rest);
    assert s[..|w|] == w;
    assert |w| == |s| || s[|w|] == rest[0];
  }

  /** An unsigned string whose digit run of length `n` has no '.' after it parses as that run. */
  lemma ParseFloatRun(s: string, n: nat)
    requires TrimStart(s) == s && 0 < n <= |s| && IsDigit(s[0])
    requires DigitRun(s) == n && (n == |s| || s[n] != '.')
    ensures ParseFloat(s) == Some(DecimalValue(s[..n]) as real)
  {
    assert DecimalReal(s[..n], "") == DecimalValue(s[..n]) as real;
  }

  /** A string whose first non-blank character cannot start a number parses to NaN. */
  lemma ParseFloatNaN(s: string)
    requires var t := TrimStart(s); t == [] || (!IsDigit(t[0]) && t[0] != '.' && t[0] != '-' && t[0] != '+')
    ensures ParseFloat(s) == None
  {
  }

  // ---------------------------------------------------------------------------------------
  // `getPositionStyle`

  /** A coordinate of `Position`: absent, a number of design pixels, or a string such as '50%'. */
  datatype Coord = Unset | Num(n: real) | Str(s: string)

  /** A computed CSS length: `undefined`, a number of pixels, or NaN. */
  datatype Length = Undefined | Px(value: real) | NaN

  predicate EndsWith(s: string, suffix: string)
  {
    |suffix| <= |s| && s[|s| - |suffix|..] == suffix
  }

  /**
   * `parseValue(val, base)`: a number is scaled, a percentage is taken of `base`, any other
   * string is parsed and scaled, and `undefined` stays `undefined`.
   */
  function ParseValue(v: Coord, base: real, scale: real): (r: Length)
    ensures r.Undefined? <==> v.Unset?
    ensures v.Num? ==> r == Px(v.n * scale)
  {
    match v
    case Unset => Undefined
    case Num(n) => Px(n * scale)
    case Str(s) => FromParsed(ParseFloat(s), EndsWith(s, "%"), base, scale)
  }

  /** The tail of `parseValue` for a string, once `parseFloat` has run: NaN stays NaN. */
  function FromParsed(p: Option<real>, percent: bool, base: real, scale: real): Length
  {
    if p.None? then NaN
    else if percent then Px(p.value / 100.0 * base)
    else Px(p.value * scale)
  }

  /** A string that parses to `x` is `x` percent of the base when it ends in '%', else `x` scaled. */
  lemma ParseValueString(s: string, x: real, base: real, scale: real)
    requires ParseFloat(s) == Some(x)
    ensures ParseValue(Str(s), base, scale) == if EndsWith(s, "%") then Px(x / 100.0 * base) else Px(x * scale)
  {
    assert ParseValue(Str(s), base, scale) == FromParsed(Some(x), EndsWith(s, "%"), base, scale);
    FromParsedValue(x, EndsWith(s, "%"), base, scale);
  }

  /** A parsed number is a percentage of the base or a scaled length. */
  lemma FromParsedValue(x: real, percent: bool, base: real, scale: real)
    ensures FromParsed(Some(x), percent, base, scale) == if percent then Px(x / 100.0 * base) else Px(x * scale)
  {
  }

  /** 'k%' reads as the number k, marked as a percentage. */
  lemma PercentString(k: nat)
    ensures ParseFloat(NatToString(k) + "%") == Some(k as real)
    ensures EndsWith(NatToString(k) + "%", "%")
  {
    var s := NatToString(k) + "%";
    assert s[|s| - 1..] == "%";
    ParseFloatNat(k, "%");
  }

  /** A bare numeral reads as its number, and is no percentage. */
  lemma NumeralString(k: nat)
    ensures ParseFloat(NatToString(k)) == Some(k as real)
    ensures !EndsWith(NatToString(k), "%")
  {
    var s := NatToString(k);
    ParseFloatNat(k, "");
    assert s + "" == s;
    assert !EndsWith(s, "%") by {
      assert IsDigit(s[|s| - 1]);
      assert s[|s| - 1..][0] == s[|s| - 1];
    }
  }

  /** 'k%' is k hundredths of the base, whatever the scale. */
  lemma ParseValuePercent(k: nat, base: real, scale: real)
    ensures ParseValue(Str(NatToString(k) + "%"), base, scale) == Px(k as real / 100.0 * base)
  {
    PercentString(k);
    ParseValueString(NatToString(k) + "%", k as real, base, scale);
  }

  /** A bare numeral string is scaled like the number it spells. */
  lemma ParseValueNumeral(k: nat, base: real, scale: real)
    ensures ParseValue(Str(NatToString(k)), base, scale) == Px(k as real * scale)
  {
    NumeralString(k);
    ParseValueString(NatToString(k), k as real, base, scale);
  }

  datatype Anchor =
    | TopLeft | TopCenter | TopRight
    | CenterLeft | Center | CenterRight
    | BottomLeft | BottomCenter | BottomRight

  /** The anchor switch: the translation that puts the anchor point at (x, y). */
  function Translate(a: Anchor): (t: string)
    ensures t == "" <==> a == TopLeft
  {
    match a
    case TopLeft => ""
    case TopCenter => "translateX(-50%)"
    case TopRight => "translateX(-100%)"
    case CenterLeft => "translateY(-50%)"
    case Center => "translate(-50%, -50%)"
    case CenterRight => "translate(-100%, -50%)"
    case BottomLeft => "translateY(-100%)"
    case BottomCenter => "translate(-50%, -100%)"
    case BottomRight => "translate(-100%, -100%)"
  }

  /** How far, in percent of its own size, an anchor shifts the element left. */
  function HorizontalShift(a: Anchor): nat
  {
    match a
    case TopLeft | CenterLeft | BottomLeft => 0
    case TopCenter | Center | BottomCenter => 50
    case TopRight | CenterRight | BottomRight => 100
  }

  /** How far, in percent of its own size, an anchor shifts the element up. */
  function VerticalShift(a: Anchor): nat
  {
    match a
    case TopLeft | TopCenter | TopRight => 0
    case CenterLeft | Center | CenterRight => 50
    case BottomLeft | BottomCenter | BottomRight => 100
  }

  function Percent(shift: nat): string
  {
    "-" + NatToString(shift) + "%"
  }

  lemma PercentValues()
    ensures Percent(50) == "-50%" && Percent(100) == "-100%"
  {
    assert NatToString(5) == "5" && NatToString(10) == "10";
  }

  /** The shortest CSS translation by (-dx%, -dy%). */
  function CssTranslate(dx: nat, dy: nat): string
  {
    if dx == 0 && dy == 0 then ""
    else if dy == 0 then "translateX(" + Percent(dx) + ")"
    else if dx == 0 then "translateY(" + Percent(dy) + ")"
    else "translate(" + Percent(dx) + ", " + Percent(dy) + ")"
  }

  /**
   * The switch agrees with the geometry: every anchor translates the element by minus
   * its column (left 0, centre 50, right 100 percent) and minus its row.
   */
  lemma TranslateIsShift(a: Anchor)
    ensures Translate(a) == CssTranslate(HorizontalShift(a), VerticalShift(a))
  {
    match a
    case TopLeft | TopCenter | TopRight => TopRowShift(a);
    case CenterLeft | Center | CenterRight => MiddleRowShift(a);
    case BottomLeft | BottomCenter | BottomRight => BottomRowShift(a);
  }

  lemma TopRowShift(a: Anchor)
    requires VerticalShift(a) == 0
    ensures Translate(a) == CssTranslate(HorizontalShift(a), 0)
  {
    PercentValues();
    match a
    case TopLeft =>
    case TopCenter => assert Translate(a) == "translateX(" + "-50%" + ")";
    case TopRight => assert Translate(a) == "translateX(" + "-100%" + ")";
  }

  lemma MiddleRowShift(a: Anchor)
    requires VerticalShift(a) == 50
    ensures Translate(a) == CssTranslate(HorizontalShift(a), 50)
  {
    PercentValues();
    match a
    case CenterLeft => assert Translate(a) == "translateY(" + "-50%" + ")";
    case Center => assert Translate(a) == "translate(" + "-50%" + ", " + "-50%" + ")";
    case CenterRight => assert Translate(a) == "translate(" + "-100%" + ", " + "-50%" + ")";
  }

  lemma BottomRowShift(a: Anchor)
    requires VerticalShift(a) == 100
    ensures Translate(a) == CssTranslate(HorizontalShift(a), 100)
  {
    PercentValues();
    match a
    case BottomLeft =>
      assert CssTranslate(0, 100) == "translateY(" + "-100%" + ")";
    case BottomCenter =>
      assert CssTranslate(50, 100) == "translate(" + "-50%" + ", " + "-100%" + ")";
    case BottomRight =>
      assert CssTranslate(100, 100) == "translate(" + "-100%" + ", " + "-100%" + ")";
  }

  /** Distinct anchors place the element differently. */
  lemma TranslateInjective(a: Anchor, b: Anchor)
    requires Translate(a) == Translate(b)
    ensures a == b
  {
    TranslateIsShift(a);
    TranslateIsShift(b);
    PercentValues();
  }

  /** `String(r)` for a whole number of degrees. */
  function IntToString(r: int): string
  {
    if r < 0 then "-" + NatToString(-r) else NatToString(r)
  }

  /**
   * The `transform` property: the anchor's translation (top-left when absent), then
   * ` rotate(rdeg)` for a nonzero rotation; an empty result is `undefined`.
   */
  function TransformOf(anchor: Option<Anchor>, rotation: Option<int>): (t: Option<string>)
    ensures t.None? <==> anchor.GetOr(TopLeft) == TopLeft && rotation.GetOr(0) == 0
    ensures rotation.GetOr(0) == 0 && anchor.GetOr(TopLeft) != TopLeft ==>
      t == Some(Translate(anchor.GetOr(TopLeft)))
    ensures rotation.GetOr(0) != 0 ==>
      t.Some? && |Translate(anchor.GetOr(TopLeft))| < |t.value| &&
      t.value[..|Translate(anchor.GetOr(TopLeft))|] == Translate(anchor.GetOr(TopLeft)) &&
      EndsWith(t.value, "deg)")
  {
    var translate := Translate(anchor.GetOr(TopLeft));
    var transform :=
      if rotation.GetOr(0) != 0 then translate + " rotate(" + IntToString(rotation.GetOr(0)) + "deg)"
      else translate;
    if transform == "" then None else Some(transform)
  }

  /** `Position`: a placement in design pixels or percentages, an anchor and a rotation. */
  datatype Position = Position(x: Coord, y: Coord, width: Coord, height: Coord,
                               anchor: Option<Anchor>, rotation: Option<int>)

  datatype PositionStyle = PositionStyle(left: Length, top: Length, width: Length, height: Length,
                                         transform: Option<string>)

  /** `??`: only `undefined` falls back. */
  function LengthOr(l: Length, fallback: real): Length
  {
    if l.Undefined? then Px(fallback) else l
  }

  /** `parseValue(v, base) ?? 0` for x and y. */
  function Coordinate(v: Coord, base: real, scale: real): (l: Length)
    ensures !l.Undefined?
    ensures v.Unset? ==> l == Px(0.0)
    ensures v.Num? ==> l == Px(v.n * scale)
    ensures !v.Unset? ==> l == ParseValue(v, base, scale)
  {
    LengthOr(ParseValue(v, base, scale), 0.0)
  }

  /**
   * `getPositionStyle`: x and y default to 0 and are never `undefined`; width and height
   * stay `undefined` when absent; percentages are of the scaled device size.
   */
  function GetPositionStyle(p: Position, deviceWidth: real, deviceHeight: real, scale: real): (s: PositionStyle)
    ensures s.left == Coordinate(p.x, deviceWidth * scale, scale)
    ensures s.top == Coordinate(p.y, deviceHeight * scale, scale)
    ensures s.width.Undefined? <==> p.width.Unset?
    ensures s.height.Undefined? <==> p.height.Unset?
    ensures s.transform == TransformOf(p.anchor, p.rotation)
  {
    PositionStyle(Coordinate(p.x, deviceWidth * scale, scale),
                  Coordinate(p.y, deviceHeight * scale, scale),
                  ParseValue(p.width, deviceWidth * scale, scale),
                  ParseValue(p.height, deviceHeight * scale, scale),
                  TransformOf(p.anchor, p.rotation))
  }

  /** A coordinate string that is not a number stays NaN: `?? 0` does not replace it. */
  lemma PositionNaN(p: Position, deviceWidth: real, deviceHeight: real, scale: real)
    requires p.x == Str("auto")
    ensures GetPositionStyle(p, deviceWidth, deviceHeight, scale).left == NaN
  {
    AutoIsNaN();
    UnparsedCoordinate(p.x, deviceWidth * scale, scale);
  }

  lemma AutoIsNaN()
    ensures ParseFloat("auto") == None
  {
    var a := "auto";
    assert a[0] == 'a' && !IsJsWhitespace(a[0]);
    assert TrimStart(a) == a;
    ParseFloatNaN(a);
  }

  /** A coordinate string `parseFloat` finds no number in is NaN. */
  lemma UnparsedCoordinate(v: Coord, base: real, scale: real)
    requires v.Str? && ParseFloat(v.s) == None
    ensures Coordinate(v, base, scale) == NaN
  {
  }

  // ---------------------------------------------------------------------------------------
  // Elements and their drawing order

  datatype ElementKind = TextKind | ImageKind | QrCodeKind | ShapeKind | PhoneFrameKind | TagsKind
                       | OtherKind(name: string)

  /**
   * A schema element as far as the renderer's choices go. `source` is the template string
   * the element's renderer resolves: a text's content, an image's `src`, a QR code's `url`,
   * a phone frame's `screenshotSrc` (each '' when absent); `tags` is a tag group's list.
   */
  datatype SchemaElement = SchemaElement(id: string, kind: ElementKind, position: Position,
                                         zIndex: Option<real>, visible: Option<bool>,
                                         source: string, tags: seq<string>)

  /** The sort key `zIndex ?? 0`. */
  function Z(e: SchemaElement): real
  {
    e.zIndex.GetOr(0.0)
  }

  predicate SortedByZ(s: seq<SchemaElement>)
  {
    forall i, j :: 0 <= i < j < |s| ==> Z(s[i]) <= Z(s[j])
  }

  /** Puts `x` in front of the first element whose key is not below its own. */
  function Insert(x: SchemaElement, s: seq<SchemaElement>): (r: seq<SchemaElement>)
    ensures multiset(r) == multiset{x} + multiset(s)
    decreases |s|
  {
    if |s| == 0 then [x]
    else if Z(x) <= Z(s[0]) then [x] + s
    else
      assert s == [s[0]] + s[1..];
      [s[0]] + Insert(x, s[1..])
  }

  /** `[...elements].sort((a, b) => (a.zIndex ?? 0) - (b.zIndex ?? 0))`, a stable sort. */
  function SortByZ(s: seq<SchemaElement>): (r: seq<SchemaElement>)
    ensures multiset(r) == multiset(s)
    decreases |s|
  {
    if |s| == 0 then []
    else
      assert s == [s[0]] + s[1..];
      Insert(s[0], SortByZ(s[1..]))
  }

  lemma {:induction false} InsertSorted(x: SchemaElement, s: seq<SchemaElement>)
    requires SortedByZ(s)
    ensures SortedByZ(Insert(x, s))
    decreases |s|
  {
    if |s| > 0 && Z(x) > Z(s[0]) {
      var t := Insert(x, s[1..]);
      InsertSorted(x, s[1..]);
      forall k | 0 <= k < |t|
        ensures Z(s[0]) <= Z(t[k])
      {
        assert t[k] in multiset(t);
        if t[k] != x {
          assert t[k] in multiset(s[1..]);
          var j :| 0 <= j < |s[1..]| && s[1..][j] == t[k];
          assert s[j + 1] == t[k];
        }
      }
      assert Insert(x, s) == [s[0]] + t;
    }
  }

  /** The elements come out in ascending `zIndex ?? 0`. */
  lemma {:induction false} SortByZSorted(s: seq<SchemaElement>)
    ensures SortedByZ(SortByZ(s))
    decreases |s|
  {
    if |s| > 0 {
      SortByZSorted(s[1..]);
      InsertSorted(s[0], SortByZ(s[1..]));
    }
  }

  /** The elements whose key is `z`, in order. */
  function AtLevel(z: real): SchemaElement -> bool
  {
    e => Z(e) == z
  }

  lemma {:induction false} InsertAtLevel(x: SchemaElement, s: seq<SchemaElement>, z: real)
    ensures Filter(Insert(x, s), AtLevel(z)) == Kept(x, AtLevel(z)) + Filter(s, AtLevel(z))
    decreases |s|
  {
    if |s| == 0 {
      assert [x] == [x] + [];
      FilterCons(x, [], AtLevel(z));
    } else if Z(x) <= Z(s[0]) {
      FilterCons(x, s, AtLevel(z));
    } else {
      InsertAtLevel(x, s[1..], z);
      FilterCons(s[0], Insert(x, s[1..]), AtLevel(z));
      FilterCons(s[0], s[1..], AtLevel(z));
      assert s == [s[0]] + s[1..];
      // x and s[0] have different keys, so at most one of them is kept at level z.
      assert Kept(s[0], AtLevel(z)) == [] || Kept(x, AtLevel(z)) == [];
    }
  }

  /** The sort is stable: elements with equal keys keep their relative array order. */
  lemma {:induction false} SortByZStable(s: seq<SchemaElement>, z: real)
    ensures Filter(SortByZ(s), AtLevel(z)) == Filter(s, AtLevel(z))
    decreases |s|
  {
    if |s| > 0 {
      SortByZStable(s[1..], z);
      InsertAtLevel(s[0], SortByZ(s[1..]), z);
      FilterCons(s[0], s[1..], AtLevel(z));
      assert s == [s[0]] + s[1..];
    }
  }

  // ---------------------------------------------------------------------------------------
  // What each element draws

  /**
   * A tag group's tags: exactly ['{{tags}}'] takes the variables' list (none when absent);
   * any other list resolves each tag on its own.
   */
  function SelectTags(tags: seq<string>, v: SlideVariables): (r: seq<string>)
    ensures tags == ["{{tags}}"] ==> r == v.tags.GetOr([])
    ensures tags != ["{{tags}}"] ==>
      |r| == |tags| && forall i :: 0 <= i < |tags| ==> r[i] == ResolveVariable(tags[i], v)
  {
    if |tags| == 1 && tags[0] == "{{tags}}" then v.tags.GetOr([])
    else seq(|tags|, i requires 0 <= i < |tags| => ResolveVariable(tags[i], v))
  }

  /** A literal tag list without braces is shown as written. */
  lemma SelectLiteralTags(tags: seq<string>, v: SlideVariables)
    requires forall i :: 0 <= i < |tags| ==> BraceFree(tags[i])
    ensures SelectTags(tags, v) == tags
  {
    assert !BraceFree("{{tags}}") by {
      assert "{{tags}}"[0] == '{';
    }
    forall i | 0 <= i < |tags|
      ensures SelectTags(tags, v)[i] == tags[i]
    {
      ResolveBraceFree(tags[i], v);
    }
  }

  /** What an element puts on the slide: its placement, resolved text and tags. */
  datatype Drawn = Drawn(id: string, kind: ElementKind, style: PositionStyle, text: string, tags: seq<string>)

  /**
   * The box `PhoneFrameRenderer` draws: the placement of `getPositionStyle`, its width
   * replaced by `posStyle.width || deviceWidth * 0.65 * scale` (an absent, zero or NaN width
   * falls back) and its height by 2.17 times that width.
   */
  function PhoneFrameStyle(style: PositionStyle, deviceWidth: real, scale: real): (f: PositionStyle)
    ensures f.left == style.left && f.top == style.top && f.transform == style.transform
    ensures style.width.Px? && style.width.value != 0.0 ==> f.width == style.width
    ensures !(style.width.Px? && style.width.value != 0.0) ==> f.width == Px(deviceWidth * 0.65 * scale)
    ensures f.width.Px? && f.height == Px(f.width.value * 2.17)
  {
    var frameWidth := if style.width.Px? && style.width.value != 0.0 then style.width.value
                      else deviceWidth * 0.65 * scale;
    style.(width := Px(frameWidth), height := Px(frameWidth * 2.17))
  }

  /**
   * `ElementRenderer`: `None` when the element draws nothing, namely when it is hidden
   * (`visible === false`), its type is unknown, it is a tag group whose tags come out
   * empty, or it is a QR code whose URL resolves to ''.
   */
  function Render(e: SchemaElement, v: SlideVariables, deviceWidth: real, deviceHeight: real, scale: real)
    : (r: Option<Drawn>)
    ensures r.None? <==>
      e.visible == Some(false) || e.kind.OtherKind? ||
      (e.kind == TagsKind && SelectTags(e.tags, v) == []) ||
      (e.kind == QrCodeKind && ResolveVariable(e.source, v) == "")
    ensures r.Some? ==> r.value.id == e.id && r.value.kind == e.kind
    ensures r.Some? && e.kind != PhoneFrameKind ==>
      r.value.style == GetPositionStyle(e.position, deviceWidth, deviceHeight, scale)
    ensures r.Some? && e.kind == PhoneFrameKind ==>
      r.value.style == PhoneFrameStyle(GetPositionStyle(e.position, deviceWidth, deviceHeight, scale), deviceWidth, scale)
    ensures r.Some? && e.kind !in {ShapeKind, TagsKind} ==> r.value.text == ResolveVariable(e.source, v)
    ensures r.Some? && e.kind in {ShapeKind, TagsKind} ==> r.value.text == ""
    ensures r.Some? && e.kind == TagsKind ==> r.value.tags == SelectTags(e.tags, v)
    ensures r.Some? && e.kind != TagsKind ==> r.value.tags == []
  {
    if e.visible == Some(false) then None
    else
      var style := GetPositionStyle(e.position, deviceWidth, deviceHeight, scale);
      match e.kind
      case OtherKind(_) => None
      case TagsKind =>
        var tags := SelectTags(e.tags, v);
        if tags == [] then None else Some(Drawn(e.id, e.kind, style, "", tags))
      case QrCodeKind =>
        var url := ResolveVariable(e.source, v);
        if url == "" then None else Some(Drawn(e.id, e.kind, style, url, []))
      case ShapeKind => Some(Drawn(e.id, e.kind, style, "", []))
      case PhoneFrameKind =>
        Some(Drawn(e.id, e.kind, PhoneFrameStyle(style, deviceWidth, scale), ResolveVariable(e.source, v), []))
      case _ => Some(Drawn(e.id, e.kind, style, ResolveVariable(e.source, v), []))
  }

  /** What one element contributes to the drawing: its drawing, or nothing. */
  function Drawing(e: SchemaElement, v: SlideVariables, deviceWidth: real, deviceHeight: real, scale: real)
    : (r: seq<Drawn>)
    ensures r == [] <==> Render(e, v, deviceWidth, deviceHeight, scale).None?
    ensures r != [] ==> r == [Render(e, v, deviceWidth, deviceHeight, scale).value]
  {
    match Render(e, v, deviceWidth, deviceHeight, scale)
    case Some(d) => [d]
    case None => []
  }

  /** The drawn elements of a list, in list order. */
  function RenderAll(s: seq<SchemaElement>, v: SlideVariables, deviceWidth: real, deviceHeight: real, scale: real)
    : (r: seq<Drawn>)
    ensures |r| <= |s|
    ensures DrawnFromVisible(r, s)
    decreases |s|
  {
    if |s| == 0 then []
    else
      var rest := RenderAll(s[1..], v, deviceWidth, deviceHeight, scale);
      var head := Drawing(s[0], v, deviceWidth, deviceHeight, scale);
      DrawnFromTail(rest, s);
      if head == [] then
        assert head + rest == rest;
        head + rest
      else
        DrawnFromHead(head[0], rest, s);
        head + rest
  }

  /** Each drawn element has the id of a schema element that is not hidden. */
  predicate DrawnFromVisible(r: seq<Drawn>, s: seq<SchemaElement>)
  {
    forall i :: 0 <= i < |r| ==> DrawnFrom(r[i], s)
  }

  /** Some schema element that is not hidden has the drawn element's id. */
  predicate DrawnFrom(d: Drawn, s: seq<SchemaElement>)
  {
    exists j :: 0 <= j < |s| && s[j].id == d.id && s[j].visible != Some(false)
  }

  lemma DrawnFromTail(r: seq<Drawn>, s: seq<SchemaElement>)
    requires |s| > 0 && DrawnFromVisible(r, s[1..])
    ensures DrawnFromVisible(r, s)
  {
    forall i | 0 <= i < |r| ensures DrawnFrom(r[i], s) {
      assert DrawnFrom(r[i], s[1..]);
      var j :| 0 <= j < |s[1..]| && s[1..][j].id == r[i].id && s[1..][j].visible != Some(false);
      assert s[j + 1] == s[1..][j];
    }
  }

  lemma DrawnFromHead(d: Drawn, r: seq<Drawn>, s: seq<SchemaElement>)
    requires |s| > 0 && d.id == s[0].id && s[0].visible != Some(false) && DrawnFromVisible(r, s[1..])
    ensures DrawnFromVisible([d] + r, s)
  {
    DrawnFromTail(r, s);
    var r' := [d] + r;
    forall i | 0 <= i < |r'| ensures DrawnFrom(r'[i], s) {
      if i == 0 {
        assert s[0].id == r'[0].id;
      } else {
        assert r'[i] == r[i - 1];
      }
    }
  }

  /** Some element of `s` draws exactly `d`. */
  predicate RenderedFrom(d: Drawn, s: seq<SchemaElement>, v: SlideVariables, deviceWidth: real, deviceHeight: real,
                         scale: real)
  {
    exists i :: 0 <= i < |s| && Render(s[i], v, deviceWidth, deviceHeight, scale) == Some(d)
  }

  /** Rendering a list is rendering its two halves one after the other: list order is drawing order. */
  lemma {:induction false} RenderAllAppend(a: seq<SchemaElement>, b: seq<SchemaElement>, v: SlideVariables,
                                           deviceWidth: real, deviceHeight: real, scale: real)
    ensures RenderAll(a + b, v, deviceWidth, deviceHeight, scale)
         == RenderAll(a, v, deviceWidth, deviceHeight, scale) + RenderAll(b, v, deviceWidth, deviceHeight, scale)
    decreases |a|
  {
    if |a| == 0 {
      assert a + b == b;
    } else {
      assert (a + b)[0] == a[0] && (a + b)[1..] == a[1..] + b;
      RenderAllAppend(a[1..], b, v, deviceWidth, deviceHeight, scale);
      var d := Drawing(a[0], v, deviceWidth, deviceHeight, scale);
      var x := RenderAll(a[1..], v, deviceWidth, deviceHeight, scale);
      var y := RenderAll(b, v, deviceWidth, deviceHeight, scale);
      ConcatAssoc(d, x, y);
    }
  }

  /** A one-element list draws what its element draws. */
  lemma RenderAllSingle(e: SchemaElement, v: SlideVariables, deviceWidth: real, deviceHeight: real, scale: real)
    ensures RenderAll([e], v, deviceWidth, deviceHeight, scale) == Drawing(e, v, deviceWidth, deviceHeight, scale)
  {
    assert [e][1..] == [];
  }

  /** Every element of a list that draws something has its drawing in the result. */
  lemma {:induction false} RenderAllComplete(s: seq<SchemaElement>, v: SlideVariables, deviceWidth: real,
                                             deviceHeight: real, scale: real)
    ensures forall i :: 0 <= i < |s| && Render(s[i], v, deviceWidth, deviceHeight, scale).Some? ==>
      Render(s[i], v, deviceWidth, deviceHeight, scale).value in RenderAll(s, v, deviceWidth, deviceHeight, scale)
    decreases |s|
  {
    if |s| > 0 {
      var r := RenderAll(s, v, deviceWidth, deviceHeight, scale);
      var rest := RenderAll(s[1..], v, deviceWidth, deviceHeight, scale);
      RenderAllComplete(s[1..], v, deviceWidth, deviceHeight, scale);
      assert r == Drawing(s[0], v, deviceWidth, deviceHeight, scale) + rest;
      forall i | 0 <= i < |s| && Render(s[i], v, deviceWidth, deviceHeight, scale).Some?
        ensures Render(s[i], v, deviceWidth, deviceHeight, scale).value in r
      {
        if i > 0 {
          assert s[1..][i - 1] == s[i];
        }
      }
    }
  }

  /** Everything in the drawings of a list is the drawing of one of its elements. */
  lemma {:induction false} RenderAllSound(s: seq<SchemaElement>, v: SlideVariables, deviceWidth: real,
                                          deviceHeight: real, scale: real)
    ensures forall k :: 0 <= k < |RenderAll(s, v, deviceWidth, deviceHeight, scale)| ==>
      RenderedFrom(RenderAll(s, v, deviceWidth, deviceHeight, scale)[k], s, v, deviceWidth, deviceHeight, scale)
    decreases |s|
  {
    if |s| > 0 {
      var r := RenderAll(s, v, deviceWidth, deviceHeight, scale);
      var rest := RenderAll(s[1..], v, deviceWidth, deviceHeight, scale);
      var head := Drawing(s[0], v, deviceWidth, deviceHeight, scale);
      RenderAllSound(s[1..], v, deviceWidth, deviceHeight, scale);
      assert r == head + rest;
      forall k | 0 <= k < |rest| ensures RenderedFrom(rest[k], s, v, deviceWidth, deviceHeight, scale) {
        RenderedFromTail(rest[k], s, v, deviceWidth, deviceHeight, scale);
      }
      if head != [] {
        assert Render(s[0], v, deviceWidth, deviceHeight, scale) == Some(head[0]);
      }
      RenderedFromJoin(head, rest, s, v, deviceWidth, deviceHeight, scale);
    }
  }

  lemma RenderedFromJoin(x: seq<Drawn>, y: seq<Drawn>, s: seq<SchemaElement>, v: SlideVariables, deviceWidth: real,
                         deviceHeight: real, scale: real)
    requires forall k :: 0 <= k < |x| ==> RenderedFrom(x[k], s, v, deviceWidth, deviceHeight, scale)
    requires forall k :: 0 <= k < |y| ==> RenderedFrom(y[k], s, v, deviceWidth, deviceHeight, scale)
    ensures forall k :: 0 <= k < |x + y| ==> RenderedFrom((x + y)[k], s, v, deviceWidth, deviceHeight, scale)
  {
    forall k | 0 <= k < |x + y| ensures RenderedFrom((x + y)[k], s, v, deviceWidth, deviceHeight, scale) {
      if k >= |x| {
        assert (x + y)[k] == y[k - |x|];
      }
    }
  }

  lemma RenderedFromTail(d: Drawn, s: seq<SchemaElement>, v: SlideVariables, deviceWidth: real,
                         deviceHeight: real, scale: real)
    requires |s| > 0 && RenderedFrom(d, s[1..], v, deviceWidth, deviceHeight, scale)
    ensures RenderedFrom(d, s, v, deviceWidth, deviceHeight, scale)
  {
    var j :| 0 <= j < |s[1..]| && Render(s[1..][j], v, deviceWidth, deviceHeight, scale) == Some(d);
    assert s[j + 1] == s[1..][j];
  }

  /**
   * `SchemaRenderer`: the elements sorted by `zIndex ?? 0`, each drawn or skipped. What comes
   * out is exactly the drawings of the schema's elements.
   */
  function RenderSchema(elements: seq<SchemaElement>, v: SlideVariables, deviceWidth: real, deviceHeight: real,
                        scale: real): (r: seq<Drawn>)
    ensures |r| <= |elements|
    ensures forall i :: 0 <= i < |elements| && Render(elements[i], v, deviceWidth, deviceHeight, scale).Some? ==>
      Render(elements[i], v, deviceWidth, deviceHeight, scale).value in r
    ensures forall k :: 0 <= k < |r| ==> RenderedFrom(r[k], elements, v, deviceWidth, deviceHeight, scale)
  {
    var sorted := SortByZ(elements);
    var r := RenderAll(sorted, v, deviceWidth, deviceHeight, scale);
    RenderAllComplete(sorted, v, deviceWidth, deviceHeight, scale);
    RenderAllSound(sorted, v, deviceWidth, deviceHeight, scale);
    assert |multiset(sorted)| == |multiset(elements)|;
    forall i | 0 <= i < |elements| ensures elements[i] in sorted {
      assert elements[i] in multiset(elements);
    }
    forall k | 0 <= k < |r| ensures RenderedFrom(r[k], elements, v, deviceWidth, deviceHeight, scale) {
      assert RenderedFrom(r[k], sorted, v, deviceWidth, deviceHeight, scale);
      var j :| 0 <= j < |sorted| && Render(sorted[j], v, deviceWidth, deviceHeight, scale) == Some(r[k]);
      assert sorted[j] in multiset(elements);
      var i :| 0 <= i < |elements| && elements[i] == sorted[j];
    }
    r
  }

  /** Only visible schema elements are drawn, and never more than the schema has. */
  lemma RenderSchemaVisible(elements: seq<SchemaElement>, v: SlideVariables, deviceWidth: real,
                            deviceHeight: real, scale: real, i: nat)
    requires i < |RenderSchema(elements, v, deviceWidth, deviceHeight, scale)|
    ensures |RenderSchema(elements, v, deviceWidth, deviceHeight, scale)| <= |elements|
    ensures exists e :: e in elements && e.id == RenderSchema(elements, v, deviceWidth, deviceHeight, scale)[i].id &&
                        e.visible != Some(false)
  {
    var sorted := SortByZ(elements);
    var j :| 0 <= j < |sorted| && sorted[j].id == RenderSchema(elements, v, deviceWidth, deviceHeight, scale)[i].id
             && sorted[j].visible != Some(false);
    assert sorted[j] in multiset(sorted);
    assert |multiset(sorted)| == |multiset(elements)|;
  }

  /** Of two elements of a list that both draw, the earlier one is drawn first. */
  lemma RenderAllOrder(s: seq<SchemaElement>, v: SlideVariables, deviceWidth: real, deviceHeight: real,
                       scale: real, a: nat, b: nat)
    requires a < b < |s|
    requires Render(s[a], v, deviceWidth, deviceHeight, scale).Some?
    requires Render(s[b], v, deviceWidth, deviceHeight, scale).Some?
    ensures var r := RenderAll(s, v, deviceWidth, deviceHeight, scale);
      exists i, j :: 0 <= i < j < |r| && r[i] == Render(s[a], v, deviceWidth, deviceHeight, scale).value
                     && r[j] == Render(s[b], v, deviceWidth, deviceHeight, scale).value
  {
    var front := s[..a];
    var mid := s[a + 1..b];
    var back := s[b + 1..];
    SplitAround(s, a, b);
    RenderAllAppend(front, [s[a]] + (mid + ([s[b]] + back)), v, deviceWidth, deviceHeight, scale);
    RenderAllAppend([s[a]], mid + ([s[b]] + back), v, deviceWidth, deviceHeight, scale);
    RenderAllAppend(mid, [s[b]] + back, v, deviceWidth, deviceHeight, scale);
    RenderAllAppend([s[b]], back, v, deviceWidth, deviceHeight, scale);
    RenderAllSingle(s[a], v, deviceWidth, deviceHeight, scale);
    RenderAllSingle(s[b], v, deviceWidth, deviceHeight, scale);
    var rf := RenderAll(front, v, deviceWidth, deviceHeight, scale);
    var rm := RenderAll(mid, v, deviceWidth, deviceHeight, scale);
    var r := RenderAll(s, v, deviceWidth, deviceHeight, scale);
    Splice(rf, Drawing(s[a], v, deviceWidth, deviceHeight, scale), rm,
           Drawing(s[b], v, deviceWidth, deviceHeight, scale) + RenderAll(back, v, deviceWidth, deviceHeight, scale));
    assert r[|rf|] == Render(s[a], v, deviceWidth, deviceHeight, scale).value;
    assert r[|rf| + 1 + |rm|] == Render(s[b], v, deviceWidth, deviceHeight, scale).value;
  }

  /**
   * An element with a lower `zIndex ?? 0` is drawn before one with a higher key, so it ends
   * up underneath.
   */
  lemma RenderSchemaZOrder(elements: seq<SchemaElement>, v: SlideVariables, deviceWidth: real, deviceHeight: real,
                           scale: real, p: nat, q: nat)
    requires p < |elements| && q < |elements| && Z(elements[p]) < Z(elements[q])
    requires Render(elements[p], v, deviceWidth, deviceHeight, scale).Some?
    requires Render(elements[q], v, deviceWidth, deviceHeight, scale).Some?
    ensures var r := RenderSchema(elements, v, deviceWidth, deviceHeight, scale);
      exists i, j :: 0 <= i < j < |r| && r[i] == Render(elements[p], v, deviceWidth, deviceHeight, scale).value
                     && r[j] == Render(elements[q], v, deviceWidth, deviceHeight, scale).value
  {
    var sorted := SortByZ(elements);
    SortByZSorted(elements);
    assert elements[p] in multiset(sorted) && elements[q] in multiset(sorted);
    var a :| 0 <= a < |sorted| && sorted[a] == elements[p];
    var b :| 0 <= b < |sorted| && sorted[b] == elements[q];
    SortedBefore(sorted, a, b);
    RenderAllOrder(sorted, v, deviceWidth, deviceHeight, scale, a, b);
    var r := RenderAll(sorted, v, deviceWidth, deviceHeight, scale);
    assert RenderSchema(elements, v, deviceWidth, deviceHeight, scale) == r;
    var i, j :| 0 <= i < j < |r| && r[i] == Render(sorted[a], v, deviceWidth, deviceHeight, scale).value
                && r[j] == Render(sorted[b], v, deviceWidth, deviceHeight, scale).value;
  }

  lemma SortedBefore(s: seq<SchemaElement>, a: nat, b: nat)
    requires SortedByZ(s) && a < |s| && b < |s| && Z(s[a]) < Z(s[b])
    ensures a < b
  {
  }
}
