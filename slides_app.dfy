/**
 * The slide deck of the older slide app, src/App.tsx: the list of slides and the selected
 * index, the handlers that add, delete and edit slides, the HTML mode's screenshot
 * substitution, the tags text field and the preview scale. React's state setters become
 * field assignments of one `SlideDeck` object; the preset table of src/schema/presets.ts
 * and the clock are parameters.
 */
module SlidesApp {
  import opened Wrappers
  import opened Strings
  import opened Sequences
  import opened SchemaVariables
  import SchemaRenderer

  datatype BackgroundKind = GradientBackground | SolidBackground | ImageBackground

  /** `Background` of a slide schema. */
  datatype SlideBackground = SlideBackground(kind: BackgroundKind, colors: Option<seq<string>>,
                                             color: Option<string>, image: Option<string>,
                                             gradientAngle: Option<real>)

  datatype SlideSchema = SlideSchema(id: string, name: string, background: SlideBackground,
                                     elements: seq<SchemaRenderer.SchemaElement>)

  /** A slide; `cloneSchema` is a deep copy, which values are already. */
  datatype Slide = Slide(id: int, schemaId: string, schema: SlideSchema, variables: SlideVariables)

  /** `Partial<SlideVariables>`: a `Some` field is present in the update. */
  datatype VariablesPatch = VariablesPatch(
    title: Option<string>, subtitle: Option<string>,
    screenshot: Option<Option<string>>, screenshot2: Option<Option<string>>,
    qrcode1: Option<QrCode>, qrcode2: Option<QrCode>, tags: Option<seq<string>>)

  /** `Partial<Background>`. */
  datatype BackgroundPatch = BackgroundPatch(kind: Option<BackgroundKind>, colors: Option<seq<string>>,
                                             color: Option<string>, image: Option<string>,
                                             gradientAngle: Option<real>)

  datatype PackSlide = PackSlide(schema: SlideSchema, defaultVariables: VariablesPatch)

  datatype TemplatePack = TemplatePack(id: string, name: string, slides: seq<PackSlide>)

  const NoChange: VariablesPatch := VariablesPatch(None, None, None, None, None, None, None)

  /** `DEFAULT_VARIABLES` */
  const DefaultVariables: SlideVariables := SlideVariables(
    "标题", "副标题", None, None,
    Some(QrCode("https://apps.apple.com/app/id6754611670", "iOS")),
    Some(QrCode("https://github.com/TNT-Likely/BeeCount/releases", "Android")),
    Some(["开源", "隐私", "免费", "无广告"]))

  /** `{ ...v, ...patch }` */
  function ApplyVariables(v: SlideVariables, p: VariablesPatch): SlideVariables
  {
    SlideVariables(p.title.GetOr(v.title), p.subtitle.GetOr(v.subtitle),
                   p.screenshot.GetOr(v.screenshot), p.screenshot2.GetOr(v.screenshot2),
                   if p.qrcode1.Some? then p.qrcode1 else v.qrcode1,
                   if p.qrcode2.Some? then p.qrcode2 else v.qrcode2,
                   if p.tags.Some? then p.tags else v.tags)
  }

  /** The update that has the fields of `q` and, where `q` has none, those of `p`. */
  function Then(p: VariablesPatch, q: VariablesPatch): VariablesPatch
  {
    VariablesPatch(if q.title.Some? then q.title else p.title,
                   if q.subtitle.Some? then q.subtitle else p.subtitle,
                   if q.screenshot.Some? then q.screenshot else p.screenshot,
                   if q.screenshot2.Some? then q.screenshot2 else p.screenshot2,
                   if q.qrcode1.Some? then q.qrcode1 else p.qrcode1,
                   if q.qrcode2.Some? then q.qrcode2 else p.qrcode2,
                   if q.tags.Some? then q.tags else p.tags)
  }

  /**
   * Merging is an override: the empty update changes nothing, the same update twice is
   * the update once, and two updates in a row are one update where the later one wins.
   */
  lemma ApplyVariablesLaws(v: SlideVariables, p: VariablesPatch, q: VariablesPatch)
    ensures ApplyVariables(v, NoChange) == v
    ensures ApplyVariables(ApplyVariables(v, p), p) == ApplyVariables(v, p)
    ensures ApplyVariables(ApplyVariables(v, p), q) == ApplyVariables(v, Then(p, q))
  {
  }

  /** `{ ...background, ...patch }` */
  function ApplyBackground(b: SlideBackground, p: BackgroundPatch): SlideBackground
  {
    SlideBackground(p.kind.GetOr(b.kind),
                    if p.colors.Some? then p.colors else b.colors,
                    if p.color.Some? then p.color else b.color,
                    if p.image.Some? then p.image else b.image,
                    if p.gradientAngle.Some? then p.gradientAngle else b.gradientAngle)
  }

  /** A background update keeps exactly the fields it does not name. */
  lemma ApplyBackgroundKeeps(b: SlideBackground, p: BackgroundPatch)
    ensures p.kind.None? ==> ApplyBackground(b, p).kind == b.kind
    ensures p.color.None? ==> ApplyBackground(b, p).color == b.color
    ensures p.colors.None? ==> ApplyBackground(b, p).colors == b.colors
    ensures ApplyBackground(ApplyBackground(b, p), p) == ApplyBackground(b, p)
  {
  }

  /**
   * `createSlidesFromPack(pack)` at time `now`: one slide per pack slide, in order, with id
   * `now + index`, the pack slide's schema, and the default variables overlaid by the pack
   * slide's own.
   */
  function CreateSlidesFromPack(pack: TemplatePack, now: int): (r: seq<Slide>)
    ensures |r| == |pack.slides|
    ensures forall i :: 0 <= i < |r| ==>
      r[i].id == now + i && r[i].schema == pack.slides[i].schema && r[i].schemaId == pack.slides[i].schema.id &&
      r[i].variables == ApplyVariables(DefaultVariables, pack.slides[i].defaultVariables)
  {
    seq(|pack.slides|, i requires 0 <= i < |pack.slides| =>
      Slide(now + i, pack.slides[i].schema.id, pack.slides[i].schema,
            ApplyVariables(DefaultVariables, pack.slides[i].defaultVariables)))
  }

  /** Slides made from a pack get pairwise distinct ids. */
  lemma PackSlideIdsDistinct(pack: TemplatePack, now: int, i: nat, j: nat)
    requires i < j < |pack.slides|
    ensures CreateSlidesFromPack(pack, now)[i].id != CreateSlidesFromPack(pack, now)[j].id
  {
  }

  /** `PRESET_SCHEMAS[id] || PRESET_SCHEMAS.single` */
  function PresetOrSingle(presets: map<string, SlideSchema>, presetId: string): SlideSchema
    requires "single" in presets
  {
    if presetId in presets then presets[presetId] else presets["single"]
  }

  /** `createSlideFromPreset(presetId)` at time `now`: an unknown preset falls back to 'single'. */
  function CreateSlideFromPreset(presets: map<string, SlideSchema>, presetId: string, now: int): (r: Slide)
    requires "single" in presets
    ensures presetId in presets ==> r.schema == presets[presetId]
    ensures presetId !in presets ==> r.schema == presets["single"]
    ensures r.schemaId == r.schema.id && r.variables == DefaultVariables && r.id == now
  {
    var schema := PresetOrSingle(presets, presetId);
    Slide(now, schema.id, schema, DefaultVariables)
  }

  /** `slides.filter((_, i) => i !== index)` */
  function RemoveAt(slides: seq<Slide>, index: nat): (r: seq<Slide>)
    ensures index < |slides| ==> (|r| == |slides| - 1 &&
      (forall k :: 0 <= k < index ==> r[k] == slides[k]) &&
      (forall k :: index <= k < |r| ==> r[k] == slides[k + 1]))
    ensures index >= |slides| ==> r == slides
  {
    if index < |slides| then slides[..index] + slides[index + 1..] else slides
  }

  /** Removing one slide removes exactly that slide from the multiset of slides. */
  lemma RemoveAtMultiset(slides: seq<Slide>, index: nat)
    requires index < |slides|
    ensures multiset(RemoveAt(slides, index)) + multiset{slides[index]} == multiset(slides)
  {
    assert slides == slides[..index] + [slides[index]] + slides[index + 1..];
  }

  /** The slide at `index` with its variables merged with `p`. */
  function WithVariables(slides: seq<Slide>, index: nat, p: VariablesPatch): (r: seq<Slide>)
    ensures |r| == |slides|
    ensures forall k :: 0 <= k < |slides| && k != index ==> r[k] == slides[k]
    ensures index < |slides| ==> r[index] == slides[index].(variables := ApplyVariables(slides[index].variables, p))
  {
    seq(|slides|, k requires 0 <= k < |slides| =>
      if k == index then slides[k].(variables := ApplyVariables(slides[k].variables, p)) else slides[k])
  }

  /** The slide at `index` switched to `schema`. */
  function WithLayout(slides: seq<Slide>, index: nat, schema: SlideSchema): (r: seq<Slide>)
    ensures |r| == |slides|
    ensures forall k :: 0 <= k < |slides| && k != index ==> r[k] == slides[k]
    ensures index < |slides| ==>
      r[index] == slides[index].(schemaId := schema.id, schema := schema)
  {
    seq(|slides|, k requires 0 <= k < |slides| =>
      if k == index then slides[k].(schemaId := schema.id, schema := schema) else slides[k])
  }

  /** The slide at `index` with its background merged with `p`. */
  function WithBackground(slides: seq<Slide>, index: nat, p: BackgroundPatch): (r: seq<Slide>)
    ensures |r| == |slides|
    ensures forall k :: 0 <= k < |slides| && k != index ==> r[k] == slides[k]
    ensures index < |slides| ==>
      r[index] == slides[index].(schema := slides[index].schema.(
        background := ApplyBackground(slides[index].schema.background, p)))
  {
    seq(|slides|, k requires 0 <= k < |slides| =>
      if k == index then
        slides[k].(schema := slides[k].schema.(background := ApplyBackground(slides[k].schema.background, p)))
      else slides[k])
  }

  /** A variables update keeps every slide's layout and background. */
  lemma WithVariablesKeepsSchemas(slides: seq<Slide>, index: nat, p: VariablesPatch, k: nat)
    requires k < |slides|
    ensures WithVariables(slides, index, p)[k].schema == slides[k].schema
    ensures WithVariables(slides, index, p)[k].id == slides[k].id
  {
  }

  class SlideDeck {
    var slides: seq<Slide>
    var currentSlideIndex: nat
    var currentPack: Option<TemplatePack>

    /** The deck's invariant: there is a slide and the index selects one. */
    predicate Valid()
      reads this
    {
      |slides| >= 1 && currentSlideIndex < |slides|
    }

    /** The first render: one 'single' slide, selected. */
    constructor(presets: map<string, SlideSchema>, now: int)
      requires "single" in presets
      ensures Valid()
      ensures slides == [CreateSlideFromPreset(presets, "single", now)] && currentSlideIndex == 0
      ensures currentPack == None
    {
      slides := [CreateSlideFromPreset(presets, "single", now)];
      currentSlideIndex := 0;
      currentPack := None;
    }

    /** `selectPack(pack)`: the pack's slides replace the deck and the first is selected. */
    method SelectPack(pack: TemplatePack, now: int)
      modifies this
      ensures slides == CreateSlidesFromPack(pack, now) && currentSlideIndex == 0 && currentPack == Some(pack)
      ensures |pack.slides| >= 1 ==> Valid()
    {
      currentPack := Some(pack);
      slides := CreateSlidesFromPack(pack, now);
      currentSlideIndex := 0;
    }

    /** `resetToQuickMode()`: back to one 'single' slide and no pack. */
    method ResetToQuickMode(presets: map<string, SlideSchema>, now: int)
      requires "single" in presets
      modifies this
      ensures Valid()
      ensures slides == [CreateSlideFromPreset(presets, "single", now)] && currentSlideIndex == 0
      ensures currentPack == None
    {
      currentPack := None;
      slides := [CreateSlideFromPreset(presets, "single", now)];
      currentSlideIndex := 0;
    }

    /** `addSlide()`: a new 'single' slide goes last and becomes the selected one. */
    method AddSlide(presets: map<string, SlideSchema>, now: int)
      requires "single" in presets
      modifies this
      ensures slides == old(slides) + [CreateSlideFromPreset(presets, "single", now)]
      ensures currentSlideIndex == |old(slides)| && currentPack == old(currentPack)
      ensures Valid()
    {
      slides := slides + [CreateSlideFromPreset(presets, "single", now)];
      currentSlideIndex := |slides| - 1;
    }

    /**
     * `deleteSlide()`: with one slide or none nothing happens; otherwise the selected
     * slide goes and the selection moves to the slide before it (or stays at 0).
     */
    method DeleteSlide()
      modifies this
      ensures |old(slides)| <= 1 ==> slides == old(slides) && currentSlideIndex == old(currentSlideIndex)
      ensures |old(slides)| > 1 ==>
        slides == RemoveAt(old(slides), old(currentSlideIndex)) &&
        currentSlideIndex == if old(currentSlideIndex) > 0 then old(currentSlideIndex) - 1 else 0
      ensures currentPack == old(currentPack)
      ensures old(Valid()) ==> Valid()
    {
      if |slides| <= 1 {
        return;
      }
      slides := RemoveAt(slides, currentSlideIndex);
      currentSlideIndex := if currentSlideIndex > 0 then currentSlideIndex - 1 else 0;
    }

    /** `updateVariables(updates)`: merged into the selected slide only. */
    method UpdateVariables(p: VariablesPatch)
      modifies this
      ensures slides == WithVariables(old(slides), currentSlideIndex, p)
      ensures currentSlideIndex == old(currentSlideIndex) && currentPack == old(currentPack)
      ensures old(Valid()) ==> Valid()
    {
      slides := WithVariables(slides, currentSlideIndex, p);
    }

    /** `changeLayout(presetId)`: an unknown preset changes nothing; otherwise the selected slide takes it. */
    method ChangeLayout(presets: map<string, SlideSchema>, presetId: string)
      modifies this
      ensures presetId !in presets ==> slides == old(slides)
      ensures presetId in presets ==> slides == WithLayout(old(slides), currentSlideIndex, presets[presetId])
      ensures currentSlideIndex == old(currentSlideIndex) && currentPack == old(currentPack)
      ensures old(Valid()) ==> Valid()
    {
      if presetId !in presets {
        return;
      }
      slides := WithLayout(slides, currentSlideIndex, presets[presetId]);
    }

    /** `updateBackground(updates)`: merged into the selected slide's background only. */
    method UpdateBackground(p: BackgroundPatch)
      modifies this
      ensures slides == WithBackground(old(slides), currentSlideIndex, p)
      ensures currentSlideIndex == old(currentSlideIndex) && currentPack == old(currentPack)
      ensures old(Valid()) ==> Valid()
    {
      slides := WithBackground(slides, currentSlideIndex, p);
    }
  }

  // ---------------------------------------------------------------------------------------
  // The HTML mode's screenshot

  const SrcOpen: string := "src=\""

  /**
   * The first match of `/src="[^"]*"/`: where `src="` starts and where the quote that
   * closes it is. When the first `src="` has no closing quote, no later one has either.
   */
  function SrcAttribute(s: string): (r: Option<(nat, nat)>)
    ensures r.Some? ==> r.value.0 + |SrcOpen| <= r.value.1 < |s| && OccursAt(s, SrcOpen, r.value.0) &&
                        s[r.value.1] == '"' && '"' !in s[r.value.0 + |SrcOpen|..r.value.1]
  {
    match IndexOf(s, SrcOpen, 0)
    case None => None
    case Some(i) =>
      match IndexOf(s, "\"", i + |SrcOpen|)
      case None => None
      case Some(j) =>
        assert forall k :: i + |SrcOpen| <= k < j ==> !OccursAt(s, "\"", k);
        assert forall k :: i + |SrcOpen| <= k < j ==> s[k] != '"' by {
          forall k | i + |SrcOpen| <= k < j
            ensures s[k] != '"'
          {
            assert !OccursAt(s, "\"", k);
            assert s[k..k + 1] == [s[k]];
          }
        }
        assert s[j..j + 1] == "\"";
        Some((i, j))
  }

  /** The value of the first `src` attribute. */
  function SrcValue(s: string): Option<string>
  {
    match SrcAttribute(s)
    case None => None
    case Some((i, j)) => Some(s[i + |SrcOpen|..j])
  }

  /**
   * `getProcessedHtml()`: without a screenshot (null or '') the template as is; otherwise
   * the first `src="…"` becomes `src="<screenshot>"`.
   */
  function GetProcessedHtml(template: string, screenshot: Option<string>): (r: string)
    ensures screenshot.None? || screenshot.value == "" || SrcAttribute(template).None? ==> r == template
  {
    if screenshot.None? || screenshot.value == "" then template
    else
      match SrcAttribute(template)
      case None => template
      case Some((i, j)) => template[..i] + (SrcOpen + (screenshot.value + template[j..]))
  }

  /**
   * With a screenshot whose URL has no quote, the processed HTML's first `src` is the
   * screenshot, and everything before that attribute and after its closing quote is kept.
   */
  lemma ProcessedHtmlShowsScreenshot(template: string, screenshot: string)
    requires screenshot != "" && '"' !in screenshot && SrcAttribute(template).Some?
    ensures SrcValue(GetProcessedHtml(template, Some(screenshot))) == Some(screenshot)
    ensures var r, m := GetProcessedHtml(template, Some(screenshot)), SrcAttribute(template).value;
      r[..m.0] == template[..m.0]
    ensures var r, m := GetProcessedHtml(template, Some(screenshot)), SrcAttribute(template).value;
      r[m.0 + |SrcOpen| + |screenshot|..] == template[m.1..]
  {
    var m := SrcAttribute(template).value;
    var i, j := m.0, m.1;
    var r := GetProcessedHtml(template, Some(screenshot));
    var from := i + |SrcOpen|;
    var b := template[j..];
    assert r == template[..i] + (SrcOpen + (screenshot + b));
    Splice(template[..i], SrcOpen, screenshot, b);
    OpenPrefix(template, i);
    assert r[from + |screenshot|] == b[0] == '"';
    ValueInPlace(template, r, i, screenshot);
  }

  /**
   * A string that agrees with `t` up to the end of `t`'s first `src="` and continues with a
   * quote-free value and a quote has that value as its `src`.
   */
  lemma ValueInPlace(t: string, r: string, i: nat, v: string)
    requires IndexOf(t, SrcOpen, 0) == Some(i) && i + |SrcOpen| + |v| < |r|
    requires r[..i + |SrcOpen|] == t[..i + |SrcOpen|]
    requires r[i + |SrcOpen|..i + |SrcOpen| + |v|] == v && r[i + |SrcOpen| + |v|] == '"' && '"' !in v
    ensures SrcValue(r) == Some(v)
  {
    SrcKept(t, r, i);
    QuoteAfter(r, i + |SrcOpen|, v);
    SrcValueAt(r, i, i + |SrcOpen| + |v|);
  }

  /** The text up to the end of an occurrence of `src="` at `i`. */
  lemma OpenPrefix(t: string, i: nat)
    requires OccursAt(t, SrcOpen, i)
    ensures t[..i + |SrcOpen|] == t[..i] + SrcOpen
  {
    assert t[..i + |SrcOpen|] == t[..i] + t[i..i + |SrcOpen|];
  }

  /** Where the first `src="` and the quote after it lie, the value is what lies between. */
  lemma SrcValueAt(r: string, i: nat, e: nat)
    requires IndexOf(r, SrcOpen, 0) == Some(i) && IndexOf(r, "\"", i + |SrcOpen|) == Some(e)
    ensures SrcValue(r) == Some(r[i + |SrcOpen|..e])
  {
  }

  /** A string that agrees with `t` up to the end of `t`'s first `src="` has it at the same place. */
  lemma SrcKept(t: string, r: string, i: nat)
    requires IndexOf(t, SrcOpen, 0) == Some(i) && i + |SrcOpen| <= |r| && r[..i + |SrcOpen|] == t[..i + |SrcOpen|]
    ensures IndexOf(r, SrcOpen, 0) == Some(i)
  {
    forall k | 0 <= k < i
      ensures !OccursAt(r, SrcOpen, k)
    {
      assert !OccursAt(t, SrcOpen, k);
      assert r[k..k + |SrcOpen|] == t[k..k + |SrcOpen|];
    }
    assert r[i..i + |SrcOpen|] == t[i..i + |SrcOpen|];
    SrcFirst(r, i);
  }

  /** After a quote-free value, the next quote is the one that ends it. */
  lemma QuoteAfter(r: string, from: nat, value: string)
    requires from + |value| < |r| && r[from..from + |value|] == value && r[from + |value|] == '"' && '"' !in value
    ensures IndexOf(r, "\"", from) == Some(from + |value|)
  {
    var e := from + |value|;
    forall k | from <= k < e
      ensures !OccursAt(r, "\"", k)
    {
      assert r[k] == value[k - from];
    }
    QuoteFirst(r, from, e);
  }

  lemma SrcFirst(s: string, i: nat)
    requires OccursAt(s, SrcOpen, i) && forall k :: 0 <= k < i ==> !OccursAt(s, SrcOpen, k)
    ensures IndexOf(s, SrcOpen, 0) == Some(i)
  {
  }

  lemma {:induction false} QuoteFirst(s: string, from: nat, e: nat)
    requires from <= e < |s| && s[e] == '"' && forall k :: from <= k < e ==> !OccursAt(s, "\"", k)
    ensures IndexOf(s, "\"", from) == Some(e)
    decreases e - from
  {
    assert s[e..e + 1] == "\"";
    if from < e {
      QuoteFirst(s, from + 1, e);
    }
  }

  // ---------------------------------------------------------------------------------------
  // The tags text field

  /** `parts.join(sep)` for a separator string. */
  function JoinWith(parts: seq<string>, sep: string): string
    decreases |parts|
  {
    if |parts| == 0 then "" else if |parts| == 1 then parts[0] else parts[0] + sep + JoinWith(parts[1..], sep)
  }

  /** `tags?.join(', ') || ''`: the text the field shows. */
  function ShowTags(tags: Option<seq<string>>): string
  {
    if tags.Some? then JoinWith(tags.value, ", ") else ""
  }

  /** `.map(t => t.trim()).filter(t => t)` */
  function CleanTags(parts: seq<string>): (r: seq<string>)
    ensures |r| <= |parts|
    ensures forall k :: 0 <= k < |r| ==> Trimmed(r[k])
    decreases |parts|
  {
    if |parts| == 0 then []
    else
      var t := Trim(parts[0]);
      var rest := CleanTags(parts[1..]);
      if t == "" then rest
      else
        TrimmedCons(parts[0], rest);
        [t] + rest
  }

  /** A trimmed non-empty head keeps a list of trimmed tags trimmed. */
  lemma TrimmedCons(part: string, rest: seq<string>)
    requires Trim(part) != "" && forall k :: 0 <= k < |rest| ==> Trimmed(rest[k])
    ensures var r := [Trim(part)] + rest; forall k :: 0 <= k < |r| ==> Trimmed(r[k])
  {
    var r := [Trim(part)] + rest;
    TrimTrimmed(part);
    forall k | 0 <= k < |r| ensures Trimmed(r[k]) {
      if k > 0 { assert r[k] == rest[k - 1]; }
    }
  }

  /** A non-empty string that trimming leaves alone. */
  predicate Trimmed(t: string)
  {
    t != "" && Trim(t) == t
  }

  /** `value.split(',').map(t => t.trim()).filter(t => t)`: the tags the field's text gives. */
  function ParseTags(text: string): (r: seq<string>)
    ensures forall k :: 0 <= k < |r| ==> Trimmed(r[k])
  {
    CleanTags(Split(text, ','))
  }

  /** A tag as the field can give it back: not empty, no comma, no surrounding white space. */
  predicate CleanTag(t: string)
  {
    t != "" && ',' !in t && Trim(t) == t
  }

  lemma TrimStartPlain(t: string)
    requires t == [] || !IsJsWhitespace(t[0])
    ensures TrimStart(t) == t
  {
  }

  lemma TrimEndPlain(t: string)
    requires t == [] || !IsJsWhitespace(t[|t| - 1])
    ensures TrimEnd(t) == t
  {
  }

  /** Trimming twice is trimming once. */
  lemma TrimTrimmed(t: string)
    ensures Trim(t) != "" ==> Trimmed(Trim(t))
  {
    var u := Trim(t);
    TrimStartPlain(u);
    TrimEndPlain(u);
  }

  /** A clean tag with one leading space trims back to itself. */
  lemma TrimSpaced(t: string)
    requires CleanTag(t)
    ensures Trim(" " + t) == t
  {
    var s := " " + t;
    assert s[1..] == t;
    assert TrimStart(s) == TrimStart(t);
    assert t[0] == Trim(t)[0];
    TrimStartPlain(t);
    assert Trim(t)[|t| - 1] == t[|t| - 1];
    TrimEndPlain(t);
  }

  lemma {:induction false} SplitNoSeparator(p: string, sep: char)
    requires sep !in p
    ensures Split(p, sep) == [p]
    decreases |p|
  {
    if p != [] {
      SplitNoSeparator(p[1..], sep);
      assert p == [p[0]] + p[1..];
    }
  }

  lemma {:induction false} SplitAfter(p: string, sep: char, rest: string)
    requires sep !in p
    ensures Split(p + [sep] + rest, sep) == [p] + Split(rest, sep)
    decreases |p|
  {
    var s := p + [sep] + rest;
    if p == [] {
      assert s[1..] == rest;
    } else {
      assert s[1..] == p[1..] + [sep] + rest;
      SplitAfter(p[1..], sep, rest);
      assert p == [p[0]] + p[1..];
    }
  }

  /** A clean tag after a lead of '' or ' ' trims back to itself. */
  lemma TrimLead(lead: string, t: string)
    requires CleanTag(t) && (lead == "" || lead == " ")
    ensures Trim(lead + t) == t && ',' !in lead + t
  {
    if lead == "" {
      assert lead + t == t;
    } else {
      TrimSpaced(t);
    }
  }

  /** Cleaning keeps a first part that trims to a non-empty tag. */
  lemma CleanTagsCons(first: string, tag: string, rest: seq<string>)
    requires Trim(first) == tag && tag != ""
    ensures CleanTags([first] + rest) == [tag] + CleanTags(rest)
  {
    assert ([first] + rest)[1..] == rest;
  }

  /** The text of two or more tags splits at the comma after the first. */
  lemma SplitJoined(tags: seq<string>, lead: string)
    requires |tags| >= 2 && ',' !in lead + tags[0]
    ensures Split(lead + JoinWith(tags, ", "), ',') ==
            [lead + tags[0]] + Split(" " + JoinWith(tags[1..], ", "), ',')
  {
    var first := lead + tags[0];
    var tail := JoinWith(tags[1..], ", ");
    var rest := " " + tail;
    assert JoinWith(tags, ", ") == tags[0] + ", " + tail;
    assert ", " + tail == [','] + rest;
    calc {
      lead + JoinWith(tags, ", ");
      lead + (tags[0] + ([','] + rest));
      (lead + tags[0]) + ([','] + rest);
      first + [','] + rest;
    }
    SplitAfter(first, ',', rest);
  }

  /** The text of one tag parses back to that tag. */
  lemma ParseOneTag(t: string, lead: string)
    requires CleanTag(t) && (lead == "" || lead == " ")
    ensures CleanTags(Split(lead + JoinWith([t], ", "), ',')) == [t]
  {
    var first := lead + t;
    TrimLead(lead, t);
    assert lead + JoinWith([t], ", ") == first;
    SplitNoSeparator(first, ',');
    CleanTagsCons(first, t, []);
    assert [first] + [] == [first];
  }

  lemma HeadTail(tags: seq<string>)
    requires |tags| >= 1
    ensures [tags[0]] + tags[1..] == tags
  {
  }

  /** Parsing `lead + tags.join(', ')` for a lead of '' or ' ' gives the tags back. */
  lemma {:induction false} ParseJoined(tags: seq<string>, lead: string)
    requires |tags| >= 1 && (lead == "" || lead == " ")
    requires forall k :: 0 <= k < |tags| ==> CleanTag(tags[k])
    ensures CleanTags(Split(lead + JoinWith(tags, ", "), ',')) == tags
    decreases |tags|
  {
    if |tags| == 1 {
      ParseOneTag(tags[0], lead);
      assert tags == [tags[0]];
    } else {
      assert forall k :: 0 <= k < |tags[1..]| ==> CleanTag(tags[1..][k]);
      ParseJoined(tags[1..], " ");
      ParseJoinedStep(tags, lead);
    }
  }

  /** The first tag parses back in front of the tags the rest of the text gives. */
  lemma ParseJoinedStep(tags: seq<string>, lead: string)
    requires |tags| >= 2 && (lead == "" || lead == " ") && CleanTag(tags[0])
    requires CleanTags(Split(" " + JoinWith(tags[1..], ", "), ',')) == tags[1..]
    ensures CleanTags(Split(lead + JoinWith(tags, ", "), ',')) == tags
  {
    TrimLead(lead, tags[0]);
    SplitJoined(tags, lead);
    CleanTagsCons(lead + tags[0], tags[0], Split(" " + JoinWith(tags[1..], ", "), ','));
    HeadTail(tags);
  }

  /**
   * The tags field round-trips: the text shown for a list of clean tags parses back to
   * the same list, the empty list included.
   */
  lemma TagsRoundTrip(tags: seq<string>)
    requires forall k :: 0 <= k < |tags| ==> CleanTag(tags[k])
    ensures ParseTags(ShowTags(Some(tags))) == tags
  {
    if |tags| == 0 {
      assert Trim("") == "";
    } else {
      ParseJoined(tags, "");
      assert "" + JoinWith(tags, ", ") == JoinWith(tags, ", ");
    }
  }

  // ---------------------------------------------------------------------------------------
  // The preview scale

  /** `DEVICE_SIZES` */
  datatype DeviceSize = Iphone67 | Iphone65 | Iphone55 | Social1080 | Social1242

  function DeviceWidth(d: DeviceSize): real
  {
    match d
    case Iphone67 => 1290.0
    case Iphone65 => 1284.0
    case Iphone55 => 1242.0
    case Social1080 => 1080.0
    case Social1242 => 1242.0
  }

  function DeviceHeight(d: DeviceSize): real
  {
    match d
    case Iphone67 => 2796.0
    case Iphone65 => 2778.0
    case Iphone55 => 2208.0
    case Social1080 => 1920.0
    case Social1242 => 2208.0
  }

  /**
   * `updateScale`: the largest scale at which the device fits the container with a
   * 20-pixel margin, capped at 0.4 and never below 0.1.
   */
  function PreviewScale(containerWidth: real, containerHeight: real, d: DeviceSize): (r: real)
    ensures 0.1 <= r <= 0.4
    ensures r > 0.1 ==> r * DeviceWidth(d) <= containerWidth - 20.0 && r * DeviceHeight(d) <= containerHeight - 20.0
    ensures containerWidth - 20.0 >= 0.4 * DeviceWidth(d) && containerHeight - 20.0 >= 0.4 * DeviceHeight(d) ==> r == 0.4
  {
    var scaleH := (containerHeight - 20.0) / DeviceHeight(d);
    var scaleW := (containerWidth - 20.0) / DeviceWidth(d);
    var smallest := if scaleH <= scaleW then (if scaleH <= 0.4 then scaleH else 0.4)
                    else (if scaleW <= 0.4 then scaleW else 0.4);
    if smallest >= 0.1 then smallest else 0.1
  }
}
