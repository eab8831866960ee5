/**
 * The document tree of packages/core/src/schema: a document is a list of pages, a page a
 * background and a list of elements, and `background.ts` fixes the background variants and
 * the four gradient presets.
 */
module Documents {
  import opened Wrappers
  import opened JsValues

  datatype BackgroundType = SolidBackground | GradientBackground | ImageBackground

  datatype GradientKind = Linear | Radial

  /** A colour stop; the offset is meant to lie in [0, 1]. */
  datatype GradientStop = GradientStop(offset: real, color: string)

  datatype GradientConfig = GradientConfig(kind: GradientKind, angle: Option<real>, stops: seq<GradientStop>)

  datatype ImageFit = FitFill | FitContain | FitCover

  datatype ImageBackgroundConfig = ImageBackgroundConfig(src: string, fit: ImageFit, opacity: Option<real>)

  /** Tagged by `type`; the payloads are all optional. */
  datatype Background = Background(
    backgroundType: BackgroundType,
    color: Option<string>,
    gradient: Option<GradientConfig>,
    image: Option<ImageBackgroundConfig>)

  /** A solid background of one colour, the form every page factory uses. */
  function Solid(color: string): (b: Background)
    ensures b.backgroundType == SolidBackground && b.color == Some(color)
  {
    Background(SolidBackground, Some(color), None, None)
  }

  datatype Page = Page(id: string, name: string, width: real, height: real, background: Background,
                       elements: seq<Record>)

  datatype AssetType = ImageAsset | FontAsset | VideoAsset

  datatype Asset = Asset(id: string, assetType: AssetType, name: string, src: string)

  datatype Document = Document(id: string, version: string, name: string, createdAt: int, updatedAt: int,
                               pages: seq<Page>, assets: seq<Asset>)

  /** `pages.find(p => p.id === id)` */
  function FindPage(pages: seq<Page>, id: string): (r: Option<Page>)
    ensures r.Some? <==> exists i :: 0 <= i < |pages| && pages[i].id == id
    ensures r.Some? ==> r.value in pages && r.value.id == id
    decreases |pages|
  {
    if |pages| == 0 then None
    else if pages[0].id == id then Some(pages[0])
    else
      var rest := FindPage(pages[1..], id);
      assert forall i :: 1 <= i < |pages| ==> pages[i] == pages[1..][i - 1];
      rest
  }

  /** The first page carrying the id is the one found. */
  lemma {:induction false} FindPageFirst(pages: seq<Page>, i: nat, id: string)
    requires i < |pages| && pages[i].id == id
    requires forall j :: 0 <= j < i ==> pages[j].id != id
    ensures FindPage(pages, id) == Some(pages[i])
    decreases i
  {
    if i > 0 {
      FindPageFirst(pages[1..], i - 1, id);
    }
  }

  /** A gradient the presets promise: stops ascending strictly from offset 0 to offset 1. */
  predicate AscendingStops(stops: seq<GradientStop>)
  {
    |stops| >= 2 && stops[0].offset == 0.0 && stops[|stops| - 1].offset == 1.0
    && forall i :: 0 < i < |stops| ==> stops[i - 1].offset < stops[i].offset
  }

  /** Ascending stops from 0 to 1 keep every offset inside [0, 1]. */
  lemma {:induction false} AscendingStopsInRange(stops: seq<GradientStop>, i: nat)
    requires AscendingStops(stops) && i < |stops|
    ensures 0.0 <= stops[i].offset <= 1.0
  {
    AscendingFrom(stops, 0, i);
    AscendingFrom(stops, i, |stops| - 1);
  }

  lemma {:induction false} AscendingFrom(stops: seq<GradientStop>, i: nat, j: nat)
    requires forall k :: 0 < k < |stops| ==> stops[k - 1].offset < stops[k].offset
    requires i <= j < |stops|
    ensures stops[i].offset <= stops[j].offset
    decreases j - i
  {
    if i < j {
      AscendingFrom(stops, i, j - 1);
    }
  }

  datatype GradientPreset = GradientPreset(name: string, gradient: GradientConfig)

  function Diagonal(stops: seq<GradientStop>): GradientConfig
  {
    GradientConfig(Linear, Some(135.0), stops)
  }

  /** `GRADIENT_PRESETS` */
  const GradientPresets: seq<GradientPreset> := [
    GradientPreset("紫粉渐变", Diagonal([GradientStop(0.0, "#667eea"), GradientStop(1.0, "#f093fb")])),
    GradientPreset("蓝绿渐变", Diagonal([GradientStop(0.0, "#4facfe"), GradientStop(1.0, "#00f2fe")])),
    GradientPreset("橙红渐变", Diagonal([GradientStop(0.0, "#fa709a"), GradientStop(1.0, "#fee140")])),
    GradientPreset("深空渐变", Diagonal([GradientStop(0.0, "#0f0c29"), GradientStop(0.5, "#302b63"),
                                         GradientStop(1.0, "#24243e")]))]

  /**
   * Four presets, each a linear gradient at 135 degrees whose stops ascend strictly from 0
   * to 1, so every stop offset lies in [0, 1].
   */
  lemma GradientPresetsWellFormed()
    ensures |GradientPresets| == 4
    ensures forall p :: p in GradientPresets ==>
      p.gradient.kind == Linear && p.gradient.angle == Some(135.0) && AscendingStops(p.gradient.stops)
    ensures forall p, s :: p in GradientPresets && s in p.gradient.stops ==> 0.0 <= s.offset <= 1.0
  {
    PresetsDiagonal();
    forall p, s | p in GradientPresets && s in p.gradient.stops ensures 0.0 <= s.offset <= 1.0 {
      StopInRange(p.gradient.stops, s);
    }
  }

  lemma PresetsDiagonal()
    ensures |GradientPresets| == 4
    ensures forall p :: p in GradientPresets ==>
      p.gradient.kind == Linear && p.gradient.angle == Some(135.0) && AscendingStops(p.gradient.stops)
  {
  }

  lemma StopInRange(stops: seq<GradientStop>, s: GradientStop)
    requires AscendingStops(stops) && s in stops
    ensures 0.0 <= s.offset <= 1.0
  {
    var i :| 0 <= i < |stops| && stops[i] == s;
    AscendingStopsInRange(stops, i);
  }
}
