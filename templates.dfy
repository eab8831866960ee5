/**
 * The playground's template catalogue (apps/playground/src/config/templates.ts): two local
 * element factories, five templates whose `createDocument` builds a one-page document from
 * a list of factory calls, and the two catalogue lookups.
 *
 * `generateId` is the counter oracle of module `Ids`: a document built from serial `next`
 * takes `IdAt(next)` for itself, `IdAt(next + 1)` for its page and `IdAt(next + 2 + i)` for
 * its `i`-th element, the order in which the object literal evaluates the calls.
 */
module Templates {
  import opened Wrappers
  import opened JsValues
  import opened Strings
  import opened Ids
  import opened Sequences
  import opened Documents

  /** The properties the local `createTextElement` fixes whatever `options` say before the spread. */
  function TextFixed(id: string, content: string, x: real, y: real): Record
  {
    map[Id := Str(id), Type := Str("text"), Name := Str(Take(content, 20)), X := Num(x), Y := Num(y),
        Rotation := Num(0.0), ScaleX := Num(1.0), ScaleY := Num(1.0), Opacity := Num(1.0),
        Visible := Bool(true), Locked := Bool(false), Content := Str(content)]
  }

  /** The values the `options.k || d` properties fall back to. */
  const TextFallbacks: Record := map[
    Width := Num(800.0), Height := Num(100.0), FontSize := Num(48.0), FontFamily := Str("Inter"),
    FontWeight := Num(600.0), Color := Str("#ffffff"), Align := Str("center"), LineHeight := Num(1.4),
    LetterSpacing := Num(0.0)]

  /** `{k: options.k || d, ...}` over a table of fallbacks `d`. */
  function OrFallbacks(fallbacks: Record, options: Record): (r: Record)
    ensures r.Keys == fallbacks.Keys
  {
    map k | k in fallbacks :: OrElse(Get(options, k), fallbacks[k])
  }

  /**
   * Spreading `options` over `{k: options.k || d}` is spreading it over the plain
   * fallbacks: a property `options` has wins (even a falsy one), an absent one falls back.
   */
  lemma OrFallbacksSpread(fallbacks: Record, options: Record)
    ensures OrFallbacks(fallbacks, options) + options == fallbacks + options
  {
    var l, r := OrFallbacks(fallbacks, options) + options, fallbacks + options;
    forall k | k in l
      ensures k in r && l[k] == r[k]
    {
      if k !in options {
        assert Get(options, k) == Undef;
      }
    }
  }

  /** The local `createTextElement(content, x, y, options)`, given the id it generates. */
  function TemplateText(id: string, content: string, x: real, y: real, options: Record): Record
  {
    TextFixed(id, content, x, y) + OrFallbacks(TextFallbacks, options) + options
  }

  /**
   * A template text is its fixed properties, then the fallbacks, then `options`: every
   * property `options` has wins, and the name is the first 20 characters of the content
   * unless `options` overrides it.
   */
  lemma TemplateTextSpread(id: string, content: string, x: real, y: real, options: Record)
    ensures TemplateText(id, content, x, y, options) == TextFixed(id, content, x, y) + TextFallbacks + options
    ensures Name !in options ==> TemplateText(id, content, x, y, options)[Name] == Str(Take(content, 20))
  {
    OrFallbacksSpread(TextFallbacks, options);
    var fixed := TextFixed(id, content, x, y);
    UnionAssoc(fixed, OrFallbacks(TextFallbacks, options), options);
    UnionAssoc(fixed, TextFallbacks, options);
    if Name !in options {
      assert Name !in TextFallbacks.Keys;
      UnionKeepsFirst(fixed, TextFallbacks, options, Name);
    }
  }

  lemma UnionAssoc(a: Record, b: Record, c: Record)
    ensures a + b + c == a + (b + c)
  {
  }

  /** A key neither later map has keeps the first map's value through both spreads. */
  lemma UnionKeepsFirst(a: Record, b: Record, c: Record, k: Key)
    requires k in a && k !in b && k !in c
    ensures (a + b + c)[k] == a[k]
  {
  }

  function SolidFill(color: string): Value
  {
    Obj(map[Type := Str("solid"), Color := Str(color)])
  }

  const TransparentStroke: Value := Obj(map[Color := Str("transparent"), Width := Num(0.0)])

  function ShapeFixed(id: string, shapeType: string, x: real, y: real, width: real, height: real): Record
  {
    map[Id := Str(id), Type := Str("shape"), Name := Str(shapeType), X := Num(x), Y := Num(y),
        Width := Num(width), Height := Num(height), Rotation := Num(0.0), ScaleX := Num(1.0),
        ScaleY := Num(1.0), Opacity := Num(1.0), Visible := Bool(true), Locked := Bool(false),
        ShapeType := Str(shapeType)]
  }

  /** The paint properties, read from `options` before the spread. */
  function ShapePaint(options: Record): Record
  {
    map[Fill := OrElse(Get(options, Fill), SolidFill("#ffffff")),
        Stroke := OrElse(Get(options, Stroke), TransparentStroke),
        BorderRadius := Get(options, BorderRadius)]
  }

  /**
   * The local `createShapeElement(shapeType, x, y, width, height, options)`, given its id.
   * `borderRadius: options.borderRadius` makes the key present even when `options` lacks it.
   */
  function TemplateShape(id: string, shapeType: string, x: real, y: real, width: real, height: real,
                         options: Record): Record
  {
    ShapeFixed(id, shapeType, x, y, width, height) + ShapePaint(options) + options
  }

  /**
   * A template shape is named after its shape type, and without options of its own it has a
   * solid white fill, a transparent stroke of width 0 and a border radius that is present
   * but undefined; whatever `options` has wins.
   */
  lemma TemplateShapeDefaults(id: string, shapeType: string, x: real, y: real, width: real, height: real,
                              options: Record)
    ensures var e := TemplateShape(id, shapeType, x, y, width, height, options);
      (forall k :: k in options ==> k in e && e[k] == options[k]) &&
      (Name !in options ==> e[Name] == Str(shapeType)) &&
      (Fill !in options ==> e[Fill] == SolidFill("#ffffff")) &&
      (Stroke !in options ==> e[Stroke] == TransparentStroke) &&
      (BorderRadius !in options ==> BorderRadius in e && e[BorderRadius] == Undef)
  {
    var fixed, paint := ShapeFixed(id, shapeType, x, y, width, height), ShapePaint(options);
    if Name !in options {
      assert Name !in paint.Keys;
      UnionKeepsFirst(fixed, paint, options, Name);
    }
    if Fill !in options {
      assert paint[Fill] == OrElse(Undef, SolidFill("#ffffff"));
      UnionKeepsMiddle(fixed, paint, options, Fill);
    }
    if Stroke !in options {
      assert paint[Stroke] == OrElse(Undef, TransparentStroke);
      UnionKeepsMiddle(fixed, paint, options, Stroke);
    }
    if BorderRadius !in options {
      UnionKeepsMiddle(fixed, paint, options, BorderRadius);
    }
  }

  /** A key the last map lacks takes the middle map's value through both spreads. */
  lemma UnionKeepsMiddle(a: Record, b: Record, c: Record, k: Key)
    requires k in b && k !in c
    ensures k in a + b + c && (a + b + c)[k] == b[k]
  {
  }

  datatype TemplateCategory = Simple | GradientCategory | Dark | Mockup | ComparisonCategory

  /** One factory call of a template's element list, before its id is generated. */
  datatype ElementSpec =
    | TextSpec(content: string, x: real, y: real, options: Record)
    | ShapeSpec(shapeType: string, x: real, y: real, width: real, height: real, options: Record)

  /** `Template`, with `createDocument` given by what it varies over: name, background, elements. */
  datatype Template = Template(id: string, name: string, description: string, category: TemplateCategory,
                               documentName: string, background: Background, elements: seq<ElementSpec>)

  /** Runs one factory call with the given id. */
  function Instantiate(spec: ElementSpec, id: string): Record
  {
    match spec
    case TextSpec(content, x, y, options) => TemplateText(id, content, x, y, options)
    case ShapeSpec(shapeType, x, y, w, h, options) => TemplateShape(id, shapeType, x, y, w, h, options)
  }

  /** The element list, the `i`-th call taking serial `next + i`. */
  function InstantiateAll(specs: seq<ElementSpec>, next: nat): (es: seq<Record>)
    ensures |es| == |specs|
    ensures forall i :: 0 <= i < |specs| ==> es[i] == Instantiate(specs[i], IdAt(next + i))
    decreases |specs|
  {
    if |specs| == 0 then []
    else [Instantiate(specs[0], IdAt(next))] + InstantiateAll(specs[1..], next + 1)
  }

  /** `template.createDocument()` at time `now`, with ids drawn from serial `next` on. */
  function CreateDocument(t: Template, next: nat, now: int): Document
  {
    Document(IdAt(next), "1.0.0", t.documentName, now, now,
             [Page(IdAt(next + 1), "第 1 页", 1290.0, 2796.0, t.background, InstantiateAll(t.elements, next + 2))],
             [])
  }

  /** An element's id as the factory set it, unless the template's options override it. */
  function ElementId(spec: ElementSpec, id: string): Value
  {
    if Id in spec.options then spec.options[Id] else Str(id)
  }

  /** Each factory call's element carries the generated id unless its options set one. */
  lemma InstantiateId(spec: ElementSpec, id: string)
    ensures Id in Instantiate(spec, id) && Instantiate(spec, id)[Id] == ElementId(spec, id)
  {
    match spec
    case TextSpec(content, x, y, options) => TextId(id, content, x, y, options);
    case ShapeSpec(shapeType, x, y, w, h, options) => ShapeId(id, shapeType, x, y, w, h, options);
  }

  lemma TextId(id: string, content: string, x: real, y: real, options: Record)
    ensures Id in TemplateText(id, content, x, y, options)
    ensures TemplateText(id, content, x, y, options)[Id] == if Id in options then options[Id] else Str(id)
  {
    assert Id !in TextFallbacks.Keys;
    SpreadId(TextFixed(id, content, x, y), OrFallbacks(TextFallbacks, options), options, id);
  }

  lemma ShapeId(id: string, shapeType: string, x: real, y: real, w: real, h: real, options: Record)
    ensures Id in TemplateShape(id, shapeType, x, y, w, h, options)
    ensures TemplateShape(id, shapeType, x, y, w, h, options)[Id] == if Id in options then options[Id] else Str(id)
  {
    SpreadId(ShapeFixed(id, shapeType, x, y, w, h), ShapePaint(options), options, id);
  }

  /** The id a factory fixes survives a middle spread without one and loses to the options'. */
  lemma SpreadId(fixed: Record, rest: Record, options: Record, id: string)
    requires Id in fixed && fixed[Id] == Str(id) && Id !in rest
    ensures Id in fixed + rest + options
    ensures (fixed + rest + options)[Id] == if Id in options then options[Id] else Str(id)
  {
  }

  /**
   * Every template's document has exactly one 1290×2796 page named '第 1 页' with the
   * template's background, one element per factory call in order, no assets, and both
   * timestamps equal to `now`; the document and its page carry different ids.
   */
  lemma CreateDocumentShape(t: Template, next: nat, now: int)
    ensures var d := CreateDocument(t, next, now);
      |d.pages| == 1 && d.assets == [] && d.createdAt == now && d.updatedAt == now &&
      d.name == t.documentName && d.version == "1.0.0" &&
      d.pages[0].width == 1290.0 && d.pages[0].height == 2796.0 && d.pages[0].name == "第 1 页" &&
      d.pages[0].background == t.background && |d.pages[0].elements| == |t.elements| &&
      d.id != d.pages[0].id
  {
    if IdAt(next) == IdAt(next + 1) {
      IdAtInjective(next, next + 1);
    }
  }

  /** The `i`-th element of a template document is the `i`-th factory call with serial `next + 2 + i`. */
  lemma CreateDocumentElements(t: Template, next: nat, now: int, i: nat)
    requires i < |t.elements|
    ensures var es := CreateDocument(t, next, now).pages[0].elements;
      i < |es| && es[i] == Instantiate(t.elements[i], IdAt(next + 2 + i)) &&
      Id in es[i] && es[i][Id] == ElementId(t.elements[i], IdAt(next + 2 + i))
  {
    InstantiateId(t.elements[i], IdAt(next + 2 + i));
  }

  /** Generated ids never collide: distinct serials give distinct documents' and elements' ids. */
  lemma GeneratedIdsDistinct(next: nat, i: nat, j: nat)
    requires i != j
    ensures IdAt(next + i) != IdAt(next + j)
  {
    if IdAt(next + i) == IdAt(next + j) {
      IdAtInjective(next + i, next + j);
    }
  }

  function LinearBackground(angle: real, from: string, to: string): Background
  {
    Background(GradientBackground, None,
               Some(GradientConfig(Linear, Some(angle), [GradientStop(0.0, from), GradientStop(1.0, to)])), None)
  }

  /** Options of a text call: width, font size, weight and colour, the most common form. */
  function Headline(width: real, fontSize: real, fontWeight: real, color: string): Record
  {
    map[Width := Num(width), FontSize := Num(fontSize), FontWeight := Num(fontWeight), Color := Str(color)]
  }

  function Sized(fontSize: real, color: string): Record
  {
    map[FontSize := Num(fontSize), Color := Str(color)]
  }

  function Weighted(fontSize: real, fontWeight: real, color: string): Record
  {
    map[FontSize := Num(fontSize), FontWeight := Num(fontWeight), Color := Str(color)]
  }

  function WideSized(width: real, fontSize: real, color: string): Record
  {
    map[Width := Num(width), FontSize := Num(fontSize), Color := Str(color)]
  }

  function Panel(color: string, radius: real): Record
  {
    map[Fill := SolidFill(color), BorderRadius := Num(radius)]
  }

  /** Template 1, `simple-white`. */
  const SimpleWhite := Template(
    "simple-white", "简约白", "干净简洁的白色背景模板", Simple, "简约白模板", Solid("#ffffff"), [
      TextSpec("您的应用名称", 645.0, 200.0, Headline(1000.0, 72.0, 700.0, "#1a1a1a")),
      TextSpec("一句话描述您的应用", 645.0, 320.0, Headline(1000.0, 36.0, 400.0, "#666666")),
      ShapeSpec("rect", 245.0, 500.0, 800.0, 1600.0, Panel("#f5f5f5", 40.0)),
      TextSpec("截图占位", 645.0, 1250.0, Sized(24.0, "#999999")),
      TextSpec("功能特点一", 645.0, 2300.0, Weighted(32.0, 600.0, "#1a1a1a")),
      TextSpec("简短的功能描述文字", 645.0, 2380.0, Sized(24.0, "#666666"))])

  /** Template 2, `gradient-purple`. */
  const GradientPurple := Template(
    "gradient-purple", "渐变紫", "现代感渐变背景模板", GradientCategory, "渐变紫模板",
    LinearBackground(135.0, "#667eea", "#764ba2"), [
      TextSpec("探索无限可能", 645.0, 250.0, Headline(1000.0, 80.0, 700.0, "#ffffff")),
      TextSpec("让创意触手可及", 645.0, 380.0, Headline(1000.0, 40.0, 400.0, "rgba(255,255,255,0.85)")),
      ShapeSpec("rect", 195.0, 550.0, 900.0, 1700.0, Panel("rgba(255,255,255,0.15)", 50.0)),
      TextSpec("App 截图", 645.0, 1350.0, Sized(28.0, "rgba(255,255,255,0.6)")),
      ShapeSpec("rect", 145.0, 2400.0, 1000.0, 200.0, Panel("rgba(255,255,255,0.2)", 100.0)),
      TextSpec("立即下载", 645.0, 2470.0, Weighted(36.0, 600.0, "#ffffff"))])

  /** Template 3, `dark-cool`. */
  const DarkCool := Template(
    "dark-cool", "深色酷炫", "高级感深色背景模板", Dark, "深色酷炫模板",
    LinearBackground(180.0, "#0f0f23", "#1a1a2e"), [
      ShapeSpec("circle", 100.0, 100.0, 300.0, 300.0, map[Fill := SolidFill("#F8C91C"), Opacity := Num(0.1)]),
      ShapeSpec("circle", 900.0, 2400.0, 400.0, 400.0, map[Fill := SolidFill("#F8C91C"), Opacity := Num(0.08)]),
      TextSpec("专业级体验", 645.0, 280.0, Headline(1000.0, 76.0, 700.0, "#ffffff")),
      TextSpec("重新定义您的工作流程", 645.0, 400.0, WideSized(1000.0, 36.0, "#888888")),
      ShapeSpec("rect", 195.0, 580.0, 900.0, 1650.0,
                Panel("#1e1e2e", 40.0)[Stroke := Obj(map[Color := Str("#333"), Width := Num(1.0)])]),
      TextSpec("应用截图", 645.0, 1350.0, Sized(24.0, "#555555")),
      TextSpec("✨ 功能亮点", 645.0, 2380.0, Weighted(28.0, 600.0, "#F8C91C")),
      TextSpec("极致性能 · 流畅体验 · 专业工具", 645.0, 2460.0, Sized(24.0, "#888888"))])

  /** Template 4, `honey-brand`. */
  const HoneyBrand := Template(
    "honey-brand", "蜜蜂黄", "BeeShot 品牌色模板", GradientCategory, "蜜蜂黄模板",
    LinearBackground(150.0, "#F8C91C", "#EAB308"), [
      TextSpec("🐝", 645.0, 150.0, map[FontSize := Num(120.0)]),
      TextSpec("嗡嗡嗡", 645.0, 320.0, Headline(1000.0, 72.0, 700.0, "#1a1a1a")),
      TextSpec("让截图更有蜂蜜味", 645.0, 430.0, WideSized(1000.0, 36.0, "rgba(0,0,0,0.6)")),
      ShapeSpec("rect", 195.0, 580.0, 900.0, 1650.0, Panel("rgba(255,255,255,0.9)", 50.0)),
      TextSpec("您的精彩截图", 645.0, 1350.0, Sized(28.0, "#CA8A04")),
      ShapeSpec("rect", 245.0, 2350.0, 800.0, 160.0, Panel("#1a1a1a", 80.0)),
      TextSpec("免费下载", 645.0, 2400.0, Weighted(36.0, 600.0, "#F8C91C"))])

  /** Template 5, `comparison`. */
  const Comparison := Template(
    "comparison", "双截图对比", "展示前后对比或功能对比", ComparisonCategory, "对比模板",
    LinearBackground(135.0, "#1e3a5f", "#0d1b2a"), [
      TextSpec("功能对比", 645.0, 200.0, Headline(1000.0, 64.0, 700.0, "#ffffff")),
      TextSpec("看看有什么不同", 645.0, 300.0, WideSized(1000.0, 32.0, "rgba(255,255,255,0.7)")),
      ShapeSpec("rect", 70.0, 450.0, 550.0, 1100.0, Panel("rgba(255,255,255,0.1)", 30.0)),
      TextSpec("之前", 345.0, 1600.0, Weighted(28.0, 600.0, "#ffffff")),
      ShapeSpec("rect", 670.0, 450.0, 550.0, 1100.0, Panel("rgba(255,255,255,0.1)", 30.0)),
      TextSpec("之后", 945.0, 1600.0, Weighted(28.0, 600.0, "#ffffff")),
      ShapeSpec("circle", 545.0, 900.0, 200.0, 200.0, map[Fill := SolidFill("#F8C91C")]),
      TextSpec("VS", 645.0, 970.0, Weighted(48.0, 700.0, "#1a1a1a")),
      TextSpec("升级到专业版", 645.0, 1800.0, Weighted(40.0, 600.0, "#F8C91C")),
      TextSpec("解锁更多强大功能", 645.0, 1880.0, Sized(28.0, "rgba(255,255,255,0.7)"))])

  /** `templates` */
  const AllTemplates: seq<Template> := [SimpleWhite, GradientPurple, DarkCool, HoneyBrand, Comparison]

  /** `getTemplateById(id)` */
  function GetTemplateById(id: string): (r: Option<Template>)
    ensures r.Some? <==> exists i :: 0 <= i < |AllTemplates| && AllTemplates[i].id == id
    ensures r.Some? ==> r.value in AllTemplates && r.value.id == id
  {
    Find(AllTemplates, (t: Template) => t.id == id)
  }

  function InCategory(category: TemplateCategory): Template -> bool
  {
    (t: Template) => t.category == category
  }

  /** `getTemplatesByCategory(category)` */
  function GetTemplatesByCategory(category: TemplateCategory): (r: seq<Template>)
    ensures forall i :: 0 <= i < |r| ==> r[i] in AllTemplates && r[i].category == category
    ensures forall i :: 0 <= i < |AllTemplates| && AllTemplates[i].category == category ==> AllTemplates[i] in r
  {
    Filter(AllTemplates, InCategory(category))
  }

  /** The five template ids are pairwise distinct. */
  lemma TemplateIdsUnique()
    ensures forall i, j :: 0 <= i < j < |AllTemplates| ==> AllTemplates[i].id != AllTemplates[j].id
  {
  }

  /** Every template's id is found, and it finds that template itself. */
  lemma GetTemplateByIdFinds(i: nat)
    requires i < |AllTemplates|
    ensures GetTemplateById(AllTemplates[i].id) == Some(AllTemplates[i])
  {
    TemplateIdsUnique();
  }

  /**
   * `getTemplatesByCategory` returns exactly the templates of that category in list order:
   * the simple one, the two gradient ones, the dark one, the comparison one, and no mockup.
   */
  lemma TemplatesOfCategory(c: TemplateCategory)
    ensures GetTemplatesByCategory(c) == match c
      case Simple => [SimpleWhite]
      case GradientCategory => [GradientPurple, HoneyBrand]
      case Dark => [DarkCool]
      case Mockup => []
      case ComparisonCategory => [Comparison]
  {
    FilterFive(SimpleWhite, GradientPurple, DarkCool, HoneyBrand, Comparison, InCategory(c));
  }
}
