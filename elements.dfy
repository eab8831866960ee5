/**
 * The element schema of packages/core/src/schema/elements: elements are plain objects
 * (`Record`s) tagged by `type`, and the four factories spread a caller's partial object
 * over a table of defaults.
 */
module Elements {
  import opened JsValues

  /** `{...defaults, ...partial}`: later properties win, the key set is the union. */
  function SpreadProps(defaults: Record, partial: Record): (r: Record)
    ensures r.Keys == defaults.Keys + partial.Keys
    ensures forall k :: k in partial ==> r[k] == partial[k]
    ensures forall k :: k in defaults && k !in partial ==> r[k] == defaults[k]
  {
    defaults + partial
  }

  /** The four `type` tags of the `Element` union. */
  predicate IsElementTag(v: Value)
  {
    v == Str("text") || v == Str("image") || v == Str("shape") || v == Str("group")
  }

  /**
   * The shape of the `Element` union that matters for nesting: an object with one of the
   * four tags, and a group's `children` an array of such objects, to any depth.
   */
  predicate IsElementTree(v: Value)
    decreases v
  {
    v.Obj? && Type in v.fields && IsElementTag(v.fields[Type]) &&
    (v.fields[Type] == Str("group") ==>
      Children in v.fields && v.fields[Children].Arr? &&
      forall i :: 0 <= i < |v.fields[Children].items| ==> IsElementTree(v.fields[Children].items[i]))
  }

  const TextDefaults: Record := map[
    Type := Str("text"), Name := Str("文本"),
    X := Num(0.0), Y := Num(0.0), Width := Num(200.0), Height := Num(50.0),
    Rotation := Num(0.0), ScaleX := Num(1.0), ScaleY := Num(1.0),
    Opacity := Num(1.0), Visible := Bool(true), Locked := Bool(false),
    Content := Str("双击编辑文本"), FontSize := Num(24.0), FontFamily := Str("system-ui"),
    FontWeight := Num(400.0), Color := Str("#000000"), Align := Str("left"),
    LineHeight := Num(1.4), LetterSpacing := Num(0.0)]

  const ImageDefaults: Record := map[
    Type := Str("image"), Name := Str("图片"),
    X := Num(0.0), Y := Num(0.0), Width := Num(300.0), Height := Num(200.0),
    Rotation := Num(0.0), ScaleX := Num(1.0), ScaleY := Num(1.0),
    Opacity := Num(1.0), Visible := Bool(true), Locked := Bool(false),
    Fit := Str("cover"), BorderRadius := Num(0.0)]

  const ShapeDefaults: Record := map[
    Type := Str("shape"), Name := Str("形状"),
    X := Num(0.0), Y := Num(0.0), Width := Num(100.0), Height := Num(100.0),
    Rotation := Num(0.0), ScaleX := Num(1.0), ScaleY := Num(1.0),
    Opacity := Num(1.0), Visible := Bool(true), Locked := Bool(false),
    ShapeType := Str("rect"),
    Fill := Obj(map[Type := Str("solid"), Color := Str("#3b82f6")]),
    Stroke := Obj(map[Width := Num(0.0), Color := Str("#000000")]),
    BorderRadius := Num(0.0)]

  const GroupDefaults: Record := map[
    Type := Str("group"), Name := Str("分组"),
    X := Num(0.0), Y := Num(0.0), Width := Num(0.0), Height := Num(0.0),
    Rotation := Num(0.0), ScaleX := Num(1.0), ScaleY := Num(1.0),
    Opacity := Num(1.0), Visible := Bool(true), Locked := Bool(false)]

  /** `createTextElement(partial)`; the caller must supply the id. */
  function CreateTextElement(partial: Record): (e: Record)
    requires Id in partial
    ensures e.Keys == TextDefaults.Keys + partial.Keys
    ensures e[Id] == partial[Id]
    ensures forall k :: k in partial ==> e[k] == partial[k]
    ensures forall k :: k in TextDefaults && k !in partial ==> e[k] == TextDefaults[k]
  {
    SpreadProps(TextDefaults, partial)
  }

  /** `createImageElement(partial)`; the caller must supply the id and the source URL. */
  function CreateImageElement(partial: Record): (e: Record)
    requires Id in partial && Src in partial
    ensures e.Keys == ImageDefaults.Keys + partial.Keys
    ensures e[Id] == partial[Id] && e[Src] == partial[Src]
    ensures forall k :: k in partial ==> e[k] == partial[k]
    ensures forall k :: k in ImageDefaults && k !in partial ==> e[k] == ImageDefaults[k]
    ensures (Shadow in e <==> Shadow in partial) && (Filters in e <==> Filters in partial)
  {
    SpreadProps(ImageDefaults, partial)
  }

  /** `createShapeElement(partial)`; the caller must supply the id. */
  function CreateShapeElement(partial: Record): (e: Record)
    requires Id in partial
    ensures e.Keys == ShapeDefaults.Keys + partial.Keys
    ensures e[Id] == partial[Id]
    ensures forall k :: k in partial ==> e[k] == partial[k]
    ensures forall k :: k in ShapeDefaults && k !in partial ==> e[k] == ShapeDefaults[k]
  {
    SpreadProps(ShapeDefaults, partial)
  }

  /** `createGroupElement(partial)`; the caller must supply the id and the children. */
  function CreateGroupElement(partial: Record): (e: Record)
    requires Id in partial && Children in partial
    ensures e.Keys == GroupDefaults.Keys + partial.Keys
    ensures e[Id] == partial[Id] && e[Children] == partial[Children]
    ensures forall k :: k in partial ==> e[k] == partial[k]
    ensures forall k :: k in GroupDefaults && k !in partial ==> e[k] == GroupDefaults[k]
  {
    SpreadProps(GroupDefaults, partial)
  }

  /** A group built from element trees is an element tree: the type is recursive. */
  lemma GroupOfElements(partial: Record)
    requires Id in partial && Children in partial && Type !in partial
    requires partial[Children].Arr?
    requires forall i :: 0 <= i < |partial[Children].items| ==> IsElementTree(partial[Children].items[i])
    ensures IsElementTree(Obj(CreateGroupElement(partial)))
  {
    var e := CreateGroupElement(partial);
    assert e[Type] == Str("group");
    assert e[Children] == partial[Children];
  }

  /** Groups nest: a group whose only child is an (empty) group is an element tree. */
  lemma NestedGroup()
    ensures var inner := CreateGroupElement(map[Id := Str("inner"), Children := Arr([])]);
      var outer := CreateGroupElement(map[Id := Str("outer"), Children := Arr([Obj(inner)])]);
      IsElementTree(Obj(outer)) && Obj(inner) in outer[Children].items
  {
    var inner := CreateGroupElement(map[Id := Str("inner"), Children := Arr([])]);
    GroupOfElements(map[Id := Str("inner"), Children := Arr([])]);
    GroupOfElements(map[Id := Str("outer"), Children := Arr([Obj(inner)])]);
  }
}
