/**
 * `ShapeRenderer` of packages/renderer/src/fabric/renderers/ShapeRenderer.ts: a shape element
 * becomes a Fabric rect, circle, triangle or line; `toElement` reads the object back and
 * `update` writes the supplied props onto it.
 */
module ShapeRenderers {
  import J = JsValues
  import opened SceneObjects

  /** `getStrokeDashArray(style)` */
  function DashArray(style: J.Value): (r: J.Value)
    ensures style == J.Str("dashed") ==> r == J.Arr([J.Num(10.0), J.Num(5.0)])
    ensures style == J.Str("dotted") ==> r == J.Arr([J.Num(2.0), J.Num(4.0)])
    ensures style != J.Str("dashed") && style != J.Str("dotted") ==> r == J.Undef
  {
    if style == J.Str("dashed") then J.Arr([J.Num(10.0), J.Num(5.0)])
    else if style == J.Str("dotted") then J.Arr([J.Num(2.0), J.Num(4.0)])
    else J.Undef
  }

  /** `fill.type === 'solid' ? fill.color : 'transparent'` */
  function FillColor(fill: J.Value): (r: J.Value)
    ensures Field(fill, J.Type) == J.Str("solid") ==> r == Field(fill, J.Color)
    ensures Field(fill, J.Type) != J.Str("solid") ==> r == J.Str("transparent")
  {
    if Field(fill, J.Type) == J.Str("solid") then Field(fill, J.Color) else J.Str("transparent")
  }

  /** The fill and stroke of an element's `fill` and `stroke` objects. */
  function PaintFor(fill: J.Value, stroke: J.Value): (p: Paint)
    ensures p.fill == FillColor(fill) && p.stroke == Field(stroke, J.Color) && p.strokeWidth == Field(stroke, J.Width)
  {
    Paint(FillColor(fill), Field(stroke, J.Color), Field(stroke, J.Width), DashArray(Field(stroke, J.Style)))
  }

  /** The properties every shape gets, whatever its type. */
  function CommonProps(e: J.Record): (p: Props)
    ensures p.locks == LocksFor(J.Get(e, J.Locked))
    ensures p.paint == PaintFor(J.Get(e, J.Fill), J.Get(e, J.Stroke))
    ensures p.frame.left == J.Get(e, J.X) && p.frame.top == J.Get(e, J.Y) && p.frame.angle == J.Get(e, J.Rotation)
    ensures p.frame.scaleX == J.Get(e, J.ScaleX) && p.frame.scaleY == J.Get(e, J.ScaleY)
    ensures p.frame.width == J.Undef && p.outline == Unset.outline && p.data == J.Undef
  {
    Unset.(frame := Unset.frame.(left := J.Get(e, J.X), top := J.Get(e, J.Y), angle := J.Get(e, J.Rotation),
                                 scaleX := J.Get(e, J.ScaleX), scaleY := J.Get(e, J.ScaleY)),
           display := Unset.display.(opacity := J.Get(e, J.Opacity), visible := J.Get(e, J.Visible),
                                     selectable := J.Bool(true), evented := J.Bool(true)),
           locks := LocksFor(J.Get(e, J.Locked)),
           paint := PaintFor(J.Get(e, J.Fill), J.Get(e, J.Stroke)))
  }

  /** The Fabric class `create` picks: an unknown `shapeType` falls back to a rect. */
  function KindFor(shapeType: J.Value): (k: ObjectKind)
    ensures k in {RectObject, CircleObject, TriangleObject, LineObject}
    ensures k == CircleObject <==> shapeType == J.Str("circle")
    ensures k == TriangleObject <==> shapeType == J.Str("triangle")
    ensures k == LineObject <==> shapeType == J.Str("line")
  {
    if shapeType == J.Str("circle") then CircleObject
    else if shapeType == J.Str("triangle") then TriangleObject
    else if shapeType == J.Str("line") then LineObject
    else RectObject
  }

  /** The properties the shape's constructor receives, before `data` is set. */
  function ConstructedProps(e: J.Record): (p: Props)
    ensures p.locks == LocksFor(J.Get(e, J.Locked)) && p.data == J.Undef
    ensures p.paint == PaintFor(J.Get(e, J.Fill), J.Get(e, J.Stroke)).(
      fill := if J.Get(e, J.ShapeType) == J.Str("line") then J.Undef else FillColor(J.Get(e, J.Fill)))
    ensures p.frame.left == J.Get(e, J.X) && p.frame.top == J.Get(e, J.Y) && p.frame.angle == J.Get(e, J.Rotation)
    ensures p.frame.scaleX == J.Get(e, J.ScaleX) && p.frame.scaleY == J.Get(e, J.ScaleY)
  {
    var common := CommonProps(e);
    var shapeType := J.Get(e, J.ShapeType);
    if shapeType == J.Str("rect") then
      assert "rect"[0] != "line"[0];
      var radius := J.Coalesce(J.Get(e, J.BorderRadius), J.Num(0.0));
      common.(frame := common.frame.(width := J.Get(e, J.Width), height := J.Get(e, J.Height)),
              outline := common.outline.(rx := radius, ry := radius))
    else if shapeType == J.Str("circle") then
      common.(outline := common.outline.(radius := Over(MinOf(J.Get(e, J.Width), J.Get(e, J.Height)), J.Num(2.0))))
    else if shapeType == J.Str("line") then
      common.(outline := common.outline.(x1 := J.Num(0.0), y1 := J.Num(0.0),
                                         x2 := J.Get(e, J.Width), y2 := J.Get(e, J.Height)),
              paint := common.paint.(fill := J.Undef))
    else
      common.(frame := common.frame.(width := J.Get(e, J.Width), height := J.Get(e, J.Height)))
  }

  /** `ShapeRenderer.create(element)` */
  method Create(e: J.Record) returns (obj: SceneObject)
    ensures fresh(obj) && obj.kind == KindFor(J.Get(e, J.ShapeType))
    ensures obj.props == ConstructedProps(e).(data := DataFor(J.Get(e, J.Id)))
  {
    obj := new SceneObject(KindFor(J.Get(e, J.ShapeType)), ConstructedProps(e));
    obj.props := obj.props.(data := DataFor(J.Get(e, J.Id)));
  }

  /**
   * A circle's radius is half the smaller side; a rect's corner radius is `borderRadius ?? 0`;
   * an unknown shape type is a plain rect with the element's size and no corner radius.
   */
  lemma CreatedGeometry(e: J.Record)
    requires J.Get(e, J.Width).Num? && J.Get(e, J.Height).Num?
    ensures var p := ConstructedProps(e);
      (J.Get(e, J.ShapeType) == J.Str("circle") ==>
        p.outline.radius == J.Num(J.MinReal(J.Get(e, J.Width).n, J.Get(e, J.Height).n) / 2.0)
        && p.frame.width == J.Undef)
      && (J.Get(e, J.ShapeType) == J.Str("rect") ==>
        p.outline.rx == p.outline.ry
        == (if J.Nullish(J.Get(e, J.BorderRadius)) then J.Num(0.0) else J.Get(e, J.BorderRadius)))
      && (KindFor(J.Get(e, J.ShapeType)) == RectObject && J.Get(e, J.ShapeType) != J.Str("rect") ==>
        p.outline.rx == J.Undef && p.frame.width == J.Get(e, J.Width))
  {
  }

  /** `ShapeRenderer.toElement(obj, existing)` */
  function ToElement(kind: ObjectKind, p: Props, existing: J.Record): (r: J.Record)
    ensures r.Keys == existing.Keys + {J.X, J.Y, J.Rotation, J.ScaleX, J.ScaleY}
      + (if kind in {RectObject, TriangleObject, CircleObject} then {J.Width, J.Height} else {})
    ensures forall k :: k in existing && k !in {J.X, J.Y, J.Rotation, J.ScaleX, J.ScaleY, J.Width, J.Height} ==>
      r[k] == existing[k]
  {
    var f := p.frame;
    var base := existing[J.X := J.Coalesce(f.left, J.Get(existing, J.X))]
                        [J.Y := J.Coalesce(f.top, J.Get(existing, J.Y))]
                        [J.Rotation := J.Coalesce(f.angle, J.Get(existing, J.Rotation))]
                        [J.ScaleX := J.Coalesce(f.scaleX, J.Get(existing, J.ScaleX))]
                        [J.ScaleY := J.Coalesce(f.scaleY, J.Get(existing, J.ScaleY))];
    var sx := J.Coalesce(f.scaleX, J.Num(1.0));
    var sy := J.Coalesce(f.scaleY, J.Num(1.0));
    if kind == RectObject || kind == TriangleObject then
      base[J.Width := Times(J.Coalesce(f.width, J.Get(existing, J.Width)), sx)]
          [J.Height := Times(J.Coalesce(f.height, J.Get(existing, J.Height)), sy)]
          [J.ScaleX := J.Num(1.0)][J.ScaleY := J.Num(1.0)]
    else if kind == CircleObject then
      var diameter := Times(J.Coalesce(p.outline.radius, J.Num(50.0)), J.Num(2.0));
      base[J.Width := Times(diameter, sx)][J.Height := Times(diameter, sy)]
          [J.ScaleX := J.Num(1.0)][J.ScaleY := J.Num(1.0)]
    else base
  }

  /**
   * A rect or triangle read back folds the scale into the size: width `width * scaleX`,
   * height `height * scaleY`, and both scales 1.
   */
  lemma ToElementBakesScale(kind: ObjectKind, p: Props, existing: J.Record)
    requires kind == RectObject || kind == TriangleObject
    requires p.frame.width.Num? && p.frame.height.Num? && p.frame.scaleX.Num? && p.frame.scaleY.Num?
    ensures var r := ToElement(kind, p, existing);
      r[J.Width] == J.Num(p.frame.width.n * p.frame.scaleX.n) && r[J.Height] == J.Num(p.frame.height.n * p.frame.scaleY.n)
      && r[J.ScaleX] == J.Num(1.0) && r[J.ScaleY] == J.Num(1.0)
  {
  }

  /** A line read back keeps the element's size and takes position, angle and scale from the object. */
  lemma ToElementLine(p: Props, existing: J.Record)
    requires !J.Nullish(p.frame.left) && !J.Nullish(p.frame.top) && !J.Nullish(p.frame.angle)
    requires !J.Nullish(p.frame.scaleX) && !J.Nullish(p.frame.scaleY)
    ensures var r := ToElement(LineObject, p, existing);
      J.Get(r, J.Width) == J.Get(existing, J.Width) && J.Get(r, J.Height) == J.Get(existing, J.Height)
      && r[J.X] == p.frame.left && r[J.Y] == p.frame.top && r[J.Rotation] == p.frame.angle
      && r[J.ScaleX] == p.frame.scaleX && r[J.ScaleY] == p.frame.scaleY
  {
  }

  /**
   * A circle read back is a square of side `radius * 2` scaled by the object's scale, and
   * both scales become 1.
   */
  lemma ToElementCircle(p: Props, existing: J.Record)
    requires p.outline.radius.Num? && p.frame.scaleX.Num? && p.frame.scaleY.Num?
    ensures var r := ToElement(CircleObject, p, existing);
      r[J.Width] == J.Num(p.outline.radius.n * 2.0 * p.frame.scaleX.n)
      && r[J.Height] == J.Num(p.outline.radius.n * 2.0 * p.frame.scaleY.n)
      && r[J.ScaleX] == J.Num(1.0) && r[J.ScaleY] == J.Num(1.0)
      && r[J.X] == J.Coalesce(p.frame.left, J.Get(existing, J.X))
      && r[J.Rotation] == J.Coalesce(p.frame.angle, J.Get(existing, J.Rotation))
  {
  }

  /** The props a circle is created with: half the smaller side as radius, the element's scale. */
  lemma CreatedCircle(e: J.Record)
    requires J.Get(e, J.ShapeType) == J.Str("circle")
    requires J.Get(e, J.Width).Num? && J.Get(e, J.Height).Num?
    ensures var p := ConstructedProps(e);
      p.outline.radius == J.Num(J.MinReal(J.Get(e, J.Width).n, J.Get(e, J.Height).n) / 2.0)
      && p.frame.scaleX == J.Get(e, J.ScaleX) && p.frame.scaleY == J.Get(e, J.ScaleY)
      && p.frame.left == J.Get(e, J.X) && p.frame.angle == J.Get(e, J.Rotation)
  {
    CreatedGeometry(e);
  }

  /** Reading back a circle whose radius is half the element's smaller side, at its place and angle. */
  lemma CircleReadBack(p: Props, e: J.Record)
    requires J.Get(e, J.Width).Num? && J.Get(e, J.Height).Num?
    requires J.Get(e, J.ScaleX).Num? && J.Get(e, J.ScaleY).Num?
    requires p.outline.radius == J.Num(J.MinReal(J.Get(e, J.Width).n, J.Get(e, J.Height).n) / 2.0)
    requires p.frame.scaleX == J.Get(e, J.ScaleX) && p.frame.scaleY == J.Get(e, J.ScaleY)
    requires p.frame.left == J.Get(e, J.X) && p.frame.angle == J.Get(e, J.Rotation)
    ensures var r := ToElement(CircleObject, p, e);
      var side := J.MinReal(J.Get(e, J.Width).n, J.Get(e, J.Height).n);
      r[J.Width] == J.Num(side * J.Get(e, J.ScaleX).n) && r[J.Height] == J.Num(side * J.Get(e, J.ScaleY).n)
      && r[J.ScaleX] == J.Num(1.0) && r[J.ScaleY] == J.Num(1.0)
      && J.Get(r, J.X) == J.Get(e, J.X) && J.Get(r, J.Rotation) == J.Get(e, J.Rotation)
  {
    ToElementCircle(p, e);
    var side := J.MinReal(J.Get(e, J.Width).n, J.Get(e, J.Height).n);
    assert side / 2.0 * 2.0 == side;
  }

  /**
   * Creating a circle and reading it back: its width and height are the smaller side times
   * the element's scale, the scales become 1, and position and rotation come back unchanged.
   */
  lemma CircleRoundTrip(e: J.Record)
    requires J.Get(e, J.ShapeType) == J.Str("circle")
    requires J.Get(e, J.Width).Num? && J.Get(e, J.Height).Num?
    requires J.Get(e, J.ScaleX).Num? && J.Get(e, J.ScaleY).Num?
    ensures var r := ToElement(CircleObject, ConstructedProps(e).(data := DataFor(J.Get(e, J.Id))), e);
      var side := J.MinReal(J.Get(e, J.Width).n, J.Get(e, J.Height).n);
      r[J.Width] == J.Num(side * J.Get(e, J.ScaleX).n) && r[J.Height] == J.Num(side * J.Get(e, J.ScaleY).n)
      && r[J.ScaleX] == J.Num(1.0) && r[J.ScaleY] == J.Num(1.0)
      && J.Get(r, J.X) == J.Get(e, J.X) && J.Get(r, J.Rotation) == J.Get(e, J.Rotation)
  {
    var p := ConstructedProps(e).(data := DataFor(J.Get(e, J.Id)));
    CreatedCircle(e);
    CircleReadBack(p, e);
  }

  /** Position, angle and scale after `update`. */
  function Moved(f: Frame, props: J.Record): Frame
  {
    f.(left := Supplied(props, J.X, f.left), top := Supplied(props, J.Y, f.top),
       angle := Supplied(props, J.Rotation, f.angle),
       scaleX := Supplied(props, J.ScaleX, f.scaleX), scaleY := Supplied(props, J.ScaleY, f.scaleY))
  }

  /** Width and height after `update`: written on rects only. */
  function Resized(kind: ObjectKind, f: Frame, props: J.Record): Frame
  {
    if kind == RectObject then f.(width := Supplied(props, J.Width, f.width), height := Supplied(props, J.Height, f.height))
    else f
  }

  /** The fill and stroke after `update`: written only for a truthy `fill` or `stroke`. */
  function UpdatedPaint(p: Paint, props: J.Record): Paint
  {
    var fill := J.Get(props, J.Fill);
    var stroke := J.Get(props, J.Stroke);
    var p1 := if J.Truthy(fill) then p.(fill := FillColor(fill)) else p;
    if J.Truthy(stroke) then PaintFor(fill, stroke).(fill := p1.fill) else p1
  }

  /** The object's properties after `update(obj, props)`. */
  function Updated(kind: ObjectKind, before: Props, props: J.Record): Props
  {
    var rect := kind == RectObject;
    var radius := if rect then Supplied(props, J.BorderRadius, before.outline.rx) else before.outline.rx;
    var radiusY := if rect then Supplied(props, J.BorderRadius, before.outline.ry) else before.outline.ry;
    before.(frame := Resized(kind, Moved(before.frame, props), props),
            display := Shown(before.display, props),
            locks := if J.Present(props, J.Locked) then LocksFor(props[J.Locked]) else before.locks,
            paint := UpdatedPaint(before.paint, props),
            outline := before.outline.(rx := radius, ry := radiusY))
  }

  /**
   * `update` touches only what `props` supplies; width, height and corner radius only on a
   * rect; a supplied `locked` sets every lock flag; the geometry of circles and lines, the
   * text properties and the object's id are never written.
   */
  lemma UpdateWritesOnlySupplied(kind: ObjectKind, before: Props, props: J.Record)
    ensures var after := Updated(kind, before, props);
      (J.Present(props, J.X) ==> after.frame.left == props[J.X])
      && (!J.Present(props, J.X) ==> after.frame.left == before.frame.left)
      && (!J.Present(props, J.Width) || kind != RectObject ==> after.frame.width == before.frame.width)
      && (J.Present(props, J.Width) && kind == RectObject ==> after.frame.width == props[J.Width])
      && (!J.Present(props, J.BorderRadius) || kind != RectObject ==> after.outline == before.outline)
      && (J.Present(props, J.Locked) ==> after.locks == LocksFor(props[J.Locked]))
      && (!J.Present(props, J.Locked) ==> after.locks == before.locks)
      && (!J.Truthy(J.Get(props, J.Fill)) ==> after.paint.fill == before.paint.fill)
      && (!J.Truthy(J.Get(props, J.Stroke)) ==> after.paint.stroke == before.paint.stroke)
      && after.outline.radius == before.outline.radius && after.outline.x2 == before.outline.x2
      && after.typography == before.typography && after.data == before.data
  {
  }

  /** `update`'s first five `set` calls: position, angle and scale. */
  method Move(obj: SceneObject, props: J.Record)
    modifies obj
    ensures obj.props == old(obj.props).(frame := Moved(old(obj.props.frame), props))
  {
    if J.Present(props, J.X) { obj.props := obj.props.(frame := obj.props.frame.(left := props[J.X])); }
    if J.Present(props, J.Y) { obj.props := obj.props.(frame := obj.props.frame.(top := props[J.Y])); }
    if J.Present(props, J.Rotation) { obj.props := obj.props.(frame := obj.props.frame.(angle := props[J.Rotation])); }
    if J.Present(props, J.ScaleX) { obj.props := obj.props.(frame := obj.props.frame.(scaleX := props[J.ScaleX])); }
    if J.Present(props, J.ScaleY) { obj.props := obj.props.(frame := obj.props.frame.(scaleY := props[J.ScaleY])); }
  }

  /** A truthy `fill` or `stroke`. */
  method Repaint(obj: SceneObject, props: J.Record)
    modifies obj
    ensures obj.props == old(obj.props).(paint := UpdatedPaint(old(obj.props.paint), props))
  {
    if J.Truthy(J.Get(props, J.Fill)) {
      obj.props := obj.props.(paint := obj.props.paint.(fill := FillColor(props[J.Fill])));
    }
    if J.Truthy(J.Get(props, J.Stroke)) {
      var stroke := props[J.Stroke];
      obj.props := obj.props.(paint := obj.props.paint.(stroke := Field(stroke, J.Color)));
      obj.props := obj.props.(paint := obj.props.paint.(strokeWidth := Field(stroke, J.Width)));
      obj.props := obj.props.(paint := obj.props.paint.(strokeDashArray := DashArray(Field(stroke, J.Style))));
    }
  }

  /** Width, height and corner radius, on a rect only. */
  method Reshape(obj: SceneObject, props: J.Record)
    modifies obj
    ensures obj.props == old(obj.props).(
      frame := Resized(obj.kind, old(obj.props.frame), props),
      outline := old(obj.props.outline).(
        rx := if obj.kind == RectObject then Supplied(props, J.BorderRadius, old(obj.props.outline.rx))
              else old(obj.props.outline.rx),
        ry := if obj.kind == RectObject then Supplied(props, J.BorderRadius, old(obj.props.outline.ry))
              else old(obj.props.outline.ry)))
  {
    if J.Present(props, J.Width) && obj.kind == RectObject {
      obj.props := obj.props.(frame := obj.props.frame.(width := props[J.Width]));
    }
    if J.Present(props, J.Height) && obj.kind == RectObject {
      obj.props := obj.props.(frame := obj.props.frame.(height := props[J.Height]));
    }
    if J.Present(props, J.BorderRadius) && obj.kind == RectObject {
      obj.props := obj.props.(outline := obj.props.outline.(rx := props[J.BorderRadius]));
      obj.props := obj.props.(outline := obj.props.outline.(ry := props[J.BorderRadius]));
    }
  }

  /** `ShapeRenderer.update(obj, props)`, its `set` calls in the source's order. */
  method Update(obj: SceneObject, props: J.Record)
    modifies obj
    ensures obj.props == Updated(obj.kind, old(obj.props), props)
  {
    Move(obj, props);
    obj.SetVisibility(props);
    if J.Present(props, J.Locked) { obj.SetLocks(props[J.Locked]); }
    Repaint(obj, props);
    Reshape(obj, props);
  }
}
