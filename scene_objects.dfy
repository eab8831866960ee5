/**
 * The Fabric scene objects the three element mappers of packages/renderer/src/fabric/renderers
 * build and update: an object of a fixed class (the `instanceof` tests) holding the Fabric
 * properties those mappers write. A property never set reads as `undefined`.
 */
module SceneObjects {
  import J = JsValues

  /** The Fabric classes the mappers construct. */
  datatype ObjectKind = RectObject | CircleObject | TriangleObject | LineObject | TextObject | ImageObject

  /** Position, size and transform: `left`, `top`, `width`, `height`, `angle`, `scaleX`, `scaleY`. */
  datatype Frame = Frame(left: J.Value, top: J.Value, width: J.Value, height: J.Value, angle: J.Value,
                         scaleX: J.Value, scaleY: J.Value)

  /** Corner radii, a circle's radius and a line's end points. */
  datatype Outline = Outline(rx: J.Value, ry: J.Value, radius: J.Value,
                             x1: J.Value, y1: J.Value, x2: J.Value, y2: J.Value)

  datatype Display = Display(opacity: J.Value, visible: J.Value, selectable: J.Value, evented: J.Value,
                             shadow: J.Value, clipPath: J.Value)

  datatype Locks = Locks(lockMovementX: J.Value, lockMovementY: J.Value, lockScalingX: J.Value,
                         lockScalingY: J.Value, lockRotation: J.Value, hasControls: J.Value)

  datatype Paint = Paint(fill: J.Value, stroke: J.Value, strokeWidth: J.Value, strokeDashArray: J.Value)

  datatype Typography = Typography(text: J.Value, fontSize: J.Value, fontFamily: J.Value, fontWeight: J.Value,
                                   textAlign: J.Value, lineHeight: J.Value, charSpacing: J.Value)

  /** The Fabric properties the mappers write or read, grouped; `data` holds the element id. */
  datatype Props = Props(frame: Frame, outline: Outline, display: Display, locks: Locks, paint: Paint,
                         typography: Typography, data: J.Value)

  /** An object with nothing set. */
  const Unset: Props := Props(
    Frame(J.Undef, J.Undef, J.Undef, J.Undef, J.Undef, J.Undef, J.Undef),
    Outline(J.Undef, J.Undef, J.Undef, J.Undef, J.Undef, J.Undef, J.Undef),
    Display(J.Undef, J.Undef, J.Undef, J.Undef, J.Undef, J.Undef),
    Locks(J.Undef, J.Undef, J.Undef, J.Undef, J.Undef, J.Undef),
    Paint(J.Undef, J.Undef, J.Undef, J.Undef),
    Typography(J.Undef, J.Undef, J.Undef, J.Undef, J.Undef, J.Undef, J.Undef),
    J.Undef)

  /** `v.key` on a nested object (`fill.type`, `shadow.color`); `undefined` otherwise. */
  function Field(v: J.Value, key: J.Key): J.Value
  {
    if v.Obj? && key in v.fields then v.fields[key] else J.Undef
  }

  /** `!v` */
  function Not(v: J.Value): (r: J.Value)
    ensures r.Bool? && (r.b <==> !J.Truthy(v))
  {
    J.Bool(!J.Truthy(v))
  }

  /**
   * `a * b` where both are numbers; any other operand is taken as giving NaN (JavaScript
   * would coerce `null`, booleans and numeric strings first).
   */
  function Times(a: J.Value, b: J.Value): (r: J.Value)
    ensures a.Num? && b.Num? ==> r == J.Num(a.n * b.n)
  {
    if a.Num? && b.Num? then J.Num(a.n * b.n) else J.NaN
  }

  /** `a / b` where both are numbers and `b` is nonzero; NaN otherwise, as for `Times`. */
  function Over(a: J.Value, b: J.Value): (r: J.Value)
    ensures a.Num? && b.Num? && b.n != 0.0 ==> r == J.Num(a.n / b.n)
  {
    if a.Num? && b.Num? && b.n != 0.0 then J.Num(a.n / b.n) else J.NaN
  }

  /** `Math.min(a, b)` on numbers; NaN otherwise, as for `Times`. */
  function MinOf(a: J.Value, b: J.Value): (r: J.Value)
    ensures a.Num? && b.Num? ==> r == J.Num(J.MinReal(a.n, b.n))
  {
    if a.Num? && b.Num? then J.Num(J.MinReal(a.n, b.n)) else J.NaN
  }

  /** `v || 1` */
  function OrOne(v: J.Value): (r: J.Value)
    ensures J.Truthy(v) ==> r == v
    ensures !J.Truthy(v) ==> r == J.Num(1.0)
  {
    J.OrElse(v, J.Num(1.0))
  }

  /** The six flags `locked` controls: five locks equal to it, `hasControls` its negation. */
  function LocksFor(locked: J.Value): (l: Locks)
    ensures l.lockMovementX == l.lockMovementY == l.lockScalingX == l.lockScalingY == l.lockRotation == locked
    ensures l.hasControls.Bool? && (l.hasControls.b <==> !J.Truthy(locked))
  {
    Locks(locked, locked, locked, locked, locked, Not(locked))
  }

  /** `new Shadow({color, offsetX, offsetY, blur})` from an element's shadow. */
  function ShadowOf(shadow: J.Value): (s: J.Value)
    ensures s.Obj? && s.fields.Keys == {J.Color, J.OffsetX, J.OffsetY, J.Blur}
    ensures forall k :: k in s.fields ==> s.fields[k] == Field(shadow, k)
  {
    J.Obj(map[J.Color := Field(shadow, J.Color), J.OffsetX := Field(shadow, J.OffsetX),
              J.OffsetY := Field(shadow, J.OffsetY), J.Blur := Field(shadow, J.Blur)])
  }

  /** The `data` every created object carries: `{ elementId: id }`. */
  function DataFor(id: J.Value): (d: J.Value)
    ensures Field(d, J.Other("elementId")) == id
  {
    J.Obj(map[J.Other("elementId") := id])
  }

  /** `props.key !== undefined ? props.key : current`: what an `update` leaves in a property. */
  function Supplied(props: J.Record, key: J.Key, current: J.Value): (v: J.Value)
    ensures J.Present(props, key) ==> v == props[key]
    ensures !J.Present(props, key) ==> v == current
  {
    if J.Present(props, key) then props[key] else current
  }

  /** Opacity and visibility after an `update`: each replaced only when supplied. */
  function Shown(d: Display, props: J.Record): Display
  {
    d.(opacity := Supplied(props, J.Opacity, d.opacity), visible := Supplied(props, J.Visible, d.visible))
  }

  /** The shadow after `if (shadow) obj.shadow = new Shadow(...)`: replaced, never cleared. */
  function Shaded(d: Display, shadow: J.Value): (r: Display)
    ensures J.Truthy(shadow) ==> r == d.(shadow := ShadowOf(shadow))
    ensures !J.Truthy(shadow) ==> r == d
  {
    if J.Truthy(shadow) then d.(shadow := ShadowOf(shadow)) else d
  }

  /** A Fabric object; its class never changes, its properties change through `set`. */
  class SceneObject {
    const kind: ObjectKind
    var props: Props

    constructor(kind: ObjectKind, props: Props)
      ensures this.kind == kind && this.props == props
    {
      this.kind := kind;
      this.props := props;
    }

    /** The six `set` calls the mappers' `update` makes for a supplied `locked`. */
    method SetLocks(locked: J.Value)
      modifies this
      ensures props == old(props).(locks := LocksFor(locked))
    {
      props := props.(locks := props.locks.(lockMovementX := locked));
      props := props.(locks := props.locks.(lockMovementY := locked));
      props := props.(locks := props.locks.(lockScalingX := locked));
      props := props.(locks := props.locks.(lockScalingY := locked));
      props := props.(locks := props.locks.(lockRotation := locked));
      props := props.(locks := props.locks.(hasControls := Not(locked)));
    }

    /** The mappers' `update` for `opacity` and `visible`, in that order. */
    method SetVisibility(changes: J.Record)
      modifies this
      ensures props == old(props).(display := Shown(old(props.display), changes))
    {
      if J.Present(changes, J.Opacity) {
        props := props.(display := props.display.(opacity := changes[J.Opacity]));
      }
      if J.Present(changes, J.Visible) {
        props := props.(display := props.display.(visible := changes[J.Visible]));
      }
    }

    /** `if (shadow) obj.shadow = new Shadow({color, offsetX, offsetY, blur})` */
    method SetShadow(shadow: J.Value)
      modifies this
      ensures props == old(props).(display := Shaded(old(props.display), shadow))
    {
      if J.Truthy(shadow) {
        props := props.(display := props.display.(shadow := ShadowOf(shadow)));
      }
    }
  }
}
