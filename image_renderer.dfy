/**
 * `ImageRenderer` of packages/renderer/src/fabric/renderers/ImageRenderer.ts. A Fabric image
 * keeps its decoded size as `width`/`height`; the element's displayed size lives in the
 * object's scale, which `create` and `update` compute and `toElement` folds back into a size.
 */
module ImageRenderers {
  import J = JsValues
  import opened SceneObjects

  /** `createRoundedClip(width, height, radius)`: a centred rect with both corner radii. */
  function RoundedClip(width: J.Value, height: J.Value, radius: J.Value): (c: J.Value)
    ensures c.Obj? && Field(c, J.Width) == width && Field(c, J.Height) == height
    ensures Field(c, J.Other("rx")) == radius && Field(c, J.Other("ry")) == radius
  {
    J.Obj(map[J.Width := width, J.Height := height, J.Other("rx") := radius, J.Other("ry") := radius,
              J.Other("originX") := J.Str("center"), J.Other("originY") := J.Str("center")])
  }

  /** `borderRadius > 0`, for a number; any other value is taken as failing the test. */
  predicate Rounded(radius: J.Value)
  {
    radius.Num? && radius.n > 0.0
  }

  /** `elementSize / (decodedSize || 1)`: the scale that shows the image at the element's size. */
  function Fit(elementSize: J.Value, decodedSize: J.Value): J.Value
  {
    Over(elementSize, OrOne(decodedSize))
  }

  /**
   * The image `FabricImage.fromURL` decodes: nothing set but its intrinsic size, which the
   * model takes as parameters.
   */
  function Decoded(imageWidth: J.Value, imageHeight: J.Value): Props
  {
    Unset.(frame := Unset.frame.(width := imageWidth, height := imageHeight))
  }

  /** The decoded image after `create`'s first `img.set({...})`. */
  function Placed(e: J.Record, imageWidth: J.Value, imageHeight: J.Value): Props
  {
    var d := Decoded(imageWidth, imageHeight);
    d.(frame := d.frame.(left := J.Get(e, J.X), top := J.Get(e, J.Y), angle := J.Get(e, J.Rotation),
                         scaleX := Times(J.Get(e, J.ScaleX), Fit(J.Get(e, J.Width), imageWidth)),
                         scaleY := Times(J.Get(e, J.ScaleY), Fit(J.Get(e, J.Height), imageHeight))),
       display := d.display.(opacity := J.Get(e, J.Opacity), visible := J.Get(e, J.Visible),
                             selectable := J.Bool(true), evented := J.Bool(true)),
       locks := LocksFor(J.Get(e, J.Locked)))
  }

  /** The object `create` returns, with its clip path, shadow and `data`. */
  function CreatedProps(e: J.Record, imageWidth: J.Value, imageHeight: J.Value): Props
  {
    var p := Placed(e, imageWidth, imageHeight);
    var radius := J.Get(e, J.BorderRadius);
    var clip := if Rounded(radius) then RoundedClip(J.Get(e, J.Width), J.Get(e, J.Height), radius)
                else p.display.clipPath;
    p.(display := Shaded(p.display.(clipPath := clip), J.Get(e, J.Shadow)), data := DataFor(J.Get(e, J.Id)))
  }

  /**
   * `ImageRenderer.create(element)`, once the image has decoded to
   * `imageWidth` x `imageHeight`.
   */
  method Create(e: J.Record, imageWidth: J.Value, imageHeight: J.Value) returns (obj: SceneObject)
    ensures fresh(obj) && obj.kind == ImageObject
    ensures obj.props == CreatedProps(e, imageWidth, imageHeight)
  {
    obj := new SceneObject(ImageObject, Decoded(imageWidth, imageHeight));
    obj.props := Placed(e, imageWidth, imageHeight);
    if Rounded(J.Get(e, J.BorderRadius)) {
      obj.props := obj.props.(display := obj.props.display.(
        clipPath := RoundedClip(J.Get(e, J.Width), J.Get(e, J.Height), J.Get(e, J.BorderRadius))));
    }
    obj.SetShadow(J.Get(e, J.Shadow));
    obj.props := obj.props.(data := DataFor(J.Get(e, J.Id)));
  }

  /**
   * `create` keeps the decoded size and scales it to the element's: `scaleX` is
   * `element.scaleX * element.width / (decodedWidth || 1)`, and likewise vertically; a rounded
   * clip is added only for a positive `borderRadius`; the lock flags follow `locked`.
   */
  lemma CreatedImage(e: J.Record, imageWidth: real, imageHeight: real)
    requires J.Get(e, J.Width).Num? && J.Get(e, J.Height).Num?
    requires J.Get(e, J.ScaleX).Num? && J.Get(e, J.ScaleY).Num?
    ensures var p := CreatedProps(e, J.Num(imageWidth), J.Num(imageHeight));
      var w := if imageWidth == 0.0 then 1.0 else imageWidth;
      var h := if imageHeight == 0.0 then 1.0 else imageHeight;
      p.frame.width == J.Num(imageWidth) && p.frame.height == J.Num(imageHeight)
      && p.frame.scaleX == J.Num(J.Get(e, J.ScaleX).n * (J.Get(e, J.Width).n / w))
      && p.frame.scaleY == J.Num(J.Get(e, J.ScaleY).n * (J.Get(e, J.Height).n / h))
      && (Rounded(J.Get(e, J.BorderRadius)) <==> p.display.clipPath != J.Undef)
      && p.locks == LocksFor(J.Get(e, J.Locked))
      && Field(p.data, J.Other("elementId")) == J.Get(e, J.Id)
  {
  }

  /** `ImageRenderer.toElement(obj, existing)`: the scaled size becomes the size, scales 1. */
  function ToElement(p: Props, existing: J.Record): (r: J.Record)
    ensures r.Keys == existing.Keys + {J.X, J.Y, J.Width, J.Height, J.Rotation, J.ScaleX, J.ScaleY}
    ensures r[J.ScaleX] == J.Num(1.0) && r[J.ScaleY] == J.Num(1.0)
    ensures forall k :: k in existing && k !in {J.X, J.Y, J.Width, J.Height, J.Rotation, J.ScaleX, J.ScaleY} ==>
      r[k] == existing[k]
  {
    var f := p.frame;
    existing[J.X := J.Coalesce(f.left, J.Get(existing, J.X))]
            [J.Y := J.Coalesce(f.top, J.Get(existing, J.Y))]
            [J.Width := Times(OrOne(f.width), J.Coalesce(f.scaleX, J.Num(1.0)))]
            [J.Height := Times(OrOne(f.height), J.Coalesce(f.scaleY, J.Num(1.0)))]
            [J.Rotation := J.Coalesce(f.angle, J.Get(existing, J.Rotation))]
            [J.ScaleX := J.Num(1.0)][J.ScaleY := J.Num(1.0)]
  }

  /** The size `toElement` reports is the decoded size (or 1 when that is 0) times the scale. */
  lemma ToElementSize(p: Props, existing: J.Record)
    requires p.frame.width.Num? && p.frame.height.Num? && p.frame.scaleX.Num? && p.frame.scaleY.Num?
    ensures var r := ToElement(p, existing);
      var w := if p.frame.width.n == 0.0 then 1.0 else p.frame.width.n;
      var h := if p.frame.height.n == 0.0 then 1.0 else p.frame.height.n;
      r[J.Width] == J.Num(w * p.frame.scaleX.n) && r[J.Height] == J.Num(h * p.frame.scaleY.n)
  {
  }

  /**
   * Creating an image and reading it back gives the element's size times its scale, with
   * the scales 1, whatever size the image decoded to.
   */
  lemma ImageRoundTrip(e: J.Record, imageWidth: real, imageHeight: real)
    requires J.Get(e, J.Width).Num? && J.Get(e, J.Height).Num?
    requires J.Get(e, J.ScaleX).Num? && J.Get(e, J.ScaleY).Num?
    ensures var r := ToElement(CreatedProps(e, J.Num(imageWidth), J.Num(imageHeight)), e);
      r[J.Width] == J.Num(J.Get(e, J.Width).n * J.Get(e, J.ScaleX).n)
      && r[J.Height] == J.Num(J.Get(e, J.Height).n * J.Get(e, J.ScaleY).n)
      && r[J.ScaleX] == J.Num(1.0) && r[J.ScaleY] == J.Num(1.0)
  {
    CreatedImage(e, imageWidth, imageHeight);
    ImageReadBack(CreatedProps(e, J.Num(imageWidth), J.Num(imageHeight)), e, imageWidth, imageHeight);
  }

  /** An object holding what `create` stores for the size reads back the element's size. */
  lemma ImageReadBack(p: Props, e: J.Record, imageWidth: real, imageHeight: real)
    requires J.Get(e, J.Width).Num? && J.Get(e, J.Height).Num?
    requires J.Get(e, J.ScaleX).Num? && J.Get(e, J.ScaleY).Num?
    requires var w := if imageWidth == 0.0 then 1.0 else imageWidth;
      var h := if imageHeight == 0.0 then 1.0 else imageHeight;
      p.frame.width == J.Num(imageWidth) && p.frame.height == J.Num(imageHeight)
      && p.frame.scaleX == J.Num(J.Get(e, J.ScaleX).n * (J.Get(e, J.Width).n / w))
      && p.frame.scaleY == J.Num(J.Get(e, J.ScaleY).n * (J.Get(e, J.Height).n / h))
    ensures var r := ToElement(p, e);
      r[J.Width] == J.Num(J.Get(e, J.Width).n * J.Get(e, J.ScaleX).n)
      && r[J.Height] == J.Num(J.Get(e, J.Height).n * J.Get(e, J.ScaleY).n)
      && r[J.ScaleX] == J.Num(1.0) && r[J.ScaleY] == J.Num(1.0)
  {
    ToElementSize(p, e);
    Cancel(if imageWidth == 0.0 then 1.0 else imageWidth, J.Get(e, J.ScaleX).n, J.Get(e, J.Width).n);
    Cancel(if imageHeight == 0.0 then 1.0 else imageHeight, J.Get(e, J.ScaleY).n, J.Get(e, J.Height).n);
  }

  /** `d * (s * (x / d)) == x * s` for nonzero `d`. */
  lemma Cancel(d: real, s: real, x: real)
    requires d != 0.0
    ensures d * (s * (x / d)) == x * s
  {
    calc {
      d * (s * (x / d));
      s * (d * (x / d));
      { assert d * (x / d) == x; }
      s * x;
    }
  }

  /** The scale after `update`: recomputed from a supplied width or height, else kept. */
  function Rescaled(f: Frame, props: J.Record): Frame
  {
    f.(scaleX := if J.Present(props, J.Width) then Over(props[J.Width], OrOne(f.width)) else f.scaleX,
       scaleY := if J.Present(props, J.Height) then Over(props[J.Height], OrOne(f.height)) else f.scaleY)
  }

  /** The object's properties after `update(obj, props)`. */
  function Updated(before: Props, props: J.Record): Props
  {
    var f := before.frame;
    var moved := f.(left := Supplied(props, J.X, f.left), top := Supplied(props, J.Y, f.top),
                    angle := Supplied(props, J.Rotation, f.angle));
    before.(frame := Rescaled(moved, props),
            display := Shaded(Shown(before.display, props), J.Get(props, J.Shadow)),
            locks := if J.Present(props, J.Locked) then LocksFor(props[J.Locked]) else before.locks)
  }

  /**
   * `update` never writes the decoded size, the clip path or the object's id, and ignores
   * the `scaleX`, `scaleY`, `borderRadius`, `src` and `fit` props: two prop sets that differ
   * only there update alike. A supplied `locked` sets every lock flag.
   */
  lemma UpdateIgnores(before: Props, props: J.Record, v: J.Value)
    ensures var after := Updated(before, props);
      after.frame.width == before.frame.width && after.frame.height == before.frame.height
      && after.display.clipPath == before.display.clipPath && after.data == before.data
      && (J.Present(props, J.Locked) ==> after.locks == LocksFor(props[J.Locked]))
      && (!J.Present(props, J.Locked) ==> after.locks == before.locks)
    ensures var after := Updated(before, props);
      Updated(before, props[J.ScaleX := v]) == after && Updated(before, props[J.ScaleY := v]) == after
      && Updated(before, props[J.BorderRadius := v]) == after
      && Updated(before, props[J.Src := v]) == after && Updated(before, props[J.Fit := v]) == after
  {
    UpdateKeeps(before, props);
    UpdateIgnoresKey(before, props, J.ScaleX, v);
    UpdateIgnoresKey(before, props, J.ScaleY, v);
    UpdateIgnoresKey(before, props, J.BorderRadius, v);
    UpdateIgnoresKey(before, props, J.Src, v);
    UpdateIgnoresKey(before, props, J.Fit, v);
  }

  lemma UpdateKeeps(before: Props, props: J.Record)
    ensures var after := Updated(before, props);
      after.frame.width == before.frame.width && after.frame.height == before.frame.height
      && after.display.clipPath == before.display.clipPath && after.data == before.data
      && (J.Present(props, J.Locked) ==> after.locks == LocksFor(props[J.Locked]))
      && (!J.Present(props, J.Locked) ==> after.locks == before.locks)
  {
  }

  /** The keys `update` reads from its props. */
  const UpdateKeys: set<J.Key> := {J.X, J.Y, J.Rotation, J.Width, J.Height, J.Opacity, J.Visible, J.Shadow, J.Locked}

  lemma UpdateIgnoresKey(before: Props, props: J.Record, k: J.Key, v: J.Value)
    requires k !in UpdateKeys
    ensures Updated(before, props[k := v]) == Updated(before, props)
  {
    var q := props[k := v];
    forall j | j in UpdateKeys ensures J.Get(q, j) == J.Get(props, j) && J.Present(q, j) == J.Present(props, j) {
    }
  }

  /** `(d || 1) * (x / (d || 1)) == x` for a number `d`. */
  lemma ScaleCancels(d: J.Value, x: real)
    requires d.Num?
    ensures OrOne(d).Num? && OrOne(d).n != 0.0 && OrOne(d).n * (x / OrOne(d).n) == x
  {
  }

  /** A numeric width given to `update` is the width `toElement` reads back. */
  lemma UpdateThenReadWidth(before: Props, props: J.Record, existing: J.Record)
    requires before.frame.width.Num? && J.Present(props, J.Width) && props[J.Width].Num?
    ensures ToElement(Updated(before, props), existing)[J.Width] == props[J.Width]
  {
    var after := Updated(before, props);
    ScaleCancels(before.frame.width, props[J.Width].n);
    assert after.frame.width == before.frame.width;
    assert after.frame.scaleX == J.Num(props[J.Width].n / OrOne(before.frame.width).n);
  }

  /** A numeric height given to `update` is the height `toElement` reads back. */
  lemma UpdateThenReadHeight(before: Props, props: J.Record, existing: J.Record)
    requires before.frame.height.Num? && J.Present(props, J.Height) && props[J.Height].Num?
    ensures ToElement(Updated(before, props), existing)[J.Height] == props[J.Height]
  {
    var after := Updated(before, props);
    ScaleCancels(before.frame.height, props[J.Height].n);
    assert after.frame.height == before.frame.height;
    assert after.frame.scaleY == J.Num(props[J.Height].n / OrOne(before.frame.height).n);
  }

  /** Position and angle, in `update`'s order. */
  method Move(obj: SceneObject, props: J.Record)
    modifies obj
    ensures obj.props == old(obj.props).(frame := old(obj.props.frame).(
      left := Supplied(props, J.X, old(obj.props.frame.left)),
      top := Supplied(props, J.Y, old(obj.props.frame.top)),
      angle := Supplied(props, J.Rotation, old(obj.props.frame.angle))))
  {
    if J.Present(props, J.X) { obj.props := obj.props.(frame := obj.props.frame.(left := props[J.X])); }
    if J.Present(props, J.Y) { obj.props := obj.props.(frame := obj.props.frame.(top := props[J.Y])); }
    if J.Present(props, J.Rotation) { obj.props := obj.props.(frame := obj.props.frame.(angle := props[J.Rotation])); }
  }

  /** A supplied width or height becomes a scale of the decoded size. */
  method Resize(obj: SceneObject, props: J.Record)
    modifies obj
    ensures obj.props == old(obj.props).(frame := Rescaled(old(obj.props.frame), props))
  {
    if J.Present(props, J.Width) || J.Present(props, J.Height) {
      var imageWidth := OrOne(obj.props.frame.width);
      var imageHeight := OrOne(obj.props.frame.height);
      if J.Present(props, J.Width) {
        obj.props := obj.props.(frame := obj.props.frame.(scaleX := Over(props[J.Width], imageWidth)));
      }
      if J.Present(props, J.Height) {
        obj.props := obj.props.(frame := obj.props.frame.(scaleY := Over(props[J.Height], imageHeight)));
      }
    }
  }

  /** `ImageRenderer.update(obj, props)`, its `set` calls in the source's order. */
  method Update(obj: SceneObject, props: J.Record)
    modifies obj
    ensures obj.props == Updated(old(obj.props), props)
  {
    Move(obj, props);
    obj.SetVisibility(props);
    if J.Present(props, J.Locked) { obj.SetLocks(props[J.Locked]); }
    Resize(obj, props);
    obj.SetShadow(J.Get(props, J.Shadow));
  }
}
