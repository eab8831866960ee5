/**
 * `TextRenderer` of packages/renderer/src/fabric/renderers/TextRenderer.ts: a text element
 * becomes a Fabric IText; `toElement` reads it back over the existing element and `update`
 * writes the supplied props onto it.
 */
module TextRenderers {
  import J = JsValues
  import opened SceneObjects

  /** Fabric measures `charSpacing` in thousandths of an em, the element in hundredths. */
  const CharSpacingPerLetterSpacing: real := 10.0

  /** `letterSpacing * 10` */
  function CharSpacing(letterSpacing: J.Value): (c: J.Value)
    ensures letterSpacing.Num? ==> c == J.Num(letterSpacing.n * CharSpacingPerLetterSpacing)
  {
    Times(letterSpacing, J.Num(CharSpacingPerLetterSpacing))
  }

  /** The options `new IText(content, {...})` receives. */
  function ConstructedProps(e: J.Record): Props
  {
    Unset.(frame := Unset.frame.(left := J.Get(e, J.X), top := J.Get(e, J.Y), width := J.Get(e, J.Width),
                                 angle := J.Get(e, J.Rotation),
                                 scaleX := J.Get(e, J.ScaleX), scaleY := J.Get(e, J.ScaleY)),
           display := Unset.display.(opacity := J.Get(e, J.Opacity), visible := J.Get(e, J.Visible),
                                     selectable := J.Bool(true), evented := J.Bool(true)),
           locks := LocksFor(J.Get(e, J.Locked)),
           paint := Unset.paint.(fill := J.Get(e, J.Color)),
           typography := Typography(J.Get(e, J.Content), J.Get(e, J.FontSize), J.Get(e, J.FontFamily),
                                    J.Get(e, J.FontWeight), J.Get(e, J.Align), J.Get(e, J.LineHeight),
                                    CharSpacing(J.Get(e, J.LetterSpacing))))
  }

  /** The object `create(e)` returns: the constructed one with its shadow and `data` set. */
  function CreatedProps(e: J.Record): Props
  {
    var p := ConstructedProps(e);
    p.(display := Shaded(p.display, J.Get(e, J.Shadow)), data := DataFor(J.Get(e, J.Id)))
  }

  /** `TextRenderer.create(element)` */
  method Create(e: J.Record) returns (obj: SceneObject)
    ensures fresh(obj) && obj.kind == TextObject
    ensures obj.props == CreatedProps(e)
  {
    obj := new SceneObject(TextObject, ConstructedProps(e));
    obj.SetShadow(J.Get(e, J.Shadow));
    obj.props := obj.props.(data := DataFor(J.Get(e, J.Id)));
  }

  /**
   * What `create` stores: colour as `fill`, alignment as `textAlign`, `letterSpacing * 10` as
   * `charSpacing`, the element id in `data`; a shadow only when the element has one; the
   * lock flags follow `locked`; the height is left to the text's own layout.
   */
  lemma CreatedText(e: J.Record)
    ensures var p := CreatedProps(e);
      p.paint.fill == J.Get(e, J.Color) && p.typography.text == J.Get(e, J.Content)
      && p.typography.textAlign == J.Get(e, J.Align)
      && (J.Get(e, J.LetterSpacing).Num? ==>
            p.typography.charSpacing == J.Num(J.Get(e, J.LetterSpacing).n * 10.0))
      && Field(p.data, J.Other("elementId")) == J.Get(e, J.Id)
      && (J.Truthy(J.Get(e, J.Shadow)) <==> p.display.shadow != J.Undef)
      && p.locks == LocksFor(J.Get(e, J.Locked)) && p.frame.height == J.Undef
  {
  }

  /** The thirteen element properties `toElement` reads back from the object. */
  const ReadKeys: set<J.Key> := {J.X, J.Y, J.Width, J.Height, J.Rotation, J.ScaleX, J.ScaleY,
                                 J.Content, J.FontSize, J.FontFamily, J.FontWeight, J.Color, J.Align}

  /** The object property `toElement` reads for element property `k`. */
  function ReadBack(p: Props, k: J.Key): J.Value
    requires k in ReadKeys
  {
    match k
    case X => p.frame.left
    case Y => p.frame.top
    case Width => p.frame.width
    case Height => p.frame.height
    case Rotation => p.frame.angle
    case ScaleX => p.frame.scaleX
    case ScaleY => p.frame.scaleY
    case Content => p.typography.text
    case FontSize => p.typography.fontSize
    case FontFamily => p.typography.fontFamily
    case FontWeight => p.typography.fontWeight
    case Color => p.paint.fill
    case Align => p.typography.textAlign
  }

  /** `TextRenderer.toElement(obj, existing)`: each read-back property `?? existing[key]`. */
  function ToElement(p: Props, existing: J.Record): (r: J.Record)
    ensures r.Keys == existing.Keys + ReadKeys
    ensures forall k :: k in ReadKeys ==> r[k] == J.Coalesce(ReadBack(p, k), J.Get(existing, k))
    ensures forall k :: k in existing && k !in ReadKeys ==> r[k] == existing[k]
  {
    existing + map k | k in ReadKeys :: J.Coalesce(ReadBack(p, k), J.Get(existing, k))
  }

  /** What `create` stores under each read-back property: the element's own value, but no height. */
  lemma CreatedReadBack(e: J.Record, k: J.Key)
    requires k in ReadKeys
    ensures ReadBack(CreatedProps(e), k) == if k == J.Height then J.Undef else J.Get(e, k)
  {
    if k in FrameKeys {
      CreatedFrame(e, k);
    } else if k in TypographyKeys {
      CreatedTypography(e, k);
    } else {
      assert k == J.Color;
      assert CreatedProps(e).paint == ConstructedProps(e).paint;
    }
  }

  const FrameKeys: set<J.Key> := {J.X, J.Y, J.Width, J.Height, J.Rotation, J.ScaleX, J.ScaleY}
  const TypographyKeys: set<J.Key> := {J.Content, J.FontSize, J.FontFamily, J.FontWeight, J.Align}

  lemma CreatedFrame(e: J.Record, k: J.Key)
    requires k in FrameKeys
    ensures ReadBack(CreatedProps(e), k) == if k == J.Height then J.Undef else J.Get(e, k)
  {
    CreatedFrameIs(e);
    FrameReadBack(CreatedProps(e), e, k);
  }

  /** Reading a frame property back from an object whose frame holds the element's, without height. */
  lemma FrameReadBack(p: Props, e: J.Record, k: J.Key)
    requires k in FrameKeys
    requires p.frame == Frame(J.Get(e, J.X), J.Get(e, J.Y), J.Get(e, J.Width), J.Undef,
                              J.Get(e, J.Rotation), J.Get(e, J.ScaleX), J.Get(e, J.ScaleY))
    ensures ReadBack(p, k) == if k == J.Height then J.Undef else J.Get(e, k)
  {
  }

  lemma CreatedFrameIs(e: J.Record)
    ensures CreatedProps(e).frame == Frame(J.Get(e, J.X), J.Get(e, J.Y), J.Get(e, J.Width), J.Undef,
                                           J.Get(e, J.Rotation), J.Get(e, J.ScaleX), J.Get(e, J.ScaleY))
  {
  }

  lemma CreatedTypography(e: J.Record, k: J.Key)
    requires k in TypographyKeys
    ensures ReadBack(CreatedProps(e), k) == J.Get(e, k)
  {
    var t := CreatedProps(e).typography;
    assert t.text == J.Get(e, J.Content) && t.fontSize == J.Get(e, J.FontSize) && t.fontFamily == J.Get(e, J.FontFamily)
      && t.fontWeight == J.Get(e, J.FontWeight) && t.textAlign == J.Get(e, J.Align);
    TypographyReadBack(CreatedProps(e), e, k);
  }

  /** Reading a typography property back from an object whose typography holds the element's. */
  lemma TypographyReadBack(p: Props, e: J.Record, k: J.Key)
    requires k in TypographyKeys
    requires p.typography.text == J.Get(e, J.Content) && p.typography.fontSize == J.Get(e, J.FontSize)
    requires p.typography.fontFamily == J.Get(e, J.FontFamily) && p.typography.fontWeight == J.Get(e, J.FontWeight)
    requires p.typography.textAlign == J.Get(e, J.Align)
    ensures ReadBack(p, k) == J.Get(e, k)
  {
  }

  /**
   * Reading back an object that holds exactly what `create` stored gives the element again,
   * property by property: position, size, rotation, scale, content, font, colour and
   * alignment come back from the object, everything else from the element itself.
   */
  lemma TextRoundTrip(e: J.Record)
    ensures var r := ToElement(CreatedProps(e), e);
      forall k :: J.Get(r, k) == J.Get(e, k)
  {
    var r := ToElement(CreatedProps(e), e);
    forall k ensures J.Get(r, k) == J.Get(e, k) {
      if k in ReadKeys {
        CreatedReadBack(e, k);
      }
    }
  }

  /** Position, width, angle and scale after `update`. */
  function Placed(f: Frame, props: J.Record): Frame
  {
    f.(left := Supplied(props, J.X, f.left), top := Supplied(props, J.Y, f.top),
       width := Supplied(props, J.Width, f.width), angle := Supplied(props, J.Rotation, f.angle),
       scaleX := Supplied(props, J.ScaleX, f.scaleX), scaleY := Supplied(props, J.ScaleY, f.scaleY))
  }

  /** The text properties after `update`; `letterSpacing` lands scaled in `charSpacing`. */
  function Retyped(t: Typography, props: J.Record): Typography
  {
    t.(text := Supplied(props, J.Content, t.text), fontSize := Supplied(props, J.FontSize, t.fontSize),
       fontFamily := Supplied(props, J.FontFamily, t.fontFamily),
       fontWeight := Supplied(props, J.FontWeight, t.fontWeight),
       textAlign := Supplied(props, J.Align, t.textAlign),
       lineHeight := Supplied(props, J.LineHeight, t.lineHeight),
       charSpacing := if J.Present(props, J.LetterSpacing) then CharSpacing(props[J.LetterSpacing])
                      else t.charSpacing)
  }

  /** The object's properties after `update(obj, props)`. */
  function Updated(before: Props, props: J.Record): Props
  {
    before.(frame := Placed(before.frame, props),
            display := Shaded(Shown(before.display, props), J.Get(props, J.Shadow)),
            locks := if J.Present(props, J.Locked) then LocksFor(props[J.Locked]) else before.locks,
            typography := Retyped(before.typography, props),
            paint := before.paint.(fill := Supplied(props, J.Color, before.paint.fill)))
  }

  /**
   * `update` leaves absent props untouched, never writes the height, maps `letterSpacing`
   * to ten times as much `charSpacing`, and can replace a shadow but never clear one.
   */
  lemma UpdateWritesOnlySupplied(before: Props, props: J.Record)
    ensures var after := Updated(before, props);
      after.frame.height == before.frame.height && after.data == before.data
      && after.outline == before.outline
      && (J.Present(props, J.LetterSpacing) && props[J.LetterSpacing].Num? ==>
            after.typography.charSpacing == J.Num(props[J.LetterSpacing].n * 10.0))
      && (!J.Present(props, J.LetterSpacing) ==> after.typography.charSpacing == before.typography.charSpacing)
      && (J.Present(props, J.Color) ==> after.paint.fill == props[J.Color])
      && (!J.Present(props, J.Color) ==> after.paint == before.paint)
      && (before.display.shadow != J.Undef ==> after.display.shadow != J.Undef)
      && (!J.Truthy(J.Get(props, J.Shadow)) ==> after.display.shadow == before.display.shadow)
      && (J.Truthy(J.Get(props, J.Shadow)) ==> after.display.shadow == ShadowOf(props[J.Shadow]))
  {
  }

  /** With nothing supplied, `update` changes nothing. */
  lemma UpdateNothing(before: Props)
    ensures Updated(before, map[]) == before
  {
    assert Placed(before.frame, map[]) == before.frame;
    assert Retyped(before.typography, map[]) == before.typography;
  }

  /**
   * A supplied non-nullish position, content or colour is what `toElement` reads back after
   * `update`.
   */
  lemma UpdateThenRead(before: Props, props: J.Record, existing: J.Record)
    ensures var r := ToElement(Updated(before, props), existing);
      (J.Present(props, J.X) && !J.Nullish(props[J.X]) ==> r[J.X] == props[J.X])
      && (J.Present(props, J.Content) && !J.Nullish(props[J.Content]) ==> r[J.Content] == props[J.Content])
      && (J.Present(props, J.Color) && !J.Nullish(props[J.Color]) ==> r[J.Color] == props[J.Color])
  {
    var after := Updated(before, props);
    if J.Present(props, J.X) && !J.Nullish(props[J.X]) {
      assert ReadBack(after, J.X) == after.frame.left == props[J.X];
      ReadNonNullish(after, existing, J.X);
    }
    if J.Present(props, J.Content) && !J.Nullish(props[J.Content]) {
      assert ReadBack(after, J.Content) == after.typography.text == props[J.Content];
      ReadNonNullish(after, existing, J.Content);
    }
    if J.Present(props, J.Color) && !J.Nullish(props[J.Color]) {
      assert ReadBack(after, J.Color) == after.paint.fill == props[J.Color];
      ReadNonNullish(after, existing, J.Color);
    }
  }

  /** A read-back property the object holds a non-nullish value for is read back as that value. */
  lemma ReadNonNullish(p: Props, existing: J.Record, k: J.Key)
    requires k in ReadKeys && !J.Nullish(ReadBack(p, k))
    ensures ToElement(p, existing)[k] == ReadBack(p, k)
  {
  }

  /** Position, width, angle and scale, in `update`'s order. */
  method Place(obj: SceneObject, props: J.Record)
    modifies obj
    ensures obj.props == old(obj.props).(frame := Placed(old(obj.props.frame), props))
  {
    if J.Present(props, J.X) { obj.props := obj.props.(frame := obj.props.frame.(left := props[J.X])); }
    if J.Present(props, J.Y) { obj.props := obj.props.(frame := obj.props.frame.(top := props[J.Y])); }
    if J.Present(props, J.Width) { obj.props := obj.props.(frame := obj.props.frame.(width := props[J.Width])); }
    if J.Present(props, J.Rotation) { obj.props := obj.props.(frame := obj.props.frame.(angle := props[J.Rotation])); }
    if J.Present(props, J.ScaleX) { obj.props := obj.props.(frame := obj.props.frame.(scaleX := props[J.ScaleX])); }
    if J.Present(props, J.ScaleY) { obj.props := obj.props.(frame := obj.props.frame.(scaleY := props[J.ScaleY])); }
  }

  /** Content and font, in `update`'s order. */
  method Retype(obj: SceneObject, props: J.Record)
    modifies obj
    ensures obj.props == old(obj.props).(
      typography := old(obj.props.typography).(
        text := Supplied(props, J.Content, old(obj.props.typography.text)),
        fontSize := Supplied(props, J.FontSize, old(obj.props.typography.fontSize)),
        fontFamily := Supplied(props, J.FontFamily, old(obj.props.typography.fontFamily)),
        fontWeight := Supplied(props, J.FontWeight, old(obj.props.typography.fontWeight))))
  {
    if J.Present(props, J.Content) {
      obj.props := obj.props.(typography := obj.props.typography.(text := props[J.Content]));
    }
    if J.Present(props, J.FontSize) {
      obj.props := obj.props.(typography := obj.props.typography.(fontSize := props[J.FontSize]));
    }
    if J.Present(props, J.FontFamily) {
      obj.props := obj.props.(typography := obj.props.typography.(fontFamily := props[J.FontFamily]));
    }
    if J.Present(props, J.FontWeight) {
      obj.props := obj.props.(typography := obj.props.typography.(fontWeight := props[J.FontWeight]));
    }
  }

  /** Colour, alignment, line height and letter spacing, in `update`'s order. */
  method Restyle(obj: SceneObject, props: J.Record)
    modifies obj
    ensures obj.props == old(obj.props).(
      paint := old(obj.props.paint).(fill := Supplied(props, J.Color, old(obj.props.paint.fill))),
      typography := old(obj.props.typography).(
        textAlign := Supplied(props, J.Align, old(obj.props.typography.textAlign)),
        lineHeight := Supplied(props, J.LineHeight, old(obj.props.typography.lineHeight)),
        charSpacing := if J.Present(props, J.LetterSpacing) then CharSpacing(props[J.LetterSpacing])
                       else old(obj.props.typography.charSpacing)))
  {
    if J.Present(props, J.Color) {
      obj.props := obj.props.(paint := obj.props.paint.(fill := props[J.Color]));
    }
    if J.Present(props, J.Align) {
      obj.props := obj.props.(typography := obj.props.typography.(textAlign := props[J.Align]));
    }
    if J.Present(props, J.LineHeight) {
      obj.props := obj.props.(typography := obj.props.typography.(lineHeight := props[J.LineHeight]));
    }
    if J.Present(props, J.LetterSpacing) {
      obj.props := obj.props.(typography := obj.props.typography.(charSpacing := CharSpacing(props[J.LetterSpacing])));
    }
  }

  /** `TextRenderer.update(obj, props)`, its `set` calls in the source's order. */
  method Update(obj: SceneObject, props: J.Record)
    modifies obj
    ensures obj.props == Updated(old(obj.props), props)
  {
    Place(obj, props);
    obj.SetVisibility(props);
    if J.Present(props, J.Locked) { obj.SetLocks(props[J.Locked]); }
    Retype(obj, props);
    Restyle(obj, props);
    obj.SetShadow(J.Get(props, J.Shadow));
  }
}
