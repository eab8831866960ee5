/**
 * Zoom arithmetic of the UI: the zoom dropdown's slider, drag clamp and preset check
 * (packages/components/src/ZoomDropdown/index.tsx), and the zoom steps of the `useZoom`
 * hook (packages/editor/src/react/hooks/useZoom.ts).
 */
module ZoomDropdowns {
  import opened JsValues
  import N = JsNumbers

  /** `DEFAULT_PRESETS`, in percent. */
  const DefaultPresets: seq<int> := [300, 200, 150, 125, 100, 75, 50, 25, 10]
  const DefaultMinZoom: int := 10
  const DefaultMaxZoom: int := 300

  /** The presets lie within the default bounds and strictly descend, so they are distinct. */
  lemma DefaultPresetsWithinBounds()
    ensures forall i :: 0 <= i < |DefaultPresets| ==> DefaultMinZoom <= DefaultPresets[i] <= DefaultMaxZoom
    ensures forall i, j :: 0 <= i < j < |DefaultPresets| ==> DefaultPresets[i] > DefaultPresets[j]
  {
  }

  /** `Math.max(0, Math.min(1, v))` */
  function ClampUnit(v: N.Number): (r: N.Number)
    ensures r == N.NotANumber <==> v == N.NotANumber
    ensures r != N.NotANumber ==> r.Finite? && 0.0 <= r.r <= 1.0
    ensures v.Finite? && 0.0 <= v.r <= 1.0 ==> r == v
    ensures v == N.PosInf || (v.Finite? && v.r >= 1.0) ==> r == N.Finite(1.0)
    ensures v == N.NegInf || (v.Finite? && v.r <= 0.0) ==> r == N.Finite(0.0)
  {
    N.Max(N.Finite(0.0), N.Min(N.Finite(1.0), v))
  }

  /** `sliderPosition = max(0, min(1, (zoom - minZoom) / (maxZoom - minZoom)))` */
  function SliderPosition(zoom: real, minZoom: int, maxZoom: int): N.Number
  {
    ClampUnit(N.Divide(zoom - minZoom as real, (maxZoom - minZoom) as real))
  }

  /**
   * With `maxZoom > minZoom` the slider position is a number in [0, 1]: 0 at or below the
   * minimum, 1 at or above the maximum, and the linear position in between.
   */
  lemma SliderPositionInUnit(zoom: real, minZoom: int, maxZoom: int)
    requires minZoom < maxZoom
    ensures var p := SliderPosition(zoom, minZoom, maxZoom);
      p.Finite? && 0.0 <= p.r <= 1.0 &&
      (zoom <= minZoom as real ==> p.r == 0.0) &&
      (zoom >= maxZoom as real ==> p.r == 1.0) &&
      (minZoom as real <= zoom <= maxZoom as real ==>
        p.r * (maxZoom - minZoom) as real == zoom - minZoom as real)
  {
    var d := (maxZoom - minZoom) as real;
    var q := (zoom - minZoom as real) / d;
    assert N.Divide(zoom - minZoom as real, d) == N.Finite(q);
    QuotientBounds(zoom - minZoom as real, d);
  }

  /** Where `n / d` lies for a positive `d`, by where `n` lies against 0 and `d`. */
  lemma QuotientBounds(n: real, d: real)
    requires d > 0.0
    ensures n <= 0.0 ==> n / d <= 0.0
    ensures n >= d ==> n / d >= 1.0
    ensures (n / d) * d == n
  {
    var q := n / d;
    assert q * d == n;
    ProductSign(q, d);
  }

  /** For a positive `d`, `q * d` is positive with `q`, and below `d` exactly when `q < 1`. */
  lemma ProductSign(q: real, d: real)
    requires d > 0.0
    ensures q > 0.0 ==> q * d > 0.0
    ensures q < 1.0 ==> q * d < d
  {
    if q < 1.0 {
      assert d - q * d == (1.0 - q) * d;
    }
  }

  /** With equal bounds the slider has no position at the bound itself: it is NaN there. */
  lemma SliderPositionDegenerate(zoom: real, bound: int)
    ensures SliderPosition(zoom, bound, bound) == N.NotANumber <==> zoom == bound as real
  {
  }

  /** `positionToZoom(p) = round(minZoom + p * (maxZoom - minZoom))` */
  function PositionToZoom(position: real, minZoom: int, maxZoom: int): (z: int)
    ensures 0.0 <= position <= 1.0 && minZoom <= maxZoom ==> minZoom <= z <= maxZoom
  {
    var exact := minZoom as real + position * (maxZoom - minZoom) as real;
    assert 0.0 <= position <= 1.0 && minZoom <= maxZoom ==>
      minZoom as real <= exact <= maxZoom as real by {
      if 0.0 <= position <= 1.0 && minZoom <= maxZoom {
        assert 0.0 <= position * (maxZoom - minZoom) as real <= (maxZoom - minZoom) as real;
      }
    }
    Round(exact)
  }

  /** The ends of the track map to the bounds themselves. */
  lemma PositionToZoomEnds(minZoom: int, maxZoom: int)
    ensures PositionToZoom(0.0, minZoom, maxZoom) == minZoom
    ensures PositionToZoom(1.0, minZoom, maxZoom) == maxZoom
  {
    assert minZoom as real + 0.0 * (maxZoom - minZoom) as real == minZoom as real;
    assert minZoom as real + 1.0 * (maxZoom - minZoom) as real == maxZoom as real;
  }

  /**
   * The zoom a cursor at `clientX` over a track at `left` of width `width` asks for: the
   * clamped position, then `positionToZoom`; a NaN position stays NaN.
   */
  function DragZoom(clientX: real, left: real, width: real, minZoom: int, maxZoom: int): N.Number
  {
    var position := ClampUnit(N.Divide(clientX - left, width));
    if position.Finite? then N.Finite(PositionToZoom(position.r, minZoom, maxZoom) as real)
    else N.NotANumber
  }

  /** On a laid-out track (positive width) the requested zoom always lies in [minZoom, maxZoom]. */
  lemma DragZoomInRange(clientX: real, left: real, width: real, minZoom: int, maxZoom: int)
    requires width > 0.0 && minZoom <= maxZoom
    ensures var z := DragZoom(clientX, left, width, minZoom, maxZoom);
      z.Finite? && minZoom as real <= z.r <= maxZoom as real
  {
  }

  /** A cursor left of the track asks for the minimum, one right of it for the maximum. */
  lemma DragZoomOutside(clientX: real, left: real, width: real, minZoom: int, maxZoom: int)
    requires width > 0.0
    ensures clientX <= left ==> DragZoom(clientX, left, width, minZoom, maxZoom) == N.Finite(minZoom as real)
    ensures clientX >= left + width ==> DragZoom(clientX, left, width, minZoom, maxZoom) == N.Finite(maxZoom as real)
  {
    PositionToZoomEnds(minZoom, maxZoom);
    if clientX >= left + width {
      var q := (clientX - left) / width;
      assert q * width == clientX - left;
      assert q >= 1.0;
    }
  }

  /** `zoomPercent === preset`: the check mark of a preset row. */
  predicate Checked(zoom: real, preset: int)
  {
    Round(zoom) == preset
  }

  /** At most one row of a list of distinct presets carries the check mark. */
  lemma CheckedAtMostOnce(zoom: real, presets: seq<int>, i: nat, j: nat)
    requires i < |presets| && j < |presets| && presets[i] != presets[j]
    ensures !(Checked(zoom, presets[i]) && Checked(zoom, presets[j]))
  {
  }

  /** What the dropdown asks of its owner: a zoom, or a fit/fill when those callbacks exist. */
  datatype Request = ZoomTo(zoom: N.Number) | FitToScreen | FillScreen

  /** The dropdown's menu state and the callback calls it has made. */
  class ZoomDropdown {
    const minZoom: int
    const maxZoom: int
    const presets: seq<int>
    const hasZoomToFit: bool
    const hasZoomToFill: bool
    var isOpen: bool
    var requests: seq<Request>

    /** Mounting with the given props (the defaults are 10, 300 and `DEFAULT_PRESETS`). */
    constructor(minZoom: int, maxZoom: int, presets: seq<int>, hasZoomToFit: bool, hasZoomToFill: bool)
      ensures this.minZoom == minZoom && this.maxZoom == maxZoom && this.presets == presets
      ensures this.hasZoomToFit == hasZoomToFit && this.hasZoomToFill == hasZoomToFill
      ensures !isOpen && requests == []
    {
      this.minZoom := minZoom;
      this.maxZoom := maxZoom;
      this.presets := presets;
      this.hasZoomToFit := hasZoomToFit;
      this.hasZoomToFill := hasZoomToFill;
      isOpen := false;
      requests := [];
    }

    /** The trigger button toggles the menu. */
    method Toggle()
      modifies this
      ensures isOpen == !old(isOpen) && requests == old(requests)
    {
      isOpen := !isOpen;
    }

    /** `handleZoomSelect(value)`: emit the preset, then close. */
    method SelectPreset(value: int)
      modifies this
      ensures requests == old(requests) + [ZoomTo(N.Finite(value as real))] && !isOpen
    {
      requests := requests + [ZoomTo(N.Finite(value as real))];
      isOpen := false;
    }

    /** `updateSliderPosition(clientX)` on a mousedown or a drag move; the menu is left as it is. */
    method Drag(clientX: real, left: real, width: real)
      modifies this
      ensures requests == old(requests) + [ZoomTo(DragZoom(clientX, left, width, minZoom, maxZoom))]
      ensures isOpen == old(isOpen)
    {
      requests := requests + [ZoomTo(DragZoom(clientX, left, width, minZoom, maxZoom))];
    }

    /** `handleFitToScreen`: call `onZoomToFit` when given, and close either way. */
    method FitToScreenClicked()
      modifies this
      ensures requests == old(requests) + (if hasZoomToFit then [FitToScreen] else []) && !isOpen
    {
      if hasZoomToFit {
        requests := requests + [FitToScreen];
      }
      isOpen := false;
    }

    /** `handleFillScreen`: call `onZoomToFill` when given, and close either way. */
    method FillScreenClicked()
      modifies this
      ensures requests == old(requests) + (if hasZoomToFill then [FillScreen] else []) && !isOpen
    {
      if hasZoomToFill {
        requests := requests + [FillScreen];
      }
      isOpen := false;
    }
  }
}

/** The `useZoom` hook: its zoom state and the step targets it asks the renderer for. */
module ZoomHook {
  import opened Wrappers
  import opened JsValues

  const ZoomFactor: real := 1.2
  const MaxStepZoom: real := 5.0
  const MinStepZoom: real := 0.1

  /** `Math.min(zoom * 1.2, 5)` */
  function ZoomInTarget(zoom: real): (r: real)
    ensures r <= MaxStepZoom
    ensures r == zoom * ZoomFactor || r == MaxStepZoom
    ensures zoom * ZoomFactor <= MaxStepZoom ==> r == zoom * ZoomFactor
    ensures 0.0 <= zoom <= MaxStepZoom ==> zoom <= r
  {
    MinReal(zoom * ZoomFactor, MaxStepZoom)
  }

  /** `Math.max(zoom / 1.2, 0.1)` */
  function ZoomOutTarget(zoom: real): (r: real)
    ensures r >= MinStepZoom
    ensures r == zoom / ZoomFactor || r == MinStepZoom
    ensures zoom / ZoomFactor >= MinStepZoom ==> r == zoom / ZoomFactor
    ensures zoom >= MinStepZoom ==> r <= zoom
  {
    MaxReal(zoom / ZoomFactor, MinStepZoom)
  }

  /** Within the step bounds, zooming in and then out returns to the same zoom, and vice versa. */
  lemma ZoomStepsInverse(zoom: real)
    ensures MinStepZoom <= zoom && zoom * ZoomFactor <= MaxStepZoom ==> ZoomOutTarget(ZoomInTarget(zoom)) == zoom
    ensures zoom / ZoomFactor >= MinStepZoom && zoom <= MaxStepZoom ==> ZoomInTarget(ZoomOutTarget(zoom)) == zoom
  {
  }

  /** `zoomPercent = Math.round(zoom * 100)` */
  function ZoomPercent(zoom: real): (p: int)
    ensures p as real - 0.5 <= zoom * 100.0 < p as real + 0.5
  {
    Round(zoom * 100.0)
  }

  /** The hook's state, and whether an editor is in its context. */
  class ZoomState {
    var zoom: real
    var editor: bool

    /** `useState(1)` before an editor is known. */
    constructor()
      ensures zoom == 1.0 && !editor
    {
      zoom := 1.0;
      editor := false;
    }

    /** An editor appears: the zoom is reset to `renderer.getZoom()`. */
    method Attach(rendererZoom: real)
      modifies this
      ensures editor && zoom == rendererZoom
    {
      editor := true;
      zoom := rendererZoom;
    }

    /** A `zoom:changed` payload is stored as is. */
    method ZoomChanged(newZoom: real)
      modifies this
      ensures zoom == newZoom && editor == old(editor)
    {
      zoom := newZoom;
    }

    /** `zoomIn`: the zoom asked of the renderer, none without an editor. */
    method ZoomIn() returns (request: Option<real>)
      ensures request.Some? <==> editor
      ensures request.Some? ==> request.value == ZoomInTarget(zoom) && request.value <= MaxStepZoom
    {
      request := if editor then Some(ZoomInTarget(zoom)) else None;
    }

    /** `zoomOut`: the zoom asked of the renderer, none without an editor. */
    method ZoomOut() returns (request: Option<real>)
      ensures request.Some? <==> editor
      ensures request.Some? ==> request.value == ZoomOutTarget(zoom) && request.value >= MinStepZoom
    {
      request := if editor then Some(ZoomOutTarget(zoom)) else None;
    }
  }
}
