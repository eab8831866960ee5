/**
 * The state machine of packages/renderer/src/fabric/FabricRenderer.ts: the loaded document,
 * the active page and its size, the mounted canvas with its 6-entry viewport transform
 * `[zoom, 0, 0, zoom, left, top]`, and the `zoom:changed` events. The container's size is the
 * one `getBoundingClientRect` reports at mount; resizing is not modelled.
 */
module FabricRenderers {
  import opened Wrappers
  import opened JsValues
  import opened Documents
  import opened Events

  /** Padding kept on each side by `zoomToFit`. */
  const Padding: real := 60.0

  /** What `renderPage` fills the page rectangle with; gradient coordinates are left out. */
  datatype Fill = ColorFill(color: string) | LinearGradientFill(stops: seq<GradientStop>)

  /** The page rectangle `renderPage` puts on an emptied canvas. */
  datatype PageRect = PageRect(width: real, height: real, fill: Fill)

  /** `getBackgroundFill` without the angle's trigonometry. */
  function BackgroundFill(b: Background): (f: Fill)
    ensures b.backgroundType == SolidBackground ==>
      f.ColorFill? && (f.color == "#ffffff" || Some(f.color) == b.color) && f.color != ""
      && (b.color.None? || b.color == Some("") ==> f.color == "#ffffff")
    ensures f.LinearGradientFill? <==> b.backgroundType == GradientBackground && b.gradient.Some?
    ensures b.backgroundType == SolidBackground && b.color.Some? && b.color.value != "" ==> f == ColorFill(b.color.value)
    ensures f.LinearGradientFill? ==> f.stops == b.gradient.value.stops
    ensures b.backgroundType != SolidBackground && f.ColorFill? ==> f.color == "#ffffff"
  {
    if b.backgroundType == SolidBackground then
      ColorFill(if b.color.Some? && b.color.value != "" then b.color.value else "#ffffff")
    else if b.backgroundType == GradientBackground && b.gradient.Some? then
      LinearGradientFill(b.gradient.value.stops)
    else ColorFill("#ffffff")
  }

  /** `Math.min(scaleX, scaleY, 1)` of `zoomToFit`. */
  function FitZoom(containerWidth: real, containerHeight: real, pageWidth: real, pageHeight: real): (z: real)
    requires pageWidth != 0.0 && pageHeight != 0.0
  {
    MinReal(MinReal((containerWidth - 2.0 * Padding) / pageWidth, (containerHeight - 2.0 * Padding) / pageHeight), 1.0)
  }

  /** The zoom never enlarges, and the scaled page fits inside the padded container. */
  lemma FitZoomFits(containerWidth: real, containerHeight: real, pageWidth: real, pageHeight: real)
    requires pageWidth > 0.0 && pageHeight > 0.0
    ensures var z := FitZoom(containerWidth, containerHeight, pageWidth, pageHeight);
      z <= 1.0
      && pageWidth * z <= containerWidth - 2.0 * Padding
      && pageHeight * z <= containerHeight - 2.0 * Padding
      && (z == 1.0 || pageWidth * z == containerWidth - 2.0 * Padding
          || pageHeight * z == containerHeight - 2.0 * Padding)
  {
    var sx := (containerWidth - 2.0 * Padding) / pageWidth;
    var sy := (containerHeight - 2.0 * Padding) / pageHeight;
    var z := FitZoom(containerWidth, containerHeight, pageWidth, pageHeight);
    assert pageWidth * sx == containerWidth - 2.0 * Padding;
    assert pageHeight * sy == containerHeight - 2.0 * Padding;
    assert z <= sx && z <= sy;
    MulMonotone(pageWidth, z, sx);
    MulMonotone(pageHeight, z, sy);
  }

  lemma MulMonotone(a: real, x: real, y: real)
    requires a > 0.0 && x <= y
    ensures a * x <= a * y
  {
  }

  /** The subscriptions left after `zoom:changed` is emitted once: its `once` wrappers are gone. */
  function AfterZoomEmit(handlers: map<string, seq<Handler>>): (r: map<string, seq<Handler>>)
    ensures r.Keys == handlers.Keys
    ensures forall e :: e in handlers && e != "zoom:changed" ==> r[e] == handlers[e]
    ensures "zoom:changed" in handlers ==>
      forall x :: x in r["zoom:changed"] <==> x in handlers["zoom:changed"] && !x.Once?
  {
    if "zoom:changed" in handlers then handlers["zoom:changed" := DropOnce(handlers["zoom:changed"])]
    else handlers
  }

  /** `centerContent`'s offset along one axis. */
  function CenterOffset(containerSize: real, pageSize: real, zoom: real): real
  {
    (containerSize - pageSize * zoom) / 2.0
  }

  /** The scaled page sits with equal margins on both sides. */
  lemma CenteredMargins(containerSize: real, pageSize: real, zoom: real)
    ensures var left := CenterOffset(containerSize, pageSize, zoom);
      left + pageSize * zoom + left == containerSize
  {
  }

  datatype ImageFormat = Png | Jpg | Svg

  datatype ExportOptions = ExportOptions(format: Option<ImageFormat>, quality: Option<real>, scale: Option<real>)

  /** The arguments `toDataURL` hands to the canvas. */
  datatype DataUrlRequest = DataUrlRequest(format: string, quality: real, multiplier: real)

  /** `x || 1` on an optional number. */
  function OrOne(x: Option<real>): (r: real)
    ensures x.Some? && x.value != 0.0 ==> r == x.value
    ensures x.None? || x.value == 0.0 ==> r == 1.0
  {
    if x.Some? && x.value != 0.0 then x.value else 1.0
  }

  /** `toDataURL(options)`: refused when unmounted; 'jpg' becomes 'jpeg', every other format 'png'. */
  function DataUrlRequestFor(mounted: bool, options: ExportOptions): (r: Result<DataUrlRequest, string>)
    ensures !mounted <==> r == Err("Canvas not mounted")
    ensures r.Ok? ==>
      (r.value.format == "jpeg" <==> options.format == Some(Jpg))
      && (r.value.format == "png" <==> options.format != Some(Jpg))
      && r.value.quality == OrOne(options.quality) && r.value.multiplier == OrOne(options.scale)
  {
    if !mounted then Err("Canvas not mounted")
    else Ok(DataUrlRequest(if options.format == Some(Jpg) then "jpeg" else "png",
                           OrOne(options.quality), OrOne(options.scale)))
  }

  /** The Fabric canvas: its viewport transform, its size and the objects drawn on it. */
  class Canvas {
    const vpt: array<real>
    var width: real
    var height: real
    var objects: seq<PageRect>
    var disposed: bool

    /** A fresh canvas has the identity viewport transform and no objects. */
    constructor(width: real, height: real)
      ensures fresh(vpt) && vpt.Length == 6 && vpt[..] == [1.0, 0.0, 0.0, 1.0, 0.0, 0.0]
      ensures this.width == width && this.height == height && objects == [] && !disposed
    {
      var t := new real[6];
      t[0], t[1], t[2], t[3], t[4], t[5] := 1.0, 0.0, 0.0, 1.0, 0.0, 0.0;
      vpt := t;
      this.width := width;
      this.height := height;
      objects := [];
      disposed := false;
      assert t[..] == [1.0, 0.0, 0.0, 1.0, 0.0, 0.0];
    }
  }

  /** The size `getBoundingClientRect` reports for the container. */
  datatype Container = Container(width: real, height: real)

  class FabricRenderer {
    var canvas: Canvas?
    var container: Option<Container>
    var document: Option<Document>
    var activePageId: Option<string>
    var pageWidth: real
    var pageHeight: real
    const emitter: EventEmitter
    /** The payloads of the `zoom:changed` events emitted so far. */
    var zoomEvents: seq<real>

    ghost predicate Valid()
      reads this, emitter, canvas
    {
      emitter.Valid()
      && (canvas != null ==> canvas.vpt.Length == 6 && container.Some? && !canvas.disposed)
    }


    constructor()
      ensures Valid() && canvas == null && container.None? && document.None? && activePageId.None?
      ensures pageWidth == 0.0 && pageHeight == 0.0 && zoomEvents == [] && fresh(emitter)
    {
      canvas := null;
      container := None;
      document := None;
      activePageId := None;
      pageWidth := 0.0;
      pageHeight := 0.0;
      emitter := new EventEmitter();
      zoomEvents := [];
    }

    /** `mount(container)`: a zero container size falls back to 800 by 600 for the canvas. */
    method Mount(width: real, height: real)
      requires Valid()
      modifies this
      ensures Valid() && fresh(canvas) && container == Some(Container(width, height))
      ensures canvas.width == (if width == 0.0 then 800.0 else width)
      ensures canvas.height == (if height == 0.0 then 600.0 else height)
      ensures canvas.vpt[..] == [1.0, 0.0, 0.0, 1.0, 0.0, 0.0] && canvas.objects == []
      ensures document == old(document) && activePageId == old(activePageId)
      ensures pageWidth == old(pageWidth) && pageHeight == old(pageHeight) && zoomEvents == old(zoomEvents)
    {
      container := Some(Container(width, height));
      canvas := new Canvas(if width == 0.0 then 800.0 else width, if height == 0.0 then 600.0 else height);
    }

    /** `unmount()`: dispose of the canvas, if any. */
    method Unmount()
      requires Valid()
      modifies this, canvas
      ensures Valid() && canvas == null
      ensures old(canvas) != null ==> old(canvas).disposed
      ensures container == old(container) && document == old(document) && activePageId == old(activePageId)
      ensures pageWidth == old(pageWidth) && pageHeight == old(pageHeight) && zoomEvents == old(zoomEvents)
    {
      if canvas != null {
        canvas.disposed := true;
        canvas := null;
      }
    }

    /** `destroy()`: unmount, then drop every event subscription. */
    method Destroy()
      requires Valid()
      modifies this, canvas, emitter
      ensures Valid() && canvas == null && emitter.handlers == map[]
      ensures old(canvas) != null ==> old(canvas).disposed
      ensures container == old(container) && document == old(document) && activePageId == old(activePageId)
      ensures pageWidth == old(pageWidth) && pageHeight == old(pageHeight) && zoomEvents == old(zoomEvents)
    {
      Unmount();
      emitter.Clear();
    }

    /** `getActivePage()` */
    function GetActivePage(): (p: Option<Page>)
      reads this
      ensures p.Some? ==> document.Some? && activePageId == Some(p.value.id) && p.value in document.value.pages
      ensures p.None? ==>
        document.None? || activePageId.None?
        || forall i :: 0 <= i < |document.value.pages| ==> document.value.pages[i].id != activePageId.value
    {
      if document.None? || activePageId.None? then None
      else FindPage(document.value.pages, activePageId.value)
    }

    /** `getAllElements()`: the active page's elements, or none. */
    function GetAllElements(): (els: seq<Record>)
      reads this
      ensures GetActivePage().Some? ==> els == GetActivePage().value.elements
      ensures GetActivePage().None? ==> els == []
    {
      var page := GetActivePage();
      if page.Some? then page.value.elements else []
    }

    /**
     * `setActivePage(id)`: nothing happens for an unknown id or while unmounted; otherwise the
     * page becomes active, its size is recorded and the canvas holds just its rectangle.
     */
    method SetActivePage(pageId: string)
      requires Valid()
      modifies this, canvas
      ensures Valid() && canvas == old(canvas) && document == old(document) && zoomEvents == old(zoomEvents)
      ensures container == old(container)
      ensures var page := if document.Some? then FindPage(document.value.pages, pageId) else None;
        if page.None? || canvas == null then
          activePageId == old(activePageId) && pageWidth == old(pageWidth) && pageHeight == old(pageHeight)
          && (canvas != null ==> canvas.objects == old(canvas.objects))
        else
          activePageId == Some(pageId) && pageWidth == page.value.width && pageHeight == page.value.height
          && canvas.objects == [PageRect(page.value.width, page.value.height, BackgroundFill(page.value.background))]
          && GetActivePage() == page
    {
      var page := if document.Some? then FindPage(document.value.pages, pageId) else None;
      if page.None? || canvas == null {
        return;
      }
      activePageId := Some(pageId);
      pageWidth := page.value.width;
      pageHeight := page.value.height;
      canvas.objects := [PageRect(page.value.width, page.value.height, BackgroundFill(page.value.background))];
    }

    /** `loadDocument(doc)`: store the document and activate its first page, if it has one. */
    method LoadDocument(doc: Document)
      requires Valid()
      modifies this, canvas
      ensures Valid() && document == Some(doc) && canvas == old(canvas)
      ensures |doc.pages| > 0 && canvas != null ==>
        activePageId == Some(doc.pages[0].id) && GetActivePage() == Some(doc.pages[0])
        && pageWidth == doc.pages[0].width && pageHeight == doc.pages[0].height
      ensures |doc.pages| > 0 && canvas != null ==>
        canvas.objects == [PageRect(doc.pages[0].width, doc.pages[0].height, BackgroundFill(doc.pages[0].background))]
      ensures |doc.pages| == 0 || canvas == null ==>
        activePageId == old(activePageId) && pageWidth == old(pageWidth) && pageHeight == old(pageHeight)
        && (canvas != null ==> canvas.objects == old(canvas.objects))
      ensures container == old(container) && zoomEvents == old(zoomEvents)
    {
      document := Some(doc);
      if |doc.pages| > 0 {
        FindPageFirst(doc.pages, 0, doc.pages[0].id);
        SetActivePage(doc.pages[0].id);
      }
    }

    /** `getZoom()`: the canvas zoom, and 1 when unmounted or when the zoom is 0. */
    function GetZoom(): (z: real)
      reads this, canvas, if canvas != null then {canvas.vpt} else {}
      requires canvas != null ==> canvas.vpt.Length == 6
      ensures canvas == null ==> z == 1.0
      ensures canvas != null ==> z == if canvas.vpt[0] == 0.0 then 1.0 else canvas.vpt[0]
      ensures z != 0.0
    {
      if canvas == null || canvas.vpt[0] == 0.0 then 1.0 else canvas.vpt[0]
    }

    /** `centerContent()`: move the page's top-left corner so that the scaled page is centred. */
    method CenterContent()
      requires Valid()
      modifies if canvas != null then {canvas.vpt} else {}
      ensures Valid()
      ensures canvas != null ==>
        canvas.vpt[..] == old(canvas.vpt[..])[4 := CenterOffset(container.value.width, pageWidth, canvas.vpt[0])]
                                             [5 := CenterOffset(container.value.height, pageHeight, canvas.vpt[0])]
    {
      if canvas == null || container.None? {
        return;
      }
      var zoom := canvas.vpt[0];
      var left := CenterOffset(container.value.width, pageWidth, zoom);
      var top := CenterOffset(container.value.height, pageHeight, zoom);
      canvas.vpt[4] := left;
      canvas.vpt[5] := top;
    }

    /** The transform `setZoom`/`zoomToFit` leave: the zoom on the diagonal, the page centred. */
    ghost predicate ZoomedAndCentred(before: seq<real>, zoom: real)
      reads this, emitter, canvas, if canvas != null then {canvas.vpt} else {}
      requires Valid() && canvas != null && |before| == 6
    {
      canvas.vpt[..] == before[0 := zoom][3 := zoom][4 := CenterOffset(container.value.width, pageWidth, zoom)]
                              [5 := CenterOffset(container.value.height, pageHeight, zoom)]
    }

    /** Write the zoom on the transform's diagonal, as the canvas's own zoom setters do. */
    method ApplyZoom(zoom: real)
      requires Valid() && canvas != null
      modifies canvas.vpt
      ensures Valid() && canvas.vpt[..] == old(canvas.vpt[..])[0 := zoom][3 := zoom]
    {
      canvas.vpt[0] := zoom;
      canvas.vpt[3] := zoom;
    }

    /** Tell the `zoom:changed` subscribers, and record the payload. */
    method EmitZoomChanged(zoom: real)
      requires Valid()
      modifies this, emitter
      ensures Valid() && zoomEvents == old(zoomEvents) + [zoom]
      ensures canvas == old(canvas) && container == old(container) && document == old(document)
      ensures activePageId == old(activePageId) && pageWidth == old(pageWidth) && pageHeight == old(pageHeight)
      ensures emitter.handlers == AfterZoomEmit(old(emitter.handlers))
    {
      var _, _ := emitter.Emit("zoom:changed");
      zoomEvents := zoomEvents + [zoom];
    }

    /** `setZoom(zoom)`: nothing while unmounted; else zoom, centre and emit `zoom:changed`. */
    method SetZoom(zoom: real)
      requires Valid()
      modifies this, emitter, if canvas != null then {canvas.vpt} else {}
      ensures Valid() && canvas == old(canvas) && container == old(container)
      ensures pageWidth == old(pageWidth) && pageHeight == old(pageHeight)
      ensures document == old(document) && activePageId == old(activePageId)
      ensures canvas == null ==> zoomEvents == old(zoomEvents) && emitter.handlers == old(emitter.handlers)
      ensures canvas != null ==> ZoomedAndCentred(old(canvas.vpt[..]), zoom) && zoomEvents == old(zoomEvents) + [zoom]
      ensures canvas != null ==> emitter.handlers == AfterZoomEmit(old(emitter.handlers))
      ensures canvas != null ==> GetZoom() == if zoom == 0.0 then 1.0 else zoom
    {
      if canvas == null {
        return;
      }
      ApplyZoom(zoom);
      CenterContent();
      EmitZoomChanged(zoom);
    }

    /**
     * `zoomToFit()`: nothing while unmounted or before a page with nonzero size is active;
     * else fit the page inside the container less the padding, never enlarging it.
     */
    method ZoomToFit()
      requires Valid()
      modifies this, emitter, if canvas != null then {canvas.vpt} else {}
      ensures Valid() && canvas == old(canvas) && container == old(container)
      ensures pageWidth == old(pageWidth) && pageHeight == old(pageHeight)
      ensures document == old(document) && activePageId == old(activePageId)
      ensures canvas == null || pageWidth == 0.0 || pageHeight == 0.0 ==>
        zoomEvents == old(zoomEvents) && emitter.handlers == old(emitter.handlers)
        && (canvas != null ==> canvas.vpt[..] == old(canvas.vpt[..]))
      ensures canvas != null && pageWidth != 0.0 && pageHeight != 0.0 ==>
        var z := FitZoom(container.value.width, container.value.height, pageWidth, pageHeight);
        ZoomedAndCentred(old(canvas.vpt[..]), z) && zoomEvents == old(zoomEvents) + [z] && z <= 1.0
        && emitter.handlers == AfterZoomEmit(old(emitter.handlers))
    {
      if canvas == null || container.None? || pageWidth == 0.0 || pageHeight == 0.0 {
        return;
      }
      var zoom := FitZoom(container.value.width, container.value.height, pageWidth, pageHeight);
      ApplyZoom(zoom);
      CenterContent();
      EmitZoomChanged(zoom);
    }

    /** `toDataURL(options)`: the request made of the canvas, or the error thrown. */
    method ToDataUrl(options: ExportOptions) returns (r: Result<DataUrlRequest, string>)
      ensures r == DataUrlRequestFor(canvas != null, options)
    {
      if canvas == null {
        return Err("Canvas not mounted");
      }
      var format := if options.format == Some(Jpg) then "jpeg" else "png";
      r := Ok(DataUrlRequest(format, OrOne(options.quality), OrOne(options.scale)));
    }
  }
}
