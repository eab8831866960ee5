/**
 * The playground application state of apps/playground/src/App.tsx: the document being
 * edited, the current page index, the footer's zoom percent and the project name, and what
 * its handlers ask of the renderer. React's state setters become field assignments; the
 * renderer is reduced to the calls the handlers make on it, in order.
 */
module Playground {
  import opened Wrappers
  import opened Strings
  import opened Ids
  import opened Documents
  import Devices
  import Templates
  import ZoomHook

  const DefaultWidth: real := 1290.0
  const DefaultHeight: real := 2796.0
  const UntitledProject: string := "未命名项目"

  /** `第 ${n} 页` */
  function PageName(n: nat): string
  {
    "第 " + NatToString(n) + " 页"
  }

  /** A page the playground creates: white, empty, named and sized as given. */
  function BlankPage(id: string, name: string, width: real, height: real): Page
  {
    Page(id, name, width, height, Solid("#ffffff"), [])
  }

  /** `createDefaultDocument()` at time `now`, the document taking serial `next` and its page `next + 1`. */
  function DefaultDocument(next: nat, now: int): Document
  {
    Document(IdAt(next), "1.0.0", UntitledProject, now, now,
             [BlankPage(IdAt(next + 1), PageName(1), DefaultWidth, DefaultHeight)], [])
  }

  /**
   * The default document has exactly one white 1290×2796 page named '第 1 页' with no
   * elements, no assets, and an id different from the document's.
   */
  lemma DefaultDocumentShape(next: nat, now: int)
    ensures var d := DefaultDocument(next, now);
      |d.pages| == 1 && d.assets == [] && d.name == UntitledProject &&
      d.pages[0].width == 1290.0 && d.pages[0].height == 2796.0 && d.pages[0].name == "第 1 页" &&
      d.pages[0].background == Solid("#ffffff") && d.pages[0].elements == [] &&
      d.id != d.pages[0].id
  {
    assert NatToString(1) == "1";
    if IdAt(next) == IdAt(next + 1) {
      IdAtInjective(next, next + 1);
    }
  }

  /** `currentPage?.width || 1290`: no page at the index, or a zero width, falls back. */
  function WidthOr(pages: seq<Page>, index: nat): real
  {
    if index < |pages| && pages[index].width != 0.0 then pages[index].width else DefaultWidth
  }

  function HeightOr(pages: seq<Page>, index: nat): real
  {
    if index < |pages| && pages[index].height != 0.0 then pages[index].height else DefaultHeight
  }

  /** `handleAddPage`'s new document: one more page, sized like the current one. */
  function WithPageAdded(d: Document, index: nat, id: string): Document
  {
    d.(pages := d.pages + [BlankPage(id, PageName(|d.pages| + 1), WidthOr(d.pages, index), HeightOr(d.pages, index))])
  }

  /**
   * Adding a page keeps every earlier page and every other document field, and appends a
   * white empty page named after the new page count, sized like the current page when it
   * exists with a nonzero size; a missing page or a zero side falls back to 1290 wide or
   * 2796 high, side by side.
   */
  lemma AddPageAppends(d: Document, index: nat, id: string)
    ensures var r := WithPageAdded(d, index, id);
      |r.pages| == |d.pages| + 1 && r.pages[..|d.pages|] == d.pages &&
      r.id == d.id && r.name == d.name && r.assets == d.assets &&
      r.pages[|d.pages|].name == PageName(|d.pages| + 1) && r.pages[|d.pages|].id == id &&
      r.pages[|d.pages|].background == Solid("#ffffff") && r.pages[|d.pages|].elements == [] &&
      (index < |d.pages| && d.pages[index].width != 0.0 ==> r.pages[|d.pages|].width == d.pages[index].width) &&
      (index < |d.pages| && d.pages[index].height != 0.0 ==> r.pages[|d.pages|].height == d.pages[index].height) &&
      (index >= |d.pages| || d.pages[index].width == 0.0 ==> r.pages[|d.pages|].width == 1290.0) &&
      (index >= |d.pages| || d.pages[index].height == 0.0 ==> r.pages[|d.pages|].height == 2796.0)
  {
    var r := WithPageAdded(d, index, id);
    assert r.pages[..|d.pages|] == d.pages;
  }

  /** `pages.map((page, i) => i === index ? {...page, width, height} : page)` */
  function ResizePage(pages: seq<Page>, index: nat, width: real, height: real): (r: seq<Page>)
    ensures |r| == |pages|
    ensures forall i :: 0 <= i < |pages| ==>
      r[i] == if i == index then pages[i].(width := width, height := height) else pages[i]
  {
    seq(|pages|, i requires 0 <= i < |pages| =>
      if i == index then pages[i].(width := width, height := height) else pages[i])
  }

  /** Resizing an index past the last page leaves the page list unchanged. */
  lemma ResizePageOutOfRange(pages: seq<Page>, index: nat, width: real, height: real)
    requires index >= |pages|
    ensures ResizePage(pages, index, width, height) == pages
  {
  }

  /** `Math.round(newZoom * 100)`: the `zoom:changed` payload as the footer shows it. */
  function FooterPercent(zoom: real): int
  {
    ZoomHook.ZoomPercent(zoom)
  }

  /** The footer's whole percent `p` goes to the renderer as `p / 100` and comes back as `p`. */
  lemma PercentRoundTrip(p: int)
    ensures FooterPercent(p as real / 100.0) == p
  {
    assert (p as real / 100.0) * 100.0 == p as real;
  }

  /** What a handler asks of the editor's renderer. */
  datatype RendererCall = LoadDocument(document: Document) | SetZoom(zoom: real) | ZoomToFit

  class PlaygroundApp {
    var document: Document
    var currentPageIndex: nat
    /** The footer's zoom, in percent. */
    var zoom: real
    var projectName: string
    /** Whether the editor has been created (the canvas mounted). */
    var editor: bool
    /** The serial the next `generateId` call returns. */
    var next: nat
    var calls: seq<RendererCall>

    /** The first render, at time `now`, with ids drawn from serial `next` on. */
    constructor(next: nat, now: int)
      ensures document == DefaultDocument(next, now) && this.next == next + 2
      ensures currentPageIndex == 0 && zoom == 50.0 && projectName == UntitledProject
      ensures !editor && calls == []
    {
      document := DefaultDocument(next, now);
      this.next := next + 2;
      currentPageIndex := 0;
      zoom := 50.0;
      projectName := UntitledProject;
      editor := false;
      calls := [];
    }

    /** The mount effect: load the document into a new renderer, then zoom to fit. */
    method Mount()
      modifies this
      ensures editor && calls == old(calls) + [LoadDocument(document), ZoomToFit]
      ensures document == old(document) && currentPageIndex == old(currentPageIndex)
      ensures zoom == old(zoom) && projectName == old(projectName) && next == old(next)
    {
      editor := true;
      calls := calls + [LoadDocument(document), ZoomToFit];
    }

    /** The `zoom:changed` listener stores the zoom as a rounded percent. */
    method ZoomChanged(newZoom: real)
      modifies this
      ensures zoom == FooterPercent(newZoom) as real
      ensures document == old(document) && calls == old(calls) && editor == old(editor)
    {
      zoom := FooterPercent(newZoom) as real;
    }

    /** `handleZoomChange(newZoom)`: store the percent, and ask the renderer for `newZoom / 100`. */
    method ZoomChange(newZoom: real)
      modifies this
      ensures zoom == newZoom
      ensures calls == old(calls) + (if editor then [SetZoom(newZoom / 100.0)] else [])
      ensures document == old(document) && editor == old(editor)
    {
      zoom := newZoom;
      if editor {
        calls := calls + [SetZoom(newZoom / 100.0)];
      }
    }

    /** The footer's page selector. */
    method SelectPage(index: nat)
      modifies this
      ensures currentPageIndex == index && document == old(document) && calls == old(calls)
    {
      currentPageIndex := index;
    }

    /** `handleAddPage`: the page goes into the document state only; the renderer is not told. */
    method AddPage()
      modifies this
      ensures document == WithPageAdded(old(document), currentPageIndex, IdAt(old(next)))
      ensures next == old(next) + 1 && calls == old(calls) && currentPageIndex == old(currentPageIndex)
    {
      document := WithPageAdded(document, currentPageIndex, IdAt(next));
      next := next + 1;
    }

    /**
     * `handleDeviceSelect(deviceId)`: nothing happens for an unknown device or before the
     * editor exists; otherwise the current page takes the device's size and the document is
     * reloaded and fitted.
     */
    method DeviceSelect(deviceId: string)
      modifies this
      ensures Devices.GetDeviceById(deviceId).None? || !old(editor) ==>
        document == old(document) && calls == old(calls)
      ensures Devices.GetDeviceById(deviceId).Some? && old(editor) ==>
        var device := Devices.GetDeviceById(deviceId).value;
        document == old(document).(pages := ResizePage(old(document).pages, currentPageIndex,
                                                       device.width as real, device.height as real)) &&
        calls == old(calls) + [LoadDocument(document), ZoomToFit]
      ensures currentPageIndex == old(currentPageIndex) && editor == old(editor) && next == old(next)
    {
      var device := Devices.GetDeviceById(deviceId);
      if device.None? || !editor {
        return;
      }
      var d := device.value;
      document := document.(pages := ResizePage(document.pages, currentPageIndex, d.width as real, d.height as real));
      calls := calls + [LoadDocument(document), ZoomToFit];
    }

    /**
     * `handleTemplateSelect(templateId)` at time `now`: nothing happens for an unknown id;
     * otherwise the template's document replaces the current one, its name becomes the
     * project name, and a mounted editor reloads and fits. The page index is not reset.
     */
    method TemplateSelect(templateId: string, now: int)
      modifies this
      ensures Templates.GetTemplateById(templateId).None? ==>
        document == old(document) && calls == old(calls) && next == old(next) && projectName == old(projectName)
      ensures Templates.GetTemplateById(templateId).Some? ==>
        var t := Templates.GetTemplateById(templateId).value;
        document == Templates.CreateDocument(t, old(next), now) &&
        next == old(next) + 2 + |t.elements| && projectName == document.name &&
        calls == old(calls) + (if editor then [LoadDocument(document), ZoomToFit] else [])
      ensures currentPageIndex == old(currentPageIndex) && editor == old(editor)
    {
      var template := Templates.GetTemplateById(templateId);
      if template.None? {
        return;
      }
      Load(template.value, now);
    }

    /** The part of `handleTemplateSelect` after the lookup succeeded. */
    method Load(t: Templates.Template, now: int)
      modifies this
      ensures document == Templates.CreateDocument(t, old(next), now)
      ensures next == old(next) + 2 + |t.elements| && projectName == document.name
      ensures calls == old(calls) + (if editor then [LoadDocument(document), ZoomToFit] else [])
      ensures currentPageIndex == old(currentPageIndex) && editor == old(editor)
    {
      document := Templates.CreateDocument(t, next, now);
      next := next + 2 + |t.elements|;
      projectName := document.name;
      if editor {
        calls := calls + [LoadDocument(document), ZoomToFit];
      }
    }
  }

  /**
   * Because the page index survives a template switch, selecting page 2 of a three-page
   * document and then a template leaves the index past the template's single page, so the
   * next device selection resizes no page at all.
   */
  lemma TemplateSwitchKeepsStaleIndex(t: Templates.Template, next: nat, now: int, index: nat,
                                      width: real, height: real)
    requires index >= 1
    ensures var d := Templates.CreateDocument(t, next, now);
      ResizePage(d.pages, index, width, height) == d.pages
  {
    Templates.CreateDocumentShape(t, next, now);
    ResizePageOutOfRange(Templates.CreateDocument(t, next, now).pages, index, width, height);
  }
}
