/**
 * The clipboard of packages/editor/src/clipboard/ClipboardManager.ts. `deepClone` is value
 * copy (elements are values here), `generateId` is the `IdSource` oracle, and the awaited
 * `addElement` calls of `paste` run one after another.
 */
module Clipboard {
  import opened JsValues
  import opened Renderers
  import opened Ids

  /** `ids.map(getElement).filter(el => el !== null)` */
  function ResolveAll(r: Renderer, ids: seq<string>): (els: seq<Record>)
    reads r
    ensures |els| <= |ids|
    ensures forall i :: 0 <= i < |els| ==> els[i] in r.elements
  {
    if |ids| == 0 then []
    else
      var head := r.GetElement(ids[0]);
      (if head.Some? then [head.value] else []) + ResolveAll(r, ids[1..])
  }

  /** When every id resolves, the copies are the looked-up elements in selection order. */
  lemma {:induction false} ResolveAllComplete(r: Renderer, ids: seq<string>)
    requires forall i :: 0 <= i < |ids| ==> r.GetElement(ids[i]).Some?
    ensures |ResolveAll(r, ids)| == |ids|
    ensures forall i :: 0 <= i < |ids| ==> ResolveAll(r, ids)[i] == r.GetElement(ids[i]).value
    decreases |ids|
  {
    if |ids| > 0 {
      ResolveAllComplete(r, ids[1..]);
    }
  }

  /** Ids that do not resolve are dropped: on the Fabric stub nothing is ever copied. */
  lemma {:induction false} ResolveAllStub(r: Renderer, ids: seq<string>)
    requires r.backend == FabricStub
    ensures ResolveAll(r, ids) == []
    decreases |ids|
  {
    if |ids| > 0 {
      ResolveAllStub(r, ids[1..]);
    }
  }

  /** The clone `paste` adds: a new id, and `x` and `y` shifted by the offset. */
  function PastedCopy(original: Record, id: string, offset: real): (e: Record)
    ensures HasId(e, id)
  {
    original[Id := Str(id)][X := AddNumber(Get(original, X), offset)][Y := AddNumber(Get(original, Y), offset)]
  }

  /** A pasted copy differs from its original only in id and position. */
  lemma PastedCopyChanges(original: Record, id: string, offset: real)
    ensures var e := PastedCopy(original, id, offset);
      e.Keys == original.Keys + {Id, X, Y}
      && (forall k :: k in original && k != Id && k != X && k != Y ==> e[k] == original[k])
      && (Get(original, X).Num? ==> e[X] == Num(Get(original, X).n + offset))
      && (Get(original, Y).Num? ==> e[Y] == Num(Get(original, Y).n + offset))
  {
  }

  /** The clones `paste(offset)` adds for a clipboard, under the ids handed out from serial `start`. */
  function PastedCopies(clip: seq<Record>, start: nat, offset: real): (pasted: seq<Record>)
    ensures |pasted| == |clip|
    ensures forall j :: 0 <= j < |clip| ==> HasId(pasted[j], IdAt(start + j))
  {
    seq(|clip|, j requires 0 <= j < |clip| => PastedCopy(clip[j], IdAt(start + j), offset))
  }

  /** The ids of elements that all carry one. */
  function IdsOfAll(els: seq<Record>): (ids: seq<string>)
    requires forall i :: 0 <= i < |els| ==> HasStringId(els[i])
    ensures |ids| == |els|
    ensures forall i :: 0 <= i < |els| ==> HasId(els[i], ids[i])
  {
    seq(|els|, i requires 0 <= i < |els| => IdOf(els[i]))
  }

  /** The ids `n` successive `generateId()` calls hand out from serial `start` on. */
  function FreshIds(start: nat, n: nat): (ids: seq<string>)
    ensures |ids| == n && forall j :: 0 <= j < n ==> ids[j] == IdAt(start + j)
  {
    seq(n, j requires 0 <= j < n => IdAt(start + j))
  }

  /** No two of the ids successive `generateId()` calls hand out are equal. */
  lemma FreshIdsDistinct(start: nat, n: nat)
    ensures var ids := FreshIds(start, n); forall j, k :: 0 <= j < k < n ==> ids[j] != ids[k]
  {
    var ids := FreshIds(start, n);
    forall j, k | 0 <= j < k < n ensures ids[j] != ids[k] {
      if ids[j] == ids[k] {
        IdAtInjective(start + j, start + k);
      }
    }
  }

  /**
   * The clones a paste adds to a document holding the ids `avoid` have ids that are new to
   * the document and pairwise different.
   */
  lemma PastedCopiesFresh(clip: seq<Record>, avoid: seq<string>, next: nat, offset: real)
    ensures var pasted := PastedCopies(clip, NextFree(avoid, next), offset);
      (forall j :: 0 <= j < |pasted| ==> HasStringId(pasted[j]) && IdOf(pasted[j]) !in avoid)
      && UniqueIds(pasted)
      && IdsOfAll(pasted) == FreshIds(NextFree(avoid, next), |pasted|)
  {
    var start := NextFree(avoid, next);
    var pasted := PastedCopies(clip, start, offset);
    var ids := FreshIds(start, |clip|);
    FreshIdsDistinct(start, |clip|);
    forall j | 0 <= j < |clip| ensures HasId(pasted[j], ids[j]) && ids[j] !in avoid {
      NextFreeIsFree(avoid, next, start + j);
    }
  }

  /**
   * Appending elements whose ids are new to the store and pairwise different keeps the
   * store's ids unique.
   */
  lemma AppendFreshKeepsUnique(els: seq<Record>, added: seq<Record>)
    requires UniqueIds(els) && UniqueIds(added)
    requires forall j :: 0 <= j < |added| ==> HasStringId(added[j]) && IdOf(added[j]) !in IdsOf(els)
    ensures UniqueIds(els + added)
  {
    IdsOfContents(els);
    var all := els + added;
    forall i, j | 0 <= i < j < |all| && HasStringId(all[i]) && HasStringId(all[j])
      ensures all[i][Id] != all[j][Id]
    {
      if j >= |els| && i < |els| {
        assert all[i] == els[i] && all[j] == added[j - |els|];
        assert IdOf(all[i]) in IdsOf(els);
      } else if i >= |els| {
        assert all[i] == added[i - |els|] && all[j] == added[j - |els|];
      } else {
        assert all[i] == els[i] && all[j] == els[j];
      }
    }
  }

  /** The store after `removeElement` is called for each id in turn. */
  function RemoveEach(els: seq<Record>, ids: seq<string>): seq<Record>
    decreases |ids|
  {
    if |ids| == 0 then els else RemoveEach(RemoveById(els, ids[0]), ids[1..])
  }

  /** Removing each id leaves no element with any of them. */
  lemma {:induction false} RemoveEachClears(els: seq<Record>, ids: seq<string>)
    ensures forall i :: 0 <= i < |ids| ==> NoneHasId(RemoveEach(els, ids), ids[i])
    decreases |ids|
  {
    if |ids| > 0 {
      var rest := RemoveById(els, ids[0]);
      RemoveEachClears(rest, ids[1..]);
      RemoveEachKeepsAbsent(rest, ids[1..], ids[0]);
      forall i | 1 <= i < |ids| ensures NoneHasId(RemoveEach(els, ids), ids[i]) {
        assert ids[1..][i - 1] == ids[i];
      }
    }
  }

  /** Removing ids never brings back an id that was absent. */
  lemma {:induction false} RemoveEachKeepsAbsent(els: seq<Record>, ids: seq<string>, id: string)
    requires NoneHasId(els, id)
    ensures NoneHasId(RemoveEach(els, ids), id)
    decreases |ids|
  {
    if |ids| > 0 {
      RemoveAbsent(els, id);
      RemoveKeepsAbsent(els, ids[0], id);
      RemoveEachKeepsAbsent(RemoveById(els, ids[0]), ids[1..], id);
    }
  }

  lemma {:induction false} RemoveKeepsAbsent(els: seq<Record>, removed: string, id: string)
    requires NoneHasId(els, id)
    ensures NoneHasId(RemoveById(els, removed), id)
    decreases |els|
  {
    if |els| > 0 {
      assert NoneHasId(els[1..], id) by {
        forall i | 0 <= i < |els| - 1 ensures !HasId(els[1..][i], id) {
          assert els[1..][i] == els[i + 1];
        }
      }
      RemoveKeepsAbsent(els[1..], removed, id);
    }
  }

  class ClipboardManager {
    var clipboard: seq<Record>
    const renderer: Renderer
    const ids: IdSource

    /** `new ClipboardManager(renderer)`: the clipboard starts empty. */
    constructor(renderer: Renderer, ids: IdSource)
      ensures clipboard == [] && this.renderer == renderer && this.ids == ids
      ensures !HasContent()
    {
      clipboard := [];
      this.renderer := renderer;
      this.ids := ids;
    }

    /** `hasContent()` */
    predicate HasContent()
      reads this
      ensures HasContent() <==> clipboard != []
    {
      |clipboard| > 0
    }

    /** `copy()`: an empty selection keeps the old clipboard; otherwise copy what resolves. */
    method Copy()
      modifies this
      ensures clipboard == if |renderer.GetSelection()| == 0 then old(clipboard)
                           else ResolveAll(renderer, renderer.GetSelection())
    {
      var selected := renderer.GetSelection();
      if |selected| == 0 {
        return;
      }
      clipboard := ResolveAll(renderer, selected);
    }

    /**
     * `paste(offset)`: add a shifted clone of every clipboard element under a fresh id, then
     * select the clones. The clipboard itself is not changed, so pastes do not compound. The
     * new ids are in no element of the document and differ from each other, so a document
     * whose ids were unique keeps them unique.
     */
    method Paste(offset: real) returns (pasted: seq<Record>)
      modifies renderer, ids
      ensures pasted == PastedCopies(clipboard, NextFree(IdsOf(old(renderer.elements)), old(ids.next)), offset)
      ensures ids.next == if |pasted| == 0 then old(ids.next)
                          else NextFree(IdsOf(old(renderer.elements)), old(ids.next)) + |pasted|
      ensures forall j :: 0 <= j < |pasted| ==> HasStringId(pasted[j]) && IdOf(pasted[j]) !in IdsOf(old(renderer.elements))
      ensures UniqueIds(pasted)
      ensures renderer.elements == if renderer.backend == InMemory then old(renderer.elements) + pasted
                                   else old(renderer.elements)
      ensures renderer.backend == InMemory && UniqueIds(old(renderer.elements)) ==> UniqueIds(renderer.elements)
      ensures renderer.selection ==
        if renderer.backend == InMemory && |pasted| > 0
        then FreshIds(NextFree(IdsOf(old(renderer.elements)), old(ids.next)), |pasted|)
        else old(renderer.selection)
      ensures renderer.destroyed == old(renderer.destroyed)
    {
      pasted := [];
      if |clipboard| == 0 {
        return;
      }
      var existing := IdsOf(renderer.elements);
      pasted := AddCopies(offset, existing);
      PastedCopiesFresh(clipboard, existing, old(ids.next), offset);
      if renderer.backend == InMemory && UniqueIds(old(renderer.elements)) {
        AppendFreshKeepsUnique(old(renderer.elements), pasted);
      }
      if |pasted| > 0 {
        var selected := IdsOfAll(pasted);
        renderer.Select(selected);
      }
    }

    /** The loop of `paste`: clone, re-id, shift and add each clipboard element in turn. */
    method AddCopies(offset: real, existing: seq<string>) returns (pasted: seq<Record>)
      requires |clipboard| > 0
      modifies renderer, ids
      ensures pasted == PastedCopies(clipboard, NextFree(existing, old(ids.next)), offset)
      ensures ids.next == NextFree(existing, old(ids.next)) + |clipboard|
      ensures renderer.elements == if renderer.backend == InMemory then old(renderer.elements) + pasted
                                   else old(renderer.elements)
      ensures renderer.selection == old(renderer.selection) && renderer.destroyed == old(renderer.destroyed)
    {
      ghost var start := NextFree(existing, ids.next);
      pasted := [];
      var i := 0;
      while i < |clipboard|
        invariant 0 <= i <= |clipboard| && |pasted| == i
        invariant ids.next == if i == 0 then old(ids.next) else start + i
        invariant forall j :: 0 <= j < i ==> pasted[j] == PastedCopy(clipboard[j], IdAt(start + j), offset)
        invariant renderer.elements == if renderer.backend == InMemory then old(renderer.elements) + pasted
                                       else old(renderer.elements)
        invariant renderer.selection == old(renderer.selection)
        invariant renderer.destroyed == old(renderer.destroyed)
      {
        var id := ids.Generate(existing);
        var e := PastedCopy(clipboard[i], id, offset);
        renderer.AddElement(e);
        pasted := pasted + [e];
        i := i + 1;
      }
      assert pasted == PastedCopies(clipboard, start, offset);
    }

    /** `duplicate()`: copy, then paste with offset 30. */
    method Duplicate() returns (pasted: seq<Record>)
      modifies this, renderer, ids
      ensures clipboard == if |old(renderer.GetSelection())| == 0 then old(clipboard)
                           else old(ResolveAll(renderer, renderer.GetSelection()))
      ensures pasted == PastedCopies(clipboard, NextFree(IdsOf(old(renderer.elements)), old(ids.next)), 30.0)
      ensures ids.next == if |pasted| == 0 then old(ids.next)
                          else NextFree(IdsOf(old(renderer.elements)), old(ids.next)) + |pasted|
      ensures forall j :: 0 <= j < |pasted| ==> HasStringId(pasted[j]) && IdOf(pasted[j]) !in IdsOf(old(renderer.elements))
      ensures UniqueIds(pasted)
      ensures renderer.elements == if renderer.backend == InMemory then old(renderer.elements) + pasted
                                   else old(renderer.elements)
      ensures renderer.backend == InMemory && UniqueIds(old(renderer.elements)) ==> UniqueIds(renderer.elements)
      ensures renderer.selection ==
        if renderer.backend == InMemory && |pasted| > 0
        then FreshIds(NextFree(IdsOf(old(renderer.elements)), old(ids.next)), |pasted|)
        else old(renderer.selection)
    {
      Copy();
      pasted := Paste(30.0);
    }

    /** `cut()`: copy, then remove every selected id directly, with no history entry. */
    method Cut()
      modifies this, renderer
      ensures clipboard == if |old(renderer.GetSelection())| == 0 then old(clipboard)
                           else old(ResolveAll(renderer, renderer.GetSelection()))
      ensures renderer.elements == if renderer.backend == InMemory
                                   then RemoveEach(old(renderer.elements), old(renderer.selection))
                                   else old(renderer.elements)
      ensures renderer.selection == old(renderer.selection)
    {
      Copy();
      ghost var copied := clipboard;
      var selected := renderer.GetSelection();
      var i := 0;
      while i < |selected|
        invariant 0 <= i <= |selected| && clipboard == copied
        invariant renderer.backend == InMemory ==>
          RemoveEach(renderer.elements, selected[i..]) == RemoveEach(old(renderer.elements), selected)
        invariant renderer.backend == FabricStub ==> renderer.elements == old(renderer.elements)
        invariant renderer.selection == old(renderer.selection)
      {
        assert selected[i..][1..] == selected[i + 1..];
        renderer.RemoveElement(selected[i]);
        i := i + 1;
      }
    }

    /** `clear()` */
    method Clear()
      modifies this
      ensures clipboard == [] && !HasContent()
    {
      clipboard := [];
    }
  }
}
