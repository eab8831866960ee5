/**
 * The editor facade of packages/editor/src/Editor.ts: every element change goes through
 * the history as a command; the clipboard and the shortcuts share the editor's renderer.
 */
module EditorCore {
  import opened Wrappers
  import opened JsValues
  import opened Renderers
  import opened Commands
  import opened History
  import opened Ids
  import opened Clipboard
  import opened Shortcuts

  /** The history cap the editor's `new HistoryManager()` gets by default. */
  const DefaultMaxHistory: int := 50

  /**
   * One `removeElement(id)` on stacks and store: nothing when the renderer cannot resolve
   * the id, otherwise one `RemoveElementCommand` holding the whole element.
   */
  function RemoveStep(b: Backend, s: Stacks, els: seq<Record>, id: string, maxHistory: int): (Stacks, seq<Record>)
  {
    var found := if b == InMemory then FindById(els, id) else None;
    if found.None? then (s, els)
    else (AfterExecute(s, RemoveElementCommand(found.value), maxHistory), RemoveById(els, id))
  }

  /** `ids.forEach(id => removeElement(id))`, in selection order. */
  function RemoveEachStep(b: Backend, s: Stacks, els: seq<Record>, ids: seq<string>, maxHistory: int): (Stacks, seq<Record>)
    decreases |ids|
  {
    if |ids| == 0 then (s, els)
    else
      var next := RemoveStep(b, s, els, ids[0], maxHistory);
      RemoveEachStep(b, next.0, next.1, ids[1..], maxHistory)
  }

  /** Removing an id the store does not hold records nothing. */
  lemma RemoveUnknownIsNoop(b: Backend, s: Stacks, els: seq<Record>, id: string, maxHistory: int)
    requires NoneHasId(els, id)
    ensures RemoveStep(b, s, els, id, maxHistory) == (s, els)
  {
  }

  /**
   * Removing the selection records one command per resolvable id, so with a cap that is
   * not reached, `|ids|` distinct present ids add `|ids|` undo entries.
   */
  lemma {:induction false} RemoveEachCount(s: Stacks, els: seq<Record>, ids: seq<string>, maxHistory: int)
    requires forall i :: 0 <= i < |ids| ==> !NoneHasId(els, ids[i])
    requires forall i, j :: 0 <= i < j < |ids| ==> ids[i] != ids[j]
    requires |s.undo| + |ids| <= maxHistory
    ensures |RemoveEachStep(InMemory, s, els, ids, maxHistory).0.undo| == |s.undo| + |ids|
    decreases |ids|
  {
    if |ids| > 0 {
      var next := RemoveStep(InMemory, s, els, ids[0], maxHistory);
      assert next.0.undo == s.undo + [RemoveElementCommand(FindById(els, ids[0]).value)];
      forall i | 0 <= i < |ids[1..]| ensures !NoneHasId(next.1, ids[1..][i]) {
        RemoveKeepsOthers(els, ids[0], ids[1..][i]);
      }
      RemoveEachCount(next.0, next.1, ids[1..], maxHistory);
    }
  }

  /** Removing one id keeps every element with another id. */
  lemma {:induction false} RemoveKeepsOthers(els: seq<Record>, removed: string, id: string)
    requires !NoneHasId(els, id) && removed != id
    ensures !NoneHasId(RemoveById(els, removed), id)
    decreases |els|
  {
    if HasId(els[0], id) {
      assert RemoveById(els, removed)[0] == els[0];
    } else {
      assert !NoneHasId(els[1..], id) by {
        var k :| 0 <= k < |els| && HasId(els[k], id);
        assert els[1..][k - 1] == els[k];
      }
      RemoveKeepsOthers(els[1..], removed, id);
      var rest := RemoveById(els[1..], removed);
      var k :| 0 <= k < |rest| && HasId(rest[k], id);
      if HasId(els[0], removed) {
        assert RemoveById(els, removed) == rest;
      } else {
        assert RemoveById(els, removed)[k + 1] == rest[k];
      }
    }
  }

  class Editor {
    const renderer: Renderer
    const history: HistoryManager
    const shortcuts: ShortcutManager
    const clipboard: ClipboardManager
    const ids: IdSource

    ghost predicate Valid()
      reads this, history
    {
      history.Valid() && clipboard.renderer == renderer && clipboard.ids == ids
    }

    /** The history still holds the stacks `s`. */
    ghost predicate Unrecorded(s: Stacks)
      reads history
    {
      history.undoStack == s.undo && history.redoStack == s.redo
    }

    /**
     * `new Editor({renderer, enableShortcuts})`: a fresh history and a clipboard on the same
     * renderer; the default shortcuts unless `enableShortcuts` is `false`.
     */
    constructor(renderer: Renderer, enableShortcuts: Value, hasWindow: bool)
      ensures Valid() && this.renderer == renderer
      ensures fresh(history) && fresh(shortcuts) && fresh(clipboard) && fresh(ids)
      ensures history.undoStack == [] && history.redoStack == [] && history.maxHistory == DefaultMaxHistory
      ensures clipboard.clipboard == []
      ensures shortcuts.shortcuts == (if enableShortcuts == Bool(false) then [] else Defaults)
      ensures shortcuts.attached == hasWindow && shortcuts.hasWindow == hasWindow
    {
      this.renderer := renderer;
      var h := new HistoryManager(DefaultMaxHistory);
      var i := new IdSource();
      var c := new ClipboardManager(renderer, i);
      var s := new ShortcutManager(hasWindow);
      if enableShortcuts != Bool(false) {
        s.RegisterDefaults();
      }
      history := h;
      ids := i;
      clipboard := c;
      shortcuts := s;
    }

    /** `addElement(e)`: always one `AddElementCommand` through the history. */
    method AddElement(e: Record)
      requires Valid() && HasStringId(e)
      modifies history, renderer
      ensures Valid()
      ensures Stacks(history.undoStack, history.redoStack)
        == AfterExecute(old(Stacks(history.undoStack, history.redoStack)), AddElementCommand(e), history.maxHistory)
      ensures renderer.elements == Executed(renderer.backend, AddElementCommand(e), old(renderer.elements))
      ensures renderer.selection == old(renderer.selection)
    {
      history.Execute(AddElementCommand(e), renderer);
    }

    /**
     * `updateElement(id, props)`: a no-op when the id does not resolve; otherwise record the
     * old value of every key of `props` the element has, and execute the update.
     */
    method UpdateElement(id: string, props: Record)
      requires Valid()
      modifies history, renderer
      ensures Valid()
      ensures old(renderer.GetElement(id)).None? ==>
        history.undoStack == old(history.undoStack) && history.redoStack == old(history.redoStack)
        && renderer.elements == old(renderer.elements)
      ensures old(renderer.GetElement(id)).Some? ==>
        var c := UpdateElementCommand(id, props, Snapshot(old(renderer.GetElement(id)).value, props));
        Stacks(history.undoStack, history.redoStack)
          == AfterExecute(old(Stacks(history.undoStack, history.redoStack)), c, history.maxHistory)
        && renderer.elements == Executed(renderer.backend, c, old(renderer.elements))
      ensures renderer.selection == old(renderer.selection)
    {
      var oldElement := renderer.GetElement(id);
      if oldElement.None? {
        return;
      }
      var before := oldElement.value;
      var oldProps: Record := map[];
      var keys := props.Keys;
      while keys != {}
        invariant keys <= props.Keys
        invariant oldProps == map k | k in (props.Keys - keys) * before.Keys :: before[k]
        decreases keys
      {
        var key :| key in keys;
        if key in before {
          oldProps := oldProps[key := before[key]];
        }
        keys := keys - {key};
      }
      assert oldProps == Snapshot(before, props);
      history.Execute(UpdateElementCommand(id, props, oldProps), renderer);
    }

    /** `removeElement(id)`: a no-op for an unknown id, else one command with the whole element. */
    method RemoveElement(id: string)
      requires Valid()
      modifies history, renderer
      ensures Valid()
      ensures (Stacks(history.undoStack, history.redoStack), renderer.elements)
        == RemoveStep(renderer.backend, old(Stacks(history.undoStack, history.redoStack)), old(renderer.elements),
                      id, history.maxHistory)
      ensures renderer.selection == old(renderer.selection)
    {
      var element := renderer.GetElement(id);
      if element.None? {
        return;
      }
      assert IdOf(element.value) == id;
      history.Execute(RemoveElementCommand(element.value), renderer);
    }

    /** `removeSelectedElements()`: one `removeElement` per selected id, in selection order. */
    method RemoveSelectedElements()
      requires Valid()
      modifies history, renderer
      ensures Valid()
      ensures (Stacks(history.undoStack, history.redoStack), renderer.elements)
        == RemoveEachStep(renderer.backend, old(Stacks(history.undoStack, history.redoStack)),
                          old(renderer.elements), old(renderer.GetSelection()), history.maxHistory)
      ensures renderer.selection == old(renderer.selection)
    {
      var selected := renderer.GetSelection();
      var i := 0;
      while i < |selected|
        invariant 0 <= i <= |selected| && Valid()
        invariant renderer.selection == old(renderer.selection)
        invariant RemoveEachStep(renderer.backend, Stacks(history.undoStack, history.redoStack), renderer.elements,
                                 selected[i..], history.maxHistory)
          == RemoveEachStep(renderer.backend, old(Stacks(history.undoStack, history.redoStack)),
                            old(renderer.elements), selected, history.maxHistory)
      {
        assert selected[i..][1..] == selected[i + 1..];
        RemoveElement(selected[i]);
        i := i + 1;
      }
    }

    /** `undo()`: the history's result is discarded. */
    method Undo()
      requires Valid()
      modifies history, renderer
      ensures Valid()
      ensures Stacks(history.undoStack, history.redoStack) == AfterUndo(old(Stacks(history.undoStack, history.redoStack))).0
      ensures renderer.elements == if |old(history.undoStack)| == 0 then old(renderer.elements)
        else Undone(renderer.backend, old(history.undoStack[|history.undoStack| - 1]), old(renderer.elements))
      ensures renderer.selection == old(renderer.selection)
    {
      var _ := history.Undo(renderer);
    }

    /** `redo()`: the history's result is discarded. */
    method Redo()
      requires Valid()
      modifies history, renderer
      ensures Valid()
      ensures Stacks(history.undoStack, history.redoStack) == AfterRedo(old(Stacks(history.undoStack, history.redoStack))).0
      ensures renderer.elements == if |old(history.redoStack)| == 0 then old(renderer.elements)
        else Executed(renderer.backend, old(history.redoStack[|history.redoStack| - 1]), old(renderer.elements))
      ensures renderer.selection == old(renderer.selection)
    {
      var _ := history.Redo(renderer);
    }

    /**
     * A keydown reaching the window: when the handler is attached, run the action of the
     * first matching shortcut. A `Custom` action is a closure outside this model.
     */
    method HandleKey(e: KeyEvent) returns (action: Option<Action>)
      requires Valid()
      modifies history, renderer
      ensures Valid()
      ensures action == if shortcuts.attached then Dispatch(shortcuts.shortcuts, e) else None
      ensures action == Some(Action.Undo) ==>
        Stacks(history.undoStack, history.redoStack) == AfterUndo(old(Stacks(history.undoStack, history.redoStack))).0
        && renderer.elements == (if |old(history.undoStack)| == 0 then old(renderer.elements)
             else Undone(renderer.backend, old(history.undoStack[|history.undoStack| - 1]), old(renderer.elements)))
        && renderer.selection == old(renderer.selection)
      ensures action == Some(Action.Redo) ==>
        Stacks(history.undoStack, history.redoStack) == AfterRedo(old(Stacks(history.undoStack, history.redoStack))).0
        && renderer.elements == (if |old(history.redoStack)| == 0 then old(renderer.elements)
             else Executed(renderer.backend, old(history.redoStack[|history.redoStack| - 1]), old(renderer.elements)))
        && renderer.selection == old(renderer.selection)
      ensures action == Some(Action.SelectAll) ==>
        Unrecorded(old(Stacks(history.undoStack, history.redoStack))) && renderer.elements == old(renderer.elements)
        && renderer.selection == (if renderer.backend == InMemory then IdsOf(renderer.elements) else old(renderer.selection))
      ensures action == Some(Action.ClearSelection) ==>
        Unrecorded(old(Stacks(history.undoStack, history.redoStack))) && renderer.elements == old(renderer.elements)
        && renderer.selection == (if renderer.backend == InMemory then [] else old(renderer.selection))
      ensures action == Some(Action.RemoveSelected) ==>
        (Stacks(history.undoStack, history.redoStack), renderer.elements)
          == RemoveEachStep(renderer.backend, old(Stacks(history.undoStack, history.redoStack)),
                            old(renderer.elements), old(renderer.GetSelection()), history.maxHistory)
        && renderer.selection == old(renderer.selection)
      ensures action.None? || action.value.Custom? ==>
        Unrecorded(old(Stacks(history.undoStack, history.redoStack)))
        && renderer.elements == old(renderer.elements) && renderer.selection == old(renderer.selection)
    {
      if !shortcuts.attached {
        return None;
      }
      var prevented;
      action, prevented := shortcuts.HandleKeyDown(e);
      if action.Some? {
        match action.value
        case Undo => Undo();
        case Redo => Redo();
        case SelectAll => renderer.SelectAll();
        case ClearSelection => renderer.ClearSelection();
        case RemoveSelected => RemoveSelectedElements();
        case Custom(_) =>
      }
    }

    /** `copy()` */
    method Copy()
      requires Valid()
      modifies clipboard
      ensures clipboard.clipboard == if |renderer.GetSelection()| == 0 then old(clipboard.clipboard)
                                     else ResolveAll(renderer, renderer.GetSelection())
    {
      clipboard.Copy();
    }

    /** `paste()`: the clipboard's paste with its default offset of 20. */
    method Paste()
      requires Valid()
      modifies renderer, ids
      ensures clipboard.clipboard == old(clipboard.clipboard)
      ensures ids.next == if |clipboard.clipboard| == 0 then old(ids.next)
                          else NextFree(IdsOf(old(renderer.elements)), old(ids.next)) + |clipboard.clipboard|
      ensures renderer.elements ==
        if renderer.backend == InMemory
        then old(renderer.elements)
             + PastedCopies(clipboard.clipboard, NextFree(IdsOf(old(renderer.elements)), old(ids.next)), 20.0)
        else old(renderer.elements)
      ensures renderer.backend == InMemory && UniqueIds(old(renderer.elements)) ==> UniqueIds(renderer.elements)
      ensures renderer.selection ==
        if renderer.backend == InMemory && |clipboard.clipboard| > 0
        then FreshIds(NextFree(IdsOf(old(renderer.elements)), old(ids.next)), |clipboard.clipboard|)
        else old(renderer.selection)
    {
      var _ := clipboard.Paste(20.0);
    }

    /** `cut()`: bypasses the history. */
    method Cut()
      requires Valid()
      modifies clipboard, renderer
      ensures renderer.elements == if renderer.backend == InMemory
                                   then RemoveEach(old(renderer.elements), old(renderer.selection))
                                   else old(renderer.elements)
      ensures clipboard.clipboard == if |old(renderer.GetSelection())| == 0 then old(clipboard.clipboard)
                                     else old(ResolveAll(renderer, renderer.GetSelection()))
      ensures renderer.selection == old(renderer.selection)
    {
      clipboard.Cut();
    }

    /** `duplicate()` */
    method Duplicate()
      requires Valid()
      modifies clipboard, renderer, ids
      ensures clipboard.clipboard == if |old(renderer.GetSelection())| == 0 then old(clipboard.clipboard)
                                     else old(ResolveAll(renderer, renderer.GetSelection()))
      ensures ids.next == if |clipboard.clipboard| == 0 then old(ids.next)
                          else NextFree(IdsOf(old(renderer.elements)), old(ids.next)) + |clipboard.clipboard|
      ensures renderer.elements ==
        if renderer.backend == InMemory
        then old(renderer.elements)
             + PastedCopies(clipboard.clipboard, NextFree(IdsOf(old(renderer.elements)), old(ids.next)), 30.0)
        else old(renderer.elements)
      ensures renderer.backend == InMemory && UniqueIds(old(renderer.elements)) ==> UniqueIds(renderer.elements)
      ensures renderer.selection ==
        if renderer.backend == InMemory && |clipboard.clipboard| > 0
        then FreshIds(NextFree(IdsOf(old(renderer.elements)), old(ids.next)), |clipboard.clipboard|)
        else old(renderer.selection)
    {
      var _ := clipboard.Duplicate();
    }

    /** `destroy()`: the shortcuts are torn down, then the renderer. */
    method Destroy()
      modifies shortcuts, renderer
      ensures renderer.destroyed
      ensures shortcuts.attached == (old(shortcuts.attached) && !shortcuts.hasWindow)
    {
      shortcuts.Destroy();
      renderer.Destroy();
    }
  }
}
