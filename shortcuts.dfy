/**
 * The keyboard shortcuts of packages/editor/src/shortcuts/ShortcutManager.ts. A shortcut's
 * action closure is named by an `Action`; the manager reports which action the first
 * matching shortcut carries, and the editor performs it.
 */
module Shortcuts {
  import opened Wrappers
  import opened Strings

  /** The editor calls the default shortcuts make; `Custom` stands for any other closure. */
  datatype Action = Undo | Redo | SelectAll | ClearSelection | RemoveSelected | Custom(tag: nat)

  /** A registration; an omitted `ctrl`, `shift` or `alt` flag is false. */
  datatype Shortcut = Shortcut(key: string, ctrl: bool, shift: bool, alt: bool, action: Action)

  /** The fields of a `KeyboardEvent` the handler reads, with the target's tag name. */
  datatype KeyEvent = KeyEvent(key: string, ctrlKey: bool, metaKey: bool, shiftKey: bool, altKey: bool,
                               targetTag: string)

  /**
   * The match test of `handleKeyDown`: keys equal ignoring case, shift and alt equal, and
   * ctrl satisfied when either the Ctrl or the Meta key agrees with the shortcut's flag.
   */
  predicate Matches(s: Shortcut, e: KeyEvent)
  {
    Lower(e.key) == Lower(s.key)
    && (e.ctrlKey == s.ctrl || e.metaKey == s.ctrl)
    && e.shiftKey == s.shift
    && e.altKey == s.alt
  }

  /** Events typed into a text field are not shortcuts. */
  predicate InTextField(e: KeyEvent)
  {
    e.targetTag == "INPUT" || e.targetTag == "TEXTAREA"
  }

  /** The index of the first shortcut that matches the event. */
  function FirstMatch(shortcuts: seq<Shortcut>, e: KeyEvent, from: nat): (r: Option<nat>)
    requires from <= |shortcuts|
    ensures r.Some? ==> from <= r.value < |shortcuts| && Matches(shortcuts[r.value], e)
    ensures forall j :: from <= j < |shortcuts| && (r.None? || j < r.value) ==> !Matches(shortcuts[j], e)
    decreases |shortcuts| - from
  {
    if from == |shortcuts| then None
    else if Matches(shortcuts[from], e) then Some(from)
    else FirstMatch(shortcuts, e, from + 1)
  }

  /** The action `handleKeyDown(e)` runs, if any. */
  function Dispatch(shortcuts: seq<Shortcut>, e: KeyEvent): (a: Option<Action>)
    ensures InTextField(e) ==> a.None?
    ensures !InTextField(e) && (exists i :: 0 <= i < |shortcuts| && Matches(shortcuts[i], e)) ==> a.Some?
    ensures a.Some? ==>
      exists i :: 0 <= i < |shortcuts| && Matches(shortcuts[i], e) && shortcuts[i].action == a.value
                  && forall j :: 0 <= j < i ==> !Matches(shortcuts[j], e)
  {
    if InTextField(e) then None
    else
      var i := FirstMatch(shortcuts, e, 0);
      if i.Some? then Some(shortcuts[i.value].action) else None
  }

  /** The seven shortcuts `registerDefaults` adds, in order. */
  const Defaults: seq<Shortcut> := [
    Shortcut("z", true, false, false, Undo),
    Shortcut("z", true, true, false, Redo),
    Shortcut("y", true, false, false, Redo),
    Shortcut("a", true, false, false, SelectAll),
    Shortcut("Escape", false, false, false, ClearSelection),
    Shortcut("Delete", false, false, false, RemoveSelected),
    Shortcut("Backspace", false, false, false, RemoveSelected)]

  /** Appending shortcuts never changes which earlier one wins. */
  lemma {:induction false} EarlierWins(shortcuts: seq<Shortcut>, more: seq<Shortcut>, e: KeyEvent)
    requires Dispatch(shortcuts, e).Some?
    ensures Dispatch(shortcuts + more, e) == Dispatch(shortcuts, e)
  {
    var i := FirstMatch(shortcuts, e, 0).value;
    assert (shortcuts + more)[i] == shortcuts[i];
  }

  /** Ctrl+Z is undo, Ctrl+Shift+Z and Ctrl+Y are redo, and Cmd works as Ctrl. */
  lemma DefaultBindings()
    ensures Dispatch(Defaults, KeyEvent("z", true, false, false, false, "DIV")) == Some(Undo)
    ensures Dispatch(Defaults, KeyEvent("Z", false, true, true, false, "DIV")) == Some(Redo)
    ensures Dispatch(Defaults, KeyEvent("y", true, false, false, false, "CANVAS")) == Some(Redo)
    ensures Dispatch(Defaults, KeyEvent("z", true, false, false, false, "INPUT")) == None
  {
    assert Lower("Z") == "z";
    assert Matches(Defaults[0], KeyEvent("z", true, false, false, false, "DIV"));
    assert !Matches(Defaults[0], KeyEvent("Z", false, true, true, false, "DIV"));
    assert Matches(Defaults[1], KeyEvent("Z", false, true, true, false, "DIV"));
    assert Lower("y") == "y" && Lower("z") == "z";
    assert !Matches(Defaults[0], KeyEvent("y", true, false, false, false, "CANVAS"));
    assert !Matches(Defaults[1], KeyEvent("y", true, false, false, false, "CANVAS"));
    assert Matches(Defaults[2], KeyEvent("y", true, false, false, false, "CANVAS"));
  }

  /**
   * Ctrl without Meta still matches a ctrl-less shortcut, because the Meta key agrees with
   * the flag: Ctrl+Delete removes the selection.
   */
  lemma CtrlDeleteMatches()
    ensures Dispatch(Defaults, KeyEvent("Delete", true, false, false, false, "DIV")) == Some(RemoveSelected)
  {
    var e := KeyEvent("Delete", true, false, false, false, "DIV");
    assert Lower("Delete") == "delete" && Lower("z") == "z" && Lower("y") == "y" && Lower("a") == "a";
    assert Lower("Escape") == "escape";
    assert !Matches(Defaults[0], e) && !Matches(Defaults[1], e) && !Matches(Defaults[2], e);
    assert !Matches(Defaults[3], e) && !Matches(Defaults[4], e);
    assert Matches(Defaults[5], e);
  }

  class ShortcutManager {
    var shortcuts: seq<Shortcut>
    /** Whether a browser window exists (`typeof window !== 'undefined'`). */
    const hasWindow: bool
    /** Whether the keydown handler is attached to the window. */
    var attached: bool

    /** The constructor attaches the handler when a window exists. */
    constructor(hasWindow: bool)
      ensures shortcuts == [] && this.hasWindow == hasWindow && attached == hasWindow
    {
      shortcuts := [];
      this.hasWindow := hasWindow;
      attached := hasWindow;
    }

    /** `register(shortcut)`: appended last, so earlier registrations take precedence. */
    method Register(s: Shortcut)
      modifies this
      ensures shortcuts == old(shortcuts) + [s] && attached == old(attached)
    {
      shortcuts := shortcuts + [s];
    }

    method RegisterDefaults()
      modifies this
      ensures shortcuts == old(shortcuts) + Defaults && attached == old(attached)
    {
      Register(Shortcut("z", true, false, false, Undo));
      Register(Shortcut("z", true, true, false, Redo));
      Register(Shortcut("y", true, false, false, Redo));
      Register(Shortcut("a", true, false, false, SelectAll));
      Register(Shortcut("Escape", false, false, false, ClearSelection));
      Register(Shortcut("Delete", false, false, false, RemoveSelected));
      Register(Shortcut("Backspace", false, false, false, RemoveSelected));
    }

    /**
     * `handleKeyDown(e)`: scan the shortcuts in order and stop at the first match. The
     * action it runs is returned; `prevented` is whether `preventDefault` was called.
     */
    method HandleKeyDown(e: KeyEvent) returns (action: Option<Action>, prevented: bool)
      ensures action == Dispatch(shortcuts, e)
      ensures prevented <==> action.Some?
    {
      if InTextField(e) {
        return None, false;
      }
      var i := 0;
      while i < |shortcuts|
        invariant 0 <= i <= |shortcuts|
        invariant FirstMatch(shortcuts, e, i) == FirstMatch(shortcuts, e, 0)
      {
        var s := shortcuts[i];
        var ctrlMatch := e.ctrlKey == s.ctrl || e.metaKey == s.ctrl;
        var shiftMatch := e.shiftKey == s.shift;
        var altMatch := e.altKey == s.alt;
        var keyMatch := Lower(e.key) == Lower(s.key);
        if keyMatch && ctrlMatch && shiftMatch && altMatch {
          return Some(s.action), true;
        }
        i := i + 1;
      }
      return None, false;
    }

    /** `destroy()` detaches the handler when a window exists. */
    method Destroy()
      modifies this
      ensures attached == (old(attached) && !hasWindow) && shortcuts == old(shortcuts)
    {
      if hasWindow {
        attached := false;
      }
    }
  }
}
