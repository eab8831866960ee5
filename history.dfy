/**
 * The undo/redo history of packages/editor/src/history/HistoryManager.ts: two command
 * stacks, the undo stack capped at `maxHistory` by dropping its oldest command.
 *
 * `Stacks` and the `After...` functions are the specification; the `HistoryManager` class
 * keeps the two stacks as fields and each of its methods is tied to one of the functions.
 */
module History {
  import opened Renderers
  import opened Commands

  /** Undo stack and redo stack, top of each at the end. */
  datatype Stacks = Stacks(undo: seq<Command>, redo: seq<Command>)

  /** The bound `|undo| + |redo|` never exceeds: `maxHistory`, or 0 when it is negative. */
  function Cap(maxHistory: int): nat
  {
    if maxHistory < 0 then 0 else maxHistory
  }

  predicate Bounded(s: Stacks, maxHistory: int)
  {
    |s.undo| + |s.redo| <= Cap(maxHistory)
  }

  /** `execute(c)` after `c` ran: push, empty the redo stack, shift once if over the cap. */
  function AfterExecute(s: Stacks, c: Command, maxHistory: int): Stacks
  {
    var pushed := s.undo + [c];
    Stacks(if |pushed| > maxHistory then pushed[1..] else pushed, [])
  }

  /** `undo()`: the new stacks and the returned flag. */
  function AfterUndo(s: Stacks): (Stacks, bool)
  {
    if |s.undo| == 0 then (s, false)
    else (Stacks(s.undo[..|s.undo| - 1], s.redo + [s.undo[|s.undo| - 1]]), true)
  }

  /** `redo()`: the new stacks and the returned flag. */
  function AfterRedo(s: Stacks): (Stacks, bool)
  {
    if |s.redo| == 0 then (s, false)
    else (Stacks(s.undo + [s.redo[|s.redo| - 1]], s.redo[..|s.redo| - 1]), true)
  }

  /** Executing keeps the stacks within the cap; the undo stack never exceeds a positive cap. */
  lemma ExecuteBounded(s: Stacks, c: Command, maxHistory: int)
    requires Bounded(s, maxHistory)
    ensures Bounded(AfterExecute(s, c, maxHistory), maxHistory)
    ensures maxHistory >= 0 ==> |AfterExecute(s, c, maxHistory).undo| <= maxHistory
  {
  }

  /** At the cap, executing drops the oldest command and keeps the rest in order. */
  lemma ExecuteDropsOldest(s: Stacks, c: Command, maxHistory: int)
    requires |s.undo| == maxHistory > 0
    ensures AfterExecute(s, c, maxHistory).undo == s.undo[1..] + [c]
  {
  }

  /** Undo and redo move one command between the stacks, so they keep the bound. */
  lemma UndoRedoBounded(s: Stacks, maxHistory: int)
    requires Bounded(s, maxHistory)
    ensures Bounded(AfterUndo(s).0, maxHistory)
    ensures Bounded(AfterRedo(s).0, maxHistory)
  {
  }

  /** Undo on an empty undo stack fails and changes nothing; likewise redo. */
  lemma UndoRedoEmpty(s: Stacks)
    ensures |s.undo| == 0 ==> AfterUndo(s) == (s, false)
    ensures |s.redo| == 0 ==> AfterRedo(s) == (s, false)
  {
  }

  /** An undo that succeeds followed by a redo leaves both stacks as they were. */
  lemma UndoThenRedo(s: Stacks)
    requires |s.undo| > 0
    ensures AfterUndo(s).1 && AfterRedo(AfterUndo(s).0) == (s, true)
  {
    var t := AfterUndo(s).0;
    assert t.redo[..|t.redo| - 1] == s.redo;
    assert t.undo + [t.redo[|t.redo| - 1]] == s.undo;
  }

  /** A redo that succeeds followed by an undo leaves both stacks as they were. */
  lemma RedoThenUndo(s: Stacks)
    requires |s.redo| > 0
    ensures AfterRedo(s).1 && AfterUndo(AfterRedo(s).0) == (s, true)
  {
    var t := AfterRedo(s).0;
    assert t.undo[..|t.undo| - 1] == s.undo;
    assert t.redo + [t.undo[|t.undo| - 1]] == s.redo;
  }

  /** Execute A, execute B, undo, execute C: the undone B can no longer be redone. */
  lemma BranchDiscarded(s: Stacks, a: Command, b: Command, c: Command, maxHistory: int)
    ensures var t := AfterExecute(AfterUndo(AfterExecute(AfterExecute(s, a, maxHistory), b, maxHistory)).0,
                                  c, maxHistory);
      t.redo == [] && AfterRedo(t) == (t, false)
  {
  }

  class HistoryManager {
    var undoStack: seq<Command>
    var redoStack: seq<Command>
    const maxHistory: int

    /** The stacks stay within the cap and hold only well-formed commands. */
    ghost predicate Valid()
      reads this
    {
      Bounded(Stacks(undoStack, redoStack), maxHistory)
      && (forall i :: 0 <= i < |undoStack| ==> WellFormed(undoStack[i]))
      && (forall i :: 0 <= i < |redoStack| ==> WellFormed(redoStack[i]))
    }

    /** `new HistoryManager(maxHistory)`; the source's default is 50. */
    constructor(maxHistory: int)
      ensures Valid() && this.maxHistory == maxHistory
      ensures undoStack == [] && redoStack == []
    {
      this.maxHistory := maxHistory;
      undoStack := [];
      redoStack := [];
    }

    /** `execute(c)`: run the command on the renderer, then record it. */
    method Execute(c: Command, r: Renderer)
      requires Valid() && WellFormed(c)
      modifies this, r
      ensures Valid()
      ensures Stacks(undoStack, redoStack) == AfterExecute(old(Stacks(undoStack, redoStack)), c, maxHistory)
      ensures r.elements == Executed(r.backend, c, old(r.elements))
      ensures r.selection == old(r.selection) && r.destroyed == old(r.destroyed)
    {
      Commands.Execute(c, r);
      undoStack := undoStack + [c];
      redoStack := [];
      if |undoStack| > maxHistory {
        undoStack := undoStack[1..];
      }
      ExecuteBounded(old(Stacks(undoStack, redoStack)), c, maxHistory);
    }

    /** `undo()`: pop the top command, undo it, push it on the redo stack. */
    method Undo(r: Renderer) returns (done: bool)
      requires Valid()
      modifies this, r
      ensures Valid()
      ensures (Stacks(undoStack, redoStack), done) == AfterUndo(old(Stacks(undoStack, redoStack)))
      ensures r.elements == if done then Undone(r.backend, old(undoStack[|undoStack| - 1]), old(r.elements))
                            else old(r.elements)
      ensures r.selection == old(r.selection) && r.destroyed == old(r.destroyed)
    {
      if |undoStack| == 0 {
        return false;
      }
      var c := undoStack[|undoStack| - 1];
      undoStack := undoStack[..|undoStack| - 1];
      Commands.Undo(c, r);
      redoStack := redoStack + [c];
      done := true;
    }

    /** `redo()`: pop the top redo command, execute it again, push it on the undo stack. */
    method Redo(r: Renderer) returns (done: bool)
      requires Valid()
      modifies this, r
      ensures Valid()
      ensures (Stacks(undoStack, redoStack), done) == AfterRedo(old(Stacks(undoStack, redoStack)))
      ensures r.elements == if done then Executed(r.backend, old(redoStack[|redoStack| - 1]), old(r.elements))
                            else old(r.elements)
      ensures r.selection == old(r.selection) && r.destroyed == old(r.destroyed)
    {
      if |redoStack| == 0 {
        return false;
      }
      var c := redoStack[|redoStack| - 1];
      redoStack := redoStack[..|redoStack| - 1];
      Commands.Execute(c, r);
      undoStack := undoStack + [c];
      done := true;
    }

    /** `canUndo()`: exactly when `undo()` would succeed. */
    predicate CanUndo()
      reads this
      ensures CanUndo() <==> AfterUndo(Stacks(undoStack, redoStack)).1
    {
      |undoStack| > 0
    }

    /** `canRedo()`: exactly when `redo()` would succeed. */
    predicate CanRedo()
      reads this
      ensures CanRedo() <==> AfterRedo(Stacks(undoStack, redoStack)).1
    {
      |redoStack| > 0
    }

    /** `clear()` */
    method Clear()
      requires Valid()
      modifies this
      ensures Valid() && undoStack == [] && redoStack == []
    {
      undoStack := [];
      redoStack := [];
    }
  }
}
