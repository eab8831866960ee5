/**
 * The three reversible commands of packages/editor/src/history/commands.ts. A command
 * captures its renderer, element, id and props at construction and never changes them, so
 * it is an immutable value here; the renderer it was built with is passed to `Execute` and
 * `Undo` (the editor builds every command with its one renderer).
 */
module Commands {
  import opened JsValues
  import opened Renderers

  datatype Command =
    | AddElementCommand(element: Record)
    | UpdateElementCommand(elementId: string, newProps: Record, oldProps: Record)
    | RemoveElementCommand(element: Record)

  /** The captured element is an `Element`, whose id is a string. */
  predicate WellFormed(c: Command)
  {
    c.UpdateElementCommand? || HasStringId(c.element)
  }

  /** The store after `c.execute()` on the in-memory renderer. */
  function Apply(c: Command, els: seq<Record>): seq<Record>
    requires WellFormed(c)
  {
    match c
    case AddElementCommand(e) => els + [e]
    case UpdateElementCommand(id, newProps, _) => UpdateById(els, id, newProps)
    case RemoveElementCommand(e) => RemoveById(els, IdOf(e))
  }

  /** The store after `c.undo()` on the in-memory renderer. */
  function Revert(c: Command, els: seq<Record>): seq<Record>
    requires WellFormed(c)
  {
    match c
    case AddElementCommand(e) => RemoveById(els, IdOf(e))
    case UpdateElementCommand(id, _, oldProps) => UpdateById(els, id, oldProps)
    case RemoveElementCommand(e) => els + [e]
  }

  /** What `execute` does to a renderer with the given backend; the Fabric stub ignores it. */
  function Executed(b: Backend, c: Command, els: seq<Record>): seq<Record>
    requires WellFormed(c)
  {
    if b == InMemory then Apply(c, els) else els
  }

  function Undone(b: Backend, c: Command, els: seq<Record>): seq<Record>
    requires WellFormed(c)
  {
    if b == InMemory then Revert(c, els) else els
  }

  /** `command.execute()` */
  method Execute(c: Command, r: Renderer)
    requires WellFormed(c)
    modifies r
    ensures r.elements == Executed(r.backend, c, old(r.elements))
    ensures r.selection == old(r.selection) && r.destroyed == old(r.destroyed)
  {
    match c
    case AddElementCommand(e) => r.AddElement(e);
    case UpdateElementCommand(id, newProps, _) => r.UpdateElement(id, newProps);
    case RemoveElementCommand(e) => r.RemoveElement(IdOf(e));
  }

  /** `command.undo()` */
  method Undo(c: Command, r: Renderer)
    requires WellFormed(c)
    modifies r
    ensures r.elements == Undone(r.backend, c, old(r.elements))
    ensures r.selection == old(r.selection) && r.destroyed == old(r.destroyed)
  {
    match c
    case AddElementCommand(e) => r.RemoveElement(IdOf(e));
    case UpdateElementCommand(id, _, oldProps) => r.UpdateElement(id, oldProps);
    case RemoveElementCommand(e) => r.AddElement(e);
  }

  /** Add-then-undo restores the store whenever the element's id was not already present. */
  lemma AddUndo(els: seq<Record>, e: Record)
    requires HasStringId(e) && NoneHasId(els, IdOf(e))
    ensures Revert(AddElementCommand(e), Apply(AddElementCommand(e), els)) == els
  {
    AddThenRemove(els, e);
  }

  /**
   * Update-then-undo restores the store when the old props hold a value for every key of
   * the new props (they are the element's snapshot) and the update keeps the id.
   */
  lemma UpdateUndo(els: seq<Record>, e: Record, newProps: Record)
    requires HasStringId(e) && UniqueIds(els) && e in els
    requires newProps.Keys <= e.Keys && (Id in newProps ==> newProps[Id] == e[Id])
    ensures var c := UpdateElementCommand(IdOf(e), newProps, Snapshot(e, newProps));
      Revert(c, Apply(c, els)) == els
  {
    UpdateThenRestore(els, e, newProps);
  }

  /** Remove-then-undo restores the same elements, though the restored one comes back last. */
  lemma RemoveUndo(els: seq<Record>, e: Record)
    requires HasStringId(e) && UniqueIds(els) && e in els
    ensures var c := RemoveElementCommand(e);
      var r := Revert(c, Apply(c, els));
      multiset(r) == multiset(els) && |r| > 0 && r[|r| - 1] == e
  {
    RemoveThenAdd(els, e);
  }
}
