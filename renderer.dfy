/**
 * The renderer the editor, its commands and the clipboard talk to (the `IRenderer`
 * interface of packages/renderer/src/interface/renderer.ts), reduced to the active page's
 * element sequence and the selection.
 *
 * Two behaviours are modelled. `InMemory` is the abstract store the commands are written
 * against: `addElement` appends, `removeElement` deletes every element with the id,
 * `updateElement` merges the props into the element with the id, `getElement` finds the
 * first element with the id. `FabricStub` is what the shipped `FabricRenderer` does with
 * those calls: nothing, with `getElement` answering null and `getSelection` answering [].
 */
module Renderers {
  import opened Wrappers
  import opened Sequences
  import opened JsValues

  /** `element.id === id` */
  predicate HasId(e: Record, id: string)
  {
    Id in e && e[Id] == Str(id)
  }

  /** An element's id, which the `Element` type declares to be a string. */
  predicate HasStringId(e: Record)
  {
    Id in e && e[Id].Str?
  }

  function IdOf(e: Record): (id: string)
    requires HasStringId(e)
    ensures HasId(e, id)
  {
    e[Id].s
  }

  /** No two elements share an id. */
  predicate UniqueIds(els: seq<Record>)
  {
    forall i, j :: 0 <= i < j < |els| && HasStringId(els[i]) && HasStringId(els[j]) ==> els[i][Id] != els[j][Id]
  }

  predicate NoneHasId(els: seq<Record>, id: string)
  {
    forall i :: 0 <= i < |els| ==> !HasId(els[i], id)
  }

  /** The index of the first element with the id. */
  function FindIndex(els: seq<Record>, id: string, from: nat): (r: Option<nat>)
    requires from <= |els|
    ensures r.Some? ==> from <= r.value < |els| && HasId(els[r.value], id)
    ensures forall j :: from <= j < |els| && (r.None? || j < r.value) ==> !HasId(els[j], id)
    decreases |els| - from
  {
    if from == |els| then None
    else if HasId(els[from], id) then Some(from)
    else FindIndex(els, id, from + 1)
  }

  /** `getElement(id)` on the store: the first element with the id. */
  function FindById(els: seq<Record>, id: string): (r: Option<Record>)
    ensures r.None? <==> NoneHasId(els, id)
    ensures r.Some? ==> r.value in els && HasId(r.value, id)
  {
    var i := FindIndex(els, id, 0);
    if i.Some? then Some(els[i.value]) else None
  }

  /** Two elements of a store with unique ids that have the same id are the same position. */
  lemma UniqueAt(els: seq<Record>, i: nat, k: nat, id: string)
    requires UniqueIds(els) && i < |els| && k < |els|
    requires HasId(els[i], id) && HasId(els[k], id)
    ensures i == k
  {
    if i < k {
      assert HasStringId(els[i]) && HasStringId(els[k]);
    } else if k < i {
      assert HasStringId(els[i]) && HasStringId(els[k]);
    }
  }

  /** The store after `removeElement(id)`: every element with the id is dropped, order kept. */
  function RemoveById(els: seq<Record>, id: string): (r: seq<Record>)
    ensures |r| <= |els|
    ensures NoneHasId(r, id)
  {
    if |els| == 0 then []
    else if HasId(els[0], id) then RemoveById(els[1..], id)
    else [els[0]] + RemoveById(els[1..], id)
  }

  /** The store after `updateElement(id, props)`: the props are spread over the element. */
  function UpdateById(els: seq<Record>, id: string, props: Record): (r: seq<Record>)
    ensures |r| == |els|
    ensures forall i :: 0 <= i < |els| && HasId(els[i], id) ==> r[i] == els[i] + props
    ensures forall i :: 0 <= i < |els| && !HasId(els[i], id) ==> r[i] == els[i]
  {
    seq(|els|, i requires 0 <= i < |els| => if HasId(els[i], id) then els[i] + props else els[i])
  }

  /** The ids `selectAll` selects: those of every element, in order. */
  function IdsOf(els: seq<Record>): (ids: seq<string>)
    ensures |ids| <= |els|
  {
    if |els| == 0 then []
    else if HasStringId(els[0]) then [IdOf(els[0])] + IdsOf(els[1..])
    else IdsOf(els[1..])
  }

  /**
   * `selectAll` selects the id of every element that has one and nothing else: each id
   * comes from an element, and every element's id is among them.
   */
  lemma {:induction false} IdsOfContents(els: seq<Record>)
    ensures forall k :: 0 <= k < |els| && HasStringId(els[k]) ==> IdOf(els[k]) in IdsOf(els)
    ensures forall i :: 0 <= i < |IdsOf(els)| ==> !NoneHasId(els, IdsOf(els)[i])
    decreases |els|
  {
    if |els| > 0 {
      IdsOfContents(els[1..]);
      var ids := IdsOf(els);
      var rest := IdsOf(els[1..]);
      forall k | 0 <= k < |els| && HasStringId(els[k]) ensures IdOf(els[k]) in ids {
        if k > 0 {
          assert els[1..][k - 1] == els[k];
        }
      }
      forall i | 0 <= i < |ids| ensures !NoneHasId(els, ids[i]) {
        if HasStringId(els[0]) && i == 0 {
          assert HasId(els[0], ids[0]);
        } else {
          var j := if HasStringId(els[0]) then i - 1 else i;
          assert ids[i] == rest[j];
          var k :| 0 <= k < |els[1..]| && HasId(els[1..][k], rest[j]);
          assert HasId(els[k + 1], ids[i]);
        }
      }
    }
  }

  /** The ids keep the order of the elements: those of `a + b` are those of `a`, then of `b`. */
  lemma {:induction false} IdsOfAppend(a: seq<Record>, b: seq<Record>)
    ensures IdsOf(a + b) == IdsOf(a) + IdsOf(b)
    decreases |a|
  {
    if |a| > 0 {
      assert (a + b)[1..] == a[1..] + b;
      IdsOfAppend(a[1..], b);
    } else {
      assert a + b == b;
    }
  }

  /** When every element has an id, the ids are those of the elements, position by position. */
  lemma {:induction false} IdsOfIdentified(els: seq<Record>)
    requires forall k :: 0 <= k < |els| ==> HasStringId(els[k])
    ensures |IdsOf(els)| == |els|
    ensures forall k :: 0 <= k < |els| ==> IdsOf(els)[k] == IdOf(els[k])
    decreases |els|
  {
    if |els| > 0 {
      assert forall k :: 0 <= k < |els[1..]| ==> HasStringId(els[1..][k]) by {
        forall k | 0 <= k < |els[1..]| ensures HasStringId(els[1..][k]) {
          assert els[1..][k] == els[k + 1];
        }
      }
      IdsOfIdentified(els[1..]);
    }
  }

  /** Removing an id nobody has changes nothing. */
  lemma {:induction false} RemoveAbsent(els: seq<Record>, id: string)
    requires NoneHasId(els, id)
    ensures RemoveById(els, id) == els
    decreases |els|
  {
    if |els| > 0 {
      RemoveAbsent(els[1..], id);
      assert els == [els[0]] + els[1..];
    }
  }

  lemma {:induction false} RemoveAppend(a: seq<Record>, b: seq<Record>, id: string)
    ensures RemoveById(a + b, id) == RemoveById(a, id) + RemoveById(b, id)
    decreases |a|
  {
    if |a| > 0 {
      assert (a + b)[1..] == a[1..] + b;
      RemoveAppend(a[1..], b, id);
    } else {
      assert a + b == b;
    }
  }

  /** Appending an element and then removing its (fresh) id restores the store. */
  lemma AddThenRemove(els: seq<Record>, e: Record)
    requires HasStringId(e) && NoneHasId(els, IdOf(e))
    ensures RemoveById(els + [e], IdOf(e)) == els
  {
    RemoveAppend(els, [e], IdOf(e));
    RemoveAbsent(els, IdOf(e));
  }

  /** In a store with unique ids, removing an element's id removes exactly that element. */
  lemma RemoveUnique(els: seq<Record>, k: nat)
    requires UniqueIds(els) && k < |els| && HasStringId(els[k])
    ensures RemoveById(els, IdOf(els[k])) == els[..k] + els[k + 1..]
  {
    var id := IdOf(els[k]);
    var front, tail := els[..k], els[k + 1..];
    assert els == front + [els[k]] + tail;
    OthersLackId(els, k);
    RemoveAppend(front + [els[k]], tail, id);
    RemoveAppend(front, [els[k]], id);
    RemoveAbsent(front, id);
    RemoveAbsent(tail, id);
    assert RemoveById([els[k]], id) == [];
    assert front + [] == front;
  }

  /** With unique ids, the elements before and after the `k`th lack its id. */
  lemma OthersLackId(els: seq<Record>, k: nat)
    requires UniqueIds(els) && k < |els| && HasStringId(els[k])
    ensures NoneHasId(els[..k], IdOf(els[k])) && NoneHasId(els[k + 1..], IdOf(els[k]))
  {
    var id := IdOf(els[k]);
    forall i | 0 <= i < |els| && i != k ensures !HasId(els[i], id) {
      if HasId(els[i], id) { UniqueAt(els, i, k, id); }
    }
    assert NoneHasId(els[..k], id) by {
      forall i | 0 <= i < k ensures !HasId(els[..k][i], id) {
        assert els[..k][i] == els[i];
      }
    }
    var tail := els[k + 1..];
    assert NoneHasId(tail, id) by {
      forall i | 0 <= i < |tail| ensures !HasId(tail[i], id) {
        assert tail[i] == els[k + 1 + i];
      }
    }
  }

  /**
   * Removing the element with a unique id and appending it again gives the same elements:
   * the same multiset, with the element now last.
   */
  lemma RemoveThenAdd(els: seq<Record>, e: Record)
    requires HasStringId(e) && UniqueIds(els) && e in els
    ensures multiset(RemoveById(els, IdOf(e)) + [e]) == multiset(els)
  {
    var k :| 0 <= k < |els| && els[k] == e;
    RemoveUnique(els, k);
    MoveToEnd(els[..k], e, els[k + 1..]);
    assert els[..k] + [e] + els[k + 1..] == els;
  }

  /** ... but not necessarily the same sequence: a removed first element comes back last. */
  lemma RemoveThenAddReorders()
    ensures var a := map[Id := Str("a")];
      var b := map[Id := Str("b")];
      RemoveById([a, b], "a") + [a] == [b, a] != [a, b]
  {
    var a := map[Id := Str("a")];
    var b := map[Id := Str("b")];
    assert HasId(a, "a") && !HasId(b, "a");
    assert [a, b][1..] == [b];
    assert [b][1..] == [];
    assert [b, a][0] != [a, b][0];
  }

  /**
   * The props `Editor.updateElement` records before an update: for each key of `props`
   * that the old element has, the old value.
   */
  function Snapshot(old_: Record, props: Record): (s: Record)
    ensures s.Keys == props.Keys * old_.Keys
    ensures forall k :: k in s ==> s[k] == old_[k]
  {
    map k | k in props.Keys * old_.Keys :: old_[k]
  }

  /** Spreading props and then the snapshot of what they covered restores an element. */
  lemma SnapshotRestores(e: Record, props: Record)
    requires props.Keys <= e.Keys
    ensures (e + props) + Snapshot(e, props) == e
  {
    var r := (e + props) + Snapshot(e, props);
    assert r.Keys == e.Keys;
    forall k | k in e ensures r[k] == e[k] {
      if k in props { assert k in Snapshot(e, props); }
    }
  }

  /** A key the element lacked keeps its new value after the snapshot is spread back. */
  lemma SnapshotKeepsNewKeys(e: Record, props: Record, k: Key)
    requires k in props && k !in e
    ensures k in (e + props) + Snapshot(e, props)
    ensures ((e + props) + Snapshot(e, props))[k] == props[k]
  {
  }

  /**
   * Update-then-undo restores the store when the update's keys all exist on the element
   * and the update does not change its id.
   */
  lemma UpdateThenRestore(els: seq<Record>, e: Record, props: Record)
    requires HasStringId(e) && UniqueIds(els) && e in els
    requires props.Keys <= e.Keys && (Id in props ==> props[Id] == e[Id])
    ensures UpdateById(UpdateById(els, IdOf(e), props), IdOf(e), Snapshot(e, props)) == els
  {
    var id := IdOf(e);
    var mid := UpdateById(els, id, props);
    var r := UpdateById(mid, id, Snapshot(e, props));
    SnapshotRestores(e, props);
    var k :| 0 <= k < |els| && els[k] == e;
    forall i | 0 <= i < |els| ensures r[i] == els[i] {
      if HasId(els[i], id) {
        UniqueAt(els, i, k, id);
        assert HasId(mid[i], id);
      }
    }
  }

  datatype Backend = InMemory | FabricStub

  class Renderer {
    const backend: Backend
    /** The active page's elements, in stacking order. */
    var elements: seq<Record>
    /** The selected ids. */
    var selection: seq<string>
    var destroyed: bool

    constructor(backend: Backend, elements: seq<Record>)
      ensures this.backend == backend && this.elements == elements
      ensures selection == [] && !destroyed
    {
      this.backend := backend;
      this.elements := elements;
      selection := [];
      destroyed := false;
    }

    /** `getElement(id)` */
    function GetElement(id: string): (r: Option<Record>)
      reads this
      ensures backend == FabricStub ==> r.None?
      ensures backend == InMemory ==> (r.None? <==> NoneHasId(elements, id))
      ensures r.Some? ==> r.value in elements && HasId(r.value, id)
    {
      if backend == InMemory then FindById(elements, id) else None
    }

    /** `getSelection()` */
    function GetSelection(): (ids: seq<string>)
      reads this
      ensures backend == FabricStub ==> ids == []
      ensures backend == InMemory ==> ids == selection
    {
      if backend == InMemory then selection else []
    }

    /** The element sequence `addElement(e)` leaves behind. */
    function Added(els: seq<Record>, e: Record): seq<Record>
    {
      if backend == InMemory then els + [e] else els
    }

    function Removed(els: seq<Record>, id: string): seq<Record>
    {
      if backend == InMemory then RemoveById(els, id) else els
    }

    function Updated(els: seq<Record>, id: string, props: Record): seq<Record>
    {
      if backend == InMemory then UpdateById(els, id, props) else els
    }

    method AddElement(e: Record)
      modifies this
      ensures elements == Added(old(elements), e)
      ensures selection == old(selection) && destroyed == old(destroyed)
    {
      if backend == InMemory {
        elements := elements + [e];
      }
    }

    method RemoveElement(id: string)
      modifies this
      ensures elements == Removed(old(elements), id)
      ensures selection == old(selection) && destroyed == old(destroyed)
    {
      if backend == InMemory {
        elements := RemoveById(elements, id);
      }
    }

    method UpdateElement(id: string, props: Record)
      modifies this
      ensures elements == Updated(old(elements), id, props)
      ensures selection == old(selection) && destroyed == old(destroyed)
    {
      if backend == InMemory {
        elements := UpdateById(elements, id, props);
      }
    }

    method Select(ids: seq<string>)
      modifies this
      ensures selection == (if backend == InMemory then ids else old(selection))
      ensures elements == old(elements) && destroyed == old(destroyed)
    {
      if backend == InMemory {
        selection := ids;
      }
    }

    method SelectAll()
      modifies this
      ensures selection == (if backend == InMemory then IdsOf(elements) else old(selection))
      ensures elements == old(elements) && destroyed == old(destroyed)
    {
      if backend == InMemory {
        selection := IdsOf(elements);
      }
    }

    method ClearSelection()
      modifies this
      ensures selection == (if backend == InMemory then [] else old(selection))
      ensures elements == old(elements) && destroyed == old(destroyed)
    {
      if backend == InMemory {
        selection := [];
      }
    }

    method Destroy()
      modifies this
      ensures destroyed
      ensures elements == old(elements) && selection == old(selection)
    {
      destroyed := true;
    }
  }
}
