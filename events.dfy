/**
 * The event emitter of packages/core/src/events/emitter.ts: a map from event name to an
 * insertion-ordered set of handlers. Handlers are values: `Plain(id, throws)` is a function
 * (its identity `id`, and whether calling it throws); `Once(serial, id, throws)` is the
 * wrapper `once` creates around such a function, a new object for every `once` call.
 * Calling a handler is recorded by its id; a throw is caught and logged.
 */
module Events {
  datatype Handler = Plain(id: nat, throws: bool) | Once(serial: nat, id: nat, throws: bool)

  /** The handler set of a `Set`: no handler twice. */
  predicate NoDup(s: seq<Handler>)
  {
    forall i, j :: 0 <= i < j < |s| ==> s[i] != s[j]
  }

  /** `set.add(h)`: appended unless already present, which keeps the insertion order. */
  function Add(s: seq<Handler>, h: Handler): (r: seq<Handler>)
    ensures h in r && forall x :: x in r <==> x in s || x == h
    ensures NoDup(s) ==> NoDup(r)
    ensures h in s ==> r == s
    ensures h !in s ==> r == s + [h]
  {
    if h in s then s else s + [h]
  }

  /** `set.delete(h)`: every other handler stays, in order. */
  function Without(s: seq<Handler>, h: Handler): (r: seq<Handler>)
    ensures forall x :: x in r <==> x in s && x != h
    ensures NoDup(s) ==> NoDup(r)
    decreases |s|
  {
    if |s| == 0 then []
    else if s[0] == h then Without(s[1..], h)
    else
      var rest := Without(s[1..], h);
      assert s[0] !in rest || s[0] in s[1..];
      [s[0]] + rest
  }

  /** The handlers left after an emit: every `once` wrapper has removed itself. */
  function DropOnce(s: seq<Handler>): (r: seq<Handler>)
    ensures forall x :: x in r <==> x in s && !x.Once?
    ensures NoDup(s) ==> NoDup(r)
    decreases |s|
  {
    if |s| == 0 then []
    else
      var front := DropOnce(s[..|s| - 1]);
      assert forall x :: x in s[..|s| - 1] ==> x in s;
      assert s == s[..|s| - 1] + [s[|s| - 1]];
      if s[|s| - 1].Once? then front else front + [s[|s| - 1]]
  }

  /** The ids of the handlers, in order: the calls `emit` makes. */
  function Called(s: seq<Handler>): (ids: seq<nat>)
    ensures |ids| == |s| && forall j :: 0 <= j < |s| ==> ids[j] == s[j].id
    decreases |s|
  {
    if |s| == 0 then [] else Called(s[..|s| - 1]) + [s[|s| - 1].id]
  }

  /** The ids of the throwing handlers, in order: what `emit` logs. */
  function Throwing(s: seq<Handler>): seq<nat>
    decreases |s|
  {
    if |s| == 0 then []
    else Throwing(s[..|s| - 1]) + (if s[|s| - 1].throws then [s[|s| - 1].id] else [])
  }

  function Listeners(m: map<string, seq<Handler>>, event: string): seq<Handler>
  {
    if event in m then m[event] else []
  }

  lemma {:induction false} WithoutAppend(a: seq<Handler>, b: seq<Handler>, h: Handler)
    ensures Without(a + b, h) == Without(a, h) + Without(b, h)
    decreases |a|
  {
    if |a| == 0 {
      assert a + b == b;
    } else {
      assert (a + b)[1..] == a[1..] + b;
      WithoutAppend(a[1..], b, h);
    }
  }

  lemma {:induction false} WithoutAbsent(s: seq<Handler>, h: Handler)
    requires h !in s
    ensures Without(s, h) == s
    decreases |s|
  {
    if |s| > 0 {
      WithoutAbsent(s[1..], h);
      assert s == [s[0]] + s[1..];
    }
  }

  /** Registering a handler twice leaves one registration. */
  lemma OnTwice(s: seq<Handler>, h: Handler)
    ensures Add(Add(s, h), h) == Add(s, h)
  {
  }

  /** Subscribing a new handler and then unsubscribing it restores the set and its order. */
  lemma OnThenOff(s: seq<Handler>, h: Handler)
    requires h !in s
    ensures Without(Add(s, h), h) == s
  {
    WithoutAppend(s, [h], h);
    WithoutAbsent(s, h);
  }

  /** Removing a handler from `a + [h] + b` that holds it once leaves `a + b`. */
  lemma WithoutMiddle(a: seq<Handler>, h: Handler, b: seq<Handler>)
    requires h !in a && h !in b
    ensures Without(a + [h] + b, h) == a + b
  {
    OnThenOff(a, h);
    assert Without(a + [h], h) == a;
    WithoutAppend(a + [h], b, h);
    WithoutAbsent(b, h);
  }

  /** A handler set whose `once` wrappers were all made before wrapper number `serial`. */
  predicate IsHandlerSet(s: seq<Handler>, serial: nat)
  {
    NoDup(s) && forall x :: x in s && x.Once? ==> x.serial < serial
  }

  /** The handler set after the first `i` handlers of `list` have run. */
  function EmitState(list: seq<Handler>, i: nat): seq<Handler>
    requires i <= |list|
  {
    DropOnce(list[..i]) + list[i..]
  }

  lemma EmitStart(list: seq<Handler>)
    ensures EmitState(list, 0) == list && Throwing(list[..0]) == [] && Called(list[..0]) == []
  {
    assert list[..0] == [] && list[0..] == list;
  }

  lemma EmitEnd(list: seq<Handler>)
    ensures EmitState(list, |list|) == DropOnce(list) && list[..|list|] == list
  {
    assert list[..|list|] == list && list[|list|..] == [];
  }

  /** Replacing an event's handler set twice keeps only the second replacement. */
  lemma EmitMapStep(m: map<string, seq<Handler>>, event: string, s: seq<Handler>, t: seq<Handler>, h: Handler)
    requires Without(s, h) == t
    ensures var n := m[event := s]; n[event := Without(n[event], h)] == m[event := t]
  {
  }

  /** Running handler `i`: a `once` wrapper deletes itself, and only itself. */
  lemma EmitStep(list: seq<Handler>, i: nat)
    requires NoDup(list) && i < |list|
    ensures list[i].Once? ==> Without(EmitState(list, i), list[i]) == EmitState(list, i + 1)
    ensures !list[i].Once? ==> EmitState(list, i) == EmitState(list, i + 1)
    ensures Throwing(list[..i + 1]) == Throwing(list[..i]) + (if list[i].throws then [list[i].id] else [])
    ensures Called(list[..i + 1]) == Called(list[..i]) + [list[i].id]
  {
    var h := list[i];
    assert list[..i + 1][..i] == list[..i];
    assert list[i..] == [h] + list[i + 1..];
    if h.Once? {
      assert h !in list[i + 1..] by {
        forall k | i + 1 <= k < |list| ensures list[k] != h { }
      }
      assert h !in DropOnce(list[..i]);
      assert DropOnce(list[..i + 1]) == DropOnce(list[..i]);
      assert EmitState(list, i) == DropOnce(list[..i]) + [h] + list[i + 1..];
      WithoutMiddle(DropOnce(list[..i]), h, list[i + 1..]);
    } else {
      assert DropOnce(list[..i] + [h]) == DropOnce(list[..i]) + [h];
    }
  }

  /** An unsubscribe function: calling it is `off(event, handler)`. */
  datatype Unsubscribe = Unsubscribe(event: string, handler: Handler)

  class EventEmitter {
    var handlers: map<string, seq<Handler>>
    /** The number of wrappers `once` has made so far. */
    var serial: nat

    ghost predicate Valid()
      reads this
    {
      forall e :: e in handlers ==> IsHandlerSet(handlers[e], serial)
    }

    constructor()
      ensures Valid() && handlers == map[]
    {
      handlers := map[];
      serial := 0;
    }

    /** `on(event, h)`: add `h` to the event's set; the result unsubscribes it again. */
    method On(event: string, h: Handler) returns (u: Unsubscribe)
      requires Valid() && (h.Once? ==> h.serial < serial)
      modifies this
      ensures Valid() && serial == old(serial)
      ensures handlers == old(handlers)[event := Add(Listeners(old(handlers), event), h)]
      ensures u == Unsubscribe(event, h)
    {
      if event !in handlers {
        handlers := handlers[event := []];
      }
      handlers := handlers[event := Add(handlers[event], h)];
      u := Unsubscribe(event, h);
    }

    /** `off(event, h)`: a no-op for an unknown event or handler. */
    method Off(event: string, h: Handler)
      requires Valid()
      modifies this
      ensures Valid() && serial == old(serial)
      ensures handlers == if event in old(handlers) then old(handlers)[event := Without(old(handlers)[event], h)]
                          else old(handlers)
    {
      if event in handlers {
        handlers := handlers[event := Without(handlers[event], h)];
      }
    }

    /** Calling the function `on` returned. */
    method RunUnsubscribe(u: Unsubscribe)
      requires Valid()
      modifies this
      ensures Valid() && serial == old(serial)
      ensures handlers == if u.event in old(handlers)
                          then old(handlers)[u.event := Without(old(handlers)[u.event], u.handler)]
                          else old(handlers)
    {
      Off(u.event, u.handler);
    }

    /**
     * `emit(event)`: call every handler registered at the start, once each, in insertion
     * order. A `once` wrapper unregisters itself before calling its function; a handler
     * that throws is caught and logged, and the remaining handlers still run.
     */
    method Emit(event: string) returns (called: seq<nat>, logged: seq<nat>)
      requires Valid()
      modifies this
      ensures Valid() && serial == old(serial)
      ensures called == Called(Listeners(old(handlers), event))
      ensures logged == Throwing(Listeners(old(handlers), event))
      ensures handlers == if event in old(handlers) then old(handlers)[event := DropOnce(old(handlers)[event])]
                          else old(handlers)
    {
      called := [];
      logged := [];
      if event in handlers {
        var list := handlers[event];
        assert NoDup(list) by { assert IsHandlerSet(handlers[event], serial); }
        EmitStart(list);
        assert handlers[event := list] == handlers;
        var i := 0;
        while i < |list|
          invariant 0 <= i <= |list| && Valid() && serial == old(serial)
          invariant called == Called(list[..i])
          invariant logged == Throwing(list[..i])
          invariant handlers == old(handlers)[event := EmitState(list, i)]
        {
          var h := list[i];
          EmitStep(list, i);
          if h.Once? {
            Off(event, h);
            EmitMapStep(old(handlers), event, EmitState(list, i), EmitState(list, i + 1), h);
          }
          called := called + [h.id];
          if h.throws {
            logged := logged + [h.id];
          }
          i := i + 1;
        }
        EmitEnd(list);
      }
    }

    /** `once(event, h)`: subscribe a new wrapper around `h`. */
    method Once(event: string, id: nat, throws: bool) returns (u: Unsubscribe)
      requires Valid()
      modifies this
      ensures Valid() && serial == old(serial) + 1
      ensures handlers == old(handlers)[event := Listeners(old(handlers), event) + [Handler.Once(old(serial), id, throws)]]
      ensures u == Unsubscribe(event, Handler.Once(old(serial), id, throws))
    {
      var wrapper := Handler.Once(serial, id, throws);
      serial := serial + 1;
      u := On(event, wrapper);
    }

    /** `clear()` */
    method Clear()
      modifies this
      ensures Valid() && handlers == map[] && serial == old(serial)
    {
      handlers := map[];
    }
  }
}
