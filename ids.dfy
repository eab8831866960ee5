/**
 * `generateId()` of packages/core/src/utils/id.ts reads the clock and a random source. It
 * is modelled as an oracle that hands out ids `el_<n>` for increasing serials `n`, starting past
 * every serial the document already uses: what the callers rely on is that a generated id is
 * new, both against earlier generated ids and against the document.
 */
module Ids {
  import opened Strings

  function IdAt(n: nat): string
  {
    "el_" + NatToString(n)
  }

  /** Different counters give different ids. */
  lemma IdAtInjective(m: nat, n: nat)
    requires IdAt(m) == IdAt(n)
    ensures m == n
  {
    assert IdAt(m)[3..] == NatToString(m);
    assert IdAt(n)[3..] == NatToString(n);
    DecimalRoundTrip(m);
    DecimalRoundTrip(n);
  }

  /** One past the serial an id of the form `el_<digits>` names, and 0 for any other id. */
  function SerialBound(x: string): nat
  {
    if |x| >= 3 && x[..3] == "el_" && AllDigits(x[3..]) then DecimalValue(x[3..]) + 1 else 0
  }

  lemma SerialBoundOfId(n: nat)
    ensures SerialBound(IdAt(n)) == n + 1
  {
    assert IdAt(n)[..3] == "el_" && IdAt(n)[3..] == NatToString(n);
    DecimalRoundTrip(n);
  }

  /** One past the highest serial any id of `avoid` names. */
  function Above(avoid: seq<string>): nat
  {
    if |avoid| == 0 then 0
    else if SerialBound(avoid[0]) <= Above(avoid[1..]) then Above(avoid[1..])
    else SerialBound(avoid[0])
  }

  /** No id of `avoid` names a serial at or past `Above(avoid)`. */
  lemma {:induction false} AboveBounds(avoid: seq<string>, i: nat)
    requires i < |avoid|
    ensures SerialBound(avoid[i]) <= Above(avoid)
  {
    if i > 0 {
      AboveBounds(avoid[1..], i - 1);
    }
  }

  /** The serial `generateId()` takes next while the document holds the ids `avoid`. */
  function NextFree(avoid: seq<string>, next: nat): (k: nat)
    ensures next <= k && Above(avoid) <= k
  {
    if next < Above(avoid) then Above(avoid) else next
  }

  /**
   * The serial `NextFree` picks is not below the counter and lies past every serial in use,
   * so its id and every later one are free.
   */
  lemma NextFreeIsFree(avoid: seq<string>, next: nat, j: nat)
    requires NextFree(avoid, next) <= j
    ensures IdAt(j) !in avoid
  {
    SerialBoundOfId(j);
    forall i | 0 <= i < |avoid| ensures avoid[i] != IdAt(j) {
      AboveBounds(avoid, i);
    }
  }

  class IdSource {
    var next: nat

    constructor()
      ensures next == 0
    {
      next := 0;
    }

    /**
     * `generateId()`: an id that no element of the document has yet (`avoid`) and that
     * this source has not handed out before.
     */
    method Generate(avoid: seq<string>) returns (id: string)
      modifies this
      ensures id !in avoid
      ensures id == IdAt(NextFree(avoid, old(next))) && next == NextFree(avoid, old(next)) + 1
    {
      var k := NextFree(avoid, next);
      NextFreeIsFree(avoid, next, k);
      id := IdAt(k);
      next := k + 1;
    }
  }
}
