/**
 * `Array.prototype.find` and `Array.prototype.filter` over a predicate, as the catalogue
 * lookups of the playground use them.
 */
module Sequences {
  import opened Wrappers

  /** `xs.find(p)`: the first element satisfying `p`, else `undefined`. */
  function Find<T(==)>(xs: seq<T>, p: T -> bool): (r: Option<T>)
    ensures r.Some? <==> exists i :: 0 <= i < |xs| && p(xs[i])
    ensures r.Some? ==> exists i :: (0 <= i < |xs| && xs[i] == r.value && p(xs[i])
                                     && forall j :: 0 <= j < i ==> !p(xs[j]))
    decreases |xs|
  {
    if |xs| == 0 then None
    else if p(xs[0]) then Some(xs[0])
    else
      var r := Find(xs[1..], p);
      assert forall i :: 1 <= i < |xs| ==> xs[i] == xs[1..][i - 1];
      if r.Some? then
        var i :| 0 <= i < |xs[1..]| && xs[1..][i] == r.value && p(xs[1..][i])
          && forall j :: 0 <= j < i ==> !p(xs[1..][j]);
        assert xs[i + 1] == r.value && forall j :: 0 <= j < i + 1 ==> !p(xs[j]);
        r
      else r
  }

  /** `xs.filter(p)`: the elements satisfying `p`, in order. */
  function Filter<T(==)>(xs: seq<T>, p: T -> bool): (r: seq<T>)
    ensures |r| <= |xs|
    ensures forall i :: 0 <= i < |r| ==> r[i] in xs && p(r[i])
    ensures forall i :: 0 <= i < |xs| && p(xs[i]) ==> xs[i] in r
    decreases |xs|
  {
    if |xs| == 0 then []
    else
      var rest := Filter(xs[1..], p);
      assert forall i :: 1 <= i < |xs| ==> xs[i] == xs[1..][i - 1];
      if p(xs[0]) then [xs[0]] + rest else rest
  }

  /** Filtering distributes over concatenation. */
  lemma {:induction false} FilterAppend<T>(xs: seq<T>, ys: seq<T>, p: T -> bool)
    ensures Filter(xs + ys, p) == Filter(xs, p) + Filter(ys, p)
    decreases |xs|
  {
    if |xs| == 0 {
      assert xs + ys == ys;
    } else {
      assert (xs + ys)[1..] == xs[1..] + ys;
      FilterAppend(xs[1..], ys, p);
    }
  }

  /** Filtering three concatenated runs filters each run. */
  lemma FilterThree<T>(xs: seq<T>, ys: seq<T>, zs: seq<T>, p: T -> bool)
    ensures Filter(xs + (ys + zs), p) == Filter(xs, p) + Filter(ys, p) + Filter(zs, p)
  {
    FilterAppend(xs, ys + zs, p);
    FilterAppend(ys, zs, p);
  }

  /** A run whose every element satisfies `p` survives whole. */
  lemma {:induction false} FilterAll<T>(xs: seq<T>, p: T -> bool)
    requires forall i :: 0 <= i < |xs| ==> p(xs[i])
    ensures Filter(xs, p) == xs
    decreases |xs|
  {
    if |xs| > 0 {
      FilterAll(xs[1..], p);
    }
  }

  /** A run with no element satisfying `p` disappears. */
  lemma {:induction false} FilterNone<T>(xs: seq<T>, p: T -> bool)
    requires forall i :: 0 <= i < |xs| ==> !p(xs[i])
    ensures Filter(xs, p) == []
    decreases |xs|
  {
    if |xs| > 0 {
      FilterNone(xs[1..], p);
    }
  }

  function Kept<T>(x: T, p: T -> bool): seq<T>
  {
    if p(x) then [x] else []
  }

  lemma FilterCons<T>(x: T, xs: seq<T>, p: T -> bool)
    ensures Filter([x] + xs, p) == Kept(x, p) + Filter(xs, p)
  {
    assert ([x] + xs)[1..] == xs;
  }

  /** Filtering a five-element list keeps each element on its own merit, in order. */
  lemma FilterFive<T>(a: T, b: T, c: T, d: T, e: T, p: T -> bool)
    ensures Filter([a, b, c, d, e], p) == Kept(a, p) + (Kept(b, p) + (Kept(c, p) + (Kept(d, p) + Kept(e, p))))
  {
    var s4, s3, s2, s1 := [b, c, d, e], [c, d, e], [d, e], [e];
    assert [a, b, c, d, e] == [a] + s4;
    assert s4 == [b] + s3 && s3 == [c] + s2 && s2 == [d] + s1 && s1 == [e] + [];
    FilterCons(a, s4, p);
    FilterCons(b, s3, p);
    FilterCons(c, s2, p);
    FilterCons(d, s1, p);
    FilterCons(e, [], p);
    assert Kept(e, p) + [] == Kept(e, p);
  }

  lemma ConcatAssoc<T>(x: seq<T>, y: seq<T>, z: seq<T>)
    ensures x + y + z == x + (y + z)
  {
  }

  /** Moving an element from the middle to the end keeps the multiset. */
  lemma MoveToEnd<T>(a: seq<T>, x: T, b: seq<T>)
    ensures multiset(a + b + [x]) == multiset(a + [x] + b)
  {
  }

  /** Where the pieces of `a + (m + (v + b))` lie. */
  lemma Splice<T>(a: seq<T>, m: seq<T>, v: seq<T>, b: seq<T>)
    ensures var r := a + (m + (v + b));
      r[..|a|] == a && r[..|a| + |m|] == a + m &&
      r[|a| + |m|..|a| + |m| + |v|] == v && r[|a| + |m| + |v|..] == b
  {
  }

  /** Dropping a prefix from the front of a concatenation leaves the rest. */
  lemma DropPrefix<T>(x: seq<T>, y: seq<T>)
    ensures (x + y)[|x|..] == y
  {
  }

  /** A non-empty front is its head in front of its tail. */
  lemma ConsSplit<T>(a: seq<T>, t: seq<T>)
    requires |a| > 0
    ensures a + t == [a[0]] + (a[1..] + t)
  {
    assert a == [a[0]] + a[1..];
  }

  lemma ConsJoin<T>(a: seq<T>, t: seq<T>)
    requires |a| > 0
    ensures [a[0]] + (a[1..] + t) == a + t
  {
    ConsSplit(a, t);
  }

  /** A sequence cut around two of its positions. */
  lemma SplitAround<T>(s: seq<T>, a: nat, b: nat)
    requires a < b < |s|
    ensures s == s[..a] + ([s[a]] + (s[a + 1..b] + ([s[b]] + s[b + 1..])))
  {
    assert s[a + 1..] == s[a + 1..b] + ([s[b]] + s[b + 1..]);
    assert s[a..] == [s[a]] + s[a + 1..];
    assert s == s[..a] + s[a..];
  }
}
