/** Sequences of anything. */
module Sequences {

  ghost predicate Distinct<T>(xs: seq<T>) {
    forall i, j | 0 <= i < j < |xs| :: xs[i] != xs[j]
  }

  /** Taking away an element before the last leaves the last where it was: at the end. */
  lemma RemoveBeforeLast<T>(xs: seq<T>, i: nat)
    requires i + 1 < |xs|
    ensures var n, rest := |xs| - 1, xs[..i] + xs[i + 1..];
      |rest| == n && rest[..n - 1] == xs[..n][..i] + xs[..n][i + 1..] && rest[n - 1] == xs[n]
  {
  }

  function Concat<T>(xss: seq<seq<T>>): seq<T> {
    if xss == [] then [] else Concat(xss[..|xss| - 1]) + xss[|xss| - 1]
  }

  lemma {:induction false} ConcatAppend<T>(xss: seq<seq<T>>, yss: seq<seq<T>>)
    ensures Concat(xss + yss) == Concat(xss) + Concat(yss)
  {
    var n, all := |yss| - 1, xss + yss;
    if yss == [] {
      assert all == xss;
    } else {
      assert all[..|xss| + n] == xss + yss[..n] && all[|xss| + n] == yss[n];
      ConcatAppend(xss, yss[..n]);
      assert Concat(all) == (Concat(xss) + Concat(yss[..n])) + yss[n];
    }
  }

  lemma ConcatOne<T>(xs: seq<T>)
    ensures Concat([xs]) == xs
  {
    assert [xs][..0] == [] && Concat([xs]) == Concat([xs][..0]) + xs;
  }

  lemma ConcatBetween<T>(before: seq<seq<T>>, xs: seq<T>, after: seq<seq<T>>)
    ensures Concat(before + ([xs] + after)) == Concat(before) + xs + Concat(after)
  {
    ConcatAppend(before, [xs] + after);
    ConcatAppend([xs], after);
    ConcatOne(xs);
  }

  /** A list stands between those before it and those after it. */
  lemma ConcatAround<T>(xss: seq<seq<T>>, i: nat)
    requires i < |xss|
    ensures Concat(xss) == Concat(xss[..i]) + xss[i] + Concat(xss[i + 1..])
    ensures Concat(xss[..i] + xss[i + 1..]) == Concat(xss[..i]) + Concat(xss[i + 1..])
  {
    var before, after := xss[..i], xss[i + 1..];
    SplitAround(xss, i);
    ConcatBetween(before, xss[i], after);
    ConcatAppend(before, after);
  }

  lemma SplitAround<T>(xss: seq<T>, i: nat)
    requires i < |xss|
    ensures xss == xss[..i] + ([xss[i]] + xss[i + 1..])
  {
  }

  ghost function Elements<T>(xs: seq<T>): set<T> {
    set x | x in xs
  }
}
