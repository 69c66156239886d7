/** Singly linked, null-terminated lists of allocation units, and sequences of them. */
module Chains {
  import opened Sequences

  class AllocUnit {
    var next: AllocUnit?
    const size: nat

    constructor (size: nat)
      ensures next == null && this.size == size
    {
      next, this.size := null, size;
    }
  }

  /** The unit at position `i`, or null at the end. */
  function At(xs: seq<AllocUnit>, i: nat): AllocUnit? {
    if i < |xs| then xs[i] else null
  }

  type Links = map<AllocUnit, AllocUnit?>

  function NextOf(next: Links, u: AllocUnit): AllocUnit? {
    if u in next then next[u] else null
  }

  /** In a memory with these `next` pointers, following them from `head` visits exactly the units of `xs`,
      in order, and ends in null. */
  ghost predicate Chain(next: Links, xs: seq<AllocUnit>, head: AllocUnit?) {
    && head == At(xs, 0)
    && (forall u | u in xs :: u in next)
    && forall i {:trigger NextOf(next, xs[i])} | 0 <= i < |xs| :: NextOf(next, xs[i]) == At(xs, i + 1)
  }

  function Last(xs: seq<AllocUnit>): AllocUnit? {
    if xs == [] then null else xs[|xs| - 1]
  }

  function Reverse(xs: seq<AllocUnit>): (r: seq<AllocUnit>)
    ensures |r| == |xs| && (forall x | x in r :: x in xs) && (forall x | x in xs :: x in r)
  {
    if xs == [] then [] else
      assert xs == xs[..|xs| - 1] + [xs[|xs| - 1]];
      [xs[|xs| - 1]] + Reverse(xs[..|xs| - 1])
  }

  lemma {:induction false} ReversedAt(xs: seq<AllocUnit>, k: nat)
    requires k < |xs|
    ensures Reverse(xs)[k] == xs[|xs| - 1 - k]
  {
    if k > 0 { ReversedAt(xs[..|xs| - 1], k - 1); }
  }

  function Pick(u: AllocUnit, keep: set<AllocUnit>, inside: bool): seq<AllocUnit> {
    if (u in keep) == inside then [u] else []
  }

  lemma {:induction false} ReverseFirst(xs: seq<AllocUnit>, u: AllocUnit)
    ensures Reverse([u] + xs) == Reverse(xs) + [u]
  {
    var all, n := [u] + xs, |xs| - 1;
    if xs == [] {
      assert all[..0] == [] && all[0] == u;
    } else {
      assert all[..n + 1] == [u] + xs[..n] && all[n + 1] == xs[n];
      ReverseFirst(xs[..n], u);
      assert [xs[n]] + (Reverse(xs[..n]) + [u]) == ([xs[n]] + Reverse(xs[..n])) + [u];
    }
  }

  /** The units of `xs` inside, or outside, `keep`, in order. */
  function Select(xs: seq<AllocUnit>, keep: set<AllocUnit>, inside: bool): (r: seq<AllocUnit>)
    ensures forall x | x in r :: x in xs && (x in keep <==> inside)
    ensures forall x | x in xs && (x in keep <==> inside) :: x in r
  {
    if xs == [] then [] else
      var n := |xs| - 1;
      assert xs == xs[..n] + [xs[n]];
      Select(xs[..n], keep, inside) + Pick(xs[n], keep, inside)
  }

  function Filter(xs: seq<AllocUnit>, keep: set<AllocUnit>): seq<AllocUnit> {
    Select(xs, keep, true)
  }

  function Dropped(xs: seq<AllocUnit>, keep: set<AllocUnit>): seq<AllocUnit> {
    Select(xs, keep, false)
  }

  lemma {:induction false} SelectFront(xs: seq<AllocUnit>, u: AllocUnit, keep: set<AllocUnit>, inside: bool)
    ensures Select([u] + xs, keep, inside) == Pick(u, keep, inside) + Select(xs, keep, inside)
  {
    var all, n := [u] + xs, |xs| - 1;
    if xs == [] {
      assert all[..0] == [] && all[0] == u;
    } else {
      assert all[..n + 1] == [u] + xs[..n] && all[n + 1] == xs[n];
      SelectFront(xs[..n], u, keep, inside);
      var first, middle, last := Pick(u, keep, inside), Select(xs[..n], keep, inside), Pick(xs[n], keep, inside);
      assert (first + middle) + last == first + (middle + last);
    }
  }

  /** The size of the block header. */
  const HEADER := 40

  /** What a list of units accounts for: sizes and headers. */
  function Bytes(xs: seq<AllocUnit>): nat {
    if xs == [] then 0 else Bytes(xs[..|xs| - 1]) + xs[|xs| - 1].size + HEADER
  }

  lemma {:induction false} BytesAppend(xs: seq<AllocUnit>, ys: seq<AllocUnit>)
    ensures Bytes(xs + ys) == Bytes(xs) + Bytes(ys)
  {
    if ys == [] {
      assert xs + ys == xs;
    } else {
      var n := |ys| - 1;
      assert (xs + ys)[..|xs| + n] == xs + ys[..n];
      BytesAppend(xs, ys[..n]);
    }
  }

  lemma {:induction false} BytesReverse(xs: seq<AllocUnit>)
    ensures Bytes(Reverse(xs)) == Bytes(xs)
  {
    if xs != [] {
      var n := |xs| - 1;
      BytesReverse(xs[..n]);
      BytesAppend([xs[n]], Reverse(xs[..n]));
      BytesOne(xs[n]);
    }
  }

  lemma BytesOne(u: AllocUnit)
    ensures Bytes([u]) == u.size + HEADER
  {
    assert [u][..0] == [];
  }

  /** Filtering splits the bytes of a list. */
  lemma {:induction false} BytesFilter(xs: seq<AllocUnit>, keep: set<AllocUnit>)
    ensures Bytes(xs) == Bytes(Filter(xs, keep)) + Bytes(Dropped(xs, keep))
  {
    if xs != [] {
      var n := |xs| - 1;
      BytesFilter(xs[..n], keep);
      BytesOne(xs[n]);
      BytesAppend(Filter(xs[..n], keep), Pick(xs[n], keep, true));
      BytesAppend(Dropped(xs[..n], keep), Pick(xs[n], keep, false));
    }
  }

  lemma {:induction false} ConcatUpdate(xss: seq<seq<AllocUnit>>, i: nat, ys: seq<AllocUnit>)
    requires i < |xss|
    ensures Bytes(Concat(xss[i := ys])) == Bytes(Concat(xss)) - Bytes(xss[i]) + Bytes(ys)
    ensures Bytes(xss[i]) <= Bytes(Concat(xss))
  {
    var n := |xss| - 1;
    BytesAppend(Concat(xss[..n]), xss[n]);
    BytesAppend(Concat(xss[i := ys][..n]), xss[i := ys][n]);
    if i == n {
      assert xss[i := ys][..n] == xss[..n];
    } else {
      assert xss[i := ys][..n] == xss[..n][i := ys];
      ConcatUpdate(xss[..n], i, ys);
    }
  }

  lemma {:induction false} ConcatHolds(xss: seq<seq<AllocUnit>>, x: AllocUnit)
    ensures x in Concat(xss) <==> exists i :: 0 <= i < |xss| && x in xss[i]
  {
    if xss != [] {
      var n := |xss| - 1;
      ConcatHolds(xss[..n], x);
      if i :| 0 <= i < n && x in xss[..n][i] { assert x in xss[i]; }
      if i :| 0 <= i < |xss| && x in xss[i] { if i < n { assert x in xss[..n][i]; } }
    }
  }

  lemma {:induction false} ReverseDistinct(xs: seq<AllocUnit>)
    requires Distinct(xs)
    ensures Distinct(Reverse(xs))
  {
    if xs != [] {
      var n := |xs| - 1;
      ReverseDistinct(xs[..n]);
      var r := Reverse(xs[..n]);
      assert forall i | 0 <= i < |r| :: r[i] in r;
      assert Reverse(xs) == [xs[n]] + r;
    }
  }
}
