/** The allocation tracker's lists as values: what each operation does to them, and that none loses or
    doubles a unit. */
module TrackerLists {
  import opened Sequences
  import opened Chains

  /** The contexts' lists, the global list and the list of the snapshot that is being filtered. */
  datatype Lists = Lists(contexts: seq<seq<AllocUnit>>, global: seq<AllocUnit>, snapshot: seq<AllocUnit>)

  const EMPTY := Lists([], [], [])

  // ---- The operations

  ghost function NewContext(v: Lists): Lists {
    v.(contexts := [[]] + v.contexts)
  }

  /** `alloc_context_add_block`: at the tail. */
  ghost function Allocate(v: Lists, i: nat, u: AllocUnit): Lists
    requires i < |v.contexts|
  {
    v.(contexts := v.contexts[i := v.contexts[i] + [u]])
  }

  /** Each block of the list is pushed onto the global list, so it ends up there in reverse. */
  ghost function FreeContext(v: Lists, i: nat): Lists
    requires i < |v.contexts|
  {
    Lists(v.contexts[..i] + v.contexts[i + 1..], Reverse(v.contexts[i]) + v.global, v.snapshot)
  }

  function Empties(n: nat): seq<seq<AllocUnit>> {
    seq(n, _ => [])
  }

  /** The lists of the contexts in order, then the global one. */
  ghost function TakeSnapshot(v: Lists): Lists {
    Lists(Empties(|v.contexts|), [], Concat(v.contexts) + v.global)
  }

  ghost function FilterSnapshot(v: Lists, keep: set<AllocUnit>): Lists {
    Lists(v.contexts, Reverse(Filter(v.snapshot, keep)) + v.global, [])
  }

  // ---- Conservation

  /** How often each unit is linked. */
  ghost function Blocks(v: Lists): multiset<AllocUnit> {
    multiset(Concat<AllocUnit>(v.contexts)) + multiset(v.global) + multiset(v.snapshot)
  }

  /** No unit is linked twice, in one list or in two. */
  ghost predicate Once(v: Lists) {
    forall u | u in Blocks(v) :: Blocks(v)[u] == 1
  }

  lemma ConcatSplit(xss: seq<seq<AllocUnit>>, i: nat)
    requires i < |xss|
    ensures multiset(Concat<AllocUnit>(xss)) == multiset(Concat<AllocUnit>(xss[..i] + xss[i + 1..])) + multiset(xss[i])
  {
    ConcatAround<AllocUnit>(xss, i);
  }

  lemma ConcatFront(xss: seq<seq<AllocUnit>>, xs: seq<AllocUnit>)
    ensures Concat([xs] + xss) == xs + Concat(xss)
  {
    ConcatAppend<AllocUnit>([xs], xss);
    ConcatOne<AllocUnit>(xs);
  }

  lemma {:induction false} ConcatEmpties(n: nat)
    ensures Concat(Empties(n)) == []
  {
    if n > 0 {
      assert Empties(n)[..n - 1] == Empties(n - 1);
      ConcatEmpties(n - 1);
    }
  }

  lemma {:induction false} ReverseBlocks(xs: seq<AllocUnit>)
    ensures multiset(Reverse(xs)) == multiset(xs)
  {
    if xs != [] {
      ReverseBlocks(xs[..|xs| - 1]);
      assert xs == xs[..|xs| - 1] + [xs[|xs| - 1]];
    }
  }

  lemma PickBlocks(u: AllocUnit, keep: set<AllocUnit>)
    ensures multiset(Pick(u, keep, true)) + multiset(Pick(u, keep, false)) == multiset{u}
  {
  }

  lemma LastBlock(xs: seq<AllocUnit>, n: nat)
    requires |xs| == n + 1
    ensures multiset(xs) == multiset(xs[..n]) + multiset{xs[n]}
  {
    assert xs == xs[..n] + [xs[n]];
  }

  lemma {:induction false} FilterBlocks(xs: seq<AllocUnit>, keep: set<AllocUnit>)
    ensures multiset(xs) == multiset(Filter(xs, keep)) + multiset(Dropped(xs, keep))
  {
    if xs != [] {
      var n := |xs| - 1;
      FilterBlocks(xs[..n], keep);
      LastBlock(xs, n);
      PickBlocks(xs[n], keep);
      assert multiset(Filter(xs, keep)) == multiset(Filter(xs[..n], keep)) + multiset(Pick(xs[n], keep, true));
      assert multiset(Dropped(xs, keep)) == multiset(Dropped(xs[..n], keep)) + multiset(Pick(xs[n], keep, false));
    }
  }

  lemma NewContextConserves(v: Lists)
    ensures Blocks(NewContext(v)) == Blocks(v)
  {
    ConcatFront(v.contexts, []);
  }

  lemma AllocateConserves(v: Lists, i: nat, u: AllocUnit)
    requires i < |v.contexts|
    ensures Blocks(Allocate(v, i, u)) == Blocks(v) + multiset{u}
  {
    var after := Allocate(v, i, u).contexts;
    ConcatSplit(v.contexts, i);
    ConcatSplit(after, i);
    assert after[..i] + after[i + 1..] == v.contexts[..i] + v.contexts[i + 1..];
  }

  lemma FreeContextConserves(v: Lists, i: nat)
    requires i < |v.contexts|
    ensures Blocks(FreeContext(v, i)) == Blocks(v)
  {
    ConcatSplit(v.contexts, i);
    ReverseBlocks(v.contexts[i]);
  }

  lemma SnapshotConserves(v: Lists)
    requires v.snapshot == []
    ensures Blocks(TakeSnapshot(v)) == Blocks(v)
  {
    ConcatEmpties(|v.contexts|);
  }

  /** Filtering frees exactly the units of the snapshot that are not kept; every other unit stays linked
      as often as it was. */
  lemma FilterSplitsExactly(v: Lists, keep: set<AllocUnit>)
    ensures Blocks(v) == Blocks(FilterSnapshot(v, keep)) + multiset(Dropped(v.snapshot, keep))
  {
    ReverseBlocks(Filter(v.snapshot, keep));
    FilterBlocks(v.snapshot, keep);
  }

  // ---- Live units

  lemma {:induction false} TakeAway<T>(live: set<T>, rest: multiset<T>, gone: seq<T>)
    requires multiset(live) == rest + multiset(gone)
    ensures rest == multiset(live - Elements(gone))
  {
    if gone == [] {
      assert live - Elements(gone) == live;
    } else {
      var n := |gone| - 1;
      assert gone == gone[..n] + [gone[n]];
      assert gone[n] in multiset(live);
      assert multiset(live - {gone[n]}) == multiset(live) - multiset{gone[n]};
      TakeAway(live - {gone[n]}, rest, gone[..n]);
      assert live - {gone[n]} - Elements(gone[..n]) == live - Elements(gone);
    }
  }

  /** If exactly the live units are linked, a filter leaves exactly those it does not free. */
  lemma FilterLeavesLive(v: Lists, keep: set<AllocUnit>, live: set<AllocUnit>)
    requires Blocks(v) == multiset(live)
    ensures Blocks(FilterSnapshot(v, keep)) == multiset(live - Elements(Dropped(v.snapshot, keep)))
  {
    FilterSplitsExactly(v, keep);
    TakeAway(live, Blocks(FilterSnapshot(v, keep)), Dropped(v.snapshot, keep));
  }

  // ---- Bytes

  /** Bytes of all linked units, headers included. */
  ghost function LiveBytes(v: Lists): nat {
    Bytes(Concat(v.contexts)) + Bytes(v.global) + Bytes(v.snapshot)
  }

  lemma NewContextBytes(v: Lists)
    ensures LiveBytes(NewContext(v)) == LiveBytes(v)
  {
    ConcatFront(v.contexts, []);
    assert [] + Concat(v.contexts) == Concat(v.contexts);
  }

  lemma AllocateBytes(v: Lists, i: nat, u: AllocUnit)
    requires i < |v.contexts|
    ensures LiveBytes(Allocate(v, i, u)) == LiveBytes(v) + u.size + HEADER
  {
    ConcatUpdate(v.contexts, i, v.contexts[i] + [u]);
    BytesAppend(v.contexts[i], [u]);
    BytesOne(u);
  }

  lemma ConcatRemove(xss: seq<seq<AllocUnit>>, i: nat)
    requires i < |xss|
    ensures Bytes(Concat(xss)) == Bytes(Concat(xss[..i] + xss[i + 1..])) + Bytes(xss[i])
  {
    var before, after := Concat<AllocUnit>(xss[..i]), Concat<AllocUnit>(xss[i + 1..]);
    ConcatAround<AllocUnit>(xss, i);
    BytesAppend(before + xss[i], after);
    BytesAppend(before, xss[i]);
    BytesAppend(before, after);
  }

  lemma FreeContextBytes(v: Lists, i: nat)
    requires i < |v.contexts|
    ensures LiveBytes(FreeContext(v, i)) == LiveBytes(v)
  {
    ConcatRemove(v.contexts, i);
    BytesReverse(v.contexts[i]);
    BytesAppend(Reverse(v.contexts[i]), v.global);
  }

  lemma SnapshotBytes(v: Lists)
    requires v.snapshot == []
    ensures LiveBytes(TakeSnapshot(v)) == LiveBytes(v)
  {
    ConcatEmpties(|v.contexts|);
    BytesAppend(Concat(v.contexts), v.global);
  }

  lemma FilterBytes(v: Lists, keep: set<AllocUnit>)
    ensures LiveBytes(FilterSnapshot(v, keep)) + Bytes(Dropped(v.snapshot, keep)) == LiveBytes(v)
  {
    BytesFilter(v.snapshot, keep);
    BytesReverse(Filter(v.snapshot, keep));
    BytesAppend(Reverse(Filter(v.snapshot, keep)), v.global);
  }

  // ---- Lists apart

  lemma OnceIsDistinct(v: Lists, xs: seq<AllocUnit>)
    requires Once(v) && multiset(xs) <= Blocks(v)
    ensures Distinct(xs)
  {
    forall i, j | 0 <= i < j < |xs| ensures xs[i] != xs[j] {
      assert xs == xs[..i] + [xs[i]] + xs[i + 1..];
      assert xs[j] in xs[i + 1..];
      assert multiset(xs)[xs[j]] <= 1;
    }
  }

  lemma ContextsAreApart(xss: seq<seq<AllocUnit>>, i: nat, j: nat, u: AllocUnit)
    requires i < |xss| && j < |xss| && i != j && u in xss[i] && u in xss[j]
    ensures multiset(Concat<AllocUnit>(xss))[u] >= 2
  {
    var rest, j' := xss[..i] + xss[i + 1..], if j < i then j else j - 1;
    ConcatSplit(xss, i);
    assert rest[j'] == xss[j] && u in rest[j'];
    ConcatHolds(rest, u);
    var others, own := multiset(Concat<AllocUnit>(rest)), multiset(xss[i]);
    assert u in others && u in own;
  }

  /** Linked once, the lists have no unit in common and none holds a unit twice. */
  lemma ListsAreApart(v: Lists, i: nat)
    requires Once(v) && i < |v.contexts|
    ensures Distinct(v.contexts[i])
    ensures forall u | u in v.contexts[i] :: u !in v.global && u !in v.snapshot
    ensures forall j, u | 0 <= j < |v.contexts| && j != i && u in v.contexts[i] :: u !in v.contexts[j]
  {
    ConcatSplit(v.contexts, i);
    OnceIsDistinct(v, v.contexts[i]);
    forall u | u in v.contexts[i] ensures u !in v.global && u !in v.snapshot {
      assert u in multiset(v.contexts[i]) && Blocks(v)[u] == 1;
    }
    forall j, u | 0 <= j < |v.contexts| && j != i && u in v.contexts[i] ensures u !in v.contexts[j] {
      assert u in Blocks(v);
      if u in v.contexts[j] { ContextsAreApart(v.contexts, i, j, u); }
    }
  }

  lemma GlobalIsApart(v: Lists)
    requires Once(v)
    ensures Distinct(v.global) && Distinct(v.snapshot)
    ensures forall u | u in v.global :: u !in v.snapshot
  {
    OnceIsDistinct(v, v.global);
    OnceIsDistinct(v, v.snapshot);
    forall u | u in v.global ensures u !in v.snapshot { assert u in multiset(v.global) && Blocks(v)[u] == 1; }
  }
}
