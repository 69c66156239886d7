/** The pointers that the tracker's lists are made of, and the pointer writes that turn one shape of the
    lists into another. */
module ListPointers {
  import opened Sequences
  import opened Chains
  import opened TrackerLists

  /** Where a context's list begins and ends. */
  datatype Ends = Ends(head: AllocUnit?, tail: AllocUnit?)

  datatype Pointers = Pointers(next: Links, contexts: seq<Ends>, head: AllocUnit?, snapshot: AllocUnit?)

  function EndsOf(xs: seq<AllocUnit>): Ends {
    Ends(At(xs, 0), Last(xs))
  }

  /** The pointers form these lists: each is a chain from its head, a context's tail pointer is the last unit
      of its list, and no unit is linked twice. */
  ghost predicate Shape(p: Pointers, v: Lists) {
    && |p.contexts| == |v.contexts|
    && (forall i | 0 <= i < |v.contexts| :: ContextShape(p, v, i))
    && Chain(p.next, v.global, p.head)
    && Chain(p.next, v.snapshot, p.snapshot)
    && Once(v)
  }

  ghost predicate ContextShape(p: Pointers, v: Lists, i: nat)
    requires i < |p.contexts| == |v.contexts|
  {
    Chain(p.next, v.contexts[i], p.contexts[i].head) && p.contexts[i].tail == Last(v.contexts[i])
  }

  lemma ChainFrame(next: Links, xs: seq<AllocUnit>, head: AllocUnit?, u: AllocUnit, q: AllocUnit?)
    requires Chain(next, xs, head) && u !in xs
    ensures Chain(next[u := q], xs, head)
  {
    forall i | 0 <= i < |xs| ensures NextOf(next[u := q], xs[i]) == At(xs, i + 1) {
      assert NextOf(next, xs[i]) == At(xs, i + 1);
    }
  }

  lemma ChainRest(next: Links, xs: seq<AllocUnit>, head: AllocUnit?)
    requires Chain(next, xs, head) && xs != []
    ensures head == xs[0] && xs[0] in next && Chain(next, xs[1..], next[xs[0]])
    ensures Last(xs[1..]) == if |xs| == 1 then null else Last(xs)
  {
    var rest := xs[1..];
    forall i | 0 <= i < |rest| ensures NextOf(next, rest[i]) == At(rest, i + 1) {
      assert rest[i] == xs[i + 1] && NextOf(next, xs[i + 1]) == At(xs, i + 2);
    }
    assert NextOf(next, xs[0]) == At(xs, 1);
  }

  /** A write to the last unit's `next` joins two chains. */
  lemma ChainJoin(next: Links, xs: seq<AllocUnit>, head: AllocUnit?, ys: seq<AllocUnit>, head': AllocUnit?)
    requires Chain(next, xs, head) && Chain(next, ys, head') && xs != [] && Distinct(xs)
    requires xs[|xs| - 1] !in ys
    ensures Chain(next[xs[|xs| - 1] := head'], xs + ys, head)
  {
    var n, all := |xs|, xs + ys;
    var next' := next[xs[n - 1] := head'];
    forall i | 0 <= i < |all| ensures NextOf(next', all[i]) == At(all, i + 1) {
      if i < n - 1 { assert NextOf(next, xs[i]) == At(xs, i + 1) && all[i] == xs[i]; }
      if i >= n { assert all[i] == ys[i - n] && NextOf(next, ys[i - n]) == At(ys, i - n + 1); }
    }
  }

  /** A unit whose `next` is the old head becomes the new head. */
  lemma ChainPush(next: Links, xs: seq<AllocUnit>, head: AllocUnit?, u: AllocUnit)
    requires Chain(next, xs, head) && u !in xs
    ensures Chain(next[u := head], [u] + xs, u)
  {
    var all, next' := [u] + xs, next[u := head];
    forall i | 0 <= i < |all| ensures NextOf(next', all[i]) == At(all, i + 1) {
      if i > 0 { assert all[i] == xs[i - 1] && NextOf(next, xs[i - 1]) == At(xs, i); }
    }
  }

  // ---- Pointer writes, and what they do to the lists

  /** `alloc_tracker_add_block_to_global_list`. */
  function Push(p: Pointers, u: AllocUnit): Pointers {
    p.(next := p.next[u := p.head], head := u)
  }

  /** The list of a context, or the snapshot, without its first unit. */
  ghost function PopContext(v: Lists, i: nat): Lists
    requires i < |v.contexts| && v.contexts[i] != []
  {
    v.(contexts := v.contexts[i := v.contexts[i][1..]])
  }

  ghost function PopSnapshot(v: Lists): Lists
    requires v.snapshot != []
  {
    v.(snapshot := v.snapshot[1..])
  }

  lemma NotIn(v: Lists, u: AllocUnit)
    requires u !in Blocks(v)
    ensures u !in v.global && u !in v.snapshot
    ensures forall i | 0 <= i < |v.contexts| :: u !in v.contexts[i]
  {
    forall i | 0 <= i < |v.contexts| ensures u !in v.contexts[i] {
      if u in v.contexts[i] { ConcatHolds(v.contexts, u); }
    }
  }

  lemma LinkedAreInMemory(p: Pointers, v: Lists, u: AllocUnit)
    requires Shape(p, v)
    ensures u in Blocks(v) ==> u in p.next
  {
    ConcatHolds(v.contexts, u);
    forall i | 0 <= i < |v.contexts| && u in v.contexts[i] ensures u in p.next { assert ContextShape(p, v, i); }
  }

  /** What a write to the `next` of a unit in none of the lists leaves as it was. */
  lemma WriteOutside(p: Pointers, v: Lists, u: AllocUnit, q: AllocUnit?)
    requires Shape(p, v) && u !in Blocks(v)
    ensures Shape(p.(next := p.next[u := q]), v)
  {
    NotIn(v, u);
    ChainFrame(p.next, v.global, p.head, u, q);
    ChainFrame(p.next, v.snapshot, p.snapshot, u, q);
    var p' := p.(next := p.next[u := q]);
    forall i | 0 <= i < |v.contexts| ensures ContextShape(p', v, i) {
      assert ContextShape(p, v, i);
      ChainFrame(p.next, v.contexts[i], p.contexts[i].head, u, q);
    }
  }

  lemma PushShape(p: Pointers, v: Lists, u: AllocUnit)
    requires Shape(p, v) && u !in Blocks(v)
    ensures Shape(Push(p, u), v.(global := [u] + v.global))
    ensures Blocks(v.(global := [u] + v.global)) == Blocks(v) + multiset{u}
  {
    NotIn(v, u);
    WriteOutside(p, v, u, p.head);
    ChainPush(p.next, v.global, p.head, u);
    var p', v' := Push(p, u), v.(global := [u] + v.global);
    forall i | 0 <= i < |v.contexts| ensures ContextShape(p', v', i) {
      assert ContextShape(p.(next := p.next[u := p.head]), v, i);
    }
    assert Blocks(v') == Blocks(v) + multiset{u};
  }

  lemma Fewer(v: Lists, v': Lists, u: AllocUnit)
    requires Once(v) && Blocks(v) == Blocks(v') + multiset{u}
    ensures Once(v') && u !in Blocks(v')
  {
    assert u in Blocks(v) && Blocks(v)[u] == 1;
    forall x | x in Blocks(v') ensures Blocks(v')[x] == 1 { assert x in Blocks(v); }
  }

  lemma PopContextBlocks(v: Lists, i: nat)
    requires i < |v.contexts| && v.contexts[i] != []
    ensures Blocks(v) == Blocks(PopContext(v, i)) + multiset{v.contexts[i][0]}
  {
    var after := PopContext(v, i).contexts;
    ConcatSplit(v.contexts, i);
    ConcatSplit(after, i);
    assert after[..i] + after[i + 1..] == v.contexts[..i] + v.contexts[i + 1..];
    assert v.contexts[i] == [v.contexts[i][0]] + v.contexts[i][1..];
  }

  lemma PopContextShape(p: Pointers, v: Lists, i: nat)
    requires Shape(p, v) && i < |v.contexts| && v.contexts[i] != []
    ensures p.contexts[i].head == v.contexts[i][0] && v.contexts[i][0] in p.next
    ensures Shape(p.(contexts := p.contexts[i := EndsOf(v.contexts[i][1..])]), PopContext(v, i))
    ensures p.next[v.contexts[i][0]] == EndsOf(v.contexts[i][1..]).head
    ensures Blocks(v) == Blocks(PopContext(v, i)) + multiset{v.contexts[i][0]}
    ensures v.contexts[i][0] !in Blocks(PopContext(v, i))
  {
    var u, rest, v' := v.contexts[i][0], v.contexts[i][1..], PopContext(v, i);
    assert ContextShape(p, v, i);
    ChainRest(p.next, v.contexts[i], p.contexts[i].head);
    PopContextBlocks(v, i);
    Fewer(v, v', u);
    var p' := p.(contexts := p.contexts[i := EndsOf(rest)]);
    forall j | 0 <= j < |v'.contexts| ensures ContextShape(p', v', j) {
      assert ContextShape(p, v, j);
    }
  }

  lemma PopSnapshotShape(p: Pointers, v: Lists)
    requires Shape(p, v) && v.snapshot != []
    ensures p.snapshot == v.snapshot[0] && v.snapshot[0] in p.next
    ensures Shape(p.(snapshot := p.next[v.snapshot[0]]), PopSnapshot(v))
    ensures Blocks(v) == Blocks(PopSnapshot(v)) + multiset{v.snapshot[0]}
    ensures v.snapshot[0] !in Blocks(PopSnapshot(v))
  {
    ChainRest(p.next, v.snapshot, p.snapshot);
    assert v.snapshot == [v.snapshot[0]] + v.snapshot[1..];
    assert Blocks(v) == Blocks(PopSnapshot(v)) + multiset{v.snapshot[0]};
    Fewer(v, PopSnapshot(v), v.snapshot[0]);
    var p' := p.(snapshot := p.next[v.snapshot[0]]);
    forall i | 0 <= i < |v.contexts| ensures ContextShape(p', PopSnapshot(v), i) {
      assert ContextShape(p, v, i);
    }
  }

  ghost function ForgetSnapshot(v: Lists): Lists {
    v.(snapshot := [])
  }

  lemma ForgetSnapshotShape(p: Pointers, v: Lists)
    requires Shape(p, v)
    ensures Shape(p.(snapshot := null), ForgetSnapshot(v))
  {
    var p', v' := p.(snapshot := null), ForgetSnapshot(v);
    assert Blocks(v) == Blocks(v') + multiset(v.snapshot);
    forall u | u in Blocks(v') ensures Blocks(v')[u] == 1 { assert u in Blocks(v); }
    forall i | 0 <= i < |v.contexts| ensures ContextShape(p', v', i) { assert ContextShape(p, v, i); }
  }

  // ---- Contexts come and go

  lemma AddContextShape(p: Pointers, v: Lists)
    requires Shape(p, v)
    ensures Shape(p.(contexts := [Ends(null, null)] + p.contexts), NewContext(v))
  {
    NewContextConserves(v);
    var p', v' := p.(contexts := [Ends(null, null)] + p.contexts), NewContext(v);
    forall i | 0 <= i < |v'.contexts| ensures ContextShape(p', v', i) {
      if i > 0 { assert ContextShape(p, v, i - 1); }
    }
  }

  ghost function DropContext(v: Lists, i: nat): Lists
    requires i < |v.contexts|
  {
    v.(contexts := v.contexts[..i] + v.contexts[i + 1..])
  }

  lemma DropContextBlocks(v: Lists, i: nat)
    requires i < |v.contexts| && v.contexts[i] == []
    ensures Blocks(DropContext(v, i)) == Blocks(v)
  {
    ConcatSplit(v.contexts, i);
  }

  lemma DropContextShape(p: Pointers, v: Lists, i: nat)
    requires Shape(p, v) && i < |v.contexts| && v.contexts[i] == []
    ensures Shape(p.(contexts := p.contexts[..i] + p.contexts[i + 1..]), DropContext(v, i))
  {
    DropContextBlocks(v, i);
    var p', v' := p.(contexts := p.contexts[..i] + p.contexts[i + 1..]), DropContext(v, i);
    forall j | 0 <= j < |v'.contexts| ensures ContextShape(p', v', j) {
      assert ContextShape(p, v, if j < i then j else j + 1);
    }
  }

  // ---- Appending

  /** `alloc_context_add_block`, of a unit whose `next` is null. */
  function Append(p: Pointers, i: nat, u: AllocUnit): Pointers
    requires i < |p.contexts|
  {
    var ends := p.contexts[i];
    Pointers(
      if ends.tail == null then p.next[u := null] else p.next[u := null][ends.tail := u],
      p.contexts[i := Ends(if ends.head == null then u else ends.head, u)],
      p.head, p.snapshot)
  }

  /** A write to the last unit of a context's list leaves every other list as it was. */
  lemma WriteContextTail(p: Pointers, v: Lists, i: nat, q: AllocUnit?)
    requires Shape(p, v) && i < |v.contexts| && v.contexts[i] != []
    ensures var p' := p.(next := p.next[Last(v.contexts[i]) := q]);
      && Chain(p'.next, v.global, p'.head) && Chain(p'.next, v.snapshot, p'.snapshot)
      && forall j | 0 <= j < |v.contexts| && j != i :: ContextShape(p', v, j)
  {
    var tail := Last(v.contexts[i]);
    ListsAreApart(v, i);
    assert tail in v.contexts[i];
    ChainFrame(p.next, v.global, p.head, tail, q);
    ChainFrame(p.next, v.snapshot, p.snapshot, tail, q);
    var p' := p.(next := p.next[tail := q]);
    forall j | 0 <= j < |v.contexts| && j != i ensures ContextShape(p', v, j) {
      assert ContextShape(p, v, j);
      ChainFrame(p.next, v.contexts[j], p.contexts[j].head, tail, q);
    }
  }

  lemma AppendOwnChain(p: Pointers, v: Lists, i: nat, u: AllocUnit)
    requires Shape(p, v) && i < |v.contexts| && u !in Blocks(v)
    ensures ContextShape(Append(p, i, u), Allocate(v, i, u), i)
  {
    var next, xs, head := p.next[u := null], v.contexts[i], p.contexts[i].head;
    NotIn(v, u);
    assert ContextShape(p, v, i);
    ChainFrame(p.next, xs, head, u, null);
    assert Chain(next, [u], u);
    if xs != [] {
      ListsAreApart(v, i);
      ChainJoin(next, xs, head, [u], u);
    } else {
      assert xs + [u] == [u];
    }
  }

  lemma AppendShape(p: Pointers, v: Lists, i: nat, u: AllocUnit)
    requires Shape(p, v) && i < |v.contexts| && u !in Blocks(v)
    ensures Shape(Append(p, i, u), Allocate(v, i, u))
  {
    var p1 := p.(next := p.next[u := null]);
    var p', v' := Append(p, i, u), Allocate(v, i, u);
    WriteOutside(p, v, u, null);
    assert ContextShape(p, v, i);
    var p2 := if v.contexts[i] == [] then p1 else p1.(next := p1.next[Last(v.contexts[i]) := u]);
    if v.contexts[i] != [] { WriteContextTail(p1, v, i, u); }
    forall j | 0 <= j < |v'.contexts| ensures ContextShape(p', v', j) {
      if j == i { AppendOwnChain(p, v, i, u); } else { assert ContextShape(p2, v, j); }
    }
    AllocateConserves(v, i, u);
    assert Once(v') by { assert Blocks(v') == Blocks(v) + multiset{u}; }
  }

  // ---- Splicing

  /** `appendToSnapshot`. */
  function Splice(p: Pointers, tail: AllocUnit?, head: AllocUnit?): Pointers {
    if p.snapshot == null || tail == null then p.(snapshot := head) else p.(next := p.next[tail := head])
  }

  ghost function SpliceContext(v: Lists, i: nat): Lists
    requires i < |v.contexts|
  {
    Lists(v.contexts[i := []], v.global, v.snapshot + v.contexts[i])
  }

  ghost function SpliceGlobal(v: Lists): Lists {
    Lists(v.contexts, [], v.snapshot + v.global)
  }

  /** A write to the last unit of the snapshot leaves every other list as it was. */
  lemma WriteSnapshotTail(p: Pointers, v: Lists, q: AllocUnit?)
    requires Shape(p, v) && v.snapshot != []
    ensures var p' := p.(next := p.next[Last(v.snapshot) := q]);
      && Chain(p'.next, v.global, p'.head)
      && forall j | 0 <= j < |v.contexts| :: ContextShape(p', v, j)
  {
    var tail := Last(v.snapshot);
    assert tail in v.snapshot;
    GlobalIsApart(v);
    ChainFrame(p.next, v.global, p.head, tail, q);
    var p' := p.(next := p.next[tail := q]);
    forall j | 0 <= j < |v.contexts| ensures ContextShape(p', v, j) {
      ListsAreApart(v, j);
      assert ContextShape(p, v, j);
      ChainFrame(p.next, v.contexts[j], p.contexts[j].head, tail, q);
    }
  }

  lemma SpliceJoins(p: Pointers, v: Lists, i: nat)
    requires Shape(p, v) && i < |v.contexts| && v.contexts[i] != []
    ensures var p' := Splice(p, Last(v.snapshot), p.contexts[i].head);
      Chain(p'.next, v.snapshot + v.contexts[i], p'.snapshot)
  {
    var xs := v.contexts[i];
    assert ContextShape(p, v, i);
    if v.snapshot != [] {
      ListsAreApart(v, i);
      GlobalIsApart(v);
      assert Last(v.snapshot) in v.snapshot;
      ChainJoin(p.next, v.snapshot, p.snapshot, xs, p.contexts[i].head);
    } else {
      assert v.snapshot + xs == xs;
    }
  }

  lemma SpliceContextShape(p: Pointers, v: Lists, i: nat)
    requires Shape(p, v) && i < |v.contexts| && v.contexts[i] != []
    ensures Shape(Splice(p, Last(v.snapshot), p.contexts[i].head).(contexts := p.contexts[i := EndsOf([])]),
      SpliceContext(v, i))
    ensures Blocks(SpliceContext(v, i)) == Blocks(v)
  {
    var p1 := Splice(p, Last(v.snapshot), p.contexts[i].head);
    var p', v' := p1.(contexts := p.contexts[i := EndsOf([])]), SpliceContext(v, i);
    assert ContextShape(p, v, i);
    if v.snapshot != [] { WriteSnapshotTail(p, v, p.contexts[i].head); }
    SpliceJoins(p, v, i);
    forall j | 0 <= j < |v'.contexts| ensures ContextShape(p', v', j) {
      if j != i { assert ContextShape(p, v, j); assert v.snapshot != [] ==> ContextShape(p1, v, j); }
    }
    SpliceContextBlocks(v, i);
  }

  lemma SpliceContextBlocks(v: Lists, i: nat)
    requires i < |v.contexts|
    ensures Blocks(SpliceContext(v, i)) == Blocks(v)
  {
    var after := v.contexts[i := []];
    ConcatSplit(v.contexts, i);
    ConcatSplit(after, i);
    assert after[..i] + after[i + 1..] == v.contexts[..i] + v.contexts[i + 1..];
  }

  lemma SpliceGlobalShape(p: Pointers, v: Lists)
    requires Shape(p, v)
    ensures Shape(Splice(p, Last(v.snapshot), p.head).(head := null), SpliceGlobal(v))
  {
    var p1 := Splice(p, Last(v.snapshot), p.head);
    var p', v' := p1.(head := null), SpliceGlobal(v);
    if v.snapshot != [] {
      GlobalIsApart(v);
      WriteSnapshotTail(p, v, p.head);
      assert Last(v.snapshot) in v.snapshot;
      ChainJoin(p.next, v.snapshot, p.snapshot, v.global, p.head);
    } else {
      assert v.snapshot + v.global == v.global;
    }
    forall j | 0 <= j < |v'.contexts| ensures ContextShape(p', v', j) {
      assert ContextShape(p, v, j);
      assert v.snapshot != [] ==> ContextShape(p1, v, j);
    }
    assert Blocks(v') == Blocks(v);
  }
}
