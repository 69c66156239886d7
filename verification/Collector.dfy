/** A collection cycle run from start to end while the mutators are idle. */
module Collector {
  import opened Sequences
  import opened Heap
  import opened MarkState
  import opened MarkEngine
  import opened MarkInvariant
  import opened MarkTheorems
  import opened Tracer

  /** What a cycle leaves: the blocks that read as marked when it started and those its trace reached
      without entering one of them. */
  ghost function Survivors(g: Graph, pre: set<Block>, roots: set<Block>): set<Block> {
    pre + ReachedSet(g, pre, roots)
  }

  /** An idle cycle frees no reachable block exactly when the premarked blocks are harmless. */
  lemma IdleCycleIsSafeExactlyWhenHarmless(g: Graph, pre: set<Block>, roots: set<Block>)
    requires NoDangling(g) && roots <= g.Keys && pre <= g.Keys
    ensures ReachedSet(g, {}, roots) <= Survivors(g, pre, roots) <==> HarmlessToAvoid(g, pre, roots)
  {
    HarmlessExactly(g, pre, roots);
    ReachedSetClosed(g, {}, roots);
    forall b | Reached(g, {}, roots, b) ensures b in g {
      ClosedHoldsReached(g, {}, roots, ReachedSet(g, {}, roots), b);
    }
  }

  /** With no block premarked a cycle keeps exactly what is reachable, and nothing it keeps refers to
      anything it freed. */
  lemma FreshCycleKeepsExactlyTheReachable(g: Graph, roots: set<Block>, a: Block, b: Block)
    requires NoDangling(g) && roots <= g.Keys
    ensures Survivors(g, {}, roots) == ReachedSet(g, {}, roots)
    ensures a in Survivors(g, {}, roots) && Edge(g, a, b) ==> b in Survivors(g, {}, roots)
  {
    ReachedSetClosed(g, {}, roots);
  }

  /** Right after a cycle with no block premarked, another one with the same roots frees nothing. */
  lemma SecondCycleFreesNothing(g: Graph, g': Graph, roots: set<Block>)
    requires g'.Keys == Survivors(g, {}, roots) && forall b | b in g' :: g'[b] == g[b]
    ensures Survivors(g', {}, roots) == g'.Keys
  {
    forall b | b in g' ensures Reached(g', {}, roots, b) {
      var p :| IsPath(g, {}, roots, p) && p[|p| - 1] == b;
      forall i | 0 <= i < |p| - 1 ensures Edge(g', p[i], p[i + 1]) {
        assert Edge(g, p[i], p[i + 1]);
        assert IsPath(g, {}, roots, p[..i + 1]) && p[..i + 1][i] == p[i];
        assert p[i] in ReachedSet(g, {}, roots);
      }
      assert IsPath(g', {}, roots, p);
    }
  }

  ghost function MultiSet(g: Graph): set<Block> {
    set b | b in g && Multi(g, b)
  }

  /** No array that the trace from `roots` comes to is too wide for the mark queue. */
  ghost predicate AllFit(k: Caps, g: Graph, before: set<Block>, roots: set<Block>) {
    forall b | b in ReachedSet(g, before, roots) :: !TooWide(k, g, b)
  }

  lemma JobFits(k: Caps, g: Graph, before: set<Block>, roots: set<Block>, mid: set<Block>, root: Block)
    requires NoDangling(g) && roots <= g.Keys && AllFit(k, g, before, roots)
    requires before <= mid && root in roots
    ensures Fits(k, Job(g, mid, root))
  {
    ReachedSetClosed(g, before, roots);
    forall b | Job(g, mid, root).Due(b) ensures b in ReachedSet(g, before, roots) {
      ReachedMore(g, mid, {root}, before, roots, b);
      ClosedHoldsReached(g, before, roots, ReachedSet(g, before, roots), b);
    }
  }

  lemma MultiDueIsMulti(g: Graph, mid: set<Block>, root: Block)
    ensures |MultiDue(Job(g, mid, root))| <= |MultiSet(g)|
  {
    SubsetSize(MultiDue(Job(g, mid, root)), MultiSet(g));
  }

  /** The traces from the roots come to an end one after the other, up to a null root or a panic. */
  ghost predicate PhaseHalts(k: Caps, g: Graph, marked: set<Block>, roots: seq<Ref>)
    decreases |roots|
  {
    roots == [] || roots[0].Null? ||
      var job := Job(g, marked, roots[0].block);
      Halts(k, job) &&
      (Finishes(k, job) ==> PhaseHalts(k, g, marked + ReachedSet(g, marked, {job.root}), roots[1..]))
  }

  /** They do if no array that they come to is too wide. */
  lemma {:induction false} FittingPhaseHalts(
      k: Caps, g: Graph, before: set<Block>, all: set<Block>, marked: set<Block>, roots: seq<Ref>)
    requires k.Valid() && NoDangling(g) && all <= g.Keys && before <= marked <= g.Keys && AllFit(k, g, before, all)
    requires RefBlocks(roots) <= all
    ensures PhaseHalts(k, g, marked, roots)
    decreases |roots|
  {
    if roots != [] && roots[0].To? {
      var job := Job(g, marked, roots[0].block);
      JobFits(k, g, before, all, marked, job.root);
      FittingHalts(k, job);
      assert RefBlocks(roots[1..]) <= RefBlocks(roots);
      FittingPhaseHalts(k, g, before, all, marked + ReachedSet(g, marked, {job.root}), roots[1..]);
    }
  }

  /** How the traces from the roots end, one after the other. */
  ghost function PhaseOutcome(k: Caps, g: Graph, marked: set<Block>, roots: seq<Ref>): Outcome
    decreases |roots|
  {
    if roots == [] then Finished
    else if roots[0].Null? then NullDereference
    else
      var job := Job(g, marked, roots[0].block);
      if Finishes(k, job) then PhaseOutcome(k, g, marked + ReachedSet(g, marked, {job.root}), roots[1..]) else Panicked
  }

  /** The trace from root `i` finishes, around what those before it marked. */
  ghost predicate RootFinishes(k: Caps, g: Graph, before: set<Block>, roots: seq<Ref>, i: nat)
    requires i < |roots|
  {
    roots[i].To? && Finishes(k, Job(g, Survivors(g, before, RefBlocks(roots[..i])), roots[i].block))
  }

  ghost predicate AllFinish(k: Caps, g: Graph, before: set<Block>, roots: seq<Ref>, i: nat)
    requires i <= |roots|
  {
    forall j | 0 <= j < i :: RootFinishes(k, g, before, roots, j)
  }

  lemma {:induction false} OutcomeFrom(k: Caps, g: Graph, before: set<Block>, roots: seq<Ref>, i: nat)
    requires NoDangling(g) && RefBlocks(roots) <= g.Keys && i <= |roots| && AllFinish(k, g, before, roots, i)
    ensures var o := PhaseOutcome(k, g, Survivors(g, before, RefBlocks(roots[..i])), roots[i..]);
      && (o.Finished? <==> AllFinish(k, g, before, roots, |roots|))
      && (o.NullDereference? <==>
        exists j | i <= j < |roots| :: roots[j].Null? && AllFinish(k, g, before, roots, j))
    decreases |roots| - i
  {
    if i < |roots| {
      assert roots[i..][1..] == roots[i + 1..];
      if RootFinishes(k, g, before, roots, i) {
        OneMoreRoot(g, before, roots, i);
        OutcomeFrom(k, g, before, roots, i + 1);
      } else {
        assert !AllFinish(k, g, before, roots, |roots|);
        assert forall j | i < j < |roots| :: !AllFinish(k, g, before, roots, j);
      }
    }
  }

  /** The marking phase finishes if and only if no root is null and each root's trace finishes around what those
      before it marked; it dereferences null if and only if that goes well up to a null root; else it panics. */
  lemma PhaseOutcomeExactly(k: Caps, g: Graph, before: set<Block>, roots: seq<Ref>)
    requires NoDangling(g) && RefBlocks(roots) <= g.Keys
    ensures PhaseOutcome(k, g, before, roots).Finished? <==> AllFinish(k, g, before, roots, |roots|)
    ensures PhaseOutcome(k, g, before, roots).NullDereference? <==>
      exists j | 0 <= j < |roots| :: roots[j].Null? && AllFinish(k, g, before, roots, j)
  {
    assert Survivors(g, before, RefBlocks(roots[..0])) == before by { NothingYet(g, before, roots); }
    assert roots[0..] == roots;
    OutcomeFrom(k, g, before, roots, 0);
  }

  lemma NothingYet(g: Graph, before: set<Block>, roots: seq<Ref>)
    ensures Survivors(g, before, RefBlocks(roots[..0])) == before
  {
    NothingFromNoRoots(g, before);
    assert RefBlocks(roots[..0]) == {};
  }

  /** With room in the deferred queue for all blocks with two references nothing panics. */
  lemma {:induction false} RoomyPhaseOutcome(k: Caps, g: Graph, marked: set<Block>, roots: seq<Ref>)
    requires k.Valid() && NoDangling(g) && RefBlocks(roots) <= g.Keys && marked <= g.Keys
    requires PhaseHalts(k, g, marked, roots) && |MultiSet(g)| <= k.deferred
    ensures PhaseOutcome(k, g, marked, roots) == if Null in roots then NullDereference else Finished
    decreases |roots|
  {
    if roots != [] && roots[0].To? {
      var job := Job(g, marked, roots[0].block);
      MultiDueIsMulti(g, marked, job.root);
      HaltsFinishes(k, job);
      assert roots == [roots[0]] + roots[1..];
      RoomyPhaseOutcome(k, g, marked + ReachedSet(g, marked, {job.root}), roots[1..]);
    }
  }

  lemma HaltsFinishes(k: Caps, job: Job)
    requires k.Valid() && job.Valid() && Halts(k, job) && |MultiDue(job)| <= k.deferred
    ensures Finishes(k, job)
  {
    var n, e :| Returns(k, job, n, e);
    DoMarkCannotPanic(k, job, n, e);
  }

  /** The same of a chunk of buffered blocks, each of which is cleared first. */
  ghost predicate ChunkHalts(k: Caps, g: Graph, marked: set<Block>, chunk: seq<Block>)
    decreases |chunk|
  {
    chunk == [] ||
      var job := Job(g, marked - {chunk[0]}, chunk[0]);
      Halts(k, job) &&
      (Finishes(k, job) ==> ChunkHalts(k, g, Remarked(g, marked, chunk[0]), chunk[1..]))
  }

  lemma {:induction false} FittingChunkHalts(
      k: Caps, g: Graph, before: set<Block>, all: set<Block>, marked: set<Block>, chunk: seq<Block>)
    requires k.Valid() && NoDangling(g) && all <= g.Keys && before <= marked <= g.Keys && before !! all
    requires AllFit(k, g, before, all) && Elements(chunk) <= all
    ensures ChunkHalts(k, g, marked, chunk)
    decreases |chunk|
  {
    if chunk != [] {
      var job := Job(g, marked - {chunk[0]}, chunk[0]);
      JobFits(k, g, before, all, job.before, job.root);
      FittingHalts(k, job);
      assert Elements(chunk[1..]) <= Elements(chunk);
      FittingChunkHalts(k, g, before, all, Remarked(g, marked, chunk[0]), chunk[1..]);
    }
  }

  ghost function ChunkOutcome(k: Caps, g: Graph, marked: set<Block>, chunk: seq<Block>): Outcome
    decreases |chunk|
  {
    if chunk == [] then Finished
    else if Finishes(k, Job(g, marked - {chunk[0]}, chunk[0]))
      then ChunkOutcome(k, g, Remarked(g, marked, chunk[0]), chunk[1..])
    else Panicked
  }

  /** The marks when the first `i` blocks of a chunk have been cleared and traced again. */
  ghost function Rescanned(g: Graph, marked: set<Block>, chunk: seq<Block>, i: nat): set<Block>
    requires i <= |chunk|
  {
    if i == 0 then marked else Remarked(g, Rescanned(g, marked, chunk, i - 1), chunk[i - 1])
  }

  ghost predicate BlockFinishes(k: Caps, g: Graph, marked: set<Block>, chunk: seq<Block>, i: nat)
    requires i < |chunk|
  {
    Finishes(k, Job(g, Rescanned(g, marked, chunk, i) - {chunk[i]}, chunk[i]))
  }

  lemma {:induction false} ChunkOutcomeFrom(k: Caps, g: Graph, marked: set<Block>, chunk: seq<Block>, i: nat)
    requires i <= |chunk| && forall j | 0 <= j < i :: BlockFinishes(k, g, marked, chunk, j)
    ensures var o := ChunkOutcome(k, g, Rescanned(g, marked, chunk, i), chunk[i..]);
      && !o.NullDereference?
      && (o.Finished? <==> forall j | 0 <= j < |chunk| :: BlockFinishes(k, g, marked, chunk, j))
    decreases |chunk| - i
  {
    if i < |chunk| && BlockFinishes(k, g, marked, chunk, i) {
      assert chunk[i..][1..] == chunk[i + 1..];
      ChunkOutcomeFrom(k, g, marked, chunk, i + 1);
    }
  }

  /** A chunk is finished if and only if each of its blocks' traces is, around what those before it left marked. */
  lemma ChunkOutcomeExactly(k: Caps, g: Graph, marked: set<Block>, chunk: seq<Block>)
    ensures var o := ChunkOutcome(k, g, marked, chunk);
      && !o.NullDereference?
      && (o.Finished? <==> forall j | 0 <= j < |chunk| :: BlockFinishes(k, g, marked, chunk, j))
  {
    assert chunk[0..] == chunk;
    ChunkOutcomeFrom(k, g, marked, chunk, 0);
  }

  lemma NextInChunk(k: Caps, g: Graph, marked: set<Block>, chunk: seq<Block>, i: nat)
    requires i < |chunk| && ChunkHalts(k, g, marked, chunk[i..])
    ensures var job := Job(g, marked - {chunk[i]}, chunk[i]);
      && Halts(k, job)
      && (Finishes(k, job) ==> ChunkHalts(k, g, Remarked(g, marked, chunk[i]), chunk[i + 1..]))
      && ChunkOutcome(k, g, marked, chunk[i..]) ==
        if Finishes(k, job) then ChunkOutcome(k, g, Remarked(g, marked, chunk[i]), chunk[i + 1..]) else Panicked
  {
    assert chunk[i..][1..] == chunk[i + 1..];
  }

  lemma {:induction false} RoomyChunkOutcome(k: Caps, g: Graph, marked: set<Block>, chunk: seq<Block>)
    requires k.Valid() && NoDangling(g) && Elements(chunk) <= g.Keys && marked <= g.Keys
    requires ChunkHalts(k, g, marked, chunk) && |MultiSet(g)| <= k.deferred
    ensures ChunkOutcome(k, g, marked, chunk).Finished?
    decreases |chunk|
  {
    if chunk != [] {
      var job := Job(g, marked - {chunk[0]}, chunk[0]);
      MultiDueIsMulti(g, job.before, job.root);
      HaltsFinishes(k, job);
      RoomyChunkOutcome(k, g, Remarked(g, marked, chunk[0]), chunk[1..]);
    }
  }

  /** Tracing from the next root, around all that is marked by then, adds up. */
  lemma OneMoreRoot(g: Graph, before: set<Block>, roots: seq<Ref>, i: nat)
    requires NoDangling(g) && RefBlocks(roots) <= g.Keys && i < |roots| && roots[i].To?
    ensures var marked := Survivors(g, before, RefBlocks(roots[..i]));
      marked + ReachedSet(g, marked, {roots[i].block}) == Survivors(g, before, RefBlocks(roots[..i + 1]))
  {
    assert roots[..i + 1] == roots[..i] + [roots[i]];
    assert RefBlocks(roots[..i + 1]) == RefBlocks(roots[..i]) + {roots[i].block};
    TracesCompose(g, before, RefBlocks(roots[..i]), {roots[i].block});
  }

  class Collector {
    const marker: Marker
    var heap: Graph
    var mutatorMarkedBitValue: bool

    ghost predicate Valid()
      reads this, marker
    {
      && marker.caps.Valid()
      && NoDangling(heap)
      && marker.markBit.Keys == heap.Keys
      && marker.queue == [] && marker.deferred == []
    }

    constructor (caps: Caps)
      requires caps.Valid()
      ensures Valid() && fresh(marker) && marker.caps == caps
      ensures heap == map[] && mutatorMarkedBitValue == marker.gcMarked
    {
      marker := new Marker(caps);
      heap, mutatorMarkedBitValue := map[], false;
    }

    /** `gc_on_allocate` on a new block, which has no descriptor yet. */
    method OnAllocate(b: Block)
      requires Valid() && b !in heap
      modifies this`heap, marker`markBit
      ensures Valid() && heap == old(heap)[b := NO_SLOTS]
      ensures marker.markBit == old(marker.markBit)[b := !mutatorMarkedBitValue]
      ensures b in marker.Marked() <==> mutatorMarkedBitValue != marker.gcMarked
      ensures marker.Marked() - {b} == old(marker.Marked())
    {
      heap := heap[b := NO_SLOTS];
      marker.markBit := marker.markBit[b := !mutatorMarkedBitValue];
      assert forall x, y | Edge(heap, x, y) :: Edge(old(heap), x, y);
    }

    /** Trace from one root of the snapshot, those before it being traced. */
    method TraceRoot(roots: seq<Ref>, i: nat, ghost before: set<Block>) returns (o: Outcome)
      requires Valid() && RefBlocks(roots) <= heap.Keys && i < |roots|
      requires PhaseHalts(marker.caps, heap, marker.Marked(), roots[i..])
      requires marker.Marked() == Survivors(heap, before, RefBlocks(roots[..i]))
      modifies marker`markBit, marker`queue, marker`deferred
      ensures o.Finished? ==>
        && Valid() && marker.Marked() == Survivors(heap, before, RefBlocks(roots[..i + 1]))
        && PhaseHalts(marker.caps, heap, marker.Marked(), roots[i + 1..])
      ensures o.NullDereference? <==> roots[i].Null?
      ensures o.Finished? ==>
        PhaseOutcome(marker.caps, heap, marker.Marked(), roots[i + 1..]) ==
          PhaseOutcome(marker.caps, heap, old(marker.Marked()), roots[i..])
      ensures !o.Finished? ==> o == PhaseOutcome(marker.caps, heap, old(marker.Marked()), roots[i..])
    {
      assert roots[i..][1..] == roots[i + 1..];
      if roots[i].To? { OneMoreRoot(heap, before, roots, i); }
      o := marker.DoMark(heap, roots[i]);
    }

    /** Trace from every root of the snapshot. */
    method MarkingPhase(roots: seq<Ref>) returns (o: Outcome)
      requires Valid() && RefBlocks(roots) <= heap.Keys
      requires PhaseHalts(marker.caps, heap, marker.Marked(), roots)
      modifies marker`markBit, marker`queue, marker`deferred
      ensures o.Finished? ==>
        Valid() && marker.Marked() == Survivors(heap, old(marker.Marked()), RefBlocks(roots))
      ensures o == PhaseOutcome(marker.caps, heap, old(marker.Marked()), roots)
      ensures |MultiSet(heap)| <= marker.caps.deferred ==> o == if Null in roots then NullDereference else Finished
    {
      ghost var before := marker.Marked();
      NothingYet(heap, before, roots);
      assert roots[0..] == roots;
      if |MultiSet(heap)| <= marker.caps.deferred { RoomyPhaseOutcome(marker.caps, heap, before, roots); }
      for i := 0 to |roots|
        invariant Valid()
        invariant marker.Marked() == Survivors(heap, before, RefBlocks(roots[..i]))
        invariant PhaseHalts(marker.caps, heap, marker.Marked(), roots[i..])
        invariant PhaseOutcome(marker.caps, heap, marker.Marked(), roots[i..]) ==
          PhaseOutcome(marker.caps, heap, before, roots)
      {
        o := TraceRoot(roots, i, before);
        if !o.Finished? {
          return;
        }
      }
      assert roots[..|roots|] == roots;
      o := Finished;
    }

    /** One block of a chunk: clear its mark and trace from it. */
    method Remark(current: Block) returns (o: Outcome)
      requires Valid() && current in heap
      requires Halts(marker.caps, Job(heap, marker.Marked() - {current}, current))
      modifies marker`markBit, marker`queue, marker`deferred
      ensures o.Finished? <==> Finishes(marker.caps, Job(heap, old(marker.Marked()) - {current}, current))
      ensures !o.NullDereference?
      ensures o.Finished? ==> Valid() && marker.Marked() == Remarked(heap, old(marker.Marked()), current)
      ensures |MultiSet(heap)| <= marker.caps.deferred ==> o.Finished?
    {
      ghost var marked := marker.Marked();
      MultiDueIsMulti(heap, marked - {current}, current);
      marker.markBit := marker.markBit[current := !marker.gcMarked];
      assert marker.Marked() == marked - {current};
      o := marker.DoMark(heap, To(current));
    }

    /** Block `i` of a chunk. */
    method RemarkNext(chunk: seq<Block>, i: nat, ghost before: set<Block>, ghost skip: set<Block>)
      returns (o: Outcome)
      requires Valid() && Elements(chunk) <= heap.Keys && i < |chunk|
      requires ChunkHalts(marker.caps, heap, marker.Marked(), chunk[i..])
      requires marker.Marked() == Rescanned(heap, before, chunk, i)
      requires Closing(heap, before, marker.Marked(), chunk, i, skip)
      modifies marker`markBit, marker`queue, marker`deferred
      ensures o.Finished? ==>
        && Valid() && ChunkHalts(marker.caps, heap, marker.Marked(), chunk[i + 1..])
        && marker.Marked() == Rescanned(heap, before, chunk, i + 1)
        && Closing(heap, before, marker.Marked(), chunk, i + 1, skip)
        && ChunkOutcome(marker.caps, heap, marker.Marked(), chunk[i + 1..]) ==
          ChunkOutcome(marker.caps, heap, old(marker.Marked()), chunk[i..])
      ensures !o.Finished? ==> o == ChunkOutcome(marker.caps, heap, old(marker.Marked()), chunk[i..])
    {
      NextInChunk(marker.caps, heap, marker.Marked(), chunk, i);
      RemarkKeepsClosing(heap, before, marker.Marked(), chunk, i, skip);
      o := Remark(chunk[i]);
    }

    /** `processAChunk`. Whatever the blocks refer to, each other included, all of them end up marked and
        scanned. */
    method ProcessAChunk(chunk: seq<Block>, ghost skip: set<Block>) returns (o: Outcome)
      requires Valid() && Elements(chunk) <= heap.Keys
      requires ChunkHalts(marker.caps, heap, marker.Marked(), chunk)
      requires ClosedExcept(heap, marker.Marked(), skip + Elements(chunk))
      modifies marker`markBit, marker`queue, marker`deferred
      ensures o.Finished? ==> Valid() && ClosedExcept(heap, marker.Marked(), skip)
      ensures o.Finished? ==> old(marker.Marked()) + Elements(chunk) <= marker.Marked()
      ensures o.Finished? ==> marker.Marked() <= old(marker.Marked()) + ReachedSet(heap, {}, Elements(chunk))
      ensures o.Finished? ==> marker.Marked() == Rescanned(heap, old(marker.Marked()), chunk, |chunk|)
      ensures o == ChunkOutcome(marker.caps, heap, old(marker.Marked()), chunk)
      ensures |MultiSet(heap)| <= marker.caps.deferred ==> o.Finished?
    {
      ghost var before := marker.Marked();
      assert chunk[0..] == chunk;
      if |MultiSet(heap)| <= marker.caps.deferred { RoomyChunkOutcome(marker.caps, heap, before, chunk); }
      for i := 0 to |chunk|
        invariant Valid() && Closing(heap, before, marker.Marked(), chunk, i, skip)
        invariant ChunkHalts(marker.caps, heap, marker.Marked(), chunk[i..])
        invariant marker.Marked() == Rescanned(heap, before, chunk, i)
        invariant ChunkOutcome(marker.caps, heap, marker.Marked(), chunk[i..]) ==
          ChunkOutcome(marker.caps, heap, before, chunk)
      {
        o := RemarkNext(chunk, i, before, skip);
        if !o.Finished? {
          return;
        }
      }
      assert chunk[..|chunk|] == chunk && skip + Elements(chunk[|chunk|..]) == skip;
      o := Finished;
    }

    /** The sweep's filter on one block: keep it if it reads as marked, free it otherwise. */
    method SweepBlock(b: Block) returns (kept: bool)
      requires b in marker.markBit && b in heap
      modifies this`heap, marker`markBit
      ensures kept <==> b in old(marker.Marked())
      ensures heap == old(heap) - if kept then {} else {b}
      ensures marker.markBit == old(marker.markBit) - if kept then {} else {b}
    {
      if marker.markBit[b] == marker.gcMarked {
        return true;
      }
      heap := heap - {b};
      marker.markBit := marker.markBit - {b};
      return false;
    }

    /** Free the blocks of the list that do not read as marked. */
    method SweepPhase(list: seq<Block>)
      requires marker.markBit.Keys == heap.Keys && Elements(list) <= heap.Keys
      requires Distinct(list)
      modifies this`heap, marker`markBit
      ensures var gone := Elements(list) - old(marker.Marked());
        heap == old(heap) - gone && marker.markBit == old(marker.markBit) - gone
    {
      ghost var gone := {};
      for i := 0 to |list|
        invariant gone == Elements(list[..i]) - old(marker.Marked())
        invariant heap == old(heap) - gone
        invariant marker.markBit == old(marker.markBit) - gone
      {
        assert list[i] !in list[..i];
        OneMoreElement(list, i);
        WithoutOneMore(old(heap), gone, list[i]);
        WithoutOneMore(old(marker.markBit), gone, list[i]);
        var kept := SweepBlock(list[i]);
        if !kept {
          gone := gone + {list[i]};
        }
      }
      assert list[..|list|] == list;
    }

    /** A whole cycle with idle mutators and empty remark buffers; `list` is the snapshot of the
        allocation lists. */
    method RunCycle(roots: seq<Ref>, list: seq<Block>) returns (o: Outcome)
      requires Valid() && RefBlocks(roots) <= heap.Keys && Elements(list) == heap.Keys
      requires Distinct(list)
      requires PhaseHalts(marker.caps, heap, marker.Marked(), roots)
      modifies this, marker
      ensures o.Finished? ==>
        heap.Keys == marker.markBit.Keys == Survivors(old(heap), old(marker.Marked()), RefBlocks(roots))
      ensures o.Finished? ==> forall b | b in heap :: heap[b] == old(heap)[b]
      ensures o.Finished? ==> marker.Marked() == {} && mutatorMarkedBitValue == old(marker.gcMarked) != marker.gcMarked
      ensures o.Finished? && old(marker.Marked()) == {} ==> Valid()
      ensures o == PhaseOutcome(marker.caps, old(heap), old(marker.Marked()), roots)
      ensures |MultiSet(old(heap))| <= marker.caps.deferred ==> (o.Finished? <==> Null !in roots)
    {
      mutatorMarkedBitValue := marker.gcMarked;
      o := MarkingPhase(roots);
      if !o.Finished? {
        return;
      }
      SweepAndFlip(list);
      if old(marker.Marked()) == {} {
        KeptIsClosed(old(heap), heap, RefBlocks(roots));
      }
    }

    /** Once everything due is marked: free the rest and let the survivors read as unmarked. */
    method SweepAndFlip(list: seq<Block>)
      requires marker.markBit.Keys == heap.Keys && Elements(list) == heap.Keys
      requires Distinct(list)
      modifies this`heap, marker`markBit, marker`gcMarked
      ensures heap.Keys == marker.markBit.Keys == old(marker.Marked())
      ensures forall b | b in heap :: heap[b] == old(heap)[b]
      ensures marker.Marked() == {} && marker.gcMarked != old(marker.gcMarked)
    {
      ghost var kept := marker.Marked();
      SweepPhase(list);
      assert heap.Keys == kept;
      marker.gcMarked := !marker.gcMarked;
    }
  }

  lemma KeptIsClosed(before: Graph, after: Graph, roots: set<Block>)
    requires NoDangling(before) && roots <= before.Keys && after.Keys == Survivors(before, {}, roots)
    requires forall b | b in after :: after[b] == before[b]
    ensures NoDangling(after)
  {
    forall a, b | Edge(after, a, b) ensures b in after {
      assert Edge(before, a, b);
      FreshCycleKeepsExactlyTheReachable(before, roots, a, b);
    }
  }

  lemma NothingFromNoRoots(g: Graph, before: set<Block>)
    ensures ReachedSet(g, before, {}) == {}
  {
    assert forall b :: !Reached(g, before, {}, b);
  }

  lemma WithoutOneMore<V>(m: map<Block, V>, gone: set<Block>, b: Block)
    ensures m - gone - {b} == m - (gone + {b})
  {
  }

  lemma OneMoreElement(list: seq<Block>, i: nat)
    requires i < |list|
    ensures Elements(list[..i + 1]) == Elements(list[..i]) + {list[i]}
  {
    assert list[..i + 1] == list[..i] + [list[i]];
  }

  /** The references of every block of `marked`, save those of `skip`, lead into `marked`. */
  ghost predicate ClosedExcept(g: Graph, marked: set<Block>, skip: set<Block>) {
    forall a, b | a in marked && a !in skip && Edge(g, a, b) :: b in marked
  }

  /** The marks after clearing `x` and tracing from it again. */
  ghost function Remarked(g: Graph, marked: set<Block>, x: Block): set<Block> {
    marked - {x} + ReachedSet(g, marked - {x}, {x})
  }

  /** Clearing a block and tracing from it again closes the marks over it and keeps all others. */
  lemma RemarkCloses(g: Graph, marked: set<Block>, skip: set<Block>, x: Block)
    requires NoDangling(g) && x in g && ClosedExcept(g, marked, skip + {x})
    ensures var marked' := Remarked(g, marked, x);
      marked + {x} <= marked' && ClosedExcept(g, marked', skip)
  {
    ReachedSetClosed(g, marked - {x}, {x});
  }

  /** With the first `i` blocks of a chunk cleared and traced again: the marks are closed but for the others and
      `skip`, have only grown, and only by what the chunk reaches. */
  ghost predicate Closing(
      g: Graph, before: set<Block>, marked: set<Block>, chunk: seq<Block>, i: nat, skip: set<Block>)
    requires i <= |chunk|
  {
    && ClosedExcept(g, marked, skip + Elements(chunk[i..]))
    && before + Elements(chunk[..i]) <= marked <= before + ReachedSet(g, {}, Elements(chunk))
  }

  lemma RemarkKeepsClosing(
      g: Graph, before: set<Block>, marked: set<Block>, chunk: seq<Block>, i: nat, skip: set<Block>)
    requires NoDangling(g) && Elements(chunk) <= g.Keys && i < |chunk| && Closing(g, before, marked, chunk, i, skip)
    ensures Closing(g, before, Remarked(g, marked, chunk[i]), chunk, i + 1, skip)
  {
    var rest := skip + Elements(chunk[i + 1..]);
    assert chunk[i..] == [chunk[i]] + chunk[i + 1..];
    assert skip + Elements(chunk[i..]) == rest + {chunk[i]};
    OneMoreElement(chunk, i);
    RemarkCloses(g, marked, rest, chunk[i]);
    RemarkStaysReachable(g, marked, chunk[i], Elements(chunk));
  }

  lemma RemarkStaysReachable(g: Graph, marked: set<Block>, x: Block, roots: set<Block>)
    requires x in roots
    ensures ReachedSet(g, marked - {x}, {x}) <= ReachedSet(g, {}, roots)
  {
    forall b | b in ReachedSet(g, marked - {x}, {x}) ensures b in ReachedSet(g, {}, roots) {
      ReachedMore(g, marked - {x}, {x}, {}, roots, b);
    }
  }
}
