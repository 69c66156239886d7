/** A drain whose mutators rest follows the mark engine, one buffered block after the other. */
module CycleDrain {
  import opened Heap
  import opened MarkState
  import opened MarkEngine
  import opened MarkInvariant
  import opened MarkTheorems
  import opened Collector
  import M = CycleModel
  import I = CycleInvariant
  import opened CycleTheorems
  import opened CycleExact

  /** The heap as far as it is live. */
  ghost function LivePart(s: M.State): Graph {
    map b | b in s.hist.live && b in s.heap :: s.heap[b]
  }

  lemma LivePartIsClosed(s: M.State)
    requires I.Access(s)
    ensures Within(LivePart(s), s.heap) && NoDangling(LivePart(s))
    ensures forall b | I.Buffered(s, b) :: b in LivePart(s)
    ensures forall b | I.Accessible(s, b) :: b in LivePart(s)
  {
    forall a, b | Edge(LivePart(s), a, b) ensures b in LivePart(s) { assert Edge(s.heap, a, b); }
    forall b | I.Buffered(s, b) ensures b in LivePart(s) {
      if t :| 0 <= t < |s.threads| && I.HasWon(s.threads[t], b) {
        assert I.MutatorKnown(I.ScopeOf(s, true), s.threads[t]);
      }
    }
    forall b | I.Accessible(s, b) ensures b in LivePart(s) { AccessibleIsLive(s, b); }
  }

  /** What drained blocks may mark: `before` reads as marked from the start, `all` are the blocks to drain. */
  datatype Bounds = Bounds(g: Graph, before: set<Block>, all: set<Block>) {
    ghost predicate Valid() {
      NoDangling(g) && before <= g.Keys && all <= g.Keys && before !! all
    }

    ghost predicate Keeps(marked: set<Block>) {
      before <= marked <= before + ReachedSet(g, before, all)
    }
  }

  lemma RemarkedKeeps(bd: Bounds, marked: set<Block>, b: Block)
    requires bd.Valid() && bd.Keeps(marked) && b in bd.all
    ensures bd.Keeps(Remarked(bd.g, marked, b))
  {
    assert forall v | Reached(bd.g, marked - {b}, {b}, v) :: Reached(bd.g, bd.before, bd.all, v);
  }

  /** Between two blocks of the drain. */
  ghost predicate AtDrain(c: M.Config, bd: Bounds, s: M.State) {
    && s.phase.Draining? && M.NoTraceLeft(s) && s.mark.Keys == s.heap.Keys
    && Within(bd.g, s.heap) && bd.Valid() && Roomy(c, bd.g) && bd.Keeps(MarkedIn(bd.g, s))
  }

  /** `s'` is `s` with the drain further on: it touches no block, no list to sweep and no root. */
  ghost predicate DrainedOn(s: M.State, s': M.State) {
    && s'.heap == s.heap && s'.sweepList == s.sweepList && s'.mark.Keys == s.mark.Keys
    && |s'.threads| == |s.threads|
    && forall t | 0 <= t < |s.threads| :: s'.threads[t].roots == s.threads[t].roots
  }

  lemma DrainJob(g: Graph, s: M.State)
    requires Within(g, s.heap) && M.CollectorEnabled(s, M.DrainOne) && s.chunk[0] in g && NoDangling(g)
    requires M.NoTraceLeft(s)
    ensures var job := Job(g, MarkedIn(g, s) - {s.chunk[0]}, s.chunk[0]);
      job.Valid() && Start(job) == EngineOf(g, M.DrainBlock(s))
  {
    assert MarkedIn(g, M.DrainBlock(s)) == MarkedIn(g, s) - {s.chunk[0]};
  }

  lemma BlockDrains(c: M.Config, bd: Bounds, s0: M.State, s: M.State) returns (s': M.State)
    requires Quietly(c, s0, s) && AtDrain(c, bd, s) && s.chunk != [] && s.chunk[0] in bd.all
    ensures Quietly(c, s0, s') && AtDrain(c, bd, s') && DrainedOn(s, s')
    ensures s'.chunk == s.chunk[1..] && s'.remarkQueue == s.remarkQueue && s'.threads == s.threads
    ensures s'.phase == s.phase
  {
    var g, b := bd.g, s.chunk[0];
    DrainJob(g, s);
    var s1 := QuietlyOn(c, s0, s, M.DrainOne);
    var n, e := TraceEnds(CapsOf(c), Job(g, MarkedIn(g, s) - {b}, b));
    s' := LeadsRuns(c, g, s0, s1, n, e);
    assert MarkedIn(g, s') == Remarked(g, MarkedIn(g, s), b);
    RemarkedKeeps(bd, MarkedIn(g, s), b);
  }

  lemma {:induction false} ChunkDrains(c: M.Config, bd: Bounds, s0: M.State, s: M.State) returns (s': M.State)
    requires Quietly(c, s0, s) && AtDrain(c, bd, s) && forall b | b in s.chunk :: b in bd.all
    ensures Quietly(c, s0, s') && AtDrain(c, bd, s') && DrainedOn(s, s')
    ensures s'.chunk == [] && s'.remarkQueue == s.remarkQueue && s'.threads == s.threads && s'.phase == s.phase
    decreases |s.chunk|
  {
    s' := s;
    if s.chunk != [] {
      var s1 := BlockDrains(c, bd, s0, s);
      s' := ChunkDrains(c, bd, s0, s1);
    }
  }

  lemma {:induction false} SharedDrains(c: M.Config, bd: Bounds, s0: M.State, s: M.State) returns (s': M.State)
    requires Quietly(c, s0, s) && AtDrain(c, bd, s) && s.phase == M.Draining(0) && s.chunk == []
    requires c.chunkSize > 0 && I.WholeBuffers(|s.remarkQueue|, c.chunkSize)
    requires forall b | b in s.remarkQueue :: b in bd.all
    ensures Quietly(c, s0, s') && AtDrain(c, bd, s') && DrainedOn(s, s')
    ensures s'.chunk == [] && s'.phase == M.Draining(1) && s'.threads == s.threads
    decreases |s.remarkQueue|
  {
    if s.remarkQueue == [] {
      s' := QuietlyOn(c, s0, s, M.EndQueue);
      SameMarks(bd.g, s, s');
    } else {
      var s1 := QuietlyOn(c, s0, s, M.TakeChunk);
      SameMarks(bd.g, s, s1);
      var s2 := ChunkDrains(c, bd, s0, s1);
      s' := SharedDrains(c, bd, s0, s2);
    }
  }

  lemma {:induction false} BuffersDrain(c: M.Config, bd: Bounds, s0: M.State, s: M.State, k: nat) returns (s': M.State)
    requires Quietly(c, s0, s) && AtDrain(c, bd, s) && s.phase == M.Draining(k) && s.chunk == []
    requires 0 < k <= |s.threads| + 1
    requires forall t, b | 0 <= t < |s.threads| && b in s.threads[t].local :: b in bd.all
    ensures Quietly(c, s0, s') && AtDrain(c, bd, s') && DrainedOn(s, s')
    ensures s'.chunk == [] && s'.phase == M.Draining(|s.threads| + 1)
    decreases |s.threads| + 1 - k
  {
    s' := s;
    if k <= |s.threads| {
      var s1 := QuietlyOn(c, s0, s, M.TakeLocal);
      SameMarks(bd.g, s, s1);
      var s2 := ChunkDrains(c, bd, s0, s1);
      s' := BuffersDrain(c, bd, s0, s2, k + 1);
    }
  }
}
