/** The hypothesis on barriers is exact when the flag is cleared: with no barrier past its check of the flag, the rest
    of the cycle loses nothing, as long as no field is overwritten during the drain, if and only if the drain reaches
    all that the trace left. */
module CycleBarriers {
  import opened Heap
  import opened MarkState
  import opened CycleModel
  import opened CycleInvariant
  import opened CycleRuns
  import opened CycleTrace
  import opened CycleAnyRun
  import opened CycleQuiet
  import opened CycleTheorems
  import opened CycleExact
  import opened CycleDrain
  import opened CycleClaims

  // ---- The condition

  ghost predicate NonePastCheck(s: State) {
    forall t | 0 <= t < |s.threads| :: !s.threads[t].pc.Exchange? && !s.threads[t].pc.Push?
  }

  /** The blocks that the drain scans again. */
  ghost function ToDrain(s: State): set<Block> {
    set b | b in s.heap && Buffered(s, b)
  }

  /** The marked blocks that it does not. */
  ghost function Settled(s: State): set<Block> {
    set b | b in s.heap && Marked(s, b) && !Buffered(s, b)
  }

  /** Every old block that a mutator can get to is marked, or reached from a buffered block around the marked ones
      that are not buffered. */
  ghost predicate DrainSuffices(s: State) {
    forall b | Accessible(s, b) && b in s.sweepList ::
      b in Settled(s) || Reached(s.heap, Settled(s), ToDrain(s), b)
  }

  /** No quiet continuation of the cycle, now that the flag is cleared, loses a block that a mutator can get to. */
  ghost predicate ClearIsSafe(c: Config, s: State)
    requires Enabled(s, ClearFlag)
  {
    forall s' | Quietly(c, Apply(c, s, ClearFlag), s') :: NothingLost(s')
  }

  // ---- If the drain suffices: the drain as a trace with a snapshot of its own

  lemma SetToRefs(bs: set<Block>) returns (refs: seq<Ref>)
    ensures RefBlocks(refs) == bs
  {
    if b :| b in bs {
      var rest := SetToRefs(bs - {b});
      refs := rest + [To(b)];
    } else {
      refs := [];
    }
  }

  ghost function DrainSnapshot(s: State): Snapshot {
    Snapshot(s.heap, Settled(s), ReachedSet(s.heap, Settled(s), ToDrain(s)))
  }

  /** The state after the flag is cleared, as if the drain had taken its own snapshot. */
  ghost function Drain(s: State, refs: seq<Ref>): State {
    s.(marking := false, phase := Draining(0), rootSnap := refs,
       hist := s.hist.(at := DrainSnapshot(s), live := ReachedSet(s.heap, {}, RefBlocks(AllRoots(s.threads)))))
  }

  /** The live blocks hold the mutators' roots and what they refer to. */
  ghost predicate Held(s: State) {
    && s.hist.live <= s.heap.Keys
    && (forall t, b | 0 <= t < |s.threads| && To(b) in s.threads[t].roots :: b in s.hist.live)
    && (forall a, b | a in s.hist.live && Edge(s.heap, a, b) :: b in s.hist.live)
  }

  ghost predicate DrainInv(c: Config, s: State) {
    && AlwaysInv(c, s) && !s.phase.Rooting?
    && (!s.phase.Crashed? ==> Calm(s)) && Snapped(s) && Spared(s) && Held(s)
  }

  lemma DrainStartsHeld(s: State, refs: seq<Ref>)
    requires NothingLost(s)
    ensures Held(Drain(s, refs))
  {
    var roots := RefBlocks(AllRoots(s.threads));
    forall t, b | 0 <= t < |s.threads| && To(b) in s.threads[t].roots ensures b in ReachedSet(s.heap, {}, roots) {
      ReachedRoot(s.heap, {}, roots, b);
      assert Accessible(s, b);
    }
    forall a, b | a in ReachedSet(s.heap, {}, roots) && Edge(s.heap, a, b) ensures b in ReachedSet(s.heap, {}, roots) {
      ReachedStep(s.heap, {}, roots, a, b);
      assert Accessible(s, b);
    }
  }

  lemma DrainStartsSpared(s: State, refs: seq<Ref>)
    requires NothingLost(s) && DrainSuffices(s)
    ensures Spared(Drain(s, refs))
  {
    forall b | b in Drain(s, refs).hist.live && b in s.sweepList ensures DueOrPremarked(DrainSnapshot(s), b) {
      assert Accessible(s, b);
    }
  }

  lemma DrainStartsSets(s: State, refs: seq<Ref>)
    requires Phased(s) && s.phase.Rooting? && NoTraceLeft(s)
    ensures SnapSets(Drain(s, refs)) && SnapShape(Drain(s, refs))
  {
    forall b | b in DrainSnapshot(s).due ensures b !in Settled(s) {
      ReachedAvoids(s.heap, Settled(s), ToDrain(s), b);
    }
    assert forall b :: Buffered(Drain(s, refs), b) <==> Buffered(s, b);
  }

  lemma DrainStartsSatb(s: State, refs: seq<Ref>)
    requires RefBlocks(refs) == ToDrain(s) && forall b | b in ToDrain(s) :: Marked(s, b)
    ensures Satb(Drain(s, refs)) && DueIsReached(Drain(s, refs))
  {
    var s' := Drain(s, refs);
    assert forall b :: Buffered(s', b) <==> Buffered(s, b);
    forall b, j: nat, v | SnapRef(s'.hist.at, b, j, v) ensures EdgeSafe(s', b, j, v) {
      ReachedAvoids(s.heap, Settled(s), ToDrain(s), b);
    }
  }

  lemma DrainStarts(c: Config, s: State) returns (refs: seq<Ref>)
    requires QuietInv(c, s) && NothingLost(s) && Enabled(s, ClearFlag) && NonePastCheck(s) && DrainSuffices(s)
    requires forall b | b in ToDrain(s) :: Marked(s, b)
    ensures DrainInv(c, Drain(s, refs))
  {
    refs := SetToRefs(ToDrain(s));
    DrainStartsHeld(s, refs);
    DrainStartsSpared(s, refs);
    DrainStartsSets(s, refs);
    DrainStartsSatb(s, refs);
  }

  // ---- Its invariant

  lemma WriteHeld(s: State, t: nat, b: Block, j: nat, v: Ref)
    requires Held(s) && MutatorEnabled(s, Write(t, b, j, v))
    ensures Held(WriteField(s, t, b, j, v))
  {
    var s' := WriteField(s, t, b, j, v);
    forall x, y | x in s.hist.live && Edge(s'.heap, x, y) ensures y in s.hist.live {
      if x == b {
        var i :| 0 <= i < |s'.heap[b].All()| && s'.heap[b].All()[i] == To(y);
        if i != j { assert s.heap[b].All()[i] == To(y) && Edge(s.heap, b, y); }
      } else {
        assert Edge(s.heap, x, y);
      }
    }
  }

  lemma ReadHeld(s: State, t: nat, b: Block, j: nat)
    requires Held(s) && MutatorEnabled(s, Read(t, b, j))
    ensures Held(ReadField(s, t, b, j))
  {
    forall v | s.heap[b].All()[j] == To(v) ensures v in s.hist.live { assert Edge(s.heap, b, v); }
  }

  lemma AllocHeld(s: State, t: nat, b: Block)
    requires Held(s) && MutatorEnabled(s, Alloc(t, b))
    ensures Held(Allocate(s, t, b))
  {
    var s' := Allocate(s, t, b);
    forall x, y | x in s'.hist.live && Edge(s'.heap, x, y) ensures y in s'.hist.live {
      assert x != b && Edge(s.heap, x, y);
    }
  }

  lemma DescribeHeld(c: Config, s: State, t: nat, b: Block, nf: nat, nx: nat)
    requires Held(s) && !s.phase.Crashed? && MutatorEnabled(s, Describe(t, b, nf, nx))
    ensures Held(Apply(c, s, Describe(t, b, nf, nx)))
  {
    var s' := Apply(c, s, Describe(t, b, nf, nx));
    forall x, y | x in s'.hist.live && Edge(s'.heap, x, y) ensures y in s'.hist.live {
      assert x != b && Edge(s.heap, x, y);
    }
  }

  lemma PushHeld(c: Config, s: State, t: nat)
    requires Held(s) && MutatorEnabled(s, BarrierPush(t))
    ensures Held(PushRemark(c, s, t))
  {
  }

  lemma ExchangeHeld(s: State, t: nat)
    requires Held(s) && MutatorEnabled(s, BarrierExchange(t))
    ensures Held(ExchangeMark(s, t))
  {
  }

  lemma OthersHeld(c: Config, s: State, a: Action)
    requires Held(s) && !s.phase.Crashed? && MutatorEnabled(s, a)
    requires a.Attach? || a.Enter? || a.Leave? || a.Drop? || a.BarrierCheck?
    ensures Held(Apply(c, s, a))
  {
  }

  lemma MutatorKeepsHeld(c: Config, s: State, a: Action)
    requires Held(s) && !s.phase.Crashed? && MutatorEnabled(s, a)
    ensures Held(Apply(c, s, a))
  {
    if a.Write? {
      WriteHeld(s, a.t, a.b, a.j, a.v);
    } else if a.Read? {
      ReadHeld(s, a.t, a.b, a.j);
    } else if a.Alloc? {
      AllocHeld(s, a.t, a.b);
    } else if a.Describe? {
      DescribeHeld(c, s, a.t, a.b, a.nf, a.nx);
    } else if a.BarrierPush? {
      PushHeld(c, s, a.t);
    } else if a.BarrierExchange? {
      ExchangeHeld(s, a.t);
    } else {
      OthersHeld(c, s, a);
    }
  }

  /** The collector only frees, and no live block. */
  lemma FreeingKeepsHeld(s: State, s': State)
    requires Held(s) && s'.threads == s.threads && s'.hist.live == s.hist.live <= s'.heap.Keys
    requires forall b | b in s'.heap :: b in s.heap && s'.heap[b] == s.heap[b]
    ensures Held(s')
  {
    forall x, y | x in s'.hist.live && Edge(s'.heap, x, y) ensures y in s'.hist.live { assert Edge(s.heap, x, y); }
  }

  lemma TakingKeepsHeld(s: State)
    requires Held(s) && CollectorEnabled(s, TakeLocal)
    ensures Held(TakeLocalBuffer(s))
  {
  }

  lemma CollectorKeepsHeld(c: Config, s: State, a: Action)
    requires Held(s) && Spared(s) && !s.phase.Crashed? && CollectorEnabled(s, a) && !a.StartCycle?
    ensures Held(Apply(c, s, a))
  {
    if a.TakeLocal? {
      TakingKeepsHeld(s);
    } else {
      if IsTrace(a) { TraceLeavesRest(c, s, a); }
      StepKeepsHeap(c, s, a);
      FreeingKeepsHeld(s, Apply(c, s, a));
    }
  }

  lemma StepKeepsDrainInv(c: Config, s: State, a: Action)
    requires DrainInv(c, s) && Enabled(s, a) && Quiet(s, a) && !a.StartCycle?
    ensures DrainInv(c, Apply(c, s, a))
  {
    StepKeepsAlways(c, s, a);
    StepKeepsCalm(c, s, a);
    StepKeepsSnapped(c, s, a);
    StepKeepsSpared(c, s, a);
    StepKeepsPhaseOff(c, s, a);
    if MutatorEnabled(s, a) { MutatorKeepsHeld(c, s, a); } else { CollectorKeepsHeld(c, s, a); }
  }

  lemma StepKeepsPhaseOff(c: Config, s: State, a: Action)
    requires Phased(s) && !s.phase.Rooting? && Enabled(s, a) && !a.StartCycle?
    ensures !Apply(c, s, a).phase.Rooting?
  {
    if MutatorEnabled(s, a) {
      MutatorsKeepPhase(c, s, a);
    } else if IsTrace(a) {
      TraceLeavesRest(c, s, a);
    } else {
      CollectorRootsOnce(c, s, a);
    }
  }

  // ---- Actions do not look at the snapshot

  /** The same but for what the run has been so far; the root snapshot does not matter any more. */
  ghost predicate Same(s: State, r: State) {
    r == s.(rootSnap := r.rootSnap, hist := r.hist)
  }

  lemma SameBarrierStep(c: Config, s: State, r: State, a: Action)
    requires Same(s, r) && !s.phase.Crashed? && MutatorEnabled(s, a)
    requires a.BarrierCheck? || a.BarrierExchange? || a.BarrierPush?
    ensures MutatorEnabled(r, a) && Same(Apply(c, s, a), Apply(c, r, a))
  {
  }

  lemma SameObjectStep(c: Config, s: State, r: State, a: Action)
    requires Same(s, r) && !s.phase.Crashed? && MutatorEnabled(s, a)
    requires a.Write? || a.Read? || a.Drop? || a.Alloc? || a.Describe?
    ensures MutatorEnabled(r, a) && Same(Apply(c, s, a), Apply(c, r, a))
  {
  }

  lemma SameMutatorStep(c: Config, s: State, r: State, a: Action)
    requires Same(s, r) && !s.phase.Crashed? && MutatorEnabled(s, a)
    ensures MutatorEnabled(r, a) && Same(Apply(c, s, a), Apply(c, r, a))
  {
    if a.BarrierCheck? || a.BarrierExchange? || a.BarrierPush? {
      SameBarrierStep(c, s, r, a);
    } else if !a.Attach? && !a.Enter? && !a.Leave? {
      SameObjectStep(c, s, r, a);
    }
  }

  lemma SameScanStep(c: Config, s: State, r: State)
    requires Same(s, r) && CollectorEnabled(s, ScanSlot)
    ensures CollectorEnabled(r, ScanSlot) && Same(ScanNext(c, s), ScanNext(c, r))
  {
    if s.work.pos < s.work.nf + s.work.nx { SameItem(c, s, r, s.heap[s.work.at.block].All()[s.work.pos]); }
  }

  lemma SameItem(c: Config, s: State, r: State, ref: Ref)
    requires Same(s, r) && s.work.Scan?
    ensures Same(MarkOneItem(c, s, ref), MarkOneItem(c, r, ref))
  {
    if ref.To? && |s.queue| < c.queueCap {
      assert Same(EnqueueRef(s, ref.block), EnqueueRef(r, ref.block));
    } else if ref.To? && |s.deferred| < c.deferredCap {
      SamePark(s, r);
    }
  }

  lemma SamePark(s: State, r: State)
    requires Same(s, r) && s.work.Scan?
    ensures Same(ParkBlock(s), ParkBlock(r))
  {
  }

  lemma SameTraceStep(c: Config, s: State, r: State, a: Action)
    requires Same(s, r) && !s.phase.Crashed? && CollectorEnabled(s, a) && IsTrace(a) && !s.phase.Rooting?
    ensures CollectorEnabled(r, a) && Same(Apply(c, s, a), Apply(c, r, a))
  {
    if a.ScanSlot? { SameScanStep(c, s, r); }
  }

  lemma SameDrainStep(c: Config, s: State, r: State, a: Action)
    requires Same(s, r) && !s.phase.Crashed? && CollectorEnabled(s, a) && IsDrain(a) && !s.phase.Rooting?
    ensures CollectorEnabled(r, a) && Same(Apply(c, s, a), Apply(c, r, a))
  {
  }

  lemma SameSweepStep(c: Config, s: State, r: State, a: Action)
    requires Same(s, r) && !s.phase.Crashed? && CollectorEnabled(s, a)
    requires a.BeginSweep? || a.SweepOne? || a.Flip?
    ensures CollectorEnabled(r, a) && Same(Apply(c, s, a), Apply(c, r, a))
  {
  }

  lemma SameStep(c: Config, s: State, r: State, a: Action)
    requires Same(s, r) && Enabled(s, a) && !a.StartCycle? && !s.phase.Rooting?
    ensures Enabled(r, a) && Same(Apply(c, s, a), Apply(c, r, a))
  {
    if MutatorEnabled(s, a) {
      SameMutatorStep(c, s, r, a);
    } else if IsTrace(a) {
      SameTraceStep(c, s, r, a);
    } else if IsDrain(a) {
      SameDrainStep(c, s, r, a);
    } else {
      SameSweepStep(c, s, r, a);
    }
  }

  lemma {:induction false} DrainKeepsInv(
      c: Config, ss: seq<State>, acts: seq<Action>, s: State, s': State, i: nat, r: State) returns (r': State)
    requires QuietPath(c, ss, acts, s, s') && i <= |acts| && Same(s, r) && DrainInv(c, r)
    ensures Same(ss[i], r') && DrainInv(c, r')
  {
    if i == 0 {
      r' := r;
    } else {
      var q := DrainKeepsInv(c, ss, acts, s, s', i - 1, r);
      assert StepAt(c, QuietRun, ss, acts, i - 1) && !acts[i - 1].StartCycle?;
      SameStep(c, ss[i - 1], q, acts[i - 1]);
      r' := Apply(c, q, acts[i - 1]);
      StepKeepsDrainInv(c, q, acts[i - 1]);
    }
  }

  lemma HeldLosesNothing(s: State)
    requires Held(s)
    ensures NothingLost(s)
  {
    var roots := RefBlocks(AllRoots(s.threads));
    forall b | Accessible(s, b) ensures b in s.heap {
      ClosedHoldsReached(s.heap, {}, roots, s.hist.live, b);
    }
  }

  lemma SufficientDrainIsSafe(c: Config, s: State)
    requires QuietInv(c, s) && NothingLost(s) && Enabled(s, ClearFlag) && NonePastCheck(s) && DrainSuffices(s)
    requires forall b | b in ToDrain(s) :: Marked(s, b)
    ensures ClearIsSafe(c, s)
  {
    var refs := DrainStarts(c, s);
    var s1 := Apply(c, s, ClearFlag);
    forall s' | Quietly(c, s1, s') ensures NothingLost(s') {
      var ss, acts :| QuietPath(c, ss, acts, s1, s');
      var r := DrainKeepsInv(c, ss, acts, s1, s', |acts|, Drain(s, refs));
      HeldLosesNothing(r);
    }
  }

  // ---- If it does not: the mutators rest, and the drain misses a block

  ghost function BoundsOf(s: State): Bounds {
    Bounds(LivePart(s), LivePart(s).Keys * Settled(s), ToDrain(s))
  }

  lemma DrainBegins(c: Config, s: State)
    requires Phased(s) && Access(s) && Enabled(s, ClearFlag) && Roomy(c, LivePart(s))
    ensures AtDrain(c, BoundsOf(s), Apply(c, s, ClearFlag))
  {
    var bd, s' := BoundsOf(s), Apply(c, s, ClearFlag);
    LivePartIsClosed(s);
    SameMarks(bd.g, s, s');
    forall b | b in MarkedIn(bd.g, s) && b !in bd.before ensures b in ReachedSet(bd.g, bd.before, bd.all) {
      ReachedRoot(bd.g, bd.before, bd.all, b);
    }
  }

  /** A path through the live part around its settled blocks is one through the heap around all of them. */
  lemma LivePartPath(s: State, p: seq<Block>)
    requires IsPath(LivePart(s), BoundsOf(s).before, ToDrain(s), p) && p[|p| - 1] in LivePart(s)
    ensures IsPath(s.heap, Settled(s), ToDrain(s), p)
  {
    forall i | 0 <= i < |p| - 1 ensures Edge(s.heap, p[i], p[i + 1]) { assert Edge(LivePart(s), p[i], p[i + 1]); }
    forall i | 0 <= i < |p| ensures p[i] !in Settled(s) {
      if i < |p| - 1 { assert Edge(LivePart(s), p[i], p[i + 1]); }
      assert p[i] in LivePart(s) && p[i] !in BoundsOf(s).before;
    }
  }

  /** A block that a mutator can get to and that the drain cannot mark. */
  lemma DrainMisses(s: State) returns (b: Block)
    requires Access(s) && !DrainSuffices(s)
    ensures Accessible(s, b) && b in s.sweepList && b in LivePart(s)
    ensures forall marked | BoundsOf(s).Keeps(marked) :: b !in marked
  {
    b :| Accessible(s, b) && b in s.sweepList
      && !(b in Settled(s) || Reached(s.heap, Settled(s), ToDrain(s), b));
    LivePartIsClosed(s);
    var bd := BoundsOf(s);
    if b in ReachedSet(bd.g, bd.before, bd.all) {
      var p :| IsPath(bd.g, bd.before, bd.all, p) && p[|p| - 1] == b;
      LivePartPath(s, p);
    }
  }

  lemma BuffersDrained(c: Config, bd: Bounds, s0: State, s: State) returns (s': State)
    requires Quietly(c, s0, s) && AtDrain(c, bd, s) && s.phase == Draining(1) && s.chunk == []
    requires forall t, b | 0 <= t < |s.threads| && b in s.threads[t].local :: b in bd.all
    ensures Quietly(c, s0, s') && s'.phase.Sweeping? && DrainedOn(s, s') && bd.Keeps(MarkedIn(bd.g, s'))
  {
    var s1 := BuffersDrain(c, bd, s0, s, 1);
    s' := SweepStarts(c, bd, s0, s1);
  }

  lemma SweepStarts(c: Config, bd: Bounds, s0: State, s: State) returns (s': State)
    requires Quietly(c, s0, s) && AtDrain(c, bd, s) && s.phase == Draining(|s.threads| + 1) && s.chunk == []
    ensures Quietly(c, s0, s') && s' == s.(phase := Sweeping) && bd.Keeps(MarkedIn(bd.g, s'))
  {
    s' := QuietlyOn(c, s0, s, BeginSweep);
    SameMarks(bd.g, s, s');
  }

  /** The drain of a cycle whose mutators rest comes to the sweep. */
  lemma RestingDrainSweeps(c: Config, s: State) returns (s': State)
    requires Bounded(c, s) && Phased(s) && Access(s) && Enabled(s, ClearFlag) && Roomy(c, LivePart(s))
    ensures Quietly(c, Apply(c, s, ClearFlag), s') && s'.phase.Sweeping? && DrainedOn(s, s')
    ensures BoundsOf(s).Keeps(MarkedIn(LivePart(s), s'))
  {
    var bd, s0 := BoundsOf(s), Apply(c, s, ClearFlag);
    DrainBegins(c, s);
    QuietlyStays(c, s0);
    LivePartIsClosed(s);
    var s1 := SharedDrains(c, bd, s0, s0);
    forall t, b | 0 <= t < |s1.threads| && b in s1.threads[t].local ensures b in bd.all {
      assert HasWon(s.threads[t], b);
    }
    s' := BuffersDrained(c, bd, s0, s1);
  }

  lemma SameRoots(s: State, s': State)
    requires |s'.threads| == |s.threads|
    requires forall t | 0 <= t < |s.threads| :: s'.threads[t].roots == s.threads[t].roots
    ensures RefBlocks(AllRoots(s'.threads)) == RefBlocks(AllRoots(s.threads))
  {
  }

  /** An unmarked block that a mutator can get to is lost in the sweep. */
  lemma SweepLoses(c: Config, s0: State, s: State, s1: State, b: Block)
    requires Quietly(c, s0, s1) && s1.phase.Sweeping? && DrainedOn(s, s1)
    requires Accessible(s, b) && b in s.sweepList && b in s.mark && !Marked(s1, b)
    ensures exists s2 :: Quietly(c, s0, s2) && !NothingLost(s2)
  {
    var s2 := SweepsIt(c, s0, s1, b);
    SameRoots(s, s2);
    StillReached(s.heap, RefBlocks(AllRoots(s.threads)), b);
    assert Accessible(s2, b) && b !in s2.heap;
  }

  lemma InsufficientDrainLosesABlock(c: Config, s: State)
    requires Bounded(c, s) && Phased(s) && Access(s)
    requires Enabled(s, ClearFlag) && Roomy(c, LivePart(s)) && !DrainSuffices(s)
    ensures !ClearIsSafe(c, s)
  {
    var b := DrainMisses(s);
    var s1 := RestingDrainSweeps(c, s);
    assert b !in MarkedIn(LivePart(s), s1);
    SweepLoses(c, Apply(c, s, ClearFlag), s, s1, b);
  }

  lemma BufferedAreMarked(c: Config, s: State)
    requires Reachable(c, QuietRun, s) && s.phase.Rooting?
    ensures forall b | b in ToDrain(s) :: Marked(s, b)
  {
    ReachableClaims(c, s);
    ReachableQuiet(c, QuietRun, s);
    forall b | Buffered(s, b) ensures Marked(s, b) {
      if i :| 0 <= i < |s.remarkQueue| && s.remarkQueue[i] == b {
        assert ClaimAt(s, Shared(i)) == To(b);
      } else {
        var t :| 0 <= t < |s.threads| && HasWon(s.threads[t], b);
        if s.threads[t].pc == Push(b) {
          assert ClaimAt(s, Won(t)) == To(b);
        } else {
          var i :| 0 <= i < |s.threads[t].local| && s.threads[t].local[i] == b;
          assert ClaimAt(s, Local(t, i)) == To(b);
        }
      }
    }
  }

  /** With no barrier past its check when the flag is cleared, the rest of the cycle loses nothing, as long as no field
      is overwritten during the drain, if and only if every block that mutators can get to is marked by then or the
      drain gets to it. */
  lemma ClearIsSafeExactlyWhenDrainSuffices(c: Config, s: State)
    requires Reachable(c, QuietRun, s) && Access(s)
    requires Enabled(s, ClearFlag) && NonePastCheck(s) && Roomy(c, LivePart(s))
    ensures ClearIsSafe(c, s) <==> DrainSuffices(s)
  {
    QuietParts(c, s);
    if DrainSuffices(s) {
      BufferedAreMarked(c, s);
      AccessLosesNothing(s);
      SufficientDrainIsSafe(c, s);
    } else {
      InsufficientDrainLosesABlock(c, s);
    }
  }

  /** With no barrier under way at all the drain suffices in every safe run: that is why `Quiet` is enough. */
  lemma QuietDrainSuffices(c: Config, s: State)
    requires Reachable(c, SafeRun, s) && Enabled(s, ClearFlag) && NoBarrierInFlight(s) && Roomy(c, LivePart(s))
    ensures DrainSuffices(s)
  {
    ReachableInv(c, s);
    SafeIsQuiet(c, s);
    QuietClearIsSafe(c, s);
    ClearIsSafeExactlyWhenDrainSuffices(c, s);
  }

  lemma QuietClearIsSafe(c: Config, s: State)
    requires Inv(c, s) && Enabled(s, ClearFlag) && NoBarrierInFlight(s)
    ensures ClearIsSafe(c, s)
  {
    var s1 := Apply(c, s, ClearFlag);
    StepKeepsInv(c, s, ClearFlag);
    forall s' | Quietly(c, s1, s') ensures NothingLost(s') {
      var ss, acts :| QuietPath(c, ss, acts, s1, s');
      QuietPathKeepsInv(c, ss, acts, s1, s', |acts|);
      AccessLosesNothing(s');
    }
  }

  lemma SafeIsQuiet(c: Config, s: State)
    requires Reachable(c, SafeRun, s)
    ensures Reachable(c, QuietRun, s)
  {
    var ss, acts :| IsRun(c, SafeRun, ss, acts) && ss[|acts|] == s;
    forall i | 0 <= i < |acts| ensures StepAt(c, QuietRun, ss, acts, i) { assert StepAt(c, SafeRun, ss, acts, i); }
    assert IsRun(c, QuietRun, ss, acts);
  }
}
