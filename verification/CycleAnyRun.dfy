/** What holds in every run, whatever mutators do while remark buffers are drained and whatever premarked
    blocks refer to. */
module CycleAnyRun {
  import opened Heap
  import opened MarkState
  import opened CycleModel
  import opened CycleInvariant
  import opened CycleRuns
  import opened CycleSteps
  import opened CycleTrace

  // ---- What a mutator's action leaves alone

  /** An action of a mutator other than an allocation or an exchange of a mark bit. */
  ghost predicate MutatorLeaves(s: State, s': State) {
    && s' == s.(heap := s'.heap, threads := s'.threads, remarkQueue := s'.remarkQueue)
    && s'.heap.Keys == s.heap.Keys
    && (forall b | b in s.heap && s.heap[b] != NO_SLOTS ::
      |s'.heap[b].fixed| == |s.heap[b].fixed| && |s'.heap[b].flex| == |s.heap[b].flex|)
    && (!s.marking ==> forall t | 0 <= t < |s'.threads| && s'.threads[t].pc.Exchange? ::
      t < |s.threads| && s.threads[t].pc.Exchange?)
  }

  lemma ObjectStepLeavesRest(c: Config, s: State, a: Action)
    requires !s.phase.Crashed? && MutatorEnabled(s, a)
    requires a.Write? || a.Read? || a.Drop? || a.Describe?
    ensures MutatorLeaves(s, Apply(c, s, a))
  {
    match a
    case Write(t, b, j, v) => assert Apply(c, s, a) == WriteField(s, t, b, j, v);
    case Read(t, b, j) => assert Apply(c, s, a) == ReadField(s, t, b, j);
    case Drop(t, i) => assert Apply(c, s, a) == DropRoot(s, t, i);
    case Describe(t, b, nf, nx) =>
  }

  lemma PushLeavesRest(c: Config, s: State, t: nat)
    requires !s.phase.Crashed? && MutatorEnabled(s, BarrierPush(t))
    ensures MutatorLeaves(s, PushRemark(c, s, t))
  {
  }

  lemma MutatorLeavesRest(c: Config, s: State, a: Action)
    requires !s.phase.Crashed? && MutatorEnabled(s, a) && !a.Alloc? && !a.BarrierExchange?
    ensures MutatorLeaves(s, Apply(c, s, a))
  {
    if a.Write? || a.Read? || a.Drop? || a.Describe? {
      ObjectStepLeavesRest(c, s, a);
    } else if a.BarrierPush? {
      PushLeavesRest(c, s, a.t);
    }
  }

  lemma MutatorsKeepPhase(c: Config, s: State, a: Action)
    requires !s.phase.Crashed? && MutatorEnabled(s, a)
    ensures Apply(c, s, a).phase == s.phase
  {
    if !a.Alloc? && !a.BarrierExchange? { MutatorLeavesRest(c, s, a); }
  }

  // ---- Capacities

  lemma PushKeepsBounded(c: Config, s: State, t: nat)
    requires Bounded(c, s) && MutatorEnabled(s, BarrierPush(t))
    ensures Bounded(c, PushRemark(c, s, t))
  {
    if |s.threads[t].local| + 1 == c.chunkSize {
      assert |FlushRemark(s, t).remarkQueue| == |s.remarkQueue| + c.chunkSize;
    }
  }

  lemma OthersFillNothing(c: Config, s: State, a: Action)
    requires Bounded(c, s) && !s.phase.Crashed? && MutatorEnabled(s, a) && !a.BarrierPush?
    ensures Bounded(c, Apply(c, s, a))
  {
  }

  lemma MutatorKeepsBounded(c: Config, s: State, a: Action)
    requires Bounded(c, s) && !s.phase.Crashed? && MutatorEnabled(s, a)
    ensures Bounded(c, Apply(c, s, a))
  {
    if a.BarrierPush? { PushKeepsBounded(c, s, a.t); } else { OthersFillNothing(c, s, a); }
  }

  lemma ScanKeepsBounded(c: Config, s: State)
    requires Bounded(c, s) && CollectorEnabled(s, ScanSlot)
    ensures Bounded(c, ScanNext(c, s))
    ensures ScanNext(c, s).phase.Crashed? <==>
      s.phase.Crashed? || (AtReference(s) && |s.queue| == c.queueCap && |s.deferred| == c.deferredCap)
  {
  }

  lemma TakeChunkKeepsBounded(c: Config, s: State)
    requires Bounded(c, s) && s.remarkQueue != []
    ensures Bounded(c, TakeRemarkChunk(c, s)) && TakeRemarkChunk(c, s).phase == s.phase
  {
  }

  lemma CollectorKeepsBounded(c: Config, s: State, a: Action)
    requires Bounded(c, s) && !s.phase.Crashed? && CollectorEnabled(s, a)
    ensures Bounded(c, Apply(c, s, a))
  {
    match a
    case ScanSlot => ScanKeepsBounded(c, s);
    case TakeChunk => TakeChunkKeepsBounded(c, s);
    case _ =>
  }

  lemma OthersCrashNothing(c: Config, s: State, a: Action)
    requires Bounded(c, s) && !s.phase.Crashed? && CollectorEnabled(s, a) && !a.ScanSlot? && !a.NextRoot?
    ensures !Apply(c, s, a).phase.Crashed?
  {
    if a.TakeChunk? { TakeChunkKeepsBounded(c, s); }
  }

  lemma CrashHasACause(c: Config, s: State, a: Action)
    requires Bounded(c, s) && Enabled(s, a)
    ensures Apply(c, s, a).phase.Crashed? <==>
      || (a.NextRoot? && s.rootSnap[s.phase.next] == Null)
      || (a.ScanSlot? && AtReference(s) && |s.queue| == c.queueCap && |s.deferred| == c.deferredCap)
  {
    if a.ScanSlot? {
      ScanKeepsBounded(c, s);
    } else if MutatorEnabled(s, a) {
      MutatorsKeepPhase(c, s, a);
    } else if !a.NextRoot? {
      OthersCrashNothing(c, s, a);
    }
  }

  /** The slot about to be scanned holds a reference. */
  predicate AtReference(s: State) {
    && s.work.Scan? && s.work.at.block in s.heap && s.work.pos < s.work.nf + s.work.nx
    && s.work.pos < |s.heap[s.work.at.block].All()|
    && s.heap[s.work.at.block].All()[s.work.pos].To?
  }

  // ---- Where the trace stands

  lemma AllocKeepsTraced(c: Config, s: State, t: nat, b: Block)
    requires Traced(c, s) && Phased(s) && MutatorEnabled(s, Alloc(t, b))
    ensures Traced(c, Allocate(s, t, b))
  {
  }

  lemma ExchangeKeepsTraced(c: Config, s: State, t: nat)
    requires Traced(c, s) && MutatorEnabled(s, BarrierExchange(t))
    ensures Traced(c, ExchangeMark(s, t))
  {
  }

  lemma MutatorKeepsTraced(c: Config, s: State, a: Action)
    requires Traced(c, s) && Phased(s) && !s.phase.Crashed? && MutatorEnabled(s, a)
    ensures Traced(c, Apply(c, s, a))
  {
    if a.Alloc? {
      AllocKeepsTraced(c, s, a.t, a.b);
    } else if a.BarrierExchange? {
      ExchangeKeepsTraced(c, s, a.t);
    } else {
      MutatorLeavesRest(c, s, a);
    }
  }

  lemma EnqueueKeepsTraced(c: Config, s: State, v: Block)
    requires Traced(c, s) && s.work.Scan? && s.work.pos < s.work.nf + s.work.nx && |s.queue| < c.queueCap
    ensures Traced(c, EnqueueRef(s, v))
  {
  }

  /** A block is never parked at index 0: there was room for its first reference. */
  lemma ParkKeepsTraced(c: Config, s: State)
    requires Traced(c, s) && s.work.Scan? && |s.queue| >= c.queueCap
    ensures Traced(c, ParkBlock(s))
  {
  }

  lemma ItemKeepsTraced(c: Config, s: State, ref: Ref)
    requires Traced(c, s) && s.work.Scan? && s.work.pos < s.work.nf + s.work.nx
    ensures Traced(c, MarkOneItem(c, s, ref))
  {
    if ref.To? && |s.queue| < c.queueCap {
      EnqueueKeepsTraced(c, s, ref.block);
    } else if ref.To? && |s.deferred| < c.deferredCap {
      ParkKeepsTraced(c, s);
    }
  }

  lemma ScanKeepsTraced(c: Config, s: State)
    requires Traced(c, s) && CollectorEnabled(s, ScanSlot)
    ensures Traced(c, ScanNext(c, s))
  {
    if s.work.pos < s.work.nf + s.work.nx { ItemKeepsTraced(c, s, s.heap[s.work.at.block].All()[s.work.pos]); }
  }

  lemma TraceKeepsTraced(c: Config, s: State, a: Action)
    requires Traced(c, s) && Bounded(c, s) && !s.phase.Crashed? && CollectorEnabled(s, a) && IsTrace(a)
    ensures Traced(c, Apply(c, s, a))
  {
    match a
    case ScanSlot => ScanKeepsTraced(c, s);
    case VisitBlock => assert Apply(c, s, a) == VisitMarked(s);
    case LoadDescriptor => assert Apply(c, s, a) == LoadShape(s);
    case NextRoot =>
    case PopQueue =>
    case PopDeferred =>
  }

  lemma OthersKeepTraced(c: Config, s: State, a: Action)
    requires Traced(c, s) && Phased(s) && !s.phase.Crashed? && CollectorEnabled(s, a) && !IsTrace(a)
    ensures Traced(c, Apply(c, s, a))
  {
    assert NoTraceLeft(s);
  }

  // ---- Mark bits

  lemma AllocKeepsBits(s: State, t: nat, b: Block)
    requires Bits(s) && !s.phase.Crashed? && MutatorEnabled(s, Alloc(t, b))
    ensures Bits(Allocate(s, t, b))
  {
  }

  lemma ExchangeKeepsBits(s: State, t: nat)
    requires Bits(s) && !s.phase.Crashed? && MutatorEnabled(s, BarrierExchange(t))
    ensures Bits(ExchangeMark(s, t))
  {
  }

  lemma LeavingKeepsBits(s: State, s': State)
    requires Bits(s) && MutatorLeaves(s, s')
    ensures Bits(s')
  {
  }

  lemma StartKeepsBits(s: State)
    requires Bits(s) && CollectorEnabled(s, StartCycle)
    ensures Bits(BeginCycle(s))
  {
  }

  lemma VisitKeepsBits(s: State)
    requires Bits(s) && !s.phase.Crashed? && CollectorEnabled(s, VisitBlock)
    ensures Bits(VisitMarked(s))
  {
  }

  /** A step of the trace that changes no mark bit and forgets no queued block. */
  ghost predicate QueuesOnly(s: State, s': State) {
    && s' == s.(work := s'.work, queue := s'.queue, deferred := s'.deferred, phase := s'.phase)
    && (s'.phase == s.phase || s'.phase.Crashed?)
    && (forall b | InTrace(s, b) :: InTrace(s', b))
    && !NoTraceLeft(s)
  }

  lemma ScanIsQueuesOnly(c: Config, s: State)
    requires CollectorEnabled(s, ScanSlot)
    ensures QueuesOnly(s, ScanNext(c, s))
  {
  }

  lemma QueuesOnlyKeepsBits(s: State, s': State)
    requires Bits(s) && !s.phase.Crashed? && QueuesOnly(s, s')
    ensures Bits(s')
  {
  }

  lemma ReadKeepsBits(c: Config, s: State, a: Action)
    requires Bits(s) && !s.phase.Crashed? && CollectorEnabled(s, a)
    requires a.NextRoot? || a.PopQueue? || a.PopDeferred? || a.LoadDescriptor?
    ensures Bits(Apply(c, s, a))
  {
  }

  lemma DrainKeepsBits(c: Config, s: State, a: Action)
    requires Bits(s) && !s.phase.Crashed? && CollectorEnabled(s, a) && IsDrain(a)
    ensures Bits(Apply(c, s, a))
  {
  }

  lemma SweepKeepsBits(c: Config, s: State, a: Action)
    requires Bits(s) && !s.phase.Crashed? && CollectorEnabled(s, a)
    requires a.BeginSweep? || a.SweepOne? || a.Flip?
    ensures Bits(Apply(c, s, a))
  {
  }

  lemma TraceKeepsBits(c: Config, s: State, a: Action)
    requires Bits(s) && !s.phase.Crashed? && CollectorEnabled(s, a) && IsTrace(a)
    ensures Bits(Apply(c, s, a))
  {
    if a.VisitBlock? {
      VisitKeepsBits(s);
    } else if a.ScanSlot? {
      ScanIsQueuesOnly(c, s);
      QueuesOnlyKeepsBits(s, ScanNext(c, s));
    } else {
      ReadKeepsBits(c, s, a);
    }
  }

  lemma MutatorKeepsBits(c: Config, s: State, a: Action)
    requires Bits(s) && !s.phase.Crashed? && MutatorEnabled(s, a)
    ensures Bits(Apply(c, s, a))
  {
    if a.Alloc? {
      AllocKeepsBits(s, a.t, a.b);
    } else if a.BarrierExchange? {
      ExchangeKeepsBits(s, a.t);
    } else {
      MutatorLeavesRest(c, s, a);
      LeavingKeepsBits(s, Apply(c, s, a));
    }
  }

  lemma StepKeepsBits(c: Config, s: State, a: Action)
    requires Bits(s) && Enabled(s, a)
    ensures Bits(Apply(c, s, a))
  {
    if MutatorEnabled(s, a) {
      MutatorKeepsBits(c, s, a);
    } else if IsTrace(a) {
      TraceKeepsBits(c, s, a);
    } else if IsDrain(a) {
      DrainKeepsBits(c, s, a);
    } else if a.StartCycle? {
      StartKeepsBits(s);
    } else {
      SweepKeepsBits(c, s, a);
    }
  }

  // ---- The snapshot's references

  /** A step that leaves the heap's slots and uncovers nothing. */
  lemma CoveringKeeps(s: State, s': State)
    requires Kept(s) && s.phase.Rooting? && s'.heap == s.heap && s'.hist.at == s.hist.at
    requires forall v | Covered(s, v) :: Covered(s', v)
    ensures Kept(s')
  {
  }

  lemma ThreadKeepsKept(c: Config, s: State, a: Action)
    requires Kept(s) && Phased(s) && s.phase.Rooting? && MutatorEnabled(s, a)
    requires !a.Alloc? && !a.Write? && !a.Describe? && !a.BarrierExchange? && !a.Attach?
    ensures Kept(Apply(c, s, a))
  {
    var s' := Apply(c, s, a);
    HandsKept(s.threads, a.t, s'.threads[a.t]);
    CoveringKeeps(s, s');
  }

  lemma WriteKeepsKept(s: State, t: nat, b: Block, j: nat, v: Ref)
    requires Kept(s) && Phased(s) && s.phase.Rooting? && MutatorEnabled(s, Write(t, b, j, v))
    ensures Kept(WriteField(s, t, b, j, v))
  {
    var s' := WriteField(s, t, b, j, v);
    HandsKept(s.threads, t, s'.threads[t]);
    forall x, i: nat, y | SlotHolds(s.hist.at.heap, x, i, y) ensures SlotHolds(s'.heap, x, i, y) || Covered(s', y) {
      if x == b && i == j && s.heap[b].All()[j] == To(y) { assert Holds(s'.threads[t], y); }
    }
  }

  lemma HeapKeepsKept(c: Config, s: State, a: Action)
    requires Kept(s) && Phased(s) && s.phase.Rooting? && MutatorEnabled(s, a) && (a.Alloc? || a.Describe?)
    ensures Kept(Apply(c, s, a))
  {
    var s' := Apply(c, s, a);
    HandsKept(s.threads, a.t, s'.threads[a.t]);
  }

  lemma ExchangeKeepsKept(s: State, t: nat)
    requires Kept(s) && Phased(s) && s.phase.Rooting? && MutatorEnabled(s, BarrierExchange(t))
    ensures Kept(ExchangeMark(s, t))
  {
    var s', b := ExchangeMark(s, t), s.threads[t].pc.target;
    forall v | Covered(s, v) ensures Covered(s', v) {
      if InHand(s.threads, v) && v != b {
        var k :| 0 <= k < |s.threads| && Holds(s.threads[k], v);
        assert Holds(s'.threads[k], v);
      }
    }
    CoveringKeeps(s, s');
  }

  lemma MutatorKeepsKept(c: Config, s: State, a: Action)
    requires Kept(s) && Phased(s) && s.phase.Rooting? && MutatorEnabled(s, a)
    ensures Kept(Apply(c, s, a))
  {
    if a.Attach? {
      AttachHands(s, Apply(c, s, a));
      CoveringKeeps(s, Apply(c, s, a));
    } else if a.Alloc? || a.Describe? {
      HeapKeepsKept(c, s, a);
    } else if a.Write? {
      WriteKeepsKept(s, a.t, a.b, a.j, a.v);
    } else if a.BarrierExchange? {
      ExchangeKeepsKept(s, a.t);
    } else {
      ThreadKeepsKept(c, s, a);
    }
  }

  lemma NextRootKeepsKept(s: State)
    requires Kept(s) && s.phase.Rooting? && CollectorEnabled(s, NextRoot)
    ensures Kept(MarkNextRoot(s))
  {
    if s.rootSnap[s.phase.next].To? {
      forall v | Covered(s, v) ensures Covered(MarkNextRoot(s), v) { NextRootCovers(s, v); }
      CoveringKeeps(s, MarkNextRoot(s));
    }
  }

  lemma TraceKeepsKept(c: Config, s: State, a: Action)
    requires Kept(s) && s.phase.Rooting? && CollectorEnabled(s, a) && IsTrace(a) && !a.NextRoot?
    ensures Kept(Apply(c, s, a))
  {
    var s' := Apply(c, s, a);
    TraceLeavesRest(c, s, a);
    if s'.phase.Rooting? { CoveringKeeps(s, s'); }
  }

  lemma CollectorRootsOnce(c: Config, s: State, a: Action)
    requires Phased(s) && !s.phase.Crashed? && CollectorEnabled(s, a) && !IsTrace(a) && !a.StartCycle?
    ensures !Apply(c, s, a).phase.Rooting?
  {
  }

  lemma StartsKept(s: State)
    requires Bits(s) && CollectorEnabled(s, StartCycle)
    ensures Kept(BeginCycle(s))
  {
  }

  lemma CollectorKeepsKept(c: Config, s: State, a: Action)
    requires Kept(s) && Bits(s) && !s.phase.Crashed? && CollectorEnabled(s, a)
    ensures Kept(Apply(c, s, a))
  {
    if a.StartCycle? {
      StartsKept(s);
    } else if !IsTrace(a) {
      CollectorRootsOnce(c, s, a);
    } else if !s.phase.Rooting? {
      TraceLeavesRest(c, s, a);
    } else if a.NextRoot? {
      NextRootKeepsKept(s);
    } else {
      TraceKeepsKept(c, s, a);
    }
  }

  /** Every action keeps the snapshot's references in their slots or covered. */
  lemma StepKeepsKept(c: Config, s: State, a: Action)
    requires Kept(s) && Bits(s) && Enabled(s, a)
    ensures Kept(Apply(c, s, a))
  {
    if !MutatorEnabled(s, a) {
      CollectorKeepsKept(c, s, a);
    } else if s.phase.Rooting? {
      MutatorKeepsKept(c, s, a);
    } else {
      MutatorsKeepPhase(c, s, a);
    }
  }

  // ---- Whole runs

  lemma StepKeepsBounded(c: Config, s: State, a: Action)
    requires Bounded(c, s) && Enabled(s, a)
    ensures Bounded(c, Apply(c, s, a))
  {
    if MutatorEnabled(s, a) { MutatorKeepsBounded(c, s, a); } else { CollectorKeepsBounded(c, s, a); }
  }

  lemma StepKeepsTraced(c: Config, s: State, a: Action)
    requires Traced(c, s) && Bounded(c, s) && Phased(s) && Enabled(s, a)
    ensures Traced(c, Apply(c, s, a))
  {
    if MutatorEnabled(s, a) {
      MutatorKeepsTraced(c, s, a);
    } else if IsTrace(a) {
      TraceKeepsTraced(c, s, a);
    } else {
      OthersKeepTraced(c, s, a);
    }
  }

  lemma StepKeepsAlways(c: Config, s: State, a: Action)
    requires AlwaysInv(c, s) && Enabled(s, a)
    ensures AlwaysInv(c, Apply(c, s, a))
  {
    StepKeepsBounded(c, s, a);
    StepKeepsBits(c, s, a);
    StepKeepsTraced(c, s, a);
    StepKeepsKept(c, s, a);
  }

  lemma InitAlways(c: Config)
    requires c.Valid()
    ensures AlwaysInv(c, INIT)
  {
  }

  lemma {:induction false} RunKeepsAlways(c: Config, r: Rules, ss: seq<State>, acts: seq<Action>, i: nat)
    requires IsRun(c, r, ss, acts) && i <= |acts|
    ensures AlwaysInv(c, ss[i])
  {
    if i > 0 {
      RunKeepsAlways(c, r, ss, acts, i - 1);
      assert StepAt(c, r, ss, acts, i - 1);
      StepKeepsAlways(c, ss[i - 1], acts[i - 1]);
    } else {
      InitAlways(c);
    }
  }

  lemma ReachableAlways(c: Config, r: Rules, s: State)
    requires Reachable(c, r, s)
    ensures AlwaysInv(c, s)
  {
    var ss, acts :| IsRun(c, r, ss, acts) && ss[|acts|] == s;
    RunKeepsAlways(c, r, ss, acts, |acts|);
  }

  /** In any run, while marking goes on, each reference that a block held at the snapshot is still in its
      slot, or its target is marked, queued, a root to be traced or held by a mutator that has not exchanged
      its mark bit yet. `CycleQuiet.DueReferenceIsStillScanned` says more of the blocks due. */
  lemma SnapshotReferenceIsSafe(c: Config, s: State, b: Block, j: nat, v: Block)
    requires Reachable(c, AnyRun, s) && s.phase.Rooting? && SlotHolds(s.hist.at.heap, b, j, v)
    ensures SlotHolds(s.heap, b, j, v) || Covered(s, v)
  {
    ReachableAlways(c, AnyRun, s);
  }

  /** In any run an action crashes the collector exactly if it takes a null root, or a reference that fits
      neither queue; the shared remark queue always holds whole buffers. What the collector does on a block that
      has been freed is no action: see `StuckExactlyWhen`. */
  lemma CrashesExactlyWhen(c: Config, s: State, a: Action)
    requires Reachable(c, AnyRun, s) && Enabled(s, a)
    ensures Apply(c, s, a).phase.Crashed? <==>
      || (a.NextRoot? && s.rootSnap[s.phase.next] == Null)
      || (a.ScanSlot? && AtReference(s) && |s.queue| == c.queueCap && |s.deferred| == c.deferredCap)
  {
    ReachableAlways(c, AnyRun, s);
    CrashHasACause(c, s, a);
  }

  /** In any run: before the first cycle nothing reads as marked; at every later cycle start the blocks that do
      are exactly those allocated since the previous cycle started that no trace or barrier touched. */
  lemma ParityAtCycleStart(c: Config, s: State, b: Block)
    requires Reachable(c, AnyRun, s) && s.phase.Idle? && b in s.heap
    ensures Marked(s, b) <==> s.hist.cycles > 0 && b in s.hist.untouched
  {
    ReachableAlways(c, AnyRun, s);
  }

  /** In any run the flip at the end of a cycle clears every survivor: all blocks but the untouched new ones
      read as marked before it and as unmarked after it, and for the untouched ones it is the reverse. */
  lemma FlipClearsSurvivors(c: Config, s: State, b: Block)
    requires Reachable(c, AnyRun, s) && Enabled(s, Flip) && b in s.heap
    ensures Marked(s, b) <==> b !in s.hist.untouched
    ensures Marked(Apply(c, s, Flip), b) <==> b in s.hist.untouched
  {
    ReachableAlways(c, AnyRun, s);
  }

  // ---- Progress

  /** The block that the collector has to look into next has been freed. */
  predicate AtFreedBlock(s: State) {
    || ((s.work.Visit? || s.work.Load?) && s.work.at.block !in s.heap)
    || (s.phase.Draining? && NoTraceLeft(s) && s.chunk != [] && s.chunk[0] !in s.heap)
  }

  /** Mutators in their sections keep the collector from starting a cycle or ending it. */
  predicate WaitsForMutators(s: State) {
    !AllOutside(s) && (s.phase.Idle? || (s.phase.Sweeping? && s.sweepList == {}))
  }

  /** The collector's next action. */
  function NextAction(s: State): Action {
    if s.work.Visit? then VisitBlock
    else if s.work.Load? then LoadDescriptor
    else if s.work.Scan? then ScanSlot
    else if s.queue != [] then PopQueue
    else if s.deferred != [] then PopDeferred
    else match s.phase
      case Idle => StartCycle
      case Rooting(i) => if i < |s.rootSnap| then NextRoot else ClearFlag
      case Draining(k) =>
        if s.chunk != [] then DrainOne
        else if k == 0 then (if s.remarkQueue != [] then TakeChunk else EndQueue)
        else if k <= |s.threads| then TakeLocal else BeginSweep
      case Sweeping => Flip
      case Crashed => Flip
  }

  lemma ActsUnlessStuck(c: Config, s: State)
    requires Traced(c, s) && Phased(s) && Parity(s) && !s.phase.Crashed? && !AtFreedBlock(s) && !WaitsForMutators(s)
    ensures exists a :: CollectorEnabled(s, a)
  {
    if s.phase.Sweeping? && s.sweepList != {} {
      var b :| b in s.sweepList;
      assert CollectorEnabled(s, SweepOne(b));
    } else {
      assert CollectorEnabled(s, NextAction(s));
    }
  }

  lemma StuckHasNoAction(c: Config, s: State, a: Action)
    requires Phased(s) && !s.phase.Crashed? && (AtFreedBlock(s) || WaitsForMutators(s))
    ensures !CollectorEnabled(s, a)
  {
  }

  /** In any run that has not crashed the collector lacks an action exactly when it waits for mutators to leave
      their sections, or has come to a block that has been freed, which the source then dereferences. */
  lemma StuckExactlyWhen(c: Config, s: State)
    requires Reachable(c, AnyRun, s) && !s.phase.Crashed?
    ensures (forall a :: !CollectorEnabled(s, a)) <==> AtFreedBlock(s) || WaitsForMutators(s)
  {
    ReachableAlways(c, AnyRun, s);
    if AtFreedBlock(s) || WaitsForMutators(s) {
      forall a ensures !CollectorEnabled(s, a) { StuckHasNoAction(c, s, a); }
    } else {
      ActsUnlessStuck(c, s);
    }
  }
}
