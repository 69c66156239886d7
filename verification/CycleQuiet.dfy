/** What holds in runs whose mutators are quiet around the drain, whatever premarked blocks refer to: blocks due
    to be marked are marked, and garbage does not outlive two cycles. */
module CycleQuiet {
  import opened Heap
  import opened MarkState
  import opened CycleModel
  import opened CycleInvariant
  import opened CycleRuns
  import opened CycleSteps
  import opened CycleTrace
  import opened CycleAnyRun

  // ---- Buffers

  lemma PushKeepsCalm(c: Config, s: State, t: nat)
    requires Phased(s) && Calm(s) && MutatorEnabled(s, BarrierPush(t))
    ensures Calm(PushRemark(c, s, t))
  {
  }

  lemma ExchangeKeepsCalm(s: State, t: nat)
    requires Phased(s) && Calm(s) && MutatorEnabled(s, BarrierExchange(t))
    ensures Calm(ExchangeMark(s, t))
  {
  }

  /** Any other step of a mutator leaves all buffers, and brings a barrier to its exchange only while marking. */
  ghost predicate BuffersUntouched(s: State, s': State) {
    && s'.phase == s.phase && s'.marking == s.marking && s'.remarkQueue == s.remarkQueue
    && |s'.threads| >= |s.threads|
    && (forall t | 0 <= t < |s'.threads| :: s'.threads[t].local == if t < |s.threads| then s.threads[t].local else [])
    && (forall t | 0 <= t < |s'.threads| && (s'.threads[t].pc.Exchange? || s'.threads[t].pc.Push?) ::
      s.marking || (t < |s.threads| && s'.threads[t].pc == s.threads[t].pc))
  }

  lemma MutatorLeavesBuffers(c: Config, s: State, a: Action)
    requires !s.phase.Crashed? && MutatorEnabled(s, a) && !a.BarrierExchange? && !a.BarrierPush?
    ensures BuffersUntouched(s, Apply(c, s, a))
  {
  }

  lemma MutatorKeepsCalm(c: Config, s: State, a: Action)
    requires Phased(s) && Calm(s) && !s.phase.Crashed? && MutatorEnabled(s, a)
    ensures Calm(Apply(c, s, a))
  {
    if a.BarrierExchange? {
      ExchangeKeepsCalm(s, a.t);
    } else if a.BarrierPush? {
      PushKeepsCalm(c, s, a.t);
    } else {
      MutatorLeavesBuffers(c, s, a);
    }
  }

  lemma DrainKeepsCalm(c: Config, s: State, a: Action)
    requires Phased(s) && Calm(s) && CollectorEnabled(s, a) && Quiet(s, a) && !s.phase.Crashed? && IsDrain(a)
    ensures Calm(Apply(c, s, a))
  {
  }

  lemma PhaseKeepsCalm(c: Config, s: State, a: Action)
    requires Phased(s) && Calm(s) && CollectorEnabled(s, a) && !s.phase.Crashed?
    requires a.StartCycle? || a.BeginSweep? || a.SweepOne? || a.Flip?
    ensures Calm(Apply(c, s, a))
  {
  }

  lemma StepKeepsCalm(c: Config, s: State, a: Action)
    requires Phased(s) && Calm(s) && Enabled(s, a) && Quiet(s, a)
    ensures Apply(c, s, a).phase.Crashed? || Calm(Apply(c, s, a))
  {
    if MutatorEnabled(s, a) {
      MutatorKeepsCalm(c, s, a);
    } else if IsTrace(a) {
      TraceLeavesRest(c, s, a);
    } else if IsDrain(a) {
      DrainKeepsCalm(c, s, a);
    } else {
      PhaseKeepsCalm(c, s, a);
    }
  }

  // ---- Names

  /** The scope of a state. */
  ghost predicate Of(sc: Scope, s: State) {
    sc.live == s.hist.live && sc.heap == s.heap.Keys
  }

  lemma ReplaceNamed(s: State, sc: Scope, t: nat, m: Mutator)
    requires NamedIn(s, sc) && t < |s.threads| && MutatorKnown(sc, m)
    ensures NamedIn(s.(threads := s.threads[t := m]), sc)
  {
  }

  /** A block of the heap that a thread has a root to is live, and what it holds is known. */
  lemma RootedIsLive(s: State, sc: Scope, t: nat, b: Block, j: nat)
    requires NamedIn(s, sc) && Of(sc, s) && Rooted(s, t, b) && j < |s.heap[b].All()|
    ensures b in s.hist.live
    ensures forall v | s.heap[b].All()[j] == To(v) :: Known(sc, v)
  {
    assert MutatorKnown(sc, s.threads[t]) && Known(sc, b);
    forall v | s.heap[b].All()[j] == To(v) ensures Known(sc, v) { assert Edge(s.heap, b, v); }
  }

  lemma ReadNamed(s: State, sc: Scope, t: nat, b: Block, j: nat)
    requires NamedIn(s, sc) && Of(sc, s) && MutatorEnabled(s, Read(t, b, j))
    ensures NamedIn(ReadField(s, t, b, j), sc)
  {
    RootedIsLive(s, sc, t, b, j);
    assert MutatorKnown(sc, s.threads[t]);
    ReplaceNamed(s, sc, t, ReadField(s, t, b, j).threads[t]);
  }

  lemma DropNamed(s: State, sc: Scope, t: nat, i: nat)
    requires NamedIn(s, sc) && MutatorEnabled(s, Drop(t, i))
    ensures NamedIn(DropRoot(s, t, i), sc)
  {
    assert MutatorKnown(sc, s.threads[t]) && s.threads[t].roots[i] in s.threads[t].roots;
    ReplaceNamed(s, sc, t, DropRoot(s, t, i).threads[t]);
  }

  /** The slot that is written holds a block that the writer has a root to; all others are as before. */
  lemma WriteEdges(s: State, sc: Scope, t: nat, b: Block, j: nat, v: Ref)
    requires NamedIn(s, sc) && MutatorEnabled(s, Write(t, b, j, v))
    ensures EdgesKnown(WriteField(s, t, b, j, v), sc)
  {
    assert MutatorKnown(sc, s.threads[t]);
    var s' := WriteField(s, t, b, j, v);
    forall x, y | x in s'.hist.live && Edge(s'.heap, x, y) ensures Known(sc, y) {
      if x == b {
        var i :| 0 <= i < |s'.heap[b].All()| && s'.heap[b].All()[i] == To(y);
        if i != j { assert s.heap[b].All()[i] == To(y) && Edge(s.heap, b, y); }
      } else {
        assert Edge(s.heap, x, y);
      }
    }
  }

  lemma WriteNamed(s: State, sc: Scope, t: nat, b: Block, j: nat, v: Ref)
    requires NamedIn(s, sc) && Of(sc, s) && MutatorEnabled(s, Write(t, b, j, v))
    ensures NamedIn(WriteField(s, t, b, j, v), sc)
  {
    RootedIsLive(s, sc, t, b, j);
    WriteEdges(s, sc, t, b, j, v);
    assert MutatorKnown(sc, s.threads[t]);
    ReplaceNamed(s, sc, t, WriteField(s, t, b, j, v).threads[t]);
  }

  /** With more live blocks, or fewer blocks, no less is known. */
  lemma KnowsMore(s: State, sc: Scope, sc': Scope)
    requires NamedIn(s, sc) && sc.strict == sc'.strict && sc.live <= sc'.live
    requires forall b | b in sc'.heap :: b in sc.heap || b in sc'.live
    ensures NamedIn(s, sc')
  {
    assert forall b | Known(sc, b) :: Known(sc', b);
    forall t | 0 <= t < |s.threads| ensures MutatorKnown(sc', s.threads[t]) {
      assert MutatorKnown(sc, s.threads[t]);
    }
  }

  lemma AllocNamed(s: State, sc: Scope, t: nat, b: Block)
    requires NamedIn(s, sc) && Of(sc, s) && MutatorEnabled(s, Alloc(t, b))
    ensures NamedIn(Allocate(s, t, b), Scope(sc.live + {b}, sc.heap + {b}, sc.strict))
  {
    var s', sc' := Allocate(s, t, b), Scope(sc.live + {b}, sc.heap + {b}, sc.strict);
    KnowsMore(s, sc, sc');
    assert MutatorKnown(sc', s.threads[t]);
    forall x, y | x in s'.hist.live && Edge(s'.heap, x, y) ensures Known(sc', y) {
      assert x != b && Edge(s.heap, x, y);
    }
  }

  lemma DescribeNamed(c: Config, s: State, sc: Scope, t: nat, b: Block, nf: nat, nx: nat)
    requires NamedIn(s, sc) && !s.phase.Crashed? && MutatorEnabled(s, Describe(t, b, nf, nx))
    ensures NamedIn(Apply(c, s, Describe(t, b, nf, nx)), sc)
  {
    var s' := Apply(c, s, Describe(t, b, nf, nx));
    forall x, y | x in s'.hist.live && Edge(s'.heap, x, y) ensures Known(sc, y) {
      assert x != b && Edge(s.heap, x, y);
    }
  }

  lemma PushNamed(c: Config, s: State, sc: Scope, t: nat)
    requires NamedIn(s, sc) && MutatorEnabled(s, BarrierPush(t))
    ensures NamedIn(PushRemark(c, s, t), sc)
  {
    var m := s.threads[t];
    assert MutatorKnown(sc, m);
    if |m.local| + 1 == c.chunkSize {
      ReplaceNamed(s, sc, t, Mutator(Inside, m.roots, []));
    } else {
      ReplaceNamed(s, sc, t, Mutator(Inside, m.roots, m.local + [m.pc.won]));
    }
  }

  lemma ExchangeNamed(s: State, sc: Scope, t: nat)
    requires NamedIn(s, sc) && MutatorEnabled(s, BarrierExchange(t))
    ensures NamedIn(ExchangeMark(s, t), sc)
  {
    assert MutatorKnown(sc, s.threads[t]);
    ReplaceNamed(s, sc, t, ExchangeMark(s, t).threads[t]);
  }

  lemma ThreadNamed(c: Config, s: State, sc: Scope, a: Action)
    requires NamedIn(s, sc) && !s.phase.Crashed? && MutatorEnabled(s, a)
    requires a.Attach? || a.Enter? || a.Leave? || a.BarrierCheck?
    ensures NamedIn(Apply(c, s, a), sc)
  {
    if !a.Attach? {
      assert MutatorKnown(sc, s.threads[a.t]);
      ReplaceNamed(s, sc, a.t, Apply(c, s, a).threads[a.t]);
    }
  }

  lemma MutatorKeepsNamed(c: Config, s: State, sc: Scope, a: Action)
    requires NamedIn(s, sc) && Of(sc, s) && !s.phase.Crashed? && MutatorEnabled(s, a) && !a.Alloc?
    ensures NamedIn(Apply(c, s, a), sc)
  {
    if a.Write? {
      WriteNamed(s, sc, a.t, a.b, a.j, a.v);
    } else if a.Read? {
      ReadNamed(s, sc, a.t, a.b, a.j);
    } else if a.Drop? {
      DropNamed(s, sc, a.t, a.i);
    } else if a.Describe? {
      DescribeNamed(c, s, sc, a.t, a.b, a.nf, a.nx);
    } else if a.BarrierPush? {
      PushNamed(c, s, sc, a.t);
    } else if a.BarrierExchange? {
      ExchangeNamed(s, sc, a.t);
    } else {
      ThreadNamed(c, s, sc, a);
    }
  }

  lemma ParkNamed(s: State, sc: Scope)
    requires CollectorKnows(s, sc) && s.work.Scan?
    ensures CollectorKnows(ParkBlock(s), sc)
  {
  }

  lemma ItemNamed(c: Config, s: State, sc: Scope, ref: Ref)
    requires CollectorKnows(s, sc) && s.work.Scan? && (ref.To? ==> Known(sc, ref.block))
    ensures CollectorKnows(MarkOneItem(c, s, ref), sc)
  {
    if ref.To? && |s.queue| >= c.queueCap && |s.deferred| < c.deferredCap { ParkNamed(s, sc); }
  }

  lemma ScanNamed(c: Config, s: State, sc: Scope)
    requires NamedIn(s, sc) && Of(sc, s) && CollectorEnabled(s, ScanSlot)
    ensures CollectorKnows(ScanNext(c, s), sc)
  {
    if s.work.pos < s.work.nf + s.work.nx {
      var ref := s.heap[s.work.at.block].All()[s.work.pos];
      if ref.To? { assert Edge(s.heap, s.work.at.block, ref.block); }
      ItemNamed(c, s, sc, ref);
    }
  }

  lemma QueueNamed(c: Config, s: State, sc: Scope, a: Action)
    requires CollectorKnows(s, sc) && !s.phase.Crashed? && CollectorEnabled(s, a)
    requires a.NextRoot? || a.PopQueue? || a.PopDeferred? || a.LoadDescriptor?
    ensures CollectorKnows(Apply(c, s, a), sc)
  {
    if a.PopQueue? { assert s.queue[0] in s.queue; }
  }

  lemma VisitNamed(s: State, sc: Scope)
    requires CollectorKnows(s, sc) && CollectorEnabled(s, VisitBlock)
    ensures CollectorKnows(VisitMarked(s), sc)
  {
  }

  lemma TraceNamed(c: Config, s: State, sc: Scope, a: Action)
    requires NamedIn(s, sc) && Of(sc, s) && !s.phase.Crashed? && CollectorEnabled(s, a) && IsTrace(a)
    ensures NamedIn(Apply(c, s, a), sc)
  {
    TraceLeavesRest(c, s, a);
    if a.VisitBlock? {
      VisitNamed(s, sc);
    } else if a.ScanSlot? {
      ScanNamed(c, s, sc);
    } else {
      QueueNamed(c, s, sc, a);
    }
  }

  lemma DrainNamed(c: Config, s: State, sc: Scope, a: Action)
    requires NamedIn(s, sc) && !s.phase.Crashed? && CollectorEnabled(s, a) && IsDrain(a)
    ensures NamedIn(Apply(c, s, a), sc)
  {
    match a
    case ClearFlag =>
    case TakeChunk => assert CollectorKnows(TakeRemarkChunk(c, s), sc);
    case EndQueue =>
    case TakeLocal =>
      assert MutatorKnown(sc, s.threads[s.phase.next - 1]);
      assert CollectorKnows(TakeLocalBuffer(s), sc);
    case DrainOne => assert s.chunk[0] in s.chunk && CollectorKnows(DrainBlock(s), sc);
  }

  lemma FreeNamed(s: State, sc: Scope, b: Block)
    requires NamedIn(s, sc) && CollectorEnabled(s, SweepOne(b))
    ensures NamedIn(SweepBlock(s, b), sc)
  {
    forall x, y | x in s.hist.live && Edge(SweepBlock(s, b).heap, x, y) ensures Known(sc, y) {
      assert Edge(s.heap, x, y);
    }
  }

  lemma SweepNamed(c: Config, s: State, sc: Scope, a: Action)
    requires NamedIn(s, sc) && !s.phase.Crashed? && CollectorEnabled(s, a)
    requires a.BeginSweep? || a.SweepOne? || a.Flip?
    ensures NamedIn(Apply(c, s, a), sc)
  {
    if a.SweepOne? { FreeNamed(s, sc, a.b); }
  }

  lemma CollectorKeepsNamed(c: Config, s: State, sc: Scope, a: Action)
    requires NamedIn(s, sc) && Of(sc, s) && !s.phase.Crashed? && CollectorEnabled(s, a) && !a.StartCycle?
    ensures NamedIn(Apply(c, s, a), sc)
  {
    if IsTrace(a) {
      TraceNamed(c, s, sc, a);
    } else if IsDrain(a) {
      DrainNamed(c, s, sc, a);
    } else {
      SweepNamed(c, s, sc, a);
    }
  }

  /** Only an allocation, or a sweep, changes what there is to know. */
  lemma ScopeAfter(c: Config, s: State, a: Action)
    requires Enabled(s, a) && !a.StartCycle?
    ensures var s' := Apply(c, s, a);
      && s'.hist.live == s.hist.live + (if a.Alloc? then {a.b} else {})
      && s'.heap.Keys <= s.heap.Keys + (if a.Alloc? then {a.b} else {})
      && (a.Alloc? ==> s'.heap.Keys == s.heap.Keys + {a.b})
  {
    if MutatorEnabled(s, a) {
      if !a.Alloc? && !a.BarrierExchange? { MutatorLeavesRest(c, s, a); }
    } else if IsTrace(a) {
      TraceLeavesRest(c, s, a);
    } else if !IsDrain(a) {
      SweepLeavesLive(c, s, a);
    }
  }

  lemma SweepLeavesLive(c: Config, s: State, a: Action)
    requires CollectorEnabled(s, a) && !s.phase.Crashed? && (a.BeginSweep? || a.SweepOne? || a.Flip?)
    ensures Apply(c, s, a).hist.live == s.hist.live && Apply(c, s, a).heap.Keys <= s.heap.Keys
  {
  }

  /** Any action but the start of a cycle keeps names. */
  lemma StepKeepsNamed(c: Config, s: State, strict: bool, a: Action)
    requires Named(s, strict) && Enabled(s, a) && !a.StartCycle?
    ensures Named(Apply(c, s, a), strict)
  {
    var s', sc := Apply(c, s, a), ScopeOf(s, strict);
    ScopeAfter(c, s, a);
    if a.Alloc? {
      AllocNamed(s, sc, a.t, a.b);
    } else {
      if MutatorEnabled(s, a) { MutatorKeepsNamed(c, s, sc, a); } else { CollectorKeepsNamed(c, s, sc, a); }
      KnowsMore(s', sc, ScopeOf(s', strict));
    }
  }

  /** What a cycle takes for live holds what its blocks refer to, as far as that is in the heap. */
  lemma StartNamed(s: State)
    requires Phased(s) && Calm(s) && CollectorEnabled(s, StartCycle)
    ensures Named(BeginCycle(s), false)
  {
    var s', roots := BeginCycle(s), RefBlocks(AllRoots(s.threads));
    var sc := ScopeOf(s', false);
    forall b | b in roots ensures Known(sc, b) { ReachedRoot(s.heap, {}, roots, b); }
    forall a, b | a in s'.hist.live && Edge(s.heap, a, b) ensures Known(sc, b) {
      ReachedStep(s.heap, {}, roots, a, b);
    }
  }

  // ---- Mark bits of dead blocks

  lemma MutatorKeepsDeadBits(c: Config, s: State, a: Action)
    requires DeadBits(s) && Named(s, false) && Phased(s) && !s.phase.Crashed? && MutatorEnabled(s, a)
    ensures DeadBits(Apply(c, s, a))
  {
    if a.Alloc? {
      assert Apply(c, s, a) == Allocate(s, a.t, a.b);
    } else if a.BarrierExchange? {
      assert MutatorKnown(ScopeOf(s, false), s.threads[a.t]);
      assert Apply(c, s, a) == ExchangeMark(s, a.t);
    } else {
      MutatorLeavesRest(c, s, a);
    }
  }

  lemma VisitKeepsDeadBits(s: State)
    requires DeadBits(s) && Named(s, false) && Phased(s) && !s.phase.Crashed? && CollectorEnabled(s, VisitBlock)
    ensures DeadBits(VisitMarked(s))
  {
  }

  lemma DrainKeepsDeadBits(c: Config, s: State, a: Action)
    requires DeadBits(s) && Named(s, false) && Phased(s) && !s.phase.Crashed? && CollectorEnabled(s, a) && IsDrain(a)
    ensures DeadBits(Apply(c, s, a))
  {
    if a.DrainOne? { assert s.chunk[0] in s.chunk && Known(ScopeOf(s, false), s.chunk[0]); }
  }

  lemma ReadKeepsDeadBits(c: Config, s: State, a: Action)
    requires DeadBits(s) && Phased(s) && !s.phase.Crashed? && CollectorEnabled(s, a) && IsTrace(a) && !a.VisitBlock?
    ensures DeadBits(Apply(c, s, a))
  {
    TraceLeavesRest(c, s, a);
    if a.ScanSlot? { ScanIsQueuesOnly(c, s); }
  }

  lemma PhaseKeepsDeadBits(c: Config, s: State, a: Action)
    requires DeadBits(s) && Phased(s) && !s.phase.Crashed? && CollectorEnabled(s, a)
    requires a.StartCycle? || a.BeginSweep? || a.SweepOne? || a.Flip?
    ensures DeadBits(Apply(c, s, a))
  {
  }

  lemma StepKeepsDeadBits(c: Config, s: State, a: Action)
    requires DeadBits(s) && Named(s, false) && Phased(s) && Enabled(s, a)
    ensures DeadBits(Apply(c, s, a))
  {
    if MutatorEnabled(s, a) {
      MutatorKeepsDeadBits(c, s, a);
    } else if a.VisitBlock? {
      VisitKeepsDeadBits(s);
    } else if IsTrace(a) {
      ReadKeepsDeadBits(c, s, a);
    } else if IsDrain(a) {
      DrainKeepsDeadBits(c, s, a);
    } else {
      PhaseKeepsDeadBits(c, s, a);
    }
  }

  // ---- The snapshot's references

  lemma StartSatb(s: State)
    requires Phased(s) && CollectorEnabled(s, StartCycle)
    ensures Satb(BeginCycle(s)) && DueIsReached(BeginCycle(s))
  {
    var s' := BeginCycle(s);
    assert s'.rootSnap[s'.phase.next..] == s'.rootSnap;
    forall b | b in s'.hist.at.due ensures b !in s'.hist.at.pre {
      ReachedAvoids(s.heap, s'.hist.at.pre, RefBlocks(s'.rootSnap), b);
    }
  }

  lemma StartSets(s: State)
    requires Phased(s) && Calm(s) && CollectorEnabled(s, StartCycle)
    ensures SnapSets(BeginCycle(s)) && SnapShape(BeginCycle(s))
  {
    var s' := BeginCycle(s);
    forall b | b in s'.hist.at.due ensures b !in s'.hist.at.pre {
      ReachedAvoids(s.heap, s'.hist.at.pre, RefBlocks(s'.rootSnap), b);
    }
    assert forall b :: !Buffered(s', b);
  }

  lemma MutatorKeepsSnapped(c: Config, s: State, a: Action)
    requires Snapped(s) && Phased(s) && !s.phase.Crashed? && MutatorEnabled(s, a) && Quiet(s, a)
    ensures Snapped(Apply(c, s, a))
  {
    var s' := Apply(c, s, a);
    MutatorsKeepPhase(c, s, a);
    if Tracing(s) {
      MutatorSets(c, s, a);
      MutatorShape(c, s, a);
      MutatorSatb(c, s, a);
      MutatorKeepsAt(c, s, a);
    }
  }

  lemma MutatorKeepsAt(c: Config, s: State, a: Action)
    requires !s.phase.Crashed? && MutatorEnabled(s, a)
    ensures Apply(c, s, a).hist.at == s.hist.at && Apply(c, s, a).rootSnap == s.rootSnap
  {
    if !a.Alloc? && !a.BarrierExchange? { MutatorLeavesRest(c, s, a); }
  }

  lemma CollectorKeepsSnapped(c: Config, s: State, a: Action)
    requires Snapped(s) && Bounded(c, s) && Phased(s) && Traced(c, s) && Tracing(s) && !s.phase.Crashed?
    requires CollectorEnabled(s, a) && (IsTrace(a) || IsDrain(a)) && Quiet(s, a)
    ensures Snapped(Apply(c, s, a))
  {
    if !Apply(c, s, a).phase.Crashed? {
      CollectorSets(c, s, a);
      CollectorShape(c, s, a);
      if IsTrace(a) {
        TraceLeavesRest(c, s, a);
        QueueSatb(c, s, a);
      } else {
        DrainSatb(c, s, a);
      }
    }
  }

  lemma StepKeepsSnapped(c: Config, s: State, a: Action)
    requires Snapped(s) && Bounded(c, s) && Phased(s) && Traced(c, s) && Calm(s) && Enabled(s, a) && Quiet(s, a)
    ensures Snapped(Apply(c, s, a))
  {
    if MutatorEnabled(s, a) {
      MutatorKeepsSnapped(c, s, a);
    } else if a.StartCycle? {
      StartSatb(s);
      StartSets(s);
    } else if IsTrace(a) || IsDrain(a) {
      CollectorKeepsSnapped(c, s, a);
    }
  }

  // ---- Whole runs

  lemma StepKeepsNames(c: Config, s: State, a: Action)
    requires Named(s, false) && Phased(s) && Calm(s) && Enabled(s, a)
    ensures Named(Apply(c, s, a), false)
  {
    if a.StartCycle? { StartNamed(s); } else { StepKeepsNamed(c, s, false, a); }
  }

  lemma StepKeepsQuiet(c: Config, s: State, a: Action)
    requires QuietInv(c, s) && Enabled(s, a) && Quiet(s, a)
    ensures QuietInv(c, Apply(c, s, a))
  {
    StepKeepsAlways(c, s, a);
    StepKeepsCalm(c, s, a);
    StepKeepsNames(c, s, a);
    StepKeepsDeadBits(c, s, a);
    StepKeepsSnapped(c, s, a);
  }

  lemma InitQuiet(c: Config)
    requires c.Valid()
    ensures QuietInv(c, INIT)
  {
    InitAlways(c);
  }

  lemma {:induction false} RunKeepsQuiet(c: Config, r: Rules, ss: seq<State>, acts: seq<Action>, i: nat)
    requires IsRun(c, r, ss, acts) && (r.QuietRun? || r.SafeRun?) && i <= |acts|
    ensures QuietInv(c, ss[i])
  {
    if i > 0 {
      RunKeepsQuiet(c, r, ss, acts, i - 1);
      assert StepAt(c, r, ss, acts, i - 1);
      StepKeepsQuiet(c, ss[i - 1], acts[i - 1]);
    } else {
      InitQuiet(c);
    }
  }

  lemma ReachableQuiet(c: Config, r: Rules, s: State)
    requires Reachable(c, r, s) && (r.QuietRun? || r.SafeRun?)
    ensures QuietInv(c, s)
  {
    var ss, acts :| IsRun(c, r, ss, acts) && ss[|acts|] == s;
    RunKeepsQuiet(c, r, ss, acts, |acts|);
  }

  // ---- What the cycle owes

  /** In quiet runs a reference that a block due to be marked held at the snapshot is not only still in its
      slot or covered, as in any run (CycleAnyRun): while it is not covered, the collector has yet to load it. */
  lemma DueReferenceIsStillScanned(c: Config, s: State, b: Block, j: nat, v: Block)
    requires Reachable(c, QuietRun, s) && s.phase.Rooting? && SnapRef(s.hist.at, b, j, v)
    ensures EdgeSafe(s, b, j, v)
  {
    ReachableQuiet(c, QuietRun, s);
  }

  lemma DueMarkedAtSweep(c: Config, s: State, b: Block)
    requires Phased(s) && Calm(s) && Snapped(s) && CollectorEnabled(s, BeginSweep) && b in s.hist.at.due
    ensures Marked(s, b)
  {
    EndOfDrain(c, s);
    DueAreMarked(s, b);
  }

  /** In quiet runs every block that the snapshot's roots reach without passing through a premarked one is
      marked when the sweep begins, whatever premarked blocks earlier cycles left. */
  lemma DueIsMarkedAtSweep(c: Config, s: State, b: Block)
    requires Reachable(c, QuietRun, s) && Enabled(s, BeginSweep) && b in s.hist.at.heap
    requires Reached(s.hist.at.heap, s.hist.at.pre, RefBlocks(s.rootSnap), b)
    ensures Marked(s, b)
  {
    ReachableQuiet(c, QuietRun, s);
    DueMarkedAtSweep(c, s, b);
  }

  // ---- What roots reach

  lemma {:induction false} PathIsKnown(s: State, strict: bool, p: seq<Block>, k: nat)
    requires Named(s, strict) && IsPath(s.heap, {}, RefBlocks(AllRoots(s.threads)), p) && k < |p|
    ensures Known(ScopeOf(s, strict), p[k])
  {
    var sc := ScopeOf(s, strict);
    if k == 0 {
      var t :| 0 <= t < |s.threads| && To(p[0]) in s.threads[t].roots;
      assert MutatorKnown(sc, s.threads[t]);
    } else {
      PathIsKnown(s, strict, p, k - 1);
      assert Edge(s.heap, p[k - 1], p[k]);
    }
  }

  lemma AccessibleIsKnown(s: State, strict: bool, b: Block)
    requires Named(s, strict) && Accessible(s, b)
    ensures Known(ScopeOf(s, strict), b)
  {
    var p :| IsPath(s.heap, {}, RefBlocks(AllRoots(s.threads)), p) && p[|p| - 1] == b;
    PathIsKnown(s, strict, p, |p| - 1);
  }
}
