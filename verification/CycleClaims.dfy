/** Tracing and barriers race on mark bits: every block is claimed by at most one of them. */
module CycleClaims {
  import opened Heap
  import opened MarkState
  import opened CycleModel
  import opened CycleInvariant
  import opened CycleRuns
  import opened CycleSteps
  import opened CycleAnyRun
  import opened CycleQuiet

  /** Where a block that somebody claimed waits: won by a thread, in the thread's buffer, in the shared
      queue, in the chunk being drained, parked in the deferred queue, or being scanned. */
  datatype Place = Won(t: nat) | Local(t: nat, i: nat) | Shared(i: nat) | Chunk(i: nat) | Parked(k: nat) | AtWork

  predicate WorkIsClaim(w: Work) {
    w.Load? || w.Scan? || (w.Visit? && w.at.fieldIndex > 0)
  }

  function ClaimAt(s: State, p: Place): Ref {
    match p
    case Won(t) => if t < |s.threads| && s.threads[t].pc.Push? then To(s.threads[t].pc.won) else Null
    case Local(t, i) =>
      if t < |s.threads| && i < |s.threads[t].local| then To(s.threads[t].local[i]) else Null
    case Shared(i) => if i < |s.remarkQueue| then To(s.remarkQueue[i]) else Null
    case Chunk(i) => if i < |s.chunk| then To(s.chunk[i]) else Null
    case Parked(k) => if k < |s.deferred| then To(s.deferred[k].block) else Null
    case AtWork => if WorkIsClaim(s.work) then To(s.work.at.block) else Null
  }

  /** No block waits in two places. */
  ghost predicate Unique(s: State) {
    forall p, q | ClaimAt(s, p).To? && ClaimAt(s, q) == ClaimAt(s, p) :: p == q
  }

  ghost predicate ClaimedMarked(s: State) {
    forall p | ClaimAt(s, p).To? :: Marked(s, ClaimAt(s, p).block)
  }

  ghost predicate Claims(s: State) {
    Unique(s) && ClaimedMarked(s)
  }

  /** Claims that only move keep their block; distinct claims come from distinct claims. */
  lemma Moved(s: State, s': State, back: Place -> Place)
    requires Claims(s)
    requires forall p | ClaimAt(s', p).To? :: ClaimAt(s', p) == ClaimAt(s, back(p))
    requires forall p, q | ClaimAt(s', p).To? && ClaimAt(s', q).To? && back(p) == back(q) :: p == q
    requires forall b | Marked(s, b) :: Marked(s', b) || forall p :: ClaimAt(s', p) != To(b)
    ensures Claims(s')
  {
    forall p, q | ClaimAt(s', p).To? && ClaimAt(s', q) == ClaimAt(s', p) ensures p == q {
      assert ClaimAt(s, back(p)) == ClaimAt(s, back(q));
    }
    forall p | ClaimAt(s', p).To? ensures Marked(s', ClaimAt(s', p).block) {
      assert ClaimAt(s, back(p)).To?;
    }
  }

  lemma Unmoved(s: State, s': State)
    requires Claims(s)
    requires forall p | ClaimAt(s', p).To? :: ClaimAt(s', p) == ClaimAt(s, p)
    requires forall b | Marked(s, b) :: Marked(s', b)
    ensures Claims(s')
  {
    Moved(s, s', (p: Place) => p);
  }

  lemma NoClaims(s: State)
    requires forall p :: ClaimAt(s, p) == Null
    ensures Claims(s)
  {
  }

  // ---- Actions of a mutator

  /** No buffer changes, and nobody has won a block that had not. */
  ghost predicate BuffersKept(s: State, s': State) {
    && s' == s.(heap := s'.heap, threads := s'.threads) && |s.threads| <= |s'.threads|
    && forall t | 0 <= t < |s'.threads| ::
      && s'.threads[t].local == (if t < |s.threads| then s.threads[t].local else [])
      && (s'.threads[t].pc.Push? ==> t < |s.threads| && s'.threads[t].pc == s.threads[t].pc)
  }

  lemma ThreadActionKeepsBuffers(c: Config, s: State, a: Action)
    requires !s.phase.Crashed? && MutatorEnabled(s, a)
    requires !a.Alloc? && !a.BarrierExchange? && !a.BarrierPush?
    ensures BuffersKept(s, Apply(c, s, a))
  {
  }

  lemma ThreadActionClaims(c: Config, s: State, a: Action)
    requires !s.phase.Crashed? && MutatorEnabled(s, a) && Claims(s)
    requires !a.Alloc? && !a.BarrierExchange? && !a.BarrierPush?
    ensures Claims(Apply(c, s, a))
  {
    ThreadActionKeepsBuffers(c, s, a);
    KeptClaims(s, Apply(c, s, a));
  }

  lemma KeptClaims(s: State, s': State)
    requires Claims(s) && BuffersKept(s, s')
    ensures Claims(s')
  {
    Unmoved(s, s');
  }

  lemma AllocClaims(s: State, t: nat, b: Block)
    requires MutatorEnabled(s, Alloc(t, b)) && Claims(s) && s.mark.Keys == s.heap.Keys
    ensures Claims(Allocate(s, t, b))
  {
    Unmoved(s, Allocate(s, t, b));
  }

  /** Winning an exchange is a new claim; losing one is none. */
  lemma ExchangeClaims(s: State, t: nat)
    requires MutatorEnabled(s, BarrierExchange(t)) && Claims(s)
    ensures Claims(ExchangeMark(s, t))
  {
    var b, s' := s.threads[t].pc.target, ExchangeMark(s, t);
    forall p | ClaimAt(s', p).To? && p != Won(t) ensures ClaimAt(s', p) == ClaimAt(s, p) {}
    if Marked(s, b) {
      Unmoved(s, s');
    } else {
      forall p, q | ClaimAt(s', p).To? && ClaimAt(s', q) == ClaimAt(s', p) ensures p == q {
        if p != Won(t) && q != Won(t) { assert ClaimAt(s, p) == ClaimAt(s, q); }
      }
    }
  }

  lemma AppendClaims(s: State, t: nat)
    requires MutatorEnabled(s, BarrierPush(t)) && Claims(s)
    ensures Claims(AppendRemark(s, t))
  {
    var n := |s.threads[t].local|;
    Moved(s, AppendRemark(s, t), (p: Place) => if p == Local(t, n) then Won(t) else p);
  }

  lemma FlushClaims(s: State, t: nat)
    requires MutatorEnabled(s, BarrierPush(t)) && Claims(s)
    ensures Claims(FlushRemark(s, t))
  {
    var n, m := |s.remarkQueue|, |s.threads[t].local|;
    Moved(s, FlushRemark(s, t), (p: Place) =>
      if !p.Shared? || p.i < n then p else if p.i < n + m then Local(t, p.i - n) else Won(t));
  }

  // ---- Actions of the collector

  lemma VisitClaims(s: State)
    requires CollectorEnabled(s, VisitBlock) && Claims(s)
    ensures Claims(VisitMarked(s))
  {
    var s', b := VisitMarked(s), s.work.at.block;
    if s.work.at.fieldIndex == 0 && !Marked(s, b) {
      forall p | p != AtWork ensures ClaimAt(s', p) == ClaimAt(s, p) && ClaimAt(s, p) != To(b) {
        assert ClaimAt(s, p).To? ==> Marked(s, ClaimAt(s, p).block);
      }
      assert Unique(s');
      forall p | ClaimAt(s', p).To? ensures Marked(s', ClaimAt(s', p).block) {
        assert p != AtWork ==> ClaimAt(s', p) == ClaimAt(s, p);
      }
    } else {
      Unmoved(s, s');
    }
  }

  lemma ParkClaims(s: State)
    requires s.work.Scan? && Claims(s)
    ensures Claims(ParkBlock(s))
  {
    var n := |s.deferred|;
    Moved(s, ParkBlock(s), (p: Place) => if p == Parked(n) then AtWork else p);
  }

  lemma ItemClaims(c: Config, s: State, ref: Ref)
    requires s.work.Scan? && Claims(s)
    ensures Claims(MarkOneItem(c, s, ref))
  {
    if ref.To? && |s.queue| >= c.queueCap && |s.deferred| < c.deferredCap {
      ParkClaims(s);
    } else {
      Unmoved(s, MarkOneItem(c, s, ref));
    }
  }

  lemma ScanClaims(c: Config, s: State)
    requires CollectorEnabled(s, ScanSlot) && Claims(s)
    ensures Claims(ScanNext(c, s))
  {
    if s.work.pos >= s.work.nf + s.work.nx {
      Unmoved(s, s.(work := NoWork));
    } else {
      ItemClaims(c, s, s.heap[s.work.at.block].All()[s.work.pos]);
    }
  }

  lemma PopDeferredClaims(c: Config, s: State)
    requires !s.phase.Crashed? && CollectorEnabled(s, PopDeferred) && Claims(s)
    ensures Claims(Apply(c, s, PopDeferred))
  {
    Moved(s, Apply(c, s, PopDeferred), (p: Place) =>
      if p == AtWork then Parked(0) else if p.Parked? then Parked(p.k + 1) else p);
  }

  lemma TakeChunkClaims(c: Config, s: State)
    requires CollectorEnabled(s, TakeChunk) && Claims(s)
    ensures Claims(TakeRemarkChunk(c, s))
  {
    var n := c.chunkSize;
    if |s.remarkQueue| < n {
      Unmoved(s, TakeRemarkChunk(c, s));
    } else {
      Moved(s, TakeRemarkChunk(c, s), (p: Place) =>
        if p.Chunk? then Shared(p.i) else if p.Shared? then Shared(p.i + n) else p);
    }
  }

  lemma TakeLocalClaims(s: State)
    requires CollectorEnabled(s, TakeLocal) && Claims(s)
    ensures Claims(TakeLocalBuffer(s))
  {
    var t := s.phase.next - 1;
    Moved(s, TakeLocalBuffer(s), (p: Place) => if p.Chunk? then Local(t, p.i) else p);
  }

  /** Draining a block ends its claim, and clears no other claimed block. */
  lemma DrainClaims(s: State)
    requires CollectorEnabled(s, DrainOne) && Claims(s)
    ensures Claims(DrainBlock(s))
  {
    var s', b := DrainBlock(s), s.chunk[0];
    forall p ensures ClaimAt(s', p) != To(b) {
      assert ClaimAt(s, Chunk(0)) == To(b);
      assert ClaimAt(s', p).To? ==> ClaimAt(s', p) == ClaimAt(s, if p.Chunk? then Chunk(p.i + 1) else p);
    }
    Moved(s, s', (p: Place) => if p.Chunk? then Chunk(p.i + 1) else p);
  }

  lemma SweepClaims(c: Config, s: State, a: Action)
    requires !s.phase.Crashed? && Phased(s) && Calm(s) && CollectorEnabled(s, a) && (a.SweepOne? || a.Flip?)
    ensures Claims(Apply(c, s, a))
  {
    NoClaims(Apply(c, s, a));
  }

  lemma NextRootClaims(s: State)
    requires CollectorEnabled(s, NextRoot) && Claims(s)
    ensures Claims(MarkNextRoot(s))
  {
    Unmoved(s, MarkNextRoot(s));
  }

  lemma PopQueueClaims(s: State)
    requires CollectorEnabled(s, PopQueue) && Claims(s)
    ensures Claims(s.(queue := s.queue[1..], work := Visit(MarkState(s.queue[0], 0))))
  {
    Unmoved(s, s.(queue := s.queue[1..], work := Visit(MarkState(s.queue[0], 0))));
  }

  lemma LoadClaims(s: State)
    requires CollectorEnabled(s, LoadDescriptor) && Claims(s)
    ensures Claims(LoadShape(s))
  {
    Unmoved(s, LoadShape(s));
  }

  lemma PhaseClaims(c: Config, s: State, a: Action)
    requires !s.phase.Crashed? && CollectorEnabled(s, a) && Claims(s)
    requires a.StartCycle? || a.ClearFlag? || a.EndQueue? || a.BeginSweep?
    ensures Claims(Apply(c, s, a))
  {
    Unmoved(s, Apply(c, s, a));
  }

  lemma StepKeepsClaims(c: Config, s: State, a: Action)
    requires Phased(s) && Calm(s) && Enabled(s, a) && Claims(s)
    ensures Claims(Apply(c, s, a))
  {
    if MutatorEnabled(s, a) { MutatorStepClaims(c, s, a); } else { CollectorStepClaims(c, s, a); }
  }

  lemma MutatorStepClaims(c: Config, s: State, a: Action)
    requires Phased(s) && Calm(s) && !s.phase.Crashed? && MutatorEnabled(s, a) && Claims(s)
    ensures Claims(Apply(c, s, a))
  {
    match a
    case Alloc(t, b) => AllocClaims(s, t, b);
    case BarrierExchange(t) => ExchangeClaims(s, t);
    case BarrierPush(t) =>
      if |s.threads[t].local| + 1 == c.chunkSize { FlushClaims(s, t); } else { AppendClaims(s, t); }
    case _ => ThreadActionClaims(c, s, a);
  }

  lemma CollectorStepClaims(c: Config, s: State, a: Action)
    requires Phased(s) && Calm(s) && !s.phase.Crashed? && CollectorEnabled(s, a) && Claims(s)
    ensures Claims(Apply(c, s, a))
  {
    match a
    case VisitBlock => VisitClaims(s);
    case ScanSlot => ScanClaims(c, s);
    case PopDeferred => PopDeferredClaims(c, s);
    case TakeChunk => TakeChunkClaims(c, s);
    case TakeLocal => TakeLocalClaims(s);
    case DrainOne => DrainClaims(s);
    case SweepOne(_) => SweepClaims(c, s, a);
    case Flip => SweepClaims(c, s, a);
    case NextRoot => NextRootClaims(s);
    case PopQueue => PopQueueClaims(s);
    case LoadDescriptor => LoadClaims(s);
    case _ => PhaseClaims(c, s, a);
  }

  lemma {:induction false} RunKeepsClaims(c: Config, ss: seq<State>, acts: seq<Action>, i: nat)
    requires IsRun(c, QuietRun, ss, acts) && i <= |acts|
    ensures Claims(ss[i])
  {
    if i == 0 {
      NoClaims(INIT);
    } else {
      RunKeepsClaims(c, ss, acts, i - 1);
      RunKeepsQuiet(c, QuietRun, ss, acts, i - 1);
      assert StepAt(c, QuietRun, ss, acts, i - 1);
      StepKeepsClaims(c, ss[i - 1], acts[i - 1]);
    }
  }

  lemma ReachableClaims(c: Config, s: State)
    requires Reachable(c, QuietRun, s)
    ensures Claims(s)
  {
    var ss, acts :| IsRun(c, QuietRun, ss, acts) && ss[|acts|] == s;
    RunKeepsClaims(c, ss, acts, |acts|);
  }

  /** In every state of every quiet run no block waits in two places (two remark buffers, two entries of
      the deferred queue, a buffer and a scan), and every block that waits is marked. */
  lemma NoBlockIsClaimedTwice(c: Config, s: State, p: Place, q: Place)
    requires Reachable(c, QuietRun, s) && ClaimAt(s, p).To? && ClaimAt(s, q) == ClaimAt(s, p)
    ensures p == q && Marked(s, ClaimAt(s, p).block)
  {
    ReachableClaims(c, s);
  }

  lemma WinnerIsSole(s: State, t: nat)
    requires Claims(s) && MutatorEnabled(s, BarrierExchange(t))
    ensures var b, s' := s.threads[t].pc.target, ExchangeMark(s, t);
      && (!Marked(s, b) ==> ClaimAt(s', Won(t)) == To(b) && forall p :: ClaimAt(s', p) == To(b) ==> p == Won(t))
      && (Marked(s, b) ==> forall p :: ClaimAt(s', p) == ClaimAt(s, p))
      && Marked(s', b)
  {
    ExchangeClaims(s, t);
  }

  /** The exchange hands an unmarked block to exactly one of its racers: whoever finds it unmarked
      becomes its only claimant, and whoever comes later finds it marked and claims nothing. */
  lemma OneRacerWins(c: Config, s: State, t: nat, u: nat)
    requires Reachable(c, QuietRun, s) && t != u
    requires MutatorEnabled(s, BarrierExchange(t)) && MutatorEnabled(s, BarrierExchange(u))
    requires s.threads[t].pc.target == s.threads[u].pc.target
    ensures var b, s' := s.threads[t].pc.target, ExchangeMark(s, t);
      && (!Marked(s, b) ==> ClaimAt(s', Won(t)) == To(b) && forall p :: ClaimAt(s', p) == To(b) ==> p == Won(t))
      && (Marked(s, b) ==> forall p :: ClaimAt(s', p) == ClaimAt(s, p))
      && forall p :: ClaimAt(ExchangeMark(s', u), p) == ClaimAt(s', p)
  {
    ReachableClaims(c, s);
    WinnerIsSole(s, t);
    ExchangeClaims(s, t);
    WinnerIsSole(ExchangeMark(s, t), u);
  }
}
