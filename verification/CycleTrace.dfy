/** What the collector's actions keep of the snapshot's references, and what they come to when the drain ends. */
module CycleTrace {
  import opened Heap
  import opened MarkState
  import opened CycleModel
  import opened CycleInvariant
  import opened CycleSteps

  /** What the snapshot's references rest on. */
  ghost predicate ScanSound(c: Config, s: State) {
    && !s.phase.Crashed? && Tracing(s)
    && Bounded(c, s) && Phased(s) && Traced(c, s) && SnapSets(s) && SnapShape(s)
  }

  predicate IsTrace(a: Action) {
    a.NextRoot? || a.PopQueue? || a.PopDeferred? || a.VisitBlock? || a.LoadDescriptor? || a.ScanSlot?
  }

  predicate IsDrain(a: Action) {
    a.ClearFlag? || a.TakeChunk? || a.EndQueue? || a.TakeLocal? || a.DrainOne?
  }

  /** A step of the trace leaves heap and buffers alone and unmarks nothing. */
  ghost predicate TraceLeaves(s: State, s': State) {
    && s' == s.(mark := s'.mark, work := s'.work, queue := s'.queue, deferred := s'.deferred, phase := s'.phase,
                hist := s.hist.(untouched := s'.hist.untouched))
    && s'.mark.Keys == s.mark.Keys && s'.hist.untouched <= s.hist.untouched
    && (forall b | Marked(s, b) :: Marked(s', b))
    && (s'.phase == s.phase || (s.phase.Rooting? && s'.phase.Rooting?) || s'.phase.Crashed?)
  }

  lemma VisitLeavesRest(s: State)
    requires !s.phase.Crashed? && CollectorEnabled(s, VisitBlock)
    ensures TraceLeaves(s, VisitMarked(s))
  {
  }

  lemma ScanLeavesRest(c: Config, s: State)
    requires !s.phase.Crashed? && CollectorEnabled(s, ScanSlot)
    ensures TraceLeaves(s, ScanNext(c, s))
  {
  }

  lemma TraceLeavesRest(c: Config, s: State, a: Action)
    requires !s.phase.Crashed? && CollectorEnabled(s, a) && IsTrace(a)
    ensures TraceLeaves(s, Apply(c, s, a))
  {
    match a
    case NextRoot => assert Apply(c, s, a) == MarkNextRoot(s);
    case VisitBlock => VisitLeavesRest(s);
    case LoadDescriptor => assert Apply(c, s, a) == LoadShape(s);
    case ScanSlot => ScanLeavesRest(c, s);
    case PopQueue =>
    case PopDeferred =>
  }

  // ---- Reading the queues

  lemma NextRootCovers(s: State, v: Block)
    requires !s.phase.Crashed? && CollectorEnabled(s, NextRoot) && s.rootSnap[s.phase.next].To?
    requires Covered(s, v)
    ensures Covered(MarkNextRoot(s), v)
  {
    var rest := s.rootSnap[s.phase.next..];
    assert rest == [rest[0]] + s.rootSnap[s.phase.next + 1..];
  }

  lemma NextRootSatb(c: Config, s: State)
    requires ScanSound(c, s) && Satb(s) && CollectorEnabled(s, NextRoot) && s.rootSnap[s.phase.next].To?
    ensures Satb(MarkNextRoot(s))
  {
    forall v | Covered(s, v) ensures Covered(MarkNextRoot(s), v) { NextRootCovers(s, v); }
  }

  lemma PopQueueSatb(c: Config, s: State)
    requires ScanSound(c, s) && Satb(s) && CollectorEnabled(s, PopQueue)
    ensures Satb(Apply(c, s, PopQueue))
  {
  }

  lemma PopDeferredSatb(c: Config, s: State)
    requires ScanSound(c, s) && Satb(s) && CollectorEnabled(s, PopDeferred)
    ensures Satb(Apply(c, s, PopDeferred))
  {
    var s' := Apply(c, s, PopDeferred);
    forall b, j: nat, v | SnapRef(s.hist.at, b, j, v) ensures EdgeSafe(s', b, j, v) {
      assert EdgeSafe(s, b, j, v);
    }
  }

  // ---- Marking and scanning a block

  lemma VisitCovers(s: State, v: Block)
    requires CollectorEnabled(s, VisitBlock) && Covered(s, v)
    ensures Covered(VisitMarked(s), v)
  {
  }

  lemma VisitSatb(c: Config, s: State)
    requires ScanSound(c, s) && Satb(s) && CollectorEnabled(s, VisitBlock)
    ensures Satb(VisitMarked(s))
  {
    var s' := VisitMarked(s);
    forall v | Covered(s, v) ensures Covered(s', v) { VisitCovers(s, v); }
    forall b, j: nat, v | SnapRef(s.hist.at, b, j, v) ensures EdgeSafe(s', b, j, v) {
      assert EdgeSafe(s, b, j, v);
    }
  }

  lemma LoadSatb(c: Config, s: State)
    requires ScanSound(c, s) && Satb(s) && CollectorEnabled(s, LoadDescriptor)
    ensures Satb(LoadShape(s))
  {
  }

  lemma EndScanSatb(c: Config, s: State)
    requires ScanSound(c, s) && Satb(s) && CollectorEnabled(s, ScanSlot)
    requires s.work.pos >= s.work.nf + s.work.nx
    ensures Satb(s.(work := NoWork))
  {
  }

  /** The slot about to be scanned holds `ref`. */
  ghost predicate AtRef(s: State, ref: Ref) {
    && CollectorEnabled(s, ScanSlot)
    && s.work.pos < s.work.nf + s.work.nx
    && s.heap[s.work.at.block].All()[s.work.pos] == ref
  }

  lemma SkipNullSatb(c: Config, s: State)
    requires ScanSound(c, s) && Satb(s) && AtRef(s, Null)
    ensures Satb(MarkOneItem(c, s, Null))
  {
  }

  lemma EnqueueSatb(c: Config, s: State, v: Block)
    requires ScanSound(c, s) && Satb(s) && AtRef(s, To(v))
    ensures Satb(EnqueueRef(s, v))
  {
  }

  lemma ParkSatb(c: Config, s: State, v: Block)
    requires ScanSound(c, s) && Satb(s) && AtRef(s, To(v))
    ensures Satb(ParkBlock(s))
  {
    var s', w := ParkBlock(s), s.work;
    ResumeCoversParkedSlot(w.nf, w.at.fieldIndex, w.pos);
    forall b, j: nat, u | SnapRef(s.hist.at, b, j, u) ensures EdgeSafe(s', b, j, u) {
      assert EdgeSafe(s, b, j, u);
      if !Covered(s, u) && Marked(s, b) && !Buffered(s, b) {
        ParkKeepsPending(s, b, j);
      }
    }
  }

  /** Parking a block keeps every slot that was still to be scanned in some queue. */
  lemma ParkKeepsPending(s: State, b: Block, j: nat)
    requires s.work.Scan? && ScanFitsHeap(s) && s.work.pos < s.work.nf + s.work.nx
    requires b in s.heap && Marked(s, b) && !Buffered(s, b) && Unscanned(s, b, j)
    ensures Unscanned(ParkBlock(s), b, j)
  {
    var s', w, nf := ParkBlock(s), s.work, |s.heap[b].fixed|;
    ResumeCoversParkedSlot(w.nf, w.at.fieldIndex, w.pos);
    if InWork(s, b, nf, j) {
      assert Resumes(s'.deferred[|s.deferred|], b, nf, j);
    } else {
      var k :| 0 <= k < |s.deferred| && Resumes(s.deferred[k], b, nf, j);
      assert Resumes(s'.deferred[k], b, nf, j);
    }
  }

  lemma ItemSatb(c: Config, s: State, ref: Ref)
    requires ScanSound(c, s) && Satb(s) && AtRef(s, ref) && !MarkOneItem(c, s, ref).phase.Crashed?
    ensures Satb(MarkOneItem(c, s, ref))
  {
    match ref
    case Null => SkipNullSatb(c, s);
    case To(v) => if |s.queue| < c.queueCap { EnqueueSatb(c, s, v); } else { ParkSatb(c, s, v); }
  }

  lemma ScanSatb(c: Config, s: State)
    requires ScanSound(c, s) && Satb(s) && CollectorEnabled(s, ScanSlot) && !ScanNext(c, s).phase.Crashed?
    ensures Satb(ScanNext(c, s))
  {
    if s.work.pos >= s.work.nf + s.work.nx {
      EndScanSatb(c, s);
    } else {
      ItemSatb(c, s, s.heap[s.work.at.block].All()[s.work.pos]);
    }
  }

  // ---- The drain

  lemma ClearFlagSatb(c: Config, s: State)
    requires ScanSound(c, s) && Satb(s) && CollectorEnabled(s, ClearFlag) && NoBarrierInFlight(s)
    ensures Satb(Apply(c, s, ClearFlag))
  {
  }

  lemma TakeChunkSatb(c: Config, s: State)
    requires ScanSound(c, s) && Satb(s) && CollectorEnabled(s, TakeChunk) && !TakeRemarkChunk(c, s).phase.Crashed?
    ensures Satb(TakeRemarkChunk(c, s))
  {
  }

  lemma TakeLocalSatb(c: Config, s: State)
    requires ScanSound(c, s) && Satb(s) && CollectorEnabled(s, TakeLocal)
    ensures Satb(TakeLocalBuffer(s))
  {
    var t := s.phase.next - 1;
    WonKept(s.threads, t, TakeLocalBuffer(s).threads[t], set b | b in s.threads[t].local);
  }

  lemma DrainOneSatb(c: Config, s: State)
    requires ScanSound(c, s) && Satb(s) && CollectorEnabled(s, DrainOne)
    ensures Satb(DrainBlock(s))
  {
  }

  lemma QueueSatb(c: Config, s: State, a: Action)
    requires ScanSound(c, s) && Satb(s) && CollectorEnabled(s, a) && !Apply(c, s, a).phase.Crashed?
    requires IsTrace(a)
    ensures Satb(Apply(c, s, a))
  {
    match a
    case NextRoot => NextRootSatb(c, s);
    case PopQueue => PopQueueSatb(c, s);
    case PopDeferred => PopDeferredSatb(c, s);
    case VisitBlock => VisitSatb(c, s);
    case LoadDescriptor => LoadSatb(c, s);
    case ScanSlot => ScanSatb(c, s);
  }

  lemma DrainSatb(c: Config, s: State, a: Action)
    requires ScanSound(c, s) && Satb(s) && CollectorEnabled(s, a) && Quiet(s, a) && !Apply(c, s, a).phase.Crashed?
    requires IsDrain(a)
    ensures Satb(Apply(c, s, a))
  {
    match a
    case ClearFlag => ClearFlagSatb(c, s);
    case TakeChunk => TakeChunkSatb(c, s);
    case EndQueue =>
    case TakeLocal => TakeLocalSatb(c, s);
    case DrainOne => DrainOneSatb(c, s);
  }

  // ---- Which blocks wait to be drained, and the shape of what is scanned

  lemma TakeLocalSets(s: State)
    requires SnapSets(s) && CollectorEnabled(s, TakeLocal)
    ensures SnapSets(TakeLocalBuffer(s))
  {
    var t := s.phase.next - 1;
    NoNewWon(s.threads, t, TakeLocalBuffer(s).threads[t], {});
    assert forall b | b in s.threads[t].local :: HasWon(s.threads[t], b);
  }

  lemma DrainSets(c: Config, s: State, a: Action)
    requires SnapSets(s) && CollectorEnabled(s, a) && IsDrain(a)
    ensures SnapSets(Apply(c, s, a))
  {
    if a.TakeLocal? { TakeLocalSets(s); }
  }

  lemma CollectorSets(c: Config, s: State, a: Action)
    requires SnapSets(s) && s.mark.Keys == s.heap.Keys && !s.phase.Crashed? && CollectorEnabled(s, a)
    requires IsTrace(a) || IsDrain(a)
    ensures SnapSets(Apply(c, s, a))
  {
    if IsTrace(a) { TraceLeavesRest(c, s, a); } else { DrainSets(c, s, a); }
  }

  lemma TraceShape(c: Config, s: State, a: Action)
    requires SnapShape(s) && !s.phase.Crashed? && CollectorEnabled(s, a) && IsTrace(a)
    ensures SnapShape(Apply(c, s, a))
  {
    TraceLeavesRest(c, s, a);
    match a
    case LoadDescriptor => assert Apply(c, s, a) == LoadShape(s);
    case ScanSlot => assert Apply(c, s, a) == ScanNext(c, s);
    case NextRoot =>
    case PopQueue =>
    case PopDeferred =>
    case VisitBlock => assert Apply(c, s, a) == VisitMarked(s);
  }

  lemma CollectorShape(c: Config, s: State, a: Action)
    requires SnapShape(s) && !s.phase.Crashed? && CollectorEnabled(s, a)
    requires IsTrace(a) || IsDrain(a)
    ensures SnapShape(Apply(c, s, a))
  {
    if IsTrace(a) { TraceShape(c, s, a); }
  }

  // ---- When the drain ends

  /** Nothing is left to trace or to drain, and no barrier is under way. */
  ghost predicate Drained(s: State) {
    NoTraceLeft(s) && !s.marking && !s.phase.Rooting? && forall b :: !Buffered(s, b)
  }

  lemma EndOfDrain(c: Config, s: State)
    requires Phased(s) && Calm(s) && CollectorEnabled(s, BeginSweep)
    ensures Drained(s)
  {
  }

  /** Then marks are closed under the snapshot's references. */
  lemma MarksAreClosed(s: State, x: Block, y: Block)
    requires Drained(s) && Satb(s)
    requires x in s.hist.at.due && Marked(s, x) && Edge(s.hist.at.heap, x, y) && y !in s.hist.at.pre
    ensures Marked(s, y)
  {
    var at := s.hist.at;
    var j :| 0 <= j < |at.heap[x].All()| && at.heap[x].All()[j] == To(y);
    assert SnapRef(at, x, j, y);
    assert EdgeSafe(s, x, j, y);
  }

  /** Then the blocks the snapshot asked for are all marked. */
  lemma DueAreMarked(s: State, b: Block)
    requires Drained(s) && Satb(s) && DueIsReached(s) && b in s.hist.at.due
    ensures Marked(s, b)
  {
    var at, roots := s.hist.at, RefBlocks(s.rootSnap);
    var p :| IsPath(at.heap, at.pre, roots, p) && p[|p| - 1] == b;
    PathIsMarked(s, p, |p| - 1);
  }

  lemma {:induction false} PathIsMarked(s: State, p: seq<Block>, k: nat)
    requires Drained(s) && Satb(s) && DueIsReached(s) && k < |p|
    requires IsPath(s.hist.at.heap, s.hist.at.pre, RefBlocks(s.rootSnap), p)
    ensures Marked(s, p[k])
  {
    var at, roots := s.hist.at, RefBlocks(s.rootSnap);
    if k == 0 {
      assert Covered(s, p[0]);
    } else {
      PathIsMarked(s, p, k - 1);
      assert Edge(at.heap, p[k - 1], p[k]);
      assert IsPath(at.heap, at.pre, roots, p[..k]) && p[..k][k - 1] == p[k - 1];
      MarksAreClosed(s, p[k - 1], p[k]);
    }
  }
}
