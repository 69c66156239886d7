/** What every step of a collection cycle keeps: in any run, in runs whose mutators are quiet around the drain,
    and in runs in which, besides, no cycle starts with harmful premarked blocks. */
module CycleInvariant {
  import opened Heap
  import opened MarkState
  import opened CycleModel

  ghost predicate Tracing(s: State) {
    s.phase.Rooting? || s.phase.Draining?
  }

  // ---- Any run: capacities and places

  /** `n` entries are a whole number of buffers of `size` entries. */
  predicate WholeBuffers(n: nat, size: nat)
    requires size > 0
  {
    n == 0 || (n >= size && WholeBuffers(n - size, size))
  }

  /** Remark buffers are moved to the shared queue in full chunks only. */
  ghost predicate FullChunks(c: Config, s: State) {
    && c.chunkSize > 0
    && (forall t | 0 <= t < |s.threads| :: |s.threads[t].local| < c.chunkSize)
    && WholeBuffers(|s.remarkQueue|, c.chunkSize)
  }

  ghost predicate Bounded(c: Config, s: State) {
    c.Valid() && FullChunks(c, s) && |s.queue| <= c.queueCap && |s.deferred| <= c.deferredCap
  }

  /** The queue has room for the first reference of the block in hand. */
  predicate RoomForFirst(c: Config, s: State) {
    match s.work
    case NoWork => true
    case Visit(_) => |s.queue| < c.queueCap
    case Load(_) => |s.queue| < c.queueCap
    case Scan(at, pos, nf, nx) => SlotLabel(nf, at.fieldIndex, pos) == 0 ==> |s.queue| < c.queueCap
  }

  predicate ScanFitsHeap(s: State) {
    s.work.Scan? ==>
      && s.work.at.block in s.heap
      && FirstSlot(s.work.nf, s.work.at.fieldIndex) <= s.work.pos <= s.work.nf + s.work.nx
      && (s.work.nf + s.work.nx > 0 ==>
        var sl := s.heap[s.work.at.block];
        |sl.fixed| == s.work.nf && |sl.flex| == s.work.nx)
  }

  /** A block being scanned or parked is marked. */
  ghost predicate ScannedMarked(s: State) {
    && (forall k | 0 <= k < |s.deferred| :: Marked(s, s.deferred[k].block))
    && (s.work.Load? || s.work.Scan? || (s.work.Visit? && s.work.at.fieldIndex > 0) ==>
      Marked(s, s.work.at.block))
  }

  /** Where the trace stands. */
  ghost predicate Traced(c: Config, s: State) {
    && RoomForFirst(c, s)
    && ScanFitsHeap(s)
    && ScannedMarked(s)
    && (forall k | 0 <= k < |s.deferred| :: s.deferred[k].fieldIndex > 0)
  }

  /** What the phase says of the collector's and the mutators' places. */
  ghost predicate Phased(s: State) {
    && s.mark.Keys == s.heap.Keys
    && (s.marking <==> s.phase.Rooting?)
    && (s.phase.Rooting? ==> s.phase.next <= |s.rootSnap|)
    && (!Tracing(s) ==> NoTraceLeft(s))
    && (!s.phase.Draining? ==> s.chunk == [])
    && (s.phase.Idle? ==> forall t | 0 <= t < |s.threads| :: !s.threads[t].pc.Exchange?)
  }

  predicate InTrace(s: State, b: Block) {
    b in s.queue || s.work == Visit(MarkState(b, 0))
  }

  /** What the mark bits say in each phase. */
  ghost predicate Parity(s: State) {
    && (s.phase.Idle? && s.hist.cycles == 0 ==>
      s.mutMarked == s.gcMarked && forall b | b in s.heap :: !Marked(s, b))
    && (s.phase.Idle? && s.hist.cycles > 0 ==>
      s.mutMarked != s.gcMarked && forall b | b in s.heap :: Marked(s, b) <==> b in s.hist.untouched)
    && (!s.phase.Idle? ==>
      && s.mutMarked == s.gcMarked
      && s.sweepList <= s.heap.Keys
      && s.sweepList !! s.hist.untouched
      && (forall b | b in s.hist.untouched :: !Marked(s, b))
      && (forall b | b in s.heap && b !in s.sweepList && b !in s.hist.untouched :: Marked(s, b) || InTrace(s, b)))
  }

  ghost predicate Bits(s: State) {
    !s.phase.Crashed? ==> Phased(s) && Parity(s)
  }

  // ---- Any run: the snapshot's references

  predicate Holds(m: Mutator, v: Block) {
    m.pc == Barrier(To(v)) || m.pc == Exchange(v)
  }

  ghost predicate InHand(threads: seq<Mutator>, v: Block) {
    exists t :: 0 <= t < |threads| && Holds(threads[t], v)
  }

  /** The collector will come to `v`, or has: it is marked, queued, a root of the snapshot still to
      be traced, or held by a mutator before the exchange of its mark bit. */
  ghost predicate Covered(s: State, v: Block) {
    || Marked(s, v)
    || InTrace(s, v)
    || (s.phase.Rooting? && s.phase.next <= |s.rootSnap| && To(v) in s.rootSnap[s.phase.next..])
    || (s.marking && InHand(s.threads, v))
  }

  /** Slot `j` of `b` holds a reference to `v`. */
  predicate SlotHolds(g: Graph, b: Block, j: nat, v: Block) {
    b in g && j < |g[b].All()| && g[b].All()[j] == To(v)
  }

  /** While marking goes on every reference of the snapshot is in its slot, or its target is covered. */
  ghost predicate Kept(s: State) {
    s.phase.Rooting? ==>
      && s.hist.at.heap.Keys <= s.heap.Keys
      && forall b, j: nat, v | SlotHolds(s.hist.at.heap, b, j, v) :: SlotHolds(s.heap, b, j, v) || Covered(s, v)
  }

  ghost predicate AlwaysInv(c: Config, s: State) {
    && Bounded(c, s) && Bits(s) && Kept(s)
    && (!s.phase.Crashed? ==> Traced(c, s))
  }

  // ---- Quiet runs: buffers and names

  /** Barriers are under way only while marking goes on, and a buffer that the drain has taken stays empty to the
      next cycle's start. */
  ghost predicate Calm(s: State) {
    && (!s.marking ==> forall t | 0 <= t < |s.threads| :: !s.threads[t].pc.Exchange? && !s.threads[t].pc.Push?)
    && (s.phase.Idle? || s.phase.Sweeping? ==> s.remarkQueue == [] && LocalsEmpty(s))
    && (s.phase.Draining? && s.phase.next > 0 ==> s.remarkQueue == [])
    && (s.phase.Draining? ==> forall t | 0 <= t < |s.threads| && t + 1 < s.phase.next :: s.threads[t].local == [])
  }

  /** The live blocks and the blocks of the heap. */
  datatype Scope = Scope(live: set<Block>, heap: set<Block>, strict: bool)

  ghost function ScopeOf(s: State, strict: bool): Scope {
    Scope(s.hist.live, s.heap.Keys, strict)
  }

  /** A block that somebody can name is live; if not `strict`, a name may also be left over from a block that has
      been freed. */
  predicate Known(sc: Scope, b: Block) {
    b in sc.live || (!sc.strict && b !in sc.heap)
  }

  ghost predicate HeldKnown(sc: Scope, pc: MutatorPc) {
    match pc
    case Barrier(To(b)) => Known(sc, b)
    case Exchange(b) => Known(sc, b)
    case Push(b) => Known(sc, b)
    case _ => true
  }

  ghost predicate MutatorKnown(sc: Scope, m: Mutator) {
    && HeldKnown(sc, m.pc)
    && (forall b | To(b) in m.roots :: Known(sc, b))
    && (forall b | b in m.local :: Known(sc, b))
  }

  ghost predicate EdgesKnown(s: State, sc: Scope) {
    forall a, b | a in s.hist.live && Edge(s.heap, a, b) :: Known(sc, b)
  }

  /** Every block that the collector can name is known. */
  ghost predicate CollectorKnows(s: State, sc: Scope) {
    && (!s.work.NoWork? ==> Known(sc, s.work.at.block))
    && (forall b | b in s.queue :: Known(sc, b))
    && (forall k | 0 <= k < |s.deferred| :: Known(sc, s.deferred[k].block))
    && (forall b | b in s.remarkQueue :: Known(sc, b))
    && (forall b | b in s.chunk :: Known(sc, b))
    && (s.phase.Rooting? ==> forall b | To(b) in s.rootSnap :: Known(sc, b))
  }

  ghost predicate MutatorsKnow(threads: seq<Mutator>, sc: Scope) {
    forall t | 0 <= t < |threads| :: MutatorKnown(sc, threads[t])
  }

  ghost predicate NamedIn(s: State, sc: Scope) {
    EdgesKnown(s, sc) && CollectorKnows(s, sc) && MutatorsKnow(s.threads, sc)
  }

  /** Every block that a mutator or the collector can name, and what live blocks refer to, is known. */
  ghost predicate Named(s: State, strict: bool) {
    NamedIn(s, ScopeOf(s, strict))
  }

  /** No mark bit of a dead block changes in the course of a cycle. */
  ghost predicate DeadBits(s: State) {
    && s.hist.untouched <= s.hist.live
    && (!s.phase.Idle? && !s.phase.Crashed? ==>
      forall b | b in s.heap && b !in s.hist.live :: Marked(s, b) <==> b in s.hist.at.pre)
  }

  // ---- Quiet runs: snapshot at the beginning

  predicate HasWon(m: Mutator, b: Block) {
    b in m.local || m.pc == Push(b)
  }

  ghost predicate WonByMutator(threads: seq<Mutator>, b: Block) {
    exists t :: 0 <= t < |threads| && HasWon(threads[t], b)
  }

  /** `b` was won by a barrier and waits to be drained. */
  ghost predicate Buffered(s: State, b: Block) {
    || b in s.remarkQueue
    || b in s.chunk
    || WonByMutator(s.threads, b)
  }

  predicate InWork(s: State, b: Block, nf: nat, j: nat) {
    match s.work
    case NoWork => false
    case Visit(at) => at.fieldIndex > 0 && Resumes(at, b, nf, j)
    case Load(at) => Resumes(at, b, nf, j)
    case Scan(at, pos, _, _) => at.block == b && pos <= j
  }

  /** Slot `j` of `b` is still to be loaded by the collector. */
  ghost predicate Unscanned(s: State, b: Block, j: nat)
    requires b in s.heap
  {
    || !Marked(s, b)
    || Buffered(s, b)
    || (exists k :: 0 <= k < |s.deferred| && Resumes(s.deferred[k], b, |s.heap[b].fixed|, j))
    || InWork(s, b, |s.heap[b].fixed|, j)
  }

  /** The reference to `v` in slot `j` of `b` at the snapshot is still there for the collector to
      load, or its target is covered. */
  ghost predicate EdgeSafe(s: State, b: Block, j: nat, v: Block) {
    Covered(s, v) || (SlotHolds(s.heap, b, j, v) && Unscanned(s, b, j))
  }

  /** At the snapshot, slot `j` of a block due to be marked held a reference to `v`. */
  ghost predicate SnapRef(at: Snapshot, b: Block, j: nat, v: Block) {
    b in at.due && SlotHolds(at.heap, b, j, v) && v !in at.pre
  }

  predicate HasSnapSlots(at: Snapshot, b: Block) {
    b in at.due && b in at.heap && at.heap[b] != NO_SLOTS
  }

  ghost predicate SnapShape(s: State) {
    && (forall b | HasSnapSlots(s.hist.at, b) ::
      && b in s.heap
      && |s.heap[b].fixed| == |s.hist.at.heap[b].fixed|
      && |s.heap[b].flex| == |s.hist.at.heap[b].flex|)
    && (s.work.Scan? && HasSnapSlots(s.hist.at, s.work.at.block) ==> s.work.nf + s.work.nx > 0)
  }

  ghost predicate SnapSets(s: State) {
    && s.hist.at.due <= s.hist.at.heap.Keys <= s.heap.Keys
    && s.hist.at.due !! s.hist.at.pre
    && (forall b | b in s.hist.at.pre :: Marked(s, b))
    && (forall b | Buffered(s, b) :: b !in s.hist.at.pre)
  }

  /** What tracing keeps until the sweep: every reference of the snapshot is safe. */
  ghost predicate Satb(s: State) {
    && (forall b, j: nat, v | SnapRef(s.hist.at, b, j, v) :: EdgeSafe(s, b, j, v))
    && (forall v | To(v) in s.rootSnap && v !in s.hist.at.pre :: Covered(s, v))
  }

  /** The cycle's debt is what a trace from the snapshot's roots reaches without entering a
      premarked block. */
  ghost predicate DueIsReached(s: State) {
    s.hist.at.due == ReachedSet(s.hist.at.heap, s.hist.at.pre, RefBlocks(s.rootSnap))
  }

  ghost predicate Snapped(s: State) {
    Tracing(s) ==> SnapSets(s) && SnapShape(s) && Satb(s) && DueIsReached(s)
  }

  ghost predicate QuietInv(c: Config, s: State) {
    && AlwaysInv(c, s) && Named(s, false) && DeadBits(s) && Snapped(s)
    && (!s.phase.Crashed? ==> Calm(s))
  }

  // ---- Safe runs

  /** Every block that anybody can name is in the heap. */
  ghost predicate Access(s: State) {
    s.hist.live <= s.heap.Keys && Named(s, true)
  }

  predicate DueOrPremarked(at: Snapshot, b: Block) {
    b in at.due || b in at.pre
  }

  /** The sweep will spare every live block: the trace owes it a mark or it has one. */
  ghost predicate Spared(s: State) {
    && (Tracing(s) ==> forall b | b in s.hist.live && b in s.sweepList :: DueOrPremarked(s.hist.at, b))
    && (s.phase.Sweeping? ==> forall b | b in s.hist.live && b in s.sweepList :: Marked(s, b))
  }

  /** All that the snapshot's roots reached is premarked or due. */
  ghost predicate SnapSpared(s: State) {
    Tracing(s) ==>
      forall b | Reached(s.hist.at.heap, {}, RefBlocks(s.rootSnap), b) :: DueOrPremarked(s.hist.at, b)
  }

  ghost predicate Inv(c: Config, s: State) {
    QuietInv(c, s) && Access(s) && Spared(s) && SnapSpared(s)
  }

  /** The blocks a mutator gets to from its roots. */
  ghost predicate Accessible(s: State, b: Block) {
    Reached(s.heap, {}, RefBlocks(AllRoots(s.threads)), b)
  }

  /** No block that a mutator can get to has been freed. */
  ghost predicate NothingLost(s: State) {
    forall b | Accessible(s, b) :: b in s.heap
  }

  // ---- The hypotheses on a step

  ghost predicate NoBarrierInFlight(s: State) {
    forall t | 0 <= t < |s.threads| :: s.threads[t].pc.Outside? || s.threads[t].pc.Inside?
  }

  /** Mutators are quiet from the clearing of the flag to the end of the drain: no barrier is under
      way when the flag is cleared, and no field is overwritten while remark buffers are drained. */
  ghost predicate Quiet(s: State, a: Action) {
    && (a.ClearFlag? ==> NoBarrierInFlight(s))
    && (a.Write? ==> !s.phase.Draining?)
  }

  /** The cycle that starts now needs no reference that only a premarked block holds: what a
      reachable premarked block refers to is premarked, or found without passing through one. */
  ghost predicate PremarkedHarmless(s: State) {
    HarmlessToAvoid(s.heap, MarkedBlocks(s), RefBlocks(AllRoots(s.threads)))
  }
}
