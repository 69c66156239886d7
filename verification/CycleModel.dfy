/** The concurrent collection cycle as a step system: one action per atomic access. */
module CycleModel {
  import opened Heap
  import opened MarkState

  /** Where a mutator stands. `Inside` is the section in which it holds the collector off. The last
      three are the stages of the loss-of-reference barrier: about to read `markingInProgress`,
      about to exchange the mark bit, about to store the block it won in its remark buffer. */
  datatype MutatorPc = Outside | Inside | Barrier(held: Ref) | Exchange(target: Block) | Push(won: Block)

  datatype Mutator = Mutator(pc: MutatorPc, roots: seq<Ref>, local: seq<Block>)

  /** `Rooting(i)` is about to trace from root `i`. `Draining(0)` reads the shared remark queue, `Draining(k + 1)`
      is about to take the local buffer of thread `k`. */
  datatype Phase = Idle | Rooting(next: nat) | Draining(next: nat) | Sweeping | Crashed

  /** What the collector has in hand while tracing: a block read from a queue, a block whose mark bit
      it has exchanged, or a block of which it scans the slots from `pos` on. */
  datatype Work =
    | NoWork
    | Visit(at: MarkState)
    | Load(at: MarkState)
    | Scan(at: MarkState, pos: nat, nf: nat, nx: nat)

  /** Capacities, in entries, of the mark queue, the deferred queue and a remark buffer. */
  datatype Config = Config(queueCap: nat, deferredCap: nat, chunkSize: nat) {
    predicate Valid() {
      queueCap >= 1 && deferredCap >= 1 && chunkSize >= 1
    }
  }

  /** The heap and the blocks that read as marked when the current cycle started, and the blocks the
      cycle has to mark: those reached from the roots without passing through a marked one. */
  datatype Snapshot = Snapshot(heap: Graph, pre: set<Block>, due: set<Block>)

  /** What the run has been so far; no action looks at it.
      `live`: the blocks reachable when the current cycle started and all blocks allocated since.
      `untouched`: the blocks allocated since then whose mark bit neither a trace nor a barrier has
      exchanged. `cycles`: completed cycles. */
  datatype History = History(at: Snapshot, live: set<Block>, untouched: set<Block>, cycles: nat)

  datatype State = State(
    heap: Graph,
    mark: map<Block, bool>,
    gcMarked: bool,
    mutMarked: bool,
    marking: bool,
    threads: seq<Mutator>,
    phase: Phase,
    work: Work,
    queue: seq<Block>,
    deferred: seq<MarkState>,
    rootSnap: seq<Ref>,
    remarkQueue: seq<Block>,
    chunk: seq<Block>,
    sweepList: set<Block>,
    hist: History)

  datatype Action =
    | Attach
    | Enter(t: nat)
    | Leave(t: nat)
    | Write(t: nat, b: Block, j: nat, v: Ref)
    | Read(t: nat, b: Block, j: nat)
    | Drop(t: nat, i: nat)
    | Alloc(t: nat, b: Block)
    | Describe(t: nat, b: Block, nf: nat, nx: nat)
    | BarrierCheck(t: nat)
    | BarrierExchange(t: nat)
    | BarrierPush(t: nat)
    | StartCycle
    | NextRoot
    | PopQueue
    | PopDeferred
    | VisitBlock
    | LoadDescriptor
    | ScanSlot
    | ClearFlag
    | TakeChunk
    | EndQueue
    | TakeLocal
    | DrainOne
    | BeginSweep
    | SweepOne(b: Block)
    | Flip

  const INIT := State(
    map[], map[], false, false, false, [], Idle, NoWork, [], [], [], [], [], {},
    History(Snapshot(map[], {}, {}), {}, {}, 0))

  // ---- Reading the state

  predicate Marked(s: State, b: Block) {
    b in s.mark && s.mark[b] == s.gcMarked
  }

  /** The blocks that read as marked. */
  ghost function MarkedBlocks(s: State): set<Block> {
    set b | b in s.heap && Marked(s, b)
  }

  /** No mutator holds the collector off, so `gc_lock_enter_gc_exclusive` can return. */
  predicate AllOutside(s: State) {
    forall t | 0 <= t < |s.threads| :: s.threads[t].pc.Outside?
  }

  predicate NoTraceLeft(s: State) {
    s.work.NoWork? && s.queue == [] && s.deferred == []
  }

  predicate LocalsEmpty(s: State) {
    forall t | 0 <= t < |s.threads| :: s.threads[t].local == []
  }

  /** `b` is a block thread `t` can name, because a root of its own holds it. */
  predicate Rooted(s: State, t: nat, b: Block) {
    t < |s.threads| && b in s.heap && To(b) in s.threads[t].roots
  }

  predicate AtPc(s: State, t: nat, pc: MutatorPc) {
    t < |s.threads| && s.threads[t].pc == pc
  }

  function {:induction false} AllRoots(threads: seq<Mutator>): (r: seq<Ref>)
    ensures forall t, x | 0 <= t < |threads| && x in threads[t].roots :: x in r
    ensures forall x | x in r :: exists t :: 0 <= t < |threads| && x in threads[t].roots
  {
    if threads == [] then [] else AllRoots(threads[..|threads| - 1]) + threads[|threads| - 1].roots
  }

  function Nulls(n: nat): (r: seq<Ref>)
    ensures |r| == n && forall x | x in r :: x == Null
  {
    seq(n, _ => Null)
  }

  // ---- The actions

  predicate MutatorEnabled(s: State, a: Action) {
    match a
    case Attach => true
    case Enter(t) => AtPc(s, t, Outside)
    case Leave(t) => AtPc(s, t, Inside)
    case Write(t, b, j, v) =>
      AtPc(s, t, Inside) && Rooted(s, t, b) && j < |s.heap[b].All()| && (v == Null || v in s.threads[t].roots)
    case Read(t, b, j) => AtPc(s, t, Inside) && Rooted(s, t, b) && j < |s.heap[b].All()|
    case Drop(t, i) => AtPc(s, t, Inside) && i < |s.threads[t].roots|
    case Alloc(t, b) => AtPc(s, t, Inside) && b !in s.heap
    case Describe(t, b, nf, nx) => Rooted(s, t, b) && s.heap[b] == NO_SLOTS
    case BarrierCheck(t) => t < |s.threads| && s.threads[t].pc.Barrier?
    case BarrierExchange(t) =>
      t < |s.threads| && s.threads[t].pc.Exchange? && s.threads[t].pc.target in s.mark
    case BarrierPush(t) => t < |s.threads| && s.threads[t].pc.Push?
    case _ => false
  }

  predicate CollectorEnabled(s: State, a: Action) {
    match a
    case StartCycle => s.phase.Idle? && AllOutside(s)
    case NextRoot => s.phase.Rooting? && s.phase.next < |s.rootSnap| && NoTraceLeft(s)
    case PopQueue => s.work.NoWork? && s.queue != []
    case PopDeferred => s.work.NoWork? && s.queue == [] && s.deferred != []
    case VisitBlock => s.work.Visit? && s.work.at.block in s.mark
    case LoadDescriptor => s.work.Load? && s.work.at.block in s.heap
    case ScanSlot =>
      && s.work.Scan?
      && s.work.at.block in s.heap
      && (s.work.pos < s.work.nf + s.work.nx ==> s.work.pos < |s.heap[s.work.at.block].All()|)
    case ClearFlag => s.phase.Rooting? && s.phase.next >= |s.rootSnap| && NoTraceLeft(s)
    case TakeChunk => s.phase == Draining(0) && NoTraceLeft(s) && s.chunk == [] && s.remarkQueue != []
    case EndQueue => s.phase == Draining(0) && NoTraceLeft(s) && s.chunk == [] && s.remarkQueue == []
    case TakeLocal =>
      s.phase.Draining? && NoTraceLeft(s) && s.chunk == [] && 0 < s.phase.next <= |s.threads|
    case DrainOne => s.phase.Draining? && NoTraceLeft(s) && s.chunk != [] && s.chunk[0] in s.mark
    case BeginSweep => s.phase.Draining? && NoTraceLeft(s) && s.chunk == [] && s.phase.next > |s.threads|
    case SweepOne(b) => s.phase.Sweeping? && b in s.sweepList && b in s.mark
    case Flip => s.phase.Sweeping? && s.sweepList == {} && AllOutside(s)
    case _ => false
  }

  predicate Enabled(s: State, a: Action) {
    !s.phase.Crashed? && (MutatorEnabled(s, a) || CollectorEnabled(s, a))
  }

  function SetPc(s: State, t: nat, pc: MutatorPc): State
    requires t < |s.threads|
  {
    s.(threads := s.threads[t := s.threads[t].(pc := pc)])
  }

  function Without<T>(xs: seq<T>, i: nat): (r: seq<T>)
    requires i < |xs|
    ensures |r| == |xs| - 1
    ensures forall x | x in r :: x in xs
  {
    xs[..i] + xs[i + 1..]
  }

  /** `object_helper_write_ref`: the exchange; the barrier on the old value is still to come. */
  function WriteField(s: State, t: nat, b: Block, j: nat, v: Ref): State
    requires MutatorEnabled(s, Write(t, b, j, v))
  {
    SetPc(s.(heap := s.heap[b := s.heap[b].Set(j, v)]), t, Barrier(s.heap[b].All()[j]))
  }

  /** `object_helper_read_ref`: a new root for the loaded value, null or not; the barrier is on the
      block that was read. */
  function ReadField(s: State, t: nat, b: Block, j: nat): State
    requires MutatorEnabled(s, Read(t, b, j))
  {
    var m := s.threads[t];
    s.(threads := s.threads[t := Mutator(Barrier(To(b)), [s.heap[b].All()[j]] + m.roots, m.local)])
  }

  function DropRoot(s: State, t: nat, i: nat): State
    requires MutatorEnabled(s, Drop(t, i))
  {
    var m := s.threads[t];
    s.(threads := s.threads[t := Mutator(Barrier(m.roots[i]), Without(m.roots, i), m.local)])
  }

  /** `heap_alloc`: the new block is rooted and `gc_on_allocate` gives it the bit that reads as
      unmarked to the mutators. */
  function Allocate(s: State, t: nat, b: Block): State
    requires MutatorEnabled(s, Alloc(t, b))
  {
    s.(
      heap := s.heap[b := NO_SLOTS],
      mark := s.mark[b := !s.mutMarked],
      threads := s.threads[t := s.threads[t].(roots := [To(b)] + s.threads[t].roots)],
      hist := s.hist.(live := s.hist.live + {b}, untouched := s.hist.untouched + {b}))
  }

  /** Store the collector's marked value in the bit of `b`. */
  function SetMark(s: State, b: Block): State {
    s.(mark := s.mark[b := s.gcMarked], hist := s.hist.(untouched := s.hist.untouched - {b}))
  }

  function ExchangeMark(s: State, t: nat): State
    requires t < |s.threads| && s.threads[t].pc.Exchange?
  {
    var b := s.threads[t].pc.target;
    SetPc(SetMark(s, b), t, if Marked(s, b) then Inside else Push(b))
  }

  function AppendRemark(s: State, t: nat): State
    requires t < |s.threads| && s.threads[t].pc.Push?
  {
    var m := s.threads[t];
    s.(threads := s.threads[t := Mutator(Inside, m.roots, m.local + [m.pc.won])])
  }

  function FlushRemark(s: State, t: nat): State
    requires t < |s.threads| && s.threads[t].pc.Push?
  {
    var m := s.threads[t];
    s.(threads := s.threads[t := Mutator(Inside, m.roots, [])], remarkQueue := s.remarkQueue + m.local + [m.pc.won])
  }

  /** Append to the thread's remark buffer; a full buffer is moved to the shared queue in one go. */
  function PushRemark(c: Config, s: State, t: nat): State
    requires t < |s.threads| && s.threads[t].pc.Push?
  {
    if |s.threads[t].local| + 1 == c.chunkSize then FlushRemark(s, t) else AppendRemark(s, t)
  }

  ghost function BeginCycle(s: State): State {
    var roots := AllRoots(s.threads);
    var pre := MarkedBlocks(s);
    s.(
      mutMarked := s.gcMarked,
      marking := true,
      phase := Rooting(0),
      rootSnap := roots,
      sweepList := s.heap.Keys,
      hist := History(
        Snapshot(s.heap, pre, ReachedSet(s.heap, pre, RefBlocks(roots))),
        ReachedSet(s.heap, {}, RefBlocks(roots)),
        {}, s.hist.cycles))
  }

  /** `doMark` on the next root of the snapshot; it dereferences the root, so a null one crashes. */
  function MarkNextRoot(s: State): State
    requires CollectorEnabled(s, NextRoot)
  {
    match s.rootSnap[s.phase.next]
    case Null => s.(phase := Crashed)
    case To(b) => s.(phase := Rooting(s.phase.next + 1), queue := [b])
  }

  /** A block at index 0 that is already marked is skipped; any other is scanned, whatever its bit. */
  function VisitMarked(s: State): State
    requires s.work.Visit?
  {
    var at := s.work.at;
    SetMark(s, at.block).(work := if at.fieldIndex == 0 && Marked(s, at.block) then NoWork else Load(at))
  }

  function LoadShape(s: State): State
    requires CollectorEnabled(s, LoadDescriptor)
  {
    var at := s.work.at;
    var sl := s.heap[at.block];
    s.(work := Scan(at, FirstSlot(|sl.fixed|, at.fieldIndex), |sl.fixed|, |sl.flex|))
  }

  function EnqueueRef(s: State, v: Block): State
    requires s.work.Scan?
  {
    s.(queue := s.queue + [v], work := s.work.(pos := s.work.pos + 1))
  }

  function ParkBlock(s: State): State
    requires s.work.Scan?
  {
    var w := s.work;
    s.(
      deferred := s.deferred + [MarkState(w.at.block, SlotLabel(w.nf, w.at.fieldIndex, w.pos))],
      work := NoWork)
  }

  /** `markOneItem`: enqueue what the slot holds; if it does not fit, park the block; if that does
      not fit either, panic. */
  function MarkOneItem(c: Config, s: State, ref: Ref): State
    requires s.work.Scan?
  {
    if ref.Null? then s.(work := s.work.(pos := s.work.pos + 1))
    else if |s.queue| < c.queueCap then EnqueueRef(s, ref.block)
    else if |s.deferred| < c.deferredCap then ParkBlock(s)
    else s.(phase := Crashed)
  }

  /** One round of the field loops. */
  function ScanNext(c: Config, s: State): State
    requires CollectorEnabled(s, ScanSlot)
  {
    var w := s.work;
    if w.pos >= w.nf + w.nx then s.(work := NoWork)
    else MarkOneItem(c, s, s.heap[w.at.block].All()[w.pos])
  }

  /** `processAChunk` on one block: clear its mark, then `doMark`. */
  function DrainBlock(s: State): State
    requires CollectorEnabled(s, DrainOne)
  {
    var b := s.chunk[0];
    s.(mark := s.mark[b := !s.gcMarked], queue := [b], chunk := s.chunk[1..])
  }

  /** The collector reads the shared queue a full buffer at a time; a shorter rest is a `BUG_ON`. */
  function TakeRemarkChunk(c: Config, s: State): State {
    if |s.remarkQueue| < c.chunkSize then s.(phase := Crashed)
    else s.(chunk := s.remarkQueue[..c.chunkSize], remarkQueue := s.remarkQueue[c.chunkSize..])
  }

  /** Each thread's buffer is taken once, whatever is in it then. */
  function TakeLocalBuffer(s: State): State
    requires CollectorEnabled(s, TakeLocal)
  {
    var t := s.phase.next - 1;
    s.(phase := Draining(s.phase.next + 1), chunk := s.threads[t].local,
       threads := s.threads[t := s.threads[t].(local := [])])
  }

  function SweepBlock(s: State, b: Block): State {
    if Marked(s, b) then s.(sweepList := s.sweepList - {b})
    else s.(sweepList := s.sweepList - {b}, heap := s.heap - {b}, mark := s.mark - {b})
  }

  ghost function Apply(c: Config, s: State, a: Action): State
    requires Enabled(s, a)
  {
    match a
    case Attach => s.(threads := s.threads + [Mutator(Outside, [], [])])
    case Enter(t) => SetPc(s, t, Inside)
    case Leave(t) => SetPc(s, t, Outside)
    case Write(t, b, j, v) => WriteField(s, t, b, j, v)
    case Read(t, b, j) => ReadField(s, t, b, j)
    case Drop(t, i) => DropRoot(s, t, i)
    case Alloc(t, b) => Allocate(s, t, b)
    case Describe(t, b, nf, nx) => s.(heap := s.heap[b := Slots(Nulls(nf), Nulls(nx))])
    case BarrierCheck(t) =>
      var held := s.threads[t].pc.held;
      SetPc(s, t, if held.To? && s.marking then Exchange(held.block) else Inside)
    case BarrierExchange(t) => ExchangeMark(s, t)
    case BarrierPush(t) => PushRemark(c, s, t)
    case StartCycle => BeginCycle(s)
    case NextRoot => MarkNextRoot(s)
    case PopQueue => s.(queue := s.queue[1..], work := Visit(MarkState(s.queue[0], 0)))
    case PopDeferred => s.(deferred := s.deferred[1..], work := Visit(s.deferred[0]))
    case VisitBlock => VisitMarked(s)
    case LoadDescriptor => LoadShape(s)
    case ScanSlot => ScanNext(c, s)
    case ClearFlag => s.(marking := false, phase := Draining(0))
    case TakeChunk => TakeRemarkChunk(c, s)
    case EndQueue => s.(phase := Draining(1))
    case TakeLocal => TakeLocalBuffer(s)
    case DrainOne => DrainBlock(s)
    case BeginSweep => s.(phase := Sweeping)
    case SweepOne(b) => SweepBlock(s, b)
    case Flip => s.(gcMarked := !s.gcMarked, phase := Idle, hist := s.hist.(cycles := s.hist.cycles + 1))
  }
}
