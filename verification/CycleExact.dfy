/** The hypothesis on premarked blocks is exact: if it fails when a cycle starts, some quiet continuation of that
    cycle frees a block that a mutator can get to. The continuation lets the mutators rest and follows the mark
    engine. */
module CycleExact {
  import opened Heap
  import opened MarkState
  import opened MarkEngine
  import opened MarkInvariant
  import opened MarkTheorems
  import opened Tracer
  import opened Collector
  import M = CycleModel
  import opened CycleRuns
  import opened CycleQuiet
  import opened CycleTheorems
  import I = CycleInvariant

  /** Quiet steps that start no cycle lead from `s` to `s'`. */
  ghost predicate QuietPath(c: M.Config, ss: seq<M.State>, acts: seq<M.Action>, s: M.State, s': M.State) {
    && |ss| == |acts| + 1 && ss[0] == s && ss[|acts|] == s'
    && forall i | 0 <= i < |acts| :: StepAt(c, QuietRun, ss, acts, i) && !acts[i].StartCycle?
  }

  ghost predicate Quietly(c: M.Config, s: M.State, s': M.State) {
    exists ss, acts :: QuietPath(c, ss, acts, s, s')
  }

  lemma QuietlyStays(c: M.Config, s: M.State)
    ensures Quietly(c, s, s)
  {
    assert QuietPath(c, [s], [], s, s);
  }

  lemma QuietlyOn(c: M.Config, s0: M.State, s: M.State, a: M.Action) returns (s': M.State)
    requires Quietly(c, s0, s) && M.Enabled(s, a) && Permits(QuietRun, s, a) && !a.StartCycle?
    ensures Quietly(c, s0, s') && s' == M.Apply(c, s, a)
  {
    var ss, acts :| QuietPath(c, ss, acts, s0, s);
    s' := M.Apply(c, s, a);
    var ss', acts' := ss + [s'], acts + [a];
    forall i | 0 <= i < |acts'| ensures StepAt(c, QuietRun, ss', acts', i) && !acts'[i].StartCycle? {
      if i < |acts| { assert StepAt(c, QuietRun, ss, acts, i); }
    }
    assert QuietPath(c, ss', acts', s0, s');
  }

  // ---- The trace of the step system follows the engine

  function CapsOf(c: M.Config): Caps {
    Caps(c.queueCap, c.deferredCap)
  }

  /** A part of the heap. */
  ghost predicate Within(g: Graph, heap: Graph) {
    forall b | b in g :: b in heap && heap[b] == g[b]
  }

  ghost function MarkedIn(g: Graph, s: M.State): set<Block> {
    set b | b in g && M.Marked(s, b)
  }

  /** The engine's state as it traces a part of the heap. */
  ghost function EngineOf(g: Graph, s: M.State): Engine {
    Engine(MarkedIn(g, s), s.queue, s.deferred, false)
  }

  /** `s'` is `s` with the trace further on. */
  ghost predicate Further(s: M.State, s': M.State) {
    && s' == s.(mark := s'.mark, work := s'.work, queue := s'.queue, deferred := s'.deferred,
                hist := s.hist.(untouched := s'.hist.untouched))
    && s'.mark.Keys == s.mark.Keys
  }

  ghost predicate CanTrace(c: M.Config, g: Graph, s: M.State) {
    && !s.phase.Crashed? && s.mark.Keys == s.heap.Keys
    && |s.queue| <= c.queueCap && InHeap(g, EngineOf(g, s))
  }

  ghost predicate Scans(g: Graph, s: M.State, at: MarkState, pos: nat) {
    at.block in g && s.work == M.Scan(at, pos, |g[at.block].fixed|, |g[at.block].flex|)
  }

  lemma SameMarks(g: Graph, s: M.State, s': M.State)
    requires s'.mark == s.mark && s'.gcMarked == s.gcMarked
    ensures MarkedIn(g, s') == MarkedIn(g, s)
  {
    assert forall b :: M.Marked(s', b) == M.Marked(s, b);
  }

  /** What one round does to the queues, and whether the loop goes on. */
  function OneRef(k: Caps, e: Engine, b: Block, ref: Ref, index: nat): (Engine, bool) {
    match ref
    case Null => (e, true)
    case To(v) =>
      if |e.queue| < k.queue then (e.(queue := e.queue + [v]), true)
      else if |e.deferred| < k.deferred then (e.(deferred := e.deferred + [MarkState(b, index)]), false)
      else (e.(panicked := true), false)
  }

  lemma FirstRef(k: Caps, e: Engine, b: Block, refs: seq<Ref>, pos: nat, base: nat)
    requires pos < |refs| && |e.queue| <= k.queue && !e.panicked
    ensures var one := OneRef(k, e, b, refs[pos], base + pos);
      && |one.0.queue| <= k.queue
      && (one.1 ==> !one.0.panicked && MarkRefs(k, e, b, refs, pos, base) == MarkRefs(k, one.0, b, refs, pos + 1, base))
      && (!one.1 ==> MarkRefs(k, e, b, refs, pos, base) == one)
  {
  }

  /** One round of either loop. */
  lemma ScanOne(c: M.Config, g: Graph, s0: M.State, s: M.State, at: MarkState, pos: nat, ref: Ref, index: nat)
    returns (s': M.State)
    requires Quietly(c, s0, s) && Within(g, s.heap) && !s.phase.Crashed? && Scans(g, s, at, pos)
    requires pos < |g[at.block].All()| && g[at.block].All()[pos] == ref
    requires index == SlotLabel(|g[at.block].fixed|, at.fieldIndex, pos)
    requires !OneRef(CapsOf(c), EngineOf(g, s), at.block, ref, index).0.panicked
    ensures Quietly(c, s0, s') && Further(s, s') && s'.mark == s.mark
    ensures var one := OneRef(CapsOf(c), EngineOf(g, s), at.block, ref, index);
      EngineOf(g, s') == one.0 && if one.1 then Scans(g, s', at, pos + 1) else s'.work.NoWork?
  {
    s' := QuietlyOn(c, s0, s, M.ScanSlot);
    assert s' == M.MarkOneItem(c, s, ref);
    SameMarks(g, s, s');
  }

  /** Where the field loop leaves the trace. */
  ghost predicate FieldsDone(g: Graph, s': M.State, at: MarkState, nf: nat, r: (Engine, bool)) {
    EngineOf(g, s') == r.0 && if r.1 then Scans(g, s', at, nf) else s'.work.NoWork?
  }

  lemma {:induction false} FieldLoop(
      c: M.Config, g: Graph, s0: M.State, s: M.State, at: MarkState, fields: seq<Ref>, pos: nat) returns (s': M.State)
    requires Quietly(c, s0, s) && Within(g, s.heap) && !s.phase.Crashed? && Scans(g, s, at, pos)
    requires |s.queue| <= c.queueCap
    requires fields == g[at.block].fixed && pos <= |fields|
    requires !MarkRefs(CapsOf(c), EngineOf(g, s), at.block, fields, pos, 0).0.panicked
    ensures Quietly(c, s0, s') && Further(s, s') && s'.mark == s.mark
    ensures FieldsDone(g, s', at, |fields|, MarkRefs(CapsOf(c), EngineOf(g, s), at.block, fields, pos, 0))
    decreases |fields| - pos
  {
    if pos == |fields| {
      s' := s;
    } else {
      FirstRef(CapsOf(c), EngineOf(g, s), at.block, fields, pos, 0);
      s' := ScanOne(c, g, s0, s, at, pos, fields[pos], pos);
      if s'.work.Scan? { s' := FieldLoop(c, g, s0, s', at, fields, pos + 1); }
    }
  }

  lemma ScanEnds(c: M.Config, g: Graph, s0: M.State, s: M.State, at: MarkState) returns (s': M.State)
    requires Quietly(c, s0, s) && Within(g, s.heap) && !s.phase.Crashed? && at.block in g
    requires Scans(g, s, at, |g[at.block].All()|)
    ensures Quietly(c, s0, s') && Further(s, s') && s'.mark == s.mark && s'.work.NoWork?
    ensures EngineOf(g, s') == EngineOf(g, s)
  {
    s' := QuietlyOn(c, s0, s, M.ScanSlot);
    SameMarks(g, s, s');
  }

  lemma {:induction false} ArrayLoop(
      c: M.Config, g: Graph, s0: M.State, s: M.State, at: MarkState, flex: seq<Ref>, j: nat, base: nat)
    returns (s': M.State)
    requires Quietly(c, s0, s) && Within(g, s.heap) && !s.phase.Crashed? && |s.queue| <= c.queueCap
    requires at.block in g && flex == g[at.block].flex && j <= |flex|
    requires Scans(g, s, at, |g[at.block].fixed| + j)
    requires base == SlotLabel(|g[at.block].fixed|, at.fieldIndex, |g[at.block].fixed|)
    requires !MarkRefs(CapsOf(c), EngineOf(g, s), at.block, flex, j, base).0.panicked
    ensures Quietly(c, s0, s') && Further(s, s') && s'.mark == s.mark && s'.work.NoWork?
    ensures EngineOf(g, s') == MarkRefs(CapsOf(c), EngineOf(g, s), at.block, flex, j, base).0
    decreases |flex| - j
  {
    var nf := |g[at.block].fixed|;
    if j == |flex| {
      s' := ScanEnds(c, g, s0, s, at);
    } else {
      FirstRef(CapsOf(c), EngineOf(g, s), at.block, flex, j, base);
      s' := ScanOne(c, g, s0, s, at, nf + j, flex[j], base + j);
      if s'.work.Scan? { s' := ArrayLoop(c, g, s0, s', at, flex, j + 1, base); }
    }
  }

  /** `doMarkInner` up to its loops. */
  lemma Opens(c: M.Config, g: Graph, s0: M.State, s: M.State, at: MarkState) returns (s': M.State)
    requires Quietly(c, s0, s) && Within(g, s.heap) && CanTrace(c, g, s) && s.work == M.Visit(at) && at.block in g
    requires !(at.fieldIndex == 0 && M.Marked(s, at.block))
    ensures Quietly(c, s0, s') && Further(s, s') && s'.queue == s.queue && s'.deferred == s.deferred
    ensures EngineOf(g, s').marked == EngineOf(g, s).marked + {at.block}
    ensures Scans(g, s', at, FirstSlot(|g[at.block].fixed|, at.fieldIndex))
  {
    var s1 := QuietlyOn(c, s0, s, M.VisitBlock);
    s' := QuietlyOn(c, s0, s1, M.LoadDescriptor);
    assert MarkedIn(g, s') == MarkedIn(g, s) + {at.block};
  }

  lemma InnerRuns(c: M.Config, g: Graph, s0: M.State, s: M.State, at: MarkState) returns (s': M.State)
    requires Quietly(c, s0, s) && Within(g, s.heap) && CanTrace(c, g, s) && s.work == M.Visit(at) && at.block in g
    requires !Inner(CapsOf(c), g, EngineOf(g, s), at).panicked
    ensures Quietly(c, s0, s') && Further(s, s') && s'.work.NoWork?
    ensures EngineOf(g, s') == Inner(CapsOf(c), g, EngineOf(g, s), at)
  {
    if at.fieldIndex == 0 && M.Marked(s, at.block) {
      s' := QuietlyOn(c, s0, s, M.VisitBlock);
      assert MarkedIn(g, s') == MarkedIn(g, s);
    } else {
      var sl := g[at.block];
      var s1 := Opens(c, g, s0, s, at);
      var s2 := FieldLoop(c, g, s0, s1, at, sl.fixed, FirstSlot(|sl.fixed|, at.fieldIndex));
      if s2.work.Scan? {
        s' := ArrayLoop(c, g, s0, s2, at, sl.flex, 0, SlotLabel(|sl.fixed|, at.fieldIndex, |sl.fixed|));
      } else {
        s' := s2;
      }
    }
  }

  lemma StepRuns(c: M.Config, g: Graph, s0: M.State, s: M.State) returns (s': M.State)
    requires Quietly(c, s0, s) && Within(g, s.heap) && CanTrace(c, g, s) && s.work.NoWork? && !Halted(EngineOf(g, s))
    requires !Step(CapsOf(c), g, EngineOf(g, s)).panicked
    ensures Quietly(c, s0, s') && Further(s, s') && s'.work.NoWork?
    ensures EngineOf(g, s') == Step(CapsOf(c), g, EngineOf(g, s))
  {
    if s.queue != [] {
      var s1 := QuietlyOn(c, s0, s, M.PopQueue);
      SameMarks(g, s, s1);
      s' := InnerRuns(c, g, s0, s1, MarkState(s.queue[0], 0));
    } else {
      var s1 := QuietlyOn(c, s0, s, M.PopDeferred);
      SameMarks(g, s, s1);
      s' := InnerRuns(c, g, s0, s1, s.deferred[0]);
    }
  }

  lemma {:induction false} LeadsRuns(c: M.Config, g: Graph, s0: M.State, s: M.State, n: nat, e: Engine)
    returns (s': M.State)
    requires Quietly(c, s0, s) && Within(g, s.heap) && !s.phase.Crashed? && s.mark.Keys == s.heap.Keys && s.work.NoWork?
    requires Leads(CapsOf(c), g, EngineOf(g, s), n, e) && Done(e)
    ensures Quietly(c, s0, s') && Further(s, s') && s'.work.NoWork? && EngineOf(g, s') == e
    decreases n
  {
    if n == 0 {
      s' := s;
      LeadsNowhere(CapsOf(c), g, EngineOf(g, s), e);
    } else {
      LeadsFirst(CapsOf(c), g, EngineOf(g, s), n, e);
      OneRound(CapsOf(c), g, EngineOf(g, s), n, e);
      var s1 := StepRuns(c, g, s0, s);
      s' := LeadsRuns(c, g, s0, s1, n - 1, e);
    }
  }

  // ---- All roots

  /** The queues never overflow both, and no array is too wide. */
  ghost predicate Roomy(c: M.Config, g: Graph) {
    && c.Valid() && |MultiSet(g)| <= c.deferredCap
    && forall b | b in g :: !TooWide(CapsOf(c), g, b)
  }

  /** `s'` is `s` with the marking phase further on. */
  ghost predicate Onward(s: M.State, s': M.State) {
    && s' == s.(phase := s'.phase, mark := s'.mark, hist := s.hist.(untouched := s'.hist.untouched))
    && s'.mark.Keys == s.mark.Keys
  }

  /** The next root starts the engine on its trace. */
  lemma RootJob(c: M.Config, g: Graph, s: M.State, b: Block)
    requires Within(g, s.heap) && M.CollectorEnabled(s, M.NextRoot) && s.rootSnap[s.phase.next] == To(b)
    requires b in g && NoDangling(g)
    ensures Job(g, MarkedIn(g, s), b).Valid() && Start(Job(g, MarkedIn(g, s), b)) == EngineOf(g, M.MarkNextRoot(s))
  {
    SameMarks(g, s, M.MarkNextRoot(s));
  }

  lemma RootRuns(c: M.Config, g: Graph, s0: M.State, s: M.State, i: nat, b: Block) returns (s': M.State)
    requires Quietly(c, s0, s) && Within(g, s.heap) && s.phase == M.Rooting(i)
    requires i < |s.rootSnap| && s.rootSnap[i] == To(b)
    requires M.NoTraceLeft(s) && s.mark.Keys == s.heap.Keys && b in g && NoDangling(g) && Roomy(c, g)
    ensures Quietly(c, s0, s') && Onward(s, s') && s'.phase == M.Rooting(i + 1)
    ensures MarkedIn(g, s') == MarkedIn(g, s) + ReachedSet(g, MarkedIn(g, s), {b})
  {
    var s1 := QuietlyOn(c, s0, s, M.NextRoot);
    RootJob(c, g, s, b);
    var n, e := TraceEnds(CapsOf(c), Job(g, MarkedIn(g, s), b));
    s' := LeadsRuns(c, g, s0, s1, n, e);
  }

  lemma TraceEnds(k: Caps, job: Job) returns (n: nat, e: Engine)
    requires k.Valid() && job.Valid() && |MultiSet(job.g)| <= k.deferred
    requires forall b | b in job.g :: !TooWide(k, job.g, b)
    ensures Leads(k, job.g, Start(job), n, e) && Done(e)
    ensures e.marked == job.before + ReachedSet(job.g, job.before, {job.root})
  {
    FittingHalts(k, job);
    n, e :| Returns(k, job, n, e);
    MultiDueIsMulti(job.g, job.before, job.root);
    OneEnd(k, job, n, e);
  }

  lemma {:induction false} RootsRun(c: M.Config, g: Graph, s0: M.State, s: M.State, pre: set<Block>, i: nat)
    returns (s': M.State)
    requires Quietly(c, s0, s) && Within(g, s.heap) && s.phase == M.Rooting(i)
    requires i <= |s.rootSnap| && Null !in s.rootSnap
    requires M.NoTraceLeft(s) && s.mark.Keys == s.heap.Keys && RefBlocks(s.rootSnap) <= g.Keys
    requires NoDangling(g) && Roomy(c, g)
    requires MarkedIn(g, s) == Survivors(g, pre, RefBlocks(s.rootSnap[..i]))
    ensures Quietly(c, s0, s') && Onward(s, s') && s'.phase == M.Rooting(|s.rootSnap|)
    ensures MarkedIn(g, s') == Survivors(g, pre, RefBlocks(s.rootSnap))
    decreases |s.rootSnap| - i
  {
    if i == |s.rootSnap| {
      assert s.rootSnap[..i] == s.rootSnap;
      s' := s;
    } else {
      var b := s.rootSnap[i].block;
      assert s.rootSnap[i] == To(b) && b in RefBlocks(s.rootSnap);
      var s1 := RootRuns(c, g, s0, s, i, b);
      OneMoreRoot(g, pre, s.rootSnap, i);
      s' := RootsRun(c, g, s0, s1, pre, i + 1);
    }
  }

  // ---- To the sweep

  /** The heap as far as the roots reach. */
  ghost function Live(s: M.State): Graph {
    map b | b in ReachedSet(s.heap, {}, RootBlocks(s)) :: s.heap[b]
  }

  ghost function RootBlocks(s: M.State): set<Block> {
    RefBlocks(M.AllRoots(s.threads))
  }

  lemma LiveIsClosed(s: M.State)
    requires I.NothingLost(s)
    ensures Within(Live(s), s.heap) && NoDangling(Live(s)) && RootBlocks(s) <= Live(s).Keys
  {
    var roots := RootBlocks(s);
    forall b | b in roots ensures b in Live(s) {
      ReachedRoot(s.heap, {}, roots, b);
      assert I.Accessible(s, b);
    }
    forall a, b | Edge(Live(s), a, b) ensures b in Live(s) {
      assert Edge(s.heap, a, b);
      ReachedStep(s.heap, {}, roots, a, b);
      assert I.Accessible(s, b);
    }
  }

  /** A cycle may start, no root is null and the queues have room for what the roots reach. */
  ghost predicate CanRun(c: M.Config, s: M.State) {
    && M.CollectorEnabled(s, M.StartCycle) && Null !in M.AllRoots(s.threads) && Roomy(c, Live(s))
  }

  /** A cycle whose mutators rest comes to its sweep with exactly these blocks of the live heap marked: the
      premarked ones and what the roots reach around them. */
  lemma RestingCycleSweeps(c: M.Config, s: M.State) returns (s': M.State)
    requires I.NothingLost(s) && I.Phased(s) && I.Calm(s) && CanRun(c, s)
    ensures Quietly(c, M.BeginCycle(s), s') && s'.phase.Sweeping? && s'.heap == s.heap && s'.threads == s.threads
    ensures s'.sweepList == s.heap.Keys == s'.mark.Keys && s'.hist.cycles == s.hist.cycles
    ensures MarkedIn(Live(s), s') == Survivors(Live(s), MarkedIn(Live(s), s), RootBlocks(s))
  {
    var g, s0 := Live(s), M.BeginCycle(s);
    var pre := MarkedIn(g, s);
    LiveIsClosed(s);
    QuietlyStays(c, s0);
    SameMarks(g, s, s0);
    NoRootsMarkNothing(g, pre, s0.rootSnap);
    var s1 := RootsRun(c, g, s0, s0, pre, 0);
    s' := SweepBegins(c, s0, s1);
    SameMarks(g, s1, s');
  }

  /** With nobody in a barrier and nothing buffered, there is nothing to drain. */
  lemma SweepBegins(c: M.Config, s0: M.State, s: M.State) returns (s': M.State)
    requires Quietly(c, s0, s) && s.phase == M.Rooting(|s.rootSnap|) && M.NoTraceLeft(s) && M.AllOutside(s)
    requires s.remarkQueue == [] && s.chunk == [] && M.LocalsEmpty(s)
    ensures Quietly(c, s0, s') && s' == s.(marking := false, phase := M.Sweeping)
  {
    s' := QuietlyOn(c, s0, s, M.ClearFlag);
    s' := QueueDrains(c, s0, s');
    s' := LocalsDrain(c, s0, s', 1);
    s' := QuietlyOn(c, s0, s', M.BeginSweep);
  }

  lemma QueueDrains(c: M.Config, s0: M.State, s: M.State) returns (s': M.State)
    requires Quietly(c, s0, s) && s.phase == M.Draining(0) && M.NoTraceLeft(s) && s.chunk == [] && s.remarkQueue == []
    ensures Quietly(c, s0, s') && s' == s.(phase := M.Draining(1))
  {
    s' := QuietlyOn(c, s0, s, M.EndQueue);
  }

  lemma {:induction false} LocalsDrain(c: M.Config, s0: M.State, s: M.State, k: nat) returns (s': M.State)
    requires Quietly(c, s0, s) && s.phase == M.Draining(k) && 0 < k <= |s.threads| + 1
    requires M.NoTraceLeft(s) && s.chunk == [] && M.LocalsEmpty(s)
    ensures Quietly(c, s0, s') && s' == s.(phase := M.Draining(|s.threads| + 1))
    decreases |s.threads| + 1 - k
  {
    s' := s;
    if k <= |s.threads| {
      s' := QuietlyOn(c, s0, s, M.TakeLocal);
      assert s' == s.(phase := M.Draining(k + 1));
      s' := LocalsDrain(c, s0, s', k + 1);
    }
  }

  lemma NoRootsMarkNothing(g: Graph, pre: set<Block>, roots: seq<Ref>)
    ensures Survivors(g, pre, RefBlocks(roots[..0])) == pre
  {
    assert roots[..0] == [] && RefBlocks([]) == {};
    NothingFromNoRoots(g, pre);
  }

  // ---- A block lost

  /** A path through the live heap around its premarked blocks is one through the heap around all of them. */
  lemma LivePath(s: M.State, p: seq<Block>)
    requires IsPath(Live(s), MarkedIn(Live(s), s), RootBlocks(s), p) && p[|p| - 1] in Live(s)
    ensures IsPath(s.heap, M.MarkedBlocks(s), RootBlocks(s), p)
  {
    forall i | 0 <= i < |p| - 1 ensures Edge(s.heap, p[i], p[i + 1]) { assert Edge(Live(s), p[i], p[i + 1]); }
    forall i | 0 <= i < |p| ensures p[i] !in M.MarkedBlocks(s) {
      if i < |p| - 1 { assert Edge(Live(s), p[i], p[i + 1]); }
      assert p[i] in Live(s) && p[i] !in MarkedIn(Live(s), s);
    }
  }

  lemma LiveReached(s: M.State, b: Block)
    requires b in Live(s) && Reached(Live(s), MarkedIn(Live(s), s), RootBlocks(s), b)
    ensures Reached(s.heap, M.MarkedBlocks(s), RootBlocks(s), b)
  {
    var p :| IsPath(Live(s), MarkedIn(Live(s), s), RootBlocks(s), p) && p[|p| - 1] == b;
    LivePath(s, p);
  }

  /** If premarked blocks are not harmless, the trace misses a block that the roots reach. */
  lemma MissesABlock(s: M.State) returns (b: Block)
    requires I.NothingLost(s) && !I.PremarkedHarmless(s)
    ensures b in Live(s) && b in s.heap && b !in M.MarkedBlocks(s) && Reached(s.heap, {}, RootBlocks(s), b)
    ensures b !in Survivors(Live(s), MarkedIn(Live(s), s), RootBlocks(s))
  {
    var pre, roots := M.MarkedBlocks(s), RootBlocks(s);
    var a;
    a, b :| a in pre && Reached(s.heap, {}, roots, a) && Edge(s.heap, a, b)
      && b !in pre && !Reached(s.heap, pre, roots, b);
    ReachedStep(s.heap, {}, roots, a, b);
    assert I.Accessible(s, b);
    if Reached(Live(s), MarkedIn(Live(s), s), roots, b) { LiveReached(s, b); }
  }

  /** Freeing a block takes no path to it away. */
  lemma StillReached(g: Graph, roots: set<Block>, b: Block)
    requires Reached(g, {}, roots, b)
    ensures Reached(g - {b}, {}, roots, b)
  {
    var p :| IsPath(g, {}, roots, p) && p[|p| - 1] == b;
    var k := FirstOccurrence(p, b);
    var q := p[..k + 1];
    forall i | 0 <= i < |q| - 1 ensures Edge(g - {b}, q[i], q[i + 1]) { assert Edge(g, p[i], p[i + 1]); }
    assert IsPath(g - {b}, {}, roots, q);
  }

  lemma {:induction false} FirstOccurrence(p: seq<Block>, b: Block) returns (k: nat)
    requires b in p
    ensures k < |p| && p[k] == b && forall i | 0 <= i < k :: p[i] != b
  {
    if p[0] == b {
      k := 0;
    } else {
      k := FirstOccurrence(p[1..], b);
      k := k + 1;
    }
  }

  /** No quiet continuation of the cycle that starts now loses a block that a mutator can get to. */
  ghost predicate CycleIsSafe(c: M.Config, s: M.State) {
    forall s' | Quietly(c, M.BeginCycle(s), s') :: I.NothingLost(s')
  }

  lemma HarmfulCycleLosesABlock(c: M.Config, s: M.State)
    requires I.NothingLost(s) && I.Phased(s) && I.Calm(s) && CanRun(c, s) && !I.PremarkedHarmless(s)
    ensures !CycleIsSafe(c, s)
  {
    var b := MissesABlock(s);
    var s1 := RestingCycleSweeps(c, s);
    assert !M.Marked(s1, b) by { assert b !in MarkedIn(Live(s), s1); }
    var s2 := SweepsIt(c, M.BeginCycle(s), s1, b);
    StillReached(s.heap, RootBlocks(s), b);
    assert I.Accessible(s2, b) && b !in s2.heap;
  }

  lemma SweepsIt(c: M.Config, s0: M.State, s: M.State, b: Block) returns (s': M.State)
    requires Quietly(c, s0, s) && s.phase.Sweeping? && b in s.sweepList && b in s.mark && !M.Marked(s, b)
    ensures Quietly(c, s0, s') && s'.heap == s.heap - {b} && s'.threads == s.threads
  {
    s' := QuietlyOn(c, s0, s, M.SweepOne(b));
  }

  lemma {:induction false} QuietPathKeepsInv(
      c: M.Config, ss: seq<M.State>, acts: seq<M.Action>, s: M.State, s': M.State, i: nat)
    requires I.Inv(c, s) && QuietPath(c, ss, acts, s, s') && i <= |acts|
    ensures I.Inv(c, ss[i])
  {
    if i > 0 {
      QuietPathKeepsInv(c, ss, acts, s, s', i - 1);
      assert StepAt(c, QuietRun, ss, acts, i - 1);
      StepKeepsInv(c, ss[i - 1], acts[i - 1]);
    }
  }

  lemma HarmlessCycleIsSafe(c: M.Config, s: M.State)
    requires I.QuietInv(c, s) && I.NothingLost(s) && M.CollectorEnabled(s, M.StartCycle) && I.PremarkedHarmless(s)
    ensures CycleIsSafe(c, s)
  {
    StartGivesInv(c, s);
    forall s' | Quietly(c, M.BeginCycle(s), s') ensures I.NothingLost(s') {
      var ss, acts :| QuietPath(c, ss, acts, M.BeginCycle(s), s');
      QuietPathKeepsInv(c, ss, acts, M.BeginCycle(s), s', |acts|);
      AccessLosesNothing(s');
    }
  }

  lemma QuietParts(c: M.Config, s: M.State)
    requires Reachable(c, QuietRun, s) && !s.phase.Crashed?
    ensures I.QuietInv(c, s) && I.Phased(s) && I.Calm(s)
  {
    ReachableQuiet(c, QuietRun, s);
  }

  /** Whatever earlier cycles did, if nothing that mutators can get to has been lost so far, then a cycle that starts
      now loses nothing, whatever quiet mutators do, if and only if its own premarked blocks are harmless. */
  lemma CycleIsSafeExactlyWhenHarmless(c: M.Config, s: M.State)
    requires Reachable(c, QuietRun, s) && I.NothingLost(s) && CanRun(c, s)
    ensures CycleIsSafe(c, s) <==> I.PremarkedHarmless(s)
  {
    QuietParts(c, s);
    if I.PremarkedHarmless(s) { HarmlessCycleIsSafe(c, s); } else { HarmfulCycleLosesABlock(c, s); }
  }
}
