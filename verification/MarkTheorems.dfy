/** `doMark` with bounded queues: what it marks, when it returns and when it cannot panic. */
module MarkTheorems {
  import opened Heap
  import opened MarkState
  import opened MarkEngine
  import opened MarkInvariant
  import opened Iteration

  // ---- One block

  lemma MultiFrom(g: Graph, b: Block, i: nat, j: nat)
    requires b in g && i < j < |g[b].All()| && g[b].All()[i].To? && g[b].All()[j].To?
    ensures Multi(g, b)
  {
    assert RefAt(g, b, i, g[b].All()[i].block) && RefAt(g, b, j, g[b].All()[j].block);
  }

  /** A block is parked under a positive index and holds two references, in the field loop... */
  lemma FieldsStop(k: Caps, g: Graph, e: Engine, b: Block, start: nat) returns (m: nat)
    requires b in g && start <= |g[b].fixed| && |e.queue| < k.queue && !e.panicked
    requires !MarkRefs(k, e, b, g[b].fixed, start, 0).1
    ensures Stopped(k, e, MarkRefs(k, e, b, g[b].fixed, start, 0).0, b, g[b].fixed, start, 0, m)
    ensures m > start && Multi(g, b)
  {
    var fixed := g[b].fixed;
    m := StopsAt(k, e, b, fixed, start, 0);
    var j :| start <= j < m && fixed[j].To?;
    assert g[b].All()[j] == fixed[j] && g[b].All()[m] == fixed[m];
    MultiFrom(g, b, j, m);
  }

  /** ...and in the flexible array. */
  lemma FlexStops(k: Caps, g: Graph, e: Engine, e1: Engine, b: Block, start: nat, base: nat) returns (m: nat)
    requires b in g && start <= |g[b].fixed| <= base && |e.queue| < k.queue && !e.panicked
    requires MarkRefs(k, e, b, g[b].fixed, start, 0) == (e1, true)
    requires !MarkRefs(k, e1, b, g[b].flex, 0, base).1
    ensures Stopped(k, e1, MarkRefs(k, e1, b, g[b].flex, 0, base).0, b, g[b].flex, 0, base, m)
    ensures base + m > 0 && Multi(g, b)
  {
    var fixed, flex, all := g[b].fixed, g[b].flex, g[b].All();
    m := StopsAt(k, e1, b, flex, 0, base);
    assert all[|fixed| + m] == flex[m];
    if |e1.queue| < k.queue {
      var j :| 0 <= j < m && flex[j].To?;
      assert all[|fixed| + j] == flex[j];
      MultiFrom(g, b, |fixed| + j, |fixed| + m);
    } else {
      var j := NonNullWitness(fixed, start);
      assert all[j] == fixed[j];
      MultiFrom(g, b, j, |fixed| + m);
    }
  }

  ghost predicate Handed(k: Caps, job: Job, e: Engine, at: MarkState) {
    MarkInv(k, job, e, {at}) && at.block in job.g
  }

  lemma ScanKeeps(k: Caps, job: Job, e: Engine, at: MarkState)
    requires Handed(k, job, e, at) && !(at.fieldIndex == 0 && at.block in e.marked)
    ensures var e' := Inner(k, job.g, e, at); e'.panicked || MarkInv(k, job, e', {})
  {
    var g, b := job.g, at.block;
    var sl := g[b];
    var nf, all := |sl.fixed|, sl.All();
    var start, base := FirstSlot(nf, at.fieldIndex), SlotLabel(nf, at.fieldIndex, nf);
    var e0 := e.(marked := e.marked + {b});
    OpenKeeps(k, job, e, at);
    var (e1, whole) := MarkRefs(k, e0, b, sl.fixed, start, 0);
    assert forall i | 0 <= i < nf :: all[i] == sl.fixed[i];
    assert forall i | 0 <= i < |sl.flex| :: all[nf + i] == sl.flex[i];
    if !whole {
      var m := FieldsStop(k, g, e0, b, start);
      if !e1.panicked { ParkKeeps(k, job, e0, e1, b, start, m, MarkState(b, m)); }
    } else {
      WholeKeeps(k, job, e0, e1, b, start, nf);
      FlexKeeps(k, job, e0, e1, b, start, base);
    }
  }

  lemma FlexKeeps(k: Caps, job: Job, e0: Engine, e1: Engine, b: Block, start: nat, base: nat)
    requires b in job.g && start <= |job.g[b].fixed| <= base && |e0.queue| < k.queue && !e0.panicked
    requires MarkRefs(k, e0, b, job.g[b].fixed, start, 0) == (e1, true)
    requires Opened(k, job, e1, b, |job.g[b].fixed|)
    ensures var e2 := MarkRefs(k, e1, b, job.g[b].flex, 0, base).0; e2.panicked || MarkInv(k, job, e2, {})
  {
    var sl := job.g[b];
    var nf, all := |sl.fixed|, sl.All();
    assert forall i | nf <= i < |all| :: all[i] == sl.flex[i - nf];
    var (e2, whole) := MarkRefs(k, e1, b, sl.flex, 0, base);
    if whole {
      WholeKeeps(k, job, e1, e2, b, nf, |all|);
      CloseKeeps(k, job, e2, b);
    } else {
      var m := FlexStops(k, job.g, e0, e1, b, start, base);
      if !e2.panicked { ParkKeeps(k, job, e1, e2, b, nf, nf + m, MarkState(b, base + m)); }
    }
  }

  lemma InnerKeeps(k: Caps, job: Job, e: Engine, at: MarkState)
    requires Handed(k, job, e, at)
    ensures var e' := Inner(k, job.g, e, at); e'.panicked || MarkInv(k, job, e', {})
  {
    if at.fieldIndex == 0 && at.block in e.marked { SkipKeeps(k, job, e, at); } else { ScanKeeps(k, job, e, at); }
  }

  // ---- Reading the queues

  lemma PopQueueKeeps(k: Caps, job: Job, e: Engine)
    requires MarkInv(k, job, e, {}) && e.queue != []
    ensures Handed(k, job, e.(queue := e.queue[1..]), MarkState(e.queue[0], 0))
  {
    var e', at := e.(queue := e.queue[1..]), MarkState(e.queue[0], 0);
    assert e.queue == [e.queue[0]] + e'.queue;
    assert forall w :: Waiting(e', {at}, w) ==> Waiting(e, {}, w);
    forall b, j: nat, v | b in e'.marked && b !in job.before && RefAt(job.g, b, j, v)
      ensures SlotSafe(job.g, e', {at}, b, j, v)
    {
      assert SlotSafe(job.g, e, {}, b, j, v);
      if !Covered(e, {}, v) {
        var w :| Waiting(e, {}, w) && ResumesIn(job.g, w, b, j);
        assert Waiting(e', {at}, w);
      }
    }
    forall b | b in e'.marked && b !in job.before && TooWide(k, job.g, b)
      ensures exists w :: Waiting(e', {at}, w) && w.block == b
    {
      var w :| Waiting(e, {}, w) && w.block == b;
      assert Waiting(e', {at}, w);
    }
  }

  lemma PopDeferredQueues(k: Caps, job: Job, e: Engine)
    requires QueuesInv(k, job, e, {}) && e.queue == [] && e.deferred != []
    ensures QueuesInv(k, job, e.(deferred := e.deferred[1..]), {e.deferred[0]})
    ensures forall w :: Waiting(e.(deferred := e.deferred[1..]), {e.deferred[0]}, w) <==> Waiting(e, {}, w)
    ensures Waiting(e, {}, e.deferred[0])
  {
    var e', at := e.(deferred := e.deferred[1..]), e.deferred[0];
    assert e.deferred == [at] + e'.deferred;
    forall w ensures Waiting(e', {at}, w) <==> Waiting(e, {}, w) {}
    forall w | w in e'.deferred ensures w.block != at.block {
      var i :| 0 <= i < |e'.deferred| && e'.deferred[i] == w;
      assert e.deferred[i + 1] == w;
    }
    forall i, j | 0 <= i < j < |e'.deferred| ensures e'.deferred[i].block != e'.deferred[j].block {
      assert e.deferred[i + 1].block != e.deferred[j + 1].block;
    }
  }

  lemma PopDeferredKeeps(k: Caps, job: Job, e: Engine)
    requires MarkInv(k, job, e, {}) && e.queue == [] && e.deferred != []
    ensures Handed(k, job, e.(deferred := e.deferred[1..]), e.deferred[0])
  {
    var e', at := e.(deferred := e.deferred[1..]), e.deferred[0];
    PopDeferredQueues(k, job, e);
    forall b, j: nat, v | b in e'.marked && b !in job.before && RefAt(job.g, b, j, v)
      ensures SlotSafe(job.g, e', {at}, b, j, v)
    {
      assert SlotSafe(job.g, e, {}, b, j, v);
      if !Covered(e, {}, v) {
        var w :| Waiting(e, {}, w) && ResumesIn(job.g, w, b, j);
        assert Waiting(e', {at}, w);
      }
    }
    forall b | b in e'.marked && b !in job.before && TooWide(k, job.g, b)
      ensures exists w :: Waiting(e', {at}, w) && w.block == b
    {
      var w :| Waiting(e, {}, w) && w.block == b;
      assert Waiting(e', {at}, w);
    }
  }

  lemma StepKeeps(k: Caps, job: Job, e: Engine)
    requires MarkInv(k, job, e, {}) && !Halted(e)
    ensures InHeap(job.g, e)
    ensures var e' := Step(k, job.g, e); e'.panicked || MarkInv(k, job, e', {})
  {
    assert forall at | at in e.deferred :: Waiting(e, {}, at);
    if e.queue != [] {
      PopQueueKeeps(k, job, e);
      InnerKeeps(k, job, e.(queue := e.queue[1..]), MarkState(e.queue[0], 0));
    } else {
      PopDeferredKeeps(k, job, e);
      InnerKeeps(k, job, e.(deferred := e.deferred[1..]), e.deferred[0]);
    }
  }

  // ---- Panics

  /** The blocks due that hold at least two references. */
  ghost function MultiDue(job: Job): set<Block> {
    set b | b in job.g && job.Due(b) && Multi(job.g, b)
  }

  ghost function BlocksOf(ds: seq<MarkState>): set<Block> {
    set at | at in ds :: at.block
  }

  lemma {:induction false} DistinctBlocks(ds: seq<MarkState>)
    requires forall i, j | 0 <= i < j < |ds| :: ds[i].block != ds[j].block
    ensures |BlocksOf(ds)| == |ds|
  {
    if ds != [] {
      var n := |ds| - 1;
      DistinctBlocks(ds[..n]);
      assert ds == ds[..n] + [ds[n]];
      assert BlocksOf(ds) == BlocksOf(ds[..n]) + {ds[n].block};
      assert ds[n].block !in BlocksOf(ds[..n]);
    }
  }

  lemma SubsetSize(a: set<Block>, b: set<Block>)
    requires a <= b
    ensures |a| <= |b|
  {
    assert b == a + (b - a);
  }

  /** While a block with two references is in hand, the deferred queue has room. */
  lemma RoomToPark(k: Caps, job: Job, e: Engine, b: Block, start: nat)
    requires Opened(k, job, e, b, start) && Multi(job.g, b)
    ensures |e.deferred| < |MultiDue(job)|
  {
    DistinctBlocks(e.deferred);
    forall x | x in BlocksOf(e.deferred) ensures x in MultiDue(job) {
      var at :| at in e.deferred && at.block == x;
      assert Waiting(e, {}, at);
    }
    SubsetSize(BlocksOf(e.deferred) + {b}, MultiDue(job));
  }

  lemma InnerCannotPanic(k: Caps, job: Job, e: Engine, at: MarkState)
    requires Handed(k, job, e, at) && |MultiDue(job)| <= k.deferred
    ensures !Inner(k, job.g, e, at).panicked
  {
    var g, b := job.g, at.block;
    if !(at.fieldIndex == 0 && b in e.marked) {
      var sl, e0 := g[b], e.(marked := e.marked + {b});
      var start := FirstSlot(|sl.fixed|, at.fieldIndex);
      OpenKeeps(k, job, e, at);
      var (e1, whole) := MarkRefs(k, e0, b, sl.fixed, start, 0);
      if !whole {
        var m := FieldsStop(k, g, e0, b, start);
        RoomToPark(k, job, e0, b, start);
      } else {
        var base := SlotLabel(|sl.fixed|, at.fieldIndex, |sl.fixed|);
        if !MarkRefs(k, e1, b, sl.flex, 0, base).1 {
          var m := FlexStops(k, g, e0, e1, b, start, base);
          RoomToPark(k, job, e0, b, start);
        }
      }
    }
  }

  /** The deferred queue cannot overflow if it has room for every block due with two references. */
  lemma StepCannotPanic(k: Caps, job: Job, e: Engine)
    requires MarkInv(k, job, e, {}) && !Halted(e) && |MultiDue(job)| <= k.deferred
    ensures InHeap(job.g, e) && !Step(k, job.g, e).panicked
  {
    StepKeeps(k, job, e);
    if e.queue != [] {
      PopQueueKeeps(k, job, e);
      InnerCannotPanic(k, job, e.(queue := e.queue[1..]), MarkState(e.queue[0], 0));
    } else {
      PopDeferredKeeps(k, job, e);
      InnerCannotPanic(k, job, e.(deferred := e.deferred[1..]), e.deferred[0]);
    }
  }

  // ---- Termination

  ghost predicate Fits(k: Caps, job: Job) {
    forall b | job.Due(b) :: !TooWide(k, job.g, b)
  }

  /** What a parked scan has left: its fixed fields from the index on, then one pass over the array. */
  function Left(g: Graph, at: MarkState): nat {
    if at.block in g then |g[at.block].fixed| + 1 - FirstSlot(|g[at.block].fixed|, at.fieldIndex) else 0
  }

  function AllLeft(g: Graph, ds: seq<MarkState>): nat {
    if ds == [] then 0 else Left(g, ds[0]) + AllLeft(g, ds[1..])
  }

  lemma {:induction false} AllLeftAppend(g: Graph, ds: seq<MarkState>, at: MarkState)
    ensures AllLeft(g, ds + [at]) == AllLeft(g, ds) + Left(g, at)
  {
    if ds == [] {
      assert ds + [at] == [at];
    } else {
      assert (ds + [at])[1..] == ds[1..] + [at];
      AllLeftAppend(g, ds[1..], at);
    }
  }

  /** Fewer unmarked blocks, or as many and less parked work, or as much and a shorter mark queue. */
  ghost predicate Closer(g: Graph, e': Engine, e: Engine) {
    var w', w := |g.Keys - e'.marked|, |g.Keys - e.marked|;
    var d', d := AllLeft(g, e'.deferred), AllLeft(g, e.deferred);
    w' < w || (w' == w && (d' < d || (d' == d && |e'.queue| < |e.queue|)))
  }

  lemma MarkingIsCloser(k: Caps, g: Graph, e: Engine, at: MarkState)
    requires at.block in g && at.block !in e.marked && |e.queue| <= k.queue && !e.panicked
    ensures |g.Keys - Inner(k, g, e, at).marked| < |g.Keys - e.marked|
  {
    assert Inner(k, g, e, at).marked == e.marked + {at.block};
    assert g.Keys - e.marked == (g.Keys - Inner(k, g, e, at).marked) + {at.block};
  }

  /** Resuming a block from an empty mark queue gets further: past the index at which it was parked,
      or through an array that fits. */
  lemma ResumeIsCloser(k: Caps, g: Graph, e: Engine, at: MarkState)
    requires k.Valid() && at.block in g && at.block in e.marked && at.fieldIndex > 0
    requires e.queue == [] && !e.panicked && !TooWide(k, g, at.block)
    ensures var e' := Inner(k, g, e, at);
      e'.panicked || (e'.marked == e.marked && AllLeft(g, e'.deferred) < AllLeft(g, e.deferred) + Left(g, at))
  {
    var b, e' := at.block, Inner(k, g, e, at);
    var sl, e0 := g[b], e.(marked := e.marked + {b});
    var nf := |sl.fixed|;
    var start, base := FirstSlot(nf, at.fieldIndex), SlotLabel(nf, at.fieldIndex, nf);
    assert e0 == e;
    var (e1, whole) := MarkRefs(k, e0, b, sl.fixed, start, 0);
    if !whole {
      var m := FieldsStop(k, g, e0, b, start);
      if !e1.panicked { AllLeftAppend(g, e.deferred, MarkState(b, m)); }
    } else if !MarkRefs(k, e1, b, sl.flex, 0, base).1 {
      var m := FlexStops(k, g, e0, e1, b, start, base);
      assert start < nf;
      if !e'.panicked { AllLeftAppend(g, e.deferred, MarkState(b, base + m)); }
    }
  }

  lemma StepIsCloser(k: Caps, job: Job, e: Engine)
    requires MarkInv(k, job, e, {}) && !Halted(e) && Fits(k, job)
    ensures InHeap(job.g, e)
    ensures var e' := Step(k, job.g, e); e'.panicked || Closer(job.g, e', e)
  {
    StepKeeps(k, job, e);
    if e.queue != [] {
      var at := MarkState(e.queue[0], 0);
      if at.block !in e.marked { MarkingIsCloser(k, job.g, e.(queue := e.queue[1..]), at); }
    } else {
      assert Waiting(e, {}, e.deferred[0]);
      ResumeIsCloser(k, job.g, e.(deferred := e.deferred[1..]), e.deferred[0]);
    }
  }

  // ---- Whole traces

  function Start(job: Job): Engine {
    Engine(job.before, [job.root], [], false)
  }

  ghost predicate CanStep(k: Caps, g: Graph, e: Engine) {
    |e.queue| <= k.queue && InHeap(g, e) && !Halted(e)
  }

  ghost function Stepping(k: Caps, g: Graph): Engine -> bool {
    e => CanStep(k, g, e)
  }

  ghost function Round(k: Caps, g: Graph): Engine -> Engine {
    e => if CanStep(k, g, e) then Step(k, g, e) else e
  }

  /** `n` rounds of `doMark` lead from `e` to `e'`. */
  ghost predicate Leads(k: Caps, g: Graph, e: Engine, n: nat, e': Engine) {
    Iterates(Stepping(k, g), Round(k, g), e, n, e')
  }

  /** The first round of a trace. */
  lemma LeadsFirst(k: Caps, g: Graph, e: Engine, n: nat, e': Engine)
    requires Leads(k, g, e, n, e') && n > 0
    ensures CanStep(k, g, e) && Leads(k, g, Step(k, g, e), n - 1, e')
  {
    IteratesFirst(Stepping(k, g), Round(k, g), e, n, e');
  }

  lemma LeadsNowhere(k: Caps, g: Graph, e: Engine, e': Engine)
    ensures Leads(k, g, e, 0, e') <==> e' == e
  {
    if e' == e { IteratesNone(Stepping(k, g), Round(k, g), e); }
  }

  lemma LeadsOnce(k: Caps, g: Graph, e: Engine)
    requires CanStep(k, g, e)
    ensures Leads(k, g, e, 1, Step(k, g, e))
  {
    IteratesOnce(Stepping(k, g), Round(k, g), e);
  }

  /** One trace after another. */
  lemma LeadsFurther(k: Caps, g: Graph, e0: Engine, n: nat, e1: Engine, m: nat, e2: Engine)
    requires Leads(k, g, e0, n, e1) && Leads(k, g, e1, m, e2)
    ensures Leads(k, g, e0, n + m, e2)
  {
    IteratesFurther(Stepping(k, g), Round(k, g), e0, n, e1, m, e2);
  }

  /** A trace that leads to `e` after `m` rounds still has what is left of its `n` rounds to go. */
  lemma LeadsThrough(k: Caps, g: Graph, e0: Engine, n: nat, fin: Engine, m: nat, e: Engine)
    requires Leads(k, g, e0, n, fin) && Halted(fin) && Leads(k, g, e0, m, e)
    ensures m <= n && Leads(k, g, e, n - m, fin)
  {
    IteratesThrough(Stepping(k, g), Round(k, g), e0, n, fin, m, e);
  }

  /** Every trace has one end. */
  lemma HaltsOnce(k: Caps, g: Graph, e: Engine, n: nat, e1: Engine, m: nat, e2: Engine)
    requires Leads(k, g, e, n, e1) && Halted(e1) && Leads(k, g, e, m, e2) && Halted(e2)
    ensures e1 == e2
  {
    LeadsThrough(k, g, e, n, e1, m, e2);
    LeadsThrough(k, g, e, m, e2, n, e1);
    LeadsNowhere(k, g, e1, e2);
  }

  /** A halted engine leads nowhere else. */
  lemma EndsHere(k: Caps, g: Graph, e: Engine, n: nat, fin: Engine)
    requires Leads(k, g, e, n, fin) && Halted(e)
    ensures fin == e
  {
    if n > 0 { LeadsFirst(k, g, e, n, fin); } else { LeadsNowhere(k, g, e, fin); }
  }

  // ---- Order

  /** The blocks that the slots of a range refer to, in order. */
  function Targets(refs: seq<Ref>, pos: nat, end: nat): seq<Block>
    requires pos <= end <= |refs|
    decreases end - pos
  {
    if pos == end then []
    else (if refs[pos].To? then [refs[pos].block] else []) + Targets(refs, pos + 1, end)
  }

  /** From `e` the slot loop has come to slot `end`: the blocks referred to up to there are queued, in order; if that is
      not the last one, the block is parked there behind all others, or there is no room for that. */
  ghost predicate CameTo(
      k: Caps, e: Engine, r: (Engine, bool), b: Block, refs: seq<Ref>, pos: nat, base: nat, end: nat)
  {
    && pos <= end <= |refs|
    && r.0.marked == e.marked && r.0.queue == e.queue + Targets(refs, pos, end)
    && (r.1 <==> end == |refs|)
    && (r.0.panicked <==> !r.1 && |e.deferred| >= k.deferred)
    && r.0.deferred == e.deferred + (if r.1 || r.0.panicked then [] else [MarkState(b, base + end)])
    && (!r.1 ==> refs[end].To? && |r.0.queue| == k.queue)
  }

  lemma CameOneFurther(
      k: Caps, e: Engine, r: (Engine, bool), b: Block, refs: seq<Ref>, pos: nat, base: nat, end: nat)
    requires pos < |refs| && refs[pos].To?
    requires CameTo(k, e.(queue := e.queue + [refs[pos].block]), r, b, refs, pos + 1, base, end)
    ensures CameTo(k, e, r, b, refs, pos, base, end)
  {
    OneThenRest(e.queue, refs[pos].block, Targets(refs, pos + 1, end));
  }

  lemma OneThenRest(xs: seq<Block>, x: Block, ys: seq<Block>)
    ensures xs + [x] + ys == xs + ([x] + ys)
  {
  }

  /** Where a slot loop comes to. */
  lemma {:induction false} RefsAppend(k: Caps, e: Engine, b: Block, refs: seq<Ref>, pos: nat, base: nat)
    returns (end: nat)
    requires pos <= |refs| && |e.queue| <= k.queue && !e.panicked
    ensures CameTo(k, e, MarkRefs(k, e, b, refs, pos, base), b, refs, pos, base, end)
    decreases |refs| - pos
  {
    if pos == |refs| {
      end := pos;
    } else if refs[pos].Null? {
      end := RefsAppend(k, e, b, refs, pos + 1, base);
    } else if |e.queue| < k.queue {
      var e1 := e.(queue := e.queue + [refs[pos].block]);
      end := RefsAppend(k, e1, b, refs, pos + 1, base);
      CameOneFurther(k, e, MarkRefs(k, e1, b, refs, pos + 1, base), b, refs, pos, base, end);
    } else {
      end := pos;
    }
  }

  lemma InnerAppends(k: Caps, g: Graph, e: Engine, at: MarkState)
    requires at.block in g && |e.queue| <= k.queue && !e.panicked
    ensures var e' := Inner(k, g, e, at);
      e'.marked == e.marked + {at.block} && e.queue <= e'.queue && e.deferred <= e'.deferred
  {
    if !(at.fieldIndex == 0 && at.block in e.marked) {
      var sl, e0 := g[at.block], e.(marked := e.marked + {at.block});
      var start, base := FirstSlot(|sl.fixed|, at.fieldIndex), SlotLabel(|sl.fixed|, at.fieldIndex, |sl.fixed|);
      var e1 := MarkRefs(k, e0, at.block, sl.fixed, start, 0);
      var end := RefsAppend(k, e0, at.block, sl.fixed, start, 0);
      if e1.1 { end := RefsAppend(k, e1.0, at.block, sl.flex, 0, base); }
    }
  }

  /** Both queues are first in, first out, and a parked block has to wait for the mark queue to be empty: a round takes
      the first entry and puts what it adds behind all others. */
  lemma RoundTakesFirst(k: Caps, g: Graph, e: Engine)
    requires CanStep(k, g, e)
    ensures var e' := Step(k, g, e);
      && (e.queue != [] ==>
        e'.marked == e.marked + {e.queue[0]} && e.queue[1..] <= e'.queue && e.deferred <= e'.deferred)
      && (e.queue == [] ==>
        e'.marked == e.marked + {e.deferred[0].block} && e.deferred[1..] <= e'.deferred)
  {
    if e.queue != [] {
      InnerAppends(k, g, e.(queue := e.queue[1..]), MarkState(e.queue[0], 0));
    } else {
      InnerAppends(k, g, e.(deferred := e.deferred[1..]), e.deferred[0]);
    }
  }

  /** So the search goes breadth first: what is queued is visited before anything that is queued later. */
  lemma {:induction false} BreadthFirst(k: Caps, g: Graph, e: Engine, n: nat, e': Engine)
    requires Leads(k, g, e, n, e') && n <= |e.queue|
    ensures e.queue[n..] <= e'.queue
    ensures forall i | 0 <= i < n :: e.queue[i] in e'.marked
    decreases n
  {
    if n == 0 {
      LeadsNowhere(k, g, e, e');
    } else {
      LeadsFirst(k, g, e, n, e');
      RoundTakesFirst(k, g, e);
      var e1 := Step(k, g, e);
      BreadthFirst(k, g, e1, n - 1, e');
      PrefixTail(e.queue[1..], e1.queue, n - 1);
      NothingUnmarked(k, g, e1, n - 1, e');
      forall i | 0 <= i < n ensures e.queue[i] in e'.marked {
        if i > 0 { assert e.queue[i] == e.queue[1..][i - 1] == e1.queue[i - 1]; }
      }
    }
  }

  lemma PrefixTail(a: seq<Block>, b: seq<Block>, n: nat)
    requires a <= b && n <= |a|
    ensures a[n..] <= b[n..]
  {
  }

  lemma {:induction false} NothingUnmarked(k: Caps, g: Graph, e: Engine, n: nat, e': Engine)
    requires Leads(k, g, e, n, e')
    ensures e.marked <= e'.marked
    decreases n
  {
    if n == 0 {
      LeadsNowhere(k, g, e, e');
    } else {
      LeadsFirst(k, g, e, n, e');
      RoundTakesFirst(k, g, e);
      NothingUnmarked(k, g, Step(k, g, e), n - 1, e');
    }
  }

  lemma StartInv(k: Caps, job: Job)
    requires k.Valid() && job.Valid()
    ensures MarkInv(k, job, Start(job), {})
  {
    if job.root !in job.before { ReachedRoot(job.g, job.before, {job.root}, job.root); }
  }

  /** A trace from `e` is one round and a trace from `e'`. */
  ghost predicate GoesTo(k: Caps, g: Graph, e: Engine, e': Engine) {
    forall n: nat, fin :: Leads(k, g, e', n, fin) <==> Leads(k, g, e, n + 1, fin)
  }

  lemma GoesToStep(k: Caps, g: Graph, e: Engine)
    requires CanStep(k, g, e)
    ensures GoesTo(k, g, e, Step(k, g, e))
  {
    forall n: nat, fin ensures Leads(k, g, Step(k, g, e), n, fin) <==> Leads(k, g, e, n + 1, fin) {
      LeadsOnce(k, g, e);
      if Leads(k, g, e, n + 1, fin) { LeadsFirst(k, g, e, n + 1, fin); }
      if Leads(k, g, Step(k, g, e), n, fin) { LeadsFurther(k, g, e, 1, Step(k, g, e), n, fin); }
    }
  }

  /** One round, seen from outside. */
  lemma Advance(k: Caps, job: Job, e: Engine) returns (e': Engine)
    requires MarkInv(k, job, e, {}) && !Halted(e)
    ensures GoesTo(k, job.g, e, e')
    ensures e'.panicked || MarkInv(k, job, e', {})
    ensures |MultiDue(job)| <= k.deferred ==> !e'.panicked
    ensures Fits(k, job) ==> e'.panicked || Closer(job.g, e', e)
  {
    StepKeeps(k, job, e);
    e' := Step(k, job.g, e);
    GoesToStep(k, job.g, e);
    if |MultiDue(job)| <= k.deferred { StepCannotPanic(k, job, e); }
    if Fits(k, job) { StepIsCloser(k, job, e); }
  }

  lemma {:induction false} LeadsKeeps(k: Caps, job: Job, e: Engine, n: nat, e': Engine)
    requires MarkInv(k, job, e, {}) && Leads(k, job.g, e, n, e')
    ensures e'.panicked || MarkInv(k, job, e', {})
    ensures |MultiDue(job)| <= k.deferred ==> !e'.panicked
    decreases n
  {
    if n == 0 {
      LeadsNowhere(k, job.g, e, e');
    } else {
      var m: nat := n - 1;
      assert !Halted(e) by { LeadsFirst(k, job.g, e, n, e'); }
      var e1 := Advance(k, job, e);
      assert Leads(k, job.g, e, m + 1, e');
      assert Leads(k, job.g, e1, m, e');
      if e1.panicked { EndsHere(k, job.g, e1, m, e'); } else { LeadsKeeps(k, job, e1, m, e'); }
    }
  }

  lemma OneMore(k: Caps, g: Graph, e: Engine, e1: Engine, n: nat, e': Engine) returns (n': nat)
    requires GoesTo(k, g, e, e1) && Leads(k, g, e1, n, e')
    ensures n' == n + 1 && Leads(k, g, e, n', e')
  {
    n' := n + 1;
  }

  lemma {:induction false} HaltsFrom(k: Caps, job: Job, e: Engine) returns (n: nat, e': Engine)
    requires MarkInv(k, job, e, {}) && Fits(k, job)
    ensures Leads(k, job.g, e, n, e') && Halted(e')
    decreases |job.g.Keys - e.marked|, AllLeft(job.g, e.deferred), |e.queue|
  {
    if Halted(e) {
      n, e' := 0, e;
      LeadsNowhere(k, job.g, e, e);
    } else {
      var e1 := Advance(k, job, e);
      n, e' := 0, e1;
      if e1.panicked { LeadsNowhere(k, job.g, e1, e1); } else { n, e' := HaltsFrom(k, job, e1); }
      n := OneMore(k, job.g, e, e1, n, e');
    }
  }

  /** When `doMark` returns, both queues are empty and exactly the blocks due are newly marked: those
      reached from its argument through blocks that were not marked. */
  lemma DoMarkMarksExactlyTheDue(k: Caps, job: Job, n: nat, e: Engine)
    requires k.Valid() && job.Valid() && Leads(k, job.g, Start(job), n, e) && Done(e)
    ensures e.queue == [] && e.deferred == []
    ensures e.marked == job.before + ReachedSet(job.g, job.before, {job.root})
    ensures forall a, b | a in e.marked && a !in job.before && Edge(job.g, a, b) :: b in e.marked
  {
    StartInv(k, job);
    LeadsKeeps(k, job, Start(job), n, e);
    DoneMarksExactlyTheDue(k, job, e);
    forall a, b | a in e.marked && a !in job.before && Edge(job.g, a, b) ensures b in e.marked {
      DueStep(job, a, b);
    }
  }

  /** `doMark` cannot panic if the blocks due that hold two references fit the deferred queue. */
  lemma DoMarkCannotPanic(k: Caps, job: Job, n: nat, e: Engine)
    requires k.Valid() && job.Valid() && Leads(k, job.g, Start(job), n, e)
    requires |MultiDue(job)| <= k.deferred
    ensures !e.panicked
  {
    StartInv(k, job);
    LeadsKeeps(k, job, Start(job), n, e);
  }

  ghost predicate Returns(k: Caps, job: Job, n: nat, e: Engine) {
    Leads(k, job.g, Start(job), n, e) && Halted(e)
  }

  /** `doMark` comes to an end: it returns or panics. */
  ghost predicate Halts(k: Caps, job: Job) {
    exists n, e :: Returns(k, job, n, e)
  }

  /** ...by returning. */
  ghost predicate Finishes(k: Caps, job: Job) {
    exists n, e :: Returns(k, job, n, e) && Done(e)
  }

  /** If no panic interrupts it, `doMark` returns exactly when the flexible array of every block due
      holds no more references than the mark queue; otherwise it parks such an array and starts it over
      for ever. */
  lemma DoMarkReturnsExactlyWhenArraysFit(k: Caps, job: Job)
    requires k.Valid() && job.Valid() && |MultiDue(job)| <= k.deferred
    ensures Halts(k, job) <==> Fits(k, job)
  {
    StartInv(k, job);
    if n, e :| Returns(k, job, n, e) {
      LeadsKeeps(k, job, Start(job), n, e);
      DoneMarksExactlyTheDue(k, job, e);
    }
    if Fits(k, job) {
      var n, e := HaltsFrom(k, job, Start(job));
      assert Returns(k, job, n, e);
    }
  }

  lemma FittingHalts(k: Caps, job: Job)
    requires k.Valid() && job.Valid() && Fits(k, job)
    ensures Halts(k, job)
  {
    StartInv(k, job);
    var n, e := HaltsFrom(k, job, Start(job));
    assert Returns(k, job, n, e);
  }

  /** A trace that has not come to its end has a round to go. */
  lemma OneRound(k: Caps, g: Graph, e: Engine, n: nat, fin: Engine)
    requires Leads(k, g, e, n, fin) && Halted(fin) && !Halted(e)
    ensures n > 0 && CanStep(k, g, e)
    ensures Leads(k, g, Step(k, g, e), n - 1, fin)
    ensures Step(k, g, e).panicked ==> fin.panicked
  {
    assert n > 0;
    LeadsFirst(k, g, e, n, fin);
    if Step(k, g, e).panicked { EndsHere(k, g, Step(k, g, e), n - 1, fin); }
  }
}
