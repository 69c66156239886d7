/** What tracing with bounded queues keeps, and what it has done when the queues are empty. */
module MarkInvariant {
  import opened Heap
  import opened MarkState
  import opened MarkEngine

  /** One trace: the graph, the blocks marked before it, and the block it starts at. */
  datatype Job = Job(g: Graph, before: set<Block>, root: Block) {
    ghost predicate Valid() {
      NoDangling(g) && root in g && before <= g.Keys
    }

    /** Reachable from the root through blocks that were not marked. */
    ghost predicate Due(b: Block) {
      Reached(g, before, {root}, b)
    }
  }

  ghost predicate RefAt(g: Graph, b: Block, j: nat, v: Block) {
    b in g && j < |g[b].All()| && g[b].All()[j] == To(v)
  }

  /** At least two slots of `b` hold a reference. */
  ghost predicate Multi(g: Graph, b: Block) {
    exists i, j, u, v :: i < j && RefAt(g, b, i, u) && RefAt(g, b, j, v)
  }

  /** The flexible array of `b` holds more references than the mark queue has room for. */
  predicate TooWide(k: Caps, g: Graph, b: Block) {
    b in g && NonNull(g[b].flex, 0) > k.queue
  }

  ghost predicate Waiting(e: Engine, hand: set<MarkState>, at: MarkState) {
    (at in e.deferred || at in hand) && at.fieldIndex > 0
  }

  predicate ResumesIn(g: Graph, at: MarkState, b: Block, j: nat) {
    b in g && Resumes(at, b, |g[b].fixed|, j)
  }

  ghost predicate Covered(e: Engine, hand: set<MarkState>, v: Block) {
    v in e.marked || v in e.queue || MarkState(v, 0) in hand
  }

  ghost predicate SlotSafe(g: Graph, e: Engine, hand: set<MarkState>, b: Block, j: nat, v: Block) {
    Covered(e, hand, v) || exists at :: Waiting(e, hand, at) && ResumesIn(g, at, b, j)
  }

  ghost predicate QueuesInv(k: Caps, job: Job, e: Engine, hand: set<MarkState>) {
    && k.Valid() && job.Valid()
    && !e.panicked
    && |e.queue| <= k.queue && |e.deferred| <= k.deferred
    && (hand != {} ==> |e.queue| < k.queue)
    && (forall v | v in e.queue || MarkState(v, 0) in hand :: v in job.g && (v in job.before || job.Due(v)))
    && (forall at | at in e.deferred :: at.fieldIndex > 0)
    && (forall at | Waiting(e, hand, at) ::
      at.block in e.marked && at.block !in job.before && Multi(job.g, at.block))
    && (forall i, j | 0 <= i < j < |e.deferred| :: e.deferred[i].block != e.deferred[j].block)
    && (forall at, at' | at in hand && at.fieldIndex > 0 && at' in e.deferred :: at.block != at'.block)
  }

  /** `hand` is what was read from a queue and not looked at yet. */
  ghost predicate MarkInv(k: Caps, job: Job, e: Engine, hand: set<MarkState>) {
    && QueuesInv(k, job, e, hand)
    && job.before <= e.marked <= job.g.Keys
    && (forall b | b in e.marked && b !in job.before :: job.Due(b))
    && Covered(e, hand, job.root)
    && (forall b, j: nat, v | b in e.marked && b !in job.before && RefAt(job.g, b, j, v) ::
      SlotSafe(job.g, e, hand, b, j, v))
    && (forall b | b in e.marked && b !in job.before && TooWide(k, job.g, b) ::
      exists at :: Waiting(e, hand, at) && at.block == b)
  }

  /** With both queues empty exactly the blocks due are newly marked, and none of them is too wide. */
  lemma DoneMarksExactlyTheDue(k: Caps, job: Job, e: Engine)
    requires MarkInv(k, job, e, {}) && Done(e)
    ensures e.marked == job.before + ReachedSet(job.g, job.before, {job.root})
    ensures forall b | job.Due(b) :: b in e.marked && !TooWide(k, job.g, b)
  {
    forall b | job.Due(b) ensures b in e.marked && b !in job.before {
      ReachedAvoids(job.g, job.before, {job.root}, b);
      forall x, y | x in e.marked && x !in job.before && Edge(job.g, x, y) ensures y in e.marked {
        var j :| 0 <= j < |job.g[x].All()| && job.g[x].All()[j] == To(y);
        assert RefAt(job.g, x, j, y);
      }
      ClosedHoldsReached(job.g, job.before, {job.root}, e.marked, b);
    }
  }

  // ---- One block

  lemma DueStep(job: Job, b: Block, v: Block)
    requires job.Valid() && job.Due(b) && b in job.g && To(v) in job.g[b].All()
    ensures v in job.g && (v in job.before || job.Due(v))
  {
    assert Edge(job.g, b, v);
    if v !in job.before { ReachedStep(job.g, job.before, {job.root}, b, v); }
  }

  /** What is in the engine once `b` is marked: nothing but the references of `b` from `start` on is
      open. */
  ghost predicate Opened(k: Caps, job: Job, e: Engine, b: Block, start: nat) {
    && QueuesInv(k, job, e, {})
    && b in job.g && b in e.marked && b !in job.before && job.Due(b)
    && (forall at | at in e.deferred :: at.block != b)
    && job.before <= e.marked <= job.g.Keys
    && (forall x | x in e.marked && x !in job.before :: job.Due(x))
    && Covered(e, {}, job.root)
    && (forall x, j: nat, v | x in e.marked && x !in job.before && RefAt(job.g, x, j, v) && (x == b ==> j < start) ::
      SlotSafe(job.g, e, {}, x, j, v))
    && (forall x | x in e.marked && x !in job.before && TooWide(k, job.g, x) && x != b ::
      exists at :: Waiting(e, {}, at) && at.block == x)
  }

  lemma SkipKeeps(k: Caps, job: Job, e: Engine, at: MarkState)
    requires MarkInv(k, job, e, {at}) && at.fieldIndex == 0 && at.block in e.marked
    ensures MarkInv(k, job, e, {})
  {
    forall b, j: nat, v | b in e.marked && b !in job.before && RefAt(job.g, b, j, v)
      ensures SlotSafe(job.g, e, {}, b, j, v)
    {
      assert SlotSafe(job.g, e, {at}, b, j, v);
      if !Covered(e, {at}, v) {
        var w :| Waiting(e, {at}, w) && ResumesIn(job.g, w, b, j);
        assert Waiting(e, {}, w);
      }
    }
    forall b | b in e.marked && b !in job.before && TooWide(k, job.g, b)
      ensures exists w :: Waiting(e, {}, w) && w.block == b
    {
      var w :| Waiting(e, {at}, w) && w.block == b;
      assert Waiting(e, {}, w);
    }
  }

  lemma OpenKeeps(k: Caps, job: Job, e: Engine, at: MarkState)
    requires MarkInv(k, job, e, {at}) && !(at.fieldIndex == 0 && at.block in e.marked)
    ensures var b := at.block;
      b in job.g && Opened(k, job, e.(marked := e.marked + {b}), b, FirstSlot(|job.g[b].fixed|, at.fieldIndex))
  {
    var b := at.block;
    if at.fieldIndex > 0 { assert Waiting(e, {at}, at); }
    assert b in job.g;
    var e', start := e.(marked := e.marked + {b}), FirstSlot(|job.g[b].fixed|, at.fieldIndex);
    forall w | w in e.deferred ensures w.block != b && Waiting(e, {at}, w) {
      assert Waiting(e, {at}, w);
    }
    forall x, j: nat, v | x in e'.marked && x !in job.before && RefAt(job.g, x, j, v) && (x == b ==> j < start)
      ensures SlotSafe(job.g, e', {}, x, j, v)
    {
      assert SlotSafe(job.g, e, {at}, x, j, v);
      if !Covered(e', {}, v) {
        var w :| Waiting(e, {at}, w) && ResumesIn(job.g, w, x, j);
        assert Waiting(e', {}, w);
      }
    }
    forall x | x in e'.marked && x !in job.before && TooWide(k, job.g, x) && x != b
      ensures exists w :: Waiting(e', {}, w) && w.block == x
    {
      var w :| Waiting(e, {at}, w) && w.block == x;
      assert Waiting(e', {}, w);
    }
  }

  /** A pass over some of the references of `b` that adds to the mark queue only. */
  ghost predicate Queued(k: Caps, job: Job, e: Engine, e': Engine, b: Block) {
    && b in job.g
    && e'.marked == e.marked && |e'.queue| <= k.queue
    && (forall v | v in e.queue :: v in e'.queue)
    && (forall v | v in e'.queue :: v in e.queue || To(v) in job.g[b].All())
  }

  /** If the pass ran to its end, the references of `b` it covered are no longer open. */
  lemma WholeKeeps(k: Caps, job: Job, e: Engine, e': Engine, b: Block, start: nat, end: nat)
    requires Opened(k, job, e, b, start) && Queued(k, job, e, e', b)
    requires e'.deferred == e.deferred && !e'.panicked
    requires forall j: nat, v | start <= j < end && RefAt(job.g, b, j, v) :: v in e'.queue
    ensures Opened(k, job, e', b, end)
  {
    forall v | v in e'.queue ensures v in job.g && (v in job.before || job.Due(v)) {
      if v !in e.queue { DueStep(job, b, v); }
    }
    forall x, j: nat, v | x in e'.marked && x !in job.before && RefAt(job.g, x, j, v) && (x == b ==> j < end)
      ensures SlotSafe(job.g, e', {}, x, j, v)
    {
      if x != b || j < start {
        assert SlotSafe(job.g, e, {}, x, j, v);
        if !Covered(e', {}, v) {
          var w :| Waiting(e, {}, w) && ResumesIn(job.g, w, x, j);
          assert Waiting(e', {}, w);
        }
      }
    }
    forall x | x in e'.marked && x !in job.before && TooWide(k, job.g, x) && x != b
      ensures exists w :: Waiting(e', {}, w) && w.block == x
    {
      var w :| Waiting(e, {}, w) && w.block == x;
      assert Waiting(e', {}, w);
    }
  }

  lemma CloseKeeps(k: Caps, job: Job, e: Engine, b: Block)
    requires b in job.g && Opened(k, job, e, b, |job.g[b].All()|) && !TooWide(k, job.g, b)
    ensures MarkInv(k, job, e, {})
  {
  }

  /** If the pass stopped, the block is parked at an index that resumes no later than where it stopped,
      so that every reference still open is waited for. */
  lemma ParkQueues(k: Caps, job: Job, e: Engine, e': Engine, b: Block, start: nat, parked: MarkState)
    requires Opened(k, job, e, b, start) && Queued(k, job, e, e', b)
    requires !e'.panicked && e'.deferred == e.deferred + [parked] && |e'.deferred| <= k.deferred
    requires parked.block == b && parked.fieldIndex > 0 && Multi(job.g, b)
    ensures QueuesInv(k, job, e', {})
  {
    forall v | v in e'.queue ensures v in job.g && (v in job.before || job.Due(v)) {
      if v !in e.queue { DueStep(job, b, v); }
    }
    forall at | Waiting(e', {}, at)
      ensures at.block in e'.marked && at.block !in job.before && Multi(job.g, at.block)
    {
      if at != parked { assert Waiting(e, {}, at); }
    }
    forall i, j | 0 <= i < j < |e'.deferred| ensures e'.deferred[i].block != e'.deferred[j].block {
      if j == |e.deferred| { assert e.deferred[i] in e.deferred; }
    }
  }

  lemma ParkKeeps(
      k: Caps, job: Job, e: Engine, e': Engine, b: Block, start: nat, stop: nat, parked: MarkState)
    requires Opened(k, job, e, b, start) && Queued(k, job, e, e', b)
    requires !e'.panicked && e'.deferred == e.deferred + [parked] && |e'.deferred| <= k.deferred
    requires parked.block == b && parked.fieldIndex > 0 && Multi(job.g, b)
    requires FirstSlot(|job.g[b].fixed|, parked.fieldIndex) <= stop
    requires forall j: nat, v | start <= j < stop && RefAt(job.g, b, j, v) :: v in e'.queue
    ensures MarkInv(k, job, e', {})
  {
    ParkQueues(k, job, e, e', b, start, parked);
    assert e'.deferred[|e.deferred|] == parked;
    assert Waiting(e', {}, parked);
    forall x, j: nat, v | x in e'.marked && x !in job.before && RefAt(job.g, x, j, v)
      ensures SlotSafe(job.g, e', {}, x, j, v)
    {
      if x == b && j >= stop {
        assert ResumesIn(job.g, parked, x, j);
      } else if x != b || j < start {
        assert SlotSafe(job.g, e, {}, x, j, v);
        if !Covered(e', {}, v) {
          var w :| Waiting(e, {}, w) && ResumesIn(job.g, w, x, j);
          assert Waiting(e', {}, w);
        }
      }
    }
    forall x | x in e'.marked && x !in job.before && TooWide(k, job.g, x)
      ensures exists w :: Waiting(e', {}, w) && w.block == x
    {
      if x != b {
        var w :| Waiting(e, {}, w) && w.block == x;
        assert Waiting(e', {}, w);
      }
    }
  }
}
