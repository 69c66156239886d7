/** Tracing through a bounded mark queue with a deferred queue, as a function of the queues' state. */
module MarkEngine {
  import opened Heap
  import opened MarkState

  datatype Caps = Caps(queue: nat, deferred: nat) {
    predicate Valid() {
      queue >= 1 && deferred >= 1
    }
  }

  /** The marked blocks and the two queues; `panicked` once a reference fitted neither. */
  datatype Engine = Engine(marked: set<Block>, queue: seq<Block>, deferred: seq<MarkState>, panicked: bool)

  /** How many references the slots from `pos` on hold. */
  function NonNull(refs: seq<Ref>, pos: nat): nat
    requires pos <= |refs|
    decreases |refs| - pos
  {
    if pos == |refs| then 0 else (if refs[pos].To? then 1 else 0) + NonNull(refs, pos + 1)
  }

  /** `markOneItem` for the slots of `b` from `pos` on; slot `i` is parked under index `base + i`.
      The flag tells whether the loop ran to its end. */
  function MarkRefs(k: Caps, e: Engine, b: Block, refs: seq<Ref>, pos: nat, base: nat): (r: (Engine, bool))
    requires pos <= |refs| && |e.queue| <= k.queue && !e.panicked
    ensures r.0.marked == e.marked && |r.0.queue| <= k.queue
    ensures forall v | v in e.queue :: v in r.0.queue
    ensures forall v | v in r.0.queue :: v in e.queue || To(v) in refs
    ensures r.1 <==> |e.queue| + NonNull(refs, pos) <= k.queue
    ensures r.1 ==> r.0.deferred == e.deferred && !r.0.panicked && |r.0.queue| == |e.queue| + NonNull(refs, pos)
    ensures r.1 ==> forall j, v | pos <= j < |refs| && refs[j] == To(v) :: v in r.0.queue
    ensures r.0.panicked ==> !r.1 && |e.deferred| >= k.deferred
    ensures |e.deferred| <= k.deferred ==> |r.0.deferred| <= k.deferred
    ensures forall at | at in r.0.deferred :: at in e.deferred || at.block == b
    decreases |refs| - pos
  {
    if pos == |refs| then (e, true)
    else match refs[pos]
      case Null => MarkRefs(k, e, b, refs, pos + 1, base)
      case To(v) =>
        if |e.queue| < k.queue then MarkRefs(k, e.(queue := e.queue + [v]), b, refs, pos + 1, base)
        else if |e.deferred| < k.deferred then
          (e.(deferred := e.deferred + [MarkState(b, base + pos)]), false)
        else (e.(panicked := true), false)
  }

  /** The loop stopped at slot `m`, which holds a reference, with the mark queue full: the references
      before it are queued, and the block is parked unless the deferred queue was full too. */
  ghost predicate Stopped(
      k: Caps, e: Engine, e': Engine, b: Block, refs: seq<Ref>, pos: nat, base: nat, m: nat)
  {
    && pos <= m < |refs| && refs[m].To?
    && |e'.queue| == k.queue
    && (!e'.panicked ==> e'.deferred == e.deferred + [MarkState(b, base + m)])
    && (forall j, v | pos <= j < m && refs[j] == To(v) :: v in e'.queue)
    && (|e.queue| < k.queue ==> exists j :: pos <= j < m && refs[j].To?)
  }

  /** `doMarkInner`. */
  function Inner(k: Caps, g: Graph, e: Engine, at: MarkState): (r: Engine)
    requires at.block in g && |e.queue| <= k.queue && !e.panicked
  {
    if at.fieldIndex == 0 && at.block in e.marked then e
    else
      var sl := g[at.block];
      var start := FirstSlot(|sl.fixed|, at.fieldIndex);
      var (e', whole) := MarkRefs(k, e.(marked := e.marked + {at.block}), at.block, sl.fixed, start, 0);
      if !whole then e'
      else MarkRefs(k, e', at.block, sl.flex, 0, SlotLabel(|sl.fixed|, at.fieldIndex, |sl.fixed|)).0
  }

  /** The slot at which the loop stops. */
  lemma {:induction false} StopsAt(k: Caps, e: Engine, b: Block, refs: seq<Ref>, pos: nat, base: nat) returns (m: nat)
    requires pos <= |refs| && |e.queue| <= k.queue && !e.panicked
    requires !MarkRefs(k, e, b, refs, pos, base).1
    ensures Stopped(k, e, MarkRefs(k, e, b, refs, pos, base).0, b, refs, pos, base, m)
    decreases |refs| - pos
  {
    if refs[pos].Null? {
      m := StopsAt(k, e, b, refs, pos + 1, base);
    } else if |e.queue| < k.queue {
      m := StopsAt(k, e.(queue := e.queue + [refs[pos].block]), b, refs, pos + 1, base);
    } else {
      m := pos;
    }
  }

  lemma {:induction false} NonNullWitness(refs: seq<Ref>, pos: nat) returns (j: nat)
    requires pos <= |refs| && NonNull(refs, pos) > 0
    ensures pos <= j < |refs| && refs[j].To?
    decreases |refs| - pos
  {
    if refs[pos].To? { j := pos; } else { j := NonNullWitness(refs, pos + 1); }
  }

  /** One block taken from the mark queue, or, when that is empty, from the deferred queue. */
  ghost function Step(k: Caps, g: Graph, e: Engine): Engine
    requires |e.queue| <= k.queue && InHeap(g, e)
  {
    if Halted(e) then e
    else if e.queue != [] then Inner(k, g, e.(queue := e.queue[1..]), MarkState(e.queue[0], 0))
    else Inner(k, g, e.(deferred := e.deferred[1..]), e.deferred[0])
  }

  predicate Done(e: Engine) {
    !e.panicked && e.queue == [] && e.deferred == []
  }

  predicate Halted(e: Engine) {
    e.panicked || Done(e)
  }

  ghost predicate InHeap(g: Graph, e: Engine) {
    && (forall b | b in e.queue :: b in g)
    && (forall at | at in e.deferred :: at.block in g)
  }
}
