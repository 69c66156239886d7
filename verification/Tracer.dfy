/** The tracing methods of the collector: mark bits and queues updated in place. */
module Tracer {
  import opened Heap
  import opened MarkState
  import opened MarkEngine
  import opened MarkInvariant
  import opened MarkTheorems

  /** What became of one reference: it is null or queued, its holder is parked, or neither queue had
      room. */
  datatype ItemOutcome = Queued | Parked | NoRoom

  datatype Outcome = Finished | Panicked | NullDereference

  class Marker {
    const caps: Caps
    var markBit: map<Block, bool>
    var gcMarked: bool
    var queue: seq<Block>
    var deferred: seq<MarkState>

    ghost function Marked(): set<Block>
      reads this
    {
      set b | b in markBit && markBit[b] == gcMarked
    }

    ghost function View(): Engine
      reads this
    {
      Engine(Marked(), queue, deferred, false)
    }

    constructor (caps: Caps)
      ensures this.caps == caps && markBit == map[] && !gcMarked && queue == [] && deferred == []
    {
      this.caps := caps;
      markBit, gcMarked, queue, deferred := map[], false, [], [];
    }

    method MarkOneItem(parent: Block, parentIndex: nat, fieldContent: Ref) returns (r: ItemOutcome)
      modifies this`queue, this`deferred
      ensures r.Queued? ==> deferred == old(deferred)
      ensures r.Queued? ==> queue == if fieldContent.To? then old(queue) + [fieldContent.block] else old(queue)
      ensures fieldContent.Null? ==> r.Queued?
      ensures fieldContent.To? ==> (r.Queued? <==> |old(queue)| < caps.queue)
      ensures !r.Queued? ==> queue == old(queue)
      ensures !r.Queued? ==> (r.Parked? <==> |old(deferred)| < caps.deferred)
      ensures r.Parked? ==> deferred == old(deferred) + [MarkState(parent, parentIndex)]
      ensures r.NoRoom? ==> deferred == old(deferred)
    {
      if fieldContent.Null? {
        return Queued;
      }
      if |queue| < caps.queue {
        queue := queue + [fieldContent.block];
        return Queued;
      }
      if |deferred| < caps.deferred {
        deferred := deferred + [MarkState(parent, parentIndex)];
        return Parked;
      }
      return NoRoom;
    }

    /** The engine's state when `marked` are the marked blocks. */
    ghost function With(marked: set<Block>): Engine
      reads this`queue, this`deferred
    {
      Engine(marked, queue, deferred, false)
    }

    /** The field loop of `doMarkInner`: where it ended, and whether that is the end. */
    method ScanFields(fields: seq<Ref>, at: MarkState, ghost marked: set<Block>)
      returns (fieldIndex: nat, r: ItemOutcome)
      requires |queue| <= caps.queue
      modifies this`queue, this`deferred
      ensures var e := MarkRefs(caps, old(With(marked)), at.block, fields, FirstSlot(|fields|, at.fieldIndex), 0);
        && (r.Queued? <==> e.1)
        && (r.NoRoom? <==> e.0.panicked)
        && (!r.NoRoom? ==> With(marked) == e.0)
      ensures r.Queued? ==> fieldIndex == SlotLabel(|fields|, at.fieldIndex, |fields|)
    {
      ghost var e := MarkRefs(caps, With(marked), at.block, fields, FirstSlot(|fields|, at.fieldIndex), 0);
      fieldIndex := at.fieldIndex;
      while fieldIndex < |fields|
        invariant at.fieldIndex <= fieldIndex && (fieldIndex <= |fields| || fieldIndex == at.fieldIndex)
        invariant |queue| <= caps.queue
        invariant e == MarkRefs(caps, With(marked), at.block, fields, FirstSlot(|fields|, fieldIndex), 0)
      {
        r := MarkOneItem(at.block, fieldIndex, fields[fieldIndex]);
        if !r.Queued? {
          return;
        }
        fieldIndex := fieldIndex + 1;
      }
      r := Queued;
    }

    /** The array loop of `doMarkInner`. It starts at the first entry even when the block is resumed. */
    method ScanFlexArray(flex: seq<Ref>, block: Block, fieldIndex: nat, ghost marked: set<Block>)
      returns (r: ItemOutcome)
      requires |queue| <= caps.queue
      modifies this`queue, this`deferred
      ensures var e := MarkRefs(caps, old(With(marked)), block, flex, 0, fieldIndex);
        && (r.Queued? <==> e.1)
        && (r.NoRoom? <==> e.0.panicked)
        && (!r.NoRoom? ==> With(marked) == e.0)
    {
      ghost var e := MarkRefs(caps, With(marked), block, flex, 0, fieldIndex);
      var i := 0;
      while i < |flex|
        invariant i <= |flex| && |queue| <= caps.queue
        invariant e == MarkRefs(caps, With(marked), block, flex, i, fieldIndex)
      {
        r := MarkOneItem(block, fieldIndex + i, flex[i]);
        if !r.Queued? {
          return;
        }
        i := i + 1;
      }
      r := Queued;
    }

    /** Visit a block, or resume one; `false` after a panic. */
    method DoMarkInner(g: Graph, at: MarkState) returns (ok: bool)
      requires at.block in g && at.block in markBit && |queue| <= caps.queue
      modifies this`markBit, this`queue, this`deferred
      ensures markBit.Keys == old(markBit.Keys)
      ensures ok <==> !Inner(caps, g, old(View()), at).panicked
      ensures ok ==> View() == Inner(caps, g, old(View()), at)
    {
      var bit := markBit[at.block];
      ghost var marked := Marked() + {at.block};
      markBit := markBit[at.block := gcMarked];
      assert Marked() == marked;
      if at.fieldIndex == 0 && bit == gcMarked {
        assert marked == old(Marked());
        return true;
      }
      assert at.fieldIndex == 0 ==> at.block !in old(Marked());
      var fieldIndex, r := ScanFields(g[at.block].fixed, at, marked);
      if r.Queued? {
        r := ScanFlexArray(g[at.block].flex, at.block, fieldIndex, marked);
      }
      return !r.NoRoom?;
    }

    /** The queues name blocks of the heap, and the mark queue has no more than its capacity. */
    ghost predicate Traceable(g: Graph)
      reads this
    {
      markBit.Keys == g.Keys && |queue| <= caps.queue && InHeap(g, View())
    }

    /** `n` rounds of the engine have led from `was` to here. */
    ghost predicate Came(g: Graph, was: Engine, n: nat)
      reads this
    {
      Traceable(g) && Leads(caps, g, was, n, View())
    }

    /** How many blocks are still to be marked. */
    ghost function Unmarked(g: Graph): nat
      reads this
    {
      |g.Keys - Marked()|
    }

    /** The block just read from a queue is the engine's next round. */
    method VisitNext(g: Graph, at: MarkState, ghost was: Engine) returns (ok: bool, ghost n: nat)
      requires NoDangling(g) && Traceable(g) && at.block in g && CanStep(caps, g, was)
      requires Step(caps, g, was) == Inner(caps, g, View(), at)
      modifies this`markBit, this`queue, this`deferred
      ensures if ok then n > 0 && Came(g, was, n) else Panics(caps, g, was)
      ensures ok ==> Marked() == old(Marked()) + {at.block}
      ensures ok && at.fieldIndex == 0 && at.block in old(Marked()) ==> queue == old(queue)
    {
      n := 1;
      LeadsOnce(caps, g, was);
      InnerStaysInHeap(caps, g, View(), at);
      ok := DoMarkInner(g, at);
    }

    /** Take a block from the mark queue. */
    method TakeFromQueue(g: Graph) returns (ok: bool, ghost n: nat)
      requires NoDangling(g) && Traceable(g) && queue != []
      modifies this`markBit, this`queue, this`deferred
      ensures if ok then Came(g, old(View()), n) else Panics(caps, g, old(View()))
      ensures ok ==> Unmarked(g) < old(Unmarked(g)) || (Unmarked(g) == old(Unmarked(g)) && |queue| < |old(queue)|)
    {
      ghost var was, marked := View(), Marked();
      var current := queue[0];
      queue := queue[1..];
      assert Marked() == marked;
      ok, n := VisitNext(g, MarkState(current, 0), was);
      if current !in marked { OneFewer(g.Keys, marked, current); } else { assert marked + {current} == marked; }
    }

    /** `processMarkQueue` always comes to an end: some rounds of the engine later the mark queue is empty, or the
        trace has panicked. */
    method ProcessMarkQueue(g: Graph) returns (ok: bool, ghost n: nat)
      requires NoDangling(g) && Traceable(g)
      modifies this`markBit, this`queue, this`deferred
      ensures if ok then Came(g, old(View()), n) && queue == [] else Panics(caps, g, old(View()))
    {
      ghost var was := View();
      n := 0;
      LeadsNowhere(caps, g, was, was);
      while queue != []
        invariant Came(g, was, n)
        decreases Unmarked(g), |queue|
      {
        ghost var before, m := View(), 0;
        ok, m := TakeFromQueue(g);
        if !ok {
          PanicsLater(caps, g, was, n, before);
          return;
        }
        LeadsFurther(caps, g, was, n, before, m, View());
        n := n + m;
      }
      ok := true;
    }

    /** Resume the first parked block and trace what it queues. */
    method ResumeOne(g: Graph) returns (ok: bool, ghost n: nat)
      requires NoDangling(g) && Traceable(g) && queue == [] && deferred != []
      modifies this`markBit, this`queue, this`deferred
      ensures if ok then n > 0 && Came(g, old(View()), n) && queue == [] else Panics(caps, g, old(View()))
    {
      ghost var was := View();
      var current := deferred[0];
      deferred := deferred[1..];
      assert current in was.deferred;
      ok, n := VisitNext(g, current, was);
      if ok {
        ghost var resumed, m := View(), 0;
        ok, m := ProcessMarkQueue(g);
        if ok { LeadsFurther(caps, g, was, n, resumed, m, View()); } else { PanicsLater(caps, g, was, n, resumed); }
        n := n + m;
      }
    }

    /** Resume parked blocks until none is left: the trace comes to its end `fin`, `n` rounds away. */
    method ProcessDeferredQueue(g: Graph, ghost n: nat, ghost fin: Engine) returns (ok: bool)
      requires NoDangling(g) && Traceable(g) && queue == []
      requires Leads(caps, g, View(), n, fin) && Halted(fin)
      modifies this`markBit, this`queue, this`deferred
      ensures if ok then markBit.Keys == g.Keys && View() == fin && Done(fin) else fin.panicked
    {
      ghost var left := n;
      while deferred != []
        invariant Traceable(g) && queue == [] && Leads(caps, g, View(), left, fin)
        decreases left
      {
        ghost var before, m := View(), 0;
        ok, m := ResumeOne(g);
        if !ok {
          PanicIsTheEnd(caps, g, before, left, fin);
          return;
        }
        LeadsThrough(caps, g, before, left, fin, m, View());
        left := left - m;
      }
      EndsHere(caps, g, View(), left, fin);
      ok := true;
    }

    /** Both queues: the trace comes to its end `fin`, `n` rounds away. */
    method ProcessQueues(g: Graph, ghost n: nat, ghost fin: Engine) returns (ok: bool)
      requires NoDangling(g) && Traceable(g) && Leads(caps, g, View(), n, fin) && Halted(fin)
      modifies this`markBit, this`queue, this`deferred
      ensures if ok then markBit.Keys == g.Keys && View() == fin && Done(fin) else fin.panicked
    {
      ghost var was, m := View(), 0;
      ok, m := ProcessMarkQueue(g);
      if ok {
        LeadsThrough(caps, g, was, n, fin, m, View());
        ok := ProcessDeferredQueue(g, n - m, fin);
      } else {
        PanicIsTheEnd(caps, g, was, n, fin);
      }
    }

    /** Trace from `root`, which is dereferenced without a check. The trace has to come to an end, by returning
        or by a panic; `MarkTheorems.DoMarkReturnsExactlyWhenArraysFit` says when it does. */
    method DoMark(g: Graph, root: Ref) returns (o: Outcome)
      requires caps.Valid() && NoDangling(g) && markBit.Keys == g.Keys && queue == [] && deferred == []
      requires root.To? ==> root.block in g && Halts(caps, Job(g, Marked(), root.block))
      modifies this`markBit, this`queue, this`deferred
      ensures o.NullDereference? <==> root.Null?
      ensures o.NullDereference? ==> markBit == old(markBit) && queue == [] && deferred == []
      ensures root.To? ==> (o.Finished? <==> Finishes(caps, Job(g, old(Marked()), root.block)))
      ensures o.Finished? ==> markBit.Keys == g.Keys && queue == [] && deferred == []
      ensures o.Finished? ==> Marked() == old(Marked()) + ReachedSet(g, old(Marked()), {root.block})
      ensures root.To? && |MultiDue(Job(g, old(Marked()), root.block))| <= caps.deferred ==> o.Finished?
    {
      if root.Null? {
        return NullDereference;
      }
      ghost var job := Job(g, Marked(), root.block);
      ghost var n, fin :| Returns(caps, job, n, fin);
      OneEnd(caps, job, n, fin);
      queue := [root.block];
      assert View() == Start(job);
      var ok := ProcessQueues(g, n, fin);
      if !ok {
        return Panicked;
      }
      return Finished;
    }
  }

  /** A round puts no block in the queues that is not in the heap. */
  lemma InnerStaysInHeap(k: Caps, g: Graph, e: Engine, at: MarkState)
    requires NoDangling(g) && InHeap(g, e) && at.block in g && |e.queue| <= k.queue && !e.panicked
    ensures InHeap(g, Inner(k, g, e, at)) && |Inner(k, g, e, at).queue| <= k.queue
  {
    forall v | To(v) in g[at.block].All() ensures v in g { assert Edge(g, at.block, v); }
    var sl := g[at.block];
    assert forall r | r in sl.fixed :: r in sl.All();
    assert forall r | r in sl.flex :: r in sl.All();
  }

  /** The trace from `e` comes to a panic. */
  ghost predicate Panics(k: Caps, g: Graph, e: Engine) {
    exists n, e' :: Leads(k, g, e, n, e') && e'.panicked
  }

  lemma PanicsLater(k: Caps, g: Graph, e0: Engine, n: nat, e: Engine)
    requires Leads(k, g, e0, n, e) && Panics(k, g, e)
    ensures Panics(k, g, e0)
  {
    var m, e' :| Leads(k, g, e, m, e') && e'.panicked;
    LeadsFurther(k, g, e0, n, e, m, e');
  }

  lemma PanicIsTheEnd(k: Caps, g: Graph, e: Engine, n: nat, fin: Engine)
    requires Leads(k, g, e, n, fin) && Halted(fin) && Panics(k, g, e)
    ensures fin.panicked
  {
    var m, e' :| Leads(k, g, e, m, e') && e'.panicked;
    LeadsThrough(k, g, e, n, fin, m, e');
    EndsHere(k, g, e', n - m, fin);
  }

  lemma OneFewer(all: set<Block>, marked: set<Block>, b: Block)
    requires b in all && b !in marked
    ensures |all - (marked + {b})| < |all - marked|
  {
    assert all - marked == (all - (marked + {b})) + {b};
  }

  /** What the end of a trace says. */
  lemma OneEnd(k: Caps, job: Job, n: nat, fin: Engine)
    requires k.Valid() && job.Valid() && Returns(k, job, n, fin)
    ensures Finishes(k, job) <==> Done(fin)
    ensures Done(fin) ==> fin.marked == job.before + ReachedSet(job.g, job.before, {job.root})
    ensures |MultiDue(job)| <= k.deferred ==> Done(fin)
  {
    if m, e :| Returns(k, job, m, e) && Done(e) { HaltsOnce(k, job.g, Start(job), n, fin, m, e); }
    if Done(fin) { DoMarkMarksExactlyTheDue(k, job, n, fin); }
    if |MultiDue(job)| <= k.deferred { DoMarkCannotPanic(k, job, n, fin); }
  }
}
