/** What mutators' actions keep of the snapshot's references. */
module CycleSteps {
  import opened Heap
  import opened MarkState
  import opened CycleModel
  import opened CycleInvariant

  // ---- Mutators, one at a time

  lemma HandsKept(threads: seq<Mutator>, t: nat, m: Mutator)
    requires t < |threads|
    requires forall v | Holds(threads[t], v) :: Holds(m, v)
    ensures forall v | InHand(threads, v) :: InHand(threads[t := m], v)
  {
    forall v | InHand(threads, v) ensures InHand(threads[t := m], v) {
      var k :| 0 <= k < |threads| && Holds(threads[k], v);
      assert Holds(threads[t := m][k], v);
    }
  }

  lemma WonKept(threads: seq<Mutator>, t: nat, m: Mutator, moved: set<Block>)
    requires t < |threads|
    requires forall b | HasWon(threads[t], b) :: HasWon(m, b) || b in moved
    ensures forall b | WonByMutator(threads, b) :: WonByMutator(threads[t := m], b) || b in moved
  {
    forall b | WonByMutator(threads, b) && b !in moved ensures WonByMutator(threads[t := m], b) {
      var k :| 0 <= k < |threads| && HasWon(threads[k], b);
      assert HasWon(threads[t := m][k], b);
    }
  }

  lemma NoNewWon(threads: seq<Mutator>, t: nat, m: Mutator, extra: set<Block>)
    requires t < |threads|
    requires forall b | HasWon(m, b) :: HasWon(threads[t], b) || b in extra
    ensures forall b | WonByMutator(threads[t := m], b) :: WonByMutator(threads, b) || b in extra
  {
    forall b | WonByMutator(threads[t := m], b) && b !in extra ensures WonByMutator(threads, b) {
      var k :| 0 <= k < |threads| && HasWon(threads[t := m][k], b);
      assert HasWon(threads[k], b);
    }
  }

  lemma AttachHands(s: State, s': State)
    requires s'.threads == s.threads + [Mutator(Outside, [], [])]
    ensures forall v :: InHand(s.threads, v) ==> InHand(s'.threads, v)
    ensures forall b :: WonByMutator(s.threads, b) <==> WonByMutator(s'.threads, b)
  {
    forall v ensures InHand(s.threads, v) ==> InHand(s'.threads, v) {
      if k :| 0 <= k < |s.threads| && Holds(s.threads[k], v) { assert Holds(s'.threads[k], v); }
    }
    forall b ensures WonByMutator(s.threads, b) <==> WonByMutator(s'.threads, b) {
      if k :| 0 <= k < |s.threads| && HasWon(s.threads[k], b) { assert HasWon(s'.threads[k], b); }
    }
  }

  // ---- Which blocks wait to be drained

  /** A mutator buffers no premarked block: what it wins was unmarked. */
  lemma ExchangeSets(s: State, t: nat)
    requires SnapSets(s) && MutatorEnabled(s, BarrierExchange(t))
    ensures SnapSets(ExchangeMark(s, t))
  {
    var b := s.threads[t].pc.target;
    NoNewWon(s.threads, t, ExchangeMark(s, t).threads[t], if Marked(s, b) then {} else {b});
  }

  lemma PushSets(c: Config, s: State, t: nat)
    requires SnapSets(s) && MutatorEnabled(s, BarrierPush(t))
    ensures SnapSets(PushRemark(c, s, t))
  {
    NoNewWon(s.threads, t, PushRemark(c, s, t).threads[t], {});
    assert HasWon(s.threads[t], s.threads[t].pc.won);
    assert forall b | b in s.threads[t].local :: HasWon(s.threads[t], b);
  }

  lemma AllocSets(s: State, t: nat, b: Block)
    requires SnapSets(s) && s.mark.Keys == s.heap.Keys && MutatorEnabled(s, Alloc(t, b))
    ensures SnapSets(Allocate(s, t, b))
  {
    NoNewWon(s.threads, t, Allocate(s, t, b).threads[t], {});
  }

  /** Any other action of a mutator leaves marks and buffers alone. */
  ghost predicate SetsUntouched(s: State, s': State) {
    && s' == s.(heap := s'.heap, threads := s'.threads)
    && s'.heap.Keys == s.heap.Keys
    && forall b | WonByMutator(s'.threads, b) :: WonByMutator(s.threads, b)
  }

  lemma OtherSets(c: Config, s: State, a: Action)
    requires !s.phase.Crashed? && MutatorEnabled(s, a)
    requires !a.Alloc? && !a.BarrierExchange? && !a.BarrierPush?
    ensures SetsUntouched(s, Apply(c, s, a))
  {
    var s' := Apply(c, s, a);
    if a.Attach? { AttachHands(s, s'); } else { NoNewWon(s.threads, a.t, s'.threads[a.t], {}); }
  }

  lemma MutatorSets(c: Config, s: State, a: Action)
    requires SnapSets(s) && s.mark.Keys == s.heap.Keys && !s.phase.Crashed? && MutatorEnabled(s, a)
    ensures SnapSets(Apply(c, s, a))
  {
    if a.Alloc? {
      AllocSets(s, a.t, a.b);
    } else if a.BarrierExchange? {
      ExchangeSets(s, a.t);
    } else if a.BarrierPush? {
      PushSets(c, s, a.t);
    } else {
      OtherSets(c, s, a);
    }
  }

  lemma HeapShape(c: Config, s: State, a: Action)
    requires SnapShape(s) && s.hist.at.heap.Keys <= s.heap.Keys && !s.phase.Crashed? && MutatorEnabled(s, a)
    requires a.Write? || a.Alloc? || a.Describe?
    ensures SnapShape(Apply(c, s, a))
  {
    match a
    case Write(t, b, j, v) => assert Apply(c, s, a) == WriteField(s, t, b, j, v);
    case Alloc(t, b) => assert Apply(c, s, a) == Allocate(s, t, b);
    case Describe(t, b, nf, nx) =>
  }

  lemma MutatorShape(c: Config, s: State, a: Action)
    requires SnapShape(s) && s.hist.at.heap.Keys <= s.heap.Keys && !s.phase.Crashed? && MutatorEnabled(s, a)
    ensures SnapShape(Apply(c, s, a))
  {
    if a.Write? || a.Alloc? || a.Describe? { HeapShape(c, s, a); }
  }

  // ---- The references themselves

  /** A step that changes only what one mutator holds: while marking goes on it does not put down what it holds
      before a barrier, and what it won it keeps or moves. */
  lemma ReplaceMutatorSatb(s: State, t: nat, m: Mutator)
    requires Satb(s) && t < |s.threads|
    requires s.marking ==> forall v | Holds(s.threads[t], v) :: Holds(m, v)
    requires forall b | HasWon(s.threads[t], b) :: HasWon(m, b)
    ensures Satb(s.(threads := s.threads[t := m]))
  {
    if s.marking { HandsKept(s.threads, t, m); }
    WonKept(s.threads, t, m, {});
  }

  lemma AttachSatb(c: Config, s: State)
    requires Satb(s) && !s.phase.Crashed?
    ensures Satb(Apply(c, s, Attach))
  {
    AttachHands(s, Apply(c, s, Attach));
  }

  lemma WriteSatb(s: State, t: nat, b: Block, j: nat, v: Ref)
    requires Satb(s) && s.marking && s.phase.Rooting? && MutatorEnabled(s, Write(t, b, j, v))
    ensures Satb(WriteField(s, t, b, j, v))
  {
    var s' := WriteField(s, t, b, j, v);
    var m := s.threads[t].(pc := Barrier(s.heap[b].All()[j]));
    HandsKept(s.threads, t, m);
    WonKept(s.threads, t, m, {});
    forall b', j': nat, v' | SnapRef(s.hist.at, b', j', v') ensures EdgeSafe(s', b', j', v') {
      assert EdgeSafe(s, b', j', v');
      if b' == b && j' == j && !Covered(s, v') {
        assert Holds(s'.threads[t], v');
      }
    }
  }

  lemma AllocSatb(s: State, t: nat, b: Block)
    requires Satb(s) && SnapSets(s) && s.mark.Keys == s.heap.Keys && MutatorEnabled(s, Alloc(t, b))
    ensures Satb(Allocate(s, t, b))
  {
    var m := s.threads[t].(roots := [To(b)] + s.threads[t].roots);
    HandsKept(s.threads, t, m);
    WonKept(s.threads, t, m, {});
  }

  lemma DescribeSatb(c: Config, s: State, t: nat, b: Block, nf: nat, nx: nat)
    requires Satb(s) && SnapShape(s) && !s.phase.Crashed? && MutatorEnabled(s, Describe(t, b, nf, nx))
    ensures Satb(Apply(c, s, Describe(t, b, nf, nx)))
  {
  }

  lemma ExchangeSatb(s: State, t: nat)
    requires Satb(s) && MutatorEnabled(s, BarrierExchange(t))
    ensures Satb(ExchangeMark(s, t))
  {
    var b := s.threads[t].pc.target;
    var s' := ExchangeMark(s, t);
    WonKept(s.threads, t, s'.threads[t], {});
    forall v | Covered(s, v) ensures Covered(s', v) {
      if InHand(s.threads, v) && v != b {
        var k :| 0 <= k < |s.threads| && Holds(s.threads[k], v);
        assert Holds(s'.threads[k], v);
      }
    }
    if !Marked(s, b) { assert HasWon(s'.threads[t], b); }
  }

  lemma AppendRemarkSatb(s: State, t: nat)
    requires Satb(s) && MutatorEnabled(s, BarrierPush(t))
    ensures Satb(AppendRemark(s, t))
  {
    HandsKept(s.threads, t, AppendRemark(s, t).threads[t]);
    WonKept(s.threads, t, AppendRemark(s, t).threads[t], {});
  }

  lemma FlushRemarkSatb(s: State, t: nat)
    requires Satb(s) && MutatorEnabled(s, BarrierPush(t))
    ensures Satb(FlushRemark(s, t))
  {
    var m := s.threads[t];
    HandsKept(s.threads, t, FlushRemark(s, t).threads[t]);
    WonKept(s.threads, t, FlushRemark(s, t).threads[t], (set b | b in m.local) + {m.pc.won});
  }

  lemma ThreadSatb(c: Config, s: State, a: Action)
    requires Satb(s) && !s.phase.Crashed? && MutatorEnabled(s, a)
    requires a.Enter? || a.Leave? || a.Read? || a.Drop? || a.BarrierCheck?
    ensures Satb(Apply(c, s, a))
  {
    var s' := Apply(c, s, a);
    ReplaceMutatorSatb(s, a.t, s'.threads[a.t]);
    assert s' == s.(threads := s.threads[a.t := s'.threads[a.t]]);
  }

  lemma MutatorSatb(c: Config, s: State, a: Action)
    requires Satb(s) && SnapSets(s) && SnapShape(s) && Phased(s) && Tracing(s) && MutatorEnabled(s, a) && Quiet(s, a)
    ensures Satb(Apply(c, s, a))
  {
    if a.Attach? {
      AttachSatb(c, s);
    } else if a.Write? {
      WriteSatb(s, a.t, a.b, a.j, a.v);
    } else if a.Alloc? {
      AllocSatb(s, a.t, a.b);
    } else if a.Describe? {
      DescribeSatb(c, s, a.t, a.b, a.nf, a.nx);
    } else if a.BarrierExchange? {
      ExchangeSatb(s, a.t);
    } else if a.BarrierPush? {
      if |s.threads[a.t].local| + 1 == c.chunkSize { FlushRemarkSatb(s, a.t); } else { AppendRemarkSatb(s, a.t); }
    } else {
      ThreadSatb(c, s, a);
    }
  }
}
