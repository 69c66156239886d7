/** Runs in which the collector fails, one for each hypothesis of the safety theorems. */
module CycleFailures {
  import opened Heap
  import opened MarkState
  import opened CycleModel
  import opened CycleInvariant
  import opened CycleRuns
  import opened CycleTheorems

  const C := Config(4, 4, 4)

  /** A state without its history. */
  function Core(s: State): State {
    s.(hist := INIT.hist)
  }

  lemma Go(r: Rules, s: State, a: Action) returns (s': State)
    requires Reachable(C, r, s) && Enabled(s, a) && Permits(r, s, a)
    ensures Reachable(C, r, s') && s' == Apply(C, s, a)
  {
    s' := Apply(C, s, a);
    ReachableStep(C, r, s, a, s');
  }

  function At(pc: MutatorPc, roots: seq<Ref>, local: seq<Block>): seq<Mutator> {
    [Mutator(pc, roots, local)]
  }

  lemma SingleRoots(pc: MutatorPc, roots: seq<Ref>, local: seq<Block>)
    ensures AllRoots(At(pc, roots, local)) == roots
  {
    var threads := At(pc, roots, local);
    assert threads[..0] == [];
    assert AllRoots(threads[..0]) == [];
  }

  /** One thread with an empty buffer leaves nothing to drain. */
  lemma DrainsNothing(r: Rules, s: State) returns (s': State)
    requires Reachable(C, r, s) && s.phase == Draining(0) && NoTraceLeft(s) && s.chunk == [] && s.remarkQueue == []
    requires |s.threads| == 1 && s.threads[0].local == []
    ensures Reachable(C, r, s') && s' == s.(phase := Sweeping)
  {
    s' := Go(r, s, EndQueue);
    s' := Go(r, s', TakeLocal);
    assert s' == s.(phase := Draining(2));
    s' := Go(r, s', BeginSweep);
  }

  // ---- A new block of an earlier cycle is taken for marked

  lemma OneBlock(r: Rules) returns (s: State)
    ensures Reachable(C, r, s)
    ensures Core(s) == INIT.(heap := map[1 := NO_SLOTS], mark := map[1 := true], threads := At(Inside, [To(1)], []))
    ensures s.hist.cycles == 0
  {
    ReachableInit(C, r);
    s := Go(r, INIT, Attach);
    assert Core(s) == INIT.(threads := At(Outside, [], []));
    s := Go(r, s, Enter(0));
    assert Core(s) == INIT.(threads := At(Inside, [], []));
    s := Go(r, s, Alloc(0, 1));
    assert [To(1)] + [] == [To(1)];
    assert s.threads == At(Inside, [To(1)], []);
  }

  lemma FirstCycleStarts() returns (s: State)
    ensures Reachable(C, QuietRun, s)
    ensures Core(s) == INIT.(
      heap := map[1 := NO_SLOTS], mark := map[1 := true], threads := At(Outside, [To(1)], []),
      marking := true, phase := Rooting(0), rootSnap := [To(1)], sweepList := {1})
    ensures s.hist.cycles == 0
  {
    s := OneBlock(QuietRun);
    s := Go(QuietRun, s, Leave(0));
    SingleRoots(Outside, [To(1)], []);
    s := Go(QuietRun, s, StartCycle);
  }

  lemma FirstCycleTraces() returns (s: State)
    ensures Reachable(C, QuietRun, s)
    ensures Core(s) == INIT.(
      heap := map[1 := NO_SLOTS], mark := map[1 := false], threads := At(Outside, [To(1)], []),
      marking := true, phase := Rooting(1), rootSnap := [To(1)], sweepList := {1})
    ensures s.hist.cycles == 0
  {
    s := FirstCycleStarts();
    ghost var core := Core(s);
    s := Go(QuietRun, s, NextRoot);
    s := Go(QuietRun, s, PopQueue);
    assert Core(s) == core.(phase := Rooting(1), work := Visit(MarkState(1, 0)));
    s := Go(QuietRun, s, VisitBlock);
    assert Core(s) == core.(phase := Rooting(1), work := Load(MarkState(1, 0)), mark := map[1 := false]);
    s := Go(QuietRun, s, LoadDescriptor);
    s := Go(QuietRun, s, ScanSlot);
  }

  lemma FirstCycleEnds() returns (s: State)
    ensures Reachable(C, QuietRun, s)
    ensures Core(s) == INIT.(
      heap := map[1 := NO_SLOTS], mark := map[1 := false], gcMarked := true, threads := At(Outside, [To(1)], []),
      rootSnap := [To(1)])
    ensures s.hist.cycles == 1
  {
    s := FirstCycleTraces();
    ghost var core := Core(s);
    s := Go(QuietRun, s, ClearFlag);
    s := DrainsNothing(QuietRun, s);
    assert Core(s) == core.(marking := false, phase := Sweeping);
    s := Go(QuietRun, s, SweepOne(1));
    assert Core(s) == core.(marking := false, phase := Sweeping, sweepList := {});
    s := Go(QuietRun, s, Flip);
  }

  const TWO: Graph := map[1 := NO_SLOTS, 2 := Slots([To(1)], [])]

  lemma NewBlockAllocated() returns (s: State)
    ensures Reachable(C, QuietRun, s)
    ensures Core(s) == INIT.(
      heap := map[1 := NO_SLOTS, 2 := NO_SLOTS], mark := map[1 := false, 2 := true], gcMarked := true,
      threads := At(Inside, [To(2), To(1)], []), rootSnap := [To(1)])
    ensures s.hist.cycles == 1
  {
    s := FirstCycleEnds();
    s := Go(QuietRun, s, Enter(0));
    assert s.threads == At(Inside, [To(1)], []);
    s := Go(QuietRun, s, Alloc(0, 2));
    assert [To(2)] + [To(1)] == [To(2), To(1)];
    assert s.threads == At(Inside, [To(2), To(1)], []);
  }

  lemma FillOneField(v: Ref)
    ensures Slots(Nulls(1), Nulls(0)) == Slots([Null], [])
    ensures Slots([Null], []).Set(0, v) == Slots([v], [])
    ensures forall u :: Slots([u], []).All() == [u] && Slots([u], []).Set(0, v) == Slots([v], [])
  {
    assert Nulls(1) == [Null] && Nulls(0) == [];
    assert [Null][0 := v] == [v];
    forall u ensures Slots([u], []).All() == [u] && Slots([u], []).Set(0, v) == Slots([v], []) {
      assert [u][0 := v] == [v];
    }
  }

  lemma NewBlockTakesOver() returns (s: State)
    ensures Reachable(C, QuietRun, s)
    ensures Core(s) == INIT.(
      heap := TWO, mark := map[1 := false, 2 := true], gcMarked := true,
      threads := At(Inside, [To(2), To(1)], []), rootSnap := [To(1)])
    ensures s.hist.cycles == 1
  {
    s := NewBlockAllocated();
    FillOneField(To(1));
    s := Go(QuietRun, s, Describe(0, 2, 1, 0));
    assert s.heap == map[1 := NO_SLOTS, 2 := Slots([Null], [])];
    s := Go(QuietRun, s, Write(0, 2, 0, To(1)));
    assert s.heap == TWO;
    assert s.threads == At(Barrier(Null), [To(2), To(1)], []);
    s := Go(QuietRun, s, BarrierCheck(0));
  }

  lemma OldRootDropped() returns (s: State)
    ensures Reachable(C, QuietRun, s)
    ensures Core(s) == INIT.(
      heap := TWO, mark := map[1 := false, 2 := true], gcMarked := true,
      threads := At(Outside, [To(2)], []), rootSnap := [To(1)])
    ensures s.hist.cycles == 1
  {
    s := NewBlockTakesOver();
    s := Go(QuietRun, s, Drop(0, 1));
    assert Without([To(2), To(1)], 1) == [To(2)];
    assert s.threads == At(Barrier(To(1)), [To(2)], []);
    s := Go(QuietRun, s, BarrierCheck(0));
    assert s.threads == At(Inside, [To(2)], []);
    s := Go(QuietRun, s, Leave(0));
  }

  lemma SecondCycleStarts() returns (s: State)
    ensures Reachable(C, QuietRun, s)
    ensures Core(s) == INIT.(
      heap := TWO, mark := map[1 := false, 2 := true], gcMarked := true, mutMarked := true,
      marking := true, phase := Rooting(0), rootSnap := [To(2)], sweepList := {1, 2},
      threads := At(Outside, [To(2)], []))
    ensures s.hist.cycles == 1
  {
    s := OldRootDropped();
    SingleRoots(Outside, [To(2)], []);
    s := Go(QuietRun, s, StartCycle);
    assert s.sweepList == {1, 2};
  }

  lemma SecondCycleSkipsNewBlock() returns (s: State)
    ensures Reachable(C, QuietRun, s)
    ensures Core(s) == INIT.(
      heap := TWO, mark := map[1 := false, 2 := true], gcMarked := true, mutMarked := true,
      marking := true, phase := Rooting(1), rootSnap := [To(2)], sweepList := {1, 2},
      threads := At(Outside, [To(2)], []))
    ensures s.hist.cycles == 1
  {
    s := SecondCycleStarts();
    s := Go(QuietRun, s, NextRoot);
    s := Go(QuietRun, s, PopQueue);
    assert s.queue == [] && s.work == Visit(MarkState(2, 0));
    s := Go(QuietRun, s, VisitBlock);
    assert s.mark == map[1 := false, 2 := true];
  }

  lemma SecondCycleDrains() returns (s: State)
    ensures Reachable(C, QuietRun, s) && s.hist.cycles == 1 && s.phase == Sweeping && s.sweepList == {1, 2}
    ensures s.heap == TWO && s.mark == map[1 := false, 2 := true] && s.gcMarked
    ensures s.threads == At(Outside, [To(2)], [])
  {
    s := SecondCycleSkipsNewBlock();
    s := Go(QuietRun, s, ClearFlag);
    s := DrainsNothing(QuietRun, s);
  }

  lemma SecondCycleSweeps() returns (s: State)
    ensures Reachable(C, QuietRun, s) && s.hist.cycles == 1
    ensures s.heap == map[2 := TWO[2]] && s.threads == At(Outside, [To(2)], [])
  {
    s := SecondCycleDrains();
    s := Go(QuietRun, s, SweepOne(1));
    assert s.heap == map[2 := TWO[2]];
  }

  /** The safety theorem fails from the second cycle on without its hypothesis on premarked blocks: in
      this quiet run of one thread, block 2 is allocated after the first cycle, becomes the only holder
      of block 1, and the second cycle takes it for marked and frees block 1 from under it. */
  lemma SecondCycleFreesReachableBlock() returns (s: State)
    ensures Reachable(C, QuietRun, s) && s.hist.cycles == 1
    ensures Accessible(s, 1) && 1 !in s.heap
  {
    s := SecondCycleSweeps();
    SingleRoots(Outside, [To(2)], []);
    assert To(1) in s.heap[2].All();
    assert IsPath(s.heap, {}, RefBlocks(AllRoots(s.threads)), [2, 1]);
  }

  // ---- A field overwritten while remark buffers are drained

  const PAIR: Graph := map[1 := Slots([To(2)], []), 2 := NO_SLOTS]

  lemma HolderDescribed(r: Rules) returns (s: State)
    ensures Reachable(C, r, s)
    ensures Core(s) == INIT.(
      heap := map[1 := Slots([Null], [])], mark := map[1 := true], threads := At(Inside, [To(1)], []))
    ensures s.hist.cycles == 0
  {
    s := OneBlock(r);
    FillOneField(Null);
    s := Go(r, s, Describe(0, 1, 1, 0));
    assert s.heap == map[1 := Slots([Null], [])];
  }

  lemma TargetAllocated(r: Rules) returns (s: State)
    ensures Reachable(C, r, s)
    ensures Core(s) == INIT.(
      heap := map[1 := Slots([Null], []), 2 := NO_SLOTS], mark := map[1 := true, 2 := true],
      threads := At(Inside, [To(2), To(1)], []))
    ensures s.hist.cycles == 0
  {
    s := HolderDescribed(r);
    s := Go(r, s, Alloc(0, 2));
    assert [To(2)] + [To(1)] == [To(2), To(1)];
    assert s.threads == At(Inside, [To(2), To(1)], []);
    assert s.mark == map[1 := true, 2 := true];
    assert s.heap == map[1 := Slots([Null], []), 2 := NO_SLOTS];
  }

  lemma PairAllocated(r: Rules) returns (s: State)
    ensures Reachable(C, r, s)
    ensures Core(s) == INIT.(
      heap := PAIR, mark := map[1 := true, 2 := true], threads := At(Inside, [To(2), To(1)], []))
    ensures s.hist.cycles == 0
  {
    s := TargetAllocated(r);
    FillOneField(To(2));
    s := Go(r, s, Write(0, 1, 0, To(2)));
    assert s.heap == PAIR;
    assert s.threads == At(Barrier(Null), [To(2), To(1)], []);
    s := Go(r, s, BarrierCheck(0));
  }

  lemma PairLeft(r: Rules) returns (s: State)
    ensures Reachable(C, r, s)
    ensures Core(s) == INIT.(
      heap := PAIR, mark := map[1 := true, 2 := true], threads := At(Outside, [To(1)], []))
    ensures s.hist.cycles == 0
  {
    s := PairAllocated(r);
    s := Go(r, s, Drop(0, 0));
    assert Without([To(2), To(1)], 0) == [To(1)];
    assert s.threads == At(Barrier(To(2)), [To(1)], []);
    s := Go(r, s, BarrierCheck(0));
    assert s.threads == At(Inside, [To(1)], []);
    s := Go(r, s, Leave(0));
  }

  lemma PairSnapshot(r: Rules) returns (s: State)
    ensures Reachable(C, r, s)
    ensures Core(s) == INIT.(
      heap := PAIR, mark := map[1 := true, 2 := true], threads := At(Outside, [To(1)], []),
      marking := true, phase := Rooting(0), rootSnap := [To(1)], sweepList := {1, 2})
    ensures s.hist.cycles == 0
  {
    s := PairLeft(r);
    SingleRoots(Outside, [To(1)], []);
    s := Go(r, s, StartCycle);
    assert s.sweepList == {1, 2};
  }

  lemma TargetIsRead() returns (s: State)
    ensures Reachable(C, ClearedInPeace, s)
    ensures Core(s) == INIT.(
      heap := PAIR, mark := map[1 := true, 2 := true], threads := At(Exchange(1), [To(2), To(1)], []),
      marking := true, phase := Rooting(0), rootSnap := [To(1)], sweepList := {1, 2})
    ensures s.hist.cycles == 0
  {
    s := PairSnapshot(ClearedInPeace);
    s := Go(ClearedInPeace, s, Enter(0));
    assert s.threads == At(Inside, [To(1)], []);
    FillOneField(To(2));
    s := Go(ClearedInPeace, s, Read(0, 1, 0));
    assert [To(2)] + [To(1)] == [To(2), To(1)];
    assert s.threads == At(Barrier(To(1)), [To(2), To(1)], []);
    s := Go(ClearedInPeace, s, BarrierCheck(0));
  }

  lemma HolderIsBuffered() returns (s: State)
    ensures Reachable(C, ClearedInPeace, s)
    ensures Core(s) == INIT.(
      heap := PAIR, mark := map[1 := false, 2 := true], threads := At(Inside, [To(2), To(1)], [1]),
      marking := true, phase := Rooting(0), rootSnap := [To(1)], sweepList := {1, 2})
    ensures s.hist.cycles == 0
  {
    s := TargetIsRead();
    s := Go(ClearedInPeace, s, BarrierExchange(0));
    assert s.mark == map[1 := false, 2 := true];
    assert s.threads == At(Push(1), [To(2), To(1)], []);
    s := Go(ClearedInPeace, s, BarrierPush(0));
    assert [] + [1] == [1];
    assert s.threads == At(Inside, [To(2), To(1)], [1]);
  }

  lemma HolderIsPopped() returns (s: State)
    ensures Reachable(C, ClearedInPeace, s)
    ensures Core(s) == INIT.(
      heap := PAIR, mark := map[1 := false, 2 := true], threads := At(Inside, [To(2), To(1)], [1]),
      marking := true, phase := Rooting(1), rootSnap := [To(1)], sweepList := {1, 2},
      work := Visit(MarkState(1, 0)))
    ensures s.hist.cycles == 0
  {
    s := HolderIsBuffered();
    s := Go(ClearedInPeace, s, NextRoot);
    s := Go(ClearedInPeace, s, PopQueue);
    assert s.queue == [] && s.work == Visit(MarkState(1, 0));
  }

  lemma HolderIsSkipped() returns (s: State)
    ensures Reachable(C, ClearedInPeace, s)
    ensures Core(s) == INIT.(
      heap := PAIR, mark := map[1 := false, 2 := true], threads := At(Inside, [To(2), To(1)], [1]),
      phase := Draining(0), rootSnap := [To(1)], sweepList := {1, 2})
    ensures s.hist.cycles == 0
  {
    s := HolderIsPopped();
    s := Go(ClearedInPeace, s, VisitBlock);
    assert s.mark == map[1 := false, 2 := true];
    s := Go(ClearedInPeace, s, ClearFlag);
  }

  const EMPTIED: Graph := map[1 := Slots([Null], []), 2 := NO_SLOTS]

  lemma HolderIsEmptied() returns (s: State)
    ensures Reachable(C, ClearedInPeace, s)
    ensures Core(s) == INIT.(
      heap := EMPTIED, mark := map[1 := false, 2 := true], threads := At(Inside, [To(2), To(1)], [1]),
      phase := Draining(0), rootSnap := [To(1)], sweepList := {1, 2})
    ensures s.hist.cycles == 0
  {
    s := HolderIsSkipped();
    FillOneField(Null);
    s := Go(ClearedInPeace, s, Write(0, 1, 0, Null));
    assert s.heap == EMPTIED;
    assert s.threads == At(Barrier(To(2)), [To(2), To(1)], [1]);
    s := Go(ClearedInPeace, s, BarrierCheck(0));
    assert s.threads == At(Inside, [To(2), To(1)], [1]);
  }

  lemma HolderIsDrained() returns (s: State)
    ensures Reachable(C, ClearedInPeace, s)
    ensures Core(s) == INIT.(
      heap := EMPTIED, mark := map[1 := true, 2 := true], threads := At(Inside, [To(2), To(1)], []),
      phase := Draining(2), queue := [1], rootSnap := [To(1)], sweepList := {1, 2})
    ensures s.hist.cycles == 0
  {
    s := HolderIsEmptied();
    s := Go(ClearedInPeace, s, EndQueue);
    s := Go(ClearedInPeace, s, TakeLocal);
    assert s.threads == At(Inside, [To(2), To(1)], []);
    s := Go(ClearedInPeace, s, DrainOne);
    assert s.mark == map[1 := true, 2 := true];
  }

  lemma TargetIsMissed() returns (s: State)
    ensures Reachable(C, ClearedInPeace, s)
    ensures Core(s) == INIT.(
      heap := EMPTIED, mark := map[1 := false, 2 := true], threads := At(Inside, [To(2), To(1)], []),
      phase := Draining(2), rootSnap := [To(1)], sweepList := {1, 2})
    ensures s.hist.cycles == 0
  {
    s := HolderIsDrained();
    ghost var core := Core(s);
    s := Go(ClearedInPeace, s, PopQueue);
    assert Core(s) == core.(queue := [], work := Visit(MarkState(1, 0)));
    s := Go(ClearedInPeace, s, VisitBlock);
    assert s.mark == map[1 := false, 2 := true];
    s := Go(ClearedInPeace, s, LoadDescriptor);
    assert s.work == Scan(MarkState(1, 0), 0, 1, 0);
    s := Go(ClearedInPeace, s, ScanSlot);
    assert s.work == Scan(MarkState(1, 0), 1, 1, 0);
    s := Go(ClearedInPeace, s, ScanSlot);
  }

  /** The safety theorem fails without its hypothesis that no field is overwritten during the drain, even if no
      barrier is under way when the flag is cleared: a field of a buffered block is overwritten before the
      block is drained, no barrier runs, and the block the field held is freed in the very first cycle
      although the thread has a root to it. */
  lemma WriteDuringDrainFreesRootedBlock() returns (s: State)
    ensures Reachable(C, ClearedInPeace, s)
    ensures s.threads != [] && To(2) in s.threads[0].roots && Accessible(s, 2) && 2 !in s.heap
    ensures s.hist.cycles == 0
  {
    s := TargetIsMissed();
    s := Go(ClearedInPeace, s, BeginSweep);
    s := Go(ClearedInPeace, s, SweepOne(2));
    SingleRoots(Inside, [To(2), To(1)], []);
    assert To(2) in AllRoots(s.threads);
    ReachedRoot(s.heap, {}, RefBlocks(AllRoots(s.threads)), 2);
  }

  // ---- The flag cleared while a barrier is under way

  lemma HolderIsMarked() returns (s: State)
    ensures Reachable(C, DrainedInPeace, s)
    ensures Core(s) == INIT.(
      heap := PAIR, mark := map[1 := false, 2 := true], threads := At(Outside, [To(1)], []),
      marking := true, phase := Rooting(1), rootSnap := [To(1)], sweepList := {1, 2}, work := Load(MarkState(1, 0)))
    ensures s.hist.cycles == 0
  {
    s := PairSnapshot(DrainedInPeace);
    s := Go(DrainedInPeace, s, NextRoot);
    s := Go(DrainedInPeace, s, PopQueue);
    assert s.queue == [] && s.work == Visit(MarkState(1, 0));
    s := Go(DrainedInPeace, s, VisitBlock);
    assert s.mark == map[1 := false, 2 := true];
  }

  lemma HolderIsLoaded() returns (s: State)
    ensures Reachable(C, DrainedInPeace, s)
    ensures Core(s) == INIT.(
      heap := PAIR, mark := map[1 := false, 2 := true], threads := At(Barrier(To(1)), [To(2), To(1)], []),
      marking := true, phase := Rooting(1), rootSnap := [To(1)], sweepList := {1, 2},
      work := Scan(MarkState(1, 0), 0, 1, 0))
    ensures s.hist.cycles == 0
  {
    s := HolderIsMarked();
    s := Go(DrainedInPeace, s, Enter(0));
    assert s.threads == At(Inside, [To(1)], []);
    s := Go(DrainedInPeace, s, LoadDescriptor);
    FillOneField(To(2));
    s := Go(DrainedInPeace, s, Read(0, 1, 0));
    assert [To(2)] + [To(1)] == [To(2), To(1)];
    assert s.threads == At(Barrier(To(1)), [To(2), To(1)], []);
  }

  lemma HolderIsKept() returns (s: State)
    ensures Reachable(C, DrainedInPeace, s)
    ensures Core(s) == INIT.(
      heap := PAIR, mark := map[1 := false, 2 := true], threads := At(Inside, [To(2), To(1)], []),
      marking := true, phase := Rooting(1), rootSnap := [To(1)], sweepList := {1, 2},
      work := Scan(MarkState(1, 0), 0, 1, 0))
    ensures s.hist.cycles == 0
  {
    s := HolderIsLoaded();
    s := Go(DrainedInPeace, s, BarrierCheck(0));
    assert s.threads == At(Exchange(1), [To(2), To(1)], []);
    s := Go(DrainedInPeace, s, BarrierExchange(0));
    assert s.mark == map[1 := false, 2 := true] && s.threads == At(Inside, [To(2), To(1)], []);
  }

  lemma HolderIsEmptiedEarly() returns (s: State)
    ensures Reachable(C, DrainedInPeace, s)
    ensures Core(s) == INIT.(
      heap := EMPTIED, mark := map[1 := false, 2 := true], threads := At(Barrier(To(2)), [To(2), To(1)], []),
      marking := true, phase := Rooting(1), rootSnap := [To(1)], sweepList := {1, 2},
      work := Scan(MarkState(1, 0), 0, 1, 0))
    ensures s.hist.cycles == 0
  {
    s := HolderIsKept();
    FillOneField(Null);
    s := Go(DrainedInPeace, s, Write(0, 1, 0, Null));
    assert s.heap == EMPTIED;
    assert s.threads == At(Barrier(To(2)), [To(2), To(1)], []);
  }

  lemma FlagClearedTooSoon() returns (s: State)
    ensures Reachable(C, DrainedInPeace, s)
    ensures Core(s) == INIT.(
      heap := EMPTIED, mark := map[1 := false, 2 := true], threads := At(Barrier(To(2)), [To(2), To(1)], []),
      phase := Draining(0), rootSnap := [To(1)], sweepList := {1, 2})
    ensures s.hist.cycles == 0
  {
    s := HolderIsEmptiedEarly();
    s := Go(DrainedInPeace, s, ScanSlot);
    assert s.work == Scan(MarkState(1, 0), 1, 1, 0);
    s := Go(DrainedInPeace, s, ScanSlot);
    s := Go(DrainedInPeace, s, ClearFlag);
  }

  /** The safety theorem fails without its hypothesis that no barrier is under way when the flag is cleared, even
      if no field is overwritten during the drain: the barrier finds the flag cleared, and the block it was to
      keep is freed in the very first cycle although the thread has a root to it. */
  lemma BarrierUnderWayFreesRootedBlock() returns (s: State)
    ensures Reachable(C, DrainedInPeace, s)
    ensures s.threads != [] && To(2) in s.threads[0].roots && Accessible(s, 2) && 2 !in s.heap
    ensures s.hist.cycles == 0
  {
    s := FlagClearedTooSoon();
    s := Go(DrainedInPeace, s, BarrierCheck(0));
    assert s.threads == At(Inside, [To(2), To(1)], []);
    s := DrainsNothing(DrainedInPeace, s);
    s := Go(DrainedInPeace, s, SweepOne(2));
    SingleRoots(Inside, [To(2), To(1)], []);
    assert To(2) in AllRoots(s.threads);
    ReachedRoot(s.heap, {}, RefBlocks(AllRoots(s.threads)), 2);
  }

  // ---- A null root

  lemma NullIsRooted() returns (s: State)
    ensures Reachable(C, SafeRun, s) && s.hist.cycles == 0 && s.phase.Idle?
    ensures !s.marking && NoTraceLeft(s) && s.threads == At(Barrier(To(1)), [Null, To(1)], [])
  {
    s := HolderDescribed(SafeRun);
    FillOneField(Null);
    s := Go(SafeRun, s, Read(0, 1, 0));
    assert [Null] + [To(1)] == [Null, To(1)];
  }

  lemma NullRootStays() returns (s: State)
    ensures Reachable(C, SafeRun, s) && s.hist.cycles == 0 && s.phase.Idle?
    ensures NoTraceLeft(s) && s.threads == At(Outside, [Null, To(1)], [])
  {
    s := NullIsRooted();
    s := Go(SafeRun, s, BarrierCheck(0));
    assert s.threads == At(Inside, [Null, To(1)], []);
    s := Go(SafeRun, s, Leave(0));
  }

  lemma NullIsInSnapshot() returns (s: State)
    ensures Reachable(C, SafeRun, s) && s.phase == Rooting(0) && s.rootSnap == [Null, To(1)] && NoTraceLeft(s)
  {
    s := NullRootStays();
    SingleRoots(Outside, [Null, To(1)], []);
    FirstCycleIsHarmless(C, SafeRun, s);
    s := Go(SafeRun, s, StartCycle);
  }

  /** A null root makes the collector dereference null, and reading an empty field makes one. */
  lemma ReadOfEmptyFieldCrashesCollector() returns (s: State)
    ensures Reachable(C, SafeRun, s) && s.phase.Crashed?
  {
    s := NullIsInSnapshot();
    s := Go(SafeRun, s, NextRoot);
  }
}
