/** Safety of runs whose mutators are quiet around the drain and in which no cycle starts with harmful premarked
    blocks. */
module CycleTheorems {
  import opened Heap
  import opened CycleModel
  import opened CycleInvariant
  import opened CycleRuns
  import opened CycleTrace
  import opened CycleAnyRun
  import opened CycleQuiet

  // ---- The start of a cycle

  lemma AccessibleIsLive(s: State, b: Block)
    requires Access(s) && Accessible(s, b)
    ensures b in s.hist.live && b in s.heap
  {
    AccessibleIsKnown(s, true, b);
  }

  lemma AccessLosesNothing(s: State)
    requires Access(s)
    ensures NothingLost(s)
  {
    forall b | Accessible(s, b) ensures b in s.heap { AccessibleIsLive(s, b); }
  }

  /** If nothing has been lost and premarked blocks are harmless, everything reachable is premarked or due. */
  lemma HarmlessSplitsLive(s: State, b: Block)
    requires NothingLost(s) && PremarkedHarmless(s) && Accessible(s, b)
    ensures DueOrPremarked(BeginCycle(s).hist.at, b)
  {
    HarmlessExactly(s.heap, MarkedBlocks(s), RefBlocks(AllRoots(s.threads)));
  }

  lemma StartGivesAccess(s: State)
    requires NothingLost(s) && Phased(s) && Calm(s) && CollectorEnabled(s, StartCycle)
    ensures Access(BeginCycle(s))
  {
    var s', roots := BeginCycle(s), RefBlocks(AllRoots(s.threads));
    var sc := ScopeOf(s', true);
    forall b | b in roots ensures Known(sc, b) { ReachedRoot(s.heap, {}, roots, b); }
    forall a, b | a in s'.hist.live && Edge(s.heap, a, b) ensures Known(sc, b) {
      ReachedStep(s.heap, {}, roots, a, b);
    }
  }

  lemma StartSpares(s: State)
    requires NothingLost(s) && PremarkedHarmless(s)
    ensures Spared(BeginCycle(s)) && SnapSpared(BeginCycle(s))
  {
    forall b | Accessible(s, b) ensures DueOrPremarked(BeginCycle(s).hist.at, b) { HarmlessSplitsLive(s, b); }
  }

  /** A cycle that starts with nothing lost and harmless premarked blocks has the invariant, whatever the cycles
      before it did. */
  lemma StartGivesInv(c: Config, s: State)
    requires QuietInv(c, s) && NothingLost(s) && PremarkedHarmless(s) && Enabled(s, StartCycle)
    ensures Inv(c, BeginCycle(s))
  {
    StepKeepsQuiet(c, s, StartCycle);
    StartGivesAccess(s);
    StartSpares(s);
  }

  // ---- One step

  /** The sweep frees no live block, and every other action frees none at all. */
  lemma StepKeepsHeap(c: Config, s: State, a: Action)
    requires Spared(s) && s.hist.live <= s.heap.Keys && Enabled(s, a) && !a.StartCycle?
    ensures Apply(c, s, a).hist.live <= Apply(c, s, a).heap.Keys
  {
    ScopeAfter(c, s, a);
    if MutatorEnabled(s, a) {
      if !a.Alloc? && !a.BarrierExchange? { MutatorLeavesRest(c, s, a); }
    } else if IsTrace(a) {
      TraceLeavesRest(c, s, a);
    }
  }

  lemma StepKeepsAccess(c: Config, s: State, a: Action)
    requires Inv(c, s) && Enabled(s, a) && !a.StartCycle?
    ensures Access(Apply(c, s, a))
  {
    StepKeepsHeap(c, s, a);
    StepKeepsNamed(c, s, true, a);
  }

  /** What is spared stays so while sweeping list, debt and marks are only added to. */
  ghost predicate Spares(s: State, s': State) {
    && s'.hist.at == s.hist.at && s'.sweepList <= s.sweepList
    && (forall b | b in s'.hist.live && b in s.sweepList :: b in s.hist.live)
    && (Tracing(s') ==> Tracing(s) && s'.rootSnap == s.rootSnap)
    && (s'.phase.Sweeping? ==> s.phase.Sweeping? && forall b | b in s'.sweepList && Marked(s, b) :: Marked(s', b))
  }

  lemma MutatorSpares(c: Config, s: State, a: Action)
    requires Bits(s) && !s.phase.Crashed? && MutatorEnabled(s, a)
    ensures s.phase.Idle? || Spares(s, Apply(c, s, a))
    ensures Apply(c, s, a).phase == s.phase
  {
    if !a.Alloc? && !a.BarrierExchange? { MutatorLeavesRest(c, s, a); }
  }

  lemma TraceSpares(c: Config, s: State, a: Action)
    requires Phased(s) && !s.phase.Crashed? && CollectorEnabled(s, a) && (IsTrace(a) || IsDrain(a))
    ensures Spares(s, Apply(c, s, a))
  {
    if IsTrace(a) { TraceLeavesRest(c, s, a); }
  }

  lemma SweepSpares(c: Config, s: State, b: Block)
    requires CollectorEnabled(s, SweepOne(b))
    ensures Spares(s, SweepBlock(s, b))
  {
  }

  /** When the drain ends every live block of the swept list is marked. */
  lemma BeginSweepSpares(c: Config, s: State)
    requires Phased(s) && Calm(s) && Snapped(s) && Spared(s) && CollectorEnabled(s, BeginSweep)
    ensures forall b | b in s.hist.live && b in s.sweepList :: Marked(s, b)
  {
    forall b | b in s.hist.live && b in s.sweepList ensures Marked(s, b) {
      if b in s.hist.at.due { DueMarkedAtSweep(c, s, b); }
    }
  }

  lemma StepKeepsSpared(c: Config, s: State, a: Action)
    requires Bits(s) && Calm(s) && Snapped(s) && Spared(s) && Enabled(s, a) && !a.StartCycle?
    ensures Spared(Apply(c, s, a))
    ensures SnapSpared(s) ==> SnapSpared(Apply(c, s, a))
  {
    if MutatorEnabled(s, a) {
      MutatorSpares(c, s, a);
    } else if IsTrace(a) || IsDrain(a) {
      TraceSpares(c, s, a);
    } else if a.BeginSweep? {
      BeginSweepSpares(c, s);
    } else if a.SweepOne? {
      SweepSpares(c, s, a.b);
    }
  }

  /** Every action keeps the invariant, if mutators are quiet around the drain and premarked blocks are harmless
      when a cycle starts. */
  lemma StepKeepsInv(c: Config, s: State, a: Action)
    requires Inv(c, s) && Enabled(s, a) && Quiet(s, a) && (a.StartCycle? ==> PremarkedHarmless(s))
    ensures Inv(c, Apply(c, s, a))
  {
    if a.StartCycle? {
      AccessLosesNothing(s);
      StartGivesInv(c, s);
    } else {
      StepKeepsQuiet(c, s, a);
      StepKeepsAccess(c, s, a);
      StepKeepsSpared(c, s, a);
    }
  }

  lemma SafeStepKeepsInv(c: Config, s: State, a: Action, s': State)
    requires Inv(c, s) && IsStep(c, SafeRun, s, a, s')
    ensures Inv(c, s')
  {
    StepKeepsInv(c, s, a);
  }

  // ---- Whole runs

  lemma InitInv(c: Config)
    requires c.Valid()
    ensures Inv(c, INIT)
  {
    InitQuiet(c);
  }

  /** The invariant holds all along every safe run. */
  lemma {:induction false} RunKeepsInv(c: Config, ss: seq<State>, acts: seq<Action>, i: nat)
    requires IsRun(c, SafeRun, ss, acts) && i <= |acts|
    ensures Inv(c, ss[i])
  {
    if i == 0 {
      InitInv(c);
    } else {
      RunKeepsInv(c, ss, acts, i - 1);
      assert StepAt(c, SafeRun, ss, acts, i - 1);
      SafeStepKeepsInv(c, ss[i - 1], acts[i - 1], ss[i]);
    }
  }

  lemma ReachableInv(c: Config, s: State)
    requires Reachable(c, SafeRun, s)
    ensures Inv(c, s)
  {
    var ss, acts :| IsRun(c, SafeRun, ss, acts) && ss[|acts|] == s;
    RunKeepsInv(c, ss, acts, |acts|);
  }

  // ---- Safety

  /** No block that a mutator can get to has been freed, whatever the interleaving. */
  lemma NothingAccessibleIsFreed(c: Config, s: State, b: Block)
    requires Reachable(c, SafeRun, s) && Accessible(s, b)
    ensures b in s.heap
  {
    ReachableInv(c, s);
    AccessibleIsLive(s, b);
  }

  lemma NobodyHolds(s: State, t: nat, b: Block)
    requires Access(s) && b !in s.hist.live && t < |s.threads|
    ensures !Holds(s.threads[t], b) && !HasWon(s.threads[t], b)
  {
    assert MutatorKnown(ScopeOf(s, true), s.threads[t]);
  }

  lemma FreedIsNotLive(c: Config, s: State, b: Block)
    requires Reachable(c, SafeRun, s) && Enabled(s, SweepOne(b)) && !Marked(s, b)
    ensures Access(s) && b !in s.hist.live
  {
    ReachableInv(c, s);
  }

  /** A step of the sweep that frees a block frees one that no mutator can get to, and that neither a
      mutator nor the collector holds. */
  lemma SweepFreesOnlyGarbage(c: Config, s: State, b: Block)
    requires Reachable(c, SafeRun, s) && Enabled(s, SweepOne(b)) && b !in SweepBlock(s, b).heap
    requires b in s.heap
    ensures !Accessible(s, b)
    ensures forall t | 0 <= t < |s.threads| :: !Holds(s.threads[t], b) && !HasWon(s.threads[t], b)
    ensures b !in s.hist.live
  {
    FreedIsNotLive(c, s, b);
    if Accessible(s, b) { AccessibleIsLive(s, b); }
    forall t | 0 <= t < |s.threads| ensures !Holds(s.threads[t], b) && !HasWon(s.threads[t], b) {
      NobodyHolds(s, t, b);
    }
  }

  /** What was reachable when the cycle started is marked when its sweep begins. */
  lemma SnapshotReachableIsMarked(c: Config, s: State, b: Block)
    requires Reachable(c, SafeRun, s) && Enabled(s, BeginSweep)
    requires Reached(s.hist.at.heap, {}, RefBlocks(s.rootSnap), b)
    ensures Marked(s, b)
  {
    ReachableInv(c, s);
    if b in s.hist.at.due { DueMarkedAtSweep(c, s, b); }
  }

  /** In the first cycle no block is premarked, so the hypothesis on premarked blocks is free. */
  lemma FirstCycleIsHarmless(c: Config, r: Rules, s: State)
    requires Reachable(c, r, s) && s.phase.Idle? && s.hist.cycles == 0
    ensures PremarkedHarmless(s)
  {
    ReachableAlways(c, r, s);
    assert MarkedBlocks(s) == {};
  }

  /** The first cycle needs no hypothesis but quiet mutators: a quiet run that starts no second cycle
      is a safe run. */
  lemma FirstCycleRunIsSafe(c: Config, ss: seq<State>, acts: seq<Action>)
    requires IsRun(c, QuietRun, ss, acts)
    requires forall i | 0 <= i < |acts| && acts[i].StartCycle? :: ss[i].hist.cycles == 0
    ensures IsRun(c, SafeRun, ss, acts)
  {
    forall i | 0 <= i < |acts| ensures StepAt(c, SafeRun, ss, acts, i) {
      assert StepAt(c, QuietRun, ss, acts, i);
      if acts[i].StartCycle? {
        RunKeepsAlways(c, QuietRun, ss, acts, i);
        assert MarkedBlocks(ss[i]) == {};
      }
    }
  }

  // ---- Progress

  lemma NeverAtFreedBlock(s: State)
    requires Access(s)
    ensures !AtFreedBlock(s)
  {
    if s.chunk != [] { assert s.chunk[0] in s.chunk; }
  }

  /** In safe runs the collector is never stuck: unless it is crashed or waiting for mutators to leave their
      sections, it has an action to take; in particular the block in hand is in the heap and its slots are there to
      be loaded. */
  lemma CollectorIsNeverStuck(c: Config, s: State)
    requires Reachable(c, SafeRun, s) && !s.phase.Crashed? && !WaitsForMutators(s)
    ensures exists a :: CollectorEnabled(s, a)
  {
    ReachableInv(c, s);
    NeverAtFreedBlock(s);
    ActsUnlessStuck(c, s);
  }
}
