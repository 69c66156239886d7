/** Garbage does not outlive two cycles, in any run whose mutators are quiet around the drain. */
module CycleGarbage {
  import opened Heap
  import opened CycleModel
  import opened CycleInvariant
  import opened CycleRuns
  import opened CycleTrace
  import opened CycleAnyRun
  import opened CycleQuiet

  /** What a cycle leaves behind of the garbage there was at its start was premarked. */
  lemma GarbageLeftWasPremarked(c: Config, s: State, b: Block)
    requires Reachable(c, QuietRun, s) && Enabled(s, Flip) && b in s.heap && b !in s.hist.live
    ensures b in s.hist.at.pre
  {
    ReachableQuiet(c, QuietRun, s);
  }

  /** While a block that was garbage when cycle `cycles` started stays in the heap, it is not live, and no mark bit
      of the next cycle protects it. */
  ghost predicate Condemned(s: State, b: Block, cycles: nat) {
    && b in s.heap
    && b !in s.hist.live
    && cycles <= s.hist.cycles <= cycles + 1
    && (s.hist.cycles == cycles ==> !s.phase.Idle?)
    && (s.hist.cycles > cycles && !s.phase.Idle? && !s.phase.Crashed? ==> b !in s.hist.at.pre)
  }

  lemma CondemnedMutatorStep(c: Config, s: State, a: Action, b: Block, cycles: nat)
    requires !s.phase.Crashed? && MutatorEnabled(s, a) && Condemned(s, b, cycles)
    ensures Condemned(Apply(c, s, a), b, cycles)
  {
    if !a.Alloc? && !a.BarrierExchange? { MutatorLeavesRest(c, s, a); }
  }

  lemma CondemnedTraceStep(c: Config, s: State, a: Action, b: Block, cycles: nat)
    requires !s.phase.Crashed? && CollectorEnabled(s, a) && Condemned(s, b, cycles)
    requires !a.StartCycle? && !a.Flip? && !a.SweepOne?
    ensures Condemned(Apply(c, s, a), b, cycles)
  {
    if IsTrace(a) { TraceLeavesRest(c, s, a); }
  }

  lemma CondemnedAtFlip(c: Config, s: State, b: Block, cycles: nat)
    requires Parity(s) && DeadBits(s) && !s.phase.Crashed? && CollectorEnabled(s, Flip) && Condemned(s, b, cycles)
    requires NoTraceLeft(s)
    ensures Condemned(Apply(c, s, Flip), b, cycles)
  {
  }

  /** Garbage that a cycle left is unmarked and still garbage when the next one starts. */
  lemma CondemnedAtStart(c: Config, s: State, b: Block, cycles: nat)
    requires Parity(s) && DeadBits(s) && Named(s, false) && CollectorEnabled(s, StartCycle) && Condemned(s, b, cycles)
    ensures Condemned(BeginCycle(s), b, cycles)
  {
    if Accessible(s, b) { AccessibleIsKnown(s, false, b); }
  }

  lemma CondemnedStep(c: Config, s: State, a: Action, b: Block, cycles: nat)
    requires QuietInv(c, s) && Enabled(s, a) && Condemned(s, b, cycles) && b in Apply(c, s, a).heap
    ensures Condemned(Apply(c, s, a), b, cycles)
  {
    if MutatorEnabled(s, a) {
      CondemnedMutatorStep(c, s, a, b, cycles);
    } else if a.StartCycle? {
      CondemnedAtStart(c, s, b, cycles);
    } else if a.Flip? {
      CondemnedAtFlip(c, s, b, cycles);
    } else if !a.SweepOne? {
      CondemnedTraceStep(c, s, a, b, cycles);
    }
  }

  lemma BecomesCondemned(c: Config, ss: seq<State>, acts: seq<Action>, i: nat, b: Block)
    requires IsRun(c, QuietRun, ss, acts) && i < |acts|
    requires acts[i] == StartCycle && b in ss[i].heap && !Accessible(ss[i], b)
    ensures Condemned(ss[i + 1], b, ss[i].hist.cycles)
  {
    assert StepAt(c, QuietRun, ss, acts, i);
  }

  lemma RunStepCondemned(c: Config, ss: seq<State>, acts: seq<Action>, k: nat, b: Block, cycles: nat)
    requires IsRun(c, QuietRun, ss, acts) && k < |acts|
    requires Condemned(ss[k], b, cycles) && b in ss[k + 1].heap
    ensures Condemned(ss[k + 1], b, cycles)
  {
    RunKeepsQuiet(c, QuietRun, ss, acts, k);
    assert StepAt(c, QuietRun, ss, acts, k);
    CondemnedStep(c, ss[k], acts[k], b, cycles);
  }

  lemma {:induction false} StaysCondemned(c: Config, ss: seq<State>, acts: seq<Action>, i: nat, k: nat, b: Block)
    requires IsRun(c, QuietRun, ss, acts) && i < k <= |acts|
    requires acts[i] == StartCycle && b in ss[i].heap && !Accessible(ss[i], b)
    requires forall m | i < m <= k :: b in ss[m].heap
    ensures Condemned(ss[k], b, ss[i].hist.cycles)
  {
    if k == i + 1 {
      BecomesCondemned(c, ss, acts, i, b);
    } else {
      StaysCondemned(c, ss, acts, i, k - 1, b);
      RunStepCondemned(c, ss, acts, k - 1, b, ss[i].hist.cycles);
    }
  }

  /** Garbage does not outlive the second cycle, whatever premarked blocks hold and even if blocks in use have been
      freed: a block no mutator can get to when a cycle starts is freed at some point before two cycles, that one
      included, have completed. */
  lemma GarbageIsFreedWithinTwoCycles(c: Config, ss: seq<State>, acts: seq<Action>, i: nat, k: nat, b: Block)
    requires IsRun(c, QuietRun, ss, acts) && i < k <= |acts|
    requires acts[i] == StartCycle && b in ss[i].heap && !Accessible(ss[i], b)
    requires ss[k].hist.cycles >= ss[i].hist.cycles + 2
    ensures exists m :: i < m <= k && b !in ss[m].heap
  {
    if forall m | i < m <= k :: b in ss[m].heap {
      StaysCondemned(c, ss, acts, i, k, b);
    }
  }
}
