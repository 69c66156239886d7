/** Runs of the step system. */
module CycleRuns {
  import opened Heap
  import opened CycleModel
  import opened CycleInvariant

  /** Which runs a statement is about: any run; runs in which one half of `Quiet` holds, that no barrier is
      under way when the flag is cleared or that no field is overwritten during the drain; runs in which both
      do; or quiet runs in which, besides, premarked blocks are harmless at every cycle start. */
  datatype Rules = AnyRun | ClearedInPeace | DrainedInPeace | QuietRun | SafeRun

  ghost predicate Permits(r: Rules, s: State, a: Action) {
    && (a.ClearFlag? && !r.AnyRun? && !r.DrainedInPeace? ==> NoBarrierInFlight(s))
    && (a.Write? && !r.AnyRun? && !r.ClearedInPeace? ==> !s.phase.Draining?)
    && (r.SafeRun? && a.StartCycle? ==> PremarkedHarmless(s))
  }

  ghost predicate IsStep(c: Config, r: Rules, s: State, a: Action, s': State) {
    Enabled(s, a) && Permits(r, s, a) && s' == Apply(c, s, a)
  }

  ghost predicate StepAt(c: Config, r: Rules, ss: seq<State>, acts: seq<Action>, i: nat)
    requires |ss| == |acts| + 1 && i < |acts|
  {
    IsStep(c, r, ss[i], acts[i], ss[i + 1])
  }

  ghost predicate IsRun(c: Config, r: Rules, ss: seq<State>, acts: seq<Action>) {
    && c.Valid()
    && |ss| == |acts| + 1
    && ss[0] == INIT
    && (forall i | 0 <= i < |acts| :: StepAt(c, r, ss, acts, i))
  }

  ghost predicate Reachable(c: Config, r: Rules, s: State) {
    exists ss, acts :: IsRun(c, r, ss, acts) && ss[|acts|] == s
  }

  lemma ReachableInit(c: Config, r: Rules)
    requires c.Valid()
    ensures Reachable(c, r, INIT)
  {
    assert IsRun(c, r, [INIT], []);
  }

  lemma ReachableStep(c: Config, r: Rules, s: State, a: Action, s': State)
    requires Reachable(c, r, s) && IsStep(c, r, s, a, s')
    ensures Reachable(c, r, s')
  {
    var ss, acts :| IsRun(c, r, ss, acts) && ss[|acts|] == s;
    var ss', acts' := ss + [s'], acts + [a];
    forall i | 0 <= i < |acts'| ensures StepAt(c, r, ss', acts', i) {
      if i < |acts| { assert StepAt(c, r, ss, acts, i); }
    }
    assert IsRun(c, r, ss', acts');
  }

  lemma RunReaches(c: Config, r: Rules, ss: seq<State>, acts: seq<Action>, i: nat)
    requires IsRun(c, r, ss, acts) && i <= |acts|
    ensures Reachable(c, r, ss[i])
  {
    var ss', acts' := ss[..i + 1], acts[..i];
    forall j | 0 <= j < i ensures StepAt(c, r, ss', acts', j) { assert StepAt(c, r, ss, acts, j); }
    assert IsRun(c, r, ss', acts');
  }
}
