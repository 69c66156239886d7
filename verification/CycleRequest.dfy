/** Asking the collector's thread for a cycle and waiting for it: a one-slot mailbox, a flag that coalesces
    requests and a counter of completed cycles. What runs under one mutex is one step; shutdown is outside. */
module CycleRequest {

  type Thread = nat

  /** A caller of `gc_start_cycle_async` has set the flag and not yet filled the slot, or has its answer, the
      counter's value `saved`; a caller of `gc_wait_cycle` sleeps until it is woken, or returns. */
  datatype Caller =
    | Delivering(saved: nat)
    | Answered(saved: nat)
    | Sleeping(saved: nat)
    | Woken(saved: nat)
    | Returned(saved: nat)
    | TimedOut(saved: nat)

  /** The collector's thread is about to look at the slot, asleep (and it may be roused for no reason), in a cycle,
      or past the end of one. */
  datatype Collector = Looking | Asleep | Running | Finishing

  datatype State = State(
    invoked: bool, cycleID: nat, slotFull: bool, collector: Collector, callers: map<Thread, Caller>, accepted: nat)

  const START := State(false, 0, false, Looking, map[], 0)

  datatype Action =
    | Request(t: Thread)
    | Deliver(t: Thread)
    | Wait(t: Thread)
    | WakeUp(t: Thread)
    | Recheck(t: Thread)
    | TimeOut(t: Thread)
    | Forget(t: Thread)
    | Look
    | Rouse
    | Complete
    | Loop

  ghost predicate Enabled(s: State, a: Action) {
    match a
    case Request(t) => t !in s.callers
    case Deliver(t) => t in s.callers && s.callers[t].Delivering?
    case Wait(t) => t in s.callers && s.callers[t].Answered?
    case WakeUp(t) => t in s.callers && s.callers[t].Sleeping?
    case Recheck(t) => t in s.callers && s.callers[t].Woken?
    case TimeOut(t) => t in s.callers && s.callers[t].Sleeping?
    case Forget(t) => t in s.callers && !s.callers[t].Delivering? && !s.callers[t].Sleeping? && !s.callers[t].Woken?
    case Look => s.collector == Looking
    case Rouse => s.collector == Asleep
    case Complete => s.collector == Running
    case Loop => s.collector == Finishing
  }

  /** The waiting loop's test, under the mutex that the sleep releases. */
  function Check(s: State, saved: nat): Caller {
    if s.cycleID == saved then Sleeping(saved) else Returned(saved)
  }

  function Wake(c: Caller): Caller {
    if c.Sleeping? then Woken(c.saved) else c
  }

  ghost function Apply(s: State, a: Action): State
    requires Enabled(s, a)
  {
    match a
    case Request(t) =>
      if s.invoked then s.(callers := s.callers[t := Answered(s.cycleID)])
      else s.(invoked := true, callers := s.callers[t := Delivering(s.cycleID)], accepted := s.accepted + 1)
    case Deliver(t) =>
      s.(slotFull := true, collector := if s.collector == Asleep then Looking else s.collector,
         callers := s.callers[t := Answered(s.callers[t].saved)])
    case Wait(t) => s.(callers := s.callers[t := Check(s, s.callers[t].saved)])
    case WakeUp(t) => s.(callers := s.callers[t := Wake(s.callers[t])])
    case Recheck(t) => s.(callers := s.callers[t := Check(s, s.callers[t].saved)])
    case TimeOut(t) => s.(callers := s.callers[t := TimedOut(s.callers[t].saved)])
    case Forget(t) => s.(callers := s.callers - {t})
    case Look => if s.slotFull then s.(slotFull := false, collector := Running) else s.(collector := Asleep)
    case Rouse => s.(collector := Looking)
    case Complete =>
      s.(invoked := false, cycleID := s.cycleID + 1, collector := Finishing,
         callers := map t | t in s.callers :: Wake(s.callers[t]))
    case Loop => s.(collector := Looking)
  }

  // ---- Exactly one start

  ghost predicate InTransit(s: State, t: Thread) {
    t in s.callers && s.callers[t].Delivering?
  }

  /** With the flag set, exactly one start is with a caller, in the slot or running; without it, none is. */
  ghost predicate OneStart(s: State) {
    && (s.slotFull ==> s.invoked && s.collector != Running)
    && (s.collector == Running ==> s.invoked)
    && (forall t | InTransit(s, t) :: s.invoked && !s.slotFull && s.collector != Running)
    && (forall t, t' | InTransit(s, t) && InTransit(s, t') :: t == t')
    && (s.invoked ==> s.slotFull || s.collector == Running || exists t :: InTransit(s, t))
  }

  /** The counter has passed a caller's saved value, or the flag is set; no one sleeps through a completion. */
  ghost predicate CallerOk(s: State, c: Caller) {
    && c.saved <= s.cycleID
    && (c.saved == s.cycleID && !c.Returned? && !c.TimedOut? ==> s.invoked)
    && (c.Sleeping? ==> c.saved == s.cycleID)
    && (c.Delivering? ==> c.saved == s.cycleID)
    && (c.Returned? ==> c.saved < s.cycleID)
  }

  ghost predicate Inv(s: State) {
    && OneStart(s)
    && s.accepted == s.cycleID + (if s.invoked then 1 else 0)
    && (s.collector == Asleep ==> !s.slotFull)
    && forall t | t in s.callers :: CallerOk(s, s.callers[t])
  }

  lemma StepKeepsOneStart(s: State, a: Action)
    requires Inv(s) && Enabled(s, a)
    ensures OneStart(Apply(s, a))
  {
    var s' := Apply(s, a);
    assert forall t | t in s'.callers && !(a.Request? && a.t == t) :: InTransit(s', t) ==> InTransit(s, t);
    assert a.Deliver? ==> InTransit(s, a.t) && forall t :: !InTransit(s', t);
    if a.Request? && !s.invoked {
      assert InTransit(s', a.t);
    } else if t :| InTransit(s, t) {
      assert a.Deliver? || InTransit(s', t);
    }
  }

  lemma StepKeepsInv(s: State, a: Action)
    requires Inv(s) && Enabled(s, a)
    ensures Inv(Apply(s, a))
  {
    StepKeepsOneStart(s, a);
    var s' := Apply(s, a);
    forall t | t in s'.callers ensures CallerOk(s', s'.callers[t]) {
      if t in s.callers { assert CallerOk(s, s.callers[t]); }
      if a.Complete? { assert s'.callers[t] == Wake(s.callers[t]) && !InTransit(s, t); }
    }
  }

  // ---- Runs

  ghost predicate IsRun(ss: seq<State>, acts: seq<Action>) {
    && |ss| == |acts| + 1 && ss[0] == START
    && forall k | 0 <= k < |acts| :: StepAt(ss, acts, k)
  }

  ghost predicate StepAt(ss: seq<State>, acts: seq<Action>, k: nat)
    requires k < |acts| < |ss|
  {
    Enabled(ss[k], acts[k]) && ss[k + 1] == Apply(ss[k], acts[k])
  }

  lemma {:induction false} RunKeepsInv(ss: seq<State>, acts: seq<Action>, k: nat)
    requires IsRun(ss, acts) && k <= |acts|
    ensures Inv(ss[k])
  {
    if k > 0 {
      RunKeepsInv(ss, acts, k - 1);
      assert StepAt(ss, acts, k - 1);
      StepKeepsInv(ss[k - 1], acts[k - 1]);
    }
  }

  /** Over any run: a caller that still waits for the present count has a start under way, and exactly one
      start is under way whenever the flag is set; a start is never put over another; completed cycles never
      outnumber accepted requests and lag by at most the one under way; and neither the collector's thread nor a
      caller sleeps through what it waits for. */
  lemma OneStartAtATime(ss: seq<State>, acts: seq<Action>, k: nat)
    requires IsRun(ss, acts) && k <= |acts|
    ensures OneStart(ss[k])
    ensures forall t | t in ss[k].callers && ss[k].callers[t].saved == ss[k].cycleID
      && !ss[k].callers[t].TimedOut? :: ss[k].invoked
    ensures k < |acts| && acts[k].Deliver? ==> !ss[k].slotFull && ss[k].collector != Running
    ensures ss[k].accepted == ss[k].cycleID + if ss[k].invoked then 1 else 0
    ensures ss[k].collector == Asleep ==> !ss[k].slotFull
    ensures forall t | t in ss[k].callers && ss[k].callers[t].Sleeping? :: ss[k].callers[t].saved == ss[k].cycleID
  {
    RunKeepsInv(ss, acts, k);
    assert forall t | t in ss[k].callers :: CallerOk(ss[k], ss[k].callers[t]);
    if k < |acts| && acts[k].Deliver? {
      assert StepAt(ss, acts, k) && InTransit(ss[k], acts[k].t);
    }
    forall t | t in ss[k].callers && ss[k].callers[t].saved == ss[k].cycleID && !ss[k].callers[t].TimedOut?
      ensures ss[k].invoked
    {
      assert CallerOk(ss[k], ss[k].callers[t]);
    }
  }

  // ---- What a wait's return means

  ghost predicate CompletesIn(acts: seq<Action>, j: nat, k: nat) {
    exists i :: j <= i < k && i < |acts| && acts[i].Complete?
  }

  lemma CompletesInLast(acts: seq<Action>, j: nat, k: nat)
    requires j < k <= |acts|
    ensures CompletesIn(acts, j, k) <==> CompletesIn(acts, j, k - 1) || acts[k - 1].Complete?
  {
    if i :| j <= i < k - 1 && i < |acts| && acts[i].Complete? {
      assert j <= i < k && i < |acts| && acts[i].Complete?;
    } else if acts[k - 1].Complete? {
      assert j <= k - 1 < k && k - 1 < |acts| && acts[k - 1].Complete?;
    }
  }

  lemma {:induction false} OnlyCompletionsCount(ss: seq<State>, acts: seq<Action>, j: nat, k: nat)
    requires IsRun(ss, acts) && j <= k <= |acts|
    ensures ss[j].cycleID <= ss[k].cycleID
    ensures ss[j].cycleID < ss[k].cycleID <==> CompletesIn(acts, j, k)
  {
    if j < k {
      OnlyCompletionsCount(ss, acts, j, k - 1);
      assert StepAt(ss, acts, k - 1);
      CompletesInLast(acts, j, k);
    }
  }

  /** The thread makes no other call between these steps. */
  ghost predicate SameCall(acts: seq<Action>, t: Thread, j: nat, k: nat)
    requires j <= k <= |acts|
  {
    forall i | j < i < k :: acts[i] != Forget(t)
  }

  lemma {:induction false} SavedIsKept(ss: seq<State>, acts: seq<Action>, t: Thread, j: nat, k: nat)
    requires IsRun(ss, acts) && j < k <= |acts| && acts[j] == Request(t) && SameCall(acts, t, j, k)
    ensures t in ss[k].callers && ss[k].callers[t].saved == ss[j].cycleID
  {
    assert StepAt(ss, acts, k - 1);
    if j < k - 1 {
      SavedIsKept(ss, acts, t, j, k - 1);
      assert acts[k - 1] != Forget(t);
    }
  }

  /** A wait returns, other than by its deadline, only after a completion later than its request. */
  lemma ReturnsAfterACompletion(ss: seq<State>, acts: seq<Action>, t: Thread, j: nat, k: nat)
    requires IsRun(ss, acts) && j < k <= |acts| && acts[j] == Request(t) && SameCall(acts, t, j, k)
    requires t in ss[k].callers && ss[k].callers[t].Returned?
    ensures CompletesIn(acts, j + 1, k)
  {
    SavedIsKept(ss, acts, t, j, k);
    RunKeepsInv(ss, acts, k);
    assert CallerOk(ss[k], ss[k].callers[t]);
    OnlyCompletionsCount(ss, acts, j + 1, k);
    assert StepAt(ss, acts, j);
  }

  /** A wait that looks at the counter returns at once exactly if a cycle has completed since its request, and goes
      to sleep otherwise; its deadline has no part in that. */
  lemma CompletionEndsTheWait(ss: seq<State>, acts: seq<Action>, t: Thread, j: nat, k: nat)
    requires IsRun(ss, acts) && j < k < |acts| && acts[j] == Request(t) && SameCall(acts, t, j, k)
    requires acts[k] == Wait(t) || acts[k] == Recheck(t)
    ensures t in ss[k + 1].callers
    ensures ss[k + 1].callers[t].Returned? <==> CompletesIn(acts, j + 1, k)
    ensures ss[k + 1].callers[t].Sleeping? <==> !CompletesIn(acts, j + 1, k)
  {
    SavedIsKept(ss, acts, t, j, k);
    OnlyCompletionsCount(ss, acts, j + 1, k);
    assert StepAt(ss, acts, j) && StepAt(ss, acts, k);
  }

  /** A wait reports a timeout only if its deadline passed while it slept, before any cycle completed. */
  lemma {:induction false} TimesOutOnlyByItsDeadline(ss: seq<State>, acts: seq<Action>, t: Thread, j: nat, k: nat)
    requires IsRun(ss, acts) && j < k <= |acts| && acts[j] == Request(t) && SameCall(acts, t, j, k)
    requires t in ss[k].callers && ss[k].callers[t].TimedOut?
    ensures exists m :: j < m < k && acts[m] == TimeOut(t) && !CompletesIn(acts, j + 1, m)
  {
    assert StepAt(ss, acts, k - 1);
    if acts[k - 1] == TimeOut(t) {
      var m := k - 1;
      SavedIsKept(ss, acts, t, j, m);
      RunKeepsInv(ss, acts, m);
      assert CallerOk(ss[m], ss[m].callers[t]);
      assert StepAt(ss, acts, j);
      OnlyCompletionsCount(ss, acts, j + 1, m);
    } else {
      assert acts[k - 1] != Forget(t);
      if acts[k - 1] == Wait(t) || acts[k - 1] == Recheck(t) {
        CompletionEndsTheWait(ss, acts, t, j, k - 1);
      } else {
        TimesOutOnlyByItsDeadline(ss, acts, t, j, k - 1);
        var m :| j < m < k - 1 && acts[m] == TimeOut(t) && !CompletesIn(acts, j + 1, m);
        assert j < m < k && acts[m] == TimeOut(t) && !CompletesIn(acts, j + 1, m);
      }
    }
  }

  /** A completion leaves nobody asleep: whoever slept can look at the counter, and finds that it has changed. */
  lemma CompletionWakesAll(ss: seq<State>, acts: seq<Action>, t: Thread, k: nat)
    requires IsRun(ss, acts) && k < |acts| && acts[k].Complete? && t in ss[k].callers
    ensures t in ss[k + 1].callers && !ss[k + 1].callers[t].Sleeping?
    ensures !ss[k].callers[t].Sleeping? ==> ss[k + 1].callers[t] == ss[k].callers[t]
    ensures ss[k].callers[t].Sleeping? ==>
      Enabled(ss[k + 1], Recheck(t)) && Apply(ss[k + 1], Recheck(t)).callers[t].Returned?
  {
    RunKeepsInv(ss, acts, k);
    assert StepAt(ss, acts, k) && CallerOk(ss[k], ss[k].callers[t]);
  }

  /** A caller's own steps: with the flag set it is answered at once with the present count; else it sets the flag and
      delivers the start, which wakes the collector's thread; it waits; a sleep may end for no reason or by the
      deadline. Each changes nothing else. */
  lemma CallersOwnSteps(s: State, t: Thread)
    ensures t !in s.callers ==>
      && Enabled(s, Request(t))
      && (s.invoked ==> Apply(s, Request(t)) == s.(callers := s.callers[t := Answered(s.cycleID)]))
      && (!s.invoked ==>
        Apply(s, Request(t)) ==
          s.(invoked := true, accepted := s.accepted + 1, callers := s.callers[t := Delivering(s.cycleID)]))
    ensures t in s.callers ==> var saved := s.callers[t].saved;
      && (s.callers[t].Delivering? ==>
        && Enabled(s, Deliver(t))
        && Apply(s, Deliver(t)) == s.(
          slotFull := true, collector := if s.collector.Asleep? then Looking else s.collector,
          callers := s.callers[t := Answered(saved)]))
      && (s.callers[t].Answered? ==> Enabled(s, Wait(t)))
      && (s.callers[t].Woken? ==> Enabled(s, Recheck(t)))
      && (s.callers[t].Sleeping? ==>
        && Enabled(s, WakeUp(t)) && Apply(s, WakeUp(t)) == s.(callers := s.callers[t := Woken(saved)])
        && Enabled(s, TimeOut(t)) && Apply(s, TimeOut(t)) == s.(callers := s.callers[t := TimedOut(saved)]))
      && (s.callers[t].Answered? || s.callers[t].Returned? || s.callers[t].TimedOut? ==>
        Enabled(s, Forget(t)) && Apply(s, Forget(t)) == s.(callers := s.callers - {t}))
  {
  }

  /** The collector's thread: it takes a start from the slot and runs a cycle for it, or sleeps if there is none; the
      end of a cycle clears the flag and counts; then it looks again. It never stops. */
  lemma CollectorsOwnSteps(s: State)
    ensures s.collector.Looking? ==>
      && Enabled(s, Look)
      && (s.slotFull ==> Apply(s, Look) == s.(slotFull := false, collector := Running))
      && (!s.slotFull ==> Apply(s, Look) == s.(collector := Asleep))
    ensures s.collector.Asleep? ==> Enabled(s, Rouse) && Apply(s, Rouse) == s.(collector := Looking)
    ensures s.collector.Running? ==>
      && Enabled(s, Complete)
      && Apply(s, Complete) == s.(
        invoked := false, cycleID := s.cycleID + 1, collector := Finishing, callers := Apply(s, Complete).callers)
    ensures s.collector.Finishing? ==> Enabled(s, Loop) && Apply(s, Loop) == s.(collector := Looking)
  {
  }

  /** Nobody but the caller itself and a completion moves a caller on. */
  lemma OthersLeaveCallers(s: State, a: Action, t: Thread)
    requires Enabled(s, a) && !a.Complete? && t in s.callers
    requires !(a.Request? || a.Deliver? || a.Wait? || a.WakeUp? || a.Recheck? || a.TimeOut? || a.Forget?) || a.t != t
    ensures t in Apply(s, a).callers && Apply(s, a).callers[t] == s.callers[t]
  {
  }

  // ---- Whether the cycle that answers started after the request

  ghost predicate StartsIn(ss: seq<State>, acts: seq<Action>, j: nat, k: nat)
    requires |ss| == |acts| + 1
  {
    exists i :: j <= i < k && i < |acts| && acts[i].Look? && ss[i].slotFull
  }

  lemma StartsInLast(ss: seq<State>, acts: seq<Action>, j: nat, k: nat)
    requires |ss| == |acts| + 1 && j < k <= |acts|
    ensures StartsIn(ss, acts, j, k) <==> StartsIn(ss, acts, j, k - 1) || (acts[k - 1].Look? && ss[k - 1].slotFull)
  {
    if i :| j <= i < k - 1 && i < |acts| && acts[i].Look? && ss[i].slotFull {
      assert j <= i < k && i < |acts| && acts[i].Look? && ss[i].slotFull;
    } else if acts[k - 1].Look? && ss[k - 1].slotFull {
      assert j <= k - 1 < k && k - 1 < |acts| && acts[k - 1].Look? && ss[k - 1].slotFull;
    }
  }

  lemma {:induction false} RunningUntilItCompletes(ss: seq<State>, acts: seq<Action>, j: nat, k: nat)
    requires IsRun(ss, acts) && j <= k <= |acts| && !CompletesIn(acts, j, k)
    ensures ss[k].collector == Running <==> ss[j].collector == Running || StartsIn(ss, acts, j, k)
    ensures ss[j].collector == Running ==> !StartsIn(ss, acts, j, k)
  {
    if j < k {
      CompletesInLast(acts, j, k);
      StartsInLast(ss, acts, j, k);
      RunningUntilItCompletes(ss, acts, j, k - 1);
      assert StepAt(ss, acts, k - 1);
      RunKeepsInv(ss, acts, k - 1);
    }
  }

  /** Requests coalesce: the first completion after a request belongs to a cycle that started after it if and
      only if no cycle was running when the request was made. */
  lemma AnsweredByAFreshCycle(ss: seq<State>, acts: seq<Action>, t: Thread, j: nat, c: nat)
    requires IsRun(ss, acts) && j < c < |acts| && acts[j] == Request(t)
    requires acts[c] == Complete && !CompletesIn(acts, j, c)
    ensures StartsIn(ss, acts, j, c) <==> ss[j].collector != Running
  {
    RunningUntilItCompletes(ss, acts, j, c);
    assert StepAt(ss, acts, c);
  }

  // ---- A start under way completes

  /** How many steps of the collector's thread and the delivering caller are left until the completion. */
  ghost function ToCompletion(s: State): nat {
    if s.collector == Running then 1
    else if s.slotFull then if s.collector == Looking then 2 else 3
    else if s.collector == Finishing then 5 else 4
  }

  /** While the flag is set some caller or the collector's thread can take a step towards the completion, and
      no step of anyone leads away from it, not even a sleep that ends for no reason. */
  lemma EveryStartCompletes(s: State)
    requires Inv(s) && s.invoked
    ensures exists a :: Enabled(s, a) && (a == Complete || ToCompletion(Apply(s, a)) < ToCompletion(s))
    ensures forall a | Enabled(s, a) && a != Complete ::
      Apply(s, a).invoked && ToCompletion(Apply(s, a)) <= ToCompletion(s)
  {
    var a;
    if s.collector == Running {
      a := Complete;
    } else if s.slotFull {
      a := if s.collector == Looking then Look else Loop;
    } else {
      var t :| InTransit(s, t);
      a := Deliver(t);
    }
    assert Enabled(s, a) && (a == Complete || ToCompletion(Apply(s, a)) < ToCompletion(s));
    forall a | Enabled(s, a) && a != Complete
      ensures Apply(s, a).invoked && ToCompletion(Apply(s, a)) <= ToCompletion(s)
    {
      if a.Deliver? { assert InTransit(s, a.t); }
    }
  }
}
