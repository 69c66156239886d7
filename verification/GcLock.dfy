/** The Linux GC lock: any number of mutators against one collector, each mutator with its own state
    word. One action per atomic access, sequentially consistent; a futex wait may return at any time,
    so it is an action without effect. */
module GcLock {
  import opened Sequences

  type Tid = nat

  datatype Word = Unused | Waiting | Preparing | Active

  /** Where a mutator stands in `gc_lock_block_gc` and `gc_lock_unblock_gc`. `StoreActive` is past the
      check of the collector's state, `Held` is between the two calls. */
  datatype Pc = Free | Check | StoreWaiting | WakeGc | Spin | StorePreparing | StoreActive | Held | Leaving

  datatype Mutator = Mutator(word: Word, pc: Pc)

  /** The collector: outside, about to lock the thread list, waiting for the thread at `next` of the
      locked list, or in its exclusive section. */
  datatype GcPc = Out | LockList | Walk(next: nat) | Exclusive

  datatype State = State(gcActive: bool, threads: map<Tid, Mutator>, list: seq<Tid>, gc: GcPc)

  datatype Action =
    | Join(t: Tid)
    | Quit(t: Tid)
    | Block(t: Tid)
    | LoadState(t: Tid)
    | Waits(t: Tid)
    | Wakes(t: Tid)
    | Spins(t: Tid)
    | Prepares(t: Tid)
    | Acquires(t: Tid)
    | Unblock(t: Tid)
    | LoadOnLeave(t: Tid)
    | GcStore
    | GcLockList
    | GcLoadWord
    | GcUnlockList
    | GcExit

  const INIT := State(false, map[], [], Out)

  predicate At(s: State, t: Tid, pc: Pc) {
    t in s.threads && s.threads[t].pc == pc
  }

  /** The list lock is held only while the collector walks the list. */
  predicate Enabled(s: State, a: Action) {
    match a
    case Join(t) => t !in s.threads && !s.gc.Walk?
    case Quit(t) => At(s, t, Free) && !s.gc.Walk?
    case Block(t) => At(s, t, Free)
    case LoadState(t) => At(s, t, Check)
    case Waits(t) => At(s, t, StoreWaiting)
    case Wakes(t) => At(s, t, WakeGc)
    case Spins(t) => At(s, t, Spin)
    case Prepares(t) => At(s, t, StorePreparing)
    case Acquires(t) => At(s, t, StoreActive)
    case Unblock(t) => At(s, t, Held)
    case LoadOnLeave(t) => At(s, t, Leaving)
    case GcStore => s.gc.Out?
    case GcLockList => s.gc.LockList?
    case GcLoadWord => s.gc.Walk? && s.gc.next < |s.list| && s.list[s.gc.next] in s.threads
    case GcUnlockList => s.gc.Walk? && s.gc.next >= |s.list|
    case GcExit => s.gc.Exclusive?
  }

  function Set(s: State, t: Tid, word: Word, pc: Pc): State {
    s.(threads := s.threads[t := Mutator(word, pc)])
  }

  function Remove(list: seq<Tid>, t: Tid): seq<Tid> {
    if list == [] then []
    else if list[0] == t then list[1..]
    else [list[0]] + Remove(list[1..], t)
  }

  lemma {:induction false} RemoveDistinct(list: seq<Tid>, t: Tid)
    requires Distinct(list)
    ensures Distinct(Remove(list, t)) && forall x :: x in Remove(list, t) <==> x in list && x != t
  {
    if list != [] {
      assert list == [list[0]] + list[1..];
      assert forall x | x in list[1..] :: x != list[0];
      if list[0] != t {
        RemoveDistinct(list[1..], t);
        var rest := Remove(list[1..], t);
        assert forall i | 0 <= i < |rest| :: rest[i] in rest;
        assert Remove(list, t) == [list[0]] + rest;
      }
    }
  }

  /** The collector looks for a word above `MUTATOR_WAITING`. */
  predicate MustWaitFor(w: Word) {
    w.Preparing? || w.Active?
  }

  function Apply(s: State, a: Action): State
    requires Enabled(s, a)
  {
    match a
    case Join(t) => Set(s, t, Unused, Free).(list := s.list + [t])
    case Quit(t) => s.(threads := s.threads - {t}, list := Remove(s.list, t))
    case Block(t) => Set(s, t, Preparing, Check)
    case LoadState(t) => Set(s, t, s.threads[t].word, if s.gcActive then StoreWaiting else StoreActive)
    case Waits(t) => Set(s, t, Waiting, WakeGc)
    case Wakes(t) => Set(s, t, s.threads[t].word, Spin)
    case Spins(t) => Set(s, t, s.threads[t].word, if s.gcActive then Spin else StorePreparing)
    case Prepares(t) => Set(s, t, Preparing, Check)
    case Acquires(t) => Set(s, t, Active, Held)
    case Unblock(t) => Set(s, t, Unused, Leaving)
    case LoadOnLeave(t) => Set(s, t, s.threads[t].word, Free)
    case GcStore => s.(gcActive := true, gc := LockList)
    case GcLockList => s.(gc := Walk(0))
    case GcLoadWord =>
      if MustWaitFor(s.threads[s.list[s.gc.next]].word) then s else s.(gc := Walk(s.gc.next + 1))
    case GcUnlockList => s.(gc := Exclusive)
    case GcExit => s.(gcActive := false, gc := Out)
  }

  // ---- The invariant

  function WordOf(pc: Pc): Word {
    match pc
    case Free => Unused
    case Check => Preparing
    case StoreWaiting => Preparing
    case WakeGc => Waiting
    case Spin => Waiting
    case StorePreparing => Waiting
    case StoreActive => Preparing
    case Held => Active
    case Leaving => Unused
  }

  /** The mutator is past the check of the collector's state and has not released yet. */
  predicate Past(s: State, t: Tid) {
    At(s, t, StoreActive) || At(s, t, Held)
  }

  ghost predicate Inv(s: State) {
    && Distinct(s.list)
    && (forall t :: t in s.list <==> t in s.threads)
    && (forall t | t in s.threads :: s.threads[t].word == WordOf(s.threads[t].pc))
    && (s.gcActive <==> !s.gc.Out?)
    && (s.gc.Walk? ==> s.gc.next <= |s.list| && forall k | 0 <= k < s.gc.next :: !Past(s, s.list[k]))
    && (s.gc.Exclusive? ==> forall t | t in s.threads :: !Past(s, t))
  }

  lemma MembershipKeepsInv(s: State, a: Action)
    requires Inv(s) && Enabled(s, a) && (a.Join? || a.Quit?)
    ensures Inv(Apply(s, a))
  {
    if a.Quit? { RemoveDistinct(s.list, a.t); }
  }

  /** A mutator may go anywhere its word says, but past the check only while nobody announced. */
  lemma MoveKeepsInv(s: State, t: Tid, pc: Pc)
    requires Inv(s) && t in s.threads
    requires pc.StoreActive? || pc.Held? ==> Past(s, t) || !s.gcActive
    ensures Inv(Set(s, t, WordOf(pc), pc))
  {
    var s' := Set(s, t, WordOf(pc), pc);
    forall x | Past(s', x) ensures Past(s, x) || !s.gcActive {}
  }

  lemma MutatorKeepsInv(s: State, a: Action)
    requires Inv(s) && Enabled(s, a) && IsMutatorAction(a)
    ensures Inv(Apply(s, a))
  {
    assert Apply(s, a).threads[a.t].word == WordOf(Apply(s, a).threads[a.t].pc);
    MoveKeepsInv(s, a.t, Apply(s, a).threads[a.t].pc);
  }

  lemma CollectorKeepsInv(s: State, a: Action)
    requires Inv(s) && Enabled(s, a)
    requires a.GcStore? || a.GcLockList? || a.GcLoadWord? || a.GcUnlockList? || a.GcExit?
    ensures Inv(Apply(s, a))
  {
    if a.GcUnlockList? {
      forall t | t in s.threads ensures !Past(s, t) {
        var k :| 0 <= k < |s.list| && s.list[k] == t;
      }
    }
  }

  lemma StepKeepsInv(s: State, a: Action)
    requires Inv(s) && Enabled(s, a)
    ensures Inv(Apply(s, a))
  {
    if a.Join? || a.Quit? { MembershipKeepsInv(s, a);
    } else if IsMutatorAction(a) { MutatorKeepsInv(s, a);
    } else { CollectorKeepsInv(s, a); }
  }

  ghost predicate StepAt(ss: seq<State>, acts: seq<Action>, i: nat)
    requires |ss| == |acts| + 1 && i < |acts|
  {
    Enabled(ss[i], acts[i]) && ss[i + 1] == Apply(ss[i], acts[i])
  }

  ghost predicate IsRun(ss: seq<State>, acts: seq<Action>) {
    && |ss| == |acts| + 1
    && ss[0] == INIT
    && forall i | 0 <= i < |acts| :: StepAt(ss, acts, i)
  }

  lemma {:induction false} RunKeepsInv(ss: seq<State>, acts: seq<Action>, i: nat)
    requires IsRun(ss, acts) && i <= |acts|
    ensures Inv(ss[i])
  {
    if i > 0 {
      RunKeepsInv(ss, acts, i - 1);
      assert StepAt(ss, acts, i - 1);
      StepKeepsInv(ss[i - 1], acts[i - 1]);
    }
  }

  // ---- Mutual exclusion and preference

  /** From the return of `gc_lock_enter_gc_exclusive` to the store in exit no mutator is active or past
      its check, in every run, for any threads joining and leaving and however often the collector
      enters. */
  lemma MutualExclusion(ss: seq<State>, acts: seq<Action>, i: nat, t: Tid)
    requires IsRun(ss, acts) && i <= |acts| && ss[i].gc.Exclusive? && t in ss[i].threads
    ensures !Past(ss[i], t) && !ss[i].threads[t].word.Active?
  {
    RunKeepsInv(ss, acts, i);
  }

  /** Once the collector has announced itself nobody new gets past the check, and a release takes its
      thread out for good. */
  lemma CollectorIsPreferred(s: State, a: Action, t: Tid)
    requires Enabled(s, a) && s.gcActive && Apply(s, a).gcActive
    ensures Past(Apply(s, a), t) ==> Past(s, t)
    ensures a == Unblock(t) ==> Past(s, t) && !Past(Apply(s, a), t)
  {
  }

  lemma {:induction false} PastOnlyShrinks(ss: seq<State>, acts: seq<Action>, i: nat, k: nat, t: Tid)
    requires IsRun(ss, acts) && i <= k <= |acts|
    requires forall m | i <= m <= k :: ss[m].gcActive
    requires Past(ss[k], t)
    ensures Past(ss[i], t)
  {
    if i < k {
      assert StepAt(ss, acts, k - 1);
      CollectorIsPreferred(ss[k - 1], acts[k - 1], t);
      PastOnlyShrinks(ss, acts, i, k - 1, t);
    }
  }

  lemma RunOn(ss: seq<State>, acts: seq<Action>, a: Action) returns (ss': seq<State>, acts': seq<Action>)
    requires IsRun(ss, acts) && Enabled(ss[|acts|], a)
    ensures ss' == ss + [Apply(ss[|acts|], a)] && acts' == acts + [a] && IsRun(ss', acts')
  {
    ss', acts' := ss + [Apply(ss[|acts|], a)], acts + [a];
    forall i | 0 <= i < |acts'| ensures StepAt(ss', acts', i) {
      if i < |acts| { assert StepAt(ss, acts, i); }
    }
  }

  /** A run in which thread 0 is past its check, and nobody has announced anything. */
  lemma PastItsCheck() returns (ss: seq<State>, acts: seq<Action>)
    ensures IsRun(ss, acts) && acts != []
    ensures ss[|acts|] == State(false, map[0 := Mutator(Preparing, StoreActive)], [0], Out)
  {
    ss, acts := RunOn([INIT], [], Join(0));
    assert ss[|acts|] == State(false, map[0 := Mutator(Unused, Free)], [0], Out);
    ss, acts := RunOn(ss, acts, Block(0));
    assert ss[|acts|].threads == map[0 := Mutator(Preparing, Check)];
    ss, acts := RunOn(ss, acts, LoadState(0));
    assert ss[|acts|].threads == map[0 := Mutator(Preparing, StoreActive)];
  }

  /** A thread that read the collector's state just before the announcement becomes active after it. */
  lemma ActiveAfterAnnouncement() returns (ss: seq<State>, acts: seq<Action>, k: nat)
    ensures IsRun(ss, acts) && 0 < k == |acts| && ss[k - 1].gcActive && ss[k].gcActive
    ensures At(ss[k - 1], 0, StoreActive) && !ss[k - 1].threads[0].word.Active?
    ensures At(ss[k], 0, Held) && ss[k].threads[0].word.Active?
  {
    ss, acts := PastItsCheck();
    ss, acts := RunOn(ss, acts, GcStore);
    ss, acts := RunOn(ss, acts, Acquires(0));
    k := |acts|;
  }

  // ---- The collector gets in

  /** How many actions a mutator can still take, spinning apart, while the collector stays announced. */
  function Rank(pc: Pc): nat {
    match pc
    case StoreActive => 7
    case Held => 6
    case Leaving => 5
    case Free => 4
    case StorePreparing => 4
    case Check => 3
    case StoreWaiting => 2
    case WakeGc => 1
    case Spin => 0
  }

  function RankSum(s: State, list: seq<Tid>): nat {
    if list == [] then 0 else
      var t := list[|list| - 1];
      RankSum(s, list[..|list| - 1]) + (if t in s.threads then Rank(s.threads[t].pc) else 0)
  }

  /** An action without effect: a thread spins or the collector finds a word it has to wait for. */
  predicate IsIdle(s: State, a: Action)
    requires Enabled(s, a)
  {
    Apply(s, a) == s
  }

  predicate IsMutatorAction(a: Action) {
    a.Block? || a.LoadState? || a.Waits? || a.Wakes? || a.Spins? || a.Prepares? || a.Acquires? || a.Unblock?
    || a.LoadOnLeave?
  }

  lemma {:induction false} RankSumUnchanged(s: State, s': State, list: seq<Tid>)
    requires forall t | t in list :: t in s.threads && t in s'.threads && s'.threads[t].pc == s.threads[t].pc
    ensures RankSum(s', list) == RankSum(s, list)
  {
    if list != [] { RankSumUnchanged(s, s', list[..|list| - 1]); }
  }

  lemma {:induction false} RankSumDrops(s: State, s': State, list: seq<Tid>, t: Tid)
    requires Distinct(list) && t in list && t in s.threads && t in s'.threads
    requires Rank(s'.threads[t].pc) < Rank(s.threads[t].pc)
    requires forall u | u in list && u != t :: u in s.threads && u in s'.threads && s'.threads[u].pc == s.threads[u].pc
    ensures RankSum(s', list) < RankSum(s, list)
  {
    var n := |list| - 1;
    assert list == list[..n] + [list[n]];
    if list[n] == t { RankSumUnchanged(s, s', list[..n]); } else { RankSumDrops(s, s', list[..n], t); }
  }

  lemma {:induction false} RankSumBound(s: State, list: seq<Tid>)
    ensures RankSum(s, list) <= 7 * |list|
  {
    if list != [] { RankSumBound(s, list[..|list| - 1]); }
  }

  /** A mutator's action that has an effect uses up some of what it can still do. */
  lemma MoveLowersRank(s: State, a: Action)
    requires Inv(s) && Enabled(s, a) && s.gcActive && IsMutatorAction(a) && !IsIdle(s, a)
    ensures var s' := Apply(s, a);
      a.t in s.threads && s' == s.(threads := s.threads[a.t := s'.threads[a.t]])
      && Rank(s'.threads[a.t].pc) < Rank(s.threads[a.t].pc)
  {
  }

  lemma MoveLowersSum(s: State, t: Tid, m: Mutator)
    requires Inv(s) && t in s.threads && Rank(m.pc) < Rank(s.threads[t].pc)
    ensures RankSum(s.(threads := s.threads[t := m]), s.list) < RankSum(s, s.list)
  {
    RankSumDrops(s, s.(threads := s.threads[t := m]), s.list, t);
  }

  /** While the collector walks the list, every action that has an effect brings it closer: it lowers
      what the mutators can still do, or leaves that alone and moves the collector on. */
  lemma WalkGetsCloser(s: State, a: Action)
    requires Inv(s) && Enabled(s, a) && s.gc.Walk? && !IsIdle(s, a)
    ensures var s' := Apply(s, a);
      s'.list == s.list && (
        || (RankSum(s', s.list) < RankSum(s, s.list) && s'.gc == s.gc && IsMutatorAction(a))
        || (RankSum(s', s.list) == RankSum(s, s.list) && (s'.gc == Walk(s.gc.next + 1) || s'.gc == Exclusive)))
  {
    if IsMutatorAction(a) {
      MoveLowersRank(s, a);
      MoveLowersSum(s, a.t, Apply(s, a).threads[a.t]);
    } else {
      RankSumUnchanged(s, Apply(s, a), s.list);
    }
  }

  /** The collector waits only for a thread that has an action with an effect to take. */
  lemma WaitHasACause(s: State)
    requires Inv(s) && Enabled(s, GcLoadWord) && IsIdle(s, GcLoadWord)
    ensures exists a :: IsMutatorAction(a) && a.t == s.list[s.gc.next] && Enabled(s, a) && !IsIdle(s, a)
  {
    var t := s.list[s.gc.next];
    match s.threads[t].pc
    case Check => assert Enabled(s, LoadState(t)) && !IsIdle(s, LoadState(t));
    case StoreWaiting => assert Enabled(s, Waits(t)) && !IsIdle(s, Waits(t));
    case StoreActive => assert Enabled(s, Acquires(t)) && !IsIdle(s, Acquires(t));
    case Held => assert Enabled(s, Unblock(t)) && !IsIdle(s, Unblock(t));
    case _ => assert false;
  }

  /** The actions with an effect that mutators take in a stretch of a run. */
  function MutatorActions(ss: seq<State>, acts: seq<Action>, i: nat, k: nat): nat
    requires i <= k <= |acts| < |ss|
  {
    if i == k then 0
    else MutatorActions(ss, acts, i, k - 1) + (if IsMutatorAction(acts[k - 1]) && ss[k] != ss[k - 1] then 1 else 0)
  }

  lemma {:induction false} ActionsUseUpRank(ss: seq<State>, acts: seq<Action>, i: nat, k: nat)
    requires IsRun(ss, acts) && i <= k <= |acts|
    requires forall m | i <= m < k :: ss[m].gc.Walk?
    ensures ss[k].list == ss[i].list
    ensures RankSum(ss[k], ss[i].list) + MutatorActions(ss, acts, i, k) <= RankSum(ss[i], ss[i].list)
  {
    if i < k {
      ActionsUseUpRank(ss, acts, i, k - 1);
      RunKeepsInv(ss, acts, k - 1);
      assert StepAt(ss, acts, k - 1);
      if ss[k] != ss[k - 1] { WalkGetsCloser(ss[k - 1], acts[k - 1]); }
    }
  }

  /** While the collector walks the list, the mutators together take at most seven actions per thread,
      spinning apart: nobody can hold it back for longer. */
  lemma EntryIsBounded(ss: seq<State>, acts: seq<Action>, i: nat, k: nat)
    requires IsRun(ss, acts) && i <= k <= |acts|
    requires forall m | i <= m < k :: ss[m].gc.Walk?
    ensures MutatorActions(ss, acts, i, k) <= 7 * |ss[i].list|
  {
    ActionsUseUpRank(ss, acts, i, k);
    RankSumBound(ss[i], ss[i].list);
  }

  // ---- The mutators get in

  /** A mutator is between the two ends of `gc_lock_block_gc`. */
  predicate Entering(s: State, t: Tid) {
    t in s.threads && !s.threads[t].pc.Free? && !s.threads[t].pc.Held? && !s.threads[t].pc.Leaving?
  }

  /** What a mutator does next. */
  function NextOf(t: Tid, pc: Pc): Action {
    match pc
    case Free => Block(t)
    case Check => LoadState(t)
    case StoreWaiting => Waits(t)
    case WakeGc => Wakes(t)
    case Spin => Spins(t)
    case StorePreparing => Prepares(t)
    case StoreActive => Acquires(t)
    case Held => Unblock(t)
    case Leaving => LoadOnLeave(t)
  }

  /** How many actions a mutator is away from holding the lock while the collector is out. */
  function ToEnter(pc: Pc): nat {
    match pc
    case StoreWaiting => 6
    case WakeGc => 5
    case Spin => 4
    case StorePreparing => 3
    case Check => 2
    case StoreActive => 1
    case _ => 0
  }

  /** While the collector is out, a mutator on its way in always has one action to take, and that action brings it
      exactly one closer, also if it had been waiting for the collector to leave; the last one makes it active. */
  lemma EntryGoesOn(s: State, t: Tid)
    requires Inv(s) && s.gc.Out? && Entering(s, t)
    ensures var a := NextOf(t, s.threads[t].pc);
      && Enabled(s, a) && IsMutatorAction(a) && a.t == t && !IsIdle(s, a)
      && (forall a' | Enabled(s, a') && IsMutatorAction(a') && a'.t == t :: a' == a)
      && var m := Apply(s, a).threads[t];
        && ToEnter(m.pc) == ToEnter(s.threads[t].pc) - 1
        && (Entering(Apply(s, a), t) || (m.pc.Held? && m.word.Active?))
  {
  }

  /** What anybody else does leaves a mutator where it is. */
  lemma OthersLeaveEntry(s: State, a: Action, t: Tid)
    requires Enabled(s, a) && Entering(s, t) && !(IsMutatorAction(a) && a.t == t)
    ensures t in Apply(s, a).threads && Apply(s, a).threads[t] == s.threads[t]
  {
  }

  /** How many actions thread `t` takes in a stretch of a run. */
  function OwnActions(acts: seq<Action>, t: Tid, i: nat, k: nat): nat
    requires i <= k <= |acts|
  {
    if i == k then 0
    else OwnActions(acts, t, i, k - 1) + (if IsMutatorAction(acts[k - 1]) && acts[k - 1].t == t then 1 else 0)
  }

  /** As long as it has not got in, each of its actions has brought it one closer. */
  lemma {:induction false} EntryIsPaid(ss: seq<State>, acts: seq<Action>, t: Tid, i: nat, k: nat)
    requires IsRun(ss, acts) && i <= k <= |acts| && Entering(ss[i], t)
    requires forall m | i <= m <= k :: ss[m].gc.Out?
    requires forall m | i <= m < k :: !At(ss[m], t, Held)
    ensures Entering(ss[k], t) || (At(ss[k], t, Held) && ss[k].threads[t].word.Active?)
    ensures ToEnter(ss[k].threads[t].pc) + OwnActions(acts, t, i, k) == ToEnter(ss[i].threads[t].pc)
  {
    if i < k {
      EntryIsPaid(ss, acts, t, i, k - 1);
      RunKeepsInv(ss, acts, k - 1);
      assert StepAt(ss, acts, k - 1) && !At(ss[k - 1], t, Held);
      EntryGoesOn(ss[k - 1], t);
      if !(IsMutatorAction(acts[k - 1]) && acts[k - 1].t == t) { OthersLeaveEntry(ss[k - 1], acts[k - 1], t); }
    }
  }

  /** A mutator that is blocked, at whatever point, holds the lock after at most six actions of its own while the
      collector stays out. */
  lemma BlockedMutatorGetsIn(ss: seq<State>, acts: seq<Action>, t: Tid, i: nat, k: nat)
    requires IsRun(ss, acts) && i <= k <= |acts| && Entering(ss[i], t)
    requires forall m | i <= m <= k :: ss[m].gc.Out?
    requires OwnActions(acts, t, i, k) >= ToEnter(ss[i].threads[t].pc)
    ensures ToEnter(ss[i].threads[t].pc) <= 6
    ensures exists m :: i <= m <= k && At(ss[m], t, Held) && ss[m].threads[t].word.Active?
  {
    if m :| i <= m <= k && At(ss[m], t, Held) {
      RunKeepsInv(ss, acts, m);
    } else {
      EntryIsPaid(ss, acts, t, i, k);
    }
  }

  /** A mutator outside becomes one on its way in by `gc_lock_block_gc`, and one that holds the lock gives it up by
      `gc_lock_unblock_gc`, each by one store of its own word. */
  lemma BlockAndUnblock(s: State, t: Tid)
    requires Inv(s)
    ensures Enabled(s, Block(t)) ==>
      && Apply(s, Block(t)) == s.(threads := s.threads[t := Apply(s, Block(t)).threads[t]])
      && Entering(Apply(s, Block(t)), t)
    ensures Enabled(s, Unblock(t)) ==>
      && Apply(s, Unblock(t)) == s.(threads := s.threads[t := Apply(s, Unblock(t)).threads[t]])
      && !Past(Apply(s, Unblock(t)), t) && Apply(s, Unblock(t)).threads[t].word.Unused?
      && Enabled(Apply(s, Unblock(t)), LoadOnLeave(t))
      && At(Apply(Apply(s, Unblock(t)), LoadOnLeave(t)), t, Free)
  {
  }

  /** Unless the collector walks the list, a thread can join at its end, and one that is outside can leave it; the
      others stay where they are. */
  lemma JoinAndQuit(s: State, t: Tid)
    requires Inv(s) && !s.gc.Walk?
    ensures t !in s.threads ==>
      && Enabled(s, Join(t))
      && Apply(s, Join(t)) == s.(threads := s.threads[t := Mutator(Unused, Free)], list := s.list + [t])
    ensures At(s, t, Free) ==> var s' := Apply(s, Quit(t));
      && Enabled(s, Quit(t)) && s' == s.(threads := s.threads - {t}, list := s'.list)
      && Distinct(s'.list) && (forall u :: u in s'.list <==> u in s.list && u != t)
  {
    RemoveDistinct(s.list, t);
  }

  /** The collector's own round: it announces itself, locks the list, waits for one thread after the other in the
      order of the list, unlocks, and when it leaves takes its announcement back. It touches no mutator's word, and
      unless it waits for a thread it has an action with an effect. */
  lemma CollectorGoesRound(s: State)
    requires Inv(s)
    ensures s.gc.Out? ==> Enabled(s, GcStore) && Apply(s, GcStore) == s.(gcActive := true, gc := LockList)
    ensures s.gc.LockList? ==> Enabled(s, GcLockList) && Apply(s, GcLockList) == s.(gc := Walk(0))
    ensures s.gc.Walk? && s.gc.next < |s.list| ==>
      && Enabled(s, GcLoadWord)
      && Apply(s, GcLoadWord) == s.(gc := Apply(s, GcLoadWord).gc)
      && (Apply(s, GcLoadWord).gc == Walk(s.gc.next + 1) <==>
        s.threads[s.list[s.gc.next]].word in {Unused, Waiting})
    ensures s.gc.Walk? && s.gc.next == |s.list| ==>
      Enabled(s, GcUnlockList) && Apply(s, GcUnlockList) == s.(gc := Exclusive)
    ensures s.gc.Exclusive? ==> Enabled(s, GcExit) && Apply(s, GcExit) == s.(gcActive := false, gc := Out)
  {
  }
}
