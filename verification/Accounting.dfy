/** The usage counters under concurrent callers: allocations that read `currentUsage` and swap it with a weak
    compare-and-exchange, and filters that free units and subtract their bytes afterwards. Each atomic access
    is one step. Every context belongs to one thread. */
module Accounting {
  import opened Chains
  import opened TrackerRuns

  /** Where a context's thread is in an allocation of `total` bytes, header included: about to read
      `currentUsage`, about to compare and swap, about to add to `lifetimeBytesAllocated`, or about to settle
      with its reserve. `asked` is what it takes from the heap. */
  datatype Pc =
    | Idle
    | Reading(total: nat, asked: nat)
    | Swapping(total: nat, asked: nat, seen: nat)
    | Logging(total: nat, asked: nat)
    | Settling(total: nat, asked: nat)
    | Ended

  datatype Context = Context(reserve: nat, pc: Pc)

  /** `live` is the bytes of linked units, `pending` what a running filter has freed and not yet subtracted,
      `subtracted` what filters have subtracted so far. */
  datatype State = State(
    usage: nat, lifetime: nat, contexts: seq<Context>, live: nat, pending: nat, subtracted: nat)

  const START := State(0, 0, [], 0, 0, 0)

  datatype Action =
    | NewContext
    | EndContext(i: nat)
    | Begin(i: nat, size: nat)
    | Read(i: nat)
    | Swap(i: nat, spurious: bool)
    | Log(i: nat)
    | Settle(i: nat)
    | Free(total: nat)
    | Subtract

  ghost predicate Enabled(s: State, a: Action) {
    match a
    case NewContext => true
    case EndContext(i) => i < |s.contexts| && s.contexts[i].pc.Idle?
    case Begin(i, size) => i < |s.contexts| && s.contexts[i].pc.Idle?
    case Read(i) => i < |s.contexts| && s.contexts[i].pc.Reading?
    case Swap(i, _) => i < |s.contexts| && s.contexts[i].pc.Swapping?
    case Log(i) => i < |s.contexts| && s.contexts[i].pc.Logging?
    case Settle(i) => i < |s.contexts| && s.contexts[i].pc.Settling?
    case Free(total) => total <= s.live
    case Subtract => true
  }

  /** A small allocation that its reserve covers asks nothing; otherwise it asks for a new reserve. A large
      one asks for its own bytes. */
  function BeginPc(size: nat, reserve: nat): Pc {
    var total := size + HEADER;
    if size >= PRERESERVE_SKIP then Reading(total, total)
    else if total <= reserve then Settling(total, 0)
    else Reading(total, PRERESERVE)
  }

  ghost function Apply(s: State, a: Action, max: nat): State
    requires Enabled(s, a)
  {
    match a
    case NewContext => s.(contexts := s.contexts + [Context(0, Idle)])
    case EndContext(i) => s.(contexts := s.contexts[i := s.contexts[i].(pc := Ended)])
    case Begin(i, size) =>
      s.(contexts := s.contexts[i := s.contexts[i].(pc := BeginPc(size, s.contexts[i].reserve))])
    case Read(i) =>
      var pc := s.contexts[i].pc;
      s.(contexts := s.contexts[i := s.contexts[i].(pc := Swapping(pc.total, pc.asked, s.usage))])
    case Swap(i, spurious) =>
      var pc := s.contexts[i].pc;
      if pc.seen + pc.asked > max then s.(contexts := s.contexts[i := s.contexts[i].(pc := Idle)])
      else if s.usage != pc.seen || spurious then
        s.(contexts := s.contexts[i := s.contexts[i].(pc := Swapping(pc.total, pc.asked, s.usage))])
      else
        s.(usage := pc.seen + pc.asked,
           contexts := s.contexts[i := s.contexts[i].(pc := Logging(pc.total, pc.asked))])
    case Log(i) =>
      var pc := s.contexts[i].pc;
      s.(lifetime := s.lifetime + pc.asked,
         contexts := s.contexts[i := s.contexts[i].(pc := Settling(pc.total, pc.asked))])
    case Settle(i) =>
      var pc := s.contexts[i].pc;
      var left := s.contexts[i].reserve + pc.asked - pc.total;
      s.(live := s.live + pc.total,
         contexts := s.contexts[i := Context(if left >= 0 then left else left % WORD, Idle)])
    case Free(total) => s.(live := s.live - total, pending := s.pending + total)
    case Subtract =>
      var left := s.usage - s.pending;
      s.(usage := if left >= 0 then left else left % WORD, pending := 0, subtracted := s.subtracted + s.pending)
  }

  // ---- What the counters count

  /** What a context holds of `currentUsage` beyond the live bytes; an ended one keeps its reserve. */
  function Held(c: Context): nat {
    c.reserve + if c.pc.Logging? || c.pc.Settling? then c.pc.asked else 0
  }

  /** What is in `currentUsage` and not yet in `lifetimeBytesAllocated`. */
  function Unlogged(c: Context): nat {
    if c.pc.Logging? then c.pc.asked else 0
  }

  function AllHeld(cs: seq<Context>): nat {
    if cs == [] then 0 else AllHeld(cs[..|cs| - 1]) + Held(cs[|cs| - 1])
  }

  function AllUnlogged(cs: seq<Context>): nat {
    if cs == [] then 0 else AllUnlogged(cs[..|cs| - 1]) + Unlogged(cs[|cs| - 1])
  }

  lemma {:induction false} Update(cs: seq<Context>, i: nat, c: Context)
    requires i < |cs|
    ensures AllHeld(cs[i := c]) == AllHeld(cs) - Held(cs[i]) + Held(c)
    ensures AllUnlogged(cs[i := c]) == AllUnlogged(cs) - Unlogged(cs[i]) + Unlogged(c)
  {
    var n := |cs| - 1;
    if i == n {
      assert cs[i := c][..n] == cs[..n];
    } else {
      assert cs[i := c][..n] == cs[..n][i := c];
      Update(cs[..n], i, c);
    }
  }

  /** The reserve stays below what is reserved at a time, and what a context asks for settles with it. */
  ghost predicate ContextOk(c: Context) {
    && c.reserve < PRERESERVE
    && match c.pc
       case Idle => true
       case Ended => true
       case Reading(total, asked) => Asks(c.reserve, total, asked)
       case Swapping(total, asked, _) => Asks(c.reserve, total, asked)
       case Logging(total, asked) => Asks(c.reserve, total, asked)
       case Settling(total, asked) => Asks(c.reserve, total, asked) || (asked == 0 && total <= c.reserve)
  }

  ghost predicate Asks(reserve: nat, total: nat, asked: nat) {
    asked == total || (asked == PRERESERVE && reserve < total <= PRERESERVE)
  }

  ghost predicate Inv(s: State, max: nat) {
    && s.usage == s.live + s.pending + AllHeld(s.contexts)
    && s.usage <= max
    && s.lifetime + AllUnlogged(s.contexts) == s.usage + s.subtracted
    && forall i | 0 <= i < |s.contexts| :: ContextOk(s.contexts[i])
  }

  lemma SwapKeepsInv(s: State, i: nat, spurious: bool, max: nat)
    requires Inv(s, max) && Enabled(s, Swap(i, spurious))
    ensures Inv(Apply(s, Swap(i, spurious), max), max)
  {
    var s' := Apply(s, Swap(i, spurious), max);
    assert ContextOk(s.contexts[i]);
    Update(s.contexts, i, s'.contexts[i]);
  }

  lemma SettleKeepsInv(s: State, i: nat, max: nat)
    requires Inv(s, max) && Enabled(s, Settle(i))
    ensures Inv(Apply(s, Settle(i), max), max)
  {
    assert ContextOk(s.contexts[i]);
    Update(s.contexts, i, Apply(s, Settle(i), max).contexts[i]);
  }

  lemma LocalStepKeepsInv(s: State, a: Action, max: nat)
    requires Inv(s, max) && Enabled(s, a) && (a.EndContext? || a.Begin? || a.Read? || a.Log?)
    ensures Inv(Apply(s, a, max), max)
  {
    assert ContextOk(s.contexts[a.i]);
    Update(s.contexts, a.i, Apply(s, a, max).contexts[a.i]);
  }

  lemma StepKeepsInv(s: State, a: Action, max: nat)
    requires Inv(s, max) && Enabled(s, a)
    ensures Inv(Apply(s, a, max), max)
  {
    match a
    case NewContext => assert Apply(s, a, max).contexts[..|s.contexts|] == s.contexts;
    case Swap(i, spurious) => SwapKeepsInv(s, i, spurious, max);
    case Settle(i) => SettleKeepsInv(s, i, max);
    case Free(total) =>
    case Subtract =>
    case _ => LocalStepKeepsInv(s, a, max);
  }

  // ---- Runs

  ghost predicate IsRun(ss: seq<State>, acts: seq<Action>, max: nat) {
    && |ss| == |acts| + 1 && ss[0] == START
    && forall k | 0 <= k < |acts| :: StepAt(ss, acts, max, k)
  }

  ghost predicate StepAt(ss: seq<State>, acts: seq<Action>, max: nat, k: nat)
    requires k < |acts| < |ss|
  {
    Enabled(ss[k], acts[k]) && ss[k + 1] == Apply(ss[k], acts[k], max)
  }

  lemma {:induction false} RunKeepsInv(ss: seq<State>, acts: seq<Action>, max: nat, k: nat)
    requires IsRun(ss, acts, max) && k <= |acts|
    ensures Inv(ss[k], max)
  {
    if k > 0 {
      RunKeepsInv(ss, acts, max, k - 1);
      assert StepAt(ss, acts, max, k - 1);
      StepKeepsInv(ss[k - 1], acts[k - 1], max);
    }
  }

  /** At every moment of every interleaving: what is live or freed but not yet subtracted is within
      `currentUsage`, which is within the maximum, so no subtraction wraps; and no context's reserve reaches
      `PRERESERVE`, nor would a settlement take it below zero. */
  lemma UsageIsAlwaysBounded(ss: seq<State>, acts: seq<Action>, max: nat, k: nat)
    requires IsRun(ss, acts, max) && k <= |acts|
    ensures ss[k].live + ss[k].pending <= ss[k].usage <= max
    ensures forall i | 0 <= i < |ss[k].contexts| :: ss[k].contexts[i].reserve < PRERESERVE
    ensures forall i | 0 <= i < |ss[k].contexts| && ss[k].contexts[i].pc.Settling? ::
      ss[k].contexts[i].pc.total <= ss[k].contexts[i].reserve + ss[k].contexts[i].pc.asked
  {
    RunKeepsInv(ss, acts, max, k);
    assert forall i | 0 <= i < |ss[k].contexts| :: ContextOk(ss[k].contexts[i]);
  }

  /** No accounting and no filter is under way. */
  ghost predicate AtRest(s: State) {
    s.pending == 0 && forall i | 0 <= i < |s.contexts| :: !s.contexts[i].pc.Logging? && !s.contexts[i].pc.Settling?
  }

  lemma {:induction false} HeldAtRest(cs: seq<Context>)
    requires forall i | 0 <= i < |cs| :: ContextOk(cs[i]) && !cs[i].pc.Logging? && !cs[i].pc.Settling?
    ensures AllHeld(cs) <= PRERESERVE * |cs| && AllUnlogged(cs) == 0
  {
    if cs != [] {
      assert ContextOk(cs[|cs| - 1]);
      HeldAtRest(cs[..|cs| - 1]);
    }
  }

  /** Whenever no accounting and no filter is under way, usage over-reports the live bytes by at most
      `PRERESERVE` for each context ever created, and all that was ever counted is in use or subtracted. */
  lemma AtRestTheBooksBalance(ss: seq<State>, acts: seq<Action>, max: nat, k: nat)
    requires IsRun(ss, acts, max) && k <= |acts| && AtRest(ss[k])
    ensures ss[k].usage <= ss[k].live + PRERESERVE * |ss[k].contexts|
    ensures ss[k].lifetime == ss[k].usage + ss[k].subtracted
  {
    RunKeepsInv(ss, acts, max, k);
    HeldAtRest(ss[k].contexts);
  }

  // ---- What each step does

  /** Only the context of the action changes. */
  ghost predicate OnlyContext(s: State, s': State, i: nat, x: Context) {
    i < |s.contexts| && s' == s.(contexts := s.contexts[i := x])
  }

  /** A unit of less than 256 KiB that the reserve covers, header of 40 bytes included, asks for nothing; one that it
      does not cover asks for 2 MiB, and a larger one for its own bytes. */
  lemma BeginAsks(s: State, i: nat, size: nat, max: nat)
    requires i < |s.contexts| && s.contexts[i].pc.Idle?
    ensures Enabled(s, Begin(i, size))
    ensures var x := s.contexts[i];
      OnlyContext(s, Apply(s, Begin(i, size), max), i, x.(pc :=
        if size < 262144 && size + 40 <= x.reserve then Settling(size + 40, 0)
        else if size < 262144 then Reading(size + 40, 2097152)
        else Reading(size + 40, size + 40)))
  {
  }

  /** A swap refuses what does not fit what it last saw; it grants what does if that is still the usage, unless it fails
      spuriously; and otherwise it tries again with the usage there is now. */
  lemma SwapDecides(s: State, i: nat, spurious: bool, max: nat)
    requires Enabled(s, Swap(i, spurious))
    ensures var x, s' := s.contexts[i], Apply(s, Swap(i, spurious), max);
      && (x.pc.seen + x.pc.asked > max ==> OnlyContext(s, s', i, x.(pc := Idle)))
      && (x.pc.seen + x.pc.asked <= max && x.pc.seen == s.usage && !spurious ==>
        OnlyContext(s.(usage := s.usage + x.pc.asked), s', i, x.(pc := Logging(x.pc.total, x.pc.asked))))
      && (x.pc.seen + x.pc.asked <= max && (x.pc.seen != s.usage || spurious) ==>
        OnlyContext(s, s', i, x.(pc := x.pc.(seen := s.usage))))
  {
  }

  /** What was granted is logged, and settled with the reserve; then the unit is there. */
  lemma GrantSettles(s: State, i: nat, max: nat)
    requires Inv(s, max)
    ensures Enabled(s, Read(i)) ==>
      OnlyContext(s, Apply(s, Read(i), max), i,
                  s.contexts[i].(pc := Swapping(s.contexts[i].pc.total, s.contexts[i].pc.asked, s.usage)))
    ensures Enabled(s, Log(i)) ==> var x := s.contexts[i];
      OnlyContext(s.(lifetime := s.lifetime + x.pc.asked), Apply(s, Log(i), max), i,
                  x.(pc := Settling(x.pc.total, x.pc.asked)))
    ensures Enabled(s, Settle(i)) ==> var x := s.contexts[i];
      && x.pc.total <= x.reserve + x.pc.asked
      && OnlyContext(s.(live := s.live + x.pc.total), Apply(s, Settle(i), max), i,
                     Context(x.reserve + x.pc.asked - x.pc.total, Idle))
  {
    if Enabled(s, Settle(i)) { assert ContextOk(s.contexts[i]); }
  }

  /** Contexts come and go, and filters free and subtract, without touching what the others count. */
  lemma RestIsApart(s: State, max: nat, i: nat, total: nat)
    requires Inv(s, max)
    ensures Apply(s, NewContext, max) == s.(contexts := s.contexts + [Context(0, Idle)])
    ensures Enabled(s, EndContext(i)) ==>
      OnlyContext(s, Apply(s, EndContext(i), max), i, Context(s.contexts[i].reserve, Ended))
    ensures total <= s.live ==>
      Enabled(s, Free(total)) && Apply(s, Free(total), max) == s.(live := s.live - total, pending := s.pending + total)
    ensures s.pending <= s.usage && Apply(s, Subtract, max) ==
      s.(usage := s.usage - s.pending, pending := 0, subtracted := s.subtracted + s.pending)
  {
  }

  /** The steps of an allocation that nobody disturbs. */
  ghost function Undisturbed(s: State, i: nat, size: nat, max: nat): State
    requires Enabled(s, Begin(i, size))
  {
    var s1 := Apply(s, Begin(i, size), max);
    if s1.contexts[i].pc.Settling? then Apply(s1, Settle(i), max)
    else
      var s2 := Apply(s1, Read(i), max);
      var s3 := Apply(s2, Swap(i, false), max);
      if s3.contexts[i].pc.Idle? then s3
      else Apply(Apply(s3, Log(i), max), Settle(i), max)
  }

  /** An allocation that nobody disturbs is charged as the tracker's one-caller specification says. */
  lemma UndisturbedIsCharged(s: State, i: nat, size: nat, max: nat)
    requires Inv(s, max) && Enabled(s, Begin(i, size))
    ensures var s', x, total := Undisturbed(s, i, size, max), s.contexts[i], size + HEADER;
      match ChargeFor(size, x.reserve, max - s.usage)
      case Refused => s' == s
      case Charged(taken, reserve) =>
        s' == s.(usage := s.usage + taken, lifetime := s.lifetime + taken, live := s.live + total,
                 contexts := s.contexts[i := Context(reserve, Idle)])
  {
    assert ContextOk(s.contexts[i]);
    var s' := Undisturbed(s, i, size, max);
    if ChargeFor(size, s.contexts[i].reserve, max - s.usage).Refused? {
      assert s'.contexts == s.contexts;
    }
  }

  // ---- Refusals and retries have a cause

  /** The context's own reads of the usage. */
  predicate Sees(a: Action, i: nat) {
    (a.Read? || a.Swap?) && a.i == i
  }

  /** What an allocation last saw was the usage at its last access. */
  lemma {:induction false} SeenWasUsage(ss: seq<State>, acts: seq<Action>, max: nat, k: nat, i: nat) returns (j: nat)
    requires IsRun(ss, acts, max) && k <= |acts| && i < |ss[k].contexts| && ss[k].contexts[i].pc.Swapping?
    ensures j < k && Sees(acts[j], i) && ss[j].usage == ss[j + 1].usage == ss[k].contexts[i].pc.seen
    ensures forall m | j < m < k :: !Sees(acts[m], i)
  {
    assert k > 0;
    assert StepAt(ss, acts, max, k - 1);
    if Sees(acts[k - 1], i) { j := k - 1; } else { j := SeenWasUsage(ss, acts, max, k - 1, i); }
  }

  lemma {:induction false} UsageMoved(ss: seq<State>, j: nat, k: nat) returns (m: nat)
    requires j <= k < |ss| && ss[j].usage != ss[k].usage
    ensures j <= m < k && ss[m].usage != ss[m + 1].usage
  {
    if ss[k - 1].usage != ss[k].usage { m := k - 1; } else { m := UsageMoved(ss, j, k - 1); }
  }

  /** An allocation is refused only if what it asked for did not fit the usage when it last looked. */
  lemma RefusedOnlyWhenFull(ss: seq<State>, acts: seq<Action>, max: nat, k: nat) returns (j: nat)
    requires IsRun(ss, acts, max) && k < |acts| && acts[k].Swap?
    requires acts[k].i < |ss[k + 1].contexts| && ss[k + 1].contexts[acts[k].i].pc.Idle?
    ensures acts[k].i < |ss[k].contexts| && ss[k].contexts[acts[k].i].pc.Swapping?
    ensures j < k && Sees(acts[j], acts[k].i) && ss[j].usage + ss[k].contexts[acts[k].i].pc.asked > max
  {
    assert StepAt(ss, acts, max, k);
    j := SeenWasUsage(ss, acts, max, k, acts[k].i);
  }

  /** One that fits is sent back, other than spuriously, only if another allocation was granted something or a filter
      subtracted something since it last looked. */
  lemma RetryHasAWinner(ss: seq<State>, acts: seq<Action>, max: nat, k: nat) returns (m: nat)
    requires IsRun(ss, acts, max) && k < |acts| && acts[k].Swap? && !acts[k].spurious
    requires acts[k].i < |ss[k + 1].contexts| && ss[k + 1].contexts[acts[k].i].pc.Swapping?
    ensures m < k && ss[m].usage != ss[m + 1].usage
    ensures acts[m].Subtract? || (acts[m].Swap? && acts[m].i != acts[k].i)
    ensures forall n | m < n < k :: !Sees(acts[n], acts[k].i)
  {
    assert StepAt(ss, acts, max, k);
    var j := SeenWasUsage(ss, acts, max, k, acts[k].i);
    m := UsageMoved(ss, j + 1, k);
    assert StepAt(ss, acts, max, m);
  }
}
