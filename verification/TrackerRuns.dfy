/** Runs of the allocation tracker's operations, one at a time: the lists, the counters and the reserves as
    values, where each byte that `currentUsage` counts went, and which units are linked. */
module TrackerRuns {
  import opened Sequences
  import opened Chains
  import opened TrackerLists

  /** What a context reserves at a time, and the size from which an allocation bypasses the reserve. */
  const PRERESERVE := 2 * 1024 * 1024
  const PRERESERVE_SKIP := 256 * 1024

  /** The lists, each context's reserve, `currentUsage` and `lifetimeBytesAllocated`. */
  datatype Tracked = Tracked(lists: Lists, reserves: seq<nat>, usage: nat, lifetime: nat)

  /** The range of the counters' machine word. */
  const WORD := 0x1_0000_0000_0000_0000

  const START := Tracked(EMPTY, [], 0, 0)

  // ---- Operations

  datatype Op =
    | DoNewContext
    | DoAllocate(i: nat, u: AllocUnit)
    | DoFreeContext(i: nat)
    | DoTakeSnapshot
    | DoFilter(keep: set<AllocUnit>)

  /** A unit handed out by the allocator is linked nowhere, and one snapshot is filtered before the next
      is taken. */
  ghost predicate Allowed(t: Tracked, op: Op) {
    && |t.reserves| == |t.lists.contexts|
    && match op
       case DoNewContext => true
       case DoAllocate(i, u) => i < |t.reserves| && u !in Blocks(t.lists)
       case DoFreeContext(i) => i < |t.reserves|
       case DoTakeSnapshot => t.lists.snapshot == []
       case DoFilter(keep) => true
  }

  /** What an allocation takes from the heap and what it leaves in the context's reserve. */
  datatype Charge = Refused | Charged(taken: nat, reserve: nat)

  /** A small unit is paid from the context's reserve, which takes `PRERESERVE` bytes of the heap if it does
      not suffice; a large unit takes its own size from the heap. */
  function ChargeFor(size: nat, reserve: nat, room: int): Charge {
    var total := size + HEADER;
    if size < PRERESERVE_SKIP then
      if total <= reserve then Charged(0, reserve - total)
      else if PRERESERVE <= room then Charged(PRERESERVE, reserve + PRERESERVE - total)
      else Refused
    else if total <= room then Charged(total, reserve)
    else Refused
  }

  function ChargeOf(t: Tracked, i: nat, size: nat, max: nat): Charge
    requires i < |t.reserves|
  {
    ChargeFor(size, t.reserves[i], max - t.usage)
  }

  ghost function Allocated(t: Tracked, i: nat, u: AllocUnit, max: nat): Tracked
    requires i < |t.reserves| == |t.lists.contexts|
  {
    match ChargeOf(t, i, u.size, max)
    case Refused => t
    case Charged(taken, reserve) =>
      Tracked(Allocate(t.lists, i, u), t.reserves[i := reserve], t.usage + taken, t.lifetime + taken)
  }

  /** The three ways to pay for a unit of `size` bytes and its header of 40, where `used` of at most `max` bytes are
      in use: nothing but the reserve pays for a unit of less than 256 KiB that it covers; if it does not, it takes
      2 MiB, or there is no unit; and a larger unit takes its own bytes, or there is no unit. */
  predicate PaidFor(size: nat, granted: bool, used: nat, max: nat, taken: int, reserve: nat, reserve': int) {
    && (size < 262144 && size + 40 <= reserve ==> granted && taken == 0 && reserve' == reserve - size - 40)
    && (size < 262144 && size + 40 > reserve ==>
      && (granted <==> used + 2097152 <= max)
      && (granted ==> taken == 2097152 && reserve' == reserve + 2097152 - size - 40))
    && (size >= 262144 ==>
      && (granted <==> used + size + 40 <= max)
      && (granted ==> taken == size + 40 && reserve' == reserve))
    && (!granted ==> taken == 0 && reserve' == reserve)
  }

  /** An allocation is paid for so, both counters grow by what is taken, and the unit is the last of its context's
      list; one that is refused changes nothing. */
  lemma AllocatedIsPaidFor(t: Tracked, i: nat, u: AllocUnit, max: nat)
    requires i < |t.reserves| == |t.lists.contexts|
    ensures var t', granted := Allocated(t, i, u, max), ChargeOf(t, i, u.size, max).Charged?;
      && t'.lifetime - t.lifetime == t'.usage - t.usage
      && PaidFor(u.size, granted, t.usage, max, t'.usage - t.usage, t.reserves[i], t'.reserves[i])
      && t'.reserves == t.reserves[i := t'.reserves[i]]
      && (granted ==>
        t'.lists == t.lists.(contexts := t.lists.contexts[i := t.lists.contexts[i] + [u]]))
      && (!granted ==> t' == t)
  {
  }

  /** The bytes of the units that a filter frees. */
  ghost function FilteredBytes(t: Tracked, keep: set<AllocUnit>): nat {
    Bytes(Dropped(t.lists.snapshot, keep))
  }

  /** An ended context does not give its reserve back; a filter subtracts the bytes it freed, in a word that
      would wrap below zero. */
  ghost function Do(t: Tracked, op: Op, max: nat): Tracked
    requires Allowed(t, op)
  {
    match op
    case DoNewContext => t.(lists := NewContext(t.lists), reserves := [0] + t.reserves)
    case DoAllocate(i, u) => Allocated(t, i, u, max)
    case DoFreeContext(i) =>
      t.(lists := FreeContext(t.lists, i), reserves := t.reserves[..i] + t.reserves[i + 1..])
    case DoTakeSnapshot => t.(lists := TakeSnapshot(t.lists))
    case DoFilter(keep) =>
      var freed := FilteredBytes(t, keep);
      t.(lists := FilterSnapshot(t.lists, keep),
         usage := if freed <= t.usage then t.usage - freed else (t.usage - freed) % WORD)
  }

  /** A context ends: its list goes in reverse to the front of the global one, its reserve stays counted, and nothing
      else changes. */
  lemma FreeContextGives(t: Tracked, i: nat, max: nat)
    requires Allowed(t, DoFreeContext(i))
    ensures var t', xs := Do(t, DoFreeContext(i), max), t.lists.contexts[i];
      && t'.lists.contexts == t.lists.contexts[..i] + t.lists.contexts[i + 1..]
      && t'.reserves == t.reserves[..i] + t.reserves[i + 1..]
      && |t'.lists.global| == |xs| + |t.lists.global| && t'.lists.global[|xs|..] == t.lists.global
      && (forall k | 0 <= k < |xs| :: t'.lists.global[k] == xs[|xs| - 1 - k])
      && t'.lists.snapshot == t.lists.snapshot && t'.usage == t.usage && t'.lifetime == t.lifetime
  {
    var xs := t.lists.contexts[i];
    forall k | 0 <= k < |xs| ensures Reverse(xs)[k] == xs[|xs| - 1 - k] { ReversedAt(xs, k); }
  }

  /** A snapshot takes the contexts' lists in order and then the global one, and leaves all of them empty. */
  lemma SnapshotTakes(t: Tracked, max: nat)
    requires Allowed(t, DoTakeSnapshot)
    ensures var t' := Do(t, DoTakeSnapshot, max);
      && t'.lists.snapshot == Concat(t.lists.contexts) + t.lists.global && t'.lists.global == []
      && |t'.lists.contexts| == |t.lists.contexts|
      && (forall i | 0 <= i < |t.lists.contexts| :: t'.lists.contexts[i] == [])
      && t'.reserves == t.reserves && t'.usage == t.usage && t'.lifetime == t.lifetime
  {
  }

  /** A filter puts exactly the units to keep before the global list, empties the snapshot, and takes from the usage
      40 bytes and the size of each of the others. */
  lemma FilterGives(t: Tracked, keep: set<AllocUnit>, max: nat) returns (kept: seq<AllocUnit>, freed: seq<AllocUnit>)
    requires Allowed(t, DoFilter(keep))
    ensures forall u :: u in kept <==> u in t.lists.snapshot && u in keep
    ensures forall u :: u in freed <==> u in t.lists.snapshot && u !in keep
    ensures multiset(kept) + multiset(freed) == multiset(t.lists.snapshot)
    ensures var t' := Do(t, DoFilter(keep), max);
      && t'.lists == Lists(t.lists.contexts, kept + t.lists.global, [])
      && t'.reserves == t.reserves && t'.lifetime == t.lifetime
      && (SizesAndHeaders(freed) <= t.usage ==> t'.usage == t.usage - SizesAndHeaders(freed))
  {
    var xs := t.lists.snapshot;
    kept, freed := Reverse(Filter(xs, keep)), Dropped(xs, keep);
    FilterBlocks(xs, keep);
    ReverseBlocks(Filter(xs, keep));
    BytesInWords(freed);
  }

  function SizesAndHeaders(xs: seq<AllocUnit>): nat {
    if xs == [] then 0 else xs[0].size + 40 + SizesAndHeaders(xs[1..])
  }

  lemma {:induction false} BytesInWords(xs: seq<AllocUnit>)
    ensures Bytes(xs) == SizesAndHeaders(xs)
  {
    if xs != [] {
      assert xs == [xs[0]] + xs[1..];
      BytesAppend([xs[0]], xs[1..]);
      BytesOne(xs[0]);
      BytesInWords(xs[1..]);
    }
  }

  ghost predicate IsRun(ts: seq<Tracked>, ops: seq<Op>, max: nat) {
    && |ts| == |ops| + 1
    && ts[0] == START
    && forall k | 0 <= k < |ops| :: StepAt(ts, ops, max, k)
  }

  ghost predicate StepAt(ts: seq<Tracked>, ops: seq<Op>, max: nat, k: nat)
    requires k < |ops| < |ts|
  {
    Allowed(ts[k], ops[k]) && ts[k + 1] == Do(ts[k], ops[k], max)
  }

  // ---- Every live unit is linked once

  /** The live units after an operation: those live before that it does not free, and the new one. */
  ghost function LiveAfter(live: set<AllocUnit>, t: Tracked, op: Op, max: nat): set<AllocUnit>
    requires Allowed(t, op)
  {
    match op
    case DoAllocate(i, u) => if ChargeOf(t, i, u.size, max).Charged? then live + {u} else live
    case DoFilter(keep) => live - Elements(Dropped(t.lists.snapshot, keep))
    case _ => live
  }

  ghost function Live(ts: seq<Tracked>, ops: seq<Op>, max: nat, n: nat): set<AllocUnit>
    requires IsRun(ts, ops, max) && n <= |ops|
  {
    if n == 0 then {} else
      assert StepAt(ts, ops, max, n - 1);
      LiveAfter(Live(ts, ops, max, n - 1), ts[n - 1], ops[n - 1], max)
  }

  /** If every live unit is linked once, and nothing else is linked, the same holds after an operation. */
  lemma OpConserves(t: Tracked, op: Op, max: nat, live: set<AllocUnit>)
    requires Blocks(t.lists) == multiset(live) && Allowed(t, op)
    ensures Blocks(Do(t, op, max).lists) == multiset(LiveAfter(live, t, op, max))
  {
    match op
    case DoNewContext => NewContextConserves(t.lists);
    case DoAllocate(i, u) => AllocateConserves(t.lists, i, u); assert u !in live;
    case DoFreeContext(i) => FreeContextConserves(t.lists, i);
    case DoTakeSnapshot => SnapshotConserves(t.lists);
    case DoFilter(keep) => FilterLeavesLive(t.lists, keep, live);
  }

  /** Over any run of allocations, context creations and ends, snapshots and filters, every live unit is
      linked exactly once, in one context, in the global list or in the snapshot, and nothing else is. */
  lemma {:induction false} EveryLiveUnitIsLinkedOnce(ts: seq<Tracked>, ops: seq<Op>, max: nat, n: nat)
    requires IsRun(ts, ops, max) && n <= |ops|
    ensures Blocks(ts[n].lists) == multiset(Live(ts, ops, max, n))
  {
    if n > 0 {
      assert StepAt(ts, ops, max, n - 1);
      EveryLiveUnitIsLinkedOnce(ts, ops, max, n - 1);
      OpConserves(ts[n - 1], ops[n - 1], max, Live(ts, ops, max, n - 1));
    }
  }

  // ---- Where the bytes went

  function Sum(xs: seq<nat>): nat {
    if xs == [] then 0 else Sum(xs[..|xs| - 1]) + xs[|xs| - 1]
  }

  /** What ended contexts took with them, the bytes freed, and the contexts created. */
  datatype Past = Past(leaked: nat, freed: nat, contexts: nat)

  ghost function PastAfter(h: Past, t: Tracked, op: Op): Past
    requires Allowed(t, op)
  {
    match op
    case DoNewContext => h.(contexts := h.contexts + 1)
    case DoFreeContext(i) => h.(leaked := h.leaked + t.reserves[i])
    case DoFilter(keep) => h.(freed := h.freed + FilteredBytes(t, keep))
    case _ => h
  }

  ghost function PastOf(ts: seq<Tracked>, ops: seq<Op>, max: nat, n: nat): Past
    requires IsRun(ts, ops, max) && n <= |ops|
  {
    if n == 0 then Past(0, 0, 0) else
      assert StepAt(ts, ops, max, n - 1);
      PastAfter(PastOf(ts, ops, max, n - 1), ts[n - 1], ops[n - 1])
  }

  /** Usage is what the units and the reserves take and what ended contexts leaked, and within the maximum;
      all that was ever allocated is in use or freed; leaks are bounded by the contexts ended. */
  ghost predicate Balanced(t: Tracked, h: Past, max: nat) {
    && t.usage == LiveBytes(t.lists) + Sum(t.reserves) + h.leaked
    && t.usage <= max
    && t.lifetime == t.usage + h.freed
    && Reserved(t.reserves, h)
  }

  ghost predicate Reserved(reserves: seq<nat>, h: Past) {
    && (forall i | 0 <= i < |reserves| :: reserves[i] < PRERESERVE)
    && |reserves| <= h.contexts && h.leaked <= PRERESERVE * (h.contexts - |reserves|)
  }

  lemma {:induction false} SumFront(x: nat, xs: seq<nat>)
    ensures Sum([x] + xs) == x + Sum(xs)
  {
    if xs == [] {
      assert [x] + xs == [x] && [x][..0] == [];
    } else {
      var n := |xs| - 1;
      assert ([x] + xs)[..n + 1] == [x] + xs[..n];
      SumFront(x, xs[..n]);
    }
  }

  lemma {:induction false} SumRemove(xs: seq<nat>, i: nat)
    requires i < |xs|
    ensures Sum(xs) == Sum(xs[..i] + xs[i + 1..]) + xs[i]
  {
    var n := |xs| - 1;
    if i == n {
      assert xs[..i] + xs[i + 1..] == xs[..n];
    } else {
      var rest := xs[..i] + xs[i + 1..];
      RemoveBeforeLast(xs, i);
      SumRemove(xs[..n], i);
    }
  }

  lemma SumUpdate(xs: seq<nat>, i: nat, x: nat)
    requires i < |xs|
    ensures Sum(xs[i := x]) == Sum(xs) - xs[i] + x
  {
    SumRemove(xs, i);
    SumRemove(xs[i := x], i);
    assert xs[i := x][..i] + xs[i := x][i + 1..] == xs[..i] + xs[i + 1..];
  }

  lemma AllocateBalances(t: Tracked, h: Past, max: nat, i: nat, u: AllocUnit)
    requires Balanced(t, h, max) && i < |t.reserves| == |t.lists.contexts|
    ensures Balanced(Allocated(t, i, u, max), h, max)
  {
    var c := ChargeOf(t, i, u.size, max);
    if c.Charged? {
      AllocateBytes(t.lists, i, u);
      SumUpdate(t.reserves, i, c.reserve);
    }
  }

  lemma FilterCannotUnderflow(t: Tracked, h: Past, max: nat, keep: set<AllocUnit>)
    requires Balanced(t, h, max)
    ensures FilteredBytes(t, keep) <= t.usage
    ensures LiveBytes(FilterSnapshot(t.lists, keep)) + FilteredBytes(t, keep) == LiveBytes(t.lists)
  {
    FilterBytes(t.lists, keep);
  }

  lemma NewContextBalances(t: Tracked, h: Past, max: nat, op: Op)
    requires Balanced(t, h, max) && Allowed(t, op) && op.DoNewContext?
    ensures Balanced(Do(t, op, max), PastAfter(h, t, op), max)
  {
    NewContextBytes(t.lists);
    SumFront(0, t.reserves);
  }

  lemma LeakIsReserved(reserves: seq<nat>, h: Past, i: nat)
    requires Reserved(reserves, h) && i < |reserves|
    ensures Reserved(reserves[..i] + reserves[i + 1..], h.(leaked := h.leaked + reserves[i]))
  {
  }

  /** What moves bytes between reserves and leaks keeps the balance. */
  lemma Rebalance(t: Tracked, h: Past, t': Tracked, h': Past, max: nat)
    requires Balanced(t, h, max) && Reserved(t'.reserves, h')
    requires t'.usage == t.usage && t'.lifetime == t.lifetime && h'.freed == h.freed
    requires LiveBytes(t'.lists) == LiveBytes(t.lists)
    requires Sum(t'.reserves) + h'.leaked == Sum(t.reserves) + h.leaked
    ensures Balanced(t', h', max)
  {
  }

  lemma LeakKeepsSum(reserves: seq<nat>, h: Past, i: nat)
    requires i < |reserves|
    ensures Sum(reserves[..i] + reserves[i + 1..]) + (h.leaked + reserves[i]) == Sum(reserves) + h.leaked
  {
    SumRemove(reserves, i);
  }

  lemma FreeContextBalances(t: Tracked, h: Past, max: nat, i: nat)
    requires Balanced(t, h, max) && Allowed(t, DoFreeContext(i))
    ensures Balanced(Do(t, DoFreeContext(i), max), PastAfter(h, t, DoFreeContext(i)), max)
  {
    FreeContextBytes(t.lists, i);
    LeakKeepsSum(t.reserves, h, i);
    LeakIsReserved(t.reserves, h, i);
    Rebalance(t, h, Do(t, DoFreeContext(i), max), PastAfter(h, t, DoFreeContext(i)), max);
  }

  lemma SnapshotBalances(t: Tracked, h: Past, max: nat)
    requires Balanced(t, h, max) && Allowed(t, DoTakeSnapshot)
    ensures Balanced(Do(t, DoTakeSnapshot, max), h, max)
  {
    SnapshotBytes(t.lists);
  }

  lemma FilterBalances(t: Tracked, h: Past, max: nat, keep: set<AllocUnit>)
    requires Balanced(t, h, max) && Allowed(t, DoFilter(keep))
    ensures Balanced(Do(t, DoFilter(keep), max), PastAfter(h, t, DoFilter(keep)), max)
  {
    FilterCannotUnderflow(t, h, max, keep);
  }

  lemma OpBalances(t: Tracked, h: Past, max: nat, op: Op)
    requires Balanced(t, h, max) && Allowed(t, op)
    ensures Balanced(Do(t, op, max), PastAfter(h, t, op), max)
  {
    match op
    case DoNewContext => NewContextBalances(t, h, max, op);
    case DoAllocate(i, u) => AllocateBalances(t, h, max, i, u);
    case DoFreeContext(i) => FreeContextBalances(t, h, max, i);
    case DoTakeSnapshot => SnapshotBalances(t, h, max);
    case DoFilter(keep) => FilterBalances(t, h, max, keep);
  }

  lemma {:induction false} RunBalances(ts: seq<Tracked>, ops: seq<Op>, max: nat, n: nat)
    requires IsRun(ts, ops, max) && n <= |ops|
    ensures Balanced(ts[n], PastOf(ts, ops, max, n), max)
  {
    if n > 0 {
      assert StepAt(ts, ops, max, n - 1);
      RunBalances(ts, ops, max, n - 1);
      OpBalances(ts[n - 1], PastOf(ts, ops, max, n - 1), max, ops[n - 1]);
    } else {
      StartBalances(max);
    }
  }

  lemma StartBalances(max: nat)
    ensures Balanced(START, Past(0, 0, 0), max)
  {
    assert LiveBytes(EMPTY) == 0;
  }

  /** Over any run: the live bytes are within `currentUsage`, which is within the maximum and over-reports by
      at most `PRERESERVE` for each context ever created; what was ever counted is in use or freed; and no
      filter subtracts more than there is. */
  lemma UsageIsBounded(ts: seq<Tracked>, ops: seq<Op>, max: nat, n: nat, keep: set<AllocUnit>)
    requires IsRun(ts, ops, max) && n <= |ops|
    ensures var h := PastOf(ts, ops, max, n);
      && LiveBytes(ts[n].lists) <= ts[n].usage <= max
      && ts[n].usage <= LiveBytes(ts[n].lists) + PRERESERVE * h.contexts
      && ts[n].lifetime == ts[n].usage + h.freed
      && FilteredBytes(ts[n], keep) <= ts[n].usage
  {
    RunBalances(ts, ops, max, n);
    OverReport(ts[n], PastOf(ts, ops, max, n), max);
    FilterCannotUnderflow(ts[n], PastOf(ts, ops, max, n), max, keep);
  }

  lemma OverReport(t: Tracked, h: Past, max: nat)
    requires Balanced(t, h, max)
    ensures t.usage <= LiveBytes(t.lists) + PRERESERVE * h.contexts
  {
    SumBound(t.reserves);
  }

  lemma {:induction false} SumBound(xs: seq<nat>)
    requires forall i | 0 <= i < |xs| :: xs[i] < PRERESERVE
    ensures Sum(xs) <= PRERESERVE * |xs|
  {
    if xs != [] {
      SumBound(xs[..|xs| - 1]);
    }
  }

  // ---- What ended contexts leak

  /** A context starts, allocates a small unit and ends; the unit is then freed. */
  ghost function Round(u: AllocUnit): seq<Op> {
    [DoNewContext, DoAllocate(0, u), DoFreeContext(0), DoTakeSnapshot, DoFilter({})]
  }

  ghost function Rounds(u: AllocUnit, n: nat): seq<Op> {
    if n == 0 then [] else Rounds(u, n - 1) + Round(u)
  }

  ghost function RoundStates(u: AllocUnit, usage: nat, lifetime: nat): seq<Tracked>
    requires u.size + HEADER <= PRERESERVE
  {
    var left, up, ever := PRERESERVE - u.size - HEADER, usage + PRERESERVE, lifetime + PRERESERVE;
    [Tracked(Lists([[]], [], []), [0], usage, lifetime),
     Tracked(Lists([[u]], [], []), [left], up, ever),
     Tracked(Lists([], [u], []), [], up, ever),
     Tracked(Lists([], [], [u]), [], up, ever),
     Tracked(EMPTY, [], usage + left, ever)]
  }

  ghost function RoundsStates(u: AllocUnit, n: nat): (r: seq<Tracked>)
    requires u.size + HEADER <= PRERESERVE
    ensures |r| == 5 * n + 1 && r[0] == START
    ensures r[5 * n] == Tracked(EMPTY, [], n * (PRERESERVE - u.size - HEADER), n * PRERESERVE)
  {
    if n == 0 then [START] else
      var left := PRERESERVE - u.size - HEADER;
      RoundsStates(u, n - 1) + RoundStates(u, (n - 1) * left, (n - 1) * PRERESERVE)
  }

  lemma RoundAllocates(u: AllocUnit, usage: nat, lifetime: nat, max: nat)
    requires u.size < PRERESERVE_SKIP && usage + PRERESERVE <= max
    ensures var ts := RoundStates(u, usage, lifetime);
      Allowed(ts[0], DoAllocate(0, u)) && ts[1] == Do(ts[0], DoAllocate(0, u), max)
  {
    var lists := RoundStates(u, usage, lifetime)[0].lists;
    assert Empties(1)[..0] == [] && Empties(1) == [[]];
    assert Blocks(lists) == multiset{};
    assert lists.contexts[0] + [u] == [u];
    assert Allocate(lists, 0, u).contexts == [[u]];
  }

  lemma RoundFilters(u: AllocUnit, usage: nat, lifetime: nat, max: nat)
    requires u.size < PRERESERVE_SKIP
    ensures var ts := RoundStates(u, usage, lifetime);
      Allowed(ts[3], DoFilter({})) && ts[4] == Do(ts[3], DoFilter({}), max)
  {
    BytesOne(u);
    SelectFront([], u, {}, true);
    SelectFront([], u, {}, false);
    assert [u] + [] == [u];
    assert Filter([u], {}) == [] && Dropped([u], {}) == [u];
  }

  lemma RoundMoves(u: AllocUnit, usage: nat, lifetime: nat, max: nat)
    requires u.size < PRERESERVE_SKIP
    ensures var ts := RoundStates(u, usage, lifetime);
      && Allowed(ts[1], DoFreeContext(0)) && ts[2] == Do(ts[1], DoFreeContext(0), max)
      && Allowed(ts[2], DoTakeSnapshot) && ts[3] == Do(ts[2], DoTakeSnapshot, max)
  {
    assert [u][..0] == [] && Reverse([u]) + [] == [u];
  }

  lemma RoundIsAllowed(u: AllocUnit, usage: nat, lifetime: nat, max: nat, k: nat)
    requires u.size < PRERESERVE_SKIP && usage + PRERESERVE <= max && k < 5
    ensures StepAt([Tracked(EMPTY, [], usage, lifetime)] + RoundStates(u, usage, lifetime), Round(u), max, k)
  {
    if k == 1 {
      RoundAllocates(u, usage, lifetime, max);
    } else if k == 2 || k == 3 {
      RoundMoves(u, usage, lifetime, max);
    } else if k == 4 {
      RoundFilters(u, usage, lifetime, max);
    }
  }

  /** However large `n` is, after `n` such rounds there is no context and no live byte, and `currentUsage`
      still counts almost 2 MiB for each ended context. */
  lemma {:induction false} EndedContextsLeak(u: AllocUnit, n: nat, max: nat)
    requires u.size < PRERESERVE_SKIP
    requires n == 0 || (n - 1) * (PRERESERVE - u.size - HEADER) + PRERESERVE <= max
    ensures IsRun(RoundsStates(u, n), Rounds(u, n), max)
  {
    if n > 0 {
      var left := PRERESERVE - u.size - HEADER;
      assert n > 1 ==> (n - 2) * left <= (n - 1) * left;
      EndedContextsLeak(u, n - 1, max);
      var ts, ops, m := RoundsStates(u, n), Rounds(u, n), 5 * (n - 1);
      forall k | 0 <= k < |ops| ensures StepAt(ts, ops, max, k) {
        if k < m {
          assert StepAt(RoundsStates(u, n - 1), Rounds(u, n - 1), max, k);
        } else {
          RoundIsAllowed(u, (n - 1) * left, (n - 1) * PRERESERVE, max, k - m);
        }
      }
    }
  }

  ghost predicate RefusesNewcomers(room: int) {
    forall size: nat | size < PRERESERVE_SKIP :: ChargeFor(size, 0, room).Refused?
  }

  /** Whatever the maximum, some run ends with no context and no live byte, and from then on refuses every
      small allocation of a new context. */
  lemma LeaksStarveTheHeap(u: AllocUnit, max: nat)
    requires u.size < PRERESERVE_SKIP
    ensures exists ts: seq<Tracked>, ops: seq<Op> ::
      && IsRun(ts, ops, max) && ts[|ops|].lists == EMPTY
      && RefusesNewcomers(max - ts[|ops|].usage)
  {
    var n := EnoughRounds(PRERESERVE - u.size - HEADER, max);
    EndedContextsLeak(u, n, max);
    RoundsCount(u, n);
    var ts, ops := RoundsStates(u, n), Rounds(u, n);
    assert ts[|ops|] == Tracked(EMPTY, [], n * (PRERESERVE - u.size - HEADER), n * PRERESERVE);
    assert RefusesNewcomers(max - ts[|ops|].usage);
    assert IsRun(ts, ops, max) && ts[|ops|].lists == EMPTY;
  }

  /** How many rounds it takes to leave less than `PRERESERVE` bytes. */
  lemma EnoughRounds(left: nat, max: nat) returns (n: nat)
    requires left > 0
    ensures n * left + PRERESERVE > max
    ensures n == 0 || (n - 1) * left + PRERESERVE <= max
  {
    if max < PRERESERVE {
      n := 0;
    } else {
      var q := (max - PRERESERVE) / left;
      n := q + 1;
      assert n * left == q * left + left;
    }
  }

  lemma {:induction false} RoundsCount(u: AllocUnit, n: nat)
    ensures |Rounds(u, n)| == 5 * n
  {
    if n > 0 { RoundsCount(u, n - 1); }
  }
}
