/** The allocation tracker and its contexts, in place: intrusive lists spliced through `next`, and the
    usage counters. One caller at a time; GlobalList and Accounting treat the concurrent callers. */
module AllocTracker {
  import opened Sequences
  import opened Chains
  import opened TrackerLists
  import opened ListPointers
  import opened TrackerRuns

  class AllocContext {
    var preReservedUsage: nat
    var allocListHead: AllocUnit?
    var allocListTail: AllocUnit?

    predicate Is(ends: Ends, reserve: nat)
      reads this
    {
      allocListHead == ends.head && allocListTail == ends.tail && preReservedUsage == reserve
    }

    constructor ()
      ensures preReservedUsage == 0 && allocListHead == null && allocListTail == null
    {
      preReservedUsage, allocListHead, allocListTail := 0, null, null;
    }

    method AddBlock(block: AllocUnit)
      requires block.next == null && block != allocListTail
      modifies this`allocListHead, this`allocListTail, if allocListTail == null then {} else {allocListTail}
      ensures allocListHead == if old(allocListHead) == null then block else old(allocListHead)
      ensures allocListTail == block
      ensures old(allocListTail) != null ==> old(allocListTail).next == block
    {
      if allocListHead == null {
        allocListHead := block;
      }
      if allocListTail != null {
        allocListTail.next := block;
      }
      allocListTail := block;
    }
  }

  /** These contexts' fields. */
  ghost predicate Match(contexts: seq<AllocContext>, ends: seq<Ends>, reserves: seq<nat>)
    reads contexts
  {
    && Distinct(contexts)
    && |contexts| == |ends| == |reserves|
    && forall i | 0 <= i < |contexts| :: contexts[i].Is(ends[i], reserves[i])
  }

  lemma MatchWithout(contexts: seq<AllocContext>, ends: seq<Ends>, reserves: seq<nat>, i: nat)
    requires Match(contexts, ends, reserves) && i < |contexts|
    ensures Match(contexts[..i] + contexts[i + 1..], ends[..i] + ends[i + 1..], reserves[..i] + reserves[i + 1..])
  {
  }

  class Tracker {
    const maxSize: nat
    var currentUsage: nat
    var lifetimeBytesAllocated: nat
    var head: AllocUnit?
    var contexts: seq<AllocContext>
    var snapshot: AllocUnit?

    /** The pointers in memory, the lists they form, and the contexts' reserves. */
    ghost var p: Pointers
    ghost var view: Lists
    ghost var reserves: seq<nat>

    ghost predicate InMemory()
      reads this, p.next.Keys
    {
      head == p.head && forall u | u in p.next :: u.next == p.next[u]
    }

    ghost predicate Valid()
      reads this, contexts, p.next.Keys
    {
      && InMemory() && snapshot == p.snapshot && Match(contexts, p.contexts, reserves)
      && Shape(p, view)
    }

    ghost function State(): Tracked
      reads this
    {
      Tracked(view, reserves, currentUsage, lifetimeBytesAllocated)
    }

    constructor (maxSize: nat)
      ensures Valid() && State() == START && this.maxSize == maxSize
    {
      this.maxSize := maxSize;
      currentUsage, lifetimeBytesAllocated, reserves := 0, 0, [];
      head, snapshot, contexts, view, p := null, null, [], EMPTY, Pointers(map[], [], null, null);
    }

    // ---- Contexts

    method NewContext() returns (ctx: AllocContext)
      requires Valid()
      modifies this`contexts, this`view, this`p, this`reserves
      ensures Valid() && fresh(ctx) && contexts == [ctx] + old(contexts)
      ensures State() == Do(old(State()), DoNewContext, maxSize)
    {
      ctx := new AllocContext();
      contexts := [ctx] + contexts;
      AddContextShape(p, view);
      reserves := [0] + reserves;
      p := p.(contexts := [Ends(null, null)] + p.contexts);
      view := TrackerLists.NewContext(view);
      forall i | 0 <= i < |contexts| ensures contexts[i].Is(p.contexts[i], reserves[i]) {
        if i > 0 { assert contexts[i] == old(contexts)[i - 1]; }
      }
    }

    /** The block becomes the head of the global list. */
    method AddBlockToGlobalList(block: AllocUnit)
      requires InMemory() && Shape(p, view) && block !in Blocks(view)
      modifies this`head, this`view, this`p, block`next
      ensures InMemory() && Shape(p, view)
      ensures p == Push(old(p), block) && view == old(view).(global := [block] + old(view).global)
      ensures Blocks(view) == Blocks(old(view)) + multiset{block}
    {
      PushShape(p, view, block);
      block.next := head;
      head := block;
      p := Push(p, block);
      view := view.(global := [block] + view.global);
    }

    /** The walk over a context's list has read the `next` of the first unit: the unit belongs to no list. */
    ghost method DetachFirst(i: nat)
      requires InMemory() && Shape(p, view) && i < |view.contexts| && view.contexts[i] != []
      modifies this`view, this`p
      ensures InMemory() && Shape(p, view) && p.next == old(p).next && view == PopContext(old(view), i)
      ensures p.contexts == old(p).contexts[i := EndsOf(view.contexts[i])]
      ensures old(view).contexts[i][0] !in Blocks(view) && old(view).contexts[i][0] in p.next
      ensures p.contexts[i].head == p.next[old(view).contexts[i][0]]
    {
      PopContextShape(p, view, i);
      p := p.(contexts := p.contexts[i := EndsOf(view.contexts[i][1..])]);
      view := PopContext(view, i);
    }

    method MoveFirst(current: AllocUnit, ghost i: nat)
      requires InMemory() && Shape(p, view) && i < |view.contexts| && view.contexts[i] != []
      requires current == view.contexts[i][0]
      modifies this`head, this`view, this`p, current`next
      ensures InMemory() && Shape(p, view) && p.next.Keys == old(p.next.Keys)
      ensures |p.contexts| == |old(p).contexts| && p.contexts == old(p).contexts[i := p.contexts[i]]
      ensures p.contexts[i].head == old(current.next)
      ensures view == PopContext(old(view), i).(global := [current] + old(view).global)
    {
      DetachFirst(i);
      AddBlockToGlobalList(current);
    }

    /** `alloc_context_free`: walks the context's list and pushes each block, which overwrites its `next`. */
    method MoveToGlobal(ctx: AllocContext, ghost i: nat)
      requires InMemory() && Shape(p, view) && i < |view.contexts| && ctx.allocListHead == p.contexts[i].head
      modifies this`head, this`view, this`p, p.next.Keys
      ensures InMemory() && Shape(p, view)
      ensures Moving(old(view), view, i) && view.contexts[i] == []
      ensures |p.contexts| == |old(p).contexts| && p.contexts == old(p).contexts[i := p.contexts[i]]
    {
      var next := ctx.allocListHead;
      while next != null
        invariant InMemory() && Shape(p, view) && p.next.Keys == old(p.next.Keys)
        invariant |p.contexts| == |old(p).contexts| && next == p.contexts[i].head
        invariant p.contexts == old(p).contexts[i := p.contexts[i]]
        invariant Moving(old(view), view, i)
        decreases |view.contexts[i]|
      {
        assert ContextShape(p, view, i);
        MoveOne(old(view), view, i);
        var current := next;
        next := next.next;
        MoveFirst(current, i);
      }
      assert ContextShape(p, view, i);
    }

    /** The blocks move to the global list; what the context had in reserve stays in `currentUsage`. */
    method FreeContext(ctx: AllocContext, i: nat)
      requires Valid() && i < |contexts| && contexts[i] == ctx
      modifies this`contexts, this`head, this`view, this`p, this`reserves, p.next.Keys
      ensures Valid() && contexts == old(contexts)[..i] + old(contexts)[i + 1..]
      ensures State() == Do(old(State()), DoFreeContext(i), maxSize)
    {
      ghost var v, ends := view, p.contexts;
      MatchWithout(contexts, ends, reserves, i);
      contexts := contexts[..i] + contexts[i + 1..];
      MoveToGlobal(ctx, i);
      DropMoved(p, ends, v, view, i);
      p := p.(contexts := ends[..i] + ends[i + 1..]);
      view := TrackerLists.FreeContext(v, i);
      reserves := reserves[..i] + reserves[i + 1..];
    }

    // ---- Allocation

    method SlowDoLargeAccounting(accountSize: nat) returns (ok: bool)
      modifies this`currentUsage, this`lifetimeBytesAllocated
      ensures ok <==> old(currentUsage) + accountSize <= maxSize
      ensures currentUsage == old(currentUsage) + if ok then accountSize else 0
      ensures lifetimeBytesAllocated == old(lifetimeBytesAllocated) + if ok then accountSize else 0
    {
      if currentUsage + accountSize > maxSize {
        return false;
      }
      currentUsage := currentUsage + accountSize;
      lifetimeBytesAllocated := lifetimeBytesAllocated + accountSize;
      return true;
    }

    method FastDoSmallAccounting(ctx: AllocContext, allocSize: nat) returns (ok: bool)
      requires allocSize <= PRERESERVE
      modifies this`currentUsage, this`lifetimeBytesAllocated, ctx`preReservedUsage
      ensures ok <==> allocSize <= old(ctx.preReservedUsage) || old(currentUsage) + PRERESERVE <= maxSize
      ensures !ok ==> ctx.preReservedUsage == old(ctx.preReservedUsage)
      ensures ok ==> ctx.preReservedUsage == old(ctx.preReservedUsage) + currentUsage - old(currentUsage) - allocSize
      ensures currentUsage - old(currentUsage) == lifetimeBytesAllocated - old(lifetimeBytesAllocated)
        == if ok && allocSize > old(ctx.preReservedUsage) then PRERESERVE else 0
    {
      if allocSize > ctx.preReservedUsage {
        ok := SlowDoLargeAccounting(PRERESERVE);
        if !ok {
          return false;
        }
        ctx.preReservedUsage := ctx.preReservedUsage + PRERESERVE;
      }
      ctx.preReservedUsage := ctx.preReservedUsage - allocSize;
      return true;
    }

    /** Takes the bytes of a unit from the context's reserve or from the heap. */
    method Account(ctx: AllocContext, ghost i: nat, size: nat) returns (ok: bool)
      requires Valid() && i < |contexts| && contexts[i] == ctx
      modifies this`currentUsage, this`lifetimeBytesAllocated, this`reserves, ctx`preReservedUsage
      ensures Valid()
      ensures var charge := ChargeOf(old(State()), i, size, maxSize);
        && (ok <==> charge.Charged?)
        && (!ok ==> State() == old(State()))
        && (ok ==> view == old(view) && reserves == old(reserves)[i := charge.reserve])
        && (ok ==> currentUsage == old(currentUsage) + charge.taken)
        && (ok ==> lifetimeBytesAllocated == old(lifetimeBytesAllocated) + charge.taken)
    {
      var totalSize := size + HEADER;
      if size < PRERESERVE_SKIP {
        ok := FastDoSmallAccounting(ctx, totalSize);
      } else {
        ok := SlowDoLargeAccounting(totalSize);
      }
      reserves := reserves[i := ctx.preReservedUsage];
    }

    method LinkLast(ctx: AllocContext, ghost i: nat, block: AllocUnit)
      requires InMemory() && Match(contexts, p.contexts, reserves) && i < |contexts| && contexts[i] == ctx
      requires block !in p.next && block.next == null
      requires ctx.allocListTail != null ==> ctx.allocListTail in p.next
      requires ctx.allocListHead == null <==> ctx.allocListTail == null
      modifies this`p, ctx, p.next.Keys
      ensures InMemory() && Match(contexts, p.contexts, reserves) && p == Append(old(p), i, block)
    {
      ctx.AddBlock(block);
      p := Append(p, i, block);
    }

    method AddToContext(ctx: AllocContext, ghost i: nat, block: AllocUnit)
      requires Valid() && i < |contexts| && contexts[i] == ctx && block !in p.next && block.next == null
      modifies this`view, this`p, ctx, p.next.Keys
      ensures Valid() && block !in Blocks(old(view)) && view == Allocate(old(view), i, block)
    {
      LinkedAreInMemory(p, view, block);
      AppendShape(p, view, i, block);
      assert ContextShape(p, view, i);
      TailIsLast(p.next, view.contexts[i], p.contexts[i].head);
      LinkLast(ctx, i, block);
      view := Allocate(view, i, block);
    }

    /** Pay for a unit and link it. */
    method PayAndLink(ctx: AllocContext, ghost i: nat, block: AllocUnit) returns (ok: bool)
      requires Valid() && i < |contexts| && contexts[i] == ctx && block !in p.next && block.next == null
      modifies this`currentUsage, this`lifetimeBytesAllocated, this`view, this`p, this`reserves, ctx, p.next.Keys
      ensures Valid()
      ensures ok <==> ChargeOf(old(State()), i, block.size, maxSize).Charged?
      ensures !ok ==> State() == old(State())
      ensures ok ==> Allowed(old(State()), DoAllocate(i, block))
      ensures ok ==> State() == Do(old(State()), DoAllocate(i, block), maxSize)
    {
      ok := Account(ctx, i, block.size);
      if ok {
        AddToContext(ctx, i, block);
      }
    }

    lemma ReserveIs(ctx: AllocContext, i: nat)
      requires Valid() && i < |contexts| && contexts[i] == ctx
      ensures ctx.preReservedUsage == reserves[i]
    {
      assert ctx.Is(p.contexts[i], reserves[i]);
    }

    /** A new unit at the tail of the context's list, unless the allocator or the heap has no room. */
    method Alloc(ctx: AllocContext, ghost i: nat, size: nat, mallocOk: bool) returns (block: AllocUnit?)
      requires Valid() && i < |contexts| && contexts[i] == ctx
      modifies this`currentUsage, this`lifetimeBytesAllocated, this`view, this`p, this`reserves, ctx, p.next.Keys
      ensures Valid()
      ensures block != null <==> mallocOk && ChargeOf(old(State()), i, size, maxSize).Charged?
      ensures block == null ==> State() == old(State())
      ensures block != null ==> fresh(block) && block.size == size
      ensures block != null ==> Allowed(old(State()), DoAllocate(i, block))
      ensures block != null ==> State() == Do(old(State()), DoAllocate(i, block), maxSize)
      ensures lifetimeBytesAllocated - old(lifetimeBytesAllocated) == currentUsage - old(currentUsage)
      ensures mallocOk ==> PaidFor(
        size, block != null, old(currentUsage), maxSize, currentUsage - old(currentUsage),
        old(ctx.preReservedUsage), ctx.preReservedUsage)
    {
      ReserveIs(ctx, i);
      if !mallocOk {
        return null;
      }
      block := new AllocUnit(size);
      AllocatedIsPaidFor(State(), i, block, maxSize);
      var ok := PayAndLink(ctx, i, block);
      ReserveIs(ctx, i);
      if !ok {
        return null;
      }
    }

    // ---- Snapshots

    /** `appendToSnapshot`: splices a list after the tail of what was gathered. The source's two `BUG_ON`s
        ask that each tail indeed be one. */
    method AppendToSnapshot(currentTail: AllocUnit?, first: AllocUnit?, tail: AllocUnit?) returns (newTail: AllocUnit?)
      requires InMemory() && snapshot == p.snapshot
      requires snapshot != null ==> currentTail != null && currentTail in p.next && currentTail.next == null
      requires tail != null ==> tail != currentTail && tail.next == null
      modifies this`snapshot, this`p, if currentTail == null then {} else {currentTail}
      ensures InMemory() && snapshot == p.snapshot && newTail == tail
      ensures p == Splice(old(p), currentTail, first)
    {
      p := Splice(p, currentTail, first);
      if snapshot == null {
        snapshot := first;
      } else {
        assert currentTail.next == null;
        currentTail.next := first;
      }
      assert !(tail != null && tail.next != null);
      newTail := tail;
    }

    method EmptyContext(ctx: AllocContext, ghost i: nat)
      requires Match(contexts, p.contexts, reserves) && i < |contexts| && contexts[i] == ctx
      modifies this`p, ctx
      ensures p == old(p).(contexts := old(p).contexts[i := EndsOf([])])
      ensures Match(contexts, p.contexts, reserves)
    {
      ctx.allocListHead := null;
      ctx.allocListTail := null;
      p := p.(contexts := p.contexts[i := EndsOf([])]);
    }

    /** A context's list, which is not empty, moves to the end of the snapshot. */
    method SpliceList(ctx: AllocContext, i: nat, currentTail: AllocUnit?) returns (newTail: AllocUnit?)
      requires Valid() && i < |contexts| && contexts[i] == ctx && currentTail == Last(view.snapshot)
      requires ctx.allocListHead != null
      modifies this`snapshot, this`view, this`p, ctx, p.next.Keys
      ensures Valid() && p.next.Keys == old(p.next.Keys)
      ensures view == SpliceContext(old(view), i) && newTail == Last(old(view).contexts[i])
    {
      TailIsLast(p.next, view.snapshot, p.snapshot);
      assert ContextShape(p, view, i);
      TailIsLast(p.next, view.contexts[i], p.contexts[i].head);
      ListsAreApart(view, i);
      newTail := AppendToSnapshot(currentTail, ctx.allocListHead, ctx.allocListTail);
      SpliceContextShape(old(p), view, i);
      EmptyContext(ctx, i);
      view := SpliceContext(view, i);
    }

    /** One turn of the loop over the contexts. */
    method GatherContext(ctx: AllocContext, i: nat, currentTail: AllocUnit?) returns (newTail: AllocUnit?)
      requires Valid() && i < |contexts| && contexts[i] == ctx && currentTail == Last(view.snapshot)
      modifies this`snapshot, this`view, this`p, ctx, p.next.Keys
      ensures Valid() && p.next.Keys == old(p.next.Keys)
      ensures view == SpliceContext(old(view), i) && newTail == Last(view.snapshot)
    {
      newTail := currentTail;
      assert ContextShape(p, view, i);
      TailIsLast(p.next, view.contexts[i], p.contexts[i].head);
      if ctx.allocListHead != null {
        newTail := SpliceList(ctx, i, currentTail);
      } else {
        assert SpliceContext(view, i) == view;
      }
    }

    method GatherContexts() returns (tail: AllocUnit?)
      requires Valid() && view.snapshot == []
      modifies this`snapshot, this`view, this`p, contexts, p.next.Keys
      ensures Valid() && p.next.Keys == old(p.next.Keys)
      ensures view == Gathered(old(view), |contexts|) && tail == Last(view.snapshot)
    {
      tail := null;
      var i := 0;
      while i < |contexts|
        invariant i <= |contexts| && Valid() && p.next.Keys == old(p.next.Keys)
        invariant view == Gathered(old(view), i) && tail == Last(view.snapshot)
      {
        tail := GatherContext(contexts[i], i, tail);
        i := i + 1;
      }
    }

    method GatherGlobal(tail: AllocUnit?)
      requires Valid() && tail == Last(view.snapshot)
      modifies this`snapshot, this`head, this`view, this`p, p.next.Keys
      ensures Valid() && view == SpliceGlobal(old(view)) && p.next.Keys == old(p.next.Keys)
    {
      SpliceGlobalShape(p, view);
      TailIsLast(p.next, view.snapshot, p.snapshot);
      var all := head;
      head := null;
      p := p.(head := null);
      var _ := AppendToSnapshot(tail, all, null);
      view := SpliceGlobal(view);
    }

    method Forget()
      requires Valid()
      modifies this`snapshot, this`view, this`p
      ensures Valid() && p.next == old(p.next) && view == ForgetSnapshot(old(view))
    {
      ForgetSnapshotShape(p, view);
      snapshot := null;
      p := p.(snapshot := null);
      view := ForgetSnapshot(view);
    }

    /** Empties every context's list, and the global one, into the snapshot. The snapshot is cleared first: what an
        unfiltered one still held is linked nowhere afterwards. */
    method TakeSnapshot()
      requires Valid()
      modifies this`snapshot, this`head, this`view, this`p, contexts, p.next.Keys
      ensures Valid() && p.next.Keys == old(p.next.Keys)
      ensures State() == old(State()).(lists := TrackerLists.TakeSnapshot(old(view)))
    {
      GatheredAll(ForgetSnapshot(view));
      Forget();
      var tail := GatherContexts();
      GatherGlobal(tail);
    }

    /** The units that a walk over the snapshot comes to. */
    method SnapshotUnits() returns (units: seq<AllocUnit>)
      requires Valid()
      ensures units == view.snapshot
    {
      var next := snapshot;
      units := [];
      while next != null
        invariant |units| <= |view.snapshot| && units == view.snapshot[..|units|]
        invariant next == At(view.snapshot, |units|)
        decreases |view.snapshot| - |units|
      {
        assert NextOf(p.next, next) == At(view.snapshot, |units| + 1);
        units := units + [next];
        next := next.next;
      }
    }

    /** The walk over the snapshot has read the `next` of the first unit; a unit that is kept is pushed,
        which overwrites its `next`, and any other unit is given back to the allocator. */
    method FilterFirst(current: AllocUnit, keep: set<AllocUnit>)
      requires InMemory() && Shape(p, view) && view.snapshot != [] && current == view.snapshot[0]
      modifies this`head, this`view, this`p, current`next
      ensures InMemory() && Shape(p, view) && p.next.Keys == old(p.next.Keys) && p.contexts == old(p).contexts
      ensures p.snapshot == old(current.next)
      ensures view == FilteredOne(old(view), keep)
    {
      PopSnapshotShape(p, view);
      p := p.(snapshot := p.next[current]);
      view := PopSnapshot(view);
      if current in keep {
        AddBlockToGlobalList(current);
      }
    }

    method FilterAll(keep: set<AllocUnit>) returns (freedSize: nat)
      requires InMemory() && Shape(p, view) && snapshot == p.snapshot
      modifies this`head, this`view, this`p, p.next.Keys
      ensures InMemory() && Shape(p, view) && p.next.Keys == old(p.next.Keys) && p.contexts == old(p).contexts
      ensures p.snapshot == null && view == TrackerLists.FilterSnapshot(old(view), keep)
      ensures freedSize == FilteredBytes(old(State()), keep)
    {
      var next := snapshot;
      freedSize := 0;
      while next != null
        invariant InMemory() && Shape(p, view) && p.next.Keys == old(p.next.Keys) && p.contexts == old(p).contexts
        invariant next == p.snapshot && Filtering(old(view), view, keep, freedSize)
        decreases |view.snapshot|
      {
        FilterStep(old(view), view, keep, freedSize);
        TailIsLast(p.next, view.snapshot, p.snapshot);
        var current := next;
        next := next.next;
        FilterFirst(current, keep);
        if current !in keep {
          freedSize := freedSize + (current.size + HEADER);
        }
      }
      TailIsLast(p.next, view.snapshot, p.snapshot);
      FilteringDone(old(view), view, keep, freedSize);
    }

    method FilterLists(keep: set<AllocUnit>) returns (freedSize: nat)
      requires Valid()
      modifies this`head, this`view, this`p, p.next.Keys
      ensures InMemory() && Shape(p, view) && Match(contexts, p.contexts, reserves) && p.snapshot == null
      ensures view == TrackerLists.FilterSnapshot(old(view), keep)
      ensures freedSize == FilteredBytes(old(State()), keep)
    {
      freedSize := FilterAll(keep);
    }

    /** `currentUsage` is a machine word; TrackerRuns.UsageIsBounded shows that the subtraction never wraps. */
    method FilterSnapshot(keep: set<AllocUnit>)
      requires Valid()
      modifies this`snapshot, this`head, this`view, this`p, this`currentUsage, p.next.Keys
      ensures Valid() && State() == Do(old(State()), DoFilter(keep), maxSize)
    {
      var freedSize := FilterLists(keep);
      currentUsage := if freedSize <= currentUsage then currentUsage - freedSize else (currentUsage - freedSize) % WORD;
      snapshot := null;
    }
  }

  ghost function FilteredOne(v: Lists, keep: set<AllocUnit>): Lists
    requires v.snapshot != []
  {
    var u := v.snapshot[0];
    if u in keep then PopSnapshot(v).(global := [u] + v.global) else PopSnapshot(v)
  }

  /** `v` is `v0` with some units of the snapshot filtered, of which `freed` bytes were freed. */
  ghost predicate Filtering(v0: Lists, v: Lists, keep: set<AllocUnit>, freed: nat) {
    && v.contexts == v0.contexts
    && Reverse(Filter(v.snapshot, keep)) + v.global == Reverse(Filter(v0.snapshot, keep)) + v0.global
    && freed + Bytes(Dropped(v.snapshot, keep)) == Bytes(Dropped(v0.snapshot, keep))
  }

  lemma FilteringDone(v0: Lists, v: Lists, keep: set<AllocUnit>, freed: nat)
    requires Filtering(v0, v, keep, freed) && v.snapshot == []
    ensures v == TrackerLists.FilterSnapshot(v0, keep) && freed == Bytes(Dropped(v0.snapshot, keep))
  {
    assert Reverse(Filter(v.snapshot, keep)) + v.global == v.global;
  }

  lemma FilterStep(v0: Lists, v: Lists, keep: set<AllocUnit>, freed: nat)
    requires Filtering(v0, v, keep, freed) && v.snapshot != []
    ensures var u := v.snapshot[0];
      Filtering(v0, FilteredOne(v, keep), keep, if u in keep then freed else freed + (u.size + HEADER))
  {
    OneFiltered(v, keep);
  }

  /** The first unit of the snapshot goes to the front of the global list, or its bytes to what is freed. */
  lemma OneFiltered(v: Lists, keep: set<AllocUnit>)
    requires v.snapshot != []
    ensures var u, v' := v.snapshot[0], FilteredOne(v, keep);
      && v'.contexts == v.contexts
      && Reverse(Filter(v.snapshot, keep)) + v.global == Reverse(Filter(v'.snapshot, keep)) + v'.global
      && Bytes(Dropped(v.snapshot, keep)) ==
        (if u in keep then 0 else u.size + HEADER) + Bytes(Dropped(v'.snapshot, keep))
  {
    var u, rest := v.snapshot[0], v.snapshot[1..];
    assert v.snapshot == [u] + rest;
    SelectFront(rest, u, keep, true);
    SelectFront(rest, u, keep, false);
    var kept, gone := Filter(rest, keep), Dropped(rest, keep);
    if u in keep {
      ReverseFront([u] + kept, v.global);
      assert ([u] + kept)[1..] == kept && [] + gone == gone;
    } else {
      BytesAppend([u], gone);
      BytesOne(u);
      assert [] + kept == kept;
    }
  }

  /** The lists when the first `i` contexts have been emptied into the snapshot. */
  ghost function Gathered(v: Lists, i: nat): (r: Lists)
    requires i <= |v.contexts|
    ensures |r.contexts| == |v.contexts|
  {
    if i == 0 then v else SpliceContext(Gathered(v, i - 1), i - 1)
  }

  lemma GatheredAll(v: Lists)
    requires v.snapshot == []
    ensures SpliceGlobal(Gathered(v, |v.contexts|)) == TrackerLists.TakeSnapshot(v)
  {
    var n := |v.contexts|;
    GatheredIs(v, n);
    assert v.contexts[..n] == v.contexts && Empties(n) + v.contexts[n..] == Empties(n);
  }

  lemma {:induction false} GatheredIs(v: Lists, i: nat)
    requires i <= |v.contexts| && v.snapshot == []
    ensures Gathered(v, i) == Lists(Empties(i) + v.contexts[i..], v.global, Concat(v.contexts[..i]))
  {
    if i > 0 {
      GatheredIs(v, i - 1);
      assert v.contexts[..i][..i - 1] == v.contexts[..i - 1];
      assert (Empties(i - 1) + v.contexts[i - 1..])[i - 1 := []] == Empties(i) + v.contexts[i..];
    }
  }

  lemma TailIsLast(next: Links, xs: seq<AllocUnit>, head: AllocUnit?)
    requires Chain(next, xs, head)
    ensures head == null <==> xs == []
    ensures xs != [] ==> Last(xs) != null && Last(xs) in xs && Last(xs) in next && next[Last(xs)] == null
  {
    if xs != [] { assert NextOf(next, xs[|xs| - 1]) == At(xs, |xs|); }
  }

  lemma DropMoved(p: Pointers, ends: seq<Ends>, v: Lists, v': Lists, i: nat)
    requires Moving(v, v', i) && v'.contexts[i] == [] && Shape(p, v')
    requires |p.contexts| == |ends| && p.contexts == ends[i := p.contexts[i]]
    ensures Shape(p.(contexts := ends[..i] + ends[i + 1..]), TrackerLists.FreeContext(v, i))
  {
    DropContextShape(p, v', i);
    assert p.contexts[..i] + p.contexts[i + 1..] == ends[..i] + ends[i + 1..];
    assert Reverse(v'.contexts[i]) + v'.global == v'.global;
    assert v'.contexts[..i] + v'.contexts[i + 1..] == v.contexts[..i] + v.contexts[i + 1..];
    assert DropContext(v', i) == TrackerLists.FreeContext(v, i);
  }

  /** `v` is `v0` with some units moved from the front of a context's list to the global one. */
  ghost predicate Moving(v0: Lists, v: Lists, i: nat) {
    && i < |v.contexts| == |v0.contexts|
    && v.contexts == v0.contexts[i := v.contexts[i]] && v.snapshot == v0.snapshot
    && Reverse(v.contexts[i]) + v.global == Reverse(v0.contexts[i]) + v0.global
  }

  lemma MoveOne(v0: Lists, v: Lists, i: nat)
    requires Moving(v0, v, i) && v.contexts[i] != []
    ensures Moving(v0, PopContext(v, i).(global := [v.contexts[i][0]] + v.global), i)
  {
    ReverseFront(v.contexts[i], v.global);
  }

  lemma ReverseFront(units: seq<AllocUnit>, global: seq<AllocUnit>)
    requires units != []
    ensures Reverse(units) + global == Reverse(units[1..]) + ([units[0]] + global)
  {
    var u, rest := units[0], units[1..];
    ReverseFirst(rest, u);
    assert units == [u] + rest;
    assert (Reverse(rest) + [u]) + global == Reverse(rest) + ([u] + global);
  }
}
