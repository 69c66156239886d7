/** A whole collection cycle with idle mutators: the threads' root lists, the mark engine and the allocation
    tracker together. */
module IdleCycle {
  import opened Sequences
  import opened Heap
  import opened MarkState
  import opened MarkEngine
  import opened MarkTheorems
  import opened Tracer
  import opened Collector
  import opened RootList
  import opened Chains
  import opened TrackerLists
  import opened TrackerRuns
  import opened AllocTracker

  /** Each unit's address: the blocks of the heap are exactly the units that the tracker links, each once. */
  ghost predicate Names(addr: map<AllocUnit, Block>, heap: Graph, v: Lists) {
    && Blocks(v) == multiset(addr.Keys)
    && addr.Values == heap.Keys
    && (forall u, u' | u in addr && u' in addr && addr[u] == addr[u'] :: u == u')
  }

  function Addresses(addr: map<AllocUnit, Block>, units: seq<AllocUnit>): seq<Block>
    requires forall u | u in units :: u in addr
  {
    seq(|units|, i requires 0 <= i < |units| => addr[units[i]])
  }

  /** A snapshot of everything lists every block once. */
  lemma SnapshotListsHeap(addr: map<AllocUnit, Block>, heap: Graph, v: Lists)
    requires Names(addr, heap, v) && multiset(v.snapshot) == Blocks(v)
    ensures (forall u | u in v.snapshot :: u in addr)
    ensures Distinct(v.snapshot) && Distinct(Addresses(addr, v.snapshot))
    ensures Elements(Addresses(addr, v.snapshot)) == heap.Keys
  {
    var units := v.snapshot;
    forall u | u in units ensures u in addr { assert u in multiset(units); }
    assert Once(v);
    OnceIsDistinct(v, units);
    var list := Addresses(addr, units);
    forall b | b in heap.Keys ensures b in Elements(list) {
      var u :| u in addr && addr[u] == b;
      assert u in multiset(units);
      var i :| 0 <= i < |units| && units[i] == u;
      assert list[i] == b;
    }
  }

  /** After a snapshot every unit is in it. */
  lemma SnapshotHoldsAll(v: Lists)
    requires v.snapshot == []
    ensures multiset(TakeSnapshot(v).snapshot) == Blocks(TakeSnapshot(v)) == Blocks(v)
  {
    ConcatEmpties(|v.contexts|);
    SnapshotConserves(v);
  }

  // ---- The sweep, in the collector's heap and in the tracker's lists

  /** The units whose blocks are still in the heap. */
  function StillNamed(addr: map<AllocUnit, Block>, heap: Graph): map<AllocUnit, Block> {
    map u | u in addr && addr[u] in heap :: addr[u]
  }

  lemma StillNamedValues(addr: map<AllocUnit, Block>, heap: Graph, heap': Graph)
    requires addr.Values == heap.Keys && heap'.Keys <= heap.Keys
    ensures StillNamed(addr, heap').Values == heap'.Keys
  {
    forall b | b in heap'.Keys ensures b in StillNamed(addr, heap').Values {
      var u :| u in addr && addr[u] == b;
      assert StillNamed(addr, heap')[u] == b;
    }
  }

  lemma DroppedAreTheRest(units: set<AllocUnit>, xs: seq<AllocUnit>, keep: set<AllocUnit>)
    requires keep <= units && Elements(xs) == units
    ensures units - Elements(Dropped(xs, keep)) == keep
  {
    assert forall x | x in Dropped(xs, keep) :: x !in keep;
    assert forall x | x in xs && x !in keep :: x in Dropped(xs, keep);
    assert forall x | x in units :: x in xs;
  }

  lemma SnapshotIsNamed(addr: map<AllocUnit, Block>, xs: seq<AllocUnit>)
    requires multiset(xs) == multiset(addr.Keys)
    ensures Elements(xs) == addr.Keys
  {
    forall u | u in addr ensures u in Elements(xs) { assert u in multiset(xs); }
    forall u | u in xs ensures u in addr { assert u in multiset(xs); }
  }

  /** Filtering out the units of the freed blocks leaves the tracker with exactly the rest. */
  lemma FilterKeepsNames(addr: map<AllocUnit, Block>, heap: Graph, v: Lists, heap': Graph, keep: set<AllocUnit>)
    requires Names(addr, heap, v) && multiset(v.snapshot) == Blocks(v) && heap'.Keys <= heap.Keys
    requires keep == StillNamed(addr, heap').Keys
    ensures Names(StillNamed(addr, heap'), heap', FilterSnapshot(v, keep))
  {
    SnapshotIsNamed(addr, v.snapshot);
    FilterLeavesLive(v, keep, addr.Keys);
    DroppedAreTheRest(addr.Keys, v.snapshot, keep);
    StillNamedValues(addr, heap, heap');
  }

  method SnapshotBlocks(tracker: Tracker, addr: map<AllocUnit, Block>, ghost heap: Graph) returns (list: seq<Block>)
    requires tracker.Valid() && Names(addr, heap, tracker.view)
    requires multiset(tracker.view.snapshot) == Blocks(tracker.view)
    ensures Distinct(list) && Elements(list) == heap.Keys
  {
    SnapshotListsHeap(addr, heap, tracker.view);
    var units := tracker.SnapshotUnits();
    list := Addresses(addr, units);
  }

  lemma Cancel<T>(all: multiset<T>, kept: multiset<T>, a: multiset<T>, b: multiset<T>)
    requires all == kept + a && all == kept + b
    ensures a == b
  {
    assert a == all - kept && b == all - kept;
  }

  lemma SplitSet<T>(all: set<T>, kept: set<T>)
    requires kept <= all
    ensures multiset(all) == multiset(kept) + multiset(all - kept)
  {
  }

  /** The units that the filter drops are those whose blocks were freed, each once. */
  lemma DroppedOnce(addr: map<AllocUnit, Block>, heap: Graph, v: Lists, heap': Graph, keep: set<AllocUnit>)
    requires Names(addr, heap, v) && Names(StillNamed(addr, heap'), heap', FilterSnapshot(v, keep))
    ensures multiset(Dropped(v.snapshot, keep)) == multiset(addr.Keys - StillNamed(addr, heap').Keys)
  {
    var kept := StillNamed(addr, heap').Keys;
    FilterSplitsExactly(v, keep);
    SplitSet(addr.Keys, kept);
    Cancel(multiset(addr.Keys), multiset(kept), multiset(Dropped(v.snapshot, keep)), multiset(addr.Keys - kept));
  }

  lemma FilterIsPaidFor(t: Tracked, past: Past, max: nat, keep: set<AllocUnit>)
    requires Balanced(t, past, max) && Allowed(t, DoFilter(keep))
    ensures FilteredBytes(t, keep) <= t.usage
    ensures Do(t, DoFilter(keep), max).lists == FilterSnapshot(t.lists, keep)
    ensures Settled(t, Do(t, DoFilter(keep), max), past, max, FilteredBytes(t, keep))
  {
    FilterCannotUnderflow(t, past, max, keep);
    FilterBalances(t, past, max, keep);
  }

  /** `freed` are the units whose blocks are gone from `heap'`, each once; exactly the others stay linked. */
  ghost predicate Split(addr: map<AllocUnit, Block>, heap': Graph, v': Lists, freed: seq<AllocUnit>) {
    && Names(StillNamed(addr, heap'), heap', v')
    && multiset(freed) == multiset(addr.Keys - StillNamed(addr, heap').Keys)
  }

  /** Usage falls by what the freed units take, headers included, and the books balance. */
  ghost predicate Settled(t: Tracked, t': Tracked, past: Past, max: nat, bytes: nat) {
    t'.usage + bytes == t.usage && Balanced(t', past.(freed := past.freed + bytes), max)
  }

  lemma FilterNames(
      v: Lists, addr: map<AllocUnit, Block>, heap: Graph, heap': Graph, keep: set<AllocUnit>, v': Lists,
      freed: seq<AllocUnit>)
    requires heap'.Keys <= heap.Keys && Names(addr, heap, v) && multiset(v.snapshot) == Blocks(v)
    requires keep == StillNamed(addr, heap').Keys
    requires v' == FilterSnapshot(v, keep) && freed == Dropped(v.snapshot, keep)
    ensures Split(addr, heap', v', freed)
  {
    FilterKeepsNames(addr, heap, v, heap', keep);
    DroppedOnce(addr, heap, v, heap', keep);
  }

  /** Once the tracker has filtered out the units of the freed blocks, exactly the others are linked and the books
      balance. */
  lemma FilterSettles(
      t: Tracked, past: Past, max: nat, addr: map<AllocUnit, Block>, heap: Graph, heap': Graph, keep: set<AllocUnit>)
    requires Balanced(t, past, max) && Allowed(t, DoFilter(keep)) && heap'.Keys <= heap.Keys
    requires Names(addr, heap, t.lists) && multiset(t.lists.snapshot) == Blocks(t.lists)
    requires keep == StillNamed(addr, heap').Keys
    ensures var t', freed := Do(t, DoFilter(keep), max), Dropped(t.lists.snapshot, keep);
      && Split(addr, heap', t'.lists, freed) && t'.lists.snapshot == []
      && Settled(t, t', past, max, Bytes(freed))
  {
    FilterIsPaidFor(t, past, max, keep);
    FilterNames(t.lists, addr, heap, heap', keep, FilterSnapshot(t.lists, keep), Dropped(t.lists.snapshot, keep));
  }

  // ---- The snapshots

  lemma SnapshotKeepsNames(addr: map<AllocUnit, Block>, heap: Graph, v: Lists)
    requires v.snapshot == [] && Names(addr, heap, v)
    ensures Names(addr, heap, TakeSnapshot(v)) && multiset(TakeSnapshot(v).snapshot) == Blocks(TakeSnapshot(v))
  {
    SnapshotHoldsAll(v);
  }

  /** The tracker's state when a cycle is over. */
  ghost function Cycled(t: Tracked, keep: set<AllocUnit>, max: nat): Tracked
    requires Allowed(t, DoTakeSnapshot)
  {
    Do(Do(t, DoTakeSnapshot, max), DoFilter(keep), max)
  }

  /** A cycle that leaves the blocks of `heap'` leaves the tracker with exactly their units, each once, and with books
      that balance. */
  lemma CycleSettles(
      t: Tracked, t': Tracked, past: Past, max: nat, addr: map<AllocUnit, Block>, heap: Graph, heap': Graph)
    returns (freed: seq<AllocUnit>)
    requires Balanced(t, past, max) && Allowed(t, DoTakeSnapshot) && Names(addr, heap, t.lists)
    requires heap'.Keys <= heap.Keys && t' == Cycled(t, StillNamed(addr, heap').Keys, max)
    ensures Split(addr, heap', t'.lists, freed) && t'.lists.snapshot == []
    ensures Settled(t, t', past, max, Bytes(freed))
  {
    var keep := StillNamed(addr, heap').Keys;
    var t1 := Do(t, DoTakeSnapshot, max);
    SnapshotBalances(t, past, max);
    SnapshotKeepsNames(addr, heap, t.lists);
    FilterSettles(t1, past, max, addr, heap, heap', keep);
    freed := Dropped(t1.lists.snapshot, keep);
  }

  // ---- The whole cycle

  /** The blocks of `heap'` are exactly those that were reachable, and refer to no other. */
  ghost predicate KeepsReachable(heap: Graph, heap': Graph, roots: set<Block>) {
    heap'.Keys == ReachedSet(heap, {}, roots) && NoDangling(heap')
  }

  lemma FreshSurvivors(heap: Graph, heap': Graph, roots: set<Block>)
    requires NoDangling(heap) && roots <= heap.Keys && heap'.Keys == Survivors(heap, {}, roots)
    requires forall b | b in heap' :: heap'[b] == heap[b]
    ensures KeepsReachable(heap, heap', roots)
  {
    KeptIsClosed(heap, heap', roots);
  }

  /** The collector and the tracker agree on the blocks, of which the units have these addresses, and the books
      balance. */
  ghost predicate Ready(collector: Collector, tracker: Tracker, addr: map<AllocUnit, Block>, past: Past)
    reads collector, collector.marker, tracker, tracker.contexts, tracker.p.next.Keys
  {
    && collector.Valid() && tracker.Valid() && Allowed(tracker.State(), DoTakeSnapshot)
    && Names(addr, collector.heap, tracker.view)
    && Balanced(tracker.State(), past, tracker.maxSize)
  }

  /** What the collector holds between the phases of a cycle. */
  datatype Rest = Rest(
    heap: Graph, bits: set<Block>, marked: set<Block>, queue: seq<Block>, deferred: seq<MarkState>,
    gcMarked: bool, mutatorMarked: bool)

  ghost function RestOf(collector: Collector): Rest
    reads collector, collector.marker
  {
    var m := collector.marker;
    Rest(collector.heap, m.markBit.Keys, m.Marked(), m.queue, m.deferred,
         m.gcMarked, collector.mutatorMarkedBitValue)
  }

  /** Every block of the heap has a mark bit, these read as marked, and nothing is queued; `bit` reads as marked to
      the collector and to the mutators. */
  ghost function Resting(heap: Graph, marked: set<Block>, bit: bool): Rest {
    Rest(heap, heap.Keys, marked, [], [], bit, bit)
  }

  /** The bit that reads as marked to the collector has been flipped and nothing reads as marked. */
  ghost function Flipped(heap: Graph, bit: bool): Rest {
    Resting(heap, {}, bit).(gcMarked := !bit)
  }

  method SnapshotUnits(collector: Collector, tracker: Tracker)
    requires tracker.Valid()
    modifies tracker`snapshot, tracker`head, tracker`view, tracker`p, tracker.contexts, tracker.p.next.Keys
    ensures tracker.Valid() && tracker.p.next.Keys == old(tracker.p.next.Keys)
    ensures tracker.State() == old(tracker.State()).(lists := TakeSnapshot(old(tracker.view)))
    ensures RestOf(collector) == old(RestOf(collector))
  {
    tracker.TakeSnapshot();
  }

  method FilterUnits(collector: Collector, tracker: Tracker, keep: set<AllocUnit>)
    requires tracker.Valid()
    modifies tracker`snapshot, tracker`head, tracker`view, tracker`p, tracker`currentUsage, tracker.p.next.Keys
    ensures tracker.Valid() && tracker.State() == Do(old(tracker.State()), DoFilter(keep), tracker.maxSize)
    ensures RestOf(collector) == old(RestOf(collector))
  {
    tracker.FilterSnapshot(keep);
  }

  method SnapshotRoots(threads: seq<MutatorThread>, ghost lists: seq<seq<Ref>>) returns (roots: seq<Ref>)
    requires |lists| == |threads|
    requires forall i | 0 <= i < |threads| :: threads[i].Valid() && threads[i].Roots() == lists[i]
    ensures roots == Concat(lists)
  {
    var rootSnapshot := TakeRootSnapshot(threads, lists);
    roots := rootSnapshot[..];
  }

  /** The stop-the-world part: all roots, and the tracker's lists emptied into its snapshot. */
  method Begin(
      collector: Collector, tracker: Tracker, threads: seq<MutatorThread>, ghost lists: seq<seq<Ref>>, ghost t: Tracked)
    returns (roots: seq<Ref>)
    requires tracker.Valid() && tracker.State() == t && |lists| == |threads|
    requires forall i | 0 <= i < |threads| :: threads[i].Valid() && threads[i].Roots() == lists[i]
    modifies collector`mutatorMarkedBitValue
    modifies tracker`snapshot, tracker`head, tracker`view, tracker`p, tracker.contexts, tracker.p.next.Keys
    ensures roots == Concat(lists) && collector.mutatorMarkedBitValue == collector.marker.gcMarked
    ensures tracker.Valid() && tracker.p.next.Keys == old(tracker.p.next.Keys)
    ensures tracker.State() == t.(lists := TakeSnapshot(t.lists))
    ensures RestOf(collector) == old(RestOf(collector)).(mutatorMarked := collector.marker.gcMarked)
  {
    collector.mutatorMarkedBitValue := collector.marker.gcMarked;
    roots := SnapshotRoots(threads, lists);
    SnapshotUnits(collector, tracker);
  }

  ghost predicate CanTrace(caps: Caps, heap: Graph, pre: set<Block>, roots: seq<Ref>) {
    && caps.Valid() && NoDangling(heap) && RefBlocks(roots) <= heap.Keys
    && PhaseHalts(caps, heap, pre, roots)
  }

  method Mark(
      collector: Collector, tracker: Tracker, roots: seq<Ref>,
      ghost heap: Graph, ghost pre: set<Block>, ghost bit: bool)
    returns (o: Outcome)
    requires tracker.Valid() && RestOf(collector) == Resting(heap, pre, bit)
    requires CanTrace(collector.marker.caps, heap, pre, roots)
    modifies collector.marker`markBit, collector.marker`queue, collector.marker`deferred
    ensures o.Finished? ==> RestOf(collector) == Resting(heap, Survivors(heap, pre, RefBlocks(roots)), bit)
    ensures o == PhaseOutcome(collector.marker.caps, heap, pre, roots)
    ensures tracker.Valid() && tracker.State() == old(tracker.State()) && tracker.p == old(tracker.p)
  {
    o := collector.MarkingPhase(roots);
  }

  /** The part of a heap that a sweep leaves. */
  ghost function Restrict(heap: Graph, kept: set<Block>): Graph {
    map b | b in heap && b in kept :: heap[b]
  }

  method SweepBlocks(
      collector: Collector, tracker: Tracker, list: seq<Block>,
      ghost heap: Graph, ghost kept: set<Block>, ghost bit: bool)
    requires RestOf(collector) == Resting(heap, kept, bit) && Distinct(list) && Elements(list) == heap.Keys
    requires tracker.Valid()
    modifies collector`heap, collector.marker`markBit, collector.marker`gcMarked
    ensures RestOf(collector) == Flipped(Restrict(heap, kept), bit)
    ensures tracker.Valid() && tracker.State() == old(tracker.State()) && tracker.p == old(tracker.p)
  {
    collector.SweepAndFlip(list);
    assert collector.heap == Restrict(heap, kept);
  }

  /** The sweep of the source decides block by block, by the mark bit alone, in one walk over the snapshot;
      here the collector decides and the tracker then frees. */
  method Sweep(
      collector: Collector, tracker: Tracker, addr: map<AllocUnit, Block>,
      ghost heap: Graph, ghost kept: set<Block>, ghost bit: bool, ghost t: Tracked)
    returns (keep: set<AllocUnit>)
    requires RestOf(collector) == Resting(heap, kept, bit)
    requires tracker.Valid() && tracker.State() == t && Names(addr, heap, t.lists)
    requires multiset(t.lists.snapshot) == Blocks(t.lists)
    modifies collector`heap, collector.marker`markBit, collector.marker`gcMarked
    ensures RestOf(collector) == Flipped(Restrict(heap, kept), bit)
    ensures keep == StillNamed(addr, Restrict(heap, kept)).Keys
    ensures tracker.Valid() && tracker.State() == t && tracker.p == old(tracker.p)
  {
    var list := SnapshotBlocks(tracker, addr, heap);
    SweepBlocks(collector, tracker, list, heap, kept, bit);
    keep := StillNamed(addr, collector.heap).Keys;
  }

  /** Sweep and flip: the tracker filters out the units of the blocks that did not read as marked. */
  method Reclaim(
      collector: Collector, tracker: Tracker, addr: map<AllocUnit, Block>,
      ghost heap: Graph, ghost kept: set<Block>, ghost bit: bool, ghost t: Tracked)
    requires RestOf(collector) == Resting(heap, kept, bit)
    requires tracker.Valid() && tracker.State() == t && Allowed(t, DoFilter({})) && Names(addr, heap, t.lists)
    requires multiset(t.lists.snapshot) == Blocks(t.lists)
    modifies collector`heap, collector.marker`markBit, collector.marker`gcMarked
    modifies tracker`snapshot, tracker`head, tracker`view, tracker`p, tracker`currentUsage, tracker.p.next.Keys
    ensures RestOf(collector) == Flipped(Restrict(heap, kept), bit)
    ensures tracker.Valid()
    ensures tracker.State() == Do(t, DoFilter(StillNamed(addr, Restrict(heap, kept)).Keys), tracker.maxSize)
  {
    var keep := Sweep(collector, tracker, addr, heap, kept, bit, t);
    FilterUnits(collector, tracker, keep);
  }

  /** Marking, sweep and flip. */
  method Finish(
      collector: Collector, tracker: Tracker, roots: seq<Ref>, addr: map<AllocUnit, Block>,
      ghost heap: Graph, ghost pre: set<Block>, ghost bit: bool, ghost t: Tracked)
    returns (o: Outcome)
    requires RestOf(collector) == Resting(heap, pre, bit) && CanTrace(collector.marker.caps, heap, pre, roots)
    requires tracker.Valid() && tracker.State() == t && Allowed(t, DoFilter({})) && Names(addr, heap, t.lists)
    requires multiset(t.lists.snapshot) == Blocks(t.lists)
    modifies collector`heap, collector.marker
    modifies tracker`snapshot, tracker`head, tracker`view, tracker`p, tracker`currentUsage, tracker.p.next.Keys
    ensures o.Finished? ==> var heap' := Restrict(heap, Survivors(heap, pre, RefBlocks(roots)));
      && RestOf(collector) == Flipped(heap', bit) && tracker.Valid()
      && tracker.State() == Do(t, DoFilter(StillNamed(addr, heap').Keys), tracker.maxSize)
    ensures o == PhaseOutcome(collector.marker.caps, heap, pre, roots)
  {
    o := Mark(collector, tracker, roots, heap, pre, bit);
    if o.Finished? {
      Reclaim(collector, tracker, addr, heap, Survivors(heap, pre, RefBlocks(roots)), bit, t);
    }
  }

  /** The cycle itself, without the books. */
  method Cycle(
      collector: Collector, tracker: Tracker, threads: seq<MutatorThread>, addr: map<AllocUnit, Block>,
      ghost lists: seq<seq<Ref>>, ghost heap: Graph, ghost pre: set<Block>, ghost bit: bool, ghost t: Tracked)
    returns (o: Outcome)
    requires RestOf(collector).(mutatorMarked := bit) == Resting(heap, pre, bit)
    requires CanTrace(collector.marker.caps, heap, pre, Concat(lists))
    requires tracker.Valid() && tracker.State() == t && Allowed(t, DoTakeSnapshot) && Names(addr, heap, t.lists)
    requires |lists| == |threads|
    requires forall i | 0 <= i < |threads| :: threads[i].Valid() && threads[i].Roots() == lists[i]
    modifies collector`heap, collector`mutatorMarkedBitValue, collector.marker
    modifies tracker`snapshot, tracker`head, tracker`view, tracker`p, tracker`currentUsage
    modifies tracker.contexts, tracker.p.next.Keys
    ensures o.Finished? ==> var heap' := Restrict(heap, Survivors(heap, pre, RefBlocks(Concat(lists))));
      && RestOf(collector) == Flipped(heap', bit) && tracker.Valid()
      && tracker.State() == Cycled(t, StillNamed(addr, heap').Keys, tracker.maxSize)
    ensures o == PhaseOutcome(collector.marker.caps, heap, pre, Concat(lists))
  {
    SnapshotKeepsNames(addr, heap, t.lists);
    var roots := Begin(collector, tracker, threads, lists, t);
    o := Finish(collector, tracker, roots, addr, heap, pre, bit, Do(t, DoTakeSnapshot, tracker.maxSize));
  }

  /** The cycle with its books. */
  method Settle(
      collector: Collector, tracker: Tracker, threads: seq<MutatorThread>, addr: map<AllocUnit, Block>,
      ghost lists: seq<seq<Ref>>, ghost heap: Graph, ghost pre: set<Block>, ghost bit: bool,
      ghost t: Tracked, ghost past: Past)
    returns (o: Outcome, ghost freed: seq<AllocUnit>)
    requires RestOf(collector).(mutatorMarked := bit) == Resting(heap, pre, bit)
    requires CanTrace(collector.marker.caps, heap, pre, Concat(lists))
    requires tracker.Valid() && tracker.State() == t && Allowed(t, DoTakeSnapshot) && Names(addr, heap, t.lists)
    requires Balanced(t, past, tracker.maxSize) && |lists| == |threads|
    requires forall i | 0 <= i < |threads| :: threads[i].Valid() && threads[i].Roots() == lists[i]
    modifies collector`heap, collector`mutatorMarkedBitValue, collector.marker
    modifies tracker`snapshot, tracker`head, tracker`view, tracker`p, tracker`currentUsage
    modifies tracker.contexts, tracker.p.next.Keys
    ensures o.Finished? ==> var heap' := Restrict(heap, Survivors(heap, pre, RefBlocks(Concat(lists))));
      && RestOf(collector) == Flipped(heap', bit) && tracker.Valid()
      && tracker.State() == Cycled(t, StillNamed(addr, heap').Keys, tracker.maxSize)
      && Split(addr, heap', tracker.view, freed) && tracker.view.snapshot == []
      && Settled(t, tracker.State(), past, tracker.maxSize, Bytes(freed))
    ensures o == PhaseOutcome(collector.marker.caps, heap, pre, Concat(lists))
  {
    o := Cycle(collector, tracker, threads, addr, lists, heap, pre, bit, t);
    freed := [];
    if o.Finished? {
      freed := CycleSettles(t, tracker.State(), past, tracker.maxSize, addr, heap, collector.heap);
    }
  }

  /** With nothing premarked the survivors are closed, so that another cycle can follow. */
  lemma ReadyAgain(
      collector: Collector, tracker: Tracker, addr: map<AllocUnit, Block>, heap: Graph, roots: set<Block>,
      freed: seq<AllocUnit>, past: Past, bit: bool)
    requires collector.marker.caps.Valid() && NoDangling(heap) && roots <= heap.Keys
    requires RestOf(collector) == Flipped(Restrict(heap, Survivors(heap, {}, roots)), bit)
    requires tracker.Valid() && Split(addr, collector.heap, tracker.view, freed) && tracker.view.snapshot == []
    requires Balanced(tracker.State(), past, tracker.maxSize)
    ensures KeepsReachable(heap, collector.heap, roots)
    ensures Ready(collector, tracker, StillNamed(addr, collector.heap), past)
  {
    FreshSurvivors(heap, collector.heap, roots);
  }

  /** The cycle with idle mutators and empty remark buffers. With nothing premarked, the survivors are exactly the
      blocks reachable from the threads' roots, none of them refers to a freed block, and collector and tracker
      are ready for the next cycle, in which nothing is premarked either. Always, the tracker links exactly the
      survivors' units, each once, and usage falls by what the others take. */
  method Run(
      collector: Collector, tracker: Tracker, threads: seq<MutatorThread>, addr: map<AllocUnit, Block>,
      ghost lists: seq<seq<Ref>>, ghost past: Past)
    returns (o: Outcome, ghost freed: seq<AllocUnit>)
    requires Ready(collector, tracker, addr, past) && |lists| == |threads|
    requires forall i | 0 <= i < |threads| :: threads[i].Valid() && threads[i].Roots() == lists[i]
    requires RefBlocks(Concat(lists)) <= collector.heap.Keys
    requires PhaseHalts(collector.marker.caps, collector.heap, collector.marker.Marked(), Concat(lists))
    modifies collector`heap, collector`mutatorMarkedBitValue, collector.marker
    modifies tracker`snapshot, tracker`head, tracker`view, tracker`p, tracker`currentUsage
    modifies tracker.contexts, tracker.p.next.Keys
    ensures o.Finished? ==>
      collector.heap.Keys == Survivors(old(collector.heap), old(collector.marker.Marked()), RefBlocks(Concat(lists)))
    ensures o.Finished? ==> forall b | b in collector.heap :: collector.heap[b] == old(collector.heap)[b]
    ensures o.Finished? ==> collector.marker.Marked() == {}
    ensures o.Finished? ==>
      collector.mutatorMarkedBitValue == old(collector.marker.gcMarked) != collector.marker.gcMarked
    ensures o.Finished? ==> tracker.Valid() && Split(addr, collector.heap, tracker.view, freed)
    ensures o.Finished? ==>
      tracker.State() == Cycled(old(tracker.State()), StillNamed(addr, collector.heap).Keys, tracker.maxSize)
    ensures o.Finished? ==> tracker.currentUsage + Bytes(freed) == old(tracker.currentUsage)
    ensures o.Finished? ==> Balanced(tracker.State(), past.(freed := past.freed + Bytes(freed)), tracker.maxSize)
    ensures o.Finished? && old(collector.marker.Marked()) == {} ==>
      && KeepsReachable(old(collector.heap), collector.heap, RefBlocks(Concat(lists)))
      && Ready(collector, tracker, StillNamed(addr, collector.heap), past.(freed := past.freed + Bytes(freed)))
    ensures o == PhaseOutcome(
      collector.marker.caps, old(collector.heap), old(collector.marker.Marked()), Concat(lists))
    ensures |MultiSet(old(collector.heap))| <= collector.marker.caps.deferred ==>
      (o.Finished? <==> Null !in Concat(lists))
  {
    ghost var heap, t := collector.heap, tracker.State();
    ghost var pre, bit := collector.marker.Marked(), collector.marker.gcMarked;
    if |MultiSet(heap)| <= collector.marker.caps.deferred {
      RoomyPhaseOutcome(collector.marker.caps, heap, pre, Concat(lists));
    }
    o, freed := Settle(collector, tracker, threads, addr, lists, heap, pre, bit, t, past);
    if o.Finished? {
      SurvivorsInHeap(heap, pre, RefBlocks(Concat(lists)));
      if pre == {} {
        var past' := past.(freed := past.freed + Bytes(freed));
        ReadyAgain(collector, tracker, addr, heap, RefBlocks(Concat(lists)), freed, past', bit);
      }
    }
  }

  lemma SurvivorsInHeap(heap: Graph, pre: set<Block>, roots: set<Block>)
    requires pre <= heap.Keys
    ensures Restrict(heap, Survivors(heap, pre, roots)).Keys == Survivors(heap, pre, roots)
  {
  }
}
