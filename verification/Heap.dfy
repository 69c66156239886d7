/** The object graph: blocks, the references they hold and reachability through them. */
module Heap {

  /** The address of an `alloc_unit`. */
  type Block = nat

  datatype Ref = Null | To(block: Block)

  /** The references a descriptor makes visible to the collector: its fixed fields, then the
      entries of the flexible array. A block whose descriptor is not yet stored has none. */
  datatype Slots = Slots(fixed: seq<Ref>, flex: seq<Ref>) {

    function All(): seq<Ref> {
      fixed + flex
    }

    function Set(j: nat, v: Ref): (r: Slots)
      requires j < |All()|
      ensures |r.fixed| == |fixed| && |r.flex| == |flex|
      ensures r.All() == All()[j := v]
    {
      if j < |fixed| then this.(fixed := fixed[j := v]) else this.(flex := flex[j - |fixed| := v])
    }
  }

  const NO_SLOTS := Slots([], [])

  type Graph = map<Block, Slots>

  predicate Edge(g: Graph, a: Block, b: Block) {
    a in g && To(b) in g[a].All()
  }

  ghost function RefBlocks(refs: seq<Ref>): (r: set<Block>)
    ensures forall b :: b in r <==> To(b) in refs
  {
    set x | x in refs && x.To? :: x.block
  }

  /** A path of blocks that starts in `roots`, follows references and never enters `avoid`. */
  ghost predicate IsPath(g: Graph, avoid: set<Block>, roots: set<Block>, p: seq<Block>) {
    && |p| > 0
    && p[0] in roots
    && (forall i | 0 <= i < |p| :: p[i] !in avoid)
    && (forall i | 0 <= i < |p| - 1 :: Edge(g, p[i], p[i + 1]))
  }

  ghost predicate Reached(g: Graph, avoid: set<Block>, roots: set<Block>, b: Block) {
    exists p :: IsPath(g, avoid, roots, p) && p[|p| - 1] == b
  }

  /** The blocks of `g` that a trace from `roots` gets to without passing through `avoid`. */
  ghost function ReachedSet(g: Graph, avoid: set<Block>, roots: set<Block>): set<Block> {
    set b | b in g && Reached(g, avoid, roots, b)
  }

  lemma ReachedRoot(g: Graph, avoid: set<Block>, roots: set<Block>, b: Block)
    requires b in roots && b !in avoid
    ensures Reached(g, avoid, roots, b)
  {
    assert IsPath(g, avoid, roots, [b]);
  }

  lemma ReachedStep(g: Graph, avoid: set<Block>, roots: set<Block>, a: Block, b: Block)
    requires Reached(g, avoid, roots, a) && Edge(g, a, b) && b !in avoid
    ensures Reached(g, avoid, roots, b)
  {
    var p :| IsPath(g, avoid, roots, p) && p[|p| - 1] == a;
    assert IsPath(g, avoid, roots, p + [b]);
  }

  /** A set that holds the roots and is closed under references, both outside `avoid`. */
  ghost predicate Closed(g: Graph, avoid: set<Block>, roots: set<Block>, c: set<Block>) {
    && (forall b | b in roots :: b in avoid || b in c)
    && (forall a, b | a in c && a !in avoid && Edge(g, a, b) :: b in avoid || b in c)
  }

  /** Reachability is the least closed set. */
  lemma ClosedHoldsReached(g: Graph, avoid: set<Block>, roots: set<Block>, c: set<Block>, b: Block)
    requires Closed(g, avoid, roots, c) && Reached(g, avoid, roots, b)
    ensures b in c
  {
    var p :| IsPath(g, avoid, roots, p) && p[|p| - 1] == b;
    ClosedHoldsPath(g, avoid, roots, c, p, |p| - 1);
  }

  lemma {:induction false} ClosedHoldsPath(
      g: Graph, avoid: set<Block>, roots: set<Block>, c: set<Block>, p: seq<Block>, k: nat)
    requires Closed(g, avoid, roots, c) && IsPath(g, avoid, roots, p) && k < |p|
    ensures p[k] in c
  {
    if k > 0 {
      ClosedHoldsPath(g, avoid, roots, c, p, k - 1);
      assert Edge(g, p[k - 1], p[k]);
    }
  }

  lemma ReachedSetClosed(g: Graph, avoid: set<Block>, roots: set<Block>)
    requires forall b | b in roots :: b in g
    requires forall a, b | a in ReachedSet(g, avoid, roots) && Edge(g, a, b) :: b in g
    ensures Closed(g, avoid, roots, ReachedSet(g, avoid, roots))
  {
    var c := ReachedSet(g, avoid, roots);
    forall b | b in roots && b !in avoid ensures b in c {
      ReachedRoot(g, avoid, roots, b);
    }
    forall a, b | a in c && Edge(g, a, b) && b !in avoid ensures b in c {
      ReachedStep(g, avoid, roots, a, b);
    }
  }

  /** What a reachable block of `avoid` refers to is in `avoid` too, or reached without entering it. */
  ghost predicate HarmlessToAvoid(g: Graph, avoid: set<Block>, roots: set<Block>) {
    forall a, b | a in avoid && Reached(g, {}, roots, a) && Edge(g, a, b) ::
      b in avoid || Reached(g, avoid, roots, b)
  }

  lemma HarmlessSplitsPath(g: Graph, avoid: set<Block>, roots: set<Block>, p: seq<Block>, k: nat)
    requires HarmlessToAvoid(g, avoid, roots) && IsPath(g, {}, roots, p) && k < |p|
    ensures p[k] in avoid || Reached(g, avoid, roots, p[k])
    decreases k
  {
    if k == 0 {
      if p[0] !in avoid { ReachedRoot(g, avoid, roots, p[0]); }
    } else {
      HarmlessSplitsPath(g, avoid, roots, p, k - 1);
      assert Edge(g, p[k - 1], p[k]);
      if p[k - 1] in avoid {
        assert IsPath(g, {}, roots, p[..k]);
        assert p[..k][k - 1] == p[k - 1];
      } else if p[k] !in avoid {
        ReachedStep(g, avoid, roots, p[k - 1], p[k]);
      }
    }
  }

  /** Avoiding a set loses nothing exactly when it is harmless to avoid: then everything reachable is in
      the set or reached without entering it. */
  lemma HarmlessExactly(g: Graph, avoid: set<Block>, roots: set<Block>)
    ensures HarmlessToAvoid(g, avoid, roots) <==>
      forall b | Reached(g, {}, roots, b) :: b in avoid || Reached(g, avoid, roots, b)
  {
    if HarmlessToAvoid(g, avoid, roots) {
      forall b | Reached(g, {}, roots, b) ensures b in avoid || Reached(g, avoid, roots, b) {
        var p :| IsPath(g, {}, roots, p) && p[|p| - 1] == b;
        HarmlessSplitsPath(g, avoid, roots, p, |p| - 1);
      }
    } else {
      var a, b :| a in avoid && Reached(g, {}, roots, a) && Edge(g, a, b)
        && !(b in avoid || Reached(g, avoid, roots, b));
      ReachedStep(g, {}, roots, a, b);
    }
  }

  lemma ReachedMore(g: Graph, avoid: set<Block>, roots: set<Block>, avoid': set<Block>, roots': set<Block>, b: Block)
    requires avoid' <= avoid && roots <= roots' && Reached(g, avoid, roots, b)
    ensures Reached(g, avoid', roots', b)
  {
    var p :| IsPath(g, avoid, roots, p) && p[|p| - 1] == b;
    assert IsPath(g, avoid', roots', p);
  }

  ghost predicate NoDangling(g: Graph) {
    forall a, b | Edge(g, a, b) :: b in g
  }

  /** Tracing from one set of roots and then, around what that marked, from another is tracing from
      both. */
  lemma TracesCompose(g: Graph, before: set<Block>, roots: set<Block>, more: set<Block>)
    requires NoDangling(g) && roots + more <= g.Keys
    ensures var mid := before + ReachedSet(g, before, roots);
      mid + ReachedSet(g, mid, more) == before + ReachedSet(g, before, roots + more)
  {
    var mid := before + ReachedSet(g, before, roots);
    var all := mid + ReachedSet(g, mid, more);
    ReachedSetClosed(g, before, roots);
    ReachedSetClosed(g, mid, more);
    forall b | b in ReachedSet(g, before, roots) ensures Reached(g, before, roots + more, b) {
      ReachedMore(g, before, roots, before, roots + more, b);
    }
    forall b | b in ReachedSet(g, mid, more) ensures Reached(g, before, roots + more, b) {
      ReachedMore(g, mid, more, before, roots + more, b);
    }
    forall b | b in ReachedSet(g, before, roots + more) ensures b in all {
      assert Closed(g, before, roots + more, all);
      ClosedHoldsReached(g, before, roots + more, all, b);
    }
  }

  lemma ReachedAvoids(g: Graph, avoid: set<Block>, roots: set<Block>, b: Block)
    requires Reached(g, avoid, roots, b)
    ensures b !in avoid
    ensures Reached(g, {}, roots, b)
  {
    var p :| IsPath(g, avoid, roots, p) && p[|p| - 1] == b;
    assert IsPath(g, {}, roots, p);
  }
}

/** How a scan of a block's references is parked and resumed. */
module MarkState {
  import opened Heap

  /** A block to scan and where to resume: 0 for a first visit, otherwise the index at which an
      earlier scan found the mark queue full. */
  datatype MarkState = MarkState(block: Block, fieldIndex: nat)

  /** The slot a scan of a block with `nf` fixed fields starts at. A scan parked inside the
      flexible array starts over at its first entry. */
  function FirstSlot(nf: nat, fieldIndex: nat): nat {
    if fieldIndex < nf then fieldIndex else nf
  }

  /** The index recorded when the reference in slot `pos` does not fit the mark queue. Inside the
      flexible array it counts from where the field loop stopped, so resuming twice makes it grow. */
  function SlotLabel(nf: nat, fieldIndex: nat, pos: nat): nat {
    if pos < nf then pos else (if fieldIndex < nf then nf else fieldIndex) + (pos - nf)
  }

  /** A scan of `b` kept as `at` comes to slot `j` when it resumes. */
  predicate Resumes(at: MarkState, b: Block, nf: nat, j: nat) {
    at.block == b && FirstSlot(nf, at.fieldIndex) <= j
  }

  /** A parked scan resumes no later than the slot that did not fit. */
  lemma ResumeCoversParkedSlot(nf: nat, fieldIndex: nat, pos: nat)
    requires FirstSlot(nf, fieldIndex) <= pos
    ensures FirstSlot(nf, SlotLabel(nf, fieldIndex, pos)) <= pos
  {
  }

  /** The index of a slot that is parked for the first time is its position, and it grows each time the scan is parked
      again in the flexible array past its first entry. */
  lemma LabelIsPositionAtFirst(nf: nat, fieldIndex: nat, pos: nat)
    requires FirstSlot(nf, fieldIndex) <= pos
    ensures fieldIndex <= nf ==> SlotLabel(nf, fieldIndex, pos) == pos
    ensures pos >= nf ==>
      SlotLabel(nf, SlotLabel(nf, fieldIndex, pos), pos) == SlotLabel(nf, fieldIndex, pos) + (pos - nf)
  {
  }
}
