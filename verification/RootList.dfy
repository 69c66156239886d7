/** The root list of a mutator thread, its cache of list nodes, and the snapshot of all roots. */
module RootList {
  import opened Sequences
  import opened Heap

  class RootRef {
    var obj: Ref

    constructor ()
      ensures obj == Null
    {
      obj := Null;
    }
  }

  /** What the nodes of a list hold, in list order. */
  ghost function Objects(refs: seq<RootRef>): (r: seq<Ref>)
    reads refs
    ensures |r| == |refs|
  {
    seq(|refs|, i requires 0 <= i < |refs| reads refs => refs[i].obj)
  }

  function IndexOf<T(==)>(xs: seq<T>, x: T): (i: nat)
    requires x in xs
    ensures i < |xs| && xs[i] == x
  {
    if xs[0] == x then 0 else 1 + IndexOf(xs[1..], x)
  }

  class MutatorThread {
    var rootEntries: seq<RootRef>
    var rootSize: nat
    var cachedRootEntries: seq<RootRef>

    /** `rootSize` counts the list, and no node is linked twice. */
    ghost predicate Valid()
      reads this
    {
      && rootSize == |rootEntries|
      && Distinct(rootEntries)
      && Distinct(cachedRootEntries)
      && (forall r | r in rootEntries :: r !in cachedRootEntries)
    }

    ghost function Roots(): seq<Ref>
      reads this, rootEntries
    {
      Objects(rootEntries)
    }

    constructor ()
      ensures Valid() && Roots() == [] && cachedRootEntries == []
    {
      rootEntries, rootSize, cachedRootEntries := [], 0, [];
    }

    /** A node from the cache, or a new one; either way linked nowhere. */
    method PreallocRootRef() returns (ref: RootRef)
      requires Valid()
      modifies this`cachedRootEntries
      ensures Valid() && ref !in rootEntries && ref !in cachedRootEntries
      ensures old(cachedRootEntries) != [] ==>
        ref == old(cachedRootEntries)[0] && cachedRootEntries == old(cachedRootEntries)[1..]
      ensures old(cachedRootEntries) == [] ==> fresh(ref) && cachedRootEntries == []
      ensures Roots() == old(Roots())
    {
      if cachedRootEntries != [] {
        ref := cachedRootEntries[0];
        cachedRootEntries := cachedRootEntries[1..];
      } else {
        ref := new RootRef();
      }
    }

    method NewRootRefFromPrealloc(prealloc: RootRef, block: Ref)
      requires Valid() && prealloc !in rootEntries && prealloc !in cachedRootEntries
      modifies this`rootEntries, this`rootSize, prealloc
      ensures Valid() && prealloc.obj == block
      ensures rootEntries == [prealloc] + old(rootEntries)
      ensures Roots() == [block] + old(Roots())
    {
      prealloc.obj := block;
      rootSize := rootSize + 1;
      rootEntries := [prealloc] + rootEntries;
    }

    method NewRootRef(block: Ref) returns (ref: RootRef)
      requires Valid()
      modifies this, set r | r in cachedRootEntries
      ensures Valid() && ref.obj == block && rootEntries == [ref] + old(rootEntries)
      ensures if old(cachedRootEntries) == [] then fresh(ref) && cachedRootEntries == []
        else ref == old(cachedRootEntries)[0] && cachedRootEntries == old(cachedRootEntries)[1..]
      ensures Roots() == [block] + old(Roots())
    {
      ref := PreallocRootRef();
      NewRootRefFromPrealloc(ref, block);
    }

    /** Unlink a root; `lost` is what the loss-of-reference barrier is called on. */
    method UnrefRoot(ref: RootRef) returns (lost: Ref)
      requires Valid() && ref in rootEntries
      modifies this
      ensures Valid() && lost == ref.obj
      ensures ref !in rootEntries && cachedRootEntries == [ref] + old(cachedRootEntries)
      ensures var i := IndexOf(old(rootEntries), ref);
        && rootEntries == old(rootEntries)[..i] + old(rootEntries)[i + 1..]
        && Roots() == old(Roots())[..i] + old(Roots())[i + 1..]
    {
      rootSize := rootSize - 1;
      var i := IndexOf(rootEntries, ref);
      rootEntries := rootEntries[..i] + rootEntries[i + 1..];
      lost := ref.obj;
      cachedRootEntries := [ref] + cachedRootEntries;
    }
  }

  // ---- The snapshot

  lemma {:induction false} PrefixIsShorter(xss: seq<seq<Ref>>, n: nat)
    requires n <= |xss|
    ensures |Concat(xss[..n])| <= |Concat(xss)|
    decreases |xss| - n
  {
    if n == |xss| {
      assert xss[..n] == xss;
    } else {
      PrefixIsShorter(xss, n + 1);
      assert xss[..n + 1][..n] == xss[..n];
    }
  }

  lemma PrefixStep(xss: seq<seq<Ref>>, n: nat)
    requires n < |xss|
    ensures Concat(xss[..n + 1]) == Concat(xss[..n]) + xss[n]
    ensures |Concat(xss[..n])| + |xss[n]| <= |Concat(xss)|
  {
    assert xss[..n + 1][..n] == xss[..n];
    PrefixIsShorter(xss, n + 1);
  }

  /** The first walk: add up the sizes. */
  method CountRoots(threads: seq<MutatorThread>, ghost lists: seq<seq<Ref>>) returns (totalRootRefs: nat)
    requires |lists| == |threads|
    requires forall i | 0 <= i < |threads| :: threads[i].Valid() && threads[i].Roots() == lists[i]
    ensures totalRootRefs == |Concat(lists)|
  {
    totalRootRefs := 0;
    for t := 0 to |threads|
      invariant totalRootRefs == |Concat(lists[..t])|
    {
      totalRootRefs := totalRootRefs + threads[t].rootSize;
      PrefixStep(lists, t);
    }
    assert lists[..|threads|] == lists;
  }

  /** The inner walk: append one thread's roots to the snapshot. */
  method CopyRoots(t: MutatorThread, rootSnapshot: array<Ref>, start: nat) returns (index: nat)
    requires t.Valid() && start + t.rootSize <= rootSnapshot.Length
    modifies rootSnapshot
    ensures index == start + t.rootSize
    ensures rootSnapshot[..index] == old(rootSnapshot[..start]) + t.Roots()
  {
    index := start;
    for i := 0 to |t.rootEntries|
      invariant index == start + i
      invariant rootSnapshot[..index] == old(rootSnapshot[..start]) + t.Roots()[..i]
    {
      assert index < rootSnapshot.Length;
      rootSnapshot[index] := t.rootEntries[i].obj;
      index := index + 1;
    }
  }

  /** Two walks over the same unchanged lists: count, then copy. The array is exactly the threads' roots
      in order, so neither sanity check fires. */
  method TakeRootSnapshot(threads: seq<MutatorThread>, ghost lists: seq<seq<Ref>>) returns (rootSnapshot: array<Ref>)
    requires |lists| == |threads|
    requires forall i | 0 <= i < |threads| :: threads[i].Valid() && threads[i].Roots() == lists[i]
    ensures fresh(rootSnapshot) && rootSnapshot[..] == Concat(lists)
  {
    var totalRootRefs := CountRoots(threads, lists);
    rootSnapshot := new Ref[totalRootRefs](_ => Null);
    var index := 0;
    for t := 0 to |threads|
      invariant index == |Concat(lists[..t])| <= totalRootRefs
      invariant rootSnapshot[..index] == Concat(lists[..t])
    {
      PrefixStep(lists, t);
      assert threads[t].Valid() && threads[t].Roots() == old(threads[t].Roots());
      index := CopyRoots(threads[t], rootSnapshot, index);
    }
    assert lists[..|threads|] == lists;
    assert index == totalRootRefs;
  }
}
