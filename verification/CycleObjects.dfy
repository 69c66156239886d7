/** What a program sees of the heap while cycles go on around it: each action of a mutator does to slots, roots and
    buffers what the program asked for, the collector touches none of them, and every read gets the last write. */
module CycleObjects {
  import opened Heap
  import opened CycleModel
  import opened CycleInvariant
  import opened CycleRuns
  import opened CycleTrace

  // ---- One action of a mutator

  /** Only thread `t` changes, and of it only what `m` says. */
  ghost predicate OnlyThread(s: State, s': State, t: nat, m: Mutator) {
    t < |s.threads| && s' == s.(threads := s.threads[t := m])
  }

  /** The block keeps its shape. */
  predicate SameShape(a: Slots, b: Slots) {
    |a.fixed| == |b.fixed| && |a.flex| == |b.flex|
  }

  /** A write stores the value in exactly the slot named, and leaves the writer with a barrier on what the slot held. */
  lemma WriteStores(c: Config, s: State, t: nat, b: Block, j: nat, v: Ref)
    requires Enabled(s, Write(t, b, j, v))
    ensures var s' := Apply(c, s, Write(t, b, j, v));
      && s'.heap.Keys == s.heap.Keys && SameShape(s'.heap[b], s.heap[b])
      && s'.heap[b].All()[j] == v
      && (forall i | 0 <= i < |s.heap[b].All()| && i != j :: s'.heap[b].All()[i] == s.heap[b].All()[i])
      && (forall x | x in s.heap && x != b :: s'.heap[x] == s.heap[x])
      && OnlyThread(s.(heap := s'.heap), s', t, s.threads[t].(pc := Barrier(s.heap[b].All()[j])))
  {
  }

  /** A read makes what the slot holds the newest root and leaves the reader with a barrier on the block. */
  lemma ReadLoads(c: Config, s: State, t: nat, b: Block, j: nat)
    requires Enabled(s, Read(t, b, j))
    ensures var m := s.threads[t];
      OnlyThread(s, Apply(c, s, Read(t, b, j)), t,
                 m.(roots := [s.heap[b].All()[j]] + m.roots, pc := Barrier(To(b))))
  {
  }

  /** Dropping a root takes that root away, keeps the others in order, and leaves the thread with a barrier on it. */
  lemma DropTakes(c: Config, s: State, t: nat, i: nat)
    requires Enabled(s, Drop(t, i))
    ensures var m, s' := s.threads[t], Apply(c, s, Drop(t, i));
      && OnlyThread(s, s', t, m.(roots := s'.threads[t].roots, pc := Barrier(m.roots[i])))
      && |s'.threads[t].roots| == |m.roots| - 1
      && (forall k | 0 <= k < i :: s'.threads[t].roots[k] == m.roots[k])
      && (forall k | i < k < |m.roots| :: s'.threads[t].roots[k - 1] == m.roots[k])
  {
  }

  /** An allocation makes a block without slots the newest root; its bit reads as unmarked to the mutators. */
  lemma AllocGives(c: Config, s: State, t: nat, b: Block)
    requires Enabled(s, Alloc(t, b))
    ensures var m, s' := s.threads[t], Apply(c, s, Alloc(t, b));
      && s'.threads == s.threads[t := m.(roots := [To(b)] + m.roots)]
      && s'.heap == s.heap[b := Slots([], [])]
      && s'.mark.Keys == s.mark.Keys + {b} && s'.mark[b] != s.mutMarked
      && (forall x | x in s.mark && x != b :: s'.mark[x] == s.mark[x])
      && s' == s.(heap := s'.heap, mark := s'.mark, threads := s'.threads, hist := s'.hist)
  {
  }

  /** Storing a descriptor gives the block its slots, all of them null. */
  lemma DescribeGives(c: Config, s: State, t: nat, b: Block, nf: nat, nx: nat)
    requires Enabled(s, Describe(t, b, nf, nx))
    ensures var s' := Apply(c, s, Describe(t, b, nf, nx));
      && s'.heap.Keys == s.heap.Keys && |s'.heap[b].fixed| == nf && |s'.heap[b].flex| == nx
      && (forall j | 0 <= j < nf + nx :: s'.heap[b].All()[j] == Null)
      && (forall x | x in s.heap && x != b :: s'.heap[x] == s.heap[x])
      && s' == s.(heap := s'.heap)
  {
  }

  /** Threads attach without roots, and enter and leave their sections without touching anything else. */
  lemma SectionsTouchNothing(c: Config, s: State, t: nat)
    requires !s.phase.Crashed?
    ensures Apply(c, s, Attach) == s.(threads := s.threads + [Mutator(Outside, [], [])])
    ensures Enabled(s, Enter(t)) ==>
      OnlyThread(s, Apply(c, s, Enter(t)), t, s.threads[t].(pc := Inside)) && Enabled(Apply(c, s, Enter(t)), Leave(t))
    ensures Enabled(s, Leave(t)) ==> OnlyThread(s, Apply(c, s, Leave(t)), t, s.threads[t].(pc := Outside))
  {
  }

  /** No phase of a cycle holds up a mutator: outside it can enter, and in its section it can leave, allocate, drop any
      root, and read and write any slot of a block it has a root to, storing null or any reference it has. */
  lemma MutatorsNeverWait(s: State, t: nat)
    requires !s.phase.Crashed? && t < |s.threads|
    ensures s.threads[t].pc.Outside? ==> Enabled(s, Enter(t))
    ensures s.threads[t].pc.Inside? ==>
      && Enabled(s, Leave(t))
      && (forall b | b !in s.heap :: Enabled(s, Alloc(t, b)))
      && (forall i | 0 <= i < |s.threads[t].roots| :: Enabled(s, Drop(t, i)))
      && (forall b, j: nat | Rooted(s, t, b) && j < |s.heap[b].All()| :: Enabled(s, Read(t, b, j)))
      && (forall b, j: nat, v | Rooted(s, t, b) && j < |s.heap[b].All()| && (v == Null || v in s.threads[t].roots) ::
        Enabled(s, Write(t, b, j, v)))
    ensures forall b, nf: nat, nx: nat | Rooted(s, t, b) && s.heap[b] == NO_SLOTS ::
      Enabled(s, Describe(t, b, nf, nx))
  {
  }

  // ---- The barrier, as a whole

  /** The barrier looks at the flag; with marking off, or nothing held, that is all. */
  lemma BarrierLooks(c: Config, s: State, t: nat)
    requires Enabled(s, BarrierCheck(t))
    ensures var held := s.threads[t].pc.held;
      OnlyThread(s, Apply(c, s, BarrierCheck(t)), t,
                 s.threads[t].(pc := if s.marking && held != Null then Exchange(held.block) else Inside))
  {
  }

  /** The exchange marks the block, and wins it exactly if it was not marked. */
  lemma BarrierMarks(c: Config, s: State, t: nat)
    requires Enabled(s, BarrierExchange(t))
    ensures var b, s' := s.threads[t].pc.target, Apply(c, s, BarrierExchange(t));
      && Marked(s', b) && s'.mark.Keys == s.mark.Keys
      && (forall x | x in s.mark && x != b :: s'.mark[x] == s.mark[x])
      && s'.threads == s.threads[t := s.threads[t].(pc := if Marked(s, b) then Inside else Push(b))]
      && s' == s.(mark := s'.mark, threads := s'.threads, hist := s'.hist)
  {
  }

  /** A block that was won goes to the end of the thread's buffer; a full buffer goes, in order, to the end of the
      shared queue. */
  lemma BarrierBuffers(c: Config, s: State, t: nat)
    requires Enabled(s, BarrierPush(t))
    ensures var m, s' := s.threads[t], Apply(c, s, BarrierPush(t));
      && (|m.local| + 1 != c.chunkSize ==>
        OnlyThread(s, s', t, m.(pc := Inside, local := m.local + [m.pc.won])))
      && (|m.local| + 1 == c.chunkSize ==>
        OnlyThread(s.(remarkQueue := s.remarkQueue + (m.local + [m.pc.won])), s', t, m.(pc := Inside, local := [])))
  {
    var m := s.threads[t];
    assert s.remarkQueue + m.local + [m.pc.won] == s.remarkQueue + (m.local + [m.pc.won]);
  }

  /** How many actions a thread is away from the end of its barrier. */
  function BarrierLeft(pc: MutatorPc): nat {
    match pc
    case Barrier(_) => 3
    case Exchange(_) => 2
    case Push(_) => 1
    case _ => 0
  }

  predicate InBarrier(pc: MutatorPc) {
    BarrierLeft(pc) > 0
  }

  /** What a thread in a barrier does next. */
  function BarrierNext(t: nat, pc: MutatorPc): Action
    requires InBarrier(pc)
  {
    match pc
    case Barrier(_) => BarrierCheck(t)
    case Exchange(_) => BarrierExchange(t)
    case Push(_) => BarrierPush(t)
  }

  /** A thread in a barrier has an action to take, which brings it closer to the end, where it is in its section
      again, with the roots it had. */
  lemma BarrierEnds(c: Config, s: State, t: nat)
    requires !s.phase.Crashed? && t < |s.threads| && InBarrier(s.threads[t].pc)
    requires s.threads[t].pc.Exchange? ==> s.threads[t].pc.target in s.mark
    ensures var a := BarrierNext(t, s.threads[t].pc);
      && Enabled(s, a)
      && var m := Apply(c, s, a).threads[t];
        && BarrierLeft(m.pc) < BarrierLeft(s.threads[t].pc)
        && (InBarrier(m.pc) || m.pc.Inside?) && m.roots == s.threads[t].roots
  {
    match s.threads[t].pc
    case Barrier(_) => BarrierLooks(c, s, t);
    case Exchange(_) => BarrierMarks(c, s, t);
    case Push(_) => BarrierBuffers(c, s, t);
  }

  /** Nobody else, collector or mutator, changes a thread's roots, and of its own actions only these three do. */
  lemma RootsAreOwn(c: Config, s: State, a: Action, t: nat)
    requires Enabled(s, a) && t < |s.threads| && !((a.Read? || a.Drop? || a.Alloc?) && a.t == t)
    ensures t < |Apply(c, s, a).threads| && Apply(c, s, a).threads[t].roots == s.threads[t].roots
  {
    if CollectorEnabled(s, a) {
      CollectorTouchesNothing(c, s, a);
    } else if a.BarrierPush? {
      BarrierBuffers(c, s, a.t);
    } else if a.BarrierExchange? {
      BarrierMarks(c, s, a.t);
    } else if a.Write? {
      WriteStores(c, s, a.t, a.b, a.j, a.v);
    }
  }

  // ---- Actions of the collector

  lemma TraceTouchesNothing(c: Config, s: State, a: Action)
    requires !s.phase.Crashed? && CollectorEnabled(s, a) && IsTrace(a)
    ensures Apply(c, s, a).heap == s.heap && Apply(c, s, a).threads == s.threads
  {
    TraceLeavesRest(c, s, a);
  }

  /** The collector changes no slot, no root and no thread's position; it takes remark buffers, and the sweep frees the
      one block it looks at if that is unmarked. */
  lemma CollectorTouchesNothing(c: Config, s: State, a: Action)
    requires !s.phase.Crashed? && CollectorEnabled(s, a)
    ensures var s' := Apply(c, s, a);
      && |s'.threads| == |s.threads|
      && (forall t | 0 <= t < |s.threads| :: s'.threads[t] == s.threads[t].(local := s'.threads[t].local))
      && s'.heap == if a.SweepOne? && !Marked(s, a.b) then s.heap - {a.b} else s.heap
  {
    if IsTrace(a) { TraceTouchesNothing(c, s, a); }
  }

  // ---- Memory over runs

  /** The action stores in slot `j` of `b`, or makes a new block of `b`. */
  predicate Stores(a: Action, b: Block, j: nat) {
    || (a.Write? && a.b == b && a.j == j)
    || ((a.Alloc? || a.Describe?) && a.b == b)
  }

  /** What slot `j` of `b` should hold after the first `k` actions: what was last written to it, or null. */
  ghost function LastStored(acts: seq<Action>, b: Block, j: nat, k: nat): Ref
    requires k <= |acts|
  {
    if k == 0 then Null
    else if Stores(acts[k - 1], b, j) then (if acts[k - 1].Write? then acts[k - 1].v else Null)
    else LastStored(acts, b, j, k - 1)
  }

  /** How many fixed and flexible slots `b` should have. */
  ghost function LastShape(acts: seq<Action>, b: Block, k: nat): (nat, nat)
    requires k <= |acts|
  {
    if k == 0 then (0, 0)
    else match acts[k - 1]
      case Alloc(_, x) => if x == b then (0, 0) else LastShape(acts, b, k - 1)
      case Describe(_, x, nf, nx) => if x == b then (nf, nx) else LastShape(acts, b, k - 1)
      case _ => LastShape(acts, b, k - 1)
  }

  /** An action that neither writes to a block nor makes it leaves it as it is, as long as it is in the heap. */
  lemma OthersKeepBlock(c: Config, s: State, a: Action, b: Block)
    requires Enabled(s, a) && b in Apply(c, s, a).heap
    requires !((a.Write? || a.Alloc? || a.Describe?) && a.b == b)
    ensures b in s.heap && Apply(c, s, a).heap[b] == s.heap[b]
  {
    if CollectorEnabled(s, a) {
      CollectorTouchesNothing(c, s, a);
    } else if a.Write? {
      WriteStores(c, s, a.t, a.b, a.j, a.v);
    }
  }

  /** In every state of every run each slot holds what was last written to it, null if nothing was, whatever the
      collector and other mutators did in between. */
  lemma {:induction false} MemoryHoldsLastStored(
      c: Config, r: Rules, ss: seq<State>, acts: seq<Action>, k: nat, b: Block)
    requires IsRun(c, r, ss, acts) && k <= |acts| && b in ss[k].heap
    ensures (|ss[k].heap[b].fixed|, |ss[k].heap[b].flex|) == LastShape(acts, b, k)
    ensures forall j | 0 <= j < |ss[k].heap[b].All()| :: ss[k].heap[b].All()[j] == LastStored(acts, b, j, k)
  {
    if k > 0 {
      var s, a := ss[k - 1], acts[k - 1];
      assert StepAt(c, r, ss, acts, k - 1);
      if a.Write? && a.b == b {
        MemoryHoldsLastStored(c, r, ss, acts, k - 1, b);
        WriteStores(c, s, a.t, b, a.j, a.v);
      } else if a.Alloc? && a.b == b {
        AllocGives(c, s, a.t, b);
      } else if a.Describe? && a.b == b {
        DescribeGives(c, s, a.t, b, a.nf, a.nx);
      } else {
        OthersKeepBlock(c, s, a, b);
        MemoryHoldsLastStored(c, r, ss, acts, k - 1, b);
      }
    }
  }

  /** A read gets the last value written to the slot. */
  lemma ReadGetsLastStored(c: Config, r: Rules, ss: seq<State>, acts: seq<Action>, k: nat, t: nat, b: Block, j: nat)
    requires IsRun(c, r, ss, acts) && k < |acts| && acts[k] == Read(t, b, j)
    ensures t < |ss[k].threads| && t < |ss[k + 1].threads|
    ensures ss[k + 1].threads[t].roots == [LastStored(acts, b, j, k)] + ss[k].threads[t].roots
  {
    assert StepAt(c, r, ss, acts, k);
    MemoryHoldsLastStored(c, r, ss, acts, k, b);
    ReadLoads(c, ss[k], t, b, j);
  }

  /** The same between one write and a later read: if nothing is written to the slot in between, and the address is
      not allocated anew, the reader gets a root to what the writer stored. */
  lemma ReadGetsTheWrite(
      c: Config, r: Rules, ss: seq<State>, acts: seq<Action>, i: nat, k: nat,
      u: nat, t: nat, b: Block, j: nat, v: Ref)
    requires IsRun(c, r, ss, acts) && i < k < |acts| && acts[i] == Write(u, b, j, v) && acts[k] == Read(t, b, j)
    requires forall m | i < m < k :: !(acts[m].Write? && acts[m].b == b && acts[m].j == j)
    requires forall m | i < m < k :: !(acts[m].Alloc? && acts[m].b == b)
    ensures t < |ss[k].threads| && t < |ss[k + 1].threads|
    ensures ss[k + 1].threads[t].roots == [v] + ss[k].threads[t].roots
  {
    assert StepAt(c, r, ss, acts, k);
    WriteIsKept(c, r, ss, acts, i, k, u, b, j, v);
    ReadLoads(c, ss[k], t, b, j);
  }

  lemma {:induction false} WriteIsKept(
      c: Config, r: Rules, ss: seq<State>, acts: seq<Action>, i: nat, k: nat, u: nat, b: Block, j: nat, v: Ref)
    requires IsRun(c, r, ss, acts) && i < k <= |acts| && acts[i] == Write(u, b, j, v) && b in ss[k].heap
    requires forall m | i < m < k :: !(acts[m].Write? && acts[m].b == b && acts[m].j == j)
    requires forall m | i < m < k :: !(acts[m].Alloc? && acts[m].b == b)
    ensures j < |ss[k].heap[b].All()| && ss[k].heap[b].All()[j] == v
  {
    var s, a := ss[k - 1], acts[k - 1];
    assert StepAt(c, r, ss, acts, k - 1);
    if k == i + 1 {
      WriteStores(c, s, u, b, j, v);
    } else {
      if a.Write? && a.b == b {
        WriteStores(c, s, a.t, b, a.j, a.v);
      } else if !(a.Describe? && a.b == b) {
        OthersKeepBlock(c, s, a, b);
      }
      WriteIsKept(c, r, ss, acts, i, k - 1, u, b, j, v);
    }
  }
}
