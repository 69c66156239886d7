/** The global list under concurrent callers: pushes that load the head, write `next` and swap the head with
    a weak compare-and-exchange, and the exchange that detaches the whole list to be walked. Each atomic
    access is one step. */
module GlobalList {
  import opened Sequences
  import opened Chains
  import opened ListPointers

  type Thread = nat

  /** Between its first load and its successful swap, a push has a unit and the head it last saw. */
  datatype Push = Loaded(u: AllocUnit, seen: AllocUnit?) | Written(u: AllocUnit, seen: AllocUnit?)

  /** `walker` is the rest of the detached list, `held` the units that callers hold outside any list. */
  datatype State = State(
    next: Links, head: AllocUnit?, walker: AllocUnit?, pushes: map<Thread, Push>, held: set<AllocUnit>)

  datatype Action =
    | New(u: AllocUnit)
    | Load(t: Thread, u: AllocUnit)
    | Write(t: Thread)
    | Swap(t: Thread, spurious: bool)
    | Detach
    | Walk
    | Free(u: AllocUnit)

  /** The list is detached again only when its last detached part has been walked. */
  ghost predicate Enabled(s: State, h: History, a: Action) {
    match a
    case New(u) => u !in h.live
    case Load(t, u) => t !in s.pushes && u in s.held
    case Write(t) => t in s.pushes && s.pushes[t].Loaded?
    case Swap(t, spurious) => t in s.pushes && s.pushes[t].Written?
    case Detach => s.walker == null
    case Walk => s.walker != null && s.walker in s.next
    case Free(u) => u in s.held
  }

  predicate Succeeds(s: State, a: Action) {
    a.Swap? && !a.spurious && a.t in s.pushes && s.head == s.pushes[a.t].seen
  }

  ghost function Apply(s: State, h: History, a: Action): State
    requires Enabled(s, h, a)
  {
    match a
    case New(u) => s.(next := s.next[u := null], held := s.held + {u})
    case Load(t, u) => s.(pushes := s.pushes[t := Loaded(u, s.head)], held := s.held - {u})
    case Write(t) =>
      var p := s.pushes[t];
      s.(next := s.next[p.u := p.seen], pushes := s.pushes[t := Written(p.u, p.seen)])
    case Swap(t, _) =>
      if Succeeds(s, a) then s.(head := s.pushes[t].u, pushes := s.pushes - {t})
      else s.(pushes := s.pushes[t := Loaded(s.pushes[t].u, s.head)])
    case Detach => s.(head := null, walker := s.head)
    case Walk => s.(walker := s.next[s.walker], held := s.held + {s.walker})
    case Free(u) => s.(held := s.held - {u})
  }

  // ---- What has happened so far

  /** The units on the list, newest first, and on the detached part; every unit pushed and every unit detached
      so far, as often as it was; the units allocated and not freed. */
  datatype History = History(
    linked: seq<AllocUnit>, walking: seq<AllocUnit>,
    pushed: multiset<AllocUnit>, detached: multiset<AllocUnit>, live: set<AllocUnit>)

  ghost function Record(s: State, h: History, a: Action): History
    requires Enabled(s, h, a)
  {
    match a
    case New(u) => h.(live := h.live + {u})
    case Load(t, u) => h
    case Write(t) => h
    case Swap(t, _) =>
      if Succeeds(s, a)
      then h.(linked := [s.pushes[t].u] + h.linked, pushed := h.pushed + multiset{s.pushes[t].u})
      else h
    case Detach => h.(linked := [], walking := h.linked, detached := h.detached + multiset(h.linked))
    case Walk => if h.walking == [] then h else h.(walking := h.walking[1..])
    case Free(u) => h.(live := h.live - {u})
  }

  const START := State(map[], null, null, map[], {})
  const NOTHING_YET := History([], [], multiset{}, multiset{}, {})

  // ---- The invariant

  /** The pointers form the two lists. */
  ghost predicate Shaped(s: State, h: History) {
    Chain(s.next, h.linked, s.head) && Chain(s.next, h.walking, s.walker)
  }

  /** No unit is in two places. */
  ghost predicate Apart(s: State, h: History) {
    ListsApart(s, h) && PushesApart(s, h)
  }

  ghost predicate ListsApart(s: State, h: History) {
    && Distinct(h.linked) && Distinct(h.walking)
    && (forall u | u in h.linked :: u !in h.walking && u !in s.held)
    && (forall u | u in h.walking :: u !in s.held)
  }

  ghost predicate PushesApart(s: State, h: History) {
    && (forall t | t in s.pushes :: Outside(s, h, s.pushes[t].u))
    && (forall t, t' | t in s.pushes && t' in s.pushes && t != t' :: s.pushes[t].u != s.pushes[t'].u)
  }

  ghost predicate Outside(s: State, h: History, u: AllocUnit) {
    u !in h.linked && u !in h.walking && u !in s.held
  }

  /** Every live unit is somewhere, and what is somewhere is live. */
  ghost predicate Covered(s: State, h: History) {
    (forall u | u in h.live :: Placed(s, h, u)) && AllLive(s, h)
  }

  ghost predicate AllLive(s: State, h: History) {
    && (forall u | u in h.linked :: u in h.live)
    && (forall u | u in h.walking :: u in h.live)
    && s.held <= h.live
    && (forall t | t in s.pushes :: s.pushes[t].u in h.live)
  }

  /** A unit whose `next` is written points to the head that its push saw. */
  ghost predicate Prepared(s: State) {
    forall t | t in s.pushes && s.pushes[t].Written? ::
      s.pushes[t].u in s.next && s.next[s.pushes[t].u] == s.pushes[t].seen
  }

  ghost predicate Inv(s: State, h: History) {
    && Shaped(s, h) && Apart(s, h) && Covered(s, h) && Prepared(s)
    && h.pushed == h.detached + multiset(h.linked)
  }

  // ---- Every step keeps it

  lemma StepKeepsShaped(s: State, h: History, a: Action)
    requires Inv(s, h) && Enabled(s, h, a)
    ensures Shaped(Apply(s, h, a), Record(s, h, a))
  {
    match a
    case New(u) =>
      ChainFrame(s.next, h.linked, s.head, u, null);
      ChainFrame(s.next, h.walking, s.walker, u, null);
    case Write(t) =>
      var p := s.pushes[t];
      assert Outside(s, h, p.u);
      ChainFrame(s.next, h.linked, s.head, p.u, p.seen);
      ChainFrame(s.next, h.walking, s.walker, p.u, p.seen);
    case Swap(t, _) =>
      if Succeeds(s, a) {
        var u := s.pushes[t].u;
        assert Outside(s, h, u);
        ChainPush(s.next, h.linked, s.head, u);
        assert s.next[u := s.head] == s.next;
      }
    case Walk => ChainRest(s.next, h.walking, s.walker);
    case _ =>
  }

  lemma StepKeepsPrepared(s: State, h: History, a: Action)
    requires Inv(s, h) && Enabled(s, h, a)
    ensures Prepared(Apply(s, h, a))
  {
  }

  lemma StepKeepsListsApart(s: State, h: History, a: Action)
    requires Inv(s, h) && Enabled(s, h, a)
    ensures ListsApart(Apply(s, h, a), Record(s, h, a))
  {
    match a
    case Walk => ChainRest(s.next, h.walking, s.walker);
    case Swap(t, _) => assert Outside(s, h, s.pushes[t].u);
    case _ =>
  }

  lemma StepKeepsOutside(s: State, h: History, a: Action, t: Thread)
    requires Inv(s, h) && Enabled(s, h, a) && t in Apply(s, h, a).pushes
    ensures Outside(Apply(s, h, a), Record(s, h, a), Apply(s, h, a).pushes[t].u)
  {
    assert t in s.pushes ==> Outside(s, h, s.pushes[t].u);
    match a
    case Walk => ChainRest(s.next, h.walking, s.walker);
    case Swap(t', _) => assert t' != t ==> s.pushes[t].u != s.pushes[t'].u;
    case _ =>
  }

  lemma StepKeepsPushesApart(s: State, h: History, a: Action)
    requires Inv(s, h) && Enabled(s, h, a)
    ensures PushesApart(Apply(s, h, a), Record(s, h, a))
  {
    var s', h' := Apply(s, h, a), Record(s, h, a);
    forall t | t in s'.pushes ensures Outside(s', h', s'.pushes[t].u) { StepKeepsOutside(s, h, a, t); }
    forall t | t in s.pushes ensures Outside(s, h, s.pushes[t].u) {}
  }

  /** A live unit is in the list, in its detached part, held, or on its way in. */
  ghost predicate Placed(s: State, h: History, u: AllocUnit) {
    u in h.linked || u in h.walking || u in s.held || exists t :: t in s.pushes && s.pushes[t].u == u
  }

  lemma StepKeepsPlaced(s: State, h: History, a: Action, u: AllocUnit)
    requires Inv(s, h) && Enabled(s, h, a) && Placed(s, h, u) && a != Free(u)
    ensures Placed(Apply(s, h, a), Record(s, h, a), u)
  {
    var s', h' := Apply(s, h, a), Record(s, h, a);
    if t :| t in s.pushes && s.pushes[t].u == u {
      if t in s'.pushes { assert s'.pushes[t].u == u; }
    } else if a.Walk? {
      ChainRest(s.next, h.walking, s.walker);
    } else if a.Load? && a.u == u {
      assert s'.pushes[a.t].u == u;
    }
  }

  lemma StepKeepsCovered(s: State, h: History, a: Action)
    requires Inv(s, h) && Enabled(s, h, a)
    ensures Covered(Apply(s, h, a), Record(s, h, a))
  {
    var s', h' := Apply(s, h, a), Record(s, h, a);
    forall u | u in h'.live ensures Placed(s', h', u) {
      if u in h.live { StepKeepsPlaced(s, h, a, u); }
    }
    StepKeepsAllLive(s, h, a);
  }

  lemma FreeKeepsAllLive(s: State, h: History, u: AllocUnit)
    requires Apart(s, h) && AllLive(s, h) && Enabled(s, h, Free(u))
    ensures AllLive(Apply(s, h, Free(u)), Record(s, h, Free(u)))
  {
    assert forall t | t in s.pushes :: Outside(s, h, s.pushes[t].u);
  }

  lemma StepKeepsAllLive(s: State, h: History, a: Action)
    requires Inv(s, h) && Enabled(s, h, a)
    ensures AllLive(Apply(s, h, a), Record(s, h, a))
  {
    match a
    case Walk => ChainRest(s.next, h.walking, s.walker);
    case Free(u) => FreeKeepsAllLive(s, h, u);
    case _ =>
  }

  lemma StepKeepsInv(s: State, h: History, a: Action)
    requires Inv(s, h) && Enabled(s, h, a)
    ensures Inv(Apply(s, h, a), Record(s, h, a))
  {
    StepKeepsShaped(s, h, a);
    StepKeepsPrepared(s, h, a);
    StepKeepsListsApart(s, h, a);
    StepKeepsPushesApart(s, h, a);
    StepKeepsCovered(s, h, a);
  }

  // ---- Runs

  ghost predicate IsRun(ss: seq<State>, hs: seq<History>, acts: seq<Action>) {
    && |ss| == |hs| == |acts| + 1
    && ss[0] == START && hs[0] == NOTHING_YET
    && forall k | 0 <= k < |acts| :: StepAt(ss, hs, acts, k)
  }

  ghost predicate StepAt(ss: seq<State>, hs: seq<History>, acts: seq<Action>, k: nat)
    requires k < |acts| && |ss| == |hs| == |acts| + 1
  {
    && Enabled(ss[k], hs[k], acts[k])
    && ss[k + 1] == Apply(ss[k], hs[k], acts[k]) && hs[k + 1] == Record(ss[k], hs[k], acts[k])
  }

  lemma {:induction false} RunKeepsInv(ss: seq<State>, hs: seq<History>, acts: seq<Action>, k: nat)
    requires IsRun(ss, hs, acts) && k <= |acts|
    ensures Inv(ss[k], hs[k])
  {
    if k > 0 {
      RunKeepsInv(ss, hs, acts, k - 1);
      assert StepAt(ss, hs, acts, k - 1);
      StepKeepsInv(ss[k - 1], hs[k - 1], acts[k - 1]);
    }
  }

  /** Whatever the interleaving, and however often a freed address comes back while a push still compares
      with it: the list from `head` ends in null and visits no unit twice, every live unit is in exactly one
      place, and the units pushed are exactly those detached and those still on the list. */
  lemma NoUnitIsLostOrDoubled(ss: seq<State>, hs: seq<History>, acts: seq<Action>, k: nat)
    requires IsRun(ss, hs, acts) && k <= |acts|
    ensures Chain(ss[k].next, hs[k].linked, ss[k].head) && Distinct(hs[k].linked)
    ensures Chain(ss[k].next, hs[k].walking, ss[k].walker) && Distinct(hs[k].walking)
    ensures forall u | u in hs[k].live :: Placed(ss[k], hs[k], u)
    ensures Apart(ss[k], hs[k])
    ensures hs[k].pushed == hs[k].detached + multiset(hs[k].linked)
  {
    RunKeepsInv(ss, hs, acts, k);
  }

  // ---- What each step does

  /** A swap that finds the head its push last saw, and is not spurious, links the unit in front of the list and ends
      the push; nothing else moves. */
  lemma SwapLinksInFront(s: State, h: History, t: Thread)
    requires Inv(s, h) && Enabled(s, h, Swap(t, false)) && s.head == s.pushes[t].seen
    ensures var u, s', h' := s.pushes[t].u, Apply(s, h, Swap(t, false)), Record(s, h, Swap(t, false));
      && Chain(s'.next, [u] + h.linked, s'.head) && h'.linked == [u] + h.linked
      && s' == s.(head := u, pushes := s.pushes - {t})
  {
    StepKeepsShaped(s, h, Swap(t, false));
  }

  /** Any other swap moves nothing but sends its push back to writing `next`, with the head there is now; if nobody
      moves that, the next write and swap link the unit. */
  lemma SwapRetries(s: State, h: History, t: Thread, spurious: bool)
    requires Inv(s, h) && Enabled(s, h, Swap(t, spurious)) && (spurious || s.head != s.pushes[t].seen)
    ensures var u, s', h' := s.pushes[t].u, Apply(s, h, Swap(t, spurious)), Record(s, h, Swap(t, spurious));
      && h' == h && s' == s.(pushes := s.pushes[t := Loaded(u, s.head)])
      && Enabled(s', h', Write(t)) && Enabled(Apply(s', h', Write(t)), h', Swap(t, false))
      && Apply(Apply(s', h', Write(t)), h', Swap(t, false)) ==
        s.(next := s.next[u := s.head], head := u, pushes := s.pushes - {t})
  {
    var u, s1 := s.pushes[t].u, Apply(s, h, Swap(t, spurious));
    var s2 := Apply(s1, h, Write(t));
    assert s2 == s.(next := s.next[u := s.head], pushes := s.pushes[t := Written(u, s.head)]);
    assert Succeeds(s2, Swap(t, false));
    assert s2.pushes - {t} == s.pushes - {t};
  }

  /** A push takes a unit that a caller holds and reads the head; its write makes the unit point there. */
  lemma PushBegins(s: State, h: History, t: Thread, u: AllocUnit)
    requires Enabled(s, h, Load(t, u))
    ensures var s' := Apply(s, h, Load(t, u));
      && s' == s.(pushes := s.pushes[t := Loaded(u, s.head)], held := s.held - {u})
      && Enabled(s', h, Write(t))
      && Apply(s', h, Write(t)) ==
        s'.(next := s.next[u := s.head], pushes := s.pushes[t := Written(u, s.head)])
      && Enabled(Apply(s', h, Write(t)), h, Swap(t, false))
  {
  }

  /** Detaching takes the whole list in one exchange, and leaves an empty one. */
  lemma DetachTakesAll(s: State, h: History)
    requires Inv(s, h) && Enabled(s, h, Detach)
    ensures var s', h' := Apply(s, h, Detach), Record(s, h, Detach);
      && s' == s.(head := null, walker := s.head) && Chain(s'.next, h.linked, s'.walker)
      && h'.walking == h.linked && h'.linked == [] && h'.detached == h.detached + multiset(h.linked)
      && h'.pushed == h.pushed && h'.live == h.live
  {
  }

  /** The walk hands out the units of the detached list one by one, in order, to its caller. */
  lemma WalkHandsOut(s: State, h: History)
    requires Inv(s, h) && s.walker != null
    ensures Enabled(s, h, Walk) && h.walking != [] && h.walking[0] == s.walker
    ensures var s', h' := Apply(s, h, Walk), Record(s, h, Walk);
      && s' == s.(walker := s'.walker, held := s.held + {h.walking[0]})
      && h' == h.(walking := h.walking[1..]) && Chain(s'.next, h'.walking, s'.walker)
  {
    ChainRest(s.next, h.walking, s.walker);
  }

  // ---- Some push always gets on

  /** The push's own accesses to `head`. */
  predicate Sees(a: Action, t: Thread) {
    (a.Load? || a.Swap?) && a.t == t
  }

  /** What a push last saw was the head at its last access. */
  lemma {:induction false} SeenWasHead(
      ss: seq<State>, hs: seq<History>, acts: seq<Action>, k: nat, t: Thread) returns (j: nat)
    requires IsRun(ss, hs, acts) && k <= |acts| && t in ss[k].pushes
    ensures j < k && Sees(acts[j], t) && ss[j].head == ss[j + 1].head == ss[k].pushes[t].seen
    ensures forall m | j < m < k :: !Sees(acts[m], t)
  {
    assert k > 0;
    assert StepAt(ss, hs, acts, k - 1);
    if Sees(acts[k - 1], t) {
      j := k - 1;
    } else {
      j := SeenWasHead(ss, hs, acts, k - 1, t);
    }
  }

  lemma {:induction false} HeadMoved(ss: seq<State>, j: nat, k: nat) returns (m: nat)
    requires j <= k < |ss| && ss[j].head != ss[k].head
    ensures j <= m < k && ss[m].head != ss[m + 1].head
  {
    if ss[k - 1].head != ss[k].head { m := k - 1; } else { m := HeadMoved(ss, j, k - 1); }
  }

  /** A swap fails, other than spuriously, only if since its push last saw the head another push has succeeded or the
      list has been detached: whoever makes one push wait gets on itself. */
  lemma FailedSwapHasAWinner(ss: seq<State>, hs: seq<History>, acts: seq<Action>, k: nat)
    returns (m: nat)
    requires IsRun(ss, hs, acts) && k < |acts| && acts[k].Swap? && !acts[k].spurious && !Succeeds(ss[k], acts[k])
    ensures m < k && (acts[m].Detach? || (Succeeds(ss[m], acts[m]) && acts[m].t != acts[k].t))
    ensures forall i | m < i < k :: !Sees(acts[i], acts[k].t)
  {
    assert StepAt(ss, hs, acts, k);
    var j := SeenWasHead(ss, hs, acts, k, acts[k].t);
    m := HeadMoved(ss, j + 1, k);
    assert StepAt(ss, hs, acts, m);
  }

  /** New units are held by whoever allocated them; held units can be pushed or freed. */
  lemma HeldUnits(s: State, h: History, u: AllocUnit)
    ensures u !in h.live ==>
      && Enabled(s, h, New(u))
      && Apply(s, h, New(u)) == s.(next := s.next[u := null], held := s.held + {u})
      && Record(s, h, New(u)) == h.(live := h.live + {u})
    ensures u in s.held ==>
      && Enabled(s, h, Free(u))
      && Apply(s, h, Free(u)) == s.(held := s.held - {u})
      && Record(s, h, Free(u)) == h.(live := h.live - {u})
    ensures forall t | t !in s.pushes && u in s.held :: Enabled(s, h, Load(t, u))
    ensures s.walker == null ==> Enabled(s, h, Detach)
  {
  }
}
