/** A step function applied over and over. */
module Iteration {

  ghost predicate Linked<S>(goesOn: S -> bool, next: S -> S, ss: seq<S>, i: nat)
    requires i + 1 < |ss|
  {
    goesOn(ss[i]) && ss[i + 1] == next(ss[i])
  }

  /** Each of these states but the last goes on to the next one. */
  ghost predicate IsOrbit<S>(goesOn: S -> bool, next: S -> S, ss: seq<S>, n: nat) {
    |ss| == n + 1 && forall i | 0 <= i < n :: Linked(goesOn, next, ss, i)
  }

  /** `n` steps lead from `s` to `s'`, each from a state that goes on. */
  ghost predicate Iterates<S(!new)>(goesOn: S -> bool, next: S -> S, s: S, n: nat, s': S) {
    exists ss: seq<S> :: IsOrbit(goesOn, next, ss, n) && ss[0] == s && ss[n] == s'
  }

  lemma IteratesNone<S(!new)>(goesOn: S -> bool, next: S -> S, s: S)
    ensures Iterates(goesOn, next, s, 0, s)
  {
    assert IsOrbit(goesOn, next, [s], 0);
  }

  lemma IteratesOnce<S(!new)>(goesOn: S -> bool, next: S -> S, s: S)
    requires goesOn(s)
    ensures Iterates(goesOn, next, s, 1, next(s))
  {
    assert IsOrbit(goesOn, next, [s, next(s)], 1);
  }

  lemma IteratesFurther<S(!new)>(goesOn: S -> bool, next: S -> S, s: S, n: nat, s1: S, m: nat, s2: S)
    requires Iterates(goesOn, next, s, n, s1) && Iterates(goesOn, next, s1, m, s2)
    ensures Iterates(goesOn, next, s, n + m, s2)
  {
    var ss :| IsOrbit(goesOn, next, ss, n) && ss[0] == s && ss[n] == s1;
    var ts :| IsOrbit(goesOn, next, ts, m) && ts[0] == s1 && ts[m] == s2;
    var all := ss[..n] + ts;
    forall i | 0 <= i < n + m ensures Linked(goesOn, next, all, i) {
      if i < n { assert Linked(goesOn, next, ss, i); } else { assert Linked(goesOn, next, ts, i - n); }
    }
    assert IsOrbit(goesOn, next, all, n + m) && all[0] == s && all[n + m] == s2;
  }

  lemma {:induction false} OneWay<S(!new)>(
      goesOn: S -> bool, next: S -> S, ss: seq<S>, n: nat, ts: seq<S>, m: nat, i: nat)
    requires IsOrbit(goesOn, next, ss, n) && IsOrbit(goesOn, next, ts, m) && ss[0] == ts[0] && i <= n && i <= m
    ensures ss[i] == ts[i]
  {
    if i > 0 {
      OneWay(goesOn, next, ss, n, ts, m, i - 1);
      assert Linked(goesOn, next, ss, i - 1) && Linked(goesOn, next, ts, i - 1);
    }
  }

  /** Steps are determined, so on the way to a state that does not go on they lead through any other. */
  lemma IteratesThrough<S(!new)>(goesOn: S -> bool, next: S -> S, s: S, n: nat, last: S, m: nat, s1: S)
    requires Iterates(goesOn, next, s, n, last) && !goesOn(last) && Iterates(goesOn, next, s, m, s1)
    ensures m <= n && Iterates(goesOn, next, s1, n - m, last)
  {
    var ss :| IsOrbit(goesOn, next, ss, n) && ss[0] == s && ss[n] == last;
    var ts :| IsOrbit(goesOn, next, ts, m) && ts[0] == s && ts[m] == s1;
    OneWay(goesOn, next, ss, n, ts, m, if m <= n then m else n);
    assert m > n ==> Linked(goesOn, next, ts, n);
    var rest := ss[m..];
    forall i | 0 <= i < n - m ensures Linked(goesOn, next, rest, i) { assert Linked(goesOn, next, ss, m + i); }
    assert IsOrbit(goesOn, next, rest, n - m) && rest[0] == s1 && rest[n - m] == last;
  }

  /** The first step. */
  lemma IteratesFirst<S(!new)>(goesOn: S -> bool, next: S -> S, s: S, n: nat, s': S)
    requires Iterates(goesOn, next, s, n, s') && n > 0
    ensures goesOn(s) && Iterates(goesOn, next, next(s), n - 1, s')
  {
    var ss :| IsOrbit(goesOn, next, ss, n) && ss[0] == s && ss[n] == s';
    assert Linked(goesOn, next, ss, 0);
    var rest := ss[1..];
    forall i | 0 <= i < n - 1 ensures Linked(goesOn, next, rest, i) { assert Linked(goesOn, next, ss, 1 + i); }
    assert IsOrbit(goesOn, next, rest, n - 1) && rest[0] == next(s) && rest[n - 1] == s';
  }
}
