/** Labelled machines and their finite runs. A machine says which labels are
    enabled in a state and which state they lead to; all choice is in the
    labels, so a run is a state and a list of labels. */
module Runs {

  datatype Machine<!S(!new), !L(!new)> = Machine(enabled: (S, L) -> bool, next: (S, L) -> S)

  /** Every label of `ls`, taken in turn from `s`, is enabled. */
  ghost predicate Valid<S(!new), L(!new)>(m: Machine<S, L>, s: S, ls: seq<L>)
    decreases |ls|
  {
    ls == [] || (m.enabled(s, ls[0]) && Valid(m, m.next(s, ls[0]), ls[1..]))
  }

  ghost function Exec<S(!new), L(!new)>(m: Machine<S, L>, s: S, ls: seq<L>): S
    decreases |ls|
  {
    if ls == [] then s else Exec(m, m.next(s, ls[0]), ls[1..])
  }

  ghost predicate Only<L(!new)>(ls: seq<L>, allowed: L -> bool) {
    forall i :: 0 <= i < |ls| ==> allowed(ls[i])
  }

  ghost predicate Preserves<S(!new), L(!new)>(m: Machine<S, L>, inv: S -> bool, allowed: L -> bool) {
    forall s, l :: inv(s) && allowed(l) && m.enabled(s, l) ==> inv(m.next(s, l))
  }

  /** What every allowed step keeps holds at the end of every allowed run. */
  lemma {:induction false} Invariant<S(!new), L(!new)>(m: Machine<S, L>, inv: S -> bool, allowed: L -> bool, s: S, ls: seq<L>)
    requires inv(s) && Valid(m, s, ls) && Only(ls, allowed) && Preserves(m, inv, allowed)
    ensures inv(Exec(m, s, ls))
    decreases |ls|
  {
    if ls != [] {
      assert allowed(ls[0]);
      Invariant(m, inv, allowed, m.next(s, ls[0]), ls[1..]);
    }
  }

  /** Steps that lower a measure bound the length of every run. */
  lemma {:induction false} Bounded<S(!new), L(!new)>(m: Machine<S, L>, inv: S -> bool, allowed: L -> bool, measure: S -> nat, s: S, ls: seq<L>)
    requires inv(s) && Valid(m, s, ls) && Only(ls, allowed) && Preserves(m, inv, allowed)
    requires forall t, l :: inv(t) && allowed(l) && m.enabled(t, l) ==> measure(m.next(t, l)) < measure(t)
    ensures |ls| + measure(Exec(m, s, ls)) <= measure(s)
    decreases |ls|
  {
    if ls != [] {
      assert allowed(ls[0]);
      Bounded(m, inv, allowed, measure, m.next(s, ls[0]), ls[1..]);
    }
  }

  lemma {:induction false} Concat<S(!new), L(!new)>(m: Machine<S, L>, s: S, a: seq<L>, b: seq<L>)
    requires Valid(m, s, a) && Valid(m, Exec(m, s, a), b)
    ensures Valid(m, s, a + b) && Exec(m, s, a + b) == Exec(m, Exec(m, s, a), b)
    decreases |a|
  {
    if a == [] {
      assert a + b == b;
    } else {
      assert (a + b)[1..] == a[1..] + b && (a + b)[0] == a[0];
      Concat(m, m.next(s, a[0]), a[1..], b);
    }
  }

  /** The one-label run. */
  lemma SingleStep<S(!new), L(!new)>(m: Machine<S, L>, s: S, l: L)
    requires m.enabled(s, l)
    ensures Valid(m, s, [l]) && Exec(m, s, [l]) == m.next(s, l)
  {
    assert [l][1..] == [];
    assert Valid(m, m.next(s, l), []);
  }

  /** A run goes on with one more enabled label. */
  lemma Extend<S(!new), L(!new)>(m: Machine<S, L>, s: S, ls: seq<L>, l: L)
    requires Valid(m, s, ls) && m.enabled(Exec(m, s, ls), l)
    ensures Valid(m, s, ls + [l]) && Exec(m, s, ls + [l]) == m.next(Exec(m, s, ls), l)
  {
    SingleStep(m, Exec(m, s, ls), l);
    Concat(m, s, ls, [l]);
  }

  lemma TwoSteps<S(!new), L(!new)>(m: Machine<S, L>, s: S, a: L, b: L)
    requires m.enabled(s, a) && m.enabled(m.next(s, a), b)
    ensures Valid(m, s, [a, b]) && Exec(m, s, [a, b]) == m.next(m.next(s, a), b)
  {
    SingleStep(m, s, a);
    Extend(m, s, [a], b);
    assert [a] + [b] == [a, b];
  }

  lemma ThreeSteps<S(!new), L(!new)>(m: Machine<S, L>, s: S, a: L, b: L, c: L)
    requires m.enabled(s, a) && m.enabled(m.next(s, a), b) && m.enabled(m.next(m.next(s, a), b), c)
    ensures Valid(m, s, [a, b, c]) && Exec(m, s, [a, b, c]) == m.next(m.next(m.next(s, a), b), c)
  {
    TwoSteps(m, s, a, b);
    Extend(m, s, [a, b], c);
    assert [a, b] + [c] == [a, b, c];
  }
}
