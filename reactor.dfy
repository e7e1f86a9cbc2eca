/**
 * The part of the reactor pattern every screen shares: a reducer turns a
 * state and one mutation into the next state, and the state after an action
 * is the reducer folded, in order, over the mutations the action produced.
 * Scheduling, merging of asynchronous producers and pulse delivery belong
 * to the reactive library and are not modelled here.
 */
module Reactor {

  datatype Option<+T> = None | Some(value: T)

  /** The state after folding `reduce` over `ms`, first mutation first. */
  function Fold<S, M>(reduce: (S, M) -> S, s: S, ms: seq<M>): S
    decreases |ms|
  {
    if ms == [] then s else Fold(reduce, reduce(s, ms[0]), ms[1..])
  }

  /**
   * Folding a concatenation is folding the first part and then the second,
   * starting from the state the first part left.
   */
  lemma {:induction false} FoldAppend<S, M>(reduce: (S, M) -> S, s: S, a: seq<M>, b: seq<M>)
    ensures Fold(reduce, s, a + b) == Fold(reduce, Fold(reduce, s, a), b)
    decreases |a|
  {
    if a == [] {
      assert a + b == b;
    } else {
      assert (a + b)[0] == a[0];
      assert (a + b)[1..] == a[1..] + b;
      FoldAppend(reduce, reduce(s, a[0]), a[1..], b);
    }
  }

  /** Folding one mutation is reducing by it. */
  lemma FoldOne<S, M>(reduce: (S, M) -> S, s: S, m: M)
    ensures Fold(reduce, s, [m]) == reduce(s, m)
  {
    assert [m][1..] == [];
    assert Fold(reduce, reduce(s, m), []) == reduce(s, m);
  }

  /** Folding two mutations is reducing by the first and then by the second. */
  lemma FoldTwo<S, M>(reduce: (S, M) -> S, s: S, m1: M, m2: M)
    ensures Fold(reduce, s, [m1, m2]) == reduce(reduce(s, m1), m2)
  {
    assert [m1, m2][1..] == [m2];
    assert [m2][1..] == [];
    assert Fold(reduce, reduce(s, m1), [m2]) == Fold(reduce, reduce(reduce(s, m1), m2), []);
  }
}
