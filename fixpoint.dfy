/** The shape of the k-means loops: a state is replaced by its successor
    while a stop test on the state and its successor fails and iterations
    are left, and every replacement records a cost of the new state. The
    facts here hold whatever the state, the successor and the cost are;
    `KMeans` and `Clustering` instantiate them. */
module Fixpoint {

  /** Where the loop stops, and the cost recorded by every iteration. */
  datatype Trace<S> = Trace(last: S, costs: seq<real>)

  /** The loop from `s` with at most `fuel` iterations left. */
  function Iter<S>(next: S -> S, stop: (S, S) -> bool, cost: S -> real, s: S, fuel: nat): (t: Trace<S>)
    ensures |t.costs| <= fuel
    decreases fuel
  {
    if fuel == 0 || stop(s, next(s)) then Trace(s, [])
    else
      var rest := Iter(next, stop, cost, next(s), fuel - 1);
      Trace(rest.last, [cost(next(s))] + rest.costs)
  }

  /** A cost history as the loops record it: no entry is negative and none
      exceeds the one before. */
  predicate Descending(h: seq<real>)
  {
    && (forall i | 0 <= i < |h| :: h[i] >= 0.0)
    && (forall i | 0 < i < |h| :: h[i] <= h[i - 1])
  }

  /** One iteration, when the test fails and fuel is left: the loop ends where
      the loop from the successor ends, having recorded the successor's cost. */
  lemma Unroll<S>(next: S -> S, stop: (S, S) -> bool, cost: S -> real, s: S, fuel: nat)
    requires fuel > 0 && !stop(s, next(s))
    ensures Iter(next, stop, cost, s, fuel).last == Iter(next, stop, cost, next(s), fuel - 1).last
    ensures Iter(next, stop, cost, s, fuel).costs == [cost(next(s))] + Iter(next, stop, cost, next(s), fuel - 1).costs
  {
  }

  /** The loop stays where it is once the test holds or the fuel ran out. */
  lemma Done<S>(next: S -> S, stop: (S, S) -> bool, cost: S -> real, s: S, fuel: nat)
    requires fuel == 0 || stop(s, next(s))
    ensures Iter(next, stop, cost, s, fuel) == Trace(s, [])
  {
  }

  /** How the loop stops: it iterates not at all exactly when the fuel is zero
      or the first test holds; it stops with fuel left only where the test
      holds; and its last recorded cost is that of the state it stops in. */
  lemma {:induction false} Stops<S>(next: S -> S, stop: (S, S) -> bool, cost: S -> real, s: S, fuel: nat)
    ensures var t := Iter(next, stop, cost, s, fuel);
            && (|t.costs| == 0 <==> fuel == 0 || stop(s, next(s)))
            && (|t.costs| == 0 ==> t.last == s)
            && (|t.costs| < fuel ==> stop(t.last, next(t.last)))
            && (|t.costs| > 0 ==> t.costs[|t.costs| - 1] == cost(t.last))
    decreases fuel
  {
    if fuel > 0 && !stop(s, next(s)) {
      Stops(next, stop, cost, next(s), fuel - 1);
      var rest := Iter(next, stop, cost, next(s), fuel - 1);
      var t := Iter(next, stop, cost, s, fuel);
      if rest.costs == [] {
        assert t.costs == [cost(next(s))];
      } else {
        assert t.costs[|t.costs| - 1] == rest.costs[|rest.costs| - 1];
      }
    }
  }

  /** A property of states that every successor keeps holds where the loop stops. */
  lemma {:induction false} Keeps<S>(next: S -> S, stop: (S, S) -> bool, cost: S -> real, inv: S -> bool, s: S, fuel: nat)
    requires inv(s)
    requires forall x | inv(x) :: inv(next(x))
    ensures inv(Iter(next, stop, cost, s, fuel).last)
    decreases fuel
  {
    if fuel > 0 && !stop(s, next(s)) {
      Keeps(next, stop, cost, inv, next(s), fuel - 1);
    }
  }

  /** When, among states keeping `inv`, costs are never negative and a
      successor never costs more, the recorded history descends and its first
      entry is at most the cost of the start. */
  lemma {:induction false} Descends<S>(next: S -> S, stop: (S, S) -> bool, cost: S -> real, inv: S -> bool, s: S, fuel: nat)
    requires inv(s)
    requires forall x | inv(x) :: inv(next(x)) && 0.0 <= cost(x) && cost(next(x)) <= cost(x)
    ensures var t := Iter(next, stop, cost, s, fuel);
            && Descending(t.costs)
            && (t.costs != [] ==> t.costs[0] <= cost(s))
    decreases fuel
  {
    if fuel > 0 && !stop(s, next(s)) {
      Descends(next, stop, cost, inv, next(s), fuel - 1);
      var rest := Iter(next, stop, cost, next(s), fuel - 1);
      DescendingCons(cost(next(s)), rest.costs);
    }
  }

  /** A non-negative cost put before a descending history whose first entry
      does not exceed it gives a descending history. */
  lemma DescendingCons(x: real, h: seq<real>)
    requires x >= 0.0 && Descending(h) && (|h| > 0 ==> h[0] <= x)
    ensures Descending([x] + h)
  {
    var r := [x] + h;
    assert forall i | 0 < i < |r| :: r[i] == h[i - 1];
  }
}
