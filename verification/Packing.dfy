/**
 Greedy packing of consecutive items into groups, as the splitter and the chunker
 do it: grow the current group until one more item would not fit. `cost(lo, hi)` is
 the cost of putting items `lo..hi` together. A grouping is the list of its cut
 positions, from 0 to the number of items.
 */
module Packing {

  /** Cut positions of a grouping of `n` items into non-empty groups. */
  ghost predicate IsCutting(n: nat, cuts: seq<nat>) {
    && cuts != [] && cuts[0] == 0 && cuts[|cuts|-1] == n
    && forall i, j :: 0 <= i < j < |cuts| ==> cuts[i] < cuts[j]
  }

  /** Items `lo..hi` may form a group: they fit together, or there is only one. */
  ghost predicate Admissible(cost: (nat, nat) -> nat, max: int, lo: nat, hi: nat) {
    hi == lo + 1 || cost(lo, hi) <= max
  }

  ghost predicate AllAdmissible(cost: (nat, nat) -> nat, max: int, cuts: seq<nat>) {
    forall i :: 0 <= i < |cuts| - 1 ==> Admissible(cost, max, cuts[i], cuts[i+1])
  }

  /** Every group but the last was closed because the next item did not fit. */
  ghost predicate ClosedByOverflow(cost: (nat, nat) -> nat, max: int, cuts: seq<nat>) {
    forall i :: 0 <= i < |cuts| - 2 ==> cost(cuts[i], cuts[i+1] + 1) > max
  }

  /** The group `lo..hi` grew item by item: with every item after its first it still fitted. */
  ghost predicate Grown(cost: (nat, nat) -> nat, max: int, lo: nat, hi: nat) {
    lo < hi && forall k :: lo + 1 < k <= hi ==> cost(lo, k) <= max
  }

  ghost predicate AllGrown(cost: (nat, nat) -> nat, max: int, cuts: seq<nat>) {
    forall i :: 0 <= i < |cuts| - 1 ==> Grown(cost, max, cuts[i], cuts[i+1])
  }

  ghost predicate IsGreedy(n: nat, cost: (nat, nat) -> nat, max: int, cuts: seq<nat>) {
    IsCutting(n, cuts) && AllGrown(cost, max, cuts) && ClosedByOverflow(cost, max, cuts)
  }

  /** A group inside a larger one costs no more. */
  ghost predicate Monotone(n: nat, cost: (nat, nat) -> nat) {
    forall lo: nat, hi: nat, lo': nat, hi': nat :: lo' <= lo < hi <= hi' <= n ==> cost(lo, hi) <= cost(lo', hi')
  }

  lemma {:induction false} GreedyStaysAhead(n: nat, cost: (nat, nat) -> nat, max: int, greedy: seq<nat>,
                                            other: seq<nat>, k: nat)
    requires Monotone(n, cost) && IsGreedy(n, cost, max, greedy)
    requires IsCutting(n, other) && AllAdmissible(cost, max, other)
    requires k < |greedy| && k < |other|
    ensures greedy[k] >= other[k]
  {
    if k > 0 {
      GreedyStaysAhead(n, cost, max, greedy, other, k - 1);
      var s, e := other[k-1], other[k];
      var g, g' := greedy[k-1], greedy[k];
      assert Admissible(cost, max, s, e) && e <= n;
      assert Grown(cost, max, g, g');
      if g < e {
        var h := if g' + 1 < e then g' + 1 else e;
        assert cost(g, h) <= cost(s, e);
      }
    }
  }

  /** For a monotone cost the greedy grouping has as few groups as any admissible one. */
  lemma GreedyIsFewest(n: nat, cost: (nat, nat) -> nat, max: int, greedy: seq<nat>, other: seq<nat>)
    requires Monotone(n, cost) && IsGreedy(n, cost, max, greedy)
    requires IsCutting(n, other) && AllAdmissible(cost, max, other)
    ensures |greedy| <= |other|
  {
    var k := if |other| <= |greedy| then |other| - 1 else |greedy| - 1;
    GreedyStaysAhead(n, cost, max, greedy, other, k);
    assert forall i :: 0 <= i < |greedy| - 1 ==> greedy[i] < greedy[|greedy|-1];
  }

  /** The greedy grouping is determined: no other one meets its description. */
  lemma {:induction false} GreedyIsUnique(n: nat, cost: (nat, nat) -> nat, max: int, a: seq<nat>, b: seq<nat>, k: nat)
    requires IsGreedy(n, cost, max, a) && IsGreedy(n, cost, max, b)
    requires 0 < k <= |a| && k <= |b| && a[..k] == b[..k]
    ensures a == b
    decreases |a| - k
  {
    assert a[k-1] == b[k-1] by { assert a[..k][k-1] == b[..k][k-1]; }
    assert forall i :: 0 <= i < |a| - 1 ==> a[i] < a[|a|-1];
    assert forall i :: 0 <= i < |b| - 1 ==> b[i] < b[|b|-1];
    if k < |a| && k < |b| {
      assert Grown(cost, max, a[k-1], a[k]) && Grown(cost, max, b[k-1], b[k]);
      SameNextCut(n, cost, max, a, b, k);
      assert a[..k+1] == a[..k] + [a[k]] && b[..k+1] == b[..k] + [b[k]];
      GreedyIsUnique(n, cost, max, a, b, k + 1);
    } else {
      assert a[..|a|] == a && b[..|b|] == b;
    }
  }

  lemma SameNextCut(n: nat, cost: (nat, nat) -> nat, max: int, a: seq<nat>, b: seq<nat>, k: nat)
    requires IsGreedy(n, cost, max, a) && IsGreedy(n, cost, max, b)
    requires 0 < k < |a| && k < |b| && a[k-1] == b[k-1]
    ensures a[k] == b[k]
  {
    NotLonger(n, cost, max, a, b, k);
    NotLonger(n, cost, max, b, a, k);
  }

  lemma NotLonger(n: nat, cost: (nat, nat) -> nat, max: int, a: seq<nat>, b: seq<nat>, k: nat)
    requires IsGreedy(n, cost, max, a) && IsGreedy(n, cost, max, b)
    requires 0 < k < |a| && k < |b| && a[k-1] == b[k-1]
    ensures b[k] <= a[k]
  {
    assert Grown(cost, max, b[k-1], b[k]) && Grown(cost, max, a[k-1], a[k]);
    assert b[k] <= n;
    if k < |a| - 1 {
      assert cost(a[k-1], a[k] + 1) > max;
    }
  }
}
