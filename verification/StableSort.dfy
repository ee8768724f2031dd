/** Python's stable sort, as insertion sort under a strict order `before`. */
module StableSort {

  ghost predicate StrictWeakOrder<T(!new)>(before: (T, T) -> bool) {
    && (forall x :: !before(x, x))
    && (forall x, y, z :: before(x, y) && before(y, z) ==> before(x, z))
    && (forall x, y, z :: before(x, z) ==> before(x, y) || before(y, z))
  }

  /** The place behind the last element that `x` does not go before. */
  function InsertPos<T>(s: seq<T>, x: T, before: (T, T) -> bool): (p: nat)
    ensures p <= |s| && forall k :: p <= k < |s| ==> before(x, s[k])
    ensures p > 0 ==> !before(x, s[p-1])
  {
    if s != [] && before(x, s[|s|-1]) then InsertPos(s[..|s|-1], x, before) else |s|
  }

  function Insert<T>(s: seq<T>, x: T, before: (T, T) -> bool): (r: seq<T>)
    ensures multiset(r) == multiset(s) + multiset{x}
    ensures |r| == |s| + 1
  {
    var p := InsertPos(s, x, before);
    assert s == s[..p] + s[p..];
    s[..p] + [x] + s[p..]
  }

  function Sort<T>(s: seq<T>, before: (T, T) -> bool): (r: seq<T>)
    ensures multiset(r) == multiset(s)
    ensures |r| == |s|
  {
    if s == [] then []
    else
      assert s == s[..|s|-1] + [s[|s|-1]];
      Insert(Sort(s[..|s|-1], before), s[|s|-1], before)
  }

  ghost predicate Ordered<T>(s: seq<T>, before: (T, T) -> bool) {
    forall i, j :: 0 <= i < j < |s| ==> !before(s[j], s[i])
  }

  /** `x` comes before `y` in `s`. */
  ghost predicate Precedes<T>(s: seq<T>, x: T, y: T) {
    exists p, q :: 0 <= p < q < |s| && s[p] == x && s[q] == y
  }

  /** Neighbours in the result that tie were already in that order in the input. */
  ghost predicate Stable<T>(s: seq<T>, r: seq<T>, before: (T, T) -> bool) {
    forall i, j :: 0 <= i < j < |r| && !before(r[i], r[j]) ==> Precedes(s, r[i], r[j])
  }

  lemma InsertOrders<T(!new)>(s: seq<T>, x: T, before: (T, T) -> bool)
    requires StrictWeakOrder(before) && Ordered(s, before)
    ensures Ordered(Insert(s, x, before), before)
  {
    hide InsertPos;
    var p, r := InsertPos(s, x, before), Insert(s, x, before);
    forall i | 0 <= i < p ensures !before(x, s[i]) {
      var e, top := s[i], s[p-1];
      assert i < p - 1 ==> !before(top, e);
      assert before(x, e) ==> before(x, top) || before(top, e);
    }
    forall i, j | 0 <= i < j < |r| ensures !before(r[j], r[i]) {
      var a, b := r[i], r[j];
      if i == p {
        assert before(x, b);
        assert before(b, a) ==> before(x, a);
      }
    }
  }

  lemma {:induction false} SortOrders<T(!new)>(s: seq<T>, before: (T, T) -> bool)
    requires StrictWeakOrder(before)
    ensures Ordered(Sort(s, before), before)
  {
    if s != [] {
      SortOrders(s[..|s|-1], before);
      InsertOrders(Sort(s[..|s|-1], before), s[|s|-1], before);
    }
  }

  lemma {:induction false} SortIsStable<T(!new)>(s: seq<T>, before: (T, T) -> bool)
    requires StrictWeakOrder(before)
    ensures Stable(s, Sort(s, before), before)
  {
    if s != [] {
      var init, x := s[..|s|-1], s[|s|-1];
      SortIsStable(init, before);
      var r, sorted := Sort(init, before), Sort(s, before);
      var p := InsertPos(r, x, before);
      forall i, j | 0 <= i < j < |sorted| && !before(sorted[i], sorted[j])
        ensures Precedes(s, sorted[i], sorted[j])
      {
        TieOrder(s, r, before, p, i, j);
      }
    }
  }

  lemma TieOrder<T(!new)>(s: seq<T>, r: seq<T>, before: (T, T) -> bool, p: nat, i: nat, j: nat)
    requires s != [] && multiset(r) == multiset(s[..|s|-1]) && Stable(s[..|s|-1], r, before)
    requires p <= |r| && forall k :: p <= k < |r| ==> before(s[|s|-1], r[k])
    requires var sorted := r[..p] + [s[|s|-1]] + r[p..]; i < j < |sorted| && !before(sorted[i], sorted[j])
    ensures var sorted := r[..p] + [s[|s|-1]] + r[p..]; Precedes(s, sorted[i], sorted[j])
  {
    var init, x := s[..|s|-1], s[|s|-1];
    var sorted := r[..p] + [x] + r[p..];
    if j == p {
      assert sorted[i] == r[i];
      assert r[i] in multiset(r);
      assert r[i] in init;
      var a :| 0 <= a < |init| && init[a] == r[i];
      assert s[a] == r[i] && s[|s|-1] == x;
    } else if i != p {
      var i', j' := if i < p then i else i - 1, if j < p then j else j - 1;
      assert sorted[i] == r[i'] && sorted[j] == r[j'];
      assert Precedes(init, r[i'], r[j']);
      var a, b :| 0 <= a < b < |init| && init[a] == r[i'] && init[b] == r[j'];
      assert s[a] == r[i'] && s[b] == r[j'];
    }
  }

  // ---- permutations and keys -----------------------------------------------------------

  /** No two elements have the same key. */
  ghost predicate DistinctBy<T, K>(s: seq<T>, key: T -> K) {
    forall i, j :: 0 <= i < j < |s| ==> key(s[i]) != key(s[j])
  }

  lemma CountTwice<T>(s: seq<T>, i: nat, j: nat)
    requires i < j < |s| && s[i] == s[j]
    ensures multiset(s)[s[i]] >= 2
  {
    assert s == s[..j] + [s[j]] + s[j+1..];
    assert s[..j][i] == s[i];
    assert multiset(s) == multiset(s[..j]) + multiset{s[j]} + multiset(s[j+1..]);
  }

  lemma {:induction false} CountOnce<T, K>(s: seq<T>, key: T -> K, x: T)
    requires DistinctBy(s, key)
    ensures multiset(s)[x] <= 1
  {
    if s != [] {
      CountOnce(s[..|s|-1], key, x);
      assert s == s[..|s|-1] + [s[|s|-1]];
      if s[|s|-1] == x {
        assert forall i :: 0 <= i < |s| - 1 ==> key(s[i]) != key(x);
        assert x !in s[..|s|-1];
      }
    }
  }

  /** Rearranging a list keeps its keys distinct. */
  lemma PermutationKeepsDistinct<T, K>(s: seq<T>, r: seq<T>, key: T -> K)
    requires DistinctBy(s, key) && multiset(r) == multiset(s)
    ensures DistinctBy(r, key)
  {
    forall i, j | 0 <= i < j < |r| ensures key(r[i]) != key(r[j]) {
      assert r[i] in multiset(r) && r[j] in multiset(r);
      assert r[i] in s && r[j] in s;
      if r[i] == r[j] {
        CountOnce(s, key, r[i]);
        CountTwice(r, i, j);
      }
    }
  }
}
