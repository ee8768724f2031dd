/** Reciprocal rank fusion: `rrf_fuse` of app/retrieval/hybrid.py, with exact scores. */
module Hybrid {
  import opened Common
  import opened StableSort

  type Id = string
  type Scored = (Id, real)

  /** 1 / (rrf_k + rank), ranks counted from 1. */
  function Contribution(rrfK: nat, rank: nat): real
    requires rank > 0
  {
    1.0 / ((rrfK + rank) as real)
  }

  /** What one hit list adds to the score of `id`. */
  function ListScore(hits: seq<Id>, rrfK: nat, id: Id): real {
    if hits == [] then 0.0
    else ListScore(hits[..|hits|-1], rrfK, id) + if hits[|hits|-1] == id then Contribution(rrfK, |hits|) else 0.0
  }

  function Score(vectorHits: seq<Id>, keywordHits: seq<Id>, rrfK: nat, id: Id): real {
    ListScore(vectorHits, rrfK, id) + ListScore(keywordHits, rrfK, id)
  }

  /** The ids of a list in order of first occurrence: the key order of the score dictionary. */
  function FirstSeen(ids: seq<Id>): (r: seq<Id>)
    ensures forall x :: x in r <==> x in ids
  {
    if ids == [] then []
    else
      var r := FirstSeen(ids[..|ids|-1]);
      if ids[|ids|-1] in ids[..|ids|-1] then r else r + [ids[|ids|-1]]
  }

  predicate Outscores(a: Scored, b: Scored) {
    a.1 > b.1
  }

  /** The items of the score dictionary before sorting. */
  function Items(vectorHits: seq<Id>, keywordHits: seq<Id>, rrfK: nat): (items: seq<Scored>) {
    var ids := FirstSeen(vectorHits + keywordHits);
    seq(|ids|, k requires 0 <= k < |ids| => (ids[k], Score(vectorHits, keywordHits, rrfK, ids[k])))
  }

  function Ranking(vectorHits: seq<Id>, keywordHits: seq<Id>, rrfK: nat): seq<Scored> {
    Sort(Items(vectorHits, keywordHits, rrfK), Outscores)
  }

  ghost predicate DistinctIds(s: seq<Scored>) {
    forall i, j :: 0 <= i < j < |s| ==> s[i].0 != s[j].0
  }

  lemma {:induction false} FirstSeenDistinct(ids: seq<Id>)
    ensures Distinct(FirstSeen(ids))
  {
    if ids != [] { FirstSeenDistinct(ids[..|ids|-1]); }
  }

  // ---- the code ------------------------------------------------------------------------

  /** The dictionary after reading some hits of each list: ids in order of first occurrence, with their sums. */
  ghost predicate Accumulates(order: seq<Id>, scores: map<Id, real>, rrfK: nat, vectorRead: seq<Id>,
                              keywordRead: seq<Id>) {
    && order == FirstSeen(vectorRead + keywordRead)
    && (forall id :: id in scores <==> id in vectorRead || id in keywordRead)
    && (forall id :: id in scores ==> scores[id] == Score(vectorRead, keywordRead, rrfK, id))
  }

  /** `scores.get(id, 0.0) + 1.0 / (rrf_k + rank)`, and the key order it leaves. */
  function Added(scores: map<Id, real>, id: Id, amount: real): map<Id, real> {
    scores[id := (if id in scores then scores[id] else 0.0) + amount]
  }

  lemma ReadVector(order: seq<Id>, scores: map<Id, real>, rrfK: nat, read: seq<Id>, id: Id)
    requires Accumulates(order, scores, rrfK, read, [])
    ensures Accumulates(if id in scores then order else order + [id], Added(scores, id, Contribution(rrfK, |read| + 1)),
                        rrfK, read + [id], [])
  {
    assert (read + [id])[..|read|] == read;
    assert read + [] == read && read + [id] + [] == read + [id];
    if id !in read { NotListed(read, rrfK, id); }
  }

  lemma ReadKeyword(order: seq<Id>, scores: map<Id, real>, rrfK: nat, vectorHits: seq<Id>, read: seq<Id>, id: Id)
    requires Accumulates(order, scores, rrfK, vectorHits, read)
    ensures Accumulates(if id in scores then order else order + [id], Added(scores, id, Contribution(rrfK, |read| + 1)),
                        rrfK, vectorHits, read + [id])
  {
    var more := vectorHits + (read + [id]);
    assert (read + [id])[..|read|] == read;
    assert more[..|more|-1] == vectorHits + read;
    if id !in scores {
      NotListed(vectorHits, rrfK, id);
      NotListed(read, rrfK, id);
    }
  }

  lemma {:induction false} NotListed(hits: seq<Id>, rrfK: nat, id: Id)
    requires id !in hits
    ensures ListScore(hits, rrfK, id) == 0.0
  {
    if hits != [] { NotListed(hits[..|hits|-1], rrfK, id); }
  }

  /** `rrf_fuse` */
  method RrfFuse(vectorHits: seq<Id>, keywordHits: seq<Id>, rrfK: nat, limit: nat) returns (fused: seq<Scored>)
    ensures var ranking := Ranking(vectorHits, keywordHits, rrfK);
            fused == ranking[..if limit < |ranking| then limit else |ranking|]
    ensures IsFused(vectorHits, keywordHits, rrfK, limit, fused)
  {
    hide IsFused;
    CutIsFused(vectorHits, keywordHits, rrfK, limit);
    hide Accumulates, Contribution, Score, FirstSeen;
    var order: seq<Id>, scores: map<Id, real> := [], map[];
    NothingRead(rrfK);
    for i := 0 to |vectorHits|
      invariant Accumulates(order, scores, rrfK, vectorHits[..i], [])
    {
      var id := vectorHits[i];
      ReadVector(order, scores, rrfK, vectorHits[..i], id);
      assert vectorHits[..i+1] == vectorHits[..i] + [id];
      order := if id in scores then order else order + [id];
      scores := Added(scores, id, Contribution(rrfK, i + 1));
    }
    assert vectorHits[..|vectorHits|] == vectorHits && keywordHits[..0] == [];
    for i := 0 to |keywordHits|
      invariant Accumulates(order, scores, rrfK, vectorHits, keywordHits[..i])
    {
      var id := keywordHits[i];
      ReadKeyword(order, scores, rrfK, vectorHits, keywordHits[..i], id);
      assert keywordHits[..i+1] == keywordHits[..i] + [id];
      order := if id in scores then order else order + [id];
      scores := Added(scores, id, Contribution(rrfK, i + 1));
    }
    assert keywordHits[..|keywordHits|] == keywordHits;
    AllRead(order, scores, rrfK, vectorHits, keywordHits);
    var items := seq(|order|, k requires 0 <= k < |order| && order[k] in scores => (order[k], scores[order[k]]));
    assert items == Items(vectorHits, keywordHits, rrfK);
    var ordered := Sort(items, Outscores);
    fused := ordered[..if limit < |ordered| then limit else |ordered|];
  }

  lemma NothingRead(rrfK: nat)
    ensures Accumulates([], map[], rrfK, [], [])
  {
  }

  lemma AllRead(order: seq<Id>, scores: map<Id, real>, rrfK: nat, vectorHits: seq<Id>, keywordHits: seq<Id>)
    requires Accumulates(order, scores, rrfK, vectorHits, keywordHits)
    ensures order == FirstSeen(vectorHits + keywordHits)
    ensures forall k :: 0 <= k < |order| ==>
              order[k] in scores && scores[order[k]] == Score(vectorHits, keywordHits, rrfK, order[k])
  {
    forall k | 0 <= k < |order| ensures order[k] in scores { assert order[k] in FirstSeen(vectorHits + keywordHits); }
  }

  // ---- what the ranking promises ----------------------------------------------------------

  lemma OutscoresIsOrder()
    ensures StrictWeakOrder(Outscores)
  {
  }

  lemma ItemsAre(vectorHits: seq<Id>, keywordHits: seq<Id>, rrfK: nat, item: Scored)
    ensures item in Items(vectorHits, keywordHits, rrfK) <==>
            (item.0 in vectorHits || item.0 in keywordHits) && item.1 == Score(vectorHits, keywordHits, rrfK, item.0)
  {
    var ids, items := FirstSeen(vectorHits + keywordHits), Items(vectorHits, keywordHits, rrfK);
    if item.0 in ids {
      var k :| 0 <= k < |ids| && ids[k] == item.0;
      assert items[k].0 == item.0;
    }
  }

  /** Each chunk found by either path is ranked once, with the sum of its contributions. */
  lemma RankingIsComplete(vectorHits: seq<Id>, keywordHits: seq<Id>, rrfK: nat)
    ensures DistinctIds(Ranking(vectorHits, keywordHits, rrfK))
    ensures forall item :: item in Ranking(vectorHits, keywordHits, rrfK) <==>
              (item.0 in vectorHits || item.0 in keywordHits) && item.1 == Score(vectorHits, keywordHits, rrfK, item.0)
  {
    var items, ranking := Items(vectorHits, keywordHits, rrfK), Ranking(vectorHits, keywordHits, rrfK);
    forall item: Scored
      ensures item in ranking <==>
              (item.0 in vectorHits || item.0 in keywordHits) && item.1 == Score(vectorHits, keywordHits, rrfK, item.0)
    {
      ItemsAre(vectorHits, keywordHits, rrfK, item);
      assert item in multiset(ranking) <==> item in multiset(items);
    }
    FirstSeenDistinct(vectorHits + keywordHits);
    var idOf := (item: Scored) => item.0;
    assert DistinctBy(items, idOf);
    PermutationKeepsDistinct(items, ranking, idOf);
    assert forall i, j :: 0 <= i < j < |ranking| ==> idOf(ranking[i]) != idOf(ranking[j]);
  }

  /** Scores descend; chunks that tie stay in the order they were first found. */
  lemma RankingIsStableDescending(vectorHits: seq<Id>, keywordHits: seq<Id>, rrfK: nat)
    ensures var r := Ranking(vectorHits, keywordHits, rrfK);
            && (forall i, j :: 0 <= i < j < |r| ==> r[i].1 >= r[j].1)
            && (forall i, j :: 0 <= i < j < |r| && r[i].1 == r[j].1 ==>
                  Precedes(Items(vectorHits, keywordHits, rrfK), r[i], r[j]))
  {
    OutscoresIsOrder();
    SortOrders(Items(vectorHits, keywordHits, rrfK), Outscores);
    SortIsStable(Items(vectorHits, keywordHits, rrfK), Outscores);
  }

  /** The cut at `limit` drops nothing that outscores a chunk it keeps. */
  lemma CutKeepsTheBest(vectorHits: seq<Id>, keywordHits: seq<Id>, rrfK: nat, limit: nat, id: Id)
    requires limit <= |Ranking(vectorHits, keywordHits, rrfK)|
    requires id in vectorHits || id in keywordHits
    ensures var kept := Ranking(vectorHits, keywordHits, rrfK)[..limit];
            (exists k :: 0 <= k < |kept| && kept[k].0 == id) ||
            forall k :: 0 <= k < |kept| ==> kept[k].1 >= Score(vectorHits, keywordHits, rrfK, id)
  {
    RankingIsComplete(vectorHits, keywordHits, rrfK);
    RankingIsStableDescending(vectorHits, keywordHits, rrfK);
    var r := Ranking(vectorHits, keywordHits, rrfK);
    var item := (id, Score(vectorHits, keywordHits, rrfK, id));
    assert item in r;
    var k :| 0 <= k < |r| && r[k] == item;
    if k < limit { assert r[..limit][k].0 == id; }
  }

  /** The place of the first occurrence. */
  ghost predicate FirstAt(ids: seq<Id>, id: Id, p: nat) {
    p < |ids| && ids[p] == id && forall q :: 0 <= q < p ==> ids[q] != id
  }

  /** The key order is by first occurrence. */
  lemma {:induction false} FirstSeenAscends(ids: seq<Id>)
    ensures forall i, j, p: nat, q: nat ::
      (0 <= i < j < |FirstSeen(ids)| && FirstAt(ids, FirstSeen(ids)[i], p) && FirstAt(ids, FirstSeen(ids)[j], q)) ==>
      p < q
  {
    if ids != [] {
      var init, last := ids[..|ids|-1], ids[|ids|-1];
      FirstSeenAscends(init);
      var before, r := FirstSeen(init), FirstSeen(ids);
      forall i, j, p: nat, q: nat | 0 <= i < j < |r| && FirstAt(ids, r[i], p) && FirstAt(ids, r[j], q) ensures p < q {
        assert before[i] in init && r[i] == before[i];
        FirstStays(init, last, r[i], p);
        if j < |before| {
          assert before[j] in init;
          FirstStays(init, last, r[j], q);
        } else {
          assert r[j] == last && last !in init;
          assert forall x :: 0 <= x < |init| ==> ids[x] == init[x] && init[x] != last;
        }
      }
    }
  }

  lemma FirstStays(ids: seq<Id>, last: Id, id: Id, p: nat)
    requires id in ids && FirstAt(ids + [last], id, p)
    ensures FirstAt(ids, id, p)
  {
    var q :| 0 <= q < |ids| && ids[q] == id;
    assert forall x :: 0 <= x < |ids| ==> (ids + [last])[x] == ids[x];
  }

  /** What a list without repeats adds to the score: 1 / (rrf_k + rank) at its place, nothing if it is not there. */
  ghost predicate AddsByPlace(hits: seq<Id>, rrfK: nat, id: Id, amount: real) {
    if id in hits then exists p :: 0 <= p < |hits| && hits[p] == id && amount == 1.0 / (rrfK + p + 1) as real
    else amount == 0.0
  }

  /**
   The fused list: ids of either list, each once, as many as there are up to the limit, by
   falling score, and by first occurrence, vector hits first, where scores tie; what is left
   out scores no more than anything in it.
   */
  ghost predicate IsFused(vectorHits: seq<Id>, keywordHits: seq<Id>, rrfK: nat, limit: nat, fused: seq<Scored>) {
    && DistinctIds(fused) && |fused| <= limit
    && (forall k :: 0 <= k < |fused| ==>
          && (fused[k].0 in vectorHits || fused[k].0 in keywordHits)
          && fused[k].1 == Score(vectorHits, keywordHits, rrfK, fused[k].0))
    && (forall i, j :: 0 <= i < j < |fused| ==> fused[i].1 >= fused[j].1)
    && TieByDiscovery(vectorHits + keywordHits, fused)
    && (forall id :: (id in vectorHits || id in keywordHits) && LeftOut(fused, id) ==>
          |fused| == limit &&
          forall k :: 0 <= k < |fused| ==> fused[k].1 >= Score(vectorHits, keywordHits, rrfK, id))
  }

  ghost predicate TieByDiscovery(ids: seq<Id>, fused: seq<Scored>) {
    forall i, j, p: nat, q: nat ::
      0 <= i < j < |fused| && fused[i].1 == fused[j].1 ==>
      FirstAt(ids, fused[i].0, p) && FirstAt(ids, fused[j].0, q) ==> p < q
  }

  ghost predicate LeftOut(fused: seq<Scored>, id: Id) {
    forall k :: 0 <= k < |fused| ==> fused[k].0 != id
  }

  /** The score of an id is what its places in the two lists add. */
  lemma ScoreByPlaces(vectorHits: seq<Id>, keywordHits: seq<Id>, rrfK: nat, id: Id) returns (u: real, v: real)
    requires Distinct(vectorHits) && Distinct(keywordHits)
    ensures AddsByPlace(vectorHits, rrfK, id, u) && AddsByPlace(keywordHits, rrfK, id, v)
    ensures Score(vectorHits, keywordHits, rrfK, id) == u + v
  {
    u, v := ListScore(vectorHits, rrfK, id), ListScore(keywordHits, rrfK, id);
    ListScoreByPlace(vectorHits, rrfK, id);
    ListScoreByPlace(keywordHits, rrfK, id);
  }

  lemma ListScoreByPlace(hits: seq<Id>, rrfK: nat, id: Id)
    requires Distinct(hits)
    ensures AddsByPlace(hits, rrfK, id, ListScore(hits, rrfK, id))
  {
    hide ListScore;
    if id in hits {
      var p :| 0 <= p < |hits| && hits[p] == id;
      ScoreAtPosition(hits, rrfK, p);
    } else {
      NotListed(hits, rrfK, id);
    }
  }

  lemma RankingTies(vectorHits: seq<Id>, keywordHits: seq<Id>, rrfK: nat, i: nat, j: nat, p: nat, q: nat)
    requires i < j < |Ranking(vectorHits, keywordHits, rrfK)|
    requires var r := Ranking(vectorHits, keywordHits, rrfK);
      && r[i].1 == r[j].1
      && FirstAt(vectorHits + keywordHits, r[i].0, p) && FirstAt(vectorHits + keywordHits, r[j].0, q)
    ensures p < q
  {
    hide Ranking, Score, FirstAt, FirstSeen;
    var r, items := Ranking(vectorHits, keywordHits, rrfK), Items(vectorHits, keywordHits, rrfK);
    RankingIsStableDescending(vectorHits, keywordHits, rrfK);
    var a, b :| 0 <= a < b < |items| && items[a] == r[i] && items[b] == r[j];
    FirstSeenAscends(vectorHits + keywordHits);
    assert FirstSeen(vectorHits + keywordHits)[a] == r[i].0 && FirstSeen(vectorHits + keywordHits)[b] == r[j].0;
  }

  lemma CutIsFused(vectorHits: seq<Id>, keywordHits: seq<Id>, rrfK: nat, limit: nat)
    ensures var r := Ranking(vectorHits, keywordHits, rrfK);
      IsFused(vectorHits, keywordHits, rrfK, limit, r[..if limit < |r| then limit else |r|])
  {
    hide Ranking, Score, FirstAt, FirstSeen, Items;
    var r := Ranking(vectorHits, keywordHits, rrfK);
    var n := if limit < |r| then limit else |r|;
    var fused := r[..n];
    RankingIsComplete(vectorHits, keywordHits, rrfK);
    RankingIsStableDescending(vectorHits, keywordHits, rrfK);
    forall k | 0 <= k < |fused|
      ensures (fused[k].0 in vectorHits || fused[k].0 in keywordHits) &&
              fused[k].1 == Score(vectorHits, keywordHits, rrfK, fused[k].0)
    {
      assert fused[k] == r[k] && r[k] in r;
    }
    forall i, j, p: nat, q: nat | 0 <= i < j < |fused| && fused[i].1 == fused[j].1 &&
        FirstAt(vectorHits + keywordHits, fused[i].0, p) && FirstAt(vectorHits + keywordHits, fused[j].0, q)
      ensures p < q
    {
      RankingTies(vectorHits, keywordHits, rrfK, i, j, p, q);
    }
    forall id | (id in vectorHits || id in keywordHits) && LeftOut(fused, id)
      ensures |fused| == limit &&
              forall k :: 0 <= k < |fused| ==> fused[k].1 >= Score(vectorHits, keywordHits, rrfK, id)
    {
      CutKeepsTheBest(vectorHits, keywordHits, rrfK, n, id);
      LeftOutIsCut(vectorHits, keywordHits, rrfK, n, id);
    }
  }

  lemma LeftOutIsCut(vectorHits: seq<Id>, keywordHits: seq<Id>, rrfK: nat, n: nat, id: Id)
    requires n <= |Ranking(vectorHits, keywordHits, rrfK)| && (id in vectorHits || id in keywordHits)
    requires LeftOut(Ranking(vectorHits, keywordHits, rrfK)[..n], id)
    ensures n < |Ranking(vectorHits, keywordHits, rrfK)|
  {
    hide Ranking, Score;
    var r := Ranking(vectorHits, keywordHits, rrfK);
    RankingIsComplete(vectorHits, keywordHits, rrfK);
    var item := (id, Score(vectorHits, keywordHits, rrfK, id));
    assert item in r;
    assert forall x :: 0 <= x < n ==> r[..n][x] == r[x] && r[x].0 != id;
    var k :| 0 <= k < |r| && r[k] == item;
  }

  // ---- found by both paths --------------------------------------------------------------

  /** In a list without repeats an id scores by its one position. */
  lemma {:induction false} ScoreAtPosition(hits: seq<Id>, rrfK: nat, p: nat)
    requires Distinct(hits) && p < |hits|
    ensures ListScore(hits, rrfK, hits[p]) == Contribution(rrfK, p + 1)
  {
    var init := hits[..|hits|-1];
    if p < |hits| - 1 {
      ScoreAtPosition(init, rrfK, p);
    } else {
      NotListed(init, rrfK, hits[p]);
    }
  }

  lemma ReciprocalFalls(a: real, b: real)
    requires 0.0 < a <= b
    ensures 1.0 / a >= 1.0 / b
  {
    assert (1.0 / a) * (a / b) == 1.0 / b;
    assert a / b <= 1.0;
  }

  lemma ContributionFalls(rrfK: nat, r: nat, s: nat)
    requires 0 < r <= s
    ensures Contribution(rrfK, r) >= Contribution(rrfK, s) > 0.0
  {
    ReciprocalFalls((rrfK + r) as real, (rrfK + s) as real);
  }

  lemma ScaledOrder(u: real, v: real, m: real)
    requires m > 0.0
    ensures u > v <==> u * m > v * m
  {
  }

  /** Two reciprocals beat a third exactly if the cleared fractions do. */
  lemma ReciprocalSum(a: real, b: real, c: real)
    requires a > 0.0 && b > 0.0 && c > 0.0
    ensures 1.0 / a + 1.0 / b > 1.0 / c <==> c * (a + b) > a * b
  {
    var ab := a * b;
    assert ab > 0.0 && ab * c > 0.0;
    assert (1.0 / a) * (ab * c) == b * c by {
      assert (1.0 / a) * a == 1.0;
      assert (1.0 / a) * (ab * c) == ((1.0 / a) * a) * (b * c);
    }
    assert (1.0 / b) * (ab * c) == a * c by {
      assert (1.0 / b) * b == 1.0;
      assert (1.0 / b) * (ab * c) == ((1.0 / b) * b) * (a * c);
    }
    assert (1.0 / c) * (ab * c) == ab by {
      assert (1.0 / c) * c == 1.0;
      assert (1.0 / c) * (ab * c) == ((1.0 / c) * c) * ab;
    }
    ScaledOrder(1.0 / a + 1.0 / b, 1.0 / c, ab * c);
    assert (1.0 / a + 1.0 / b) * (ab * c) == (1.0 / a) * (ab * c) + (1.0 / b) * (ab * c);
  }

  lemma ClearedProducts(c: int, x: int, y: int)
    ensures c * ((c + x) + (c + y)) > (c + x) * (c + y) <==> x * y < c * c
  {
    assert c * ((c + x) + (c + y)) == 2 * (c * c) + c * x + c * y;
    assert (c + x) * (c + y) == c * c + c * x + c * y + x * y;
  }

  lemma ProductCast(a: int, b: int)
    ensures (a * b) as real == (a as real) * (b as real)
  {
  }

  lemma ProductsInReals(a: int, b: int, c: int)
    ensures (c as real) * (a as real + b as real) > (a as real) * (b as real) <==> c * (a + b) > a * b
  {
    ProductCast(c, a + b);
    ProductCast(a, b);
    assert a as real + b as real == (a + b) as real;
  }

  /** Places `p` and `q` together outscore one first place exactly if (p-1)(q-1) < (rrf_k+1)^2. */
  lemma TwoPlacesBeatFirst(rrfK: nat, p: nat, q: nat)
    requires p > 0 && q > 0
    ensures Contribution(rrfK, p) + Contribution(rrfK, q) > Contribution(rrfK, 1) <==>
            (p - 1) * (q - 1) < (rrfK + 1) * (rrfK + 1)
  {
    var a, b, c := rrfK + p, rrfK + q, rrfK + 1;
    ReciprocalSum(a as real, b as real, c as real);
    ProductsInReals(a, b, c);
    ClearedProducts(c, p - 1, q - 1);
    assert c + (p - 1) == a && c + (q - 1) == b;
  }

  /** Every chunk found by both paths strictly outscores every chunk found by one. */
  ghost predicate BothOutrankOne(vectorHits: seq<Id>, keywordHits: seq<Id>, rrfK: nat) {
    forall both, one ::
      both in vectorHits && both in keywordHits && (one in vectorHits <==> one !in keywordHits) ==>
      Score(vectorHits, keywordHits, rrfK, both) > Score(vectorHits, keywordHits, rrfK, one)
  }

  /** What the lengths of the two lists must meet. */
  predicate WithinBound(v: nat, w: nat, rrfK: nat) {
    v == 0 || w == 0 || (v - 1) * (w - 1) < (rrfK + 1) * (rrfK + 1)
  }

  /** With repeat-free lists of such lengths, chunks found by both paths come first. */
  lemma BothPathsOutrankOne(vectorHits: seq<Id>, keywordHits: seq<Id>, rrfK: nat)
    requires Distinct(vectorHits) && Distinct(keywordHits)
    requires WithinBound(|vectorHits|, |keywordHits|, rrfK)
    ensures BothOutrankOne(vectorHits, keywordHits, rrfK)
  {
    forall both, one |
      both in vectorHits && both in keywordHits && (one in vectorHits <==> one !in keywordHits)
      ensures Score(vectorHits, keywordHits, rrfK, both) > Score(vectorHits, keywordHits, rrfK, one)
    {
      hide Contribution;
      var p: nat :| p < |vectorHits| && vectorHits[p] == both;
      var q: nat :| q < |keywordHits| && keywordHits[q] == both;
      ScoreAtPosition(vectorHits, rrfK, p);
      ScoreAtPosition(keywordHits, rrfK, q);
      ContributionFalls(rrfK, p + 1, |vectorHits|);
      ContributionFalls(rrfK, q + 1, |keywordHits|);
      TwoPlacesBeatFirst(rrfK, |vectorHits|, |keywordHits|);
      OnePathScore(vectorHits, keywordHits, rrfK, one);
    }
  }

  lemma ShortListsMeetTheBound(v: nat, w: nat, rrfK: nat)
    requires v <= rrfK + 1 && w <= rrfK + 1
    ensures WithinBound(v, w, rrfK)
  {
    if v == 0 || w == 0 {
      return;
    }
    var x, y := v - 1, w - 1;
    NoSmallerProduct(x, y, rrfK);
    NoSmallerProduct(rrfK, x, rrfK);
    assert (rrfK + 1) * (rrfK + 1) == rrfK * rrfK + 2 * rrfK + 1;
  }

  lemma NoSmallerProduct(x: nat, y: nat, z: nat)
    requires y <= z
    ensures x * y <= x * z
  {
  }

  lemma OnePathScore(vectorHits: seq<Id>, keywordHits: seq<Id>, rrfK: nat, one: Id)
    requires Distinct(vectorHits) && Distinct(keywordHits)
    requires one in vectorHits <==> one !in keywordHits
    ensures Score(vectorHits, keywordHits, rrfK, one) <= Contribution(rrfK, 1)
  {
    var inVector := one in vectorHits;
    var hits, others := if inVector then vectorHits else keywordHits, if inVector then keywordHits else vectorHits;
    var p :| 0 <= p < |hits| && hits[p] == one;
    ScoreAtPosition(hits, rrfK, p);
    NotListed(others, rrfK, one);
    ContributionFalls(rrfK, 1, p + 1);
  }

  /** At or past the bound, a chunk last in both lists does not outscore the first hit of one. */
  lemma LastInBothLoses(vectorHits: seq<Id>, keywordHits: seq<Id>, rrfK: nat)
    requires Distinct(vectorHits) && Distinct(keywordHits) && !WithinBound(|vectorHits|, |keywordHits|, rrfK)
    requires vectorHits[|vectorHits|-1] == keywordHits[|keywordHits|-1] && vectorHits[0] !in keywordHits
    ensures Score(vectorHits, keywordHits, rrfK, vectorHits[|vectorHits|-1])
         <= Score(vectorHits, keywordHits, rrfK, vectorHits[0])
    ensures !BothOutrankOne(vectorHits, keywordHits, rrfK)
  {
    hide Contribution;
    var v, w := |vectorHits| - 1, |keywordHits| - 1;
    ScoreAtPosition(vectorHits, rrfK, v);
    ScoreAtPosition(keywordHits, rrfK, w);
    ScoreAtPosition(vectorHits, rrfK, 0);
    NotListed(keywordHits, rrfK, vectorHits[0]);
    TwoPlacesBeatFirst(rrfK, v + 1, w + 1);
    assert vectorHits[v] in keywordHits;
  }

  /** `n` different ids, all spelled with `c`. */
  function Names(c: char, n: nat): (names: seq<Id>)
    ensures |names| == n
    ensures forall i :: 0 <= i < n ==> |names[i]| == i + 1 && names[i][0] == c
  {
    if n == 0 then [] else Names(c, n - 1) + [seq(n, _ => c)]
  }

  /** Lists of any two lengths with nothing in common but their last id. */
  lemma SharedLastOnly(v: nat, w: nat) returns (vectorHits: seq<Id>, keywordHits: seq<Id>)
    requires v >= 2 && w >= 2
    ensures |vectorHits| == v && |keywordHits| == w && Distinct(vectorHits) && Distinct(keywordHits)
    ensures vectorHits[v-1] == keywordHits[w-1] && vectorHits[0] !in keywordHits
  {
    vectorHits, keywordHits := Names('v', v - 1) + [""], Names('w', w - 1) + [""];
  }

  /** For lists of lengths v and w the promise holds whatever the hits, if and only if they are within the bound. */
  lemma BothPathsBoundIsExact(v: nat, w: nat, rrfK: nat)
    ensures (forall vectorHits, keywordHits ::
               |vectorHits| == v && |keywordHits| == w && Distinct(vectorHits) && Distinct(keywordHits) ==>
               BothOutrankOne(vectorHits, keywordHits, rrfK))
       <==> WithinBound(v, w, rrfK)
  {
    hide BothOutrankOne;
    if WithinBound(v, w, rrfK) {
      forall vectorHits: seq<Id>, keywordHits: seq<Id> |
        |vectorHits| == v && |keywordHits| == w && Distinct(vectorHits) && Distinct(keywordHits)
        ensures BothOutrankOne(vectorHits, keywordHits, rrfK)
      {
        BothPathsOutrankOne(vectorHits, keywordHits, rrfK);
      }
    } else {
      assert v >= 2 && w >= 2;
      var vectorHits, keywordHits := SharedLastOnly(v, w);
      LastInBothLoses(vectorHits, keywordHits, rrfK);
    }
  }
}
