/**
 The ranking part of `_rag_pipeline` of app/services/query_service.py: fuse each
 sub-query's hits, deduplicate across sub-queries, rerank, join and sort.
 */
module QueryPipeline {
  import opened Common
  import opened StableSort
  import opened Hybrid
  import opened SubQueryBatches
  import opened Rerank
  import opened ContextBuilder

  /** The two hit lists of one sub-query. */
  datatype Hits = Hits(vector: seq<Id>, keyword: seq<Id>)

  lemma FusedIdsAreDistinct(hits: Hits, rrfK: nat, limit: nat)
    requires limit <= |Ranking(hits.vector, hits.keyword, rrfK)|
    ensures DistinctIds(Ranking(hits.vector, hits.keyword, rrfK)[..limit])
  {
    RankingIsComplete(hits.vector, hits.keyword, rrfK);
  }

  /** The chunk is a candidate of one of the first `n` batches. */
  ghost predicate InSomeBatch(batches: seq<Batch>, n: nat, rows: map<Id, Row>, chunk: RankedChunk) {
    exists x :: 0 <= x < n && x < |batches| && IsCandidate(batches[x].2, rows, chunk)
  }

  /** Every chunk ranked so far is a candidate of one of the first `n` batches, and none is repeated. */
  ghost predicate RankedFrom(batches: seq<Batch>, n: nat, rows: map<Id, Row>, ranked: seq<RankedChunk>) {
    DistinctChunks(ranked) && forall k :: 0 <= k < |ranked| ==> InSomeBatch(batches, n, rows, ranked[k])
  }

  /** Chunks of different batches are different. */
  lemma ChunksDiffer(batches: seq<Batch>, n: nat, rows: map<Id, Row>, a: RankedChunk, b: RankedChunk)
    requires n < |batches|
    requires forall x, y, e, f ::
              0 <= x < |batches| && 0 <= y < |batches| && x != y && e in batches[x].2 && f in batches[y].2 ==>
              e.0 != f.0
    requires InSomeBatch(batches, n, rows, a) && IsCandidate(batches[n].2, rows, b)
    ensures a.chunkId != b.chunkId
  {
    var x :| 0 <= x < n && x < |batches| && IsCandidate(batches[x].2, rows, a);
    var p :| 0 <= p < |batches[x].2| && batches[x].2[p].0 == a.chunkId;
    var q :| 0 <= q < |batches[n].2| && batches[n].2[q].0 == b.chunkId;
    assert batches[x].2[p] in batches[x].2 && batches[n].2[q] in batches[n].2;
  }

  lemma RankOneMore(results: seq<seq<Scored>>, planned: seq<(string, string)>, batches: seq<Batch>, n: nat,
                    rows: map<Id, Row>, ranked: seq<RankedChunk>, chunks: seq<RankedChunk>)
    requires AllDistinct(results)
    requires BatchesKeep(results, planned, batches) && n < |batches|
    requires RankedFrom(batches, n, rows, ranked)
    requires DistinctChunks(chunks) && forall k :: 0 <= k < |chunks| ==> IsCandidate(batches[n].2, rows, chunks[k])
    ensures RankedFrom(batches, n + 1, rows, ranked + chunks)
  {
    hide BatchesKeep, IsCandidate;
    var all := ranked + chunks;
    BatchesAreDisjoint(results, planned, batches);
    forall k | 0 <= k < |all| ensures InSomeBatch(batches, n + 1, rows, all[k]) {
      if k < |ranked| {
        assert InSomeBatch(batches, n, rows, ranked[k]);
        var x :| 0 <= x < n && x < |batches| && IsCandidate(batches[x].2, rows, ranked[k]);
        assert IsCandidate(batches[x].2, rows, all[k]);
      } else {
        assert IsCandidate(batches[n].2, rows, chunks[k-|ranked|]);
      }
    }
    forall i, j | 0 <= i < j < |all| ensures all[i].chunkId != all[j].chunkId {
      if i < |ranked| <= j {
        ChunksDiffer(batches, n, rows, ranked[i], chunks[j-|ranked|]);
      }
    }
  }

  lemma SortKeepsDistinctChunks(ranked: seq<RankedChunk>, before: (RankedChunk, RankedChunk) -> bool)
    requires DistinctChunks(ranked)
    ensures DistinctChunks(Sort(ranked, before))
  {
    var idOf := (c: RankedChunk) => c.chunkId;
    var sorted := Sort(ranked, before);
    assert DistinctBy(ranked, idOf);
    PermutationKeepsDistinct(ranked, sorted, idOf);
    assert forall i, j :: 0 <= i < j < |sorted| ==> idOf(sorted[i]) != idOf(sorted[j]);
  }

  // ---- the order across sub-queries -----------------------------------------------------------

  /** Python's order on texts. */
  predicate TextLess(a: string, b: string) {
    if b == "" then false
    else if a == "" then true
    else a[0] < b[0] || (a[0] == b[0] && TextLess(a[1..], b[1..]))
  }

  lemma {:induction false} TextLessIsOrder(a: string, b: string, c: string)
    ensures !TextLess(a, a)
    ensures TextLess(a, b) && TextLess(b, c) ==> TextLess(a, c)
    ensures TextLess(a, c) ==> TextLess(a, b) || TextLess(b, c)
  {
    if a != "" {
      TextLessIsOrder(a[1..], if b == "" then b else b[1..], if c == "" then c else c[1..]);
    }
  }

  /** At the first place where they differ, `b` goes on or has the larger character. */
  ghost predicate ComesBefore(a: string, b: string) {
    exists k: nat :: DiffersAt(a, b, k)
  }

  ghost predicate DiffersAt(a: string, b: string, k: nat) {
    k <= |a| && k < |b| && a[..k] == b[..k] && (k < |a| ==> a[k] < b[k])
  }

  lemma {:induction false} TextLessIs(a: string, b: string)
    ensures TextLess(a, b) <==> ComesBefore(a, b)
  {
    if a == "" || b == "" || a[0] != b[0] {
      if TextLess(a, b) {
        assert DiffersAt(a, b, 0);
      }
    } else {
      TextLessIs(a[1..], b[1..]);
      if TextLess(a[1..], b[1..]) {
        var k: nat :| DiffersAt(a[1..], b[1..], k);
        assert a[..k+1] == [a[0]] + a[1..][..k] && b[..k+1] == [b[0]] + b[1..][..k];
        assert DiffersAt(a, b, k + 1);
      }
      if ComesBefore(a, b) {
        var k: nat :| DiffersAt(a, b, k);
        assert a[1..][..k-1] == a[..k][1..] && b[1..][..k-1] == b[..k][1..];
        assert DiffersAt(a[1..], b[1..], k - 1);
      }
    }
  }

  /** The sub-query id, or nothing. */
  function SubQueryOf(c: RankedChunk): string {
    if c.subQueryId.Some? then c.subQueryId.value else ""
  }

  lemma SubQueriesAscend(ranked: seq<RankedChunk>)
    requires Ordered(ranked, BySubQuery)
    ensures forall i, j :: 0 <= i < j < |ranked| ==> !ComesBefore(SubQueryOf(ranked[j]), SubQueryOf(ranked[i]))
  {
    hide TextLess, ComesBefore;
    forall i, j | 0 <= i < j < |ranked| ensures !ComesBefore(SubQueryOf(ranked[j]), SubQueryOf(ranked[i])) {
      TextLessIs(SubQueryOf(ranked[j]), SubQueryOf(ranked[i]));
      assert !BySubQuery(ranked[j], ranked[i]);
    }
  }

  /** `sort(key=lambda c: c.sub_query_id or "")` */
  predicate BySubQuery(a: RankedChunk, b: RankedChunk) {
    TextLess(if a.subQueryId.Some? then a.subQueryId.value else "",
             if b.subQueryId.Some? then b.subQueryId.value else "")
  }

  lemma BySubQueryIsOrder()
    ensures StrictWeakOrder(BySubQuery)
  {
    hide TextLess;
    forall a, b, c
      ensures !BySubQuery(a, a)
      ensures BySubQuery(a, b) && BySubQuery(b, c) ==> BySubQuery(a, c)
      ensures BySubQuery(a, c) ==> BySubQuery(a, b) || BySubQuery(b, c)
    {
      var text := (k: RankedChunk) => if k.subQueryId.Some? then k.subQueryId.value else "";
      TextLessIsOrder(text(a), text(b), text(c));
    }
  }

  // ---- the pipeline -----------------------------------------------------------------------------

  /** What fusion leaves of a sub-query's hits. */
  function Fused(hits: Hits, rrfK: nat, limit: nat): seq<Scored> {
    var ranking := Ranking(hits.vector, hits.keyword, rrfK);
    ranking[..if limit < |ranking| then limit else |ranking|]
  }

  function AllFused(hits: seq<Hits>, rrfK: nat, limit: nat): (results: seq<seq<Scored>>)
    ensures |results| == |hits|
  {
    seq(|hits|, x requires 0 <= x < |hits| => Fused(hits[x], rrfK, limit))
  }

  lemma AllFusedDistinct(hits: seq<Hits>, rrfK: nat, limit: nat)
    ensures AllDistinct(AllFused(hits, rrfK, limit))
  {
    hide Ranking;
    forall x | 0 <= x < |hits| ensures DistinctIds(AllFused(hits, rrfK, limit)[x]) {
      var ranking := Ranking(hits[x].vector, hits[x].keyword, rrfK);
      FusedIdsAreDistinct(hits[x], rrfK, if limit < |ranking| then limit else |ranking|);
    }
  }

  /** The ranked chunks of the first `n` batches, joined. */
  function RankAll(batches: seq<Batch>, n: nat, rows: map<Id, Row>, topN: nat, replies: seq<Reply>, useReranker: bool):
    seq<RankedChunk>
    requires n <= |batches| && n <= |replies|
  {
    if n == 0 then []
    else RankAll(batches, n - 1, rows, topN, replies, useReranker) +
         RankOf(batches[n-1].2, rows, topN, replies[n-1], useReranker, Some(batches[n-1].0)).chunks
  }

  /** What ranking batch `x` gives. */
  function OutcomeOf(batches: seq<Batch>, x: nat, rows: map<Id, Row>, topN: nat, replies: seq<Reply>,
                     useReranker: bool): seq<RankedChunk>
    requires x < |batches| && x < |replies|
  {
    RankOf(batches[x].2, rows, topN, replies[x], useReranker, Some(batches[x].0)).chunks
  }

  /** The joined list is the outcomes one after the other, outcome `x` at `starts[x]`. */
  ghost predicate AreJoined(batches: seq<Batch>, n: nat, rows: map<Id, Row>, topN: nat, replies: seq<Reply>,
                            useReranker: bool, joined: seq<RankedChunk>, starts: seq<nat>)
    requires n <= |batches| && n <= |replies|
  {
    && |starts| == n + 1 && starts[0] == 0 && starts[n] == |joined|
    && forall x: nat :: x < n ==>
         IsPart(joined, starts, x, OutcomeOf(batches, x, rows, topN, replies, useReranker))
  }

  ghost predicate IsPart(joined: seq<RankedChunk>, starts: seq<nat>, x: nat, part: seq<RankedChunk>)
    requires x + 1 < |starts|
  {
    starts[x] <= starts[x+1] <= |joined| && joined[starts[x]..starts[x+1]] == part
  }

  lemma {:induction false} RankAllIs(batches: seq<Batch>, n: nat, rows: map<Id, Row>, topN: nat, replies: seq<Reply>,
                                     useReranker: bool)
    returns (starts: seq<nat>)
    requires n <= |batches| && n <= |replies|
    ensures AreJoined(batches, n, rows, topN, replies, useReranker,
                      RankAll(batches, n, rows, topN, replies, useReranker), starts)
  {
    hide RankOf;
    if n == 0 {
      starts := [0];
    } else {
      var before := RankAll(batches, n - 1, rows, topN, replies, useReranker);
      var all, last := RankAll(batches, n, rows, topN, replies, useReranker),
                       OutcomeOf(batches, n - 1, rows, topN, replies, useReranker);
      var init := RankAllIs(batches, n - 1, rows, topN, replies, useReranker);
      assert all == before + last;
      starts := init + [|all|];
      forall x: nat | x < n ensures IsPart(all, starts, x, OutcomeOf(batches, x, rows, topN, replies, useReranker)) {
        if x < n - 1 {
          assert IsPart(before, init, x, OutcomeOf(batches, x, rows, topN, replies, useReranker));
          assert all[starts[x]..starts[x+1]] == before[init[x]..init[x+1]];
        }
      }
    }
  }

  /** Every outcome is in the list, in its own order, and nothing else is. */
  ghost predicate HoldsOutcomes(batches: seq<Batch>, rows: map<Id, Row>, topN: nat, replies: seq<Reply>,
                                useReranker: bool, ranked: seq<RankedChunk>)
    requires |batches| == |replies|
  {
    && (forall c :: c in ranked ==> InSomeOutcome(batches, rows, topN, replies, useReranker, c))
    && (forall x, c :: 0 <= x < |batches| && c in OutcomeOf(batches, x, rows, topN, replies, useReranker) ==>
          c in ranked)
    && (forall x, i, j ::
          0 <= x < |batches| && 0 <= i < j < |OutcomeOf(batches, x, rows, topN, replies, useReranker)| ==>
          Precedes(ranked, OutcomeOf(batches, x, rows, topN, replies, useReranker)[i],
                   OutcomeOf(batches, x, rows, topN, replies, useReranker)[j]))
  }

  ghost predicate InSomeOutcome(batches: seq<Batch>, rows: map<Id, Row>, topN: nat, replies: seq<Reply>,
                                useReranker: bool, c: RankedChunk)
    requires |batches| == |replies|
  {
    exists x :: 0 <= x < |batches| && c in OutcomeOf(batches, x, rows, topN, replies, useReranker)
  }

  lemma JoinedHas(batches: seq<Batch>, rows: map<Id, Row>, topN: nat, replies: seq<Reply>, useReranker: bool,
                  joined: seq<RankedChunk>, starts: seq<nat>, c: RankedChunk)
    requires |batches| == |replies|
    requires AreJoined(batches, |batches|, rows, topN, replies, useReranker, joined, starts)
    ensures c in joined ==> InSomeOutcome(batches, rows, topN, replies, useReranker, c)
  {
    hide OutcomeOf;
    if c in joined {
      var p :| 0 <= p < |joined| && joined[p] == c;
      var x := PartOf(starts, |batches|, p);
      assert IsPart(joined, starts, x, OutcomeOf(batches, x, rows, topN, replies, useReranker));
      assert joined[starts[x]..starts[x+1]][p-starts[x]] == c;
    }
  }

  /** The part a position lies in. */
  lemma {:induction false} PartOf(starts: seq<nat>, n: nat, p: nat) returns (x: nat)
    requires n < |starts| && starts[0] == 0 && p < starts[n]
    ensures x < n && starts[x] <= p < starts[x+1]
  {
    if p < starts[n-1] {
      x := PartOf(starts, n - 1, p);
    } else {
      x := n - 1;
    }
  }

  lemma OutcomesShareSubQuery(batches: seq<Batch>, x: nat, rows: map<Id, Row>, topN: nat, replies: seq<Reply>,
                              useReranker: bool)
    requires x < |batches| && x < |replies|
    ensures forall c :: c in OutcomeOf(batches, x, rows, topN, replies, useReranker) ==>
      c.subQueryId == Some(batches[x].0)
  {
    hide FirstPerIndex, Loaded, Acceptable, ParentText, ScoreIn;
  }

  /** Two chunks of one outcome keep their order in the sorted list. */
  lemma SortKeepsOrder(joined: seq<RankedChunk>, ranked: seq<RankedChunk>, a: nat, b: nat)
    requires DistinctChunks(joined) && multiset(ranked) == multiset(joined) && Stable(joined, ranked, BySubQuery)
    requires a < b < |joined| && joined[a].subQueryId == joined[b].subQueryId
    ensures Precedes(ranked, joined[a], joined[b])
  {
    hide TextLess;
    var c, d := joined[a], joined[b];
    assert c in multiset(ranked) && d in multiset(ranked);
    var p :| 0 <= p < |ranked| && ranked[p] == c;
    var q :| 0 <= q < |ranked| && ranked[q] == d;
    SameTextIsNotLess(SubQueryOf(c));
    NotTheOtherWay(joined, a, b);
    assert q < p ==> !BySubQuery(ranked[q], ranked[p]);
  }

  lemma NotTheOtherWay(joined: seq<RankedChunk>, a: nat, b: nat)
    requires DistinctChunks(joined) && a < b < |joined|
    ensures joined[a] != joined[b] && !Precedes(joined, joined[b], joined[a])
  {
    forall y, z | 0 <= y < z < |joined| ensures !(joined[y] == joined[b] && joined[z] == joined[a]) {
      assert y != b ==> joined[y] != joined[b];
      assert z != a ==> joined[z] != joined[a];
    }
  }

  lemma SameTextIsNotLess(a: string)
    ensures !TextLess(a, a)
  {
    TextLessIsOrder(a, a, a);
  }

  lemma SortedHoldsOutcomes(batches: seq<Batch>, rows: map<Id, Row>, topN: nat, replies: seq<Reply>,
                            useReranker: bool, joined: seq<RankedChunk>, starts: seq<nat>, ranked: seq<RankedChunk>)
    requires |batches| == |replies| && DistinctChunks(joined)
    requires AreJoined(batches, |batches|, rows, topN, replies, useReranker, joined, starts)
    requires multiset(ranked) == multiset(joined) && Stable(joined, ranked, BySubQuery)
    ensures HoldsOutcomes(batches, rows, topN, replies, useReranker, ranked)
  {
    hide OutcomeOf, BySubQuery, DistinctChunks;
    forall c ensures c in ranked <==> c in joined {
      assert c in multiset(ranked) <==> c in multiset(joined);
    }
    forall c | c in ranked ensures InSomeOutcome(batches, rows, topN, replies, useReranker, c) {
      JoinedHas(batches, rows, topN, replies, useReranker, joined, starts, c);
    }
    forall x: nat, i | x < |batches| && 0 <= i < |OutcomeOf(batches, x, rows, topN, replies, useReranker)|
      ensures starts[x] + i < |joined| &&
              joined[starts[x] + i] == OutcomeOf(batches, x, rows, topN, replies, useReranker)[i]
    {
      assert IsPart(joined, starts, x, OutcomeOf(batches, x, rows, topN, replies, useReranker));
      assert joined[starts[x]..starts[x+1]][i] == OutcomeOf(batches, x, rows, topN, replies, useReranker)[i];
    }
    forall x, i, j | 0 <= x < |batches| && 0 <= i < j < |OutcomeOf(batches, x, rows, topN, replies, useReranker)|
      ensures Precedes(ranked, OutcomeOf(batches, x, rows, topN, replies, useReranker)[i],
                       OutcomeOf(batches, x, rows, topN, replies, useReranker)[j])
    {
      var outcome := OutcomeOf(batches, x, rows, topN, replies, useReranker);
      OutcomesShareSubQuery(batches, x, rows, topN, replies, useReranker);
      assert outcome[i] in outcome && outcome[j] in outcome;
      assert joined[starts[x] + i] == outcome[i] && joined[starts[x] + j] == outcome[j];
      SortKeepsOrder(joined, ranked, starts[x] + i, starts[x] + j);
    }
  }

  /** `ranked` is, by sub-query and in ranking order within each, what ranking the deduplicated batches gives. */
  ghost predicate IsRanked(planned: seq<(string, string)>, results: seq<seq<Scored>>, rows: map<Id, Row>, topN: nat,
                           replies: seq<Reply>, useReranker: bool, ranked: seq<RankedChunk>) {
    exists batches :: IsRankedFrom(planned, results, rows, topN, replies, useReranker, ranked, batches)
  }

  ghost predicate IsRankedFrom(planned: seq<(string, string)>, results: seq<seq<Scored>>, rows: map<Id, Row>, topN: nat,
                               replies: seq<Reply>, useReranker: bool, ranked: seq<RankedChunk>, batches: seq<Batch>) {
    && |batches| == |planned| == |replies| && BatchesKeep(results, planned, batches)
    && var all := RankAll(batches, |batches|, rows, topN, replies, useReranker);
       multiset(ranked) == multiset(all) && Ordered(ranked, BySubQuery) && Stable(all, ranked, BySubQuery)
  }

  /** `rank_many` and the loop that joins its outcomes. */
  method RankMany(planned: seq<(string, string)>, results: seq<seq<Scored>>, batches: seq<Batch>, rows: map<Id, Row>,
                  topN: nat, replies: seq<Reply>, useReranker: bool)
    returns (ranked: seq<RankedChunk>, ghost starts: seq<nat>)
    requires |batches| == |replies| && RowsKeyedById(rows)
    requires AllDistinct(results) && BatchesKeep(results, planned, batches)
    ensures ranked == RankAll(batches, |batches|, rows, topN, replies, useReranker)
    ensures AreJoined(batches, |batches|, rows, topN, replies, useReranker, ranked, starts)
    ensures DistinctChunks(ranked)
  {
    hide RankedFrom, BatchesKeep, DistinctIds, IsCandidate, RankOf, AllDistinct, AreJoined;
    DisjointBatches(results, planned, batches);
    ranked := [];
    NothingRanked(batches, rows);
    for x := 0 to |batches|
      invariant RankedFrom(batches, x, rows, ranked)
      invariant ranked == RankAll(batches, x, rows, topN, replies, useReranker)
    {
      var outcome, _, _ := Rank(batches[x].2, rows, topN, replies[x], useReranker, Some(batches[x].0));
      RankKeepsCandidates(batches[x].2, rows, topN, replies[x], useReranker, Some(batches[x].0));
      RankOneMore(results, planned, batches, x, rows, ranked, outcome.chunks);
      ranked := ranked + outcome.chunks;
    }
    AllRanked(batches, rows, ranked);
    starts := RankAllIs(batches, |batches|, rows, topN, replies, useReranker);
  }

  /**
   The whole ranking path, for any hits, any loaded rows and any reranker behaviour: what
   arrives is the ranking of each deduplicated batch, sub-query by sub-query, and no chunk id
   reaches the context builder twice, so its own deduplication does nothing.
   */
  method RankedCandidates(planned: seq<(string, string)>, hits: seq<Hits>, rrfK: nat, candidateLimit: nat,
                          rows: map<Id, Row>, topN: nat, replies: seq<Reply>, useReranker: bool)
    returns (ranked: seq<RankedChunk>, ghost fused: seq<seq<Scored>>, ghost batches: seq<Batch>)
    requires |planned| == |hits| == |replies| && RowsKeyedById(rows)
    ensures |batches| == |planned| == |fused|
    ensures forall x :: 0 <= x < |hits| ==> IsFused(hits[x].vector, hits[x].keyword, rrfK, candidateLimit, fused[x])
    ensures forall x :: 0 <= x < |batches| ==> HoldsItsBest(fused, planned, batches, x)
    ensures HoldsOutcomes(batches, rows, topN, replies, useReranker, ranked)
    ensures IsRanked(planned, AllFused(hits, rrfK, candidateLimit), rows, topN, replies, useReranker, ranked)
    ensures DistinctChunks(ranked)
    ensures forall i, j :: 0 <= i < j < |ranked| ==> !ComesBefore(SubQueryOf(ranked[j]), SubQueryOf(ranked[i]))
    ensures FirstOfEach(ranked, IdKey, 1) == ranked
  {
    hide BatchesKeep, Ranking, RankAll, AllDistinct, BySubQuery, ComesBefore, IsRankedFrom, DistinctChunks,
         FirstOfEach, HoldsItsBest, HoldsOutcomes, AreJoined, IsFused;
    ghost var fusedLists := AllFused(hits, rrfK, candidateLimit);
    var results: seq<seq<Scored>> := [];
    for x := 0 to |hits|
      invariant results == fusedLists[..x]
      invariant forall y :: 0 <= y < x ==>
                  IsFused(hits[y].vector, hits[y].keyword, rrfK, candidateLimit, results[y])
    {
      var list := RrfFuse(hits[x].vector, hits[x].keyword, rrfK, candidateLimit);
      results := results + [list];
    }
    assert results == fusedLists;
    fused := results;
    AllFusedDistinct(hits, rrfK, candidateLimit);
    var deduplicated := RerankBatches(planned, results);
    batches := deduplicated.value;
    var joined, starts := RankMany(planned, results, deduplicated.value, rows, topN, replies, useReranker);
    SortKeepsDistinctChunks(joined, BySubQuery);
    SortedIsRanked(planned, results, rows, topN, replies, useReranker, batches);
    ranked := Sort(joined, BySubQuery);
    BySubQueryIsOrder();
    SortOrders(joined, BySubQuery);
    SortIsStable(joined, BySubQuery);
    SubQueriesAscend(ranked);
    SortedHoldsOutcomes(batches, rows, topN, replies, useReranker, joined, starts, ranked);
    DistinctIsUntouched(ranked);
  }

  lemma SortedIsRanked(planned: seq<(string, string)>, results: seq<seq<Scored>>, rows: map<Id, Row>, topN: nat,
                       replies: seq<Reply>, useReranker: bool, batches: seq<Batch>)
    requires |batches| == |planned| == |replies| && BatchesKeep(results, planned, batches)
    ensures IsRankedFrom(planned, results, rows, topN, replies, useReranker,
                         Sort(RankAll(batches, |batches|, rows, topN, replies, useReranker), BySubQuery), batches)
  {
    hide BatchesKeep, RankAll, BySubQuery;
    var all := RankAll(batches, |batches|, rows, topN, replies, useReranker);
    BySubQueryIsOrder();
    SortOrders(all, BySubQuery);
    SortIsStable(all, BySubQuery);
  }

  lemma DisjointBatches(results: seq<seq<Scored>>, planned: seq<(string, string)>, batches: seq<Batch>)
    requires AllDistinct(results) && BatchesKeep(results, planned, batches)
    ensures forall x :: 0 <= x < |batches| ==> DistinctIds(batches[x].2)
  {
    BatchesAreDisjoint(results, planned, batches);
  }

  lemma NothingRanked(batches: seq<Batch>, rows: map<Id, Row>)
    ensures RankedFrom(batches, 0, rows, [])
  {
  }

  lemma AllRanked(batches: seq<Batch>, rows: map<Id, Row>, ranked: seq<RankedChunk>)
    requires RankedFrom(batches, |batches|, rows, ranked)
    ensures DistinctChunks(ranked)
  {
  }
}
