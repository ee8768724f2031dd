/** Reranking one sub-query: `rank` and `_collect_parent_texts` of app/retrieval/rerank.py. */
module Rerank {
  import opened Common
  import opened Hybrid

  /** A chunk row as `load_rows` returns it, keyed by its own id. */
  datatype Row = Row(
    id: Id,
    documentId: Id,
    text: string,
    headingPath: string,
    lineStart: int,
    lineEnd: int,
    chunkType: string,
    rawContent: Option<string>,
    parentChunkId: Option<Id>,
    product: Option<string>,
    version: Option<string>)

  datatype RankedChunk = RankedChunk(
    chunkId: Id,
    documentId: Id,
    text: string,
    score: real,
    headingPath: string,
    lineStart: int,
    lineEnd: int,
    chunkType: string,
    rawContent: Option<string>,
    parentChunkId: Option<Id>,
    parentContent: Option<string>,
    product: Option<string>,
    version: Option<string>,
    subQueryId: Option<string>)

  /** What the reranking provider does: nothing configured, an exception, or (index, score) pairs. */
  datatype Reply = NotConfigured | Raised | Answered(results: seq<(int, real)>)

  datatype Outcome = Outcome(chunks: seq<RankedChunk>, fallback: bool)

  /** Python's `a or b` on an optional text. */
  function Or(a: Option<string>, b: string): string {
    if a.Some? && a.value != "" then a.value else b
  }

  ghost predicate RowsKeyedById(rows: map<Id, Row>) {
    forall id :: id in rows ==> rows[id].id == id
  }

  ghost predicate DistinctChunks(chunks: seq<RankedChunk>) {
    forall i, j :: 0 <= i < j < |chunks| ==> chunks[i].chunkId != chunks[j].chunkId
  }

  /** The candidates whose row was loaded, in candidate order. */
  function Loaded(candidates: seq<Scored>, rows: map<Id, Row>): (loaded: seq<Scored>)
    ensures forall k :: 0 <= k < |loaded| ==> loaded[k].0 in rows && loaded[k] in candidates
    ensures |loaded| <= |candidates|
  {
    if candidates == [] then []
    else
      var e := candidates[|candidates|-1];
      Loaded(candidates[..|candidates|-1], rows) + if e.0 in rows then [e] else []
  }

  /** Some answer is for index `x`. */
  predicate HasIndex(results: seq<(int, real)>, x: int) {
    exists k :: 0 <= k < |results| && results[k].0 == x
  }

  /** The first answer for each index, in order: `by_index.setdefault`. */
  function FirstPerIndex(results: seq<(int, real)>): (unique: seq<(int, real)>)
    ensures forall i, j :: 0 <= i < j < |unique| ==> unique[i].0 != unique[j].0
  {
    if results == [] then []
    else
      var unique, r := FirstPerIndex(results[..|results|-1]), results[|results|-1];
      if HasIndex(unique, r.0) then unique else unique + [r]
  }

  function Min(a: nat, b: nat): nat {
    if a < b then a else b
  }

  /** The reply keeps every candidate it must: indices in range, enough of them. */
  predicate Acceptable(unique: seq<(int, real)>, n: nat, topN: nat) {
    && (forall k :: 0 <= k < |unique| ==> 0 <= unique[k].0 < n)
    && |unique| >= Min(topN, n)
  }

  /** The parent's text for a row, if its parent row was loaded. */
  function ParentText(row: Row, rows: map<Id, Row>): Option<string> {
    if row.parentChunkId.Some? && row.parentChunkId.value in rows
    then Some(Or(rows[row.parentChunkId.value].rawContent, rows[row.parentChunkId.value].text))
    else None
  }

  function ToRanked(row: Row, score: real, subQueryId: Option<string>, parentContent: Option<string>): RankedChunk {
    RankedChunk(row.id, row.documentId, row.text, score, row.headingPath, row.lineStart, row.lineEnd, row.chunkType,
                row.rawContent, row.parentChunkId, parentContent, row.product, row.version, subQueryId)
  }

  /** Chunk `e` of the loaded candidates with the given score. */
  function RankedAs(e: Scored, score: real, rows: map<Id, Row>, subQueryId: Option<string>): RankedChunk
    requires e.0 in rows
  {
    ToRanked(rows[e.0], score, subQueryId, ParentText(rows[e.0], rows))
  }

  /** `dict(candidates).get(id, 0.0)`: of repeated ids the last score counts. */
  function ScoreIn(candidates: seq<Scored>, id: Id): real {
    if candidates == [] then 0.0
    else if candidates[|candidates|-1].0 == id then candidates[|candidates|-1].1
    else ScoreIn(candidates[..|candidates|-1], id)
  }

  /** Candidates in fusion order, cut to the top. */
  function FusionOrder(candidates: seq<Scored>, loaded: seq<Scored>, rows: map<Id, Row>, topN: nat,
                       subQueryId: Option<string>): (r: seq<RankedChunk>)
    requires forall k :: 0 <= k < |loaded| ==> loaded[k].0 in rows
    ensures |r| == Min(topN, |loaded|)
    ensures forall k :: 0 <= k < |r| ==>
              r[k] == RankedAs(loaded[k], ScoreIn(candidates, loaded[k].0), rows, subQueryId)
  {
    seq(Min(topN, |loaded|), k requires 0 <= k < |loaded| =>
      RankedAs(loaded[k], ScoreIn(candidates, loaded[k].0), rows, subQueryId))
  }

  /** Candidates in the reranker's order, cut to the top. */
  function RerankedOrder(unique: seq<(int, real)>, loaded: seq<Scored>, rows: map<Id, Row>, topN: nat,
                         subQueryId: Option<string>): (r: seq<RankedChunk>)
    requires forall k :: 0 <= k < |loaded| ==> loaded[k].0 in rows
    requires forall k :: 0 <= k < |unique| ==> 0 <= unique[k].0 < |loaded|
    ensures |r| == Min(topN, |unique|)
    ensures forall k :: 0 <= k < |r| ==> r[k] == RankedAs(loaded[unique[k].0], unique[k].1, rows, subQueryId)
  {
    seq(Min(topN, |unique|), k requires 0 <= k < |unique| =>
        RankedAs(loaded[unique[k].0], unique[k].1, rows, subQueryId))
  }

  /** The outcome for one sub-query, whatever the reranker does. */
  function RankOf(candidates: seq<Scored>, rows: map<Id, Row>, topN: nat, reply: Reply, useReranker: bool,
                  subQueryId: Option<string>): Outcome {
    var loaded := Loaded(candidates, rows);
    if loaded == [] then Outcome([], false)
    else if useReranker && reply.Answered? && Acceptable(FirstPerIndex(reply.results), |loaded|, topN) then
      Outcome(RerankedOrder(FirstPerIndex(reply.results), loaded, rows, topN, subQueryId), false)
    else
      Outcome(FusionOrder(candidates, loaded, rows, topN, subQueryId), useReranker && !reply.NotConfigured?)
  }

  // ---- the code -----------------------------------------------------------------------------

  /** `_collect_parent_texts` */
  method CollectParentTexts(rows: map<Id, Row>, candidates: seq<Scored>) returns (texts: map<Id, string>)
    ensures forall k :: 0 <= k < |candidates| && candidates[k].0 in rows ==>
              TextFor(texts, rows[candidates[k].0]) == ParentText(rows[candidates[k].0], rows)
  {
    texts := map[];
    for i := 0 to |candidates|
      invariant forall p :: p in texts ==> p in rows && texts[p] == Or(rows[p].rawContent, rows[p].text)
      invariant forall k :: 0 <= k < i && candidates[k].0 in rows ==>
                  TextFor(texts, rows[candidates[k].0]) == ParentText(rows[candidates[k].0], rows)
    {
      var id := candidates[i].0;
      if id in rows && rows[id].parentChunkId.Some? && rows[id].parentChunkId.value in rows {
        var parent := rows[id].parentChunkId.value;
        texts := texts[parent := Or(rows[parent].rawContent, rows[parent].text)];
      }
    }
  }

  /** `parent_text_by_id.get(parent_id) if parent_id else None` */
  function TextFor(texts: map<Id, string>, row: Row): Option<string> {
    if row.parentChunkId.Some? && row.parentChunkId.value in texts then Some(texts[row.parentChunkId.value]) else None
  }

  lemma HasIndexSnoc(unique: seq<(int, real)>, r: (int, real), x: int)
    ensures HasIndex(unique + [r], x) <==> HasIndex(unique, x) || x == r.0
  {
    var more := unique + [r];
    assert more[|unique|].0 == r.0;
    if HasIndex(unique, x) {
      var k :| 0 <= k < |unique| && unique[k].0 == x;
      assert more[k].0 == x;
    }
  }

  method Deduplicate(results: seq<(int, real)>) returns (unique: seq<(int, real)>)
    ensures unique == FirstPerIndex(results)
  {
    hide HasIndex;
    unique := [];
    var known: set<int> := {};
    NoIndex();
    for i := 0 to |results|
      invariant unique == FirstPerIndex(results[..i])
      invariant forall x :: x in known <==> HasIndex(unique, x)
    {
      var r := results[i];
      assert results[..i+1][..i] == results[..i];
      if r.0 !in known {
        forall x ensures HasIndex(unique + [r], x) <==> HasIndex(unique, x) || x == r.0 { HasIndexSnoc(unique, r, x); }
        known := known + {r.0};
        unique := unique + [r];
      }
    }
    assert results[..|results|] == results;
  }

  lemma NoIndex()
    ensures forall x :: !HasIndex([], x)
  {
  }

  /** The places of the candidates whose row was loaded. */
  ghost predicate AreLoaded(candidates: seq<Scored>, rows: map<Id, Row>, at: seq<nat>) {
    && (forall k, l :: 0 <= k < l < |at| ==> at[k] < at[l])
    && (forall k :: 0 <= k < |at| ==> at[k] < |candidates| && candidates[at[k]].0 in rows)
    && (forall i :: 0 <= i < |candidates| && candidates[i].0 in rows ==> i in at)
  }

  /** The places of the answers that are the first for their index. */
  ghost predicate AreFirsts(results: seq<(int, real)>, firsts: seq<nat>) {
    && (forall k, l :: 0 <= k < l < |firsts| ==> firsts[k] < firsts[l])
    && (forall k :: 0 <= k < |firsts| ==> IsFirst(results, firsts[k]))
    && (forall i: nat :: IsFirst(results, i) ==> i in firsts)
  }

  /** No earlier answer has the index of answer `i`. */
  ghost predicate IsFirst(results: seq<(int, real)>, i: nat) {
    i < |results| && forall l :: 0 <= l < i ==> results[l].0 != results[i].0
  }

  /** The reranker was asked and its answer is used: every index is in range and there are enough of them. */
  ghost predicate AnswerCounts(reply: Reply, useReranker: bool, firsts: seq<nat>, loaded: nat, topN: nat) {
    && useReranker && reply.Answered? && loaded > 0
    && (forall k :: 0 <= k < |firsts| ==>
          firsts[k] < |reply.results| && 0 <= reply.results[firsts[k]].0 < loaded)
    && (|firsts| >= topN || |firsts| >= loaded)
  }

  /** The chunk has all the columns of the row, the score, and its parent's text if the parent's row is there. */
  ghost predicate IsChunkOf(chunk: RankedChunk, id: Id, score: real, rows: map<Id, Row>, subQueryId: Option<string>) {
    && id in rows
    && var row := rows[id];
       && chunk.chunkId == id && chunk.documentId == row.documentId && chunk.text == row.text && chunk.score == score
       && chunk.headingPath == row.headingPath && chunk.lineStart == row.lineStart && chunk.lineEnd == row.lineEnd
       && chunk.chunkType == row.chunkType && chunk.rawContent == row.rawContent
       && chunk.parentChunkId == row.parentChunkId && chunk.product == row.product && chunk.version == row.version
       && chunk.subQueryId == subQueryId
       && if row.parentChunkId.Some? && row.parentChunkId.value in rows
          then var parent := rows[row.parentChunkId.value];
               chunk.parentContent == if parent.rawContent.Some? && parent.rawContent.value != "" then parent.rawContent
                                      else Some(parent.text)
          else chunk.parentContent == None
  }

  /** The score of the last candidate with the id. */
  ghost predicate LastScore(candidates: seq<Scored>, id: Id, score: real) {
    exists i :: 0 <= i < |candidates| && candidates[i] == (id, score)
                && forall l :: i < l < |candidates| ==> candidates[l].0 != id
  }

  lemma {:induction false} LoadedAt(candidates: seq<Scored>, rows: map<Id, Row>) returns (at: seq<nat>)
    ensures Picks(Loaded(candidates, rows), candidates, at) && AreLoaded(candidates, rows, at)
  {
    hide Picks;
    if candidates == [] {
      at := [];
      NothingPicked<Scored>();
    } else {
      var init, last := candidates[..|candidates|-1], candidates[|candidates|-1];
      at := LoadedAt(init, rows);
      PickNext(Loaded(init, rows), init, at, last);
      assert candidates == init + [last];
      if last.0 in rows {
        at := at + [|init|];
      } else {
        assert Loaded(candidates, rows) == Loaded(init, rows);
      }
    }
  }

  lemma FirstSnoc(results: seq<(int, real)>, r: (int, real), i: nat)
    ensures IsFirst(results, i) ==> i < |results|
    ensures IsFirst(results + [r], i) <==> IsFirst(results, i) || (i == |results| && !HasIndex(results, r.0))
  {
    var more := results + [r];
    assert forall l :: 0 <= l < |results| ==> more[l] == results[l];
    assert more[|results|] == r;
  }

  /** One more answer counts if its index is new. */
  lemma FirstsNext(results: seq<(int, real)>, r: (int, real), at: seq<nat>)
    requires AreFirsts(results, at)
    ensures AreFirsts(results + [r], if HasIndex(results, r.0) then at else at + [|results|])
  {
    hide IsFirst, HasIndex;
    var all := at + [|results|];
    forall i: nat
      ensures IsFirst(results, i) ==> i < |results|
      ensures IsFirst(results + [r], i) <==> IsFirst(results, i) || (i == |results| && !HasIndex(results, r.0))
    {
      FirstSnoc(results, r, i);
    }
    assert all[|at|] == |results|;
    forall i | i in at ensures i in all {
    }
  }

  lemma {:induction false} FirstsAt(results: seq<(int, real)>) returns (at: seq<nat>)
    ensures Picks(FirstPerIndex(results), results, at) && AreFirsts(results, at)
    ensures forall x :: HasIndex(FirstPerIndex(results), x) <==> HasIndex(results, x)
  {
    hide Picks, HasIndex, AreFirsts;
    if results == [] {
      at := [];
      NothingPicked<(int, real)>();
      NoFirsts();
    } else {
      var init, r := results[..|results|-1], results[|results|-1];
      at := FirstsAt(init);
      PickNext(FirstPerIndex(init), init, at, r);
      FirstsNext(init, r, at);
      assert results == init + [r];
      forall x ensures HasIndex(init + [r], x) <==> HasIndex(init, x) || x == r.0 { HasIndexSnoc(init, r, x); }
      forall x ensures HasIndex(FirstPerIndex(init) + [r], x) <==> HasIndex(FirstPerIndex(init), x) || x == r.0 {
        HasIndexSnoc(FirstPerIndex(init), r, x);
      }
      if !HasIndex(FirstPerIndex(init), r.0) {
        at := at + [|init|];
      }
    }
  }

  lemma NoFirsts()
    ensures AreFirsts([], [])
  {
  }

  lemma {:induction false} ScoreIsLast(candidates: seq<Scored>, id: Id)
    requires exists i :: 0 <= i < |candidates| && candidates[i].0 == id
    ensures LastScore(candidates, id, ScoreIn(candidates, id))
  {
    var init, last := candidates[..|candidates|-1], candidates[|candidates|-1];
    if last.0 == id {
      assert candidates[|candidates|-1] == (id, last.1);
    } else {
      var i :| 0 <= i < |candidates| && candidates[i].0 == id;
      assert init[i].0 == id;
      ScoreIsLast(init, id);
      var k :| 0 <= k < |init| && init[k] == (id, ScoreIn(init, id)) && forall l :: k < l < |init| ==> init[l].0 != id;
      assert candidates[k] == (id, ScoreIn(candidates, id));
    }
  }

  lemma RankedAsIs(e: Scored, score: real, rows: map<Id, Row>, subQueryId: Option<string>)
    requires e.0 in rows && RowsKeyedById(rows)
    ensures IsChunkOf(RankedAs(e, score, rows, subQueryId), e.0, score, rows, subQueryId)
  {
  }

  /** The outcome, by the places of the loaded candidates and of the answers that count. */
  lemma RankOfIs(candidates: seq<Scored>, rows: map<Id, Row>, topN: nat, reply: Reply, useReranker: bool,
                 subQueryId: Option<string>)
    returns (at: seq<nat>, firsts: seq<nat>)
    requires RowsKeyedById(rows)
    ensures AreLoaded(candidates, rows, at)
    ensures reply.Answered? ==> AreFirsts(reply.results, firsts)
    ensures var outcome := RankOf(candidates, rows, topN, reply, useReranker, subQueryId);
      && |outcome.chunks| == Min(topN, |at|)
      && (AnswerCounts(reply, useReranker, firsts, |at|, topN) ==>
            |firsts| >= |outcome.chunks| && forall k :: 0 <= k < |outcome.chunks| ==>
              var (place, score) := reply.results[firsts[k]];
              IsChunkOf(outcome.chunks[k], candidates[at[place]].0, score, rows, subQueryId))
      && (!AnswerCounts(reply, useReranker, firsts, |at|, topN) ==> forall k :: 0 <= k < |outcome.chunks| ==>
            && LastScore(candidates, candidates[at[k]].0, outcome.chunks[k].score)
            && IsChunkOf(outcome.chunks[k], candidates[at[k]].0, outcome.chunks[k].score, rows, subQueryId))
      && (outcome.fallback <==>
            at != [] && useReranker && !reply.NotConfigured? && !AnswerCounts(reply, useReranker, firsts, |at|, topN))
  {
    hide IsChunkOf, LastScore, FirstPerIndex, Loaded, ScoreIn, ParentText, ToRanked;
    at := LoadedAt(candidates, rows);
    firsts := [];
    var loaded := Loaded(candidates, rows);
    forall k | 0 <= k < |loaded| ensures LastScore(candidates, loaded[k].0, ScoreIn(candidates, loaded[k].0)) {
      assert candidates[at[k]].0 == loaded[k].0;
      ScoreIsLast(candidates, loaded[k].0);
    }
    forall k, score | 0 <= k < |loaded|
      ensures IsChunkOf(RankedAs(loaded[k], score, rows, subQueryId), loaded[k].0, score, rows, subQueryId)
    {
      RankedAsIs(loaded[k], score, rows, subQueryId);
    }
    if reply.Answered? {
      firsts := FirstsAt(reply.results);
      CountsIsAcceptable(reply, useReranker, firsts, |loaded|, topN);
      if AnswerCounts(reply, useReranker, firsts, |at|, topN) {
        AtMostN(FirstPerIndex(reply.results), |loaded|);
      }
    }
    RankedAsScores(rows, subQueryId);
  }

  lemma CountsIsAcceptable(reply: Reply, useReranker: bool, firsts: seq<nat>, loaded: nat, topN: nat)
    requires reply.Answered? && Picks(FirstPerIndex(reply.results), reply.results, firsts)
    ensures AnswerCounts(reply, useReranker, firsts, loaded, topN) <==>
            useReranker && loaded > 0 && Acceptable(FirstPerIndex(reply.results), loaded, topN)
  {
    hide FirstPerIndex;
    var unique := FirstPerIndex(reply.results);
    assert forall k :: 0 <= k < |firsts| ==> unique[k] == reply.results[firsts[k]];
  }

  lemma RankedAsScores(rows: map<Id, Row>, subQueryId: Option<string>)
    ensures forall e: Scored, score :: e.0 in rows ==> RankedAs(e, score, rows, subQueryId).score == score
  {
  }

  /**
   `rank`. The chunks are those of the first top_n loaded candidates, at the places `at`, in
   the reranker's order and with its scores if its answer counts, in fusion order and with
   fused scores if not; the fallback flag tells whether a wanted reranker let it down.
   */
  method Rank(candidates: seq<Scored>, rows: map<Id, Row>, topN: nat, reply: Reply, useReranker: bool,
              subQueryId: Option<string>)
    returns (outcome: Outcome, ghost at: seq<nat>, ghost firsts: seq<nat>)
    requires RowsKeyedById(rows)
    ensures outcome == RankOf(candidates, rows, topN, reply, useReranker, subQueryId)
    ensures AreLoaded(candidates, rows, at)
    ensures reply.Answered? ==> AreFirsts(reply.results, firsts)
    ensures |outcome.chunks| == Min(topN, |at|)
    ensures AnswerCounts(reply, useReranker, firsts, |at|, topN) ==> forall k :: 0 <= k < |outcome.chunks| ==>
      var (place, score) := reply.results[firsts[k]];
      IsChunkOf(outcome.chunks[k], candidates[at[place]].0, score, rows, subQueryId)
    ensures !AnswerCounts(reply, useReranker, firsts, |at|, topN) ==> forall k :: 0 <= k < |outcome.chunks| ==>
      && LastScore(candidates, candidates[at[k]].0, outcome.chunks[k].score)
      && IsChunkOf(outcome.chunks[k], candidates[at[k]].0, outcome.chunks[k].score, rows, subQueryId)
    ensures outcome.fallback <==>
      at != [] && useReranker && !reply.NotConfigured? && !AnswerCounts(reply, useReranker, firsts, |at|, topN)
  {
    hide IsChunkOf, LastScore, AreLoaded, AreFirsts;
    at, firsts := RankOfIs(candidates, rows, topN, reply, useReranker, subQueryId);
    outcome := RankLoaded(candidates, rows, topN, reply, useReranker, subQueryId);
  }

  method RankLoaded(candidates: seq<Scored>, rows: map<Id, Row>, topN: nat, reply: Reply, useReranker: bool,
                    subQueryId: Option<string>)
    returns (outcome: Outcome)
    requires RowsKeyedById(rows)
    ensures outcome == RankOf(candidates, rows, topN, reply, useReranker, subQueryId)
  {
    if candidates == [] {
      return Outcome([], false);
    }
    var texts := CollectParentTexts(rows, candidates);
    var loaded := Loaded(candidates, rows);
    if loaded == [] {
      return Outcome([], false);
    }
    ParentTextsApply(candidates, rows, texts);
    if useReranker && reply.Answered? {
      var unique := Deduplicate(reply.results);
      if Acceptable(unique, |loaded|, topN) {
        var chunks := seq(Min(topN, |unique|), k requires 0 <= k < |unique| =>
          ToRanked(rows[loaded[unique[k].0].0], unique[k].1, subQueryId, TextFor(texts, rows[loaded[unique[k].0].0])));
        assert chunks == RerankedOrder(unique, loaded, rows, topN, subQueryId);
        return Outcome(chunks, false);
      }
    }
    var chunks := seq(Min(topN, |loaded|), k requires 0 <= k < |loaded| =>
      ToRanked(rows[loaded[k].0], ScoreIn(candidates, rows[loaded[k].0].id), subQueryId,
               TextFor(texts, rows[loaded[k].0])));
    assert chunks == FusionOrder(candidates, loaded, rows, topN, subQueryId);
    return Outcome(chunks, useReranker && !reply.NotConfigured?);
  }

  lemma ParentTextsApply(candidates: seq<Scored>, rows: map<Id, Row>, texts: map<Id, string>)
    requires forall k :: 0 <= k < |candidates| && candidates[k].0 in rows ==>
               TextFor(texts, rows[candidates[k].0]) == ParentText(rows[candidates[k].0], rows)
    ensures var loaded := Loaded(candidates, rows);
            forall k :: 0 <= k < |loaded| ==> TextFor(texts, rows[loaded[k].0]) == ParentText(rows[loaded[k].0], rows)
  {
    var loaded := Loaded(candidates, rows);
    forall k | 0 <= k < |loaded| ensures TextFor(texts, rows[loaded[k].0]) == ParentText(rows[loaded[k].0], rows) {
      var j :| 0 <= j < |candidates| && candidates[j] == loaded[k];
    }
  }

  // ---- what ranking promises -------------------------------------------------------------------

  function UpTo(n: nat): (s: set<int>)
    ensures |s| == n && forall x :: x in s <==> 0 <= x < n
  {
    if n == 0 then {} else UpTo(n - 1) + {n - 1}
  }

  function Indices(unique: seq<(int, real)>): (s: set<int>)
    ensures forall x :: x in s ==> exists k :: 0 <= k < |unique| && unique[k].0 == x
  {
    if unique == [] then {} else Indices(unique[..|unique|-1]) + {unique[|unique|-1].0}
  }

  /** Distinct indices below `n` are at most `n` many. */
  lemma {:induction false} AtMostN(unique: seq<(int, real)>, n: nat)
    requires forall k :: 0 <= k < |unique| ==> 0 <= unique[k].0 < n
    requires forall i, j :: 0 <= i < j < |unique| ==> unique[i].0 != unique[j].0
    ensures |unique| <= n
  {
    IndexCount(unique);
    SubsetSize(Indices(unique), UpTo(n));
  }

  lemma {:induction false} IndexCount(unique: seq<(int, real)>)
    requires forall i, j :: 0 <= i < j < |unique| ==> unique[i].0 != unique[j].0
    ensures |Indices(unique)| == |unique|
  {
    if unique != [] {
      IndexCount(unique[..|unique|-1]);
    }
  }

  lemma SubsetSize(a: set<int>, b: set<int>)
    requires a <= b
    ensures |a| <= |b|
  {
    assert b == a + (b - a);
  }

  lemma {:induction false} LoadedDistinct(candidates: seq<Scored>, rows: map<Id, Row>)
    requires DistinctIds(candidates)
    ensures DistinctIds(Loaded(candidates, rows))
  {
    if candidates != [] {
      LoadedDistinct(candidates[..|candidates|-1], rows);
    }
  }

  /** Without repeats, the fallback gives every candidate its own fused score. */
  lemma {:induction false} ScoreIsOwn(candidates: seq<Scored>, e: Scored)
    requires DistinctIds(candidates) && e in candidates
    ensures ScoreIn(candidates, e.0) == e.1
  {
    var init, last := candidates[..|candidates|-1], candidates[|candidates|-1];
    if last.0 != e.0 {
      assert e in init;
      ScoreIsOwn(init, e);
    } else {
      assert forall k :: 0 <= k < |init| ==> init[k].0 != e.0;
    }
  }

  /**
   Whatever the reranker answers, or if it fails, exactly min(top_n, loaded rows)
   distinct candidates come back; no candidate is invented, repeated or dropped below that.
   */
  lemma RankKeepsCandidates(candidates: seq<Scored>, rows: map<Id, Row>, topN: nat, reply: Reply, useReranker: bool,
                            subQueryId: Option<string>)
    requires RowsKeyedById(rows) && DistinctIds(candidates)
    ensures var r := RankOf(candidates, rows, topN, reply, useReranker, subQueryId);
            && |r.chunks| == Min(topN, |Loaded(candidates, rows)|)
            && DistinctChunks(r.chunks)
            && forall k :: 0 <= k < |r.chunks| ==> IsCandidate(candidates, rows, r.chunks[k])
  {
    hide FirstPerIndex, ParentText, IsCandidate, Loaded;
    var loaded := Loaded(candidates, rows);
    LoadedDistinct(candidates, rows);
    LoadedAreCandidates(candidates, rows);
    if loaded != [] && useReranker && reply.Answered? && Acceptable(FirstPerIndex(reply.results), |loaded|, topN) {
      RerankedAreLoaded(FirstPerIndex(reply.results), candidates, rows, topN, subQueryId);
    } else if loaded != [] {
      FusionOrderIsLoaded(candidates, rows, topN, subQueryId);
    }
  }

  /** The chunk is one of the candidates, and its row was loaded. */
  ghost predicate IsCandidate(candidates: seq<Scored>, rows: map<Id, Row>, chunk: RankedChunk) {
    chunk.chunkId in rows && exists i :: 0 <= i < |candidates| && candidates[i].0 == chunk.chunkId
  }

  lemma LoadedAreCandidates(candidates: seq<Scored>, rows: map<Id, Row>)
    requires RowsKeyedById(rows)
    ensures forall k, score, sq :: 0 <= k < |Loaded(candidates, rows)| ==>
              IsCandidate(candidates, rows, RankedAs(Loaded(candidates, rows)[k], score, rows, sq))
  {
    hide ParentText;
    var loaded := Loaded(candidates, rows);
    forall k, score, sq | 0 <= k < |loaded|
      ensures IsCandidate(candidates, rows, RankedAs(loaded[k], score, rows, sq))
    {
      var i :| 0 <= i < |candidates| && candidates[i] == loaded[k];
      assert candidates[i].0 == RankedAs(loaded[k], score, rows, sq).chunkId;
    }
  }

  lemma FusionOrderIsLoaded(candidates: seq<Scored>, rows: map<Id, Row>, topN: nat, sq: Option<string>)
    requires RowsKeyedById(rows) && DistinctIds(Loaded(candidates, rows))
    requires forall k, score :: 0 <= k < |Loaded(candidates, rows)| ==>
               IsCandidate(candidates, rows, RankedAs(Loaded(candidates, rows)[k], score, rows, sq))
    ensures var r := FusionOrder(candidates, Loaded(candidates, rows), rows, topN, sq);
            DistinctChunks(r) && forall k :: 0 <= k < |r| ==> IsCandidate(candidates, rows, r[k])
  {
    hide IsCandidate, ParentText;
  }

  lemma RerankedAreLoaded(unique: seq<(int, real)>, candidates: seq<Scored>, rows: map<Id, Row>, topN: nat,
                          sq: Option<string>)
    requires RowsKeyedById(rows) && DistinctIds(Loaded(candidates, rows))
    requires forall k, score :: 0 <= k < |Loaded(candidates, rows)| ==>
               IsCandidate(candidates, rows, RankedAs(Loaded(candidates, rows)[k], score, rows, sq))
    requires Acceptable(unique, |Loaded(candidates, rows)|, topN)
    requires forall i, j :: 0 <= i < j < |unique| ==> unique[i].0 != unique[j].0
    ensures var r := RerankedOrder(unique, Loaded(candidates, rows), rows, topN, sq);
            |r| == Min(topN, |Loaded(candidates, rows)|) && DistinctChunks(r) &&
            forall k :: 0 <= k < |r| ==> IsCandidate(candidates, rows, r[k])
  {
    hide IsCandidate, ParentText;
    var loaded := Loaded(candidates, rows);
    AtMostN(unique, |loaded|);
    var r := RerankedOrder(unique, loaded, rows, topN, sq);
    forall i, j | 0 <= i < j < |r| ensures r[i].chunkId != r[j].chunkId {
      assert loaded[unique[i].0].0 != loaded[unique[j].0].0 by {
        var a, b := unique[i].0, unique[j].0;
        assert loaded[if a < b then a else b].0 != loaded[if a < b then b else a].0;
      }
    }
  }
}
