/**
 Cross-sub-query deduplication before reranking: `_rerank_batches` of
 app/services/query_service.py. A chunk recalled by several sub-queries stays in
 the first one that gives it its best score; the loop gets there by editing batches
 it has already emitted.
 */
module SubQueryBatches {
  import opened Common
  import opened Hybrid
  import opened StableSort

  type Batch = (string, string, seq<Scored>)

  /** `e` is the best occurrence of its chunk, in the first list attaining that score. */
  ghost predicate IsBest(lists: seq<seq<Scored>>, x: nat, e: Scored) {
    && (forall y, f :: 0 <= y < |lists| && y < x && f in lists[y] && f.0 == e.0 ==> f.1 < e.1)
    && (forall y, f :: 0 <= y < |lists| && y > x && f in lists[y] && f.0 == e.0 ==> f.1 <= e.1)
  }

  /** The candidates of `list` that list `x` gets to keep, in their order. */
  ghost function KeptOf(lists: seq<seq<Scored>>, x: nat, list: seq<Scored>): seq<Scored> {
    if list == [] then []
    else KeptOf(lists, x, list[..|list|-1]) + if IsBest(lists, x, list[|list|-1]) then [list[|list|-1]] else []
  }

  ghost function Kept(lists: seq<seq<Scored>>, x: nat): seq<Scored>
    requires x < |lists|
  {
    KeptOf(lists, x, lists[x])
  }

  // ---- reading one more candidate -----------------------------------------------------------

  /** The lists with `e` appended to the last one: what has been read after one more step. */
  ghost function Append(lists: seq<seq<Scored>>, e: Scored): seq<seq<Scored>>
    requires lists != []
  {
    lists[..|lists|-1] + [lists[|lists|-1] + [e]]
  }

  lemma AppendLists(lists: seq<seq<Scored>>, e: Scored, y: nat)
    requires lists != [] && y < |lists|
    ensures |Append(lists, e)| == |lists|
    ensures Append(lists, e)[y] == if y == |lists| - 1 then lists[y] + [e] else lists[y]
  {
  }

  /** The new candidate beats every earlier one of its chunk. */
  ghost predicate Wins(lists: seq<seq<Scored>>, e: Scored) {
    forall y, f :: 0 <= y < |lists| && f in lists[y] && f.0 == e.0 ==> f.1 < e.1
  }

  /** An earlier occurrence stays best unless the new one is of its chunk and scores more. */
  lemma BestAfter(lists: seq<seq<Scored>>, e: Scored, x: nat, f: Scored)
    requires lists != [] && x < |lists| && f in lists[x]
    requires x == |lists| - 1 ==> f.0 != e.0
    ensures IsBest(Append(lists, e), x, f) <==> IsBest(lists, x, f) && (f.0 == e.0 ==> e.1 <= f.1)
  {
    var more := Append(lists, e);
    forall y | 0 <= y < |lists|
      ensures |more| == |lists| && forall h :: h in more[y] <==> h in lists[y] || (y == |lists| - 1 && h == e)
    {
      AppendLists(lists, e, y);
    }
    if IsBest(more, x, f) {
      assert e in more[|lists|-1];
      forall y, h | 0 <= y < |lists| && y < x && h in lists[y] && h.0 == f.0 ensures h.1 < f.1 { assert h in more[y]; }
      forall y, h | 0 <= y < |lists| && y > x && h in lists[y] && h.0 == f.0 ensures h.1 <= f.1 { assert h in more[y]; }
    }
  }

  lemma NewIsBest(lists: seq<seq<Scored>>, e: Scored)
    requires lists != [] && forall f :: f in lists[|lists|-1] ==> f.0 != e.0
    ensures IsBest(Append(lists, e), |lists| - 1, e) <==> Wins(lists, e)
  {
    var more, last := Append(lists, e), |lists| - 1;
    forall y | 0 <= y < |lists| ensures |more| == |lists| && (y != last ==> more[y] == lists[y]) {
      AppendLists(lists, e, y);
    }
    if IsBest(more, last, e) {
      forall y, f | 0 <= y < |lists| && f in lists[y] && f.0 == e.0 ensures f.1 < e.1 { assert f in more[y]; }
    }
  }

  /** `[(c, s) for c, s in batch if c != cid]` */
  function Without(list: seq<Scored>, id: Id): seq<Scored> {
    if list == [] then []
    else Without(list[..|list|-1], id) + if list[|list|-1].0 == id then [] else [list[|list|-1]]
  }

  /** Earlier lists after the new candidate: unchanged, or without the chunk it takes over. */
  lemma {:induction false} EarlierKept(lists: seq<seq<Scored>>, e: Scored, x: nat, list: seq<Scored>)
    requires lists != [] && x < |lists| && forall f :: f in list ==> f in lists[x]
    requires x == |lists| - 1 ==> forall f :: f in list ==> f.0 != e.0
    ensures Wins(lists, e) ==> KeptOf(Append(lists, e), x, list) == Without(KeptOf(lists, x, list), e.0)
    ensures (forall f :: f in list && f.0 == e.0 && IsBest(lists, x, f) ==> e.1 <= f.1) ==>
              KeptOf(Append(lists, e), x, list) == KeptOf(lists, x, list)
  {
    hide IsBest, Append;
    if list != [] {
      var init, f := list[..|list|-1], list[|list|-1];
      EarlierKept(lists, e, x, init);
      BestAfter(lists, e, x, f);
      var kept := KeptOf(lists, x, init);
      assert (kept + [f])[..|kept|] == kept && kept + [] == kept;
      assert f in lists[x];
    }
  }

  lemma {:induction false} KeptIn(lists: seq<seq<Scored>>, x: nat, list: seq<Scored>, f: Scored)
    ensures f in KeptOf(lists, x, list) <==> f in list && IsBest(lists, x, f)
  {
    if list != [] { KeptIn(lists, x, list[..|list|-1], f); }
  }

  lemma {:induction false} WithoutAbsent(list: seq<Scored>, id: Id)
    requires forall k :: 0 <= k < |list| ==> list[k].0 != id
    ensures Without(list, id) == list
  {
    if list != [] { WithoutAbsent(list[..|list|-1], id); }
  }

  // ---- the loop's state -------------------------------------------------------------------------

  /** `seen` and `owner` know, for each chunk read, its best score and the list that keeps it. */
  ghost predicate Tracks(lists: seq<seq<Scored>>, seen: map<Id, real>, owner: map<Id, nat>) {
    && seen.Keys == owner.Keys
    && (forall y, f :: 0 <= y < |lists| && f in lists[y] ==> f.0 in seen && f.1 <= seen[f.0])
    && (forall id :: id in seen ==> owner[id] < |lists| && (id, seen[id]) in lists[owner[id]] &&
                                    IsBest(lists, owner[id], (id, seen[id])))
  }

  lemma SeenDecides(lists: seq<seq<Scored>>, seen: map<Id, real>, owner: map<Id, nat>, e: Scored)
    requires Tracks(lists, seen, owner)
    ensures Wins(lists, e) <==> !(e.0 in seen && seen[e.0] >= e.1)
  {
    if e.0 in seen && Wins(lists, e) {
      assert (e.0, seen[e.0]) in lists[owner[e.0]];
    }
  }

  lemma TrackLoser(lists: seq<seq<Scored>>, seen: map<Id, real>, owner: map<Id, nat>, e: Scored)
    requires lists != [] && Tracks(lists, seen, owner) && e.0 in seen && seen[e.0] >= e.1
    requires forall f :: f in lists[|lists|-1] ==> f.0 != e.0
    ensures Tracks(Append(lists, e), seen, owner)
  {
    hide IsBest;
    var more := Append(lists, e);
    forall y | 0 <= y < |lists|
      ensures |more| == |lists| && forall h :: h in more[y] <==> h in lists[y] || (y == |lists| - 1 && h == e)
    {
      AppendLists(lists, e, y);
    }
    forall id | id in seen ensures (id, seen[id]) in more[owner[id]] && IsBest(more, owner[id], (id, seen[id])) {
      BestAfter(lists, e, owner[id], (id, seen[id]));
    }
  }

  lemma TrackWinner(lists: seq<seq<Scored>>, seen: map<Id, real>, owner: map<Id, nat>, e: Scored)
    requires lists != [] && Tracks(lists, seen, owner) && Wins(lists, e)
    requires forall f :: f in lists[|lists|-1] ==> f.0 != e.0
    ensures Tracks(Append(lists, e), seen[e.0 := e.1], owner[e.0 := |lists| - 1])
  {
    hide IsBest;
    var more := Append(lists, e);
    forall y | 0 <= y < |lists|
      ensures |more| == |lists| && forall h :: h in more[y] <==> h in lists[y] || (y == |lists| - 1 && h == e)
    {
      AppendLists(lists, e, y);
    }
    NewIsBest(lists, e);
    forall id | id in seen && id != e.0
      ensures (id, seen[id]) in more[owner[id]] && IsBest(more, owner[id], (id, seen[id]))
    {
      BestAfter(lists, e, owner[id], (id, seen[id]));
    }
  }

  lemma TrackNewList(lists: seq<seq<Scored>>, seen: map<Id, real>, owner: map<Id, nat>)
    requires Tracks(lists, seen, owner)
    ensures Tracks(lists + [[]], seen, owner)
  {
    hide IsBest;
    forall id | id in seen ensures IsBest(lists + [[]], owner[id], (id, seen[id])) {
      BestWithNewList(lists, owner[id], (id, seen[id]));
    }
  }

  lemma BestWithNewList(lists: seq<seq<Scored>>, x: nat, e: Scored)
    ensures x < |lists| ==> (IsBest(lists + [[]], x, e) <==> IsBest(lists, x, e))
  {
    var more := lists + [[]];
    assert forall y :: 0 <= y < |lists| ==> more[y] == lists[y];
  }

  lemma {:induction false} KeptWithNewList(lists: seq<seq<Scored>>, x: nat, list: seq<Scored>)
    requires x < |lists|
    ensures KeptOf(lists + [[]], x, list) == KeptOf(lists, x, list)
  {
    if list != [] {
      KeptWithNewList(lists, x, list[..|list|-1]);
      BestWithNewList(lists, x, list[|list|-1]);
    }
  }

  /** Every emitted batch holds what its list keeps of everything read so far. */
  ghost predicate BatchesKeep(lists: seq<seq<Scored>>, planned: seq<(string, string)>, batches: seq<Batch>) {
    && |batches| <= |lists| && |batches| <= |planned|
    && forall x :: 0 <= x < |batches| ==> batches[x] == (planned[x].0, planned[x].1, Kept(lists, x))
  }

  /** Batch `prev` without the chunk. */
  function Edited(batches: seq<Batch>, prev: nat, id: Id): seq<Batch>
    requires prev < |batches|
  {
    batches[prev := (batches[prev].0, batches[prev].1, Without(batches[prev].2, id))]
  }

  /** The chunk taken over is removed from the batch that had it; the others do not mention it. */
  lemma TakeOver(lists: seq<seq<Scored>>, seen: map<Id, real>, owner: map<Id, nat>, planned: seq<(string, string)>,
                 batches: seq<Batch>, e: Scored)
    requires lists != [] && |batches| == |lists| - 1
    requires Tracks(lists, seen, owner) && BatchesKeep(lists, planned, batches) && Wins(lists, e)
    requires forall f :: f in lists[|lists|-1] ==> f.0 != e.0
    ensures e.0 in owner ==> owner[e.0] < |batches|
    ensures BatchesKeep(Append(lists, e), planned, if e.0 in owner then Edited(batches, owner[e.0], e.0) else batches)
  {
    hide Wins, KeptOf;
    if e.0 in owner { OwnerIsEarlier(lists, seen, owner, e.0); }
    forall x | 0 <= x < |batches| ensures
      Kept(Append(lists, e), x) ==
      if e.0 in owner && x == owner[e.0] then Without(Kept(lists, x), e.0) else Kept(lists, x)
    {
      AppendLists(lists, e, x);
      EarlierKept(lists, e, x, lists[x]);
      if !(e.0 in owner && x == owner[e.0]) { OnlyOwnerKeeps(lists, seen, owner, x, e.0); }
    }
  }

  lemma OwnerIsEarlier(lists: seq<seq<Scored>>, seen: map<Id, real>, owner: map<Id, nat>, id: Id)
    requires lists != [] && Tracks(lists, seen, owner) && id in owner
    requires forall f :: f in lists[|lists|-1] ==> f.0 != id
    ensures owner[id] < |lists| - 1
  {
    assert (id, seen[id]) in lists[owner[id]];
  }

  /** A best occurrence is the one the dictionaries know. */
  lemma BestIsTracked(lists: seq<seq<Scored>>, seen: map<Id, real>, owner: map<Id, nat>, x: nat, f: Scored)
    requires Tracks(lists, seen, owner) && x < |lists| && f in lists[x] && IsBest(lists, x, f)
    ensures f.0 in owner && owner[f.0] == x
    ensures DistinctIds(lists[x]) ==> f.1 == seen[f.0]
  {
    assert f.0 in seen;
    var best := (f.0, seen[f.0]);
    assert best in lists[owner[f.0]] && IsBest(lists, owner[f.0], best);
  }

  lemma OnlyOwnerKeeps(lists: seq<seq<Scored>>, seen: map<Id, real>, owner: map<Id, nat>, x: nat, id: Id)
    requires Tracks(lists, seen, owner) && x < |lists| && !(id in owner && x == owner[id])
    ensures Without(Kept(lists, x), id) == Kept(lists, x)
  {
    hide Tracks, IsBest;
    var kept := Kept(lists, x);
    forall k | 0 <= k < |kept| ensures kept[k].0 != id {
      KeptIn(lists, x, lists[x], kept[k]);
      BestIsTracked(lists, seen, owner, x, kept[k]);
    }
    WithoutAbsent(kept, id);
  }

  /** A candidate that does not beat the best seen changes no batch. */
  lemma LoserChangesNothing(lists: seq<seq<Scored>>, seen: map<Id, real>, owner: map<Id, nat>,
                            planned: seq<(string, string)>,
                            batches: seq<Batch>, e: Scored)
    requires lists != [] && |batches| == |lists| - 1
    requires Tracks(lists, seen, owner) && BatchesKeep(lists, planned, batches)
    requires forall y :: 0 <= y < |lists| ==> DistinctIds(lists[y])
    requires e.0 in seen && seen[e.0] >= e.1
    requires forall f :: f in lists[|lists|-1] ==> f.0 != e.0
    ensures BatchesKeep(Append(lists, e), planned, batches)
  {
    hide Tracks, IsBest, KeptOf, DistinctIds;
    forall x | 0 <= x < |batches| ensures Kept(Append(lists, e), x) == Kept(lists, x) {
      AppendLists(lists, e, x);
      forall f | f in lists[x] && f.0 == e.0 && IsBest(lists, x, f) ensures e.1 <= f.1 {
        BestIsTracked(lists, seen, owner, x, f);
      }
      EarlierKept(lists, e, x, lists[x]);
    }
  }

  /** What the list being read keeps after one more candidate. */
  lemma CurrentKept(lists: seq<seq<Scored>>, e: Scored)
    requires lists != [] && forall f :: f in lists[|lists|-1] ==> f.0 != e.0
    ensures |Append(lists, e)| == |lists|
    ensures Kept(Append(lists, e), |lists| - 1) == Kept(lists, |lists| - 1) + if Wins(lists, e) then [e] else []
  {
    hide IsBest, Wins;
    var last := |lists| - 1;
    AppendLists(lists, e, last);
    var list := lists[last];
    assert (list + [e])[..|list|] == list;
    NewIsBest(lists, e);
    StillKept(lists, e, last, list);
  }

  lemma {:induction false} StillKept(lists: seq<seq<Scored>>, e: Scored, x: nat, list: seq<Scored>)
    requires lists != [] && x == |lists| - 1 && forall f :: f in list ==> f in lists[x] && f.0 != e.0
    ensures KeptOf(Append(lists, e), x, list) == KeptOf(lists, x, list)
  {
    hide IsBest;
    if list != [] {
      StillKept(lists, e, x, list[..|list|-1]);
      BestAfter(lists, e, x, list[|list|-1]);
    }
  }

  // ---- the code -----------------------------------------------------------------------------------

  /** No list repeats an id: what fusion guarantees. */
  ghost predicate AllDistinct(lists: seq<seq<Scored>>) {
    forall x :: 0 <= x < |lists| ==> DistinctIds(lists[x])
  }

  /** When candidate `q` of list `x` is read, it outscores all that was read of its chunk. */
  ghost predicate Improves(lists: seq<seq<Scored>>, x: nat, q: nat)
    requires x < |lists| && q < |lists[x]|
  {
    && (forall y, f :: 0 <= y < x && f in lists[y] && f.0 == lists[x][q].0 ==> f.1 < lists[x][q].1)
    && (forall f :: f in lists[x][..q] && f.0 == lists[x][q].0 ==> f.1 < lists[x][q].1)
  }

  /** Two candidates of list `x` are of one chunk, and both improve on what was read before them. */
  ghost predicate CollidesAt(lists: seq<seq<Scored>>, x: nat, q: nat, r: nat) {
    && x < |lists| && q < r < |lists[x]| && lists[x][q].0 == lists[x][r].0
    && Improves(lists, x, q) && Improves(lists, x, r)
  }

  ghost predicate Collides(lists: seq<seq<Scored>>) {
    exists x: nat, q: nat, r: nat :: CollidesAt(lists, x, q, r)
  }

  /** The dictionaries on any lists: the best score read of each chunk, and the list that first attained it. */
  ghost predicate Knows(lists: seq<seq<Scored>>, seen: map<Id, real>, owner: map<Id, nat>) {
    && seen.Keys == owner.Keys
    && (forall y, f :: 0 <= y < |lists| && f in lists[y] ==> f.0 in seen && f.1 <= seen[f.0])
    && (forall id :: id in seen ==> owner[id] < |lists| && AttainedIn(lists, owner[id], (id, seen[id])))
  }

  ghost predicate AttainedIn(lists: seq<seq<Scored>>, x: nat, e: Scored)
    requires x < |lists|
  {
    exists q: nat :: q < |lists[x]| && lists[x][q] == e && Improves(lists, x, q)
  }

  lemma DistinctNeverCollide(lists: seq<seq<Scored>>)
    requires AllDistinct(lists)
    ensures !Collides(lists)
  {
  }

  lemma RepeatsCanCollide()
    ensures Collides([[("a", 1.0), ("a", 2.0)]])
  {
    assert CollidesAt([[("a", 1.0), ("a", 2.0)]], 0, 0, 1);
  }

  /** A repeat that outscores all before it is no collision if the first of the two did not improve. */
  lemma RepeatsNeedNotCollide()
    ensures !Collides([[("a", 5.0)], [("a", 3.0), ("a", 6.0)]])
  {
    var lists: seq<seq<Scored>> := [[("a", 5.0)], [("a", 3.0), ("a", 6.0)]];
    assert ("a", 5.0) in lists[0];
    assert !Improves(lists, 1, 0);
  }

  lemma ImprovesStays(lists: seq<seq<Scored>>, e: Scored, x: nat, q: nat)
    requires lists != [] && x < |lists| && q < |lists[x]|
    ensures |Append(lists, e)| == |lists| && q < |Append(lists, e)[x]| && Append(lists, e)[x][q] == lists[x][q]
    ensures Improves(Append(lists, e), x, q) <==> Improves(lists, x, q)
  {
    var more := Append(lists, e);
    forall y: nat | y <= x ensures y < x ==> more[y] == lists[y] {
      AppendLists(lists, e, y);
    }
    AppendLists(lists, e, x);
    assert more[x][..q] == lists[x][..q];
  }

  /** The candidate read now improves exactly if the dictionaries know nothing as good. */
  lemma NewImproves(lists: seq<seq<Scored>>, seen: map<Id, real>, owner: map<Id, nat>, e: Scored)
    requires lists != [] && Knows(lists, seen, owner)
    ensures var (more, b) := (Append(lists, e), |lists| - 1);
      && |more| == |lists| && |more[b]| == |lists[b]| + 1 && more[b][|lists[b]|] == e
      && (Improves(more, b, |lists[b]|) <==> !(e.0 in seen && seen[e.0] >= e.1))
  {
    var more, b := Append(lists, e), |lists| - 1;
    forall y: nat | y < |lists| ensures y < b ==> more[y] == lists[y] {
      AppendLists(lists, e, y);
    }
    AppendLists(lists, e, b);
    assert more[b][..|lists[b]|] == lists[b];
    if e.0 in seen {
      assert AttainedIn(lists, owner[e.0], (e.0, seen[e.0]));
      assert (e.0, seen[e.0]) in lists[owner[e.0]];
    }
  }

  /** An earlier candidate of the list being read improved exactly if that list owns the chunk. */
  lemma OwnedByCurrent(lists: seq<seq<Scored>>, seen: map<Id, real>, owner: map<Id, nat>, id: Id)
    requires lists != [] && Knows(lists, seen, owner)
    ensures var b := |lists| - 1;
      (id in owner && owner[id] == b) <==>
      exists q: nat :: q < |lists[b]| && lists[b][q].0 == id && Improves(lists, b, q)
  {
    var b := |lists| - 1;
    if id in owner && owner[id] == b {
      assert AttainedIn(lists, b, (id, seen[id]));
    }
    forall q: nat | q < |lists[b]| && lists[b][q].0 == id && Improves(lists, b, q)
      ensures id in owner && owner[id] == b
    {
      assert lists[b][q] in lists[b];
      assert AttainedIn(lists, owner[id], (id, seen[id]));
      assert (id, seen[id]) in lists[owner[id]];
    }
  }

  lemma KnowsOneMore(lists: seq<seq<Scored>>, seen: map<Id, real>, owner: map<Id, nat>, e: Scored)
    requires lists != [] && Knows(lists, seen, owner)
    ensures if e.0 in seen && seen[e.0] >= e.1 then Knows(Append(lists, e), seen, owner)
            else Knows(Append(lists, e), seen[e.0 := e.1], owner[e.0 := |lists| - 1])
  {
    hide Improves, Append;
    var more, b := Append(lists, e), |lists| - 1;
    NewImproves(lists, seen, owner, e);
    forall y: nat | y < |lists|
      ensures |more| == |lists| && forall f :: f in more[y] <==> f in lists[y] || (y == b && f == e)
    {
      AppendLists(lists, e, y);
    }
    forall id | id in seen ensures AttainedIn(more, owner[id], (id, seen[id])) {
      assert AttainedIn(lists, owner[id], (id, seen[id]));
      var q: nat :| q < |lists[owner[id]]| && lists[owner[id]][q] == (id, seen[id]) && Improves(lists, owner[id], q);
      ImprovesStays(lists, e, owner[id], q);
    }
  }

  /** Reading one more candidate makes a collision exactly if it improves on one of its own list. */
  lemma CollisionOneMore(lists: seq<seq<Scored>>, seen: map<Id, real>, owner: map<Id, nat>, e: Scored)
    requires lists != [] && Knows(lists, seen, owner) && !Collides(lists)
    ensures Collides(Append(lists, e)) <==>
            !(e.0 in seen && seen[e.0] >= e.1) && e.0 in owner && owner[e.0] == |lists| - 1
  {
    hide Improves, Append, Knows;
    var more, b := Append(lists, e), |lists| - 1;
    var p := |lists[b]|;
    NewImproves(lists, seen, owner, e);
    OwnedByCurrent(lists, seen, owner, e.0);
    forall x: nat | x < |lists| ensures more[x] == if x == b then lists[x] + [e] else lists[x] {
      AppendLists(lists, e, x);
    }
    forall x: nat, q: nat | x < |lists| && q < |lists[x]| ensures Improves(more, x, q) <==> Improves(lists, x, q) {
      ImprovesStays(lists, e, x, q);
    }
    forall x: nat, q: nat, r: nat | CollidesAt(more, x, q, r) && r < |lists[x]| ensures CollidesAt(lists, x, q, r) {
    }
    if q: nat :| q < p && lists[b][q].0 == e.0 && Improves(lists, b, q) {
      if Improves(more, b, p) {
        assert CollidesAt(more, b, q, p);
      }
    }
  }

  lemma KnowsNewList(lists: seq<seq<Scored>>, seen: map<Id, real>, owner: map<Id, nat>)
    requires Knows(lists, seen, owner) && !Collides(lists)
    ensures Knows(lists + [[]], seen, owner) && !Collides(lists + [[]])
  {
    hide Improves;
    var more := lists + [[]];
    forall x: nat, q: nat | x < |lists| && q < |lists[x]| ensures Improves(more, x, q) <==> Improves(lists, x, q) {
      ImprovesWithNewList(lists, x, q);
    }
    forall id | id in seen ensures AttainedIn(more, owner[id], (id, seen[id])) {
      assert AttainedIn(lists, owner[id], (id, seen[id]));
    }
    forall x: nat, q: nat, r: nat | CollidesAt(more, x, q, r) ensures CollidesAt(lists, x, q, r) {
    }
  }

  lemma ImprovesWithNewList(lists: seq<seq<Scored>>, x: nat, q: nat)
    requires x < |lists| && q < |lists[x]|
    ensures Improves(lists + [[]], x, q) <==> Improves(lists, x, q)
  {
    assert forall y :: 0 <= y < |lists| ==> (lists + [[]])[y] == lists[y];
  }

  /** A collision in what was read is one in the whole. */
  lemma CollisionSpreads(results: seq<seq<Scored>>, b: nat, p: nat)
    requires b < |results| && p <= |results[b]| && Collides(results[..b] + [results[b][..p]])
    ensures Collides(results)
  {
    hide Improves;
    var read := results[..b] + [results[b][..p]];
    var x: nat, q: nat, r: nat :| CollidesAt(read, x, q, r);
    ImprovesInWhole(results, b, p, x, q);
    ImprovesInWhole(results, b, p, x, r);
    assert CollidesAt(results, x, q, r);
  }

  lemma ImprovesInWhole(results: seq<seq<Scored>>, b: nat, p: nat, x: nat, q: nat)
    requires b < |results| && p <= |results[b]| && x <= b && q < |(results[..b] + [results[b][..p]])[x]|
    ensures q < |results[x]| && results[x][q] == (results[..b] + [results[b][..p]])[x][q]
    ensures Improves(results, x, q) <==> Improves(results[..b] + [results[b][..p]], x, q)
  {
    var read := results[..b] + [results[b][..p]];
    assert read[x][..q] == results[x][..q];
    assert forall y :: 0 <= y < x ==> read[y] == results[y];
  }

  /** Batch `x` is sub-query `x` with those of its candidates, in order, that are best there. */
  ghost predicate HoldsItsBest(results: seq<seq<Scored>>, planned: seq<(string, string)>, batches: seq<Batch>, x: nat)
    requires x < |results| == |planned| == |batches|
  {
    && batches[x].0 == planned[x].0 && batches[x].1 == planned[x].1
    && exists at :: Picks(batches[x].2, results[x], at) &&
                    forall i :: 0 <= i < |results[x]| ==> (i in at <==> IsBest(results, x, results[x][i]))
  }

  lemma {:induction false} KeptAt(lists: seq<seq<Scored>>, x: nat, list: seq<Scored>) returns (at: seq<nat>)
    ensures Picks(KeptOf(lists, x, list), list, at)
    ensures forall i :: 0 <= i < |list| ==> (i in at <==> IsBest(lists, x, list[i]))
  {
    hide Picks, IsBest;
    if list == [] {
      at := [];
      NothingPicked<Scored>();
    } else {
      var init, last := list[..|list|-1], list[|list|-1];
      at := KeptAt(lists, x, init);
      PickNext(KeptOf(lists, x, init), init, at, last);
      assert list == init + [last];
      if IsBest(lists, x, last) {
        at := at + [|init|];
      } else {
        assert KeptOf(lists, x, list) == KeptOf(lists, x, init);
      }
    }
  }

  lemma BatchesHoldTheirBest(results: seq<seq<Scored>>, planned: seq<(string, string)>, batches: seq<Batch>)
    requires |results| == |planned| == |batches| && BatchesKeep(results, planned, batches)
    ensures forall x :: 0 <= x < |batches| ==> HoldsItsBest(results, planned, batches, x)
  {
    hide KeptOf, IsBest, Picks;
    forall x | 0 <= x < |batches| ensures HoldsItsBest(results, planned, batches, x) {
      var at := KeptAt(results, x, results[x]);
    }
  }

  /**
   `_rerank_batches`; None stands for the index error of rewriting a batch that is not there
   yet. It is raised exactly on colliding lists, so never on those fusion returns.
   */
  method RerankBatches(planned: seq<(string, string)>, results: seq<seq<Scored>>) returns (r: Option<seq<Batch>>)
    requires |planned| == |results|
    ensures r.None? <==> Collides(results)
    ensures r.Some? ==> |r.value| == |planned|
    ensures AllDistinct(results) ==> r.Some? && BatchesKeep(results, planned, r.value)
    ensures AllDistinct(results) ==> forall x :: 0 <= x < |r.value| ==> HoldsItsBest(results, planned, r.value, x)
  {
    hide Tracks, BatchesKeep, Wins, Kept, Without, Append, Knows, Collides, AllDistinct, Following, HoldsItsBest;
    var seen: map<Id, real>, owner: map<Id, nat> := map[], map[];
    var batches: seq<Batch> := [];
    Nothing(planned);
    for b := 0 to |planned|
      invariant |batches| == b
      invariant Knows(results[..b], seen, owner) && !Collides(results[..b])
      invariant AllDistinct(results) ==>
                  Tracks(results[..b], seen, owner) && BatchesKeep(results[..b], planned, batches)
    {
      var unique: seq<Scored> := [];
      ghost var lists := results[..b] + [[]];
      KnowsNewList(results[..b], seen, owner);
      if AllDistinct(results) {
        StartList(results, b, seen, owner, planned, batches);
      }
      for p := 0 to |results[b]|
        invariant |batches| == b && |lists| == b + 1 && lists == results[..b] + [results[b][..p]]
        invariant Knows(lists, seen, owner) && !Collides(lists)
        invariant AllDistinct(results) ==> Following(lists, seen, owner, planned, batches, unique)
      {
        var e := results[b][p];
        AppendIs(lists, e);
        assert results[b][..p+1] == results[b][..p] + [e];
        assert Append(lists, e) == results[..b] + [results[b][..p+1]];
        CollisionOneMore(lists, seen, owner, e);
        KnowsOneMore(lists, seen, owner, e);
        KnownKeys(lists, seen, owner);
        if AllDistinct(results) {
          NotYetRead(results, b, p);
        }
        if e.0 in seen && seen[e.0] >= e.1 {
          if AllDistinct(results) {
            FollowLoser(lists, seen, owner, planned, batches, unique, e);
          }
        } else {
          if AllDistinct(results) {
            FollowWinner(lists, seen, owner, planned, batches, unique, e);
          }
          if e.0 in owner {
            var prev := owner[e.0];
            if prev >= |batches| {
              CollisionSpreads(results, b, p + 1);
              return None;
            }
            batches := Edited(batches, prev, e.0);
          }
          seen := seen[e.0 := e.1];
          owner := owner[e.0 := b];
          unique := unique + [e];
        }
        lists := Append(lists, e);
      }
      if AllDistinct(results) {
        EndList(lists, seen, owner, planned, batches, unique);
      }
      batches := batches + [(planned[b].0, planned[b].1, unique)];
      assert results[b][..|results[b]|] == results[b];
      assert results[..b+1] == results[..b] + [results[b]];
    }
    assert results[..|results|] == results;
    if AllDistinct(results) {
      DistinctNeverCollide(results);
      BatchesHoldTheirBest(results, planned, batches);
    }
    r := Some(batches);
  }

  /** Dictionaries and batches are those of what was read, and `unique` is what the last list keeps. */
  ghost predicate Following(lists: seq<seq<Scored>>, seen: map<Id, real>, owner: map<Id, nat>,
                            planned: seq<(string, string)>, batches: seq<Batch>, unique: seq<Scored>) {
    && lists != [] && |batches| == |lists| - 1
    && Tracks(lists, seen, owner) && BatchesKeep(lists, planned, batches)
    && unique == Kept(lists, |lists| - 1) && AllDistinct(lists)
  }

  lemma Nothing(planned: seq<(string, string)>)
    ensures Tracks([], map[], map[]) && BatchesKeep([], planned, [])
    ensures Knows([], map[], map[]) && !Collides([])
  {
  }

  lemma AppendIs(lists: seq<seq<Scored>>, e: Scored)
    requires lists != []
    ensures Append(lists, e) == lists[..|lists|-1] + [lists[|lists|-1] + [e]]
  {
  }

  lemma KnownKeys(lists: seq<seq<Scored>>, seen: map<Id, real>, owner: map<Id, nat>)
    requires Knows(lists, seen, owner)
    ensures seen.Keys == owner.Keys && forall id :: id in owner ==> owner[id] < |lists|
  {
  }

  /** Without repeats, the candidate read next is of a chunk its list has not had. */
  lemma NotYetRead(results: seq<seq<Scored>>, b: nat, p: nat)
    requires AllDistinct(results) && b < |results| && p < |results[b]|
    ensures forall f :: f in results[b][..p] ==> f.0 != results[b][p].0
    ensures AllDistinct(results[..b] + [results[b][..p+1]])
  {
  }

  lemma StartList(results: seq<seq<Scored>>, b: nat, seen: map<Id, real>, owner: map<Id, nat>,
                  planned: seq<(string, string)>, batches: seq<Batch>)
    requires AllDistinct(results) && b < |results| && |batches| == b
    requires Tracks(results[..b], seen, owner) && BatchesKeep(results[..b], planned, batches)
    ensures Following(results[..b] + [[]], seen, owner, planned, batches, [])
  {
    hide Tracks, BatchesKeep, Kept;
    OpenList(results[..b], seen, owner, planned, batches);
  }

  lemma EndList(lists: seq<seq<Scored>>, seen: map<Id, real>, owner: map<Id, nat>, planned: seq<(string, string)>,
                batches: seq<Batch>, unique: seq<Scored>)
    requires Following(lists, seen, owner, planned, batches, unique) && |batches| < |planned|
    ensures Tracks(lists, seen, owner)
    ensures BatchesKeep(lists, planned, batches + [(planned[|batches|].0, planned[|batches|].1, unique)])
  {
    hide Tracks, BatchesKeep, Kept, AllDistinct;
    CloseList(lists, planned, batches, unique);
  }

  lemma FollowLoser(lists: seq<seq<Scored>>, seen: map<Id, real>, owner: map<Id, nat>, planned: seq<(string, string)>,
                    batches: seq<Batch>, unique: seq<Scored>, e: Scored)
    requires Following(lists, seen, owner, planned, batches, unique) && AllDistinct(Append(lists, e))
    requires e.0 in seen && seen[e.0] >= e.1 && forall f :: f in lists[|lists|-1] ==> f.0 != e.0
    ensures Following(Append(lists, e), seen, owner, planned, batches, unique)
  {
    hide Tracks, BatchesKeep, Wins, Kept, Append, DistinctIds;
    CurrentKept(lists, e);
    SeenDecides(lists, seen, owner, e);
    LoserChangesNothing(lists, seen, owner, planned, batches, e);
    TrackLoser(lists, seen, owner, e);
  }

  lemma FollowWinner(lists: seq<seq<Scored>>, seen: map<Id, real>, owner: map<Id, nat>, planned: seq<(string, string)>,
                     batches: seq<Batch>, unique: seq<Scored>, e: Scored)
    requires Following(lists, seen, owner, planned, batches, unique) && AllDistinct(Append(lists, e))
    requires !(e.0 in seen && seen[e.0] >= e.1) && forall f :: f in lists[|lists|-1] ==> f.0 != e.0
    ensures e.0 in owner ==> owner[e.0] < |batches|
    ensures Following(Append(lists, e), seen[e.0 := e.1], owner[e.0 := |lists| - 1], planned,
                      if e.0 in owner then Edited(batches, owner[e.0], e.0) else batches, unique + [e])
  {
    hide Tracks, BatchesKeep, Wins, Kept, Append, DistinctIds;
    CurrentKept(lists, e);
    SeenDecides(lists, seen, owner, e);
    TakeOver(lists, seen, owner, planned, batches, e);
    TrackWinner(lists, seen, owner, e);
  }

  lemma OpenList(lists: seq<seq<Scored>>, seen: map<Id, real>, owner: map<Id, nat>, planned: seq<(string, string)>,
                 batches: seq<Batch>)
    requires Tracks(lists, seen, owner) && BatchesKeep(lists, planned, batches)
    ensures Tracks(lists + [[]], seen, owner) && BatchesKeep(lists + [[]], planned, batches)
    ensures Kept(lists + [[]], |lists|) == []
  {
    TrackNewList(lists, seen, owner);
    forall x | 0 <= x < |batches| ensures Kept(lists + [[]], x) == Kept(lists, x) {
      KeptWithNewList(lists, x, lists[x]);
    }
  }

  lemma CloseList(lists: seq<seq<Scored>>, planned: seq<(string, string)>, batches: seq<Batch>, unique: seq<Scored>)
    requires lists != [] && |batches| == |lists| - 1 < |planned|
    requires BatchesKeep(lists, planned, batches) && unique == Kept(lists, |lists| - 1)
    ensures BatchesKeep(lists, planned, batches + [(planned[|batches|].0, planned[|batches|].1, unique)])
  {
    hide Kept;
  }

  // ---- what the batches promise -------------------------------------------------------------------

  /** Every chunk has a best occurrence. */
  lemma {:induction false} BestExists(lists: seq<seq<Scored>>, n: nat, id: Id) returns (x: nat, e: Scored)
    requires n <= |lists| && exists y, f :: 0 <= y < n && f in lists[y] && f.0 == id
    requires forall y :: 0 <= y < |lists| ==> DistinctIds(lists[y])
    ensures x < n && e in lists[x] && e.0 == id && IsBest(lists[..n], x, e)
  {
    var last := lists[n-1];
    if exists y, f :: 0 <= y < n - 1 && f in lists[y] && f.0 == id {
      x, e := BestExists(lists, n - 1, id);
      if f :| f in last && f.0 == id && f.1 > e.1 {
        assert IsBest(lists[..n], n - 1, f) by { BeatsBest(lists, n, x, e, f); }
        x, e := n - 1, f;
      } else {
        assert IsBest(lists[..n], x, e) by { StaysBest(lists, n, x, e); }
      }
    } else {
      x := n - 1;
      e :| e in last && e.0 == id;
    }
  }

  lemma BeatsBest(lists: seq<seq<Scored>>, n: nat, x: nat, e: Scored, f: Scored)
    requires 0 < n <= |lists| && x < n - 1 && IsBest(lists[..n-1], x, e) && e in lists[x] && DistinctIds(lists[x])
    requires f.0 == e.0 && f.1 > e.1
    ensures IsBest(lists[..n], n - 1, f)
  {
    forall y, h | 0 <= y < n - 1 && h in lists[y] && h.0 == f.0 ensures h.1 < f.1 {
      assert lists[..n-1][y] == lists[y];
      if y == x { assert h == e; }
    }
  }

  lemma StaysBest(lists: seq<seq<Scored>>, n: nat, x: nat, e: Scored)
    requires 0 < n <= |lists| && x < n - 1 && IsBest(lists[..n-1], x, e)
    requires forall f :: f in lists[n-1] && f.0 == e.0 ==> f.1 <= e.1
    ensures IsBest(lists[..n], x, e)
  {
    forall y, h | 0 <= y < n && y != x && h in lists[y] && h.0 == e.0 ensures if y < x then h.1 < e.1 else h.1 <= e.1 {
      if y < n - 1 { assert lists[..n-1][y] == lists[y]; }
    }
  }

  /** A chunk is best in at most one list. */
  lemma BestIsUnique(lists: seq<seq<Scored>>, x: nat, e: Scored, y: nat, f: Scored)
    requires x < |lists| && y < |lists| && e in lists[x] && f in lists[y] && e.0 == f.0
    requires IsBest(lists, x, e) && IsBest(lists, y, f)
    requires DistinctIds(lists[x])
    ensures x == y && e == f
  {
  }

  lemma {:induction false} KeptIsSubsequence(lists: seq<seq<Scored>>, x: nat, list: seq<Scored>)
    requires DistinctIds(list)
    ensures DistinctIds(KeptOf(lists, x, list))
    ensures forall i, j :: 0 <= i < j < |KeptOf(lists, x, list)| ==>
              Precedes(list, KeptOf(lists, x, list)[i], KeptOf(lists, x, list)[j])
  {
    if list != [] {
      var init, e := list[..|list|-1], list[|list|-1];
      KeptIsSubsequence(lists, x, init);
      var kept, before := KeptOf(lists, x, list), KeptOf(lists, x, init);
      forall i, j | 0 <= i < j < |kept| ensures kept[i].0 != kept[j].0 && Precedes(list, kept[i], kept[j]) {
        assert kept[i] == before[i] && before[i] in before;
        if j < |before| {
          PrecedesMore(init, e, before[i], before[j]);
        } else {
          KeptIn(lists, x, init, before[i]);
          PrecedesLast(init, e, before[i]);
        }
        assert init + [e] == list;
      }
    }
  }

  lemma PrecedesMore(list: seq<Scored>, last: Scored, e: Scored, f: Scored)
    requires Precedes(list, e, f)
    ensures Precedes(list + [last], e, f)
  {
    var p, q :| 0 <= p < q < |list| && list[p] == e && list[q] == f;
    assert (list + [last])[p] == e && (list + [last])[q] == f;
  }

  lemma PrecedesLast(list: seq<Scored>, last: Scored, e: Scored)
    requires e in list
    ensures Precedes(list + [last], e, last)
  {
    var p :| 0 <= p < |list| && list[p] == e;
    assert (list + [last])[p] == e && (list + [last])[|list|] == last;
  }

  /**
   Each candidate chunk lands in exactly one batch, once, with its best score, in
   the first sub-query that attains it; nothing else lands anywhere.
   */
  lemma EachChunkInOneBatch(results: seq<seq<Scored>>, planned: seq<(string, string)>, batches: seq<Batch>, id: Id)
    returns (x: nat, e: Scored)
    requires forall y :: 0 <= y < |results| ==> DistinctIds(results[y])
    requires BatchesKeep(results, planned, batches) && |batches| == |results|
    requires exists y, f :: 0 <= y < |results| && f in results[y] && f.0 == id
    ensures x < |batches| && e in batches[x].2 && e in results[x] && e.0 == id && IsBest(results, x, e)
    ensures forall y, f :: 0 <= y < |batches| && f in batches[y].2 && f.0 == id ==> y == x && f == e
  {
    hide IsBest, KeptOf, BatchesKeep;
    x, e := BestExists(results, |results|, id);
    assert results[..|results|] == results;
    BatchIs(results, planned, batches, x);
    KeptIn(results, x, results[x], e);
    forall y, f | 0 <= y < |batches| && f in batches[y].2 && f.0 == id ensures y == x && f == e {
      BatchIs(results, planned, batches, y);
      KeptIn(results, y, results[y], f);
      BestIsUnique(results, x, e, y, f);
    }
  }

  lemma BatchIs(results: seq<seq<Scored>>, planned: seq<(string, string)>, batches: seq<Batch>, x: nat)
    requires BatchesKeep(results, planned, batches) && x < |batches|
    ensures x < |results| && batches[x].2 == KeptOf(results, x, results[x])
  {
    hide KeptOf;
  }

  /** No two batch entries, in one batch or in two, are of the same chunk. */
  lemma BatchesAreDisjoint(results: seq<seq<Scored>>, planned: seq<(string, string)>, batches: seq<Batch>)
    requires forall y :: 0 <= y < |results| ==> DistinctIds(results[y])
    requires BatchesKeep(results, planned, batches)
    ensures forall x :: 0 <= x < |batches| ==> DistinctIds(batches[x].2)
    ensures forall x, y, e, f ::
              0 <= x < |batches| && 0 <= y < |batches| && x != y && e in batches[x].2 && f in batches[y].2 ==>
              e.0 != f.0
  {
    hide IsBest, KeptOf, BatchesKeep;
    forall x | 0 <= x < |batches| ensures DistinctIds(batches[x].2) {
      BatchIs(results, planned, batches, x);
      KeptIsSubsequence(results, x, results[x]);
    }
    forall x, y, e, f | 0 <= x < |batches| && 0 <= y < |batches| && x != y && e in batches[x].2 && f in batches[y].2
      ensures e.0 != f.0
    {
      BatchIs(results, planned, batches, x);
      BatchIs(results, planned, batches, y);
      KeptIn(results, x, results[x], e);
      KeptIn(results, y, results[y], f);
      if e.0 == f.0 { BestIsUnique(results, x, e, y, f); }
    }
  }
}
