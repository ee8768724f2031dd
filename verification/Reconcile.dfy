/**
 Orphan reconciliation: `iter_id_batches` (app/storage/postgres/repositories/chunk.py) walks
 the chunk ids in ascending keyset batches, and `reconcile_orphans`
 (app/services/cleanup_service.py) deletes the vector points no batch accounted for. Every
 batch is read from its own snapshot of the chunk table. Ids are 128-bit numbers, compared
 as such.
 */
module Reconcile {
  import opened Common

  ghost predicate IsSmallest(ids: set<nat>, m: nat) {
    m in ids && forall x :: x in ids ==> m <= x
  }

  lemma {:induction false} HasSmallest(ids: set<nat>)
    requires ids != {}
    ensures exists m :: IsSmallest(ids, m)
  {
    var y :| y in ids;
    if ids == {y} {
      assert IsSmallest(ids, y);
    } else {
      var rest := ids - {y};
      HasSmallest(rest);
      var m :| IsSmallest(rest, m);
      var least := if m <= y then m else y;
      assert forall x :: x in ids ==> x == y || x in rest;
      assert IsSmallest(ids, least);
    }
  }

  function Smallest(ids: set<nat>): (m: nat)
    requires ids != {}
    ensures IsSmallest(ids, m)
  {
    HasSmallest(ids);
    var m :| m in ids && forall x :: x in ids ==> m <= x;
    m
  }

  /** `ORDER BY id LIMIT size`. */
  function FirstIds(ids: set<nat>, size: nat): (rows: seq<nat>)
    decreases size
  {
    if ids == {} || size == 0 then []
    else
      var m := Smallest(ids);
      [m] + FirstIds(ids - {m}, size - 1)
  }

  function Ids(rows: seq<nat>): set<nat> {
    set id | id in rows
  }

  /** `WHERE id > last` */
  function IdsBehind(table: set<nat>, last: Option<nat>): set<nat> {
    set id | id in table && (last.None? || id > last.value)
  }

  /** A batch holds ids of the table, ends at its largest, and leaves out only larger ones. */
  lemma {:induction false} BatchIs(ids: set<nat>, size: nat)
    ensures var rows := FirstIds(ids, size);
      && (forall x :: x in rows ==> x in ids && x <= rows[|rows|-1])
      && (forall x :: x in ids && x !in rows ==> |rows| == size && (rows != [] ==> x > rows[|rows|-1]))
      && (size > 0 && ids != {} ==> rows != [])
    decreases size
  {
    if ids != {} && size > 0 {
      var m := Smallest(ids);
      var tail := FirstIds(ids - {m}, size - 1);
      BatchIs(ids - {m}, size - 1);
      var rows := FirstIds(ids, size);
      assert rows == [m] + tail;
      assert forall x :: x in rows <==> x == m || x in tail;
      if tail != [] {
        assert tail[|tail|-1] in tail;
        assert rows[|rows|-1] == tail[|tail|-1];
      }
    }
  }

  // ---- the walk -----------------------------------------------------------------------------

  /** The id had its row in each of the first `n` snapshots. */
  ghost predicate KeptRow(tables: seq<set<nat>>, n: nat, id: nat) {
    forall i :: 0 <= i < n && i < |tables| ==> id in tables[i]
  }

  /** The id had its row in one of the first `n` snapshots. */
  ghost predicate HadRow(tables: seq<set<nat>>, n: nat, id: nat) {
    exists i :: 0 <= i < n && i < |tables| && id in tables[i]
  }

  /** What is known was read from the snapshots, and nothing up to `last` was missed. */
  ghost predicate Walked(tables: seq<set<nat>>, n: nat, last: Option<nat>, known: set<nat>) {
    && (forall id :: id in known ==> HadRow(tables, n, id))
    && (forall id: nat :: last.Some? && id <= last.value && KeptRow(tables, n, id) ==> id in known)
  }

  ghost predicate UpTo(known: set<nat>, last: Option<nat>) {
    forall id :: id in known ==> last.Some? && id <= last.value
  }

  lemma BatchStep(tables: seq<set<nat>>, n: nat, last: Option<nat>, known: set<nat>, size: nat)
    requires n < |tables| && size >= 1 && Walked(tables, n, last, known)
    ensures var rows := FirstIds(IdsBehind(tables[n], last), size);
      && (rows != [] ==>
            Walked(tables, n + 1, Some(rows[|rows|-1]), known + Ids(rows)))
      && (rows == [] ==> forall id :: KeptRow(tables, n + 1, id) ==> id in known)
  {
    var ids := IdsBehind(tables[n], last);
    var rows := FirstIds(ids, size);
    BatchIs(ids, size);
    var read := known + Ids(rows);
    forall id | id in read ensures HadRow(tables, n + 1, id) {
      if id in known {
        assert HadRow(tables, n, id);
      } else {
        assert id in tables[n];
      }
    }
    forall id: nat | KeptRow(tables, n + 1, id) && (rows != [] ==> id <= rows[|rows|-1]) ensures id in read {
      assert KeptRow(tables, n, id) && id in tables[n];
      assert id in ids || (last.Some? && id <= last.value);
    }
  }

  /** `n` batches brought at least `n` ids. */
  ghost predicate ReadAtLeast(tables: seq<set<nat>>, n: nat, known: set<nat>) {
    |known| >= n && forall id :: id in known ==> HadRow(tables, n, id)
  }

  /** The verdict: only points that lacked a row at some read are orphans; the others had one. */
  ghost predicate OrphansAre(tables: seq<set<nat>>, n: nat, points: set<nat>, orphans: set<nat>) {
    && orphans <= points
    && (forall id :: id in orphans ==> !KeptRow(tables, n, id))
    && (forall id :: id in points && id !in orphans ==> HadRow(tables, n, id))
  }

  /**
   `reconcile_orphans`, batch `i` being read from snapshot `i`. `done` is false when the
   snapshots run out before the walk ends; then nothing has been deleted.
   No point is deleted whose row was there throughout, and a point that is kept had its row
   in some snapshot, whether the walk ran to its end or stopped early.
   */
  method ReconcileOrphans(points: set<nat>, tables: seq<set<nat>>, size: nat)
    returns (left: set<nat>, orphans: set<nat>, done: bool, batches: nat)
    requires size >= 1
    ensures left == points - orphans && batches <= |tables|
    ensures done ==> OrphansAre(tables, batches, points, orphans)
    ensures !done ==> orphans == {} && batches == |tables|
    ensures !done ==> exists known :: ReadAtLeast(tables, batches, known)
  {
    hide FirstIds, Walked, KeptRow, HadRow;
    left, orphans, done, batches := points, {}, false, 0;
    var known: set<nat>, last: Option<nat> := {}, None;
    NothingWalked(tables);
    if points == {} {
      done := true;
      return;
    }
    while batches < |tables| && !done
      invariant batches <= |tables| && left == points && orphans == {}
      invariant !done ==> Walked(tables, batches, last, known) && |known| >= batches
      invariant !done ==> UpTo(known, last)
      invariant done ==> Settled(tables, batches, points, known)
      decreases |tables| - batches, !done
    {
      var rows := FirstIds(IdsBehind(tables[batches], last), size);
      BatchStep(tables, batches, last, known, size);
      BatchIs(IdsBehind(tables[batches], last), size);
      if rows == [] {
        WalkEnds(tables, batches, points, known, last);
        done := true;
      } else {
        BatchAdds(known, rows, last);
        known := known + Ids(rows);
        last := Some(rows[|rows|-1]);
        if points <= known {
          StopsEarly(tables, batches + 1, points, known, last);
          done := true;
        }
      }
      batches := batches + 1;
    }
    if done {
      orphans := set p | p in points && p !in known;
      left := points - orphans;
      SettledOrphans(tables, batches, points, known);
    } else {
      WalkedHad(tables, batches, last, known);
      assert ReadAtLeast(tables, batches, known);
    }
  }

  /** The walk is over: every point with a row throughout is known. */
  ghost predicate Settled(tables: seq<set<nat>>, n: nat, points: set<nat>, known: set<nat>) {
    && (forall id :: id in known ==> HadRow(tables, n, id))
    && (forall id :: id in points && KeptRow(tables, n, id) ==> id in known)
  }

  lemma NothingWalked(tables: seq<set<nat>>)
    ensures Walked(tables, 0, None, {}) && OrphansAre(tables, 0, {}, {})
  {
  }

  lemma WalkedHad(tables: seq<set<nat>>, n: nat, last: Option<nat>, known: set<nat>)
    requires Walked(tables, n, last, known)
    ensures forall id :: id in known ==> HadRow(tables, n, id)
  {
  }

  lemma WalkEnds(tables: seq<set<nat>>, n: nat, points: set<nat>, known: set<nat>, last: Option<nat>)
    requires n < |tables| && Walked(tables, n, last, known)
    requires forall id :: KeptRow(tables, n + 1, id) ==> id in known
    ensures Settled(tables, n + 1, points, known)
  {
    forall id | id in known ensures HadRow(tables, n + 1, id) {
      assert HadRow(tables, n, id);
    }
  }

  lemma StopsEarly(tables: seq<set<nat>>, n: nat, points: set<nat>, known: set<nat>, last: Option<nat>)
    requires Walked(tables, n, last, known) && points <= known
    ensures Settled(tables, n, points, known)
  {
  }

  lemma SettledOrphans(tables: seq<set<nat>>, n: nat, points: set<nat>, known: set<nat>)
    requires Settled(tables, n, points, known)
    ensures OrphansAre(tables, n, points, set p | p in points && p !in known)
  {
  }

  /** Every batch brings an id that was not known: the walk cannot stand still. */
  lemma BatchAdds(known: set<nat>, rows: seq<nat>, last: Option<nat>)
    requires rows != [] && UpTo(known, last)
    requires forall id :: id in rows ==> last.Some? ==> id > last.value
    requires forall id :: id in rows ==> id <= rows[|rows|-1]
    ensures |known + Ids(rows)| > |known|
    ensures UpTo(known + Ids(rows), Some(rows[|rows|-1]))
  {
    var id := rows[0];
    assert id in rows;
    assert id !in known;
    assert rows[|rows|-1] in rows;
    var all := known + Ids(rows);
    assert known + {id} <= all;
    SubsetIsSmaller(known + {id}, all);
  }

  lemma {:induction false} SubsetIsSmaller(a: set<nat>, b: set<nat>)
    requires a <= b
    ensures |a| <= |b|
  {
    if a != {} {
      var x :| x in a;
      SubsetIsSmaller(a - {x}, b - {x});
    }
  }

  /** Over an unchanging chunk table exactly the points without a row are deleted. */
  method ReconcileStatic(points: set<nat>, table: set<nat>, size: nat) returns (left: set<nat>, orphans: set<nat>)
    requires size >= 1
    ensures orphans == points - table
    ensures left == points * table
  {
    hide OrphansAre;
    var tables := seq(|table| + 1, _ => table);
    var done, batches;
    left, orphans, done, batches := ReconcileOrphans(points, tables, size);
    if !done {
      ghost var known :| ReadAtLeast(tables, batches, known);
      assert forall id :: id in known ==> id in table;
      SubsetIsSmaller(known, table);
      assert false;
    }
    StaticOrphans(points, table, tables, batches, orphans);
  }

  lemma StaticOrphans(points: set<nat>, table: set<nat>, tables: seq<set<nat>>, n: nat, orphans: set<nat>)
    requires |tables| > 0 && forall i :: 0 <= i < |tables| ==> tables[i] == table
    requires OrphansAre(tables, n, points, orphans)
    ensures orphans == points - table
  {
    forall id | id in points ensures id in orphans <==> id !in table {
      assert id in table ==> KeptRow(tables, n, id);
      assert HadRow(tables, n, id) ==> id in table;
    }
  }
}
