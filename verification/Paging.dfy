/**
 Keyset paging: `_apply_cursor` (app/storage/postgres/repositories/_common.py), the limit+1
 queries of the repositories, and the cursors of app/api/pagination.py. The table may
 change between two page reads: each page is read from its own snapshot.
 */
module Paging {
  import opened Common
  import opened StableSort

  /** The keyset a row is listed by; it never changes during the row's life. */
  datatype Key = Key(created: int, id: int)

  /** `a` is listed before `b`: newer, or as new with the larger id. */
  predicate Newer(a: Key, b: Key) {
    a.created > b.created || (a.created == b.created && a.id > b.id)
  }

  /** Encoding and decoding of the opaque cursor text. */
  datatype Codec = Codec(encode: Key -> string, decode: string -> Option<Key>)

  ghost predicate Inverse(c: Codec) {
    forall k :: c.decode(c.encode(k)) == Some(k)
  }

  /** The rows strictly behind the cursor. */
  function Behind(table: seq<Key>, cursor: Option<Key>): seq<Key> {
    if table == [] then []
    else
      var k := table[|table|-1];
      Behind(table[..|table|-1], cursor) + if cursor.None? || Newer(cursor.value, k) then [k] else []
  }

  /** The query behind the cursor, in listing order. */
  function Listing(table: seq<Key>, cursor: Option<Key>): seq<Key> {
    Sort(Behind(table, cursor), Newer)
  }

  ghost predicate Descending(s: seq<Key>) {
    forall i, j :: 0 <= i < j < |s| ==> Newer(s[i], s[j])
  }

  lemma NewerIsTotal()
    ensures StrictWeakOrder(Newer)
    ensures forall a, b :: a != b ==> Newer(a, b) || Newer(b, a)
  {
  }

  lemma {:induction false} BehindHas(table: seq<Key>, cursor: Option<Key>)
    requires Distinct(table)
    ensures forall k :: k in Behind(table, cursor) <==> k in table && (cursor.None? || Newer(cursor.value, k))
    ensures Distinct(Behind(table, cursor))
  {
    if table != [] {
      var init, last := table[..|table|-1], table[|table|-1];
      BehindHas(init, cursor);
      assert last !in init;
    }
  }

  /** The listing is the rows behind the cursor, each once, newest first. */
  lemma ListingIs(table: seq<Key>, cursor: Option<Key>)
    requires Distinct(table)
    ensures Descending(Listing(table, cursor))
    ensures forall k :: k in Listing(table, cursor) <==> k in table && (cursor.None? || Newer(cursor.value, k))
  {
    hide Behind, Newer;
    var rows, sorted := Behind(table, cursor), Listing(table, cursor);
    BehindHas(table, cursor);
    NewerIsTotal();
    SortOrders(rows, Newer);
    var itself := (k: Key) => k;
    assert DistinctBy(rows, itself);
    PermutationKeepsDistinct(rows, sorted, itself);
    forall i, j | 0 <= i < j < |sorted| ensures Newer(sorted[i], sorted[j]) {
      assert itself(sorted[i]) != itself(sorted[j]);
    }
    forall k ensures k in sorted <==> k in rows {
      assert k in multiset(sorted) <==> k in multiset(rows);
    }
  }

  // ---- the code ---------------------------------------------------------------------------

  /** The row is listed behind the cursor: older, or as old with the smaller id. */
  ghost predicate IsBehind(cursor: Option<Key>, k: Key) {
    cursor.Some? ==>
      k.created < cursor.value.created || (k.created == cursor.value.created && k.id < cursor.value.id)
  }

  /**
   A page: rows behind the cursor, newest first and by falling id among equally new ones, at
   most the limit; what is behind the cursor and not on it is behind all of it, and there is
   such a row exactly if the page says so.
   */
  ghost predicate IsPage(table: seq<Key>, limit: nat, cursor: Option<Key>, rows: seq<Key>, hasMore: bool) {
    && |rows| <= limit && (hasMore ==> |rows| == limit)
    && (forall i, j :: 0 <= i < j < |rows| ==> IsBehind(Some(rows[i]), rows[j]))
    && (forall k :: k in rows ==> k in table && IsBehind(cursor, k))
    && (forall k, r :: k in table && IsBehind(cursor, k) && k !in rows && r in rows ==> IsBehind(Some(r), k))
    && (hasMore <==> exists k :: k in table && IsBehind(cursor, k) && k !in rows)
  }

  /** The listing in terms of the cursor's order. */
  lemma ListingIsBehind(table: seq<Key>, cursor: Option<Key>)
    requires Distinct(table)
    ensures var listing := Listing(table, cursor);
      && (forall i, j :: 0 <= i < j < |listing| ==> IsBehind(Some(listing[i]), listing[j]) && listing[i] != listing[j])
      && (forall k :: k in listing <==> k in table && IsBehind(cursor, k))
  {
    hide Listing;
    ListingIs(table, cursor);
    var listing := Listing(table, cursor);
    forall i, j | 0 <= i < j < |listing| ensures IsBehind(Some(listing[i]), listing[j]) && listing[i] != listing[j] {
      assert Newer(listing[i], listing[j]);
    }
  }

  /** What a page leaves out of its listing is behind all of it. */
  lemma RestIsBehind(listing: seq<Key>, n: nat, k: Key, r: Key)
    requires forall i, j :: 0 <= i < j < |listing| ==> IsBehind(Some(listing[i]), listing[j])
    requires n <= |listing| && k in listing && k !in listing[..n] && r in listing[..n]
    ensures IsBehind(Some(r), k)
  {
    hide IsBehind;
    assert forall x :: 0 <= x < n ==> listing[..n][x] == listing[x] && listing[x] in listing[..n];
    var p :| 0 <= p < |listing| && listing[p] == k;
    var q :| 0 <= q < n && listing[..n][q] == r;
  }

  lemma PageIs(table: seq<Key>, limit: nat, cursor: Option<Key>)
    requires Distinct(table)
    ensures var listing := Listing(table, cursor);
      IsPage(table, limit, cursor, if |listing| > limit then listing[..limit] else listing, |listing| > limit)
  {
    hide Listing, IsBehind;
    ListingIsBehind(table, cursor);
    var listing := Listing(table, cursor);
    var n := if |listing| > limit then limit else |listing|;
    var rows := listing[..n];
    forall k, r | k in table && IsBehind(cursor, k) && k !in rows && r in rows ensures IsBehind(Some(r), k) {
      RestIsBehind(listing, n, k, r);
    }
    if |listing| > limit {
      assert listing[limit] in listing;
    }
    assert |listing| <= limit ==> rows == listing;
  }

  /** A repository `list`: limit+1 rows are read to see whether there are more. */
  method ListPage(table: seq<Key>, limit: nat, cursor: Option<Key>) returns (rows: seq<Key>, hasMore: bool)
    ensures Distinct(table) ==> IsPage(table, limit, cursor, rows, hasMore)
    ensures hasMore == (|Listing(table, cursor)| > limit)
    ensures rows == if hasMore then Listing(table, cursor)[..limit] else Listing(table, cursor)
  {
    hide Listing, IsPage, IsBehind, Distinct;
    var listing := Listing(table, cursor);
    var fetched := if |listing| > limit + 1 then listing[..limit+1] else listing;
    hasMore := |fetched| > limit;
    rows := if hasMore then fetched[..limit] else fetched;
    assert rows == if |listing| > limit then listing[..limit] else listing;
    if Distinct(table) {
      PageIs(table, limit, cursor);
    }
  }

  /** `next_cursor` */
  function NextCursor(codec: Codec, rows: seq<Key>, hasMore: bool): Option<string> {
    if !hasMore || rows == [] then None else Some(codec.encode(rows[|rows|-1]))
  }

  /** Row `k` stayed in the table through the first `n` page reads. */
  ghost predicate Throughout(tables: seq<seq<Key>>, n: nat, k: Key) {
    forall i :: 0 <= i < n && i < |tables| ==> k in tables[i]
  }

  /** Row `k` was in one of the first `n` snapshots. */
  ghost predicate WasSeen(tables: seq<seq<Key>>, n: nat, k: Key) {
    exists i :: 0 <= i < n && i < |tables| && k in tables[i]
  }

  /** What is returned is in order and was read from the pages' snapshots. */
  ghost predicate Sound(tables: seq<seq<Key>>, n: nat, returned: seq<Key>) {
    Descending(returned) && forall k :: k in returned ==> WasSeen(tables, n, k)
  }

  /** Every row present throughout has been returned. */
  ghost predicate Complete(tables: seq<seq<Key>>, n: nat, returned: seq<Key>) {
    forall k :: Throughout(tables, n, k) ==> k in returned
  }

  /** Between two pages: the cursor is the last row returned, and nothing down to it was missed. */
  ghost predicate WalkInv(tables: seq<seq<Key>>, n: nat, cursor: Option<Key>, returned: seq<Key>) {
    && Sound(tables, n, returned)
    && (cursor.None? ==> returned == [])
    && (cursor.Some? ==> returned != [] && returned[|returned|-1] == cursor.value)
    && (cursor.Some? ==> forall k :: Throughout(tables, n, k) && !Newer(cursor.value, k) ==> k in returned)
  }

  /** One more page keeps the order. */
  lemma PageStep(tables: seq<seq<Key>>, n: nat, cursor: Option<Key>, returned: seq<Key>, rows: seq<Key>)
    requires n < |tables| && Distinct(tables[n]) && WalkInv(tables, n, cursor, returned)
    requires rows <= Listing(tables[n], cursor)
    ensures Sound(tables, n + 1, returned + rows)
  {
    hide Throughout;
    ListingIs(tables[n], cursor);
    var listing := Listing(tables[n], cursor);
    var all := returned + rows;
    forall i, j | 0 <= i < j < |all| ensures Newer(all[i], all[j]) {
      if i < |returned| <= j {
        assert all[j] in listing;
        assert cursor.Some? && Newer(cursor.value, all[j]);
        assert i < |returned| - 1 ==> Newer(returned[i], returned[|returned|-1]);
      }
    }
    forall k | k in all ensures WasSeen(tables, n + 1, k) {
      if k in rows {
        assert k in listing;
        assert k in tables[n];
      } else {
        assert WasSeen(tables, n, k);
        var i :| 0 <= i < n && i < |tables| && k in tables[i];
      }
    }
  }

  /** A row present throughout and not behind the page's last row has been returned. */
  lemma PageComplete(tables: seq<seq<Key>>, n: nat, cursor: Option<Key>, returned: seq<Key>, size: nat, k: Key)
    requires n < |tables| && Distinct(tables[n]) && WalkInv(tables, n, cursor, returned)
    requires size <= |Listing(tables[n], cursor)|
    requires Throughout(tables, n + 1, k)
    requires size == |Listing(tables[n], cursor)| || (size > 0 && !Newer(Listing(tables[n], cursor)[size-1], k))
    ensures k in returned + Listing(tables[n], cursor)[..size]
  {
    hide Sound;
    var listing := Listing(tables[n], cursor);
    ListingIs(tables[n], cursor);
    assert Throughout(tables, n, k);
    if cursor.None? || Newer(cursor.value, k) {
      assert k in tables[n];
      var p :| 0 <= p < |listing| && listing[p] == k;
      assert p < size ==> listing[..size][p] == k;
    }
  }

  lemma LastPage(tables: seq<seq<Key>>, n: nat, cursor: Option<Key>, returned: seq<Key>)
    requires n < |tables| && Distinct(tables[n]) && WalkInv(tables, n, cursor, returned)
    ensures Complete(tables, n + 1, returned + Listing(tables[n], cursor))
  {
    hide WalkInv, Listing, Throughout;
    var listing := Listing(tables[n], cursor);
    assert listing[..|listing|] == listing;
    forall k | Throughout(tables, n + 1, k) ensures k in returned + listing {
      PageComplete(tables, n, cursor, returned, |listing|, k);
    }
  }

  lemma FullPage(tables: seq<seq<Key>>, n: nat, cursor: Option<Key>, returned: seq<Key>, limit: nat)
    requires n < |tables| && Distinct(tables[n]) && WalkInv(tables, n, cursor, returned)
    requires 1 <= limit < |Listing(tables[n], cursor)|
    ensures WalkInv(tables, n + 1, Some(Listing(tables[n], cursor)[limit-1]),
                    returned + Listing(tables[n], cursor)[..limit])
  {
    hide Listing, Throughout, Sound;
    var rows := Listing(tables[n], cursor)[..limit];
    PageStep(tables, n, cursor, returned, rows);
    forall k | Throughout(tables, n + 1, k) && !Newer(rows[limit-1], k) ensures k in returned + rows {
      PageComplete(tables, n, cursor, returned, limit, k);
    }
  }

  /**
   Following `next_cursor` page by page, page `i` being read from snapshot `i`. The
   walk is finished when a page has no successor; it may also run out of snapshots.
   Rows come newest first and none twice; a finished walk returned every row that was
   there throughout.
   */
  method Walk(tables: seq<seq<Key>>, limit: nat, codec: Codec) returns (returned: seq<Key>, finished: bool, pages: nat)
    requires limit >= 1 && Inverse(codec)
    requires forall i :: 0 <= i < |tables| ==> Distinct(tables[i])
    ensures pages <= |tables| && (finished || pages == |tables|)
    ensures forall i, j :: 0 <= i < j < |returned| ==> IsBehind(Some(returned[i]), returned[j])
    ensures Sound(tables, pages, returned)
    ensures finished ==> pages > 0 && Complete(tables, pages, returned)
    ensures !finished ==> |returned| == pages * limit
  {
    hide WalkInv, Listing, Sound, Complete, Newer, IsPage, IsBehind;
    returned, finished, pages := [], false, 0;
    var cursor: Option<Key> := None;
    WalkStart(tables);
    while pages < |tables| && !finished
      invariant pages <= |tables|
      invariant !finished ==> WalkInv(tables, pages, cursor, returned) && |returned| == pages * limit
      invariant Sound(tables, pages, returned)
      invariant finished ==> pages > 0 && Complete(tables, pages, returned)
      decreases |tables| - pages
    {
      var rows, hasMore := ListPage(tables[pages], limit, cursor);
      PageStep(tables, pages, cursor, returned, rows);
      var next := NextCursor(codec, rows, hasMore);
      if next.None? {
        LastPage(tables, pages, cursor, returned);
        finished := true;
      } else {
        FullPage(tables, pages, cursor, returned, limit);
        cursor := codec.decode(next.value);
      }
      returned := returned + rows;
      pages := pages + 1;
    }
    SoundIsBehind(tables, pages, returned);
  }

  lemma SoundIsBehind(tables: seq<seq<Key>>, n: nat, returned: seq<Key>)
    requires Sound(tables, n, returned)
    ensures forall i, j :: 0 <= i < j < |returned| ==> IsBehind(Some(returned[i]), returned[j])
  {
    forall i, j | 0 <= i < j < |returned| ensures IsBehind(Some(returned[i]), returned[j]) {
      assert Newer(returned[i], returned[j]);
    }
  }

  lemma WalkStart(tables: seq<seq<Key>>)
    ensures WalkInv(tables, 0, None, []) && Sound(tables, 0, [])
  {
  }

  /** Strictly descending lists with the same elements are equal. */
  lemma {:induction false} DescendingUnique(s: seq<Key>, t: seq<Key>)
    requires Descending(s) && Descending(t) && forall k :: k in s <==> k in t
    ensures s == t
  {
    var first := if s != [] then s[0] else if t != [] then t[0] else Key(0, 0);
    assert first in s <==> first in t;
    if s != [] && t != [] {
      assert t[0] in s && s[0] in t;
      assert s[0] == t[0];
      var s', t' := s[1..], t[1..];
      forall k ensures k in s' <==> k in t' {
        assert k in s <==> k in s' || k == s[0];
        assert k in t <==> k in t' || k == t[0];
      }
      DescendingUnique(s', t');
      assert s == [s[0]] + s' && t == [t[0]] + t';
    }
  }

  /** Over an unchanging table the pages concatenate to the whole listing. */
  method WalkStatic(table: seq<Key>, limit: nat, codec: Codec) returns (returned: seq<Key>)
    requires limit >= 1 && Inverse(codec) && Distinct(table)
    ensures returned == Listing(table, None)
  {
    hide Listing;
    var tables := seq(|table| + 1, _ => table);
    var finished, pages;
    returned, finished, pages := Walk(tables, limit, codec);
    ListingIs(table, None);
    assert forall k :: k in table ==> Throughout(tables, pages, k);
    forall k | k in returned ensures k in table {
      assert WasSeen(tables, pages, k);
    }
    NotMoreThanTable(table, returned);
    AtLeast(pages, limit);
    DescendingUnique(returned, Listing(table, None));
  }

  lemma AtLeast(pages: nat, limit: nat)
    requires limit >= 1
    ensures pages * limit >= pages
  {
  }

  lemma {:induction false} NotMoreThanTable(table: seq<Key>, returned: seq<Key>)
    requires Descending(returned) && forall k :: k in returned ==> k in table
    ensures |returned| <= |table|
  {
    if returned != [] {
      var k := returned[0];
      assert k in returned;
      var p :| 0 <= p < |table| && table[p] == k;
      var rest := table[..p] + table[p+1..];
      forall x | x in returned[1..] ensures x in rest {
        assert Newer(k, x);
        assert x in table;
        var q :| 0 <= q < |table| && table[q] == x;
        assert q != p;
        assert rest[if q < p then q else q - 1] == x;
      }
      NotMoreThanTable(rest, returned[1..]);
    }
  }
}
