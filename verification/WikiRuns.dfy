/**
 Concurrent distills over the wiki store (app/services/wiki_service.py). A distill reads
 the page, asks the model to merge with no lock held, then writes in one transaction that
 checks the version it read, and indexes vectors after the commit. Events of any number of
 distills interleave in any order; every distill may also be given up at any point, and
 vector writes may be late, repeated or never happen.
 */
module WikiRuns {
  import opened Common
  import opened WikiStore

  /** `merges(source, base, content)`: the model may answer `content` for that prompt. */
  type Merges = (nat, string, string) -> bool

  // ---- one page ---------------------------------------------------------------------------

  function BaseOf(rows: seq<Revision>, i: nat): string
    requires i < |rows|
  {
    if i == 0 then "" else rows[i-1].content
  }

  /** Revision `i` has version `i + 1` and was merged from the content of the one before. */
  ghost predicate Link(merges: Merges, rows: seq<Revision>, i: nat)
    requires i < |rows|
  {
    rows[i].version == i + 1 && merges(rows[i].source, BaseOf(rows, i), rows[i].content)
  }

  ghost predicate Chained(merges: Merges, rows: seq<Revision>) {
    forall i: nat :: i < |rows| ==> Link(merges, rows, i)
  }

  lemma {:induction false} HighestIsLast(merges: Merges, rows: seq<Revision>)
    requires Chained(merges, rows) && rows != []
    ensures Highest(rows) == Some(rows[|rows|-1])
  {
    assert Link(merges, rows, |rows| - 1);
    if |rows| > 1 {
      var init := rows[..|rows|-1];
      forall i: nat | i < |init| ensures Link(merges, init, i) {
        assert Link(merges, rows, i);
      }
      assert Link(merges, init, |init| - 1);
      HighestIsLast(merges, init);
    }
  }

  lemma ChainGrows(merges: Merges, rows: seq<Revision>, r: Revision)
    requires Chained(merges, rows) && r.version == |rows| + 1
    requires merges(r.source, if rows == [] then "" else rows[|rows|-1].content, r.content)
    ensures Chained(merges, rows + [r])
  {
    var all := rows + [r];
    forall i: nat | i < |all| ensures Link(merges, all, i) {
      if i < |rows| {
        assert Link(merges, rows, i) && BaseOf(all, i) == BaseOf(rows, i);
      }
    }
  }

  lemma RevisionsGrow(revisions: seq<Revision>, r: Revision, page: nat)
    ensures RevisionsOf(revisions + [r], page) == RevisionsOf(revisions, page) + if r.page == page then [r] else []
  {
    assert (revisions + [r])[..|revisions|] == revisions;
  }

  lemma {:induction false} NoRevisions(revisions: seq<Revision>, page: nat)
    requires forall i :: 0 <= i < |revisions| ==> revisions[i].page != page
    ensures RevisionsOf(revisions, page) == []
  {
    if revisions != [] {
      NoRevisions(revisions[..|revisions|-1], page);
    }
  }

  /** The revisions of a page and what the page row says of them. */
  ghost predicate HistorySound(merges: Merges, t: Tables, p: nat)
    requires p < |t.pages|
  {
    var rows := RevisionsOf(t.revisions, p);
    rows != [] && Chained(merges, rows) && t.pages[p].revisionCount == |rows|
  }

  /** Document `d` with chunk `c` is all that is live of page `p`, and both hold `content`. */
  ghost predicate OnlyShadow(documents: seq<Document>, chunks: seq<Chunk>, p: nat, d: nat, c: nat, content: string) {
    && d < |documents| && documents[d] == Document(p, content, false)
    && c < |chunks| && chunks[c] == Chunk(d, content, false)
    && (forall e :: 0 <= e < |documents| && documents[e].page == p && !documents[e].deleted ==> e == d)
    && (forall e :: 0 <= e < |chunks| && chunks[e].document == d && !chunks[e].deleted ==> e == c)
  }

  ghost predicate OneShadow(t: Tables, p: nat, content: string) {
    exists d: nat, c: nat :: OnlyShadow(t.documents, t.chunks, p, d, c, content)
  }

  ghost predicate NoShadow(t: Tables, p: nat) {
    forall e :: 0 <= e < |t.documents| && t.documents[e].page == p ==> t.documents[e].deleted
  }

  // ---- all pages --------------------------------------------------------------------------

  /** Foreign keys, and the unique index on slugs. */
  ghost predicate Linked(t: Tables) {
    && (forall i :: 0 <= i < |t.revisions| ==> t.revisions[i].page < |t.pages|)
    && (forall d :: 0 <= d < |t.documents| ==> t.documents[d].page < |t.pages|)
    && (forall c :: 0 <= c < |t.chunks| ==> t.chunks[c].document < |t.documents|)
    && (forall p, q :: 0 <= p < q < |t.pages| ==> t.pages[p].slug != t.pages[q].slug)
  }

  /** A live chunk belongs to a live document. */
  ghost predicate ChunksFollow(t: Tables) {
    forall c :: 0 <= c < |t.chunks| && !t.chunks[c].deleted && t.chunks[c].document < |t.documents| ==>
      !t.documents[t.chunks[c].document].deleted
  }

  ghost predicate PageSound(merges: Merges, t: Tables, p: nat)
    requires p < |t.pages|
  {
    HistorySound(merges, t, p) &&
    OneShadow(t, p, Latest(t, p))
  }

  function Latest(t: Tables, p: nat): string {
    var rows := RevisionsOf(t.revisions, p);
    if rows == [] then "" else rows[|rows|-1].content
  }

  ghost predicate Sound(merges: Merges, t: Tables) {
    Linked(t) && ChunksFollow(t) && forall p: nat :: p < |t.pages| ==> PageSound(merges, t, p)
  }

  // ---- indexing ---------------------------------------------------------------------------

  /** The marks `Index` leaves: the old chunks are dead, the new one is alive and new. */
  ghost predicate PlanFits(t: Tables, plan: Plan) {
    && plan.chunk < |t.chunks|
    && forall c: nat :: c in plan.oldChunks ==> c < |t.chunks| && t.chunks[c].deleted
  }

  lemma ShadowIs(t: Tables, page: nat, d: nat, c: nat, content: string)
    requires OnlyShadow(t.documents, t.chunks, page, d, c, content)
    ensures ShadowOf(t.documents, page) == Some(d)
  {
  }

  lemma IndexKeepsLinks(t: Tables, page: nat, content: string)
    requires page < |t.pages| && Linked(t) && ChunksFollow(t)
    requires Index(t, page, content).Done?
    ensures var (t', plan) := Index(t, page, content).value;
      t' == t.(documents := t'.documents, chunks := t'.chunks) && Linked(t') && ChunksFollow(t') && PlanFits(t', plan)
  {
    hide HasContent, ShadowOf;
  }

  /** `_index_db` leaves the page with one live document and chunk, holding the new content. */
  lemma IndexReplaces(t: Tables, page: nat, content: string, before: string)
    requires Linked(t) && (NoShadow(t, page) || OneShadow(t, page, before))
    requires Index(t, page, content).Done?
    ensures OneShadow(Index(t, page, content).value.0, page, content)
  {
    hide HasContent, ShadowOf;
    var t' := Index(t, page, content).value.0;
    if OneShadow(t, page, before) {
      var d0: nat, c0: nat :| OnlyShadow(t.documents, t.chunks, page, d0, c0, before);
      ShadowIs(t, page, d0, c0, before);
    }
    assert OnlyShadow(t'.documents, t'.chunks, page, |t.documents|, |t.chunks|, content);
  }

  /** Other pages keep theirs. */
  lemma IndexLeavesOthers(t: Tables, page: nat, content: string, q: nat, theirs: string)
    requires Linked(t) && q != page && OneShadow(t, q, theirs)
    requires Index(t, page, content).Done?
    ensures OneShadow(Index(t, page, content).value.0, q, theirs)
  {
    var t' := Index(t, page, content).value.0;
    var d: nat, c: nat :| OnlyShadow(t.documents, t.chunks, q, d, c, theirs);
    assert OnlyShadow(t'.documents, t'.chunks, q, d, c, theirs);
  }

  // ---- transactions -----------------------------------------------------------------------

  /** The revision row and page row of a transaction, before indexing. */
  ghost predicate Recorded(t: Tables, t1: Tables, r: Revision, page: Page) {
    && r.page <= |t.pages| && r.page < |t1.pages|
    && t1 == t.(revisions := t.revisions + [r], pages := t1.pages)
    && |t1.pages| == (if r.page < |t.pages| then |t.pages| else |t.pages| + 1)
    && t1.pages[r.page] == page
    && (forall q :: 0 <= q < |t.pages| && q != r.page ==> t1.pages[q] == t.pages[q])
    && (r.page < |t.pages| ==> page.slug == t.pages[r.page].slug)
    && (r.page == |t.pages| ==> forall q :: 0 <= q < |t.pages| ==> t.pages[q].slug != page.slug)
  }

  lemma RecordKeepsLinks(t: Tables, t1: Tables, r: Revision, page: Page)
    requires Linked(t) && ChunksFollow(t) && Recorded(t, t1, r, page)
    ensures Linked(t1) && ChunksFollow(t1)
  {
  }

  lemma RecordKeepsHistory(merges: Merges, t: Tables, t1: Tables, r: Revision, page: Page, q: nat)
    requires Linked(t) && Recorded(t, t1, r, page) && q < |t1.pages|
    requires q < |t.pages| ==> HistorySound(merges, t, q)
    requires r.version == |RevisionsOf(t.revisions, r.page)| + 1 == page.revisionCount
    requires merges(r.source, Latest(t, r.page), r.content)
    ensures HistorySound(merges, t1, q)
    ensures Latest(t1, q) == if q == r.page then r.content else Latest(t, q)
  {
    hide Link;
    var rows := RevisionsOf(t.revisions, q);
    RevisionsGrow(t.revisions, r, q);
    if q == r.page {
      if q == |t.pages| {
        NoRevisions(t.revisions, q);
      }
      ChainGrows(merges, rows, r);
    } else {
      assert rows + [] == rows;
    }
  }

  lemma PageStaysSound(merges: Merges, t: Tables, t1: Tables, r: Revision, page: Page, q: nat)
    requires Sound(merges, t) && Recorded(t, t1, r, page) && q < |t1.pages|
    requires r.version == |RevisionsOf(t.revisions, r.page)| + 1 == page.revisionCount
    requires merges(r.source, Latest(t, r.page), r.content)
    requires Linked(t1) && Index(t1, r.page, r.content).Done?
    ensures var t' := Index(t1, r.page, r.content).value.0;
      t'.pages == t1.pages && t'.revisions == t1.revisions && PageSound(merges, t', q)
  {
    hide Link, Highest, Chained, HasContent, ShadowOf;
    if q < |t.pages| {
      assert PageSound(merges, t, q);
    }
    RecordKeepsHistory(merges, t, t1, r, page, q);
    var t' := Index(t1, r.page, r.content).value.0;
    assert HistorySound(merges, t', q) && Latest(t', q) == Latest(t1, q);
    if q != r.page {
      assert OneShadow(t1, q, Latest(t, q));
      IndexLeavesOthers(t1, r.page, r.content, q, Latest(t, q));
    } else {
      if q < |t.pages| {
        assert OneShadow(t1, q, Latest(t, q));
      } else {
        assert NoShadow(t1, q);
      }
      IndexReplaces(t1, r.page, r.content, Latest(t, q));
    }
  }

  /** A transaction that records a revision merged from the latest one keeps everything sound. */
  lemma TransactionKeepsSound(merges: Merges, t: Tables, t1: Tables, r: Revision, page: Page)
    requires Sound(merges, t) && Recorded(t, t1, r, page)
    requires r.version == |RevisionsOf(t.revisions, r.page)| + 1 == page.revisionCount
    requires merges(r.source, Latest(t, r.page), r.content)
    requires Index(t1, r.page, r.content).Done?
    ensures Sound(merges, Index(t1, r.page, r.content).value.0)
  {
    hide Recorded, PageSound, Latest, RevisionsOf, Index;
    RecordKeepsLinks(t, t1, r, page);
    RecordNames(t, t1, r, page);
    IndexKeepsLinks(t1, r.page, r.content);
    var t' := Index(t1, r.page, r.content).value.0;
    forall q: nat | q < |t'.pages| ensures PageSound(merges, t', q) {
      PageStaysSound(merges, t, t1, r, page, q);
    }
  }

  lemma RecordNames(t: Tables, t1: Tables, r: Revision, page: Page)
    requires Recorded(t, t1, r, page)
    ensures r.page < |t1.pages|
  {
  }

  lemma CurrentIs(merges: Merges, t: Tables, p: nat)
    requires Sound(merges, t) && p < |t.pages|
    ensures var rows := RevisionsOf(t.revisions, p);
      && rows != [] && Highest(rows) == Some(rows[|rows|-1]) && rows[|rows|-1].version == |rows|
      && CurrentVersion(t.revisions, p) == |rows| == t.pages[p].revisionCount
  {
    hide OneShadow, Linked, ChunksFollow;
    assert PageSound(merges, t, p);
    var rows := RevisionsOf(t.revisions, p);
    HighestIsLast(merges, rows);
    assert Link(merges, rows, |rows| - 1);
  }

  /** An append whose text was merged from the latest revision keeps the store sound. */
  lemma AppendKeepsSound(merges: Merges, t: Tables, page: nat, title: string, content: string, source: nat,
                         expected: nat)
    requires Sound(merges, t) && page < |t.pages| && merges(source, Latest(t, page), content)
    requires Append(t, page, title, content, source, expected).Done?
    ensures Sound(merges, Append(t, page, title, content, source, expected).value.0)
  {
    hide PageSound, Index, ChunksFollow, RevisionsOf, Latest;
    CurrentIs(merges, t, page);
    var version := CurrentVersion(t.revisions, page) + 1;
    var row := t.pages[page].(title := title, revisionCount := version);
    var r := Revision(page, version, content, source);
    var t1 := t.(revisions := t.revisions + [r], pages := t.pages[page := row]);
    TransactionKeepsSound(merges, t, t1, r, row);
  }

  lemma CreateKeepsSound(merges: Merges, t: Tables, slug: string, title: string, content: string, source: nat)
    requires Sound(merges, t) && merges(source, "", content)
    requires Create(t, slug, title, content, source).Done?
    ensures Sound(merges, Create(t, slug, title, content, source).value.0)
  {
    hide PageSound, Index, ChunksFollow;
    var page := |t.pages|;
    NoRevisions(t.revisions, page);
    var row := Page(slug, title, 1);
    var r := Revision(page, 1, content, source);
    var t1 := t.(revisions := t.revisions + [r], pages := t.pages + [row]);
    TransactionKeepsSound(merges, t, t1, r, row);
  }
}
