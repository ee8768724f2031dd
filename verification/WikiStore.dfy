/**
 The wiki tables and the transactions on them: app/services/wiki_service.py over
 app/storage/postgres/repositories/wiki.py, document.py and chunk.py, for one knowledge
 base. Ids are positions in the tables, which only grow: rows are deleted by a mark.
 Every transaction is one atomic step; a failing one leaves the tables as they were.
 */
module WikiStore {
  import opened Common

  datatype Page = Page(slug: string, title: string, revisionCount: nat)
  datatype Revision = Revision(page: nat, version: nat, content: string, source: nat)
  /** A shadow document: source type wiki, status READY from the start. */
  datatype Document = Document(page: nat, content: string, deleted: bool)
  datatype Chunk = Chunk(document: nat, text: string, deleted: bool)

  datatype Tables = Tables(pages: seq<Page>, revisions: seq<Revision>, documents: seq<Document>, chunks: seq<Chunk>)

  /** The vector half of a committed transaction, `_IndexPlan`. */
  datatype Plan = Plan(oldChunks: set<nat>, chunk: nat)

  /** What a distill read before its merge: `_load_existing_revision`. */
  datatype Base = Base(page: nat, title: string, content: string, version: nat)

  /** 409 for a changed page or a taken slug; the unique content index raises unconverted. */
  datatype Failure = Conflict | DuplicateContent
  datatype Result<T> = Done(value: T) | Failed(failure: Failure)

  // ---- queries ------------------------------------------------------------------------------

  /** `get_published_by_slug` */
  function PageOf(pages: seq<Page>, slug: string): (p: Option<nat>)
    ensures p.Some? ==> p.value < |pages| && pages[p.value].slug == slug
    ensures p.None? <==> forall q :: 0 <= q < |pages| ==> pages[q].slug != slug
  {
    if pages == [] then None
    else if pages[|pages|-1].slug == slug then Some(|pages|-1)
    else PageOf(pages[..|pages|-1], slug)
  }

  /** The revision rows of a page, oldest insertion first. */
  function RevisionsOf(revisions: seq<Revision>, page: nat): seq<Revision> {
    if revisions == [] then []
    else
      var r := revisions[|revisions|-1];
      RevisionsOf(revisions[..|revisions|-1], page) + if r.page == page then [r] else []
  }

  /** `get_latest`: the row with the highest version. */
  function Highest(rows: seq<Revision>): Option<Revision> {
    if rows == [] then None
    else
      var before, r := Highest(rows[..|rows|-1]), rows[|rows|-1];
      if before.Some? && before.value.version >= r.version then before else Some(r)
  }

  /** The row is of the page and no row of the page has a higher version. */
  ghost predicate IsLatestRow(revisions: seq<Revision>, page: nat, r: Revision) {
    r in revisions && r.page == page && forall o :: o in revisions && o.page == page ==> o.version <= r.version
  }

  lemma {:induction false} RevisionsOfAre(revisions: seq<Revision>, page: nat)
    ensures forall r :: r in RevisionsOf(revisions, page) <==> r in revisions && r.page == page
  {
    if revisions != [] {
      RevisionsOfAre(revisions[..|revisions|-1], page);
    }
  }

  lemma {:induction false} HighestIs(rows: seq<Revision>)
    ensures rows == [] <==> Highest(rows).None?
    ensures rows != [] ==> Highest(rows).value in rows && forall o :: o in rows ==>
        o.version <= Highest(rows).value.version
  {
    if rows != [] {
      HighestIs(rows[..|rows|-1]);
    }
  }

  /** `get_latest` gives a latest row, and none exactly if the page has no rows. */
  lemma LatestRowIs(revisions: seq<Revision>, page: nat)
    ensures var latest := Highest(RevisionsOf(revisions, page));
      && (latest.Some? ==> IsLatestRow(revisions, page, latest.value))
      && (latest.None? ==> forall r :: r in revisions ==> r.page != page)
  {
    hide RevisionsOf, Highest;
    RevisionsOfAre(revisions, page);
    HighestIs(RevisionsOf(revisions, page));
  }

  function CurrentVersion(revisions: seq<Revision>, page: nat): nat {
    var latest := Highest(RevisionsOf(revisions, page));
    if latest.Some? then latest.value.version else 0
  }

  /** `get_by_wiki_page`: the newest live shadow document of the page. */
  function ShadowOf(documents: seq<Document>, page: nat): (d: Option<nat>)
    ensures d.Some? ==> d.value < |documents| && documents[d.value].page == page && !documents[d.value].deleted
    ensures d.Some? ==> forall e :: d.value < e < |documents| && documents[e].page == page ==> documents[e].deleted
    ensures d.None? ==> forall e :: 0 <= e < |documents| && documents[e].page == page ==> documents[e].deleted
  {
    if documents == [] then None
    else
      var last := documents[|documents|-1];
      if last.page == page && !last.deleted then Some(|documents|-1)
      else ShadowOf(documents[..|documents|-1], page)
  }

  function LiveChunks(chunks: seq<Chunk>, document: nat): set<nat> {
    set c: nat | c < |chunks| && chunks[c].document == document && !chunks[c].deleted
  }

  /** `soft_delete_by_document` */
  function Retired(chunks: seq<Chunk>, document: nat): seq<Chunk> {
    seq(|chunks|, c requires 0 <= c < |chunks| =>
      if chunks[c].document == document then chunks[c].(deleted := true) else chunks[c])
  }

  predicate HasContent(documents: seq<Document>, content: string) {
    exists d :: 0 <= d < |documents| && !documents[d].deleted && documents[d].content == content
  }

  // ---- what the transactions do ---------------------------------------------------------------

  /** `_index_db`: retire the page's shadow document, create the next one with its single chunk. */
  function Index(t: Tables, page: nat, content: string): Result<(Tables, Plan)> {
    var shadow := ShadowOf(t.documents, page);
    var oldChunks := if shadow.Some? then LiveChunks(t.chunks, shadow.value) else {};
    var documents :=
      if shadow.Some? then t.documents[shadow.value := t.documents[shadow.value].(deleted := true)] else t.documents;
    var chunks := if shadow.Some? then Retired(t.chunks, shadow.value) else t.chunks;
    if HasContent(documents, content) then Failed(DuplicateContent)
    else Done((
      t.(documents := documents + [Document(page, content, false)],
         chunks := chunks + [Chunk(|documents|, content, false)]),
      Plan(oldChunks, |chunks|)))
  }

  /** `_append_revision` */
  function Append(t: Tables, page: nat, title: string, content: string, source: nat, expected: nat):
    Result<(Tables, Plan)>
    requires page < |t.pages|
  {
    if CurrentVersion(t.revisions, page) != expected then Failed(Conflict)
    else
      var version := CurrentVersion(t.revisions, page) + 1;
      Index(t.(revisions := t.revisions + [Revision(page, version, content, source)],
               pages := t.pages[page := t.pages[page].(title := title, revisionCount := version)]),
            page, content)
  }

  /** `_create_page` */
  function Create(t: Tables, slug: string, title: string, content: string, source: nat): Result<(Tables, Plan)> {
    if PageOf(t.pages, slug).Some? then Failed(Conflict)
    else
      Index(t.(revisions := t.revisions + [Revision(|t.pages|, 1, content, source)],
               pages := t.pages + [Page(slug, title, 1)]),
            |t.pages|, content)
  }

  /** `_load_existing_revision` */
  function Existing(t: Tables, slug: string): Option<Base> {
    var page := PageOf(t.pages, slug);
    if page.None? then None
    else
      var latest := Highest(RevisionsOf(t.revisions, page.value));
      var title := t.pages[page.value].title;
      if latest.None? then Some(Base(page.value, title, "", 0))
      else Some(Base(page.value, title, latest.value.content, latest.value.version))
  }

  /** `load_rows`: of the candidates, the live chunks of live READY documents. */
  function Served(t: Tables, candidates: set<nat>): set<nat> {
    set c | c in candidates && c < |t.chunks| && !t.chunks[c].deleted &&
            t.chunks[c].document < |t.documents| && !t.documents[t.chunks[c].document].deleted
  }

  // ---- the store ------------------------------------------------------------------------------

  class Store {
    var pages: seq<Page>
    var revisions: seq<Revision>
    var documents: seq<Document>
    var chunks: seq<Chunk>
    var points: set<nat>

    ghost function Value(): Tables
      reads this
    {
      Tables(pages, revisions, documents, chunks)
    }

    constructor ()
      ensures Value() == Tables([], [], [], []) && points == {}
    {
      pages, revisions, documents, chunks, points := [], [], [], [], {};
    }

    /** The page with the slug, its title, and the content and version of a revision of it that none exceeds. */
    method LoadExistingRevision(slug: string) returns (base: Option<Base>)
      ensures base.None? <==> forall p :: 0 <= p < |pages| ==> pages[p].slug != slug
      ensures base.Some? ==>
        && base.value.page < |pages|
        && pages[base.value.page].slug == slug && pages[base.value.page].title == base.value.title
      ensures base.Some? ==>
        || (exists r :: IsLatestRow(revisions, base.value.page, r) && r.content == base.value.content
                        && r.version == base.value.version)
        || ((forall r :: r in revisions ==> r.page != base.value.page)
            && base.value.content == "" && base.value.version == 0)
      ensures base == Existing(Value(), slug)
    {
      hide RevisionsOf, Highest;
      var page := PageOf(pages, slug);
      if page.None? {
        return None;
      }
      var latest := Highest(RevisionsOf(revisions, page.value));
      LatestRowIs(revisions, page.value);
      var title := pages[page.value].title;
      base := Some(if latest.Some? then Base(page.value, title, latest.value.content, latest.value.version)
                   else Base(page.value, title, "", 0));
    }

    /** Inside the caller's transaction: a failure is rolled back by the caller. */
    method IndexDb(page: nat, content: string) returns (result: Result<Plan>)
      modifies `documents, `chunks
      ensures match Index(old(Value()), page, content)
              case Done(after) => result == Done(after.1) && Value() == after.0
              case Failed(f) => result == Failed(f)
    {
      var shadow := ShadowOf(documents, page);
      var oldChunks: set<nat> := {};
      if shadow.Some? {
        oldChunks := LiveChunks(chunks, shadow.value);
        chunks := Retired(chunks, shadow.value);
        documents := documents[shadow.value := documents[shadow.value].(deleted := true)];
      }
      if HasContent(documents, content) {
        return Failed(DuplicateContent);
      }
      var document := |documents|;
      documents := documents + [Document(page, content, false)];
      var chunk := |chunks|;
      chunks := chunks + [Chunk(document, content, false)];
      result := Done(Plan(oldChunks, chunk));
    }

    method AppendRevision(page: nat, title: string, content: string, source: nat, expected: nat)
      returns (result: Result<(Plan, nat)>)
      requires page < |pages|
      modifies this
      ensures points == old(points)
      ensures match Append(old(Value()), page, title, content, source, expected)
              case Done(after) => result == Done((after.1, expected + 1)) && Value() == after.0
              case Failed(f) => result == Failed(f) && Value() == old(Value())
    {
      if CurrentVersion(revisions, page) != expected {
        return Failed(Conflict);
      }
      var beforePages, beforeRevisions, beforeDocuments, beforeChunks := pages, revisions, documents, chunks;
      var version := CurrentVersion(revisions, page) + 1;
      revisions := revisions + [Revision(page, version, content, source)];
      pages := pages[page := pages[page].(title := title, revisionCount := version)];
      var indexed := IndexDb(page, content);
      match indexed
      case Done(plan) => result := Done((plan, version));
      case Failed(f) =>
        pages, revisions, documents, chunks := beforePages, beforeRevisions, beforeDocuments, beforeChunks;
        result := Failed(f);
    }

    method CreatePage(slug: string, title: string, content: string, source: nat) returns (result: Result<Plan>)
      modifies this
      ensures points == old(points)
      ensures match Create(old(Value()), slug, title, content, source)
              case Done(after) => result == Done(after.1) && Value() == after.0
              case Failed(f) => result == Failed(f) && Value() == old(Value())
    {
      if PageOf(pages, slug).Some? {
        return Failed(Conflict);
      }
      var beforePages, beforeRevisions, beforeDocuments, beforeChunks := pages, revisions, documents, chunks;
      var page := |pages|;
      pages := pages + [Page(slug, title, 1)];
      revisions := revisions + [Revision(page, 1, content, source)];
      var indexed := IndexDb(page, content);
      match indexed
      case Done(plan) => result := Done(plan);
      case Failed(f) =>
        pages, revisions, documents, chunks := beforePages, beforeRevisions, beforeDocuments, beforeChunks;
        result := Failed(f);
    }

    /** Either half may fail; a failed delete skips the upsert. Failures are only logged. */
    method ApplyVectors(plan: Plan, deleteWorks: bool, upsertWorks: bool)
      modifies `points
      ensures points == if plan.oldChunks != {} && !deleteWorks then old(points)
                        else (old(points) - plan.oldChunks) + if upsertWorks then {plan.chunk} else {}
    {
      if plan.oldChunks != {} {
        if !deleteWorks {
          return;
        }
        points := points - plan.oldChunks;
      }
      if upsertWorks {
        points := points + {plan.chunk};
      }
    }
  }
}
