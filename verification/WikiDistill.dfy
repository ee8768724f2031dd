/**
 `distill` of app/services/wiki_service.py: run alone, and in every interleaving with
 others. A distill reads the page, asks the model to merge with no lock held, writes in one
 transaction that checks the version it read, and touches the vectors after the commit. In
 a run any distill may be abandoned at any point, and vector writes may be late, out of
 order, repeated or missing.
 */
module WikiDistill {
  import opened Common
  import opened WikiStore
  import opened WikiRuns
  import opened Text

  /** A distill between its read and its write. */
  datatype Draft = Draft(slug: string, source: nat, base: Option<Base>)

  datatype System = System(tables: Tables, points: set<nat>, drafts: map<nat, Draft>, plans: set<Plan>)

  datatype Event =
    | Load(who: nat, slug: string, source: nat)
    | Abandon(who: nat)
    | Write(who: nat, title: string, content: string)
    | DeleteOld(plan: Plan)
    | Upsert(plan: Plan)

  function BaseText(draft: Draft): string {
    if draft.base.Some? then draft.base.value.content else ""
  }

  /** The write is against a page that was read, and pages only grow. */
  predicate Addressed(t: Tables, draft: Draft) {
    draft.base.Some? ==> draft.base.value.page < |t.pages|
  }

  function Commit(t: Tables, draft: Draft, title: string, content: string): Result<(Tables, Plan)>
    requires Addressed(t, draft)
  {
    match draft.base
    case None => Create(t, draft.slug, title, content, draft.source)
    case Some(base) => Append(t, base.page, title, content, draft.source, base.version)
  }

  predicate Enabled(merges: Merges, s: System, e: Event) {
    match e
    case Load(_, _, _) => true
    case Abandon(who) => who in s.drafts
    case Write(who, _, content) =>
      who in s.drafts && Addressed(s.tables, s.drafts[who]) &&
          merges(s.drafts[who].source, BaseText(s.drafts[who]), content)
    case DeleteOld(plan) => plan in s.plans
    case Upsert(plan) => plan in s.plans
  }

  function Next(merges: Merges, s: System, e: Event): System
    requires Enabled(merges, s, e)
  {
    match e
    case Load(who, slug, source) => s.(drafts := s.drafts[who := Draft(slug, source, Existing(s.tables, slug))])
    case Abandon(who) => s.(drafts := s.drafts - {who})
    case Write(who, title, content) =>
      var rest := s.drafts - {who};
      (match Commit(s.tables, s.drafts[who], title, content)
       case Failed(_) => s.(drafts := rest)
       case Done(after) => s.(tables := after.0, drafts := rest, plans := s.plans + {after.1}))
    case DeleteOld(plan) => s.(points := s.points - plan.oldChunks)
    case Upsert(plan) => s.(points := s.points + {plan.chunk})
  }

  ghost predicate Legal(merges: Merges, events: seq<Event>)
    decreases |events|, 0
  {
    events == [] ||
    (Legal(merges, events[..|events|-1]) && Enabled(merges, After(merges, events[..|events|-1]), events[|events|-1]))
  }

  ghost function After(merges: Merges, events: seq<Event>): System
    requires Legal(merges, events)
    decreases |events|, 1
  {
    if events == [] then System(Tables([], [], [], []), {}, map[], {})
    else Next(merges, After(merges, events[..|events|-1]), events[|events|-1])
  }

  // ---- what every run keeps -----------------------------------------------------------------

  /** What a distill read was, and still is, the content of that version. */
  ghost predicate DraftFits(t: Tables, draft: Draft) {
    draft.base.Some? ==>
      var base := draft.base.value;
      var rows := RevisionsOf(t.revisions, base.page);
      && base.page < |t.pages| && t.pages[base.page].slug == draft.slug
      && 1 <= base.version <= |rows| && rows[base.version-1].content == base.content
  }

  ghost predicate DraftsFit(s: System) {
    forall who :: who in s.drafts ==> DraftFits(s.tables, s.drafts[who])
  }

  ghost predicate PlansFit(s: System) {
    forall plan :: plan in s.plans ==> PlanFits(s.tables, plan)
  }

  ghost predicate Inv(merges: Merges, s: System) {
    Sound(merges, s.tables) && DraftsFit(s) && PlansFit(s)
  }

  lemma LoadFits(merges: Merges, t: Tables, slug: string, source: nat)
    requires Sound(merges, t)
    ensures DraftFits(t, Draft(slug, source, Existing(t, slug)))
  {
    var page := PageOf(t.pages, slug);
    if page.Some? {
      CurrentIs(merges, t, page.value);
    }
  }

  /** With the version it read still current, a draft was merged from the latest content. */
  lemma FreshDraft(merges: Merges, t: Tables, draft: Draft)
    requires Sound(merges, t) && DraftFits(t, draft) && draft.base.Some?
    requires CurrentVersion(t.revisions, draft.base.value.page) == draft.base.value.version
    ensures Latest(t, draft.base.value.page) == draft.base.value.content
  {
    CurrentIs(merges, t, draft.base.value.page);
  }

  lemma CommitKeepsSound(merges: Merges, t: Tables, draft: Draft, title: string, content: string)
    requires Sound(merges, t) && DraftFits(t, draft) && Addressed(t, draft)
    requires merges(draft.source, BaseText(draft), content)
    requires Commit(t, draft, title, content).Done?
    ensures Sound(merges, Commit(t, draft, title, content).value.0)
  {
    hide Sound, Index, RevisionsOf, Latest, DraftFits;
    match draft.base
    case None =>
      CreateKeepsSound(merges, t, draft.slug, title, content, draft.source);
    case Some(base) =>
      FreshDraft(merges, t, draft);
      AppendKeepsSound(merges, t, base.page, title, content, draft.source, base.version);
  }

  /** Nothing committed is taken back: revisions only get added, dead chunks stay dead. */
  ghost predicate Grows(t: Tables, t': Tables) {
    && |t.pages| <= |t'.pages| && (forall p :: 0 <= p < |t.pages| ==> t'.pages[p].slug == t.pages[p].slug)
    && t.revisions <= t'.revisions
    && |t.chunks| <= |t'.chunks| && (forall c :: 0 <= c < |t.chunks| && t.chunks[c].deleted ==> t'.chunks[c].deleted)
  }

  lemma CommitGrows(merges: Merges, t: Tables, draft: Draft, title: string, content: string)
    requires Sound(merges, t) && Addressed(t, draft)
    requires Commit(t, draft, title, content).Done?
    ensures var (t', plan) := Commit(t, draft, title, content).value;
      Grows(t, t') && PlanFits(t', plan)
  {
    hide PageSound, RevisionsOf, Highest, HasContent;
    match draft.base
    case None => {}
    case Some(base) => {}
  }

  lemma {:induction false} RowsGrow(before: seq<Revision>, after: seq<Revision>, page: nat)
    requires before <= after
    ensures RevisionsOf(before, page) <= RevisionsOf(after, page)
  {
    if |before| < |after| {
      RowsGrow(before, after[..|after|-1], page);
    } else {
      assert before == after;
    }
  }

  lemma GrowthKeepsDraft(t: Tables, t': Tables, draft: Draft)
    requires DraftFits(t, draft) && Grows(t, t')
    ensures DraftFits(t', draft)
  {
    if draft.base.Some? {
      RowsGrow(t.revisions, t'.revisions, draft.base.value.page);
    }
  }

  lemma StepKeepsInv(merges: Merges, s: System, e: Event)
    requires Inv(merges, s) && Enabled(merges, s, e)
    ensures Inv(merges, Next(merges, s, e))
  {
    hide Sound, DraftFits, PlanFits, Existing, Commit, Grows;
    var s' := Next(merges, s, e);
    match e
    case Load(who, slug, source) => LoadFits(merges, s.tables, slug, source);
    case Write(who, title, content) =>
      var draft := s.drafts[who];
      if Commit(s.tables, draft, title, content).Done? {
        CommitKeepsSound(merges, s.tables, draft, title, content);
        CommitGrows(merges, s.tables, draft, title, content);
        forall w | w in s'.drafts ensures DraftFits(s'.tables, s'.drafts[w]) {
          GrowthKeepsDraft(s.tables, s'.tables, s.drafts[w]);
        }
        forall plan | plan in s'.plans ensures PlanFits(s'.tables, plan) {
          if plan in s.plans {
            GrowthKeepsPlan(s.tables, s'.tables, plan);
          }
        }
      }
    case _ => {}
  }

  lemma GrowthKeepsPlan(t: Tables, t': Tables, plan: Plan)
    requires PlanFits(t, plan) && Grows(t, t')
    ensures PlanFits(t', plan)
  {
  }

  lemma {:induction false} RunKeepsInv(merges: Merges, events: seq<Event>)
    requires Legal(merges, events)
    ensures Inv(merges, After(merges, events))
  {
    if events != [] {
      RunKeepsInv(merges, events[..|events|-1]);
      StepKeepsInv(merges, After(merges, events[..|events|-1]), events[|events|-1]);
    } else {
      assert Inv(merges, After(merges, []));
    }
  }

  // ---- the results --------------------------------------------------------------------------

  /**
   No lost update: in every run the versions of a page are exactly 1..revision_count, each
   revision was merged from the content of the one before it, and one live document with
   one live chunk holds the latest content.
   */
  lemma NoLostUpdate(merges: Merges, events: seq<Event>, p: nat)
    requires Legal(merges, events) && p < |After(merges, events).tables.pages|
    ensures var t := After(merges, events).tables;
      var rows := RevisionsOf(t.revisions, p);
      && t.pages[p].revisionCount == |rows| > 0
      && (forall i :: 0 <= i < |rows| ==> rows[i].version == i + 1)
      && (forall i :: 0 < i < |rows| ==> merges(rows[i].source, rows[i-1].content, rows[i].content))
      && OneShadow(t, p, rows[|rows|-1].content)
  {
    RunKeepsInv(merges, events);
    var t := After(merges, events).tables;
    hide After, Legal, OneShadow, RevisionsOf;
    assert PageSound(merges, t, p);
    var rows := RevisionsOf(t.revisions, p);
    forall i: nat | i < |rows|
      ensures rows[i].version == i + 1 && (i > 0 ==> merges(rows[i].source, rows[i-1].content, rows[i].content))
    {
      assert Link(merges, rows, i);
    }
  }

  /** The page's only live chunk holds its latest content, and is served if it is a candidate. */
  ghost predicate ServesLatest(t: Tables, p: nat, candidates: set<nat>, served: set<nat>) {
    exists d: nat, c: nat ::
      OnlyShadow(t.documents, t.chunks, p, d, c, Latest(t, p)) && (c in candidates ==> c in served)
  }

  /** Chunk `c` is the only live chunk of an existing page and holds its latest content. */
  ghost predicate HoldsLatest(t: Tables, c: nat)
    requires c < |t.chunks| && t.chunks[c].document < |t.documents|
  {
    var d := t.chunks[c].document;
    var p := t.documents[d].page;
    p < |t.pages| && OnlyShadow(t.documents, t.chunks, p, d, c, Latest(t, p))
  }

  lemma SoundServesLatest(merges: Merges, t: Tables, candidates: set<nat>)
    requires Sound(merges, t)
    ensures forall c :: c in Served(t, candidates) ==> HoldsLatest(t, c)
    ensures forall p: nat :: p < |t.pages| ==> ServesLatest(t, p, candidates, Served(t, candidates))
  {
    hide Latest, HistorySound;
    forall p: nat | p < |t.pages| ensures ServesLatest(t, p, candidates, Served(t, candidates)) {
      assert PageSound(merges, t, p);
      var d: nat, c: nat :| OnlyShadow(t.documents, t.chunks, p, d, c, Latest(t, p));
      assert c in candidates ==> c in Served(t, candidates);
    }
    forall c | c in Served(t, candidates) ensures HoldsLatest(t, c) {
      assert PageSound(merges, t, t.documents[t.chunks[c].document].page);
    }
  }

  /**
   Whatever candidates the vector and keyword searches come up with, `load_rows` serves
   only latest content, one chunk a page, and it serves that chunk whenever it is asked for.
   */
  lemma OnlyLatestIsServed(merges: Merges, events: seq<Event>, candidates: set<nat>)
    requires Legal(merges, events)
    ensures var t := After(merges, events).tables;
      && (forall c :: c in Served(t, candidates) ==> HoldsLatest(t, c))
      && (forall p: nat :: p < |t.pages| ==> ServesLatest(t, p, candidates, Served(t, candidates)))
  {
    RunKeepsInv(merges, events);
    SoundServesLatest(merges, After(merges, events).tables, candidates);
  }

  /**
   `load_rows` on the wiki's rows: the live chunks of live documents among the candidates.
   On sound tables each row has its page's latest content, and each page whose chunk is a
   candidate has its row.
   */
  method LoadRows(store: Store, ghost merges: Merges, candidates: set<nat>) returns (rows: map<nat, Chunk>)
    requires Sound(merges, store.Value())
    ensures forall c :: c in rows ==>
      && c in candidates && c < |store.chunks| && rows[c] == store.chunks[c]
      && rows[c].document < |store.documents| && HoldsLatest(store.Value(), c)
      && rows[c].text == Latest(store.Value(), store.documents[rows[c].document].page)
    ensures forall p: nat :: p < |store.pages| ==> ServesLatest(store.Value(), p, candidates, rows.Keys)
  {
    hide Sound, Latest, ServesLatest, HoldsLatest;
    rows := map c | c in candidates && c < |store.chunks| && !store.chunks[c].deleted &&
                    store.chunks[c].document < |store.documents| &&
                    !store.documents[store.chunks[c].document].deleted :: store.chunks[c];
    SoundServesLatest(merges, store.Value(), candidates);
    assert rows.Keys == Served(store.Value(), candidates);
    forall c | c in rows ensures rows[c].text == Latest(store.Value(), store.documents[rows[c].document].page) {
      ServedTextIsLatest(store.Value(), c);
    }
  }

  lemma ServedTextIsLatest(t: Tables, c: nat)
    requires c < |t.chunks| && t.chunks[c].document < |t.documents| && HoldsLatest(t, c)
    ensures t.chunks[c].text == Latest(t, t.documents[t.chunks[c].document].page)
  {
    hide Latest;
  }

  /** A write is refused with a conflict exactly if the page changed, or appeared, since it was read. */
  lemma ConflictIffChanged(merges: Merges, s: System, who: nat, title: string, content: string)
    requires Inv(merges, s) && Enabled(merges, s, Write(who, title, content))
    ensures var draft := s.drafts[who];
      Commit(s.tables, draft, title, content) == Failed(Conflict) <==>
        match draft.base
        case None => exists p :: 0 <= p < |s.tables.pages| && s.tables.pages[p].slug == draft.slug
        case Some(base) => |RevisionsOf(s.tables.revisions, base.page)| > base.version
  {
    var draft := s.drafts[who];
    assert DraftFits(s.tables, draft);
    if draft.base.Some? {
      CurrentIs(merges, s.tables, draft.base.value.page);
    }
  }

  /** No step takes the vector of a chunk that is live after it. */
  lemma LivePointStays(merges: Merges, s: System, e: Event, c: nat)
    requires Inv(merges, s) && Enabled(merges, s, e) && c in s.points
    requires var t' := Next(merges, s, e).tables; c < |t'.chunks| && !t'.chunks[c].deleted
    ensures c in Next(merges, s, e).points
  {
    hide Sound, Commit, DraftsFit;
    if e.DeleteOld? {
      assert PlanFits(s.tables, e.plan);
    }
  }

  /** A chunk is dead for good. */
  lemma DeadStaysDead(merges: Merges, s: System, e: Event, c: nat)
    requires Inv(merges, s) && Enabled(merges, s, e)
    requires c < |s.tables.chunks| && s.tables.chunks[c].deleted
    ensures c < |Next(merges, s, e).tables.chunks| && Next(merges, s, e).tables.chunks[c].deleted
  {
    hide Sound, Commit, DraftsFit, PlansFit;
    if e.Write? && Commit(s.tables, s.drafts[e.who], e.title, e.content).Done? {
      CommitGrows(merges, s.tables, s.drafts[e.who], e.title, e.content);
    }
  }

  /**
   Once a plan's upsert went through, its chunk is found by vector search for as long as it
   is live, whatever deletes and upserts of other plans come before or after.
   */
  lemma {:induction false} UpsertedIsRecallable(merges: Merges, events: seq<Event>, i: nat)
    requires Legal(merges, events) && i < |events| && events[i].Upsert?
    requires var t := After(merges, events).tables;
      events[i].plan.chunk < |t.chunks| && !t.chunks[events[i].plan.chunk].deleted
    ensures events[i].plan.chunk in After(merges, events).points
  {
    var init, last := events[..|events|-1], events[|events|-1];
    var s, c := After(merges, init), events[i].plan.chunk;
    RunKeepsInv(merges, init);
    if i < |init| {
      assert init[i] == events[i];
      ChunkExists(merges, init, i);
      if s.tables.chunks[c].deleted {
        DeadStaysDead(merges, s, last, c);
      }
      UpsertedIsRecallable(merges, init, i);
      LivePointStays(merges, s, last, c);
    }
  }

  lemma {:induction false} ChunkExists(merges: Merges, events: seq<Event>, i: nat)
    requires Legal(merges, events) && i < |events| && events[i].Upsert?
    ensures events[i].plan.chunk < |After(merges, events).tables.chunks|
  {
    var init, last := events[..|events|-1], events[|events|-1];
    var s := After(merges, init);
    RunKeepsInv(merges, init);
    if i < |init| {
      assert init[i] == events[i];
      ChunkExists(merges, init, i);
      if last.Write? && Commit(s.tables, s.drafts[last.who], last.title, last.content).Done? {
        CommitGrows(merges, s.tables, s.drafts[last.who], last.title, last.content);
      }
    } else {
      assert PlanFits(s.tables, last.plan);
    }
  }

  // ---- what the chain means -----------------------------------------------------------------

  /** A merge keeps what the existing text says. */
  ghost predicate Keeps(merges: Merges, says: (string, nat) -> bool) {
    forall source, base, content, fact ::
      merges(source, base, content) && says(base, fact) ==> says(content, fact)
  }

  /** A merge says what the answer it is given says. */
  ghost predicate Adds(merges: Merges, says: (string, nat) -> bool) {
    forall source, base, content :: merges(source, base, content) ==> says(content, source)
  }

  /** If merging forgets nothing, later revisions say all that earlier ones said. */
  lemma {:induction false} NothingIsForgotten(merges: Merges, says: (string, nat) -> bool, rows: seq<Revision>, i: nat,
                                              j: nat, fact: nat)
    requires Keeps(merges, says) && Chained(merges, rows) && i <= j < |rows| && says(rows[i].content, fact)
    ensures says(rows[j].content, fact)
  {
    if i < j {
      NothingIsForgotten(merges, says, rows, i, j - 1, fact);
      assert Link(merges, rows, j);
    }
  }

  /**
   With a model that keeps the existing text's facts and adds the answer's, every answer
   ever accepted into a page is in the text the page is served with.
   */
  lemma EveryAcceptedAnswerIsServed(merges: Merges, says: (string, nat) -> bool, events: seq<Event>, p: nat, i: nat)
    requires Legal(merges, events) && p < |After(merges, events).tables.pages|
    requires i < |RevisionsOf(After(merges, events).tables.revisions, p)|
    requires Keeps(merges, says) && Adds(merges, says)
    ensures var t := After(merges, events).tables;
      says(Latest(t, p), RevisionsOf(t.revisions, p)[i].source) && OneShadow(t, p, Latest(t, p))
  {
    hide RevisionsOf, Latest, OneShadow, Keeps, Adds, Link;
    RunKeepsInv(merges, events);
    var t := After(merges, events).tables;
    assert PageSound(merges, t, p);
    AcceptedIsSaid(merges, says, RevisionsOf(t.revisions, p), i);
    LatestIs(t, p);
  }

  lemma AcceptedIsSaid(merges: Merges, says: (string, nat) -> bool, rows: seq<Revision>, i: nat)
    requires Keeps(merges, says) && Adds(merges, says) && Chained(merges, rows) && i < |rows|
    ensures says(rows[|rows|-1].content, rows[i].source)
  {
    assert Link(merges, rows, i);
    SaysItsSource(merges, says, rows[i].source, BaseOf(rows, i), rows[i].content);
    hide Keeps, Adds, Chained;
    NothingIsForgotten(merges, says, rows, i, |rows| - 1, rows[i].source);
  }

  lemma SaysItsSource(merges: Merges, says: (string, nat) -> bool, source: nat, base: string, content: string)
    requires Adds(merges, says) && merges(source, base, content)
    ensures says(content, source)
  {
  }

  lemma LatestIs(t: Tables, p: nat)
    ensures var rows := RevisionsOf(t.revisions, p); rows != [] ==> Latest(t, p) == rows[|rows|-1].content
  {
  }

  // ---- one distill, run alone ---------------------------------------------------------------

  /** What the model extracts, or what it makes of the existing text. */
  datatype Extraction = Extraction(title: string, content: string)

  datatype Outcome = Skipped | Created | Appended(version: nat) | Refused(failure: Failure)

  /** A live document of another page has the content. */
  ghost predicate TakenElsewhere(documents: seq<Document>, page: nat, content: string) {
    exists d :: 0 <= d < |documents| && !documents[d].deleted && documents[d].page != page
                && documents[d].content == content
  }

  /** The live chunks of the page's shadow documents. */
  ghost function OldChunks(t: Tables, page: nat): set<nat> {
    set c: nat | c < |t.chunks| && !t.chunks[c].deleted && OfPage(t, c, page)
  }

  predicate OfPage(t: Tables, c: nat, page: nat)
    requires c < |t.chunks|
  {
    t.chunks[c].document < |t.documents| && t.documents[t.chunks[c].document].page == page
  }

  /** The page's documents and chunks are all dead but the new ones, which come last; nothing else changed. */
  ghost predicate Reindexed(t: Tables, t': Tables, page: nat, content: string) {
    && |t'.documents| == |t.documents| + 1 && t'.documents[|t.documents|] == Document(page, content, false)
    && (forall d :: 0 <= d < |t.documents| ==>
          t'.documents[d] == if t.documents[d].page == page then t.documents[d].(deleted := true) else t.documents[d])
    && |t'.chunks| == |t.chunks| + 1 && t'.chunks[|t.chunks|] == Chunk(|t.documents|, content, false)
    && (forall c :: 0 <= c < |t.chunks| ==>
          t'.chunks[c] == if OfPage(t, c, page) then t.chunks[c].(deleted := true) else t.chunks[c])
  }

  /** The transaction wrote this page row and this revision, and reindexed the page. */
  ghost predicate Written(t: Tables, t': Tables, row: Page, r: Revision) {
    && r.page <= |t.pages|
    && t'.pages == (if r.page < |t.pages| then t.pages[r.page := row] else t.pages + [row])
    && t'.revisions == t.revisions + [r]
    && Reindexed(t, t', r.page, r.content)
  }

  /** The vectors after both halves of the vector write had their chance. */
  function PointsAfter(points: set<nat>, gone: set<nat>, chunk: nat, deleteWorks: bool, upsertWorks: bool): set<nat> {
    if gone != {} && !deleteWorks then points else points - gone + if upsertWorks then {chunk} else {}
  }

  /** Indexing sound tables fails exactly on content another page shows, and retires exactly the page's live chunks. */
  lemma IndexIs(t: Tables, t1: Tables, page: nat, content: string, before: string)
    requires Linked(t) && ChunksFollow(t) && t1.documents == t.documents && t1.chunks == t.chunks
    requires NoShadow(t, page) || OneShadow(t, page, before)
    ensures Index(t1, page, content).Failed? ==> Index(t1, page, content) == Failed(DuplicateContent)
    ensures Index(t1, page, content).Failed? <==> TakenElsewhere(t.documents, page, content)
    ensures Index(t1, page, content).Done? ==>
      var (t', plan) := Index(t1, page, content).value;
      && t'.pages == t1.pages && t'.revisions == t1.revisions && Reindexed(t, t', page, content)
      && plan == Plan(OldChunks(t, page), |t.chunks|)
  {
    hide ShadowOf;
    if OneShadow(t, page, before) {
      var d: nat, c: nat :| OnlyShadow(t.documents, t.chunks, page, d, c, before);
      ShadowIs(t, page, d, c, before);
    }
    var shadow := ShadowOf(t.documents, page);
    var documents :=
      if shadow.Some? then t.documents[shadow.value := t.documents[shadow.value].(deleted := true)] else t.documents;
    assert forall d :: 0 <= d < |documents| ==>
      documents[d] == if t.documents[d].page == page then t.documents[d].(deleted := true) else t.documents[d];
    if TakenElsewhere(t.documents, page, content) {
      var d :| 0 <= d < |t.documents| && !t.documents[d].deleted && t.documents[d].page != page
               && t.documents[d].content == content;
      assert documents[d] == t.documents[d];
      assert HasContent(documents, content);
    }
  }

  /**
   `distill` once the answer is extracted into `out`; `merge` is what the model makes of the
   existing text, None when it sees no increment. Alone it never meets a conflict: of an
   existing page it reads the latest revision and appends the merge as the next version,
   unless that is no increment; without one it creates the page. Either is refused exactly
   if another live document has the content.
   */
  method Distill(store: Store, ghost merges: Merges, slug: string, out: Extraction, source: nat,
                 merge: string -> Option<Extraction>, deleteWorks: bool, upsertWorks: bool)
    returns (outcome: Outcome)
    requires Sound(merges, store.Value()) && merges(source, "", out.content)
    requires forall base :: merge(base).Some? ==> merges(source, base, merge(base).value.content)
    modifies store
    ensures Sound(merges, store.Value())
    ensures PageOf(old(store.pages), slug).None? ==>
      outcome == if TakenElsewhere(old(store.documents), |old(store.pages)|, out.content) then Refused(DuplicateContent)
                 else Created
    ensures PageOf(old(store.pages), slug).Some? ==>
      var page := PageOf(old(store.pages), slug).value;
      && (exists r :: IsLatestRow(old(store.revisions), page, r))
      && forall r :: IsLatestRow(old(store.revisions), page, r) ==>
           outcome == if merge(r.content).None? || AllSpace(merge(r.content).value.content) then Skipped
                      else if TakenElsewhere(old(store.documents), page, merge(r.content).value.content)
                      then Refused(DuplicateContent)
                      else Appended(r.version + 1)
    ensures outcome.Skipped? || outcome.Refused? ==>
      store.Value() == old(store.Value()) && store.points == old(store.points)
    ensures outcome.Created? ==>
      && Written(old(store.Value()), store.Value(), Page(slug, if out.title != "" then out.title else slug, 1),
                 Revision(|old(store.pages)|, 1, out.content, source))
      && store.points == old(store.points) + if upsertWorks then {|old(store.chunks)|} else {}
    ensures outcome.Appended? ==>
      var t, page := old(store.Value()), PageOf(old(store.pages), slug).value;
      forall r :: IsLatestRow(t.revisions, page, r) ==>
        var merged := merge(r.content).value;
        && Written(t, store.Value(),
                   Page(slug, if merged.title != "" then merged.title else t.pages[page].title, outcome.version),
                   Revision(page, outcome.version, merged.content, source))
        && store.points == PointsAfter(old(store.points), OldChunks(t, page), |t.chunks|, deleteWorks, upsertWorks)
  {
    hide Sound, Index, RevisionsOf, Blank, AllSpace, IsLatestRow, Written, TakenElsewhere, OldChunks, PageOf;
    ghost var t := store.Value();
    var existing := store.LoadExistingRevision(slug);
    if existing.Some? {
      var base := existing.value;
      ExistingIs(merges, t, slug);
      LatestRowHas(merges, t, base.page);
      var merged := merge(base.content);
      if merged.Some? {
        BlankIsAllSpace(merged.value.content);
      }
      if merged.None? || Blank(merged.value.content) {
        return Skipped;
      }
      var title, content := if merged.value.title != "" then merged.value.title else base.title, merged.value.content;
      AppendIs(merges, t, base.page, title, content, source);
      var appended := store.AppendRevision(base.page, title, content, source, base.version);
      match appended
      case Failed(f) =>
        outcome := Refused(f);
      case Done((plan, version)) =>
        AppendKeepsSound(merges, t, base.page, title, content, source, base.version);
        store.ApplyVectors(plan, deleteWorks, upsertWorks);
        outcome := Appended(version);
    } else {
      var title := if out.title != "" then out.title else slug;
      CreateIs(merges, t, slug, title, out.content, source);
      var created := store.CreatePage(slug, title, out.content, source);
      match created
      case Failed(f) =>
        outcome := Refused(f);
      case Done(plan) =>
        CreateKeepsSound(merges, t, slug, title, out.content, source);
        store.ApplyVectors(plan, deleteWorks, upsertWorks);
        outcome := Created;
    }
  }

  /** What a distill reads of sound tables: the latest content, and as its version the number of revisions. */
  lemma ExistingIs(merges: Merges, t: Tables, slug: string)
    requires Sound(merges, t) && PageOf(t.pages, slug).Some?
    ensures var page := PageOf(t.pages, slug).value;
      && Existing(t, slug)
         == Some(Base(page, t.pages[page].title, Latest(t, page), CurrentVersion(t.revisions, page)))
      && CurrentVersion(t.revisions, page) == |RevisionsOf(t.revisions, page)|
  {
    CurrentIs(merges, t, PageOf(t.pages, slug).value);
  }

  /** On sound tables a page has a latest row, and it has the latest content and the current version. */
  lemma LatestRowHas(merges: Merges, t: Tables, p: nat)
    requires Sound(merges, t) && p < |t.pages|
    ensures exists r :: IsLatestRow(t.revisions, p, r)
    ensures forall r :: IsLatestRow(t.revisions, p, r) ==>
      r.content == Latest(t, p) && r.version == CurrentVersion(t.revisions, p)
  {
    hide RevisionsOf, OneShadow, Linked, ChunksFollow, Link;
    CurrentIs(merges, t, p);
    LatestRowIs(t.revisions, p);
    RevisionsOfAre(t.revisions, p);
    assert PageSound(merges, t, p);
    var rows := RevisionsOf(t.revisions, p);
    forall r | IsLatestRow(t.revisions, p, r)
      ensures r.content == Latest(t, p) && r.version == CurrentVersion(t.revisions, p)
    {
      assert r in rows && rows[|rows|-1] in rows;
      var i: nat :| i < |rows| && rows[i] == r;
      VersionIs(merges, rows, i);
      VersionIs(merges, rows, |rows| - 1);
    }
  }

  lemma VersionIs(merges: Merges, rows: seq<Revision>, i: nat)
    requires Chained(merges, rows) && i < |rows|
    ensures rows[i].version == i + 1
  {
    assert Link(merges, rows, i);
  }

  /** An append against the current version. */
  lemma AppendIs(merges: Merges, t: Tables, page: nat, title: string, content: string, source: nat)
    requires Sound(merges, t) && page < |t.pages|
    ensures var version := CurrentVersion(t.revisions, page);
      var appended := Append(t, page, title, content, source, version);
      && (appended.Failed? ==> appended == Failed(DuplicateContent))
      && (appended.Failed? <==> TakenElsewhere(t.documents, page, content))
      && (appended.Done? ==>
            && Written(t, appended.value.0, Page(t.pages[page].slug, title, version + 1),
                       Revision(page, version + 1, content, source))
            && appended.value.1 == Plan(OldChunks(t, page), |t.chunks|))
  {
    hide Index, Reindexed, TakenElsewhere, HistorySound, OneShadow;
    var version := CurrentVersion(t.revisions, page) + 1;
    var t1 := t.(revisions := t.revisions + [Revision(page, version, content, source)],
                 pages := t.pages[page := t.pages[page].(title := title, revisionCount := version)]);
    assert PageSound(merges, t, page);
    IndexIs(t, t1, page, content, Latest(t, page));
  }

  /** Creating a page with a free slug. */
  lemma CreateIs(merges: Merges, t: Tables, slug: string, title: string, content: string, source: nat)
    requires Sound(merges, t) && PageOf(t.pages, slug).None?
    ensures var created := Create(t, slug, title, content, source);
      && (created.Failed? ==> created == Failed(DuplicateContent))
      && (created.Failed? <==> TakenElsewhere(t.documents, |t.pages|, content))
      && (created.Done? ==>
            && Written(t, created.value.0, Page(slug, title, 1), Revision(|t.pages|, 1, content, source))
            && created.value.1 == Plan({}, |t.chunks|))
  {
    hide Index, Reindexed, TakenElsewhere, HistorySound, OneShadow;
    var page := |t.pages|;
    var t1 := t.(revisions := t.revisions + [Revision(page, 1, content, source)],
                 pages := t.pages + [Page(slug, title, 1)]);
    assert NoShadow(t, page);
    IndexIs(t, t1, page, content, "");
    assert OldChunks(t, page) == {};
  }
}
