/** What the ingestion invariant says of every run, from an empty system, with crashes anywhere. */
module IngestionRuns {
  import opened Common
  import opened IngestionSteps
  import opened IngestionSafety

  const EMPTY := System(map[], map[], map[], {}, map[])

  ghost predicate LegalFrom(start: System, events: seq<Event>, max: nat)
    decreases |events|, 0
  {
    events == [] || (
      var init, last := events[..|events|-1], events[|events|-1];
      LegalFrom(start, init, max) && Enabled(AfterFrom(start, init, max), last))
  }

  ghost function AfterFrom(start: System, events: seq<Event>, max: nat): System
    requires LegalFrom(start, events, max)
    decreases |events|, 1
  {
    if events == [] then start
    else Next(AfterFrom(start, events[..|events|-1], max), events[|events|-1], max)
  }

  lemma OneMoreStep(start: System, events: seq<Event>, e: Event, max: nat)
    requires LegalFrom(start, events, max) && Enabled(AfterFrom(start, events, max), e)
    ensures LegalFrom(start, events + [e], max)
    ensures AfterFrom(start, events + [e], max) == Next(AfterFrom(start, events, max), e, max)
  {
    assert (events + [e])[..|events|] == events;
  }

  lemma {:induction false} RunKeepsInv(start: System, events: seq<Event>, max: nat)
    requires LegalFrom(start, events, max) && Inv(start, max) && max >= 1
    ensures Inv(AfterFrom(start, events, max), max)
  {
    hide Inv, Next, Enabled;
    if events != [] {
      RunKeepsInv(start, events[..|events|-1], max);
      StepKeepsInv(AfterFrom(start, events[..|events|-1], max), events[|events|-1], max);
    }
  }

  lemma EmptyIsSound(max: nat)
    ensures Inv(EMPTY, max)
  {
  }

  // ---- documents, chunks and vectors ----------------------------------------------------------

  /**
   In every run: a READY document's children are exactly its vector points, every point has
   the row of a child chunk, and every row was built by the run whose fingerprint its
   document has stored. Other documents' runs do not matter.
   */
  lemma IndexIsConsistent(events: seq<Event>, max: nat)
    requires LegalFrom(EMPTY, events, max) && max >= 1
    ensures var s := AfterFrom(EMPTY, events, max);
      && (forall d :: d in s.documents && s.documents[d].status == Ready ==> Children(s.rows, d) == PointsOf(s, d))
      && (forall id :: id in s.points ==> id in s.rows && !s.rows[id].isParent)
      && (forall id :: id in s.rows ==> Described(s, s.rows[id]))
  {
    hide JobsSound, WorkersSound, Children, PointsOf, Described, LegalFrom, AfterFrom;
    EmptyIsSound(max);
    RunKeepsInv(EMPTY, events, max);
    var s := AfterFrom(EMPTY, events, max);
    forall d | d in s.documents && s.documents[d].status == Ready ensures Children(s.rows, d) == PointsOf(s, d) {
      assert Indexed(s, d);
    }
  }

  /** Ingestion by itself leaves reconciliation nothing to delete, crashes included. */
  lemma NoOrphans(events: seq<Event>, max: nat)
    requires LegalFrom(EMPTY, events, max) && max >= 1
    ensures AfterFrom(EMPTY, events, max).points - AfterFrom(EMPTY, events, max).rows.Keys == {}
  {
    IndexIsConsistent(events, max);
  }

  /** What a skipped run reports is true: the document is indexed, by just the pipeline that would have run. */
  lemma SkipIsSafe(s: System, w: nat, f: nat, max: nat)
    requires Inv(s, max) && Enabled(s, Skip(w, f))
    ensures var d := DocumentAt(s, w);
      && Children(s.rows, d) == PointsOf(s, d)
      && (forall id :: id in RowIds(s.rows, d) ==> s.rows[id].builtWith == f)
      && Next(s, Skip(w, f), max).(jobs := s.jobs, workers := s.workers) == s
  {
    hide JobsSound, WorkersSound, PointsOf;
    var d := DocumentAt(s, w);
    assert Indexed(s, d);
    forall id | id in RowIds(s.rows, d) ensures s.rows[id].builtWith == f {
      assert Described(s, s.rows[id]);
    }
  }

  // ---- jobs and workers -----------------------------------------------------------------------

  /** The committed PARSE transitions of a job. */
  ghost function Parses(events: seq<Event>, max: nat, j: nat): nat
    requires LegalFrom(EMPTY, events, max)
    decreases |events|
  {
    if events == [] then 0
    else
      var init, last := events[..|events|-1], events[|events|-1];
      Parses(init, max, j) +
      if last.Begin? && AfterFrom(EMPTY, init, max).workers[last.worker].job == j then 1 else 0
  }

  function Attempts(s: System, j: nat): nat {
    if j in s.jobs then s.jobs[j].attempts else 0
  }

  lemma StepCountsAttempt(s: System, e: Event, max: nat, j: nat)
    requires Enabled(s, e)
    ensures Attempts(Next(s, e, max), j) == Attempts(s, j) + if e.Begin? && s.workers[e.worker].job == j then 1 else 0
  {
    hide Replaced, RowIds, Children, NoneActive;
  }

  lemma {:induction false} AttemptsAreParses(events: seq<Event>, max: nat, j: nat)
    requires LegalFrom(EMPTY, events, max)
    ensures Attempts(AfterFrom(EMPTY, events, max), j) == Parses(events, max, j)
  {
    hide Next, Enabled;
    if events != [] {
      var init, last := events[..|events|-1], events[|events|-1];
      AttemptsAreParses(init, max, j);
      StepCountsAttempt(AfterFrom(EMPTY, init, max), last, max, j);
    }
  }

  /**
   In every run: attempt_count is the number of committed PARSE transitions and stays within
   the maximum, a PENDING job has an attempt left, and no two live workers are on the same
   job or on the same document.
   */
  lemma JobsAreBounded(events: seq<Event>, max: nat)
    requires LegalFrom(EMPTY, events, max) && max >= 1
    ensures var s := AfterFrom(EMPTY, events, max);
      && (forall j :: j in s.jobs ==> s.jobs[j].attempts == Parses(events, max, j) <= max)
      && (forall j :: j in s.jobs && s.jobs[j].status == PENDING ==> s.jobs[j].attempts < max)
      && (forall v, w :: v in s.workers && w in s.workers && v != w ==>
            At(s, v) && At(s, w) && s.workers[v].job != s.workers[w].job && DocumentAt(s, v) != DocumentAt(s, w))
  {
    EmptyIsSound(max);
    RunKeepsInv(EMPTY, events, max);
    var s := AfterFrom(EMPTY, events, max);
    JobIsSound(s, max);
    hide Inv, Parses, At, LegalFrom, AfterFrom, DocumentAt;
    forall j | j in s.jobs ensures s.jobs[j].attempts == Parses(events, max, j) <= max {
      AttemptsAreParses(events, max, j);
      assert JobSound(s.jobs[j], s.documents.Keys, max);
    }
    forall v, w | v in s.workers && w in s.workers && v != w
      ensures At(s, v) && At(s, w) && s.workers[v].job != s.workers[w].job && DocumentAt(s, v) != DocumentAt(s, w)
    {
      WorkersApart(s, max, v, w);
    }
  }

  /**
   A failure in any run gives the job another attempt exactly if the error is not final and
   the attempt that failed is not the last; that attempt is the number of PARSE transitions
   so far, one more before the next one is committed, and 1 if the job was not even read.
   Otherwise job and document fail. Rows, vectors and everything else stay as they are, and
   past the PARSE transition a retried document stays in PROCESSING.
   */
  lemma RaiseRetriesOrFails(events: seq<Event>, max: nat, w: nat, loaded: bool, terminal: bool, conflict: bool)
    requires LegalFrom(EMPTY, events, max) && max >= 1
    requires LegalFrom(EMPTY, events + [Raise(w, loaded, terminal, conflict)], max)
    ensures var s, s' := AfterFrom(EMPTY, events, max),
                         AfterFrom(EMPTY, events + [Raise(w, loaded, terminal, conflict)], max);
      && At(s, w)
      && var j, d, early := s.workers[w].job, DocumentAt(s, w), s.workers[w].stage.Claimed?;
         var attempt := if early then if loaded then Parses(events, max, j) + 1 else 1 else Parses(events, max, j);
         && s'.jobs == s.jobs[j := s.jobs[j].(status := if attempt < max && !terminal then PENDING else FAILED)]
         && s'.documents == (if attempt < max && !terminal then s.documents
                             else s.documents[d := s.documents[d].(status := if conflict then InConflict else Broken)])
         && s'.rows == s.rows && s'.points == s.points && s'.workers == s.workers - {w}
         && (early || s.documents[d].status == Processing)
  {
    hide JobsSound, RowsSound, ReadySound, LegalFrom, AfterFrom, Parses;
    EmptyIsSound(max);
    RunKeepsInv(EMPTY, events, max);
    var s, e := AfterFrom(EMPTY, events, max), Raise(w, loaded, terminal, conflict);
    LastStep(EMPTY, events, e, max);
    AttemptsAreParses(events, max, s.workers[w].job);
    assert WorkerSound(s, w, max);
  }

  lemma LastStep(start: System, events: seq<Event>, e: Event, max: nat)
    requires LegalFrom(start, events + [e], max)
    ensures LegalFrom(start, events, max) && Enabled(AfterFrom(start, events, max), e)
    ensures AfterFrom(start, events + [e], max) == Next(AfterFrom(start, events, max), e, max)
  {
    hide Enabled, Next;
    assert (events + [e])[..|events|] == events;
  }

  predicate Settled(job: Job) {
    job.status == SUCCEEDED || job.status == FAILED
  }

  lemma StepLeavesSettled(s: System, e: Event, max: nat, j: nat)
    requires Inv(s, max) && Enabled(s, e) && j in s.jobs && Settled(s.jobs[j])
    ensures j in Next(s, e, max).jobs && Next(s, e, max).jobs[j] == s.jobs[j]
  {
    hide JobsSound, RowsSound, ReadySound, Replaced, RowIds, Children;
    if Actor(e).Some? && e.worker in s.workers {
      assert WorkerSound(s, e.worker, max);
    }
  }

  /** A job that succeeded or failed never changes again. */
  lemma {:induction false} SettledForGood(events: seq<Event>, max: nat, k: nat, j: nat)
    requires LegalFrom(EMPTY, events, max) && max >= 1 && k <= |events| && LegalFrom(EMPTY, events[..k], max)
    requires j in AfterFrom(EMPTY, events[..k], max).jobs && Settled(AfterFrom(EMPTY, events[..k], max).jobs[j])
    ensures j in AfterFrom(EMPTY, events, max).jobs
    ensures AfterFrom(EMPTY, events, max).jobs[j] == AfterFrom(EMPTY, events[..k], max).jobs[j]
  {
    hide Next, Enabled, Inv;
    if k < |events| {
      var init := events[..|events|-1];
      assert init[..k] == events[..k];
      SettledForGood(init, max, k, j);
      EmptyIsSound(max);
      RunKeepsInv(EMPTY, init, max);
      StepLeavesSettled(AfterFrom(EMPTY, init, max), events[|events|-1], max, j);
    } else {
      assert events[..k] == events;
    }
  }

  // ---- documents nobody works on ----------------------------------------------------------------

  /** A job on its last attempt has its document in PROCESSING. */
  ghost predicate LastTry(s: System, max: nat) {
    forall j :: j in s.jobs && s.jobs[j].status == RUNNING && s.jobs[j].attempts == max ==>
      s.jobs[j].document in s.documents && s.documents[s.jobs[j].document].status == Processing
  }

  /** The document says it is being processed, and no active job is going to process it. */
  ghost predicate Stranded(s: System, d: nat) {
    d in s.documents && s.documents[d].status == Processing && NoneActive(s.jobs, d)
  }

  /** Another job's document keeps its status while that job is active. */
  lemma OthersKeepStatus(s: System, e: Event, max: nat, j: nat)
    requires Inv(s, max) && Enabled(s, e) && j in s.jobs && s.jobs[j].status == RUNNING
    requires Actor(e).Some? ==> e.worker !in s.workers || s.workers[e.worker].job != j
    ensures s.jobs[j].document in s.documents
    ensures SameDocument(s, Next(s, e, max), s.jobs[j].document)
  {
    hide RowsSound, ReadySound, RowIds, Children, Replaced, Next;
    JobIsSound(s, max);
    if Actor(e).Some? && e.worker in s.workers {
      assert WorkerSound(s, e.worker, max);
    }
    StepSparesDocuments(s, e, max, s.jobs[j].document);
  }

  lemma StepKeepsLastTry(s: System, e: Event, max: nat)
    requires Inv(s, max) && LastTry(s, max) && Enabled(s, e) && max >= 1
    ensures LastTry(Next(s, e, max), max)
  {
    hide JobsSound, RowsSound, ReadySound, RowIds, Children, Replaced, NoneActive;
    var s' := Next(s, e, max);
    JobIsSound(s, max);
    forall j | j in s'.jobs && s'.jobs[j].status == RUNNING && s'.jobs[j].attempts == max
      ensures s'.jobs[j].document in s'.documents && s'.documents[s'.jobs[j].document].status == Processing
    {
      if Actor(e).Some? && e.worker in s.workers && s.workers[e.worker].job == j {
        assert WorkerSound(s, e.worker, max);
      } else {
        assert !e.Claim? || e.job != j;
        OthersKeepStatus(s, e, max, j);
      }
    }
  }

  /** A document in PROCESSING that loses its active job loses it to the reclaim pass. */
  lemma ActiveJobStays(s: System, e: Event, max: nat, j: nat)
    requires Inv(s, max) && Enabled(s, e) && j in s.jobs && Active(s.jobs[j])
    ensures var (s', d) := (Next(s, e, max), s.jobs[j].document);
      && j in s'.jobs && s'.jobs[j].document == d
      && (Active(s'.jobs[j]) || (e.Reclaim? && e.job == j && s.jobs[j].attempts == max) ||
          (d in s'.documents && s'.documents[d].status != Processing))
  {
    hide JobsSound, RowsSound, ReadySound, RowIds, Children, Replaced, NoneActive;
    JobIsSound(s, max);
    if Actor(e).Some? && e.worker in s.workers {
      assert WorkerSound(s, e.worker, max);
    }
  }

  lemma NewlyProcessingIsActive(s: System, e: Event, max: nat, d: nat)
    requires Inv(s, max) && Enabled(s, e) && d in Next(s, e, max).documents
    requires Next(s, e, max).documents[d].status == Processing
    ensures d in s.documents
    ensures s.documents[d].status == Processing || !NoneActive(Next(s, e, max).jobs, d)
  {
    hide JobsSound, RowsSound, ReadySound, RowIds, Children, Replaced;
    if e.Begin? {
      assert s.workers[e.worker].job in Next(s, e, max).jobs;
    }
  }

  lemma LastReclaimStrands(s: System, max: nat, j: nat)
    requires Inv(s, max) && LastTry(s, max) && Enabled(s, Reclaim(j)) && s.jobs[j].attempts == max
    ensures Stranded(Next(s, Reclaim(j), max), s.jobs[j].document)
  {
    hide WorkersSound, RowsSound, ReadySound;
  }

  /**
   The one way to strand a document: the reclaim pass reaches a job that has no attempt left.
   Any other step leaves a document that is in PROCESSING with an active job.
   */
  lemma StrandedExactlyByLastReclaim(s: System, e: Event, max: nat, d: nat)
    requires Inv(s, max) && LastTry(s, max) && Enabled(s, e) && max >= 1 && !Stranded(s, d)
    ensures Stranded(Next(s, e, max), d) <==>
            e.Reclaim? && s.jobs[e.job].attempts == max && s.jobs[e.job].document == d
  {
    if e.Reclaim? && s.jobs[e.job].attempts == max && s.jobs[e.job].document == d {
      LastReclaimStrands(s, max, e.job);
    } else if Stranded(Next(s, e, max), d) {
      hide Inv, LastTry, Next;
      NewlyProcessingIsActive(s, e, max, d);
      var j :| j in s.jobs && s.jobs[j].document == d && Active(s.jobs[j]);
      ActiveJobStays(s, e, max, j);
      assert false;
    }
  }

  lemma {:induction false} RunKeepsLastTry(events: seq<Event>, max: nat)
    requires LegalFrom(EMPTY, events, max) && max >= 1
    ensures LastTry(AfterFrom(EMPTY, events, max), max)
  {
    if events != [] {
      hide Inv, Next, Enabled, LastTry;
      var init := events[..|events|-1];
      EmptyIsSound(max);
      RunKeepsInv(EMPTY, init, max);
      RunKeepsLastTry(init, max);
      StepKeepsLastTry(AfterFrom(EMPTY, init, max), events[|events|-1], max);
    }
  }

  /** The same for the last step of any run: it strands a document exactly if it reclaims a job on its last attempt. */
  lemma RunStrandsExactlyByLastReclaim(events: seq<Event>, e: Event, max: nat, d: nat)
    requires LegalFrom(EMPTY, events + [e], max) && LegalFrom(EMPTY, events, max) && max >= 1
    requires !Stranded(AfterFrom(EMPTY, events, max), d)
    ensures var s := AfterFrom(EMPTY, events, max);
      Stranded(AfterFrom(EMPTY, events + [e], max), d) <==>
      e.Reclaim? && e.job in s.jobs && s.jobs[e.job].attempts == max && s.jobs[e.job].document == d
  {
    assert (events + [e])[..|events|] == events;
    EmptyIsSound(max);
    RunKeepsInv(EMPTY, events, max);
    RunKeepsLastTry(events, max);
    StrandedExactlyByLastReclaim(AfterFrom(EMPTY, events, max), e, max, d);
  }

  /** The first document, claimed and past its PARSE transition. */
  function ParsedOnce(fingerprint: nat): System {
    System(map[0 := Job(0, RUNNING, 1)], map[0 := Document(Processing, None)], map[], {},
           map[0 := Worker(0, Parsed(fingerprint))])
  }

  lemma ParsedOnceIsReached(fingerprint: nat)
    ensures LegalFrom(EMPTY, [Upload(0, 0), Claim(0, 0), Begin(0, fingerprint)], 1)
    ensures AfterFrom(EMPTY, [Upload(0, 0), Claim(0, 0), Begin(0, fingerprint)], 1) == ParsedOnce(fingerprint)
  {
    hide LegalFrom, AfterFrom;
    NoStepYet(EMPTY, 1);
    OneMoreStep(EMPTY, [], Upload(0, 0), 1);
    assert [] + [Upload(0, 0)] == [Upload(0, 0)];
    OneMoreStep(EMPTY, [Upload(0, 0)], Claim(0, 0), 1);
    assert [Upload(0, 0)] + [Claim(0, 0)] == [Upload(0, 0), Claim(0, 0)];
    OneMoreStep(EMPTY, [Upload(0, 0), Claim(0, 0)], Begin(0, fingerprint), 1);
    assert [Upload(0, 0), Claim(0, 0)] + [Begin(0, fingerprint)] == [Upload(0, 0), Claim(0, 0), Begin(0, fingerprint)];
  }

  lemma NoStepYet(start: System, max: nat)
    ensures LegalFrom(start, [], max) && AfterFrom(start, [], max) == start
  {
  }

  lemma CrashThenReclaim(fingerprint: nat)
    ensures Enabled(ParsedOnce(fingerprint), Crash(0))
    ensures var s := Next(ParsedOnce(fingerprint), Crash(0), 1);
      && Enabled(s, Reclaim(0)) && Stranded(Next(s, Reclaim(0), 1), 0)
      && Next(s, Reclaim(0), 1).jobs == map[0 := Job(0, FAILED, 1)]
  {
  }

  /** Such a run exists: with one attempt allowed, a worker dies after the PARSE transition and its job is reclaimed. */
  lemma ADocumentCanBeStranded(fingerprint: nat)
    ensures var events := [Upload(0, 0), Claim(0, 0), Begin(0, fingerprint)] + [Crash(0)] + [Reclaim(0)];
      && LegalFrom(EMPTY, events, 1) && Stranded(AfterFrom(EMPTY, events, 1), 0)
      && AfterFrom(EMPTY, events, 1).jobs == map[0 := Job(0, FAILED, 1)]
  {
    hide LegalFrom, AfterFrom, Enabled, Next, Stranded;
    var begun := [Upload(0, 0), Claim(0, 0), Begin(0, fingerprint)];
    ParsedOnceIsReached(fingerprint);
    CrashThenReclaim(fingerprint);
    OneMoreStep(EMPTY, begun, Crash(0), 1);
    OneMoreStep(EMPTY, begun + [Crash(0)], Reclaim(0), 1);
  }
}
