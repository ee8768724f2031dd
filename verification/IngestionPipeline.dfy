/**
 `IngestionPipeline.process` and `_handle_failure` (app/ingestion/pipeline.py) as code on the
 stores, with the worker passes of workers/ingestion_worker.py. Anything may raise, and the
 process may die, at every commit and every external effect; whatever happens, what one run
 did to the stores is a legal sequence of the protocol's steps.
 */
module IngestionPipeline {
  import opened Common
  import opened IngestionSteps
  import opened IngestionSafety
  import opened IngestionRuns

  /** What happens at a point of the run: it goes on, an exception is raised, or the worker dies. */
  datatype Fault = Works | Raises(terminal: bool, conflict: bool) | Dies

  datatype Outcome = Succeeded | Skipped | Failure | Lost

  // ---- one more step of a run -----------------------------------------------------------------

  /** The run so far is legal and has led to these stores. */
  ghost predicate Reaches(start: System, trace: seq<Event>, max: nat, s: System) {
    LegalFrom(start, trace, max) && AfterFrom(start, trace, max) == s
  }

  lemma Step(start: System, trace: seq<Event>, max: nat, s: System, e: Event)
    requires Reaches(start, trace, max, s) && Enabled(s, e)
    ensures Reaches(start, trace + [e], max, Next(s, e, max))
  {
    hide LegalFrom, AfterFrom, Enabled, Next;
    OneMoreStep(start, trace, e, max);
  }

  lemma SkipStep(start: System, trace: seq<Event>, max: nat, s: System, w: nat, f: nat)
    requires Reaches(start, trace, max, s) && At(s, w) && s.workers[w].stage.Claimed?
    requires UpToDate(s.documents[DocumentAt(s, w)], f)
    ensures var j := s.workers[w].job;
      Reaches(start, trace + [Skip(w, f)], max,
              s.(jobs := s.jobs[j := s.jobs[j].(status := SUCCEEDED)], workers := s.workers - {w}))
  {
    hide Reaches;
    Step(start, trace, max, s, Skip(w, f));
  }

  lemma BeginStep(start: System, trace: seq<Event>, max: nat, s: System, w: nat, f: nat)
    requires Reaches(start, trace, max, s) && At(s, w) && s.workers[w].stage.Claimed?
    requires !UpToDate(s.documents[DocumentAt(s, w)], f)
    ensures var (j, d) := (s.workers[w].job, DocumentAt(s, w));
      Reaches(start, trace + [Begin(w, f)], max,
              s.(jobs := s.jobs[j := Job(d, RUNNING, s.jobs[j].attempts + 1)],
                 documents := s.documents[d := s.documents[d].(status := Processing)],
                 workers := s.workers[w := Worker(j, Parsed(f))]))
  {
    hide Reaches;
    Step(start, trace, max, s, Begin(w, f));
  }

  lemma DropSomeStep(start: System, trace: seq<Event>, max: nat, s: System, w: nat, ids: set<nat>)
    requires Reaches(start, trace, max, s) && At(s, w) && s.workers[w].stage.Parsed?
    ensures var gone := ids * RowIds(s.rows, DocumentAt(s, w));
      Reaches(start, trace + [DropSome(w, gone)], max, s.(points := s.points - gone))
  {
    hide Reaches, RowIds;
    Step(start, trace, max, s, DropSome(w, ids * RowIds(s.rows, DocumentAt(s, w))));
  }

  lemma DropAllStep(start: System, trace: seq<Event>, max: nat, s: System, w: nat)
    requires Reaches(start, trace, max, s) && At(s, w) && s.workers[w].stage.Parsed?
    ensures Reaches(start, trace + [DropAll(w)], max,
                    s.(points := s.points - RowIds(s.rows, DocumentAt(s, w)),
                       workers := s.workers[w := Worker(s.workers[w].job, Cleared(s.workers[w].stage.fingerprint))]))
  {
    hide Reaches, RowIds;
    Step(start, trace, max, s, DropAll(w));
  }

  lemma StoreStep(start: System, trace: seq<Event>, max: nat, s: System, w: nat, children: set<nat>, parents: set<nat>)
    requires Reaches(start, trace, max, s) && At(s, w) && s.workers[w].stage.Cleared?
    requires children !! parents && children + parents !! s.rows.Keys
    ensures var (d, f) := (DocumentAt(s, w), s.workers[w].stage.fingerprint);
      Reaches(start, trace + [Store(w, children, parents)], max,
              s.(rows := Replaced(s.rows, d, children, parents, f),
                 documents := s.documents[d := s.documents[d].(fingerprint := Some(f))],
                 workers := s.workers[w := Worker(s.workers[w].job, Stored(f))]))
  {
    hide Reaches, Replaced;
    Step(start, trace, max, s, Store(w, children, parents));
  }

  lemma IndexStep(start: System, trace: seq<Event>, max: nat, s: System, w: nat, id: nat)
    requires Reaches(start, trace, max, s) && At(s, w) && s.workers[w].stage.Stored?
    requires id in Children(s.rows, DocumentAt(s, w))
    ensures Reaches(start, trace + [Index(w, id)], max, s.(points := s.points + {id}))
  {
    hide Reaches, Children;
    Step(start, trace, max, s, Index(w, id));
  }

  lemma FinishStep(start: System, trace: seq<Event>, max: nat, s: System, w: nat)
    requires Reaches(start, trace, max, s) && At(s, w) && s.workers[w].stage.Stored?
    requires Children(s.rows, DocumentAt(s, w)) <= s.points
    ensures var (j, d) := (s.workers[w].job, DocumentAt(s, w));
      Reaches(start, trace + [Finish(w)], max,
              s.(jobs := s.jobs[j := s.jobs[j].(status := SUCCEEDED)],
                 documents := s.documents[d := s.documents[d].(status := Ready)], workers := s.workers - {w}))
  {
    hide Reaches, Children;
    Step(start, trace, max, s, Finish(w));
  }

  lemma CrashStep(start: System, trace: seq<Event>, max: nat, s: System, w: nat)
    requires Reaches(start, trace, max, s) && w in s.workers
    ensures Reaches(start, trace + [Crash(w)], max, s.(workers := s.workers - {w}))
  {
    hide Reaches;
    Step(start, trace, max, s, Crash(w));
  }

  /** Nothing but the entry of `x` differs. */
  ghost predicate OnlyAt<V>(m: map<nat, V>, m': map<nat, V>, x: nat) {
    x in m && x in m' && m' == m[x := m'[x]]
  }

  /**
   The job after a run that ended at point `k` of `n`: the PARSE commit counts an attempt; a
   failure gives the job back if an attempt is left and the error is not final. Until the
   job was read the failing attempt counts as the first.
   */
  ghost predicate JobLeft(job: Job, job': Job, k: nat, n: nat, fault: Fault, max: nat) {
    && job'.document == job.document
    && job'.attempts == job.attempts + (if k >= 2 && n > 2 then 1 else 0)
    && (job'.status == SUCCEEDED <==> k == n)
    && (job'.status == RUNNING <==> k < n && fault.Dies?)
    && (job'.status == PENDING <==>
          k < n && fault.Raises? && (if k == 0 then 1 else job.attempts + 1) < max && !fault.terminal)
  }

  /** The document: READY at the end, failed with its job, and otherwise PROCESSING from the PARSE commit on. */
  ghost predicate DocumentLeft(document: Document, document': Document, job': JobStatus, k: nat, n: nat, fault: Fault,
                               fingerprint: nat) {
    && document'.fingerprint == (if k >= 4 && n > 2 then Some(fingerprint) else document.fingerprint)
    && (k == n ==> document'.status == Ready)
    && (job' == FAILED && fault.Raises? ==> document'.status == if fault.conflict then InConflict else Broken)
    && (k < n && job' != FAILED ==> document'.status == if k >= 2 then Processing else document.status)
  }

  /** Rows and vectors: untouched, or some old vectors gone, or all of them, or the new rows in with some vectors. */
  ghost predicate IndexLeft(rows: map<nat, Row>, rows': map<nat, Row>, points: set<nat>, points': set<nat>, d: nat,
                            fingerprint: nat, children: set<nat>, parents: set<nat>, dropped: set<nat>, done: set<nat>,
                            k: nat, n: nat) {
    var oldIds := RowIds(rows, d);
    && (if k >= 4 && n > 2 then RowsReplaced(rows, rows', d, children, parents, fingerprint) else rows' == rows)
    && done <= children && |done| == (if k == n > 2 then |children| else if k >= 4 then k - 4 else 0)
    && points' == if k < 2 || n == 2 then points
                  else if k == 2 then points - dropped * oldIds else points - oldIds + done
  }

  class Stores {
    var jobs: map<nat, Job>
    var documents: map<nat, Document>
    var rows: map<nat, Row>
    var points: set<nat>

    ghost function State(workers: map<nat, Worker>): System
      reads this
    {
      System(jobs, documents, rows, points, workers)
    }

    constructor ()
      ensures State(map[]) == EMPTY
    {
      jobs, documents, rows, points := map[], map[], map[], {};
    }

    /** `_handle_failure` */
    method HandleFailure(j: nat, attempt: nat, terminal: bool, conflict: bool, max: nat)
      requires j in jobs && jobs[j].document in documents
      modifies `jobs, `documents
      ensures var retry := attempt < max && !terminal;
        && jobs == old(jobs)[j := old(jobs)[j].(status := if retry then PENDING else FAILED)]
        && documents == if retry then old(documents) else old(documents)[old(jobs)[j].document :=
             old(documents)[old(jobs)[j].document].(status := if conflict then InConflict else Broken)]
    {
      if attempt < max && !terminal {
        jobs := jobs[j := jobs[j].(status := PENDING)];
      } else {
        jobs := jobs[j := jobs[j].(status := FAILED)];
        var d := jobs[j].document;
        documents := documents[d := documents[d].(status := if conflict then InConflict else Broken)];
      }
    }

    /** The run ends here: the worker dies, or the exception is handled. */
    method Stop(ghost w: nat, j: nat, fault: Fault, ghost loaded: bool, attempt: nat, max: nat,
                ghost start: System, ghost trace: seq<Event>, ghost team: map<nat, Worker>)
      returns (outcome: Outcome, ghost trace': seq<Event>)
      requires fault != Works && (fault.Raises? && fault.conflict ==> fault.terminal)
      requires Reaches(start, trace, max, State(team))
      requires At(State(team), w) && team[w].job == j && attempt == AttemptSeen(jobs[j], team[w].stage, loaded)
      modifies `jobs, `documents
      ensures outcome == if fault.Dies? then Lost else Failure
      ensures OnlyAt(old(jobs), jobs, j)
      ensures var d := old(jobs)[j].document;
        && OnlyAt(old(documents), documents, d)
        && Closes(fault, attempt, max, old(jobs)[j], old(documents)[d], jobs[j], documents[d])
      ensures Reaches(start, trace', max, State(team - {w}))
    {
      hide Reaches;
      if fault.Dies? {
        CrashStep(start, trace, max, State(team), w);
        trace' := trace + [Crash(w)];
        outcome := Lost;
      } else {
        ghost var e := Raise(w, loaded, fault.terminal, fault.conflict);
        Step(start, trace, max, State(team), e);
        trace' := trace + [e];
        HandleFailure(j, attempt, fault.terminal, fault.conflict, max);
        outcome := Failure;
      }
    }

    /**
     `process` of a claimed job `j` by worker `w`. `fingerprint` is that of the document under
     the current pipeline; `children` and `parents` are the ids the new chunk rows will get;
     `faults(i)` says what happens at point `i`, and `dropped` which old vectors are gone if
     deleting them fails. A run has `n` points: reading, then either the commit of a skip, or
     the PARSE commit, the vector delete, the chunk commit, an upsert a child and the closing
     commit. It ends at the first point `k` that fails, or at `n`; `done` are the children
     whose vectors it wrote.
     */
    method Process(ghost w: nat, j: nat, fingerprint: nat, children: set<nat>, parents: set<nat>, dropped: set<nat>,
                   faults: nat -> Fault, max: nat, ghost team: map<nat, Worker>)
      returns (outcome: Outcome, ghost trace: seq<Event>, ghost k: nat, ghost n: nat, ghost done: set<nat>)
      requires max >= 1 && Inv(State(team), max) && w in team && team[w] == Worker(j, Claimed)
      requires j in jobs && jobs[j].document in documents
      requires children !! parents && children + parents !! rows.Keys
      requires forall i :: faults(i).Raises? && faults(i).conflict ==> faults(i).terminal
      modifies this
      ensures LegalFrom(old(State(team)), trace, max)
      ensures AfterFrom(old(State(team)), trace, max) == State(team - {w})
      ensures Inv(State(team - {w}), max)
      ensures var document := old(documents)[old(jobs)[j].document];
        n == if document.status == Ready && document.fingerprint == Some(fingerprint) then 2 else 5 + |children|
      ensures EndsAt(faults, k, n)
      ensures outcome == if k == n then (if n == 2 then Skipped else Succeeded)
                         else if faults(k).Dies? then Lost else Failure
      ensures OnlyAt(old(jobs), jobs, j)
      ensures JobLeft(old(jobs)[j], jobs[j], k, n, FaultAt(faults, k, n), max)
      ensures OnlyAt(old(documents), documents, old(jobs)[j].document)
      ensures var d := old(jobs)[j].document;
        DocumentLeft(old(documents)[d], documents[d], jobs[j].status, k, n, FaultAt(faults, k, n), fingerprint)
      ensures IndexLeft(old(rows), rows, old(points), points, old(jobs)[j].document, fingerprint, children, parents,
                        dropped, done, k, n)
      ensures k == n ==> var d := jobs[j].document;
        && UpToDate(documents[d], fingerprint)
        && (outcome.Succeeded? ==> Children(rows, d) == children)
    {
      hide Reaches, LegalFrom, AfterFrom, Inv, RowIds, Children, DocumentLeft, IndexLeft, Closes, OnlyAt;
      ghost var start := State(team);
      trace, k, done := [], 0, {};
      HeldJob(start, w, max);
      StartsHere(start, max);
      var d := jobs[j].document;
      n := if UpToDate(documents[d], fingerprint) then 2 else 5 + |children|;
      // read the job and the document
      var loaded := faults(0) == Works;
      var attempt := if loaded then jobs[j].attempts + 1 else 1;
      if faults(0) != Works || faults(1) != Works {
        k := if loaded then 1 else 0;
        IndexUntouched(rows, points, d, fingerprint, children, parents, dropped, k, n);
        var fault := if loaded then faults(1) else faults(0);
        outcome, trace := Stop(w, j, fault, loaded, attempt, max, start, trace, team);
      } else if UpToDate(documents[d], fingerprint) {
        k := 2;
        IndexUntouched(rows, points, d, fingerprint, children, parents, dropped, k, n);
        SkipStep(start, trace, max, State(team), w, fingerprint);
        trace := trace + [Skip(w, fingerprint)];
        SetIsOnlyAt(jobs, j, jobs[j].(status := SUCCEEDED));
        SameIsOnlyAt(documents, d);
        jobs := jobs[j := jobs[j].(status := SUCCEEDED)];
        ClosesWell(attempt, max, old(jobs)[j], documents[d]);
        outcome := Skipped;
      } else {
        outcome, trace, k, done :=
          Restart(w, j, fingerprint, children, parents, dropped, faults, max, start, trace, team);
      }
      OnlyAtHas(old(jobs), jobs, j);
      OnlyAtHas(old(documents), documents, d);
      Leaves(old(jobs)[j], old(documents)[d], k, n, FaultAt(faults, k, n), fingerprint, attempt, max, jobs[j],
             documents[d]);
      LeavesReady(old(documents)[d], documents[d], jobs[j].status, old(rows), rows, old(points), points, d, fingerprint,
                  children, parents, dropped, done, k, n, FaultAt(faults, k, n));
      EndsSound(start, trace, max, State(team - {w}));
    }

    /** Commit the PARSE transition, and go on from there. */
    method Restart(ghost w: nat, j: nat, fingerprint: nat, children: set<nat>, parents: set<nat>, dropped: set<nat>,
                   faults: nat -> Fault, max: nat,
                   ghost start: System, ghost trace: seq<Event>, ghost team: map<nat, Worker>)
      returns (outcome: Outcome, ghost trace': seq<Event>, ghost k: nat, ghost done: set<nat>)
      requires j in jobs && jobs[j].document in documents && w in team && team[w] == Worker(j, Claimed)
      requires !UpToDate(documents[jobs[j].document], fingerprint)
      requires Reaches(start, trace, max, State(team))
      requires children !! parents && children + parents !! rows.Keys
      requires forall i :: faults(i).Raises? && faults(i).conflict ==> faults(i).terminal
      requires forall i :: 0 <= i < 2 ==> faults(i) == Works
      modifies this
      ensures Reaches(start, trace', max, State(team - {w}))
      ensures k >= 2 && EndsAt(faults, k, 5 + |children|)
      ensures outcome == if k == 5 + |children| then Succeeded else if faults(k).Dies? then Lost else Failure
      ensures OnlyAt(old(jobs), jobs, j) && OnlyAt(old(documents), documents, old(jobs)[j].document)
      ensures var d, attempt := old(jobs)[j].document, old(jobs)[j].attempts + 1;
        var document := old(documents)[d].(status := Processing);
        Closes(FaultAt(faults, k, 5 + |children|), attempt, max, Job(d, RUNNING, attempt),
               if k >= 4 then document.(fingerprint := Some(fingerprint)) else document, jobs[j], documents[d])
      ensures IndexLeft(old(rows), rows, old(points), points, old(jobs)[j].document, fingerprint, children, parents,
                        dropped, done, k, 5 + |children|)
    {
      hide Reaches, RowIds, IndexLeft, Closes, OnlyAt, UpToDate, EndsAt;
      var d, attempt := jobs[j].document, jobs[j].attempts + 1;
      BeginStep(start, trace, max, State(team), w, fingerprint);
      ghost var crew := team[w := Worker(j, Parsed(fingerprint))];
      SetIsOnlyAt(jobs, j, Job(d, RUNNING, attempt));
      SetIsOnlyAt(documents, d, documents[d].(status := Processing));
      jobs := jobs[j := Job(d, RUNNING, attempt)];
      documents := documents[d := documents[d].(status := Processing)];
      ghost var jobs1, documents1 := jobs, documents;
      outcome, trace', k, done := Rebuild(w, j, d, fingerprint, children, parents, dropped, faults, max, start,
                                          trace + [Begin(w, fingerprint)], crew);
      SameTeam(team, crew - {w}, w);
      OnlyAtTwice(old(jobs), jobs1, jobs, j);
      OnlyAtTwice(old(documents), documents1, documents, d);
    }

    /** From the PARSE transition on: parse, drop the old vectors, commit new chunks, index them. */
    method Rebuild(ghost w: nat, j: nat, d: nat, fingerprint: nat, children: set<nat>, parents: set<nat>,
                   dropped: set<nat>, faults: nat -> Fault, max: nat,
                   ghost start: System, ghost trace: seq<Event>, ghost team: map<nat, Worker>)
      returns (outcome: Outcome, ghost trace': seq<Event>, ghost k: nat, ghost done: set<nat>)
      requires j in jobs && jobs[j].document == d && d in documents
      requires w in team && team[w] == Worker(j, Parsed(fingerprint))
      requires Reaches(start, trace, max, State(team))
      requires children !! parents && children + parents !! rows.Keys
      requires forall i :: faults(i).Raises? && faults(i).conflict ==> faults(i).terminal
      requires forall i :: 0 <= i < 2 ==> faults(i) == Works
      modifies this
      ensures Reaches(start, trace', max, State(team - {w}))
      ensures k >= 2 && EndsAt(faults, k, 5 + |children|)
      ensures outcome == if k == 5 + |children| then Succeeded else if faults(k).Dies? then Lost else Failure
      ensures OnlyAt(old(jobs), jobs, j) && OnlyAt(old(documents), documents, d)
      ensures Closes(FaultAt(faults, k, 5 + |children|), old(jobs)[j].attempts, max, old(jobs)[j],
                     if k >= 4 then old(documents)[d].(fingerprint := Some(fingerprint)) else old(documents)[d],
                     jobs[j], documents[d])
      ensures IndexLeft(old(rows), rows, old(points), points, d, fingerprint, children, parents, dropped, done, k,
                        5 + |children|)
    {
      hide Reaches, Replaced, Children, RowsReplaced, RowIds, IndexLeft, Closes, OnlyAt;
      done := {};
      ghost var crew, n := team, 5 + |children|;
      var oldIds := RowIds(rows, d);
      if faults(2) != Works {
        k := 2;
        DropSomeStep(start, trace, max, State(team), w, dropped);
        IndexPartlyDropped(rows, points, d, fingerprint, children, parents, dropped, n);
        points := points - dropped * oldIds;
        outcome, trace' := Stop(w, j, faults(2), true, jobs[j].attempts, max, start,
                                trace + [DropSome(w, dropped * oldIds)], team);
        return;
      }
      DropAllStep(start, trace, max, State(team), w);
      trace' := trace + [DropAll(w)];
      points := points - oldIds;
      crew := crew[w := Worker(j, Cleared(fingerprint))];
      if faults(3) != Works {
        k := 3;
        IndexDropped(rows, old(points), d, fingerprint, children, parents, dropped, n);
        outcome, trace' := Stop(w, j, faults(3), true, jobs[j].attempts, max, start, trace', crew);
        SameTeam(team, crew - {w}, w);
        return;
      }
      outcome, trace', k, done :=
        StoreChunks(w, j, d, fingerprint, children, parents, faults, max, start, trace', crew);
      IndexStored(old(rows), rows, old(points), d, fingerprint, children, parents, dropped, done, k, n);
      SameTeam(team, crew - {w}, w);
    }

    /** Cut the chunks, commit them with the fingerprint, and index them. */
    method StoreChunks(ghost w: nat, j: nat, d: nat, fingerprint: nat, children: set<nat>, parents: set<nat>,
                       faults: nat -> Fault, max: nat,
                       ghost start: System, ghost trace: seq<Event>, ghost team: map<nat, Worker>)
      returns (outcome: Outcome, ghost trace': seq<Event>, ghost k: nat, ghost done: set<nat>)
      requires j in jobs && jobs[j].document == d && d in documents
      requires w in team && team[w] == Worker(j, Cleared(fingerprint))
      requires Reaches(start, trace, max, State(team))
      requires children !! parents && children + parents !! rows.Keys
      requires forall i :: faults(i).Raises? && faults(i).conflict ==> faults(i).terminal
      requires forall i :: 0 <= i < 4 ==> faults(i) == Works
      modifies this
      ensures Reaches(start, trace', max, State(team - {w}))
      ensures k >= 4 && EndsAt(faults, k, 5 + |children|)
      ensures outcome == if k == 5 + |children| then Succeeded else if faults(k).Dies? then Lost else Failure
      ensures OnlyAt(old(jobs), jobs, j) && OnlyAt(old(documents), documents, d)
      ensures Closes(FaultAt(faults, k, 5 + |children|), old(jobs)[j].attempts, max, old(jobs)[j],
                     old(documents)[d].(fingerprint := Some(fingerprint)), jobs[j], documents[d])
      ensures RowsReplaced(old(rows), rows, d, children, parents, fingerprint)
      ensures done <= children && |done| == if k == 5 + |children| then |children| else k - 4
      ensures points == old(points) + done
    {
      hide Reaches, Replaced, Children, RowsReplaced, RowIds, Closes, OnlyAt, EndsAt;
      StoreStep(start, trace, max, State(team), w, children, parents);
      ReplacedRows(rows, d, children, parents, fingerprint, d);
      ReplacedIs(rows, d, children, parents, fingerprint);
      SetIsOnlyAt(documents, d, documents[d].(fingerprint := Some(fingerprint)));
      rows := Replaced(rows, d, children, parents, fingerprint);
      documents := documents[d := documents[d].(fingerprint := Some(fingerprint))];
      ghost var crew, documents1 := team[w := Worker(j, Stored(fingerprint))], documents;
      outcome, trace', k, done := IndexChunks(w, j, d, fingerprint, children, faults, max, start,
                                              trace + [Store(w, children, parents)], crew);
      SameTeam(team, crew - {w}, w);
      OnlyAtTwice(old(documents), documents1, documents, d);
    }

    /** Embed, upsert the vectors, and commit the result. */
    method IndexChunks(ghost w: nat, j: nat, d: nat, fingerprint: nat, children: set<nat>, faults: nat -> Fault,
                       max: nat, ghost start: System, ghost trace: seq<Event>, ghost team: map<nat, Worker>)
      returns (outcome: Outcome, ghost trace': seq<Event>, ghost k: nat, ghost done: set<nat>)
      requires j in jobs && jobs[j].document == d && d in documents && documents[d].fingerprint == Some(fingerprint)
      requires w in team && team[w] == Worker(j, Stored(fingerprint)) && Children(rows, d) == children
      requires Reaches(start, trace, max, State(team))
      requires forall i :: faults(i).Raises? && faults(i).conflict ==> faults(i).terminal
      requires forall i :: 0 <= i < 4 ==> faults(i) == Works
      modifies `points, `jobs, `documents
      ensures Reaches(start, trace', max, State(team - {w}))
      ensures k >= 4 && EndsAt(faults, k, 5 + |children|)
      ensures outcome == if k == 5 + |children| then Succeeded else if faults(k).Dies? then Lost else Failure
      ensures OnlyAt(old(jobs), jobs, j) && OnlyAt(old(documents), documents, d)
      ensures Closes(FaultAt(faults, k, 5 + |children|), old(jobs)[j].attempts, max, old(jobs)[j],
                     old(documents)[d], jobs[j], documents[d])
      ensures done <= children && |done| == if k == 5 + |children| then |children| else k - 4
      ensures points == old(points) + done
    {
      hide Reaches, RowIds, Children, Closes, OnlyAt, Writing;
      var fault;
      ghost var todo;
      NoneWritten(children, points, faults);
      fault, trace', k, todo, done := WriteVectors(w, j, d, children, faults, start, trace, max, team);
      WrittenSoFar(children, todo, done, old(points), points, faults, k);
      if fault != Works {
        outcome, trace' := Stop(w, j, fault, true, jobs[j].attempts, max, start, trace', team);
        return;
      }
      k := k + 1;
      FinishStep(start, trace', max, State(team), w);
      trace' := trace' + [Finish(w)];
      ClosesWell(jobs[j].attempts, max, jobs[j], documents[d]);
      SetIsOnlyAt(jobs, j, jobs[j].(status := SUCCEEDED));
      SetIsOnlyAt(documents, d, documents[d].(status := Ready));
      jobs := jobs[j := jobs[j].(status := SUCCEEDED)];
      documents := documents[d := documents[d].(status := Ready)];
      outcome := Succeeded;
    }

    /** The upserts, and what comes of the closing commit after them. */
    method WriteVectors(ghost w: nat, j: nat, ghost d: nat, children: set<nat>, faults: nat -> Fault,
                        ghost start: System, ghost trace: seq<Event>, ghost max: nat, ghost team: map<nat, Worker>)
      returns (fault: Fault, ghost trace': seq<Event>, ghost k: nat, ghost todo: set<nat>, ghost done: set<nat>)
      requires j in jobs && jobs[j].document == d && d in documents
      requires w in team && team[w].job == j && team[w].stage.Stored? && Children(rows, d) == children
      requires Reaches(start, trace, max, State(team))
      requires Writing(children, children, {}, points, points, faults, 4)
      modifies `points
      ensures Reaches(start, trace', max, State(team))
      ensures Writing(children, todo, done, old(points), points, faults, k)
      ensures fault == faults(k) && (fault == Works ==> todo == {})
    {
      hide Reaches, Children, Writing;
      trace', done := trace, {};
      var left, point := children, 4;
      while left != {} && faults(point) == Works
        invariant Writing(children, left, done, old(points), points, faults, point)
        invariant Reaches(start, trace', max, State(team))
        decreases |left|
      {
        var id :| id in left;
        WritesOne(children, left, done, old(points), points, faults, point, id);
        IndexStep(start, trace', max, State(team), w, id);
        trace' := trace' + [Index(w, id)];
        points := points + {id};
        left := left - {id};
        done := done + {id};
        point := point + 1;
      }
      k, fault, todo := point, faults(point), left;
    }
  }

  /** Points before `k` work, and point `k` is the first that does not, or there are only `k`. */
  ghost predicate EndsAt(faults: nat -> Fault, k: nat, n: nat) {
    k <= n && (forall i :: 0 <= i < k ==> faults(i) == Works) && (k < n ==> faults(k) != Works)
  }

  /** The vectors of `done` are written, those of `todo` are not, and every point before `point` worked. */
  ghost predicate Writing(children: set<nat>, todo: set<nat>, done: set<nat>, before: set<nat>, points: set<nat>,
                          faults: nat -> Fault, point: nat) {
    && todo !! done && children == todo + done && points == before + done
    && |children| == |todo| + |done| && point == 4 + |done|
    && forall i :: 0 <= i < point ==> faults(i) == Works
  }

  lemma NoneWritten(children: set<nat>, points: set<nat>, faults: nat -> Fault)
    requires forall i :: 0 <= i < 4 ==> faults(i) == Works
    ensures Writing(children, children, {}, points, points, faults, 4)
  {
  }

  lemma WritesOne(children: set<nat>, todo: set<nat>, done: set<nat>, before: set<nat>, points: set<nat>,
                  faults: nat -> Fault, point: nat, id: nat)
    requires Writing(children, todo, done, before, points, faults, point) && id in todo && faults(point) == Works
    ensures id in children && |todo - {id}| < |todo|
    ensures Writing(children, todo - {id}, done + {id}, before, points + {id}, faults, point + 1)
  {
  }

  lemma WrittenSoFar(children: set<nat>, todo: set<nat>, done: set<nat>, before: set<nat>, points: set<nat>,
                     faults: nat -> Fault, point: nat)
    requires Writing(children, todo, done, before, points, faults, point)
    ensures 4 <= point <= 4 + |children| && forall i :: 0 <= i < point ==> faults(i) == Works
    ensures done <= children && |done| == point - 4 && points == before + done
    ensures todo == {} ==> done == children && point == 4 + |children|
  {
  }

  function FaultAt(faults: nat -> Fault, k: nat, n: nat): Fault {
    if k < n then faults(k) else Works
  }

  /** What the end of a run makes of the job and its document. */
  ghost predicate Closes(fault: Fault, attempt: nat, max: nat, job: Job, document: Document, job': Job,
                         document': Document) {
    match fault
    case Works => job' == job.(status := SUCCEEDED) && document' == document.(status := Ready)
    case Dies => job' == job && document' == document
    case Raises(terminal, conflict) =>
      if attempt < max && !terminal then job' == job.(status := PENDING) && document' == document
      else job' == job.(status := FAILED) && document' == document.(status := if conflict then InConflict else Broken)
  }

  lemma Leaves(job: Job, document: Document, k: nat, n: nat, fault: Fault, fingerprint: nat, attempt: nat, max: nat,
               job': Job, document': Document)
    requires job.status == RUNNING && k <= n && 2 <= n && (n == 2 ==> document.status == Ready)
    requires (fault == Works <==> k == n) && attempt == if k == 0 then 1 else job.attempts + 1
    requires var document0 := if k >= 2 then document.(status := Processing) else document;
      if n == 2 then Closes(fault, attempt, max, job, document, job', document')
      else Closes(fault, attempt, max, if k >= 2 then Job(job.document, RUNNING, job.attempts + 1) else job,
                  if k >= 4 then document0.(fingerprint := Some(fingerprint)) else document0, job', document')
    ensures JobLeft(job, job', k, n, fault, max)
    ensures DocumentLeft(document, document', job'.status, k, n, fault, fingerprint)
  {
  }

  lemma LeavesReady(document: Document, document': Document, status': JobStatus, rows: map<nat, Row>,
                    rows': map<nat, Row>, points: set<nat>, points': set<nat>, d: nat, fingerprint: nat,
                    children: set<nat>, parents: set<nat>, dropped: set<nat>, done: set<nat>, k: nat, n: nat,
                    fault: Fault)
    requires DocumentLeft(document, document', status', k, n, fault, fingerprint)
    requires IndexLeft(rows, rows', points, points', d, fingerprint, children, parents, dropped, done, k, n)
    requires n == 2 || n > 4
    requires n == 2 ==> document.fingerprint == Some(fingerprint)
    requires children !! parents && children + parents !! rows.Keys
    ensures k == n ==> UpToDate(document', fingerprint)
    ensures k == n > 2 ==> Children(rows', d) == children
  {
    hide RowIds;
  }

  lemma ClosesWell(attempt: nat, max: nat, job: Job, document: Document)
    ensures Closes(Works, attempt, max, job, document, job.(status := SUCCEEDED), document.(status := Ready))
  {
  }

  lemma IndexUntouched(rows: map<nat, Row>, points: set<nat>, d: nat, fingerprint: nat, children: set<nat>,
                       parents: set<nat>, dropped: set<nat>, k: nat, n: nat)
    requires k < 2 || k == n == 2
    ensures IndexLeft(rows, rows, points, points, d, fingerprint, children, parents, dropped, {}, k, n)
  {
    hide RowIds, RowsReplaced;
  }

  lemma IndexPartlyDropped(rows: map<nat, Row>, points: set<nat>, d: nat, fingerprint: nat, children: set<nat>,
                           parents: set<nat>, dropped: set<nat>, n: nat)
    requires n > 2
    ensures IndexLeft(rows, rows, points, points - dropped * RowIds(rows, d), d, fingerprint, children, parents,
                      dropped, {}, 2, n)
  {
    hide RowIds, RowsReplaced;
  }

  lemma IndexDropped(rows: map<nat, Row>, points: set<nat>, d: nat, fingerprint: nat, children: set<nat>,
                     parents: set<nat>, dropped: set<nat>, n: nat)
    requires n > 3
    ensures IndexLeft(rows, rows, points, points - RowIds(rows, d), d, fingerprint, children, parents, dropped, {},
                      3, n)
  {
    hide RowIds, RowsReplaced;
    assert points - RowIds(rows, d) + {} == points - RowIds(rows, d);
  }

  lemma IndexStored(rows: map<nat, Row>, rows': map<nat, Row>, points: set<nat>, d: nat, fingerprint: nat,
                    children: set<nat>, parents: set<nat>, dropped: set<nat>, done: set<nat>, k: nat, n: nat)
    requires 4 <= k <= n && n > 4 && RowsReplaced(rows, rows', d, children, parents, fingerprint)
    requires done <= children && |done| == if k == n then |children| else k - 4
    ensures IndexLeft(rows, rows', points, points - RowIds(rows, d) + done, d, fingerprint, children, parents, dropped,
                      done, k, n)
  {
    hide RowIds, RowsReplaced;
  }

  lemma SetIsOnlyAt<V>(m: map<nat, V>, x: nat, v: V)
    requires x in m
    ensures OnlyAt(m, m[x := v], x)
  {
  }

  lemma SameIsOnlyAt<V>(m: map<nat, V>, x: nat)
    requires x in m
    ensures OnlyAt(m, m, x)
  {
  }

  lemma OnlyAtHas<V>(m: map<nat, V>, m': map<nat, V>, x: nat)
    requires OnlyAt(m, m', x)
    ensures x in m && x in m'
  {
  }

  lemma OnlyAtTwice<V>(m: map<nat, V>, m1: map<nat, V>, m2: map<nat, V>, x: nat)
    requires OnlyAt(m, m1, x) && OnlyAt(m1, m2, x)
    ensures OnlyAt(m, m2, x)
  {
  }

  /** The rows of a document are exactly the new ones; other rows are as they were. */
  ghost predicate RowsReplaced(rows: map<nat, Row>, rows': map<nat, Row>, d: nat, children: set<nat>,
                               parents: set<nat>, fingerprint: nat) {
    && (forall id :: id in rows' <==>
          (id in rows && rows[id].document != d) || id in children || id in parents)
    && (forall id :: id in rows' ==> rows'[id] == if id in children then Row(d, false, fingerprint)
                                                  else if id in parents then Row(d, true, fingerprint)
                                                  else if id in rows then rows[id] else rows'[id])
  }

  lemma ReplacedIs(rows: map<nat, Row>, d: nat, children: set<nat>, parents: set<nat>, f: nat)
    requires children !! parents && children + parents !! rows.Keys
    ensures RowsReplaced(rows, Replaced(rows, d, children, parents, f), d, children, parents, f)
  {
  }

  // ---- the worker's passes ------------------------------------------------------------------

  /** The due PENDING jobs, oldest first: `order` is creation order, `due` holds those past their backoff. */
  function DueJobs(jobs: map<nat, Job>, order: seq<nat>, due: set<nat>, limit: nat): (ids: seq<nat>)
    ensures |ids| <= limit
    ensures forall j :: j in ids ==> j in order && j in jobs && jobs[j].status == PENDING && j in due
  {
    if order == [] || limit == 0 then []
    else if order[0] in jobs && jobs[order[0]].status == PENDING && order[0] in due
    then [order[0]] + DueJobs(jobs, order[1..], due, limit - 1)
    else DueJobs(jobs, order[1..], due, limit)
  }

  /** A due job left behind means the limit was reached, and every claimed job is older. */
  lemma {:induction false} OldestFirst(jobs: map<nat, Job>, order: seq<nat>, due: set<nat>, limit: nat, i: nat)
    requires Distinct(order) && i < |order|
    requires order[i] in jobs && jobs[order[i]].status == PENDING && order[i] in due
    requires order[i] !in DueJobs(jobs, order, due, limit)
    ensures |DueJobs(jobs, order, due, limit)| == limit
    ensures forall j :: j in DueJobs(jobs, order, due, limit) ==> j in order[..i]
  {
    if limit > 0 && i > 0 {
      var took := order[0] in jobs && jobs[order[0]].status == PENDING && order[0] in due;
      OldestFirst(jobs, order[1..], due, if took then limit - 1 else limit, i - 1);
      assert order[..i] == [order[0]] + order[1..][..i-1];
    }
  }

  lemma {:induction false} DueOnce(jobs: map<nat, Job>, order: seq<nat>, due: set<nat>, limit: nat)
    requires Distinct(order)
    ensures Distinct(DueJobs(jobs, order, due, limit))
  {
    if order != [] && limit > 0 {
      var took := order[0] in jobs && jobs[order[0]].status == PENDING && order[0] in due;
      DueOnce(jobs, order[1..], due, if took then limit - 1 else limit);
      assert order[0] !in order[1..];
    }
  }

  function Claiming(jobs: map<nat, Job>, ids: seq<nat>): map<nat, Job> {
    map j | j in jobs :: if j in ids then jobs[j].(status := RUNNING) else jobs[j]
  }

  /** Worker `base + i` gets job `i`. */
  function ClaimEvents(ids: seq<nat>, base: nat): seq<Event> {
    if ids == [] then [] else ClaimEvents(ids[..|ids|-1], base) + [Claim(base + |ids| - 1, ids[|ids|-1])]
  }

  function Crew(workers: map<nat, Worker>, ids: seq<nat>, base: nat): map<nat, Worker> {
    if ids == [] then workers
    else Crew(workers, ids[..|ids|-1], base)[base + |ids| - 1 := Worker(ids[|ids|-1], Claimed)]
  }

  lemma {:induction false} CrewIs(workers: map<nat, Worker>, ids: seq<nat>, base: nat)
    ensures forall w :: w in Crew(workers, ids, base) ==> w in workers || base <= w < base + |ids|
  {
    if ids != [] {
      CrewIs(workers, ids[..|ids|-1], base);
    }
  }

  /** One UPDATE over distinct PENDING jobs is as good as claiming them one by one. */
  lemma {:induction false} ClaimIsSteps(s: System, ids: seq<nat>, base: nat, max: nat)
    requires Distinct(ids) && forall j :: j in ids ==> j in s.jobs && s.jobs[j].status == PENDING
    requires forall w :: w in s.workers ==> w < base
    ensures LegalFrom(s, ClaimEvents(ids, base), max)
    ensures AfterFrom(s, ClaimEvents(ids, base), max) ==
        s.(jobs := Claiming(s.jobs, ids), workers := Crew(s.workers, ids, base))
  {
    if ids == [] {
      assert Claiming(s.jobs, []) == s.jobs;
    } else {
      var init, j := ids[..|ids|-1], ids[|ids|-1];
      assert j !in init;
      ClaimIsSteps(s, init, base, max);
      CrewIs(s.workers, init, base);
      hide LegalFrom, AfterFrom, Claiming;
      NotYetClaimed(s.jobs, init, j);
      var e := Claim(base + |init|, j);
      OneMoreStep(s, ClaimEvents(init, base), e, max);
      ClaimOneMore(s.jobs, ids);
    }
  }

  lemma NotYetClaimed(jobs: map<nat, Job>, ids: seq<nat>, j: nat)
    requires j in jobs && j !in ids
    ensures j in Claiming(jobs, ids) && Claiming(jobs, ids)[j] == jobs[j]
  {
  }

  lemma ClaimOneMore(jobs: map<nat, Job>, ids: seq<nat>)
    requires ids != [] && ids[|ids|-1] in jobs
    ensures var j := ids[|ids|-1];
      Claiming(jobs, ids) == Claiming(jobs, ids[..|ids|-1])[j := jobs[j].(status := RUNNING)]
  {
    assert forall x :: x in ids <==> x in ids[..|ids|-1] || x == ids[|ids|-1];
  }

  /** A listed PENDING job that is past its backoff. */
  predicate IsDue(jobs: map<nat, Job>, order: seq<nat>, due: set<nat>, j: nat) {
    j in order && j in jobs && jobs[j].status == PENDING && j in due
  }

  /** `claim_pending`: one statement flips the oldest due jobs to RUNNING and returns them. */
  method ClaimPending(stores: Stores, order: seq<nat>, due: set<nat>, limit: nat, max: nat,
                      ghost team: map<nat, Worker>, ghost base: nat)
    returns (ids: seq<nat>)
    requires Distinct(order) && forall w :: w in team ==> w < base
    modifies stores`jobs
    ensures Distinct(ids) && |ids| <= limit
    ensures forall j :: j in ids ==> IsDue(old(stores.jobs), order, due, j)
    ensures forall i :: 0 <= i < |order| && IsDue(old(stores.jobs), order, due, order[i]) && order[i] !in ids ==>
      |ids| == limit && forall j :: j in ids ==> j in order[..i]
    ensures stores.jobs.Keys == old(stores.jobs).Keys
    ensures forall j :: j in stores.jobs ==>
      stores.jobs[j] == if j in ids then old(stores.jobs)[j].(status := RUNNING) else old(stores.jobs)[j]
    ensures LegalFrom(old(stores.State(team)), ClaimEvents(ids, base), max)
    ensures AfterFrom(old(stores.State(team)), ClaimEvents(ids, base), max) == stores.State(Crew(team, ids, base))
  {
    hide LegalFrom, AfterFrom;
    ids := DueJobs(stores.jobs, order, due, limit);
    DueOnce(stores.jobs, order, due, limit);
    ClaimIsSteps(stores.State(team), ids, base, max);
    forall i | 0 <= i < |order| && IsDue(stores.jobs, order, due, order[i]) && order[i] !in ids
      ensures |ids| == limit && forall j :: j in ids ==> j in order[..i]
    {
      OldestFirst(stores.jobs, order, due, limit, i);
    }
    stores.jobs := Claiming(stores.jobs, ids);
  }

  function Reclaims(stale: seq<nat>): seq<Event> {
    if stale == [] then [] else Reclaims(stale[..|stale|-1]) + [Reclaim(stale[|stale|-1])]
  }

  function Reclaimed(jobs: map<nat, Job>, stale: seq<nat>, max: nat): map<nat, Job> {
    map j | j in jobs ::
      if j in stale then jobs[j].(status := if jobs[j].attempts < max then PENDING else FAILED) else jobs[j]
  }

  lemma NoneReclaimed(jobs: map<nat, Job>, max: nat)
    ensures Reclaimed(jobs, [], max) == jobs
  {
  }

  lemma ReclaimOneMore(jobs: map<nat, Job>, stale: seq<nat>, i: nat, max: nat)
    requires i < |stale| && Distinct(stale) && stale[i] in jobs
    ensures var before, j := Reclaimed(jobs, stale[..i], max), stale[i];
      && j in before && before[j] == jobs[j]
      && Reclaimed(jobs, stale[..i+1], max) ==
          before[j := jobs[j].(status := if jobs[j].attempts < max then PENDING else FAILED)]
  {
    assert stale[i] !in stale[..i];
    assert forall x :: x in stale[..i+1] <==> x in stale[..i] || x == stale[i];
  }

  /** No live worker holds a stale job. */
  ghost predicate Abandoned(stale: seq<nat>, team: map<nat, Worker>) {
    forall j, w :: j in stale && w in team ==> team[w].job != j
  }

  /**
   `reclaim_stale_jobs`: the stale jobs get another attempt, or fail if none is left; no
   document changes. If their workers are gone, these are legal steps of the protocol.
   */
  method ReclaimStaleJobs(stores: Stores, stale: seq<nat>, max: nat, ghost team: map<nat, Worker>)
    requires Distinct(stale)
    requires forall j :: j in stale ==> j in stores.jobs && stores.jobs[j].status == RUNNING
    modifies stores`jobs
    ensures stores.jobs.Keys == old(stores.jobs).Keys
    ensures forall j :: j in stores.jobs ==>
      var job := old(stores.jobs)[j];
      stores.jobs[j] == if j in stale then job.(status := if job.attempts < max then PENDING else FAILED) else job
    ensures Abandoned(stale, team) ==>
      && LegalFrom(old(stores.State(team)), Reclaims(stale), max)
      && AfterFrom(old(stores.State(team)), Reclaims(stale), max) == stores.State(team)
  {
    hide LegalFrom, AfterFrom, Reclaimed, Distinct, Abandoned;
    ghost var start := stores.State(team);
    StartsHere(start, max);
    NoneReclaimed(start.jobs, max);
    for i := 0 to |stale|
      invariant stores.jobs == Reclaimed(old(stores.jobs), stale[..i], max)
      invariant Abandoned(stale, team) ==> LegalFrom(start, Reclaims(stale[..i]), max)
      invariant Abandoned(stale, team) ==> AfterFrom(start, Reclaims(stale[..i]), max) == stores.State(team)
    {
      var j := stale[i];
      assert j in stale;
      ReclaimOneMore(start.jobs, stale, i, max);
      assert stale[..i+1][..i] == stale[..i];
      if Abandoned(stale, team) {
        NobodyHolds(stale, team, j);
        OneMoreStep(start, Reclaims(stale[..i]), Reclaim(j), max);
      }
      if stores.jobs[j].attempts < max {
        stores.jobs := stores.jobs[j := stores.jobs[j].(status := PENDING)];
      } else {
        stores.jobs := stores.jobs[j := stores.jobs[j].(status := FAILED)];
      }
    }
    assert stale[..|stale|] == stale;
    ReclaimedIs(old(stores.jobs), stale, max);
  }

  lemma ReclaimedIs(jobs: map<nat, Job>, stale: seq<nat>, max: nat)
    ensures Reclaimed(jobs, stale, max).Keys == jobs.Keys
    ensures forall j :: j in jobs ==>
      Reclaimed(jobs, stale, max)[j] == if j in stale
                                        then jobs[j].(status := if jobs[j].attempts < max then PENDING else FAILED)
                                        else jobs[j]
  {
  }

  lemma NobodyHolds(stale: seq<nat>, team: map<nat, Worker>, j: nat)
    requires Abandoned(stale, team) && j in stale
    ensures forall w :: w in team ==> team[w].job != j
  {
  }

  // ---- helpers ------------------------------------------------------------------------------

  lemma HeldJob(s: System, w: nat, max: nat)
    requires Inv(s, max) && w in s.workers
    ensures At(s, w) && s.jobs[s.workers[w].job].status == RUNNING
  {
    assert WorkerSound(s, w, max);
  }

  lemma StartsHere(s: System, max: nat)
    ensures LegalFrom(s, [], max) && AfterFrom(s, [], max) == s && Reaches(s, [], max, s)
  {
  }

  lemma EndsSound(start: System, trace: seq<Event>, max: nat, s: System)
    requires Reaches(start, trace, max, s) && Inv(start, max) && max >= 1
    ensures LegalFrom(start, trace, max) && AfterFrom(start, trace, max) == s && Inv(s, max)
  {
    hide LegalFrom, AfterFrom, Inv;
    RunKeepsInv(start, trace, max);
  }

  lemma SameTeam(team: map<nat, Worker>, crew: map<nat, Worker>, w: nat)
    requires forall v :: v in team && v != w ==> v in crew && crew[v] == team[v]
    requires forall v :: v in crew ==> v in team && v != w
    ensures crew == team - {w}
  {
  }
}
