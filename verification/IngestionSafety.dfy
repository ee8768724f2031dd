/** Every step keeps the ingestion invariant, and what that says of whole runs. */
module IngestionSafety {
  import opened Common
  import opened IngestionSteps

  // ---- jobs ---------------------------------------------------------------------------------

  lemma SetJob(jobs: map<nat, Job>, known: set<nat>, known': set<nat>, max: nat, j: nat, job: Job)
    requires JobsSound(jobs, known, max) && known <= known' && JobSound(job, known', max)
    requires Active(job) ==>
      (j in jobs && Active(jobs[j]) && jobs[j].document == job.document) || NoneActive(jobs, job.document)
    ensures JobsSound(jobs[j := job], known', max)
  {
  }

  lemma StepKeepsJobs(s: System, e: Event, max: nat)
    requires Inv(s, max) && Enabled(s, e) && max >= 1
    ensures JobsSound(Next(s, e, max).jobs, Next(s, e, max).documents.Keys, max)
  {
    hide RowsSound, ReadySound, Replaced, RowIds, Children, JobsSound, Indexed;
    var s' := Next(s, e, max);
    JobIsSound(s, max);
    match e
    case Upload(d, j) =>
      NoJobYet(s, max, d);
      SetJob(s.jobs, s.documents.Keys, s'.documents.Keys, max, j, s'.jobs[j]);
    case Reindex(d, j) => SetJob(s.jobs, s.documents.Keys, s'.documents.Keys, max, j, s'.jobs[j]);
    case Claim(_, j) => SetJob(s.jobs, s.documents.Keys, s'.documents.Keys, max, j, s'.jobs[j]);
    case Reclaim(j) => SetJob(s.jobs, s.documents.Keys, s'.documents.Keys, max, j, s'.jobs[j]);
    case Skip(w, _) => SetHeldJob(s, e, max, w);
    case Begin(w, _) => SetHeldJob(s, e, max, w);
    case Finish(w) => SetHeldJob(s, e, max, w);
    case Raise(w, _, _, _) => SetHeldJob(s, e, max, w);
    case DropSome(_, _) => {}
    case DropAll(_) => {}
    case Store(_, _, _) => assert s'.documents.Keys == s.documents.Keys;
    case Index(_, _) => {}
    case Crash(_) => {}
  }

  lemma JobIsSound(s: System, max: nat)
    requires Inv(s, max)
    ensures forall j :: j in s.jobs ==> JobSound(s.jobs[j], s.documents.Keys, max)
  {
  }

  lemma NoJobYet(s: System, max: nat, d: nat)
    requires Inv(s, max) && d !in s.documents
    ensures NoneActive(s.jobs, d)
  {
    assert forall j :: j in s.jobs ==> JobSound(s.jobs[j], s.documents.Keys, max);
  }

  lemma SetHeldJob(s: System, e: Event, max: nat, w: nat)
    requires Inv(s, max) && Enabled(s, e) && max >= 1
    requires e.Skip? || e.Begin? || e.Finish? || e.Raise?
    requires w == e.worker
    ensures JobsSound(Next(s, e, max).jobs, Next(s, e, max).documents.Keys, max)
  {
    hide RowsSound, ReadySound, Replaced, RowIds, Children, JobsSound;
    var s', j := Next(s, e, max), s.workers[w].job;
    JobIsSound(s, max);
    assert WorkerSound(s, w, max);
    assert s'.documents.Keys == s.documents.Keys;
    SetJob(s.jobs, s.documents.Keys, s'.documents.Keys, max, j, s'.jobs[j]);
    assert s'.jobs == s.jobs[j := s'.jobs[j]];
  }

  // ---- frames ---------------------------------------------------------------------------------

  lemma ReplacedRows(rows: map<nat, Row>, d: nat, children: set<nat>, parents: set<nat>, f: nat, x: nat)
    requires children !! parents && children + parents !! rows.Keys
    ensures var rows' := Replaced(rows, d, children, parents, f);
      && (x == d ==> RowIds(rows', x) == children + parents && Children(rows', x) == children)
      && (x != d ==> RowIds(rows', x) == RowIds(rows, x) && Children(rows', x) == Children(rows, x))
  {
  }

  /** Rows have one document each. */
  lemma RowsApart(rows: map<nat, Row>, d: nat, x: nat)
    requires x != d
    ensures RowIds(rows, d) !! RowIds(rows, x)
  {
  }

  /** The worker that takes the step, if one does. */
  function Actor(e: Event): Option<nat> {
    match e
    case Upload(_, _) => None
    case Reindex(_, _) => None
    case Reclaim(_) => None
    case _ => Some(e.worker)
  }

  /** The step is taken by a worker on document `d`. */
  ghost predicate Works(s: System, e: Event, d: nat) {
    Actor(e).Some? && At(s, Actor(e).value) && DocumentAt(s, Actor(e).value) == d
  }

  /** Nothing of document `x` differs: not its row, not its chunks, not its vectors. */
  ghost predicate SameDocument(s: System, s': System, x: nat)
    requires x in s.documents
  {
    && x in s'.documents && s'.documents[x] == s.documents[x]
    && Children(s'.rows, x) == Children(s.rows, x) && PointsOf(s', x) == PointsOf(s, x)
  }

  /** Ingesting one document leaves the others alone. */
  lemma StepSparesDocuments(s: System, e: Event, max: nat, x: nat)
    requires Enabled(s, e) && x in s.documents && !Works(s, e, x)
    ensures SameDocument(s, Next(s, e, max), x)
  {
    hide Replaced, RowIds, Children;
    match e
    case DropSome(w, ids) => RowsApart(s.rows, DocumentAt(s, w), x);
    case DropAll(w) => RowsApart(s.rows, DocumentAt(s, w), x);
    case Index(w, id) =>
      RowsApart(s.rows, DocumentAt(s, w), x);
      ChildIsRow(s.rows, DocumentAt(s, w), id);
    case Store(w, children, parents) =>
      ReplacedRows(s.rows, DocumentAt(s, w), children, parents, s.workers[w].stage.fingerprint, x);
    case _ => {}
  }

  lemma ChildIsRow(rows: map<nat, Row>, d: nat, id: nat)
    requires id in Children(rows, d)
    ensures id in RowIds(rows, d)
  {
  }

  // ---- rows and documents -----------------------------------------------------------------------

  lemma StepKeepsRows(s: System, e: Event, max: nat)
    requires Inv(s, max) && Enabled(s, e)
    ensures RowsSound(Next(s, e, max))
  {
    hide JobsSound, WorkersSound, ReadySound, RowsSound;
    if e.Store? {
      StoreKeepsRows(s, e, max);
    } else {
      RowsUntouched(s, e, max);
    }
  }

  lemma RowsUntouched(s: System, e: Event, max: nat)
    requires RowsSound(s) && Enabled(s, e) && !e.Store?
    ensures RowsSound(Next(s, e, max))
  {
    hide Replaced, NoneActive;
    var s' := Next(s, e, max);
    forall id | id in s'.rows ensures Described(s', s'.rows[id]) {
      assert Described(s, s.rows[id]);
    }
  }

  lemma StoreKeepsRows(s: System, e: Event, max: nat)
    requires Inv(s, max) && Enabled(s, e) && e.Store?
    ensures RowsSound(Next(s, e, max))
  {
    hide JobsSound, ReadySound;
    var s' := Next(s, e, max);
    assert WorkerSound(s, e.worker, max);
    var d := DocumentAt(s, e.worker);
    forall id | id in s'.rows ensures Described(s', s'.rows[id]) {
      assert id in s.rows ==> Described(s, s.rows[id]);
    }
    forall id | id in s'.points ensures id in s'.rows && !s'.rows[id].isParent {
      assert id in s.rows && id !in PointsOf(s, d);
    }
  }

  lemma FinishedIsIndexed(s: System, e: Event, max: nat)
    requires Inv(s, max) && Enabled(s, e) && e.Finish?
    ensures Indexed(Next(s, e, max), DocumentAt(s, e.worker))
  {
    hide JobsSound, ReadySound;
    assert WorkerSound(s, e.worker, max);
  }

  lemma WorkIsIndexed(s: System, e: Event, max: nat)
    requires Inv(s, max) && Enabled(s, e) && Actor(e).Some? && At(s, e.worker) && !e.Finish?
    ensures Indexed(Next(s, e, max), DocumentAt(s, e.worker))
  {
    hide JobsSound, RowsSound, Replaced, RowIds, Children;
    assert WorkerSound(s, e.worker, max);
    assert Indexed(s, DocumentAt(s, e.worker));
  }

  lemma StepKeepsReady(s: System, e: Event, max: nat)
    requires Inv(s, max) && Enabled(s, e)
    ensures ReadySound(Next(s, e, max))
  {
    hide JobsSound, WorkersSound, RowsSound, RowIds, Children, Replaced, PointsOf;
    var s' := Next(s, e, max);
    forall x | x in s'.documents ensures Indexed(s', x) {
      if Works(s, e, x) {
        if e.Finish? {
          FinishedIsIndexed(s, e, max);
        } else {
          WorkIsIndexed(s, e, max);
        }
      } else if x in s.documents {
        StepSparesDocuments(s, e, max, x);
        assert Indexed(s, x);
      }
    }
  }

  // ---- workers ------------------------------------------------------------------------------------

  /** Two workers are on different jobs of different documents. */
  lemma WorkersApart(s: System, max: nat, v: nat, w: nat)
    requires Inv(s, max) && v in s.workers && w in s.workers && v != w
    ensures At(s, v) && At(s, w) && s.workers[v].job != s.workers[w].job && DocumentAt(s, v) != DocumentAt(s, w)
  {
    assert WorkerSound(s, v, max) && WorkerSound(s, w, max);
  }

  lemma OtherJobsStay(s: System, e: Event, max: nat, v: nat)
    requires Inv(s, max) && Enabled(s, e) && v in s.workers && Actor(e) != Some(v)
    ensures var s' := Next(s, e, max);
      && v in s'.workers && s'.workers[v] == s.workers[v]
      && At(s, v) && s.workers[v].job in s'.jobs && s'.jobs[s.workers[v].job] == s.jobs[s.workers[v].job]
      && !Works(s, e, DocumentAt(s, v))
  {
    hide JobsSound, RowsSound, ReadySound, RowIds, Children, Replaced;
    assert WorkerSound(s, v, max);
    if Actor(e).Some? && e.worker in s.workers {
      WorkersApart(s, max, v, e.worker);
    }
  }

  lemma WorkerUntouched(s: System, s': System, max: nat, v: nat)
    requires WorkerSound(s, v, max) && v in s'.workers && s'.workers[v] == s.workers[v]
    requires s.workers[v].job in s'.jobs && s'.jobs[s.workers[v].job] == s.jobs[s.workers[v].job]
    requires SameDocument(s, s', DocumentAt(s, v))
    ensures WorkerSound(s', v, max)
  {
    hide Children;
  }

  lemma OtherWorkersStay(s: System, e: Event, max: nat, v: nat)
    requires Inv(s, max) && Enabled(s, e) && v in s.workers && Actor(e) != Some(v)
    ensures v in Next(s, e, max).workers && Next(s, e, max).workers[v] == s.workers[v]
    ensures WorkerSound(Next(s, e, max), v, max)
  {
    hide JobsSound, RowsSound, ReadySound, Next, Works, SameDocument;
    OtherJobsStay(s, e, max, v);
    StepSparesDocuments(s, e, max, DocumentAt(s, v));
    WorkerUntouched(s, Next(s, e, max), max, v);
  }

  lemma ActorStaysSound(s: System, e: Event, max: nat, w: nat)
    requires Inv(s, max) && Enabled(s, e) && Actor(e) == Some(w) && w in Next(s, e, max).workers
    ensures WorkerSound(Next(s, e, max), w, max)
  {
    hide RowsSound, ReadySound, Children, Replaced;
    JobIsSound(s, max);
    if w in s.workers {
      assert WorkerSound(s, w, max);
    }
  }

  lemma StepKeepsWorkers(s: System, e: Event, max: nat)
    requires Inv(s, max) && Enabled(s, e)
    ensures WorkersSound(Next(s, e, max), max)
  {
    hide RowsSound, ReadySound, JobsSound, RowIds, Children, Replaced, WorkerSound, PointsOf;
    var s' := Next(s, e, max);
    forall v | v in s'.workers ensures WorkerSound(s', v, max) {
      if Actor(e) == Some(v) {
        ActorStaysSound(s, e, max, v);
      } else {
        OtherWorkersStay(s, e, max, v);
      }
    }
    ClaimedIsFree(s, e, max);
  }

  /** A claimed job was PENDING, so no worker held it. */
  lemma ClaimedIsFree(s: System, e: Event, max: nat)
    requires Inv(s, max) && Enabled(s, e)
    ensures e.Claim? ==> forall w :: w in s.workers ==> s.workers[w].job != e.job
  {
    hide RowsSound, ReadySound, JobsSound;
    if e.Claim? {
      forall w | w in s.workers ensures s.workers[w].job != e.job {
        assert WorkerSound(s, w, max);
      }
    }
  }

  lemma StepKeepsInv(s: System, e: Event, max: nat)
    requires Inv(s, max) && Enabled(s, e) && max >= 1
    ensures Inv(Next(s, e, max), max)
  {
    hide JobsSound, WorkersSound, RowsSound, ReadySound, Next, Enabled;
    StepKeepsJobs(s, e, max);
    StepKeepsWorkers(s, e, max);
    StepKeepsRows(s, e, max);
    StepKeepsReady(s, e, max);
  }
}
