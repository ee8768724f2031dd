/**
 The ingestion protocol as steps on the shared stores: job and document rows, chunk rows,
 vector points. Each step is one commit or one external effect of `process` and
 `_handle_failure` (app/ingestion/pipeline.py), of the job repository, or of the worker's
 claim and reclaim passes (workers/ingestion_worker.py). A worker may crash between any two.
 */
module IngestionSteps {
  import opened Common

  datatype JobStatus = PENDING | RUNNING | SUCCEEDED | FAILED
  datatype Job = Job(document: nat, status: JobStatus, attempts: nat)

  datatype DocumentStatus = Uploaded | Processing | Ready | Broken | InConflict
  datatype Document = Document(status: DocumentStatus, fingerprint: Option<nat>)

  /** `builtWith` is the fingerprint of the run that cut this chunk; parents carry no vector. */
  datatype Row = Row(document: nat, isParent: bool, builtWith: nat)

  /** How far a live worker has come with its job. */
  datatype Stage =
    | Claimed
    | Parsed(fingerprint: nat)   // PARSE transition committed
    | Cleared(fingerprint: nat)  // old vectors deleted, nothing committed yet
    | Stored(fingerprint: nat)   // chunk rows committed
  datatype Worker = Worker(job: nat, stage: Stage)

  datatype System = System(
    jobs: map<nat, Job>, documents: map<nat, Document>, rows: map<nat, Row>, points: set<nat>,
    workers: map<nat, Worker>)

  datatype Event =
    | Upload(document: nat, job: nat)
    | Reindex(document: nat, job: nat)
    | Claim(worker: nat, job: nat)
    | Skip(worker: nat, fingerprint: nat)
    | Begin(worker: nat, fingerprint: nat)
    | DropSome(worker: nat, ids: set<nat>)                          // part of a vector delete
    | DropAll(worker: nat)                                          // the delete came back
    | Store(worker: nat, children: set<nat>, parents: set<nat>)
    | Index(worker: nat, id: nat)                                   // part of a vector upsert
    | Finish(worker: nat)
    | Raise(worker: nat, loaded: bool, terminal: bool, conflict: bool)
    | Crash(worker: nat)
    | Reclaim(job: nat)

  function RowIds(rows: map<nat, Row>, document: nat): set<nat> {
    set id | id in rows && rows[id].document == document
  }

  /** The chunks that carry vectors. */
  function Children(rows: map<nat, Row>, document: nat): set<nat> {
    set id | id in rows && rows[id].document == document && !rows[id].isParent
  }

  function PointsOf(s: System, document: nat): set<nat> {
    s.points * RowIds(s.rows, document)
  }

  /** `delete_by_document` and `bulk_create` in one commit. */
  function Replaced(rows: map<nat, Row>, document: nat, children: set<nat>, parents: set<nat>,
                    fingerprint: nat): map<nat, Row> {
    map id | id in rows.Keys + children + parents && (id in rows ==> rows[id].document != document) ::
      if id in rows then rows[id] else Row(document, id in parents, fingerprint)
  }

  predicate Active(job: Job) {
    job.status == PENDING || job.status == RUNNING
  }

  /** `find_active` found none. */
  predicate NoneActive(jobs: map<nat, Job>, document: nat) {
    forall j :: j in jobs && jobs[j].document == document ==> !Active(jobs[j])
  }

  predicate UpToDate(document: Document, fingerprint: nat) {
    document.status == Ready && document.fingerprint == Some(fingerprint)
  }

  /** A worker holds a job of a known document. */
  predicate At(s: System, w: nat) {
    w in s.workers && s.workers[w].job in s.jobs && s.jobs[s.workers[w].job].document in s.documents
  }

  function DocumentAt(s: System, w: nat): nat
    requires At(s, w)
  {
    s.jobs[s.workers[w].job].document
  }

  predicate Enabled(s: System, e: Event) {
    match e
    case Upload(d, j) => d !in s.documents && j !in s.jobs
    case Reindex(d, j) => d in s.documents && j !in s.jobs && NoneActive(s.jobs, d)
    case Claim(w, j) => w !in s.workers && j in s.jobs && s.jobs[j].status == PENDING
    case Skip(w, f) => At(s, w) && s.workers[w].stage.Claimed? && UpToDate(s.documents[DocumentAt(s, w)], f)
    case Begin(w, f) => At(s, w) && s.workers[w].stage.Claimed? && !UpToDate(s.documents[DocumentAt(s, w)], f)
    case DropSome(w, ids) => At(s, w) && s.workers[w].stage.Parsed? && ids <= RowIds(s.rows, DocumentAt(s, w))
    case DropAll(w) => At(s, w) && s.workers[w].stage.Parsed?
    case Store(w, children, parents) =>
      At(s, w) && s.workers[w].stage.Cleared? && children !! parents && children + parents !! s.rows.Keys
    case Index(w, id) => At(s, w) && s.workers[w].stage.Stored? && id in Children(s.rows, DocumentAt(s, w))
    case Finish(w) => At(s, w) && s.workers[w].stage.Stored? && Children(s.rows, DocumentAt(s, w)) <= s.points
    case Raise(w, loaded, terminal, conflict) => At(s, w) && (conflict ==> terminal)
    case Crash(w) => w in s.workers
    case Reclaim(j) => j in s.jobs && s.jobs[j].status == RUNNING && forall w :: w in s.workers ==>
        s.workers[w].job != j
  }

  /** The attempt number `_handle_failure` is given: 1 until the job row was read. */
  function AttemptSeen(job: Job, stage: Stage, loaded: bool): nat {
    if stage.Claimed? then if loaded then job.attempts + 1 else 1 else job.attempts
  }

  function WithJob(s: System, j: nat, status: JobStatus): System
    requires j in s.jobs
  {
    s.(jobs := s.jobs[j := s.jobs[j].(status := status)])
  }

  function Without(s: System, w: nat): System {
    s.(workers := s.workers - {w})
  }

  function WithStatus(s: System, d: nat, status: DocumentStatus): System
    requires d in s.documents
  {
    s.(documents := s.documents[d := s.documents[d].(status := status)])
  }

  function Moved(s: System, w: nat, stage: Stage): System
    requires w in s.workers
  {
    s.(workers := s.workers[w := s.workers[w].(stage := stage)])
  }

  function Failing(s: System, w: nat, loaded: bool, terminal: bool, conflict: bool, max: nat): System
    requires At(s, w)
  {
    var j, d := s.workers[w].job, DocumentAt(s, w);
    if AttemptSeen(s.jobs[j], s.workers[w].stage, loaded) < max && !terminal
    then Without(WithJob(s, j, PENDING), w)
    else Without(WithStatus(WithJob(s, j, FAILED), d, if conflict then InConflict else Broken), w)
  }

  function Next(s: System, e: Event, max: nat): System
    requires Enabled(s, e)
  {
    match e
    case Upload(d, j) =>
      s.(documents := s.documents[d := Document(Uploaded, None)], jobs := s.jobs[j := Job(d, PENDING, 0)])
    case Reindex(d, j) => s.(jobs := s.jobs[j := Job(d, PENDING, 0)])
    case Claim(w, j) => WithJob(s, j, RUNNING).(workers := s.workers[w := Worker(j, Claimed)])
    case Skip(w, _) => Without(WithJob(s, s.workers[w].job, SUCCEEDED), w)
    case Begin(w, f) =>
      var j, d := s.workers[w].job, DocumentAt(s, w);
      var begun := s.(jobs := s.jobs[j := Job(d, RUNNING, s.jobs[j].attempts + 1)]);
      Moved(WithStatus(begun, d, Processing), w, Parsed(f))
    case DropSome(w, ids) => s.(points := s.points - ids)
    case DropAll(w) =>
      Moved(s.(points := s.points - RowIds(s.rows, DocumentAt(s, w))), w, Cleared(s.workers[w].stage.fingerprint))
    case Store(w, children, parents) =>
      var d, f := DocumentAt(s, w), s.workers[w].stage.fingerprint;
      Moved(s.(rows := Replaced(s.rows, d, children, parents, f),
               documents := s.documents[d := s.documents[d].(fingerprint := Some(f))]), w, Stored(f))
    case Index(w, id) => s.(points := s.points + {id})
    case Finish(w) => Without(WithStatus(WithJob(s, s.workers[w].job, SUCCEEDED), DocumentAt(s, w), Ready), w)
    case Raise(w, loaded, terminal, conflict) => Failing(s, w, loaded, terminal, conflict, max)
    case Crash(w) => Without(s, w)
    case Reclaim(j) => WithJob(s, j, if s.jobs[j].attempts < max then PENDING else FAILED)
  }

  // ---- the invariant ------------------------------------------------------------------------

  ghost predicate JobSound(job: Job, known: set<nat>, max: nat) {
    job.document in known && job.attempts <= max && (job.status == PENDING ==> job.attempts < max)
  }

  /** Jobs are bounded, of known documents, and at most one job of a document is active. */
  ghost predicate JobsSound(jobs: map<nat, Job>, known: set<nat>, max: nat) {
    && (forall j :: j in jobs ==> JobSound(jobs[j], known, max))
    && (forall i, j :: i in jobs && j in jobs && i != j && Active(jobs[i]) && Active(jobs[j]) ==>
          jobs[i].document != jobs[j].document)
  }

  /** What holds of a worker's job and document at each stage. */
  ghost predicate WorkerSound(s: System, w: nat, max: nat) {
    && At(s, w)
    && var job := s.jobs[s.workers[w].job];
       var document := s.documents[job.document];
       && job.status == RUNNING
       && match s.workers[w].stage
          case Claimed => job.attempts < max
          case Parsed(_) => document.status == Processing
          case Cleared(_) => document.status == Processing && PointsOf(s, job.document) == {}
          case Stored(f) => document.status == Processing && document.fingerprint == Some(f)
  }

  ghost predicate WorkersSound(s: System, max: nat) {
    && (forall w :: w in s.workers ==> WorkerSound(s, w, max))
    && (forall v, w :: v in s.workers && w in s.workers && v != w ==> s.workers[v].job != s.workers[w].job)
  }

  /** The document's stored fingerprint is that of the run that built the row. */
  ghost predicate Described(s: System, row: Row) {
    row.document in s.documents && s.documents[row.document].fingerprint == Some(row.builtWith)
  }

  /** Every row was built by the run its document's fingerprint names; only rows of children have points. */
  ghost predicate RowsSound(s: System) {
    && (forall id :: id in s.rows ==> Described(s, s.rows[id]))
    && (forall id :: id in s.points ==> id in s.rows && !s.rows[id].isParent)
  }

  ghost predicate Indexed(s: System, d: nat)
    requires d in s.documents
  {
    s.documents[d].status == Ready ==> Children(s.rows, d) == PointsOf(s, d) && s.documents[d].fingerprint.Some?
  }

  /** A READY document is indexed: exactly its children have points. */
  ghost predicate ReadySound(s: System) {
    forall d :: d in s.documents ==> Indexed(s, d)
  }

  ghost predicate Inv(s: System, max: nat) {
    JobsSound(s.jobs, s.documents.Keys, max) && WorkersSound(s, max) && RowsSound(s) && ReadySound(s)
  }
}
