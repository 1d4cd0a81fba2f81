/**
  The whole system as a state machine: API calls, administrators and sweeps; processing workers that may be slow,
  recovered from under their feet, or crash at any point; cleanup workers and orphan scans; the object store and
  a clock that never goes back. Every database access is one transaction and one step.
 */
module Protocol {
  import opened Common
  import opened VideoEntity
  import V = VideoJobEntity
  import C = CleanupEntity
  import opened Database
  import opened Transactions
  import opened Effects

  // The worker's settings: retry delays and the age below which a scan leaves an object alone.
  datatype Config = Config(delays: seq<nat>, cleanupDelays: seq<nat>, orphanMinAge: nat) {
    predicate Valid() {
      ValidDelays(delays) && ValidDelays(cleanupDelays)
    }
  }

  // videoProcessingTimeout
  const PROCESSING_TIMEOUT: nat := 5 * 60 * 1000

  /** Who an object key was generated for. Random keys never collide. */
  datatype Origin = Original(video: Id) | Produced(worker: Id, video: Id, at: Time)

  /** Where a call of ProcessNext stands. It knows the job row only as it was when claimed. */
  datatype Worker =
    | Working(job: Id, video: Id, attempt: int, validated: bool)
    | Cancelling(job: Id, video: Id)
    | HalfUploaded(job: Id, video: Id, attempt: int, videoKey: Key)
    | FullyUploaded(job: Id, video: Id, attempt: int, videoKey: Key, thumbnailKey: Key)
    // createRollbackCleanup, followed by ScheduleRetry when there is an error to record
    | Registering(job: Id, video: Id, attempt: int, videoKey: Key, thumbnailKey: Key, retry: V.JobError)
    | Failing(job: Id, video: Id, videoKey: Key, why: V.JobError)
  {
    // The uploaded objects the worker is responsible for.
    function Held(): set<Key> {
      match this
      case HalfUploaded(_, _, _, videoKey) => NonBlank({videoKey})
      case FullyUploaded(_, _, _, videoKey, thumbnailKey) => NonBlank({videoKey, thumbnailKey})
      case Registering(_, _, _, videoKey, thumbnailKey, _) => NonBlank({videoKey, thumbnailKey})
      case Failing(_, _, videoKey, _) => NonBlank({videoKey})
      case _ => {}
    }

    // Those it may still commit.
    function Committable(): set<Key> {
      if HalfUploaded? || FullyUploaded? then Held() else {}
    }
  }

  /** A cleanup worker between its transactions. */
  datatype Cleaner = Deleting(cleanup: Id, key: Key, attempt: int) | Deleted(cleanup: Id, attempt: int)

  /** An orphan scan between its reads; the two reads of IsObjectReferenced are separate. */
  datatype Scan =
    | Scanning(started: Time)
    | Looking(started: Time, key: Key)
    | NotOriginal(started: Time, key: Key)
    | Orphan(started: Time, key: Key)

  datatype World = World(
    db: Db,
    clock: Time,
    stored: map<Key, Time>,
    issued: map<Key, Origin>,
    workers: map<Id, Worker>,
    cleaners: map<Id, Cleaner>,
    scans: map<Id, Scan>,
    // videos whose source a CompleteUpload call has found in the store
    found: set<Id>,
    // keys whose worker crashed or could not register them
    leaked: set<Key>)

  datatype Event =
    | Tick(to: Time)
    | Direct(tx: Tx)
    | PutOriginal(video: Id)
    | StatOriginal(video: Id)
    | CompleteUploadCall(userId: Id, video: Id)
    | WorkerClaims(worker: Id, job: Id)
    | WorkerValidates(worker: Id, meta: SourceMeta)
    | WorkerCancels(worker: Id)
    | WorkerUploadsVideo(worker: Id, key: Key)
    | WorkerUploadsThumbnail(worker: Id, key: Key)
    | WorkerCompletes(worker: Id, valid: bool)
    | WorkerCompletionAborts(worker: Id)
    | WorkerStageFails(worker: Id, why: V.JobError, retryable: bool)
    | WorkerRegisters(worker: Id)
    | WorkerRegisterFails(worker: Id)
    | WorkerRetries(worker: Id)
    | WorkerFails(worker: Id)
    | WorkerCrashes(worker: Id)
    | CleanerClaims(cleaner: Id, cleanup: Id)
    | CleanerDeletes(cleaner: Id)
    | CleanerSucceeds(cleaner: Id)
    | CleanerFails(cleaner: Id, error: C.CleanupError, retryable: bool)
    | CleanerCrashes(cleaner: Id)
    | ScanBegins(scan: Id)
    | ScanLists(scan: Id, key: Key)
    | ScanChecksOriginals(scan: Id)
    | ScanChecksOutputs(scan: Id)
    | ScanRegisters(scan: Id)
    | ScanEnds(scan: Id)
  {
    predicate OfWorker() {
      || WorkerClaims? || WorkerValidates? || WorkerCancels? || WorkerUploadsVideo? || WorkerUploadsThumbnail?
      || WorkerCompletes? || WorkerCompletionAborts? || WorkerStageFails? || WorkerRegisters? || WorkerRegisterFails? || WorkerRetries?
      || WorkerFails? || WorkerCrashes?
    }

    predicate OfCleaner() {
      CleanerClaims? || CleanerDeletes? || CleanerSucceeds? || CleanerFails? || CleanerCrashes?
    }

    predicate OfScan() {
      ScanBegins? || ScanLists? || ScanChecksOriginals? || ScanChecksOutputs? || ScanRegisters? || ScanEnds?
    }
  }

  // ---------------------------------------------------------------- what an event asks of the database

  // The transactions that no tracked worker, cleaner, scan or upload call issues.
  predicate IsDirect(tx: Tx) {
    || tx.IsAdministrative() || tx.Create? || tx.MakePrivate? || tx.Republish? || tx.Delete?
    || tx.Expire? || tx.Recover? || tx.RecoverClean?
  }

  // The next key a registering worker hands over.
  function NextKey(s: Worker): Key
    requires s.Registering?
  {
    if s.videoKey != 0 then s.videoKey else s.thumbnailKey
  }

  function TxOf(cfg: Config, w: World, e: Event): Option<Tx>
    requires Enabled(cfg, w, e)
  {
    match e
    case Direct(tx) => Some(tx)
    case CompleteUploadCall(u, v) => Some(FinishUpload(u, v))
    case WorkerClaims(_, j) => Some(Claim(j))
    case WorkerValidates(id, meta) => Some(RecordSource(w.workers[id].video, meta))
    case WorkerCancels(id) => Some(Cancel(w.workers[id].job))
    case WorkerCompletes(id, valid) => Some(CompletionOf(w.workers[id], valid))
    case WorkerRegisters(id) =>
      var s := w.workers[id];
      Some(Register(Some(s.video), NextKey(s), if s.videoKey != 0 then C.AssetProcessed else C.AssetThumbnail, C.Rollback))
    case WorkerRetries(id) =>
      var s := w.workers[id];
      Some(Retry(s.job, w.clock + cfg.delays[s.attempt - 1], s.retry))
    case WorkerFails(id) => Some(Fail(w.workers[id].job, w.workers[id].why, w.workers[id].videoKey))
    case CleanerClaims(_, c) => Some(ClaimClean(c))
    case CleanerSucceeds(id) => Some(SucceedClean(w.cleaners[id].cleanup))
    case CleanerFails(id, error, retryable) =>
      var s := w.cleaners[id];
      if retryable && s.attempt < C.MAX_ATTEMPTS
      then Some(RetryClean(s.cleanup, w.clock + cfg.cleanupDelays[s.attempt - 1], error))
      else Some(FailClean(s.cleanup, error))
    case ScanRegisters(id) => Some(Register(None, w.scans[id].key, C.AssetUnknown, C.OrphanDetected))
    case _ => None
  }

  function CompletionOf(s: Worker, valid: bool): Tx
    requires s.FullyUploaded?
  {
    Complete(s.job, OutputMeta(s.videoKey, s.thumbnailKey, valid, 0))
  }

  // ---------------------------------------------------------------- when an event may happen

  // An object uploaded less than the orphan age ago.
  predicate Young(cfg: Config, w: World, key: Key) {
    key in w.issued && w.issued[key].Produced? && w.clock < w.issued[key].at + cfg.orphanMinAge
  }

  predicate WorkerEnabled(cfg: Config, w: World, e: Event)
    requires e.OfWorker()
  {
    match e
    case WorkerClaims(id, j) => id !in w.workers && Selected(w.db, Claim(j), w.clock)
    case WorkerValidates(id, _) => id in w.workers && w.workers[id].Working? && !w.workers[id].validated
    case WorkerCancels(id) => id in w.workers && w.workers[id].Cancelling?
    case WorkerUploadsVideo(id, key) =>
      && id in w.workers && w.workers[id].Working? && w.workers[id].validated && key != 0 && key !in w.issued
    case WorkerUploadsThumbnail(id, key) =>
      id in w.workers && w.workers[id].HalfUploaded? && key != 0 && key !in w.issued
    case WorkerCompletes(id, valid) =>
      // An upload is committed before a scan may take it for an orphan.
      && id in w.workers && w.workers[id].FullyUploaded?
      && (CommitsOutput(w.db, CompletionOf(w.workers[id], valid)) ==>
            Young(cfg, w, w.workers[id].videoKey) && Young(cfg, w, w.workers[id].thumbnailKey))
    case WorkerCompletionAborts(id) => id in w.workers && w.workers[id].FullyUploaded?
    case WorkerStageFails(id, why, _) =>
      id in w.workers && (w.workers[id].Working? || w.workers[id].HalfUploaded?) && why != V.NoError
    case WorkerRegisters(id) => id in w.workers && w.workers[id].Registering? && NextKey(w.workers[id]) != 0
    case WorkerRegisterFails(id) => id in w.workers && w.workers[id].Registering? && NextKey(w.workers[id]) != 0
    case WorkerRetries(id) =>
      && id in w.workers && w.workers[id].Registering? && NextKey(w.workers[id]) == 0
      && 1 <= w.workers[id].attempt <= |cfg.delays|
    case WorkerFails(id) => id in w.workers && w.workers[id].Failing?
    case WorkerCrashes(id) => id in w.workers
  }

  predicate CleanerEnabled(cfg: Config, w: World, e: Event)
    requires e.OfCleaner()
  {
    match e
    case CleanerClaims(id, c) => id !in w.cleaners && Selected(w.db, ClaimClean(c), w.clock)
    case CleanerDeletes(id) => id in w.cleaners && w.cleaners[id].Deleting?
    case CleanerSucceeds(id) => id in w.cleaners && w.cleaners[id].Deleted?
    case CleanerFails(id, error, _) =>
      id in w.cleaners && error != C.NoError && 1 <= w.cleaners[id].attempt <= C.MAX_ATTEMPTS && |cfg.cleanupDelays| == 3
    case CleanerCrashes(id) => id in w.cleaners
  }

  predicate ScanEnabled(cfg: Config, w: World, e: Event)
    requires e.OfScan()
  {
    match e
    case ScanBegins(id) => id !in w.scans
    case ScanLists(id, key) =>
      && id in w.scans && w.scans[id].Scanning? && key in w.stored
      && w.stored[key] + cfg.orphanMinAge <= w.scans[id].started
    case ScanChecksOriginals(id) => id in w.scans && w.scans[id].Looking?
    case ScanChecksOutputs(id) => id in w.scans && w.scans[id].NotOriginal?
    case ScanRegisters(id) => id in w.scans && w.scans[id].Orphan?
    case ScanEnds(id) => id in w.scans
  }

  predicate Enabled(cfg: Config, w: World, e: Event) {
    if e.OfWorker() then WorkerEnabled(cfg, w, e)
    else if e.OfCleaner() then CleanerEnabled(cfg, w, e)
    else if e.OfScan() then ScanEnabled(cfg, w, e)
    else
      match e
      case Tick(to) => w.clock <= to
      case Direct(tx) =>
        && IsDirect(tx) && Selected(w.db, tx, w.clock)
        && (tx.Create? ==> tx.key != 0 && tx.key !in w.issued)
        && (tx.Recover? ==> tx.before + PROCESSING_TIMEOUT == w.clock && tx.delays == cfg.delays)
        && (tx.RecoverClean? ==> tx.delays == cfg.cleanupDelays)
      case PutOriginal(v) => v in w.db.videos && w.clock < w.db.videos[v].uploadExpiresAt
      case StatOriginal(v) =>
        w.db.HasVideo(v) && w.db.videos[v].processing == Uploading && w.db.videos[v].originalKey in w.stored
      case CompleteUploadCall(_, v) => v in w.found
  }

  // ---------------------------------------------------------------- what an event does

  function SetWorker(w: World, id: Id, s: Worker): World {
    w.(workers := w.workers[id := s])
  }

  function DropWorker(w: World, id: Id): World {
    w.(workers := w.workers - {id})
  }

  function SetCleaner(w: World, id: Id, s: Cleaner): World {
    w.(cleaners := w.cleaners[id := s])
  }

  function SetScan(w: World, id: Id, s: Scan): World {
    w.(scans := w.scans[id := s])
  }

  // A worker that has handed over its next key; with nothing left to do it returns.
  function Handed(w: World, id: Id): World
    requires id in w.workers && w.workers[id].Registering?
  {
    var s := w.workers[id];
    var s' := Registering(s.job, s.video, s.attempt, 0, if s.videoKey != 0 then s.thumbnailKey else 0, s.retry);
    if NextKey(s') == 0 && s.retry == V.NoError then DropWorker(w, id) else SetWorker(w, id, s')
  }

  function StoreUpload(w: World, id: Id, key: Key, s: Worker): World {
    SetWorker(w, id, s).(stored := w.stored[key := w.clock], issued := w.issued[key := Produced(id, s.video, w.clock)])
  }

  // What a processing worker makes of its event, given how its transaction ended.
  function ReactWorker(cfg: Config, w: World, e: Event, r: Result<Db>): World
    requires e.OfWorker() && Enabled(cfg, w, e)
  {
    match e
    case WorkerClaims(id, j) =>
      // A claim is returned unless the video turned out to be deleted.
      if r.Failure? || j !in r.value.jobs || r.value.jobs[j].status != V.JobRunning then w
      else
        var video := r.value.jobs[j].videoId;
        SetWorker(w, id, Working(j, video, r.value.jobs[j].attempts, video in r.value.sources))
    case WorkerValidates(id, _) =>
      var s := w.workers[id];
      if r.Success? then SetWorker(w, id, s.(validated := true))
      else if r.error == VideoNotFound then SetWorker(w, id, Cancelling(s.job, s.video))
      else w
    case WorkerCancels(id) => DropWorker(w, id)
    case WorkerUploadsVideo(id, key) =>
      var s := w.workers[id];
      StoreUpload(w, id, key, HalfUploaded(s.job, s.video, s.attempt, key))
    case WorkerUploadsThumbnail(id, key) =>
      var s := w.workers[id];
      StoreUpload(w, id, key, FullyUploaded(s.job, s.video, s.attempt, s.videoKey, key))
    case WorkerCompletes(id, _) =>
      var s := w.workers[id];
      if r.Success? then DropWorker(w, id)
      else SetWorker(w, id, Registering(s.job, s.video, s.attempt, s.videoKey, s.thumbnailKey, V.NoError))
    case WorkerCompletionAborts(id) =>
      // The database rolled the completion back, say as the victim of a deadlock.
      var s := w.workers[id];
      SetWorker(w, id, Registering(s.job, s.video, s.attempt, s.videoKey, s.thumbnailKey, V.NoError))
    case WorkerStageFails(id, why, retryable) =>
      var s := w.workers[id];
      var videoKey := if s.HalfUploaded? then s.videoKey else 0;
      if retryable && s.attempt < V.MAX_ATTEMPTS
      then SetWorker(w, id, Registering(s.job, s.video, s.attempt, videoKey, 0, why))
      else SetWorker(w, id, Failing(s.job, s.video, videoKey, why))
    case WorkerRegisters(id) => Handed(w, id)
    case WorkerRegisterFails(id) => Handed(w.(leaked := w.leaked + {NextKey(w.workers[id])}), id)
    case WorkerRetries(id) => DropWorker(w, id)
    case WorkerFails(id) =>
      DropWorker(if r.Failure? then w.(leaked := w.leaked + w.workers[id].Held()) else w, id)
    case WorkerCrashes(id) => DropWorker(w.(leaked := w.leaked + w.workers[id].Held()), id)
  }

  // The same for a cleanup worker.
  function ReactCleaner(cfg: Config, w: World, e: Event, r: Result<Db>): World
    requires e.OfCleaner() && Enabled(cfg, w, e)
  {
    match e
    case CleanerClaims(id, c) =>
      if r.Failure? || c !in r.value.cleanups then w
      else SetCleaner(w, id, Deleting(c, r.value.cleanups[c].key, r.value.cleanups[c].attempts))
    case CleanerDeletes(id) =>
      var s := w.cleaners[id];
      SetCleaner(w.(stored := w.stored - {s.key}), id, Deleted(s.cleanup, s.attempt))
    case CleanerSucceeds(id) => w.(cleaners := w.cleaners - {id})
    case CleanerFails(id, _, _) => w.(cleaners := w.cleaners - {id})
    case CleanerCrashes(id) => w.(cleaners := w.cleaners - {id})
  }

  // And for an orphan scan.
  function ReactScan(cfg: Config, w: World, e: Event): World
    requires e.OfScan() && Enabled(cfg, w, e)
  {
    match e
    case ScanBegins(id) => SetScan(w, id, Scanning(w.clock))
    case ScanLists(id, key) => SetScan(w, id, Looking(w.scans[id].started, key))
    case ScanChecksOriginals(id) =>
      var s := w.scans[id];
      SetScan(w, id, if IsOriginal(w.db, s.key) then Scanning(s.started) else NotOriginal(s.started, s.key))
    case ScanChecksOutputs(id) =>
      var s := w.scans[id];
      SetScan(w, id, if IsOutput(w.db, s.key) then Scanning(s.started) else Orphan(s.started, s.key))
    case ScanRegisters(id) => SetScan(w, id, Scanning(w.scans[id].started))
    case ScanEnds(id) => w.(scans := w.scans - {id})
  }

  // Every change an event makes besides its transaction, given how that ended.
  function React(cfg: Config, w: World, e: Event, r: Result<Db>): World
    requires Enabled(cfg, w, e)
  {
    if e.OfWorker() then ReactWorker(cfg, w, e, r)
    else if e.OfCleaner() then ReactCleaner(cfg, w, e, r)
    else if e.OfScan() then ReactScan(cfg, w, e)
    else
      match e
      case Tick(to) => w.(clock := to)
      case Direct(tx) => if tx.Create? && r.Success? then w.(issued := w.issued[tx.key := Original(w.db.nextId)]) else w
      case PutOriginal(v) => w.(stored := w.stored[w.db.videos[v].originalKey := w.clock])
      case StatOriginal(v) => w.(found := w.found + {v})
      case CompleteUploadCall(_, _) => w
  }

  function Outcome(cfg: Config, w: World, e: Event): Result<Db>
    requires Enabled(cfg, w, e)
  {
    match TxOf(cfg, w, e)
    case None => Success(w.db)
    case Some(tx) => Perform(w.db, tx, w.clock)
  }

  /** One step: the transaction, if any, commits or rolls back, and its caller reacts. */
  function Next(cfg: Config, w: World, e: Event): World
    requires Enabled(cfg, w, e)
  {
    var r := Outcome(cfg, w, e);
    React(cfg, w, e, r).(db := if r.Success? then r.value else w.db)
  }

  // ---------------------------------------------------------------- who may touch what

  lemma HandedFrame(w: World, id: Id)
    requires id in w.workers && w.workers[id].Registering?
    ensures Handed(w, id) == w.(workers := Handed(w, id).workers)
  {
  }

  lemma WorkerFrame(cfg: Config, w: World, e: Event, r: Result<Db>)
    requires e.OfWorker() && Enabled(cfg, w, e)
    ensures var w' := ReactWorker(cfg, w, e, r);
            w'.cleaners == w.cleaners && w'.scans == w.scans && w'.found == w.found && w'.clock == w.clock
  {
    hide Selected, CommitsOutput, Young, IsDirect, Worker.Held, Handed;
    if e.WorkerRegisters? {
      HandedFrame(w, e.worker);
    } else if e.WorkerRegisterFails? {
      HandedFrame(w.(leaked := w.leaked + {NextKey(w.workers[e.worker])}), e.worker);
    }
  }

  // Objects leak by a crash, a cleanup row that could not be written or a refused FailProcessing.
  lemma WorkerLeaks(cfg: Config, w: World, e: Event, r: Result<Db>)
    requires e.OfWorker() && Enabled(cfg, w, e)
    requires !e.WorkerCrashes? && !e.WorkerRegisterFails? && (e.WorkerFails? ==> r.Success?)
    ensures ReactWorker(cfg, w, e, r).leaked == w.leaked
  {
    hide Selected, CommitsOutput, Young, IsDirect, Worker.Held;
  }

  lemma WorkerKeepsStored(cfg: Config, w: World, e: Event, r: Result<Db>, k: Key)
    requires e.OfWorker() && Enabled(cfg, w, e) && k in w.stored
    ensures k in ReactWorker(cfg, w, e, r).stored
  {
    hide Selected, CommitsOutput, Young, IsDirect, Worker.Held, Handed;
    if e.WorkerRegisters? {
      HandedFrame(w, e.worker);
    } else if e.WorkerRegisterFails? {
      HandedFrame(w.(leaked := w.leaked + {NextKey(w.workers[e.worker])}), e.worker);
    }
  }

  // Keys are issued with their upload.
  lemma WorkerStoresUploads(cfg: Config, w: World, e: Event, r: Result<Db>, k: Key)
    requires e.OfWorker() && Enabled(cfg, w, e) && k !in w.issued && k in ReactWorker(cfg, w, e, r).issued
    ensures k in ReactWorker(cfg, w, e, r).stored
  {
    hide Selected, CommitsOutput, Young, IsDirect, Worker.Held, Handed;
    if e.WorkerRegisters? {
      HandedFrame(w, e.worker);
    } else if e.WorkerRegisterFails? {
      HandedFrame(w.(leaked := w.leaked + {NextKey(w.workers[e.worker])}), e.worker);
    }
  }

  lemma CleanerFrame(cfg: Config, w: World, e: Event, r: Result<Db>)
    requires e.OfCleaner() && Enabled(cfg, w, e)
    ensures ReactCleaner(cfg, w, e, r)
            == w.(cleaners := ReactCleaner(cfg, w, e, r).cleaners, stored := ReactCleaner(cfg, w, e, r).stored)
  {
    hide Selected, CommitsOutput, Young, IsDirect;
  }

  lemma ScanFrame(cfg: Config, w: World, e: Event)
    requires e.OfScan() && Enabled(cfg, w, e)
    ensures ReactScan(cfg, w, e) == w.(scans := ReactScan(cfg, w, e).scans)
  {
    hide Selected, CommitsOutput, Young, IsDirect;
  }
}
