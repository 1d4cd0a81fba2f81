/**
  Every transaction of the system as one type, what each may select, and the two facts about all of them
  that the rest of the model builds on: they keep the joint invariant, and they only move rows forward.
 */
module Transactions {
  import opened Common
  import opened VideoEntity
  import V = VideoJobEntity
  import C = CleanupEntity
  import opened UserEntity
  import opened Database
  import opened Coherence

  datatype Tx =
    // owners
    | Create(userId: Id, key: Key, expiresAt: Time)
    | FinishUpload(userId: Id, videoId: Id)
    | MakePrivate(userId: Id, videoId: Id)
    | Republish(userId: Id, videoId: Id)
    | Delete(userId: Id, videoId: Id)
    // sweeps
    | Expire(rows: seq<Id>, limit: int)
    | Recover(rows: seq<Id>, before: Time, delays: seq<nat>, limit: int)
    | RecoverClean(rows: seq<Id>, before: Time, delays: seq<nat>, limit: int)
    // processing workers
    | Claim(jobId: Id)
    | RecordSource(videoId: Id, meta: SourceMeta)
    | Complete(jobId: Id, output: OutputMeta)
    | Fail(jobId: Id, why: V.JobError, videoKey: Key)
    | Retry(jobId: Id, available: Time, why: V.JobError)
    | Cancel(jobId: Id)
    // registration of unwanted objects
    | Register(owner: Option<Id>, key: Key, asset: C.AssetType, cause: C.CleanupCause)
    // cleanup workers
    | ClaimClean(cleanupId: Id)
    | SucceedClean(cleanupId: Id)
    | RetryClean(cleanupId: Id, available: Time, error: C.CleanupError)
    | FailClean(cleanupId: Id, error: C.CleanupError)
    // administrators
    | Suspend(adminId: Id, userId: Id, rows: seq<Id>, reason: string, requestId: string)
    | Resume(adminId: Id, userId: Id, reason: string, requestId: string)
    | Hide(adminId: Id, videoId: Id, reason: string, requestId: string)
    | Restore(adminId: Id, videoId: Id, reason: string, requestId: string)
  {
    predicate IsAdministrative() {
      Suspend? || Resume? || Hide? || Restore?
    }

    // By what a transaction writes: one video row, one job row, a new row, everything at the end of a video's or a
    // job's life, a batch, one cleanup row, an account.
    predicate OnVideoRow() {
      MakePrivate? || Republish? || RecordSource? || Hide? || Restore?
    }

    predicate OnJobRow() {
      Claim? || Retry? || Cancel?
    }

    predicate Inserts() {
      Create? || FinishUpload? || Register?
    }

    predicate Finishes() {
      Delete? || Complete? || Fail?
    }

    predicate Sweeps() {
      Expire? || Recover? || RecoverClean?
    }

    predicate OnCleanupRow() {
      ClaimClean? || SucceedClean? || RetryClean? || FailClean?
    }

    predicate OnAccount() {
      Suspend? || Resume?
    }
  }

  /** The rows a transaction works on satisfy the WHERE clause that selected them. */
  predicate Selected(db: Db, tx: Tx, now: Time) {
    match tx
    case Expire(rows, _) => SelectsExpired(db, rows, now)
    case Recover(rows, before, _, _) => SelectsTimedOut(db, rows, before)
    case RecoverClean(rows, before, _, _) => SelectsTimedOutCleanups(db, rows, before)
    case Claim(j) => j in db.jobs && Claimable(db.jobs[j], now)
    case ClaimClean(c) => c in db.cleanups && CleanupClaimable(db.cleanups[c], now)
    case Suspend(_, u, rows, _, _) => SelectsPublished(db, u, rows)
    case _ => true
  }

  function PerformOnVideoRow(db: Db, tx: Tx, now: Time): Result<Db>
    requires tx.OnVideoRow()
  {
    match tx
    case MakePrivate(u, v) => SetPrivateByOwner(db, u, v, now)
    case Republish(u, v) => RepublishByOwner(db, u, v, now)
    case RecordSource(v, meta) => RecordSourceValidation(db, v, meta, now)
    case Hide(a, v, reason, requestId) => HideVideo(db, a, v, reason, requestId, now)
    case Restore(a, v, reason, requestId) => RestoreVideo(db, a, v, reason, requestId, now)
  }

  function PerformOnJobRow(db: Db, tx: Tx, now: Time): Result<Db>
    requires tx.OnJobRow() && Selected(db, tx, now)
  {
    match tx
    case Claim(j) => ClaimJob(db, j, now)
    case Retry(j, available, why) => ScheduleRetry(db, j, available, why, now)
    case Cancel(j) => CancelJob(db, j, now)
  }

  function PerformInsert(db: Db, tx: Tx, now: Time): Result<Db>
    requires tx.Inserts()
  {
    match tx
    case Create(u, key, expiresAt) => InsertVideo(db, u, key, expiresAt, now)
    case FinishUpload(u, v) => CompleteUpload(db, u, v, now)
    case Register(owner, key, asset, cause) =>
      var row :- C.NewCleanup(owner, key, asset, cause, now);
      Success(CreateCleanup(db, row))
  }

  function PerformFinish(db: Db, tx: Tx, now: Time): Result<Db>
    requires tx.Finishes()
  {
    match tx
    case Delete(u, v) => DeleteByOwner(db, u, v, now)
    case Complete(j, output) => CompleteProcessing(db, j, output, now)
    case Fail(j, why, videoKey) => FailProcessing(db, j, why, videoKey, 0, now)
  }

  function PerformSweep(db: Db, tx: Tx, now: Time): Result<Db>
    requires tx.Sweeps() && Selected(db, tx, now)
  {
    match tx
    case Expire(rows, limit) => ExpireUploads(db, rows, limit, now)
    case Recover(rows, before, delays, limit) => RecoverTimedOut(db, rows, before, delays, limit, now)
    case RecoverClean(rows, before, delays, limit) => RecoverCleanups(db, rows, before, delays, limit, now)
  }

  function PerformOnCleanupRow(db: Db, tx: Tx, now: Time): Result<Db>
    requires tx.OnCleanupRow() && Selected(db, tx, now)
  {
    match tx
    case ClaimClean(c) => ClaimCleanup(db, c, now)
    case SucceedClean(c) => SucceedCleanup(db, c, now)
    case RetryClean(c, available, error) => RetryCleanup(db, c, available, error, now)
    case FailClean(c, error) => FailCleanup(db, c, error, now)
  }

  function PerformOnAccount(db: Db, tx: Tx, now: Time): Result<Db>
    requires tx.OnAccount() && Selected(db, tx, now)
  {
    match tx
    case Suspend(a, u, rows, reason, requestId) => SuspendUser(db, a, u, rows, reason, requestId, now)
    case Resume(a, u, reason, requestId) => ResumeUser(db, a, u, reason, requestId, now)
  }

  /** What a transaction makes of the tables, or the error that rolls it back. */
  function Perform(db: Db, tx: Tx, now: Time): Result<Db>
    requires Selected(db, tx, now)
  {
    if tx.OnVideoRow() then PerformOnVideoRow(db, tx, now)
    else if tx.OnJobRow() then PerformOnJobRow(db, tx, now)
    else if tx.Inserts() then PerformInsert(db, tx, now)
    else if tx.Finishes() then PerformFinish(db, tx, now)
    else if tx.Sweeps() then PerformSweep(db, tx, now)
    else if tx.OnCleanupRow() then PerformOnCleanupRow(db, tx, now)
    else PerformOnAccount(db, tx, now)
  }

  // Proofs about one kind of transaction look at that kind alone.
  lemma VideoRowTx(db: Db, tx: Tx, now: Time)
    requires Selected(db, tx, now) && tx.OnVideoRow()
    ensures Perform(db, tx, now) == PerformOnVideoRow(db, tx, now)
  {
  }

  lemma JobRowTx(db: Db, tx: Tx, now: Time)
    requires Selected(db, tx, now) && tx.OnJobRow()
    ensures Perform(db, tx, now) == PerformOnJobRow(db, tx, now)
  {
  }

  lemma InsertTx(db: Db, tx: Tx, now: Time)
    requires Selected(db, tx, now) && tx.Inserts()
    ensures Perform(db, tx, now) == PerformInsert(db, tx, now)
  {
  }

  lemma FinishTx(db: Db, tx: Tx, now: Time)
    requires Selected(db, tx, now) && tx.Finishes()
    ensures Perform(db, tx, now) == PerformFinish(db, tx, now)
  {
  }

  lemma SweepTx(db: Db, tx: Tx, now: Time)
    requires Selected(db, tx, now) && tx.Sweeps()
    ensures Perform(db, tx, now) == PerformSweep(db, tx, now)
  {
  }

  lemma CleanupRowTx(db: Db, tx: Tx, now: Time)
    requires Selected(db, tx, now) && tx.OnCleanupRow()
    ensures Perform(db, tx, now) == PerformOnCleanupRow(db, tx, now)
  {
  }

  lemma AccountTx(db: Db, tx: Tx, now: Time)
    requires Selected(db, tx, now) && tx.OnAccount()
    ensures Perform(db, tx, now) == PerformOnAccount(db, tx, now)
  {
  }

  // The only caller of Cancel is a worker that found its video deleted.
  predicate Permitted(db: Db, tx: Tx) {
    tx.Cancel? && tx.jobId in db.jobs ==>
      var v := db.jobs[tx.jobId].videoId; v in db.videos && db.videos[v].IsDeleted()
  }

  // ---------------------------------------------------------------- invariance

  lemma OwnerTxKeeps(db: Db, tx: Tx, clock: Time, now: Time)
    requires DbOk(db, clock) && clock <= now && Selected(db, tx, now)
    requires tx.Create? || tx.FinishUpload? || tx.MakePrivate? || tx.Republish? || tx.Delete?
    ensures Perform(db, tx, now).Success? ==> DbOk(Perform(db, tx, now).value, now)
  {
    hide DbOk;
    if Perform(db, tx, now).Success? {
      match tx {
        case Create(u, key, expiresAt) => InsertVideoKeeps(db, u, key, expiresAt, clock, now);
        case FinishUpload(u, v) => CompleteUploadKeeps(db, u, v, clock, now);
        case MakePrivate(u, v) =>
          VideoFacts(db, clock, v);
          SaveVideoKeeps(db, v, db.videos[v].SetPrivateByOwner(u, now).value, clock, now);
        case Republish(u, v) =>
          VideoFacts(db, clock, v);
          SaveVideoKeeps(db, v, db.videos[v].RepublishByOwner(u, db.users[u].IsActive(), now).value, clock, now);
        case Delete(u, v) => DeleteKeeps(db, u, v, clock, now);
      }
    }
  }

  lemma ProcessingTxKeeps(db: Db, tx: Tx, clock: Time, now: Time)
    requires DbOk(db, clock) && clock <= now && Selected(db, tx, now) && Permitted(db, tx)
    requires tx.Claim? || tx.RecordSource? || tx.Complete? || tx.Fail? || tx.Retry? || tx.Cancel?
    ensures Perform(db, tx, now).Success? ==> DbOk(Perform(db, tx, now).value, now)
  {
    hide DbOk;
    if Perform(db, tx, now).Success? {
      match tx {
        case Claim(j) => ClaimJobKeeps(db, j, clock, now);
        case RecordSource(v, meta) => RecordSourceKeeps(db, v, meta, clock, now);
        case Complete(j, output) => CompleteProcessingKeeps(db, j, output, clock, now);
        case Fail(j, why, videoKey) => FailProcessingKeeps(db, j, why, videoKey, 0, clock, now);
        case Retry(j, available, why) => ScheduleRetryKeeps(db, j, available, why, clock, now);
        case Cancel(j) =>
          if j in db.jobs { JobFacts(db, clock, j); }
          CancelJobKeeps(db, j, clock, now);
      }
    }
  }

  lemma SweepAndCleanupTxKeeps(db: Db, tx: Tx, clock: Time, now: Time)
    requires DbOk(db, clock) && clock <= now && Selected(db, tx, now)
    requires tx.Expire? || tx.Recover? || tx.RecoverClean? || tx.Register? || tx.ClaimClean? || tx.SucceedClean?
             || tx.RetryClean? || tx.FailClean?
    ensures Perform(db, tx, now).Success? ==> DbOk(Perform(db, tx, now).value, now)
  {
    hide DbOk;
    if Perform(db, tx, now).Success? {
      match tx {
        case Expire(rows, _) => ExpireRowsKeeps(db, rows, clock, now);
        case Recover(rows, before, delays, _) => RecoverJobsKeeps(db, rows, delays, clock, now);
        case RecoverClean(rows, before, delays, _) => RecoverCleanupRowsKeeps(db, rows, delays, clock, now);
        case Register(owner, key, asset, cause) =>
          CreateCleanupKeeps(db, C.NewCleanup(owner, key, asset, cause, now).value, clock, now);
        case ClaimClean(c) => CleanupTransitionKeeps(db, c, 0, C.NoError, clock, now);
        case SucceedClean(c) => CleanupTransitionKeeps(db, c, 0, C.NoError, clock, now);
        case RetryClean(c, available, error) => CleanupTransitionKeeps(db, c, available, error, clock, now);
        case FailClean(c, error) => CleanupTransitionKeeps(db, c, 0, error, clock, now);
      }
    }
  }

  lemma AdminTxKeeps(db: Db, tx: Tx, clock: Time, now: Time)
    requires DbOk(db, clock) && clock <= now && Selected(db, tx, now) && tx.IsAdministrative()
    ensures Perform(db, tx, now).Success? ==> DbOk(Perform(db, tx, now).value, now)
  {
    hide DbOk, Perform, SetPrivateByOwner, RepublishByOwner, RecordSourceValidation;
    if tx.OnAccount() { AccountTx(db, tx, now); } else { VideoRowTx(db, tx, now); }
    if Perform(db, tx, now).Success? {
      match tx {
        case Suspend(a, u, rows, reason, requestId) =>
          var db1 := SuspendAccount(db, a, u, reason, requestId, now).value;
          SameTables(db, db1, clock);
          HideVideosKeeps(db1, a, rows, reason, requestId, clock, now);
        case Resume(a, u, reason, requestId) =>
          ClockAdvances(db, clock, now);
          SameTables(db, Perform(db, tx, now).value, now);
        case Hide(a, v, reason, requestId) => HideAuditedKeeps(db, a, v, VideoHide, reason, requestId, clock, now);
        case Restore(a, v, reason, requestId) =>
          VideoFacts(db, clock, v);
          var row := db.videos[v].RestoreByAdmin(db.OwnerActive(v), now).value;
          SaveVideoKeeps(db, v, row, clock, now);
          SameTables(db.SaveVideo(v, row), Perform(db, tx, now).value, now);
      }
    }
  }

  /** Every transaction of every actor keeps the joint invariant. */
  lemma PerformKeepsOk(db: Db, tx: Tx, clock: Time, now: Time)
    requires DbOk(db, clock) && clock <= now && Selected(db, tx, now) && Permitted(db, tx)
    ensures Perform(db, tx, now).Success? ==> DbOk(Perform(db, tx, now).value, now)
  {
    hide DbOk, Perform;
    if tx.IsAdministrative() {
      AdminTxKeeps(db, tx, clock, now);
    } else if tx.Create? || tx.FinishUpload? || tx.MakePrivate? || tx.Republish? || tx.Delete? {
      OwnerTxKeeps(db, tx, clock, now);
    } else if tx.Claim? || tx.RecordSource? || tx.Complete? || tx.Fail? || tx.Retry? || tx.Cancel? {
      ProcessingTxKeeps(db, tx, clock, now);
    } else {
      SweepAndCleanupTxKeeps(db, tx, clock, now);
    }
  }

  // ---------------------------------------------------------------- forward motion

  // The stages a video's processing can still reach.
  predicate Reaches(p: ProcessingStatus, q: ProcessingStatus) {
    || p == q
    || p == Uploading
    || (p == Uploaded && (q == Processing || q == Ready || q == ProcessingFailed))
    || (p == Processing && (q == Ready || q == ProcessingFailed))
  }

  predicate VideoLater(a: Video, b: Video) {
    && a.userId == b.userId && a.originalKey == b.originalKey
    && a.uploadExpiresAt == b.uploadExpiresAt && a.createdAt == b.createdAt
    && Reaches(a.processing, b.processing)
    && (a.IsDeleted() ==> b == a)
  }

  predicate JobLater(a: Job, b: Job) {
    && a.videoId == b.videoId
    && (a == b || (!a.IsTerminal() && a.Progress() < b.Progress() && a.attempts <= b.attempts))
  }

  predicate CleanupLater(a: Cleanup, b: Cleanup) {
    && a.key == b.key
    && (a == b || (a.IsUnfinished() && a.Progress() < b.Progress() && a.attempts <= b.attempts))
  }

  ghost predicate VideosLater(a: map<Id, Video>, b: map<Id, Video>) {
    forall v | v in a :: v in b && VideoLater(a[v], b[v])
  }

  ghost predicate JobsLater(a: map<Id, Job>, b: map<Id, Job>) {
    forall j | j in a :: j in b && JobLater(a[j], b[j])
  }

  ghost predicate CleanupsLater(a: map<Id, Cleanup>, b: map<Id, Cleanup>) {
    forall c | c in a :: c in b && CleanupLater(a[c], b[c])
  }

  ghost predicate OutputsLater(a: map<Id, OutputMeta>, b: map<Id, OutputMeta>) {
    forall v | v in a :: v in b && a[v] == b[v]
  }

  ghost predicate UsersLater(a: map<Id, User>, b: map<Id, User>) {
    forall u | u in a :: u in b && a[u].tokenVersion <= b[u].tokenVersion
  }

  /**
    What never goes back: deleted videos are frozen, stages and attempts only advance, terminal jobs and
    output metas never change, no row disappears, token versions grow and the audit log is append-only.
   */
  ghost predicate Later(a: Db, b: Db) {
    && VideosLater(a.videos, b.videos)
    && JobsLater(a.jobs, b.jobs)
    && CleanupsLater(a.cleanups, b.cleanups)
    && OutputsLater(a.outputs, b.outputs)
    && UsersLater(a.users, b.users)
    && a.audit <= b.audit
    && a.nextId <= b.nextId
  }

  lemma LaterRefl(a: Db)
    ensures Later(a, a)
  {
  }

  lemma LaterTrans(a: Db, b: Db, c: Db)
    requires Later(a, b) && Later(b, c)
    ensures Later(a, c)
  {
  }

  // One row is changed or added.
  lemma SaveVideoLater(db: Db, v: Id, row: Video)
    requires v in db.videos && VideoLater(db.videos[v], row)
    ensures Later(db, db.SaveVideo(v, row))
  {
  }

  lemma SaveJobLater(db: Db, j: Id, row: Job)
    requires j in db.jobs && JobLater(db.jobs[j], row)
    ensures Later(db, db.SaveJob(j, row))
  {
  }

  lemma SaveCleanupLater(db: Db, c: Id, row: Cleanup)
    requires c in db.cleanups && CleanupLater(db.cleanups[c], row)
    ensures Later(db, db.(cleanups := db.cleanups[c := row]))
  {
  }

  lemma AddCleanupLater(db: Db, row: Cleanup)
    requires db.nextId !in db.cleanups
    ensures Later(db, db.(cleanups := db.cleanups[db.nextId := row], nextId := db.nextId + 1))
  {
  }

  lemma InsertCleanupLater(db: Db, videoId: Id, key: Key, asset: C.AssetType, cause: C.CleanupCause, now: Time)
    requires DbOk(db, now)
    ensures var r := InsertCleanup(db, videoId, key, asset, cause, now); r.Success? ==> Later(db, r.value)
  {
    hide Later, DbOk;
    LaterRefl(db);
    NextIdFresh(db, now);
    var row := C.NewCleanup(Some(videoId), key, asset, cause, now);
    if row.Success? {
      AddCleanupLater(db, row.value);
    }
  }

  lemma InsertOutputCleanupsLater(db: Db, videoId: Id, videoKey: Key, thumbnailKey: Key, cause: C.CleanupCause, now: Time)
    requires DbOk(db, now)
    ensures var r := InsertOutputCleanups(db, videoId, videoKey, thumbnailKey, cause, now);
            r.Success? ==> Later(db, r.value)
  {
    hide Later, DbOk;
    InsertCleanupLater(db, videoId, videoKey, C.AssetProcessed, cause, now);
    var r1 := InsertCleanup(db, videoId, videoKey, C.AssetProcessed, cause, now);
    if r1.Success? {
      InsertCleanupKeeps(db, videoId, videoKey, C.AssetProcessed, cause, now);
      InsertCleanupLater(r1.value, videoId, thumbnailKey, C.AssetThumbnail, cause, now);
      var r2 := InsertCleanup(r1.value, videoId, thumbnailKey, C.AssetThumbnail, cause, now);
      if r2.Success? {
        LaterTrans(db, r1.value, r2.value);
      }
    }
  }

  lemma DeleteLater(db: Db, userId: Id, videoId: Id, clock: Time, now: Time)
    requires DbOk(db, clock) && clock <= now && DeleteByOwner(db, userId, videoId, now).Success?
    ensures Later(db, DeleteByOwner(db, userId, videoId, now).value)
  {
    hide DbOk;
    var row := db.videos[videoId].DeleteByOwner(userId, now).value;
    var db1 := db.SaveVideo(videoId, row).(jobs := CancelWaitingJobs(db.jobs, videoId, now));
    assert Later(db, db1) by { WaitingJobsLater(db, videoId, clock, now); }
    DeleteKeepsJobs(db, videoId, row, clock, now);
    hide Later;
    InsertCleanupLater(db1, videoId, row.originalKey, C.AssetOriginal, C.VideoDelete, now);
    InsertCleanupKeeps(db1, videoId, row.originalKey, C.AssetOriginal, C.VideoDelete, now);
    var db2 := InsertCleanup(db1, videoId, row.originalKey, C.AssetOriginal, C.VideoDelete, now).value;
    LaterTrans(db, db1, db2);
    if videoId in db.outputs {
      var output := db.outputs[videoId];
      InsertOutputCleanupsLater(db2, videoId, output.videoKey, output.thumbnailKey, C.VideoDelete, now);
      LaterTrans(db, db2, DeleteByOwner(db, userId, videoId, now).value);
    }
  }

  lemma WaitingJobsLater(db: Db, videoId: Id, clock: Time, now: Time)
    requires DbOk(db, clock) && clock <= now
    ensures JobsLater(db.jobs, CancelWaitingJobs(db.jobs, videoId, now))
  {
    hide DbOk;
    forall j | j in db.jobs
      ensures JobLater(db.jobs[j], CancelWaitingJobs(db.jobs, videoId, now)[j])
    {
      JobFacts(db, clock, j);
    }
  }

  lemma ExpireUploadLater(db: Db, videoId: Id, clock: Time, now: Time)
    requires DbOk(db, clock) && clock <= now && videoId in db.videos
    ensures ExpireUpload(db, videoId, now).Success? ==> Later(db, ExpireUpload(db, videoId, now).value)
  {
    hide DbOk, Later;
    var r := db.videos[videoId].ExpireUpload(now);
    if ExpireUpload(db, videoId, now).Success? {
      SaveVideoLater(db, videoId, r.value);
      ExpiredRowKeeps(db, videoId, clock, now);
      InsertCleanupLater(db.SaveVideo(videoId, r.value), videoId, r.value.originalKey, C.AssetOriginal,
                         C.UploadExpiry, now);
      LaterTrans(db, db.SaveVideo(videoId, r.value), ExpireUpload(db, videoId, now).value);
    }
  }

  lemma {:induction false} ExpireRowsLater(db: Db, rows: seq<Id>, clock: Time, now: Time)
    requires DbOk(db, clock) && clock <= now && forall i | 0 <= i < |rows| :: rows[i] in db.videos
    ensures ExpireRows(db, rows, now).Success? ==> Later(db, ExpireRows(db, rows, now).value)
  {
    hide DbOk, Later;
    LaterRefl(db);
    if rows != [] {
      ExpireRowsLater(db, rows[..|rows| - 1], clock, now);
      ExpireRowsKeeps(db, rows[..|rows| - 1], clock, now);
      var before := ExpireRows(db, rows[..|rows| - 1], now);
      if ExpireRows(db, rows, now).Success? {
        ExpireUploadLater(before.value, rows[|rows| - 1], now, now);
        LaterTrans(db, before.value, ExpireRows(db, rows, now).value);
      }
    }
  }

  lemma CommitOutputLater(db: Db, jobId: Id, meta: OutputMeta, clock: Time, now: Time)
    requires DbOk(db, clock) && clock <= now && jobId in db.jobs && db.jobs[jobId].videoId in db.videos
    ensures CommitOutput(db, jobId, meta, now).Success? ==> Later(db, CommitOutput(db, jobId, meta, now).value)
  {
    hide DbOk;
    JobFacts(db, clock, jobId);
  }

  lemma CompleteDeletedLater(db: Db, jobId: Id, meta: OutputMeta, clock: Time, now: Time)
    requires DbOk(db, clock) && clock <= now && jobId in db.jobs && db.jobs[jobId].videoId in db.videos
    requires db.videos[db.jobs[jobId].videoId].IsDeleted()
    ensures CompleteDeleted(db, jobId, meta, now).Success? ==> Later(db, CompleteDeleted(db, jobId, meta, now).value)
  {
    hide DbOk, Later, InsertOutputCleanups;
    var job := db.jobs[jobId];
    var cancelled := job.Cancel(now);
    if CompleteDeleted(db, jobId, meta, now).Success? {
      JobFacts(db, clock, jobId);
      CancelOfDeletedKeeps(db, jobId, clock, now);
      ClockAdvances(db, clock, now);
      LaterRefl(db);
      var db1 := db.SaveJob(jobId, if cancelled.Success? then cancelled.value else job);
      assert cancelled.Failure? ==> db1 == db;
      V.TransitionsAdvance(job, 0, V.NoError, clock, now);
      SaveJobLater(db, jobId, db1.jobs[jobId]);
      InsertOutputCleanupsLater(db1, job.videoId, meta.videoKey, meta.thumbnailKey, C.Rollback, now);
      LaterTrans(db, db1, CompleteDeleted(db, jobId, meta, now).value);
    }
  }

  lemma CompleteLater(db: Db, jobId: Id, meta: OutputMeta, clock: Time, now: Time)
    requires DbOk(db, clock) && clock <= now && CompleteProcessing(db, jobId, meta, now).Success?
    ensures Later(db, CompleteProcessing(db, jobId, meta, now).value)
  {
    hide DbOk, Later, CompleteDeleted, CommitOutput;
    if db.videos[db.jobs[jobId].videoId].IsDeleted() {
      CompleteDeletedLater(db, jobId, meta, clock, now);
    } else {
      CommitOutputLater(db, jobId, meta, clock, now);
    }
  }

  lemma FailAliveLater(db: Db, jobId: Id, why: V.JobError, clock: Time, now: Time)
    requires DbOk(db, clock) && clock <= now && jobId in db.jobs
    ensures FailAlive(db, jobId, why, now).Success? ==> Later(db, FailAlive(db, jobId, why, now).value)
  {
    hide DbOk;
    JobFacts(db, clock, jobId);
    V.TransitionsAdvance(db.jobs[jobId], 0, why, clock, now);
  }

  lemma FailLater(db: Db, jobId: Id, why: V.JobError, videoKey: Key, clock: Time, now: Time)
    requires DbOk(db, clock) && clock <= now && FailProcessing(db, jobId, why, videoKey, 0, now).Success?
    ensures Later(db, FailProcessing(db, jobId, why, videoKey, 0, now).value)
  {
    hide DbOk, Later;
    JobFacts(db, clock, jobId);
    var job := db.jobs[jobId];
    CancelOfDeletedKeepsIfDeleted(db, jobId, clock, now);
    FailAliveKeeps(db, jobId, why, clock, now);
    FailAliveLater(db, jobId, why, clock, now);
    V.TransitionsAdvance(job, 0, why, clock, now);
    var db1 := if db.videos[job.videoId].IsDeleted() then db.SaveJob(jobId, job.Cancel(now).value)
               else FailAlive(db, jobId, why, now).value;
    if db.videos[job.videoId].IsDeleted() {
      SaveJobLater(db, jobId, job.Cancel(now).value);
    }
    InsertOutputCleanupsLater(db1, job.videoId, videoKey, 0, C.ProcessFailed, now);
    LaterTrans(db, db1, FailProcessing(db, jobId, why, videoKey, 0, now).value);
  }

  lemma RecoverJobLater(db: Db, jobId: Id, delays: seq<nat>, clock: Time, now: Time)
    requires DbOk(db, clock) && clock <= now && jobId in db.jobs
    ensures RecoverJob(db, jobId, delays, now).Success? ==> Later(db, RecoverJob(db, jobId, delays, now).value)
  {
    hide DbOk, Later;
    if RecoverJob(db, jobId, delays, now).Success? {
      JobFacts(db, clock, jobId);
      var job := db.jobs[jobId];
      FailAliveLater(db, jobId, V.WorkerTimeout, clock, now);
      var available := if 0 < job.attempts <= |delays| then now + delays[job.attempts - 1] else 0;
      V.TransitionsAdvance(job, available, V.WorkerTimeout, clock, now);
      if db.videos[job.videoId].IsDeleted() {
        SaveJobLater(db, jobId, job.Cancel(now).value);
      } else if job.attempts < job.maxAttempts {
        SaveJobLater(db, jobId, job.ScheduleRetry(available, V.WorkerTimeout, now).value);
      }
    }
  }

  lemma {:induction false} RecoverJobsLater(db: Db, rows: seq<Id>, delays: seq<nat>, clock: Time, now: Time)
    requires DbOk(db, clock) && clock <= now && forall i | 0 <= i < |rows| :: rows[i] in db.jobs
    ensures RecoverJobs(db, rows, delays, now).Success? ==> Later(db, RecoverJobs(db, rows, delays, now).value)
  {
    hide DbOk, Later;
    LaterRefl(db);
    if rows != [] {
      RecoverJobsLater(db, rows[..|rows| - 1], delays, clock, now);
      RecoverJobsKeeps(db, rows[..|rows| - 1], delays, clock, now);
      var before := RecoverJobs(db, rows[..|rows| - 1], delays, now);
      if RecoverJobs(db, rows, delays, now).Success? {
        RecoverJobLater(before.value, rows[|rows| - 1], delays, now, now);
        LaterTrans(db, before.value, RecoverJobs(db, rows, delays, now).value);
      }
    }
  }

  lemma CleanupTransitionLater(db: Db, c: Id, available: Time, why: C.CleanupError, clock: Time, now: Time)
    requires DbOk(db, clock) && clock <= now && c in db.cleanups
    ensures forall change | change in {db.cleanups[c].Claim(now), db.cleanups[c].ScheduleRetry(available, why, now),
                                       db.cleanups[c].MarkSucceeded(now), db.cleanups[c].MarkFailed(why, now)} ::
              SaveCleanup(db, c, change).Success? ==> Later(db, SaveCleanup(db, c, change).value)
  {
    hide DbOk, Later;
    CleanupFacts(db, clock, c);
    C.TransitionsAdvance(db.cleanups[c], available, why, clock, now);
    forall change | change in {db.cleanups[c].Claim(now), db.cleanups[c].ScheduleRetry(available, why, now),
                               db.cleanups[c].MarkSucceeded(now), db.cleanups[c].MarkFailed(why, now)}
      ensures SaveCleanup(db, c, change).Success? ==> Later(db, SaveCleanup(db, c, change).value)
    {
      if change.Success? {
        SaveCleanupLater(db, c, change.value);
      }
    }
  }

  lemma {:induction false} RecoverCleanupRowsLater(db: Db, rows: seq<Id>, delays: seq<nat>, clock: Time, now: Time)
    requires DbOk(db, clock) && clock <= now && forall i | 0 <= i < |rows| :: rows[i] in db.cleanups
    ensures RecoverCleanupRows(db, rows, delays, now).Success?
            ==> Later(db, RecoverCleanupRows(db, rows, delays, now).value)
  {
    hide DbOk, Later;
    LaterRefl(db);
    if rows != [] {
      RecoverCleanupRowsLater(db, rows[..|rows| - 1], delays, clock, now);
      RecoverCleanupRowsKeeps(db, rows[..|rows| - 1], delays, clock, now);
      var before := RecoverCleanupRows(db, rows[..|rows| - 1], delays, now);
      if RecoverCleanupRows(db, rows, delays, now).Success? {
        var last := rows[|rows| - 1];
        var row := before.value.cleanups[last];
        var available := if 0 < row.attempts <= |delays| then now + delays[row.attempts - 1] else 0;
        CleanupTransitionLater(before.value, last, available, C.WorkerTimeout, now, now);
        LaterTrans(db, before.value, RecoverCleanupRows(db, rows, delays, now).value);
      }
    }
  }

  lemma HideAuditedLater(db: Db, adminId: Id, videoId: Id, action: AuditAction, reason: string, requestId: string, now: Time)
    requires videoId in db.videos
    ensures var r := HideAudited(db, adminId, videoId, action, reason, requestId, now); r.Success? ==> Later(db, r.value)
  {
  }

  lemma {:induction false} HideVideosLater(db: Db, adminId: Id, rows: seq<Id>, reason: string, requestId: string, now: Time)
    requires forall i | 0 <= i < |rows| :: rows[i] in db.videos
    ensures var r := HideVideos(db, adminId, rows, reason, requestId, now); r.Success? ==> Later(db, r.value)
  {
    hide Later;
    LaterRefl(db);
    if rows != [] {
      HideVideosLater(db, adminId, rows[..|rows| - 1], reason, requestId, now);
      var before := HideVideos(db, adminId, rows[..|rows| - 1], reason, requestId, now);
      var r := HideVideos(db, adminId, rows, reason, requestId, now);
      if r.Success? {
        HideAuditedLater(before.value, adminId, rows[|rows| - 1], VideoHideByUserSuspension, reason, requestId, now);
        LaterTrans(db, before.value, r.value);
      }
    }
  }

  lemma AddVideoLater(db: Db, row: Video)
    requires db.nextId !in db.videos
    ensures Later(db, db.(videos := db.videos[db.nextId := row], nextId := db.nextId + 1))
  {
  }

  lemma AddJobLater(db: Db, row: Job)
    requires db.nextId !in db.jobs
    ensures Later(db, db.(jobs := db.jobs[db.nextId := row], nextId := db.nextId + 1))
  {
  }

  lemma InsertingTxLater(db: Db, tx: Tx, clock: Time, now: Time)
    requires DbOk(db, clock) && clock <= now
    requires tx.Create? || tx.FinishUpload? || tx.Register?
    ensures Perform(db, tx, now).Success? ==> Later(db, Perform(db, tx, now).value)
  {
    hide DbOk, Later;
    NextIdFresh(db, clock);
    LaterRefl(db);
    var r := Perform(db, tx, now);
    if r.Success? {
      match tx {
        case Create(u, key, expiresAt) =>
          AddVideoLater(db, Video(u, key, expiresAt, now, Uploading, Private, now, None));
        case FinishUpload(u, v) =>
          if db.videos[v].processing == Uploading {
            var db1 := db.SaveVideo(v, db.videos[v].CompleteUpload(now).value);
            SaveVideoLater(db, v, db1.videos[v]);
            LaterRefl(db1);
            AddJobLater(db1, V.NewJob(v, now).value);
            LaterTrans(db, db1, r.value);
          }
        case Register(owner, key, asset, cause) =>
          AddCleanupLater(db, C.NewCleanup(owner, key, asset, cause, now).value);
      }
    }
  }

  // A video row is saved; sources and audit entries may be added.
  lemma PublishedLater(db: Db, db': Db, v: Id)
    requires v in db.videos && v in db'.videos && VideoLater(db.videos[v], db'.videos[v]) && db.audit <= db'.audit
    requires db' == db.(videos := db.videos[v := db'.videos[v]], sources := db'.sources, audit := db'.audit)
    ensures Later(db, db')
  {
  }

  lemma ResumeLater(db: Db, tx: Tx, now: Time)
    requires tx.Resume?
    ensures Perform(db, tx, now).Success? ==> Later(db, Perform(db, tx, now).value)
  {
    hide Perform, SuspendUser;
    AccountTx(db, tx, now);
  }

  lemma RestoreLater(db: Db, tx: Tx, now: Time)
    requires tx.Restore?
    ensures Perform(db, tx, now).Success? ==> Later(db, Perform(db, tx, now).value)
  {
    hide Perform, HideVideo, SetPrivateByOwner, RepublishByOwner, RecordSourceValidation, Later;
    VideoRowTx(db, tx, now);
    if Perform(db, tx, now).Success? {
      PublishedLater(db, Perform(db, tx, now).value, tx.videoId);
    }
  }

  lemma MakePrivateLater(db: Db, userId: Id, v: Id, now: Time)
    requires SetPrivateByOwner(db, userId, v, now).Success?
    ensures Later(db, SetPrivateByOwner(db, userId, v, now).value)
  {
    hide Later;
    SaveVideoLater(db, v, db.videos[v].SetPrivateByOwner(userId, now).value);
  }

  lemma RepublishLater(db: Db, userId: Id, v: Id, now: Time)
    requires RepublishByOwner(db, userId, v, now).Success?
    ensures Later(db, RepublishByOwner(db, userId, v, now).value)
  {
    hide Later;
    SaveVideoLater(db, v, db.videos[v].RepublishByOwner(userId, db.users[userId].IsActive(), now).value);
  }

  lemma RecordSourceLater(db: Db, v: Id, meta: SourceMeta, now: Time)
    requires RecordSourceValidation(db, v, meta, now).Success?
    ensures Later(db, RecordSourceValidation(db, v, meta, now).value)
  {
    hide Later;
    if v in db.sources {
      LaterRefl(db);
    } else {
      PublishedLater(db, RecordSourceValidation(db, v, meta, now).value, v);
    }
  }

  lemma PublishingTxLater(db: Db, tx: Tx, now: Time)
    requires tx.MakePrivate? || tx.Republish? || tx.RecordSource?
    ensures Perform(db, tx, now).Success? ==> Later(db, Perform(db, tx, now).value)
  {
    hide Perform, HideVideo, RestoreVideo, SetPrivateByOwner, RepublishByOwner, RecordSourceValidation, Later;
    VideoRowTx(db, tx, now);
    if Perform(db, tx, now).Success? {
      if tx.MakePrivate? {
        MakePrivateLater(db, tx.userId, tx.videoId, now);
      } else if tx.Republish? {
        RepublishLater(db, tx.userId, tx.videoId, now);
      } else {
        RecordSourceLater(db, tx.videoId, tx.meta, now);
      }
    }
  }

  lemma ClaimLater(db: Db, j: Id, clock: Time, now: Time)
    requires DbOk(db, clock) && clock <= now && j in db.jobs && ClaimJob(db, j, now).Success?
    ensures Later(db, ClaimJob(db, j, now).value)
  {
    hide DbOk, Later;
    var db' := ClaimJob(db, j, now).value;
    var v := db.jobs[j].videoId;
    JobFacts(db, clock, j);
    V.TransitionsAdvance(db.jobs[j], 0, V.NoError, clock, now);
    SaveJobLater(db, j, db'.jobs[j]);
    if !db.videos[v].IsDeleted() && db.jobs[j].status == V.JobQueued {
      SaveVideoLater(db, v, db'.videos[v]);
      SaveJobLater(db.SaveVideo(v, db'.videos[v]), j, db'.jobs[j]);
      LaterTrans(db, db.SaveVideo(v, db'.videos[v]), db');
    }
  }

  lemma JobTxLater(db: Db, tx: Tx, clock: Time, now: Time)
    requires DbOk(db, clock) && clock <= now && Selected(db, tx, now)
    requires tx.Claim? || tx.Retry? || tx.Cancel?
    ensures Perform(db, tx, now).Success? ==> Later(db, Perform(db, tx, now).value)
  {
    hide Perform, DbOk, Later, ClaimJob;
    JobRowTx(db, tx, now);
    LaterRefl(db);
    var r, j := Perform(db, tx, now), tx.jobId;
    if r.Success? {
      if tx.Claim? {
        ClaimLater(db, j, clock, now);
      } else {
        JobFacts(db, clock, j);
        V.TransitionsAdvance(db.jobs[j], if tx.Retry? then tx.available else 0, if tx.Retry? then tx.why else V.NoError,
                             clock, now);
        SaveJobLater(db, j, r.value.jobs[j]);
      }
    }
  }

  /** Every transaction only moves forward. */
  lemma PerformIsLater(db: Db, tx: Tx, clock: Time, now: Time)
    requires DbOk(db, clock) && clock <= now && Selected(db, tx, now)
    ensures Perform(db, tx, now).Success? ==> Later(db, Perform(db, tx, now).value)
  {
    hide DbOk, Later;
    if Perform(db, tx, now).Success? {
      match tx {
        case Delete(u, v) => DeleteLater(db, u, v, clock, now);
        case Expire(rows, _) => ExpireRowsLater(db, rows, clock, now);
        case Recover(rows, _, delays, _) => RecoverJobsLater(db, rows, delays, clock, now);
        case RecoverClean(rows, _, delays, _) => RecoverCleanupRowsLater(db, rows, delays, clock, now);
        case Complete(j, output) => CompleteLater(db, j, output, clock, now);
        case Fail(j, why, videoKey) => FailLater(db, j, why, videoKey, clock, now);
        case ClaimClean(c) => CleanupTransitionLater(db, c, 0, C.NoError, clock, now);
        case SucceedClean(c) => CleanupTransitionLater(db, c, 0, C.NoError, clock, now);
        case RetryClean(c, available, error) => CleanupTransitionLater(db, c, available, error, clock, now);
        case FailClean(c, error) => CleanupTransitionLater(db, c, 0, error, clock, now);
        case Suspend(a, u, rows, reason, requestId) => SuspendLater(db, a, u, rows, reason, requestId, now);
        case Hide(a, v, reason, requestId) => HideAuditedLater(db, a, v, VideoHide, reason, requestId, now);
        case Resume(_, _, _, _) => ResumeLater(db, tx, now);
        case Claim(_) => JobTxLater(db, tx, clock, now);
        case Retry(_, _, _) => JobTxLater(db, tx, clock, now);
        case Cancel(_) => JobTxLater(db, tx, clock, now);
        case Create(_, _, _) => InsertingTxLater(db, tx, clock, now);
        case FinishUpload(_, _) => InsertingTxLater(db, tx, clock, now);
        case Register(_, _, _, _) => InsertingTxLater(db, tx, clock, now);
        case Restore(_, _, _, _) => RestoreLater(db, tx, now);
        case _ => PublishingTxLater(db, tx, now);
      }
    }
  }

  lemma SuspendLater(db: Db, a: Id, u: Id, rows: seq<Id>, reason: string, requestId: string, now: Time)
    requires forall i | 0 <= i < |rows| :: rows[i] in db.videos
    ensures var r := SuspendUser(db, a, u, rows, reason, requestId, now); r.Success? ==> Later(db, r.value)
  {
    var r := SuspendUser(db, a, u, rows, reason, requestId, now);
    if r.Success? {
      var db1 := SuspendAccount(db, a, u, reason, requestId, now).value;
      assert Later(db, db1);
      HideVideosLater(db1, a, rows, reason, requestId, now);
      LaterTrans(db, db1, r.value);
    }
  }
}
