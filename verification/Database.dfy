/**
  The tables and what each transaction on videos, jobs and cleanup jobs makes of them.
  A transaction is a function from one database to a result: an error means it was rolled back.
 */
module Database {
  import opened Common
  import opened VideoEntity
  import VideoJobEntity
  import CleanupEntity
  import opened UserEntity

  type Job = VideoJobEntity.Job
  type Cleanup = CleanupEntity.Cleanup

  /** One state of the tables. Metas are keyed by video, the others by primary key. */
  datatype Db = Db(
    nextId: Id,
    users: map<Id, User>,
    tokens: map<Id, RefreshToken>,
    videos: map<Id, Video>,
    jobs: map<Id, Job>,
    sources: map<Id, SourceMeta>,
    outputs: map<Id, OutputMeta>,
    cleanups: map<Id, Cleanup>,
    audit: seq<AuditEntry>)
  {
    predicate HasVideo(videoId: Id) {
      videoId in videos && !videos[videoId].IsDeleted()
    }

    predicate HasJob(videoId: Id) {
      JobExists(jobs, videoId)
    }

    // The partial unique index uq_cleanup_unfinished_object.
    predicate HasUnfinishedCleanup(key: Key) {
      exists c :: c in cleanups && cleanups[c].key == key && cleanups[c].IsUnfinished()
    }

    predicate OwnerActive(videoId: Id)
      requires videoId in videos
    {
      videos[videoId].userId in users && users[videos[videoId].userId].IsActive()
    }

    function SaveVideo(videoId: Id, row: Video): Db {
      this.(videos := videos[videoId := row])
    }

    function SaveJob(jobId: Id, row: Job): Db {
      this.(jobs := jobs[jobId := row])
    }

    function Source(videoId: Id): Option<SourceMeta> {
      if videoId in sources then Some(sources[videoId]) else None
    }
  }

  // Primary keys of cleanup rows are below the next one to be drawn.
  ghost predicate FreshRows(db: Db) {
    forall c | c in db.cleanups :: c < db.nextId
  }

  predicate JobExists(jobs: map<Id, Job>, videoId: Id) {
    exists j :: j in jobs && jobs[j].videoId == videoId
  }

  // ---------------------------------------------------------------- cleanup rows

  /** createCleanupJob: a second unfinished row for a key violates the index and rolls everything back. */
  function InsertCleanup(db: Db, videoId: Id, key: Key, asset: CleanupEntity.AssetType,
                         cause: CleanupEntity.CleanupCause, now: Time): Result<Db>
  {
    if key == 0 then Success(db)
    else
      var row :- CleanupEntity.NewCleanup(Some(videoId), key, asset, cause, now);
      if db.HasUnfinishedCleanup(key) then Failure(UniqueViolation)
      else Success(db.(cleanups := db.cleanups[db.nextId := row], nextId := db.nextId + 1))
  }

  /** The worker-side Create absorbs the violation instead. */
  function CreateCleanup(db: Db, row: Cleanup): Db {
    if db.HasUnfinishedCleanup(row.key) then db
    else db.(cleanups := db.cleanups[db.nextId := row], nextId := db.nextId + 1)
  }

  function InsertOutputCleanups(db: Db, videoId: Id, videoKey: Key, thumbnailKey: Key,
                                cause: CleanupEntity.CleanupCause, now: Time): Result<Db>
  {
    var db1 :- InsertCleanup(db, videoId, videoKey, CleanupEntity.AssetProcessed, cause, now);
    InsertCleanup(db1, videoId, thumbnailKey, CleanupEntity.AssetThumbnail, cause, now)
  }

  // ---------------------------------------------------------------- owner operations

  /** The insertion of a new video by CreateWithIdempotency. */
  function InsertVideo(db: Db, userId: Id, key: Key, expiresAt: Time, now: Time): Result<Db> {
    if userId == 0 || key == 0 || now == 0 || expiresAt <= now then Failure(InvalidInput)
    else if userId !in db.users then Failure(UserNotFound)
    else if exists v :: v in db.videos && db.videos[v].originalKey == key then Failure(UniqueViolation)
    else
      var row := Video(userId, key, expiresAt, now, Uploading, Private, now, None);
      Success(db.(videos := db.videos[db.nextId := row], nextId := db.nextId + 1))
  }

  function InsertJob(db: Db, videoId: Id, now: Time): Result<Db> {
    var row :- VideoJobEntity.NewJob(videoId, now);
    if db.HasJob(videoId) then Success(db)
    else Success(db.(jobs := db.jobs[db.nextId := row], nextId := db.nextId + 1))
  }

  function CompleteUpload(db: Db, userId: Id, videoId: Id, now: Time): Result<Db> {
    if userId == 0 || videoId == 0 || now == 0 then Failure(InvalidInput)
    else if !db.HasVideo(videoId) || db.videos[videoId].userId != userId then Failure(VideoNotFound)
    else if db.videos[videoId].processing == Uploading then
      var row :- db.videos[videoId].CompleteUpload(now);
      InsertJob(db.SaveVideo(videoId, row), videoId, now)
    else if db.videos[videoId].processing == Expired then Failure(Error.UploadExpired)
    else Success(db)
  }

  function SetPrivateByOwner(db: Db, userId: Id, videoId: Id, now: Time): Result<Db> {
    if !db.HasVideo(videoId) then Failure(VideoNotFound)
    else
      var row :- db.videos[videoId].SetPrivateByOwner(userId, now);
      Success(db.SaveVideo(videoId, row))
  }

  function RepublishByOwner(db: Db, userId: Id, videoId: Id, now: Time): Result<Db> {
    if userId !in db.users then Failure(UserNotFound)
    else if !db.HasVideo(videoId) then Failure(VideoNotFound)
    else
      var row :- db.videos[videoId].RepublishByOwner(userId, db.users[userId].IsActive(), now);
      Success(db.SaveVideo(videoId, row))
  }

  // The bulk UPDATE of a delete: waiting jobs of the video are cancelled.
  function CancelWaitingJobs(jobs: map<Id, Job>, videoId: Id, now: Time): map<Id, Job> {
    map j | j in jobs ::
      if jobs[j].videoId == videoId
         && (jobs[j].status == VideoJobEntity.JobQueued || jobs[j].status == VideoJobEntity.JobRetryWait)
      then jobs[j].(status := VideoJobEntity.JobCancelled, finishedAt := Some(now), updatedAt := now)
      else jobs[j]
  }

  function DeleteByOwner(db: Db, userId: Id, videoId: Id, now: Time): Result<Db> {
    if !db.HasVideo(videoId) then Failure(VideoNotFound)
    else
      var row :- db.videos[videoId].DeleteByOwner(userId, now);
      var db1 := db.SaveVideo(videoId, row).(jobs := CancelWaitingJobs(db.jobs, videoId, now));
      var db2 :- InsertCleanup(db1, videoId, row.originalKey, CleanupEntity.AssetOriginal,
                               CleanupEntity.VideoDelete, now);
      if videoId in db.outputs then
        InsertOutputCleanups(db2, videoId, db.outputs[videoId].videoKey, db.outputs[videoId].thumbnailKey,
                             CleanupEntity.VideoDelete, now)
      else Success(db2)
  }

  // ---------------------------------------------------------------- upload expiry

  function ExpireUpload(db: Db, videoId: Id, now: Time): Result<Db>
    requires videoId in db.videos
  {
    var row :- db.videos[videoId].ExpireUpload(now);
    InsertCleanup(db.SaveVideo(videoId, row), videoId, row.originalKey, CleanupEntity.AssetOriginal,
                  CleanupEntity.UploadExpiry, now)
  }

  // The WHERE clause of the sweep. Rows locked elsewhere are skipped, so any such rows may be picked.
  predicate AwaitsExpiry(v: Video, now: Time) {
    v.Unpublished(Uploading) && v.uploadExpiresAt <= now
  }

  predicate SelectsExpired(db: Db, rows: seq<Id>, now: Time) {
    && (forall i | 0 <= i < |rows| :: rows[i] in db.videos && AwaitsExpiry(db.videos[rows[i]], now))
    && (forall i, j | 0 <= i < j < |rows| :: rows[i] != rows[j])
  }

  /** The sweep handles its rows first to last in one transaction. */
  function ExpireRows(db: Db, rows: seq<Id>, now: Time): (r: Result<Db>)
    requires forall i | 0 <= i < |rows| :: rows[i] in db.videos
    ensures r.Success? ==> r.value.videos.Keys == db.videos.Keys
  {
    if rows == [] then Success(db)
    else
      var before :- ExpireRows(db, rows[..|rows| - 1], now);
      ExpireUpload(before, rows[|rows| - 1], now)
  }

  function ExpireUploads(db: Db, rows: seq<Id>, limit: int, now: Time): Result<Db>
    requires forall i | 0 <= i < |rows| :: rows[i] in db.videos
  {
    if limit < 1 then Failure(InvalidInput) else ExpireRows(db, rows, now)
  }

  // ---------------------------------------------------------------- processing

  function RecordSourceValidation(db: Db, videoId: Id, meta: SourceMeta, now: Time): Result<Db> {
    if !db.HasVideo(videoId) then Failure(VideoNotFound)
    else if videoId in db.sources then Success(db)
    else
      var row :- db.videos[videoId].RecordSourceValidation(meta, None, now);
      Success(db.SaveVideo(videoId, row).(sources := db.sources[videoId := meta.(createdAt := now)]))
  }

  /** Completion of a video deleted meanwhile: a job that is already over stays as it is. */
  function CompleteDeleted(db: Db, jobId: Id, meta: OutputMeta, now: Time): Result<Db>
    requires jobId in db.jobs
  {
    var job := db.jobs[jobId];
    var cancelled := job.Cancel(now);
    if cancelled.Failure? && cancelled.error != ProcessingJobConflict then Failure(cancelled.error)
    else
      InsertOutputCleanups(db.SaveJob(jobId, if cancelled.Success? then cancelled.value else job), job.videoId,
                           meta.videoKey, meta.thumbnailKey, CleanupEntity.Rollback, now)
  }

  /** Completion of a living video: the output row, the video and the job change together. */
  function CommitOutput(db: Db, jobId: Id, meta: OutputMeta, now: Time): Result<Db>
    requires jobId in db.jobs && db.jobs[jobId].videoId in db.videos
  {
    var videoId := db.jobs[jobId].videoId;
    if videoId !in db.sources then Failure(SourceMetaMissing)
    else if db.videos[videoId].userId !in db.users then Failure(UserNotFound)
    else
      var row :- db.videos[videoId].CompleteProcessing(meta, db.Source(videoId), None, db.OwnerActive(videoId), now);
      var job :- db.jobs[jobId].MarkSucceeded(now);
      if videoId in db.outputs then Failure(UniqueViolation)
      else Success(db.SaveVideo(videoId, row).SaveJob(jobId, job)
                     .(outputs := db.outputs[videoId := meta.(createdAt := now)]))
  }

  function CompleteProcessing(db: Db, jobId: Id, meta: OutputMeta, now: Time): Result<Db> {
    if jobId !in db.jobs then Failure(ProcessingJobNotFound)
    else if db.jobs[jobId].videoId !in db.videos then Failure(VideoNotFound)
    else if db.videos[db.jobs[jobId].videoId].IsDeleted() then CompleteDeleted(db, jobId, meta, now)
    else CommitOutput(db, jobId, meta, now)
  }

  function FailProcessing(db: Db, jobId: Id, why: VideoJobEntity.JobError, videoKey: Key, thumbnailKey: Key,
                          now: Time): Result<Db>
  {
    if jobId !in db.jobs then Failure(ProcessingJobNotFound)
    else if db.jobs[jobId].videoId !in db.videos then Failure(VideoNotFound)
    else
      var videoId := db.jobs[jobId].videoId;
      var db1 :-
        if db.videos[videoId].IsDeleted() then
          var job :- db.jobs[jobId].Cancel(now);
          Success(db.SaveJob(jobId, job))
        else FailAlive(db, jobId, why, now);
      InsertOutputCleanups(db1, videoId, videoKey, thumbnailKey, CleanupEntity.ProcessFailed, now)
  }

  function FailAlive(db: Db, jobId: Id, why: VideoJobEntity.JobError, now: Time): Result<Db>
    requires jobId in db.jobs && db.jobs[jobId].videoId in db.videos
  {
    var row :- db.videos[db.jobs[jobId].videoId].FailProcessing(now);
    var job :- db.jobs[jobId].MarkFailed(why, now);
    Success(db.SaveVideo(db.jobs[jobId].videoId, row).SaveJob(jobId, job))
  }

  // The WHERE clause of a claim.
  predicate Claimable(j: Job, now: Time) {
    && (j.status == VideoJobEntity.JobQueued || j.status == VideoJobEntity.JobRetryWait)
    && j.availableAt <= now && j.attempts < j.maxAttempts
  }

  /** Claiming the selected job; for a deleted video the job is cancelled and nothing is claimed. */
  function ClaimJob(db: Db, jobId: Id, now: Time): Result<Db>
    requires jobId in db.jobs
  {
    var job := db.jobs[jobId];
    if now == 0 then Failure(InvalidInput)
    else if job.videoId !in db.videos then Failure(VideoNotFound)
    else if db.videos[job.videoId].IsDeleted() then
      var cancelled :- job.Cancel(now);
      Success(db.SaveJob(jobId, cancelled))
    else if job.status == VideoJobEntity.JobQueued then
      var row :- db.videos[job.videoId].StartProcessing(now);
      var claimed :- job.Claim(now);
      Success(db.SaveVideo(job.videoId, row).SaveJob(jobId, claimed))
    else if !db.videos[job.videoId].Unpublished(Processing) then Failure(VideoStateConflict)
    else
      var claimed :- job.Claim(now);
      Success(db.SaveJob(jobId, claimed))
  }

  function ScheduleRetry(db: Db, jobId: Id, available: Time, why: VideoJobEntity.JobError, now: Time): Result<Db> {
    if jobId == 0 || available == 0 || now == 0 then Failure(InvalidInput)
    else if jobId !in db.jobs then Failure(ProcessingJobNotFound)
    else
      var job :- db.jobs[jobId].ScheduleRetry(available, why, now);
      Success(db.SaveJob(jobId, job))
  }

  function CancelJob(db: Db, jobId: Id, now: Time): Result<Db> {
    if jobId == 0 || now == 0 then Failure(InvalidInput)
    else if jobId !in db.jobs then Failure(ProcessingJobNotFound)
    else if db.jobs[jobId].IsTerminal() then Success(db)
    else
      var job :- db.jobs[jobId].Cancel(now);
      Success(db.SaveJob(jobId, job))
  }

  // ---------------------------------------------------------------- timeout recovery

  // Three positive delays, one for each attempt that may be followed by another.
  predicate ValidDelays(delays: seq<nat>) {
    |delays| == 3 && forall i | 0 <= i < |delays| :: delays[i] > 0
  }

  predicate TimedOut(j: Job, before: Time) {
    j.status == VideoJobEntity.JobRunning && j.startedAt.Some? && j.startedAt.value <= before
  }

  predicate SelectsTimedOut(db: Db, rows: seq<Id>, before: Time) {
    && (forall i | 0 <= i < |rows| :: rows[i] in db.jobs && TimedOut(db.jobs[rows[i]], before))
    && (forall i, j | 0 <= i < j < |rows| :: rows[i] != rows[j])
  }

  function RecoverJob(db: Db, jobId: Id, delays: seq<nat>, now: Time): Result<Db>
    requires jobId in db.jobs
  {
    var job := db.jobs[jobId];
    if job.status != VideoJobEntity.JobRunning || job.attempts < 1 || job.attempts > job.maxAttempts
    then Failure(ProcessingJobConflict)
    else if job.videoId !in db.videos then Failure(VideoNotFound)
    else if db.videos[job.videoId].IsDeleted() then
      var cancelled :- job.Cancel(now);
      Success(db.SaveJob(jobId, cancelled))
    else if job.attempts < job.maxAttempts then
      if !db.videos[job.videoId].Unpublished(Processing) then Failure(VideoStateConflict)
      else if job.attempts - 1 >= |delays| then Failure(ProcessingJobConflict)
      else
        var retried :- job.ScheduleRetry(now + delays[job.attempts - 1], VideoJobEntity.WorkerTimeout, now);
        Success(db.SaveJob(jobId, retried))
    else FailAlive(db, jobId, VideoJobEntity.WorkerTimeout, now)
  }

  function RecoverJobs(db: Db, rows: seq<Id>, delays: seq<nat>, now: Time): (r: Result<Db>)
    requires forall i | 0 <= i < |rows| :: rows[i] in db.jobs
    ensures r.Success? ==> r.value.jobs.Keys == db.jobs.Keys
  {
    if rows == [] then Success(db)
    else
      var before :- RecoverJobs(db, rows[..|rows| - 1], delays, now);
      RecoverJob(before, rows[|rows| - 1], delays, now)
  }

  function RecoverTimedOut(db: Db, rows: seq<Id>, before: Time, delays: seq<nat>, limit: int, now: Time): Result<Db>
    requires forall i | 0 <= i < |rows| :: rows[i] in db.jobs
  {
    if before == 0 || now == 0 || before >= now || limit < 1 || !ValidDelays(delays) then Failure(InvalidInput)
    else RecoverJobs(db, rows, delays, now)
  }

  // ---------------------------------------------------------------- cleanup worker

  function SaveCleanup(db: Db, cleanupId: Id, change: Result<Cleanup>): Result<Db> {
    var row :- change;
    Success(db.(cleanups := db.cleanups[cleanupId := row]))
  }

  predicate CleanupClaimable(c: Cleanup, now: Time) {
    && (c.status == CleanupEntity.CleanupQueued || c.status == CleanupEntity.CleanupRetryWait)
    && c.availableAt <= now && c.attempts < c.maxAttempts
  }

  function ClaimCleanup(db: Db, cleanupId: Id, now: Time): Result<Db>
    requires cleanupId in db.cleanups
  {
    SaveCleanup(db, cleanupId, db.cleanups[cleanupId].Claim(now))
  }

  function RetryCleanup(db: Db, cleanupId: Id, available: Time, why: CleanupEntity.CleanupError, now: Time): Result<Db> {
    if cleanupId == 0 || available == 0 || now == 0 then Failure(InvalidInput)
    else if cleanupId !in db.cleanups then Failure(CleanupJobNotFound)
    else SaveCleanup(db, cleanupId, db.cleanups[cleanupId].ScheduleRetry(available, why, now))
  }

  function SucceedCleanup(db: Db, cleanupId: Id, now: Time): Result<Db> {
    if cleanupId == 0 || now == 0 then Failure(InvalidInput)
    else if cleanupId !in db.cleanups then Failure(CleanupJobNotFound)
    else SaveCleanup(db, cleanupId, db.cleanups[cleanupId].MarkSucceeded(now))
  }

  function FailCleanup(db: Db, cleanupId: Id, why: CleanupEntity.CleanupError, now: Time): Result<Db> {
    if cleanupId == 0 || now == 0 then Failure(InvalidInput)
    else if cleanupId !in db.cleanups then Failure(CleanupJobNotFound)
    else SaveCleanup(db, cleanupId, db.cleanups[cleanupId].MarkFailed(why, now))
  }

  predicate CleanupTimedOut(c: Cleanup, before: Time) {
    c.status == CleanupEntity.CleanupRunning && c.startedAt.Some? && c.startedAt.value <= before
  }

  predicate SelectsTimedOutCleanups(db: Db, rows: seq<Id>, before: Time) {
    && (forall i | 0 <= i < |rows| :: rows[i] in db.cleanups && CleanupTimedOut(db.cleanups[rows[i]], before))
    && (forall i, j | 0 <= i < j < |rows| :: rows[i] != rows[j])
  }

  function RecoverCleanup(db: Db, cleanupId: Id, delays: seq<nat>, now: Time): Result<Db>
    requires cleanupId in db.cleanups
  {
    var row := db.cleanups[cleanupId];
    if row.status != CleanupEntity.CleanupRunning || row.attempts < 1
       || row.maxAttempts != CleanupEntity.MAX_ATTEMPTS || row.attempts > row.maxAttempts
    then Failure(CleanupJobConflict)
    else if row.attempts < row.maxAttempts then
      if row.attempts - 1 >= |delays| then Failure(CleanupJobConflict)
      else SaveCleanup(db, cleanupId,
                       row.ScheduleRetry(now + delays[row.attempts - 1], CleanupEntity.WorkerTimeout, now))
    else SaveCleanup(db, cleanupId, row.MarkFailed(CleanupEntity.WorkerTimeout, now))
  }

  function RecoverCleanupRows(db: Db, rows: seq<Id>, delays: seq<nat>, now: Time): (r: Result<Db>)
    requires forall i | 0 <= i < |rows| :: rows[i] in db.cleanups
    ensures r.Success? ==> r.value.cleanups.Keys == db.cleanups.Keys
  {
    if rows == [] then Success(db)
    else
      var before :- RecoverCleanupRows(db, rows[..|rows| - 1], delays, now);
      RecoverCleanup(before, rows[|rows| - 1], delays, now)
  }

  function RecoverCleanups(db: Db, rows: seq<Id>, before: Time, delays: seq<nat>, limit: int, now: Time): Result<Db>
    requires forall i | 0 <= i < |rows| :: rows[i] in db.cleanups
  {
    if before == 0 || now == 0 || before >= now || limit < 1 || !ValidDelays(delays) then Failure(InvalidInput)
    else RecoverCleanupRows(db, rows, delays, now)
  }

  // ---------------------------------------------------------------- object references

  predicate IsOriginal(db: Db, key: Key) {
    exists v :: v in db.videos && db.videos[v].originalKey == key
  }

  predicate IsOutput(db: Db, key: Key) {
    exists v :: v in db.outputs && db.outputs[v].Uses(key)
  }

  /** IsObjectReferenced for a non-blank key: soft-deleted videos still count. */
  predicate IsObjectReferenced(db: Db, key: Key) {
    IsOriginal(db, key) || IsOutput(db, key)
  }

  // ---------------------------------------------------------------- administration

  function HideVideo(db: Db, adminId: Id, videoId: Id, reason: string, requestId: string, now: Time): Result<Db> {
    if adminId == 0 || videoId == 0 || now == 0 then Failure(InvalidInput)
    else if !db.HasVideo(videoId) then Failure(VideoNotFound)
    else HideAudited(db, adminId, videoId, VideoHide, reason, requestId, now)
  }

  function HideAudited(db: Db, adminId: Id, videoId: Id, action: AuditAction, reason: string, requestId: string,
                       now: Time): Result<Db>
    requires videoId in db.videos
  {
    var row :- db.videos[videoId].HideByAdmin(now);
    var entry :- NewAuditEntry(adminId, OnVideo(videoId), action, OfVideo(db.videos[videoId].publish),
                               OfVideo(row.publish), reason, requestId, now);
    Success(db.SaveVideo(videoId, row).(audit := db.audit + [entry]))
  }

  function RestoreVideo(db: Db, adminId: Id, videoId: Id, reason: string, requestId: string, now: Time): Result<Db> {
    if adminId == 0 || videoId == 0 || now == 0 then Failure(InvalidInput)
    else if !db.HasVideo(videoId) then Failure(VideoNotFound)
    else if db.videos[videoId].userId !in db.users then Failure(UserNotFound)
    else
      var row :- db.videos[videoId].RestoreByAdmin(db.OwnerActive(videoId), now);
      var entry :- NewAuditEntry(adminId, OnVideo(videoId), VideoRestore, OfVideo(db.videos[videoId].publish),
                                 OfVideo(row.publish), reason, requestId, now);
      Success(db.SaveVideo(videoId, row).(audit := db.audit + [entry]))
  }

  // The rows the suspension locks: every published video of the user, in ascending order of id.
  predicate SelectsPublished(db: Db, userId: Id, rows: seq<Id>) {
    && (forall i | 0 <= i < |rows| :: IsPublishedOf(db, userId, rows[i]))
    && (forall v | v in db.videos :: IsPublishedOf(db, userId, v) ==> v in rows)
    && (forall i, j | 0 <= i < j < |rows| :: rows[i] < rows[j])
  }

  predicate IsPublishedOf(db: Db, userId: Id, videoId: Id) {
    videoId in db.videos && db.videos[videoId].userId == userId && db.videos[videoId].CanBeViewedPublicly()
  }

  function HideVideos(db: Db, adminId: Id, rows: seq<Id>, reason: string, requestId: string, now: Time): (r: Result<Db>)
    requires forall i | 0 <= i < |rows| :: rows[i] in db.videos
    ensures r.Success? ==> r.value.videos.Keys == db.videos.Keys
  {
    if rows == [] then Success(db)
    else
      var before :- HideVideos(db, adminId, rows[..|rows| - 1], reason, requestId, now);
      HideAudited(before, adminId, rows[|rows| - 1], VideoHideByUserSuspension, reason, requestId, now)
  }

  function RevokeTokensOfUser(tokens: map<Id, RefreshToken>, userId: Id, now: Time): map<Id, RefreshToken> {
    map t | t in tokens :: if tokens[t].userId == userId then tokens[t].Revoke(now) else tokens[t]
  }

  // The user's part of a suspension: status, version, refresh tokens and audit entry.
  function SuspendAccount(db: Db, adminId: Id, userId: Id, reason: string, requestId: string, now: Time): Result<Db> {
    if userId !in db.users then Failure(UserNotFound)
    else
      var user :- db.users[userId].Suspend(now);
      var entry :- NewAuditEntry(adminId, OnUser(userId), UserSuspend, OfUser(db.users[userId].status),
                                 OfUser(user.status), reason, requestId, now);
      Success(db.(users := db.users[userId := user], tokens := RevokeTokensOfUser(db.tokens, userId, now),
                  audit := db.audit + [entry]))
  }

  function SuspendUser(db: Db, adminId: Id, userId: Id, rows: seq<Id>, reason: string, requestId: string,
                       now: Time): Result<Db>
    requires forall i | 0 <= i < |rows| :: rows[i] in db.videos
  {
    var db1 :- SuspendAccount(db, adminId, userId, reason, requestId, now);
    HideVideos(db1, adminId, rows, reason, requestId, now)
  }

  function ResumeUser(db: Db, adminId: Id, userId: Id, reason: string, requestId: string, now: Time): Result<Db> {
    if userId !in db.users then Failure(UserNotFound)
    else
      var user :- db.users[userId].Resume(now);
      var entry :- NewAuditEntry(adminId, OnUser(userId), UserResume, OfUser(db.users[userId].status),
                                 OfUser(user.status), reason, requestId, now);
      Success(db.(users := db.users[userId := user], audit := db.audit + [entry]))
  }
}
