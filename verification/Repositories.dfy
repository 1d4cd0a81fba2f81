/**
  The repositories: transactions that load rows, change them in place and save them, over tables that
  are updated as they go. Each is proved to commit exactly what the function of the same name in module
  Database says, and to leave the tables as they were when it returns an error.

  A row a query selects is a parameter: which of the matching, unlocked rows it finds is the database's choice.
 */
module Repositories {
  import opened Common
  import opened VideoEntity
  import VideoJobEntity
  import CleanupEntity
  import opened UserEntity
  import opened Database
  import opened Coherence
  import opened Outcomes

  // A transaction either commits its specification or rolls back.
  ghost predicate Commits(spec: Result<Db>, before: Db, after: Db, err: Option<Error>) {
    match spec
    case Success(db) => after == db && err == None
    case Failure(e) => after == before && err == Some(e)
  }

  /** The tables of the database. */
  class Tables {
    var nextId: Id
    var users: map<Id, User>
    var tokens: map<Id, RefreshToken>
    var videos: map<Id, Video>
    var jobs: map<Id, Job>
    var sources: map<Id, SourceMeta>
    var outputs: map<Id, OutputMeta>
    var cleanups: map<Id, Cleanup>
    var audit: seq<AuditEntry>

    constructor (db: Db)
      ensures Snapshot() == db
    {
      nextId, users, tokens, videos, jobs := db.nextId, db.users, db.tokens, db.videos, db.jobs;
      sources, outputs, cleanups, audit := db.sources, db.outputs, db.cleanups, db.audit;
    }

    function Snapshot(): Db
      reads this
    {
      Db(nextId, users, tokens, videos, jobs, sources, outputs, cleanups, audit)
    }

    method Rollback(to: Db)
      modifies this
      ensures Snapshot() == to
    {
      nextId, users, tokens, videos, jobs := to.nextId, to.users, to.tokens, to.videos, to.jobs;
      sources, outputs, cleanups, audit := to.sources, to.outputs, to.cleanups, to.audit;
    }

    /** createCleanupJob, inside a transaction. */
    method InsertCleanup(videoId: Id, key: Key, asset: CleanupEntity.AssetType, cause: CleanupEntity.CleanupCause,
                         now: Time) returns (err: Option<Error>)
      modifies this
      ensures Commits(Database.InsertCleanup(old(Snapshot()), videoId, key, asset, cause, now),
                      old(Snapshot()), Snapshot(), err)
    {
      if key == 0 { return None; }
      var row := CleanupEntity.NewCleanup(Some(videoId), key, asset, cause, now);
      if row.Failure? { return Some(row.error); }
      if Snapshot().HasUnfinishedCleanup(key) { return Some(UniqueViolation); }
      cleanups := cleanups[nextId := row.value];
      nextId := nextId + 1;
      err := None;
    }

    method AppendAudit(adminId: Id, target: AuditTarget, action: AuditAction, before: AuditStatus, after: AuditStatus,
                       reason: string, requestId: string, now: Time) returns (err: Option<Error>)
      modifies this`audit
      ensures match NewAuditEntry(adminId, target, action, before, after, reason, requestId, now)
              case Success(entry) => audit == old(audit) + [entry] && err == None
              case Failure(e) => audit == old(audit) && err == Some(e)
    {
      var entry := NewAuditEntry(adminId, target, action, before, after, reason, requestId, now);
      if entry.Failure? { return Some(entry.error); }
      audit := audit + [entry.value];
      err := None;
    }
  }

  /** backend/repository/video_repository.go */
  class VideoRepository {
    const tables: Tables

    constructor (tables: Tables)
      ensures this.tables == tables
    {
      this.tables := tables;
    }

    method CompleteUpload(userId: Id, videoId: Id, now: Time) returns (err: Option<Error>)
      modifies tables
      ensures Commits(Database.CompleteUpload(old(tables.Snapshot()), userId, videoId, now),
                      old(tables.Snapshot()), tables.Snapshot(), err)
      ensures err.None? ==> OwnsLiving(old(tables.Snapshot()), userId, videoId)
    {
      if userId == 0 || videoId == 0 || now == 0 { return Some(InvalidInput); }
      if videoId !in tables.videos || tables.videos[videoId].userId != userId
         || tables.videos[videoId].deletedAt.Some?
      {
        return Some(VideoNotFound);
      }
      var video := new VideoRecord(tables.videos[videoId]);
      match video.processing {
        case Uploading =>
          err := video.CompleteUpload(now);
          if err.Some? { return; }
          tables.videos := tables.videos[videoId := video.Row()];
          var job := VideoJobEntity.NewJob(videoId, now);
          // ON CONFLICT (video_id) DO NOTHING
          if !tables.Snapshot().HasJob(videoId) {
            tables.jobs := tables.jobs[tables.nextId := job.value];
            tables.nextId := tables.nextId + 1;
          }
        case Expired => return Some(Error.UploadExpired);
        case _ => err := None;
      }
    }

    method SetPrivateByOwner(userId: Id, videoId: Id, now: Time) returns (err: Option<Error>)
      modifies tables
      ensures Commits(Database.SetPrivateByOwner(old(tables.Snapshot()), userId, videoId, now),
                      old(tables.Snapshot()), tables.Snapshot(), err)
      ensures err.None? ==> OwnsLiving(old(tables.Snapshot()), userId, videoId)
      ensures Living(old(tables.Snapshot()), videoId) && now != 0 && !OwnsLiving(old(tables.Snapshot()), userId, videoId)
              ==> err == Some(VideoForbidden)
    {
      if !tables.Snapshot().HasVideo(videoId) { return Some(VideoNotFound); }
      var video := new VideoRecord(tables.videos[videoId]);
      err := video.SetPrivateByOwner(userId, now);
      if err.Some? { return; }
      tables.videos := tables.videos[videoId := video.Row()];
    }

    method RepublishByOwner(userId: Id, videoId: Id, now: Time) returns (err: Option<Error>)
      modifies tables
      ensures Commits(Database.RepublishByOwner(old(tables.Snapshot()), userId, videoId, now),
                      old(tables.Snapshot()), tables.Snapshot(), err)
      ensures err.None? ==> OwnsLiving(old(tables.Snapshot()), userId, videoId)
    {
      if userId !in tables.users { return Some(UserNotFound); }
      if !tables.Snapshot().HasVideo(videoId) { return Some(VideoNotFound); }
      var video := new VideoRecord(tables.videos[videoId]);
      err := video.RepublishByOwner(userId, tables.users[userId].IsActive(), now);
      if err.Some? { return; }
      tables.videos := tables.videos[videoId := video.Row()];
    }

    method DeleteByOwner(userId: Id, videoId: Id, now: Time) returns (err: Option<Error>)
      modifies tables
      ensures Commits(Database.DeleteByOwner(old(tables.Snapshot()), userId, videoId, now),
                      old(tables.Snapshot()), tables.Snapshot(), err)
      ensures err.None? ==> OwnsLiving(old(tables.Snapshot()), userId, videoId)
      ensures Living(old(tables.Snapshot()), videoId) && now != 0 && !OwnsLiving(old(tables.Snapshot()), userId, videoId)
              ==> err == Some(VideoForbidden)
      ensures err.None? && DbOk(old(tables.Snapshot()), now) ==> Deleted(old(tables.Snapshot()), tables.Snapshot(), videoId, now)
    {
      hide DbOk, Deleted, Database.DeleteByOwner;
      var before := tables.Snapshot();
      err := DeleteRows(userId, videoId, now);
      StrangersAreRefused(before, userId, videoId, now);
      if DbOk(before, now) && err.None? { DeletionOutcome(before, userId, videoId, now, now); }
    }

    // The body of the transaction.
    method DeleteRows(userId: Id, videoId: Id, now: Time) returns (err: Option<Error>)
      modifies tables
      ensures Commits(Database.DeleteByOwner(old(tables.Snapshot()), userId, videoId, now),
                      old(tables.Snapshot()), tables.Snapshot(), err)
    {
      var before := tables.Snapshot();
      if !before.HasVideo(videoId) { return Some(VideoNotFound); }
      var video := new VideoRecord(tables.videos[videoId]);
      err := video.DeleteByOwner(userId, now);
      if err.Some? { return; }
      tables.videos := tables.videos[videoId := video.Row()];
      tables.jobs := CancelWaitingJobs(tables.jobs, videoId, now);
      err := tables.InsertCleanup(videoId, video.originalKey, CleanupEntity.AssetOriginal,
                                  CleanupEntity.VideoDelete, now);
      if err.None? && videoId in tables.outputs {
        var output := tables.outputs[videoId];
        err := tables.InsertCleanup(videoId, output.videoKey, CleanupEntity.AssetProcessed,
                                    CleanupEntity.VideoDelete, now);
        if err.None? {
          err := tables.InsertCleanup(videoId, output.thumbnailKey, CleanupEntity.AssetThumbnail,
                                      CleanupEntity.VideoDelete, now);
        }
      }
      if err.Some? { tables.Rollback(before); }
    }

    method ExpireUploads(rows: seq<Id>, limit: int, now: Time) returns (count: nat, err: Option<Error>)
      requires SelectsExpired(tables.Snapshot(), rows, now)
      modifies tables
      ensures Commits(Database.ExpireUploads(old(tables.Snapshot()), rows, limit, now),
                      old(tables.Snapshot()), tables.Snapshot(), err)
      ensures err.None? ==> count == |rows|
      ensures err.None? && DbOk(old(tables.Snapshot()), now) ==> AllExpired(old(tables.Snapshot()), tables.Snapshot(), rows, now)
    {
      hide DbOk, AllExpired, ExpireRows;
      if limit < 1 { return 0, Some(InvalidInput); }
      ghost var before := tables.Snapshot();
      count, err := ExpireSelected(rows, now);
      if DbOk(before, now) && err.None? { ExpiryOutcome(before, rows, limit, now, now); }
    }

    // The loop over the selected rows; an error at any of them rolls back the whole sweep.
    method ExpireSelected(rows: seq<Id>, now: Time) returns (count: nat, err: Option<Error>)
      requires forall i | 0 <= i < |rows| :: rows[i] in tables.videos
      modifies tables
      ensures Commits(ExpireRows(old(tables.Snapshot()), rows, now), old(tables.Snapshot()), tables.Snapshot(), err)
      ensures err.None? ==> count == |rows|
    {
      count := 0;
      var before := tables.Snapshot();
      for i := 0 to |rows|
        invariant ExpireRows(before, rows[..i], now) == Success(tables.Snapshot())
        invariant count == i
      {
        assert rows[..i + 1][..i] == rows[..i];
        ExpireStops(before, rows, i + 1, now);
        var video := new VideoRecord(tables.videos[rows[i]]);
        err := video.ExpireUpload(now);
        if err.Some? { tables.Rollback(before); return; }
        tables.videos := tables.videos[rows[i] := video.Row()];
        err := tables.InsertCleanup(rows[i], video.originalKey, CleanupEntity.AssetOriginal,
                                    CleanupEntity.UploadExpiry, now);
        if err.Some? { tables.Rollback(before); return; }
        count := count + 1;
      }
      assert rows[..|rows|] == rows;
      err := None;
    }

    method RecordSourceValidation(videoId: Id, meta: SourceMeta, now: Time) returns (err: Option<Error>)
      modifies tables
      ensures Commits(Database.RecordSourceValidation(old(tables.Snapshot()), videoId, meta, now),
                      old(tables.Snapshot()), tables.Snapshot(), err)
    {
      if !tables.Snapshot().HasVideo(videoId) { return Some(VideoNotFound); }
      if videoId in tables.sources { return None; }
      var video := new VideoRecord(tables.videos[videoId]);
      err := video.RecordSourceValidation(meta, now);
      if err.Some? { return; }
      tables.sources := tables.sources[videoId := video.sourceMeta.value];
      tables.videos := tables.videos[videoId := video.Row()];
    }

    // CompleteProcessing for a video deleted meanwhile.
    method CompleteDeleted(jobId: Id, meta: OutputMeta, now: Time) returns (err: Option<Error>)
      requires jobId in tables.jobs
      modifies tables
      ensures Commits(Database.CompleteDeleted(old(tables.Snapshot()), jobId, meta, now),
                      old(tables.Snapshot()), tables.Snapshot(), err)
    {
      hide Database.InsertCleanup;
      var before := tables.Snapshot();
      var job := new VideoJobEntity.JobRecord(tables.jobs[jobId]);
      err := job.Cancel(now);
      if err.Some? && err.value != ProcessingJobConflict { return; }
      tables.jobs := tables.jobs[jobId := job.Row()];
      err := tables.InsertCleanup(job.videoId, meta.videoKey, CleanupEntity.AssetProcessed, CleanupEntity.Rollback, now);
      if err.None? {
        err := tables.InsertCleanup(job.videoId, meta.thumbnailKey, CleanupEntity.AssetThumbnail,
                                    CleanupEntity.Rollback, now);
      }
      if err.Some? { tables.Rollback(before); }
    }

    method CompleteProcessing(jobId: Id, meta: OutputMeta, now: Time) returns (err: Option<Error>)
      modifies tables
      ensures Commits(Database.CompleteProcessing(old(tables.Snapshot()), jobId, meta, now),
                      old(tables.Snapshot()), tables.Snapshot(), err)
    {
      hide Database.CompleteDeleted;
      var before := tables.Snapshot();
      if jobId !in tables.jobs { return Some(ProcessingJobNotFound); }
      var job := new VideoJobEntity.JobRecord(tables.jobs[jobId]);
      if job.videoId !in tables.videos { return Some(VideoNotFound); }
      var video := new VideoRecord(tables.videos[job.videoId]);
      if video.deletedAt.Some? {
        err := CompleteDeleted(jobId, meta, now);
        return;
      }
      if job.videoId !in tables.sources { return Some(SourceMetaMissing); }
      video.sourceMeta := Some(tables.sources[job.videoId]);
      if video.userId !in tables.users { return Some(UserNotFound); }
      err := video.CompleteProcessing(meta, tables.users[video.userId].IsActive(), now);
      if err.Some? { return; }
      err := job.MarkSucceeded(now);
      if err.Some? { return; }
      if job.videoId in tables.outputs { return Some(UniqueViolation); }
      tables.outputs := tables.outputs[job.videoId := video.outputMeta.value];
      tables.videos := tables.videos[job.videoId := video.Row()];
      tables.jobs := tables.jobs[jobId := job.Row()];
    }

    method IsObjectReferenced(key: Key) returns (r: Result<bool>)
      ensures r == if key == 0 then Failure(InvalidInput) else Success(Database.IsObjectReferenced(tables.Snapshot(), key))
      ensures r.Success? <==> key != 0
      // Deleted videos count.
      ensures r.Success? ==>
                (r.value <==> (exists v :: v in tables.videos && tables.videos[v].originalKey == key)
                              || (exists v :: v in tables.outputs
                                    && (tables.outputs[v].videoKey == key || tables.outputs[v].thumbnailKey == key)))
    {
      if key == 0 { return Failure(InvalidInput); }
      var originals := set v | v in tables.videos && tables.videos[v].originalKey == key;
      var outputs := set v | v in tables.outputs && tables.outputs[v].Uses(key);
      assert originals != {} <==> IsOriginal(tables.Snapshot(), key) by {
        if v :| v in tables.videos && tables.videos[v].originalKey == key { assert v in originals; }
      }
      assert outputs != {} <==> IsOutput(tables.Snapshot(), key) by {
        if v :| v in tables.outputs && tables.outputs[v].Uses(key) { assert v in outputs; }
      }
      if originals != {} { return Success(true); }
      r := Success(outputs != {});
    }

    method FailProcessing(jobId: Id, why: VideoJobEntity.JobError, videoKey: Key, thumbnailKey: Key, now: Time)
      returns (err: Option<Error>)
      modifies tables
      ensures Commits(Database.FailProcessing(old(tables.Snapshot()), jobId, why, videoKey, thumbnailKey, now),
                      old(tables.Snapshot()), tables.Snapshot(), err)
    {
      hide Database.InsertOutputCleanups;
      var before := tables.Snapshot();
      if jobId !in tables.jobs { return Some(ProcessingJobNotFound); }
      var job := new VideoJobEntity.JobRecord(tables.jobs[jobId]);
      if job.videoId !in tables.videos { return Some(VideoNotFound); }
      var video := new VideoRecord(tables.videos[job.videoId]);
      if video.deletedAt.Some? {
        err := job.Cancel(now);
        if err.Some? { return; }
      } else {
        err := video.FailProcessing(now);
        if err.Some? { return; }
        tables.videos := tables.videos[job.videoId := video.Row()];
        err := job.MarkFailed(why, now);
        if err.Some? { tables.Rollback(before); return; }
      }
      tables.jobs := tables.jobs[jobId := job.Row()];
      err := RegisterGenerated(job.videoId, videoKey, thumbnailKey, now);
      if err.Some? { tables.Rollback(before); }
    }

    // The generated objects of a failed attempt, as part of its transaction.
    method RegisterGenerated(videoId: Id, videoKey: Key, thumbnailKey: Key, now: Time) returns (err: Option<Error>)
      modifies tables
      ensures Commits(InsertOutputCleanups(old(tables.Snapshot()), videoId, videoKey, thumbnailKey,
                                           CleanupEntity.ProcessFailed, now),
                      old(tables.Snapshot()), tables.Snapshot(), err)
    {
      hide Db.HasUnfinishedCleanup;
      var before := tables.Snapshot();
      if videoKey != 0 {
        err := tables.InsertCleanup(videoId, videoKey, CleanupEntity.AssetProcessed, CleanupEntity.ProcessFailed, now);
        if err.Some? { return; }
      }
      if thumbnailKey != 0 {
        err := tables.InsertCleanup(videoId, thumbnailKey, CleanupEntity.AssetThumbnail, CleanupEntity.ProcessFailed, now);
        if err.Some? { tables.Rollback(before); return; }
      }
      err := None;
    }
  }

  // A sweep that fails at some row fails as a whole, with that row's error.
  lemma {:induction false} ExpireStops(db: Db, rows: seq<Id>, n: nat, now: Time)
    requires n <= |rows| && forall i | 0 <= i < |rows| :: rows[i] in db.videos
    ensures ExpireRows(db, rows[..n], now).Failure?
            ==> ExpireRows(db, rows, now) == ExpireRows(db, rows[..n], now)
    decreases |rows| - n
  {
    if n == |rows| {
      assert rows[..n] == rows;
    } else {
      ExpireStops(db, rows, n + 1, now);
      assert rows[..n + 1][..n] == rows[..n];
    }
  }

  lemma {:induction false} RecoverStops(db: Db, rows: seq<Id>, n: nat, delays: seq<nat>, now: Time)
    requires n <= |rows| && forall i | 0 <= i < |rows| :: rows[i] in db.jobs
    ensures RecoverJobs(db, rows[..n], delays, now).Failure?
            ==> RecoverJobs(db, rows, delays, now) == RecoverJobs(db, rows[..n], delays, now)
    decreases |rows| - n
  {
    if n == |rows| {
      assert rows[..n] == rows;
    } else {
      RecoverStops(db, rows, n + 1, delays, now);
      assert rows[..n + 1][..n] == rows[..n];
    }
  }

  lemma {:induction false} RecoverCleanupStops(db: Db, rows: seq<Id>, n: nat, delays: seq<nat>, now: Time)
    requires n <= |rows| && forall i | 0 <= i < |rows| :: rows[i] in db.cleanups
    ensures RecoverCleanupRows(db, rows[..n], delays, now).Failure?
            ==> RecoverCleanupRows(db, rows, delays, now) == RecoverCleanupRows(db, rows[..n], delays, now)
    decreases |rows| - n
  {
    if n == |rows| {
      assert rows[..n] == rows;
    } else {
      RecoverCleanupStops(db, rows, n + 1, delays, now);
      assert rows[..n + 1][..n] == rows[..n];
    }
  }

  lemma HidesNone(db: Db, adminId: Id, reason: string, requestId: string, now: Time)
    ensures HideVideos(db, adminId, [], reason, requestId, now) == Success(db)
  {
  }

  lemma HidesOneMore(db: Db, adminId: Id, rows: seq<Id>, n: nat, reason: string, requestId: string, now: Time)
    requires n < |rows| && forall i | 0 <= i < |rows| :: rows[i] in db.videos
    requires HideVideos(db, adminId, rows[..n], reason, requestId, now).Success?
    ensures var so := HideVideos(db, adminId, rows[..n], reason, requestId, now).value;
            && rows[n] in so.videos
            && HideVideos(db, adminId, rows[..n + 1], reason, requestId, now)
               == HideAudited(so, adminId, rows[n], VideoHideByUserSuspension, reason, requestId, now)
  {
    assert rows[..n + 1][..n] == rows[..n];
  }

  lemma {:induction false} HideStops(db: Db, adminId: Id, rows: seq<Id>, n: nat, reason: string, requestId: string,
                                     now: Time)
    requires n <= |rows| && forall i | 0 <= i < |rows| :: rows[i] in db.videos
    ensures HideVideos(db, adminId, rows[..n], reason, requestId, now).Failure?
            ==> HideVideos(db, adminId, rows, reason, requestId, now)
                == HideVideos(db, adminId, rows[..n], reason, requestId, now)
    decreases |rows| - n
  {
    if n == |rows| {
      assert rows[..n] == rows;
    } else {
      HideStops(db, adminId, rows, n + 1, reason, requestId, now);
      assert rows[..n + 1][..n] == rows[..n];
    }
  }

  // What a claim hands to its worker: the rows as saved, with the source meta known so far.
  datatype ProcessingClaim = ProcessingClaim(jobId: Id, job: Job, video: Video, source: Option<SourceMeta>)

  /** backend/repository/video_processing_job_repository.go */
  class VideoProcessingJobRepository {
    const tables: Tables

    constructor (tables: Tables)
      ensures this.tables == tables
    {
      this.tables := tables;
    }

    method ClaimNext(row: Option<Id>, now: Time) returns (claim: Option<ProcessingClaim>, err: Option<Error>)
      requires row.Some? ==> row.value in tables.jobs && Claimable(tables.jobs[row.value], now)
      modifies tables
      ensures row.None? ==> tables.Snapshot() == old(tables.Snapshot()) && claim.None?
      ensures row.None? ==> err == if now == 0 then Some(InvalidInput) else None
      ensures row.Some? ==> Commits(ClaimJob(old(tables.Snapshot()), row.value, now),
                                    old(tables.Snapshot()), tables.Snapshot(), err)
      // A claim is returned exactly when the job now runs for this worker.
      ensures row.Some? ==> (claim.Some? <==> err.None? && !old(tables.videos)[tables.jobs[row.value].videoId].IsDeleted())
      ensures claim.Some? ==>
                && claim.value.jobId == row.value && claim.value.job == tables.jobs[row.value]
                && claim.value.job.videoId in tables.videos
                && claim.value.video == tables.videos[claim.value.job.videoId]
                && claim.value.source == tables.Snapshot().Source(claim.value.job.videoId)
    {
      claim := None;
      if now == 0 { return None, Some(InvalidInput); }
      if row.None? { return None, None; }
      var before := tables.Snapshot();
      var jobId := row.value;
      var job := new VideoJobEntity.JobRecord(tables.jobs[jobId]);
      if job.videoId !in tables.videos { return None, Some(VideoNotFound); }
      var video := new VideoRecord(tables.videos[job.videoId]);
      if video.deletedAt.Some? {
        err := job.Cancel(now);
        if err.Some? { return; }
        tables.jobs := tables.jobs[jobId := job.Row()];
        return;
      }
      if job.status == VideoJobEntity.JobQueued {
        err := video.StartProcessing(now);
        if err.Some? { return; }
        tables.videos := tables.videos[job.videoId := video.Row()];
      } else if video.processing != Processing || video.publish != Private {
        return None, Some(VideoStateConflict);
      }
      err := job.Claim(now);
      if err.Some? { tables.Rollback(before); return; }
      tables.jobs := tables.jobs[jobId := job.Row()];
      claim := Some(ProcessingClaim(jobId, job.Row(), video.Row(), tables.Snapshot().Source(job.videoId)));
    }

    method ScheduleRetry(jobId: Id, available: Time, why: VideoJobEntity.JobError, now: Time)
      returns (err: Option<Error>)
      modifies tables
      ensures Commits(Database.ScheduleRetry(old(tables.Snapshot()), jobId, available, why, now),
                      old(tables.Snapshot()), tables.Snapshot(), err)
    {
      if jobId == 0 || available == 0 || now == 0 { return Some(InvalidInput); }
      if jobId !in tables.jobs { return Some(ProcessingJobNotFound); }
      var job := new VideoJobEntity.JobRecord(tables.jobs[jobId]);
      err := job.ScheduleRetry(available, why, now);
      if err.Some? { return; }
      tables.jobs := tables.jobs[jobId := job.Row()];
    }

    method Cancel(jobId: Id, now: Time) returns (err: Option<Error>)
      modifies tables
      ensures Commits(CancelJob(old(tables.Snapshot()), jobId, now),
                      old(tables.Snapshot()), tables.Snapshot(), err)
    {
      if jobId == 0 || now == 0 { return Some(InvalidInput); }
      if jobId !in tables.jobs { return Some(ProcessingJobNotFound); }
      var job := new VideoJobEntity.JobRecord(tables.jobs[jobId]);
      match job.status {
        case JobCancelled => return None;
        case JobSucceeded => return None;
        case JobFailed => return None;
        case _ =>
      }
      err := job.Cancel(now);
      if err.Some? { return; }
      tables.jobs := tables.jobs[jobId := job.Row()];
    }

    method RecoverTimedOut(rows: seq<Id>, timeoutBefore: Time, delays: seq<nat>, limit: int, now: Time)
      returns (count: nat, err: Option<Error>)
      requires SelectsTimedOut(tables.Snapshot(), rows, timeoutBefore)
      modifies tables
      ensures Commits(Database.RecoverTimedOut(old(tables.Snapshot()), rows, timeoutBefore, delays, limit, now),
                      old(tables.Snapshot()), tables.Snapshot(), err)
      ensures err.None? ==> count == |rows|
      ensures err.None? && DbOk(old(tables.Snapshot()), now)
              ==> AllTakenBack(old(tables.Snapshot()), tables.Snapshot(), rows, delays, now)
    {
      hide DbOk, AllTakenBack, RecoverJobs;
      ghost var before := tables.Snapshot();
      if DbOk(before, now) && Database.RecoverTimedOut(before, rows, timeoutBefore, delays, limit, now).Success? {
        RecoveryOutcome(before, rows, timeoutBefore, delays, limit, now, now);
      }
      if timeoutBefore == 0 || now == 0 || timeoutBefore >= now || limit < 1 { return 0, Some(InvalidInput); }
      if !ValidDelays(delays) { return 0, Some(InvalidInput); }
      count, err := RecoverRows(rows, delays, now);
    }

    // The recovery loop; an error at any row rolls back the whole batch.
    method RecoverRows(rows: seq<Id>, delays: seq<nat>, now: Time) returns (count: nat, err: Option<Error>)
      requires forall i | 0 <= i < |rows| :: rows[i] in tables.jobs
      modifies tables
      ensures Commits(RecoverJobs(old(tables.Snapshot()), rows, delays, now),
                      old(tables.Snapshot()), tables.Snapshot(), err)
      ensures err.None? ==> count == |rows|
    {
      count := 0;
      var before := tables.Snapshot();
      for i := 0 to |rows|
        invariant RecoverJobs(before, rows[..i], delays, now) == Success(tables.Snapshot())
        invariant count == i
      {
        assert rows[..i + 1][..i] == rows[..i];
        RecoverStops(before, rows, i + 1, delays, now);
        err := RecoverOne(rows[i], delays, now);
        if err.Some? { tables.Rollback(before); return; }
        count := count + 1;
      }
      assert rows[..|rows|] == rows;
      err := None;
    }

    // The body of the recovery loop.
    method RecoverOne(jobId: Id, delays: seq<nat>, now: Time) returns (err: Option<Error>)
      requires jobId in tables.jobs
      modifies tables
      ensures Commits(RecoverJob(old(tables.Snapshot()), jobId, delays, now),
                      old(tables.Snapshot()), tables.Snapshot(), err)
    {
      var before := tables.Snapshot();
      var job := new VideoJobEntity.JobRecord(tables.jobs[jobId]);
      if job.status != VideoJobEntity.JobRunning || job.attempts < 1 || job.attempts > job.maxAttempts {
        return Some(ProcessingJobConflict);
      }
      if job.videoId !in tables.videos { return Some(VideoNotFound); }
      var video := new VideoRecord(tables.videos[job.videoId]);
      if video.deletedAt.Some? {
        err := job.Cancel(now);
        if err.Some? { return; }
      } else if job.attempts < job.maxAttempts {
        if video.processing != Processing || video.publish != Private { return Some(VideoStateConflict); }
        var retryIndex := job.attempts - 1;
        if retryIndex < 0 || retryIndex >= |delays| { return Some(ProcessingJobConflict); }
        err := job.ScheduleRetry(now + delays[retryIndex], VideoJobEntity.WorkerTimeout, now);
        if err.Some? { return; }
      } else {
        err := video.FailProcessing(now);
        if err.Some? { return; }
        tables.videos := tables.videos[job.videoId := video.Row()];
        err := job.MarkFailed(VideoJobEntity.WorkerTimeout, now);
        if err.Some? { tables.Rollback(before); return; }
      }
      tables.jobs := tables.jobs[jobId := job.Row()];
    }
  }

  /** backend/repository/storage_cleanup_job_repository.go */
  class StorageCleanupJobRepository {
    const tables: Tables

    constructor (tables: Tables)
      ensures this.tables == tables
    {
      this.tables := tables;
    }

    method Create(row: Cleanup)
      modifies tables
      ensures tables.Snapshot() == CreateCleanup(old(tables.Snapshot()), row)
    {
      // A violation of uq_cleanup_unfinished_object is not an error here.
      if !tables.Snapshot().HasUnfinishedCleanup(row.key) {
        tables.cleanups := tables.cleanups[tables.nextId := row];
        tables.nextId := tables.nextId + 1;
      }
    }

    method ClaimNext(row: Option<Id>, now: Time) returns (claim: Option<Cleanup>, err: Option<Error>)
      requires row.Some? ==> row.value in tables.cleanups && CleanupClaimable(tables.cleanups[row.value], now)
      modifies tables
      ensures row.None? ==> tables.Snapshot() == old(tables.Snapshot()) && claim.None?
      ensures row.None? ==> err == if now == 0 then Some(InvalidInput) else None
      ensures row.Some? ==> Commits(ClaimCleanup(old(tables.Snapshot()), row.value, now),
                                    old(tables.Snapshot()), tables.Snapshot(), err)
      ensures row.Some? ==> (claim.Some? <==> err.None?)
      ensures claim.Some? ==> claim.value == tables.cleanups[row.value]
    {
      claim := None;
      if now == 0 { return None, Some(InvalidInput); }
      if row.None? { return None, None; }
      var job := new CleanupEntity.CleanupRecord(tables.cleanups[row.value]);
      err := job.Claim(now);
      if err.Some? { return; }
      tables.cleanups := tables.cleanups[row.value := job.Row()];
      claim := Some(job.Row());
    }

    method ScheduleRetry(cleanupId: Id, available: Time, why: CleanupEntity.CleanupError, now: Time)
      returns (err: Option<Error>)
      modifies tables
      ensures Commits(RetryCleanup(old(tables.Snapshot()), cleanupId, available, why, now),
                      old(tables.Snapshot()), tables.Snapshot(), err)
    {
      if cleanupId == 0 || available == 0 || now == 0 { return Some(InvalidInput); }
      if cleanupId !in tables.cleanups { return Some(CleanupJobNotFound); }
      var job := new CleanupEntity.CleanupRecord(tables.cleanups[cleanupId]);
      err := job.ScheduleRetry(available, why, now);
      if err.Some? { return; }
      tables.cleanups := tables.cleanups[cleanupId := job.Row()];
    }

    method MarkSucceeded(cleanupId: Id, now: Time) returns (err: Option<Error>)
      modifies tables
      ensures Commits(SucceedCleanup(old(tables.Snapshot()), cleanupId, now),
                      old(tables.Snapshot()), tables.Snapshot(), err)
    {
      if cleanupId == 0 || now == 0 { return Some(InvalidInput); }
      if cleanupId !in tables.cleanups { return Some(CleanupJobNotFound); }
      var job := new CleanupEntity.CleanupRecord(tables.cleanups[cleanupId]);
      err := job.MarkSucceeded(now);
      if err.Some? { return; }
      tables.cleanups := tables.cleanups[cleanupId := job.Row()];
    }

    method MarkFailed(cleanupId: Id, why: CleanupEntity.CleanupError, now: Time) returns (err: Option<Error>)
      modifies tables
      ensures Commits(FailCleanup(old(tables.Snapshot()), cleanupId, why, now),
                      old(tables.Snapshot()), tables.Snapshot(), err)
    {
      if cleanupId == 0 || now == 0 { return Some(InvalidInput); }
      if cleanupId !in tables.cleanups { return Some(CleanupJobNotFound); }
      var job := new CleanupEntity.CleanupRecord(tables.cleanups[cleanupId]);
      err := job.MarkFailed(why, now);
      if err.Some? { return; }
      tables.cleanups := tables.cleanups[cleanupId := job.Row()];
    }

    method RecoverTimedOut(rows: seq<Id>, timeoutBefore: Time, delays: seq<nat>, limit: int, now: Time)
      returns (count: nat, err: Option<Error>)
      requires SelectsTimedOutCleanups(tables.Snapshot(), rows, timeoutBefore)
      modifies tables
      ensures Commits(RecoverCleanups(old(tables.Snapshot()), rows, timeoutBefore, delays, limit, now),
                      old(tables.Snapshot()), tables.Snapshot(), err)
      ensures err.None? ==> count == |rows|
      ensures err.None? && DbOk(old(tables.Snapshot()), now)
              ==> AllCleanupsTakenBack(old(tables.Snapshot()), tables.Snapshot(), rows, delays, now)
    {
      hide DbOk, AllCleanupsTakenBack, RecoverCleanupRows;
      ghost var before := tables.Snapshot();
      if DbOk(before, now) && RecoverCleanups(before, rows, timeoutBefore, delays, limit, now).Success? {
        CleanupRecoveryOutcome(before, rows, timeoutBefore, delays, limit, now, now);
      }
      if timeoutBefore == 0 || now == 0 || timeoutBefore >= now || limit < 1 { return 0, Some(InvalidInput); }
      if !ValidDelays(delays) { return 0, Some(InvalidInput); }
      count, err := RecoverRows(rows, delays, now);
    }

    method RecoverRows(rows: seq<Id>, delays: seq<nat>, now: Time) returns (count: nat, err: Option<Error>)
      requires forall i | 0 <= i < |rows| :: rows[i] in tables.cleanups
      modifies tables
      ensures Commits(RecoverCleanupRows(old(tables.Snapshot()), rows, delays, now),
                      old(tables.Snapshot()), tables.Snapshot(), err)
      ensures err.None? ==> count == |rows|
    {
      count := 0;
      var before := tables.Snapshot();
      for i := 0 to |rows|
        invariant RecoverCleanupRows(before, rows[..i], delays, now) == Success(tables.Snapshot())
        invariant count == i
      {
        assert rows[..i + 1][..i] == rows[..i];
        RecoverCleanupStops(before, rows, i + 1, delays, now);
        err := RecoverOne(rows[i], delays, now);
        if err.Some? { tables.Rollback(before); return; }
        count := count + 1;
      }
      assert rows[..|rows|] == rows;
      err := None;
    }

    method RecoverOne(cleanupId: Id, delays: seq<nat>, now: Time) returns (err: Option<Error>)
      requires cleanupId in tables.cleanups
      modifies tables
      ensures Commits(RecoverCleanup(old(tables.Snapshot()), cleanupId, delays, now),
                      old(tables.Snapshot()), tables.Snapshot(), err)
    {
      var job := new CleanupEntity.CleanupRecord(tables.cleanups[cleanupId]);
      if job.status != CleanupEntity.CleanupRunning || job.attempts < 1 || job.maxAttempts != 3 + 1
         || job.attempts > job.maxAttempts
      {
        return Some(CleanupJobConflict);
      }
      if job.attempts < job.maxAttempts {
        var retryIndex := job.attempts - 1;
        if retryIndex < 0 || retryIndex >= |delays| { return Some(CleanupJobConflict); }
        err := job.ScheduleRetry(now + delays[retryIndex], CleanupEntity.WorkerTimeout, now);
      } else {
        err := job.MarkFailed(CleanupEntity.WorkerTimeout, now);
      }
      if err.Some? { return; }
      tables.cleanups := tables.cleanups[cleanupId := job.Row()];
    }
  }

  /** backend/repository/admin_user_repository.go and admin_video_repository.go */
  class AdminRepository {
    const tables: Tables

    constructor (tables: Tables)
      ensures this.tables == tables
    {
      this.tables := tables;
    }

    method SuspendUser(adminId: Id, userId: Id, rows: seq<Id>, reason: string, requestId: string, now: Time)
      returns (err: Option<Error>)
      requires SelectsPublished(tables.Snapshot(), userId, rows)
      modifies tables
      ensures Commits(Database.SuspendUser(old(tables.Snapshot()), adminId, userId, rows, reason, requestId, now),
                      old(tables.Snapshot()), tables.Snapshot(), err)
    {
      var before := tables.Snapshot();
      if userId !in tables.users { return Some(UserNotFound); }
      var user := new UserRecord(tables.users[userId]);
      var beforeStatus := user.status;
      err := user.Suspend(now);
      if err.Some? { return; }
      tables.users := tables.users[userId := user.Row()];
      tables.tokens := RevokeTokensOfUser(tables.tokens, userId, now);
      err := tables.AppendAudit(adminId, OnUser(userId), UserSuspend, OfUser(beforeStatus), OfUser(user.status),
                                reason, requestId, now);
      if err.Some? { tables.Rollback(before); return; }
      err := HidePublishedVideosForSuspension(adminId, rows, reason, requestId, now);
      if err.Some? { tables.Rollback(before); }
    }

    method HidePublishedVideosForSuspension(adminId: Id, rows: seq<Id>, reason: string, requestId: string, now: Time)
      returns (err: Option<Error>)
      requires forall i | 0 <= i < |rows| :: rows[i] in tables.videos
      modifies tables
      ensures Commits(HideVideos(old(tables.Snapshot()), adminId, rows, reason, requestId, now),
                      old(tables.Snapshot()), tables.Snapshot(), err)
    {
      hide HideVideos;
      var before := tables.Snapshot();
      HidesNone(before, adminId, reason, requestId, now);
      assert rows[..0] == [];
      for i := 0 to |rows|
        invariant forall k | 0 <= k < |rows| :: rows[k] in tables.videos
        invariant HideVideos(before, adminId, rows[..i], reason, requestId, now) == Success(tables.Snapshot())
      {
        HidesOneMore(before, adminId, rows, i, reason, requestId, now);
        HideStops(before, adminId, rows, i + 1, reason, requestId, now);
        var video := new VideoRecord(tables.videos[rows[i]]);
        var beforeStatus := video.publish;
        err := video.HideByAdmin(now);
        if err.Some? { tables.Rollback(before); return; }
        tables.videos := tables.videos[rows[i] := video.Row()];
        err := tables.AppendAudit(adminId, OnVideo(rows[i]), VideoHideByUserSuspension, OfVideo(beforeStatus),
                                  OfVideo(video.publish), reason, requestId, now);
        if err.Some? { tables.Rollback(before); return; }
      }
      assert rows[..|rows|] == rows;
      err := None;
    }

    method ResumeUser(adminId: Id, userId: Id, reason: string, requestId: string, now: Time)
      returns (err: Option<Error>)
      modifies tables
      ensures Commits(Database.ResumeUser(old(tables.Snapshot()), adminId, userId, reason, requestId, now),
                      old(tables.Snapshot()), tables.Snapshot(), err)
    {
      var before := tables.Snapshot();
      if userId !in tables.users { return Some(UserNotFound); }
      var user := new UserRecord(tables.users[userId]);
      var beforeStatus := user.status;
      err := user.Resume(now);
      if err.Some? { return; }
      tables.users := tables.users[userId := user.Row()];
      err := tables.AppendAudit(adminId, OnUser(userId), UserResume, OfUser(beforeStatus), OfUser(user.status),
                                reason, requestId, now);
      if err.Some? { tables.Rollback(before); }
    }

    method Hide(adminId: Id, videoId: Id, reason: string, requestId: string, now: Time) returns (err: Option<Error>)
      modifies tables
      ensures Commits(HideVideo(old(tables.Snapshot()), adminId, videoId, reason, requestId, now),
                      old(tables.Snapshot()), tables.Snapshot(), err)
    {
      if adminId == 0 || videoId == 0 || now == 0 { return Some(InvalidInput); }
      if !tables.Snapshot().HasVideo(videoId) { return Some(VideoNotFound); }
      var video := new VideoRecord(tables.videos[videoId]);
      var beforeStatus := video.publish;
      err := video.HideByAdmin(now);
      if err.Some? { return; }
      err := tables.AppendAudit(adminId, OnVideo(videoId), VideoHide, OfVideo(beforeStatus), OfVideo(video.publish),
                                reason, requestId, now);
      if err.Some? { return; }
      tables.videos := tables.videos[videoId := video.Row()];
    }

    method Restore(adminId: Id, videoId: Id, reason: string, requestId: string, now: Time) returns (err: Option<Error>)
      modifies tables
      ensures Commits(RestoreVideo(old(tables.Snapshot()), adminId, videoId, reason, requestId, now),
                      old(tables.Snapshot()), tables.Snapshot(), err)
    {
      if adminId == 0 || videoId == 0 || now == 0 { return Some(InvalidInput); }
      if !tables.Snapshot().HasVideo(videoId) { return Some(VideoNotFound); }
      var video := new VideoRecord(tables.videos[videoId]);
      if video.userId !in tables.users { return Some(UserNotFound); }
      var beforeStatus := video.publish;
      err := video.RestoreByAdmin(tables.users[video.userId].IsActive(), now);
      if err.Some? { return; }
      err := tables.AppendAudit(adminId, OnVideo(videoId), VideoRestore, OfVideo(beforeStatus),
                                OfVideo(video.publish), reason, requestId, now);
      if err.Some? { return; }
      tables.videos := tables.videos[videoId := video.Row()];
    }
  }
}
