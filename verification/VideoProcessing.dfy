/**
  ProcessNext of the video processing usecase (backend/usecase/video_processing_usecase.go) as it is written, one
  call after another, while others may do anything between its transactions that only moves the tables forward.
 */
module VideoProcessing {
  import opened Common
  import opened VideoEntity
  import V = VideoJobEntity
  import C = CleanupEntity
  import opened Database
  import opened Coherence
  import opened Outcomes
  import opened Transactions
  import opened Effects
  import opened Accounting
  import opened Interleaving
  import opened Repositories

  // How storage, FFmpeg and FFprobe may fail.
  datatype StageError = Media(code: V.FailureCode, retryable: bool) | StorageDown | ObjectMissing | TimedOut | OtherError

  datatype ProcessingFailure = ProcessingFailure(code: V.FailureCode, retryable: bool)

  function ClassifyProcessingError(e: StageError): ProcessingFailure {
    match e
    case Media(code, retryable) => ProcessingFailure(code, retryable)
    case StorageDown => ProcessingFailure(V.StorageUnavailable, true)
    case ObjectMissing => ProcessingFailure(V.GeneralFailure, false)
    case TimedOut => ProcessingFailure(V.GeneralFailure, true)
    case OtherError => ProcessingFailure(V.GeneralFailure, true)
  }

  /** How each stage of one call ends; None is success. */
  datatype Stages = Stages(
    workdir: Option<StageError>,
    download: Option<StageError>,
    probe: Option<StageError>,
    source: SourceMeta,
    transcode: Option<StageError>,
    thumbnail: Option<StageError>,
    probeOutput: Option<StageError>,
    outputValid: bool,
    buildKeys: Option<StageError>,
    uploadVideo: Option<StageError>,
    uploadThumbnail: Option<StageError>,
    // the database rolls the completion back
    completionAborts: bool)

  datatype ProcessError =
    | ClaimFailed(error: Error)
    | CancelFailed(error: Error)
    | CompletionRejected(error: Error)
    | RetryRejected(error: Error)
    | FailureRejected(error: Error)

  // ---------------------------------------------------------------- how a call ends

  // Trouble that may pass: an outage, a timeout, whatever is not known to be permanent.
  predicate MayPass(e: StageError) {
    e == StorageDown || e == TimedOut || e == OtherError || (e.Media? && e.retryable)
  }

  function CodeOf(e: StageError): V.FailureCode {
    if e.Media? then e.code else if e == StorageDown then V.StorageUnavailable else V.GeneralFailure
  }

  /** The first stage to fail before transcoding; a source that is known already is not probed again. */
  function EarlyFailure(stages: Stages, sourceKnown: bool): Option<StageError> {
    if stages.workdir.Some? then stages.workdir
    else if stages.download.Some? then stages.download
    else if !sourceKnown && stages.probe.Some? then stages.probe
    else if !sourceKnown && !stages.source.valid then Some(OtherError)
    else None
  }

  /** The first to fail from then on, before the video is in the store. */
  function LateFailure(stages: Stages): Option<StageError> {
    if stages.transcode.Some? then stages.transcode
    else if stages.thumbnail.Some? then stages.thumbnail
    else if stages.probeOutput.Some? then stages.probeOutput
    else if stages.buildKeys.Some? then stages.buildKeys
    else stages.uploadVideo
  }

  // At most the row of `id` is added.
  ghost predicate AtMostAdds<T(!new)>(a: map<Id, T>, b: map<Id, T>, id: Id) {
    a.Keys <= b.Keys <= a.Keys + {id} && forall k | k in a :: b[k] == a[k]
  }

  // Since `db` the call has claimed the job and may have recorded the source.
  ghost predicate UnderWay(db: Db, db': Db, j: Id, now: Time) {
    && j in db.jobs && Living(db, db.jobs[j].videoId) && BeingProcessed(db', j, db.jobs[j].attempts + 1, now)
    && AttemptChanges(db, db', j, ProcessingVideo(db, db', db.jobs[j].videoId), Begun(db.jobs[j], now))
    && db'.outputs == db.outputs && db'.cleanups == db.cleanups && db'.nextId == db.nextId
  }

  function ProcessingVideo(db: Db, db': Db, v: Id): Video
    requires v in db.videos
  {
    db.videos[v].(processing := Processing, updatedAt := if v in db'.videos then db'.videos[v].updatedAt else 0)
  }

  ghost predicate AttemptChanges(db: Db, db': Db, j: Id, video: Video, job: Job)
    requires j in db.jobs
  {
    PairChanges(db, db', j, video, job) && AtMostAdds(db.sources, db'.sources, db.jobs[j].videoId)
  }

  /** The video is ready with the two new objects as its output, and public if its owner is active. */
  ghost predicate AttemptSucceeds(db: Db, db': Db, j: Id, videoKey: Key, thumbnailKey: Key, now: Time) {
    && j in db.jobs && db.jobs[j].videoId in db.videos
    && var v := db.jobs[j].videoId;
    && db.videos[v].userId in db.users
    && AttemptChanges(db, db', j, ReadyVideo(db, v, now), Succeeded(Begun(db.jobs[j], now), now))
    && Written(db.outputs, db'.outputs, v)
    && db'.outputs[v].videoKey == videoKey && db'.outputs[v].thumbnailKey == thumbnailKey
    && db'.cleanups == db.cleanups
  }

  /** The attempt is to be repeated; what it left in the store is to be removed. */
  ghost predicate AttemptRepeats(db: Db, db': Db, j: Id, available: Time, code: V.FailureCode, keys: set<Key>, now: Time) {
    && j in db.jobs && db.jobs[j].videoId in db.videos
    && var v := db.jobs[j].videoId;
    && AttemptChanges(db, db', j, ProcessingVideo(db, db', v),
                      ToRepeat(Begun(db.jobs[j], now), available, V.Failed(code), now))
    && db'.outputs == db.outputs
    && Requested(db.cleanups, db'.cleanups, keys, Some(v), C.Rollback, now)
  }

  /** The job and the video have failed for good. */
  ghost predicate AttemptFails(db: Db, db': Db, j: Id, code: V.FailureCode, keys: set<Key>, now: Time) {
    && j in db.jobs && db.jobs[j].videoId in db.videos
    && var v := db.jobs[j].videoId;
    && AttemptChanges(db, db', j, db.videos[v].(processing := ProcessingFailed, publish := Private, updatedAt := now),
                      GivenUp(Begun(db.jobs[j], now), V.Failed(code), now))
    && db'.outputs == db.outputs
    && Requested(db.cleanups, db'.cleanups, keys, Some(v), C.ProcessFailed, now)
  }

  /** The attempt is left as it is, for the recovery; both objects are to be removed. */
  ghost predicate AttemptIsLeft(db: Db, db': Db, j: Id, keys: set<Key>, now: Time) {
    && j in db.jobs && db.jobs[j].videoId in db.videos
    && var v := db.jobs[j].videoId;
    && AttemptChanges(db, db', j, ProcessingVideo(db, db', v), Begun(db.jobs[j], now))
    && db'.outputs == db.outputs
    && Requested(db.cleanups, db'.cleanups, keys, Some(v), C.Rollback, now)
  }

  // A stage has failed: before the fourth attempt what may pass is tried again.
  ghost predicate StageFailureEnds(db: Db, db': Db, j: Id, e: StageError, delays: seq<nat>, keys: set<Key>, now: Time) {
    && j in db.jobs && ValidDelays(delays) && 0 <= db.jobs[j].attempts < 4
    && if MayPass(e) && db.jobs[j].attempts + 1 < 4
       then AttemptRepeats(db, db', j, now + delays[db.jobs[j].attempts], CodeOf(e), keys, now)
       else AttemptFails(db, db', j, CodeOf(e), keys, now)
  }

  /** What one call makes of a job of a living video, in every case. */
  ghost predicate CallEnds(db: Db, db': Db, j: Id, stages: Stages, delays: seq<nat>, videoKey: Key, thumbnailKey: Key,
                           now: Time, err: Option<ProcessError>, stored: set<Key>)
  {
    && j in db.jobs
    && var early := EarlyFailure(stages, db.jobs[j].videoId in db.sources);
       if early.Some? then err == None && stored == {} && StageFailureEnds(db, db', j, early.value, delays, {}, now)
       else ProductionEnds(db, db', j, stages, delays, videoKey, thumbnailKey, now, err, stored)
  }

  // The part of it from transcoding on.
  ghost predicate ProductionEnds(db: Db, db': Db, j: Id, stages: Stages, delays: seq<nat>, videoKey: Key,
                                 thumbnailKey: Key, now: Time, err: Option<ProcessError>, stored: set<Key>)
  {
    if LateFailure(stages).Some? then
      err == None && stored == {} && StageFailureEnds(db, db', j, LateFailure(stages).value, delays, {}, now)
    else if stages.uploadThumbnail.Some? then
      && err == None && stored == {videoKey}
      && StageFailureEnds(db, db', j, stages.uploadThumbnail.value, delays, {videoKey}, now)
    else
      stored == {videoKey, thumbnailKey} && CommitEnds(db, db', j, stages, videoKey, thumbnailKey, now, err)
  }

  // With both objects in the store.
  ghost predicate CommitEnds(db: Db, db': Db, j: Id, stages: Stages, videoKey: Key, thumbnailKey: Key, now: Time,
                             err: Option<ProcessError>)
  {
    if stages.completionAborts then
      err == Some(CompletionRejected(TransactionAborted)) && AttemptIsLeft(db, db', j, {videoKey, thumbnailKey}, now)
    else if !stages.outputValid || videoKey == thumbnailKey then
      err == Some(CompletionRejected(VideoOutputInvalid)) && AttemptIsLeft(db, db', j, {videoKey, thumbnailKey}, now)
    else
      err == None && AttemptSucceeds(db, db', j, videoKey, thumbnailKey, now)
  }

  // No attempt at the job is under way.
  predicate IsOver(jobs: map<Id, Job>, j: Id) {
    j in jobs && (jobs[j].status == V.JobRunning ==> jobs[j].finishedAt != None)
  }

  // No cleanup job, finished or not, is about the key.
  ghost predicate Unheard(db: Db, key: Key) {
    forall c | c in db.cleanups :: db.cleanups[c].key != key
  }

  // What a claim makes of a selected job.
  lemma ClaimEnds(db: Db, j: Id, now: Time)
    requires DbOk(db, now) && j in db.jobs && Claimable(db.jobs[j], now)
    ensures var r, v := ClaimJob(db, j, now), db.jobs[j].videoId;
            && v in db.videos && r.Success? && j in r.value.jobs && r.value.jobs[j].videoId == v
            && if db.videos[v].deletedAt.Some? then r.value == db.(jobs := db.jobs[j := CalledOff(db.jobs[j], now)])
               else && UnderWay(db, r.value, j, now) && r.value.jobs[j].attempts == db.jobs[j].attempts + 1
                    && r.value.jobs[j].maxAttempts == 4 && r.value.sources == db.sources
  {
    hide DbOk, BeingProcessed;
    JobFacts(db, now, j);
    ClaimOutcome(db, j, now, now);
    if db.videos[db.jobs[j].videoId].deletedAt.Some? {
      var db' := ClaimJob(db, j, now).value;
      assert db'.jobs == db.jobs[j := CalledOff(db.jobs[j], now)];
      assert db'.videos == db.videos;
    } else {
      ClaimStarts(db, j, now);
    }
  }

  lemma ClaimStarts(db: Db, j: Id, now: Time)
    requires DbOk(db, now) && j in db.jobs && Claimable(db.jobs[j], now) && Living(db, db.jobs[j].videoId)
    ensures var r := ClaimJob(db, j, now); r.Success? && UnderWay(db, r.value, j, now)
  {
    hide DbOk, BeingProcessed;
    JobFacts(db, now, j);
    ClaimOutcome(db, j, now, now);
  }

  lemma SourceContinues(db: Db, db1: Db, j: Id, meta: SourceMeta, now: Time)
    requires UnderWay(db, db1, j, now)
    ensures var v := db.jobs[j].videoId; var r := RecordSourceValidation(db1, v, meta, now);
            if v in db1.sources then r == Success(db1)
            else if !meta.valid then r == Failure(VideoSourceInvalid)
            else r.Success? && UnderWay(db, r.value, j, now)
  {
    hide BeingProcessed;
    SourceOutcome(db1, j, db.jobs[j].attempts + 1, meta, now);
  }

  lemma CompletionEnds(db: Db, db1: Db, j: Id, meta: OutputMeta, now: Time)
    requires UnderWay(db, db1, j, now) && db.jobs[j].videoId in db1.sources && meta.videoKey != 0 && meta.thumbnailKey != 0
    ensures var r := CompleteProcessing(db1, j, meta, now);
            if meta.valid && meta.videoKey != meta.thumbnailKey
            then r.Success? && AttemptSucceeds(db, r.value, j, meta.videoKey, meta.thumbnailKey, now)
            else r == Failure(VideoOutputInvalid)
  {
    hide BeingProcessed;
    CompletionOutcome(db1, j, db.jobs[j].attempts + 1, meta, now);
  }

  lemma FailureEnds(db: Db, db1: Db, j: Id, code: V.FailureCode, videoKey: Key, now: Time)
    requires UnderWay(db, db1, j, now) && (videoKey == 0 || Unheard(db, videoKey))
    ensures var r := FailProcessing(db1, j, V.Failed(code), videoKey, 0, now);
            r.Success? && AttemptFails(db, r.value, j, code, {videoKey} - {0}, now)
  {
    hide BeingProcessed, Requested;
    FailureOutcome(db1, j, db.jobs[j].attempts + 1, V.Failed(code), videoKey, now);
  }

  // Between the two transactions of a retry only cleanup jobs have been added.
  lemma RetryEnds(db: Db, db1: Db, db2: Db, j: Id, available: Time, code: V.FailureCode, keys: set<Key>, now: Time)
    requires UnderWay(db, db1, j, now) && db.jobs[j].attempts + 1 < 4 && now < available
    requires db2 == db1.(cleanups := db2.cleanups, nextId := db2.nextId)
    requires Requested(db1.cleanups, db2.cleanups, keys, Some(db.jobs[j].videoId), C.Rollback, now)
    ensures var r := ScheduleRetry(db2, j, available, V.Failed(code), now);
            r.Success? && AttemptRepeats(db, r.value, j, available, code, keys, now)
  {
    hide BeingProcessed, Requested;
    RetryOutcome(db1, j, db.jobs[j].attempts + 1, available, V.Failed(code), now);
  }

  lemma LeftEnds(db: Db, db1: Db, db2: Db, j: Id, keys: set<Key>, now: Time)
    requires UnderWay(db, db1, j, now)
    requires db2 == db1.(cleanups := db2.cleanups, nextId := db2.nextId)
    requires Requested(db1.cleanups, db2.cleanups, keys, Some(db.jobs[j].videoId), C.Rollback, now)
    ensures AttemptIsLeft(db, db2, j, keys, now)
  {
    hide BeingProcessed, Requested;
  }

  // What recordFailure makes of a stage's error.
  lemma StageEnds(db: Db, db': Db, j: Id, e: StageError, delays: seq<nat>, videoKey: Key, now: Time)
    requires j in db.jobs && ValidDelays(delays) && 0 <= db.jobs[j].attempts < 4
    requires var failure := ClassifyProcessingError(e);
             if failure.retryable && db.jobs[j].attempts + 1 < 4
             then AttemptRepeats(db, db', j, now + delays[db.jobs[j].attempts], failure.code, {videoKey} - {0}, now)
             else AttemptFails(db, db', j, failure.code, {videoKey} - {0}, now)
    ensures StageFailureEnds(db, db', j, e, delays, if videoKey == 0 then {} else {videoKey}, now)
  {
    hide AttemptRepeats, AttemptFails;
    assert {videoKey} - {0} == if videoKey == 0 then {} else {videoKey};
  }

  lemma UnderWayFacts(db: Db, db1: Db, j: Id, now: Time)
    requires UnderWay(db, db1, j, now)
    ensures db1.cleanups == db.cleanups && j in db.jobs && j in db1.jobs && db1.jobs[j].videoId == db.jobs[j].videoId
    ensures 0 <= db.jobs[j].attempts < 4
  {
    hide BeingProcessed;
    AttemptFacts(db1, j, db.jobs[j].attempts + 1, now);
  }

  // The tables know about each of the objects.
  ghost predicate AllSettled(db: Db, video: Id, keys: set<Key>) {
    forall k | k in keys :: Settled(db, video, k)
  }

  // Each of the objects has a cleanup row.
  ghost predicate AllRegistered(db: Db, keys: set<Key>) {
    forall k | k in keys :: KeyRegistered(db.cleanups, k)
  }

  // ---------------------------------------------------------------- what a transaction registers stays registered

  lemma InsertSettles(db: Db, v: Id, key: Key, asset: C.AssetType, cause: C.CleanupCause, now: Time)
    requires FreshRows(db)
    ensures var r := InsertCleanup(db, v, key, asset, cause, now);
            r.Success? ==>
              && FreshRows(r.value) && (key != 0 ==> KeyRegistered(r.value.cleanups, key))
              && (forall k | KeyRegistered(db.cleanups, k) :: KeyRegistered(r.value.cleanups, k))
  {
    var r := InsertCleanup(db, v, key, asset, cause, now);
    if r.Success? && key != 0 {
      assert r.value.cleanups[db.nextId].key == key;
      forall k | KeyRegistered(db.cleanups, k)
        ensures KeyRegistered(r.value.cleanups, k)
      {
        var c :| c in db.cleanups && db.cleanups[c].key == k;
        assert r.value.cleanups[c] == db.cleanups[c];
      }
    }
  }

  lemma InsertOutputsSettle(db: Db, v: Id, videoKey: Key, thumbnailKey: Key, cause: C.CleanupCause, now: Time)
    requires FreshRows(db)
    ensures var r := InsertOutputCleanups(db, v, videoKey, thumbnailKey, cause, now);
            r.Success? ==> FreshRows(r.value) && AllRegistered(r.value, NonBlank({videoKey, thumbnailKey}))
  {
    hide KeyRegistered, InsertCleanup;
    InsertSettles(db, v, videoKey, C.AssetProcessed, cause, now);
    var db1 := InsertCleanup(db, v, videoKey, C.AssetProcessed, cause, now);
    if db1.Success? { InsertSettles(db1.value, v, thumbnailKey, C.AssetThumbnail, cause, now); }
  }

  lemma CreateSettles(db: Db, row: Cleanup)
    requires FreshRows(db)
    ensures FreshRows(CreateCleanup(db, row)) && KeyRegistered(CreateCleanup(db, row).cleanups, row.key)
    ensures forall k | KeyRegistered(db.cleanups, k) :: KeyRegistered(CreateCleanup(db, row).cleanups, k)
    ensures var db' := CreateCleanup(db, row); db' == db.(cleanups := db'.cleanups, nextId := db'.nextId)
  {
    var db' := CreateCleanup(db, row);
    if db.HasUnfinishedCleanup(row.key) {
      var c :| c in db.cleanups && db.cleanups[c].key == row.key && db.cleanups[c].IsUnfinished();
      assert db'.cleanups[c].key == row.key;
    } else {
      assert db'.cleanups[db.nextId].key == row.key;
    }
    forall k | KeyRegistered(db.cleanups, k)
      ensures KeyRegistered(db'.cleanups, k)
    {
      var c :| c in db.cleanups && db.cleanups[c].key == k;
      assert db'.cleanups[c] == db.cleanups[c];
    }
  }

  // A recorded failure or an accepted completion ends the attempt.
  lemma FailureIsOver(db: Db, j: Id, why: V.JobError, videoKey: Key, now: Time)
    ensures var r := FailProcessing(db, j, why, videoKey, 0, now); r.Success? ==> IsOver(r.value.jobs, j)
  {
    hide InsertOutputCleanups;
    var r := FailProcessing(db, j, why, videoKey, 0, now);
    if r.Success? {
      var v := db.jobs[j].videoId;
      var db1 := if db.videos[v].IsDeleted() then db.SaveJob(j, db.jobs[j].Cancel(now).value) else FailAlive(db, j, why, now).value;
      InsertOutputSpares(db1, v, videoKey, 0, C.ProcessFailed, now);
    }
  }

  lemma CompletionIsOver(db: Db, j: Id, meta: OutputMeta, now: Time)
    ensures var r := CompleteProcessing(db, j, meta, now); r.Success? ==> IsOver(r.value.jobs, j)
  {
    hide InsertOutputCleanups;
    var r := CompleteProcessing(db, j, meta, now);
    if r.Success? && db.videos[db.jobs[j].videoId].IsDeleted() {
      var job := db.jobs[j];
      var cancelled := job.Cancel(now);
      InsertOutputSpares(db.SaveJob(j, if cancelled.Success? then cancelled.value else job), job.videoId, meta.videoKey,
                         meta.thumbnailKey, C.Rollback, now);
    }
  }

  lemma SameUnheard(a: Db, b: Db, key: Key)
    requires a.cleanups == b.cleanups
    ensures Unheard(a, key) == Unheard(b, key)
  {
  }

  lemma NothingRequested(db: Db, video: Option<Id>, cause: C.CleanupCause, now: Time)
    ensures Requested(db.cleanups, db.cleanups, {}, video, cause, now)
  {
  }

  // One more request; a second one for the same object is absorbed.
  lemma CreateRequests(start: Db, db: Db, row: Cleanup, keys: set<Key>, video: Option<Id>, cause: C.CleanupCause, now: Time)
    requires Requested(start.cleanups, db.cleanups, keys, video, cause, now) && FreshRows(db)
    requires IsRequest(row, {row.key}, video, cause, now)
    ensures Unheard(start, row.key)
            ==> Requested(start.cleanups, CreateCleanup(db, row).cleanups, keys + {row.key}, video, cause, now)
  {
    var db' := CreateCleanup(db, row);
    if Unheard(start, row.key) {
      if db.HasUnfinishedCleanup(row.key) {
        var c :| c in db.cleanups && db.cleanups[c].key == row.key && db.cleanups[c].IsUnfinished();
        assert row.key in keys;
        assert keys + {row.key} == keys;
      } else {
        assert db'.cleanups[db.nextId] == row;
        forall k | k in keys
          ensures exists c :: c in db'.cleanups && c !in start.cleanups && db'.cleanups[c].key == k
        {
          var c :| c in db.cleanups && c !in start.cleanups && db.cleanups[c].key == k;
          assert db'.cleanups[c] == db.cleanups[c];
        }
      }
    }
  }

  lemma CompleteSettles(db: Db, j: Id, meta: OutputMeta, now: Time)
    requires FreshRows(db) && j in db.jobs && meta.videoKey != 0 && meta.thumbnailKey != 0
    ensures var r := CompleteProcessing(db, j, meta, now);
            r.Success? ==> AllSettled(r.value, db.jobs[j].videoId, {meta.videoKey, meta.thumbnailKey})
  {
    hide KeyRegistered, InsertOutputCleanups;
    var job := db.jobs[j];
    if CompleteProcessing(db, j, meta, now).Success? && db.videos[job.videoId].IsDeleted() {
      var cancelled := job.Cancel(now);
      InsertOutputsSettle(db.SaveJob(j, if cancelled.Success? then cancelled.value else job), job.videoId, meta.videoKey,
                          meta.thumbnailKey, C.Rollback, now);
    }
  }

  lemma FailSettles(db: Db, j: Id, why: V.JobError, videoKey: Key, thumbnailKey: Key, now: Time)
    requires FreshRows(db) && j in db.jobs
    ensures var r := FailProcessing(db, j, why, videoKey, thumbnailKey, now);
            r.Success? ==> AllRegistered(r.value, NonBlank({videoKey, thumbnailKey}))
  {
    hide KeyRegistered, InsertOutputCleanups;
    var job := db.jobs[j];
    if FailProcessing(db, j, why, videoKey, thumbnailKey, now).Success? {
      var db1 := if db.videos[job.videoId].IsDeleted() then db.SaveJob(j, job.Cancel(now).value)
                 else FailAlive(db, j, why, now).value;
      InsertOutputsSettle(db1, job.videoId, videoKey, thumbnailKey, C.ProcessFailed, now);
    }
  }

  lemma RegisteredStay(a: Db, b: Db, keys: set<Key>)
    requires Later(a, b) && AllRegistered(a, keys)
    ensures AllRegistered(b, keys)
  {
    forall k | k in keys
      ensures KeyRegistered(b.cleanups, k)
    {
      var c :| c in a.cleanups && a.cleanups[c].key == k;
      assert c in b.cleanups && b.cleanups[c].key == k;
    }
  }

  lemma RegisteredSettles(db: Db, v: Id, keys: set<Key>)
    requires AllRegistered(db, keys)
    ensures AllSettled(db, v, keys)
  {
  }

  // A refused failure either finds the object awaiting cleanup already, or its job taken away.
  lemma RefusedOrSettled(db: Db, j: Id, v: Id, key: Key)
    requires !FailAccepted(db, j, key)
    ensures MayFail(db, j) ==> AllSettled(db, v, {key})
  {
    if MayFail(db, j) {
      var c :| c in db.cleanups && db.cleanups[c].key == key && db.cleanups[c].IsUnfinished();
    }
  }

  // ---------------------------------------------------------------- the usecase

  class VideoProcessingUsecase {
    const tables: Tables
    const videos: VideoRepository
    const jobs: VideoProcessingJobRepository
    const cleanupJobs: StorageCleanupJobRepository
    const retryDelays: seq<nat>

    constructor (tables: Tables, retryDelays: seq<nat>)
      ensures this.tables == tables && this.retryDelays == retryDelays && Wired()
    {
      this.tables := tables;
      this.retryDelays := retryDelays;
      videos := new VideoRepository(tables);
      jobs := new VideoProcessingJobRepository(tables);
      cleanupJobs := new StorageCleanupJobRepository(tables);
    }

    ghost predicate Wired() {
      videos.tables == tables && jobs.tables == tables && cleanupJobs.tables == tables
    }

    // Others act before the next transaction.
    method OthersAct(others: Interference, n: nat)
      requires FreshRows(tables.Snapshot()) && Forward(others)
      modifies tables
      ensures FreshRows(tables.Snapshot()) && Later(old(tables.Snapshot()), tables.Snapshot())
      ensures forall j | j in old(tables.jobs) :: j in tables.jobs && tables.jobs[j].videoId == old(tables.jobs)[j].videoId
      ensures Undisturbed(others) ==> tables.Snapshot() == old(tables.Snapshot())
    {
      Interfere(tables, others, n);
    }

    // createRollbackCleanup: what it is given gets a cleanup job unless there is one.
    method CreateRollbackCleanup(videoId: Id, videoKey: Key, thumbnailKey: Key, now: Time) returns (err: Option<Error>)
      requires Wired() && FreshRows(tables.Snapshot())
      modifies tables
      ensures FreshRows(tables.Snapshot())
      ensures err.Some? <==> (videoKey != 0 || thumbnailKey != 0) && (now == 0 || videoId == 0)
      ensures err.Some? ==> tables.Snapshot() == old(tables.Snapshot())
      ensures err.None? ==> AllRegistered(tables.Snapshot(), NonBlank({videoKey, thumbnailKey}))
      ensures forall k | KeyRegistered(old(tables.cleanups), k) :: KeyRegistered(tables.cleanups, k)
      ensures tables.Snapshot() == old(tables.Snapshot()).(cleanups := tables.cleanups, nextId := tables.nextId)
      ensures err.None? && (videoKey != 0 ==> Unheard(old(tables.Snapshot()), videoKey))
              && (thumbnailKey != 0 ==> Unheard(old(tables.Snapshot()), thumbnailKey)) ==>
                Requested(old(tables.cleanups), tables.cleanups, {videoKey, thumbnailKey} - {0}, Some(videoId), C.Rollback, now)
    {
      hide KeyRegistered, CreateCleanup, FreshRows, Requested, Unheard;
      err := None;
      ghost var start := tables.Snapshot();
      ghost var unheard := (videoKey != 0 ==> Unheard(start, videoKey)) && (thumbnailKey != 0 ==> Unheard(start, thumbnailKey));
      ghost var video, cause := Some(videoId), C.Rollback;
      NothingRequested(start, video, cause, now);
      if videoKey != 0 {
        var job := C.NewCleanup(Some(videoId), videoKey, C.AssetProcessed, C.Rollback, now);
        if job.Failure? {
          err := Some(job.error);
        } else {
          CreateSettles(tables.Snapshot(), job.value);
          CreateRequests(start, start, job.value, {}, video, cause, now);
          cleanupJobs.Create(job.value);
        }
      }
      ghost var asked := {videoKey} - {0};
      assert asked == if videoKey == 0 then {} else {} + {videoKey};
      assert unheard && err.None? ==> Requested(start.cleanups, tables.cleanups, asked, video, cause, now);
      if thumbnailKey != 0 {
        var job := C.NewCleanup(Some(videoId), thumbnailKey, C.AssetThumbnail, C.Rollback, now);
        if job.Failure? {
          err := Some(job.error);
        } else {
          CreateSettles(tables.Snapshot(), job.value);
          if unheard && err.None? { CreateRequests(start, tables.Snapshot(), job.value, asked, video, cause, now); }
          cleanupJobs.Create(job.value);
        }
      }
      assert {videoKey, thumbnailKey} - {0} == if thumbnailKey == 0 then asked else asked + {thumbnailKey};
    }

    // The call is alone, and since `start` it has done no more than claim its job and record the source.
    ghost predicate Calm(start: Db, claim: ProcessingClaim, others: Interference, now: Time)
      reads tables
    {
      && Undisturbed(others) && ValidDelays(retryDelays) && UnderWay(start, tables.Snapshot(), claim.jobId, now)
      && claim.job.attempts == start.jobs[claim.jobId].attempts + 1 && claim.job.maxAttempts == 4
    }

    // A retryable failure before the last attempt.
    predicate Retries(claim: ProcessingClaim, failure: ProcessingFailure) {
      failure.retryable && claim.job.attempts < claim.job.maxAttempts
    }

    /**
      recordFailure. Before a retry the generated object is always registered; otherwise FailProcessing registers it,
      and is refused exactly if its guard does not hold of the tables it finds.
     */
    method RecordFailure(claim: ProcessingClaim, failure: ProcessingFailure, videoKey: Key, others: Interference, now: Time,
                         ghost start: Db)
      returns (err: Option<ProcessError>)
      requires Wired() && FreshRows(tables.Snapshot()) && Forward(others) && now != 0 && claim.job.videoId != 0
      requires claim.jobId in tables.jobs && tables.jobs[claim.jobId].videoId == claim.job.videoId
      modifies tables
      ensures Retries(claim, failure) ==>
                && (err.None? || err.value.RetryRejected?)
                && AllRegistered(tables.Snapshot(), NonBlank({videoKey}))
                && (err.None? ==>
                      && 1 <= claim.job.attempts <= |retryDelays| && claim.jobId in tables.jobs
                      && tables.jobs[claim.jobId].status == V.JobRetryWait
                      && tables.jobs[claim.jobId].availableAt == now + retryDelays[claim.job.attempts - 1])
      ensures !Retries(claim, failure) ==>
                && (err.None? || err.value.FailureRejected?)
                && (err.None? <==> FailAccepted(old(tables.Snapshot()), claim.jobId, videoKey))
                && (if err.None? then AllRegistered(tables.Snapshot(), NonBlank({videoKey}))
                    else tables.Snapshot() == old(tables.Snapshot()))
      ensures err.None? ==> IsOver(tables.jobs, claim.jobId)
      ensures old(Calm(start, claim, others, now)) && (videoKey == 0 || Unheard(start, videoKey)) ==>
                && err.None? && ValidDelays(retryDelays)
                && if failure.retryable && claim.job.attempts < 4
                   then AttemptRepeats(start, tables.Snapshot(), claim.jobId, now + retryDelays[claim.job.attempts - 1],
                                       failure.code, {videoKey} - {0}, now)
                   else AttemptFails(start, tables.Snapshot(), claim.jobId, failure.code, {videoKey} - {0}, now)
    {
      hide KeyRegistered, FailAccepted, UnderWay, AttemptRepeats, AttemptFails, Undisturbed, Unheard, Requested;
      ghost var before := tables.Snapshot();
      if Calm(start, claim, others, now) && (videoKey == 0 || Unheard(start, videoKey)) {
        UnderWayFacts(start, before, claim.jobId, now);
        SameUnheard(start, before, videoKey);
        if !Retries(claim, failure) { FailureEnds(start, before, claim.jobId, failure.code, videoKey, now); }
      }
      if Retries(claim, failure) {
        var cleanupErr := CreateRollbackCleanup(claim.job.videoId, videoKey, 0, now);
        assert NonBlank({videoKey, 0}) == NonBlank({videoKey});
        var retryIndex := claim.job.attempts - 1;
        if retryIndex < 0 || retryIndex >= |retryDelays| { return Some(RetryRejected(ProcessingJobConflict)); }
        ghost var registered := tables.Snapshot();
        assert {videoKey, 0} - {0} == {videoKey} - {0};
        OthersAct(others, 8);
        RegisteredStay(registered, tables.Snapshot(), NonBlank({videoKey}));
        if old(Calm(start, claim, others, now)) && (videoKey == 0 || Unheard(start, videoKey)) {
          RetryEnds(start, before, tables.Snapshot(), claim.jobId, now + retryDelays[retryIndex], failure.code,
                    {videoKey} - {0}, now);
        }
        var retryErr := jobs.ScheduleRetry(claim.jobId, now + retryDelays[retryIndex], V.Failed(failure.code), now);
        return if retryErr.Some? then Some(RetryRejected(retryErr.value)) else None;
      }
      FailSucceedsIff(tables.Snapshot(), claim.jobId, V.Failed(failure.code), videoKey, now);
      FailSettles(tables.Snapshot(), claim.jobId, V.Failed(failure.code), videoKey, 0, now);
      FailureIsOver(tables.Snapshot(), claim.jobId, V.Failed(failure.code), videoKey, now);
      assert NonBlank({videoKey, 0}) == NonBlank({videoKey});
      var failErr := videos.FailProcessing(claim.jobId, V.Failed(failure.code), videoKey, 0, now);
      err := if failErr.Some? then Some(FailureRejected(failErr.value)) else None;
    }

    /**
      Conservation of uploads: whatever the stages do and others do meanwhile, every object the call stored is
      settled when it returns, unless the job was taken from the worker before it could fail it. FailProcessing is
      refused only if its guard does not hold of the tables as they are left.
     */
    method ProcessNext(row: Option<Id>, stages: Stages, newVideoKey: Key, newThumbnailKey: Key, others: Interference, now: Time)
      returns (processed: bool, err: Option<ProcessError>, video: Id, stored: set<Key>)
      requires Wired() && FreshRows(tables.Snapshot()) && Forward(others) && now != 0
      requires newVideoKey != 0 && newThumbnailKey != 0
      requires row.Some? ==>
                 row.value in tables.jobs && Claimable(tables.jobs[row.value], now) && tables.jobs[row.value].videoId != 0
      modifies tables
      ensures stored <= {newVideoKey, newThumbnailKey}
      ensures !processed ==> stored == {} && (err.None? || err.value.ClaimFailed?)
      ensures processed ==> row.Some? && Conserved(row.value, video, newVideoKey, stored, err)
      // Without an error the attempt is over, whatever others do.
      ensures processed && err.None? ==> IsOver(tables.jobs, row.value)
      // Undisturbed, on coherent tables, each way of ending leaves exactly these tables.
      ensures row.None? ==> !processed && err.None? && tables.Snapshot() == old(tables.Snapshot())
      ensures row.Some? && old(Quiet(others, newVideoKey, newThumbnailKey, now)) ==>
                && old(tables.jobs)[row.value].videoId in old(tables.videos)
                && if old(tables.videos)[old(tables.jobs)[row.value].videoId].deletedAt.Some? then
                     && !processed && err.None?
                     && tables.Snapshot() == old(tables.Snapshot()).(jobs := tables.jobs)
                     && tables.jobs == old(tables.jobs)[row.value := CalledOff(old(tables.jobs)[row.value], now)]
                   else
                     && processed
                     && CallEnds(old(tables.Snapshot()), tables.Snapshot(), row.value, stages, retryDelays, newVideoKey,
                                 newThumbnailKey, now, err, stored)
    {
      hide Later, Forward, FreshRows, Settled, FailAccepted, MayFail, UnderWay, Undisturbed, Unheard, DbOk;
      hide CallEnds, ClaimJob, AllSettled;
      ghost var start := tables.Snapshot();
      ghost var quiet := Quiet(others, newVideoKey, newThumbnailKey, now);
      stored, video := {}, 0;
      if row.Some? && quiet { ClaimEnds(start, row.value, now); }
      var claim, claimErr := jobs.ClaimNext(row, now);
      if claimErr.Some? { return false, Some(ClaimFailed(claimErr.value)), video, stored; }
      if claim.None? { return false, None, video, stored; }
      processed := true;
      video := claim.value.job.videoId;
      ClaimFresh(old(tables.Snapshot()), row.value, now);

      err, stored := Work(claim.value, stages, newVideoKey, newThumbnailKey, others, now, start);
    }

    // Everything after the claim.
    method Work(claim: ProcessingClaim, stages: Stages, newVideoKey: Key, newThumbnailKey: Key, others: Interference,
                now: Time, ghost start: Db)
      returns (err: Option<ProcessError>, stored: set<Key>)
      requires Holds(claim) && Forward(others) && now != 0 && newVideoKey != 0 && newThumbnailKey != 0
      modifies tables
      ensures stored <= {newVideoKey, newThumbnailKey}
      ensures Conserved(claim.jobId, claim.job.videoId, newVideoKey, stored, err)
      ensures err.None? ==> IsOver(tables.jobs, claim.jobId)
      ensures old(Calm(start, claim, others, now)) && (claim.source.None? <==> claim.job.videoId !in old(tables.sources))
              && old(tables.sources) == start.sources && Unheard(start, newVideoKey) && Unheard(start, newThumbnailKey) ==>
                CallEnds(start, tables.Snapshot(), claim.jobId, stages, retryDelays, newVideoKey, newThumbnailKey, now, err,
                         stored)
    {
      hide Later, Forward, FreshRows, Settled, FailAccepted, MayFail, UnderWay, Undisturbed, Unheard;
      hide ProductionEnds, StageFailureEnds, AttemptRepeats, AttemptFails;
      stored := {};
      ghost var calm := Calm(start, claim, others, now);
      if calm { UnderWayFacts(start, tables.Snapshot(), claim.jobId, now); }
      var failed := if stages.workdir.Some? then stages.workdir else stages.download;
      if failed.Some? {
        OthersAct(others, 0);
        err := RecordFailure(claim, ClassifyProcessingError(failed.value), 0, others, now, start);
        if calm { StageEnds(start, tables.Snapshot(), claim.jobId, failed.value, retryDelays, 0, now); }
        return;
      }
      if claim.source.None? {
        OthersAct(others, 1);
        var going;
        going, err := ValidateSource(claim, stages, others, now, start);
        if !going { return; }
      }
      OthersAct(others, 3);
      err, stored := Produce(claim, stages, newVideoKey, newThumbnailKey, others, now, start);
    }

    // The call is alone on coherent tables, and its new keys are new to them.
    ghost predicate Quiet(others: Interference, newVideoKey: Key, newThumbnailKey: Key, now: Time)
      reads tables
    {
      && Undisturbed(others) && ValidDelays(retryDelays) && DbOk(tables.Snapshot(), now)
      && Unheard(tables.Snapshot(), newVideoKey) && Unheard(tables.Snapshot(), newThumbnailKey)
    }

    // What a call for the job leaves behind.
    ghost predicate Conserved(job: Id, video: Id, newVideoKey: Key, stored: set<Key>, err: Option<ProcessError>)
      reads tables
    {
      var db := tables.Snapshot();
      if err.Some? && err.value.FailureRejected? then
        && !FailAccepted(db, job, if stored == {} then 0 else newVideoKey)
        && (AllSettled(db, video, stored) || (stored == {newVideoKey} && !MayFail(db, job)))
      else AllSettled(db, video, stored)
    }

    // The claim's job is there, for the claim's video.
    ghost predicate Holds(claim: ProcessingClaim)
      reads tables
    {
      && Wired() && FreshRows(tables.Snapshot()) && claim.job.videoId != 0
      && claim.jobId in tables.jobs && tables.jobs[claim.jobId].videoId == claim.job.videoId
    }

    // Probing and recording the source; a deleted video ends the call.
    method ValidateSource(claim: ProcessingClaim, stages: Stages, others: Interference, now: Time, ghost start: Db)
      returns (going: bool, err: Option<ProcessError>)
      requires Holds(claim) && Forward(others) && now != 0
      modifies tables
      ensures going ==> Holds(claim) && err.None?
      ensures err.Some? && err.value.FailureRejected? ==> !FailAccepted(tables.Snapshot(), claim.jobId, 0)
      ensures !going && err.None? ==> IsOver(tables.jobs, claim.jobId)
      ensures old(Calm(start, claim, others, now)) && old(claim.job.videoId !in tables.sources) ==>
                if stages.probe.Some? || !stages.source.valid then
                  && !going && err.None?
                  && StageFailureEnds(start, tables.Snapshot(), claim.jobId,
                                      if stages.probe.Some? then stages.probe.value else OtherError, retryDelays, {}, now)
                else going && Calm(start, claim, others, now) && claim.job.videoId in tables.sources
    {
      hide Later, Forward, FreshRows, FailAccepted, UnderWay, AttemptRepeats, AttemptFails, Undisturbed;
      going, err := false, None;
      if stages.probe.Some? {
        ghost var calm := Calm(start, claim, others, now);
        if calm { UnderWayFacts(start, tables.Snapshot(), claim.jobId, now); }
        err := RecordFailure(claim, ClassifyProcessingError(stages.probe.value), 0, others, now, start);
        if calm { StageEnds(start, tables.Snapshot(), claim.jobId, stages.probe.value, retryDelays, 0, now); }
        return;
      }
      RecordFresh(tables.Snapshot(), claim.job.videoId, stages.source, now);
      if Calm(start, claim, others, now) {
        UnderWayFacts(start, tables.Snapshot(), claim.jobId, now);
        SourceContinues(start, tables.Snapshot(), claim.jobId, stages.source, now);
      }
      var recordErr := videos.RecordSourceValidation(claim.job.videoId, stages.source, now);
      if recordErr == Some(VideoNotFound) {
        OthersAct(others, 2);
        var cancelErr := jobs.Cancel(claim.jobId, now);
        err := if cancelErr.Some? then Some(CancelFailed(cancelErr.value)) else None;
      } else if recordErr.Some? {
        OthersAct(others, 2);
        ghost var calm := Calm(start, claim, others, now);
        if calm { UnderWayFacts(start, tables.Snapshot(), claim.jobId, now); }
        err := RecordFailure(claim, ClassifyProcessingError(OtherError), 0, others, now, start);
        if calm { StageEnds(start, tables.Snapshot(), claim.jobId, OtherError, retryDelays, 0, now); }
      } else {
        going := true;
      }
    }

    // Transcoding, uploading and committing.
    method Produce(claim: ProcessingClaim, stages: Stages, newVideoKey: Key, newThumbnailKey: Key, others: Interference,
                   now: Time, ghost start: Db)
      returns (err: Option<ProcessError>, stored: set<Key>)
      requires Holds(claim) && Forward(others) && now != 0 && newVideoKey != 0 && newThumbnailKey != 0
      modifies tables
      ensures stored <= {newVideoKey, newThumbnailKey}
      ensures Conserved(claim.jobId, claim.job.videoId, newVideoKey, stored, err)
      ensures old(Calm(start, claim, others, now)) && claim.job.videoId in old(tables.sources)
              && Unheard(start, newVideoKey) && Unheard(start, newThumbnailKey) ==>
                ProductionEnds(start, tables.Snapshot(), claim.jobId, stages, retryDelays, newVideoKey, newThumbnailKey, now,
                               err, stored)
      ensures err.None? ==> IsOver(tables.jobs, claim.jobId)
    {
      hide Later, Forward, FreshRows, Settled, FailAccepted, MayFail, AllRegistered;
      hide UnderWay, AttemptRepeats, AttemptFails, AttemptSucceeds, AttemptIsLeft, Undisturbed, Unheard;
      ghost var calm := Calm(start, claim, others, now) && claim.job.videoId in tables.sources
                        && Unheard(start, newVideoKey) && Unheard(start, newThumbnailKey);
      ghost var before := tables.Snapshot();
      if calm { UnderWayFacts(start, before, claim.jobId, now); }
      stored := {};
      var failed := if stages.transcode.Some? then stages.transcode
                    else if stages.thumbnail.Some? then stages.thumbnail
                    else if stages.probeOutput.Some? then stages.probeOutput
                    else if stages.buildKeys.Some? then stages.buildKeys
                    else stages.uploadVideo;
      if failed.Some? {
        err := RecordFailure(claim, ClassifyProcessingError(failed.value), 0, others, now, start);
        if calm { StageEnds(start, tables.Snapshot(), claim.jobId, failed.value, retryDelays, 0, now); }
        return;
      }
      stored := stored + {newVideoKey};
      if stages.uploadThumbnail.Some? {
        err := RecordFailure(claim, ClassifyProcessingError(stages.uploadThumbnail.value), newVideoKey, others, now, start);
        assert NonBlank({newVideoKey}) == stored;
        if calm { StageEnds(start, tables.Snapshot(), claim.jobId, stages.uploadThumbnail.value, retryDelays, newVideoKey, now); }
        if err.Some? && err.value.FailureRejected? {
          RefusedOrSettled(tables.Snapshot(), claim.jobId, claim.job.videoId, newVideoKey);
        } else {
          RegisteredSettles(tables.Snapshot(), claim.job.videoId, stored);
        }
        return;
      }
      stored := stored + {newThumbnailKey};
      err := CommitUploads(claim, stages, newVideoKey, newThumbnailKey, others, now, start);
    }

    // Committing the two objects; if that fails they are registered for removal.
    method CommitUploads(claim: ProcessingClaim, stages: Stages, newVideoKey: Key, newThumbnailKey: Key,
                         others: Interference, now: Time, ghost start: Db)
      returns (err: Option<ProcessError>)
      requires Holds(claim) && Forward(others) && now != 0 && newVideoKey != 0 && newThumbnailKey != 0
      modifies tables
      ensures err.Some? ==> err.value.CompletionRejected?
      ensures AllSettled(tables.Snapshot(), claim.job.videoId, {newVideoKey, newThumbnailKey})
      ensures old(Calm(start, claim, others, now)) && claim.job.videoId in old(tables.sources)
              && Unheard(start, newVideoKey) && Unheard(start, newThumbnailKey) ==>
                CommitEnds(start, tables.Snapshot(), claim.jobId, stages, newVideoKey, newThumbnailKey, now, err)
      ensures err.None? ==> IsOver(tables.jobs, claim.jobId)
    {
      hide Later, Forward, FreshRows, Settled, AllRegistered;
      hide UnderWay, AttemptSucceeds, AttemptIsLeft, Undisturbed, Unheard;
      ghost var before := tables.Snapshot();
      ghost var calm := Calm(start, claim, others, now) && claim.job.videoId in tables.sources
                        && Unheard(start, newVideoKey) && Unheard(start, newThumbnailKey);
      if calm { UnderWayFacts(start, before, claim.jobId, now); }
      var output := OutputMeta(newVideoKey, newThumbnailKey, stages.outputValid, 0);
      CompleteSettles(before, claim.jobId, output, now);
      CompletionIsOver(before, claim.jobId, output, now);
      if calm { CompletionEnds(start, before, claim.jobId, output, now); }
      var completeErr := Some(TransactionAborted);
      if !stages.completionAborts {
        completeErr := videos.CompleteProcessing(claim.jobId, output, now);
      }
      err := None;
      if completeErr.Some? {
        OthersAct(others, 4);
        var cleanupErr := CreateRollbackCleanup(claim.job.videoId, newVideoKey, newThumbnailKey, now);
        ghost var keys := {newVideoKey, newThumbnailKey};
        assert NonBlank(keys) == keys;
        RegisteredSettles(tables.Snapshot(), claim.job.videoId, keys);
        if calm {
          SameUnheard(start, before, newVideoKey);
          SameUnheard(start, before, newThumbnailKey);
          assert keys - {0} == keys;
          LeftEnds(start, before, tables.Snapshot(), claim.jobId, keys, now);
        }
        err := Some(CompletionRejected(completeErr.value));
      }
    }
  }

  lemma RecordFresh(db: Db, v: Id, meta: SourceMeta, now: Time)
    requires FreshRows(db)
    ensures var r := RecordSourceValidation(db, v, meta, now);
            r.Success? ==> FreshRows(r.value) && r.value.jobs == db.jobs
  {
  }

  lemma ClaimFresh(db: Db, j: Id, now: Time)
    requires FreshRows(db) && j in db.jobs
    ensures var r := ClaimJob(db, j, now);
            r.Success? ==> FreshRows(r.value) && j in r.value.jobs && r.value.jobs[j].videoId == db.jobs[j].videoId
  {
  }
}
