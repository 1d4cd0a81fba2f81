/**
  What the transactions promise in terms of the rows alone: who may have them, when they are refused and with which
  error, what a committed one changes and that it changes nothing else.
 */
module Outcomes {
  import opened Common
  import opened VideoEntity
  import V = VideoJobEntity
  import C = CleanupEntity
  import opened UserEntity
  import opened Database
  import opened Coherence

  // ---------------------------------------------------------------- rows

  // At most the row `id` changes; no row comes or goes.
  ghost predicate OnlyRow<T(!new)>(a: map<Id, T>, b: map<Id, T>, id: Id) {
    id in a && b.Keys == a.Keys && forall k | k in a && k != id :: b[k] == a[k]
  }

  // The row of `id` is written, whether or not it was there.
  ghost predicate Written<T(!new)>(a: map<Id, T>, b: map<Id, T>, id: Id) {
    b.Keys == a.Keys + {id} && forall k | k in a && k != id :: b[k] == a[k]
  }

  // A fresh request to remove an object.
  predicate IsRequest(row: Cleanup, keys: set<Key>, video: Option<Id>, cause: C.CleanupCause, now: Time) {
    && row.key in keys && row.videoId == video && row.cause == cause
    && row.status == C.CleanupQueued && row.attempts == 0 && row.maxAttempts == 4 && row.availableAt == now
    && row.startedAt == None && row.finishedAt == None
  }

  /** Each of the objects is to be removed, by a new queued row of its own; nothing else changes in the table. */
  ghost predicate Requested(a: map<Id, Cleanup>, b: map<Id, Cleanup>, keys: set<Key>, video: Option<Id>,
                            cause: C.CleanupCause, now: Time)
  {
    && (forall c | c in a :: c in b && b[c] == a[c])
    && (forall c | c in b && c !in a :: IsRequest(b[c], keys, video, cause, now))
    && (forall k | k in keys :: exists c :: c in b && c !in a && b[c].key == k)
  }

  lemma RequestedTwice(a: map<Id, Cleanup>, b: map<Id, Cleanup>, c: map<Id, Cleanup>, ks: set<Key>, ls: set<Key>,
                       video: Option<Id>, cause: C.CleanupCause, now: Time)
    requires Requested(a, b, ks, video, cause, now) && Requested(b, c, ls, video, cause, now)
    ensures Requested(a, c, ks + ls, video, cause, now)
  {
    forall k | k in ks
      ensures exists i :: i in c && i !in a && c[i].key == k
    {
      var i :| i in b && i !in a && b[i].key == k;
      assert i in c && c[i].key == k;
    }
  }

  lemma InsertRequests(db: Db, v: Id, key: Key, asset: C.AssetType, cause: C.CleanupCause, now: Time)
    requires FreshRows(db)
    ensures var r := InsertCleanup(db, v, key, asset, cause, now);
            r.Success? ==>
              && r.value == db.(cleanups := r.value.cleanups, nextId := r.value.nextId) && FreshRows(r.value)
              && Requested(db.cleanups, r.value.cleanups, {key} - {0}, Some(v), cause, now)
  {
    var r := InsertCleanup(db, v, key, asset, cause, now);
    if r.Success? && key != 0 {
      assert r.value.cleanups[db.nextId].key == key;
    }
  }

  lemma InsertOutputsRequest(db: Db, v: Id, videoKey: Key, thumbnailKey: Key, cause: C.CleanupCause, now: Time)
    requires FreshRows(db)
    ensures var r := InsertOutputCleanups(db, v, videoKey, thumbnailKey, cause, now);
            r.Success? ==>
              && r.value == db.(cleanups := r.value.cleanups, nextId := r.value.nextId)
              && Requested(db.cleanups, r.value.cleanups, {videoKey, thumbnailKey} - {0}, Some(v), cause, now)
  {
    hide Requested, InsertCleanup, FreshRows;
    var r := InsertOutputCleanups(db, v, videoKey, thumbnailKey, cause, now);
    InsertRequests(db, v, videoKey, C.AssetProcessed, cause, now);
    if r.Success? {
      var db1 := InsertCleanup(db, v, videoKey, C.AssetProcessed, cause, now).value;
      InsertRequests(db1, v, thumbnailKey, C.AssetThumbnail, cause, now);
      RequestedTwice(db.cleanups, db1.cleanups, r.value.cleanups, {videoKey} - {0}, {thumbnailKey} - {0}, Some(v), cause, now);
      assert {videoKey, thumbnailKey} - {0} == ({videoKey} - {0}) + ({thumbnailKey} - {0});
    }
  }

  // ---------------------------------------------------------------- selection

  /**
    In coherent tables the queues hand out exactly what is due: waiting jobs from their time on, attempts as old as the
    timeout, and uploads past their deadline.
   */
  lemma SelectionsAreExact(db: Db, clock: Time, now: Time, id: Id)
    requires DbOk(db, clock)
    ensures id in db.jobs ==>
              var job := db.jobs[id];
              && (Claimable(job, now) <==> job.status in {V.JobQueued, V.JobRetryWait} && job.availableAt <= now)
              && (TimedOut(job, now) <==> job.status == V.JobRunning && job.startedAt.value <= now)
    ensures id in db.cleanups ==>
              var row := db.cleanups[id];
              && (CleanupClaimable(row, now) <==>
                    row.status in {C.CleanupQueued, C.CleanupRetryWait} && row.availableAt <= now)
              && (CleanupTimedOut(row, now) <==> row.status == C.CleanupRunning && row.startedAt.value <= now)
    ensures id in db.videos ==>
              (AwaitsExpiry(db.videos[id], now) <==>
                 Living(db, id) && db.videos[id].processing == Uploading && db.videos[id].uploadExpiresAt <= now)
  {
    hide DbOk;
    if id in db.jobs { JobFacts(db, clock, id); }
    if id in db.cleanups { CleanupFacts(db, clock, id); }
    if id in db.videos { VideoFacts(db, clock, id); }
  }

  // ---------------------------------------------------------------- owners

  predicate Living(db: Db, v: Id) {
    v in db.videos && db.videos[v].deletedAt == None
  }

  predicate OwnsLiving(db: Db, userId: Id, v: Id) {
    Living(db, v) && db.videos[v].userId == userId && userId != 0
  }

  // Only the owner of a living video gets through; a stranger is told so.
  predicate OwnersOnly(db: Db, userId: Id, v: Id, now: Time, r: Result<Db>) {
    && (r.Success? ==> OwnsLiving(db, userId, v) && now != 0)
    && (!Living(db, v) ==> r == Failure(VideoNotFound))
    && (Living(db, v) && now == 0 ==> r == Failure(InvalidInput))
    && (Living(db, v) && now != 0 && !OwnsLiving(db, userId, v) ==> r == Failure(VideoForbidden))
  }

  /** For all tables, users and videos: the owners' operations are refused to everybody else. */
  lemma StrangersAreRefused(db: Db, userId: Id, v: Id, now: Time)
    ensures OwnersOnly(db, userId, v, now, DeleteByOwner(db, userId, v, now))
    ensures OwnersOnly(db, userId, v, now, SetPrivateByOwner(db, userId, v, now))
    ensures if userId in db.users then OwnersOnly(db, userId, v, now, RepublishByOwner(db, userId, v, now))
            else RepublishByOwner(db, userId, v, now) == Failure(UserNotFound)
    ensures CompleteUpload(db, userId, v, now).Success? ==> OwnsLiving(db, userId, v) && v != 0 && now != 0
    ensures userId != 0 && v != 0 && now != 0 && !OwnsLiving(db, userId, v)
            ==> CompleteUpload(db, userId, v, now) == Failure(VideoNotFound)
  {
    hide InsertCleanup, InsertOutputCleanups;
  }

  // One video row and nothing else changes.
  ghost predicate Rewritten(db: Db, db': Db, v: Id, row: Video) {
    db' == db.(videos := db'.videos) && OnlyRow(db.videos, db'.videos, v) && db'.videos[v] == row
  }

  lemma SetPrivateOutcome(db: Db, userId: Id, v: Id, now: Time)
    requires OwnsLiving(db, userId, v) && now != 0
    ensures var r := SetPrivateByOwner(db, userId, v, now);
            if db.videos[v].processing == Ready && db.videos[v].publish == Published
            then r.Success? && Rewritten(db, r.value, v, db.videos[v].(publish := Private, updatedAt := now))
            else r == Failure(VideoStateConflict)
  {
  }

  lemma RepublishOutcome(db: Db, userId: Id, v: Id, now: Time)
    requires OwnsLiving(db, userId, v) && userId in db.users && now != 0
    ensures var r := RepublishByOwner(db, userId, v, now);
            if db.videos[v].processing != Ready || db.videos[v].publish != Private then r == Failure(VideoStateConflict)
            else if db.users[userId].status != Active then r == Failure(UserSuspended)
            else r.Success? && Rewritten(db, r.value, v, db.videos[v].(publish := Published, updatedAt := now))
  {
  }

  /** A new video waits for its upload, unseen, until the deadline it was given. */
  lemma CreationOutcome(db: Db, userId: Id, key: Key, expiresAt: Time, clock: Time, now: Time)
    requires DbOk(db, clock)
    ensures var r := InsertVideo(db, userId, key, expiresAt, now);
            if userId == 0 || key == 0 || now == 0 || expiresAt <= now then r == Failure(InvalidInput)
            else if userId !in db.users then r == Failure(UserNotFound)
            else if exists v :: v in db.videos && db.videos[v].originalKey == key then r == Failure(UniqueViolation)
            else && r.Success? && r.value == db.(videos := r.value.videos, nextId := r.value.nextId)
                 && db.nextId !in db.videos && Written(db.videos, r.value.videos, db.nextId)
                 && r.value.videos[db.nextId] == Video(userId, key, expiresAt, now, Uploading, Private, now, None)
  {
    hide DbOk;
    NextIdFresh(db, clock);
  }

  // The upload is accepted: its processing is queued.
  ghost predicate UploadAccepted(db: Db, db': Db, v: Id, now: Time) {
    && db' == db.(videos := db'.videos, jobs := db'.jobs, nextId := db'.nextId)
    && OnlyRow(db.videos, db'.videos, v) && db'.videos[v] == db.videos[v].(processing := Uploaded, updatedAt := now)
    && (forall j | j in db.jobs :: j in db'.jobs && db'.jobs[j] == db.jobs[j] && db.jobs[j].videoId != v)
    && (exists j :: j in db'.jobs && db'.jobs.Keys == db.jobs.Keys + {j}
                    && db'.jobs[j] == V.Job(v, V.JobQueued, 0, 4, now, None, None, V.NoError, now, now))
  }

  /** The upload deadline decides; a repeated notice changes nothing. */
  lemma CompleteUploadOutcome(db: Db, userId: Id, v: Id, clock: Time, now: Time)
    requires DbOk(db, clock) && clock <= now && OwnsLiving(db, userId, v)
    ensures var r, row := CompleteUpload(db, userId, v, now), db.videos[v];
            if row.processing == Expired || (row.processing == Uploading && row.uploadExpiresAt <= now)
            then r == Failure(Error.UploadExpired)
            else if row.processing == Uploading then r.Success? && UploadAccepted(db, r.value, v, now)
            else r == Success(db)
  {
    hide DbOk, UploadAccepted, JobExists;
    VideoFacts(db, clock, v);
    FreshKeys(db, clock);
    var row := db.videos[v];
    if row.processing == Uploading && now < row.uploadExpiresAt {
      AcceptedUpload(db, v, now);
    }
  }

  lemma AcceptedUpload(db: Db, v: Id, now: Time)
    requires v in db.videos && db.nextId !in db.jobs && !db.HasJob(v)
    ensures UploadAccepted(db, db.SaveVideo(v, db.videos[v].(processing := Uploaded, updatedAt := now))
                                 .(jobs := db.jobs[db.nextId := V.Job(v, V.JobQueued, 0, 4, now, None, None, V.NoError, now, now)],
                                   nextId := db.nextId + 1), v, now)
  {
    var jobs := db.jobs[db.nextId := V.Job(v, V.JobQueued, 0, 4, now, None, None, V.NoError, now, now)];
    assert db.nextId in jobs && jobs.Keys == db.jobs.Keys + {db.nextId};
  }

  lemma FreshKeys(db: Db, clock: Time)
    requires DbOk(db, clock)
    ensures 0 < clock && FreshRows(db) && db.nextId !in db.jobs
  {
  }

  predicate Waits(job: Job) {
    job.status == V.JobQueued || job.status == V.JobRetryWait
  }

  // What a committed deletion leaves of the tables.
  ghost predicate Deleted(db: Db, db': Db, v: Id, now: Time)
    requires v in db.videos
  {
    && db' == db.(videos := db'.videos, jobs := db'.jobs, cleanups := db'.cleanups, nextId := db'.nextId)
    && OnlyRow(db.videos, db'.videos, v)
    && db'.videos[v] == db.videos[v].(deletedAt := Some(now), publish := Private, updatedAt := now)
    && db'.jobs.Keys == db.jobs.Keys
    && (forall j | j in db.jobs ::
          db'.jobs[j] == if db.jobs[j].videoId == v && Waits(db.jobs[j])
                         then db.jobs[j].(status := V.JobCancelled, finishedAt := Some(now), updatedAt := now)
                         else db.jobs[j])
    && Requested(db.cleanups, db'.cleanups, ObjectsOf(db, v), Some(v), C.VideoDelete, now)
  }

  // The objects of a video.
  function ObjectsOf(db: Db, v: Id): set<Key>
    requires v in db.videos
  {
    {db.videos[v].originalKey} + if v in db.outputs then {db.outputs[v].videoKey, db.outputs[v].thumbnailKey} else {}
  }

  /** A committed deletion hides the video for good, cancels what waits for it and has all its objects removed. */
  lemma DeletionOutcome(db: Db, userId: Id, v: Id, clock: Time, now: Time)
    requires DbOk(db, clock) && DeleteByOwner(db, userId, v, now).Success?
    ensures v in db.videos && Deleted(db, DeleteByOwner(db, userId, v, now).value, v, now)
  {
    hide Requested, InsertCleanup, InsertOutputCleanups, DbOk, FreshRows, Deleted;
    VideoFacts(db, clock, v);
    FreshKeys(db, clock);
    var row := db.videos[v].DeleteByOwner(userId, now).value;
    var db1 := db.SaveVideo(v, row).(jobs := CancelWaitingJobs(db.jobs, v, now));
    SameRows(db, db1);
    InsertRequests(db1, v, row.originalKey, C.AssetOriginal, C.VideoDelete, now);
    var db2 := InsertCleanup(db1, v, row.originalKey, C.AssetOriginal, C.VideoDelete, now).value;
    assert {row.originalKey} - {0} == {row.originalKey};
    if v in db.outputs {
      var output := db.outputs[v];
      InsertOutputsRequest(db2, v, output.videoKey, output.thumbnailKey, C.VideoDelete, now);
      assert {output.videoKey, output.thumbnailKey} - {0} == {output.videoKey, output.thumbnailKey};
      RequestedTwice(db.cleanups, db2.cleanups, DeleteByOwner(db, userId, v, now).value.cleanups, {row.originalKey},
                     {output.videoKey, output.thumbnailKey}, Some(v), C.VideoDelete, now);
    } else {
      assert {row.originalKey} + {} == {row.originalKey};
    }
    var db' := DeleteByOwner(db, userId, v, now).value;
    DeletedTables(db, db', v, now);
  }

  lemma DeletedTables(db: Db, db': Db, v: Id, now: Time)
    requires v in db.videos
    requires db' == db.SaveVideo(v, db.videos[v].(deletedAt := Some(now), publish := Private, updatedAt := now))
                      .(jobs := CancelWaitingJobs(db.jobs, v, now), cleanups := db'.cleanups, nextId := db'.nextId)
    requires Requested(db.cleanups, db'.cleanups, ObjectsOf(db, v), Some(v), C.VideoDelete, now)
    ensures Deleted(db, db', v, now)
  {
    hide Requested;
  }

  lemma SameRows(a: Db, b: Db)
    requires FreshRows(a) && b.cleanups == a.cleanups && b.nextId == a.nextId
    ensures FreshRows(b)
  {
  }

  // ---------------------------------------------------------------- attempts

  /** Coherent tables in which a living video is worked on, for the `attempt`th time. */
  ghost predicate BeingProcessed(db: Db, j: Id, attempt: int, now: Time) {
    && DbOk(db, now) && j in db.jobs && db.jobs[j].status == V.JobRunning && db.jobs[j].attempts == attempt
    && Living(db, db.jobs[j].videoId)
  }

  lemma AttemptFacts(db: Db, j: Id, attempt: int, now: Time)
    requires BeingProcessed(db, j, attempt, now)
    ensures 0 < now && j != 0 && 1 <= attempt <= 4 && db.jobs[j].maxAttempts == 4 && db.jobs[j].Sound(now)
    ensures var v := db.jobs[j].videoId;
            && v != 0 && db.videos[v].processing == Processing && db.videos[v].publish == Private
            && db.videos[v].userId in db.users && v !in db.outputs && FreshRows(db)
  {
    JobFacts(db, now, j);
    VideoFacts(db, now, db.jobs[j].videoId);
  }

  // The video and its job change together; new rows may be added elsewhere.
  ghost predicate PairChanges(db: Db, db': Db, j: Id, video: Video, job: Job)
    requires j in db.jobs
  {
    && db'.users == db.users && db'.tokens == db.tokens && db'.audit == db.audit
    && OnlyRow(db.videos, db'.videos, db.jobs[j].videoId) && db'.videos[db.jobs[j].videoId] == video
    && OnlyRow(db.jobs, db'.jobs, j) && db'.jobs[j] == job
  }

  lemma PairSet(db: Db, db': Db, j: Id, video: Video, job: Job)
    requires j in db.jobs && db.jobs[j].videoId in db.videos
    requires db'.users == db.users && db'.tokens == db.tokens && db'.audit == db.audit
    requires db'.videos == db.videos[db.jobs[j].videoId := video] && db'.jobs == db.jobs[j := job]
    ensures PairChanges(db, db', j, video, job)
  {
  }

  // What a job looks like once its next attempt has begun, and when that succeeds, is to be repeated, or fails.
  function Begun(job: Job, now: Time): Job {
    job.(status := V.JobRunning, attempts := job.attempts + 1, startedAt := Some(now), finishedAt := None, updatedAt := now)
  }

  function Succeeded(job: Job, now: Time): Job {
    job.(status := V.JobSucceeded, finishedAt := Some(now), error := V.NoError, updatedAt := now)
  }

  function ToRepeat(job: Job, available: Time, why: V.JobError, now: Time): Job {
    job.(status := V.JobRetryWait, availableAt := available, finishedAt := None, error := why, updatedAt := now)
  }

  function GivenUp(job: Job, why: V.JobError, now: Time): Job {
    job.(status := V.JobFailed, finishedAt := Some(now), error := why, updatedAt := now)
  }

  function CalledOff(job: Job, now: Time): Job {
    job.(status := V.JobCancelled, finishedAt := Some(now), updatedAt := now)
  }

  /** A claim begins the next attempt; for a deleted video it cancels the job instead. */
  lemma ClaimOutcome(db: Db, j: Id, clock: Time, now: Time)
    requires DbOk(db, clock) && clock <= now && j in db.jobs && Waits(db.jobs[j]) && db.jobs[j].availableAt <= now
    ensures var r, v := ClaimJob(db, j, now), db.jobs[j].videoId;
            && r.Success? && r.value == db.(videos := r.value.videos, jobs := r.value.jobs) && v in db.videos
            && if db.videos[v].deletedAt.Some?
               then PairChanges(db, r.value, j, db.videos[v], CalledOff(db.jobs[j], now))
               else BeingProcessed(r.value, j, db.jobs[j].attempts + 1, now)
                    && PairChanges(db, r.value, j, ClaimedVideo(db, j, now), Begun(db.jobs[j], now))
  {
    hide DbOk, PairChanges, ClaimJob;
    JobFacts(db, clock, j);
    VideoFacts(db, clock, db.jobs[j].videoId);
    FreshKeys(db, clock);
    ClaimedRows(db, j, now);
    ClaimJobKeeps(db, j, clock, now);
    var v := db.jobs[j].videoId;
    var video := if db.videos[v].deletedAt.Some? then db.videos[v] else ClaimedVideo(db, j, now);
    var job := if db.videos[v].deletedAt.Some? then CalledOff(db.jobs[j], now) else Begun(db.jobs[j], now);
    PairSet(db, ClaimJob(db, j, now).value, j, video, job);
  }

  lemma ClaimedRows(db: Db, j: Id, now: Time)
    requires now != 0 && j in db.jobs && db.jobs[j].Sound(now) && Waits(db.jobs[j]) && db.jobs[j].availableAt <= now
    requires db.jobs[j].videoId in db.videos && Paired(db.videos[db.jobs[j].videoId], db.jobs[j])
    requires db.videos[db.jobs[j].videoId].processing != Ready ==> db.videos[db.jobs[j].videoId].publish == Private
    ensures var r, v := ClaimJob(db, j, now), db.jobs[j].videoId;
            r == if db.videos[v].deletedAt.Some? then Success(db.(jobs := db.jobs[j := CalledOff(db.jobs[j], now)]))
                 else Success(db.(videos := db.videos[v := ClaimedVideo(db, j, now)],
                                  jobs := db.jobs[j := Begun(db.jobs[j], now)]))
  {
    var v := db.jobs[j].videoId;
    assert db.videos[v := db.videos[v]] == db.videos;
  }

  // The first attempt moves the video on.
  function ClaimedVideo(db: Db, j: Id, now: Time): Video
    requires j in db.jobs && db.jobs[j].videoId in db.videos
  {
    var row := db.videos[db.jobs[j].videoId];
    if db.jobs[j].status == V.JobQueued then row.(processing := Processing, updatedAt := now) else row
  }

  /** The source is recorded once; metadata that is not valid is refused. */
  lemma SourceOutcome(db: Db, j: Id, attempt: int, meta: SourceMeta, now: Time)
    requires BeingProcessed(db, j, attempt, now)
    ensures var v := db.jobs[j].videoId;
            var r := RecordSourceValidation(db, v, meta, now);
            if v in db.sources then r == Success(db)
            else if !meta.valid then r == Failure(VideoSourceInvalid)
            else && r.Success? && BeingProcessed(r.value, j, attempt, now)
                 && r.value == db.(videos := r.value.videos, sources := r.value.sources)
                 && PairChanges(db, r.value, j, db.videos[v].(updatedAt := now), db.jobs[j])
                 && Written(db.sources, r.value.sources, v)
  {
    hide DbOk, PairChanges;
    AttemptFacts(db, j, attempt, now);
    var v := db.jobs[j].videoId;
    if v !in db.sources && meta.valid {
      RecordSourceKeeps(db, v, meta, now, now);
      PairSet(db, RecordSourceValidation(db, v, meta, now).value, j, db.videos[v].(updatedAt := now), db.jobs[j]);
    }
  }

  // The video is ready, and public if its owner is active; its output names the two objects.
  ghost predicate Completed(db: Db, db': Db, j: Id, videoKey: Key, thumbnailKey: Key, now: Time)
    requires j in db.jobs && db.jobs[j].videoId in db.videos && db.videos[db.jobs[j].videoId].userId in db.users
  {
    var v := db.jobs[j].videoId;
    && PairChanges(db, db', j, ReadyVideo(db, v, now), Succeeded(db.jobs[j], now))
    && Written(db.outputs, db'.outputs, v)
    && db'.outputs[v].videoKey == videoKey && db'.outputs[v].thumbnailKey == thumbnailKey
    && db'.sources == db.sources && db'.cleanups == db.cleanups && db'.nextId == db.nextId
  }

  function ReadyVideo(db: Db, v: Id, now: Time): Video
    requires v in db.videos && db.videos[v].userId in db.users
  {
    db.videos[v].(processing := Ready, updatedAt := now,
                  publish := if db.users[db.videos[v].userId].status == Active then Published else Private)
  }

  /** A completion is accepted exactly for a recorded source and a valid output. */
  lemma CompletionOutcome(db: Db, j: Id, attempt: int, meta: OutputMeta, now: Time)
    requires BeingProcessed(db, j, attempt, now)
    ensures db.videos[db.jobs[j].videoId].userId in db.users
    ensures var v := db.jobs[j].videoId;
            var r := CompleteProcessing(db, j, meta, now);
            if v !in db.sources then r == Failure(SourceMetaMissing)
            else if !meta.valid || meta.videoKey == 0 || meta.thumbnailKey == 0 || meta.videoKey == meta.thumbnailKey
            then r == Failure(VideoOutputInvalid)
            else r.Success? && Completed(db, r.value, j, meta.videoKey, meta.thumbnailKey, now)
  {
    hide DbOk, PairChanges;
    AttemptFacts(db, j, attempt, now);
    var r, v := CompleteProcessing(db, j, meta, now), db.jobs[j].videoId;
    if r.Success? { PairSet(db, r.value, j, ReadyVideo(db, v, now), Succeeded(db.jobs[j], now)); }
  }

  /** A completion that comes after the deletion of its video: both objects are to be removed. */
  lemma LateCompletionOutcome(db: Db, j: Id, meta: OutputMeta, clock: Time, now: Time)
    requires DbOk(db, clock) && clock <= now && j in db.jobs && !Living(db, db.jobs[j].videoId)
    requires CompleteProcessing(db, j, meta, now).Success?
    ensures var r := CompleteProcessing(db, j, meta, now);
            && db.jobs[j].videoId in db.videos
            && PairChanges(db, r.value, j, db.videos[db.jobs[j].videoId],
                           if db.jobs[j].finishedAt.Some? then db.jobs[j] else CalledOff(db.jobs[j], now))
            && r.value.outputs == db.outputs && r.value.sources == db.sources
            && Requested(db.cleanups, r.value.cleanups, {meta.videoKey, meta.thumbnailKey} - {0},
                         Some(db.jobs[j].videoId), C.Rollback, now)
  {
    hide Requested, InsertOutputCleanups, DbOk, FreshRows, PairChanges;
    JobFacts(db, clock, j);
    FreshKeys(db, clock);
    var job := db.jobs[j];
    var db1 := db.SaveJob(j, if job.finishedAt.Some? then job else CalledOff(job, now));
    SameRows(db, db1);
    InsertOutputsRequest(db1, job.videoId, meta.videoKey, meta.thumbnailKey, C.Rollback, now);
    var db' := CompleteProcessing(db, j, meta, now).value;
    assert db.videos[job.videoId := db.videos[job.videoId]] == db.videos && db'.jobs == db1.jobs;
    PairSet(db, db', j, db.videos[job.videoId], db1.jobs[j]);
  }

  // An attempt that is not repeated: the video fails with its job, and what was generated is to be removed.
  ghost predicate Failed(db: Db, db': Db, j: Id, why: V.JobError, keys: set<Key>, now: Time)
    requires j in db.jobs && db.jobs[j].videoId in db.videos
  {
    var v := db.jobs[j].videoId;
    && PairChanges(db, db', j, db.videos[v].(processing := ProcessingFailed, publish := Private, updatedAt := now),
                   GivenUp(db.jobs[j], why, now))
    && db'.sources == db.sources && db'.outputs == db.outputs
    && Requested(db.cleanups, db'.cleanups, keys, Some(v), C.ProcessFailed, now)
  }

  lemma FailureOutcome(db: Db, j: Id, attempt: int, why: V.JobError, videoKey: Key, now: Time)
    requires BeingProcessed(db, j, attempt, now) && why != V.NoError
    requires videoKey == 0 || forall c | c in db.cleanups :: db.cleanups[c].key != videoKey
    ensures var r := FailProcessing(db, j, why, videoKey, 0, now);
            r.Success? && Failed(db, r.value, j, why, {videoKey} - {0}, now)
  {
    hide Requested, InsertOutputCleanups, DbOk, FreshRows, PairChanges;
    AttemptFacts(db, j, attempt, now);
    var v := db.jobs[j].videoId;
    var db1 := FailAlive(db, j, why, now).value;
    SameRows(db, db1);
    InsertOutputsRequest(db1, v, videoKey, 0, C.ProcessFailed, now);
    NewKeyInserts(db1, v, videoKey, now);
    assert {videoKey, 0} - {0} == {videoKey} - {0};
    PairSet(db, FailProcessing(db, j, why, videoKey, 0, now).value, j,
            db.videos[v].(processing := ProcessingFailed, publish := Private, updatedAt := now), GivenUp(db.jobs[j], why, now));
  }

  lemma NewKeyInserts(db: Db, v: Id, videoKey: Key, now: Time)
    requires v != 0 && now != 0
    requires videoKey == 0 || forall c | c in db.cleanups :: db.cleanups[c].key != videoKey
    ensures InsertOutputCleanups(db, v, videoKey, 0, C.ProcessFailed, now).Success?
  {
  }

  /** A failed attempt is repeated exactly before the fourth. */
  lemma RetryOutcome(db: Db, j: Id, attempt: int, available: Time, why: V.JobError, now: Time)
    requires BeingProcessed(db, j, attempt, now) && why != V.NoError && now < available
    ensures var r := ScheduleRetry(db, j, available, why, now);
            if attempt == 4 then r == Failure(ProcessingJobConflict)
            else && r.Success? && r.value == db.(jobs := r.value.jobs) && OnlyRow(db.jobs, r.value.jobs, j)
                 && r.value.jobs[j] == ToRepeat(db.jobs[j], available, why, now)
  {
    hide DbOk, V.Job.Checks;
    AttemptFacts(db, j, attempt, now);
    InAttempt(db.jobs[j], now);
  }

  lemma InAttempt(job: Job, now: Time)
    requires job.Sound(now) && job.status == V.JobRunning
    ensures job.InAttempt() && job.maxAttempts == 4
  {
  }

  /** A failure that comes after the deletion of its video calls the job off, unless that is over. */
  lemma LateFailureOutcome(db: Db, j: Id, why: V.JobError, videoKey: Key, clock: Time, now: Time)
    requires DbOk(db, clock) && clock <= now && j in db.jobs && !Living(db, db.jobs[j].videoId)
    requires forall c | c in db.cleanups :: db.cleanups[c].key != videoKey
    ensures var r := FailProcessing(db, j, why, videoKey, 0, now);
            && db.jobs[j].videoId in db.videos
            && if db.jobs[j].finishedAt.Some? then r == Failure(ProcessingJobConflict)
               else && r.Success? && PairChanges(db, r.value, j, db.videos[db.jobs[j].videoId], CalledOff(db.jobs[j], now))
                    && r.value.outputs == db.outputs && r.value.sources == db.sources
                    && Requested(db.cleanups, r.value.cleanups, {videoKey} - {0}, Some(db.jobs[j].videoId), C.ProcessFailed, now)
  {
    hide Requested, InsertOutputCleanups, DbOk, FreshRows, PairChanges;
    JobFacts(db, clock, j);
    VideoFacts(db, clock, db.jobs[j].videoId);
    FreshKeys(db, clock);
    var job := db.jobs[j];
    var db1 := db.SaveJob(j, CalledOff(job, now));
    SameRows(db, db1);
    InsertOutputsRequest(db1, job.videoId, videoKey, 0, C.ProcessFailed, now);
    NewKeyInserts(db1, job.videoId, videoKey, now);
    assert {videoKey, 0} - {0} == {videoKey} - {0};
    if job.finishedAt.None? {
      var db' := FailProcessing(db, j, why, videoKey, 0, now).value;
      assert db.videos[job.videoId := db.videos[job.videoId]] == db.videos && db'.jobs == db1.jobs;
      PairSet(db, db', j, db.videos[job.videoId], CalledOff(job, now));
    }
  }

  /** The cancellation of a job that is over changes nothing. */
  lemma CancellationOutcome(db: Db, j: Id, clock: Time, now: Time)
    requires DbOk(db, clock) && clock <= now && j in db.jobs
    ensures var r := CancelJob(db, j, now);
            && r.Success? && r.value == db.(jobs := r.value.jobs) && OnlyRow(db.jobs, r.value.jobs, j)
            && r.value.jobs[j] == if db.jobs[j].finishedAt.Some? then db.jobs[j] else CalledOff(db.jobs[j], now)
  {
    hide DbOk;
    JobFacts(db, clock, j);
    FreshKeys(db, clock);
  }

  // ---------------------------------------------------------------- abandoned attempts

  /**
    How an abandoned attempt ends: with the job cancelled exactly if its video is deleted, with another attempt after
    the delay of this one exactly before the fourth, and with the failure of job and video exactly at the fourth.
   */
  predicate Ends(job: Job, video: Video, job': Job, video': Video, delays: seq<nat>, now: Time) {
    && 1 <= job.attempts <= 4 && |delays| == 3
    && if video.deletedAt.Some? then
         job' == CalledOff(job, now) && video' == video
       else if job.attempts < 4 then
         job' == ToRepeat(job, now + delays[job.attempts - 1], V.WorkerTimeout, now) && video' == video
       else
         && job' == GivenUp(job, V.WorkerTimeout, now)
         && video' == video.(processing := ProcessingFailed, publish := Private, updatedAt := now)
  }

  predicate TakenBack(db: Db, db': Db, j: Id, delays: seq<nat>, now: Time) {
    && j in db.jobs && j in db'.jobs && db.jobs[j].videoId in db.videos && db.jobs[j].videoId in db'.videos
    && Ends(db.jobs[j], db.videos[db.jobs[j].videoId], db'.jobs[j], db'.videos[db.jobs[j].videoId], delays, now)
  }

  /** The whole batch: each of its attempts ends in its own way, and nothing else changes. */
  ghost predicate AllTakenBack(db: Db, db': Db, rows: seq<Id>, delays: seq<nat>, now: Time) {
    && db' == db.(videos := db'.videos, jobs := db'.jobs)
    && db'.videos.Keys == db.videos.Keys && db'.jobs.Keys == db.jobs.Keys
    && (forall j | j in rows :: TakenBack(db, db', j, delays, now))
    && (forall j | j in db.jobs && j !in rows :: db'.jobs[j] == db.jobs[j])
    && (forall v | v in db.videos && (forall j | j in rows && j in db.jobs :: db.jobs[j].videoId != v) ::
          db'.videos[v] == db.videos[v])
  }

  lemma TakesBackOne(db: Db, j: Id, delays: seq<nat>, clock: Time, now: Time)
    requires DbOk(db, clock) && clock <= now && ValidDelays(delays) && j in db.jobs && RecoverJob(db, j, delays, now).Success?
    ensures AllTakenBack(db, RecoverJob(db, j, delays, now).value, [j], delays, now)
  {
    hide DbOk, AllTakenBack, RecoverJob;
    JobFacts(db, clock, j);
    VideoFacts(db, clock, db.jobs[j].videoId);
    FreshKeys(db, clock);
    RecoveredRows(db, j, delays, now);
    var v, db' := db.jobs[j].videoId, RecoverJob(db, j, delays, now).value;
    BatchOfOne(db, db', j, db'.videos[v], db'.jobs[j], delays, now);
  }

  // The two rows a recovery writes.
  lemma RecoveredRows(db: Db, j: Id, delays: seq<nat>, now: Time)
    requires now != 0 && ValidDelays(delays) && j in db.jobs && db.jobs[j].Sound(now) && db.jobs[j].videoId in db.videos
    requires RecoverJob(db, j, delays, now).Success?
    ensures var v, db' := db.jobs[j].videoId, RecoverJob(db, j, delays, now).value;
            && v in db'.videos && j in db'.jobs
            && Ends(db.jobs[j], db.videos[v], db'.jobs[j], db'.videos[v], delays, now)
            && db' == db.(videos := db.videos[v := db'.videos[v]], jobs := db.jobs[j := db'.jobs[j]])
  {
    var v := db.jobs[j].videoId;
    assert db.videos[v := db.videos[v]] == db.videos;
  }

  lemma BatchOfOne(db: Db, db': Db, j: Id, video: Video, job: Job, delays: seq<nat>, now: Time)
    requires j in db.jobs && db.jobs[j].videoId in db.videos
    requires Ends(db.jobs[j], db.videos[db.jobs[j].videoId], job, video, delays, now)
    requires db' == db.(videos := db.videos[db.jobs[j].videoId := video], jobs := db.jobs[j := job])
    ensures AllTakenBack(db, db', [j], delays, now)
  {
    hide Ends;
    assert j in [j];
  }

  // One more attempt, of a job whose row and video the batch has not touched.
  lemma TakesBackMore(db: Db, db1: Db, db2: Db, init: seq<Id>, last: Id, delays: seq<nat>, now: Time)
    requires JobsUnique(db.jobs) && last !in init && last in db.jobs
    requires AllTakenBack(db, db1, init, delays, now) && AllTakenBack(db1, db2, [last], delays, now)
    ensures AllTakenBack(db, db2, init + [last], delays, now)
  {
    hide TakenBack;
    forall j | j in init + [last]
      ensures TakenBack(db, db2, j, delays, now)
    {
      if j in init {
        EarlierStays(db, db1, db2, init, last, j, delays, now);
      } else {
        LastIsUntouched(db, db1, db2, init, last, delays, now);
      }
    }
    assert last in init + [last] && forall j | j in init :: j in init + [last];
    forall w | w in db.videos && forall j | j in init + [last] && j in db.jobs :: db.jobs[j].videoId != w
      ensures db2.videos[w] == db.videos[w]
    {
      assert forall j | j in [last] && j in db1.jobs :: db1.jobs[j].videoId != w;
    }
  }

  // An attempt the batch has already taken back.
  lemma EarlierStays(db: Db, db1: Db, db2: Db, init: seq<Id>, last: Id, j: Id, delays: seq<nat>, now: Time)
    requires JobsUnique(db.jobs) && last !in init && last in db.jobs && j in init
    requires AllTakenBack(db, db1, init, delays, now) && AllTakenBack(db1, db2, [last], delays, now)
    ensures TakenBack(db, db2, j, delays, now)
  {
    hide Ends;
    assert TakenBack(db, db1, j, delays, now);
    assert db.jobs[j].videoId != db.jobs[last].videoId;
    assert forall i | i in [last] && i in db1.jobs :: db1.jobs[i].videoId != db.jobs[j].videoId;
  }

  lemma LastIsUntouched(db: Db, db1: Db, db2: Db, init: seq<Id>, last: Id, delays: seq<nat>, now: Time)
    requires JobsUnique(db.jobs) && last !in init && last in db.jobs
    requires AllTakenBack(db, db1, init, delays, now) && AllTakenBack(db1, db2, [last], delays, now)
    ensures TakenBack(db, db2, last, delays, now)
  {
    hide Ends;
    assert last in [last] && TakenBack(db1, db2, last, delays, now);
    assert forall j | j in init && j in db.jobs :: db.jobs[j].videoId != db.jobs[last].videoId;
  }

  lemma {:induction false} TakesBackRows(db: Db, rows: seq<Id>, delays: seq<nat>, clock: Time, now: Time)
    requires DbOk(db, clock) && clock <= now && ValidDelays(delays)
    requires (forall i | 0 <= i < |rows| :: rows[i] in db.jobs) && (forall i, k | 0 <= i < k < |rows| :: rows[i] != rows[k])
    requires RecoverJobs(db, rows, delays, now).Success?
    ensures AllTakenBack(db, RecoverJobs(db, rows, delays, now).value, rows, delays, now)
  {
    hide DbOk, AllTakenBack, RecoverJob;
    if rows == [] {
      NothingTakenBack(db, delays, now);
    } else {
      var init, last := rows[..|rows| - 1], rows[|rows| - 1];
      var db1 := RecoverJobs(db, init, delays, now).value;
      TakesBackRows(db, init, delays, clock, now);
      RecoverJobsKeeps(db, init, delays, clock, now);
      TakesBackOne(db1, last, delays, now, now);
      OneJobEach(db, clock);
      TakesBackMore(db, db1, RecoverJobs(db, rows, delays, now).value, init, last, delays, now);
      assert rows == init + [last];
    }
  }

  lemma NothingTakenBack(db: Db, delays: seq<nat>, now: Time)
    ensures AllTakenBack(db, db, [], delays, now)
  {
  }

  lemma OneJobEach(db: Db, clock: Time)
    requires DbOk(db, clock)
    ensures JobsUnique(db.jobs)
  {
  }

  /** A committed recovery batch takes every selected attempt back in its own way. */
  lemma RecoveryOutcome(db: Db, rows: seq<Id>, before: Time, delays: seq<nat>, limit: int, clock: Time, now: Time)
    requires DbOk(db, clock) && clock <= now && SelectsTimedOut(db, rows, before)
    requires RecoverTimedOut(db, rows, before, delays, limit, now).Success?
    ensures AllTakenBack(db, RecoverTimedOut(db, rows, before, delays, limit, now).value, rows, delays, now)
  {
    hide DbOk, AllTakenBack;
    TakesBackRows(db, rows, delays, clock, now);
  }

  // How an abandoned attempt at a removal ends.
  predicate CleanupTakenBack(a: map<Id, Cleanup>, b: map<Id, Cleanup>, c: Id, delays: seq<nat>, now: Time) {
    && c in a && c in b && 1 <= a[c].attempts <= 4 && |delays| == 3
    && b[c] == if a[c].attempts < 4
               then a[c].(status := C.CleanupRetryWait, availableAt := now + delays[a[c].attempts - 1], finishedAt := None,
                          error := C.WorkerTimeout, updatedAt := now)
               else a[c].(status := C.CleanupFailed, finishedAt := Some(now), error := C.WorkerTimeout, updatedAt := now)
  }

  ghost predicate AllCleanupsTakenBack(db: Db, db': Db, rows: seq<Id>, delays: seq<nat>, now: Time) {
    && db' == db.(cleanups := db'.cleanups) && db'.cleanups.Keys == db.cleanups.Keys
    && (forall c | c in rows :: CleanupTakenBack(db.cleanups, db'.cleanups, c, delays, now))
    && (forall c | c in db.cleanups && c !in rows :: db'.cleanups[c] == db.cleanups[c])
  }

  lemma TakesBackOneCleanup(db: Db, c: Id, delays: seq<nat>, clock: Time, now: Time)
    requires DbOk(db, clock) && clock <= now && ValidDelays(delays)
    requires c in db.cleanups && RecoverCleanup(db, c, delays, now).Success?
    ensures AllCleanupsTakenBack(db, RecoverCleanup(db, c, delays, now).value, [c], delays, now)
  {
    hide DbOk;
    CleanupFacts(db, clock, c);
    FreshKeys(db, clock);
  }

  lemma TakesBackMoreCleanups(db: Db, db1: Db, db2: Db, init: seq<Id>, last: Id, delays: seq<nat>, now: Time)
    requires last !in init && last in db.cleanups
    requires AllCleanupsTakenBack(db, db1, init, delays, now) && AllCleanupsTakenBack(db1, db2, [last], delays, now)
    ensures AllCleanupsTakenBack(db, db2, init + [last], delays, now)
  {
    assert CleanupTakenBack(db1.cleanups, db2.cleanups, last, delays, now);
    assert CleanupTakenBack(db.cleanups, db2.cleanups, last, delays, now);
    forall c | c in init
      ensures CleanupTakenBack(db.cleanups, db2.cleanups, c, delays, now)
    {
      assert CleanupTakenBack(db.cleanups, db1.cleanups, c, delays, now);
    }
  }

  lemma {:induction false} TakesBackCleanupRows(db: Db, rows: seq<Id>, delays: seq<nat>, clock: Time, now: Time)
    requires DbOk(db, clock) && clock <= now && ValidDelays(delays)
    requires forall i | 0 <= i < |rows| :: rows[i] in db.cleanups
    requires forall i, k | 0 <= i < k < |rows| :: rows[i] != rows[k]
    requires RecoverCleanupRows(db, rows, delays, now).Success?
    ensures AllCleanupsTakenBack(db, RecoverCleanupRows(db, rows, delays, now).value, rows, delays, now)
  {
    hide DbOk, RecoverCleanup;
    if rows != [] {
      hide AllCleanupsTakenBack;
      var init, last := rows[..|rows| - 1], rows[|rows| - 1];
      var db1 := RecoverCleanupRows(db, init, delays, now).value;
      TakesBackCleanupRows(db, init, delays, clock, now);
      RecoverCleanupRowsKeeps(db, init, delays, clock, now);
      TakesBackOneCleanup(db1, last, delays, now, now);
      TakesBackMoreCleanups(db, db1, RecoverCleanupRows(db, rows, delays, now).value, init, last, delays, now);
      assert rows == init + [last];
    }
  }

  /** The same for cleanup jobs. */
  lemma CleanupRecoveryOutcome(db: Db, rows: seq<Id>, before: Time, delays: seq<nat>, limit: int, clock: Time, now: Time)
    requires DbOk(db, clock) && clock <= now && SelectsTimedOutCleanups(db, rows, before)
    requires RecoverCleanups(db, rows, before, delays, limit, now).Success?
    ensures AllCleanupsTakenBack(db, RecoverCleanups(db, rows, before, delays, limit, now).value, rows, delays, now)
  {
    hide DbOk, AllCleanupsTakenBack;
    TakesBackCleanupRows(db, rows, delays, clock, now);
  }

  // ---------------------------------------------------------------- expiry

  // What an expiry sweep leaves of the tables.
  ghost predicate AllExpired(db: Db, db': Db, rows: seq<Id>, now: Time) {
    && db' == db.(videos := db'.videos, cleanups := db'.cleanups, nextId := db'.nextId)
    && db'.videos.Keys == db.videos.Keys
    && (forall v | v in rows :: v in db.videos && db'.videos[v] == db.videos[v].(processing := Expired, updatedAt := now))
    && (forall v | v in db.videos && v !in rows :: db'.videos[v] == db.videos[v])
    && (forall c | c in db.cleanups :: c in db'.cleanups && db'.cleanups[c] == db.cleanups[c])
    && (forall c | c in db'.cleanups && c !in db.cleanups :: ForExpired(db, db'.cleanups[c], rows, now))
    && (forall v | v in rows :: OriginalRequested(db, db', v))
  }

  // The row asks for the removal of the original of one of the videos.
  ghost predicate ForExpired(db: Db, row: Cleanup, rows: seq<Id>, now: Time) {
    exists v :: v in rows && v in db.videos && IsRequest(row, {db.videos[v].originalKey}, Some(v), C.UploadExpiry, now)
  }

  ghost predicate OriginalRequested(db: Db, db': Db, v: Id)
  {
    v in db.videos && exists c :: c in db'.cleanups && c !in db.cleanups && db'.cleanups[c].key == db.videos[v].originalKey
  }

  lemma ExpiresOne(db: Db, v: Id, now: Time)
    requires FreshRows(db) && v in db.videos && db.videos[v].originalKey != 0 && ExpireUpload(db, v, now).Success?
    ensures AllExpired(db, ExpireUpload(db, v, now).value, [v], now) && FreshRows(ExpireUpload(db, v, now).value)
  {
    hide InsertCleanup, Requested, IsRequest;
    var db1 := db.SaveVideo(v, db.videos[v].ExpireUpload(now).value);
    var db2 := ExpireUpload(db, v, now).value;
    SameRows(db, db1);
    InsertRequests(db1, v, db.videos[v].originalKey, C.AssetOriginal, C.UploadExpiry, now);
    assert {db.videos[v].originalKey} - {0} == {db.videos[v].originalKey};
    RequestedForExpired(db, db2, v, now);
    hide FreshRows;
  }

  lemma RequestedForExpired(db: Db, db': Db, v: Id, now: Time)
    requires v in db.videos
    requires Requested(db.cleanups, db'.cleanups, {db.videos[v].originalKey}, Some(v), C.UploadExpiry, now)
    ensures forall c | c in db.cleanups :: c in db'.cleanups && db'.cleanups[c] == db.cleanups[c]
    ensures forall c | c in db'.cleanups && c !in db.cleanups :: ForExpired(db, db'.cleanups[c], [v], now)
    ensures OriginalRequested(db, db', v)
  {
    hide IsRequest;
    forall c | c in db'.cleanups && c !in db.cleanups
      ensures ForExpired(db, db'.cleanups[c], [v], now)
    {
      assert v in [v];
    }
  }

  lemma ExpiresMore(db: Db, db1: Db, db2: Db, init: seq<Id>, last: Id, now: Time)
    requires AllExpired(db, db1, init, now) && AllExpired(db1, db2, [last], now) && last !in init
    ensures AllExpired(db, db2, init + [last], now)
  {
    hide ForExpired, OriginalRequested;
    assert last in [last] && forall v | v in init :: v in init + [last];
    forall c | c in db2.cleanups && c !in db.cleanups
      ensures ForExpired(db, db2.cleanups[c], init + [last], now)
    {
      ForOneMore(db, db1, db2.cleanups[c], init, last, now);
    }
    forall v | v in init + [last]
      ensures OriginalRequested(db, db2, v)
    {
      StillRequested(db, db1, db2, v);
    }
  }

  lemma ForOneMore(db: Db, db1: Db, row: Cleanup, init: seq<Id>, last: Id, now: Time)
    requires last in db.videos && last in db1.videos && db1.videos[last] == db.videos[last]
    requires ForExpired(db, row, init, now) || ForExpired(db1, row, [last], now)
    ensures ForExpired(db, row, init + [last], now)
  {
    hide IsRequest;
    if ForExpired(db, row, init, now) {
      var v :| v in init && v in db.videos && IsRequest(row, {db.videos[v].originalKey}, Some(v), C.UploadExpiry, now);
      assert v in init + [last];
    } else {
      assert last in init + [last];
    }
  }

  lemma StillRequested(db: Db, db1: Db, db2: Db, v: Id)
    requires forall c | c in db.cleanups :: c in db1.cleanups
    requires forall c | c in db1.cleanups :: c in db2.cleanups && db2.cleanups[c] == db1.cleanups[c]
    requires OriginalRequested(db, db1, v)
             || (OriginalRequested(db1, db2, v) && v in db.videos && db1.videos[v].originalKey == db.videos[v].originalKey)
    ensures OriginalRequested(db, db2, v)
  {
    if OriginalRequested(db, db1, v) {
      var c :| c in db1.cleanups && c !in db.cleanups && db1.cleanups[c].key == db.videos[v].originalKey;
      assert c in db2.cleanups && db2.cleanups[c].key == db.videos[v].originalKey;
    }
  }

  lemma {:induction false} ExpiresRows(db: Db, rows: seq<Id>, clock: Time, now: Time)
    requires DbOk(db, clock) && clock <= now
    requires (forall i | 0 <= i < |rows| :: rows[i] in db.videos) && (forall i, k | 0 <= i < k < |rows| :: rows[i] != rows[k])
    requires ExpireRows(db, rows, now).Success?
    ensures AllExpired(db, ExpireRows(db, rows, now).value, rows, now)
  {
    hide DbOk, ExpireUpload, FreshRows, AllExpired;
    if rows == [] {
      NothingExpired(db, now);
    } else {
      var init, last := rows[..|rows| - 1], rows[|rows| - 1];
      var db1 := ExpireRows(db, init, now).value;
      ExpiresRows(db, init, clock, now);
      ExpireRowsKeeps(db, init, clock, now);
      FreshKeys(db1, now);
      VideoFacts(db1, now, last);
      ExpiresOne(db1, last, now);
      ExpiresMore(db, db1, ExpireRows(db, rows, now).value, init, last, now);
      assert rows == init + [last];
    }
  }

  lemma NothingExpired(db: Db, now: Time)
    ensures AllExpired(db, db, [], now)
  {
  }

  /** A committed sweep expires exactly the selected uploads and has each of their originals removed. */
  lemma ExpiryOutcome(db: Db, rows: seq<Id>, limit: int, clock: Time, now: Time)
    requires DbOk(db, clock) && clock <= now && SelectsExpired(db, rows, now)
    requires ExpireUploads(db, rows, limit, now).Success?
    ensures AllExpired(db, ExpireUploads(db, rows, limit, now).value, rows, now)
    ensures forall v | v in rows :: db.videos[v].processing == Uploading && db.videos[v].uploadExpiresAt <= now
  {
    hide DbOk, AllExpired;
    ExpiresRows(db, rows, clock, now);
  }
}
