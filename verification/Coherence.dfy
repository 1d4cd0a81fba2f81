/**
  The joint invariant of the tables, kept by every transaction of every actor: which job states go with
  which video states, which metas exist, the CHECK constraints and the unique indexes.
 */
module Coherence {
  import opened Common
  import opened VideoEntity
  import V = VideoJobEntity
  import C = CleanupEntity
  import opened UserEntity
  import opened Database

  // ---------------------------------------------------------------- the invariant

  /** The CHECK constraints of `videos`, and stamps no later than the clock. */
  predicate VideoSound(v: Video, clock: Time) {
    && v.originalKey != 0
    && 0 < v.createdAt <= v.updatedAt <= clock
    && v.createdAt < v.uploadExpiresAt
    && (v.deletedAt.Some? ==> v.createdAt <= v.deletedAt.value <= clock)
    && (v.processing != Ready ==> v.publish == Private)
    && (v.publish != Private ==> v.processing == Ready && !v.IsDeleted())
  }

  predicate NeverUploaded(v: Video) {
    v.processing == Uploading || v.processing == Expired
  }

  /** The job states that go with a video: a deleted video's job may still run or wait, but is never queued. */
  predicate Paired(v: Video, j: Job) {
    match v.processing
    case Uploading => false
    case Expired => false
    case Uploaded => j.status == if v.IsDeleted() then V.JobCancelled else V.JobQueued
    case Processing =>
      j.status == V.JobRunning || j.status == V.JobRetryWait || (v.IsDeleted() && j.status == V.JobCancelled)
    case Ready => j.status == V.JobSucceeded
    case ProcessingFailed => j.status == V.JobFailed
  }

  ghost predicate VideosOk(videos: map<Id, Video>, users: set<Id>, nextId: Id, clock: Time) {
    forall v | v in videos :: 0 < v < nextId && VideoSound(videos[v], clock) && videos[v].userId in users
  }

  // The unique index on original_object_key.
  ghost predicate OriginalsUnique(videos: map<Id, Video>) {
    forall v, w | v in videos && w in videos && v != w :: videos[v].originalKey != videos[w].originalKey
  }

  ghost predicate JobsSound(jobs: map<Id, Job>, nextId: Id, clock: Time) {
    forall j | j in jobs :: 0 < j < nextId && jobs[j].Sound(clock)
  }

  // The unique index on video_id.
  ghost predicate JobsUnique(jobs: map<Id, Job>) {
    forall i, j | i in jobs && j in jobs && i != j :: jobs[i].videoId != jobs[j].videoId
  }

  ghost predicate JobsPaired(jobs: map<Id, Job>, videos: map<Id, Video>) {
    forall j | j in jobs :: jobs[j].videoId in videos && Paired(videos[jobs[j].videoId], jobs[j])
  }

  ghost predicate JobsPresent(jobs: map<Id, Job>, videos: map<Id, Video>) {
    forall v | v in videos :: NeverUploaded(videos[v]) || JobExists(jobs, v)
  }

  ghost predicate MetasOk(videos: map<Id, Video>, outputs: map<Id, OutputMeta>, sources: map<Id, SourceMeta>) {
    && (forall v | v in outputs :: v in videos && videos[v].processing == Ready && outputs[v].Validate())
    && (forall v | v in videos && videos[v].processing == Ready :: v in outputs && v in sources)
    && (forall v | v in sources :: v in videos && !NeverUploaded(videos[v]) && videos[v].processing != Uploaded)
  }

  ghost predicate CleanupsSound(cleanups: map<Id, Cleanup>, nextId: Id, clock: Time) {
    forall c | c in cleanups :: 0 < c < nextId && cleanups[c].Sound(clock)
  }

  // The partial unique index on object_key.
  ghost predicate UnfinishedUnique(cleanups: map<Id, Cleanup>) {
    forall c, d | c in cleanups && d in cleanups && c != d && cleanups[c].IsUnfinished() && cleanups[d].IsUnfinished() ::
      cleanups[c].key != cleanups[d].key
  }

  ghost predicate DbOk(db: Db, clock: Time) {
    && 0 < clock && 0 < db.nextId
    && VideosOk(db.videos, db.users.Keys, db.nextId, clock)
    && OriginalsUnique(db.videos)
    && JobsSound(db.jobs, db.nextId, clock)
    && JobsUnique(db.jobs)
    && JobsPaired(db.jobs, db.videos)
    && JobsPresent(db.jobs, db.videos)
    && MetasOk(db.videos, db.outputs, db.sources)
    && CleanupsSound(db.cleanups, db.nextId, clock)
    && UnfinishedUnique(db.cleanups)
  }

  // ---------------------------------------------------------------- one table at a time

  lemma VideosAdvance(videos: map<Id, Video>, users: set<Id>, nextId: Id, clock: Time, nextId': Id, clock': Time)
    requires VideosOk(videos, users, nextId, clock) && nextId <= nextId' && clock <= clock'
    ensures VideosOk(videos, users, nextId', clock')
  {
  }

  lemma JobsAdvance(jobs: map<Id, Job>, nextId: Id, clock: Time, nextId': Id, clock': Time)
    requires JobsSound(jobs, nextId, clock) && nextId <= nextId' && clock <= clock'
    ensures JobsSound(jobs, nextId', clock')
  {
  }

  lemma CleanupsAdvance(cleanups: map<Id, Cleanup>, nextId: Id, clock: Time, nextId': Id, clock': Time)
    requires CleanupsSound(cleanups, nextId, clock) && nextId <= nextId' && clock <= clock'
    ensures CleanupsSound(cleanups, nextId', clock')
  {
  }

  // Time passes and identifiers are drawn; the tables stay.
  lemma Advance(db: Db, clock: Time, nextId': Id, clock': Time)
    requires DbOk(db, clock) && db.nextId <= nextId' && clock <= clock'
    ensures DbOk(db.(nextId := nextId'), clock')
  {
    VideosAdvance(db.videos, db.users.Keys, db.nextId, clock, nextId', clock');
    JobsAdvance(db.jobs, db.nextId, clock, nextId', clock');
    CleanupsAdvance(db.cleanups, db.nextId, clock, nextId', clock');
  }

  lemma ClockAdvances(db: Db, clock: Time, now: Time)
    requires DbOk(db, clock) && clock <= now
    ensures DbOk(db, now)
  {
    Advance(db, clock, db.nextId, now);
    assert db.(nextId := db.nextId) == db;
  }

  lemma VideoSaved(videos: map<Id, Video>, v: Id, row: Video, users: set<Id>, nextId: Id, clock: Time)
    requires VideosOk(videos, users, nextId, clock) && OriginalsUnique(videos) && v in videos
    requires VideoSound(row, clock) && row.userId == videos[v].userId && row.originalKey == videos[v].originalKey
    ensures VideosOk(videos[v := row], users, nextId, clock) && OriginalsUnique(videos[v := row])
  {
  }

  lemma JobSaved(jobs: map<Id, Job>, j: Id, row: Job, nextId: Id, clock: Time)
    requires JobsSound(jobs, nextId, clock) && JobsUnique(jobs) && j in jobs
    requires row.Sound(clock) && row.videoId == jobs[j].videoId
    ensures JobsSound(jobs[j := row], nextId, clock) && JobsUnique(jobs[j := row])
    ensures forall v | JobExists(jobs, v) :: JobExists(jobs[j := row], v)
  {
    forall v | JobExists(jobs, v)
      ensures JobExists(jobs[j := row], v)
    {
      var i :| i in jobs && jobs[i].videoId == v;
      assert i in jobs[j := row];
    }
  }

  lemma CleanupSaved(cleanups: map<Id, Cleanup>, c: Id, row: Cleanup, nextId: Id, clock: Time)
    requires CleanupsSound(cleanups, nextId, clock) && UnfinishedUnique(cleanups) && c in cleanups
    requires row.Sound(clock) && row.key == cleanups[c].key && cleanups[c].IsUnfinished()
    ensures CleanupsSound(cleanups[c := row], nextId, clock) && UnfinishedUnique(cleanups[c := row])
  {
  }

  lemma CleanupAdded(cleanups: map<Id, Cleanup>, row: Cleanup, nextId: Id, clock: Time)
    requires CleanupsSound(cleanups, nextId, clock) && UnfinishedUnique(cleanups)
    requires row.Sound(clock) && 0 < nextId
    requires forall c | c in cleanups && cleanups[c].IsUnfinished() :: cleanups[c].key != row.key
    ensures CleanupsSound(cleanups[nextId := row], nextId + 1, clock) && UnfinishedUnique(cleanups[nextId := row])
  {
  }

  // A video and its only job change together.
  lemma PairSaved(videos: map<Id, Video>, jobs: map<Id, Job>, video: Video, j: Id, row: Job)
    requires JobsUnique(jobs) && JobsPaired(jobs, videos) && JobsPresent(jobs, videos)
    requires j in jobs && row.videoId == jobs[j].videoId && Paired(video, row)
    requires forall v | JobExists(jobs, v) :: JobExists(jobs[j := row], v)
    ensures JobsPaired(jobs[j := row], videos[row.videoId := video])
    ensures JobsPresent(jobs[j := row], videos[row.videoId := video])
  {
  }

  // A video changes in ways its job and metas do not depend on.
  lemma VideoKept(videos: map<Id, Video>, jobs: map<Id, Job>, outputs: map<Id, OutputMeta>, sources: map<Id, SourceMeta>,
                  v: Id, row: Video)
    requires JobsPaired(jobs, videos) && JobsPresent(jobs, videos) && MetasOk(videos, outputs, sources)
    requires v in videos && row.processing == videos[v].processing && row.IsDeleted() == videos[v].IsDeleted()
    ensures JobsPaired(jobs, videos[v := row]) && JobsPresent(jobs, videos[v := row])
    ensures MetasOk(videos[v := row], outputs, sources)
  {
  }

  // A video moves on without becoming ready, so no output meta is due.
  lemma MetasMoved(videos: map<Id, Video>, outputs: map<Id, OutputMeta>, sources: map<Id, SourceMeta>, v: Id, row: Video)
    requires MetasOk(videos, outputs, sources) && v in videos && videos[v].processing != Ready && row.processing != Ready
    requires v in sources ==> !NeverUploaded(row) && row.processing != Uploaded
    ensures MetasOk(videos[v := row], outputs, sources)
  {
  }

  lemma OutputAdded(videos: map<Id, Video>, outputs: map<Id, OutputMeta>, sources: map<Id, SourceMeta>, v: Id, row: Video,
                    meta: OutputMeta)
    requires MetasOk(videos, outputs, sources) && v in videos && v in sources
    requires row.processing == Ready && meta.Validate()
    ensures MetasOk(videos[v := row], outputs[v := meta], sources)
  {
  }

  lemma SourceAdded(videos: map<Id, Video>, outputs: map<Id, OutputMeta>, sources: map<Id, SourceMeta>, v: Id,
                    meta: SourceMeta)
    requires MetasOk(videos, outputs, sources) && v in videos && videos[v].processing == Processing
    ensures MetasOk(videos, outputs, sources[v := meta])
  {
  }

  // What the invariant says about one video.
  lemma VideoFacts(db: Db, clock: Time, v: Id)
    requires DbOk(db, clock) && v in db.videos
    ensures 0 < v < db.nextId && VideoSound(db.videos[v], clock) && db.videos[v].userId in db.users
    ensures NeverUploaded(db.videos[v]) <==> !db.HasJob(v)
    ensures v in db.outputs <==> db.videos[v].processing == Ready
    ensures v in db.outputs ==> v in db.sources && db.outputs[v].Validate()
    ensures v in db.sources ==> !NeverUploaded(db.videos[v]) && db.videos[v].processing != Uploaded
  {
  }

  // What the invariant says about one job.
  lemma JobFacts(db: Db, clock: Time, j: Id)
    requires DbOk(db, clock) && j in db.jobs
    ensures 0 < j < db.nextId && db.jobs[j].Sound(clock)
    ensures db.jobs[j].videoId in db.videos && Paired(db.videos[db.jobs[j].videoId], db.jobs[j])
    ensures db.HasJob(db.jobs[j].videoId)
  {
  }

  // Original keys identify their videos.
  lemma SameOriginal(db: Db, clock: Time, v: Id, w: Id)
    requires DbOk(db, clock) && v in db.videos && w in db.videos
    requires db.videos[v].originalKey == db.videos[w].originalKey
    ensures v == w
  {
  }

  lemma NextIdFresh(db: Db, clock: Time)
    requires DbOk(db, clock)
    ensures db.nextId !in db.videos && db.nextId !in db.jobs && db.nextId !in db.cleanups
    ensures db.nextId !in db.outputs && db.nextId !in db.sources
  {
  }

  lemma CleanupFacts(db: Db, clock: Time, c: Id)
    requires DbOk(db, clock) && c in db.cleanups
    ensures 0 < c < db.nextId && db.cleanups[c].Sound(clock)
  {
  }

  // ---------------------------------------------------------------- generic steps

  // A video row changes in ways its job and metas do not depend on.
  lemma SaveVideoKeeps(db: Db, v: Id, row: Video, clock: Time, now: Time)
    requires DbOk(db, clock) && clock <= now && v in db.videos
    requires VideoSound(row, now) && row.userId == db.videos[v].userId && row.originalKey == db.videos[v].originalKey
    requires row.processing == db.videos[v].processing && row.IsDeleted() == db.videos[v].IsDeleted()
    ensures DbOk(db.SaveVideo(v, row), now)
  {
    hide VideosOk, OriginalsUnique, JobsSound, JobsUnique, JobsPaired;
    hide JobsPresent, MetasOk, CleanupsSound, UnfinishedUnique;
    ClockAdvances(db, clock, now);
    VideoSaved(db.videos, v, row, db.users.Keys, db.nextId, now);
    VideoKept(db.videos, db.jobs, db.outputs, db.sources, v, row);
  }

  lemma SaveJobKeeps(db: Db, j: Id, row: Job, clock: Time, now: Time)
    requires DbOk(db, clock) && clock <= now && j in db.jobs
    requires row.Sound(now) && row.videoId == db.jobs[j].videoId && Paired(db.videos[row.videoId], row)
    ensures DbOk(db.SaveJob(j, row), now)
  {
    hide VideosOk, OriginalsUnique, JobsSound, JobsUnique, JobsPaired;
    hide JobsPresent, MetasOk, CleanupsSound, UnfinishedUnique;
    ClockAdvances(db, clock, now);
    JobSaved(db.jobs, j, row, db.nextId, now);
    JobFacts(db, clock, j);
    PairSaved(db.videos, db.jobs, db.videos[row.videoId], j, row);
    assert db.videos[row.videoId := db.videos[row.videoId]] == db.videos;
  }

  lemma SavePairKeeps(db: Db, j: Id, video: Video, row: Job, clock: Time, now: Time)
    requires DbOk(db, clock) && clock <= now && j in db.jobs && row.videoId == db.jobs[j].videoId
    requires VideoSound(video, now)
    requires video.userId == db.videos[row.videoId].userId && video.originalKey == db.videos[row.videoId].originalKey
    requires row.Sound(now) && Paired(video, row)
    requires MetasOk(db.videos[row.videoId := video], db.outputs, db.sources)
    ensures DbOk(db.SaveVideo(row.videoId, video).SaveJob(j, row), now)
  {
    hide VideosOk, OriginalsUnique, JobsSound, JobsUnique, JobsPaired;
    hide JobsPresent, MetasOk, CleanupsSound, UnfinishedUnique;
    ClockAdvances(db, clock, now);
    JobFacts(db, clock, j);
    VideoSaved(db.videos, row.videoId, video, db.users.Keys, db.nextId, now);
    JobSaved(db.jobs, j, row, db.nextId, now);
    PairSaved(db.videos, db.jobs, video, j, row);
  }

  lemma SaveCleanupKeeps(db: Db, c: Id, row: Cleanup, clock: Time, now: Time)
    requires DbOk(db, clock) && clock <= now && c in db.cleanups
    requires row.Sound(now) && row.key == db.cleanups[c].key && db.cleanups[c].IsUnfinished()
    ensures DbOk(db.(cleanups := db.cleanups[c := row]), now)
  {
    hide VideosOk, OriginalsUnique, JobsSound, JobsUnique, JobsPaired;
    hide JobsPresent, MetasOk, CleanupsSound, UnfinishedUnique;
    ClockAdvances(db, clock, now);
    CleanupSaved(db.cleanups, c, row, db.nextId, now);
  }

  lemma AddCleanupKeeps(db: Db, row: Cleanup, clock: Time)
    requires DbOk(db, clock) && row.Sound(clock) && !db.HasUnfinishedCleanup(row.key)
    ensures DbOk(db.(cleanups := db.cleanups[db.nextId := row], nextId := db.nextId + 1), clock)
  {
    hide VideosOk, OriginalsUnique, JobsSound, JobsUnique, JobsPaired;
    hide JobsPresent, MetasOk, CleanupsSound, UnfinishedUnique;
    Advance(db, clock, db.nextId + 1, clock);
    CleanupAdded(db.cleanups, row, db.nextId, clock);
  }

  lemma InsertCleanupKeeps(db: Db, videoId: Id, key: Key, asset: C.AssetType, cause: C.CleanupCause, now: Time)
    requires DbOk(db, now)
    ensures InsertCleanup(db, videoId, key, asset, cause, now).Success?
            ==> DbOk(InsertCleanup(db, videoId, key, asset, cause, now).value, now)
  {
    hide VideosOk, OriginalsUnique, JobsSound, JobsUnique, JobsPaired;
    hide JobsPresent, MetasOk, CleanupsSound, UnfinishedUnique;
    if key != 0 && videoId != 0 && !db.HasUnfinishedCleanup(key) {
      AddCleanupKeeps(db, C.NewCleanup(Some(videoId), key, asset, cause, now).value, now);
    }
  }

  lemma InsertOutputCleanupsKeeps(db: Db, videoId: Id, videoKey: Key, thumbnailKey: Key, cause: C.CleanupCause, now: Time)
    requires DbOk(db, now)
    ensures InsertOutputCleanups(db, videoId, videoKey, thumbnailKey, cause, now).Success?
            ==> DbOk(InsertOutputCleanups(db, videoId, videoKey, thumbnailKey, cause, now).value, now)
  {
    hide VideosOk, OriginalsUnique, JobsSound, JobsUnique, JobsPaired;
    hide JobsPresent, MetasOk, CleanupsSound, UnfinishedUnique;
    InsertCleanupKeeps(db, videoId, videoKey, C.AssetProcessed, cause, now);
    var r := InsertCleanup(db, videoId, videoKey, C.AssetProcessed, cause, now);
    if r.Success? {
      InsertCleanupKeeps(r.value, videoId, thumbnailKey, C.AssetThumbnail, cause, now);
    }
  }

  // ---------------------------------------------------------------- the transactions

  lemma InsertVideoKeeps(db: Db, userId: Id, key: Key, expiresAt: Time, clock: Time, now: Time)
    requires DbOk(db, clock) && clock <= now
    requires InsertVideo(db, userId, key, expiresAt, now).Success?
    ensures DbOk(InsertVideo(db, userId, key, expiresAt, now).value, now)
  {
    hide VideosOk, OriginalsUnique, JobsSound, JobsUnique, JobsPaired;
    hide JobsPresent, MetasOk, CleanupsSound, UnfinishedUnique;
    Advance(db, clock, db.nextId + 1, now);
    var row := Video(userId, key, expiresAt, now, Uploading, Private, now, None);
    NextIdFresh(db, clock);
    VideoAdded(db.videos, row, db.users.Keys, db.nextId, now);
    AddedVideoKept(db.videos, db.jobs, db.outputs, db.sources, db.users.Keys, db.nextId, clock, row);
  }

  lemma VideoAdded(videos: map<Id, Video>, row: Video, users: set<Id>, nextId: Id, clock: Time)
    requires VideosOk(videos, users, nextId + 1, clock) && OriginalsUnique(videos) && 0 < nextId
    requires VideoSound(row, clock) && row.userId in users
    requires nextId !in videos && forall v | v in videos :: videos[v].originalKey != row.originalKey
    ensures VideosOk(videos[nextId := row], users, nextId + 1, clock) && OriginalsUnique(videos[nextId := row])
  {
  }

  lemma AddedVideoKept(videos: map<Id, Video>, jobs: map<Id, Job>, outputs: map<Id, OutputMeta>,
                       sources: map<Id, SourceMeta>, users: set<Id>, nextId: Id, clock: Time, row: Video)
    requires VideosOk(videos, users, nextId, clock)
    requires JobsPaired(jobs, videos) && JobsPresent(jobs, videos) && MetasOk(videos, outputs, sources)
    requires row.processing == Uploading
    ensures JobsPaired(jobs, videos[nextId := row]) && JobsPresent(jobs, videos[nextId := row])
    ensures MetasOk(videos[nextId := row], outputs, sources)
  {
  }

  lemma CompleteUploadKeeps(db: Db, userId: Id, videoId: Id, clock: Time, now: Time)
    requires DbOk(db, clock) && clock <= now
    requires CompleteUpload(db, userId, videoId, now).Success?
    ensures DbOk(CompleteUpload(db, userId, videoId, now).value, now)
  {
    hide VideosOk, OriginalsUnique, JobsSound, JobsUnique, JobsPaired;
    hide JobsPresent, MetasOk, CleanupsSound, UnfinishedUnique;
    if db.videos[videoId].processing == Uploading {
      VideoFacts(db, clock, videoId);
      JobAddedKeeps(db, videoId, db.videos[videoId].CompleteUpload(now).value, V.NewJob(videoId, now).value, clock, now);
    } else {
      ClockAdvances(db, clock, now);
    }
  }

  // The first job of a video whose upload is complete.
  lemma JobAddedKeeps(db: Db, v: Id, video: Video, row: Job, clock: Time, now: Time)
    requires DbOk(db, clock) && clock <= now && v in db.videos && NeverUploaded(db.videos[v])
    requires VideoSound(video, now) && video.userId == db.videos[v].userId
    requires video.originalKey == db.videos[v].originalKey && video.processing == Uploaded
    requires row.Sound(now) && row.videoId == v && Paired(video, row)
    ensures DbOk(db.SaveVideo(v, video).(jobs := db.jobs[db.nextId := row], nextId := db.nextId + 1), now)
  {
    hide VideosOk, OriginalsUnique, JobsSound, JobsUnique, JobsPaired;
    hide JobsPresent, MetasOk, CleanupsSound, UnfinishedUnique;
    Advance(db, clock, db.nextId + 1, now);
    VideoFacts(db, clock, v);
    VideoSaved(db.videos, v, video, db.users.Keys, db.nextId + 1, now);
    JobAdded(db.videos, db.jobs, video, row, db.nextId, clock, now);
    MetasMoved(db.videos, db.outputs, db.sources, v, video);
  }

  lemma JobAdded(videos: map<Id, Video>, jobs: map<Id, Job>, video: Video, row: Job, nextId: Id, clock: Time, now: Time)
    requires JobsSound(jobs, nextId, clock) && clock <= now && 0 < nextId
    requires JobsUnique(jobs) && JobsPaired(jobs, videos) && JobsPresent(jobs, videos)
    requires row.videoId in videos && NeverUploaded(videos[row.videoId]) && row.Sound(now) && Paired(video, row)
    ensures JobsSound(jobs[nextId := row], nextId + 1, now) && JobsUnique(jobs[nextId := row])
    ensures JobsPaired(jobs[nextId := row], videos[row.videoId := video])
    ensures JobsPresent(jobs[nextId := row], videos[row.videoId := video])
  {
    var jobs' := jobs[nextId := row];
    assert nextId in jobs' && jobs'[nextId].videoId == row.videoId;
    forall w | JobExists(jobs, w)
      ensures JobExists(jobs', w)
    {
      var i :| i in jobs && jobs[i].videoId == w;
      assert i in jobs' && jobs'[i].videoId == w;
    }
  }

  lemma DeleteKeepsJobs(db: Db, videoId: Id, row: Video, clock: Time, now: Time)
    requires DbOk(db, clock) && clock <= now && db.HasVideo(videoId)
    requires row == db.videos[videoId].(deletedAt := Some(now), publish := Private, updatedAt := now)
    ensures DbOk(db.SaveVideo(videoId, row).(jobs := CancelWaitingJobs(db.jobs, videoId, now)), now)
  {
    hide VideosOk, OriginalsUnique, JobsSound, JobsUnique, JobsPaired;
    hide JobsPresent, MetasOk, CleanupsSound, UnfinishedUnique;
    ClockAdvances(db, clock, now);
    VideoFacts(db, clock, videoId);
    VideoSaved(db.videos, videoId, row, db.users.Keys, db.nextId, now);
    WaitingJobsSound(db.jobs, videoId, db.nextId, clock, now);
    WaitingJobsPaired(db.videos, db.jobs, row, videoId, now);
    WaitingJobsPresent(db.videos, db.jobs, row, videoId, now);
    MetasKept(db.videos, db.outputs, db.sources, videoId, row);
  }

  lemma WaitingJobsSound(jobs: map<Id, Job>, v: Id, nextId: Id, clock: Time, now: Time)
    requires JobsSound(jobs, nextId, clock) && clock <= now && JobsUnique(jobs)
    ensures JobsSound(CancelWaitingJobs(jobs, v, now), nextId, now) && JobsUnique(CancelWaitingJobs(jobs, v, now))
  {
  }

  lemma WaitingJobsPaired(videos: map<Id, Video>, jobs: map<Id, Job>, row: Video, v: Id, now: Time)
    requires JobsPaired(jobs, videos) && JobsPresent(jobs, videos)
    requires v in videos && row.processing == videos[v].processing && row.IsDeleted()
    ensures JobsPaired(CancelWaitingJobs(jobs, v, now), videos[v := row])
  {
  }

  lemma WaitingJobsPresent(videos: map<Id, Video>, jobs: map<Id, Job>, row: Video, v: Id, now: Time)
    requires JobsPresent(jobs, videos)
    requires v in videos && row.processing == videos[v].processing && row.IsDeleted()
    ensures JobsPresent(CancelWaitingJobs(jobs, v, now), videos[v := row])
  {
    var jobs' := CancelWaitingJobs(jobs, v, now);
    forall w | JobExists(jobs, w)
      ensures JobExists(jobs', w)
    {
      var i :| i in jobs && jobs[i].videoId == w;
      assert i in jobs' && jobs'[i].videoId == w;
    }
  }

  lemma MetasKept(videos: map<Id, Video>, outputs: map<Id, OutputMeta>, sources: map<Id, SourceMeta>, v: Id, row: Video)
    requires MetasOk(videos, outputs, sources) && v in videos && row.processing == videos[v].processing
    ensures MetasOk(videos[v := row], outputs, sources)
  {
  }

  lemma DeleteKeeps(db: Db, userId: Id, videoId: Id, clock: Time, now: Time)
    requires DbOk(db, clock) && clock <= now
    requires DeleteByOwner(db, userId, videoId, now).Success?
    ensures DbOk(DeleteByOwner(db, userId, videoId, now).value, now)
  {
    hide VideosOk, OriginalsUnique, JobsSound, JobsUnique, JobsPaired;
    hide JobsPresent, MetasOk, CleanupsSound, UnfinishedUnique;
    var row := db.videos[videoId].DeleteByOwner(userId, now).value;
    DeleteKeepsJobs(db, videoId, row, clock, now);
    var db1 := db.SaveVideo(videoId, row).(jobs := CancelWaitingJobs(db.jobs, videoId, now));
    InsertCleanupKeeps(db1, videoId, row.originalKey, C.AssetOriginal, C.VideoDelete, now);
    var db2 := InsertCleanup(db1, videoId, row.originalKey, C.AssetOriginal, C.VideoDelete, now).value;
    if videoId in db.outputs {
      InsertOutputCleanupsKeeps(db2, videoId, db.outputs[videoId].videoKey, db.outputs[videoId].thumbnailKey,
                                C.VideoDelete, now);
    }
  }

  lemma UnuploadedSaved(videos: map<Id, Video>, jobs: map<Id, Job>, v: Id, row: Video)
    requires JobsPaired(jobs, videos) && JobsPresent(jobs, videos)
    requires v in videos && NeverUploaded(videos[v]) && NeverUploaded(row)
    ensures JobsPaired(jobs, videos[v := row]) && JobsPresent(jobs, videos[v := row])
  {
  }

  lemma ExpiredRowKeeps(db: Db, videoId: Id, clock: Time, now: Time)
    requires DbOk(db, clock) && clock <= now && videoId in db.videos && db.videos[videoId].ExpireUpload(now).Success?
    ensures DbOk(db.SaveVideo(videoId, db.videos[videoId].ExpireUpload(now).value), now)
  {
    hide VideosOk, OriginalsUnique, JobsSound, JobsUnique, JobsPaired;
    hide JobsPresent, MetasOk, CleanupsSound, UnfinishedUnique;
    var row := db.videos[videoId].ExpireUpload(now).value;
    ClockAdvances(db, clock, now);
    VideoFacts(db, clock, videoId);
    VideoSaved(db.videos, videoId, row, db.users.Keys, db.nextId, now);
    UnuploadedSaved(db.videos, db.jobs, videoId, row);
    MetasMoved(db.videos, db.outputs, db.sources, videoId, row);
  }

  lemma ExpireUploadKeeps(db: Db, videoId: Id, clock: Time, now: Time)
    requires DbOk(db, clock) && clock <= now && videoId in db.videos
    ensures ExpireUpload(db, videoId, now).Success? ==> DbOk(ExpireUpload(db, videoId, now).value, now)
  {
    hide VideosOk, OriginalsUnique, JobsSound, JobsUnique, JobsPaired;
    hide JobsPresent, MetasOk, CleanupsSound, UnfinishedUnique;
    var r := db.videos[videoId].ExpireUpload(now);
    if r.Success? {
      ExpiredRowKeeps(db, videoId, clock, now);
      InsertCleanupKeeps(db.SaveVideo(videoId, r.value), videoId, r.value.originalKey, C.AssetOriginal, C.UploadExpiry, now);
    }
  }

  lemma {:induction false} ExpireRowsKeeps(db: Db, rows: seq<Id>, clock: Time, now: Time)
    requires DbOk(db, clock) && clock <= now && forall i | 0 <= i < |rows| :: rows[i] in db.videos
    ensures ExpireRows(db, rows, now).Success? ==> DbOk(ExpireRows(db, rows, now).value, now)
  {
    hide VideosOk, OriginalsUnique, JobsSound, JobsUnique, JobsPaired;
    hide JobsPresent, MetasOk, CleanupsSound, UnfinishedUnique;
    if rows == [] {
      ClockAdvances(db, clock, now);
    } else {
      ExpireRowsKeeps(db, rows[..|rows| - 1], clock, now);
      var before := ExpireRows(db, rows[..|rows| - 1], now);
      if before.Success? {
        ExpireUploadKeeps(before.value, rows[|rows| - 1], now, now);
      }
    }
  }

  lemma RecordSourceKeeps(db: Db, videoId: Id, meta: SourceMeta, clock: Time, now: Time)
    requires DbOk(db, clock) && clock <= now
    requires RecordSourceValidation(db, videoId, meta, now).Success?
    ensures DbOk(RecordSourceValidation(db, videoId, meta, now).value, now)
  {
    hide VideosOk, OriginalsUnique, JobsSound, JobsUnique, JobsPaired;
    hide JobsPresent, MetasOk, CleanupsSound, UnfinishedUnique;
    ClockAdvances(db, clock, now);
    if videoId !in db.sources {
      var row := db.videos[videoId].(updatedAt := now);
      VideoFacts(db, clock, videoId);
      SaveVideoKeeps(db, videoId, row, clock, now);
      SourceAdded(db.videos[videoId := row], db.outputs, db.sources, videoId, meta.(createdAt := now));
    }
  }

  lemma CommitOutputKeeps(db: Db, jobId: Id, meta: OutputMeta, clock: Time, now: Time)
    requires DbOk(db, clock) && clock <= now && jobId in db.jobs
    requires db.jobs[jobId].videoId in db.videos
    requires CommitOutput(db, jobId, meta, now).Success?
    ensures DbOk(CommitOutput(db, jobId, meta, now).value, now)
  {
    hide VideosOk, OriginalsUnique, JobsSound, JobsUnique, JobsPaired;
    hide JobsPresent, MetasOk, CleanupsSound, UnfinishedUnique;
    var videoId := db.jobs[jobId].videoId;
    var video := db.videos[videoId].CompleteProcessing(meta, db.Source(videoId), None, db.OwnerActive(videoId), now).value;
    var row := db.jobs[jobId].MarkSucceeded(now).value;
    ClockAdvances(db, clock, now);
    JobFacts(db, clock, jobId);
    VideoFacts(db, clock, videoId);
    VideoSaved(db.videos, videoId, video, db.users.Keys, db.nextId, now);
    JobSaved(db.jobs, jobId, row, db.nextId, now);
    PairSaved(db.videos, db.jobs, video, jobId, row);
    OutputAdded(db.videos, db.outputs, db.sources, videoId, video, meta.(createdAt := now));
  }

  lemma CancelOfDeletedKeeps(db: Db, jobId: Id, clock: Time, now: Time)
    requires DbOk(db, clock) && clock <= now && jobId in db.jobs
    requires db.videos[db.jobs[jobId].videoId].IsDeleted()
    ensures db.jobs[jobId].Cancel(now).Success? ==> DbOk(db.SaveJob(jobId, db.jobs[jobId].Cancel(now).value), now)
  {
    hide VideosOk, OriginalsUnique, JobsSound, JobsUnique, JobsPaired;
    hide JobsPresent, MetasOk, CleanupsSound, UnfinishedUnique;
    var r := db.jobs[jobId].Cancel(now);
    if r.Success? {
      JobFacts(db, clock, jobId);
      SaveJobKeeps(db, jobId, r.value, clock, now);
    }
  }

  lemma CompleteProcessingKeeps(db: Db, jobId: Id, meta: OutputMeta, clock: Time, now: Time)
    requires DbOk(db, clock) && clock <= now
    requires CompleteProcessing(db, jobId, meta, now).Success?
    ensures DbOk(CompleteProcessing(db, jobId, meta, now).value, now)
  {
    hide VideosOk, OriginalsUnique, JobsSound, JobsUnique, JobsPaired;
    hide JobsPresent, MetasOk, CleanupsSound, UnfinishedUnique;
    JobFacts(db, clock, jobId);
    var job := db.jobs[jobId];
    if db.videos[job.videoId].IsDeleted() {
      CancelOfDeletedKeeps(db, jobId, clock, now);
      ClockAdvances(db, clock, now);
      var cancelled := job.Cancel(now);
      var db1 := db.SaveJob(jobId, if cancelled.Success? then cancelled.value else job);
      assert cancelled.Failure? ==> db1 == db;
      InsertOutputCleanupsKeeps(db1, job.videoId, meta.videoKey, meta.thumbnailKey, C.Rollback, now);
    } else {
      CommitOutputKeeps(db, jobId, meta, clock, now);
    }
  }

  lemma FailAliveKeeps(db: Db, jobId: Id, why: V.JobError, clock: Time, now: Time)
    requires DbOk(db, clock) && clock <= now && jobId in db.jobs
    ensures FailAlive(db, jobId, why, now).Success? ==> DbOk(FailAlive(db, jobId, why, now).value, now)
  {
    hide VideosOk, OriginalsUnique, JobsSound, JobsUnique, JobsPaired;
    hide JobsPresent, MetasOk, CleanupsSound, UnfinishedUnique;
    JobFacts(db, clock, jobId);
    if FailAlive(db, jobId, why, now).Success? {
      var videoId := db.jobs[jobId].videoId;
      JobFacts(db, clock, jobId);
      VideoFacts(db, clock, videoId);
      MetasMoved(db.videos, db.outputs, db.sources, videoId, db.videos[videoId].FailProcessing(now).value);
      SavePairKeeps(db, jobId, db.videos[db.jobs[jobId].videoId].FailProcessing(now).value,
                    db.jobs[jobId].MarkFailed(why, now).value, clock, now);
    }
  }

  lemma FailProcessingKeeps(db: Db, jobId: Id, why: V.JobError, videoKey: Key, thumbnailKey: Key, clock: Time, now: Time)
    requires DbOk(db, clock) && clock <= now
    requires FailProcessing(db, jobId, why, videoKey, thumbnailKey, now).Success?
    ensures DbOk(FailProcessing(db, jobId, why, videoKey, thumbnailKey, now).value, now)
  {
    hide VideosOk, OriginalsUnique, JobsSound, JobsUnique, JobsPaired;
    hide JobsPresent, MetasOk, CleanupsSound, UnfinishedUnique;
    JobFacts(db, clock, jobId);
    var videoId := db.jobs[jobId].videoId;
    CancelOfDeletedKeepsIfDeleted(db, jobId, clock, now);
    FailAliveKeeps(db, jobId, why, clock, now);
    var db1 := if db.videos[videoId].IsDeleted() then db.SaveJob(jobId, db.jobs[jobId].Cancel(now).value)
               else FailAlive(db, jobId, why, now).value;
    InsertOutputCleanupsKeeps(db1, videoId, videoKey, thumbnailKey, C.ProcessFailed, now);
  }

  lemma CancelOfDeletedKeepsIfDeleted(db: Db, jobId: Id, clock: Time, now: Time)
    requires DbOk(db, clock) && clock <= now && jobId in db.jobs
    ensures db.videos[db.jobs[jobId].videoId].IsDeleted() && db.jobs[jobId].Cancel(now).Success?
            ==> DbOk(db.SaveJob(jobId, db.jobs[jobId].Cancel(now).value), now)
  {
    if db.videos[db.jobs[jobId].videoId].IsDeleted() {
      CancelOfDeletedKeeps(db, jobId, clock, now);
    }
  }

  lemma ClaimJobKeeps(db: Db, jobId: Id, clock: Time, now: Time)
    requires DbOk(db, clock) && clock <= now && jobId in db.jobs
    requires ClaimJob(db, jobId, now).Success?
    ensures DbOk(ClaimJob(db, jobId, now).value, now)
  {
    hide VideosOk, OriginalsUnique, JobsSound, JobsUnique, JobsPaired;
    hide JobsPresent, MetasOk, CleanupsSound, UnfinishedUnique;
    JobFacts(db, clock, jobId);
    var job := db.jobs[jobId];
    CancelOfDeletedKeepsIfDeleted(db, jobId, clock, now);
    if db.videos[job.videoId].IsDeleted() {
    } else if job.status == V.JobQueued {
      var video := db.videos[job.videoId].StartProcessing(now).value;
      VideoFacts(db, clock, job.videoId);
      MetasMoved(db.videos, db.outputs, db.sources, job.videoId, video);
      SavePairKeeps(db, jobId, video, job.Claim(now).value, clock, now);
    } else {
      SaveJobKeeps(db, jobId, job.Claim(now).value, clock, now);
    }
  }

  lemma ScheduleRetryKeeps(db: Db, jobId: Id, available: Time, why: V.JobError, clock: Time, now: Time)
    requires DbOk(db, clock) && clock <= now
    requires ScheduleRetry(db, jobId, available, why, now).Success?
    ensures DbOk(ScheduleRetry(db, jobId, available, why, now).value, now)
  {
    hide VideosOk, OriginalsUnique, JobsSound, JobsUnique, JobsPaired;
    hide JobsPresent, MetasOk, CleanupsSound, UnfinishedUnique;
    JobFacts(db, clock, jobId);
    SaveJobKeeps(db, jobId, db.jobs[jobId].ScheduleRetry(available, why, now).value, clock, now);
  }

  lemma CancelJobKeeps(db: Db, jobId: Id, clock: Time, now: Time)
    requires DbOk(db, clock) && clock <= now
    requires jobId in db.jobs ==> db.videos[db.jobs[jobId].videoId].IsDeleted()
    requires CancelJob(db, jobId, now).Success?
    ensures DbOk(CancelJob(db, jobId, now).value, now)
  {
    if db.jobs[jobId].IsTerminal() {
      ClockAdvances(db, clock, now);
    } else {
      CancelOfDeletedKeeps(db, jobId, clock, now);
    }
  }

  lemma RecoverJobKeeps(db: Db, jobId: Id, delays: seq<nat>, clock: Time, now: Time)
    requires DbOk(db, clock) && clock <= now && jobId in db.jobs
    ensures RecoverJob(db, jobId, delays, now).Success? ==> DbOk(RecoverJob(db, jobId, delays, now).value, now)
  {
    hide VideosOk, OriginalsUnique, JobsSound, JobsUnique, JobsPaired;
    hide JobsPresent, MetasOk, CleanupsSound, UnfinishedUnique;
    JobFacts(db, clock, jobId);
    var job := db.jobs[jobId];
    if RecoverJob(db, jobId, delays, now).Success? {
      CancelOfDeletedKeepsIfDeleted(db, jobId, clock, now);
      FailAliveKeeps(db, jobId, V.WorkerTimeout, clock, now);
      if !db.videos[job.videoId].IsDeleted() && job.attempts < job.maxAttempts {
        SaveJobKeeps(db, jobId, job.ScheduleRetry(now + delays[job.attempts - 1], V.WorkerTimeout, now).value,
                     clock, now);
      }
    }
  }

  lemma {:induction false} RecoverJobsKeeps(db: Db, rows: seq<Id>, delays: seq<nat>, clock: Time, now: Time)
    requires DbOk(db, clock) && clock <= now && forall i | 0 <= i < |rows| :: rows[i] in db.jobs
    ensures RecoverJobs(db, rows, delays, now).Success? ==> DbOk(RecoverJobs(db, rows, delays, now).value, now)
  {
    hide VideosOk, OriginalsUnique, JobsSound, JobsUnique, JobsPaired;
    hide JobsPresent, MetasOk, CleanupsSound, UnfinishedUnique;
    if rows == [] {
      ClockAdvances(db, clock, now);
    } else {
      RecoverJobsKeeps(db, rows[..|rows| - 1], delays, clock, now);
      var before := RecoverJobs(db, rows[..|rows| - 1], delays, now);
      if before.Success? {
        RecoverJobKeeps(before.value, rows[|rows| - 1], delays, now, now);
      }
    }
  }

  lemma CreateCleanupKeeps(db: Db, row: Cleanup, clock: Time, now: Time)
    requires DbOk(db, clock) && clock <= now && row.Sound(now)
    ensures DbOk(CreateCleanup(db, row), now)
  {
    hide VideosOk, OriginalsUnique, JobsSound, JobsUnique, JobsPaired;
    hide JobsPresent, MetasOk, CleanupsSound, UnfinishedUnique;
    ClockAdvances(db, clock, now);
    if !db.HasUnfinishedCleanup(row.key) {
      AddCleanupKeeps(db, row, now);
    }
  }

  lemma CleanupTransitionKeeps(db: Db, c: Id, available: Time, why: C.CleanupError, clock: Time, now: Time)
    requires DbOk(db, clock) && clock <= now && c in db.cleanups
    ensures forall change | change in {db.cleanups[c].Claim(now), db.cleanups[c].ScheduleRetry(available, why, now),
                                       db.cleanups[c].MarkSucceeded(now), db.cleanups[c].MarkFailed(why, now)} ::
              SaveCleanup(db, c, change).Success? ==> DbOk(SaveCleanup(db, c, change).value, now)
  {
    hide VideosOk, OriginalsUnique, JobsSound, JobsUnique, JobsPaired;
    hide JobsPresent, MetasOk, CleanupsSound, UnfinishedUnique;
    forall change | change in {db.cleanups[c].Claim(now), db.cleanups[c].ScheduleRetry(available, why, now),
                               db.cleanups[c].MarkSucceeded(now), db.cleanups[c].MarkFailed(why, now)}
      ensures SaveCleanup(db, c, change).Success? ==> DbOk(SaveCleanup(db, c, change).value, now)
    {
      if change.Success? {
        CleanupFacts(db, clock, c);
        C.TransitionsAdvance(db.cleanups[c], available, why, clock, now);
        SaveCleanupKeeps(db, c, change.value, clock, now);
      }
    }
  }

  lemma {:induction false} RecoverCleanupRowsKeeps(db: Db, rows: seq<Id>, delays: seq<nat>, clock: Time, now: Time)
    requires DbOk(db, clock) && clock <= now && forall i | 0 <= i < |rows| :: rows[i] in db.cleanups
    ensures RecoverCleanupRows(db, rows, delays, now).Success?
            ==> DbOk(RecoverCleanupRows(db, rows, delays, now).value, now)
  {
    hide VideosOk, OriginalsUnique, JobsSound, JobsUnique, JobsPaired;
    hide JobsPresent, MetasOk, CleanupsSound, UnfinishedUnique;
    if rows == [] {
      ClockAdvances(db, clock, now);
    } else {
      RecoverCleanupRowsKeeps(db, rows[..|rows| - 1], delays, clock, now);
      var before := RecoverCleanupRows(db, rows[..|rows| - 1], delays, now);
      if before.Success? {
        var last := rows[|rows| - 1];
        var row := before.value.cleanups[last];
        var available := if 0 < row.attempts <= |delays| then now + delays[row.attempts - 1] else 0;
        CleanupTransitionKeeps(before.value, last, available, C.WorkerTimeout, now, now);
      }
    }
  }

  lemma HideAuditedKeeps(db: Db, adminId: Id, videoId: Id, action: AuditAction, reason: string, requestId: string,
                         clock: Time, now: Time)
    requires DbOk(db, clock) && clock <= now && videoId in db.videos
    ensures HideAudited(db, adminId, videoId, action, reason, requestId, now).Success?
            ==> DbOk(HideAudited(db, adminId, videoId, action, reason, requestId, now).value, now)
  {
    hide VideosOk, OriginalsUnique, JobsSound, JobsUnique, JobsPaired;
    hide JobsPresent, MetasOk, CleanupsSound, UnfinishedUnique;
    VideoFacts(db, clock, videoId);
    var r := HideAudited(db, adminId, videoId, action, reason, requestId, now);
    if r.Success? {
      var row := db.videos[videoId].HideByAdmin(now).value;
      SaveVideoKeeps(db, videoId, row, clock, now);
      SameTables(db.SaveVideo(videoId, row), r.value, now);
    }
  }

  // The invariant does not look at tokens or the audit log, and only at the identifiers of users.
  lemma SameTables(db: Db, db': Db, clock: Time)
    requires DbOk(db, clock)
    requires db' == db.(users := db'.users, tokens := db'.tokens, audit := db'.audit)
    requires db'.users.Keys == db.users.Keys
    ensures DbOk(db', clock)
  {
  }

  lemma {:induction false} HideVideosKeeps(db: Db, adminId: Id, rows: seq<Id>, reason: string, requestId: string,
                                           clock: Time, now: Time)
    requires DbOk(db, clock) && clock <= now && forall i | 0 <= i < |rows| :: rows[i] in db.videos
    ensures HideVideos(db, adminId, rows, reason, requestId, now).Success?
            ==> DbOk(HideVideos(db, adminId, rows, reason, requestId, now).value, now)
  {
    hide VideosOk, OriginalsUnique, JobsSound, JobsUnique, JobsPaired;
    hide JobsPresent, MetasOk, CleanupsSound, UnfinishedUnique;
    if rows == [] {
      ClockAdvances(db, clock, now);
    } else {
      HideVideosKeeps(db, adminId, rows[..|rows| - 1], reason, requestId, clock, now);
      var before := HideVideos(db, adminId, rows[..|rows| - 1], reason, requestId, now);
      if before.Success? {
        HideAuditedKeeps(before.value, adminId, rows[|rows| - 1], VideoHideByUserSuspension, reason, requestId, now, now);
      }
    }
  }
}
