/**
  The queues cannot wedge: in every reachable state a claim, a recovery batch and an expiry sweep commit, whatever
  rows they select, so no bad row ever aborts a batch. A deletion commits too, with one exact exception.
 */
module Queue {
  import opened Common
  import opened VideoEntity
  import V = VideoJobEntity
  import C = CleanupEntity
  import opened UserEntity
  import opened Database
  import opened Coherence
  import opened Transactions
  import opened Effects
  import opened Protocol
  import opened Safety
  import opened Publication
  import opened Runs
  import opened Accounting
  import opened Theorems

  // ---------------------------------------------------------------- claims

  // The claim commits; the job runs, or is cancelled because its video is deleted.
  predicate Claimed(r: Result<Db>, j: Id, deleted: bool) {
    r.Success? && j in r.value.jobs && r.value.jobs[j].status == if deleted then V.JobCancelled else V.JobRunning
  }

  /** A selected job is always claimed, or cancelled for a deleted video: the state conflicts never happen. */
  lemma ClaimsSucceed(db: Db, j: Id, clock: Time, now: Time)
    requires DbOk(db, clock) && clock <= now && j in db.jobs && Claimable(db.jobs[j], now)
    ensures db.jobs[j].videoId in db.videos
    ensures Claimed(ClaimJob(db, j, now), j, db.videos[db.jobs[j].videoId].IsDeleted())
  {
    JobFacts(db, clock, j);
    VideoFacts(db, clock, db.jobs[j].videoId);
    hide DbOk;
  }

  lemma CleanupClaimsSucceed(db: Db, c: Id, clock: Time, now: Time)
    requires DbOk(db, clock) && clock <= now && c in db.cleanups && CleanupClaimable(db.cleanups[c], now)
    ensures ClaimCleanup(db, c, now).Success?
  {
    hide DbOk;
    CleanupFacts(db, clock, c);
  }

  // ---------------------------------------------------------------- recovery batches

  // A running attempt of a video that is deleted or being processed can be taken back.
  predicate Recoverable(db: Db, j: Id) {
    && j in db.jobs && db.jobs[j].InAttempt() && db.jobs[j].attempts <= db.jobs[j].maxAttempts == V.MAX_ATTEMPTS
    && db.jobs[j].videoId in db.videos
    && (db.videos[db.jobs[j].videoId].IsDeleted() || db.videos[db.jobs[j].videoId].Unpublished(Processing))
  }

  lemma RunningIsRecoverable(db: Db, j: Id, clock: Time)
    requires DbOk(db, clock) && j in db.jobs && db.jobs[j].status == V.JobRunning
    ensures Recoverable(db, j) && 0 < clock
  {
    JobFacts(db, clock, j);
    VideoFacts(db, clock, db.jobs[j].videoId);
    hide DbOk;
  }

  // The attempt is over and no other job changed.
  predicate TakenBack(db: Db, r: Result<Db>, j: Id) {
    r.Success? && j in r.value.jobs && r.value.jobs == db.jobs[j := r.value.jobs[j]] && r.value.jobs[j].status != V.JobRunning
  }

  lemma RecoverableRecovers(db: Db, j: Id, delays: seq<nat>, now: Time)
    requires Recoverable(db, j) && ValidDelays(delays) && 0 < now
    ensures TakenBack(db, RecoverJob(db, j, delays, now), j)
  {
    var job := db.jobs[j];
    assert job.attempts <= 3 ==> now + delays[job.attempts - 1] > now;
  }

  lemma RecoverOneSucceeds(db: Db, j: Id, before: Time, delays: seq<nat>, clock: Time, now: Time)
    requires DbOk(db, clock) && clock <= now && ValidDelays(delays)
    requires j in db.jobs && TimedOut(db.jobs[j], before)
    ensures TakenBack(db, RecoverJob(db, j, delays, now), j)
  {
    hide RecoverJob, Recoverable, DbOk;
    RunningIsRecoverable(db, j, clock);
    RecoverableRecovers(db, j, delays, now);
  }

  lemma {:induction false} RecoverRowsSucceed(db: Db, rows: seq<Id>, before: Time, delays: seq<nat>, clock: Time, now: Time)
    requires DbOk(db, clock) && clock <= now && ValidDelays(delays) && SelectsTimedOut(db, rows, before)
    ensures var r := RecoverJobs(db, rows, delays, now);
            && r.Success?
            && (forall j | j in db.jobs && j !in rows :: r.value.jobs[j] == db.jobs[j])
            && (forall j | j in rows :: r.value.jobs[j].status != V.JobRunning)
  {
    hide DbOk, RecoverJob;
    if rows != [] {
      var init, last := rows[..|rows| - 1], rows[|rows| - 1];
      RecoverRowsSucceed(db, init, before, delays, clock, now);
      RecoverJobsKeeps(db, init, delays, clock, now);
      RecoverOneSucceeds(RecoverJobs(db, init, delays, now).value, last, before, delays, now, now);
      assert rows == init + [last];
    }
  }

  /** A recovery batch always commits, and every job it selected leaves its abandoned attempt. */
  lemma RecoverySucceeds(db: Db, rows: seq<Id>, before: Time, delays: seq<nat>, limit: int, clock: Time, now: Time)
    requires DbOk(db, clock) && clock <= now && SelectsTimedOut(db, rows, before)
    requires 0 < before < now && limit >= 1 && ValidDelays(delays)
    ensures var r := RecoverTimedOut(db, rows, before, delays, limit, now);
            r.Success? && forall j | j in rows :: r.value.jobs[j].status != V.JobRunning
  {
    hide DbOk;
    RecoverRowsSucceed(db, rows, before, delays, clock, now);
  }

  predicate CleanupTakenBack(db: Db, r: Result<Db>, c: Id) {
    && r.Success? && c in r.value.cleanups && r.value.cleanups == db.cleanups[c := r.value.cleanups[c]]
    && r.value.cleanups[c].status != C.CleanupRunning
  }

  lemma RecoverOneCleanupSucceeds(db: Db, c: Id, before: Time, delays: seq<nat>, clock: Time, now: Time)
    requires DbOk(db, clock) && clock <= now && ValidDelays(delays)
    requires c in db.cleanups && CleanupTimedOut(db.cleanups[c], before)
    ensures CleanupTakenBack(db, RecoverCleanup(db, c, delays, now), c)
  {
    hide DbOk;
    CleanupFacts(db, clock, c);
  }

  lemma {:induction false} RecoverCleanupRowsSucceed(db: Db, rows: seq<Id>, before: Time, delays: seq<nat>, clock: Time,
                                                     now: Time)
    requires DbOk(db, clock) && clock <= now && ValidDelays(delays) && SelectsTimedOutCleanups(db, rows, before)
    ensures var r := RecoverCleanupRows(db, rows, delays, now);
            && r.Success?
            && (forall c | c in db.cleanups && c !in rows :: r.value.cleanups[c] == db.cleanups[c])
            && (forall c | c in rows :: r.value.cleanups[c].status != C.CleanupRunning)
  {
    hide DbOk, RecoverCleanup;
    if rows != [] {
      var init, last := rows[..|rows| - 1], rows[|rows| - 1];
      RecoverCleanupRowsSucceed(db, init, before, delays, clock, now);
      RecoverCleanupRowsKeeps(db, init, delays, clock, now);
      RecoverOneCleanupSucceeds(RecoverCleanupRows(db, init, delays, now).value, last, before, delays, now, now);
      assert rows == init + [last];
    }
  }

  /** The same for cleanup jobs. */
  lemma CleanupRecoverySucceeds(db: Db, rows: seq<Id>, before: Time, delays: seq<nat>, limit: int, clock: Time, now: Time)
    requires DbOk(db, clock) && clock <= now && SelectsTimedOutCleanups(db, rows, before)
    requires 0 < before < now && limit >= 1 && ValidDelays(delays)
    ensures var r := RecoverCleanups(db, rows, before, delays, limit, now);
            r.Success? && forall c | c in rows :: r.value.cleanups[c].status != C.CleanupRunning
  {
    hide DbOk;
    RecoverCleanupRowsSucceed(db, rows, before, delays, clock, now);
  }

  // ---------------------------------------------------------------- expiry sweeps

  lemma UnregisteredInserts(db: Db, v: Id, key: Key, asset: C.AssetType, cause: C.CleanupCause, now: Time)
    requires v != 0 && key != 0 && now != 0
    ensures InsertCleanup(db, v, key, asset, cause, now).Success? <==> !db.HasUnfinishedCleanup(key)
    ensures InsertCleanup(db, v, key, asset, cause, now).Failure?
            ==> InsertCleanup(db, v, key, asset, cause, now).error == UniqueViolation
    ensures !KeyRegistered(db.cleanups, key) ==> !db.HasUnfinishedCleanup(key)
  {
  }

  lemma ExpireOneSucceeds(db: Db, v: Id, clock: Time, now: Time)
    requires DbOk(db, clock) && clock <= now && v in db.videos && AwaitsExpiry(db.videos[v], now)
    requires !KeyRegistered(db.cleanups, db.videos[v].originalKey)
    ensures ExpireUpload(db, v, now).Success?
    ensures ExpireUpload(db, v, now).value.videos == db.videos[v := ExpireUpload(db, v, now).value.videos[v]]
  {
    hide DbOk;
    VideoFacts(db, clock, v);
    var row := db.videos[v].ExpireUpload(now).value;
    UnregisteredInserts(db.SaveVideo(v, row), v, row.originalKey, C.AssetOriginal, C.UploadExpiry, now);
  }

  // The next row's original is not among the keys the rows before it registered.
  lemma NextStaysUnregistered(db: Db, b: map<Id, Cleanup>, init: seq<Id>, last: Id, limit: int, clock: Time)
    requires DbOk(db, clock) && last in db.videos && last !in init
    requires Registers(db.cleanups, b, Targets(db, Expire(init, limit)))
    requires !KeyRegistered(db.cleanups, db.videos[last].originalKey)
    ensures !KeyRegistered(b, db.videos[last].originalKey)
  {
    hide VideosOk, JobsSound, JobsUnique, JobsPaired, JobsPresent, MetasOk, CleanupsSound, UnfinishedUnique;
    forall c | c in b
      ensures b[c].key != db.videos[last].originalKey
    {
      assert c in db.cleanups || b[c].key in Targets(db, Expire(init, limit));
    }
  }

  lemma {:induction false} ExpireRowsSucceed(db: Db, rows: seq<Id>, clock: Time, now: Time)
    requires DbOk(db, clock) && clock <= now && SelectsExpired(db, rows, now)
    requires forall i | 0 <= i < |rows| :: !KeyRegistered(db.cleanups, db.videos[rows[i]].originalKey)
    ensures var r := ExpireRows(db, rows, now);
            r.Success? && forall v | v in db.videos && v !in rows :: r.value.videos[v] == db.videos[v]
  {
    hide DbOk, KeyRegistered, ExpireUpload, Targets, Registers;
    if rows != [] {
      var init, last := rows[..|rows| - 1], rows[|rows| - 1];
      ExpireRowsSucceed(db, init, clock, now);
      ExpireRowsKeeps(db, init, clock, now);
      ExpireRegisters(db, init, 1, clock, now);
      var before := ExpireRows(db, init, now).value;
      NextStaysUnregistered(db, before.cleanups, init, last, 1, clock);
      ExpireOneSucceeds(before, last, now, now);
      assert rows == init + [last];
    }
  }

  lemma UseUnregistered(cfg: Config, w: World, k: Key)
    requires Inv(cfg, w) && InUse(w.db, k)
    ensures !KeyRegistered(w.db.cleanups, k)
  {
    hide DbOk, HoldingsOk, WorkersOk, StoredOk, CleanersOk, ScansOk, Durable, InUse, Condemned;
    InUseNotCondemned(cfg, w, k);
  }

  /** An expiry sweep never trips over the unfinished-object index, whatever rows it selects. */
  lemma ExpirySucceeds(cfg: Config, w: World, rows: seq<Id>, limit: int)
    requires Inv(cfg, w) && SelectsExpired(w.db, rows, w.clock) && limit >= 1
    ensures ExpireUploads(w.db, rows, limit, w.clock).Success?
  {
    hide Inv, DbOk, KeyRegistered;
    InvDbOk(cfg, w);
    forall i | 0 <= i < |rows|
      ensures !KeyRegistered(w.db.cleanups, w.db.videos[rows[i]].originalKey)
    {
      assert w.db.HasVideo(rows[i]);
      UseUnregistered(cfg, w, w.db.videos[rows[i]].originalKey);
    }
    ExpireRowsSucceed(w.db, rows, w.clock, w.clock);
  }

  /** In every state of every run: claims, recoveries and sweeps commit. */
  lemma NothingWedges(cfg: Config, r: Run, i: nat, tx: Tx)
    requires IsRun(cfg, r) && i < |r.worlds| && Selected(r.worlds[i].db, tx, r.worlds[i].clock)
    requires tx.Claim? || tx.ClaimClean? || tx.Expire? || tx.Recover? || tx.RecoverClean?
    requires tx.Expire? ==> tx.limit >= 1
    requires tx.Recover? || tx.RecoverClean? ==> 0 < tx.before < r.worlds[i].clock && tx.limit >= 1 && ValidDelays(tx.delays)
    ensures Perform(r.worlds[i].db, tx, r.worlds[i].clock).Success?
  {
    hide IsRun, Inv, PublishedByActive, AuditOk, Accounted, LeakedOk, DbOk;
    hide ClaimJob, ClaimCleanup, ExpireUploads, RecoverTimedOut, RecoverCleanups;
    RunKeepsWorld(cfg, r, i);
    var db, now := r.worlds[i].db, r.worlds[i].clock;
    InvDbOk(cfg, r.worlds[i]);
    match tx {
      case Claim(j) => ClaimsSucceed(db, j, now, now);
      case ClaimClean(c) => CleanupClaimsSucceed(db, c, now, now);
      case Expire(rows, limit) => ExpirySucceeds(cfg, r.worlds[i], rows, limit);
      case Recover(rows, before, delays, limit) => RecoverySucceeds(db, rows, before, delays, limit, now, now);
      case RecoverClean(rows, before, delays, limit) => CleanupRecoverySucceeds(db, rows, before, delays, limit, now, now);
    }
  }

  // ---------------------------------------------------------------- deletion

  lemma OutputsInsert(db: Db, v: Id, videoKey: Key, thumbnailKey: Key, now: Time)
    requires v != 0 && now != 0 && videoKey != 0 && thumbnailKey != 0 && videoKey != thumbnailKey
    requires !db.HasUnfinishedCleanup(videoKey) && !db.HasUnfinishedCleanup(thumbnailKey)
    requires FreshRows(db)
    ensures InsertOutputCleanups(db, v, videoKey, thumbnailKey, C.VideoDelete, now).Success?
  {
  }

  // The row of the original does not stand in the way of the outputs.
  lemma OriginalInserted(db: Db, v: Id, original: Key, other: Key, now: Time)
    requires v != 0 && now != 0 && original != 0 && original != other && !KeyRegistered(db.cleanups, other)
    ensures var r := InsertCleanup(db, v, original, C.AssetOriginal, C.VideoDelete, now);
            r.Success? ==> !r.value.HasUnfinishedCleanup(other) && (FreshRows(db) ==> FreshRows(r.value))
  {
  }

  /**
    createCleanupJob tests for an index the migration has replaced, so a second unfinished row aborts a deletion.
    Exactly one family of videos is concerned: expired ones whose original still has an unfinished cleanup job.
   */
  lemma DeletionSucceedsIff(cfg: Config, w: World, userId: Id, v: Id)
    requires Inv(cfg, w) && w.db.HasVideo(v) && w.db.videos[v].IsOwnedBy(userId)
    ensures DeleteByOwner(w.db, userId, v, w.clock).Success?
            <==> !(w.db.videos[v].processing == Expired && w.db.HasUnfinishedCleanup(w.db.videos[v].originalKey))
    ensures DeleteByOwner(w.db, userId, v, w.clock).Failure?
            ==> DeleteByOwner(w.db, userId, v, w.clock).error == UniqueViolation
  {
    hide Inv, KeyRegistered, Db.HasUnfinishedCleanup, DbOk, InUse, InsertCleanup, InsertOutputCleanups;
    var db, now := w.db, w.clock;
    var original := db.videos[v].originalKey;
    InvDbOk(cfg, w);
    VideoFacts(db, now, v);
    FreshIds(db, now);
    var row := db.videos[v].DeleteByOwner(userId, now).value;
    var db1 := db.SaveVideo(v, row).(jobs := CancelWaitingJobs(db.jobs, v, now));
    UnregisteredInserts(db1, v, original, C.AssetOriginal, C.VideoDelete, now);
    SameUnfinished(db, db1, original);
    LivingKeysUnregistered(cfg, w, v);
    if v in db.outputs && !db.HasUnfinishedCleanup(original) {
      var output := db.outputs[v];
      OriginalInserted(db1, v, original, output.videoKey, now);
      OriginalInserted(db1, v, original, output.thumbnailKey, now);
      OutputsInsert(InsertCleanup(db1, v, original, C.AssetOriginal, C.VideoDelete, now).value, v, output.videoKey,
                    output.thumbnailKey, now);
    }
  }

  // No key of a living video has a cleanup row, but for the original of an expired one.
  lemma LivingKeysUnregistered(cfg: Config, w: World, v: Id)
    requires Inv(cfg, w) && w.db.HasVideo(v)
    ensures w.db.videos[v].processing != Expired ==>
              !KeyRegistered(w.db.cleanups, w.db.videos[v].originalKey)
              && !w.db.HasUnfinishedCleanup(w.db.videos[v].originalKey)
    ensures v in w.db.outputs ==>
              && !KeyRegistered(w.db.cleanups, w.db.outputs[v].videoKey)
              && !KeyRegistered(w.db.cleanups, w.db.outputs[v].thumbnailKey)
              && !w.db.outputs[v].Uses(w.db.videos[v].originalKey)
              && w.db.outputs[v].Validate() && w.db.videos[v].processing == Ready
  {
    hide Inv, KeyRegistered, DbOk;
    InvDbOk(cfg, w);
    InvHoldings(cfg, w);
    hide HoldingsOk;
    VideoFacts(w.db, w.clock, v);
    if w.db.videos[v].processing != Expired {
      UseUnregistered(cfg, w, w.db.videos[v].originalKey);
      UnregisteredInserts(w.db, 1, w.db.videos[v].originalKey, C.AssetOriginal, C.VideoDelete, 1);
    }
    if v in w.db.outputs {
      var output := w.db.outputs[v];
      assert output.Uses(output.videoKey) && output.Uses(output.thumbnailKey);
      UseUnregistered(cfg, w, output.videoKey);
      UseUnregistered(cfg, w, output.thumbnailKey);
    }
  }

  lemma SameUnfinished(a: Db, b: Db, k: Key)
    requires a.cleanups == b.cleanups
    ensures a.HasUnfinishedCleanup(k) == b.HasUnfinishedCleanup(k)
  {
  }

  lemma FreshIds(db: Db, clock: Time)
    requires DbOk(db, clock)
    ensures 0 < clock && FreshRows(db)
  {
  }

  /** The smallest such case: a video expires and its owner deletes it before the original has been cleaned up. */
  lemma ExpiredVideoCannotBeDeleted()
    ensures var user := User(RoleUser, Active, 0, 0);
            var db0 := Db(2, map[1 := user], map[], map[], map[], map[], map[], map[], []);
            var db1 := InsertVideo(db0, 1, 7, 10, 1);
            && db1.Success? && SelectsExpired(db1.value, [2], 10)
            && var db2 := ExpireUploads(db1.value, [2], 1, 10);
            && db2.Success? && DeleteByOwner(db2.value, 1, 2, 11) == Failure(UniqueViolation)
  {
    var user := User(RoleUser, Active, 0, 0);
    var db0 := Db(2, map[1 := user], map[], map[], map[], map[], map[], map[], []);
    var db1 := InsertVideo(db0, 1, 7, 10, 1).value;
    assert ExpireRows(db1, [], 10) == Success(db1);
    assert [2][..0] == [];
    var db2 := ExpireUpload(db1, 2, 10).value;
    assert db2.cleanups[3].key == 7 && db2.cleanups[3].IsUnfinished();
    assert db2.HasUnfinishedCleanup(7);
  }
}
