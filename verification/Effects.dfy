/**
  What each transaction does beyond moving forward: the keys it condemns to cleanup, the output meta it commits,
  the uploads it accepts, and how far it may change what is published.
 */
module Effects {
  import opened Common
  import opened VideoEntity
  import V = VideoJobEntity
  import C = CleanupEntity
  import opened UserEntity
  import opened Database
  import opened Coherence
  import opened Transactions

  // ---------------------------------------------------------------- cleanup targets

  function NonBlank(keys: set<Key>): set<Key> {
    keys - {0}
  }

  /** The keys a committed transaction registers for deletion. */
  function Targets(db: Db, tx: Tx): set<Key> {
    match tx
    case Delete(_, v) =>
      if v !in db.videos then {}
      else {db.videos[v].originalKey}
           + if v in db.outputs then {db.outputs[v].videoKey, db.outputs[v].thumbnailKey} else {}
    case Expire(rows, _) => set i | 0 <= i < |rows| && rows[i] in db.videos :: db.videos[rows[i]].originalKey
    case Complete(j, output) =>
      if j in db.jobs && db.jobs[j].videoId in db.videos && db.videos[db.jobs[j].videoId].IsDeleted()
      then NonBlank({output.videoKey, output.thumbnailKey}) else {}
    case Fail(_, _, videoKey) => NonBlank({videoKey})
    case Register(_, key, _, _) => {key}
    case _ => {}
  }

  // The rows added to `a` to get `b` are for keys in `keys`, and all of `keys` have a row.
  ghost predicate Registers(a: map<Id, Cleanup>, b: map<Id, Cleanup>, keys: set<Key>) {
    && (forall c | c in a :: c in b && b[c].key == a[c].key)
    && (forall c | c in b && c !in a :: b[c].key in keys)
    && (forall k | k in keys :: KeyRegistered(b, k))
  }

  predicate KeyRegistered(cleanups: map<Id, Cleanup>, key: Key) {
    exists c :: c in cleanups && cleanups[c].key == key
  }

  lemma StillRegistered(a: map<Id, Cleanup>, b: map<Id, Cleanup>, keys: set<Key>, k: Key)
    requires Registers(a, b, keys) && KeyRegistered(a, k)
    ensures KeyRegistered(b, k)
  {
    var c :| c in a && a[c].key == k;
    assert c in b && b[c].key == k;
  }

  lemma RegistersTrans(a: map<Id, Cleanup>, b: map<Id, Cleanup>, c: map<Id, Cleanup>, ks: set<Key>, ls: set<Key>)
    requires Registers(a, b, ks) && Registers(b, c, ls)
    ensures Registers(a, c, ks + ls)
  {
    forall k | k in ks
      ensures KeyRegistered(c, k)
    {
      StillRegistered(b, c, ls, k);
    }
  }

  lemma RegistersOne(a: map<Id, Cleanup>, id: Id, row: Cleanup)
    requires id !in a
    ensures Registers(a, a[id := row], {row.key})
  {
    assert id in a[id := row] && a[id := row][id].key == row.key;
  }

  lemma InsertRegisters(db: Db, videoId: Id, key: Key, asset: C.AssetType, cause: C.CleanupCause, now: Time)
    requires DbOk(db, now)
    ensures var r := InsertCleanup(db, videoId, key, asset, cause, now);
            r.Success? ==> Registers(db.cleanups, r.value.cleanups, NonBlank({key}))
  {
    hide DbOk;
    NextIdFresh(db, now);
    var row := C.NewCleanup(Some(videoId), key, asset, cause, now);
    if row.Success? {
      RegistersOne(db.cleanups, db.nextId, row.value);
      assert NonBlank({key}) == {key};
    }
  }

  lemma InsertOutputRegisters(db: Db, videoId: Id, videoKey: Key, thumbnailKey: Key, cause: C.CleanupCause, now: Time)
    requires DbOk(db, now)
    ensures var r := InsertOutputCleanups(db, videoId, videoKey, thumbnailKey, cause, now);
            r.Success? ==> Registers(db.cleanups, r.value.cleanups, NonBlank({videoKey, thumbnailKey}))
  {
    hide DbOk, Registers;
    InsertRegisters(db, videoId, videoKey, C.AssetProcessed, cause, now);
    var r1 := InsertCleanup(db, videoId, videoKey, C.AssetProcessed, cause, now);
    if r1.Success? {
      InsertCleanupKeeps(db, videoId, videoKey, C.AssetProcessed, cause, now);
      InsertRegisters(r1.value, videoId, thumbnailKey, C.AssetThumbnail, cause, now);
      var r2 := InsertCleanup(r1.value, videoId, thumbnailKey, C.AssetThumbnail, cause, now);
      if r2.Success? {
        RegistersTrans(db.cleanups, r1.value.cleanups, r2.value.cleanups, NonBlank({videoKey}), NonBlank({thumbnailKey}));
        assert NonBlank({videoKey}) + NonBlank({thumbnailKey}) == NonBlank({videoKey, thumbnailKey});
      }
    }
  }

  lemma DeleteRegisters(db: Db, userId: Id, v: Id, clock: Time, now: Time)
    requires DbOk(db, clock) && clock <= now && DeleteByOwner(db, userId, v, now).Success?
    ensures Registers(db.cleanups, DeleteByOwner(db, userId, v, now).value.cleanups, Targets(db, Delete(userId, v)))
  {
    hide DbOk, Registers;
    var row := db.videos[v].DeleteByOwner(userId, now).value;
    var db1 := db.SaveVideo(v, row).(jobs := CancelWaitingJobs(db.jobs, v, now));
    DeleteKeepsJobs(db, v, row, clock, now);
    InsertRegisters(db1, v, row.originalKey, C.AssetOriginal, C.VideoDelete, now);
    InsertCleanupKeeps(db1, v, row.originalKey, C.AssetOriginal, C.VideoDelete, now);
    var db2 := InsertCleanup(db1, v, row.originalKey, C.AssetOriginal, C.VideoDelete, now).value;
    VideoFacts(db, clock, v);
    assert NonBlank({row.originalKey}) == {row.originalKey};
    if v in db.outputs {
      var output := db.outputs[v];
      InsertOutputRegisters(db2, v, output.videoKey, output.thumbnailKey, C.VideoDelete, now);
      var keys := {output.videoKey, output.thumbnailKey};
      assert NonBlank(keys) == keys;
      RegistersTrans(db.cleanups, db2.cleanups, DeleteByOwner(db, userId, v, now).value.cleanups, {row.originalKey}, keys);
    } else {
      assert {row.originalKey} + {} == {row.originalKey};
    }
  }

  lemma ExpireOneRegisters(db: Db, v: Id, clock: Time, now: Time)
    requires DbOk(db, clock) && clock <= now && v in db.videos
    ensures var r := ExpireUpload(db, v, now);
            r.Success? ==> Registers(db.cleanups, r.value.cleanups, {db.videos[v].originalKey})
  {
    hide DbOk, Registers;
    if ExpireUpload(db, v, now).Success? {
      var row := db.videos[v].ExpireUpload(now).value;
      VideoFacts(db, clock, v);
      ExpiredRowKeeps(db, v, clock, now);
      InsertRegisters(db.SaveVideo(v, row), v, row.originalKey, C.AssetOriginal, C.UploadExpiry, now);
      assert NonBlank({row.originalKey}) == {row.originalKey};
    }
  }

  lemma ExpireTargets(db: Db, rows: seq<Id>, limit: int)
    requires rows != [] && forall i | 0 <= i < |rows| :: rows[i] in db.videos
    ensures Targets(db, Expire(rows, limit))
            == Targets(db, Expire(rows[..|rows| - 1], limit)) + {db.videos[rows[|rows| - 1]].originalKey}
  {
    assert rows == rows[..|rows| - 1] + [rows[|rows| - 1]];
  }

  lemma {:induction false} ExpireRegisters(db: Db, rows: seq<Id>, limit: int, clock: Time, now: Time)
    requires DbOk(db, clock) && clock <= now && forall i | 0 <= i < |rows| :: rows[i] in db.videos
    ensures var r := ExpireRows(db, rows, now);
            r.Success? ==> Registers(db.cleanups, r.value.cleanups, Targets(db, Expire(rows, limit)))
  {
    hide DbOk;
    if rows != [] {
      hide Registers, Targets, ExpireUpload;
      var init, last := rows[..|rows| - 1], rows[|rows| - 1];
      ExpireRegisters(db, init, limit, clock, now);
      var before := ExpireRows(db, init, now);
      if ExpireRows(db, rows, now).Success? {
        ExpireRowsKeeps(db, init, clock, now);
        ExpireRowsLater(db, init, clock, now);
        ExpireOneRegisters(before.value, last, now, now);
        RegistersTrans(db.cleanups, before.value.cleanups, ExpireRows(db, rows, now).value.cleanups,
                       Targets(db, Expire(init, limit)), {db.videos[last].originalKey});
        ExpireTargets(db, rows, limit);
      }
    }
  }

  lemma CompleteRegisters(db: Db, j: Id, output: OutputMeta, clock: Time, now: Time)
    requires DbOk(db, clock) && clock <= now && CompleteProcessing(db, j, output, now).Success?
    ensures Registers(db.cleanups, CompleteProcessing(db, j, output, now).value.cleanups, Targets(db, Complete(j, output)))
  {
    hide DbOk, Registers, InsertOutputCleanups;
    JobFacts(db, clock, j);
    RegistersNone(db.cleanups, db.cleanups);
    var job := db.jobs[j];
    if db.videos[job.videoId].IsDeleted() {
      CancelOfDeletedKeeps(db, j, clock, now);
      ClockAdvances(db, clock, now);
      var cancelled := job.Cancel(now);
      var db1 := db.SaveJob(j, if cancelled.Success? then cancelled.value else job);
      assert cancelled.Failure? ==> db1 == db;
      InsertOutputRegisters(db1, job.videoId, output.videoKey, output.thumbnailKey, C.Rollback, now);
    }
  }

  lemma FailRegisters(db: Db, j: Id, why: V.JobError, videoKey: Key, clock: Time, now: Time)
    requires DbOk(db, clock) && clock <= now && FailProcessing(db, j, why, videoKey, 0, now).Success?
    ensures Registers(db.cleanups, FailProcessing(db, j, why, videoKey, 0, now).value.cleanups,
                      Targets(db, Fail(j, why, videoKey)))
  {
    hide DbOk, Registers;
    JobFacts(db, clock, j);
    var job := db.jobs[j];
    CancelOfDeletedKeepsIfDeleted(db, j, clock, now);
    FailAliveKeeps(db, j, why, clock, now);
    var db1 := if db.videos[job.videoId].IsDeleted() then db.SaveJob(j, job.Cancel(now).value)
               else FailAlive(db, j, why, now).value;
    InsertOutputRegisters(db1, job.videoId, videoKey, 0, C.ProcessFailed, now);
    assert NonBlank({videoKey, 0}) == NonBlank({videoKey});
  }

  lemma RegistersNone(a: map<Id, Cleanup>, b: map<Id, Cleanup>)
    requires a.Keys == b.Keys && forall c | c in a :: b[c].key == a[c].key
    ensures Registers(a, b, {})
  {
  }

  // A sweep leaves a video alone or takes it, unpublished, from one stage to another.
  predicate SweptVideo(a: Video, b: Video, from: ProcessingStatus, to: ProcessingStatus) {
    b == a || (a.Unpublished(from) && b.Unpublished(to) && b.userId == a.userId)
  }

  ghost predicate SweptVideos(a: map<Id, Video>, b: map<Id, Video>, from: ProcessingStatus, to: ProcessingStatus) {
    a.Keys == b.Keys && forall v | v in a :: SweptVideo(a[v], b[v], from, to)
  }

  lemma SweptTwice(a: map<Id, Video>, b: map<Id, Video>, c: map<Id, Video>, from: ProcessingStatus, to: ProcessingStatus)
    requires SweptVideos(a, b, from, to) && SweptVideos(b, c, from, to)
    ensures SweptVideos(a, c, from, to)
  {
  }

  lemma RecoverJobSpares(db: Db, j: Id, delays: seq<nat>, now: Time)
    requires j in db.jobs
    ensures var r := RecoverJob(db, j, delays, now);
            r.Success? ==> r.value == db.(videos := r.value.videos, jobs := r.value.jobs)
                           && SweptVideos(db.videos, r.value.videos, Processing, ProcessingFailed)
  {
  }

  lemma {:induction false} RecoverJobsSpares(db: Db, rows: seq<Id>, delays: seq<nat>, now: Time)
    requires forall i | 0 <= i < |rows| :: rows[i] in db.jobs
    ensures var r := RecoverJobs(db, rows, delays, now);
            r.Success? ==> r.value == db.(videos := r.value.videos, jobs := r.value.jobs)
                           && SweptVideos(db.videos, r.value.videos, Processing, ProcessingFailed)
  {
    if rows != [] {
      hide RecoverJob, SweptVideos;
      RecoverJobsSpares(db, rows[..|rows| - 1], delays, now);
      var before, r := RecoverJobs(db, rows[..|rows| - 1], delays, now), RecoverJobs(db, rows, delays, now);
      if r.Success? {
        RecoverJobSpares(before.value, rows[|rows| - 1], delays, now);
        SweptTwice(db.videos, before.value.videos, r.value.videos, Processing, ProcessingFailed);
      }
    }
  }

  lemma RecoverCleanupSpares(db: Db, c: Id, delays: seq<nat>, now: Time)
    requires c in db.cleanups
    ensures var r := RecoverCleanup(db, c, delays, now);
            r.Success? ==> r.value == db.(cleanups := r.value.cleanups)
                           && (forall d | d in db.cleanups :: r.value.cleanups[d].key == db.cleanups[d].key)
  {
  }

  lemma {:induction false} RecoverCleanupRowsSpares(db: Db, rows: seq<Id>, delays: seq<nat>, now: Time)
    requires forall i | 0 <= i < |rows| :: rows[i] in db.cleanups
    ensures var r := RecoverCleanupRows(db, rows, delays, now);
            r.Success? ==> r.value == db.(cleanups := r.value.cleanups)
                           && (forall c | c in db.cleanups :: r.value.cleanups[c].key == db.cleanups[c].key)
  {
    hide RecoverCleanup;
    if rows != [] {
      RecoverCleanupRowsSpares(db, rows[..|rows| - 1], delays, now);
      var before := RecoverCleanupRows(db, rows[..|rows| - 1], delays, now);
      if before.Success? { RecoverCleanupSpares(before.value, rows[|rows| - 1], delays, now); }
    }
  }

  lemma {:induction false} HideVideosSpares(db: Db, adminId: Id, rows: seq<Id>, reason: string, requestId: string, now: Time)
    requires forall i | 0 <= i < |rows| :: rows[i] in db.videos
    ensures var r := HideVideos(db, adminId, rows, reason, requestId, now);
            r.Success? ==> r.value == db.(videos := r.value.videos, audit := r.value.audit)
  {
    if rows != [] {
      HideVideosSpares(db, adminId, rows[..|rows| - 1], reason, requestId, now);
    }
  }

  lemma OwnerTxSpares(db: Db, tx: Tx, now: Time)
    requires tx.Create? || tx.FinishUpload? || tx.MakePrivate? || tx.Republish?
    ensures Perform(db, tx, now).Success? ==> Perform(db, tx, now).value.cleanups == db.cleanups
  {
  }

  lemma ProcessingTxSpares(db: Db, tx: Tx, now: Time)
    requires Selected(db, tx, now) && (tx.Claim? || tx.RecordSource? || tx.Retry? || tx.Cancel? || tx.Recover?)
    ensures Perform(db, tx, now).Success? ==> Perform(db, tx, now).value.cleanups == db.cleanups
  {
    hide Perform, SetPrivateByOwner, RepublishByOwner, HideVideo, RestoreVideo, ExpireUploads, RecoverCleanups;
    if tx.Recover? {
      SweepTx(db, tx, now);
      RecoverJobsSpares(db, tx.rows, tx.delays, now);
    } else if tx.RecordSource? {
      VideoRowTx(db, tx, now);
    } else {
      JobRowTx(db, tx, now);
    }
  }

  lemma AdminTxSpares(db: Db, tx: Tx, now: Time)
    requires Selected(db, tx, now) && tx.IsAdministrative()
    ensures Perform(db, tx, now).Success? ==>
              var db' := Perform(db, tx, now).value;
              db' == db.(users := db'.users, tokens := db'.tokens, videos := db'.videos, audit := db'.audit)
  {
    if tx.Suspend? && SuspendAccount(db, tx.adminId, tx.userId, tx.reason, tx.requestId, now).Success? {
      HideVideosSpares(SuspendAccount(db, tx.adminId, tx.userId, tx.reason, tx.requestId, now).value,
                       tx.adminId, tx.rows, tx.reason, tx.requestId, now);
    }
  }

  lemma CleanupTxSpares(db: Db, tx: Tx, now: Time)
    requires Selected(db, tx, now)
    requires tx.ClaimClean? || tx.SucceedClean? || tx.RetryClean? || tx.FailClean? || tx.RecoverClean?
    ensures Perform(db, tx, now).Success? ==>
              var db' := Perform(db, tx, now).value;
              db' == db.(cleanups := db'.cleanups) && Registers(db.cleanups, db'.cleanups, {})
  {
    hide Perform, Registers;
    if tx.RecoverClean? {
      SweepTx(db, tx, now);
      RecoverCleanupRowsSpares(db, tx.rows, tx.delays, now);
    } else {
      CleanupRowTx(db, tx, now);
    }
    if Perform(db, tx, now).Success? {
      RegistersNone(db.cleanups, Perform(db, tx, now).value.cleanups);
    }
  }

  lemma OtherRegisters(db: Db, tx: Tx, now: Time)
    requires Selected(db, tx, now) && Perform(db, tx, now).Success?
    requires !tx.Delete? && !tx.Expire? && !tx.Complete? && !tx.Fail? && !tx.Register?
    ensures Registers(db.cleanups, Perform(db, tx, now).value.cleanups, {})
  {
    hide Registers, Perform;
    RegistersNone(db.cleanups, db.cleanups);
    if tx.IsAdministrative() {
      AdminTxSpares(db, tx, now);
    } else if tx.Create? || tx.FinishUpload? || tx.MakePrivate? || tx.Republish? {
      OwnerTxSpares(db, tx, now);
    } else if tx.Claim? || tx.RecordSource? || tx.Retry? || tx.Cancel? || tx.Recover? {
      ProcessingTxSpares(db, tx, now);
    } else {
      CleanupTxSpares(db, tx, now);
    }
  }

  /** A transaction registers exactly its targets. */
  lemma PerformRegisters(db: Db, tx: Tx, clock: Time, now: Time)
    requires DbOk(db, clock) && clock <= now && Selected(db, tx, now) && Perform(db, tx, now).Success?
    ensures Registers(db.cleanups, Perform(db, tx, now).value.cleanups, Targets(db, tx))
  {
    hide DbOk, Registers, Perform, DeleteByOwner, CompleteProcessing, FailProcessing;
    if tx.Finishes() { FinishTx(db, tx, now); }
    if tx.Sweeps() { SweepTx(db, tx, now); }
    match tx {
      case Delete(u, v) => DeleteRegisters(db, u, v, clock, now);
      case Expire(rows, limit) => ExpireRegisters(db, rows, limit, clock, now);
      case Complete(j, output) => CompleteRegisters(db, j, output, clock, now);
      case Fail(j, why, videoKey) => FailRegisters(db, j, why, videoKey, clock, now);
      case Register(owner, key, asset, cause) => RegisterRegisters(db, owner, key, asset, cause, clock, now);
      case _ => OtherRegisters(db, tx, now);
    }
  }

  lemma RegisterRegisters(db: Db, owner: Option<Id>, key: Key, asset: C.AssetType, cause: C.CleanupCause, clock: Time,
                          now: Time)
    requires DbOk(db, clock) && clock <= now && Perform(db, Register(owner, key, asset, cause), now).Success?
    ensures Registers(db.cleanups, Perform(db, Register(owner, key, asset, cause), now).value.cleanups, {key})
  {
    hide DbOk;
    NextIdFresh(db, clock);
    var row := C.NewCleanup(owner, key, asset, cause, now).value;
    if db.HasUnfinishedCleanup(key) {
      var c :| c in db.cleanups && db.cleanups[c].key == key && db.cleanups[c].IsUnfinished();
      assert KeyRegistered(db.cleanups, key);
    } else {
      RegistersOne(db.cleanups, db.nextId, row);
    }
  }

  // ---------------------------------------------------------------- targets are out of use

  /** A sweep leaves every video whose original it registered expired. */
  lemma SweptOriginalsExpired(db: Db, rows: seq<Id>, limit: int, v: Id, clock: Time, now: Time)
    requires DbOk(db, clock) && clock <= now && forall i | 0 <= i < |rows| :: rows[i] in db.videos
    requires ExpireRows(db, rows, now).Success?
    requires v in db.videos && db.videos[v].originalKey in Targets(db, Expire(rows, limit))
    ensures ExpireRows(db, rows, now).value.videos[v].processing == Expired
  {
    hide DbOk;
    var i :| 0 <= i < |rows| && db.videos[rows[i]].originalKey == db.videos[v].originalKey;
    SameOriginal(db, clock, v, rows[i]);
    ExpiredInBatch(db, rows, i, clock, now);
  }

  lemma {:induction false} ExpiredInBatch(db: Db, rows: seq<Id>, i: nat, clock: Time, now: Time)
    requires DbOk(db, clock) && clock <= now
    requires i < |rows| && forall k | 0 <= k < |rows| :: rows[k] in db.videos
    requires ExpireRows(db, rows, now).Success?
    ensures ExpireRows(db, rows, now).value.videos[rows[i]].processing == Expired
    decreases |rows|
  {
    hide DbOk;
    var init, last := rows[..|rows| - 1], rows[|rows| - 1];
    var before := ExpireRows(db, init, now).value;
    ExpireRowsKeeps(db, init, clock, now);
    if i < |rows| - 1 {
      ExpiredInBatch(db, init, i, clock, now);
      ExpireUploadLater(before, last, now, now);
    }
  }

  // ---------------------------------------------------------------- outputs, uploads, new videos

  // An output meta is only ever added, by the completion of a running job of a living video.
  ghost predicate OutputsBy(db: Db, db': Db, tx: Tx, now: Time) {
    || db'.outputs == db.outputs
    || (&& tx.Complete? && CommitsOutput(db, tx) && tx.output.Validate()
        && db'.outputs == db.outputs[db.jobs[tx.jobId].videoId := tx.output.(createdAt := now)])
  }

  // The guards under which a completion adds an output meta.
  predicate CommitsOutput(db: Db, tx: Tx) {
    && tx.Complete? && tx.jobId in db.jobs && db.jobs[tx.jobId].status == V.JobRunning
    && db.jobs[tx.jobId].videoId in db.videos && db.videos[db.jobs[tx.jobId].videoId].Unpublished(Processing)
    && db.jobs[tx.jobId].videoId !in db.outputs
  }

  ghost predicate CreatesBy(db: Db, db': Db, tx: Tx) {
    forall v | v in db'.videos && v !in db.videos ::
      && tx.Create? && v == db.nextId && db'.videos[v].originalKey == tx.key
      && db'.videos[v].Unpublished(Uploading)
  }

  ghost predicate UploadsBy(db: Db, db': Db, tx: Tx) {
    forall v | v in db.videos && v in db'.videos && NeverUploaded(db.videos[v]) && !NeverUploaded(db'.videos[v]) ::
      tx.FinishUpload? && tx.videoId == v && db.videos[v].Unpublished(Uploading)
  }

  lemma ExpireUploadSpares(db: Db, v: Id, now: Time)
    requires v in db.videos
    ensures var r := ExpireUpload(db, v, now);
            r.Success? ==> r.value == db.(videos := r.value.videos, cleanups := r.value.cleanups, nextId := r.value.nextId)
                           && db.nextId <= r.value.nextId && SweptVideos(db.videos, r.value.videos, Uploading, Expired)
  {
  }

  lemma {:induction false} ExpireRowsSpares(db: Db, rows: seq<Id>, now: Time)
    requires forall i | 0 <= i < |rows| :: rows[i] in db.videos
    ensures var r := ExpireRows(db, rows, now);
            r.Success? ==> r.value == db.(videos := r.value.videos, cleanups := r.value.cleanups, nextId := r.value.nextId)
                           && db.nextId <= r.value.nextId && SweptVideos(db.videos, r.value.videos, Uploading, Expired)
  {
    if rows != [] {
      hide ExpireUpload, SweptVideos;
      ExpireRowsSpares(db, rows[..|rows| - 1], now);
      var before, r := ExpireRows(db, rows[..|rows| - 1], now), ExpireRows(db, rows, now);
      if r.Success? {
        ExpireUploadSpares(before.value, rows[|rows| - 1], now);
        SweptTwice(db.videos, before.value.videos, r.value.videos, Uploading, Expired);
      }
    }
  }

  ghost predicate Bounded(db: Db, db': Db, tx: Tx, now: Time) {
    OutputsBy(db, db', tx, now) && CreatesBy(db, db', tx) && UploadsBy(db, db', tx)
  }

  lemma InsertSpares(db: Db, videoId: Id, key: Key, asset: C.AssetType, cause: C.CleanupCause, now: Time)
    ensures var r := InsertCleanup(db, videoId, key, asset, cause, now);
            r.Success? ==> r.value == db.(cleanups := r.value.cleanups, nextId := r.value.nextId)
  {
  }

  lemma InsertOutputSpares(db: Db, videoId: Id, videoKey: Key, thumbnailKey: Key, cause: C.CleanupCause, now: Time)
    ensures var r := InsertOutputCleanups(db, videoId, videoKey, thumbnailKey, cause, now);
            r.Success? ==> r.value == db.(cleanups := r.value.cleanups, nextId := r.value.nextId)
  {
  }

  // At most the video `v` changes.
  ghost predicate OnlyVideo(a: map<Id, Video>, b: map<Id, Video>, v: Id) {
    v in a && a.Keys == b.Keys && forall w | w in a && w != v :: b[w] == a[w]
  }

  lemma DeleteSpares(db: Db, tx: Tx, now: Time)
    requires tx.Delete? && Perform(db, tx, now).Success?
    ensures var db' := Perform(db, tx, now).value;
            && db'.outputs == db.outputs && db'.users == db.users && db'.audit == db.audit
            && OnlyVideo(db.videos, db'.videos, tx.videoId) && !db.videos[tx.videoId].IsDeleted()
            && db'.videos[tx.videoId] == db.videos[tx.videoId].(deletedAt := Some(now), publish := Private, updatedAt := now)
  {
    hide Perform, CompleteProcessing, FailProcessing, DeleteByOwner, OnlyVideo;
    FinishTx(db, tx, now);
    DeletedRow(db, tx.userId, tx.videoId, now);
    var row := db.videos[tx.videoId].(deletedAt := Some(now), publish := Private, updatedAt := now);
    RowSaved(db.videos, tx.videoId, row);
  }

  lemma RowSaved(videos: map<Id, Video>, v: Id, row: Video)
    requires v in videos
    ensures OnlyVideo(videos, videos[v := row], v) && videos[v := row][v] == row
  {
  }

  // What a deletion does to the tables other than jobs and cleanup jobs.
  lemma DeletedRow(db: Db, userId: Id, v: Id, now: Time)
    requires DeleteByOwner(db, userId, v, now).Success?
    ensures v in db.videos && !db.videos[v].IsDeleted()
    ensures var db' := DeleteByOwner(db, userId, v, now).value;
            var row := db.videos[v].(deletedAt := Some(now), publish := Private, updatedAt := now);
            db' == db.(videos := db.videos[v := row], jobs := db'.jobs, cleanups := db'.cleanups, nextId := db'.nextId)
  {
    hide InsertCleanup, InsertOutputCleanups;
    var row := db.videos[v].DeleteByOwner(userId, now).value;
    var db1 := db.SaveVideo(v, row).(jobs := CancelWaitingJobs(db.jobs, v, now));
    InsertSpares(db1, v, row.originalKey, C.AssetOriginal, C.VideoDelete, now);
    var db2 := InsertCleanup(db1, v, row.originalKey, C.AssetOriginal, C.VideoDelete, now).value;
    if v in db.outputs {
      InsertOutputSpares(db2, v, db.outputs[v].videoKey, db.outputs[v].thumbnailKey, C.VideoDelete, now);
    }
  }

  lemma FailSpares(db: Db, tx: Tx, now: Time)
    requires tx.Fail? && Perform(db, tx, now).Success?
    ensures tx.jobId in db.jobs && db.jobs[tx.jobId].videoId in db.videos
    ensures var db' := Perform(db, tx, now).value;
            var v := db.jobs[tx.jobId].videoId;
            && db'.outputs == db.outputs && db'.users == db.users && db'.audit == db.audit
            && OnlyVideo(db.videos, db'.videos, v)
            && (db'.videos[v] == db.videos[v]
                || (db.videos[v].Unpublished(Processing) && db'.videos[v].Unpublished(ProcessingFailed)))
  {
    var v := db.jobs[tx.jobId].videoId;
    var db1 := if db.videos[v].IsDeleted() then db.SaveJob(tx.jobId, db.jobs[tx.jobId].Cancel(now).value)
               else FailAlive(db, tx.jobId, tx.why, now).value;
    InsertOutputSpares(db1, v, tx.videoKey, 0, C.ProcessFailed, now);
  }

  lemma CompleteSpares(db: Db, tx: Tx, now: Time)
    requires tx.Complete? && Perform(db, tx, now).Success?
    ensures tx.jobId in db.jobs && db.jobs[tx.jobId].videoId in db.videos
    ensures var db' := Perform(db, tx, now).value;
            var v := db.jobs[tx.jobId].videoId;
            && OutputsBy(db, db', tx, now) && db'.users == db.users && db'.audit == db.audit
            && OnlyVideo(db.videos, db'.videos, v)
            && (if db.videos[v].IsDeleted() then db'.videos[v] == db.videos[v]
                else && db.videos[v].Unpublished(Processing) && db'.videos[v].processing == Ready
                     && !db'.videos[v].IsDeleted()
                     && db'.videos[v].publish == if db.OwnerActive(v) then Published else Private)
  {
    var v := db.jobs[tx.jobId].videoId;
    if db.videos[v].IsDeleted() {
      var job := db.jobs[tx.jobId];
      var cancelled := job.Cancel(now);
      InsertOutputSpares(db.SaveJob(tx.jobId, if cancelled.Success? then cancelled.value else job), v,
                         tx.output.videoKey, tx.output.thumbnailKey, C.Rollback, now);
    }
  }

  lemma OnlyVideoBounded(db: Db, db': Db, tx: Tx, v: Id, now: Time)
    requires OnlyVideo(db.videos, db'.videos, v) && OutputsBy(db, db', tx, now)
    requires NeverUploaded(db.videos[v]) ==> NeverUploaded(db'.videos[v])
    ensures Bounded(db, db', tx, now)
  {
  }

  lemma UploadTxBounded(db: Db, tx: Tx, now: Time)
    requires (tx.Create? || tx.FinishUpload?) && Perform(db, tx, now).Success?
    ensures Bounded(db, Perform(db, tx, now).value, tx, now)
  {
    hide Perform, CreateCleanup, JobExists, Db.HasJob;
    InsertTx(db, tx, now);
  }

  lemma OwnerTxBounded(db: Db, tx: Tx, now: Time)
    requires (tx.MakePrivate? || tx.Republish? || tx.RecordSource?) && Perform(db, tx, now).Success?
    ensures Bounded(db, Perform(db, tx, now).value, tx, now)
  {
    hide Perform, HideVideo, RestoreVideo;
    VideoRowTx(db, tx, now);
    OnlyVideoBounded(db, Perform(db, tx, now).value, tx, tx.videoId, now);
  }

  lemma ClaimBounded(db: Db, tx: Tx, now: Time)
    requires tx.Claim? && tx.jobId in db.jobs
    ensures ClaimJob(db, tx.jobId, now).Success? ==> Bounded(db, ClaimJob(db, tx.jobId, now).value, tx, now)
  {
  }

  lemma JobTxBounded(db: Db, tx: Tx, now: Time)
    requires Selected(db, tx, now) && Perform(db, tx, now).Success?
    requires tx.Claim? || tx.Retry? || tx.Cancel?
    ensures Bounded(db, Perform(db, tx, now).value, tx, now)
  {
    hide Perform, ClaimJob;
    JobRowTx(db, tx, now);
    if tx.Claim? { ClaimBounded(db, tx, now); }
  }

  lemma FinishingTxBounded(db: Db, tx: Tx, now: Time)
    requires (tx.Delete? || tx.Fail? || tx.Complete?) && Perform(db, tx, now).Success?
    ensures Bounded(db, Perform(db, tx, now).value, tx, now)
  {
    hide Perform, Bounded;
    var db' := Perform(db, tx, now).value;
    if tx.Delete? {
      DeleteSpares(db, tx, now);
      OnlyVideoBounded(db, db', tx, tx.videoId, now);
    } else if tx.Fail? {
      FailSpares(db, tx, now);
      OnlyVideoBounded(db, db', tx, db.jobs[tx.jobId].videoId, now);
    } else {
      CompleteSpares(db, tx, now);
      OnlyVideoBounded(db, db', tx, db.jobs[tx.jobId].videoId, now);
    }
  }

  lemma SweepTxBounded(db: Db, tx: Tx, now: Time)
    requires Selected(db, tx, now) && Perform(db, tx, now).Success? && (tx.Recover? || tx.Expire?)
    ensures Bounded(db, Perform(db, tx, now).value, tx, now)
  {
    if tx.Recover? {
      RecoverJobsSpares(db, tx.rows, tx.delays, now);
    } else {
      ExpireRowsSpares(db, tx.rows, now);
    }
  }

  lemma AdminTxBounded(db: Db, tx: Tx, now: Time)
    requires Selected(db, tx, now) && tx.IsAdministrative()
    ensures Perform(db, tx, now).Success? ==> Bounded(db, Perform(db, tx, now).value, tx, now)
  {
    AdminTxSpares(db, tx, now);
    AdminTxProcessing(db, tx, now);
  }

  // Administrators change publication, never processing.
  lemma AdminTxProcessing(db: Db, tx: Tx, now: Time)
    requires Selected(db, tx, now) && tx.IsAdministrative()
    ensures Perform(db, tx, now).Success? ==>
              var db' := Perform(db, tx, now).value;
              && db'.videos.Keys == db.videos.Keys
              && (forall v | v in db.videos :: db'.videos[v].processing == db.videos[v].processing
                                               && db'.videos[v].deletedAt == db.videos[v].deletedAt)
  {
    hide Perform, SetPrivateByOwner, RepublishByOwner, RecordSourceValidation;
    if tx.OnAccount() { AccountTx(db, tx, now); } else { VideoRowTx(db, tx, now); }
    if tx.Suspend? && SuspendAccount(db, tx.adminId, tx.userId, tx.reason, tx.requestId, now).Success? {
      HideVideosRows(SuspendAccount(db, tx.adminId, tx.userId, tx.reason, tx.requestId, now).value,
                     tx.adminId, tx.rows, tx.reason, tx.requestId, now);
    }
  }

  lemma HideAuditedRow(db: Db, adminId: Id, v: Id, action: AuditAction, reason: string, requestId: string, now: Time)
    requires v in db.videos
    ensures var r := HideAudited(db, adminId, v, action, reason, requestId, now);
            r.Success? ==> db.videos[v].CanBeViewedPublicly()
                           && r.value.videos == db.videos[v := db.videos[v].(publish := Hidden, updatedAt := now)]
  {
  }

  /** A suspension hides exactly its rows, each of which was publicly visible. */
  lemma {:induction false} HideVideosRows(db: Db, adminId: Id, rows: seq<Id>, reason: string, requestId: string, now: Time)
    requires forall i | 0 <= i < |rows| :: rows[i] in db.videos
    ensures var r := HideVideos(db, adminId, rows, reason, requestId, now);
            r.Success? ==> r.value.videos.Keys == db.videos.Keys
                           && (forall v | v in db.videos ::
                                 if v in rows then db.videos[v].CanBeViewedPublicly()
                                                   && r.value.videos[v] == db.videos[v].(publish := Hidden, updatedAt := now)
                                 else r.value.videos[v] == db.videos[v])
  {
    hide HideAudited;
    if rows != [] {
      var init, last := rows[..|rows| - 1], rows[|rows| - 1];
      HideVideosRows(db, adminId, init, reason, requestId, now);
      var before := HideVideos(db, adminId, init, reason, requestId, now);
      if before.Success? {
        HideAuditedRow(before.value, adminId, last, VideoHideByUserSuspension, reason, requestId, now);
      }
      assert rows == init + [last];
    }
  }

  /** What no transaction oversteps. */
  lemma PerformBounded(db: Db, tx: Tx, now: Time)
    requires Selected(db, tx, now) && Perform(db, tx, now).Success?
    ensures Bounded(db, Perform(db, tx, now).value, tx, now)
  {
    hide Bounded, Perform;
    if tx.IsAdministrative() {
      AdminTxBounded(db, tx, now);
    } else if tx.Create? || tx.FinishUpload? {
      UploadTxBounded(db, tx, now);
    } else if tx.MakePrivate? || tx.Republish? || tx.RecordSource? {
      OwnerTxBounded(db, tx, now);
    } else if tx.Delete? || tx.Fail? || tx.Complete? {
      FinishingTxBounded(db, tx, now);
    } else if tx.Register? {
      RegisterBounded(db, tx, now);
    } else if tx.ClaimClean? || tx.SucceedClean? || tx.RetryClean? || tx.FailClean? || tx.RecoverClean? {
      CleanupTxBounded(db, tx, now);
    } else if tx.Recover? || tx.Expire? {
      SweepTxBounded(db, tx, now);
    } else {
      JobTxBounded(db, tx, now);
    }
  }

  lemma RegisterBounded(db: Db, tx: Tx, now: Time)
    requires tx.Register? && Perform(db, tx, now).Success?
    ensures Bounded(db, Perform(db, tx, now).value, tx, now)
  {
  }

  lemma CleanupTxBounded(db: Db, tx: Tx, now: Time)
    requires Selected(db, tx, now) && Perform(db, tx, now).Success?
    requires tx.ClaimClean? || tx.SucceedClean? || tx.RetryClean? || tx.FailClean? || tx.RecoverClean?
    ensures Bounded(db, Perform(db, tx, now).value, tx, now)
  {
    hide Perform, Registers;
    CleanupTxSpares(db, tx, now);
  }
}
