/**
  What is visible to the public, who may make it so, and the administrators' audit log: with atomic
  transactions a suspended user never owns a published video, only Restore undoes a hiding, and the log replays
  to the current state although the owners' own operations are never logged.
 */
module Publication {
  import opened Common
  import opened VideoEntity
  import opened UserEntity
  import opened Database
  import opened Coherence
  import opened Transactions
  import opened Effects

  predicate ActiveOwner(users: map<Id, User>, v: Video) {
    v.userId in users && users[v.userId].IsActive()
  }

  /** Every published video belongs to an active user. */
  ghost predicate PublishedByActive(db: Db) {
    forall v | v in db.videos && db.videos[v].publish == Published :: ActiveOwner(db.users, db.videos[v])
  }

  // ---------------------------------------------------------------- the audit log

  /** The status the log records last for a user; users start active. */
  function UserStatusIn(log: seq<AuditEntry>, u: Id): UserStatus {
    if log == [] then Active
    else
      var entry := log[|log| - 1];
      if entry.target == OnUser(u) && entry.after.OfUser? then entry.after.user else UserStatusIn(log[..|log| - 1], u)
  }

  /** Whether the log's last entry for a video says it is hidden. */
  predicate HiddenIn(log: seq<AuditEntry>, v: Id) {
    if log == [] then false
    else
      var entry := log[|log| - 1];
      if entry.target == OnVideo(v) then entry.after == OfVideo(Hidden) else HiddenIn(log[..|log| - 1], v)
  }

  // What the entries so far imply a further entry for a target must have as its before-status.
  function ExpectedBefore(log: seq<AuditEntry>, target: AuditTarget): AuditStatus {
    match target
    case OnUser(u) => OfUser(UserStatusIn(log, u))
    case OnVideo(v) => OfVideo(if HiddenIn(log, v) then Hidden else Published)
  }

  /** Each entry is a valid transition and starts where the previous entry for its target ended. */
  predicate Chained(log: seq<AuditEntry>) {
    log != [] ==>
      var entry := log[|log| - 1];
      && Chained(log[..|log| - 1])
      && IsValidAuditTransition(entry.target, entry.action, entry.before, entry.after)
      && entry.before == ExpectedBefore(log[..|log| - 1], entry.target)
  }

  ghost predicate AuditOk(db: Db) {
    && Chained(db.audit)
    && (forall u | u in db.users :: db.users[u].status == UserStatusIn(db.audit, u))
    && (forall v | v in db.videos && !db.videos[v].IsDeleted() ::
          db.videos[v].publish == Hidden <==> HiddenIn(db.audit, v))
    && (forall v | v !in db.videos :: !HiddenIn(db.audit, v))
  }

  lemma Appended(log: seq<AuditEntry>, entry: AuditEntry)
    ensures Chained(log + [entry]) <==>
              Chained(log) && IsValidAuditTransition(entry.target, entry.action, entry.before, entry.after)
              && entry.before == ExpectedBefore(log, entry.target)
    ensures forall u :: UserStatusIn(log + [entry], u)
                        == if entry.target == OnUser(u) && entry.after.OfUser? then entry.after.user else UserStatusIn(log, u)
    ensures forall v :: HiddenIn(log + [entry], v)
                        == if entry.target == OnVideo(v) then entry.after == OfVideo(Hidden) else HiddenIn(log, v)
  {
    assert (log + [entry])[..|log|] == log;
  }

  // ---------------------------------------------------------------- quiet transactions

  // How far anything but an administrator may change what a video shows.
  predicate QuietVideo(a: Video, b: Video, users: map<Id, User>) {
    && a.userId == b.userId
    && (a.IsDeleted() ==> b == a)
    && (b.publish == Hidden ==> a.publish == Hidden)
    && (a.publish == Hidden ==> b.publish == Hidden || b.IsDeleted())
    && (b.publish == Published ==> a.publish == Published || ActiveOwner(users, b))
  }

  /** Owners, workers and sweeps log nothing, hide nothing, publish only for active users, and only owners delete. */
  ghost predicate Quiet(db: Db, db': Db, tx: Tx) {
    && db'.users == db.users && db'.audit == db.audit
    && (forall v | v in db.videos :: v in db'.videos && QuietVideo(db.videos[v], db'.videos[v], db.users))
    && (forall v | v in db.videos && v in db'.videos && !db.videos[v].IsDeleted() && db'.videos[v].IsDeleted() ::
          tx.Delete? && tx.videoId == v)
    && (forall v | v in db'.videos && v !in db.videos :: v == db.nextId && db'.videos[v].publish == Private)
  }

  lemma OnlyVideoQuiet(db: Db, db': Db, tx: Tx, v: Id)
    requires OnlyVideo(db.videos, db'.videos, v) && db'.users == db.users && db'.audit == db.audit
    requires QuietVideo(db.videos[v], db'.videos[v], db.users)
    requires db'.videos[v].IsDeleted() ==> db.videos[v].IsDeleted() || (tx.Delete? && tx.videoId == v)
    ensures Quiet(db, db', tx)
  {
  }

  lemma CreateTxQuiet(db: Db, tx: Tx, now: Time)
    requires tx.Create? && Perform(db, tx, now).Success? && db.nextId !in db.videos
    ensures Quiet(db, Perform(db, tx, now).value, tx)
  {
  }

  lemma FinishUploadTxQuiet(db: Db, tx: Tx, now: Time)
    requires tx.FinishUpload? && Perform(db, tx, now).Success?
    ensures Quiet(db, Perform(db, tx, now).value, tx)
  {
    hide Perform, InsertVideo, CreateCleanup, Quiet, JobExists, Db.HasJob;
    InsertTx(db, tx, now);
    var db' := Perform(db, tx, now).value;
    assert db'.users == db.users && db'.audit == db.audit;
    if db.videos[tx.videoId].processing != Uploading {
      assert db' == db;
    }
    OnlyVideoQuiet(db, db', tx, tx.videoId);
  }

  lemma OwnerTxQuiet(db: Db, tx: Tx, now: Time)
    requires (tx.MakePrivate? || tx.Republish? || tx.RecordSource?) && Perform(db, tx, now).Success?
    ensures Quiet(db, Perform(db, tx, now).value, tx)
  {
    hide Perform, HideVideo, RestoreVideo, Quiet, OnlyVideo;
    VideoRowTx(db, tx, now);
    var db' := Perform(db, tx, now).value;
    RowSaved(db.videos, tx.videoId, db'.videos[tx.videoId]);
    OnlyVideoQuiet(db, db', tx, tx.videoId);
  }

  lemma ClaimTxQuiet(db: Db, tx: Tx, now: Time)
    requires tx.Claim? && Selected(db, tx, now) && Perform(db, tx, now).Success?
    ensures Quiet(db, Perform(db, tx, now).value, tx)
  {
    hide Perform, ScheduleRetry, CancelJob, Quiet, OnlyVideo;
    JobRowTx(db, tx, now);
    var db', v := Perform(db, tx, now).value, db.jobs[tx.jobId].videoId;
    RowSaved(db.videos, v, db'.videos[v]);
    OnlyVideoQuiet(db, db', tx, v);
  }

  lemma JobTxQuiet(db: Db, tx: Tx, now: Time)
    requires (tx.Retry? || tx.Cancel?) && Perform(db, tx, now).Success?
    ensures Quiet(db, Perform(db, tx, now).value, tx)
  {
  }

  lemma FinishingTxQuiet(db: Db, tx: Tx, now: Time)
    requires (tx.Delete? || tx.Fail? || tx.Complete?) && Perform(db, tx, now).Success?
    ensures Later(db, Perform(db, tx, now).value) ==> Quiet(db, Perform(db, tx, now).value, tx)
  {
    hide Perform, Quiet;
    var db' := Perform(db, tx, now).value;
    if Later(db, db') {
      if tx.Delete? {
        DeleteSpares(db, tx, now);
        OnlyVideoQuiet(db, db', tx, tx.videoId);
      } else if tx.Fail? {
        FailSpares(db, tx, now);
        OnlyVideoQuiet(db, db', tx, db.jobs[tx.jobId].videoId);
      } else {
        CompleteSpares(db, tx, now);
        OnlyVideoQuiet(db, db', tx, db.jobs[tx.jobId].videoId);
      }
    }
  }

  lemma SweepTxQuiet(db: Db, tx: Tx, now: Time)
    requires Selected(db, tx, now) && (tx.Recover? || tx.Expire?) && Perform(db, tx, now).Success?
    ensures Quiet(db, Perform(db, tx, now).value, tx)
  {
    if tx.Recover? {
      RecoverJobsSpares(db, tx.rows, tx.delays, now);
    } else {
      ExpireRowsSpares(db, tx.rows, now);
    }
  }

  lemma CleanupTxQuiet(db: Db, tx: Tx, now: Time)
    requires Selected(db, tx, now) && Perform(db, tx, now).Success?
    requires tx.ClaimClean? || tx.SucceedClean? || tx.RetryClean? || tx.FailClean? || tx.RecoverClean? || tx.Register?
    ensures Quiet(db, Perform(db, tx, now).value, tx)
  {
    if tx.Register? {
    } else {
      hide Perform, Registers;
      CleanupTxSpares(db, tx, now);
    }
  }

  lemma PerformQuiet(db: Db, tx: Tx, clock: Time, now: Time)
    requires DbOk(db, clock) && clock <= now && Selected(db, tx, now) && Perform(db, tx, now).Success?
    requires !tx.IsAdministrative()
    ensures Quiet(db, Perform(db, tx, now).value, tx)
  {
    hide DbOk, Perform, Quiet, Later;
    if tx.Create? {
      NextIdFresh(db, clock);
      CreateTxQuiet(db, tx, now);
    } else if tx.FinishUpload? {
      FinishUploadTxQuiet(db, tx, now);
    } else if tx.MakePrivate? || tx.Republish? || tx.RecordSource? {
      OwnerTxQuiet(db, tx, now);
    } else if tx.Delete? || tx.Fail? || tx.Complete? {
      PerformIsLater(db, tx, clock, now);
      FinishingTxQuiet(db, tx, now);
    } else if tx.Recover? || tx.Expire? {
      SweepTxQuiet(db, tx, now);
    } else if tx.Claim? {
      ClaimTxQuiet(db, tx, now);
    } else if tx.Retry? || tx.Cancel? {
      JobTxQuiet(db, tx, now);
    } else {
      CleanupTxQuiet(db, tx, now);
    }
  }

  lemma QuietKeeps(db: Db, db': Db, tx: Tx)
    requires Quiet(db, db', tx) && PublishedByActive(db) && AuditOk(db)
    ensures PublishedByActive(db') && AuditOk(db')
  {
  }

  // ---------------------------------------------------------------- administrators

  // One video is hidden or restored, with its audit entry.
  lemma VideoAuditKeeps(db: Db, db': Db, v: Id, entry: AuditEntry)
    requires AuditOk(db) && v in db.videos && !db.videos[v].IsDeleted()
    requires db'.users == db.users && db'.audit == db.audit + [entry]
    requires v in db'.videos && db'.videos == db.videos[v := db'.videos[v]] && !db'.videos[v].IsDeleted()
    requires entry.target == OnVideo(v) && entry.before == OfVideo(db.videos[v].publish)
    requires entry.after == OfVideo(db'.videos[v].publish)
    requires IsValidAuditTransition(entry.target, entry.action, entry.before, entry.after)
    ensures AuditOk(db')
  {
    Appended(db.audit, entry);
  }

  lemma HideAuditedKeeps(db: Db, adminId: Id, v: Id, action: AuditAction, reason: string, requestId: string, now: Time)
    requires v in db.videos && AuditOk(db)
    requires HideAudited(db, adminId, v, action, reason, requestId, now).Success?
    ensures AuditOk(HideAudited(db, adminId, v, action, reason, requestId, now).value)
  {
    hide AuditOk;
    var db' := HideAudited(db, adminId, v, action, reason, requestId, now).value;
    VideoAuditKeeps(db, db', v, db'.audit[|db.audit|]);
  }

  lemma {:induction false} HideVideosKeeps(db: Db, adminId: Id, rows: seq<Id>, reason: string, requestId: string, now: Time)
    requires (forall i | 0 <= i < |rows| :: rows[i] in db.videos) && AuditOk(db)
    requires HideVideos(db, adminId, rows, reason, requestId, now).Success?
    ensures AuditOk(HideVideos(db, adminId, rows, reason, requestId, now).value)
  {
    hide AuditOk;
    if rows != [] {
      HideVideosKeeps(db, adminId, rows[..|rows| - 1], reason, requestId, now);
      HideAuditedKeeps(HideVideos(db, adminId, rows[..|rows| - 1], reason, requestId, now).value, adminId,
                       rows[|rows| - 1], VideoHideByUserSuspension, reason, requestId, now);
    }
  }

  lemma AccountChangeKeeps(db: Db, db': Db, u: Id, user: User, entry: AuditEntry)
    requires AuditOk(db) && u in db.users
    requires db'.videos == db.videos && db'.users == db.users[u := user] && db'.audit == db.audit + [entry]
    requires entry.target == OnUser(u) && entry.before == OfUser(db.users[u].status) && entry.after == OfUser(user.status)
    requires IsValidAuditTransition(entry.target, entry.action, entry.before, entry.after)
    ensures AuditOk(db')
  {
    Appended(db.audit, entry);
  }

  // The account half of a suspension.
  lemma SuspendAccountKeeps(db: Db, adminId: Id, userId: Id, reason: string, requestId: string, now: Time)
    requires AuditOk(db) && SuspendAccount(db, adminId, userId, reason, requestId, now).Success?
    ensures var db1 := SuspendAccount(db, adminId, userId, reason, requestId, now).value;
            && AuditOk(db1) && userId in db1.users && !db1.users[userId].IsActive() && db1.videos == db.videos
            && (forall u | u in db.users && u != userId :: u in db1.users && db1.users[u] == db.users[u])
  {
    hide AuditOk;
    var db1 := SuspendAccount(db, adminId, userId, reason, requestId, now).value;
    AccountChangeKeeps(db, db1, userId, db1.users[userId], db1.audit[|db.audit|]);
  }

  // The video half: nothing the suspended user owns stays published.
  lemma HiddenRowsKeep(db: Db, users: map<Id, User>, videos: map<Id, Video>, u: Id, rows: seq<Id>, clock: Time)
    requires VideosOk(db.videos, db.users.Keys, db.nextId, clock) && PublishedByActive(db) && SelectsPublished(db, u, rows)
    requires forall w | w in db.users && w != u :: w in users && users[w] == db.users[w]
    requires videos.Keys == db.videos.Keys && forall v | v in db.videos ::
               if v in rows then videos[v].publish == Hidden else videos[v] == db.videos[v]
    ensures forall v | v in videos && videos[v].publish == Published :: ActiveOwner(users, videos[v])
  {
    forall v | v in videos && videos[v].publish == Published
      ensures ActiveOwner(users, videos[v])
    {
      if IsPublishedOf(db, u, v) {
        assert false;
      }
    }
  }

  lemma SuspendKeeps(db: Db, tx: Tx, now: Time)
    requires tx.Suspend? && Selected(db, tx, now) && Perform(db, tx, now).Success?
    requires VideosOk(db.videos, db.users.Keys, db.nextId, now) && PublishedByActive(db) && AuditOk(db)
    ensures PublishedByActive(Perform(db, tx, now).value) && AuditOk(Perform(db, tx, now).value)
  {
    hide Perform, ResumeUser, AuditOk, SuspendAccount, HideVideos, VideosOk, ActiveOwner;
    AccountTx(db, tx, now);
    SuspendAccountKeeps(db, tx.adminId, tx.userId, tx.reason, tx.requestId, now);
    var db1 := SuspendAccount(db, tx.adminId, tx.userId, tx.reason, tx.requestId, now).value;
    HideVideosKeeps(db1, tx.adminId, tx.rows, tx.reason, tx.requestId, now);
    HideVideosRows(db1, tx.adminId, tx.rows, tx.reason, tx.requestId, now);
    HideVideosSpares(db1, tx.adminId, tx.rows, tx.reason, tx.requestId, now);
    var db' := Perform(db, tx, now).value;
    HiddenRowsKeep(db, db'.users, db'.videos, tx.userId, tx.rows, now);
  }

  lemma ResumeKeeps(db: Db, tx: Tx, now: Time)
    requires tx.Resume? && Perform(db, tx, now).Success? && PublishedByActive(db) && AuditOk(db)
    ensures PublishedByActive(Perform(db, tx, now).value) && AuditOk(Perform(db, tx, now).value)
  {
    var db' := Perform(db, tx, now).value;
    assert PublishedByActive(db');
    hide PublishedByActive, AuditOk;
    AccountChangeKeeps(db, db', tx.userId, db'.users[tx.userId], db'.audit[|db.audit|]);
  }

  lemma OtherAdminKeeps(db: Db, tx: Tx, now: Time)
    requires (tx.Hide? || tx.Restore?) && Perform(db, tx, now).Success?
    requires PublishedByActive(db) && AuditOk(db)
    ensures PublishedByActive(Perform(db, tx, now).value) && AuditOk(Perform(db, tx, now).value)
  {
    hide Perform, AuditOk;
    VideoRowTx(db, tx, now);
    var db' := Perform(db, tx, now).value;
    VideoAuditKeeps(db, db', tx.videoId, db'.audit[|db.audit|]);
  }

  /** Every transaction keeps published videos with active owners, and the audit log in step with the tables. */
  lemma PerformKeepsPublication(db: Db, tx: Tx, clock: Time, now: Time)
    requires DbOk(db, clock) && clock <= now && Selected(db, tx, now) && Perform(db, tx, now).Success?
    requires PublishedByActive(db) && AuditOk(db)
    ensures PublishedByActive(Perform(db, tx, now).value) && AuditOk(Perform(db, tx, now).value)
  {
    hide DbOk, Perform, PublishedByActive, AuditOk, Quiet;
    if !tx.IsAdministrative() {
      PerformQuiet(db, tx, clock, now);
      QuietKeeps(db, Perform(db, tx, now).value, tx);
    } else if tx.Suspend? {
      ClockAdvances(db, clock, now);
      SuspendKeeps(db, tx, now);
    } else if tx.Resume? {
      ResumeKeeps(db, tx, now);
    } else {
      OtherAdminKeeps(db, tx, now);
    }
  }

  // An administrator changes a hidden video only by restoring it.
  lemma AdminUnhides(db: Db, tx: Tx, v: Id, now: Time)
    requires tx.IsAdministrative() && Selected(db, tx, now) && Perform(db, tx, now).Success?
    requires v in db.videos && db.videos[v].publish == Hidden
    ensures var db' := Perform(db, tx, now).value;
            v in db'.videos && (db'.videos[v].publish != Hidden ==>
                                  tx.Restore? && tx.videoId == v && db'.videos[v].publish == Published)
  {
    hide Perform, SetPrivateByOwner, RepublishByOwner, RecordSourceValidation;
    if tx.OnAccount() { AccountTx(db, tx, now); } else { VideoRowTx(db, tx, now); }
    if tx.Suspend? {
      HideVideosRows(SuspendAccount(db, tx.adminId, tx.userId, tx.reason, tx.requestId, now).value,
                     tx.adminId, tx.rows, tx.reason, tx.requestId, now);
    }
  }

  /** Restore is the only transaction that makes a hidden video public again. */
  lemma OnlyRestoreUnhides(db: Db, tx: Tx, v: Id, clock: Time, now: Time)
    requires DbOk(db, clock) && clock <= now && Selected(db, tx, now) && Perform(db, tx, now).Success?
    requires v in db.videos && db.videos[v].publish == Hidden
    ensures var db' := Perform(db, tx, now).value;
            && v in db'.videos
            && (db'.videos[v].publish == Published ==> tx.Restore? && tx.videoId == v)
            && (db'.videos[v].publish == Private ==> tx.Delete? && tx.videoId == v)
  {
    hide DbOk, Perform;
    if tx.IsAdministrative() {
      AdminUnhides(db, tx, v, now);
    } else {
      PerformQuiet(db, tx, clock, now);
      VideoFacts(db, clock, v);
      if tx.Delete? { DeleteSpares(db, tx, now); }
    }
  }
}
