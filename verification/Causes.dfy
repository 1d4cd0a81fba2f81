/**
  Who changes a video: in every step of every run a change of its stage, its publication or its deletion has exactly one
  kind of cause, and what is the owner's to decide is decided by the owner.
 */
module Causes {
  import opened Common
  import opened VideoEntity
  import opened Database
  import opened Coherence
  import opened Outcomes
  import opened Moderation
  import opened Transactions
  import opened Effects
  import opened Protocol
  import opened Safety
  import opened Runs
  import opened Theorems

  // The job is the video's.
  predicate JobOf(db: Db, j: Id, v: Id) {
    j in db.jobs && db.jobs[j].videoId == v
  }

  // The attempt at the video was abandoned.
  ghost predicate TakesBack(db: Db, tx: Tx, v: Id) {
    tx.Recover? && exists j :: j in tx.rows && JobOf(db, j, v) && db.jobs[j].attempts == 4
  }

  predicate StageCaused(db: Db, a: Video, b: Video, tx: Tx, v: Id) {
    match b.processing
    case Uploading => false
    case Uploaded => a.processing == Uploading && tx == FinishUpload(a.userId, v)
    case Expired => a.processing == Uploading && tx.Expire? && v in tx.rows
    case Processing => a.processing == Uploaded && tx.Claim? && JobOf(db, tx.jobId, v)
    case Ready => a.processing == Processing && tx.Complete? && JobOf(db, tx.jobId, v)
    case ProcessingFailed =>
      a.processing == Processing && ((tx.Fail? && JobOf(db, tx.jobId, v)) || tx.Recover?)
  }

  predicate PublicationCaused(a: Video, b: Video, tx: Tx, v: Id) {
    match (a.publish, b.publish)
    case (Published, Private) => tx == if b.deletedAt == None then MakePrivate(a.userId, v) else Delete(a.userId, v)
    case (Private, Published) => if a.processing == Ready then tx == Republish(a.userId, v) else tx.Complete?
    case (Published, Hidden) => (tx.Hide? && tx.videoId == v) || (tx.Suspend? && tx.userId == a.userId)
    case (Hidden, Published) => tx.Restore? && tx.videoId == v
    case (Hidden, Private) => tx == Delete(a.userId, v)
    case _ => false
  }

  /** What a transaction changes about a video it may change. */
  ghost predicate Caused(db: Db, db': Db, tx: Tx, v: Id) {
    && v in db.videos && v in db'.videos
    && var a, b := db.videos[v], db'.videos[v];
    && (a.processing != b.processing ==> StageCaused(db, a, b, tx, v))
    && (b.processing == ProcessingFailed && a.processing != b.processing && tx.Recover? ==> TakesBack(db, tx, v))
    && (a.publish != b.publish ==> PublicationCaused(a, b, tx, v))
    && (a.deletedAt != b.deletedAt ==> a.deletedAt == None && tx == Delete(a.userId, v))
  }

  lemma CausedRows(db: Db, db': Db, tx: Tx, v: Id)
    requires Caused(db, db', tx, v)
    ensures v in db.videos && v in db'.videos
  {
  }

  lemma SameVideoCaused(db: Db, db': Db, tx: Tx, v: Id)
    requires v in db.videos && v in db'.videos
    requires db'.videos[v].processing == db.videos[v].processing && db'.videos[v].publish == db.videos[v].publish
    requires db'.videos[v].deletedAt == db.videos[v].deletedAt
    ensures Caused(db, db', tx, v)
  {
  }

  lemma OwnerTxCaused(db: Db, tx: Tx, v: Id, clock: Time, now: Time)
    requires tx.FinishUpload? || tx.MakePrivate? || tx.Republish? || tx.Delete?
    requires DbOk(db, clock) && clock <= now && v in db.videos && Perform(db, tx, now).Success?
    ensures Caused(db, Perform(db, tx, now).value, tx, v)
  {
    hide DbOk, DeleteByOwner, SetPrivateByOwner, RepublishByOwner, CompleteUpload, Perform, HideVideo, RestoreVideo;
    hide RecordSourceValidation, InsertVideo, CreateCleanup, CompleteProcessing, FailProcessing;
    var u, w := tx.userId, tx.videoId;
    StrangersAreRefused(db, u, w, now);
    VideoFacts(db, clock, v);
    match tx {
      case FinishUpload(_, _) =>
        InsertTx(db, tx, now);
        CompleteUploadOutcome(db, u, w, clock, now);
      case MakePrivate(_, _) =>
        VideoRowTx(db, tx, now);
        SetPrivateOutcome(db, u, w, now);
      case Republish(_, _) =>
        VideoRowTx(db, tx, now);
        RepublishOutcome(db, u, w, now);
      case Delete(_, _) =>
        FinishTx(db, tx, now);
        DeleteSpares(db, tx, now);
    }
  }

  lemma WorkerTxCaused(db: Db, tx: Tx, v: Id, clock: Time, now: Time)
    requires DbOk(db, clock) && clock <= now && v in db.videos && Selected(db, tx, now) && Perform(db, tx, now).Success?
    requires tx.Claim? || tx.Complete? || tx.Fail? || tx.RecordSource?
    ensures Caused(db, Perform(db, tx, now).value, tx, v)
  {
    hide DbOk, Perform, ClaimJob, HideVideo, RestoreVideo, SetPrivateByOwner, RepublishByOwner, ScheduleRetry, CancelJob;
    hide BeingProcessed;
    if tx.RecordSource? {
      VideoRowTx(db, tx, now);
    } else if tx.Claim? {
      JobRowTx(db, tx, now);
      JobFacts(db, clock, tx.jobId);
      ClaimOutcome(db, tx.jobId, clock, now);
    } else if tx.Complete? {
      CompleteSpares(db, tx, now);
    } else {
      FailSpares(db, tx, now);
    }
  }

  lemma SweepTxCaused(db: Db, tx: Tx, v: Id, clock: Time, now: Time)
    requires DbOk(db, clock) && clock <= now && v in db.videos && Selected(db, tx, now) && Perform(db, tx, now).Success?
    requires tx.Expire? || tx.Recover?
    ensures Caused(db, Perform(db, tx, now).value, tx, v)
  {
    hide DbOk, Perform, ExpireRows, RecoverJobs, RecoverCleanups, ForExpired, OriginalRequested;
    SweepTx(db, tx, now);
    VideoFacts(db, clock, v);
    if tx.Expire? {
      ExpiryOutcome(db, tx.rows, tx.limit, clock, now);
    } else {
      RecoveryOutcome(db, tx.rows, tx.before, tx.delays, tx.limit, clock, now);
      RecoveryCaused(db, Perform(db, tx, now).value, tx, v, clock, now);
    }
  }

  lemma RecoveryCaused(db: Db, db': Db, tx: Tx, v: Id, clock: Time, now: Time)
    requires DbOk(db, clock) && v in db.videos && tx.Recover? && SelectsTimedOut(db, tx.rows, tx.before)
    requires AllTakenBack(db, db', tx.rows, tx.delays, now)
    ensures Caused(db, db', tx, v)
  {
    hide DbOk, AllTakenBack, Ends;
    if j :| j in tx.rows && JobOf(db, j, v) {
      JobFacts(db, clock, j);
      VideoFacts(db, clock, v);
      BatchRow(db, db', tx.rows, tx.delays, now, j);
      TakenBackCaused(db, db', tx, j, now);
    } else {
      forall j | j in tx.rows && j in db.jobs
        ensures db.jobs[j].videoId != v
      {
        assert !JobOf(db, j, v);
      }
      BatchSpares(db, db', tx.rows, tx.delays, now, v);
    }
  }

  lemma BatchRow(db: Db, db': Db, rows: seq<Id>, delays: seq<nat>, now: Time, j: Id)
    requires AllTakenBack(db, db', rows, delays, now) && j in rows
    ensures TakenBack(db, db', j, delays, now)
  {
  }

  lemma BatchSpares(db: Db, db': Db, rows: seq<Id>, delays: seq<nat>, now: Time, v: Id)
    requires AllTakenBack(db, db', rows, delays, now) && v in db.videos
    requires forall j | j in rows && j in db.jobs :: db.jobs[j].videoId != v
    ensures v in db'.videos && db'.videos[v] == db.videos[v]
  {
  }

  lemma TakenBackCaused(db: Db, db': Db, tx: Tx, j: Id, now: Time)
    requires tx.Recover? && j in tx.rows && TakenBack(db, db', j, tx.delays, now)
    requires var a := db.videos[db.jobs[j].videoId];
             a.deletedAt == None && db.jobs[j].attempts == 4 ==> a.processing == Processing && a.publish == Private
    ensures Caused(db, db', tx, db.jobs[j].videoId)
  {
    assert JobOf(db, j, db.jobs[j].videoId);
  }

  lemma AdminTxCaused(db: Db, tx: Tx, v: Id, clock: Time, now: Time)
    requires DbOk(db, clock) && clock <= now && v in db.videos && Selected(db, tx, now) && Perform(db, tx, now).Success?
    requires tx.IsAdministrative()
    ensures Caused(db, Perform(db, tx, now).value, tx, v)
  {
    hide DbOk, Perform, HideVideo, RestoreVideo, SuspendUser, ResumeUser, SetPrivateByOwner, RepublishByOwner;
    hide RecordSourceValidation, LogsHiding, TokensRevoked, StatusSet;
    if tx.OnAccount() { AccountTx(db, tx, now); } else { VideoRowTx(db, tx, now); }
    match tx {
      case Hide(a, w, reason, requestId) => HideOutcome(db, a, w, reason, requestId, clock, now);
      case Restore(a, w, reason, requestId) => RestoreOutcome(db, a, w, reason, requestId, clock, now);
      case Suspend(a, u, rows, reason, requestId) => SuspensionOutcome(db, a, u, rows, reason, requestId, clock, now);
      case Resume(a, u, reason, requestId) => ResumptionOutcome(db, a, u, reason, requestId, now);
    }
  }

  // The rest leaves the videos alone, or adds one.
  lemma OtherTxCaused(db: Db, tx: Tx, v: Id, clock: Time, now: Time)
    requires DbOk(db, clock) && clock <= now && v in db.videos && Selected(db, tx, now) && Perform(db, tx, now).Success?
    requires tx.Create? || tx.Register? || tx.Retry? || tx.Cancel? || tx.OnCleanupRow() || tx.RecoverClean?
    ensures Caused(db, Perform(db, tx, now).value, tx, v)
  {
    hide DbOk, Perform, CompleteUpload, ClaimJob, ExpireUploads, RecoverTimedOut, RecoverCleanups, CreateCleanup, Caused;
    NextIdFresh(db, clock);
    var db' := Perform(db, tx, now).value;
    if tx.OnCleanupRow() || tx.RecoverClean? {
      CleanupTxSpares(db, tx, now);
    } else if tx.OnJobRow() {
      JobRowTx(db, tx, now);
    } else {
      InsertTx(db, tx, now);
      if tx.Register? { RegisterSpares(db, tx, now); }
    }
    SameVideoCaused(db, db', tx, v);
  }

  lemma RegisterSpares(db: Db, tx: Tx, now: Time)
    requires tx.Register? && PerformInsert(db, tx, now).Success?
    ensures PerformInsert(db, tx, now).value.videos == db.videos
  {
  }

  /** Every change of a video by a transaction has its one cause. */
  lemma PerformCauses(db: Db, tx: Tx, v: Id, clock: Time, now: Time)
    requires DbOk(db, clock) && clock <= now && v in db.videos && Selected(db, tx, now) && Perform(db, tx, now).Success?
    ensures Caused(db, Perform(db, tx, now).value, tx, v)
  {
    hide DbOk, Perform, Caused;
    if tx.IsAdministrative() {
      AdminTxCaused(db, tx, v, clock, now);
    } else if tx.FinishUpload? || tx.MakePrivate? || tx.Republish? || tx.Delete? {
      OwnerTxCaused(db, tx, v, clock, now);
    } else if tx.Claim? || tx.Complete? || tx.Fail? || tx.RecordSource? {
      WorkerTxCaused(db, tx, v, clock, now);
    } else if tx.Expire? || tx.Recover? {
      SweepTxCaused(db, tx, v, clock, now);
    } else {
      OtherTxCaused(db, tx, v, clock, now);
    }
  }

  // ---------------------------------------------------------------- whole runs

  lemma TxIsSelected(cfg: Config, w: World, e: Event)
    requires Enabled(cfg, w, e) && TxOf(cfg, w, e).Some?
    ensures Selected(w.db, TxOf(cfg, w, e).value, w.clock)
  {
  }

  // What a step does to the tables.
  lemma StepPerforms(cfg: Config, w: World, e: Event)
    requires Enabled(cfg, w, e) && (TxOf(cfg, w, e).Some? ==> Selected(w.db, TxOf(cfg, w, e).value, w.clock))
    ensures Next(cfg, w, e).db
            == if TxOf(cfg, w, e).Some? && Perform(w.db, TxOf(cfg, w, e).value, w.clock).Success?
               then Perform(w.db, TxOf(cfg, w, e).value, w.clock).value else w.db
  {
    hide Perform, React, TxOf, Enabled, Selected;
  }

  /** In every step of every run: what changes about a video has its one cause, the step's transaction. */
  lemma ChangesHaveCauses(cfg: Config, r: Run, i: nat, v: Id)
    requires IsRun(cfg, r) && i < |r.events| && i < |r.worlds| && v in r.worlds[i].db.videos
    ensures i + 1 < |r.worlds| && v in r.worlds[i + 1].db.videos && Enabled(cfg, r.worlds[i], r.events[i])
    ensures var a, b := r.worlds[i].db.videos[v], r.worlds[i + 1].db.videos[v];
            a.processing != b.processing || a.publish != b.publish || a.deletedAt != b.deletedAt ==>
              && TxOf(cfg, r.worlds[i], r.events[i]).Some?
              && Caused(r.worlds[i].db, r.worlds[i + 1].db, TxOf(cfg, r.worlds[i], r.events[i]).value, v)
  {
    hide IsRun, Inv, WorldOk, Perform, Caused, Enabled, Next, TxOf, Selected, DbOk;
    RunLength(cfg, r);
    RunStep(cfg, r, i);
    var w, e := r.worlds[i], r.events[i];
    InvDbOk(cfg, w);
    var tx := TxOf(cfg, w, e);
    if tx.Some? { TxIsSelected(cfg, w, e); }
    StepPerforms(cfg, w, e);
    if tx.Some? && Perform(w.db, tx.value, w.clock).Success? {
      PerformCauses(w.db, tx.value, v, w.clock, w.clock);
      CausedRows(w.db, Perform(w.db, tx.value, w.clock).value, tx.value, v);
    }
  }

  /**
    Only its owner deletes a living video, makes a published one private, publishes a ready private one, or completes the
    upload.
   */
  lemma OnlyOwnersDecide(cfg: Config, r: Run, i: nat, v: Id)
    requires IsRun(cfg, r) && i < |r.events| && i < |r.worlds| && v in r.worlds[i].db.videos
    ensures i + 1 < |r.worlds| && v in r.worlds[i + 1].db.videos
    ensures var a, b := r.worlds[i].db.videos[v], r.worlds[i + 1].db.videos[v];
            && (a.deletedAt == None && b.deletedAt != None ==> r.events[i] == Direct(Delete(a.userId, v)))
            && (a.publish == Published && b.publish == Private && b.deletedAt == None ==>
                  r.events[i] == Direct(MakePrivate(a.userId, v)))
            && (a.processing == Ready && a.publish == Private && b.publish == Published ==>
                  r.events[i] == Direct(Republish(a.userId, v)))
            && (a.processing == Uploading && b.processing == Uploaded ==> r.events[i] == CompleteUploadCall(a.userId, v))
  {
    hide IsRun, Enabled, TxOf;
    ChangesHaveCauses(cfg, r, i, v);
    var w, e := r.worlds[i], r.events[i];
    if TxOf(cfg, w, e).Some? { OwnersTx(cfg, w, e); }
  }

  // The owners' transactions come from the owners' calls.
  lemma OwnersTx(cfg: Config, w: World, e: Event)
    requires Enabled(cfg, w, e) && TxOf(cfg, w, e).Some?
    ensures var tx := TxOf(cfg, w, e).value;
            && (tx.Delete? || tx.MakePrivate? || tx.Republish? ==> e == Direct(tx))
            && (tx.FinishUpload? ==> e == CompleteUploadCall(tx.userId, tx.videoId))
  {
  }
}
