/** What the invariants mean for whole runs, from an empty system on and under any interleaving. */
module Theorems {
  import opened Common
  import opened VideoEntity
  import V = VideoJobEntity
  import C = CleanupEntity
  import opened UserEntity
  import opened Database
  import opened Coherence
  import opened Transactions
  import opened Effects
  import opened Publication
  import opened Protocol
  import opened Safety
  import opened Runs
  import opened Accounting

  // ---------------------------------------------------------------- runs

  /** Users are there from the start and active; everything else is still to come. */
  ghost predicate Init(cfg: Config, w: World) {
    && cfg.Valid() && 0 < w.clock && 0 < w.db.nextId
    && (forall u | u in w.db.users :: w.db.users[u].IsActive())
    && w.db.videos == map[] && w.db.jobs == map[] && w.db.sources == map[] && w.db.outputs == map[]
    && w.db.cleanups == map[] && w.db.audit == []
    && w.stored == map[] && w.issued == map[] && w.workers == map[] && w.cleaners == map[] && w.scans == map[]
    && w.found == {} && w.leaked == {}
  }

  datatype Run = Run(worlds: seq<World>, events: seq<Event>)

  ghost predicate IsStep(cfg: Config, w: World, e: Event, w': World) {
    Enabled(cfg, w, e) && w' == Next(cfg, w, e)
  }

  ghost predicate IsRun(cfg: Config, r: Run) {
    && |r.worlds| == |r.events| + 1
    && Init(cfg, r.worlds[0])
    && forall i | 0 <= i < |r.events| :: IsStep(cfg, r.worlds[i], r.events[i], r.worlds[i + 1])
  }

  ghost predicate WorldOk(cfg: Config, w: World) {
    Inv(cfg, w) && PublishedByActive(w.db) && AuditOk(w.db) && Accounted(w) && LeakedOk(w)
  }

  lemma InitOk(cfg: Config, w: World)
    requires Init(cfg, w)
    ensures WorldOk(cfg, w)
  {
  }

  lemma StepKeepsPublication(cfg: Config, w: World, e: Event)
    requires Inv(cfg, w) && Enabled(cfg, w, e) && PublishedByActive(w.db) && AuditOk(w.db)
    ensures PublishedByActive(Next(cfg, w, e).db) && AuditOk(Next(cfg, w, e).db)
  {
    hide Inv, Perform, PublishedByActive, AuditOk;
    InvDbOk(cfg, w);
    hide DbOk;
    match TxOf(cfg, w, e) {
      case None =>
      case Some(tx) =>
        if Perform(w.db, tx, w.clock).Success? {
          PerformKeepsPublication(w.db, tx, w.clock, w.clock);
        }
    }
  }

  lemma StepKeepsWorld(cfg: Config, w: World, e: Event)
    requires WorldOk(cfg, w) && Enabled(cfg, w, e)
    ensures WorldOk(cfg, Next(cfg, w, e))
  {
    hide Inv, Next, PublishedByActive, AuditOk, Accounted, LeakedOk;
    StepKeeps(cfg, w, e);
    StepKeepsPublication(cfg, w, e);
    StepAccounts(cfg, w, e);
  }

  /** The invariants hold in every state of every run. */
  lemma {:induction false} RunKeepsWorld(cfg: Config, r: Run, i: nat)
    requires IsRun(cfg, r) && i < |r.worlds|
    ensures WorldOk(cfg, r.worlds[i])
  {
    hide WorldOk, Init, Next, Enabled;
    if i == 0 {
      InitOk(cfg, r.worlds[0]);
    } else {
      RunKeepsWorld(cfg, r, i - 1);
      assert IsStep(cfg, r.worlds[i - 1], r.events[i - 1], r.worlds[i - 1 + 1]);
      StepKeepsWorld(cfg, r.worlds[i - 1], r.events[i - 1]);
    }
  }

  // The state of a run before one of its steps.
  lemma RunStep(cfg: Config, r: Run, i: nat)
    requires IsRun(cfg, r) && i < |r.events|
    ensures WorldOk(cfg, r.worlds[i]) && Inv(cfg, r.worlds[i]) && Enabled(cfg, r.worlds[i], r.events[i])
    ensures r.worlds[i + 1] == Next(cfg, r.worlds[i], r.events[i])
  {
    hide Inv, Init, Next, Enabled, PublishedByActive, AuditOk, Accounted, LeakedOk;
    RunKeepsWorld(cfg, r, i);
    assert IsStep(cfg, r.worlds[i], r.events[i], r.worlds[i + 1]);
  }

  /**
    Between any two states of a run: deleted videos are frozen, terminal jobs and output metas never change,
    no row disappears, attempts and token versions never fall and the audit log is append-only.
   */
  lemma {:induction false} RunIsLater(cfg: Config, r: Run, i: nat, j: nat)
    requires IsRun(cfg, r) && i <= j < |r.worlds|
    ensures Later(r.worlds[i].db, r.worlds[j].db)
  {
    hide Later, IsRun, Next, WorldOk, Inv, Enabled;
    if i == j {
      LaterRefl(r.worlds[i].db);
    } else {
      assert |r.worlds| == |r.events| + 1 by { RunLength(cfg, r); }
      RunIsLater(cfg, r, i, j - 1);
      RunStep(cfg, r, j - 1);
      StepLater(cfg, r.worlds[j - 1], r.events[j - 1]);
      LaterTrans(r.worlds[i].db, r.worlds[j - 1].db, r.worlds[j].db);
    }
  }

  lemma RunLength(cfg: Config, r: Run)
    requires IsRun(cfg, r)
    ensures |r.worlds| == |r.events| + 1
  {
  }

  // ---------------------------------------------------------------- object safety

  /** An object in use: the original of a living video that has not expired, or an output of a living video. */
  ghost predicate InUse(db: Db, k: Key) {
    || (exists v :: db.HasVideo(v) && db.videos[v].processing != Expired && db.videos[v].originalKey == k)
    || (exists v :: db.HasVideo(v) && v in db.outputs && db.outputs[v].Uses(k))
  }

  lemma InUseNotCondemned(cfg: Config, w: World, k: Key)
    requires IssuedOk(w.db.videos, w.db.outputs, w.issued) && InUse(w.db, k)
    ensures !Condemned(cfg, w, k)
  {
  }

  // No cleanup row, in whatever state, no cleanup worker and no orphan scan is after the object.
  ghost predicate Untargeted(w: World, k: Key) {
    && !KeyRegistered(w.db.cleanups, k)
    && (forall id | id in w.cleaners && w.cleaners[id].Deleting? :: w.cleaners[id].key != k)
    && (forall id | id in w.scans && w.scans[id].Orphan? :: w.scans[id].key != k)
  }

  lemma NotCondemnedUntargeted(cfg: Config, w: World, k: Key)
    requires Inv(cfg, w) && !Condemned(cfg, w, k)
    ensures Untargeted(w, k)
  {
    hide DbOk, IssuedOk, HoldingsOk, WorkersOk, StoredOk, Durable, Condemned;
  }

  /** Object safety: in no state of any run does anything target an object in use. */
  lemma ObjectsInUseAreUntargeted(cfg: Config, r: Run, i: nat, k: Key)
    requires IsRun(cfg, r) && i < |r.worlds| && InUse(r.worlds[i].db, k)
    ensures Untargeted(r.worlds[i], k)
  {
    hide IsRun, Inv, PublishedByActive, AuditOk, Accounted, LeakedOk, InUse, Untargeted, Condemned;
    RunKeepsWorld(cfg, r, i);
    InvHoldings(cfg, r.worlds[i]);
    InUseNotCondemned(cfg, r.worlds[i], k);
    NotCondemnedUntargeted(cfg, r.worlds[i], k);
  }

  // Only a cleanup worker takes objects out of the store, and only the one it was given.
  lemma StepRemoves(cfg: Config, w: World, e: Event, k: Key)
    requires Enabled(cfg, w, e) && k in w.stored && k !in Next(cfg, w, e).stored
    ensures e.CleanerDeletes? && w.cleaners[e.cleaner].Deleting? && w.cleaners[e.cleaner].key == k
  {
    hide Outcome, ReactWorker, ReactScan;
    if e.OfWorker() {
      WorkerKeepsStored(cfg, w, e, Outcome(cfg, w, e), k);
    } else if e.OfScan() {
      ScanFrame(cfg, w, e);
    }
  }

  /** No step of any run removes an object in use from the store. */
  lemma ObjectsInUseStay(cfg: Config, r: Run, i: nat, k: Key)
    requires IsRun(cfg, r) && i < |r.events| && i < |r.worlds|
    requires InUse(r.worlds[i].db, k) && k in r.worlds[i].stored
    ensures i + 1 < |r.worlds| && k in r.worlds[i + 1].stored
  {
    hide IsRun, Inv, WorldOk, InUse, KeyRegistered, Next;
    RunStep(cfg, r, i);
    RunLength(cfg, r);
    ObjectsInUseAreUntargeted(cfg, r, i, k);
    if k !in r.worlds[i + 1].stored {
      StepRemoves(cfg, r.worlds[i], r.events[i], k);
    }
  }

  /** Every output of a living video, and the original of every living video that was uploaded, is in the store. */
  lemma ObjectsInUseAreStored(cfg: Config, r: Run, i: nat, v: Id)
    requires IsRun(cfg, r) && i < |r.worlds| && r.worlds[i].db.HasVideo(v)
    ensures var w := r.worlds[i];
            && (!NeverUploaded(w.db.videos[v]) ==> w.db.videos[v].originalKey in w.stored)
            && (v in w.db.outputs ==> w.db.outputs[v].videoKey in w.stored && w.db.outputs[v].thumbnailKey in w.stored)
  {
    hide IsRun, PublishedByActive, AuditOk, Accounted, LeakedOk;
    RunKeepsWorld(cfg, r, i);
    hide DbOk, IssuedOk, HoldingsOk, WorkersOk, StoredOk, TargetsOk, CleanersOk, ScansOk, HeldStored;
    var w := r.worlds[i];
    assert v in w.db.outputs ==>
             var output := w.db.outputs[v]; output.Uses(output.videoKey) && output.Uses(output.thumbnailKey);
  }

  // ---------------------------------------------------------------- videos and their jobs

  ghost predicate JobIn(db: Db, v: Id, statuses: set<V.JobStatus>) {
    exists j :: j in db.jobs && db.jobs[j].videoId == v && db.jobs[j].status in statuses
  }

  /** In every state the stage of a living video and the status of its job determine one another. */
  lemma StagesMatchJobs(cfg: Config, r: Run, i: nat, v: Id)
    requires IsRun(cfg, r) && i < |r.worlds| && v in r.worlds[i].db.videos
    ensures var db := r.worlds[i].db; var p := db.videos[v].processing;
            !db.videos[v].IsDeleted() ==>
              && (p == Uploading || p == Expired <==> !db.HasJob(v))
              && (p == Uploaded <==> JobIn(db, v, {V.JobQueued}))
              && (p == Processing <==> JobIn(db, v, {V.JobRunning, V.JobRetryWait}))
              && (p == Ready <==> JobIn(db, v, {V.JobSucceeded}))
              && (p == Ready <==> v in db.sources && v in db.outputs)
              && (p == ProcessingFailed <==> JobIn(db, v, {V.JobFailed}))
    ensures r.worlds[i].db.videos[v].IsDeleted() ==> !JobIn(r.worlds[i].db, v, {V.JobQueued})
  {
    hide IsRun, PublishedByActive, AuditOk, Accounted, LeakedOk, Inv;
    RunKeepsWorld(cfg, r, i);
    InvDbOk(cfg, r.worlds[i]);
    PairedStages(r.worlds[i].db, r.worlds[i].clock, v);
    hide DbOk;
    VideoFacts(r.worlds[i].db, r.worlds[i].clock, v);
  }

  lemma PairedStages(db: Db, clock: Time, v: Id)
    requires DbOk(db, clock) && v in db.videos
    ensures forall j | j in db.jobs && db.jobs[j].videoId == v :: Paired(db.videos[v], db.jobs[j])
    ensures db.HasJob(v) ==> exists j :: j in db.jobs && db.jobs[j].videoId == v
  {
  }

  // ---------------------------------------------------------------- stale workers

  // The event is a worker's successful completion of a job of the living video `v`.
  predicate Commits(cfg: Config, w: World, e: Event, v: Id) {
    && Enabled(cfg, w, e) && e.WorkerCompletes? && Outcome(cfg, w, e).Success? && w.db.HasVideo(v)
    && w.workers[e.worker].job in w.db.jobs && w.db.jobs[w.workers[e.worker].job].videoId == v
  }

  predicate CommitsAt(cfg: Config, r: Run, i: nat, v: Id) {
    i < |r.events| && i < |r.worlds| && Commits(cfg, r.worlds[i], r.events[i], v)
  }

  // It succeeds only while the video has no output meta, and adds the one of the worker's objects.
  lemma CommitAdds(cfg: Config, w: World, e: Event, v: Id)
    requires Inv(cfg, w) && Commits(cfg, w, e, v)
    ensures v !in w.db.outputs && v in Next(cfg, w, e).db.outputs
    ensures var output := Next(cfg, w, e).db.outputs[v];
            output.videoKey == w.workers[e.worker].videoKey && output.thumbnailKey == w.workers[e.worker].thumbnailKey
  {
    hide Inv, Perform, React, Young, DbOk, CommitsOutput;
    InvDbOk(cfg, w);
    StepKeeps(cfg, w, e);
    InvDbOk(cfg, Next(cfg, w, e));
    CompleteSpares(w.db, TxOf(cfg, w, e).value, w.clock);
    VideoFacts(w.db, w.clock, v);
    VideoFacts(Next(cfg, w, e).db, Next(cfg, w, e).clock, v);
  }

  lemma CommitStep(cfg: Config, r: Run, i: nat, v: Id)
    requires IsRun(cfg, r) && CommitsAt(cfg, r, i, v)
    ensures i + 1 < |r.worlds| && v !in r.worlds[i].db.outputs && v in r.worlds[i + 1].db.outputs
    ensures var worker, output := r.worlds[i].workers[r.events[i].worker], r.worlds[i + 1].db.outputs[v];
            output.videoKey == worker.videoKey && output.thumbnailKey == worker.thumbnailKey
  {
    RunLength(cfg, r);
    RunStep(cfg, r, i);
    hide IsRun, Inv, WorldOk, Next, Outcome;
    CommitAdds(cfg, r.worlds[i], r.events[i], v);
  }

  /**
    However many workers run for a video, at most one completion ever succeeds while the video lives, and the output
    meta it writes is the worker's and never changes: a second completion is refused, not an overwriting.
   */
  lemma OneCommitPerVideo(cfg: Config, r: Run, i: nat, j: nat, v: Id)
    requires IsRun(cfg, r) && CommitsAt(cfg, r, i, v)
    ensures CommitsAt(cfg, r, j, v) ==> i == j
    ensures i < j < |r.worlds| ==>
              && v in r.worlds[j].db.outputs
              && r.worlds[j].db.outputs[v].videoKey == r.worlds[i].workers[r.events[i].worker].videoKey
              && r.worlds[j].db.outputs[v].thumbnailKey == r.worlds[i].workers[r.events[i].worker].thumbnailKey
  {
    hide IsRun, Commits, VideosLater, JobsLater, CleanupsLater, UsersLater;
    CommitStep(cfg, r, i, v);
    if CommitsAt(cfg, r, j, v) {
      CommitStep(cfg, r, j, v);
      if j < i { RunIsLater(cfg, r, j + 1, i); }
    }
    if i < j < |r.worlds| { RunIsLater(cfg, r, i + 1, j); }
  }

  /**
    What object safety rests on: a worker that commits must learn it. Had it taken a committed completion for a failed
    one, the rollback it registers next would be accepted and target an object in use.
   */
  lemma LostAnswerTargetsOutput(cfg: Config, w: World, e: Event, v: Id)
    requires Commits(cfg, w, e, v) && Inv(cfg, w)
    ensures RollbackHits(Next(cfg, w, e).db, v, w.workers[e.worker].videoKey, w.clock)
  {
    hide Inv, Outcome, React, Young, RollbackHits, CommitsOutput;
    CommitAdds(cfg, w, e, v);
    CommitLives(cfg, w, e, v);
    StepKeeps(cfg, w, e);
    InvDbOk(cfg, Next(cfg, w, e));
    RollbackTargets(Next(cfg, w, e).db, v, w.workers[e.worker].videoKey, w.clock);
  }

  // Registering the object for a rollback is accepted, and the object is in use.
  ghost predicate RollbackHits(db: Db, v: Id, k: Key, now: Time) {
    var r := Perform(db, Register(Some(v), k, C.AssetProcessed, C.Rollback), now);
    r.Success? && InUse(r.value, k) && KeyRegistered(r.value.cleanups, k)
  }

  lemma CommitLives(cfg: Config, w: World, e: Event, v: Id)
    requires Inv(cfg, w) && Commits(cfg, w, e, v)
    ensures Next(cfg, w, e).db.HasVideo(v) && Next(cfg, w, e).clock == w.clock && w.workers[e.worker].videoKey != 0
  {
    hide Inv, Perform, ReactCleaner, ReactScan, Young;
    InvWorker(cfg, w, e.worker);
    CompleteSpares(w.db, TxOf(cfg, w, e).value, w.clock);
  }

  lemma RollbackTargets(db: Db, v: Id, k: Key, clock: Time)
    requires DbOk(db, clock) && db.HasVideo(v) && v in db.outputs && db.outputs[v].Uses(k) && k != 0
    ensures RollbackHits(db, v, k, clock)
  {
    hide DbOk, Perform;
    VideoFacts(db, clock, v);
    ClockRuns(db, clock);
    var tx := Register(Some(v), k, C.AssetProcessed, C.Rollback);
    InsertTx(db, tx, clock);
    PerformRegisters(db, tx, clock, clock);
    var db' := Perform(db, tx, clock).value;
    assert db'.HasVideo(v) && v in db'.outputs && db'.outputs[v].Uses(k);
  }

  lemma NewOutputIsCommit(cfg: Config, w: World, e: Event, v: Id)
    requires Enabled(cfg, w, e) && v !in w.db.outputs && v in Next(cfg, w, e).db.outputs
    ensures Commits(cfg, w, e, v)
  {
    hide Perform, React, Young, Selected, IsDirect;
    match TxOf(cfg, w, e) {
      case None =>
      case Some(tx) =>
        AskedTx(cfg, w, e);
        if Perform(w.db, tx, w.clock).Success? { PerformBounded(w.db, tx, w.clock); }
    }
  }

  /** Every output meta was written by such a completion. */
  lemma {:induction false} OutputWasCommitted(cfg: Config, r: Run, j: nat, v: Id) returns (i: nat)
    requires IsRun(cfg, r) && j < |r.worlds| && v in r.worlds[j].db.outputs
    ensures i < j && CommitsAt(cfg, r, i, v)
  {
    hide IsRun, Inv, WorldOk, Next, Enabled, Commits;
    RunLength(cfg, r);
    NoOutputAtFirst(cfg, r);
    if j > 0 {
      RunStep(cfg, r, j - 1);
      if v in r.worlds[j - 1].db.outputs {
        i := OutputWasCommitted(cfg, r, j - 1, v);
      } else {
        i := j - 1;
        NewOutputIsCommit(cfg, r.worlds[i], r.events[i], v);
      }
    }
  }

  lemma NoOutputAtFirst(cfg: Config, r: Run)
    requires IsRun(cfg, r)
    ensures r.worlds[0].db.outputs == map[]
  {
  }

  /** No job ever leaves a terminal status, and nothing in its row changes afterwards. */
  lemma TerminalJobsStay(cfg: Config, r: Run, i: nat, j: nat, job: Id)
    requires IsRun(cfg, r) && i <= j < |r.worlds|
    requires job in r.worlds[i].db.jobs && r.worlds[i].db.jobs[job].IsTerminal()
    ensures job in r.worlds[j].db.jobs && r.worlds[j].db.jobs[job] == r.worlds[i].db.jobs[job]
  {
    hide IsRun;
    RunIsLater(cfg, r, i, j);
  }

  // Step `i` of the run hands attempt `n` of a job to a worker.
  ghost predicate ClaimsAt(r: Run, i: nat, job: Id, n: int) {
    && i < |r.events| && i + 1 < |r.worlds| && r.events[i].WorkerClaims? && r.events[i].job == job
    && job in r.worlds[i + 1].db.jobs && r.worlds[i + 1].db.jobs[job].status == V.JobRunning
    && r.worlds[i + 1].db.jobs[job].attempts == n
  }

  // A waiting job that runs later has begun a further attempt.
  lemma RunningRaisesAttempts(a: Db, b: Db, aClock: Time, bClock: Time, job: Id)
    requires DbOk(a, aClock) && DbOk(b, bClock) && Later(a, b) && job in a.jobs && job in b.jobs
    requires a.jobs[job].status != V.JobRunning && b.jobs[job].status == V.JobRunning
    ensures a.jobs[job].attempts < b.jobs[job].attempts <= 4
  {
    hide DbOk;
    JobFacts(a, aClock, job);
    JobFacts(b, bClock, job);
    LaterJob(a, b, job);
    hide Later;
  }

  lemma ClaimRaisesAttempts(cfg: Config, r: Run, i: nat, job: Id, n: int)
    requires IsRun(cfg, r) && ClaimsAt(r, i, job, n)
    ensures job in r.worlds[i].db.jobs && r.worlds[i].db.jobs[job].attempts < n <= 4
  {
    hide IsRun, Inv, WorldOk, Next, Later, DbOk;
    RunStep(cfg, r, i);
    var e := r.events[i];
    assert job in r.worlds[i].db.jobs && Claimable(r.worlds[i].db.jobs[job], r.worlds[i].clock);
    hide Enabled;
    RunIsLater(cfg, r, i, i + 1);
    RunDbOk(cfg, r, i);
    RunDbOk(cfg, r, i + 1);
    RunningRaisesAttempts(r.worlds[i].db, r.worlds[i + 1].db, r.worlds[i].clock, r.worlds[i + 1].clock, job);
  }

  lemma LaterJob(a: Db, b: Db, job: Id)
    requires Later(a, b) && job in a.jobs
    ensures job in b.jobs && JobLater(a.jobs[job], b.jobs[job])
  {
  }

  lemma RunDbOk(cfg: Config, r: Run, i: nat)
    requires IsRun(cfg, r) && i < |r.worlds|
    ensures DbOk(r.worlds[i].db, r.worlds[i].clock)
  {
    hide IsRun, Inv, PublishedByActive, AuditOk, Accounted, LeakedOk;
    RunKeepsWorld(cfg, r, i);
    InvDbOk(cfg, r.worlds[i]);
  }

  lemma LaterClaimIsAnother(cfg: Config, r: Run, i: nat, j: nat, job: Id, n: int)
    requires IsRun(cfg, r) && i < j && ClaimsAt(r, i, job, n)
    ensures !ClaimsAt(r, j, job, n)
  {
    hide IsRun, Later;
    if ClaimsAt(r, j, job, n) {
      ClaimRaisesAttempts(cfg, r, j, job, n);
      RunIsLater(cfg, r, i + 1, j);
      LaterJob(r.worlds[i + 1].db, r.worlds[j].db, job);
    }
  }

  /** Each attempt of a job is claimed by at most one worker, and there are at most four attempts. */
  lemma AttemptsClaimedOnce(cfg: Config, r: Run, i: nat, j: nat, job: Id, n: int)
    requires IsRun(cfg, r) && ClaimsAt(r, i, job, n) && ClaimsAt(r, j, job, n)
    ensures i == j && 1 <= n <= 4
  {
    hide IsRun, DbOk;
    ClaimRaisesAttempts(cfg, r, i, job, n);
    RunDbOk(cfg, r, i);
    JobFacts(r.worlds[i].db, r.worlds[i].clock, job);
    if i < j { LaterClaimIsAnother(cfg, r, i, j, job, n); }
    if j < i { LaterClaimIsAnother(cfg, r, j, i, job, n); }
  }

  // Step `i` of the run hands attempt `n` of a cleanup job to a cleanup worker.
  ghost predicate CleanupClaimsAt(r: Run, i: nat, c: Id, n: int) {
    && i < |r.events| && i + 1 < |r.worlds| && r.events[i].CleanerClaims? && r.events[i].cleanup == c
    && c in r.worlds[i + 1].db.cleanups && r.worlds[i + 1].db.cleanups[c].status == C.CleanupRunning
    && r.worlds[i + 1].db.cleanups[c].attempts == n
  }

  lemma RunningRaisesCleanupAttempts(a: Db, b: Db, aClock: Time, bClock: Time, c: Id)
    requires DbOk(a, aClock) && DbOk(b, bClock) && Later(a, b) && c in a.cleanups && c in b.cleanups
    requires a.cleanups[c].status != C.CleanupRunning && b.cleanups[c].status == C.CleanupRunning
    ensures a.cleanups[c].attempts < b.cleanups[c].attempts <= 4
  {
    hide DbOk;
    CleanupFacts(a, aClock, c);
    CleanupFacts(b, bClock, c);
    LaterCleanup(a, b, c);
    hide Later;
  }

  lemma CleanupClaimRaisesAttempts(cfg: Config, r: Run, i: nat, c: Id, n: int)
    requires IsRun(cfg, r) && CleanupClaimsAt(r, i, c, n)
    ensures c in r.worlds[i].db.cleanups && 0 <= r.worlds[i].db.cleanups[c].attempts < n <= 4
  {
    hide IsRun, Inv, WorldOk, Next, Later, DbOk;
    RunStep(cfg, r, i);
    assert c in r.worlds[i].db.cleanups && CleanupClaimable(r.worlds[i].db.cleanups[c], r.worlds[i].clock);
    hide Enabled;
    RunIsLater(cfg, r, i, i + 1);
    RunDbOk(cfg, r, i);
    RunDbOk(cfg, r, i + 1);
    CleanupFacts(r.worlds[i].db, r.worlds[i].clock, c);
    RunningRaisesCleanupAttempts(r.worlds[i].db, r.worlds[i + 1].db, r.worlds[i].clock, r.worlds[i + 1].clock, c);
  }

  lemma LaterCleanupClaimIsAnother(cfg: Config, r: Run, i: nat, j: nat, c: Id, n: int)
    requires IsRun(cfg, r) && i < j && CleanupClaimsAt(r, i, c, n)
    ensures !CleanupClaimsAt(r, j, c, n)
  {
    hide IsRun, Later;
    if CleanupClaimsAt(r, j, c, n) {
      CleanupClaimRaisesAttempts(cfg, r, j, c, n);
      RunIsLater(cfg, r, i + 1, j);
      LaterCleanup(r.worlds[i + 1].db, r.worlds[j].db, c);
    }
  }

  /** The same for cleanup jobs: each attempt is claimed by at most one cleanup worker, and there are at most four. */
  lemma CleanupAttemptsClaimedOnce(cfg: Config, r: Run, i: nat, j: nat, c: Id, n: int)
    requires IsRun(cfg, r) && CleanupClaimsAt(r, i, c, n) && CleanupClaimsAt(r, j, c, n)
    ensures i == j && 1 <= n <= 4
  {
    hide IsRun;
    CleanupClaimRaisesAttempts(cfg, r, i, c, n);
    if i < j { LaterCleanupClaimIsAnother(cfg, r, i, j, c, n); }
    if j < i { LaterCleanupClaimIsAnother(cfg, r, j, i, c, n); }
  }

  // ---------------------------------------------------------------- bounded retries

  /** How often a row that may not exist yet changes its status along a history. */
  function Changes<S(==)>(history: seq<Option<S>>): nat {
    if |history| < 2 then 0
    else
      var a, b := history[|history| - 2], history[|history| - 1];
      Changes(history[..|history| - 1]) + if a.Some? && b.Some? && a != b then 1 else 0
  }

  lemma {:induction false} ChangesBounded<S>(history: seq<Option<S>>, progress: seq<int>)
    requires |history| == |progress| > 0 && forall i | 0 <= i < |progress| :: 0 <= progress[i]
    requires forall i | 0 <= i < |history| - 1 && history[i].Some? && history[i + 1].Some? ::
               progress[i] + (if history[i] != history[i + 1] then 1 else 0) <= progress[i + 1]
    requires forall i | 0 <= i < |history| - 1 && history[i].Some? :: history[i + 1].Some?
    ensures history[|history| - 1].Some? ==> Changes(history) <= progress[|history| - 1]
    ensures history[|history| - 1].None? ==> Changes(history) == 0
  {
    if |history| > 1 {
      var n := |history| - 1;
      ChangesBounded(history[..n], progress[..n]);
      assert history[..n][n - 1] == history[n - 1] && progress[..n][n - 1] == progress[n - 1];
    }
  }

  function JobHistory(worlds: seq<World>, job: Id): seq<Option<V.JobStatus>> {
    seq(|worlds|, i requires 0 <= i < |worlds| =>
      if job in worlds[i].db.jobs then Some(worlds[i].db.jobs[job].status) else None)
  }

  function CleanupHistory(worlds: seq<World>, c: Id): seq<Option<C.CleanupStatus>> {
    seq(|worlds|, i requires 0 <= i < |worlds| =>
      if c in worlds[i].db.cleanups then Some(worlds[i].db.cleanups[c].status) else None)
  }

  function JobProgressIn(db: Db, job: Id): int {
    if job in db.jobs then db.jobs[job].Progress() else 0
  }

  function CleanupProgressIn(db: Db, c: Id): int {
    if c in db.cleanups then db.cleanups[c].Progress() else 0
  }

  lemma JobProgressBounded(db: Db, clock: Time, job: Id)
    requires DbOk(db, clock)
    ensures 0 <= JobProgressIn(db, job) <= 8
  {
    hide DbOk;
    if job in db.jobs { JobFacts(db, clock, job); }
  }

  lemma CleanupProgressBounded(db: Db, clock: Time, c: Id)
    requires DbOk(db, clock)
    ensures 0 <= CleanupProgressIn(db, c) <= 8
  {
    hide DbOk;
    if c in db.cleanups { CleanupFacts(db, clock, c); }
  }

  lemma JobProgressGrows(a: Db, b: Db, job: Id)
    requires Later(a, b) && job in a.jobs
    ensures job in b.jobs
    ensures JobProgressIn(a, job) + (if a.jobs[job].status != b.jobs[job].status then 1 else 0) <= JobProgressIn(b, job)
  {
    LaterJob(a, b, job);
  }

  lemma CleanupProgressGrows(a: Db, b: Db, c: Id)
    requires Later(a, b) && c in a.cleanups
    ensures c in b.cleanups
    ensures CleanupProgressIn(a, c) + (if a.cleanups[c].status != b.cleanups[c].status then 1 else 0) <= CleanupProgressIn(b, c)
  {
    LaterCleanup(a, b, c);
  }

  lemma LaterCleanup(a: Db, b: Db, c: Id)
    requires Later(a, b) && c in a.cleanups
    ensures c in b.cleanups && CleanupLater(a.cleanups[c], b.cleanups[c])
  {
  }

  /** No processing job changes its status more than eight times in any run. */
  lemma JobsChangeAtMostEightTimes(cfg: Config, r: Run, job: Id)
    requires IsRun(cfg, r)
    ensures Changes(JobHistory(r.worlds, job)) <= 8
  {
    hide IsRun, Later, DbOk, JobProgressIn;
    RunLength(cfg, r);
    var n := |r.worlds|;
    var history := JobHistory(r.worlds, job);
    var progress := seq(n, i requires 0 <= i < n => JobProgressIn(r.worlds[i].db, job));
    forall i | 0 <= i < n
      ensures 0 <= progress[i] <= 8
    {
      RunDbOk(cfg, r, i);
      JobProgressBounded(r.worlds[i].db, r.worlds[i].clock, job);
    }
    forall i | 0 <= i < n - 1 && history[i].Some?
      ensures history[i + 1].Some? && progress[i] + (if history[i] != history[i + 1] then 1 else 0) <= progress[i + 1]
    {
      RunIsLater(cfg, r, i, i + 1);
      JobProgressGrows(r.worlds[i].db, r.worlds[i + 1].db, job);
    }
    ChangesBounded(history, progress);
  }

  /** Nor does any cleanup job. */
  lemma CleanupsChangeAtMostEightTimes(cfg: Config, r: Run, c: Id)
    requires IsRun(cfg, r)
    ensures Changes(CleanupHistory(r.worlds, c)) <= 8
  {
    hide IsRun, Later, DbOk, CleanupProgressIn;
    RunLength(cfg, r);
    var n := |r.worlds|;
    var history := CleanupHistory(r.worlds, c);
    var progress := seq(n, i requires 0 <= i < n => CleanupProgressIn(r.worlds[i].db, c));
    forall i | 0 <= i < n
      ensures 0 <= progress[i] <= 8
    {
      RunDbOk(cfg, r, i);
      CleanupProgressBounded(r.worlds[i].db, r.worlds[i].clock, c);
    }
    forall i | 0 <= i < n - 1 && history[i].Some?
      ensures history[i + 1].Some? && progress[i] + (if history[i] != history[i + 1] then 1 else 0) <= progress[i + 1]
    {
      RunIsLater(cfg, r, i, i + 1);
      CleanupProgressGrows(r.worlds[i].db, r.worlds[i + 1].db, c);
    }
    ChangesBounded(history, progress);
  }

  /** Every video, job and cleanup row of every state satisfies the CHECK constraints of its table. */
  lemma ChecksHold(cfg: Config, r: Run, i: nat)
    requires IsRun(cfg, r) && i < |r.worlds|
    ensures forall v | v in r.worlds[i].db.videos :: VideoSound(r.worlds[i].db.videos[v], r.worlds[i].clock)
    ensures forall j | j in r.worlds[i].db.jobs :: r.worlds[i].db.jobs[j].Checks()
    ensures forall c | c in r.worlds[i].db.cleanups :: r.worlds[i].db.cleanups[c].Checks()
  {
    hide IsRun;
    RunDbOk(cfg, r, i);
  }

  /** A worker with an error to record is never stuck: the delay of its next attempt is always in range. */
  lemma WorkerDelayInRange(cfg: Config, r: Run, i: nat, id: Id)
    requires IsRun(cfg, r) && i < |r.worlds| && id in r.worlds[i].workers && r.worlds[i].workers[id].Registering?
    ensures Enabled(cfg, r.worlds[i], WorkerRegisters(id)) || Enabled(cfg, r.worlds[i], WorkerRetries(id))
  {
    hide IsRun, Inv, PublishedByActive, AuditOk, Accounted, LeakedOk, DbOk;
    RunKeepsWorld(cfg, r, i);
    InvDbOk(cfg, r.worlds[i]);
    InvWorker(cfg, r.worlds[i], id);
  }

  /** The same for a cleanup worker whose delete failed. */
  lemma CleanerDelayInRange(cfg: Config, r: Run, i: nat, id: Id, error: C.CleanupError, retryable: bool)
    requires IsRun(cfg, r) && i < |r.worlds| && id in r.worlds[i].cleaners && error != C.NoError
    ensures Enabled(cfg, r.worlds[i], CleanerFails(id, error, retryable))
  {
    hide IsRun, Inv, PublishedByActive, AuditOk, Accounted, LeakedOk, DbOk;
    RunKeepsWorld(cfg, r, i);
    InvDbOk(cfg, r.worlds[i]);
    InvCleaners(cfg, r.worlds[i]);
  }

  // ---------------------------------------------------------------- publication and audit

  /** No suspended user ever owns a published video. */
  lemma SuspendedOwnNothingPublished(cfg: Config, r: Run, i: nat, v: Id)
    requires IsRun(cfg, r) && i < |r.worlds|
    requires v in r.worlds[i].db.videos && r.worlds[i].db.videos[v].CanBeViewedPublicly()
    ensures ActiveOwner(r.worlds[i].db.users, r.worlds[i].db.videos[v])
  {
    hide IsRun, Inv, AuditOk, Accounted, LeakedOk;
    RunKeepsWorld(cfg, r, i);
  }

  // Step `i` of the run is an administrator's Restore of the video.
  predicate RestoresAt(r: Run, i: nat, v: Id) {
    i < |r.events| && r.events[i].Direct? && r.events[i].tx.Restore? && r.events[i].tx.videoId == v
  }

  lemma AskedRestore(cfg: Config, w: World, e: Event, v: Id)
    requires Enabled(cfg, w, e) && TxOf(cfg, w, e).Some? && TxOf(cfg, w, e).value.Restore?
    ensures e.Direct? && e.tx == TxOf(cfg, w, e).value
  {
    hide Selected, Young, CommitsOutput;
  }

  lemma TxHidden(db: Db, tx: Tx, v: Id, clock: Time)
    requires DbOk(db, clock) && Selected(db, tx, clock) && Perform(db, tx, clock).Success?
    requires v in db.videos && db.videos[v].publish == Hidden && !(tx.Restore? && tx.videoId == v)
    ensures var db' := Perform(db, tx, clock).value;
            v in db'.videos && (db'.videos[v].publish == Hidden || db'.videos[v].IsDeleted())
  {
    hide DbOk, Perform;
    OnlyRestoreUnhides(db, tx, v, clock, clock);
    if tx.Delete? && tx.videoId == v { DeleteSpares(db, tx, clock); }
  }

  lemma StepHidden(cfg: Config, w: World, e: Event, v: Id)
    requires Inv(cfg, w) && Enabled(cfg, w, e) && v in w.db.videos && w.db.videos[v].publish == Hidden
    requires !(e.Direct? && e.tx.Restore? && e.tx.videoId == v)
    ensures var w' := Next(cfg, w, e); v in w'.db.videos && (w'.db.videos[v].publish == Hidden || w'.db.videos[v].IsDeleted())
  {
    hide Inv, Perform, React, DbOk, TxOf, Enabled, Selected;
    InvDbOk(cfg, w);
    if TxOf(cfg, w, e).Some? {
      var tx := TxOf(cfg, w, e).value;
      AskedTx(cfg, w, e);
      if tx.Restore? { AskedRestore(cfg, w, e, v); }
      if Perform(w.db, tx, w.clock).Success? { TxHidden(w.db, tx, v, w.clock); }
    }
  }

  lemma {:induction false} HiddenStays(cfg: Config, r: Run, i: nat, j: nat, v: Id)
    requires IsRun(cfg, r) && i <= j < |r.worlds|
    requires v in r.worlds[i].db.videos && r.worlds[i].db.videos[v].publish == Hidden
    requires forall k | i <= k < j :: !RestoresAt(r, k, v)
    ensures v in r.worlds[j].db.videos && (r.worlds[j].db.videos[v].publish == Hidden || r.worlds[j].db.videos[v].IsDeleted())
  {
    hide IsRun, Inv, WorldOk, Next, Enabled;
    if i < j {
      RunLength(cfg, r);
      HiddenStays(cfg, r, i, j - 1, v);
      RunStep(cfg, r, j - 1);
      var w := r.worlds[j - 1];
      if w.db.videos[v].publish == Hidden {
        assert !RestoresAt(r, j - 1, v);
        StepHidden(cfg, w, r.events[j - 1], v);
      } else {
        RunIsLater(cfg, r, j - 1, j);
      }
    }
  }

  /** A hidden video is public again only after an administrator restored it. */
  lemma HiddenUntilRestored(cfg: Config, r: Run, i: nat, j: nat, v: Id)
    requires IsRun(cfg, r) && i <= j < |r.worlds|
    requires v in r.worlds[i].db.videos && r.worlds[i].db.videos[v].publish == Hidden
    requires v in r.worlds[j].db.videos && r.worlds[j].db.videos[v].publish == Published
    ensures exists k :: i <= k < j && RestoresAt(r, k, v)
  {
    hide IsRun, Later;
    if forall k | i <= k < j :: !RestoresAt(r, k, v) {
      HiddenStays(cfg, r, i, j, v);
      RunDbOk(cfg, r, j);
      hide DbOk;
      VideoFacts(r.worlds[j].db, r.worlds[j].clock, v);
    }
  }

  /** The audit log chains, and replaying it gives every user's status and which living videos are hidden. */
  lemma AuditReplays(cfg: Config, r: Run, i: nat)
    requires IsRun(cfg, r) && i < |r.worlds|
    ensures var db := r.worlds[i].db;
            && Chained(db.audit)
            && (forall u | u in db.users :: db.users[u].status == UserStatusIn(db.audit, u))
            && (forall v | db.HasVideo(v) :: db.videos[v].publish == Hidden <==> HiddenIn(db.audit, v))
  {
    hide IsRun, Inv, PublishedByActive, Accounted, LeakedOk;
    RunKeepsWorld(cfg, r, i);
  }

  // ---------------------------------------------------------------- conservation of uploads

  /** In every state the whereabouts of every object a worker ever uploaded are known. */
  lemma UploadsAreAccounted(cfg: Config, r: Run, i: nat, k: Key)
    requires IsRun(cfg, r) && i < |r.worlds| && k in r.worlds[i].issued && r.worlds[i].issued[k].Produced?
    ensures var w := r.worlds[i]; var from := w.issued[k];
            Settled(w.db, from.video, k) || HeldBy(w.workers, from.worker, k) || k in w.leaked
  {
    hide IsRun, Inv, PublishedByActive, AuditOk, LeakedOk;
    RunKeepsWorld(cfg, r, i);
  }

  /**
    Where an object may leak: its worker crashes, its cleanup row cannot be written, or FailProcessing is refused. That
    happens exactly if the job was taken from the worker meanwhile or the object awaits cleanup already.
   */
  predicate Leaks(w: World, e: Event, k: Key) {
    match e
    case WorkerCrashes(id) => HeldBy(w.workers, id, k)
    case WorkerRegisterFails(id) => id in w.workers && w.workers[id].Registering? && k == NextKey(w.workers[id])
    case WorkerFails(id) =>
      HeldBy(w.workers, id, k) && w.workers[id].Failing? && !FailAccepted(w.db, w.workers[id].job, w.workers[id].videoKey)
    case _ => false
  }

  lemma StepLeaks(cfg: Config, w: World, e: Event, k: Key)
    requires Inv(cfg, w) && Enabled(cfg, w, e) && k !in w.leaked
    ensures k in Next(cfg, w, e).leaked <==> Leaks(w, e, k)
  {
    hide Inv, Outcome, ReactCleaner, ReactScan, FailAccepted, Young, Selected, CommitsOutput, IsDirect;
    if e.WorkerFails? {
      WorkerFailsIff(cfg, w, e);
    } else if e.OfWorker() {
      if !e.WorkerCrashes? && !e.WorkerRegisterFails? { WorkerLeaks(cfg, w, e, Outcome(cfg, w, e)); }
    } else if e.OfCleaner() {
      CleanerFrame(cfg, w, e, Outcome(cfg, w, e));
    } else if e.OfScan() {
      ScanFrame(cfg, w, e);
    }
  }

  /** In every run an object leaks in exactly those steps. */
  lemma LeaksOnly(cfg: Config, r: Run, i: nat, k: Key)
    requires IsRun(cfg, r) && i < |r.events| && i + 1 < |r.worlds| && k !in r.worlds[i].leaked
    ensures k in r.worlds[i + 1].leaked <==> Leaks(r.worlds[i], r.events[i], k)
  {
    hide IsRun, Inv, WorldOk, Next, Enabled, Leaks;
    RunStep(cfg, r, i);
    StepLeaks(cfg, r.worlds[i], r.events[i], k);
  }

  /** An object a worker lets go of in any other step, such as a return, is committed or has a cleanup job. */
  lemma ReturnedUploadsAreSettled(cfg: Config, r: Run, i: nat, id: Id, k: Key)
    requires IsRun(cfg, r) && i < |r.events| && i + 1 < |r.worlds|
    requires HeldBy(r.worlds[i].workers, id, k) && !HeldBy(r.worlds[i + 1].workers, id, k)
    requires !Leaks(r.worlds[i], r.events[i], k)
    ensures Settled(r.worlds[i + 1].db, r.worlds[i].workers[id].video, k)
  {
    hide IsRun, Inv, PublishedByActive, AuditOk, Accounted, Settled, Next, Outcome, Enabled, Leaks;
    RunStep(cfg, r, i);
    var w, e := r.worlds[i], r.events[i];
    assert k !in w.leaked;
    StepHandsOver(cfg, w, e);
    StepLeaks(cfg, w, e, k);
  }

  /** Whatever leaked is referenced by no row, so an orphan scan that lists it registers it. */
  lemma LeakedIsUnreferenced(cfg: Config, r: Run, i: nat, k: Key)
    requires IsRun(cfg, r) && i < |r.worlds| && k in r.worlds[i].leaked
    ensures !IsObjectReferenced(r.worlds[i].db, k)
  {
    hide IsRun, Inv, PublishedByActive, AuditOk, Accounted;
    RunKeepsWorld(cfg, r, i);
    InvHoldings(cfg, r.worlds[i]);
  }

  predicate OfScan(e: Event, s: Id) {
    match e
    case ScanBegins(id) => id == s
    case ScanLists(id, _) => id == s
    case ScanChecksOriginals(id) => id == s
    case ScanChecksOutputs(id) => id == s
    case ScanRegisters(id) => id == s
    case ScanEnds(id) => id == s
    case _ => false
  }

  function ScanState(w: World, s: Id): Option<Scan> {
    if s in w.scans then Some(w.scans[s]) else None
  }

  lemma StepScan(cfg: Config, w: World, e: Event, s: Id)
    requires Enabled(cfg, w, e) && !OfScan(e, s)
    ensures ScanState(Next(cfg, w, e), s) == ScanState(w, s)
  {
    hide Outcome, ReactWorker, ReactCleaner;
    if e.OfWorker() {
      WorkerFrame(cfg, w, e, Outcome(cfg, w, e));
    } else if e.OfCleaner() {
      CleanerFrame(cfg, w, e, Outcome(cfg, w, e));
    }
  }

  // Scan `s` does nothing from state `i` up to state `j`.
  ghost predicate ScanRests(r: Run, s: Id, i: nat, j: nat) {
    forall k | i <= k < j && k < |r.events| :: !OfScan(r.events[k], s)
  }

  lemma {:induction false} RestingScan(cfg: Config, r: Run, s: Id, i: nat, j: nat)
    requires IsRun(cfg, r) && i <= j < |r.worlds| && ScanRests(r, s, i, j)
    ensures ScanState(r.worlds[j], s) == ScanState(r.worlds[i], s)
  {
    hide IsRun, Inv, WorldOk, Next, Enabled, ScanState;
    if i < j {
      RunLength(cfg, r);
      RestingScan(cfg, r, s, i, j - 1);
      RunStep(cfg, r, j - 1);
      StepScan(cfg, r.worlds[j - 1], r.events[j - 1], s);
    }
  }

  lemma {:induction false} LeaksStay(cfg: Config, r: Run, i: nat, j: nat, k: Key)
    requires IsRun(cfg, r) && i <= j < |r.worlds| && k in r.worlds[i].leaked
    ensures k in r.worlds[j].leaked
  {
    hide IsRun, Inv, PublishedByActive, AuditOk, Accounted, LeakedOk, Next, Enabled;
    if i < j {
      RunLength(cfg, r);
      LeaksStay(cfg, r, i, j - 1, k);
      RunStep(cfg, r, j - 1);
      StepHandsOver(cfg, r.worlds[j - 1], r.events[j - 1]);
    }
  }

  // A scan whose turn it is moves on with a leaked key, unless it ends.
  lemma LeakedScanStep(cfg: Config, w: World, e: Event, s: Id, k: Key)
    requires Inv(cfg, w) && LeakedOk(w) && k in w.leaked && Enabled(cfg, w, e) && OfScan(e, s) && !e.ScanEnds?
    requires s in w.scans && !w.scans[s].Scanning? && w.scans[s].key == k
    ensures ScanState(Next(cfg, w, e), s) ==
            if w.scans[s].Looking? then Some(NotOriginal(w.scans[s].started, k))
            else if w.scans[s].NotOriginal? then Some(Orphan(w.scans[s].started, k))
            else Some(Scanning(w.scans[s].started))
    ensures w.scans[s].Orphan? ==> KeyRegistered(Next(cfg, w, e).db.cleanups, k)
  {
    hide Inv, DbOk, HoldingsOk, Perform, ReactWorker, ReactCleaner;
    InvHoldings(cfg, w);
    if e.ScanRegisters? {
      InvDbOk(cfg, w);
      InsertTx(w.db, TxOf(cfg, w, e).value, w.clock);
      PerformRegisters(w.db, TxOf(cfg, w, e).value, w.clock, w.clock);
      RegisteredOne(w.db.cleanups, Next(cfg, w, e).db.cleanups, k);
    }
  }

  /**
    A scan that lists a leaked object and takes its next three steps without being aborted leaves a cleanup job for
    it, whatever everybody else does meanwhile.
   */
  lemma ListedLeakIsRegistered(cfg: Config, r: Run, s: Id, k: Key, i: nat, a: nat, b: nat, c: nat)
    requires IsRun(cfg, r) && i < a < b < c && c + 1 < |r.worlds| && c < |r.events|
    requires r.events[i] == ScanLists(s, k) && k in r.worlds[i].leaked
    requires forall n | n in {a, b, c} :: OfScan(r.events[n], s) && !r.events[n].ScanEnds?
    requires ScanRests(r, s, i + 1, a) && ScanRests(r, s, a + 1, b) && ScanRests(r, s, b + 1, c)
    ensures KeyRegistered(r.worlds[c + 1].db.cleanups, k)
  {
    hide IsRun, Inv, PublishedByActive, AuditOk, Accounted, LeakedOk, KeyRegistered, ScanRests;
    RunStep(cfg, r, i);
    RestingScan(cfg, r, s, i + 1, a);
    LeaksStay(cfg, r, i, a, k);
    RunStep(cfg, r, a);
    hide Next, Enabled;
    LeakedScanStep(cfg, r.worlds[a], r.events[a], s, k);
    RestingScan(cfg, r, s, a + 1, b);
    LeaksStay(cfg, r, a, b, k);
    RunStep(cfg, r, b);
    LeakedScanStep(cfg, r.worlds[b], r.events[b], s, k);
    RestingScan(cfg, r, s, b + 1, c);
    LeaksStay(cfg, r, b, c, k);
    RunStep(cfg, r, c);
    LeakedScanStep(cfg, r.worlds[c], r.events[c], s, k);
  }

  // ---------------------------------------------------------------- recovery from leaks

  lemma RegisteredStays(a: Db, b: Db, k: Key)
    requires Later(a, b) && KeyRegistered(a.cleanups, k)
    ensures KeyRegistered(b.cleanups, k)
  {
    var c :| c in a.cleanups && a.cleanups[c].key == k;
    LaterCleanup(a, b, c);
    assert b.cleanups[c].key == k;
  }

  lemma NewUploadIsStored(cfg: Config, w: World, e: Event, k: Key)
    requires Enabled(cfg, w, e) && k !in w.issued && k in Next(cfg, w, e).issued && Next(cfg, w, e).issued[k].Produced?
    ensures k in Next(cfg, w, e).stored
  {
    hide Outcome, ReactWorker, ReactCleaner, ReactScan;
    if e.OfWorker() {
      WorkerStoresUploads(cfg, w, e, Outcome(cfg, w, e), k);
    } else if e.OfCleaner() {
      CleanerFrame(cfg, w, e, Outcome(cfg, w, e));
    } else if e.OfScan() {
      ScanFrame(cfg, w, e);
    }
  }

  // Whoever takes an object out of the store has a cleanup row for it.
  lemma RemovedIsRegistered(cfg: Config, w: World, e: Event, k: Key)
    requires Inv(cfg, w) && Enabled(cfg, w, e) && k in w.stored && k !in Next(cfg, w, e).stored
    ensures KeyRegistered(w.db.cleanups, k)
  {
    hide Inv, Next;
    StepRemoves(cfg, w, e, k);
    InvCleaners(cfg, w);
    assert w.db.cleanups[w.cleaners[e.cleaner].cleanup].key == k;
  }

  ghost predicate StoredOrRegistered(w: World, k: Key) {
    k in w.stored || KeyRegistered(w.db.cleanups, k)
  }

  /** In every state every object a worker ever uploaded is in the store or has a cleanup row. */
  lemma {:induction false} UploadsAreStoredOrRegistered(cfg: Config, r: Run, i: nat, k: Key)
    requires IsRun(cfg, r) && i < |r.worlds| && k in r.worlds[i].issued && r.worlds[i].issued[k].Produced?
    ensures StoredOrRegistered(r.worlds[i], k)
  {
    hide IsRun, Inv, PublishedByActive, AuditOk, Accounted, LeakedOk, Next, Enabled, KeyRegistered, Later;
    RunLength(cfg, r);
    NothingIssuedAtFirst(cfg, r);
    if i > 0 {
      RunStep(cfg, r, i - 1);
      RunIsLater(cfg, r, i - 1, i);
      var w, e := r.worlds[i - 1], r.events[i - 1];
      StepHandsOver(cfg, w, e);
      if k !in w.issued {
        NewUploadIsStored(cfg, w, e, k);
      } else {
        UploadsAreStoredOrRegistered(cfg, r, i - 1, k);
        if KeyRegistered(w.db.cleanups, k) {
          RegisteredStays(w.db, r.worlds[i].db, k);
        } else if k !in r.worlds[i].stored {
          RemovedIsRegistered(cfg, w, e, k);
        }
      }
    }
  }

  lemma NothingIssuedAtFirst(cfg: Config, r: Run)
    requires IsRun(cfg, r)
    ensures r.worlds[0].issued == map[]
  {
  }

  lemma {:induction false} IssuedStays(cfg: Config, r: Run, i: nat, j: nat, k: Key)
    requires IsRun(cfg, r) && i <= j < |r.worlds| && k in r.worlds[i].issued
    ensures k in r.worlds[j].issued && r.worlds[j].issued[k] == r.worlds[i].issued[k]
  {
    hide IsRun, Inv, PublishedByActive, AuditOk, Accounted, LeakedOk, Next, Enabled;
    if i < j {
      RunLength(cfg, r);
      IssuedStays(cfg, r, i, j - 1, k);
      RunStep(cfg, r, j - 1);
      StepHandsOver(cfg, r.worlds[j - 1], r.events[j - 1]);
    }
  }

  // What an upload keeps while it has no cleanup row: its place in the store, with the time of the upload.
  lemma UnregisteredIsStored(cfg: Config, r: Run, i: nat, j: nat, k: Key)
    requires IsRun(cfg, r) && i <= j < |r.worlds| && k in r.worlds[i].issued && r.worlds[i].issued[k].Produced?
    requires !KeyRegistered(r.worlds[j].db.cleanups, k)
    ensures k in r.worlds[j].stored && r.worlds[j].stored[k] == r.worlds[i].issued[k].at
  {
    hide IsRun, PublishedByActive, AuditOk, Accounted, LeakedOk, KeyRegistered;
    IssuedStays(cfg, r, i, j, k);
    UploadsAreStoredOrRegistered(cfg, r, j, k);
    RunKeepsWorld(cfg, r, j);
    hide DbOk, IssuedOk, HoldingsOk, WorkersOk, TargetsOk, CleanersOk, ScansOk, Durable;
  }

  /** A leaked object without a cleanup row can be listed by exactly those scans that began the orphan age after its upload. */
  lemma LeakCanBeListed(cfg: Config, r: Run, i: nat, s: Id, k: Key)
    requires IsRun(cfg, r) && i < |r.worlds| && k in r.worlds[i].leaked && !KeyRegistered(r.worlds[i].db.cleanups, k)
    requires s in r.worlds[i].scans && r.worlds[i].scans[s].Scanning?
    ensures k in r.worlds[i].issued && r.worlds[i].issued[k].Produced?
    ensures Enabled(cfg, r.worlds[i], ScanLists(s, k))
            <==> r.worlds[i].issued[k].at + cfg.orphanMinAge <= r.worlds[i].scans[s].started
  {
    LeakWasIssued(cfg, r, i, k);
    hide IsRun, KeyRegistered, Young, Selected, CommitsOutput;
    UnregisteredIsStored(cfg, r, i, i, k);
  }

  lemma LeakWasIssued(cfg: Config, r: Run, i: nat, k: Key)
    requires IsRun(cfg, r) && i < |r.worlds| && k in r.worlds[i].leaked
    ensures k in r.worlds[i].issued && r.worlds[i].issued[k].Produced?
  {
    hide IsRun, Inv, PublishedByActive, AuditOk, Accounted;
    RunKeepsWorld(cfg, r, i);
  }

  // In every state from `i` to `j` the object is in the store, put there the orphan age before state `i` or earlier.
  ghost predicate StoredThroughout(cfg: Config, r: Run, i: nat, j: nat, k: Key)
    requires i < |r.worlds|
  {
    forall n | i <= n <= j && n < |r.worlds| ::
      k in r.worlds[n].stored && r.worlds[n].stored[k] + cfg.orphanMinAge <= r.worlds[i].clock
  }

  predicate ListsAt(r: Run, n: nat, s: Id, k: Key) {
    n < |r.events| && r.events[n] == ScanLists(s, k)
  }

  /**
    A full scan from step `i` to step `j`: it begins and ends there and is not aborted, neither in between nor with a
    key in hand, and it lists every object that is in the store all the time and was old enough when it began.
   */
  ghost predicate FullScan(cfg: Config, r: Run, s: Id, i: nat, j: nat) {
    && i < j < |r.events| && j < |r.worlds| && r.events[i] == ScanBegins(s) && r.events[j] == ScanEnds(s)
    && (forall n | i <= n < j :: r.events[n] != ScanEnds(s))
    && (s in r.worlds[j].scans ==> r.worlds[j].scans[s].Scanning?)
    && (forall k | StoredThroughout(cfg, r, i, j, k) ::
          exists n :: i < n < j && ListsAt(r, n, s, k))
  }

  // The scan is at the object or has registered it.
  ghost predicate AtKey(w: World, s: Id, k: Key) {
    KeyRegistered(w.db.cleanups, k) || (s in w.scans && !w.scans[s].Scanning? && w.scans[s].key == k)
  }

  lemma StepAtKey(cfg: Config, w: World, e: Event, s: Id, k: Key)
    requires Inv(cfg, w) && LeakedOk(w) && k in w.leaked && Enabled(cfg, w, e) && e != ScanEnds(s)
    requires AtKey(w, s, k) && Later(w.db, Next(cfg, w, e).db)
    ensures AtKey(Next(cfg, w, e), s, k)
  {
    hide Inv, LeakedOk, Next, Enabled, KeyRegistered, Later;
    if KeyRegistered(w.db.cleanups, k) {
      RegisteredStays(w.db, Next(cfg, w, e).db, k);
    } else if OfScan(e, s) {
      LeakedScanStep(cfg, w, e, s, k);
    } else {
      StepScan(cfg, w, e, s);
    }
  }

  lemma {:induction false} ListedStaysAtKey(cfg: Config, r: Run, s: Id, k: Key, n: nat, m: nat)
    requires IsRun(cfg, r) && n < m < |r.worlds| && k in r.worlds[n].leaked && ListsAt(r, n, s, k)
    requires forall q | n <= q < m && q < |r.events| :: r.events[q] != ScanEnds(s)
    ensures AtKey(r.worlds[m], s, k)
  {
    hide IsRun, Inv, PublishedByActive, AuditOk, Accounted, LeakedOk, Later, KeyRegistered;
    RunLength(cfg, r);
    RunStep(cfg, r, m - 1);
    if n + 1 < m {
      ListedStaysAtKey(cfg, r, s, k, n, m - 1);
      LeaksStay(cfg, r, n, m - 1, k);
      RunIsLater(cfg, r, m - 1, m);
      hide Next, Enabled, AtKey;
      StepAtKey(cfg, r.worlds[m - 1], r.events[m - 1], s, k);
    }
  }

  /**
    Recovery from leaks: once an object that leaked is as old as the orphan age, the next full scan that begins leaves
    a cleanup row for it for good, whatever everybody else does meanwhile.
   */
  lemma NextScanRegistersLeaks(cfg: Config, r: Run, s: Id, k: Key, i: nat, j: nat, m: nat)
    requires IsRun(cfg, r) && FullScan(cfg, r, s, i, j) && k in r.worlds[i].leaked
    requires k in r.worlds[i].issued && r.worlds[i].issued[k].Produced?
    requires r.worlds[i].issued[k].at + cfg.orphanMinAge <= r.worlds[i].clock
    requires j <= m < |r.worlds|
    ensures KeyRegistered(r.worlds[m].db.cleanups, k)
  {
    hide IsRun, KeyRegistered, Later;
    if n :| i <= n <= j && KeyRegistered(r.worlds[n].db.cleanups, k) {
      RunIsLater(cfg, r, n, m);
      RegisteredStays(r.worlds[n].db, r.worlds[m].db, k);
    } else {
      forall n | i <= n <= j
        ensures k in r.worlds[n].stored && r.worlds[n].stored[k] == r.worlds[i].issued[k].at
      {
        UnregisteredIsStored(cfg, r, i, n, k);
      }
      assert StoredThroughout(cfg, r, i, j, k);
      var n :| i < n < j && ListsAt(r, n, s, k);
      LeaksStay(cfg, r, i, n, k);
      ListedStaysAtKey(cfg, r, s, k, n, j);
      assert false;
    }
  }
}
