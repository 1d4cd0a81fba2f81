/**
  A concrete run in which an upload escapes: a worker that is too slow loses its job to recovery, then fails for good,
  and its FailProcessing, which would have registered the uploaded object, is refused.
 */
module StaleWorker {
  import opened Common
  import opened VideoEntity
  import V = VideoJobEntity
  import opened UserEntity
  import opened Database
  import opened Transactions
  import opened Protocol
  import opened Accounting
  import opened Theorems

  const DELAYS: seq<nat> := [60000, 120000, 240000]
  const LATE: Time := 1 + PROCESSING_TIMEOUT
  const WHY := V.Failed(V.GeneralFailure)

  function Settings(): Config {
    Config(DELAYS, DELAYS, 3600000)
  }

  // User 1 owns video 2 with the original 7, processed by job 3.
  function Tables(stage: ProcessingStatus, job: V.Job, validated: bool): Db {
    Db(4, map[1 := User(RoleUser, Active, 0, 0)], map[], map[2 := Video(1, 7, 1000000, 1, stage, Private, 1, None)],
       map[3 := job], if validated then map[2 := SourceMeta(true, 1)] else map[], map[], map[], [])
  }

  function Queued(): V.Job {
    V.Job(2, V.JobQueued, 0, 4, 1, None, None, V.NoError, 1, 1)
  }

  function Running(): V.Job {
    V.Job(2, V.JobRunning, 1, 4, 1, Some(1), None, V.NoError, 1, 1)
  }

  function Recovered(): V.Job {
    V.Job(2, V.JobRetryWait, 1, 4, LATE + 60000, Some(1), None, V.WorkerTimeout, 1, LATE)
  }

  function World0(): World {
    World(Tables(Uploading, Queued(), false).(nextId := 2, videos := map[], jobs := map[]), 1, map[], map[], map[], map[],
          map[], {}, {})
  }

  function World1(): World {
    World0().(db := Tables(Uploading, Queued(), false).(nextId := 3, jobs := map[]), issued := map[7 := Original(2)])
  }

  function World2(): World {
    World1().(stored := map[7 := 1])
  }

  function World3(): World {
    World2().(found := {2})
  }

  function World4(): World {
    World3().(db := Tables(Uploaded, Queued(), false))
  }

  function World5(): World {
    World4().(db := Tables(Processing, Running(), false), workers := map[9 := Working(3, 2, 1, false)])
  }

  function World6(): World {
    World5().(db := Tables(Processing, Running(), true), workers := map[9 := Working(3, 2, 1, true)])
  }

  function World7(): World {
    World6().(stored := map[7 := 1, 8 := 1], issued := map[7 := Original(2), 8 := Produced(9, 2, 1)],
              workers := map[9 := HalfUploaded(3, 2, 1, 8)])
  }

  function World8(): World {
    World7().(clock := LATE)
  }

  function World9(): World {
    World8().(db := Tables(Processing, Recovered(), true))
  }

  function World10(): World {
    World9().(workers := map[9 := Failing(3, 2, 8, WHY)])
  }

  function World11(): World {
    World10().(workers := map[], leaked := {8})
  }

  /**
    The run: object 8 is uploaded, the job recovered, the failure refused; in the end the object is in the store, no
    row of any table knows about it and no worker holds it.
   */
  lemma StaleFailureLeaks() returns (cfg: Config, r: Run)
    ensures IsRun(cfg, r) && |r.worlds| == 12
    ensures r.events == [Direct(Create(1, 7, 1000000)), PutOriginal(2), StatOriginal(2), CompleteUploadCall(1, 2),
                         WorkerClaims(9, 3), WorkerValidates(9, SourceMeta(true, 0)), WorkerUploadsVideo(9, 8), Tick(LATE),
                         Direct(Recover([3], 1, DELAYS, 1)), WorkerStageFails(9, WHY, false), WorkerFails(9)]
    ensures !MayFail(r.worlds[10].db, 3)
    ensures var w := r.worlds[11];
            8 in w.leaked && 8 in w.stored && !Settled(w.db, 2, 8) && !IsObjectReferenced(w.db, 8) && w.workers == map[]
  {
    CreateStep();
    UploadSteps();
    QueueStep();
    ClaimStep();
    ValidateStep();
    StoreStep();
    LateStep();
    RecoverStep();
    StageFailStep();
    FailStep();
    Ends();
    hide IsStep, Init, World0, World1, World2, World3, World4, World5, World6, World7, World8, World9, World10, World11;
    hide IsObjectReferenced, Settled, MayFail, Settings;
    cfg := Settings();
    r := Run([World0(), World1(), World2(), World3(), World4(), World5(), World6(), World7(), World8(), World9(),
              World10(), World11()],
             [Direct(Create(1, 7, 1000000)), PutOriginal(2), StatOriginal(2), CompleteUploadCall(1, 2),
              WorkerClaims(9, 3), WorkerValidates(9, SourceMeta(true, 0)), WorkerUploadsVideo(9, 8), Tick(LATE),
              Direct(Recover([3], 1, DELAYS, 1)), WorkerStageFails(9, WHY, false), WorkerFails(9)]);
  }

  lemma CreateStep()
    ensures IsStep(Settings(), World0(), Direct(Create(1, 7, 1000000)), World1())
  {
    hide Perform, ReactWorker, ReactCleaner, ReactScan;
    InsertTx(World0().db, Create(1, 7, 1000000), 1);
  }

  lemma UploadSteps()
    ensures IsStep(Settings(), World1(), PutOriginal(2), World2())
    ensures IsStep(Settings(), World2(), StatOriginal(2), World3())
  {
    hide Perform, ReactWorker, ReactCleaner, ReactScan;
  }

  lemma QueueStep()
    ensures IsStep(Settings(), World3(), CompleteUploadCall(1, 2), World4())
  {
    hide Perform, ReactWorker, ReactCleaner, ReactScan;
    InsertTx(World3().db, FinishUpload(1, 2), 1);
    assert World3().db.videos[2 := World4().db.videos[2]] == World4().db.videos;
  }

  lemma JobClaimed()
    ensures Selected(World4().db, Claim(3), 1) && Perform(World4().db, Claim(3), 1) == Success(World5().db)
  {
    hide Perform;
    JobRowTx(World4().db, Claim(3), 1);
    assert World4().db.SaveVideo(2, World5().db.videos[2]).SaveJob(3, Running()) == World5().db;
  }

  lemma ClaimStep()
    ensures IsStep(Settings(), World4(), WorkerClaims(9, 3), World5())
  {
    hide Perform, Selected, ReactCleaner, ReactScan;
    JobClaimed();
  }

  lemma SourceRecorded()
    ensures Perform(World5().db, RecordSource(2, SourceMeta(true, 0)), 1) == Success(World6().db)
  {
    hide Perform;
    VideoRowTx(World5().db, RecordSource(2, SourceMeta(true, 0)), 1);
    assert World5().db.SaveVideo(2, World6().db.videos[2]).(sources := World6().db.sources) == World6().db;
  }

  lemma ValidateStep()
    ensures IsStep(Settings(), World5(), WorkerValidates(9, SourceMeta(true, 0)), World6())
  {
    hide Perform, ReactCleaner, ReactScan;
    SourceRecorded();
  }

  lemma StoreStep()
    ensures IsStep(Settings(), World6(), WorkerUploadsVideo(9, 8), World7())
  {
    hide Perform, ReactCleaner, ReactScan;
  }

  lemma LateStep()
    ensures IsStep(Settings(), World7(), Tick(LATE), World8())
  {
    hide Perform, ReactWorker, ReactCleaner, ReactScan;
  }

  lemma RecoversOne(db: Db, j: Id, now: Time)
    requires j in db.jobs && TimedOut(db.jobs[j], 1) && 1 < now
    ensures Perform(db, Recover([j], 1, DELAYS, 1), now) == RecoverJob(db, j, DELAYS, now)
  {
    hide Perform, RecoverJob;
    SweepTx(db, Recover([j], 1, DELAYS, 1), now);
    assert [j][..0] == [] && [j][0] == j;
    assert RecoverJobs(db, [], DELAYS, now) == Success(db);
  }

  lemma JobRecovered()
    ensures var db, tx := World8().db, Recover([3], 1, DELAYS, 1);
            Selected(db, tx, LATE) && Perform(db, tx, LATE) == Success(World9().db)
  {
    hide Perform;
    RecoversOne(World8().db, 3, LATE);
    assert World8().db.SaveJob(3, Recovered()) == World9().db;
  }

  lemma RecoverStep()
    ensures IsStep(Settings(), World8(), Direct(Recover([3], 1, DELAYS, 1)), World9())
  {
    JobRecovered();
    hide Perform, Selected, ReactWorker, ReactCleaner, ReactScan, Tables;
  }

  lemma StageFailStep()
    ensures IsStep(Settings(), World9(), WorkerStageFails(9, WHY, false), World10())
  {
    hide Perform, ReactCleaner, ReactScan;
  }

  lemma FailureRefused()
    ensures Perform(World10().db, Fail(3, WHY, 8), LATE) == Failure(ProcessingJobConflict)
  {
    hide Perform;
    FinishTx(World10().db, Fail(3, WHY, 8), LATE);
  }

  lemma FailStep()
    ensures IsStep(Settings(), World10(), WorkerFails(9), World11())
  {
    hide Perform, ReactCleaner, ReactScan, Tables;
    FailureRefused();
    assert World10().workers - {9} == map[];
  }

  lemma Ends()
    ensures Init(Settings(), World0()) && !MayFail(World10().db, 3)
    ensures var w := World11();
            8 in w.leaked && 8 in w.stored && !Settled(w.db, 2, 8) && !IsObjectReferenced(w.db, 8) && w.workers == map[]
  {
  }
}
