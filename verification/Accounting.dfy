/**
  Conservation of uploads: every object a processing worker stored is mentioned by the output meta it committed,
  has a cleanup row, is still in its worker's hands, or is on record as leaked by a crash or a refused write.
  What leaked is referenced by nothing, so the next orphan scan may take it.
 */
module Accounting {
  import opened Common
  import opened VideoEntity
  import V = VideoJobEntity
  import C = CleanupEntity
  import opened Database
  import opened Coherence
  import opened Transactions
  import opened Effects
  import opened Protocol
  import opened Safety
  import opened Runs

  /** The tables know about the object: it is a committed output of its video, or a cleanup job was registered. */
  ghost predicate Settled(db: Db, video: Id, k: Key) {
    (video in db.outputs && db.outputs[video].Uses(k)) || KeyRegistered(db.cleanups, k)
  }

  predicate HeldBy(workers: map<Id, Worker>, id: Id, k: Key) {
    id in workers && k in workers[id].Held()
  }

  ghost predicate InHands(workers: map<Id, Worker>, k: Key) {
    exists id :: HeldBy(workers, id, k)
  }

  ghost predicate Accounted(w: World) {
    forall k | k in w.issued && w.issued[k].Produced? ::
      || Settled(w.db, w.issued[k].video, k)
      || HeldBy(w.workers, w.issued[k].worker, k)
      || k in w.leaked
  }

  ghost predicate LeakedOk(w: World) {
    && (forall k | k in w.leaked :: k in w.issued && w.issued[k].Produced?)
    && (forall k, v | k in w.leaked && v in w.db.outputs :: !w.db.outputs[v].Uses(k))
    && (forall id, k | HeldBy(w.workers, id, k) :: k !in w.leaked)
  }

  // ---------------------------------------------------------------- when FailProcessing is refused

  /** The job is still open to a failure: no recovery, completion or cancellation has taken it away. */
  predicate MayFail(db: Db, j: Id) {
    && j in db.jobs && db.jobs[j].videoId in db.videos
    && if db.videos[db.jobs[j].videoId].IsDeleted() then !db.jobs[j].IsTerminal() && db.jobs[j].finishedAt.None?
       else db.videos[db.jobs[j].videoId].Unpublished(Processing) && db.jobs[j].InAttempt()
  }

  /** The guard of FailProcessing on the tables: besides, the generated key has no unfinished cleanup row. */
  predicate FailAccepted(db: Db, j: Id, videoKey: Key) {
    MayFail(db, j) && (videoKey == 0 || !db.HasUnfinishedCleanup(videoKey))
  }

  lemma InsertsUnlessUnfinished(db: Db, videoId: Id, key: Key, asset: C.AssetType, cause: C.CleanupCause, now: Time)
    requires now != 0 && videoId != 0
    ensures InsertCleanup(db, videoId, key, asset, cause, now).Success? <==> key == 0 || !db.HasUnfinishedCleanup(key)
  {
  }

  /** FailProcessing commits if and only if that guard holds. */
  lemma FailSucceedsIff(db: Db, j: Id, why: V.JobError, videoKey: Key, now: Time)
    requires now != 0 && why != V.NoError && (j in db.jobs ==> db.jobs[j].videoId != 0)
    ensures FailProcessing(db, j, why, videoKey, 0, now).Success? <==> FailAccepted(db, j, videoKey)
  {
    hide InsertCleanup;
    if MayFail(db, j) {
      var v := db.jobs[j].videoId;
      var db1 := if db.videos[v].IsDeleted() then db.SaveJob(j, db.jobs[j].Cancel(now).value)
                 else FailAlive(db, j, why, now).value;
      InsertsUnlessUnfinished(db1, v, videoKey, C.AssetProcessed, C.ProcessFailed, now);
      var r := InsertCleanup(db1, v, videoKey, C.AssetProcessed, C.ProcessFailed, now);
      if r.Success? { InsertsUnlessUnfinished(r.value, v, 0, C.AssetThumbnail, C.ProcessFailed, now); }
      assert db1.HasUnfinishedCleanup(videoKey) == db.HasUnfinishedCleanup(videoKey);
    }
  }

  /** In a coherent state the status of the job decides: a living video's must be running, a deleted one's not over. */
  lemma MayFailIff(db: Db, clock: Time, j: Id)
    requires DbOk(db, clock)
    ensures MayFail(db, j) <==>
              j in db.jobs && if db.videos[db.jobs[j].videoId].IsDeleted() then !db.jobs[j].IsTerminal()
                              else db.jobs[j].status == V.JobRunning
  {
    hide DbOk;
    if j in db.jobs {
      JobFacts(db, clock, j);
      VideoFacts(db, clock, db.jobs[j].videoId);
    }
  }

  // The worker's FailProcessing commits.
  predicate FailCommits(cfg: Config, w: World, e: Event) {
    e.WorkerFails? && Enabled(cfg, w, e) && Outcome(cfg, w, e).Success?
  }

  // The guard holds for the worker's job and object.
  predicate FailMayCommit(w: World, e: Event) {
    && e.WorkerFails? && e.worker in w.workers && w.workers[e.worker].Failing?
    && FailAccepted(w.db, w.workers[e.worker].job, w.workers[e.worker].videoKey)
  }

  /** A worker's FailProcessing is refused exactly then. */
  lemma WorkerFailsIff(cfg: Config, w: World, e: Event)
    requires Inv(cfg, w) && Enabled(cfg, w, e) && e.WorkerFails?
    ensures FailCommits(cfg, w, e) <==> FailMayCommit(w, e)
  {
    hide Inv, Perform, DbOk, FailProcessing, FailAccepted;
    InvDbOk(cfg, w);
    InvWorker(cfg, w, e.worker);
    var s := w.workers[e.worker];
    VideoFacts(w.db, w.clock, s.video);
    FinishTx(w.db, Fail(s.job, s.why, s.videoKey), w.clock);
    ClockRuns(w.db, w.clock);
    FailSucceedsIff(w.db, s.job, s.why, s.videoKey, w.clock);
  }

  lemma ClockRuns(db: Db, clock: Time)
    requires DbOk(db, clock)
    ensures 0 < clock
  {
  }

  // ---------------------------------------------------------------- what a step does with the objects

  /** Objects change hands without getting lost. */
  ghost predicate HandsOver(w: World, w': World) {
    && (forall k | k in w.issued :: k in w'.issued && w'.issued[k] == w.issued[k])
    && (forall k | k in w'.issued && k !in w.issued && w'.issued[k].Produced? ::
          HeldBy(w'.workers, w'.issued[k].worker, k))
    && (forall id, k | HeldBy(w.workers, id, k) ::
          HeldBy(w'.workers, id, k) || k in w'.leaked || Settled(w'.db, w.workers[id].video, k))
    && (forall id, k | HeldBy(w'.workers, id, k) ::
          (k in w'.leaked ==> k in w.leaked) && (HeldBy(w.workers, id, k) || k !in w.issued))
    && w.leaked <= w'.leaked
    && (forall k | k in w'.leaked && k !in w.leaked :: InHands(w.workers, k))
    && (w'.db.outputs == w.db.outputs || w'.leaked == w.leaked)
  }

  // Outputs are added with objects that were in a worker's hands.
  ghost predicate OutputsFromHands(w: World, w': World) {
    forall v, k | v in w'.db.outputs && v !in w.db.outputs && w'.db.outputs[v].Uses(k) :: InHands(w.workers, k)
  }

  lemma StillSettled(a: Db, b: Db, v: Id, k: Key)
    requires OutputsLater(a.outputs, b.outputs) && CleanupsLater(a.cleanups, b.cleanups) && Settled(a, v, k)
    ensures Settled(b, v, k)
  {
    if KeyRegistered(a.cleanups, k) {
      var c :| c in a.cleanups && a.cleanups[c].key == k;
      assert c in b.cleanups && b.cleanups[c].key == k;
    }
  }

  lemma AccountedStays(w: World, w': World)
    requires Accounted(w) && HandsOver(w, w') && HoldingsOk(w.db.outputs, w.issued, w.workers)
    requires OutputsLater(w.db.outputs, w'.db.outputs) && CleanupsLater(w.db.cleanups, w'.db.cleanups)
    ensures Accounted(w')
  {
    hide Settled, OutputsLater, CleanupsLater;
    forall k | k in w'.issued && w'.issued[k].Produced?
      ensures Settled(w'.db, w'.issued[k].video, k) || HeldBy(w'.workers, w'.issued[k].worker, k) || k in w'.leaked
    {
      if k in w.issued && Settled(w.db, w.issued[k].video, k) {
        StillSettled(w.db, w'.db, w.issued[k].video, k);
      }
    }
  }

  lemma LeakedStays(w: World, w': World)
    requires LeakedOk(w) && HandsOver(w, w') && OutputsFromHands(w, w')
    requires HoldingsOk(w.db.outputs, w.issued, w.workers) && IssuedOk(w.db.videos, w.db.outputs, w.issued)
    requires OutputsLater(w.db.outputs, w'.db.outputs)
    ensures LeakedOk(w')
  {
    hide Settled;
    forall k | k in w'.leaked && k !in w.leaked
      ensures k in w.issued && w.issued[k].Produced? && w'.db.outputs == w.db.outputs
      ensures forall v | v in w.db.outputs :: !w.db.outputs[v].Uses(k)
    {
      HandsHoldUnused(w, k);
    }
    hide HoldingsOk, IssuedOk;
    forall k, v | k in w.leaked && v in w'.db.outputs
      ensures !w'.db.outputs[v].Uses(k)
    {
      if v in w.db.outputs {
        assert w'.db.outputs[v] == w.db.outputs[v];
      } else {
        assert !InHands(w.workers, k);
      }
    }
  }

  // What a worker holds is no output.
  lemma HandsHoldUnused(w: World, k: Key)
    requires HoldingsOk(w.db.outputs, w.issued, w.workers) && IssuedOk(w.db.videos, w.db.outputs, w.issued)
    requires InHands(w.workers, k)
    ensures k in w.issued && w.issued[k].Produced? && forall v | v in w.db.outputs :: !w.db.outputs[v].Uses(k)
  {
    var id :| HeldBy(w.workers, id, k);
    assert k in w.issued && w.issued[k].Produced? && w.issued[k].video == w.workers[id].video;
    assert w.workers[id].video in w.db.outputs ==> !w.db.outputs[w.workers[id].video].Uses(k);
  }

  // ---------------------------------------------------------------- every event hands over

  /** Every step moves the tables forward only. */
  lemma StepLater(cfg: Config, w: World, e: Event)
    requires Inv(cfg, w) && Enabled(cfg, w, e)
    ensures Later(w.db, Next(cfg, w, e).db)
  {
    hide Inv, Later, Perform;
    InvDbOk(cfg, w);
    hide DbOk;
    LaterRefl(w.db);
    match TxOf(cfg, w, e) {
      case None =>
      case Some(tx) => PerformIsLater(w.db, tx, w.clock, w.clock);
    }
  }

  // What an event asks of the database satisfies its WHERE clause; only completions complete.
  lemma AskedTx(cfg: Config, w: World, e: Event)
    requires Enabled(cfg, w, e) && TxOf(cfg, w, e).Some?
    ensures Selected(w.db, TxOf(cfg, w, e).value, w.clock)
    ensures !e.WorkerCompletes? ==> !TxOf(cfg, w, e).value.Complete?
  {
    hide Perform;
  }

  // Output metas are committed by completions alone.
  lemma StepOutputs(cfg: Config, w: World, e: Event)
    requires Enabled(cfg, w, e) && !e.WorkerCompletes?
    ensures Next(cfg, w, e).db.outputs == w.db.outputs
  {
    hide Perform, React, TxOf, Enabled, Selected;
    if TxOf(cfg, w, e).Some? {
      AskedTx(cfg, w, e);
      if Perform(w.db, TxOf(cfg, w, e).value, w.clock).Success? { OutputsStay(cfg, w, TxOf(cfg, w, e).value); }
    }
  }

  // No worker takes or gives up an object.
  lemma SameHandsHandOver(w: World, w': World)
    requires w'.leaked == w.leaked && w'.db.outputs == w.db.outputs
    requires forall id, k :: HeldBy(w'.workers, id, k) == HeldBy(w.workers, id, k)
    requires forall k | k in w.issued :: k in w'.issued && w'.issued[k] == w.issued[k]
    requires forall k | k in w'.issued && k !in w.issued :: w'.issued[k].Original?
    requires HoldingsOk(w.db.outputs, w.issued, w.workers)
    ensures HandsOver(w, w') && OutputsFromHands(w, w')
  {
  }

  lemma InvHoldings(cfg: Config, w: World)
    requires Inv(cfg, w)
    ensures HoldingsOk(w.db.outputs, w.issued, w.workers) && IssuedOk(w.db.videos, w.db.outputs, w.issued)
  {
  }

  predicate IsWorkerEvent(e: Event) {
    || e.WorkerUploadsVideo? || e.WorkerUploadsThumbnail? || e.WorkerCompletes? || e.WorkerRegisters?
    || e.WorkerRegisterFails? || e.WorkerFails? || e.WorkerCrashes?
  }

  function HeldAt(workers: map<Id, Worker>, id: Id): set<Key> {
    if id in workers then workers[id].Held() else {}
  }

  lemma OneWorkerChanged(workers: map<Id, Worker>, workers': map<Id, Worker>, id: Id)
    requires workers' - {id} == workers - {id} && HeldAt(workers', id) == HeldAt(workers, id)
    ensures forall i, k :: HeldBy(workers', i, k) == HeldBy(workers, i, k)
  {
    forall i, k
      ensures HeldBy(workers', i, k) == HeldBy(workers, i, k)
    {
      if i != id {
        assert i in workers - {id} <==> i in workers;
        assert i in workers' - {id} <==> i in workers';
      }
    }
  }

  // A worker's step in which no object changes hands.
  predicate IsIdle(e: Event) {
    || e.WorkerClaims? || e.WorkerValidates? || e.WorkerCancels? || e.WorkerCompletionAborts? || e.WorkerStageFails?
    || e.WorkerRetries?
  }

  // The worker of the event holds the same objects before and after.
  lemma IdleWorkerHolds(cfg: Config, w: World, e: Event)
    requires Enabled(cfg, w, e)
    requires IsIdle(e)
    ensures HeldAt(Next(cfg, w, e).workers, e.worker) == HeldAt(w.workers, e.worker)
  {
    hide Outcome, TxOf, Selected, CommitsOutput, Young, ReactCleaner, ReactScan;
    if e.WorkerStageFails? || e.WorkerCompletionAborts? || e.WorkerRetries? {
      ReturningWorkerHolds(cfg, w, e);
    } else {
      assert HeldAt(w.workers, e.worker) == {};
    }
  }

  lemma ReturningWorkerHolds(cfg: Config, w: World, e: Event)
    requires Enabled(cfg, w, e) && (e.WorkerStageFails? || e.WorkerCompletionAborts? || e.WorkerRetries?)
    ensures HeldAt(Next(cfg, w, e).workers, e.worker) == HeldAt(w.workers, e.worker)
  {
    hide Outcome, TxOf, Selected, CommitsOutput, Young, ReactCleaner, ReactScan;
    if e.WorkerStageFails? && w.workers[e.worker].Working? {
      assert NonBlank({0}) == {} && NonBlank({0, 0}) == {};
    }
  }

  lemma ChangedAt(workers: map<Id, Worker>, workers': map<Id, Worker>, id: Id)
    requires workers' == workers || workers' == workers - {id} || (id in workers' && workers' == workers[id := workers'[id]])
    ensures workers' - {id} == workers - {id}
  {
  }

  lemma ReturningWorkerFrame(cfg: Config, w: World, e: Event)
    requires Enabled(cfg, w, e) && (e.WorkerCancels? || e.WorkerRetries? || e.WorkerStageFails? || e.WorkerCompletionAborts?)
    ensures Next(cfg, w, e).leaked == w.leaked && Next(cfg, w, e).issued == w.issued
    ensures Next(cfg, w, e).workers - {e.worker} == w.workers - {e.worker}
  {
    hide Outcome, TxOf, Selected, ReactCleaner, ReactScan;
    if e.WorkerStageFails? || e.WorkerCompletionAborts? {
      ChangedAt(w.workers, Next(cfg, w, e).workers, e.worker);
    }
  }

  lemma IdleWorkerFrame(cfg: Config, w: World, e: Event)
    requires Enabled(cfg, w, e)
    requires IsIdle(e)
    ensures Next(cfg, w, e).leaked == w.leaked && Next(cfg, w, e).issued == w.issued
    ensures Next(cfg, w, e).workers - {e.worker} == w.workers - {e.worker}
  {
    hide Outcome, TxOf, Selected, ReactCleaner, ReactScan;
    if e.WorkerClaims? || e.WorkerValidates? {
      ChangedAt(w.workers, Next(cfg, w, e).workers, e.worker);
    } else {
      ReturningWorkerFrame(cfg, w, e);
    }
  }

  lemma IdleWorkerHandsOver(cfg: Config, w: World, e: Event)
    requires Enabled(cfg, w, e)
    requires IsIdle(e)
    ensures forall id, k :: HeldBy(Next(cfg, w, e).workers, id, k) == HeldBy(w.workers, id, k)
    ensures Next(cfg, w, e).leaked == w.leaked && Next(cfg, w, e).issued == w.issued
  {
    hide Enabled, Next, HeldAt, HeldBy;
    IdleWorkerHolds(cfg, w, e);
    IdleWorkerFrame(cfg, w, e);
    OneWorkerChanged(w.workers, Next(cfg, w, e).workers, e.worker);
  }

  // Events of others leave the workers alone and issue keys for originals at most.
  lemma OtherEventFrame(cfg: Config, w: World, e: Event)
    requires Enabled(cfg, w, e) && !IsWorkerEvent(e)
    requires !IsIdle(e)
    ensures var w' := Next(cfg, w, e);
            && w'.workers == w.workers && w'.leaked == w.leaked
            && (forall k | k in w.issued :: k in w'.issued && w'.issued[k] == w.issued[k])
            && (forall k | k in w'.issued && k !in w.issued :: w'.issued[k].Original?)
  {
    hide Outcome, TxOf, Selected, ReactWorker, ReactCleaner, ReactScan;
    if e.OfCleaner() {
      CleanerFrame(cfg, w, e, Outcome(cfg, w, e));
    } else if e.OfScan() {
      ScanFrame(cfg, w, e);
    }
  }

  lemma OtherEventHandsOver(cfg: Config, w: World, e: Event)
    requires Inv(cfg, w) && Enabled(cfg, w, e) && !IsWorkerEvent(e)
    ensures HandsOver(w, Next(cfg, w, e)) && OutputsFromHands(w, Next(cfg, w, e))
  {
    hide Inv, Enabled, Next, HeldBy, HoldingsOk, IssuedOk, HandsOver, OutputsFromHands;
    InvHoldings(cfg, w);
    StepOutputs(cfg, w, e);
    if IsIdle(e) {
      IdleWorkerHandsOver(cfg, w, e);
    } else {
      OtherEventFrame(cfg, w, e);
    }
    SameHandsHandOver(w, Next(cfg, w, e));
  }

  lemma UploadHandsOver(cfg: Config, w: World, e: Event)
    requires Inv(cfg, w) && Enabled(cfg, w, e) && (e.WorkerUploadsVideo? || e.WorkerUploadsThumbnail?)
    requires LeakedOk(w)
    ensures HandsOver(w, Next(cfg, w, e)) && OutputsFromHands(w, Next(cfg, w, e))
  {
    hide Inv, Settled, HoldingsOk, IssuedOk, HandsOver, OutputsFromHands, Young, Selected, CommitsOutput, ReactCleaner, ReactScan;
    InvHoldings(cfg, w);
    InvWorker(cfg, w, e.worker);
    var id, s := e.worker, w.workers[e.worker];
    var s' := if e.WorkerUploadsVideo? then HalfUploaded(s.job, s.video, s.attempt, e.key)
              else FullyUploaded(s.job, s.video, s.attempt, s.videoKey, e.key);
    assert s'.Held() == s.Held() + {e.key};
    var w' := Next(cfg, w, e);
    assert w' == StoreUpload(w, id, e.key, s');
    UploadedHands(w, id, e.key, s');
  }

  lemma UploadedHands(w: World, id: Id, key: Key, s: Worker)
    requires HoldingsOk(w.db.outputs, w.issued, w.workers) && id in w.workers && key !in w.issued
    requires s.Held() == w.workers[id].Held() + {key}
    requires forall k | k in w.leaked :: k in w.issued
    ensures HandsOver(w, StoreUpload(w, id, key, s)) && OutputsFromHands(w, StoreUpload(w, id, key, s))
  {
    hide Settled;
  }

  // One worker drops some objects: they leak or the tables know about them.
  lemma DroppedHandsOver(w: World, w': World, id: Id)
    requires id in w.workers && HoldingsOk(w.db.outputs, w.issued, w.workers)
    requires w'.issued == w.issued && w.leaked <= w'.leaked <= w.leaked + w.workers[id].Held()
    requires w'.db.outputs == w.db.outputs || w'.leaked == w.leaked
    requires forall other | other != id :: other in w'.workers <==> other in w.workers
    requires forall other | other != id && other in w.workers :: w'.workers[other] == w.workers[other]
    requires forall k | HeldBy(w'.workers, id, k) :: HeldBy(w.workers, id, k) && (k in w'.leaked ==> k in w.leaked)
    requires forall k | HeldBy(w.workers, id, k) ::
               HeldBy(w'.workers, id, k) || k in w'.leaked || Settled(w'.db, w.workers[id].video, k)
    ensures HandsOver(w, w')
  {
    hide Settled;
    forall k | k in w'.leaked && k !in w.leaked
      ensures InHands(w.workers, k)
    {
      assert HeldBy(w.workers, id, k);
    }
    forall other, k | HeldBy(w'.workers, other, k)
      ensures (k in w'.leaked ==> k in w.leaked) && HeldBy(w.workers, other, k)
    {
      if other != id {
        assert HeldBy(w.workers, other, k) && w.issued[k].worker == other;
        assert k !in w.workers[id].Held();
      }
    }
  }

  lemma CrashHandsOver(w: World, id: Id)
    requires id in w.workers && HoldingsOk(w.db.outputs, w.issued, w.workers)
    ensures var w' := DropWorker(w.(leaked := w.leaked + w.workers[id].Held()), id); HandsOver(w, w') && OutputsFromHands(w, w')
  {
    hide Settled;
    DroppedHandsOver(w, DropWorker(w.(leaked := w.leaked + w.workers[id].Held()), id), id);
  }

  lemma UnregisteredHandsOver(w: World, id: Id)
    requires id in w.workers && HoldingsOk(w.db.outputs, w.issued, w.workers) && WorkerOk(w.db, w.workers[id])
    requires w.workers[id].Registering? && NextKey(w.workers[id]) != 0
    ensures var w' := Handed(w.(leaked := w.leaked + {NextKey(w.workers[id])}), id); HandsOver(w, w') && OutputsFromHands(w, w')
  {
    hide Settled;
    DroppedHandsOver(w, Handed(w.(leaked := w.leaked + {NextKey(w.workers[id])}), id), id);
  }

  lemma LetGoHandsOver(cfg: Config, w: World, e: Event)
    requires Inv(cfg, w) && Enabled(cfg, w, e) && (e.WorkerCrashes? || e.WorkerRegisterFails?)
    ensures HandsOver(w, Next(cfg, w, e)) && OutputsFromHands(w, Next(cfg, w, e))
  {
    hide Inv, HandsOver, OutputsFromHands, HoldingsOk, IssuedOk, WorkerOk;
    InvHoldings(cfg, w);
    InvWorker(cfg, w, e.worker);
    if e.WorkerCrashes? {
      CrashHandsOver(w, e.worker);
    } else {
      UnregisteredHandsOver(w, e.worker);
    }
  }

  lemma RegisterSucceeds(db: Db, video: Id, key: Key, asset: C.AssetType, clock: Time)
    requires DbOk(db, clock) && video != 0 && key != 0
    ensures var r := Perform(db, Register(Some(video), key, asset, C.Rollback), clock);
            r.Success? && KeyRegistered(r.value.cleanups, key)
  {
    hide DbOk;
    assert clock != 0 by { ClockPositive(db, clock); }
    RegisterRegisters(db, Some(video), key, asset, C.Rollback, clock, clock);
    hide Perform;
    RegisteredOne(db.cleanups, Perform(db, Register(Some(video), key, asset, C.Rollback), clock).value.cleanups, key);
  }

  lemma ClockPositive(db: Db, clock: Time)
    requires DbOk(db, clock)
    ensures clock != 0
  {
  }

  // The registration of the worker's next object commits, and the object has a cleanup row then.
  predicate RegistersNext(cfg: Config, w: World, e: Event) {
    && Enabled(cfg, w, e) && e.WorkerRegisters? && Outcome(cfg, w, e).Success?
    && KeyRegistered(Outcome(cfg, w, e).value.cleanups, NextKey(w.workers[e.worker]))
  }

  lemma RegistrationSucceeds(cfg: Config, w: World, e: Event)
    requires e.WorkerRegisters? && Enabled(cfg, w, e) && Inv(cfg, w)
    ensures RegistersNext(cfg, w, e)
  {
    hide Inv, Perform, KeyRegistered, DbOk;
    InvDbOk(cfg, w);
    InvWorker(cfg, w, e.worker);
    VideoFacts(w.db, w.clock, w.workers[e.worker].video);
    var tx := TxOf(cfg, w, e).value;
    RegisterSucceeds(w.db, w.workers[e.worker].video, tx.key, tx.asset, w.clock);
  }

  lemma RegisteredOne(a: map<Id, C.Cleanup>, b: map<Id, C.Cleanup>, k: Key)
    requires Registers(a, b, {k})
    ensures KeyRegistered(b, k)
  {
  }

  // The next object of a worker gets its cleanup row.
  lemma HandedHandsOver(w: World, db': Db, id: Id)
    requires id in w.workers && HoldingsOk(w.db.outputs, w.issued, w.workers) && WorkerOk(w.db, w.workers[id])
    requires w.workers[id].Registering? && NextKey(w.workers[id]) != 0
    requires db'.outputs == w.db.outputs && KeyRegistered(db'.cleanups, NextKey(w.workers[id]))
    ensures var w' := Handed(w, id).(db := db'); HandsOver(w, w') && OutputsFromHands(w, w')
  {
    hide KeyRegistered;
    DroppedHandsOver(w, Handed(w, id).(db := db'), id);
  }

  lemma RegistersHandsOver(cfg: Config, w: World, e: Event)
    requires Inv(cfg, w) && Enabled(cfg, w, e) && e.WorkerRegisters?
    ensures HandsOver(w, Next(cfg, w, e)) && OutputsFromHands(w, Next(cfg, w, e))
  {
    hide Inv, Outcome, TxOf, HoldingsOk, IssuedOk, WorkerOk, HandsOver, OutputsFromHands, KeyRegistered, Handed;
    InvHoldings(cfg, w);
    InvWorker(cfg, w, e.worker);
    RegistrationSucceeds(cfg, w, e);
    StepOutputs(cfg, w, e);
    HandedHandsOver(w, Outcome(cfg, w, e).value, e.worker);
  }

  lemma FailsHandsOver(cfg: Config, w: World, e: Event)
    requires Inv(cfg, w) && Enabled(cfg, w, e) && e.WorkerFails?
    ensures HandsOver(w, Next(cfg, w, e)) && OutputsFromHands(w, Next(cfg, w, e))
  {
    hide Inv, Perform, DbOk;
    InvHoldings(cfg, w);
    InvDbOk(cfg, w);
    StepOutputs(cfg, w, e);
    var tx := TxOf(cfg, w, e).value;
    if Perform(w.db, tx, w.clock).Success? {
      PerformRegisters(w.db, tx, w.clock, w.clock);
    }
    hide KeyRegistered;
    DroppedHandsOver(w, Next(cfg, w, e), e.worker);
  }

  lemma CompletesHandsOver(cfg: Config, w: World, e: Event)
    requires Inv(cfg, w) && Enabled(cfg, w, e) && e.WorkerCompletes?
    ensures HandsOver(w, Next(cfg, w, e)) && OutputsFromHands(w, Next(cfg, w, e))
  {
    hide Inv, Perform, DbOk, Registers, Settled, KeyRegistered, Next;
    CompletionNext(cfg, w, e);
    InvHoldings(cfg, w);
    InvDbOk(cfg, w);
    InvWorker(cfg, w, e.worker);
    var tx := CompletionOf(w.workers[e.worker], e.valid);
    var w' := Next(cfg, w, e);
    if Perform(w.db, tx, w.clock).Success? {
      PerformRegisters(w.db, tx, w.clock, w.clock);
      CompletionSettles(w.db, tx, w.clock);
      var s := w.workers[e.worker];
      forall v, k | v in w'.db.outputs && v !in w.db.outputs && w'.db.outputs[v].Uses(k)
        ensures InHands(w.workers, k)
      {
        assert HeldBy(w.workers, e.worker, k);
      }
    }
    DroppedHandsOver(w, w', e.worker);
  }

  /** A successful completion commits both objects, or registers both because the video is gone. */
  lemma CompletionSettles(db: Db, tx: Tx, now: Time)
    requires tx.Complete? && Selected(db, tx, now) && Perform(db, tx, now).Success?
    requires Registers(db.cleanups, Perform(db, tx, now).value.cleanups, Targets(db, tx))
    requires tx.output.videoKey != 0 && tx.output.thumbnailKey != 0
    ensures var db' := Perform(db, tx, now).value;
            && tx.jobId in db.jobs
            && (forall k | k in {tx.output.videoKey, tx.output.thumbnailKey} :: Settled(db', db.jobs[tx.jobId].videoId, k))
            && (forall v | v in db'.outputs && v !in db.outputs ::
                  db'.outputs[v].videoKey == tx.output.videoKey && db'.outputs[v].thumbnailKey == tx.output.thumbnailKey)
  {
    hide KeyRegistered;
    CompleteSpares(db, tx, now);
  }

  lemma StepHandsOver(cfg: Config, w: World, e: Event)
    requires Inv(cfg, w) && Enabled(cfg, w, e) && LeakedOk(w)
    ensures HandsOver(w, Next(cfg, w, e)) && OutputsFromHands(w, Next(cfg, w, e))
  {
    hide Inv, Next, HandsOver, OutputsFromHands, LeakedOk;
    match e {
      case WorkerUploadsVideo(_, _) => UploadHandsOver(cfg, w, e);
      case WorkerUploadsThumbnail(_, _) => UploadHandsOver(cfg, w, e);
      case WorkerCompletes(_, _) => CompletesHandsOver(cfg, w, e);
      case WorkerRegisters(_) => RegistersHandsOver(cfg, w, e);
      case WorkerRegisterFails(_) => LetGoHandsOver(cfg, w, e);
      case WorkerCrashes(_) => LetGoHandsOver(cfg, w, e);
      case WorkerFails(_) => FailsHandsOver(cfg, w, e);
      case _ => OtherEventHandsOver(cfg, w, e);
    }
  }

  /** No step of any actor loses track of an object. */
  lemma StepAccounts(cfg: Config, w: World, e: Event)
    requires Inv(cfg, w) && Enabled(cfg, w, e) && Accounted(w) && LeakedOk(w)
    ensures Accounted(Next(cfg, w, e)) && LeakedOk(Next(cfg, w, e))
  {
    hide Inv, Next, HandsOver, OutputsFromHands, Accounted, LeakedOk;
    InvHoldings(cfg, w);
    StepLater(cfg, w, e);
    StepHandsOver(cfg, w, e);
    AccountedStays(w, Next(cfg, w, e));
    LeakedStays(w, Next(cfg, w, e));
  }
}
