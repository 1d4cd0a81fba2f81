/**
  Every step of the system keeps its invariant; what this means for whole runs.
 */
module Runs {
  import opened Common
  import opened VideoEntity
  import V = VideoJobEntity
  import opened Database
  import opened Coherence
  import opened Transactions
  import opened Effects
  import opened Protocol
  import opened Safety

  // ---------------------------------------------------------------- one step at a time

  // A transaction without creation or commit, performed in an invariant state.
  lemma TxKeeps(cfg: Config, w: World, tx: Tx)
    requires Inv(cfg, w) && Selected(w.db, tx, w.clock) && Permitted(w.db, tx)
    requires !tx.Create? && (tx.FinishUpload? ==> tx.videoId in w.found)
    requires Perform(w.db, tx, w.clock).Success?
    requires Perform(w.db, tx, w.clock).value.outputs == w.db.outputs
    requires TargetsCondemned(cfg, w, tx, Perform(w.db, tx, w.clock).value)
    ensures Inv(cfg, w.(db := Perform(w.db, tx, w.clock).value))
  {
    hide Perform, DbStep, TargetsCondemned, IssuedOk, HoldingsOk, WorkersOk, StoredOk, TargetsOk, CleanersOk, ScansOk, Durable;
    PerformIsDbStep(w, tx);
    PlainStepKeeps(cfg, w, tx, Perform(w.db, tx, w.clock).value);
  }

  // Only a completion changes the output metas.
  lemma OutputsStay(cfg: Config, w: World, tx: Tx)
    requires Selected(w.db, tx, w.clock) && Perform(w.db, tx, w.clock).Success? && !tx.Complete?
    ensures Perform(w.db, tx, w.clock).value.outputs == w.db.outputs
  {
    hide Perform;
    PerformBounded(w.db, tx, w.clock);
  }

  // A transaction that registers nothing.
  lemma HarmlessTxKeeps(cfg: Config, w: World, tx: Tx)
    requires Inv(cfg, w) && Selected(w.db, tx, w.clock) && Permitted(w.db, tx)
    requires !tx.Create? && !tx.Complete? && !tx.Delete? && !tx.Expire? && !tx.Fail? && !tx.Register?
    requires tx.FinishUpload? ==> tx.videoId in w.found
    ensures Perform(w.db, tx, w.clock).Success? ==> Inv(cfg, w.(db := Perform(w.db, tx, w.clock).value))
  {
    hide Perform, Inv;
    if Perform(w.db, tx, w.clock).Success? {
      OutputsStay(cfg, w, tx);
      TxKeeps(cfg, w, tx);
    }
  }

  // An object its worker has given up for registration is condemned.
  lemma GivenUpCondemned(cfg: Config, w: World, id: Id, k: Key, db': Db)
    requires HoldingsOk(w.db.outputs, w.issued, w.workers) && db'.outputs == w.db.outputs
    requires id in w.workers && k in w.workers[id].Held() && w.workers[id].Committable() == {}
    ensures Condemned(cfg, w.(db := db'), k)
  {
  }

  // Once its row is deleted, whatever a deletion registers is condemned.
  lemma DeletedTargets(cfg: Config, w: World, tx: Tx, db': Db)
    requires IssuedOk(w.db.videos, w.db.outputs, w.issued) && HoldingsOk(w.db.outputs, w.issued, w.workers)
    requires tx.Delete? && tx.videoId in w.db.videos && db'.outputs == w.db.outputs
    requires tx.videoId in db'.videos && db'.videos[tx.videoId].IsDeleted()
    ensures TargetsCondemned(cfg, w, tx, db')
  {
    forall k | k in Targets(w.db, tx)
      ensures Condemned(cfg, w.(db := db'), k)
    {
      if k != w.db.videos[tx.videoId].originalKey {
        assert w.db.outputs[tx.videoId].Uses(k);
        assert w.issued[k].worker in w.workers ==> k !in w.workers[w.issued[k].worker].Held();
      }
    }
  }

  lemma DeleteKeeps(cfg: Config, w: World, tx: Tx)
    requires Inv(cfg, w) && tx.Delete? && Perform(w.db, tx, w.clock).Success?
    ensures Inv(cfg, w.(db := Perform(w.db, tx, w.clock).value))
  {
    hide Perform, DbOk, IssuedOk, HoldingsOk, WorkersOk, StoredOk, TargetsOk, CleanersOk, ScansOk, Durable, TargetsCondemned;
    DeleteSpares(w.db, tx, w.clock);
    DeletedTargets(cfg, w, tx, Perform(w.db, tx, w.clock).value);
    hide Inv;
    TxKeeps(cfg, w, tx);
  }

  lemma ExpireKeeps(cfg: Config, w: World, tx: Tx)
    requires Inv(cfg, w) && tx.Expire? && Selected(w.db, tx, w.clock) && Perform(w.db, tx, w.clock).Success?
    ensures Inv(cfg, w.(db := Perform(w.db, tx, w.clock).value))
  {
    hide DbOk, HoldingsOk, WorkersOk, StoredOk, TargetsOk, CleanersOk, ScansOk, Durable;
    var db' := Perform(w.db, tx, w.clock).value;
    ExpireRowsSpares(w.db, tx.rows, w.clock);
    forall k | k in Targets(w.db, tx)
      ensures Condemned(cfg, w.(db := db'), k)
    {
      var i :| 0 <= i < |tx.rows| && w.db.videos[tx.rows[i]].originalKey == k;
      SweptOriginalsExpired(w.db, tx.rows, tx.limit, tx.rows[i], w.clock, w.clock);
    }
    hide IssuedOk, Perform;
    OutputsStay(cfg, w, tx);
    TxKeeps(cfg, w, tx);
  }

  lemma CreateIssues(cfg: Config, w: World, tx: Tx)
    requires Inv(cfg, w) && tx.Create? && tx.key != 0 && tx.key !in w.issued && Perform(w.db, tx, w.clock).Success?
    ensures Issues(w, w.(db := Perform(w.db, tx, w.clock).value, issued := w.issued[tx.key := Original(w.db.nextId)]),
                   tx.key, w.db.nextId)
  {
    hide DbOk, IssuedOk, HoldingsOk, WorkersOk, StoredOk, TargetsOk, CleanersOk, ScansOk, Durable;
    NextIdFresh(w.db, w.clock);
  }

  lemma DirectKeeps(cfg: Config, w: World, e: Event)
    requires Inv(cfg, w) && e.Direct? && Enabled(cfg, w, e)
    ensures Inv(cfg, Next(cfg, w, e))
  {
    hide Inv, Perform, DbStep, Issues;
    var tx := e.tx;
    var r := Perform(w.db, tx, w.clock);
    assert w.(db := w.db) == w;
    if r.Success? {
      if tx.Create? {
        InvDbOk(cfg, w);
        PerformIsDbStep(w, tx);
        CreateIssues(cfg, w, tx);
        CreateKeeps(cfg, w, tx, Next(cfg, w, e));
      } else if tx.Delete? {
        DeleteKeeps(cfg, w, tx);
      } else if tx.Expire? {
        ExpireKeeps(cfg, w, tx);
      } else {
        HarmlessTxKeeps(cfg, w, tx);
      }
    }
  }

  lemma InvDbOk(cfg: Config, w: World)
    requires Inv(cfg, w)
    ensures DbOk(w.db, w.clock) && cfg.Valid()
  {
  }

  // The state of a single worker, before its next step.
  lemma InvWorker(cfg: Config, w: World, id: Id)
    requires Inv(cfg, w) && id in w.workers
    ensures WorkerOk(w.db, w.workers[id])
  {
  }

  // A worker changes state, keeping or dropping what it holds.
  lemma SetWorkerKeeps(cfg: Config, w: World, id: Id, s: Worker, leaked: set<Key>)
    requires Inv(cfg, w) && WorkerOk(w.db, s)
    requires s.Held() != {} ==> id in w.workers && s.Held() <= w.workers[id].Held() && s.video == w.workers[id].video
    requires s.Committable() != {} ==> id in w.workers && s.Committable() <= w.workers[id].Committable()
    ensures Inv(cfg, SetWorker(w.(leaked := leaked), id, s))
  {
    hide DbOk, IssuedOk, HoldingsOk, StoredOk, TargetsOk, CleanersOk, ScansOk, Durable;
    assert WorkersLetGo(w.db, w.workers, w.workers[id := s]);
    hide WorkersLetGo, WorkersOk;
    LetGoKeeps(cfg, w, SetWorker(w.(leaked := leaked), id, s));
  }

  lemma DropWorkerKeeps(cfg: Config, w: World, id: Id, leaked: set<Key>)
    requires Inv(cfg, w)
    ensures Inv(cfg, DropWorker(w.(leaked := leaked), id))
  {
    hide DbOk, IssuedOk, HoldingsOk, StoredOk, TargetsOk, CleanersOk, ScansOk, Durable;
    assert WorkersLetGo(w.db, w.workers, w.workers - {id});
    hide WorkersLetGo, WorkersOk;
    LetGoKeeps(cfg, w, DropWorker(w.(leaked := leaked), id));
  }

  // A worker that has just been given a job knows it as the tables do.
  lemma ClaimedWorkerOk(db: Db, clock: Time, j: Id)
    requires DbOk(db, clock) && j in db.jobs && db.jobs[j].status == V.JobRunning
    ensures WorkerOk(db, Working(j, db.jobs[j].videoId, db.jobs[j].attempts, db.jobs[j].videoId in db.sources))
  {
    hide DbOk;
    JobFacts(db, clock, j);
  }

  lemma WorkerClaimsKeeps(cfg: Config, w: World, e: Event)
    requires Inv(cfg, w) && e.WorkerClaims? && Enabled(cfg, w, e)
    ensures Inv(cfg, Next(cfg, w, e))
  {
    hide ReactCleaner, ReactScan, Inv, Perform, DbOk, WorkerOk;
    var r := Perform(w.db, Claim(e.job), w.clock);
    HarmlessTxKeeps(cfg, w, Claim(e.job));
    assert w.(db := w.db) == w;
    if r.Success? && e.job in r.value.jobs && r.value.jobs[e.job].status == V.JobRunning {
      var w1 := w.(db := r.value);
      InvDbOk(cfg, w1);
      ClaimedWorkerOk(w1.db, w1.clock, e.job);
      var job := r.value.jobs[e.job];
      SetWorkerKeeps(cfg, w1, e.worker, Working(e.job, job.videoId, job.attempts, job.videoId in r.value.sources), w1.leaked);
    }
  }

  lemma WorkerValidatesKeeps(cfg: Config, w: World, e: Event)
    requires Inv(cfg, w) && e.WorkerValidates? && Enabled(cfg, w, e)
    ensures Inv(cfg, Next(cfg, w, e))
  {
    hide Perform, ReactCleaner, ReactScan, Inv;
    var s := w.workers[e.worker];
    var tx := RecordSource(s.video, e.meta);
    VideoRowTx(w.db, tx, w.clock);
    var r := Perform(w.db, tx, w.clock);
    InvWorker(cfg, w, e.worker);
    HarmlessTxKeeps(cfg, w, tx);
    assert w.(db := w.db) == w;
    if r.Success? {
      var w1 := w.(db := r.value);
      InvWorker(cfg, w1, e.worker);
      SetWorkerKeeps(cfg, w1, e.worker, s.(validated := true), w1.leaked);
    } else if r.error == VideoNotFound {
      assert w.db.videos[s.video].IsDeleted();
      SetWorkerKeeps(cfg, w, e.worker, Cancelling(s.job, s.video), w.leaked);
    }
  }

  lemma WorkerUploadsKeeps(cfg: Config, w: World, e: Event)
    requires Inv(cfg, w) && (e.WorkerUploadsVideo? || e.WorkerUploadsThumbnail?) && Enabled(cfg, w, e)
    ensures Inv(cfg, Next(cfg, w, e))
  {
    hide ReactCleaner, ReactScan, Inv;
    var id, s := e.worker, w.workers[e.worker];
    InvWorker(cfg, w, id);
    InvHeldIssued(cfg, w, id);
    var s' := if e.WorkerUploadsVideo? then HalfUploaded(s.job, s.video, s.attempt, e.key)
              else FullyUploaded(s.job, s.video, s.attempt, s.videoKey, e.key);
    assert s'.Held() == s.Committable() + {e.key};
    UploadKeeps(cfg, w, id, e.key, s');
    assert Next(cfg, w, e) == StoreUpload(w, id, e.key, s');
  }

  lemma InvHeldIssued(cfg: Config, w: World, id: Id)
    requires Inv(cfg, w) && id in w.workers
    ensures forall k | k in w.workers[id].Held() :: k in w.issued
  {
    hide DbOk, IssuedOk, WorkersOk, StoredOk, TargetsOk, CleanersOk, ScansOk, Durable;
  }

  // The transaction commits these tables.
  predicate Performs(w: World, tx: Tx, db': Db) {
    Selected(w.db, tx, w.clock) && Perform(w.db, tx, w.clock) == Success(db')
  }

  // The end of a completion that commits no output: its keys are condemned once the worker lets go of them.
  lemma UncommittedKeeps(cfg: Config, w: World, id: Id, tx: Tx, db': Db)
    requires id in w.workers && w.workers[id].FullyUploaded? && tx.Complete?
    requires tx == CompletionOf(w.workers[id], tx.output.valid)
    requires Inv(cfg, w) && Performs(w, tx, db') && db'.outputs == w.db.outputs
    ensures Inv(cfg, DropWorker(w.(db := db'), id))
  {
    hide Perform, DbOk, IssuedOk, WorkersOk, StoredOk, TargetsOk, CleanersOk, ScansOk, Durable;
    var s := w.workers[id];
    var w0 := DropWorker(w, id);
    forall k | k in Targets(w0.db, tx)
      ensures Condemned(cfg, w0.(db := db'), k)
    {
      assert k in s.Held();
    }
    hide HoldingsOk;
    DropWorkerKeeps(cfg, w, id, w.leaked);
    assert w.(leaked := w.leaked) == w;
    TxKeeps(cfg, w0, tx);
    assert w0.(db := db') == DropWorker(w.(db := db'), id);
  }

  lemma WorkerCompletesKeeps(cfg: Config, w: World, e: Event)
    requires Inv(cfg, w) && e.WorkerCompletes? && Enabled(cfg, w, e)
    ensures Inv(cfg, Next(cfg, w, e))
  {
    hide Inv, Next, Perform;
    CompletionNext(cfg, w, e);
    var id, s := e.worker, w.workers[e.worker];
    var tx := CompletionOf(s, e.valid);
    var r := Perform(w.db, tx, w.clock);
    InvWorker(cfg, w, id);
    if r.Failure? {
      SetWorkerKeeps(cfg, w, id, Registering(s.job, s.video, s.attempt, s.videoKey, s.thumbnailKey, V.NoError), w.leaked);
    } else if r.value.outputs == w.db.outputs {
      UncommittedKeeps(cfg, w, id, tx, r.value);
    } else {
      CommittedKeeps(cfg, w, id, tx, r.value);
    }
  }

  lemma CompletionNext(cfg: Config, w: World, e: Event)
    requires Enabled(cfg, w, e) && e.WorkerCompletes?
    ensures var s := w.workers[e.worker];
            var r := Perform(w.db, CompletionOf(s, e.valid), w.clock);
            Next(cfg, w, e)
            == if r.Success? then DropWorker(w.(db := r.value), e.worker)
               else SetWorker(w.(leaked := w.leaked), e.worker,
                              Registering(s.job, s.video, s.attempt, s.videoKey, s.thumbnailKey, V.NoError))
  {
    hide Perform, ReactCleaner, ReactScan, CommitsOutput, Young, Selected;
  }

  // The end of a completion that commits its output.
  lemma CommittedKeeps(cfg: Config, w: World, id: Id, tx: Tx, db': Db)
    requires id in w.workers && w.workers[id].FullyUploaded? && tx.Complete?
    requires tx == CompletionOf(w.workers[id], tx.output.valid) && Enabled(cfg, w, WorkerCompletes(id, tx.output.valid))
    requires Inv(cfg, w) && Performs(w, tx, db') && db'.outputs != w.db.outputs
    ensures Inv(cfg, DropWorker(w.(db := db'), id))
  {
    hide Inv, Perform, DbStep, DbOk;
    InvDbOk(cfg, w);
    InvWorker(cfg, w, id);
    PerformIsDbStep(w, tx);
    PerformBounded(w.db, tx, w.clock);
    CommitKeeps(cfg, w, id, tx, db');
  }

  lemma WorkerGivesUpKeeps(cfg: Config, w: World, e: Event)
    requires Inv(cfg, w) && (e.WorkerStageFails? || e.WorkerCompletionAborts?) && Enabled(cfg, w, e)
    ensures Inv(cfg, Next(cfg, w, e))
  {
    hide ReactCleaner, ReactScan, Inv, Perform, Selected, CommitsOutput, Young;
    InvWorker(cfg, w, e.worker);
    SetWorkerKeeps(cfg, w, e.worker, Next(cfg, w, e).workers[e.worker], w.leaked);
  }

  lemma WorkerLeaksKeeps(cfg: Config, w: World, e: Event)
    requires Inv(cfg, w) && (e.WorkerRegisterFails? || e.WorkerCrashes?) && Enabled(cfg, w, e)
    ensures Inv(cfg, Next(cfg, w, e))
  {
    hide Inv;
    if e.WorkerCrashes? {
      DropWorkerKeeps(cfg, w, e.worker, w.leaked + w.workers[e.worker].Held());
    } else {
      LeakedKeeps(cfg, w, w.leaked + {NextKey(w.workers[e.worker])});
      HandedKeeps(cfg, w.(leaked := w.leaked + {NextKey(w.workers[e.worker])}), e.worker);
    }
  }

  // The record of leaks is for the books only.
  lemma LeakedKeeps(cfg: Config, w: World, leaked: set<Key>)
    requires Inv(cfg, w)
    ensures Inv(cfg, w.(leaked := leaked))
  {
    hide DbOk, IssuedOk, HoldingsOk, StoredOk, TargetsOk, CleanersOk, ScansOk, Durable;
    assert WorkersLetGo(w.db, w.workers, w.workers);
    hide WorkersLetGo, WorkersOk;
    LetGoKeeps(cfg, w, w.(leaked := leaked));
  }

  lemma HandedKeeps(cfg: Config, w: World, id: Id)
    requires Inv(cfg, w) && id in w.workers && w.workers[id].Registering?
    ensures Inv(cfg, Handed(w, id))
  {
    hide Inv;
    InvWorker(cfg, w, id);
    assert w.(leaked := w.leaked) == w;
    var w' := Handed(w, id);
    if id in w'.workers {
      SetWorkerKeeps(cfg, w, id, w'.workers[id], w.leaked);
    } else {
      DropWorkerKeeps(cfg, w, id, w.leaked);
    }
  }

  lemma WorkerRegistersKeeps(cfg: Config, w: World, e: Event)
    requires Inv(cfg, w) && e.WorkerRegisters? && Enabled(cfg, w, e)
    ensures Inv(cfg, Next(cfg, w, e))
  {
    hide Perform, DbOk, IssuedOk, WorkersOk, StoredOk, TargetsOk, CleanersOk, ScansOk, Durable;
    var id, s := e.worker, w.workers[e.worker];
    var tx := TxOf(cfg, w, e).value;
    var r := Perform(w.db, tx, w.clock);
    if r.Success? {
      OutputsStay(cfg, w, tx);
      GivenUpCondemned(cfg, w, id, NextKey(s), r.value);
      hide HoldingsOk;
      TxKeeps(cfg, w, tx);
      HandedKeeps(cfg, w.(db := r.value), id);
    } else {
      hide HoldingsOk;
      HandedKeeps(cfg, w, id);
    }
  }

  lemma WorkerEndsKeeps(cfg: Config, w: World, e: Event)
    requires Inv(cfg, w) && (e.WorkerCancels? || e.WorkerRetries?) && Enabled(cfg, w, e)
    ensures Inv(cfg, Next(cfg, w, e))
  {
    hide Inv, Perform;
    var tx := TxOf(cfg, w, e).value;
    InvWorker(cfg, w, e.worker);
    HarmlessTxKeeps(cfg, w, tx);
    var r := Perform(w.db, tx, w.clock);
    var w1 := if r.Success? then w.(db := r.value) else w;
    assert w1.(leaked := w1.leaked) == w1;
    DropWorkerKeeps(cfg, w1, e.worker, w1.leaked);
  }

  lemma WorkerFailsKeeps(cfg: Config, w: World, e: Event)
    requires Inv(cfg, w) && e.WorkerFails? && Enabled(cfg, w, e)
    ensures Inv(cfg, Next(cfg, w, e))
  {
    hide Perform, DbOk, IssuedOk, WorkersOk, StoredOk, TargetsOk, CleanersOk, ScansOk, Durable;
    var id, s := e.worker, w.workers[e.worker];
    var tx := TxOf(cfg, w, e).value;
    var r := Perform(w.db, tx, w.clock);
    if r.Success? {
      OutputsStay(cfg, w, tx);
      forall k | k in Targets(w.db, tx)
        ensures Condemned(cfg, w.(db := r.value), k)
      {
        GivenUpCondemned(cfg, w, id, k, r.value);
      }
      hide HoldingsOk;
      TxKeeps(cfg, w, tx);
      DropWorkerKeeps(cfg, w.(db := r.value), id, w.leaked);
    } else {
      hide HoldingsOk;
      DropWorkerKeeps(cfg, w, id, w.leaked + s.Held());
    }
  }

  // ---------------------------------------------------------------- cleanup workers and scans

  lemma CleanersChangeKeeps(cfg: Config, w: World, cleaners: map<Id, Cleaner>)
    requires Inv(cfg, w) && CleanersOk(w.db.cleanups, cleaners)
    ensures Inv(cfg, w.(cleaners := cleaners))
  {
    hide DbOk, IssuedOk, HoldingsOk, WorkersOk, StoredOk, TargetsOk, CleanersOk, ScansOk, Durable;
    IdleKeeps(cfg, w, w.(cleaners := cleaners));
  }

  lemma InvCleaners(cfg: Config, w: World)
    requires Inv(cfg, w)
    ensures CleanersOk(w.db.cleanups, w.cleaners)
  {
  }

  // A cleanup worker that has just been given a job knows it as the tables do.
  lemma ClaimedCleanerOk(db: Db, clock: Time, cleaners: map<Id, Cleaner>, id: Id, c: Id)
    requires DbOk(db, clock) && CleanersOk(db.cleanups, cleaners) && c in db.cleanups && db.cleanups[c].attempts >= 1
    ensures CleanersOk(db.cleanups, cleaners[id := Deleting(c, db.cleanups[c].key, db.cleanups[c].attempts)])
  {
    hide DbOk;
    CleanupFacts(db, clock, c);
  }

  lemma CleanerClaimsKeeps(cfg: Config, w: World, e: Event)
    requires Inv(cfg, w) && e.CleanerClaims? && Enabled(cfg, w, e)
    ensures Inv(cfg, Next(cfg, w, e))
  {
    hide ReactWorker, ReactScan, Inv, Perform, DbOk, CleanersOk;
    var tx := ClaimClean(e.cleanup);
    var r := Perform(w.db, tx, w.clock);
    HarmlessTxKeeps(cfg, w, tx);
    assert w.(db := w.db) == w;
    if r.Success? && e.cleanup in r.value.cleanups {
      var w1 := w.(db := r.value);
      ClaimCounts(w.db, e.cleanup, w.clock);
      InvDbOk(cfg, w1);
      InvCleaners(cfg, w1);
      ClaimedCleanerOk(w1.db, w1.clock, w1.cleaners, e.cleaner, e.cleanup);
      var row := r.value.cleanups[e.cleanup];
      CleanersChangeKeeps(cfg, w1, w1.cleaners[e.cleaner := Deleting(e.cleanup, row.key, row.attempts)]);
    }
  }

  lemma ClaimCounts(db: Db, c: Id, now: Time)
    requires Selected(db, ClaimClean(c), now) && Perform(db, ClaimClean(c), now).Success?
    ensures Perform(db, ClaimClean(c), now).value.cleanups[c].attempts == db.cleanups[c].attempts + 1 >= 1
  {
  }

  lemma CleanerEndsKeeps(cfg: Config, w: World, e: Event)
    requires Inv(cfg, w) && (e.CleanerSucceeds? || e.CleanerFails? || e.CleanerCrashes?) && Enabled(cfg, w, e)
    ensures Inv(cfg, Next(cfg, w, e))
  {
    hide ReactWorker, ReactScan, Inv, Perform, CommitsOutput, Young;
    var w1 := w;
    if !e.CleanerCrashes? {
      var tx := TxOf(cfg, w, e).value;
      HarmlessTxKeeps(cfg, w, tx);
      var r := Perform(w.db, tx, w.clock);
      w1 := if r.Success? then w.(db := r.value) else w;
    }
    InvCleaners(cfg, w1);
    CleanersChangeKeeps(cfg, w1, w1.cleaners - {e.cleaner});
  }

  lemma CleanerDeletesKeeps(cfg: Config, w: World, e: Event)
    requires Inv(cfg, w) && e.CleanerDeletes? && Enabled(cfg, w, e)
    ensures Inv(cfg, Next(cfg, w, e)) && Condemned(cfg, w, w.cleaners[e.cleaner].key)
  {
    hide Inv;
    var s := w.cleaners[e.cleaner];
    CleanerKeyCondemned(cfg, w, e.cleaner);
    DeleteObjectKeeps(cfg, w, s.key);
    var w1 := w.(stored := w.stored - {s.key});
    InvCleaners(cfg, w1);
    CleanersChangeKeeps(cfg, w1, w1.cleaners[e.cleaner := Deleted(s.cleanup, s.attempt)]);
  }

  lemma CleanerKeyCondemned(cfg: Config, w: World, id: Id)
    requires Inv(cfg, w) && id in w.cleaners && w.cleaners[id].Deleting?
    ensures Condemned(cfg, w, w.cleaners[id].key)
  {
  }

  lemma SetScanKeeps(cfg: Config, w: World, id: Id, s: Scan)
    requires Inv(cfg, w) && ScanOk(cfg, w, s)
    ensures Inv(cfg, SetScan(w, id, s))
  {
    hide DbOk, IssuedOk, HoldingsOk, WorkersOk, StoredOk, TargetsOk, CleanersOk, ScansOk, Durable;
    IdleKeeps(cfg, w, SetScan(w, id, s));
  }

  lemma InvScans(cfg: Config, w: World)
    requires Inv(cfg, w)
    ensures IssuedOk(w.db.videos, w.db.outputs, w.issued) && StoredOk(w.stored, w.issued, w.clock) && ScansOk(cfg, w)
  {
  }

  // What a scan knows after listing a key, after its first and after its second look for references.
  lemma ListedOk(cfg: Config, w: World, started: Time, key: Key)
    requires StoredOk(w.stored, w.issued, w.clock) && started <= w.clock
    requires key in w.stored && w.stored[key] + cfg.orphanMinAge <= started
    ensures ScanOk(cfg, w, Looking(started, key))
  {
  }

  lemma NotOriginalOk(cfg: Config, w: World, s: Scan)
    requires IssuedOk(w.db.videos, w.db.outputs, w.issued) && s.Looking? && ScanOk(cfg, w, s) && !IsOriginal(w.db, s.key)
    ensures ScanOk(cfg, w, NotOriginal(s.started, s.key))
  {
  }

  lemma OrphanOk(cfg: Config, w: World, s: Scan)
    requires s.NotOriginal? && ScanOk(cfg, w, s) && !IsOutput(w.db, s.key)
    ensures ScanOk(cfg, w, Orphan(s.started, s.key))
  {
    assert forall v | v in w.db.outputs :: !w.db.outputs[v].Uses(s.key);
  }

  lemma ScanReadOk(cfg: Config, w: World, e: Event)
    requires Inv(cfg, w) && Enabled(cfg, w, e)
    requires e.ScanBegins? || e.ScanLists? || e.ScanChecksOriginals? || e.ScanChecksOutputs?
    ensures ScanOk(cfg, w, ReactScan(cfg, w, e).scans[e.scan])
  {
    hide Inv, IssuedOk, StoredOk, IsOriginal, IsOutput;
    InvScans(cfg, w);
    match e {
      case ScanBegins(_) =>
      case ScanLists(id, key) => ListedOk(cfg, w, w.scans[id].started, key);
      case ScanChecksOriginals(id) => if !IsOriginal(w.db, w.scans[id].key) { NotOriginalOk(cfg, w, w.scans[id]); }
      case ScanChecksOutputs(id) => if !IsOutput(w.db, w.scans[id].key) { OrphanOk(cfg, w, w.scans[id]); }
    }
  }

  lemma ScanReadsKeeps(cfg: Config, w: World, e: Event)
    requires Inv(cfg, w) && Enabled(cfg, w, e)
    requires e.ScanBegins? || e.ScanLists? || e.ScanChecksOriginals? || e.ScanChecksOutputs?
    ensures Inv(cfg, Next(cfg, w, e))
  {
    hide Inv, Perform, ReactWorker, ReactCleaner, IsOriginal, IsOutput;
    ScanReadOk(cfg, w, e);
    SetScanKeeps(cfg, w, e.scan, ReactScan(cfg, w, e).scans[e.scan]);
  }

  lemma ScanRegistersKeeps(cfg: Config, w: World, e: Event)
    requires Inv(cfg, w) && e.ScanRegisters? && Enabled(cfg, w, e)
    ensures Inv(cfg, Next(cfg, w, e))
  {
    hide Perform, DbOk, IssuedOk, HoldingsOk, WorkersOk, StoredOk, TargetsOk, CleanersOk, Durable;
    var tx := TxOf(cfg, w, e).value;
    var r := Perform(w.db, tx, w.clock);
    var s := w.scans[e.scan];
    assert ScanOk(cfg, w, s);
    if r.Success? {
      OutputsStay(cfg, w, tx);
      RegisterSparesVideos(w.db, tx, w.clock);
      hide ScansOk;
      TxKeeps(cfg, w, tx);
      SetScanKeeps(cfg, w.(db := r.value), e.scan, Scanning(s.started));
    } else {
      hide ScansOk;
      SetScanKeeps(cfg, w, e.scan, Scanning(s.started));
    }
  }

  lemma RegisterSparesVideos(db: Db, tx: Tx, now: Time)
    requires tx.Register? && Perform(db, tx, now).Success?
    ensures Perform(db, tx, now).value.videos == db.videos
  {
  }

  lemma QuietEventKeeps(cfg: Config, w: World, e: Event)
    requires Inv(cfg, w) && Enabled(cfg, w, e)
    requires e.Tick? || e.PutOriginal? || e.StatOriginal? || e.ScanEnds?
    ensures Inv(cfg, Next(cfg, w, e))
  {
    hide ReactWorker, ReactCleaner, Perform, Selected, CommitsOutput, Young, IsDirect, Condemned, DbOk, IssuedOk;
    hide HoldingsOk, WorkersOk, StoredOk, TargetsOk, CleanersOk, ScansOk, Durable, ScanOk;
    if e.PutOriginal? {
      PutOriginalKeeps(cfg, w, e.video);
    } else {
      IdleKeeps(cfg, w, Next(cfg, w, e));
    }
  }

  lemma CompleteUploadCallKeeps(cfg: Config, w: World, e: Event)
    requires Inv(cfg, w) && e.CompleteUploadCall? && Enabled(cfg, w, e)
    ensures Inv(cfg, Next(cfg, w, e))
  {
    hide Inv, Perform;
    HarmlessTxKeeps(cfg, w, FinishUpload(e.userId, e.video));
    assert w.(db := w.db) == w;
  }

  /** Every step of every actor keeps the system invariant. */
  lemma StepKeeps(cfg: Config, w: World, e: Event)
    requires Inv(cfg, w) && Enabled(cfg, w, e)
    ensures Inv(cfg, Next(cfg, w, e))
  {
    hide Inv, Next;
    match e {
      case Direct(_) => DirectKeeps(cfg, w, e);
      case CompleteUploadCall(_, _) => CompleteUploadCallKeeps(cfg, w, e);
      case WorkerClaims(_, _) => WorkerClaimsKeeps(cfg, w, e);
      case WorkerValidates(_, _) => WorkerValidatesKeeps(cfg, w, e);
      case WorkerUploadsVideo(_, _) => WorkerUploadsKeeps(cfg, w, e);
      case WorkerUploadsThumbnail(_, _) => WorkerUploadsKeeps(cfg, w, e);
      case WorkerCompletes(_, _) => WorkerCompletesKeeps(cfg, w, e);
      case WorkerCompletionAborts(_) => WorkerGivesUpKeeps(cfg, w, e);
      case WorkerStageFails(_, _, _) => WorkerGivesUpKeeps(cfg, w, e);
      case WorkerRegisters(_) => WorkerRegistersKeeps(cfg, w, e);
      case WorkerRegisterFails(_) => WorkerLeaksKeeps(cfg, w, e);
      case WorkerCancels(_) => WorkerEndsKeeps(cfg, w, e);
      case WorkerRetries(_) => WorkerEndsKeeps(cfg, w, e);
      case WorkerFails(_) => WorkerFailsKeeps(cfg, w, e);
      case WorkerCrashes(_) => WorkerLeaksKeeps(cfg, w, e);
      case CleanerClaims(_, _) => CleanerClaimsKeeps(cfg, w, e);
      case CleanerDeletes(_) => CleanerDeletesKeeps(cfg, w, e);
      case CleanerSucceeds(_) => CleanerEndsKeeps(cfg, w, e);
      case CleanerFails(_, _, _) => CleanerEndsKeeps(cfg, w, e);
      case CleanerCrashes(_) => CleanerEndsKeeps(cfg, w, e);
      case ScanBegins(_) => ScanReadsKeeps(cfg, w, e);
      case ScanLists(_, _) => ScanReadsKeeps(cfg, w, e);
      case ScanChecksOriginals(_) => ScanReadsKeeps(cfg, w, e);
      case ScanChecksOutputs(_) => ScanReadsKeeps(cfg, w, e);
      case ScanRegisters(_) => ScanRegistersKeeps(cfg, w, e);
      case _ => QuietEventKeeps(cfg, w, e);
    }
  }
}
