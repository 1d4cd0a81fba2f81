/**
  Object safety: in every reachable state whatever a cleanup job, a cleanup worker or an orphan scan is about to
  delete is condemned, that is out of use for good; so no object in use is ever lost.
 */
module Safety {
  import opened Common
  import opened VideoEntity
  import V = VideoJobEntity
  import opened Database
  import opened Coherence
  import opened Transactions
  import opened Effects
  import opened Protocol

  // ---------------------------------------------------------------- the invariant

  /** Every key in use was issued for the row that uses it. */
  ghost predicate IssuedOk(videos: map<Id, Video>, outputs: map<Id, OutputMeta>, issued: map<Key, Origin>) {
    && 0 !in issued
    && (forall v | v in videos :: videos[v].originalKey in issued && issued[videos[v].originalKey] == Original(v))
    && (forall k | k in issued && issued[k].Original? ::
          issued[k].video in videos && videos[issued[k].video].originalKey == k)
    && (forall v, k | v in outputs && outputs[v].Uses(k) ::
          k in issued && issued[k].Produced? && issued[k].video == v)
  }

  // The object was uploaded by the worker for the video and is not committed.
  predicate Holding(outputs: map<Id, OutputMeta>, issued: map<Key, Origin>, id: Id, video: Id, k: Key) {
    && k in issued && issued[k].Produced? && issued[k].worker == id && issued[k].video == video
    && (video in outputs ==> !outputs[video].Uses(k))
  }

  /** Workers hold only what they uploaded themselves and what has not been committed. */
  ghost predicate HoldingsOk(outputs: map<Id, OutputMeta>, issued: map<Key, Origin>, workers: map<Id, Worker>) {
    forall id, k | id in workers && k in workers[id].Held() :: Holding(outputs, issued, id, workers[id].video, k)
  }

  predicate WorkerOk(db: Db, s: Worker) {
    && s.job in db.jobs && db.jobs[s.job].videoId == s.video && s.video in db.videos
    && (s.Cancelling? ==> db.videos[s.video].IsDeleted())
    && (s.Working? || s.HalfUploaded? || s.FullyUploaded? || s.Registering? ==> 1 <= s.attempt <= 4)
    && (s.Registering? ==> if s.retry == V.NoError then NextKey(s) != 0 else s.attempt <= 3)
    && (s.Registering? && s.videoKey != 0 ==> s.videoKey != s.thumbnailKey)
    && (s.HalfUploaded? ==> s.videoKey != 0)
    && (s.FullyUploaded? ==> s.videoKey != 0 && s.thumbnailKey != 0 && s.videoKey != s.thumbnailKey)
    && (s.Failing? ==> s.why != V.NoError)
  }

  ghost predicate WorkersOk(db: Db, workers: map<Id, Worker>) {
    forall id | id in workers :: WorkerOk(db, workers[id])
  }

  ghost predicate StoredOk(stored: map<Key, Time>, issued: map<Key, Origin>, clock: Time) {
    && (forall k | k in stored :: k in issued && (issued[k].Produced? ==> stored[k] == issued[k].at))
    && (forall k | k in issued && issued[k].Produced? :: issued[k].at <= clock)
  }

  predicate Pending(workers: map<Id, Worker>, id: Id, k: Key) {
    id in workers && k in workers[id].Committable()
  }

  /**
    A key is condemned when nothing uses it and nothing ever will: the original of a deleted or expired video, or
    a produced object that only a deleted video's output meta may mention and that is too old to be committed.
   */
  predicate Condemned(cfg: Config, w: World, k: Key) {
    && k in w.issued
    && match w.issued[k]
       case Original(v) => v in w.db.videos && (w.db.videos[v].IsDeleted() || w.db.videos[v].processing == Expired)
       case Produced(id, v, at) =>
         && (v in w.db.outputs && w.db.outputs[v].Uses(k) ==> v in w.db.videos && w.db.videos[v].IsDeleted())
         && (Pending(w.workers, id, k) ==> !Young(cfg, w, k))
  }

  ghost predicate TargetsOk(cfg: Config, w: World) {
    forall c | c in w.db.cleanups :: Condemned(cfg, w, w.db.cleanups[c].key)
  }

  ghost predicate CleanersOk(cleanups: map<Id, Cleanup>, cleaners: map<Id, Cleaner>) {
    forall id | id in cleaners ::
      && cleaners[id].cleanup in cleanups && 1 <= cleaners[id].attempt <= 4
      && (cleaners[id].Deleting? ==> cleanups[cleaners[id].cleanup].key == cleaners[id].key)
  }

  predicate ScanOk(cfg: Config, w: World, s: Scan) {
    && s.started <= w.clock
    && (s.Looking? || s.NotOriginal? || s.Orphan? ==>
          s.key in w.issued && (w.issued[s.key].Produced? ==> w.issued[s.key].at + cfg.orphanMinAge <= s.started))
    && (s.NotOriginal? ==> w.issued[s.key].Produced?)
    && (s.Orphan? ==> Condemned(cfg, w, s.key))
  }

  ghost predicate ScansOk(cfg: Config, w: World) {
    forall id | id in w.scans :: ScanOk(cfg, w, w.scans[id])
  }

  ghost predicate OutputsStored(db: Db, stored: map<Key, Time>) {
    forall v, k | v in db.outputs && db.HasVideo(v) && db.outputs[v].Uses(k) :: k in stored
  }

  ghost predicate OriginalsStored(db: Db, stored: map<Key, Time>, found: set<Id>) {
    forall v | db.HasVideo(v) && (!NeverUploaded(db.videos[v]) || (v in found && db.videos[v].processing == Uploading)) ::
      db.videos[v].originalKey in stored
  }

  // An object in a worker's hands may be gone only once it is too old to be committed.
  ghost predicate HeldStored(cfg: Config, w: World) {
    forall id, k | id in w.workers && k in w.workers[id].Committable() && Young(cfg, w, k) :: k in w.stored
  }

  /** Everything in use is in the store. */
  ghost predicate Durable(cfg: Config, w: World) {
    OutputsStored(w.db, w.stored) && OriginalsStored(w.db, w.stored, w.found) && HeldStored(cfg, w)
  }

  ghost predicate Inv(cfg: Config, w: World) {
    && cfg.Valid()
    && DbOk(w.db, w.clock)
    && IssuedOk(w.db.videos, w.db.outputs, w.issued)
    && HoldingsOk(w.db.outputs, w.issued, w.workers)
    && WorkersOk(w.db, w.workers)
    && StoredOk(w.stored, w.issued, w.clock)
    && TargetsOk(cfg, w)
    && CleanersOk(w.db.cleanups, w.cleaners)
    && ScansOk(cfg, w)
    && Durable(cfg, w)
    && (forall v | v in w.found :: v in w.db.videos)
  }

  // ---------------------------------------------------------------- condemned for good

  // What may change without bringing a condemned key back into use.
  ghost predicate NoRevival(cfg: Config, w: World, w': World) {
    && w.clock <= w'.clock
    && (forall k | k in w.issued :: k in w'.issued && w'.issued[k] == w.issued[k])
    && VideosLater(w.db.videos, w'.db.videos)
    && (forall v | v in w'.db.outputs && v !in w.db.outputs ::
          forall k | w'.db.outputs[v].Uses(k) :: k in w.issued && !Condemned(cfg, w, k))
    && (forall v | v in w.db.outputs :: v in w'.db.outputs && w'.db.outputs[v] == w.db.outputs[v])
    && (forall id, k | id in w'.workers && k in w'.workers[id].Committable() && k in w.issued :: Pending(w.workers, id, k))
  }

  lemma StaysCondemned(cfg: Config, w: World, w': World, k: Key)
    requires NoRevival(cfg, w, w') && Condemned(cfg, w, k)
    ensures Condemned(cfg, w', k)
  {
  }

  // ---------------------------------------------------------------- steps of the database

  /** What the rest of the system relies on about a transaction, given only its results. */
  ghost predicate DbStep(w: World, tx: Tx, db': Db) {
    && DbOk(db', w.clock) && Later(w.db, db') && Bounded(w.db, db', tx, w.clock)
    && Registers(w.db.cleanups, db'.cleanups, Targets(w.db, tx))
  }

  lemma PerformIsDbStep(w: World, tx: Tx)
    requires DbOk(w.db, w.clock) && Selected(w.db, tx, w.clock) && Permitted(w.db, tx)
    ensures Perform(w.db, tx, w.clock).Success? ==> DbStep(w, tx, Perform(w.db, tx, w.clock).value)
  {
    hide DbOk, Perform, Later, Registers, Bounded;
    if Perform(w.db, tx, w.clock).Success? {
      PerformKeepsOk(w.db, tx, w.clock, w.clock);
      PerformIsLater(w.db, tx, w.clock, w.clock);
      PerformRegisters(w.db, tx, w.clock, w.clock);
      PerformBounded(w.db, tx, w.clock);
    }
  }

  // The original key of every video it registers is condemned with it.
  ghost predicate TargetsCondemned(cfg: Config, w: World, tx: Tx, db': Db) {
    forall k | k in Targets(w.db, tx) :: Condemned(cfg, w.(db := db'), k)
  }

  // A transaction that neither creates a video nor commits an output.
  ghost predicate PlainStep(cfg: Config, w: World, tx: Tx, db': Db) {
    && DbStep(w, tx, db') && !tx.Create? && db'.outputs == w.db.outputs
    && (tx.FinishUpload? ==> tx.videoId in w.found)
  }

  lemma PlainVideos(cfg: Config, w: World, tx: Tx, db': Db)
    requires PlainStep(cfg, w, tx, db')
    ensures db'.videos.Keys == w.db.videos.Keys && VideosLater(w.db.videos, db'.videos)
  {
  }

  lemma PlainIssued(cfg: Config, w: World, db': Db)
    requires IssuedOk(w.db.videos, w.db.outputs, w.issued)
    requires db'.videos.Keys == w.db.videos.Keys && VideosLater(w.db.videos, db'.videos) && db'.outputs == w.db.outputs
    ensures IssuedOk(db'.videos, db'.outputs, w.issued)
  {
  }

  lemma WorkersStay(a: Db, b: Db, workers: map<Id, Worker>)
    requires WorkersOk(a, workers) && VideosLater(a.videos, b.videos) && JobsLater(a.jobs, b.jobs)
    ensures WorkersOk(b, workers)
  {
  }

  lemma CleanersStay(a: map<Id, Cleanup>, b: map<Id, Cleanup>, cleaners: map<Id, Cleaner>)
    requires CleanersOk(a, cleaners) && CleanupsLater(a, b)
    ensures CleanersOk(b, cleaners)
  {
  }

  lemma PlainTargets(cfg: Config, w: World, tx: Tx, db': Db)
    requires TargetsOk(cfg, w) && TargetsCondemned(cfg, w, tx, db')
    requires Registers(w.db.cleanups, db'.cleanups, Targets(w.db, tx))
    requires NoRevival(cfg, w, w.(db := db'))
    ensures TargetsOk(cfg, w.(db := db'))
  {
    forall c | c in db'.cleanups
      ensures Condemned(cfg, w.(db := db'), db'.cleanups[c].key)
    {
      if c in w.db.cleanups {
        StaysCondemned(cfg, w, w.(db := db'), w.db.cleanups[c].key);
      }
    }
  }

  lemma ScansStay(cfg: Config, w: World, w': World)
    requires ScansOk(cfg, w) && NoRevival(cfg, w, w') && w'.scans == w.scans
    ensures ScansOk(cfg, w')
  {
    forall id | id in w'.scans
      ensures ScanOk(cfg, w', w'.scans[id])
    {
      if w.scans[id].Orphan? { StaysCondemned(cfg, w, w', w.scans[id].key); }
    }
  }

  lemma PlainDurable(cfg: Config, w: World, tx: Tx, db': Db)
    requires Durable(cfg, w)
    requires db'.videos.Keys == w.db.videos.Keys && VideosLater(w.db.videos, db'.videos) && db'.outputs == w.db.outputs
    requires UploadsBy(w.db, db', tx) && (tx.FinishUpload? ==> tx.videoId in w.found)
    ensures Durable(cfg, w.(db := db'))
  {
    forall v | db'.HasVideo(v)
      ensures w.db.HasVideo(v)
      ensures !NeverUploaded(db'.videos[v]) ==>
                !NeverUploaded(w.db.videos[v]) || (v in w.found && w.db.videos[v].processing == Uploading)
      ensures db'.videos[v].processing == Uploading ==> w.db.videos[v].processing == Uploading
    {
    }
    var w' := w.(db := db');
    assert OriginalsStored(w'.db, w'.stored, w'.found);
    assert OutputsStored(w'.db, w'.stored);
    assert HeldStored(cfg, w') by { hide OutputsStored, OriginalsStored, VideosLater, UploadsBy; }
  }

  lemma PlainNoRevival(cfg: Config, w: World, db': Db)
    requires VideosLater(w.db.videos, db'.videos) && db'.outputs == w.db.outputs
    ensures NoRevival(cfg, w, w.(db := db'))
  {
  }

  /** A transaction without creation or commit keeps the system invariant, if what it registers is condemned. */
  lemma PlainStepKeeps(cfg: Config, w: World, tx: Tx, db': Db)
    requires Inv(cfg, w) && PlainStep(cfg, w, tx, db') && TargetsCondemned(cfg, w, tx, db')
    ensures Inv(cfg, w.(db := db'))
  {
    hide DbOk, IssuedOk, HoldingsOk, WorkersOk, StoredOk, TargetsOk, CleanersOk, ScansOk, Durable;
    hide NoRevival, Registers, VideosLater, JobsLater, CleanupsLater, UploadsBy, CreatesBy, OutputsBy, TargetsCondemned;
    PlainVideos(cfg, w, tx, db');
    PlainIssued(cfg, w, db');
    PlainNoRevival(cfg, w, db');
    WorkersStay(w.db, db', w.workers);
    CleanersStay(w.db.cleanups, db'.cleanups, w.cleaners);
    PlainTargets(cfg, w, tx, db');
    ScansStay(cfg, w, w.(db := db'));
    PlainDurable(cfg, w, tx, db');
  }

  // A fresh key is issued; everything else about the actors stays.
  ghost predicate Issues(w: World, w': World, key: Key, v: Id) {
    && key != 0 && key !in w.issued && w' == w.(db := w'.db, issued := w.issued[key := Original(v)])
    && w'.db.outputs == w.db.outputs && VideosLater(w.db.videos, w'.db.videos)
    && v !in w.db.videos && w'.db.videos.Keys == w.db.videos.Keys + {v}
    && w'.db.videos[v].originalKey == key && w'.db.videos[v].processing == Uploading
    && (forall u | u in w.db.videos && NeverUploaded(w.db.videos[u]) :: NeverUploaded(w'.db.videos[u]))
  }

  lemma IssueKeepsIssued(w: World, w': World, key: Key, v: Id)
    requires Issues(w, w', key, v) && IssuedOk(w.db.videos, w.db.outputs, w.issued)
    ensures IssuedOk(w'.db.videos, w'.db.outputs, w'.issued)
  {
  }

  lemma IssueKeeps(cfg: Config, w: World, w': World, key: Key, v: Id)
    requires Issues(w, w', key, v) && IssuedOk(w.db.videos, w.db.outputs, w.issued)
    requires HoldingsOk(w.db.outputs, w.issued, w.workers) && StoredOk(w.stored, w.issued, w.clock)
    ensures IssuedOk(w'.db.videos, w'.db.outputs, w'.issued)
    ensures HoldingsOk(w'.db.outputs, w'.issued, w'.workers) && StoredOk(w'.stored, w'.issued, w'.clock)
  {
    hide IssuedOk, VideosLater;
    IssueKeepsIssued(w, w', key, v);
  }

  lemma IssueNoRevival(cfg: Config, w: World, w': World, key: Key, v: Id)
    requires Issues(w, w', key, v)
    ensures NoRevival(cfg, w, w')
  {
  }

  lemma IssueDurable(cfg: Config, w: World, w': World, key: Key, v: Id)
    requires Issues(w, w', key, v) && Durable(cfg, w) && v !in w.found && v !in w.db.outputs
    ensures Durable(cfg, w')
  {
    assert forall k | k in w.issued :: Young(cfg, w', k) == Young(cfg, w, k);
    assert !Young(cfg, w', key);
    forall u | w'.db.HasVideo(u) && u != v
      ensures w.db.HasVideo(u)
    {
    }
  }

  /** The creation of a video under a fresh key. */
  lemma CreateKeeps(cfg: Config, w: World, tx: Tx, w': World)
    requires Inv(cfg, w) && DbStep(w, tx, w'.db) && tx.Create? && Issues(w, w', tx.key, w.db.nextId)
    ensures Inv(cfg, w')
  {
    hide DbOk, IssuedOk, HoldingsOk, WorkersOk, StoredOk, TargetsOk, CleanersOk, ScansOk, Durable;
    hide NoRevival, Registers, VideosLater, JobsLater, CleanupsLater, Bounded, Issues;
    IssueKeeps(cfg, w, w', tx.key, w.db.nextId);
    IssueNoRevival(cfg, w, w', tx.key, w.db.nextId);
    FoundExists(cfg, w);
    IssueDurable(cfg, w, w', tx.key, w.db.nextId);
    IssueFrame(w, w', tx.key, w.db.nextId);
    CreateTargets(cfg, w, w');
    ScansStay(cfg, w, w');
    WorkersStay(w.db, w'.db, w.workers);
    CleanersStay(w.db.cleanups, w'.db.cleanups, w.cleaners);
  }

  lemma IssueFrame(w: World, w': World, key: Key, v: Id)
    requires Issues(w, w', key, v)
    ensures w'.workers == w.workers && w'.cleaners == w.cleaners && w'.scans == w.scans && w'.clock == w.clock
    ensures w'.found == w.found && w.db.videos.Keys <= w'.db.videos.Keys
  {
  }

  lemma FoundExists(cfg: Config, w: World)
    requires Inv(cfg, w)
    ensures w.db.nextId !in w.found && w.db.nextId !in w.db.outputs
  {
    hide DbOk;
    NextIdFresh(w.db, w.clock);
  }

  lemma CreateTargets(cfg: Config, w: World, w': World)
    requires TargetsOk(cfg, w) && NoRevival(cfg, w, w')
    requires Registers(w.db.cleanups, w'.db.cleanups, {})
    ensures TargetsOk(cfg, w')
  {
    forall c | c in w'.db.cleanups
      ensures Condemned(cfg, w', w'.db.cleanups[c].key)
    {
      StaysCondemned(cfg, w, w', w.db.cleanups[c].key);
    }
  }

  // ---------------------------------------------------------------- steps of the actors

  // Workers move on without taking up any object.
  ghost predicate WorkersLetGo(db: Db, workers: map<Id, Worker>, workers': map<Id, Worker>) {
    forall id | id in workers' ::
      && WorkerOk(db, workers'[id])
      && (workers'[id].Held() != {} ==>
            id in workers && workers'[id].Held() <= workers[id].Held() && workers'[id].video == workers[id].video)
      && (workers'[id].Committable() != {} ==> id in workers && workers'[id].Committable() <= workers[id].Committable())
  }

  lemma LetGoNoRevival(cfg: Config, w: World, w': World)
    requires w' == w.(workers := w'.workers, leaked := w'.leaked)
    requires WorkersLetGo(w.db, w.workers, w'.workers)
    ensures NoRevival(cfg, w, w')
  {
  }

  lemma TargetsStay(cfg: Config, w: World, w': World)
    requires TargetsOk(cfg, w) && NoRevival(cfg, w, w') && w'.db == w.db
    ensures TargetsOk(cfg, w')
  {
    forall c | c in w'.db.cleanups
      ensures Condemned(cfg, w', w'.db.cleanups[c].key)
    {
      StaysCondemned(cfg, w, w', w.db.cleanups[c].key);
    }
  }

  lemma LetGoDurable(cfg: Config, w: World, w': World)
    requires Durable(cfg, w) && w' == w.(workers := w'.workers, leaked := w'.leaked)
    requires WorkersLetGo(w.db, w.workers, w'.workers)
    ensures Durable(cfg, w')
  {
    assert forall k :: Young(cfg, w', k) == Young(cfg, w, k);
  }

  lemma LetGoHoldings(db: Db, outputs: map<Id, OutputMeta>, issued: map<Key, Origin>, workers: map<Id, Worker>,
                      workers': map<Id, Worker>)
    requires HoldingsOk(outputs, issued, workers) && WorkersLetGo(db, workers, workers')
    ensures HoldingsOk(outputs, issued, workers') && WorkersOk(db, workers')
  {
  }

  lemma LetGoKeeps(cfg: Config, w: World, w': World)
    requires Inv(cfg, w) && w' == w.(workers := w'.workers, leaked := w'.leaked)
    requires WorkersLetGo(w.db, w.workers, w'.workers)
    ensures Inv(cfg, w')
  {
    hide DbOk, IssuedOk, HoldingsOk, WorkersOk, StoredOk, TargetsOk, CleanersOk, ScansOk, Durable, NoRevival, WorkersLetGo;
    LetGoNoRevival(cfg, w, w');
    LetGoHoldings(w.db, w.db.outputs, w.issued, w.workers, w'.workers);
    TargetsStay(cfg, w, w');
    ScansStay(cfg, w, w');
    LetGoDurable(cfg, w, w');
  }

  // Changes that touch only cleaners, scans, found videos or the clock.
  ghost predicate Idle(w: World, w': World) {
    w' == w.(clock := w'.clock, cleaners := w'.cleaners, scans := w'.scans, found := w'.found) && w.clock <= w'.clock
  }

  lemma IdleKeeps(cfg: Config, w: World, w': World)
    requires Inv(cfg, w) && Idle(w, w')
    requires CleanersOk(w'.db.cleanups, w'.cleaners)
    requires forall id | id in w'.scans :: (id in w.scans && w'.scans[id] == w.scans[id]) || ScanOk(cfg, w', w'.scans[id])
    requires forall v | v in w'.found && w'.db.HasVideo(v) && w'.db.videos[v].processing == Uploading ::
               v in w.found || w'.db.videos[v].originalKey in w'.stored
    requires forall v | v in w'.found :: v in w'.db.videos
    ensures Inv(cfg, w')
  {
    hide DbOk, IssuedOk, HoldingsOk, WorkersOk, CleanersOk;
    assert NoRevival(cfg, w, w') by { hide TargetsOk, ScansOk, Durable, StoredOk; }
    ClockAdvances(w.db, w.clock, w'.clock);
    assert StoredOk(w'.stored, w'.issued, w'.clock) by { hide TargetsOk, ScansOk, Durable, NoRevival; }
    hide StoredOk;
    assert ScansOk(cfg, w') by { hide TargetsOk, Durable; IdleScans(cfg, w, w'); }
    hide ScansOk;
    TargetsStay(cfg, w, w');
    hide TargetsOk, NoRevival;
    IdleDurable(cfg, w, w');
  }

  lemma IdleScans(cfg: Config, w: World, w': World)
    requires ScansOk(cfg, w) && Idle(w, w') && NoRevival(cfg, w, w')
    requires forall id | id in w'.scans :: (id in w.scans && w'.scans[id] == w.scans[id]) || ScanOk(cfg, w', w'.scans[id])
    ensures ScansOk(cfg, w')
  {
    hide NoRevival;
    forall id | id in w'.scans
      ensures ScanOk(cfg, w', w'.scans[id])
    {
      if id in w.scans && w.scans[id] == w'.scans[id] && w.scans[id].Orphan? {
        StaysCondemned(cfg, w, w', w.scans[id].key);
      }
    }
  }

  lemma IdleDurable(cfg: Config, w: World, w': World)
    requires Durable(cfg, w) && Idle(w, w')
    requires forall v | v in w'.found && w'.db.HasVideo(v) && w'.db.videos[v].processing == Uploading ::
               v in w.found || w'.db.videos[v].originalKey in w'.stored
    ensures Durable(cfg, w')
  {
    assert forall k :: Young(cfg, w', k) ==> Young(cfg, w, k);
  }

  // ---------------------------------------------------------------- steps of the store

  /** A condemned object may go: nothing in use is lost. */
  lemma DeleteObjectKeeps(cfg: Config, w: World, k: Key)
    requires Inv(cfg, w) && Condemned(cfg, w, k)
    ensures Inv(cfg, w.(stored := w.stored - {k}))
  {
    hide DbOk, WorkersOk, CleanersOk;
    var w' := w.(stored := w.stored - {k});
    assert NoRevival(cfg, w, w') by { hide TargetsOk, ScansOk, Durable, StoredOk; }
    assert TargetsOk(cfg, w') by { hide ScansOk, Durable, StoredOk, HoldingsOk, IssuedOk; TargetsStay(cfg, w, w'); }
    hide TargetsOk;
    ScansStay(cfg, w, w');
    hide ScansOk, NoRevival;
    assert StoredOk(w'.stored, w'.issued, w'.clock) by { hide Durable, IssuedOk, HoldingsOk; }
    hide StoredOk;
    DeleteDurable(cfg, w, k);
  }

  lemma DeleteDurable(cfg: Config, w: World, k: Key)
    requires Durable(cfg, w) && Condemned(cfg, w, k)
    requires IssuedOk(w.db.videos, w.db.outputs, w.issued) && HoldingsOk(w.db.outputs, w.issued, w.workers)
    ensures Durable(cfg, w.(stored := w.stored - {k}))
  {
    var w' := w.(stored := w.stored - {k});
    assert forall l :: Young(cfg, w', l) == Young(cfg, w, l);
    forall id, l | id in w'.workers && l in w'.workers[id].Committable()
      ensures l in w'.stored || !Young(cfg, w', l)
    {
      assert l in w.workers[id].Held();
      assert Pending(w.workers, id, l);
    }
  }

  lemma PutOriginalKeeps(cfg: Config, w: World, v: Id)
    requires Inv(cfg, w) && v in w.db.videos
    ensures Inv(cfg, w.(stored := w.stored[w.db.videos[v].originalKey := w.clock]))
  {
    hide DbOk, WorkersOk, CleanersOk;
    var w' := w.(stored := w.stored[w.db.videos[v].originalKey := w.clock]);
    assert NoRevival(cfg, w, w') by { hide TargetsOk, ScansOk, Durable, StoredOk; }
    assert TargetsOk(cfg, w') by { hide ScansOk, Durable, StoredOk, HoldingsOk, IssuedOk; TargetsStay(cfg, w, w'); }
    hide TargetsOk;
    ScansStay(cfg, w, w');
    hide ScansOk, NoRevival;
    assert StoredOk(w'.stored, w'.issued, w'.clock) by { hide Durable, HoldingsOk; }
    hide StoredOk, IssuedOk, HoldingsOk;
    assert Durable(cfg, w') by { assert forall l :: Young(cfg, w', l) == Young(cfg, w, l); }
  }

  /** A worker stores an object under a fresh key and takes charge of it. */
  lemma UploadKeeps(cfg: Config, w: World, id: Id, key: Key, s: Worker)
    requires Inv(cfg, w) && id in w.workers && key != 0 && key !in w.issued
    requires WorkerOk(w.db, s) && s.video == w.workers[id].video && (s.HalfUploaded? || s.FullyUploaded?)
    requires s.Held() == w.workers[id].Committable() + {key}
    ensures Inv(cfg, StoreUpload(w, id, key, s))
  {
    hide DbOk, IssuedOk, HoldingsOk, WorkersOk, StoredOk, TargetsOk, CleanersOk, ScansOk, Durable, NoRevival;
    var w' := StoreUpload(w, id, key, s);
    UploadNoRevival(cfg, w, id, key, s);
    TargetsStay(cfg, w, w');
    ScansStay(cfg, w, w');
    UploadStored(w, id, key, s);
    UploadWorkers(w.db, w.workers, id, s);
    UploadIssued(w, id, key, s);
    UploadHoldings(cfg, w, id, key, s);
    UploadDurable(cfg, w, id, key, s);
  }

  lemma UploadNoRevival(cfg: Config, w: World, id: Id, key: Key, s: Worker)
    requires id in w.workers && key !in w.issued && s.Held() == w.workers[id].Committable() + {key}
    ensures NoRevival(cfg, w, StoreUpload(w, id, key, s))
  {
  }

  lemma UploadStored(w: World, id: Id, key: Key, s: Worker)
    requires StoredOk(w.stored, w.issued, w.clock) && key !in w.issued
    ensures var w' := StoreUpload(w, id, key, s); StoredOk(w'.stored, w'.issued, w'.clock)
  {
  }

  lemma UploadIssued(w: World, id: Id, key: Key, s: Worker)
    requires IssuedOk(w.db.videos, w.db.outputs, w.issued) && key != 0 && key !in w.issued
    ensures IssuedOk(w.db.videos, w.db.outputs, StoreUpload(w, id, key, s).issued)
  {
  }

  lemma UploadWorkers(db: Db, workers: map<Id, Worker>, id: Id, s: Worker)
    requires WorkersOk(db, workers) && WorkerOk(db, s)
    ensures WorkersOk(db, workers[id := s])
  {
  }

  lemma TakenHoldings(outputs: map<Id, OutputMeta>, issued: map<Key, Origin>, workers: map<Id, Worker>, id: Id, key: Key,
                      origin: Origin, s: Worker)
    requires HoldingsOk(outputs, issued, workers) && id in workers && key !in issued
    requires forall v | v in outputs :: !outputs[v].Uses(key)
    requires origin.Produced? && origin.worker == id && origin.video == s.video == workers[id].video
    requires s.Held() <= workers[id].Held() + {key}
    ensures HoldingsOk(outputs, issued[key := origin], workers[id := s])
  {
    var workers' := workers[id := s];
    forall i, k | i in workers' && k in workers'[i].Held()
      ensures Holding(outputs, issued[key := origin], i, workers'[i].video, k)
    {
      if i != id || k != key {
        assert Holding(outputs, issued, i, workers[i].video, k);
      }
    }
  }

  lemma UploadHoldings(cfg: Config, w: World, id: Id, key: Key, s: Worker)
    requires IssuedOk(w.db.videos, w.db.outputs, w.issued) && HoldingsOk(w.db.outputs, w.issued, w.workers)
    requires id in w.workers && key !in w.issued && s.video == w.workers[id].video
    requires s.Held() == w.workers[id].Committable() + {key}
    ensures HoldingsOk(w.db.outputs, StoreUpload(w, id, key, s).issued, w.workers[id := s])
  {
    assert w.workers[id].Committable() <= w.workers[id].Held();
    assert forall v | v in w.db.outputs :: !w.db.outputs[v].Uses(key);
    hide IssuedOk, HoldingsOk;
    TakenHoldings(w.db.outputs, w.issued, w.workers, id, key, Produced(id, s.video, w.clock), s);
  }

  lemma UploadDurable(cfg: Config, w: World, id: Id, key: Key, s: Worker)
    requires Durable(cfg, w) && id in w.workers && key !in w.issued
    requires s.Held() == w.workers[id].Committable() + {key}
    ensures Durable(cfg, StoreUpload(w, id, key, s))
  {
    var w' := StoreUpload(w, id, key, s);
    assert forall k | k != key :: Young(cfg, w', k) == Young(cfg, w, k);
  }

  // ---------------------------------------------------------------- the commit of an output

  // A key still young in its worker's hands has no cleanup row and is in the store.
  lemma YoungIsSafe(cfg: Config, w: World, id: Id, k: Key)
    requires TargetsOk(cfg, w) && Durable(cfg, w) && HoldingsOk(w.db.outputs, w.issued, w.workers)
    requires id in w.workers && k in w.workers[id].Committable() && Young(cfg, w, k)
    ensures !Condemned(cfg, w, k) && k in w.stored && !KeyRegistered(w.db.cleanups, k)
  {
    assert k in w.workers[id].Held();
    assert Pending(w.workers, id, k);
  }

  // The effect of a successful completion of a living video.
  ghost predicate CommitStep(cfg: Config, w: World, id: Id, tx: Tx, db': Db) {
    && id in w.workers && w.workers[id].FullyUploaded? && tx.Complete? && tx == CompletionOf(w.workers[id], tx.output.valid)
    && DbStep(w, tx, db') && CommitsOutput(w.db, tx)
    && Young(cfg, w, w.workers[id].videoKey) && Young(cfg, w, w.workers[id].thumbnailKey)
    && db'.outputs == w.db.outputs[w.workers[id].video := tx.output.(createdAt := w.clock)]
  }

  lemma CommitRows(cfg: Config, w: World, id: Id, tx: Tx, db': Db)
    requires WorkersOk(w.db, w.workers) && tx.Complete? && CommitStep(cfg, w, id, tx, db')
    ensures var s := w.workers[id];
            && s.video in w.db.videos && !w.db.videos[s.video].IsDeleted() && s.video !in w.db.outputs
            && s.job in w.db.jobs && w.db.jobs[s.job].videoId == s.video && Targets(w.db, tx) == {}
            && s.videoKey != 0 && s.thumbnailKey != 0
  {
    hide DbStep, Young;
    assert WorkerOk(w.db, w.workers[id]);
  }

  lemma CommitDbStep(cfg: Config, w: World, id: Id, tx: Tx, db': Db)
    requires tx.Complete? && CommitStep(cfg, w, id, tx, db')
    ensures DbOk(db', w.clock) && db'.videos.Keys == w.db.videos.Keys
    ensures VideosLater(w.db.videos, db'.videos) && JobsLater(w.db.jobs, db'.jobs) && CleanupsLater(w.db.cleanups, db'.cleanups)
    ensures Registers(w.db.cleanups, db'.cleanups, Targets(w.db, tx))
  {
    hide DbOk, Registers, CommitsOutput, Young, JobsLater, CleanupsLater, OutputsBy, UploadsBy, Targets;
  }

  lemma CommitFacts(cfg: Config, w: World, id: Id, tx: Tx, db': Db)
    requires Inv(cfg, w) && tx.Complete? && CommitStep(cfg, w, id, tx, db')
    ensures var s := w.workers[id];
            && s.video in w.db.videos && !w.db.videos[s.video].IsDeleted() && s.video !in w.db.outputs
            && Targets(w.db, tx) == {}
            && (forall k | k in {s.videoKey, s.thumbnailKey} ::
                  k in s.Held() && k in s.Committable() && !Condemned(cfg, w, k) && k in w.stored)
  {
    hide DbOk, IssuedOk, StoredOk, CleanersOk, ScansOk, TargetsOk, WorkersOk, HoldingsOk, Durable, DbStep, Young;
    hide CommitsOutput, Condemned;
    CommitRows(cfg, w, id, tx, db');
    YoungIsSafe(cfg, w, id, w.workers[id].videoKey);
    YoungIsSafe(cfg, w, id, w.workers[id].thumbnailKey);
  }

  lemma AddedOutputIssued(videos: map<Id, Video>, videos': map<Id, Video>, outputs: map<Id, OutputMeta>, issued: map<Key, Origin>,
                          v: Id, meta: OutputMeta)
    requires IssuedOk(videos, outputs, issued) && VideosLater(videos, videos') && videos'.Keys == videos.Keys
    requires forall k | k == meta.videoKey || k == meta.thumbnailKey ::
               k in issued && issued[k].Produced? && issued[k].video == v
    ensures IssuedOk(videos', outputs[v := meta], issued)
  {
  }

  lemma CommitIssued(cfg: Config, w: World, id: Id, tx: Tx, db': Db)
    requires IssuedOk(w.db.videos, w.db.outputs, w.issued) && HoldingsOk(w.db.outputs, w.issued, w.workers)
    requires tx.Complete? && CommitStep(cfg, w, id, tx, db') && db'.videos.Keys == w.db.videos.Keys
    requires VideosLater(w.db.videos, db'.videos)
    requires var s := w.workers[id]; s.videoKey in s.Held() && s.thumbnailKey in s.Held()
    ensures IssuedOk(db'.videos, db'.outputs, w.issued)
  {
    hide IssuedOk, VideosLater, DbStep, CommitsOutput, Young;
    var s := w.workers[id];
    assert forall k | k == s.videoKey || k == s.thumbnailKey :: Holding(w.db.outputs, w.issued, id, s.video, k);
    AddedOutputIssued(w.db.videos, db'.videos, w.db.outputs, w.issued, s.video, tx.output.(createdAt := w.clock));
  }

  lemma AddedOutputHoldings(outputs: map<Id, OutputMeta>, issued: map<Key, Origin>, workers: map<Id, Worker>, id: Id, v: Id,
                            meta: OutputMeta)
    requires HoldingsOk(outputs, issued, workers)
    requires forall k | k == meta.videoKey || k == meta.thumbnailKey ::
               k in issued && issued[k].Produced? && issued[k].worker == id
    ensures HoldingsOk(outputs[v := meta], issued, workers - {id})
  {
    forall i, k | i in workers - {id} && k in (workers - {id})[i].Held()
      ensures Holding(outputs[v := meta], issued, i, workers[i].video, k)
    {
      assert Holding(outputs, issued, i, workers[i].video, k);
    }
  }

  lemma CommitHoldings(cfg: Config, w: World, id: Id, tx: Tx, db': Db)
    requires HoldingsOk(w.db.outputs, w.issued, w.workers)
    requires tx.Complete? && CommitStep(cfg, w, id, tx, db')
    requires var s := w.workers[id]; s.videoKey in s.Held() && s.thumbnailKey in s.Held()
    ensures HoldingsOk(db'.outputs, w.issued, w.workers - {id})
  {
    hide DbStep, CommitsOutput, Young;
    var s := w.workers[id];
    assert w.issued[s.videoKey].worker == id && w.issued[s.thumbnailKey].worker == id;
    hide HoldingsOk;
    AddedOutputHoldings(w.db.outputs, w.issued, w.workers, id, s.video, tx.output.(createdAt := w.clock));
  }

  lemma CommitNoRevival(cfg: Config, w: World, id: Id, tx: Tx, db': Db)
    requires tx.Complete? && CommitStep(cfg, w, id, tx, db') && w.workers[id].video !in w.db.outputs
    requires forall k | k in {w.workers[id].videoKey, w.workers[id].thumbnailKey} :: k in w.issued && !Condemned(cfg, w, k)
    ensures NoRevival(cfg, w, w.(db := db', workers := w.workers - {id}))
  {
    hide DbOk, Registers, Bounded, JobsLater, CleanupsLater;
    var w' := w.(db := db', workers := w.workers - {id});
    forall v, k | v in db'.outputs && v !in w.db.outputs && db'.outputs[v].Uses(k)
      ensures k in w.issued && !Condemned(cfg, w, k)
    {
      assert v == w.workers[id].video;
    }
  }

  lemma CommitDurable(cfg: Config, w: World, id: Id, tx: Tx, db': Db)
    requires Durable(cfg, w) && db'.videos.Keys == w.db.videos.Keys
    requires tx.Complete? && CommitStep(cfg, w, id, tx, db')
    requires w.workers[id].videoKey in w.stored && w.workers[id].thumbnailKey in w.stored
    ensures Durable(cfg, w.(db := db', workers := w.workers - {id}))
  {
    hide DbOk, Registers, JobsLater, CleanupsLater;
    var w' := w.(db := db', workers := w.workers - {id});
    assert forall k :: Young(cfg, w', k) == Young(cfg, w, k);
    forall v | db'.HasVideo(v)
      ensures w.db.HasVideo(v)
      ensures !NeverUploaded(db'.videos[v]) ==> !NeverUploaded(w.db.videos[v])
    {
    }
  }

  /** The commit of a young output keeps the system invariant. */
  lemma CommitKeeps(cfg: Config, w: World, id: Id, tx: Tx, db': Db)
    requires Inv(cfg, w) && tx.Complete? && CommitStep(cfg, w, id, tx, db')
    ensures Inv(cfg, w.(db := db', workers := w.workers - {id}))
  {
    hide DbOk, IssuedOk, HoldingsOk, WorkersOk, StoredOk, TargetsOk, CleanersOk, ScansOk, Durable, CommitStep;
    hide NoRevival, Registers, VideosLater, JobsLater, CleanupsLater, Condemned, Targets;
    assert id in w.workers && w.workers[id].FullyUploaded? by { CommitWorker(cfg, w, id, tx, db'); }
    CommitFacts(cfg, w, id, tx, db');
    CommitDbStep(cfg, w, id, tx, db');
    var w' := w.(db := db', workers := w.workers - {id});
    CommitIssued(cfg, w, id, tx, db');
    CommitHoldings(cfg, w, id, tx, db');
    WorkersStay(w.db, db', w.workers);
    DroppedWorkersOk(db', w.workers, id);
    CleanersStay(w.db.cleanups, db'.cleanups, w.cleaners);
    assert forall k | k in {w.workers[id].videoKey, w.workers[id].thumbnailKey} :: k in w.issued by {
      HeldIssued(w, id);
    }
    CommitNoRevival(cfg, w, id, tx, db');
    CreateTargets(cfg, w, w');
    ScansStay(cfg, w, w');
    CommitDurable(cfg, w, id, tx, db');
  }

  lemma CommitWorker(cfg: Config, w: World, id: Id, tx: Tx, db': Db)
    requires tx.Complete? && CommitStep(cfg, w, id, tx, db')
    ensures id in w.workers && w.workers[id].FullyUploaded?
  {
    hide DbStep, CommitsOutput, Young;
  }

  lemma HeldIssued(w: World, id: Id)
    requires HoldingsOk(w.db.outputs, w.issued, w.workers) && id in w.workers
    ensures forall k | k in w.workers[id].Held() :: k in w.issued
  {
  }

  lemma DroppedWorkersOk(db: Db, workers: map<Id, Worker>, id: Id)
    requires WorkersOk(db, workers)
    ensures WorkersOk(db, workers - {id})
  {
  }
}
