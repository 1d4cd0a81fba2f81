/** The storage cleanup usecase: the cleanup worker and the orphan scan (backend/usecase/storage_cleanup_usecase.go). */
module StorageCleanup {
  import opened Common
  import opened VideoEntity
  import CleanupEntity
  import opened Database
  import opened Transactions
  import opened Effects
  import opened Interleaving
  import Repositories
  import Theorems

  // One object of a listing; `modified` is zero when the store gives no date.
  datatype Object = Object(key: Key, modified: Time)

  datatype Page = Page(items: seq<Object>, hasMore: bool, next: Option<Key>)

  datatype ScanError = BadTime | StorageFailed | NoNextCursor | CursorStuck

  // A dated object last modified no later than the cutoff.
  predicate IsOld(o: Object, cutoff: int) {
    o.key != 0 && o.modified != 0 && o.modified <= cutoff
  }

  /** What the scan takes for an orphan: an old object that no row refers to. */
  predicate IsOrphan(db: Db, o: Object, cutoff: int) {
    IsOld(o, cutoff) && !IsObjectReferenced(db, o.key)
  }

  /** How many of the objects are orphans. */
  function Orphans(db: Db, objects: seq<Object>, cutoff: int): nat {
    if objects == [] then 0
    else Orphans(db, objects[..|objects| - 1], cutoff) + if IsOrphan(db, objects[|objects| - 1], cutoff) then 1 else 0
  }

  function Listed(pages: seq<Page>): seq<Object> {
    if pages == [] then [] else Listed(pages[..|pages| - 1]) + pages[|pages| - 1].items
  }

  /** Cleanup rows were added for exactly the orphans among the objects; nothing else changed. */
  ghost predicate Swept(db: Db, db': Db, objects: seq<Object>, cutoff: int) {
    && db' == db.(cleanups := db'.cleanups, nextId := db'.nextId)
    && (forall c | c in db.cleanups :: c in db'.cleanups && db'.cleanups[c] == db.cleanups[c])
    && (forall c | c in db'.cleanups && c !in db.cleanups :: ForOrphan(db, db'.cleanups[c], objects, cutoff))
    && (forall o | o in objects && IsOrphan(db, o, cutoff) :: db'.HasUnfinishedCleanup(o.key))
  }

  // A row asking for the deletion of one of the orphans.
  ghost predicate ForOrphan(db: Db, row: Cleanup, objects: seq<Object>, cutoff: int) {
    && row.videoId == None && row.status == CleanupEntity.CleanupQueued
    && exists o :: o in objects && IsOrphan(db, o, cutoff) && o.key == row.key
  }

  lemma SameReferences(db: Db, db': Db, objects: seq<Object>, cutoff: int, key: Key)
    requires Swept(db, db', objects, cutoff)
    ensures IsObjectReferenced(db', key) == IsObjectReferenced(db, key)
  {
    hide ForOrphan, IsOrphan;
  }

  lemma SweptSkip(db: Db, db': Db, objects: seq<Object>, o: Object, cutoff: int)
    requires Swept(db, db', objects, cutoff) && !IsOrphan(db, o, cutoff)
    ensures Swept(db, db', objects + [o], cutoff)
  {
    forall c | c in db'.cleanups && c !in db.cleanups
      ensures ForOrphan(db, db'.cleanups[c], objects + [o], cutoff)
    {
      var p :| p in objects && IsOrphan(db, p, cutoff) && p.key == db'.cleanups[c].key;
      assert p in objects + [o];
    }
  }

  lemma StillUnfinished(a: Db, row: Cleanup, key: Key)
    requires FreshRows(a) && row.IsUnfinished()
    ensures a.HasUnfinishedCleanup(key) ==> CreateCleanup(a, row).HasUnfinishedCleanup(key)
    ensures CreateCleanup(a, row).HasUnfinishedCleanup(row.key) && FreshRows(CreateCleanup(a, row))
  {
    var b := CreateCleanup(a, row);
    if a.HasUnfinishedCleanup(key) {
      var c :| c in a.cleanups && a.cleanups[c].key == key && a.cleanups[c].IsUnfinished();
      assert c in b.cleanups && b.cleanups[c] == a.cleanups[c];
    }
    if !a.HasUnfinishedCleanup(row.key) {
      assert b.cleanups[a.nextId] == row;
    }
  }

  lemma ForOrphanGrows(db: Db, row: Cleanup, objects: seq<Object>, o: Object, cutoff: int)
    requires ForOrphan(db, row, objects, cutoff)
    ensures ForOrphan(db, row, objects + [o], cutoff)
  {
    var p :| p in objects && IsOrphan(db, p, cutoff) && p.key == row.key;
    assert p in objects + [o];
  }

  lemma RegisterAdds(db: Db, db': Db, objects: seq<Object>, o: Object, row: Cleanup, cutoff: int)
    requires forall c | c in db'.cleanups && c !in db.cleanups :: ForOrphan(db, db'.cleanups[c], objects, cutoff)
    requires ForOrphan(db, row, objects + [o], cutoff)
    ensures var db2 := CreateCleanup(db', row);
            forall c | c in db2.cleanups && c !in db.cleanups :: ForOrphan(db, db2.cleanups[c], objects + [o], cutoff)
  {
    hide ForOrphan, Db.HasUnfinishedCleanup;
    var db2 := CreateCleanup(db', row);
    forall c | c in db2.cleanups && c !in db.cleanups
      ensures ForOrphan(db, db2.cleanups[c], objects + [o], cutoff)
    {
      if c in db'.cleanups && db2.cleanups[c] != row { ForOrphanGrows(db, db'.cleanups[c], objects, o, cutoff); }
    }
  }

  lemma RegisterCovers(db: Db, db': Db, objects: seq<Object>, o: Object, row: Cleanup, cutoff: int)
    requires forall p | p in objects && IsOrphan(db, p, cutoff) :: db'.HasUnfinishedCleanup(p.key)
    requires FreshRows(db') && row.IsUnfinished() && row.key == o.key
    ensures var db2 := CreateCleanup(db', row);
            forall p | p in objects + [o] && IsOrphan(db, p, cutoff) :: db2.HasUnfinishedCleanup(p.key)
  {
    hide IsOrphan, Db.HasUnfinishedCleanup, CreateCleanup;
    forall p | p in objects + [o] && IsOrphan(db, p, cutoff)
      ensures CreateCleanup(db', row).HasUnfinishedCleanup(p.key)
    {
      StillUnfinished(db', row, p.key);
    }
  }

  lemma OrphanHasKey(db: Db, o: Object, cutoff: int)
    requires IsOrphan(db, o, cutoff)
    ensures o.key != 0
  {
  }

  lemma OrphanRow(db: Db, row: Cleanup, objects: seq<Object>, o: Object, cutoff: int)
    requires IsOrphan(db, o, cutoff) && row.videoId == None && row.status == CleanupEntity.CleanupQueued && row.key == o.key
    ensures ForOrphan(db, row, objects + [o], cutoff)
  {
    assert o in objects + [o];
  }

  lemma CreateFrame(db: Db, row: Cleanup)
    requires FreshRows(db)
    ensures var db' := CreateCleanup(db, row);
            && db' == db.(cleanups := db'.cleanups, nextId := db'.nextId)
            && (forall c | c in db.cleanups :: c in db'.cleanups && db'.cleanups[c] == db.cleanups[c])
  {
    hide Db.HasUnfinishedCleanup;
  }

  lemma SweptRegister(db: Db, db': Db, objects: seq<Object>, o: Object, cutoff: int, now: Time)
    requires Swept(db, db', objects, cutoff) && IsOrphan(db, o, cutoff) && now != 0 && FreshRows(db')
    ensures var row := CleanupEntity.NewCleanup(None, o.key, CleanupEntity.AssetUnknown, CleanupEntity.OrphanDetected, now);
            row.Success? && Swept(db, CreateCleanup(db', row.value), objects + [o], cutoff)
                         && FreshRows(CreateCleanup(db', row.value))
  {
    hide IsOrphan, ForOrphan, Db.HasUnfinishedCleanup, CreateCleanup, FreshRows;
    OrphanHasKey(db, o, cutoff);
    var row := CleanupEntity.NewCleanup(None, o.key, CleanupEntity.AssetUnknown, CleanupEntity.OrphanDetected, now).value;
    OrphanRow(db, row, objects, o, cutoff);
    CreateFrame(db', row);
    RegisterAdds(db, db', objects, o, row, cutoff);
    RegisterCovers(db, db', objects, o, row, cutoff);
    StillUnfinished(db', row, 0);
  }

  // ---------------------------------------------------------------- a sweep among others

  /** Every old object among those listed has a cleanup row or is referenced by some row. */
  ghost predicate Handled(db: Db, objects: seq<Object>, cutoff: int) {
    forall o | o in objects && IsOld(o, cutoff) :: KeyRegistered(db.cleanups, o.key) || IsObjectReferenced(db, o.key)
  }

  // The keys are those of old objects that no row of `db` refers to.
  ghost predicate AsksForOrphans(db: Db, asked: seq<Key>, objects: seq<Object>, cutoff: int) {
    forall k | k in asked :: exists o :: o in objects && IsOrphan(db, o, cutoff) && o.key == k
  }

  // No row of any video, living or deleted, and no output mentions the key.
  ghost predicate Unmentioned(db: Db, key: Key) {
    && (forall v | v in db.videos :: db.videos[v].originalKey != key)
    && (forall v | v in db.outputs :: db.outputs[v].videoKey != key && db.outputs[v].thumbnailKey != key)
  }

  // An object the store dates `cutoff` or earlier.
  ghost predicate ListedOld(objects: seq<Object>, key: Key, cutoff: int) {
    key != 0 && exists o :: o in objects && o.key == key && 0 < o.modified <= cutoff
  }

  /** Whatever a scan asks for is old and was not in use when it began. */
  lemma AskedAreUnused(db: Db, asked: seq<Key>, objects: seq<Object>, cutoff: int, key: Key)
    requires AsksForOrphans(db, asked, objects, cutoff) && key in asked
    ensures Unmentioned(db, key) && ListedOld(objects, key, cutoff) && !Theorems.InUse(db, key)
  {
    var o :| o in objects && IsOrphan(db, o, cutoff) && o.key == key;
  }

  /** An undisturbed scan gives new rows to exactly the old objects it listed that nothing mentions and no job awaits. */
  lemma SweptExactly(db: Db, db': Db, objects: seq<Object>, cutoff: int, key: Key)
    requires Swept(db, db', objects, cutoff)
    ensures (exists c :: c in db'.cleanups && c !in db.cleanups && db'.cleanups[c].key == key)
            ==> ListedOld(objects, key, cutoff) && Unmentioned(db, key) && !Theorems.InUse(db, key)
    ensures ListedOld(objects, key, cutoff) && Unmentioned(db, key)
            ==> exists c :: c in db'.cleanups && db'.cleanups[c].key == key && db'.cleanups[c].IsUnfinished()
  {
    if c :| c in db'.cleanups && c !in db.cleanups && db'.cleanups[c].key == key {
      assert ForOrphan(db, db'.cleanups[c], objects, cutoff);
    }
    if ListedOld(objects, key, cutoff) && Unmentioned(db, key) {
      var o :| o in objects && o.key == key && 0 < o.modified <= cutoff;
      assert IsOrphan(db, o, cutoff);
    }
  }

  // There is more after this page, under a cursor that has moved on.
  predicate LeadsOn(read: seq<Page>, k: int)
    requires 0 <= k < |read|
  {
    read[k].hasMore && read[k].next.Some? && read[k].next != Some(0) && (k > 0 ==> read[k].next != read[k - 1].next)
  }

  /** Every page but the last leads on to the next. */
  predicate PagesFollow(read: seq<Page>) {
    forall k | 0 <= k < |read| - 1 :: LeadsOn(read, k)
  }

  /** What a scan makes of the last page: it ends there, or tells what is wrong with its cursor. */
  predicate StopsWith(read: seq<Page>, err: Option<ScanError>) {
    match err
    case None => read != [] && !read[|read| - 1].hasMore
    case Some(NoNextCursor) =>
      read != [] && read[|read| - 1].hasMore && (read[|read| - 1].next == None || read[|read| - 1].next == Some(0))
    case Some(CursorStuck) => |read| > 1 && read[|read| - 1].hasMore && read[|read| - 1].next == read[|read| - 2].next
    case Some(StorageFailed) => read != [] ==> LeadsOn(read, |read| - 1)
    case Some(BadTime) => read == []
  }

  // A reference never goes away.
  lemma StillReferenced(a: Db, b: Db, key: Key)
    requires Later(a, b) && IsObjectReferenced(a, key)
    ensures IsObjectReferenced(b, key)
  {
    if IsOriginal(a, key) {
      var v :| v in a.videos && a.videos[v].originalKey == key;
      assert v in b.videos && b.videos[v].originalKey == key;
    } else {
      var v :| v in a.outputs && a.outputs[v].Uses(key);
      assert v in b.outputs && b.outputs[v].Uses(key);
    }
  }

  lemma StillHasRow(a: Db, b: Db, key: Key)
    requires Later(a, b) && KeyRegistered(a.cleanups, key)
    ensures KeyRegistered(b.cleanups, key)
  {
    var c :| c in a.cleanups && a.cleanups[c].key == key;
    assert c in b.cleanups && b.cleanups[c].key == key;
  }

  lemma HandledStays(a: Db, b: Db, objects: seq<Object>, cutoff: int)
    requires Later(a, b) && Handled(a, objects, cutoff)
    ensures Handled(b, objects, cutoff)
  {
    hide Later, KeyRegistered, IsObjectReferenced;
    forall o | o in objects && IsOld(o, cutoff)
      ensures KeyRegistered(b.cleanups, o.key) || IsObjectReferenced(b, o.key)
    {
      if KeyRegistered(a.cleanups, o.key) { StillHasRow(a, b, o.key); } else { StillReferenced(a, b, o.key); }
    }
  }

  lemma CreateIsLater(db: Db, row: Cleanup)
    requires FreshRows(db)
    ensures var db' := CreateCleanup(db, row);
            Later(db, db') && FreshRows(db') && KeyRegistered(db'.cleanups, row.key)
  {
    hide Later;
    LaterRefl(db);
    var db' := CreateCleanup(db, row);
    if db.HasUnfinishedCleanup(row.key) {
      var c :| c in db.cleanups && db.cleanups[c].key == row.key && db.cleanups[c].IsUnfinished();
      assert db'.cleanups[c].key == row.key;
    } else {
      AddCleanupLater(db, row);
      assert db'.cleanups[db.nextId].key == row.key;
    }
  }

  lemma AsksForOneMore(db: Db, asked: seq<Key>, objects: seq<Object>, o: Object, cutoff: int)
    requires AsksForOrphans(db, asked, objects, cutoff)
    ensures AsksForOrphans(db, asked, objects + [o], cutoff)
    ensures IsOrphan(db, o, cutoff) ==> AsksForOrphans(db, asked + [o.key], objects + [o], cutoff)
  {
    hide IsOrphan;
    forall k | k in asked
      ensures exists p :: p in objects + [o] && IsOrphan(db, p, cutoff) && p.key == k
    {
      var p :| p in objects && IsOrphan(db, p, cutoff) && p.key == k;
      assert p in objects + [o];
    }
    assert o in objects + [o];
  }

  // ---------------------------------------------------------------- deletion

  // How a delete request may fail.
  datatype DeleteFailure = DeadlineExceeded | Canceled | StorageUnavailable | ObjectNotFound | OtherFailure

  function ClassifyCleanupError(e: DeleteFailure): (CleanupEntity.CleanupError, bool) {
    match e
    case DeadlineExceeded => (CleanupEntity.TemporaryFailure, true)
    case Canceled => (CleanupEntity.TemporaryFailure, true)
    case StorageUnavailable => (CleanupEntity.TemporaryFailure, true)
    case _ => (CleanupEntity.PermanentFailure, false)
  }

  // An object that is already gone counts as deleted.
  predicate IsGone(failure: Option<DeleteFailure>) {
    failure.None? || failure.value.ObjectNotFound?
  }

  /**
    The job's row after an undisturbed call, failure by failure: a success, also when the object was gone; another
    attempt after a timeout, a cancellation or an outage, up to the fourth; the end after that and after anything else.
   */
  predicate RemovalEnds(before: Cleanup, after: Cleanup, failure: Option<DeleteFailure>, delays: seq<nat>, now: Time) {
    && 0 <= before.attempts < 4 && |delays| == 3
    && var begun := before.(attempts := before.attempts + 1, startedAt := Some(now), updatedAt := now);
    match failure
    case None => after == begun.(status := CleanupEntity.CleanupSucceeded, finishedAt := Some(now), error := CleanupEntity.NoError)
    case Some(ObjectNotFound) =>
      after == begun.(status := CleanupEntity.CleanupSucceeded, finishedAt := Some(now), error := CleanupEntity.NoError)
    case Some(OtherFailure) =>
      after == begun.(status := CleanupEntity.CleanupFailed, finishedAt := Some(now), error := CleanupEntity.PermanentFailure)
    case Some(_) =>
      if before.attempts == 3 then
        after == begun.(status := CleanupEntity.CleanupFailed, finishedAt := Some(now), error := CleanupEntity.TemporaryFailure)
      else
        after == begun.(status := CleanupEntity.CleanupRetryWait, availableAt := now + delays[before.attempts],
                        finishedAt := None, error := CleanupEntity.TemporaryFailure)
  }

  class ObjectStore {
    var objects: set<Key>

    constructor (objects: set<Key>)
      ensures this.objects == objects
    {
      this.objects := objects;
    }

    method Delete(key: Key, failure: Option<DeleteFailure>) returns (err: Option<DeleteFailure>)
      modifies this
      ensures err == failure
      ensures objects == if failure.None? then old(objects) - {key} else old(objects)
    {
      if failure.None? { objects := objects - {key}; }
      err := failure;
    }
  }

  /** Where a cleanup job stands after one call that claimed it. */
  function StatusAfter(attempts: int, failure: Option<DeleteFailure>): CleanupEntity.CleanupStatus {
    match failure
    case None => CleanupEntity.CleanupSucceeded
    case Some(ObjectNotFound) => CleanupEntity.CleanupSucceeded
    case Some(OtherFailure) => CleanupEntity.CleanupFailed
    case Some(_) => if attempts < 4 then CleanupEntity.CleanupRetryWait else CleanupEntity.CleanupFailed
  }

  /** What a call that claimed attempt number `attempts` makes of the job's row as it finds it. */
  function Recorded(row: Cleanup, attempts: int, failure: Option<DeleteFailure>, delays: seq<nat>, now: Time): Result<Cleanup>
    requires 1 <= attempts <= CleanupEntity.MAX_ATTEMPTS && |delays| == 3
  {
    if IsGone(failure) then row.MarkSucceeded(now)
    else
      var (code, retryable) := ClassifyCleanupError(failure.value);
      if retryable && attempts < CleanupEntity.MAX_ATTEMPTS then row.ScheduleRetry(now + delays[attempts - 1], code, now)
      else row.MarkFailed(code, now)
  }

  lemma RecordedStatus(row: Cleanup, attempts: int, failure: Option<DeleteFailure>, delays: seq<nat>, now: Time)
    requires 1 <= attempts <= CleanupEntity.MAX_ATTEMPTS && ValidDelays(delays)
    ensures var r := Recorded(row, attempts, failure, delays, now);
            && (r.Success? ==> r.value.status == StatusAfter(attempts, failure))
            && (row.Sound(now) && now > 0 && row.status == CleanupEntity.CleanupRunning && row.attempts == attempts ==>
                  r.Success? && r.value.attempts == attempts && r.value.Sound(now))
  {
  }

  // The claim's row and what is made of it.
  lemma RecordedEnds(before: Cleanup, clock: Time, failure: Option<DeleteFailure>, delays: seq<nat>, now: Time)
    requires before.Sound(clock) && CleanupClaimable(before, now) && ValidDelays(delays) && 0 < clock <= now
    ensures before.Claim(now).Success?
    ensures var r := Recorded(before.Claim(now).value, before.attempts + 1, failure, delays, now);
            r.Success? && RemovalEnds(before, r.value, failure, delays, now) && r.value.Sound(now)
  {
  }

  lemma ClaimTakes(db: Db, c: Id, clock: Time, now: Time)
    requires c != 0 && c in db.cleanups && db.cleanups[c].Sound(clock) && CleanupClaimable(db.cleanups[c], now)
    requires 0 < clock <= now && FreshRows(db)
    ensures var r := ClaimCleanup(db, c, now);
            && r.Success? && FreshRows(r.value) && c in r.value.cleanups
            && db.cleanups[c].Claim(now) == Success(r.value.cleanups[c])
            && var row := r.value.cleanups[c];
            && r.value.cleanups == db.cleanups[c := row] && row.key == db.cleanups[c].key && row.Sound(now)
            && row.status == CleanupEntity.CleanupRunning && row.attempts == db.cleanups[c].attempts + 1
            && 1 <= row.attempts <= row.maxAttempts == CleanupEntity.MAX_ATTEMPTS
  {
  }

  lemma RowStays(a: Db, b: Db, c: Id)
    requires Later(a, b) && c in a.cleanups
    ensures c in b.cleanups
  {
  }

  // How far a scan has come since the tables were `db`.
  ghost predicate Sweeping(db: Db, db': Db, seen: seq<Object>, asked: seq<Key>, cutoff: int, others: Interference, count: nat) {
    && FreshRows(db') && Later(db, db') && Handled(db', seen, cutoff)
    && count == |asked| && AsksForOrphans(db, asked, seen, cutoff)
    && (Undisturbed(others) ==> Swept(db, db', seen, cutoff) && count == Orphans(db, seen, cutoff))
  }

  lemma SweepBegins(db: Db, cutoff: int, others: Interference)
    requires FreshRows(db)
    ensures Sweeping(db, db, [], [], cutoff, others, 0)
  {
    hide Swept, Handled, AsksForOrphans, Later, Undisturbed;
    LaterRefl(db);
    NothingListed(db, cutoff);
  }

  class StorageCleanupUsecase {
    const videos: Repositories.VideoRepository
    const jobs: Repositories.StorageCleanupJobRepository
    const store: ObjectStore
    const retryDelays: seq<nat>
    const orphanMinAge: nat

    constructor (videos: Repositories.VideoRepository, jobs: Repositories.StorageCleanupJobRepository, store: ObjectStore,
                 retryDelays: seq<nat>, orphanMinAge: nat)
      ensures this.videos == videos && this.jobs == jobs && this.store == store
      ensures this.retryDelays == retryDelays && this.orphanMinAge == orphanMinAge
    {
      this.videos, this.jobs, this.store := videos, jobs, store;
      this.retryDelays, this.orphanMinAge := retryDelays, orphanMinAge;
    }

    /**
      One cleanup job, whatever others do between its claim and its outcome: its object and no other is deleted, and
      the outcome is recorded, with a retry of a temporary failure up to the fourth attempt, unless the row as it is
      left takes no such outcome because others have taken the job away. Undisturbed, the outcome is always recorded.
     */
    method ProcessNext(row: Option<Id>, failure: Option<DeleteFailure>, others: Interference, clock: Time, now: Time)
      returns (processed: bool, err: Option<Error>)
      requires 0 < clock <= now && ValidDelays(retryDelays) && FreshRows(jobs.tables.Snapshot()) && Forward(others)
      requires row.Some? ==>
                 && row.value != 0 && row.value in jobs.tables.cleanups
                 && jobs.tables.cleanups[row.value].Sound(clock)
                 && CleanupClaimable(jobs.tables.cleanups[row.value], now)
      modifies jobs.tables, store
      ensures processed <==> row.Some?
      ensures !processed ==>
                err.None? && jobs.tables.Snapshot() == old(jobs.tables.Snapshot()) && store.objects == old(store.objects)
      ensures processed ==>
                var before := old(jobs.tables.cleanups)[row.value];
                && store.objects == (if failure.None? then old(store.objects) - {before.key} else old(store.objects))
                && row.value in jobs.tables.cleanups && 1 <= before.attempts + 1 <= 4
                && var after := jobs.tables.cleanups[row.value];
                   if err.None? then after.status == StatusAfter(before.attempts + 1, failure)
                   else Recorded(after, before.attempts + 1, failure, retryDelays, now).Failure?
      ensures processed && Undisturbed(others) ==>
                var before := old(jobs.tables.cleanups)[row.value];
                && err.None?
                && jobs.tables.cleanups == old(jobs.tables.cleanups)[row.value := jobs.tables.cleanups[row.value]]
                && RemovalEnds(before, jobs.tables.cleanups[row.value], failure, retryDelays, now)
                && jobs.tables.cleanups[row.value].Sound(now)
    {
      hide Forward, FreshRows, StatusAfter, ClaimCleanup, RemovalEnds, Recorded, Undisturbed;
      if row.Some? {
        ClaimTakes(jobs.tables.Snapshot(), row.value, clock, now);
        RecordedEnds(jobs.tables.cleanups[row.value], clock, failure, retryDelays, now);
      }
      var job, claimErr := jobs.ClaimNext(row, now);
      if claimErr.Some? { return false, claimErr; }
      if job.None? { return false, None; }
      processed := true;
      err := Remove(row.value, job.value, failure, others, now);
    }

    // Everything after the claim.
    method Remove(id: Id, job: Cleanup, failure: Option<DeleteFailure>, others: Interference, now: Time)
      returns (err: Option<Error>)
      requires 0 < now && ValidDelays(retryDelays) && FreshRows(jobs.tables.Snapshot()) && Forward(others)
      requires id != 0 && id in jobs.tables.cleanups && job == jobs.tables.cleanups[id]
      requires 1 <= job.attempts <= CleanupEntity.MAX_ATTEMPTS && job.maxAttempts == CleanupEntity.MAX_ATTEMPTS
      modifies jobs.tables, store
      ensures store.objects == if failure.None? then old(store.objects) - {job.key} else old(store.objects)
      ensures id in jobs.tables.cleanups
      ensures if err.None? then jobs.tables.cleanups[id].status == StatusAfter(job.attempts, failure)
              else Recorded(jobs.tables.cleanups[id], job.attempts, failure, retryDelays, now).Failure?
      ensures Undisturbed(others) && Recorded(job, job.attempts, failure, retryDelays, now).Success? ==>
                && err.None?
                && jobs.tables.cleanups
                   == old(jobs.tables.cleanups)[id := Recorded(job, job.attempts, failure, retryDelays, now).value]
    {
      hide Forward, FreshRows, Later, StatusAfter;
      var deleteErr := store.Delete(job.key, failure);
      ghost var claimed := jobs.tables.Snapshot();
      Interfere(jobs.tables, others, 0);
      RowStays(claimed, jobs.tables.Snapshot(), id);
      RecordedStatus(jobs.tables.cleanups[id], job.attempts, failure, retryDelays, now);
      if deleteErr.Some? && !deleteErr.value.ObjectNotFound? {
        err := RecordDeleteFailure(id, job, deleteErr.value, now);
        return;
      }
      err := jobs.MarkSucceeded(id, now);
    }

    /** A temporary failure is retried before the fourth attempt; any other fails the job. */
    method RecordDeleteFailure(id: Id, job: Cleanup, failure: DeleteFailure, now: Time) returns (err: Option<Error>)
      requires 0 < now && ValidDelays(retryDelays) && id != 0 && id in jobs.tables.cleanups
      requires 1 <= job.attempts <= CleanupEntity.MAX_ATTEMPTS && job.maxAttempts == CleanupEntity.MAX_ATTEMPTS
      requires !failure.ObjectNotFound?
      modifies jobs.tables
      ensures Repositories.Commits(
                SaveCleanup(old(jobs.tables.Snapshot()), id,
                            Recorded(old(jobs.tables.cleanups)[id], job.attempts, Some(failure), retryDelays, now)),
                old(jobs.tables.Snapshot()), jobs.tables.Snapshot(), err)
      ensures err.None? ==> jobs.tables.cleanups[id].status == StatusAfter(job.attempts, Some(failure))
      ensures job == old(jobs.tables.cleanups)[id] && job.Sound(now) && job.status == CleanupEntity.CleanupRunning ==>
                && err.None?
                && jobs.tables.cleanups[id].attempts == job.attempts && jobs.tables.cleanups[id].Sound(now)
    {
      RecordedStatus(jobs.tables.cleanups[id], job.attempts, Some(failure), retryDelays, now);
      if id == 0 || job.attempts < 1 || job.maxAttempts < 1 || job.attempts > job.maxAttempts {
        return Some(CleanupJobConflict);
      }
      var (code, retryable) := ClassifyCleanupError(failure);
      if retryable && job.attempts < job.maxAttempts {
        var retryIndex := job.attempts - 1;
        if retryIndex < 0 || retryIndex >= |retryDelays| { return Some(CleanupJobConflict); }
        err := jobs.ScheduleRetry(id, now + retryDelays[retryIndex], code, now);
      } else {
        err := jobs.MarkFailed(id, code, now);
      }
    }

    /**
      Whatever the store answers, page by page (None is an error), and whatever others do between its reads and
      writes: every old object it listed has a cleanup row in the end or is referenced, and it asks only for objects
      that nothing referred to when it began. Undisturbed, exactly the orphans it listed got a row. Without an error
      the listing was read to its last page.
     */
    method DetectOrphanObjects(answers: seq<Option<Page>>, others: Interference, now: Time)
      returns (registered: nat, err: Option<ScanError>, ghost read: seq<Page>, ghost asked: seq<Key>)
      requires videos.tables == jobs.tables && FreshRows(jobs.tables.Snapshot()) && Forward(others)
      modifies jobs.tables
      ensures |read| <= |answers| && forall i | 0 <= i < |read| :: answers[i] == Some(read[i])
      ensures Later(old(jobs.tables.Snapshot()), jobs.tables.Snapshot())
      ensures Handled(jobs.tables.Snapshot(), Listed(read), now - orphanMinAge)
      ensures registered == |asked| && AsksForOrphans(old(jobs.tables.Snapshot()), asked, Listed(read), now - orphanMinAge)
      ensures Undisturbed(others) ==>
                && Swept(old(jobs.tables.Snapshot()), jobs.tables.Snapshot(), Listed(read), now - orphanMinAge)
                && registered == Orphans(old(jobs.tables.Snapshot()), Listed(read), now - orphanMinAge)
      ensures forall k | k in asked ::
                && Unmentioned(old(jobs.tables.Snapshot()), k) && !Theorems.InUse(old(jobs.tables.Snapshot()), k)
                && ListedOld(Listed(read), k, now - orphanMinAge)
      ensures Undisturbed(others) ==>
                forall c | c in jobs.tables.cleanups && c !in old(jobs.tables.cleanups) ::
                  !Theorems.InUse(old(jobs.tables.Snapshot()), jobs.tables.cleanups[c].key)
      ensures err.None? ==> read != [] && !read[|read| - 1].hasMore
      ensures err == Some(BadTime) <==> now == 0
      ensures err == Some(StorageFailed) ==> |read| == |answers| || answers[|read|] == None
      ensures PagesFollow(read) && StopsWith(read, err)
    {
      hide Later, Forward, Swept, Handled, AsksForOrphans, Unmentioned, ListedOld, Theorems.InUse;
      ghost var db := jobs.tables.Snapshot();
      registered, err, read, asked := Scan(answers, others, now);
      forall k | k in asked
        ensures Unmentioned(db, k) && !Theorems.InUse(db, k) && ListedOld(Listed(read), k, now - orphanMinAge)
      {
        AskedAreUnused(db, asked, Listed(read), now - orphanMinAge, k);
      }
      if Undisturbed(others) {
        forall c | c in jobs.tables.cleanups && c !in db.cleanups
          ensures !Theorems.InUse(db, jobs.tables.cleanups[c].key)
        {
          SweptExactly(db, jobs.tables.Snapshot(), Listed(read), now - orphanMinAge, jobs.tables.cleanups[c].key);
        }
      }
    }

    // The loop over the pages.
    method Scan(answers: seq<Option<Page>>, others: Interference, now: Time)
      returns (registered: nat, err: Option<ScanError>, ghost read: seq<Page>, ghost asked: seq<Key>)
      requires videos.tables == jobs.tables && FreshRows(jobs.tables.Snapshot()) && Forward(others)
      modifies jobs.tables
      ensures AreAnswers(answers, read)
      ensures Sweeping(old(jobs.tables.Snapshot()), jobs.tables.Snapshot(), Listed(read), asked, now - orphanMinAge, others,
                       registered)
      ensures err == Some(BadTime) <==> now == 0
      ensures err == Some(StorageFailed) ==> |read| == |answers| || answers[|read|] == None
      ensures PagesFollow(read) && StopsWith(read, err)
    {
      hide Forward, Sweeping, FreshRows, Listed, AreAnswers, AllLeadOn, PagesFollow, StopsWith, LastCursor;
      read, asked := [], [];
      NoPages(answers);
      ghost var db := jobs.tables.Snapshot();
      registered := 0;
      SweepBegins(db, now - orphanMinAge, others);
      if now == 0 { err := Some(BadTime); return; }
      var cutoff := now - orphanMinAge;
      var cursor: Option<Key> := None;
      var call := 0;
      while call < |answers|
        invariant 0 <= call <= |answers| && |read| == call && AreAnswers(answers, read)
        invariant Sweeping(db, jobs.tables.Snapshot(), Listed(read), asked, cutoff, others, registered)
        invariant cursor == LastCursor(read) && AllLeadOn(read)
      {
        AllFollow(read);
        if answers[call].None? { err := Some(StorageFailed); return; }
        var page := answers[call].value;
        registered, asked := RegisterPage(page.items, cutoff, now, others, db, Listed(read), asked, registered);
        PageAdded(answers, read, page);
        read := read + [page];
        call := call + 1;
        if !page.hasMore { err := None; return; }
        if page.next.None? || page.next.value == 0 { err := Some(NoNextCursor); return; }
        if cursor.Some? && cursor.value == page.next.value { err := Some(CursorStuck); return; }
        cursor := Some(page.next.value);
      }
      err := Some(StorageFailed);
      AllFollow(read);
    }

    // The inner loop, over the items of one page.
    method RegisterPage(items: seq<Object>, cutoff: int, now: Time, others: Interference, ghost db: Db,
                        ghost before: seq<Object>, ghost askedBefore: seq<Key>, count: nat)
      returns (registered: nat, ghost asked: seq<Key>)
      requires videos.tables == jobs.tables && now != 0 && Forward(others)
      requires Sweeping(db, jobs.tables.Snapshot(), before, askedBefore, cutoff, others, count)
      modifies jobs.tables
      ensures Sweeping(db, jobs.tables.Snapshot(), before + items, asked, cutoff, others, registered)
    {
      hide Sweeping, Forward;
      registered, asked := count, askedBefore;
      var i := 0;
      assert before + items[..0] == before;
      while i < |items|
        invariant 0 <= i <= |items|
        invariant Sweeping(db, jobs.tables.Snapshot(), before + items[..i], asked, cutoff, others, registered)
      {
        assert before + items[..i + 1] == before + items[..i] + [items[i]];
        registered, asked := RegisterItem(items[i], cutoff, now, others, db, before + items[..i], asked, registered);
        i := i + 1;
      }
      assert items[..|items|] == items;
    }

    // The body of the inner loop.
    method RegisterItem(item: Object, cutoff: int, now: Time, others: Interference, ghost db: Db, ghost seen: seq<Object>,
                        ghost askedBefore: seq<Key>, count: nat)
      returns (registered: nat, ghost asked: seq<Key>)
      requires videos.tables == jobs.tables && now != 0 && Forward(others)
      requires Sweeping(db, jobs.tables.Snapshot(), seen, askedBefore, cutoff, others, count)
      modifies jobs.tables
      ensures Sweeping(db, jobs.tables.Snapshot(), seen + [item], asked, cutoff, others, registered)
    {
      hide Swept, FreshRows, IsObjectReferenced, CreateCleanup, Later, KeyRegistered, AsksForOrphans, Forward, Handled;
      registered, asked := count, askedBefore;
      assert (seen + [item])[..|seen|] == seen;
      AsksForOneMore(db, asked, seen, item, cutoff);
      if item.key == 0 || item.modified == 0 || item.modified > cutoff {
        HandledSkip(jobs.tables.Snapshot(), seen, item, cutoff);
        if Undisturbed(others) { SweptSkip(db, jobs.tables.Snapshot(), seen, item, cutoff); }
        return;
      }
      OthersAct(others, registered, db, seen, cutoff);
      var referenced := videos.IsObjectReferenced(item.key);
      if Undisturbed(others) { SameReferences(db, jobs.tables.Snapshot(), seen, cutoff, item.key); }
      if referenced.value {
        HandledSkip(jobs.tables.Snapshot(), seen, item, cutoff);
        if Undisturbed(others) { SweptSkip(db, jobs.tables.Snapshot(), seen, item, cutoff); }
        return;
      }
      if IsObjectReferenced(db, item.key) { StillReferenced(db, jobs.tables.Snapshot(), item.key); }
      OthersAct(others, registered, db, seen, cutoff);
      var job := CleanupEntity.NewCleanup(None, item.key, CleanupEntity.AssetUnknown, CleanupEntity.OrphanDetected, now);
      if Undisturbed(others) { SweptRegister(db, jobs.tables.Snapshot(), seen, item, cutoff, now); }
      ghost var found := jobs.tables.Snapshot();
      CreateIsLater(found, job.value);
      jobs.Create(job.value);
      LaterTrans(db, found, jobs.tables.Snapshot());
      HandledStays(found, jobs.tables.Snapshot(), seen, cutoff);
      HandledSkip(jobs.tables.Snapshot(), seen, item, cutoff);
      registered, asked := registered + 1, asked + [item.key];
    }

    // Others act in the middle of a sweep.
    method OthersAct(others: Interference, n: nat, ghost db: Db, ghost seen: seq<Object>, cutoff: int)
      requires FreshRows(jobs.tables.Snapshot()) && Forward(others)
      requires Later(db, jobs.tables.Snapshot()) && Handled(jobs.tables.Snapshot(), seen, cutoff)
      modifies jobs.tables
      ensures FreshRows(jobs.tables.Snapshot())
      ensures Later(db, jobs.tables.Snapshot()) && Handled(jobs.tables.Snapshot(), seen, cutoff)
      ensures Undisturbed(others) ==> jobs.tables.Snapshot() == old(jobs.tables.Snapshot())
    {
      hide Later, Handled, FreshRows, Forward;
      Interfere(jobs.tables, others, n);
      LaterTrans(db, old(jobs.tables.Snapshot()), jobs.tables.Snapshot());
      HandledStays(old(jobs.tables.Snapshot()), jobs.tables.Snapshot(), seen, cutoff);
    }
  }

  // What the store has answered so far.
  predicate AreAnswers(answers: seq<Option<Page>>, read: seq<Page>) {
    |read| <= |answers| && forall i | 0 <= i < |read| :: answers[i] == Some(read[i])
  }

  predicate AllLeadOn(read: seq<Page>) {
    forall k | 0 <= k < |read| :: LeadsOn(read, k)
  }

  function LastCursor(read: seq<Page>): Option<Key> {
    if read == [] then None else read[|read| - 1].next
  }

  lemma NoPages(answers: seq<Option<Page>>)
    ensures AreAnswers(answers, []) && AllLeadOn([]) && PagesFollow([]) && LastCursor([]) == None && Listed([]) == []
    ensures StopsWith([], Some(BadTime))
  {
  }

  lemma AllFollow(read: seq<Page>)
    requires AllLeadOn(read)
    ensures PagesFollow(read) && StopsWith(read, Some(StorageFailed))
  {
  }

  // One more page: what it is the end of, or that it leads on.
  lemma PageAdded(answers: seq<Option<Page>>, read: seq<Page>, page: Page)
    requires AreAnswers(answers, read) && |read| < |answers| && answers[|read|] == Some(page) && AllLeadOn(read)
    ensures var more := read + [page];
            && AreAnswers(answers, more) && Listed(more) == Listed(read) + page.items && PagesFollow(more)
            && LastCursor(more) == page.next
            && if !page.hasMore then StopsWith(more, None)
               else if page.next == None || page.next == Some(0) then StopsWith(more, Some(NoNextCursor))
               else if page.next == LastCursor(read) then StopsWith(more, Some(CursorStuck))
               else AllLeadOn(more)
  {
    hide LeadsOn;
    var more := read + [page];
    assert more[..|read|] == read;
    forall k | 0 <= k < |read|
      ensures LeadsOn(more, k)
    {
      LeadsOnStill(read, page, k);
    }
    LastPage(read, page);
  }

  lemma LeadsOnStill(read: seq<Page>, page: Page, k: nat)
    requires k < |read| && LeadsOn(read, k)
    ensures LeadsOn(read + [page], k)
  {
  }

  lemma LastPage(read: seq<Page>, page: Page)
    requires AllLeadOn(read)
    ensures LeadsOn(read + [page], |read|)
            <==> page.hasMore && page.next.Some? && page.next != Some(0) && page.next != LastCursor(read)
    ensures read != [] ==> LastCursor(read).Some?
  {
    assert read != [] ==> LeadsOn(read, |read| - 1);
  }

  lemma NothingListed(db: Db, cutoff: int)
    ensures Handled(db, [], cutoff) && AsksForOrphans(db, [], [], cutoff) && Swept(db, db, [], cutoff)
  {
  }

  lemma HandledSkip(db: Db, seen: seq<Object>, o: Object, cutoff: int)
    requires Handled(db, seen, cutoff)
    requires IsOld(o, cutoff) ==> KeyRegistered(db.cleanups, o.key) || IsObjectReferenced(db, o.key)
    ensures Handled(db, seen + [o], cutoff)
  {
    hide KeyRegistered, IsObjectReferenced;
  }
}
