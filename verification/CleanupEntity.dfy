/** The storage cleanup job row and its lifecycle (backend/entity/storage_cleanup_job.go). */
module CleanupEntity {
  import opened Common

  const MAX_ATTEMPTS: int := 4

  datatype AssetType = AssetOriginal | AssetProcessed | AssetThumbnail | AssetUnknown

  datatype CleanupCause = VideoDelete | UploadExpiry | ProcessFailed | Rollback | OrphanDetected

  datatype CleanupStatus = CleanupQueued | CleanupRunning | CleanupRetryWait | CleanupSucceeded | CleanupFailed

  datatype CleanupError = NoError | TemporaryFailure | PermanentFailure | WorkerTimeout

  /** A row of `storage_cleanup_jobs`. */
  datatype Cleanup = Cleanup(
    videoId: Option<Id>,
    key: Key,
    asset: AssetType,
    cause: CleanupCause,
    status: CleanupStatus,
    attempts: int,
    maxAttempts: int,
    availableAt: Time,
    startedAt: Option<Time>,
    finishedAt: Option<Time>,
    error: CleanupError,
    createdAt: Time,
    updatedAt: Time)
  {
    predicate IsUnfinished() {
      status == CleanupQueued || status == CleanupRunning || status == CleanupRetryWait
    }

    predicate InAttempt() {
      status == CleanupRunning && attempts >= 1 && startedAt.Some? && finishedAt.None?
    }

    function Claim(now: Time): Result<Cleanup> {
      if now == 0 then Failure(InvalidInput)
      else if (status != CleanupQueued && status != CleanupRetryWait) || attempts < 0 || maxAttempts != MAX_ATTEMPTS
              || attempts >= maxAttempts || availableAt == 0 || now < availableAt
      then Failure(CleanupJobConflict)
      else Success(this.(status := CleanupRunning, attempts := attempts + 1, startedAt := Some(now),
                         finishedAt := None, updatedAt := now))
    }

    function ScheduleRetry(available: Time, why: CleanupError, now: Time): Result<Cleanup> {
      if now == 0 || available == 0 || why == NoError then Failure(InvalidInput)
      else if !InAttempt() || attempts >= maxAttempts || maxAttempts != MAX_ATTEMPTS || available <= now
      then Failure(CleanupJobConflict)
      else Success(this.(status := CleanupRetryWait, availableAt := available, finishedAt := None,
                         error := why, updatedAt := now))
    }

    function MarkSucceeded(now: Time): Result<Cleanup> {
      if now == 0 then Failure(InvalidInput)
      else if !InAttempt() then Failure(CleanupJobConflict)
      else Success(this.(status := CleanupSucceeded, finishedAt := Some(now), error := NoError, updatedAt := now))
    }

    function MarkFailed(why: CleanupError, now: Time): Result<Cleanup> {
      if now == 0 || why == NoError then Failure(InvalidInput)
      else if !InAttempt() then Failure(CleanupJobConflict)
      else Success(this.(status := CleanupFailed, finishedAt := Some(now), error := why, updatedAt := now))
    }

    /** The CHECK constraints of the table (backend/migrate/storage_cleanup_jobs.go). */
    predicate Checks() {
      && key != 0
      && maxAttempts == MAX_ATTEMPTS && 0 <= attempts <= maxAttempts
      && (status == CleanupQueued ==> attempts == 0 && startedAt.None? && finishedAt.None?)
      && (status == CleanupRunning ==> attempts >= 1 && startedAt.Some? && finishedAt.None?)
      && (status == CleanupRetryWait ==>
            attempts >= 1 && startedAt.Some? && finishedAt.None? && availableAt > updatedAt)
      && (IsUnfinished() <==> finishedAt.None?)
      && (status == CleanupRetryWait || status == CleanupFailed ==> error != NoError)
      && (status == CleanupSucceeded ==> error == NoError)
      && availableAt >= createdAt && updatedAt >= createdAt
      && (startedAt.Some? ==> startedAt.value >= createdAt)
      && (finishedAt.Some? ==> finishedAt.value >= createdAt)
      && (startedAt.Some? && finishedAt.Some? ==> finishedAt.value >= startedAt.value)
    }

    predicate Sound(clock: Time) {
      && Checks()
      && 0 < createdAt && updatedAt <= clock
      && (startedAt.Some? ==> startedAt.value <= clock)
      && (status == CleanupRetryWait ==> attempts < maxAttempts)
    }

    function Progress(): int {
      match status
      case CleanupQueued => 0
      case CleanupRunning => 2 * attempts - 1
      case CleanupRetryWait => 2 * attempts
      case _ => 2 * MAX_ATTEMPTS
    }
  }

  function NewCleanup(videoId: Option<Id>, key: Key, asset: AssetType, cause: CleanupCause, now: Time): Result<Cleanup> {
    if key == 0 || now == 0 || videoId == Some(0) then Failure(InvalidInput)
    else Success(Cleanup(videoId, key, asset, cause, CleanupQueued, 0, MAX_ATTEMPTS, now, None, None, NoError, now, now))
  }

  ghost predicate Advances(before: Cleanup, after: Result<Cleanup>, now: Time) {
    after.Success? ==>
      && after.value.Sound(now)
      && after.value.key == before.key
      && before.Progress() < after.value.Progress() <= 8
      && before.attempts <= after.value.attempts
      && before.IsUnfinished()
  }

  /** Every transition of a cleanup job keeps the CHECK constraints and strictly increases its progress. */
  lemma TransitionsAdvance(c: Cleanup, available: Time, why: CleanupError, clock: Time, now: Time)
    requires c.Sound(clock) && clock <= now
    ensures Advances(c, c.Claim(now), now)
    ensures Advances(c, c.ScheduleRetry(available, why, now), now)
    ensures Advances(c, c.MarkSucceeded(now), now)
    ensures Advances(c, c.MarkFailed(why, now), now)
    ensures 0 <= c.Progress() <= 8
  {
  }

  /** When each transition is accepted, in terms of a sound row's status. */
  lemma TransitionGuards(c: Cleanup, available: Time, why: CleanupError, clock: Time, now: Time)
    requires c.Sound(clock) && 0 < clock <= now
    ensures c.Claim(now).Success?
            <==> (c.status == CleanupQueued || c.status == CleanupRetryWait) && c.availableAt <= now
    ensures c.ScheduleRetry(available, why, now).Success?
            <==> c.status == CleanupRunning && c.attempts < 4 && why != NoError && available > now
    ensures c.MarkSucceeded(now).Success? <==> c.status == CleanupRunning
    ensures c.MarkFailed(why, now).Success? <==> c.status == CleanupRunning && why != NoError
  {
  }

  ghost predicate Follows(spec: Result<Cleanup>, before: Cleanup, after: Cleanup, err: Option<Error>) {
    match spec
    case Success(c) => after == c && err == None
    case Failure(e) => after == before && err == Some(e)
  }

  /** The struct a transaction loads a cleanup job into, changes in place and saves. */
  class CleanupRecord {
    const videoId: Option<Id>
    const key: Key
    const asset: AssetType
    const cause: CleanupCause
    const maxAttempts: int
    const createdAt: Time
    var status: CleanupStatus
    var attempts: int
    var availableAt: Time
    var startedAt: Option<Time>
    var finishedAt: Option<Time>
    var error: CleanupError
    var updatedAt: Time

    constructor (row: Cleanup)
      ensures Row() == row
    {
      videoId, key, asset, cause := row.videoId, row.key, row.asset, row.cause;
      maxAttempts, createdAt := row.maxAttempts, row.createdAt;
      status, attempts, availableAt := row.status, row.attempts, row.availableAt;
      startedAt, finishedAt := row.startedAt, row.finishedAt;
      error, updatedAt := row.error, row.updatedAt;
    }

    function Row(): Cleanup
      reads this
    {
      Cleanup(videoId, key, asset, cause, status, attempts, maxAttempts, availableAt,
              startedAt, finishedAt, error, createdAt, updatedAt)
    }

    method Claim(now: Time) returns (err: Option<Error>)
      modifies this
      ensures Follows(old(Row()).Claim(now), old(Row()), Row(), err)
    {
      if now == 0 { return Some(InvalidInput); }
      if (status != CleanupQueued && status != CleanupRetryWait) || attempts < 0 || maxAttempts != MAX_ATTEMPTS
         || attempts >= maxAttempts || availableAt == 0 || now < availableAt
      {
        return Some(CleanupJobConflict);
      }
      status := CleanupRunning;
      attempts := attempts + 1;
      startedAt := Some(now);
      finishedAt := None;
      updatedAt := now;
      err := None;
    }

    method ScheduleRetry(available: Time, why: CleanupError, now: Time) returns (err: Option<Error>)
      modifies this
      ensures Follows(old(Row()).ScheduleRetry(available, why, now), old(Row()), Row(), err)
    {
      if now == 0 || available == 0 { return Some(InvalidInput); }
      if why == NoError { return Some(InvalidInput); }
      if status != CleanupRunning || attempts < 1 || attempts >= maxAttempts || maxAttempts != MAX_ATTEMPTS
         || startedAt.None? || finishedAt.Some? || available <= now
      {
        return Some(CleanupJobConflict);
      }
      status := CleanupRetryWait;
      availableAt := available;
      finishedAt := None;
      error := why;
      updatedAt := now;
      err := None;
    }

    method MarkSucceeded(now: Time) returns (err: Option<Error>)
      modifies this
      ensures Follows(old(Row()).MarkSucceeded(now), old(Row()), Row(), err)
    {
      if now == 0 { return Some(InvalidInput); }
      if status != CleanupRunning || attempts < 1 || startedAt.None? || finishedAt.Some? {
        return Some(CleanupJobConflict);
      }
      status := CleanupSucceeded;
      finishedAt := Some(now);
      error := NoError;
      updatedAt := now;
      err := None;
    }

    method MarkFailed(why: CleanupError, now: Time) returns (err: Option<Error>)
      modifies this
      ensures Follows(old(Row()).MarkFailed(why, now), old(Row()), Row(), err)
    {
      if now == 0 { return Some(InvalidInput); }
      if why == NoError { return Some(InvalidInput); }
      if status != CleanupRunning || attempts < 1 || startedAt.None? || finishedAt.Some? {
        return Some(CleanupJobConflict);
      }
      status := CleanupFailed;
      finishedAt := Some(now);
      error := why;
      updatedAt := now;
      err := None;
    }
  }
}
