/** The processing job row and its lifecycle (backend/entity/video_processing_job.go). */
module VideoJobEntity {
  import opened Common

  const MAX_ATTEMPTS: int := 4

  datatype JobStatus = JobQueued | JobRunning | JobRetryWait | JobSucceeded | JobFailed | JobCancelled

  datatype FailureCode =
    | InvalidFormat | VideoCorrupt | DurationExceeded | SizeExceeded | ResolutionExceeded | InvalidAspectRatio
    | FrameRateExceeded | VideoTrackMissing | GeneralFailure | StorageUnavailable

  // The error columns of a job; a message is present exactly when a code is.
  datatype JobError = NoError | Failed(code: FailureCode) | WorkerTimeout

  /** A row of `video_processing_jobs`. */
  datatype Job = Job(
    videoId: Id,
    status: JobStatus,
    attempts: int,
    maxAttempts: int,
    availableAt: Time,
    startedAt: Option<Time>,
    finishedAt: Option<Time>,
    error: JobError,
    createdAt: Time,
    updatedAt: Time)
  {
    predicate IsTerminal() {
      status == JobSucceeded || status == JobFailed || status == JobCancelled
    }

    // Running with a start time and no finish time: what every way of finishing an attempt demands.
    predicate InAttempt() {
      status == JobRunning && attempts >= 1 && startedAt.Some? && finishedAt.None?
    }

    function Claim(now: Time): Result<Job> {
      if now == 0 then Failure(InvalidInput)
      else if (status != JobQueued && status != JobRetryWait) || attempts < 0 || maxAttempts != MAX_ATTEMPTS
              || attempts >= maxAttempts || availableAt == 0 || now < availableAt
      then Failure(ProcessingJobConflict)
      else Success(this.(status := JobRunning, attempts := attempts + 1, startedAt := Some(now),
                         finishedAt := None, updatedAt := now))
    }

    function ScheduleRetry(available: Time, why: JobError, now: Time): Result<Job> {
      if now == 0 || available == 0 || why == NoError then Failure(InvalidInput)
      else if !InAttempt() || attempts >= maxAttempts || maxAttempts != MAX_ATTEMPTS || available <= now
      then Failure(ProcessingJobConflict)
      else Success(this.(status := JobRetryWait, availableAt := available, finishedAt := None,
                         error := why, updatedAt := now))
    }

    function MarkSucceeded(now: Time): Result<Job> {
      if now == 0 then Failure(InvalidInput)
      else if !InAttempt() then Failure(ProcessingJobConflict)
      else Success(this.(status := JobSucceeded, finishedAt := Some(now), error := NoError, updatedAt := now))
    }

    function MarkFailed(why: JobError, now: Time): Result<Job> {
      if now == 0 || why == NoError then Failure(InvalidInput)
      else if !InAttempt() then Failure(ProcessingJobConflict)
      else Success(this.(status := JobFailed, finishedAt := Some(now), error := why, updatedAt := now))
    }

    function Cancel(now: Time): Result<Job> {
      if now == 0 then Failure(InvalidInput)
      else if IsTerminal() || finishedAt.Some? then Failure(ProcessingJobConflict)
      else Success(this.(status := JobCancelled, finishedAt := Some(now), updatedAt := now))
    }

    /** The CHECK constraints of the table (backend/migrate/video_processing_jobs.go). */
    predicate Checks() {
      && maxAttempts == MAX_ATTEMPTS && 0 <= attempts <= maxAttempts
      && (status == JobQueued ==> attempts == 0 && startedAt.None? && finishedAt.None?)
      && (status == JobRunning ==> attempts >= 1 && startedAt.Some? && finishedAt.None?)
      && (status == JobRetryWait ==> attempts >= 1 && startedAt.Some? && finishedAt.None? && availableAt > updatedAt)
      && (IsTerminal() <==> finishedAt.Some?)
      && (status == JobRetryWait || status == JobFailed ==> error != NoError)
      && (status == JobSucceeded ==> error == NoError)
      && availableAt >= createdAt && updatedAt >= createdAt
      && (startedAt.Some? ==> startedAt.value >= createdAt)
      && (finishedAt.Some? ==> finishedAt.value >= createdAt)
      && (startedAt.Some? && finishedAt.Some? ==> finishedAt.value >= startedAt.value)
    }

    // What the constraints do not say but every run keeps: no stamp lies after `clock`, and a
    // waiting job has an attempt left.
    predicate Sound(clock: Time) {
      && Checks()
      && 0 < createdAt && updatedAt <= clock
      && (startedAt.Some? ==> startedAt.value <= clock)
      && (status == JobRetryWait ==> attempts < maxAttempts)
    }

    /** How far the job has come: it grows with every change of status and never passes 8. */
    function Progress(): int {
      match status
      case JobQueued => 0
      case JobRunning => 2 * attempts - 1
      case JobRetryWait => 2 * attempts
      case _ => 2 * MAX_ATTEMPTS
    }
  }

  function NewJob(videoId: Id, now: Time): Result<Job> {
    if videoId == 0 || now == 0 then Failure(InvalidInput)
    else Success(Job(videoId, JobQueued, 0, MAX_ATTEMPTS, now, None, None, NoError, now, now))
  }

  // A successful change of a sound row at time `now` keeps it sound and moves it forward.
  ghost predicate Advances(before: Job, after: Result<Job>, now: Time) {
    after.Success? ==>
      && after.value.Sound(now)
      && after.value.videoId == before.videoId
      && before.Progress() < after.value.Progress() <= 8
      && before.attempts <= after.value.attempts
      && !before.IsTerminal()
  }

  /** Every transition of a job keeps the CHECK constraints and strictly increases its progress. */
  lemma TransitionsAdvance(j: Job, available: Time, why: JobError, clock: Time, now: Time)
    requires j.Sound(clock) && clock <= now
    ensures Advances(j, j.Claim(now), now)
    ensures Advances(j, j.ScheduleRetry(available, why, now), now)
    ensures Advances(j, j.MarkSucceeded(now), now)
    ensures Advances(j, j.MarkFailed(why, now), now)
    ensures Advances(j, j.Cancel(now), now)
    ensures 0 <= j.Progress() <= 8
  {
  }

  /** When each transition is accepted, in terms of a sound row's status. */
  lemma TransitionGuards(j: Job, available: Time, why: JobError, clock: Time, now: Time)
    requires j.Sound(clock) && 0 < clock <= now
    ensures j.Claim(now).Success? <==> (j.status == JobQueued || j.status == JobRetryWait) && j.availableAt <= now
    ensures j.ScheduleRetry(available, why, now).Success?
            <==> j.status == JobRunning && j.attempts < 4 && why != NoError && available > now
    ensures j.MarkSucceeded(now).Success? <==> j.status == JobRunning
    ensures j.MarkFailed(why, now).Success? <==> j.status == JobRunning && why != NoError
    ensures j.Cancel(now).Success? <==> !j.IsTerminal()
  {
  }

  ghost predicate Follows(spec: Result<Job>, before: Job, after: Job, err: Option<Error>) {
    match spec
    case Success(j) => after == j && err == None
    case Failure(e) => after == before && err == Some(e)
  }

  /** The struct a transaction loads a job into, changes in place and saves. */
  class JobRecord {
    const videoId: Id
    const maxAttempts: int
    const createdAt: Time
    var status: JobStatus
    var attempts: int
    var availableAt: Time
    var startedAt: Option<Time>
    var finishedAt: Option<Time>
    var error: JobError
    var updatedAt: Time

    constructor (row: Job)
      ensures Row() == row
    {
      videoId, maxAttempts, createdAt := row.videoId, row.maxAttempts, row.createdAt;
      status, attempts, availableAt := row.status, row.attempts, row.availableAt;
      startedAt, finishedAt := row.startedAt, row.finishedAt;
      error, updatedAt := row.error, row.updatedAt;
    }

    function Row(): Job
      reads this
    {
      Job(videoId, status, attempts, maxAttempts, availableAt, startedAt, finishedAt, error, createdAt, updatedAt)
    }

    method Claim(now: Time) returns (err: Option<Error>)
      modifies this
      ensures Follows(old(Row()).Claim(now), old(Row()), Row(), err)
    {
      if now == 0 { return Some(InvalidInput); }
      if (status != JobQueued && status != JobRetryWait) || attempts < 0 || maxAttempts != MAX_ATTEMPTS
         || attempts >= maxAttempts || availableAt == 0 || now < availableAt
      {
        return Some(ProcessingJobConflict);
      }
      status := JobRunning;
      attempts := attempts + 1;
      startedAt := Some(now);
      finishedAt := None;
      updatedAt := now;
      err := None;
    }

    method ScheduleRetry(available: Time, why: JobError, now: Time) returns (err: Option<Error>)
      modifies this
      ensures Follows(old(Row()).ScheduleRetry(available, why, now), old(Row()), Row(), err)
    {
      if now == 0 || available == 0 { return Some(InvalidInput); }
      if why == NoError { return Some(InvalidInput); }
      if status != JobRunning || attempts < 1 || attempts >= maxAttempts || maxAttempts != MAX_ATTEMPTS
         || startedAt.None? || finishedAt.Some? || available <= now
      {
        return Some(ProcessingJobConflict);
      }
      status := JobRetryWait;
      availableAt := available;
      finishedAt := None;
      error := why;
      updatedAt := now;
      err := None;
    }

    method MarkSucceeded(now: Time) returns (err: Option<Error>)
      modifies this
      ensures Follows(old(Row()).MarkSucceeded(now), old(Row()), Row(), err)
    {
      if now == 0 { return Some(InvalidInput); }
      if status != JobRunning || attempts < 1 || startedAt.None? || finishedAt.Some? {
        return Some(ProcessingJobConflict);
      }
      status := JobSucceeded;
      finishedAt := Some(now);
      error := NoError;
      updatedAt := now;
      err := None;
    }

    method MarkFailed(why: JobError, now: Time) returns (err: Option<Error>)
      modifies this
      ensures Follows(old(Row()).MarkFailed(why, now), old(Row()), Row(), err)
    {
      if now == 0 { return Some(InvalidInput); }
      if why == NoError { return Some(InvalidInput); }
      if status != JobRunning || attempts < 1 || startedAt.None? || finishedAt.Some? {
        return Some(ProcessingJobConflict);
      }
      status := JobFailed;
      finishedAt := Some(now);
      error := why;
      updatedAt := now;
      err := None;
    }

    method Cancel(now: Time) returns (err: Option<Error>)
      modifies this
      ensures Follows(old(Row()).Cancel(now), old(Row()), Row(), err)
    {
      if now == 0 { return Some(InvalidInput); }
      if (status != JobQueued && status != JobRetryWait && status != JobRunning) || finishedAt.Some? {
        return Some(ProcessingJobConflict);
      }
      status := JobCancelled;
      finishedAt := Some(now);
      updatedAt := now;
      err := None;
    }
  }
}
