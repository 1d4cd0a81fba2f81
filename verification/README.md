# Coffee Reel: a verified model of the backend protocol

Coffee Reel is a video platform. Its Go backend lets users upload videos, processes them with several workers, publishes
them, and cleans up what is no longer needed; administrators suspend users and hide videos. This project models the
protocol behind that and proves what it keeps, under any interleaving of API calls, slow or crashing workers, sweeps and
orphan scans.

- `VideoEntity`, `VideoJobEntity`, `CleanupEntity`, `UserEntity`: the rows. A datatype holds a row and says what each
  lifecycle method makes of it; a class with the row's fields has the methods themselves, which change it in place.
- `Database`: one state of the tables and what each transaction makes of it, or the error that rolls it back.
- `Repositories`, `RefreshTokens`: the repositories over mutable tables, proved against `Database`.
- `VideoProcessing`, `StorageCleanup`: the usecases of the workers, as written. They tolerate any interference between
  their transactions (`Interleaving`) that only moves the tables forward; `Theorems.RunIsLater` shows that nobody in the
  system does anything else.
- `Outcomes`, `Moderation`: what each transaction promises in terms of the rows alone. `Causes`: for whole runs, who can
  change what about a video.
- `Coherence`, `Transactions`, `Effects`, `Publication`: what every transaction keeps and how far it may go.
- `Protocol`: the whole system as a state machine, with workers, cleanup workers, scans, the object store and a clock.
- `Safety`, `Runs`, `Accounting`, `Theorems`, `Queue`: its invariants and what they mean for whole runs. `StaleWorker` is
  a concrete run in which an upload escapes.
- `Sessions`: login, refresh and logout as multi-step calls. `Locks`: publication and suspension split at row locks.
  `TokenLocks`: rotation and revocation of refresh tokens split at row locks.
- `TokenBucket`, `LikeEscape`, `Pagination`, `Idempotency`: the rate limiter, the title search, the public listing and
  idempotent creation.

A run of `Protocol` starts from empty tables with active users. Each database access is one transaction and one step.
A worker knows its job only as it was when claimed: it may be recovered from, overtaken and still go on. There is no
fencing token, so all safety comes from the joint state of videos and jobs. Two assumptions come from outside: object
keys are fresh, and an output is committed within the orphan age after its upload.

Findings, each with a concrete case and a theorem that says how far it reaches:

- An owner cannot delete an expired video while its original awaits cleanup (`Queue.DeletionSucceedsIff`). The index
  whose violation `createCleanupJob` absorbs is dropped by the migration.
- `Restore` reads the owner without a lock, so a video can be published for a suspended user
  (`Locks.LateRestorePublishes`): it is if and only if the restore commits too late (`Locks.RestoreIsSafeIff`).
- A login that read the user before a suspension can store a refresh token after it
  (`Sessions.LoginMayOutliveSuspension`). A suspension ends exactly the families stored before it
  (`Sessions.SuspensionEndsFamilyIff`, `Sessions.UnrevokedAfterSuspension`), and access tokens from before are refused
  for ever.
- The UPDATE of a logout never sees a successor that a concurrent rotation commits while it runs, so the session goes on
  (`TokenLocks.LogoutMissesSuccessor`); it ends the family exactly if nothing of the kind happens
  (`TokenLocks.LogoutEndsIff`). Revocations after a reuse and in suspensions are safe, because they hold the user's row,
  which the foreign key of a new token needs (`TokenLocks.UserLockedRevokesAll`).
- A worker that lost its job to recovery and then fails for good leaves its uploaded object unregistered
  (`StaleWorker.StaleFailureLeaks`, `Accounting.FailSucceedsIff`). The next full orphan scan registers it
  (`Theorems.NextScanRegistersLeaks`).
- Buckets expire by Redis' clock but are filled by the callers' clocks, so skewed callers can be admitted more often than
  the bucket allows (`TokenBucket.SixSignups`). The bound holds exactly up to a skew that each limit determines, 15 s for
  signup (`TokenBucket.AdmissionBoundIff`, `TokenBucket.EightLimitsBound`).

Code and migrations disagree in one place: `backend/repository/video_repository.go` line 718 names an index
that `backend/migrate/storage_cleanup_jobs.go` replaces at lines 102 and 112. The model follows the index that exists.

## Model

| member | source | states |
|---|---|---|
| Theorems.ObjectsInUseAreUntargeted | backend/repository/video_repository.go:670-763 | Object safety: in no state of any run has the original of a living unexpired video, or an output of a living video, a cleanup row of any status, a cleanup worker about to delete it, or an orphan scan about to register it |
| Theorems.ObjectsInUseStay | backend/usecase/storage_cleanup_usecase.go:71-94 | No step of any run removes an object in use from the store |
| Theorems.ObjectsInUseAreStored | backend/repository/video_repository.go:794-851 | In every state all outputs of living videos, and the originals of living videos whose upload was completed, are in the store |
| Safety.StaysCondemned | backend/repository/video_repository.go:922-937 | An object that is out of use stays out of use under every change that revives no reference |
| Safety.DeleteObjectKeeps | backend/usecase/storage_cleanup_usecase.go:84-86 | Deleting a condemned object keeps the system invariant |
| Safety.PlainStepKeeps | backend/repository/video_repository.go:735-763 | A committed transaction keeps the system invariant if the objects it registers are out of use afterwards |
| Safety.CommitKeeps | backend/repository/video_repository.go:824-849 | Committing an output uploaded less than the orphan age ago keeps the system invariant, also under concurrent scans |
| Runs.StepKeeps | backend/worker/worker.go:66-129 | Every step of every actor, including crashes and stale workers, keeps the system invariant |
| Runs.CleanerDeletesKeeps | backend/usecase/storage_cleanup_usecase.go:84-86 | Whatever a cleanup worker deletes is out of use at that moment, and the invariant survives |
| Theorems.RunKeepsWorld | backend/worker/worker.go:66-129 | The system invariant, published-by-active, the audit replay and the upload accounts hold in every state of every run |
| Theorems.RunIsLater | backend/repository/video_repository.go:794-912 | Between any two states of a run deleted videos are frozen, terminal jobs and output metas never change, no row disappears, attempts and token versions never fall, the audit log only grows |
| Theorems.StagesMatchJobs | backend/repository/video_processing_job_repository.go:51-277 | Joint invariant: the stage of a living video and the status of its job determine one another, both ways, ready means exactly one source and one output meta, and a deleted video never has a queued job |
| Theorems.OneCommitPerVideo | backend/repository/video_repository.go:794-851 | However many workers run for a video, at most one completion succeeds while the video lives; its output meta is that worker's and never changes, so a second completion is refused and overwrites nothing |
| Theorems.OutputWasCommitted | backend/repository/video_repository.go:794-851 | Every output meta of every state was written by such a completion |
| Theorems.LostAnswerTargetsOutput | backend/usecase/video_processing_usecase.go:229-246 | What object safety rests on: if a worker took a committed completion for a failed one, the rollback it registers would be accepted and target an object in use |
| Theorems.TerminalJobsStay | backend/entity/video_processing_job.go:138-186 | A terminal job never changes again, whatever stale workers do |
| Theorems.AttemptsClaimedOnce | backend/repository/video_processing_job_repository.go:51-126 | Each attempt number of a job is claimed at most once in a run, and attempts are 1 to 4 |
| Theorems.CleanupAttemptsClaimedOnce | backend/repository/storage_cleanup_job_repository.go:60-93 | Each attempt number of a cleanup job is claimed at most once in a run, and attempts are 1 to 4 |
| Theorems.JobsChangeAtMostEightTimes | backend/entity/video_processing_job.go:101-186 | No processing job changes status more than eight times in any run |
| Theorems.CleanupsChangeAtMostEightTimes | backend/entity/storage_cleanup_job.go:99-170 | No cleanup job changes status more than eight times in any run |
| Theorems.ChecksHold | backend/migrate/video_processing_jobs.go:31-82 | Every video, job and cleanup row of every state satisfies the CHECK constraints of its table |
| Theorems.WorkerDelayInRange | backend/usecase/video_processing_usecase.go:443-450 | The index into the retry delays is always in range when a worker records a retryable failure |
| Theorems.CleanerDelayInRange | backend/usecase/storage_cleanup_usecase.go:169-176 | The same for a cleanup worker whose delete failed |
| Theorems.SuspendedOwnNothingPublished | backend/repository/admin_user_repository.go:134-269 | With atomic transactions no suspended user ever owns a publicly visible video |
| Theorems.HiddenUntilRestored | backend/repository/admin_video_repository.go:263-347 | Between a state where a video is hidden and a later one where it is published there is a Restore of that video |
| Theorems.AuditReplays | backend/entity/admin_audit_log.go:82-113 | The audit log chains; replaying it gives every user status and exactly which living videos are hidden |
| Theorems.UploadsAreAccounted | backend/usecase/video_processing_usecase.go:206-253 | In every state each object a worker ever uploaded is committed, registered for cleanup, in the hands of its worker, or on record as leaked |
| Theorems.LeaksOnly | backend/usecase/video_processing_usecase.go:433-487 | In every run an object leaks in a step if and only if its worker crashes, its cleanup row cannot be written, or FailProcessing is refused, which is the case exactly if the job was taken away or the object has an unfinished cleanup row |
| Theorems.ReturnedUploadsAreSettled | backend/usecase/video_processing_usecase.go:206-253 | An object a worker lets go of in any other step is committed or has a cleanup job |
| Theorems.LeakedIsUnreferenced | backend/repository/video_repository.go:922-937 | No row ever refers to a leaked object |
| Theorems.NextScanRegistersLeaks | backend/usecase/storage_cleanup_usecase.go:109-160 | Once a leaked object is as old as the orphan age, the next full scan that begins (not aborted, listing every old object that is in the store all the while) leaves a cleanup row for it for good, whatever everybody else does meanwhile |
| Theorems.ListedLeakIsRegistered | backend/usecase/storage_cleanup_usecase.go:119-141 | A scan that lists a leaked object and takes its next three steps leaves a cleanup row for it |
| Theorems.LeakCanBeListed | backend/usecase/storage_cleanup_usecase.go:119-122 | A leaked object without a cleanup row can be listed by exactly those scans that began at least the orphan age after its upload |
| Theorems.UploadsAreStoredOrRegistered | backend/usecase/storage_cleanup_usecase.go:84-86 | In every state every object a worker ever uploaded is in the store or has a cleanup row |
| StaleWorker.StaleFailureLeaks | backend/usecase/video_processing_usecase.go:453-462 | Concrete run: a slow worker uploads, its job is recovered, it fails for good, FailProcessing is refused, and the object is in the store with no row that knows about it and no worker that holds it |
| Accounting.StepAccounts | backend/usecase/video_processing_usecase.go:79-253 | No step of any actor loses track of an uploaded object |
| Accounting.FailSucceedsIff | backend/repository/video_repository.go:852-912 | FailProcessing commits if and only if, for a living video, it is unpublished and processing and the job is in its attempt, or for a deleted one the job is not over, and the generated key has no unfinished cleanup row |
| Accounting.MayFailIff | backend/repository/video_processing_job_repository.go:51-277 | In a coherent state the status of the job alone decides that: running for a living video, not terminal for a deleted one |
| Accounting.WorkerFailsIff | backend/usecase/video_processing_usecase.go:453-462 | A worker's FailProcessing is refused exactly if that guard does not hold |
| Accounting.CompletionSettles | backend/repository/video_repository.go:807-849 | A successful completion commits both objects, or registers both because the video is gone |
| Accounting.RegistrationSucceeds | backend/usecase/video_processing_usecase.go:465-487 | Registering the objects of a rejected attempt always succeeds in a reachable state |
| Queue.NothingWedges | backend/worker/worker.go:66-129 | In every state of every run claims, recovery batches and expiry sweeps commit, whatever rows they select |
| Queue.ClaimsSucceed | backend/repository/video_processing_job_repository.go:86-99 | A selected job is always claimed, or cancelled for a deleted video; the state conflicts never happen |
| Queue.CleanupClaimsSucceed | backend/repository/storage_cleanup_job_repository.go:60-93 | A selected cleanup job is always claimed |
| Queue.RecoverySucceeds | backend/repository/video_processing_job_repository.go:216-272 | A recovery batch commits and takes every selected job out of its abandoned attempt |
| Queue.CleanupRecoverySucceeds | backend/repository/storage_cleanup_job_repository.go:173-228 | The same for cleanup jobs |
| Queue.ExpirySucceeds | backend/repository/video_repository.go:735-763 | An expiry sweep never violates the unfinished-object index |
| Queue.DeletionSucceedsIff | backend/repository/video_repository.go:709-724 | An owner's deletion commits if and only if the video is not an expired one whose original still has an unfinished cleanup job; otherwise it fails with the index violation |
| Queue.ExpiredVideoCannotBeDeleted | backend/repository/video_repository.go:718 | Concrete case: a video expires and its deletion fails, because the tested index name is the one dropped at backend/migrate/storage_cleanup_jobs.go line 102 |
| Transactions.PerformKeepsOk | backend/migrate/videos.go:31-43 | Every committed transaction keeps the joint invariant of videos, jobs, metas and cleanup jobs |
| Transactions.PerformIsLater | backend/repository/video_repository.go:222-912 | Every committed transaction only moves rows forward |
| Effects.PerformRegisters | backend/repository/video_repository.go:709-724 | A committed transaction adds cleanup rows for exactly its targets, and all of them have a row |
| Effects.PerformBounded | backend/repository/video_repository.go:794-851 | Output metas are added only by the completion of a running job of a living processing video, videos only by creation, uploads only accepted by CompleteUpload |
| Effects.SweptOriginalsExpired | backend/repository/video_repository.go:735-763 | A sweep leaves every video whose original it registered expired |
| Effects.HideVideosRows | backend/repository/admin_user_repository.go:206-269 | A suspension hides exactly the rows it selected, each publicly visible before |
| Publication.PerformKeepsPublication | backend/repository/admin_user_repository.go:134-331 | Every transaction keeps published videos with active owners and the audit log in step with the tables |
| Publication.PerformQuiet | backend/repository/video_repository.go:607-912 | Owners, workers and sweeps hide nothing, log nothing and publish only for active users |
| Publication.OnlyRestoreUnhides | backend/entity/video.go:264-306 | Only Restore publishes a hidden video, only deletion makes it private |
| Coherence.CompleteUploadKeeps | backend/repository/video_repository.go:222-273 | Completing an upload keeps the joint invariant: the video gets exactly one queued job |
| Coherence.DeleteKeeps | backend/repository/video_repository.go:670-707 | Deletion keeps the joint invariant: waiting jobs of the video are cancelled with it |
| Coherence.ExpireRowsKeeps | backend/repository/video_repository.go:735-763 | A sweep of any length keeps the joint invariant |
| Coherence.RecordSourceKeeps | backend/repository/video_repository.go:765-792 | Recording the source keeps the joint invariant |
| Coherence.CompleteProcessingKeeps | backend/repository/video_repository.go:794-851 | A completion, of a living or a deleted video, keeps the joint invariant |
| Coherence.FailProcessingKeeps | backend/repository/video_repository.go:852-912 | A recorded failure keeps the joint invariant |
| Coherence.ClaimJobKeeps | backend/repository/video_processing_job_repository.go:51-126 | A claim keeps the joint invariant |
| Coherence.ScheduleRetryKeeps | backend/repository/video_processing_job_repository.go:128-158 | A scheduled retry keeps the joint invariant |
| Coherence.CancelJobKeeps | backend/repository/video_processing_job_repository.go:160-192 | Cancelling the job of a deleted video keeps the joint invariant |
| Coherence.RecoverJobsKeeps | backend/repository/video_processing_job_repository.go:194-277 | A recovery batch of any length keeps the joint invariant |
| Coherence.RecoverCleanupRowsKeeps | backend/repository/storage_cleanup_job_repository.go:173-228 | A recovery batch of cleanup jobs keeps the joint invariant |
| Coherence.HideVideosKeeps | backend/repository/admin_user_repository.go:206-269 | Hiding the videos of a suspended user keeps the joint invariant |
| Causes.ChangesHaveCauses | backend/repository/video_repository.go:222-912 | In every step of every run: a change of a video's stage, publication or deletion has the one transaction that may cause it, on that video or its job |
| Causes.OnlyOwnersDecide | backend/entity/video.go:232-311 | In every step of every run: a living video is deleted, a published one made private, a private ready one published, and an upload completed, by the call of its owner and nothing else |
| Causes.PerformCauses | backend/repository/video_repository.go:222-912 | Every transaction: what it changes about a video is what it may change |
| Outcomes.StrangersAreRefused | backend/entity/video.go:232-311 | For all tables, users and videos: deletion, making private and publishing again commit for the owner of a living video only; anybody else is refused with VideoForbidden, and the completion of an upload with VideoNotFound |
| Outcomes.DeletionOutcome | backend/repository/video_repository.go:670-724 | A committed deletion leaves the video deleted and private, cancels exactly its waiting jobs and adds a queued request for each of its objects; nothing else changes |
| Outcomes.SetPrivateOutcome | backend/repository/video_repository.go:607-636 | For the owner: exactly a ready published video becomes private |
| Outcomes.RepublishOutcome | backend/repository/video_repository.go:638-668 | For the owner: exactly a ready private video of an active user is published again |
| Outcomes.CompleteUploadOutcome | backend/repository/video_repository.go:222-273 | For the owner: before the deadline the video is uploaded and gets one queued job; from the deadline on, or once expired, it is refused; afterwards a notice changes nothing |
| Outcomes.CreationOutcome | backend/repository/video_repository.go:176-190 | A new video waits for its upload, unseen, with the key, owner and deadline of the request, if and only if these are valid and the key is new |
| Outcomes.SelectionsAreExact | backend/repository/video_processing_job_repository.go:60-75 | In coherent tables exactly the waiting jobs whose time has come can be claimed, the running attempts as old as the timeout recovered, and the living uploads past their deadline expired |
| Outcomes.ClaimOutcome | backend/repository/video_processing_job_repository.go:76-126 | A claim begins the next attempt of a living video, which is then being processed, and cancels the job of a deleted one; nothing else changes |
| Outcomes.SourceOutcome | backend/repository/video_repository.go:765-792 | While an attempt runs, valid metadata is recorded once and invalid metadata refused |
| Outcomes.CompletionOutcome | backend/repository/video_repository.go:794-851 | While an attempt runs, a completion is accepted if and only if the source is recorded and the output valid: the video is ready, published exactly if its owner is active, and the job has succeeded |
| Outcomes.LateCompletionOutcome | backend/repository/video_repository.go:807-823 | A completion after the deletion calls the job off unless that is over, and has both objects removed |
| Outcomes.FailureOutcome | backend/repository/video_repository.go:852-912 | While an attempt runs, a failure fails job and video and has the generated object removed |
| Outcomes.LateFailureOutcome | backend/repository/video_repository.go:864-912 | A failure after the deletion calls the job off and has the object removed; it is refused exactly if the job is over |
| Outcomes.RetryOutcome | backend/repository/video_processing_job_repository.go:128-158 | While an attempt runs, a retry is accepted exactly before the fourth |
| Outcomes.CancellationOutcome | backend/repository/video_processing_job_repository.go:160-192 | A cancellation ends the job, and changes nothing if that is over |
| Outcomes.RecoveryOutcome | backend/repository/video_processing_job_repository.go:194-277 | A committed recovery batch ends each selected attempt in its own way: cancelled exactly for a deleted video, repeated after the delay of the attempt exactly before the fourth, failed with its video exactly at the fourth |
| Outcomes.CleanupRecoveryOutcome | backend/repository/storage_cleanup_job_repository.go:173-228 | The same for cleanup jobs, repeated before the fourth attempt and failed at the fourth |
| Outcomes.ExpiryOutcome | backend/repository/video_repository.go:735-763 | A committed sweep expires exactly the selected uploads, all past their deadline, and has each of their originals removed |
| Moderation.HideOutcome | backend/repository/admin_video_repository.go:186-261 | Exactly a living published video can be hidden, with an entry in the log that says by whom and why |
| Moderation.RestoreOutcome | backend/repository/admin_video_repository.go:263-347 | Exactly a living hidden video of an active user can be restored, with its entry |
| Moderation.SuspensionOutcome | backend/repository/admin_user_repository.go:134-269 | Exactly an active user who is no administrator can be suspended: the version is raised, every refresh token of the user and no other is revoked, every published video of the user and no other is hidden, and the log gets one entry for the user and one for each video, in their order |
| Moderation.ResumptionOutcome | backend/repository/admin_user_repository.go:271-331 | Exactly a suspended user can be resumed; neither videos nor tokens come back |
| Repositories.VideoRepository.CompleteUpload | backend/repository/video_repository.go:222-273 | Commits the transaction its specification function describes, with the same errors, and leaves the tables alone on every error; it commits for the owner of a living video only, and repeated notifications change nothing |
| Repositories.VideoRepository.SetPrivateByOwner | backend/repository/video_repository.go:607-636 | Commits the transaction its specification function describes, with the same errors, and leaves the tables alone on every error; it commits for the owner of a living video only, and anybody else is told VideoForbidden |
| Repositories.VideoRepository.RepublishByOwner | backend/repository/video_repository.go:638-668 | Commits the transaction its specification function describes, with the same errors, and leaves the tables alone on every error; it commits for the owner of a living video only |
| Repositories.VideoRepository.DeleteByOwner | backend/repository/video_repository.go:670-707 | Commits the transaction its specification function describes, with the same errors, and leaves the tables alone on every error; a duplicate unfinished key aborts everything. It commits for the owner of a living video only, anybody else is told VideoForbidden, and on coherent tables it leaves the video deleted and private, its waiting jobs cancelled and a new queued request for each of its objects |
| Repositories.VideoRepository.ExpireUploads | backend/repository/video_repository.go:735-763 | The loop over the batch commits the fold of single expiries, or nothing; on coherent tables exactly its videos are expired, each with a new queued request for its original |
| Repositories.VideoRepository.RecordSourceValidation | backend/repository/video_repository.go:765-792 | Commits the transaction its specification function describes, with the same errors, and leaves the tables alone on every error |
| Repositories.VideoRepository.CompleteProcessing | backend/repository/video_repository.go:794-851 | Commits the transaction its specification function describes, with the same errors, and leaves the tables alone on every error; for a deleted video it registers both objects |
| Repositories.VideoRepository.CompleteDeleted | backend/repository/video_repository.go:807-823 | The part of CompleteProcessing for a deleted video: it cancels the job unless that is over, and registers both objects or nothing |
| Repositories.VideoRepository.FailProcessing | backend/repository/video_repository.go:852-912 | Commits the transaction its specification function describes, with the same errors, and leaves the tables alone on every error |
| Repositories.VideoRepository.IsObjectReferenced | backend/repository/video_repository.go:922-937 | For a key that is not blank: true if and only if some row of videos, deleted or not, has it as its original or some output meta has it as its video or thumbnail |
| Repositories.VideoProcessingJobRepository.ClaimNext | backend/repository/video_processing_job_repository.go:51-126 | Commits the transaction its specification function describes, with the same errors, and leaves the tables alone on every error; a claim is returned exactly if the job now runs, with the rows as saved |
| Repositories.VideoProcessingJobRepository.ScheduleRetry | backend/repository/video_processing_job_repository.go:128-158 | Commits the transaction its specification function describes, with the same errors, and leaves the tables alone on every error |
| Repositories.VideoProcessingJobRepository.Cancel | backend/repository/video_processing_job_repository.go:160-192 | Commits the transaction its specification function describes, with the same errors, and leaves the tables alone on every error |
| Repositories.VideoProcessingJobRepository.RecoverTimedOut | backend/repository/video_processing_job_repository.go:194-277 | The loop commits the fold of single recoveries, or nothing, and counts its rows; on coherent tables each selected attempt ends with the job cancelled if and only if the video is deleted, with another attempt after the delay of this one if and only if it is before the fourth, and else with job and video failed, and nothing else changes |
| Repositories.StorageCleanupJobRepository.Create | backend/repository/storage_cleanup_job_repository.go:45-58 | Absorbs a duplicate unfinished key |
| Repositories.StorageCleanupJobRepository.ClaimNext | backend/repository/storage_cleanup_job_repository.go:60-93 | Commits the transaction its specification function describes, with the same errors, and leaves the tables alone on every error |
| Repositories.StorageCleanupJobRepository.ScheduleRetry | backend/repository/storage_cleanup_job_repository.go:95-119 | Commits the transaction its specification function describes, with the same errors, and leaves the tables alone on every error |
| Repositories.StorageCleanupJobRepository.MarkSucceeded | backend/repository/storage_cleanup_job_repository.go:121-145 | Commits the transaction its specification function describes, with the same errors, and leaves the tables alone on every error |
| Repositories.StorageCleanupJobRepository.MarkFailed | backend/repository/storage_cleanup_job_repository.go:147-171 | Commits the transaction its specification function describes, with the same errors, and leaves the tables alone on every error |
| Repositories.StorageCleanupJobRepository.RecoverTimedOut | backend/repository/storage_cleanup_job_repository.go:173-228 | The same loop for cleanup jobs; on coherent tables each selected attempt is repeated after its delay before the fourth and fails the job at the fourth, and nothing else changes |
| Repositories.AdminRepository.SuspendUser | backend/repository/admin_user_repository.go:134-204 | User, refresh tokens, videos and audit entries change together or not at all |
| Repositories.AdminRepository.HidePublishedVideosForSuspension | backend/repository/admin_user_repository.go:206-269 | The loop hides its rows one by one, each with its audit entry |
| Repositories.AdminRepository.ResumeUser | backend/repository/admin_user_repository.go:271-331 | Commits the transaction its specification function describes, with the same errors, and leaves the tables alone on every error |
| Repositories.AdminRepository.Hide | backend/repository/admin_video_repository.go:186-261 | Commits the transaction its specification function describes, with the same errors, and leaves the tables alone on every error |
| Repositories.AdminRepository.Restore | backend/repository/admin_video_repository.go:263-347 | Commits the transaction its specification function describes, with the same errors, and leaves the tables alone on every error |
| VideoEntity.VideoRecord.CompleteUpload | backend/entity/video.go:129-146 | In place, equal to its specification; an error leaves the row alone |
| VideoEntity.VideoRecord.ExpireUpload | backend/entity/video.go:148-162 | In place, equal to its specification; an error leaves the row alone |
| VideoEntity.VideoRecord.StartProcessing | backend/entity/video.go:164-174 | In place, equal to its specification; an error leaves the row alone |
| VideoEntity.VideoRecord.RecordSourceValidation | backend/entity/video.go:176-192 | In place, equal to its specification; an error leaves the row alone |
| VideoEntity.VideoRecord.CompleteProcessing | backend/entity/video.go:194-216 | In place, equal to its specification; an error leaves the row alone |
| VideoEntity.VideoRecord.FailProcessing | backend/entity/video.go:218-229 | In place, equal to its specification; an error leaves the row alone |
| VideoEntity.VideoRecord.SetPrivateByOwner | backend/entity/video.go:231-244 | In place, equal to its specification; an error leaves the row alone |
| VideoEntity.VideoRecord.RepublishByOwner | backend/entity/video.go:246-262 | In place, equal to its specification; an error leaves the row alone |
| VideoEntity.VideoRecord.HideByAdmin | backend/entity/video.go:264-274 | In place, equal to its specification; an error leaves the row alone |
| VideoEntity.VideoRecord.RestoreByAdmin | backend/entity/video.go:276-289 | In place, equal to its specification; an error leaves the row alone |
| VideoEntity.VideoRecord.DeleteByOwner | backend/entity/video.go:291-306 | In place, equal to its specification; an error leaves the row alone |
| VideoJobEntity.TransitionsAdvance | backend/entity/video_processing_job.go:101-186 | Every accepted transition keeps the CHECK constraints and strictly raises a measure bounded by 8 |
| VideoJobEntity.TransitionGuards | backend/entity/video_processing_job.go:101-186 | For sound rows each transition is accepted exactly in the stated statuses |
| VideoJobEntity.JobRecord.Claim | backend/entity/video_processing_job.go:101-115 | In place, equal to its specification; an error leaves the row alone |
| VideoJobEntity.JobRecord.ScheduleRetry | backend/entity/video_processing_job.go:117-136 | In place, equal to its specification; an error leaves the row alone |
| VideoJobEntity.JobRecord.MarkSucceeded | backend/entity/video_processing_job.go:138-152 | In place, equal to its specification; an error leaves the row alone |
| VideoJobEntity.JobRecord.MarkFailed | backend/entity/video_processing_job.go:154-172 | In place, equal to its specification; an error leaves the row alone |
| VideoJobEntity.JobRecord.Cancel | backend/entity/video_processing_job.go:174-186 | In place, equal to its specification; an error leaves the row alone |
| CleanupEntity.TransitionsAdvance | backend/entity/storage_cleanup_job.go:99-170 | The same measure for cleanup jobs |
| CleanupEntity.TransitionGuards | backend/entity/storage_cleanup_job.go:99-170 | The same for cleanup jobs |
| CleanupEntity.CleanupRecord.Claim | backend/entity/storage_cleanup_job.go:99-113 | In place, equal to its specification; an error leaves the row alone |
| CleanupEntity.CleanupRecord.ScheduleRetry | backend/entity/storage_cleanup_job.go:115-134 | In place, equal to its specification; an error leaves the row alone |
| CleanupEntity.CleanupRecord.MarkSucceeded | backend/entity/storage_cleanup_job.go:136-150 | In place, equal to its specification; an error leaves the row alone |
| CleanupEntity.CleanupRecord.MarkFailed | backend/entity/storage_cleanup_job.go:152-170 | In place, equal to its specification; an error leaves the row alone |
| UserEntity.UserRecord.Suspend | backend/entity/user.go:43-57 | In place, equal to its specification; an error leaves the row alone |
| UserEntity.UserRecord.Resume | backend/entity/user.go:59-70 | In place, equal to its specification; an error leaves the row alone |
| UserEntity.UserRecord.InvalidateAccessTokens | backend/entity/user.go:38-41 | In place, equal to its specification; an error leaves the row alone |
| UserEntity.TokenRecord.MarkUsed | backend/entity/refresh_token.go:27-31 | In place, equal to its specification; an error leaves the row alone |
| Publication.Appended | backend/entity/admin_audit_log.go:39-80 | What an appended entry does to the replayed statuses, and when it chains |
| VideoProcessing.VideoProcessingUsecase.ProcessNext | backend/usecase/video_processing_usecase.go:79-253 | On coherent tables and undisturbed, every way a call can end: with no failing stage and valid metadata the video is ready with exactly the two new objects as its output and published if and only if its owner is active, the job has succeeded and no cleanup row is added; a failing stage gives another attempt after its delay for each error that may pass before the fourth attempt and fails job and video otherwise; an aborted or refused completion has both objects removed; a deleted video cancels the job. With any forward-moving interference: every stored object is committed or has a cleanup row unless the job was taken away, FailProcessing is refused only if its guard fails, and without an error no attempt is left running |
| VideoProcessing.VideoProcessingUsecase.RecordFailure | backend/usecase/video_processing_usecase.go:433-463 | Before a retry the generated object is always registered, also when the retry is rejected, and the retry waits the delay of its attempt; otherwise FailProcessing registers it, and is refused exactly if its guard does not hold. Without an error the attempt is over; undisturbed there is none, and job, video and cleanup rows are as for a retry before the fourth attempt or a failure |
| VideoProcessing.VideoProcessingUsecase.CreateRollbackCleanup | backend/usecase/video_processing_usecase.go:465-487 | Every non-blank key it is given has a cleanup row afterwards, a new queued one if none has ever been about it; no row is lost and no other table changes; it fails exactly if there is a key but no time or no video, and then writes nothing |
| VideoProcessing.CompleteSettles | backend/repository/video_repository.go:794-851 | A successful completion leaves both objects committed or registered, on any tables |
| VideoProcessing.FailSettles | backend/repository/video_repository.go:852-912 | A recorded failure leaves every generated object with a cleanup row |
| StorageCleanup.StorageCleanupUsecase.ProcessNext | backend/usecase/storage_cleanup_usecase.go:71-94 | One cleanup job with any forward-moving interference: its object and no other is deleted, and its status is the one that this failure calls for at this attempt, or the row as it is left takes no such outcome. Undisturbed, failure by failure, the whole row: success also for an object that is gone, another attempt after its delay for a timeout, a cancellation or an outage before the fourth, failure for anything else |
| StorageCleanup.StorageCleanupUsecase.RecordDeleteFailure | backend/usecase/storage_cleanup_usecase.go:162-179 | Equal to its transition on the row as it is found: a temporary failure is retried before the fourth attempt, anything else fails the job; no conflict arises while the claim is current |
| StorageCleanup.StorageCleanupUsecase.DetectOrphanObjects | backend/usecase/storage_cleanup_usecase.go:109-160 | Whatever the store answers and whatever others do between its reads and writes: every old object of the pages read has a cleanup row or is referenced in the end, and everything it asks for is old and was in use by no video and mentioned by no row when it began. Undisturbed, no object in use gets a new row and exactly the orphans do. It reads page after page as the cursors lead on, ends without an error exactly at a last page, and names a missing or stuck cursor |
| StorageCleanup.AskedAreUnused | backend/usecase/storage_cleanup_usecase.go:119-131 | Whatever a scan asks for was listed as old, and no row of the tables it began with mentions it |
| StorageCleanup.SweptExactly | backend/usecase/storage_cleanup_usecase.go:119-141 | An undisturbed scan gives new rows only to old listed objects that nothing mentions, and leaves each of those with an unfinished job |
| StorageCleanup.SweptRegister | backend/usecase/storage_cleanup_usecase.go:131-141 | Registering one more orphan extends the sweep, also if a job for it exists already |
| RefreshTokens.RefreshTokenRepository.Create | backend/repository/refresh_token_repository.go:33-42 | Adds the row, or fails if and only if some row has its hash |
| RefreshTokens.RefreshTokenRepository.FindByTokenHash | backend/repository/refresh_token_repository.go:45-58 | Succeeds if and only if some row has the hash, and finds such a row |
| RefreshTokens.RefreshTokenRepository.Rotate | backend/repository/refresh_token_repository.go:61-128 | Equal to its specification, and case by case what becomes of the rows: an unknown, expired, revoked or used token has its own error, only the reuse of a used one changes anything together with an error, and a success replaces the token by a new one of its user and family |
| RefreshTokens.RefreshTokenRepository.RevokeFamily | backend/repository/refresh_token_repository.go:131-139 | Revokes all tokens of the family, keeps earlier revocation times, and changes no other token |
| RefreshTokens.RefreshTokenRepository.RevokeFamilyAndIncrementTokenVersion | backend/repository/refresh_token_repository.go:142-154 | Revokes the family of the user and raises the token version, together |
| RefreshTokens.RefreshTokenRepository.RevokeAndIncrement | backend/repository/refresh_token_repository.go:176-195 | The same inside a transaction |
| Sessions.FamiliesAreChains | backend/repository/refresh_token_repository.go:61-128 | In every state a family is one acyclic chain of replacements whose last token alone is unused, of one user, revoked as a whole or not at all |
| Sessions.RotationSucceedsIff | backend/repository/refresh_token_repository.go:84-108 | A rotation succeeds exactly for a token that is neither used nor revoked nor expired, and links it to its successor in the same family |
| Sessions.AtMostOneRotation | backend/usecase/user_usecase.go:118-171 | Of any number of overlapping refreshes with one token at most one rotates it |
| Sessions.HashNamesRow | backend/entity/refresh_token.go:5-17 | A hash names one row for ever |
| Sessions.ReuseEndsFamily | backend/repository/refresh_token_repository.go:142-195 | After a committed reuse every token of the family is revoked in all later states and none is rotated |
| Sessions.LogoutEndsFamily | backend/usecase/user_usecase.go:174-187 | The same after a logout, with its UPDATE as one atomic step; TokenLocks splits it |
| Sessions.UsedTokenIsCaught | backend/usecase/user_usecase.go:143-153 | Presenting a used token that still counts starts a call whose only other step ends its family and raises the token version |
| Sessions.LogoutIsHeeded | backend/usecase/user_usecase.go:174-187 | A logout with any known token, used or expired or not, leaves no token of its family unrevoked at its own step and changes no other |
| Sessions.UsableTokenIsExchanged | backend/usecase/user_usecase.go:118-171 | A refresh that nobody disturbs exchanges a usable token of an active user for another of the same family, usable and with a valid access token |
| Sessions.LoginYieldsTokens | backend/usecase/user_usecase.go:83-115 | A login of an active user yields an access token that is accepted at once and a refresh token usable for seven days |
| Sessions.MintedVersions | backend/usecase/user_usecase.go:229-263 | A minted access token never carries a version above the current one, and versions never fall |
| Sessions.RevokedAccessStaysRevoked | backend/usecase/user_usecase.go:190-213 | An access token minted from a row read before a suspension or a detected reuse is refused in every later state, also after a resumption |
| Sessions.SuspensionEndsFamilies | backend/repository/admin_user_repository.go:169-171 | After a suspension every token of every family the user had then is revoked in all later states and none is rotated |
| Sessions.SuspensionEndsFamilyIff | backend/repository/admin_user_repository.go:134-204 | For every run with a suspension and a committed login of the user: the family the login stored is ended by the suspension, then for good, if and only if the login committed before it; otherwise its token begins unrevoked |
| Sessions.UnrevokedAfterSuspension | backend/usecase/user_usecase.go:83-115 | Every unrevoked token of the user in a later state belongs to a family that a login stored after the suspension, and that login read the user before the suspension or after a resumption |
| Sessions.FamilyOrigin | backend/usecase/user_usecase.go:83-171 | Every refresh token of every state belongs to a family that a committed login of its user began |
| Sessions.LoginMayOutliveSuspension | backend/usecase/user_usecase.go:83-115 | Concrete run: a login reads the user, the user is suspended, the login stores its token; after a resumption the token is rotated and its successor is usable |
| Sessions.StepKeeps | backend/usecase/user_usecase.go:83-187 | Every step of every call, and every other transaction, keeps the session invariant |
| Sessions.SuspensionOnSessions | backend/repository/admin_user_repository.go:134-175 | What suspension and resumption do to users and tokens |
| Sessions.PerformSparesSessions | backend/repository/admin_user_repository.go:134-331 | No other transaction touches users or refresh tokens |
| TokenLocks.LogoutRevokesSnapshot | backend/repository/refresh_token_repository.go:131-139 | Of the tokens the family has when the UPDATE of a logout commits, it revokes exactly those that were committed when it took its snapshot |
| TokenLocks.LogoutEndsIff | backend/repository/refresh_token_repository.go:131-139 | A logout ends the family if and only if every token committed after the snapshot of its UPDATE has been revoked by somebody else; then the family is ended for good |
| TokenLocks.LogoutEndsUnlessRotated | backend/repository/refresh_token_repository.go:131-139 | It ends the family for good if no rotation of the family commits while the UPDATE runs |
| TokenLocks.LogoutAloneEndsIff | backend/repository/refresh_token_repository.go:61-139 | If no other revocation commits meanwhile, it ends the family if and only if no rotation of the family commits meanwhile |
| TokenLocks.DecidedByLastLock | backend/repository/refresh_token_repository.go:69-70 | From the moment the UPDATE holds the unused token of the family, no rotation of the family can commit |
| TokenLocks.LogoutMissesSuccessor | backend/repository/refresh_token_repository.go:131-139 | Concrete run: the logout waits for a rotation, never sees its successor, and the successor is rotated afterwards |
| TokenLocks.UserLockedRevokesAll | backend/repository/refresh_token_repository.go:176-195 | A revocation that holds the row of its user, after a reuse or in a suspension, leaves no token in its scope unrevoked, however it interleaves |
| TokenLocks.UserLockedEndsFamilies | backend/repository/admin_user_repository.go:143-175 | So each family in its scope is ended for good |
| TokenLocks.OneUnusedToken | backend/repository/refresh_token_repository.go:61-128 | Also at lock level a family belongs to one user and has at most one unused token in every state |
| TokenLocks.StepKeeps | backend/repository/refresh_token_repository.go:61-195 | Every step of every transaction keeps that, the compatibility of the locks, and what each transaction has read |
| Locks.NoSuspendedPublisher | backend/repository/admin_user_repository.go:134-269 | No interleaving of suspensions, resumptions, republications, completions, hides, deletions ends with a suspended owner of a public video |
| Locks.RestoreKeepsIff | backend/repository/admin_video_repository.go:284-289 | A committing Restore keeps the invariant exactly if the owner is active and no suspension of theirs has selected its rows without the video |
| Locks.RestoreIsSafeIff | backend/repository/admin_video_repository.go:263-347 | A publishing Restore is in time if and only if no run that goes on after its commit ever shows a public video of a suspended owner; if it is late, the open suspension that passed the video by ends a run unsafe |
| Locks.NoSuspendedPublisherWithRestores | backend/repository/admin_video_repository.go:263-347 | With restores, every run in which each publishing Restore commits in that time is safe |
| Locks.LateRestorePublishes | backend/repository/admin_video_repository.go:284-289 | A concrete run in which a Restore that read an active owner commits after the suspension of that owner |
| Locks.SelectKeeps | backend/repository/admin_user_repository.go:214-224 | Selecting and locking the published videos overlooks none, although each is evaluated again when its lock is granted |
| Locks.SaveKeeps | backend/repository/video_repository.go:638-668 | Saving a locked video keeps the invariant if it becomes public only while its owner's row is held and the owner was read active |
| TokenBucket.RateLimitRepository.Allow | backend/repository/ratelimit_repository.go:20-102 | Equal to one run of the script on the stored bucket, which expires by the server's clock; other keys are untouched and invalid arguments change nothing. The bucket holds what was left plus the refill since, up to the capacity; the cost is taken exactly if it is there, and else the delay is the least number of milliseconds after which it will be |
| TokenBucket.TokensInRange | backend/repository/ratelimit_repository.go:34-73 | In every run of calls with any clocks, expiry included, tokens stay between zero and the capacity |
| TokenBucket.AdmissionBound | backend/repository/ratelimit_repository.go:38-73 | If every caller's clock is within d of Redis' clock and the limit covers that skew, then in any window of any run, expiry included, the cost of the admitted calls is at most the capacity plus the refill over the window, on the script's clock and on Redis' clock plus 2d |
| TokenBucket.AdmissionBoundIff | backend/repository/ratelimit_repository.go:73 | For a bucket that holds a whole number of requests, the bound holds in every window of every run with skew at most d if and only if the rate times (TTL - 2d) covers the capacity |
| TokenBucket.SixSignups | backend/usecase/ratelimit_usecase.go:40-74 | Concrete run: three signups, expiry of the key, and three more signups at the same time on the callers' clock are all admitted, twice what the bound allows |
| TokenBucket.BoundFails | backend/repository/ratelimit_repository.go:73 | Past the covered skew two bursts around an expiry exceed the bound |
| TokenBucket.EightLimitsBound | backend/usecase/ratelimit_usecase.go:40-74 | For each of the eight limits the bound holds in all runs with skew at most d if and only if d is at most its largest covered skew |
| TokenBucket.EightSkews | backend/usecase/ratelimit_usecase.go:40-74 | These are 15 s for signup, 17.5 s for refresh, 22.5 s to 90 s for the others |
| TokenBucket.ExpiryInvisibleIff | backend/repository/ratelimit_repository.go:73 | Dropping a bucket idle for TTL - 2d goes unnoticed if and only if the rate times (TTL - 2d) covers the capacity |
| TokenBucket.ExpiryInvisible | backend/repository/ratelimit_repository.go:36-75 | With clocks skewed by no more than the limit covers, expiry changes no bucket and no answer of any run |
| TokenBucket.EightLimitsExpireInvisibly | backend/usecase/ratelimit_usecase.go:40-74 | So it is for each of the eight limits with clocks at most 15 s from Redis' |
| TokenBucket.RetryAfterIsExact | backend/repository/ratelimit_repository.go:61-73 | After any calls, a lone call after a denial is admitted if and only if it comes at least retry_after_ms later on the script's clock or the key has expired; with covered skew the delay alone decides |
| TokenBucket.RetryAfterHeaderIsExact | backend/middleware/ratelimit_middleware.go:160-165 | With covered skew, Retry-After is the least number of whole seconds after which a lone call is admitted |
| TokenBucket.DenialsDoNotMatter | backend/repository/ratelimit_repository.go:53-73 | With covered skew and callers' clocks that do not go back, denied calls, although they renew the expiry, change no later answer and no later entry |
| LikeEscape.TitlePatternIsExact | backend/repository/video_repository.go:485-492 | The escaped pattern matches a title under LIKE with an escape character if and only if the query is a contiguous part of it |
| LikeEscape.EscapedMatchesPrefix | backend/repository/video_repository.go:486-490 | Escaping takes the meaning out of every character |
| Pagination.ListPublic | backend/repository/video_repository.go:298-381 | A page is the topmost remaining rows, and says exactly whether more remain; it succeeds if and only if viewer, limit, filter, mode and cursor are usable |
| Pagination.ListReels | backend/usecase/video_usecase.go:362-430 | It succeeds if and only if the viewer is absent or active with an id, the limit is 1 to 100, the filter is valid, and the cursor, if any, was made for this filter, in a mode that fits it, with a time, an id and a similarity of its mode; each failing condition has its own error. The items are the first of the rows of the table that satisfy the filter after the cursor, in the order of (similarity, created_at, id), with a cursor exactly if more remain; the similar mode answers exactly if no title contains the query |
| Pagination.ModeStays | backend/usecase/video_usecase.go:667-695 | A walk stays in the mode of its first page |
| Pagination.WalkShowsOnce | backend/repository/video_repository.go:333-365 | However the tables change between pages, nothing is shown twice and what matches throughout is shown exactly once |
| Pagination.WalkDescends | backend/repository/video_repository.go:352-357 | Everything a walk shows is in strictly descending order of (similarity, created_at, id) |
| Pagination.FixedWalkIsSorted | backend/repository/video_repository.go:298-381 | Over fixed tables a finished walk shows exactly the matching rows, best first, each once |
| Pagination.NextCursorAccepted | backend/repository/video_repository.go:383-430 | Every cursor handed out satisfies those conditions for its filter, is accepted by both layers and leads on in the same mode |
| Idempotency.CreationLinearizes | backend/repository/video_repository.go:153-208 | In every interleaving the tables and all answers so far are those of serving the calls one after another |
| Idempotency.SameKeySameVideo | backend/repository/video_repository.go:210-220 | Until the record is swept, every later call with a key that got a video gets that video for the same request and a conflict for another, and changes nothing |
| Idempotency.OnlyCreationInserts | backend/repository/video_repository.go:180-190 | Only a creation adds a video, exactly one; conflicts, repetitions and lost calls leave no row |
| Idempotency.StepKeeps | backend/repository/video_repository.go:153-208 | Every step of every call, and every sweep, keeps the serial order |
| Idempotency.IdempotentVideos.CreateWithIdempotency | backend/repository/video_repository.go:153-208 | A call nobody interferes with is one serial creation: it creates exactly the requested video and its record if and only if this user has no record of the key, and answers from that record otherwise |
| Idempotency.AnswersAreTheCallers | backend/repository/video_repository.go:153-220 | In every interleaving each call is answered from its own user's keys: it creates only for an unused key, and is given only a video that its user created with the same request |
| Idempotency.RecordsLast | backend/repository/video_repository.go:938-954 | No step removes a record before it expires, and none ever changes one |
| Idempotency.SweptOk | backend/repository/video_repository.go:938-954 | A sweep keeps every remaining key naming the video its user created with that request |

## Left out

- HTTP, cookies, CSRF, JWT, bcrypt, HMAC, SHA-256, JSON and base64: hashes are injective, tokens are records, a cursor is the record it encodes.
- PostgreSQL beyond atomic transactions, row locks in `Locks` and `TokenLocks`, unique indexes and CHECK constraints: an aborted transaction changes nothing, and whoever issued it learns whether it committed (Theorems.LostAnswerTargetsOutput says what depends on it).
- Row selection: which matching unlocked rows a query returns is a parameter, constrained by its WHERE clause; the batch limit only has to be positive.
- The object store, FFmpeg and FFprobe: each call succeeds or fails; a failed upload stores nothing, a delete is immediate.
- One clock: in `Protocol` a transaction uses the time of its commit. In `Sessions` callers may use stale times, in `TokenBucket` every call has the caller's time and the time of Redis.
- Integer width: identifiers and token versions are unbounded; all rows draw their keys from one counter.
- Metadata validation: the outcome of the Validate methods is a flag; titles, descriptions, categories and failure messages are left out where nothing depends on them.
- Direct writes to the store with a presigned URL after a deletion: `PutOriginal` allows them before the URL expires, and what they leave is not cleaned up a second time by a finished cleanup job; a scan keeps such an object because soft-deleted videos still count as references.
- Signup, likes, saves, profile listings, seeds, migrations, logging, health checks and the frontend: easy members or wiring.
- RevokeByUserID and DeleteExpired of the refresh token repository, and Update of the user repository: not called by the modelled flows.
- Locks.LateRestorePublishes: the run model in `Protocol` takes Restore as one atomic step; only `Locks` splits it.
- Sessions.LogoutEndsFamily: a rotation that overlaps the UPDATE of the logout is outside it; `TokenLocks` has that case and its exact condition.
- Sessions.FamiliesAreChains: that a family is revoked wholly or not at all holds with atomic transactions only, for the same reason.
- TokenLocks.LogoutEndsIff: the expiry of tokens and the change of the user's row are left out there; deadlocks roll one side back.
- Locks.NoSuspendedPublisher: locks of job rows and foreign-key locks are not modelled, as no property depends on them.
- StorageCleanup.StorageCleanupUsecase.RecordDeleteFailure: it is called for errors other than a missing object only, as in the code.
- StorageCleanup.StorageCleanupUsecase.ProcessNext: the times of its calls are one time, and the store changes only by its own delete.
- VideoProcessing.VideoProcessingUsecase.ProcessNext: the times of its calls are one time, the stages before the first upload share one point of interference, and the two key generations share one outcome; `Protocol` has the finer steps.
- StorageCleanup.StorageCleanupUsecase.DetectOrphanObjects: the two reads of IsObjectReferenced are one; the scans of `Protocol` split them.
- TokenBucket.AdmissionBoundIff: for a capacity that is no whole number of requests only the direction of AdmissionBound is stated.
- TokenBucket.AdmissionBound: Lua numbers and their decimal form are taken as reals.
- Pagination.ListReels: signing the read URLs of the items is left out; similarity is a fixed score for each query and title.
- LikeEscape.TitlePatternIsExact: titles and queries are taken as already lower-cased.
- Idempotency.CreationLinearizes: other failures of the inserts are left out; object keys are fresh and the user exists.
- Idempotency.SameKeySameVideo: only while the record is remembered; a swept key may create a new video, as in the code.
