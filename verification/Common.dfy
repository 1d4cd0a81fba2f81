/** Identifiers, times and results shared by every part of the model. */
module Common {

  // Primary keys. Zero is the unset identifier of the Go structs.
  type Id = nat

  // Object keys are opaque; zero stands for the empty string.
  type Key = nat

  // Milliseconds. Zero stands for Go's zero time (`IsZero`).
  type Time = nat

  datatype Option<+T> = None | Some(value: T)

  datatype Error =
    | InvalidInput
    | Unauthorized
    | VideoNotFound
    | VideoForbidden
    | VideoStateConflict
    | VideoSourceInvalid
    | VideoOutputInvalid
    | UploadExpired
    | UserNotFound
    | UserSuspended
    | UserStatusConflict
    | UserManagementForbidden
    | ProcessingJobNotFound
    | ProcessingJobConflict
    | CleanupJobNotFound
    | CleanupJobConflict
    | SourceMetaMissing
    | UniqueViolation
    | RefreshTokenInvalid
    | RefreshTokenExpired
    | RefreshTokenRevoked
    | RefreshTokenReused
    | CursorInvalid
    | TransactionAborted

  datatype Result<+T> = Success(value: T) | Failure(error: Error) {
    predicate IsFailure() {
      Failure?
    }

    function PropagateFailure<U>(): Result<U>
      requires Failure?
    {
      Failure(error)
    }

    function Extract(): T
      requires Success?
    {
      value
    }
  }
}
