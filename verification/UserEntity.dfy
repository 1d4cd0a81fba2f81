/** Users, refresh tokens and audit entries (backend/entity/user.go, refresh_token.go, admin_audit_log.go). */
module UserEntity {
  import opened Common
  import opened VideoEntity

  datatype UserRole = RoleUser | RoleAdmin

  datatype UserStatus = Active | Suspended

  datatype User = User(role: UserRole, status: UserStatus, tokenVersion: nat, updatedAt: Time) {
    predicate IsActive() {
      status == Active
    }

    function Suspend(now: Time): Result<User> {
      if role != RoleUser then Failure(UserManagementForbidden)
      else if status != Active then Failure(UserStatusConflict)
      else Success(this.(status := Suspended, tokenVersion := tokenVersion + 1, updatedAt := now))
    }

    function Resume(now: Time): Result<User> {
      if role != RoleUser then Failure(UserManagementForbidden)
      else if status != Suspended then Failure(UserStatusConflict)
      else Success(this.(status := Active, updatedAt := now))
    }

    function InvalidateAccessTokens(now: Time): User {
      this.(tokenVersion := tokenVersion + 1, updatedAt := now)
    }
  }

  /** A row of `refresh_tokens`. The hash stands for the plain token, families for random family IDs. */
  datatype RefreshToken = RefreshToken(
    userId: Id,
    hash: nat,
    family: nat,
    replacedBy: Option<Id>,
    expiresAt: Time,
    usedAt: Option<Time>,
    revokedAt: Option<Time>,
    createdAt: Time)
  {
    predicate IsExpired(now: Time) {
      now >= expiresAt
    }

    predicate IsUsable(now: Time) {
      usedAt.None? && revokedAt.None? && !IsExpired(now)
    }

    function MarkUsed(next: Id, now: Time): RefreshToken {
      this.(usedAt := Some(now), replacedBy := Some(next))
    }

    function Revoke(now: Time): RefreshToken {
      if revokedAt.Some? then this else this.(revokedAt := Some(now))
    }
  }

  datatype AuditTarget = OnUser(user: Id) | OnVideo(video: Id)

  datatype AuditAction = UserSuspend | UserResume | VideoHideByUserSuspension | VideoHide | VideoRestore

  datatype AuditStatus = OfUser(user: UserStatus) | OfVideo(video: PublishStatus)

  datatype AuditEntry = AuditEntry(
    adminId: Id,
    target: AuditTarget,
    action: AuditAction,
    before: AuditStatus,
    after: AuditStatus,
    reason: string,
    requestId: string,
    createdAt: Time)

  function TargetId(t: AuditTarget): Id {
    match t
    case OnUser(u) => u
    case OnVideo(v) => v
  }

  predicate IsValidAuditTransition(target: AuditTarget, action: AuditAction, before: AuditStatus, after: AuditStatus) {
    match action
    case UserSuspend => target.OnUser? && before == OfUser(Active) && after == OfUser(Suspended)
    case UserResume => target.OnUser? && before == OfUser(Suspended) && after == OfUser(Active)
    case VideoHideByUserSuspension => target.OnVideo? && before == OfVideo(Published) && after == OfVideo(Hidden)
    case VideoHide => target.OnVideo? && before == OfVideo(Published) && after == OfVideo(Hidden)
    case VideoRestore => target.OnVideo? && before == OfVideo(Hidden) && after == OfVideo(Published)
  }

  // Reasons and request IDs are taken as already trimmed, valid text.
  function NewAuditEntry(adminId: Id, target: AuditTarget, action: AuditAction, before: AuditStatus, after: AuditStatus,
                         reason: string, requestId: string, now: Time): Result<AuditEntry>
  {
    if adminId == 0 || TargetId(target) == 0 || now == 0 then Failure(InvalidInput)
    else if |reason| < 1 || |reason| > 500 || requestId == "" then Failure(InvalidInput)
    else if !IsValidAuditTransition(target, action, before, after) then Failure(InvalidInput)
    else Success(AuditEntry(adminId, target, action, before, after, reason, requestId, now))
  }

  /** The struct a transaction loads a user into, changes in place and saves. */
  class UserRecord {
    const role: UserRole
    var status: UserStatus
    var tokenVersion: nat
    var updatedAt: Time

    constructor (row: User)
      ensures Row() == row
    {
      role, status, tokenVersion, updatedAt := row.role, row.status, row.tokenVersion, row.updatedAt;
    }

    function Row(): User
      reads this
    {
      User(role, status, tokenVersion, updatedAt)
    }

    method Suspend(now: Time) returns (err: Option<Error>)
      modifies this
      ensures match old(Row()).Suspend(now)
              case Success(u) => Row() == u && err == None
              case Failure(e) => Row() == old(Row()) && err == Some(e)
    {
      if role != RoleUser { return Some(UserManagementForbidden); }
      if status != Active { return Some(UserStatusConflict); }
      status := Suspended;
      tokenVersion := tokenVersion + 1;
      updatedAt := now;
      err := None;
    }

    method Resume(now: Time) returns (err: Option<Error>)
      modifies this
      ensures match old(Row()).Resume(now)
              case Success(u) => Row() == u && err == None
              case Failure(e) => Row() == old(Row()) && err == Some(e)
    {
      if role != RoleUser { return Some(UserManagementForbidden); }
      if status != Suspended { return Some(UserStatusConflict); }
      status := Active;
      updatedAt := now;
      err := None;
    }

    method InvalidateAccessTokens(now: Time)
      modifies this
      ensures Row() == old(Row()).InvalidateAccessTokens(now)
    {
      tokenVersion := tokenVersion + 1;
      updatedAt := now;
    }
  }

  /** The struct a rotation loads a refresh token into. */
  class TokenRecord {
    const userId: Id
    const hash: nat
    const family: nat
    const expiresAt: Time
    const createdAt: Time
    var replacedBy: Option<Id>
    var usedAt: Option<Time>
    var revokedAt: Option<Time>

    constructor (row: RefreshToken)
      ensures Row() == row
    {
      userId, hash, family := row.userId, row.hash, row.family;
      expiresAt, createdAt := row.expiresAt, row.createdAt;
      replacedBy, usedAt, revokedAt := row.replacedBy, row.usedAt, row.revokedAt;
    }

    function Row(): RefreshToken
      reads this
    {
      RefreshToken(userId, hash, family, replacedBy, expiresAt, usedAt, revokedAt, createdAt)
    }

    method MarkUsed(next: Id, now: Time)
      modifies this
      ensures Row() == old(Row()).MarkUsed(next, now)
    {
      usedAt := Some(now);
      replacedBy := Some(next);
    }
  }
}
