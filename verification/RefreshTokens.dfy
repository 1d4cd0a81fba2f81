/**
  The refresh token table: creation, rotation with reuse detection, and revocation
  (backend/repository/refresh_token_repository.go).
 */
module RefreshTokens {
  import opened Common
  import opened UserEntity
  import opened Database
  import opened Repositories

  // The row a lookup by hash finds, if there is one. Zero stands for the empty hash.
  predicate Finds(db: Db, hash: nat, row: Option<Id>) {
    match row
    case Some(t) => t in db.tokens && db.tokens[t].hash == hash
    case None => forall t | t in db.tokens :: db.tokens[t].hash != hash
  }

  predicate HashTaken(tokens: map<Id, RefreshToken>, hash: nat) {
    exists t :: t in tokens && tokens[t].hash == hash
  }

  function CreateToken(db: Db, row: RefreshToken): Result<Db> {
    if HashTaken(db.tokens, row.hash) then Failure(UniqueViolation)
    else Success(db.(tokens := db.tokens[db.nextId := row], nextId := db.nextId + 1))
  }

  function RevokeWhere(tokens: map<Id, RefreshToken>, family: nat, user: Option<Id>, now: Time): map<Id, RefreshToken> {
    map t | t in tokens ::
      if tokens[t].family == family && (user.Some? ==> tokens[t].userId == user.value) then tokens[t].Revoke(now)
      else tokens[t]
  }

  function FamilyRevoked(db: Db, family: nat, now: Time): Db {
    db.(tokens := RevokeWhere(db.tokens, family, None, now))
  }

  function RevokeFamilyAndIncrement(db: Db, userId: Id, family: nat, now: Time): Result<Db> {
    if userId !in db.users then Failure(UserNotFound)
    else Success(db.(users := db.users[userId := db.users[userId].InvalidateAccessTokens(now)],
                     tokens := RevokeWhere(db.tokens, family, Some(userId), now)))
  }

  /** The tables after a rotation, and its error. A detected reuse commits its revocation and is an error all the same. */
  function Rotated(db: Db, hash: nat, row: Option<Id>, next: RefreshToken, now: Time): (r: (Db, Option<Error>))
    requires Finds(db, hash, row)
    ensures r.1.Some? && r.1 != Some(RefreshTokenReused) ==> r.0 == db
  {
    if hash == 0 || row.None? then (db, Some(RefreshTokenInvalid))
    else
      var current := db.tokens[row.value];
      if current.IsExpired(now) then (db, Some(RefreshTokenExpired))
      else if current.revokedAt.Some? then (db, Some(RefreshTokenRevoked))
      else if current.usedAt.Some? then
        match RevokeFamilyAndIncrement(db, current.userId, current.family, now)
        case Failure(e) => (db, Some(e))
        case Success(db') => (db', Some(RefreshTokenReused))
      else
        match CreateToken(db, next.(userId := current.userId, family := current.family))
        case Failure(e) => (db, Some(e))
        case Success(db') => (db'.(tokens := db'.tokens[row.value := current.MarkUsed(db.nextId, now)]), None)
  }

  // ---------------------------------------------------------------- what the transactions promise

  function RevokedAt(t: RefreshToken, now: Time): RefreshToken {
    t.(revokedAt := Some(if t.revokedAt.Some? then t.revokedAt.value else now))
  }

  // Of the tokens the user has in the family, or those anybody has, none is left unrevoked; nothing else changes.
  ghost predicate RevokesFamily(a: map<Id, RefreshToken>, b: map<Id, RefreshToken>, family: nat, user: Option<Id>, now: Time) {
    && b.Keys == a.Keys
    && forall t | t in a :: b[t] == if a[t].family == family && (user.None? || user.value == a[t].userId)
                                    then RevokedAt(a[t], now) else a[t]
  }

  // The user's access tokens are void.
  ghost predicate VersionRaised(a: map<Id, User>, b: map<Id, User>, userId: Id, now: Time) {
    && userId in a && b.Keys == a.Keys
    && forall u | u in a :: b[u] == if u == userId then a[u].(tokenVersion := a[u].tokenVersion + 1, updatedAt := now) else a[u]
  }

  // The token is used up and replaced by a new one of its user and family.
  ghost predicate Replaced(a: map<Id, RefreshToken>, b: map<Id, RefreshToken>, row: Id, id: Id, next: RefreshToken, now: Time) {
    && row in a && id !in a && b.Keys == a.Keys + {id}
    && b[id] == next.(userId := a[row].userId, family := a[row].family)
    && b[row] == a[row].(usedAt := Some(now), replacedBy := Some(id))
    && forall t | t in a && t != row :: b[t] == a[t]
  }

  /** How a rotation ends, case by case. An expired token is told apart from a revoked one, and that from a used one. */
  ghost predicate RotationEnds(db: Db, hash: nat, row: Option<Id>, next: RefreshToken, now: Time, db': Db, err: Option<Error>) {
    if hash == 0 || row.None? || row.value !in db.tokens then
      db' == db && err == Some(RefreshTokenInvalid)
    else
      var t := db.tokens[row.value];
      if t.expiresAt <= now then db' == db && err == Some(RefreshTokenExpired)
      else if t.revokedAt != None then db' == db && err == Some(RefreshTokenRevoked)
      else if t.usedAt != None && t.userId !in db.users then db' == db && err == Some(UserNotFound)
      else if t.usedAt != None then
        && err == Some(RefreshTokenReused) && db' == db.(users := db'.users, tokens := db'.tokens)
        && VersionRaised(db.users, db'.users, t.userId, now)
        && RevokesFamily(db.tokens, db'.tokens, t.family, Some(t.userId), now)
      else if exists s :: s in db.tokens && db.tokens[s].hash == next.hash then
        db' == db && err == Some(UniqueViolation)
      else
        && err == None && db' == db.(tokens := db'.tokens, nextId := db.nextId + 1)
        && Replaced(db.tokens, db'.tokens, row.value, db.nextId, next, now)
  }

  lemma RotationOutcome(db: Db, hash: nat, row: Option<Id>, next: RefreshToken, now: Time)
    requires Finds(db, hash, row) && db.nextId !in db.tokens
    ensures match row
            case Some(t) => t in db.tokens && db.tokens[t].hash == hash
            case None => !exists t :: t in db.tokens && db.tokens[t].hash == hash
    ensures var r := Rotated(db, hash, row, next, now); RotationEnds(db, hash, row, next, now, r.0, r.1)
  {
    hide RevokesFamily, VersionRaised, Replaced, RevokeWhere;
    if row.Some? {
      var t := db.tokens[row.value];
      FamilyEnds(db.tokens, t.family, Some(t.userId), now);
      if t.userId in db.users { VersionRises(db.users, t.userId, now); }
      Replaces(db.tokens, row.value, db.nextId, next, now);
    }
  }

  lemma FamilyEnds(tokens: map<Id, RefreshToken>, family: nat, user: Option<Id>, now: Time)
    ensures RevokesFamily(tokens, RevokeWhere(tokens, family, user, now), family, user, now)
  {
  }

  lemma VersionRises(users: map<Id, User>, userId: Id, now: Time)
    requires userId in users
    ensures VersionRaised(users, users[userId := users[userId].InvalidateAccessTokens(now)], userId, now)
  {
  }

  lemma Replaces(tokens: map<Id, RefreshToken>, row: Id, id: Id, next: RefreshToken, now: Time)
    requires row in tokens && id !in tokens
    ensures Replaced(tokens, tokens[id := next.(userId := tokens[row].userId, family := tokens[row].family)]
                                   [row := tokens[row].MarkUsed(id, now)], row, id, next, now)
  {
  }

  class RefreshTokenRepository {
    const tables: Tables

    constructor (tables: Tables)
      ensures this.tables == tables
    {
      this.tables := tables;
    }

    method Create(row: RefreshToken) returns (err: Option<Error>)
      modifies tables
      ensures Commits(CreateToken(old(tables.Snapshot()), row), old(tables.Snapshot()), tables.Snapshot(), err)
      ensures err.None? <==> !exists t :: t in old(tables.tokens) && old(tables.tokens)[t].hash == row.hash
      ensures err.None? ==> tables.tokens == old(tables.tokens)[old(tables.nextId) := row]
    {
      if HashTaken(tables.tokens, row.hash) { return Some(UniqueViolation); }
      tables.tokens := tables.tokens[tables.nextId := row];
      tables.nextId := tables.nextId + 1;
      err := None;
    }

    method FindByTokenHash(hash: nat) returns (row: Option<Id>, err: Option<Error>)
      ensures err == None ==> row.Some? && hash != 0 && Finds(tables.Snapshot(), hash, row)
      ensures err.Some? ==> err == Some(RefreshTokenInvalid) && (hash == 0 || Finds(tables.Snapshot(), hash, None))
      ensures err == None <==> hash != 0 && exists t :: t in tables.tokens && tables.tokens[t].hash == hash
      ensures err == None ==> row.value in tables.tokens && tables.tokens[row.value].hash == hash
    {
      if hash == 0 { return None, Some(RefreshTokenInvalid); }
      if t :| t in tables.tokens && tables.tokens[t].hash == hash { return Some(t), None; }
      return None, Some(RefreshTokenInvalid);
    }

    method Rotate(hash: nat, row: Option<Id>, next: RefreshToken, now: Time) returns (err: Option<Error>)
      requires Finds(tables.Snapshot(), hash, row)
      modifies tables
      ensures (tables.Snapshot(), err) == Rotated(old(tables.Snapshot()), hash, row, next, now)
      ensures old(tables.nextId !in tables.tokens)
              ==> RotationEnds(old(tables.Snapshot()), hash, row, next, now, tables.Snapshot(), err)
    {
      hide RotationEnds;
      if tables.nextId !in tables.tokens { RotationOutcome(tables.Snapshot(), hash, row, next, now); }
      if hash == 0 { return Some(RefreshTokenInvalid); }
      if row.None? { return Some(RefreshTokenInvalid); }
      var current := new TokenRecord(tables.tokens[row.value]);
      var reused := false;
      if now >= current.expiresAt { return Some(RefreshTokenExpired); }
      if current.revokedAt.Some? { return Some(RefreshTokenRevoked); }
      if current.usedAt.Some? {
        err := RevokeAndIncrement(current.userId, current.family, now);
        if err.Some? { return; }
        reused := true;
      } else {
        var id := tables.nextId;
        err := Create(next.(userId := current.userId, family := current.family));
        if err.Some? { return; }
        current.MarkUsed(id, now);
        tables.tokens := tables.tokens[row.value := current.Row()];
      }
      if reused { return Some(RefreshTokenReused); }
    }

    method RevokeFamily(family: nat, now: Time) returns (err: Option<Error>)
      modifies tables
      ensures if family == 0 then err == Some(InvalidInput) && tables.Snapshot() == old(tables.Snapshot())
              else err == None && tables.Snapshot() == FamilyRevoked(old(tables.Snapshot()), family, now)
      ensures err.None? ==> RevokesFamily(old(tables.tokens), tables.tokens, family, None, now)
    {
      if family == 0 { return Some(InvalidInput); }
      tables.tokens := RevokeWhere(tables.tokens, family, None, now);
      err := None;
    }

    method RevokeFamilyAndIncrementTokenVersion(userId: Id, family: nat, now: Time) returns (err: Option<Error>)
      modifies tables
      ensures Commits(if userId == 0 || family == 0 then Failure(InvalidInput)
                      else RevokeFamilyAndIncrement(old(tables.Snapshot()), userId, family, now),
                      old(tables.Snapshot()), tables.Snapshot(), err)
      ensures err.None? ==> userId != 0 && family != 0
                            && VersionRaised(old(tables.users), tables.users, userId, now)
                            && RevokesFamily(old(tables.tokens), tables.tokens, family, Some(userId), now)
    {
      if userId == 0 { return Some(InvalidInput); }
      if family == 0 { return Some(InvalidInput); }
      err := RevokeAndIncrement(userId, family, now);
    }

    // revokeFamilyAndIncrementTokenVersion, inside a transaction
    method RevokeAndIncrement(userId: Id, family: nat, now: Time) returns (err: Option<Error>)
      modifies tables
      ensures Commits(RevokeFamilyAndIncrement(old(tables.Snapshot()), userId, family, now),
                      old(tables.Snapshot()), tables.Snapshot(), err)
    {
      if userId !in tables.users { return Some(UserNotFound); }
      var user := new UserRecord(tables.users[userId]);
      tables.tokens := RevokeWhere(tables.tokens, family, Some(userId), now);
      user.InvalidateAccessTokens(now);
      tables.users := tables.users[userId := user.Row()];
      err := None;
    }
  }
}
