/**
  Login, refresh and logout as multi-step calls that interleave with each other, with suspensions and with every
  other transaction of the system. A call reads rows in one step and acts on what it read in a later one.
 */
module Sessions {
  import opened Common
  import opened VideoEntity
  import C = CleanupEntity
  import opened UserEntity
  import opened Database
  import opened Transactions
  import opened Effects
  import opened RefreshTokens

  // refreshTokenLifetime: seven days
  const REFRESH_LIFETIME: nat := 7 * 24 * 60 * 60 * 1000

  /** What an access token says, apart from its expiry. */
  datatype AccessToken = AccessToken(userId: Id, version: nat)

  /** Where a call of Login, Refresh or Logout stands, with what it has read. */
  datatype Call =
    | LoggingIn(next: RefreshToken)
    | Refreshing(hash: nat, userId: Id, family: nat, now: Time)
    | ReuseSeen(userId: Id, family: nat, now: Time)
    | Rotating(hash: nat, next: RefreshToken, now: Time)
    | LoggingOut(family: nat)

  datatype World = World(
    db: Db,
    clock: Time,
    calls: map<Id, Call>,
    // every access token generated so far, handed out or not
    minted: set<AccessToken>,
    // every family ID generated so far
    families: set<nat>)

  datatype Event =
    | Tick(to: Time)
    | Other(tx: Tx)
    | LoginReads(call: Id, user: Id, hash: nat, family: nat)
    | LoginCreates(call: Id)
    | RefreshReads(call: Id, hash: nat, row: Option<Id>)
    | RefreshRevokes(call: Id)
    | RefreshReadsUser(call: Id, nextHash: nat)
    | RefreshRotates(call: Id, row: Option<Id>)
    | LogoutReads(call: Id, hash: nat, row: Option<Id>)
    | LogoutRevokes(call: Id)
    | CallAborts(call: Id)

  predicate Enabled(w: World, e: Event) {
    match e
    case Tick(to) => w.clock <= to
    case Other(tx) => Selected(w.db, tx, w.clock)
    case LoginReads(c, _, _, family) => c !in w.calls && family != 0 && family !in w.families
    case LoginCreates(c) => c in w.calls && w.calls[c].LoggingIn?
    case RefreshReads(c, hash, row) => c !in w.calls && hash != 0 && Finds(w.db, hash, row)
    case RefreshRevokes(c) => c in w.calls && w.calls[c].ReuseSeen?
    case RefreshReadsUser(c, _) => c in w.calls && w.calls[c].Refreshing?
    case RefreshRotates(c, row) => c in w.calls && w.calls[c].Rotating? && Finds(w.db, w.calls[c].hash, row)
    case LogoutReads(c, hash, row) => c !in w.calls && hash != 0 && Finds(w.db, hash, row)
    case LogoutRevokes(c) => c in w.calls && w.calls[c].LoggingOut?
    case CallAborts(c) => c in w.calls
  }

  function IssuedToken(user: Id, hash: nat, family: nat, now: Time): RefreshToken {
    RefreshToken(user, hash, family, None, now + REFRESH_LIFETIME, None, None, now)
  }

  function Or(r: Result<Db>, db: Db): Db {
    if r.Success? then r.value else db
  }

  function Done(w: World, c: Id, db: Db): World {
    w.(db := db, calls := w.calls - {c})
  }

  // The first read of a refresh: an unusable token ends the call, a used one turns it into a revocation.
  function Found(w: World, c: Id, hash: nat, token: RefreshToken): World {
    if token.IsExpired(w.clock) || token.revokedAt.Some? then w
    else if token.usedAt.Some? then w.(calls := w.calls[c := ReuseSeen(token.userId, token.family, w.clock)])
    else w.(calls := w.calls[c := Refreshing(hash, token.userId, token.family, w.clock)])
  }

  function Next(w: World, e: Event): World
    requires Enabled(w, e)
  {
    match e
    case Tick(to) => w.(clock := to)
    case Other(tx) => w.(db := Or(Perform(w.db, tx, w.clock), w.db))
    case LoginReads(c, user, hash, family) =>
      if user !in w.db.users || !w.db.users[user].IsActive() then w.(families := w.families + {family})
      else w.(calls := w.calls[c := LoggingIn(IssuedToken(user, hash, family, w.clock))],
              minted := w.minted + {AccessToken(user, w.db.users[user].tokenVersion)},
              families := w.families + {family})
    case LoginCreates(c) => Done(w, c, Or(CreateToken(w.db, w.calls[c].next), w.db))
    case RefreshReads(c, hash, row) => if row.None? then w else Found(w, c, hash, w.db.tokens[row.value])
    case RefreshRevokes(c) =>
      Done(w, c, Or(RevokeFamilyAndIncrement(w.db, w.calls[c].userId, w.calls[c].family, w.calls[c].now), w.db))
    case RefreshReadsUser(c, nextHash) =>
      var s := w.calls[c];
      if s.userId !in w.db.users || !w.db.users[s.userId].IsActive() then Done(w, c, w.db)
      else w.(calls := w.calls[c := Rotating(s.hash, IssuedToken(s.userId, nextHash, s.family, s.now), s.now)],
              minted := w.minted + {AccessToken(s.userId, w.db.users[s.userId].tokenVersion)})
    case RefreshRotates(c, row) => Done(w, c, Rotated(w.db, w.calls[c].hash, row, w.calls[c].next, w.calls[c].now).0)
    case LogoutReads(c, hash, row) =>
      if row.None? then w else w.(calls := w.calls[c := LoggingOut(w.db.tokens[row.value].family)])
    case LogoutRevokes(c) => Done(w, c, FamilyRevoked(w.db, w.calls[c].family, w.clock))
    case CallAborts(c) => Done(w, c, w.db)
  }

  /** The middleware's decision about an access token that has not expired. */
  predicate Accepted(db: Db, access: AccessToken) {
    && access.userId in db.users && db.users[access.userId].IsActive()
    && db.users[access.userId].tokenVersion == access.version
  }

  // ---------------------------------------------------------------- the invariant

  /** The tokens of a family, oldest first: each but the last is used and replaced by its successor. */
  ghost predicate IsChain(tokens: map<Id, RefreshToken>, family: nat, chain: seq<Id>) {
    && (forall t | t in tokens :: tokens[t].family == family <==> t in chain)
    && (forall i | 0 <= i < |chain| :: chain[i] in tokens)
    && (forall i, j | 0 <= i < j < |chain| :: chain[i] < chain[j])
    && (forall i | 0 <= i < |chain| ::
          && (tokens[chain[i]].usedAt.Some? <==> i + 1 < |chain|)
          && tokens[chain[i]].replacedBy == if i + 1 < |chain| then Some(chain[i + 1]) else None)
  }

  ghost predicate HasChain(tokens: map<Id, RefreshToken>, family: nat) {
    exists chain :: IsChain(tokens, family, chain)
  }

  ghost predicate Chained(tokens: map<Id, RefreshToken>) {
    forall t | t in tokens :: HasChain(tokens, tokens[t].family)
  }

  /** A family belongs to one user and is revoked as a whole or not at all. */
  ghost predicate Uniform(tokens: map<Id, RefreshToken>) {
    forall s, t | s in tokens && t in tokens && tokens[s].family == tokens[t].family ::
      tokens[s].userId == tokens[t].userId && tokens[s].revokedAt.Some? == tokens[t].revokedAt.Some?
  }

  ghost predicate HashesUnique(tokens: map<Id, RefreshToken>) {
    forall s, t | s in tokens && t in tokens && s != t :: tokens[s].hash != tokens[t].hash
  }

  ghost predicate RowsOk(tokens: map<Id, RefreshToken>, users: set<Id>, nextId: Id, families: set<nat>) {
    forall t | t in tokens :: t < nextId && tokens[t].userId in users && tokens[t].family in families
  }

  ghost predicate TokensOk(tokens: map<Id, RefreshToken>, users: set<Id>, nextId: Id, families: set<nat>) {
    RowsOk(tokens, users, nextId, families) && HashesUnique(tokens) && Uniform(tokens) && Chained(tokens)
  }

  // The family of a login in progress is its own.
  ghost predicate CallsOk(tokens: map<Id, RefreshToken>, users: set<Id>, families: set<nat>, calls: map<Id, Call>) {
    && (forall c | c in calls && calls[c].LoggingIn? ::
          var n := calls[c].next;
          && n.userId in users && n.family in families && n.usedAt.None? && n.replacedBy.None? && n.revokedAt.None?
          && (forall t | t in tokens :: tokens[t].family != n.family))
    && (forall c, d | c in calls && d in calls && c != d && calls[c].LoggingIn? && calls[d].LoggingIn? ::
          calls[c].next.family != calls[d].next.family)
    && (forall c | c in calls && calls[c].Rotating? ::
          calls[c].next.usedAt.None? && calls[c].next.replacedBy.None? && calls[c].next.revokedAt.None?)
  }

  ghost predicate MintedOk(users: map<Id, User>, minted: set<AccessToken>) {
    forall a | a in minted :: a.userId in users && a.version <= users[a.userId].tokenVersion
  }

  ghost predicate Inv(w: World) {
    && TokensOk(w.db.tokens, w.db.users.Keys, w.db.nextId, w.families)
    && CallsOk(w.db.tokens, w.db.users.Keys, w.families, w.calls)
    && MintedOk(w.db.users, w.minted)
  }

  // ---------------------------------------------------------------- the token table, one change at a time

  // What of a token its family's chain depends on.
  predicate SameLink(a: RefreshToken, b: RefreshToken) {
    b.family == a.family && b.usedAt == a.usedAt && b.replacedBy == a.replacedBy
  }

  lemma SameChain(a: map<Id, RefreshToken>, b: map<Id, RefreshToken>, family: nat, chain: seq<Id>)
    requires IsChain(a, family, chain)
    requires forall t | t in a && a[t].family == family :: t in b && SameLink(a[t], b[t])
    requires forall t | t in b && b[t].family == family :: t in a && a[t].family == family
    ensures IsChain(b, family, chain)
  {
    forall i | 0 <= i < |chain|
      ensures chain[i] in a && a[chain[i]].family == family && chain[i] in b && SameLink(a[chain[i]], b[chain[i]])
    {
      assert chain[i] in a && chain[i] in chain;
    }
    forall t | t in b
      ensures b[t].family == family <==> t in chain
    {
      if t in chain {
        var i :| 0 <= i < |chain| && chain[i] == t;
      }
    }
  }

  // A change that leaves the links of the family alone.
  lemma MarkedChain(a: map<Id, RefreshToken>, b: map<Id, RefreshToken>, family: nat)
    requires HasChain(a, family)
    requires forall t | t in a && a[t].family == family :: t in b && SameLink(a[t], b[t])
    requires forall t | t in b && b[t].family == family :: t in a && a[t].family == family
    ensures HasChain(b, family)
  {
    var chain :| IsChain(a, family, chain);
    hide IsChain;
    SameChain(a, b, family, chain);
    ChainWitness(b, family, chain);
  }

  lemma ChainWitness(tokens: map<Id, RefreshToken>, family: nat, chain: seq<Id>)
    requires IsChain(tokens, family, chain)
    ensures HasChain(tokens, family)
  {
  }

  // Revoking whole families, or all of a user's tokens.
  lemma RevokingKeeps(a: map<Id, RefreshToken>, b: map<Id, RefreshToken>, users: set<Id>, nextId: Id, families: set<nat>,
                      now: Time)
    requires TokensOk(a, users, nextId, families) && a.Keys == b.Keys
    requires forall t | t in a :: b[t] == a[t] || b[t] == a[t].Revoke(now)
    requires forall s, t | s in a && t in a && a[s].family == a[t].family ::
               b[s] == a[s].Revoke(now) <==> b[t] == a[t].Revoke(now)
    ensures TokensOk(b, users, nextId, families)
  {
    hide HasChain;
    forall t | t in b
      ensures HasChain(b, b[t].family)
    {
      MarkedChain(a, b, a[t].family);
    }
  }

  lemma CreatedChain(a: map<Id, RefreshToken>, id: Id, row: RefreshToken, family: nat)
    requires id !in a && forall t | t in a :: a[t].family != row.family
    requires row.usedAt.None? && row.replacedBy.None?
    requires family == row.family || HasChain(a, family)
    ensures HasChain(a[id := row], family)
  {
    if family == row.family {
      assert IsChain(a[id := row], family, [id]);
    } else {
      MarkedChain(a, a[id := row], family);
    }
  }

  lemma CreateKeeps(a: map<Id, RefreshToken>, row: RefreshToken, users: set<Id>, nextId: Id, families: set<nat>)
    requires TokensOk(a, users, nextId, families) && !HashTaken(a, row.hash)
    requires row.userId in users && row.family in families && row.usedAt.None? && row.replacedBy.None?
    requires forall t | t in a :: a[t].family != row.family
    ensures TokensOk(a[nextId := row], users, nextId + 1, families)
  {
    hide HasChain;
    var b := a[nextId := row];
    forall t | t in b
      ensures HasChain(b, b[t].family)
    {
      CreatedChain(a, nextId, row, b[t].family);
    }
  }

  lemma ExtendedChain(a: map<Id, RefreshToken>, t: Id, id: Id, row: RefreshToken, chain: seq<Id>, now: Time)
    requires t in a && id !in a && (forall s | s in a :: s < id) && a[t].usedAt.None?
    requires row.family == a[t].family && row.usedAt.None? && row.replacedBy.None? && IsChain(a, row.family, chain)
    ensures IsChain(a[id := row][t := a[t].MarkUsed(id, now)], row.family, chain + [id])
  {
    var b, longer, n := a[id := row][t := a[t].MarkUsed(id, now)], chain + [id], |chain|;
    assert t in chain;
    var last :| 0 <= last < n && chain[last] == t;
    assert a[chain[last]].usedAt.Some? <==> last + 1 < n;
    forall i | 0 <= i < |longer|
      ensures longer[i] in b && (b[longer[i]].usedAt.Some? <==> i + 1 < |longer|)
      ensures b[longer[i]].replacedBy == if i + 1 < |longer| then Some(longer[i + 1]) else None
    {
      assert i < n ==> chain[i] in a && chain[i] != id;
      assert i < n - 1 ==> chain[i] < chain[n - 1];
    }
  }

  lemma RotatedChain(a: map<Id, RefreshToken>, t: Id, id: Id, row: RefreshToken, family: nat, now: Time)
    requires t in a && t < id && id !in a && (forall s | s in a :: s < id)
    requires a[t].usedAt.None? && row.family == a[t].family && row.usedAt.None? && row.replacedBy.None?
    requires HasChain(a, family)
    ensures HasChain(a[id := row][t := a[t].MarkUsed(id, now)], family)
  {
    var b := a[id := row][t := a[t].MarkUsed(id, now)];
    if family == row.family {
      var chain :| IsChain(a, family, chain);
      hide IsChain;
      ExtendedChain(a, t, id, row, chain, now);
      ChainWitness(b, family, chain + [id]);
    } else {
      MarkedChain(a, b, family);
    }
  }

  lemma RotateKeeps(a: map<Id, RefreshToken>, t: Id, row: RefreshToken, users: set<Id>, nextId: Id, families: set<nat>, now: Time)
    requires TokensOk(a, users, nextId, families) && t in a && !HashTaken(a, row.hash)
    requires a[t].usedAt.None? && a[t].revokedAt.None? && row.usedAt.None? && row.replacedBy.None? && row.revokedAt.None?
    requires row.userId == a[t].userId && row.family == a[t].family
    ensures TokensOk(a[nextId := row][t := a[t].MarkUsed(nextId, now)], users, nextId + 1, families)
  {
    hide HasChain;
    var b := a[nextId := row][t := a[t].MarkUsed(nextId, now)];
    forall s | s in b
      ensures HasChain(b, b[s].family)
    {
      RotatedChain(a, t, nextId, row, b[s].family, now);
    }
  }

  // ---------------------------------------------------------------- transactions of the rest of the system

  // Users and tokens are left alone.
  ghost predicate SparesSessions(db: Db, db': Db) {
    db'.users == db.users && db'.tokens == db.tokens && db.nextId <= db'.nextId
  }

  lemma SweepSparesSessions(db: Db, tx: Tx, now: Time)
    requires Selected(db, tx, now) && Perform(db, tx, now).Success? && (tx.Expire? || tx.Recover? || tx.RecoverClean?)
    ensures SparesSessions(db, Perform(db, tx, now).value)
  {
    if tx.Expire? {
      ExpireRowsSpares(db, tx.rows, now);
    } else if tx.Recover? {
      RecoverJobsSpares(db, tx.rows, tx.delays, now);
    } else {
      RecoverCleanupRowsSpares(db, tx.rows, tx.delays, now);
    }
  }

  lemma InsertSparesSessions(db: Db, videoId: Id, key: Key, asset: C.AssetType, cause: C.CleanupCause, now: Time)
    ensures var r := InsertCleanup(db, videoId, key, asset, cause, now); r.Success? ==> SparesSessions(db, r.value)
  {
  }

  lemma InsertOutputSparesSessions(db: Db, videoId: Id, videoKey: Key, thumbnailKey: Key, cause: C.CleanupCause, now: Time)
    ensures var r := InsertOutputCleanups(db, videoId, videoKey, thumbnailKey, cause, now);
            r.Success? ==> SparesSessions(db, r.value)
  {
    hide InsertCleanup;
    InsertSparesSessions(db, videoId, videoKey, C.AssetProcessed, cause, now);
    var db1 := InsertCleanup(db, videoId, videoKey, C.AssetProcessed, cause, now);
    if db1.Success? { InsertSparesSessions(db1.value, videoId, thumbnailKey, C.AssetThumbnail, cause, now); }
  }

  lemma FinishingSparesSessions(db: Db, tx: Tx, now: Time)
    requires (tx.Delete? || tx.Fail? || tx.Complete?) && Perform(db, tx, now).Success?
    ensures SparesSessions(db, Perform(db, tx, now).value)
  {
    hide InsertOutputCleanups, InsertCleanup;
    if tx.Delete? {
      var row := db.videos[tx.videoId].DeleteByOwner(tx.userId, now).value;
      var db1 := db.SaveVideo(tx.videoId, row).(jobs := CancelWaitingJobs(db.jobs, tx.videoId, now));
      InsertSparesSessions(db1, tx.videoId, row.originalKey, C.AssetOriginal, C.VideoDelete, now);
      var db2 := InsertCleanup(db1, tx.videoId, row.originalKey, C.AssetOriginal, C.VideoDelete, now).value;
      if tx.videoId in db.outputs {
        InsertOutputSparesSessions(db2, tx.videoId, db.outputs[tx.videoId].videoKey, db.outputs[tx.videoId].thumbnailKey,
                                   C.VideoDelete, now);
      }
    } else if tx.Fail? {
      var v := db.jobs[tx.jobId].videoId;
      var db1 := if db.videos[v].IsDeleted() then db.SaveJob(tx.jobId, db.jobs[tx.jobId].Cancel(now).value)
                 else FailAlive(db, tx.jobId, tx.why, now).value;
      InsertOutputSparesSessions(db1, v, tx.videoKey, 0, C.ProcessFailed, now);
    } else if db.videos[db.jobs[tx.jobId].videoId].IsDeleted() {
      var job := db.jobs[tx.jobId];
      var cancelled := job.Cancel(now);
      InsertOutputSparesSessions(db.SaveJob(tx.jobId, if cancelled.Success? then cancelled.value else job), job.videoId,
                                 tx.output.videoKey, tx.output.thumbnailKey, C.Rollback, now);
    }
  }

  lemma InsertingSparesSessions(db: Db, tx: Tx, now: Time)
    requires (tx.Create? || tx.FinishUpload? || tx.Register?) && Perform(db, tx, now).Success?
    ensures SparesSessions(db, Perform(db, tx, now).value)
  {
    hide Perform, CompleteUpload;
    InsertTx(db, tx, now);
    if tx.FinishUpload? { UploadSparesSessions(db, tx.userId, tx.videoId, now); }
  }

  lemma UploadSparesSessions(db: Db, userId: Id, videoId: Id, now: Time)
    requires CompleteUpload(db, userId, videoId, now).Success?
    ensures SparesSessions(db, CompleteUpload(db, userId, videoId, now).value)
  {
  }

  lemma VideoTxSparesSessions(db: Db, tx: Tx, now: Time)
    requires (tx.MakePrivate? || tx.Republish? || tx.RecordSource? || tx.Hide? || tx.Restore?) && Perform(db, tx, now).Success?
    ensures SparesSessions(db, Perform(db, tx, now).value)
  {
    hide Perform;
    VideoRowTx(db, tx, now);
  }

  lemma ClaimSparesSessions(db: Db, j: Id, now: Time)
    requires j in db.jobs
    ensures ClaimJob(db, j, now).Success? ==> SparesSessions(db, ClaimJob(db, j, now).value)
  {
  }

  lemma JobTxSparesSessions(db: Db, tx: Tx, now: Time)
    requires (tx.Claim? || tx.Retry? || tx.Cancel?) && Selected(db, tx, now) && Perform(db, tx, now).Success?
    ensures SparesSessions(db, Perform(db, tx, now).value)
  {
    hide Perform;
    JobRowTx(db, tx, now);
    if tx.Claim? {
      hide ClaimJob;
      ClaimSparesSessions(db, tx.jobId, now);
    }
  }

  /** Only suspension and resumption touch users or refresh tokens. */
  lemma PerformSparesSessions(db: Db, tx: Tx, now: Time)
    requires Selected(db, tx, now) && Perform(db, tx, now).Success? && !tx.Suspend? && !tx.Resume?
    ensures SparesSessions(db, Perform(db, tx, now).value)
  {
    hide Perform, SparesSessions;
    if tx.Expire? || tx.Recover? || tx.RecoverClean? {
      SweepSparesSessions(db, tx, now);
    } else if tx.Delete? || tx.Fail? || tx.Complete? {
      FinishingSparesSessions(db, tx, now);
    } else if tx.ClaimClean? || tx.SucceedClean? || tx.RetryClean? || tx.FailClean? {
      CleanupSparesSessions(db, tx, now);
    } else if tx.Create? || tx.FinishUpload? || tx.Register? {
      InsertingSparesSessions(db, tx, now);
    } else if tx.Claim? || tx.Retry? || tx.Cancel? {
      JobTxSparesSessions(db, tx, now);
    } else {
      VideoTxSparesSessions(db, tx, now);
    }
  }

  lemma CleanupSparesSessions(db: Db, tx: Tx, now: Time)
    requires Selected(db, tx, now) && Perform(db, tx, now).Success?
    requires tx.ClaimClean? || tx.SucceedClean? || tx.RetryClean? || tx.FailClean?
    ensures SparesSessions(db, Perform(db, tx, now).value)
  {
    hide Perform, Registers;
    CleanupTxSpares(db, tx, now);
  }

  lemma SuspendOnSessions(db: Db, adminId: Id, userId: Id, rows: seq<Id>, reason: string, requestId: string, now: Time)
    requires forall i | 0 <= i < |rows| :: rows[i] in db.videos
    ensures var r := SuspendUser(db, adminId, userId, rows, reason, requestId, now);
            r.Success? ==>
              && userId in db.users && userId in r.value.users && r.value.nextId == db.nextId
              && r.value.users == db.users[userId := r.value.users[userId]]
              && r.value.users[userId].tokenVersion == db.users[userId].tokenVersion + 1
              && !r.value.users[userId].IsActive() && r.value.tokens == RevokeTokensOfUser(db.tokens, userId, now)
  {
    hide RevokeTokensOfUser;
    var db1 := SuspendAccount(db, adminId, userId, reason, requestId, now);
    if db1.Success? {
      HideVideosSpares(db1.value, adminId, rows, reason, requestId, now);
    }
  }

  lemma SuspensionOnSessions(db: Db, tx: Tx, now: Time)
    requires (tx.Suspend? || tx.Resume?) && Selected(db, tx, now) && Perform(db, tx, now).Success?
    ensures var db' := Perform(db, tx, now).value;
            && tx.userId in db.users && db'.nextId == db.nextId && db'.users.Keys == db.users.Keys
            && (forall u | u in db.users && u != tx.userId :: db'.users[u] == db.users[u])
            && db'.users[tx.userId].tokenVersion == db.users[tx.userId].tokenVersion + (if tx.Suspend? then 1 else 0)
            && db'.users[tx.userId].IsActive() == tx.Resume?
            && db'.tokens == if tx.Suspend? then RevokeTokensOfUser(db.tokens, tx.userId, now) else db.tokens
  {
    hide Perform, RevokeTokensOfUser, SuspendUser;
    AccountTx(db, tx, now);
    if tx.Suspend? {
      SuspendOnSessions(db, tx.adminId, tx.userId, tx.rows, tx.reason, tx.requestId, now);
    }
  }

  // ---------------------------------------------------------------- every step keeps the invariant

  lemma TokensOkMono(a: map<Id, RefreshToken>, users: set<Id>, nextId: Id, nextId': Id, families: set<nat>, families': set<nat>)
    requires TokensOk(a, users, nextId, families) && nextId <= nextId' && families <= families'
    ensures TokensOk(a, users, nextId', families')
  {
    hide Uniform, Chained, HashesUnique;
  }

  // The calls stay coherent with a token table whose families stay the same.
  lemma CallsStay(a: map<Id, RefreshToken>, b: map<Id, RefreshToken>, users: set<Id>, families: set<nat>, calls: map<Id, Call>)
    requires CallsOk(a, users, families, calls)
    requires forall t | t in b :: t in a && b[t].family == a[t].family
    ensures CallsOk(b, users, families, calls)
  {
  }

  lemma UserRevocationKeeps(a: map<Id, RefreshToken>, u: Id, users: set<Id>, nextId: Id, families: set<nat>, now: Time)
    requires TokensOk(a, users, nextId, families)
    ensures TokensOk(RevokeTokensOfUser(a, u, now), users, nextId, families)
  {
    hide Chained, HashesUnique, RowsOk;
    var b := RevokeTokensOfUser(a, u, now);
    RevokingKeeps(a, b, users, nextId, families, now);
  }

  lemma FamilyRevocationKeeps(a: map<Id, RefreshToken>, f: nat, u: Option<Id>, users: set<Id>, nextId: Id, families: set<nat>,
                              now: Time)
    requires TokensOk(a, users, nextId, families)
    ensures TokensOk(RevokeWhere(a, f, u, now), users, nextId, families)
  {
    hide Chained, HashesUnique, RowsOk;
    var b := RevokeWhere(a, f, u, now);
    RevokingKeeps(a, b, users, nextId, families, now);
  }

  lemma OtherKeeps(w: World, e: Event)
    requires Inv(w) && Enabled(w, e) && e.Other?
    ensures Inv(Next(w, e))
  {
    hide TokensOk, CallsOk, MintedOk, Perform;
    if Perform(w.db, e.tx, w.clock).Success? {
      var db' := Perform(w.db, e.tx, w.clock).value;
      if e.tx.Suspend? || e.tx.Resume? {
        SuspensionOnSessions(w.db, e.tx, w.clock);
        UserRevocationKeeps(w.db.tokens, e.tx.userId, w.db.users.Keys, w.db.nextId, w.families, w.clock);
        CallsStay(w.db.tokens, db'.tokens, w.db.users.Keys, w.families, w.calls);
        VersionsGrow(w.db.users, db'.users, w.minted);
      } else {
        PerformSparesSessions(w.db, e.tx, w.clock);
        TokensOkMono(w.db.tokens, w.db.users.Keys, w.db.nextId, db'.nextId, w.families, w.families);
      }
    }
  }

  lemma VersionsGrow(a: map<Id, User>, b: map<Id, User>, minted: set<AccessToken>)
    requires MintedOk(a, minted) && forall u | u in a :: u in b && a[u].tokenVersion <= b[u].tokenVersion
    ensures MintedOk(b, minted)
  {
  }

  lemma DroppedCall(tokens: map<Id, RefreshToken>, users: set<Id>, families: set<nat>, calls: map<Id, Call>, c: Id)
    requires CallsOk(tokens, users, families, calls)
    ensures CallsOk(tokens, users, families, calls - {c})
  {
  }

  lemma RevocationKeeps(w: World, e: Event)
    requires Inv(w) && Enabled(w, e) && (e.RefreshRevokes? || e.LogoutRevokes? || e.CallAborts?)
    ensures Inv(Next(w, e))
  {
    hide TokensOk, CallsOk, MintedOk;
    var w' := Next(w, e);
    DroppedCall(w.db.tokens, w.db.users.Keys, w.families, w.calls, e.call);
    if e.RefreshRevokes? {
      FamilyRevocationKeeps(w.db.tokens, w.calls[e.call].family, Some(w.calls[e.call].userId), w.db.users.Keys, w.db.nextId,
                            w.families, w.calls[e.call].now);
    } else if e.LogoutRevokes? {
      FamilyRevocationKeeps(w.db.tokens, w.calls[e.call].family, None, w.db.users.Keys, w.db.nextId, w.families, w.clock);
    }
    assert w'.db.users.Keys == w.db.users.Keys;
    CallsStay(w.db.tokens, w'.db.tokens, w.db.users.Keys, w.families, w'.calls);
    VersionsGrow(w.db.users, w'.db.users, w.minted);
  }

  // A call begins or moves on with what it has read.
  lemma AddedCall(tokens: map<Id, RefreshToken>, users: set<Id>, families: set<nat>, families': set<nat>, calls: map<Id, Call>,
                  c: Id, s: Call)
    requires CallsOk(tokens, users, families, calls) && families <= families'
    requires s.LoggingIn? || s.Rotating? ==> s.next.usedAt.None? && s.next.replacedBy.None? && s.next.revokedAt.None?
    requires s.LoggingIn? ==>
               && s.next.userId in users && s.next.family in families' && s.next.family !in families
               && forall t | t in tokens :: tokens[t].family in families
    ensures CallsOk(tokens, users, families', calls[c := s])
  {
  }

  lemma MoreFamilies(tokens: map<Id, RefreshToken>, users: set<Id>, families: set<nat>, families': set<nat>, calls: map<Id, Call>)
    requires CallsOk(tokens, users, families, calls) && families <= families'
    ensures CallsOk(tokens, users, families', calls)
  {
  }

  lemma LoginReadsKeeps(w: World, e: Event)
    requires Inv(w) && Enabled(w, e) && e.LoginReads?
    ensures Inv(Next(w, e))
  {
    hide TokensOk, CallsOk;
    TokenFamilies(w);
    TokensOkMono(w.db.tokens, w.db.users.Keys, w.db.nextId, w.db.nextId, w.families, w.families + {e.family});
    MoreFamilies(w.db.tokens, w.db.users.Keys, w.families, w.families + {e.family}, w.calls);
    if e.user in w.db.users {
      AddedCall(w.db.tokens, w.db.users.Keys, w.families, w.families + {e.family}, w.calls, e.call,
                LoggingIn(IssuedToken(e.user, e.hash, e.family, w.clock)));
    }
  }

  lemma ReadKeeps(w: World, e: Event)
    requires Inv(w) && Enabled(w, e)
    requires e.Tick? || e.RefreshReads? || e.RefreshReadsUser? || e.LogoutReads?
    ensures Inv(Next(w, e))
  {
    hide TokensOk, CallsOk;
    var calls, users := Next(w, e).calls, w.db.users.Keys;
    if e.RefreshReadsUser? {
      DroppedCall(w.db.tokens, users, w.families, w.calls, e.call);
    }
    if !e.Tick? && e.call in calls {
      AddedCall(w.db.tokens, users, w.families, w.families, w.calls, e.call, calls[e.call]);
    }
  }

  lemma TokenFamilies(w: World)
    requires Inv(w)
    ensures forall t | t in w.db.tokens :: w.db.tokens[t].family in w.families
    ensures forall t | t in w.db.tokens :: t < w.db.nextId && w.db.tokens[t].userId in w.db.users
  {
  }

  lemma LoginCreatesKeeps(w: World, e: Event)
    requires Inv(w) && Enabled(w, e) && e.LoginCreates?
    ensures Inv(Next(w, e))
  {
    hide TokensOk, MintedOk;
    var next := w.calls[e.call].next;
    DroppedCall(w.db.tokens, w.db.users.Keys, w.families, w.calls, e.call);
    if CreateToken(w.db, next).Success? {
      CreateKeeps(w.db.tokens, next, w.db.users.Keys, w.db.nextId, w.families);
    }
  }

  // What a rotation keeps of the token table: a new token joins the family of the old one.
  ghost predicate RotationKeeps(db: Db, db': Db, row: Option<Id>, families: set<nat>) {
    && db'.users.Keys == db.users.Keys && TokensOk(db'.tokens, db'.users.Keys, db'.nextId, families)
    && (forall u | u in db.users :: db.users[u].tokenVersion <= db'.users[u].tokenVersion)
    && (forall s | s in db'.tokens ::
          if s in db.tokens then db'.tokens[s].family == db.tokens[s].family
          else row.Some? && row.value in db.tokens && db'.tokens[s].family == db.tokens[row.value].family)
  }

  lemma ReuseKeepsTokens(db: Db, t: Id, families: set<nat>, now: Time)
    requires TokensOk(db.tokens, db.users.Keys, db.nextId, families) && t in db.tokens
    ensures var r := RevokeFamilyAndIncrement(db, db.tokens[t].userId, db.tokens[t].family, now);
            r.Success? ==> RotationKeeps(db, r.value, Some(t), families)
  {
    hide TokensOk;
    FamilyRevocationKeeps(db.tokens, db.tokens[t].family, Some(db.tokens[t].userId), db.users.Keys, db.nextId, families, now);
    var r := RevokeFamilyAndIncrement(db, db.tokens[t].userId, db.tokens[t].family, now);
    if r.Success? { assert r.value.users.Keys == db.users.Keys; }
  }

  lemma ReplacementKeepsTokens(db: Db, t: Id, next: RefreshToken, families: set<nat>, now: Time)
    requires TokensOk(db.tokens, db.users.Keys, db.nextId, families) && t in db.tokens && !HashTaken(db.tokens, next.hash)
    requires db.tokens[t].usedAt.None? && db.tokens[t].revokedAt.None?
    requires next.usedAt.None? && next.replacedBy.None? && next.revokedAt.None?
    requires next.userId == db.tokens[t].userId && next.family == db.tokens[t].family
    ensures RotationKeeps(db, db.(tokens := db.tokens[db.nextId := next][t := db.tokens[t].MarkUsed(db.nextId, now)],
                                  nextId := db.nextId + 1), Some(t), families)
  {
    assert db.nextId !in db.tokens by { hide Uniform, Chained, HashesUnique; }
    hide TokensOk;
    RotateKeeps(db.tokens, t, next, db.users.Keys, db.nextId, families, now);
  }

  lemma RotatedTokens(db: Db, hash: nat, row: Option<Id>, next: RefreshToken, families: set<nat>, now: Time)
    requires TokensOk(db.tokens, db.users.Keys, db.nextId, families) && Finds(db, hash, row)
    requires next.usedAt.None? && next.replacedBy.None? && next.revokedAt.None?
    ensures RotationKeeps(db, Rotated(db, hash, row, next, now).0, row, families)
  {
    hide TokensOk, RevokeFamilyAndIncrement, HashTaken;
    var r := Rotated(db, hash, row, next, now);
    if r.1 == Some(RefreshTokenReused) {
      ReuseKeepsTokens(db, row.value, families, now);
    } else if r.1 == None {
      var current := db.tokens[row.value];
      ReplacementKeepsTokens(db, row.value, next.(userId := current.userId, family := current.family), families, now);
    }
  }

  lemma RotatesKeeps(w: World, e: Event)
    requires Inv(w) && Enabled(w, e) && e.RefreshRotates?
    ensures Inv(Next(w, e))
  {
    var s, w' := w.calls[e.call], Next(w, e);
    assert s.next.usedAt.None? && s.next.replacedBy.None? && s.next.revokedAt.None?;
    hide TokensOk, CallsOk, MintedOk, Rotated;
    RotatedTokens(w.db, s.hash, e.row, s.next, w.families, s.now);
    DroppedCall(w.db.tokens, w.db.users.Keys, w.families, w.calls, e.call);
    VersionsGrow(w.db.users, w'.db.users, w.minted);
    if e.row.Some? {
      CallsStayRotated(w.db.tokens, w'.db.tokens, e.row.value, w.db.users.Keys, w.families, w'.calls);
    } else {
      CallsStay(w.db.tokens, w'.db.tokens, w.db.users.Keys, w.families, w'.calls);
    }
  }

  lemma CallsStayRotated(a: map<Id, RefreshToken>, b: map<Id, RefreshToken>, t: Id, users: set<Id>, families: set<nat>,
                         calls: map<Id, Call>)
    requires CallsOk(a, users, families, calls) && t in a
    requires forall s | s in b :: if s in a then b[s].family == a[s].family else b[s].family == a[t].family
    ensures CallsOk(b, users, families, calls)
  {
  }

  lemma StepKeeps(w: World, e: Event)
    requires Inv(w) && Enabled(w, e)
    ensures Inv(Next(w, e))
  {
    hide Inv, Next;
    match e {
      case Other(_) => OtherKeeps(w, e);
      case LoginCreates(_) => LoginCreatesKeeps(w, e);
      case RefreshRotates(_, _) => RotatesKeeps(w, e);
      case RefreshRevokes(_) => RevocationKeeps(w, e);
      case LogoutRevokes(_) => RevocationKeeps(w, e);
      case CallAborts(_) => RevocationKeeps(w, e);
      case LoginReads(_, _, _, _) => LoginReadsKeeps(w, e);
      case _ => ReadKeeps(w, e);
    }
  }

  // ---------------------------------------------------------------- what never goes back

  predicate TokenLater(a: RefreshToken, b: RefreshToken) {
    && a.userId == b.userId && a.hash == b.hash && a.family == b.family
    && (a.usedAt.Some? ==> b.usedAt == a.usedAt && b.replacedBy == a.replacedBy)
    && (a.revokedAt.Some? ==> b.revokedAt == a.revokedAt)
  }

  /** Tokens stay, used and revoked ones for good; token versions never fall. */
  ghost predicate SessionsLater(a: Db, b: Db) {
    && (forall t | t in a.tokens :: t in b.tokens && TokenLater(a.tokens[t], b.tokens[t]))
    && (forall u | u in a.users :: u in b.users && a.users[u].tokenVersion <= b.users[u].tokenVersion)
  }

  lemma OtherStepLater(w: World, e: Event)
    requires Enabled(w, e) && e.Other?
    ensures SessionsLater(w.db, Next(w, e).db)
  {
    hide Perform;
    if Perform(w.db, e.tx, w.clock).Success? {
      if e.tx.Suspend? || e.tx.Resume? {
        SuspensionOnSessions(w.db, e.tx, w.clock);
      } else {
        PerformSparesSessions(w.db, e.tx, w.clock);
      }
    }
  }

  lemma RotationLater(db: Db, hash: nat, row: Option<Id>, next: RefreshToken, now: Time)
    requires Finds(db, hash, row) && db.nextId !in db.tokens
    ensures SessionsLater(db, Rotated(db, hash, row, next, now).0)
  {
    hide HashTaken;
  }

  lemma RevocationLater(db: Db, u: Id, family: nat, now: Time)
    ensures SessionsLater(db, FamilyRevoked(db, family, now))
    ensures SessionsLater(db, Or(RevokeFamilyAndIncrement(db, u, family, now), db))
  {
  }

  lemma CreationLater(db: Db, row: RefreshToken)
    requires db.nextId !in db.tokens
    ensures SessionsLater(db, Or(CreateToken(db, row), db))
  {
  }

  lemma ReadLater(w: World, e: Event)
    requires Enabled(w, e)
    requires e.Tick? || e.LoginReads? || e.RefreshReads? || e.RefreshReadsUser? || e.LogoutReads? || e.CallAborts?
    ensures Next(w, e).db == w.db
  {
  }

  lemma StepLater(w: World, e: Event)
    requires Inv(w) && Enabled(w, e)
    ensures SessionsLater(w.db, Next(w, e).db)
  {
    TokenFamilies(w);
    hide Inv, Perform, Rotated, HashTaken, SessionsLater, RevokeFamilyAndIncrement, FamilyRevoked, CreateToken;
    match e {
      case Other(_) => OtherStepLater(w, e);
      case RefreshRotates(c, row) => RotationLater(w.db, w.calls[c].hash, row, w.calls[c].next, w.calls[c].now);
      case RefreshRevokes(c) => RevocationLater(w.db, w.calls[c].userId, w.calls[c].family, w.calls[c].now);
      case LogoutRevokes(c) => RevocationLater(w.db, 0, w.calls[c].family, w.clock);
      case LoginCreates(c) => CreationLater(w.db, w.calls[c].next);
      case _ =>
        ReadLater(w, e);
        SameLater(w.db);
    }
  }

  lemma SameLater(db: Db)
    ensures SessionsLater(db, db)
  {
  }

  lemma SessionsLaterTrans(a: Db, b: Db, c: Db)
    requires SessionsLater(a, b) && SessionsLater(b, c)
    ensures SessionsLater(a, c)
  {
  }

  // ---------------------------------------------------------------- runs

  /** Users exist, nobody has ever logged in. */
  ghost predicate Init(w: World) {
    w.db.tokens == map[] && w.calls == map[] && w.minted == {} && w.families == {}
  }

  datatype Run = Run(worlds: seq<World>, events: seq<Event>)

  ghost predicate IsStep(w: World, e: Event, w': World) {
    Enabled(w, e) && w' == Next(w, e)
  }

  ghost predicate IsRun(r: Run) {
    && |r.worlds| == |r.events| + 1 && Init(r.worlds[0])
    && forall i | 0 <= i < |r.events| :: IsStep(r.worlds[i], r.events[i], r.worlds[i + 1])
  }

  /** The invariant holds in every state of every run. */
  lemma {:induction false} RunKeeps(r: Run, i: nat)
    requires IsRun(r) && i < |r.worlds|
    ensures Inv(r.worlds[i])
  {
    hide Next, Enabled;
    if i > 0 {
      hide Inv;
      RunKeeps(r, i - 1);
      assert IsStep(r.worlds[i - 1], r.events[i - 1], r.worlds[i - 1 + 1]);
      StepKeeps(r.worlds[i - 1], r.events[i - 1]);
    }
  }

  lemma RunStep(r: Run, i: nat)
    requires IsRun(r) && i < |r.events|
    ensures i + 1 < |r.worlds| && Inv(r.worlds[i]) && Enabled(r.worlds[i], r.events[i])
    ensures r.worlds[i + 1] == Next(r.worlds[i], r.events[i])
  {
    hide Inv, Next, Enabled;
    RunKeeps(r, i);
    assert IsStep(r.worlds[i], r.events[i], r.worlds[i + 1]);
  }

  lemma {:induction false} RunIsLater(r: Run, i: nat, j: nat)
    requires IsRun(r) && i <= j < |r.worlds|
    ensures SessionsLater(r.worlds[i].db, r.worlds[j].db)
  {
    hide Next, Inv, Enabled, Init;
    if i < j {
      RunIsLater(r, i, j - 1);
      RunStep(r, j - 1);
      StepLater(r.worlds[j - 1], r.events[j - 1]);
      hide SessionsLater;
      SessionsLaterTrans(r.worlds[i].db, r.worlds[j - 1].db, r.worlds[j].db);
    }
  }

  // ---------------------------------------------------------------- families

  /**
    In every state the tokens of a family form one chain of replacements, oldest first, of which only the last is
    unused; they belong to one user and are revoked all together or not at all.
   */
  lemma FamiliesAreChains(r: Run, i: nat, t: Id)
    requires IsRun(r) && i < |r.worlds| && t in r.worlds[i].db.tokens
    ensures var tokens := r.worlds[i].db.tokens; var family := tokens[t].family;
            && HasChain(tokens, family)
            && (forall s | s in tokens && tokens[s].family == family ::
                  tokens[s].userId == tokens[t].userId && tokens[s].revokedAt.Some? == tokens[t].revokedAt.Some?)
            && (forall s | s in tokens && tokens[s].family == family && tokens[s].usedAt.None? && tokens[t].usedAt.None? ::
                  s == t)
  {
    hide IsRun;
    RunKeeps(r, i);
    var tokens := r.worlds[i].db.tokens;
    assert HasChain(tokens, tokens[t].family);
    var chain :| IsChain(tokens, tokens[t].family, chain);
    hide Inv;
    forall s | s in tokens && tokens[s].family == tokens[t].family && tokens[s].usedAt.None? && tokens[t].usedAt.None?
      ensures s == t
    {
      assert s in chain && t in chain;
    }
  }

  // Step `i` of the run rotates token `t`: it was usable and is replaced.
  ghost predicate RotatesAt(r: Run, i: nat, t: Id) {
    && i < |r.events| && i + 1 < |r.worlds| && r.events[i].RefreshRotates? && r.events[i].row == Some(t)
    && t in r.worlds[i].db.tokens && t in r.worlds[i + 1].db.tokens
    && r.worlds[i].db.tokens[t].usedAt.None? && r.worlds[i + 1].db.tokens[t].usedAt.Some?
  }

  /**
    Whoever presents a used token that still counts sets off the end of its family, whether or not the user is active:
    the call's only other step, taken whenever it is, leaves none of the family's tokens unrevoked and voids the access
    tokens.
   */
  lemma UsedTokenIsCaught(w: World, c: Id, hash: nat, t: Id, w': World)
    requires Enabled(w, RefreshReads(c, hash, Some(t)))
    requires w.db.tokens[t].usedAt != None && w.db.tokens[t].revokedAt == None && w.clock < w.db.tokens[t].expiresAt
    requires c in w'.calls && w'.calls[c] == Next(w, RefreshReads(c, hash, Some(t))).calls[c]
    requires w.db.tokens[t].userId in w'.db.users
    ensures Enabled(w', RefreshRevokes(c))
    ensures var token, w'' := w.db.tokens[t], Next(w', RefreshRevokes(c));
            && c !in w''.calls
            && w''.db.users[token.userId].tokenVersion == w'.db.users[token.userId].tokenVersion + 1
            && (forall s | s in w''.db.tokens && w''.db.tokens[s].family == token.family && w''.db.tokens[s].userId == token.userId ::
                  w''.db.tokens[s].revokedAt != None)
  {
  }

  /** A login of an active user yields an access token that is accepted at once and a refresh token good for seven days. */
  lemma LoginYieldsTokens(w: World, c: Id, u: Id, hash: nat, family: nat)
    requires Enabled(w, LoginReads(c, u, hash, family)) && u in w.db.users && w.db.users[u].status == Active
    ensures var w' := Next(w, LoginReads(c, u, hash, family));
            && (exists a :: a in w'.minted && a.userId == u && Accepted(w'.db, a))
            && Enabled(w', LoginCreates(c))
            && ((forall t | t in w.db.tokens :: w.db.tokens[t].hash != hash) && w.db.nextId !in w.db.tokens ==>
                  var tokens := Next(w', LoginCreates(c)).db.tokens;
                  && w.db.nextId in tokens && tokens[w.db.nextId].userId == u && tokens[w.db.nextId].hash == hash
                  && tokens[w.db.nextId].family == family && tokens[w.db.nextId].expiresAt == w.clock + 604800000
                  && tokens[w.db.nextId].IsUsable(w.clock))
  {
    var w' := Next(w, LoginReads(c, u, hash, family));
    assert Accepted(w'.db, AccessToken(u, w.db.users[u].tokenVersion));
  }

  /**
    Whoever logs out with a known token, used or expired or not, is logged out: the call's only other step, taken whenever
    it is, leaves no token of the family unrevoked and changes no other.
   */
  lemma LogoutIsHeeded(w: World, c: Id, hash: nat, t: Id, w': World)
    requires Enabled(w, LogoutReads(c, hash, Some(t)))
    requires c in w'.calls && w'.calls[c] == Next(w, LogoutReads(c, hash, Some(t))).calls[c]
    ensures Enabled(w', LogoutRevokes(c))
    ensures var family, a, b := w.db.tokens[t].family, w'.db.tokens, Next(w', LogoutRevokes(c)).db.tokens;
            b.Keys == a.Keys && forall s | s in a :: if a[s].family == family then b[s].revokedAt != None else b[s] == a[s]
  {
  }

  // The three steps of a refresh that nobody disturbs.
  ghost function Refreshed(w: World, c: Id, hash: nat, t: Id, nextHash: nat): World
    requires Enabled(w, RefreshReads(c, hash, Some(t)))
    requires w.db.tokens[t].usedAt == None && w.db.tokens[t].revokedAt == None && w.clock < w.db.tokens[t].expiresAt
    requires w.db.tokens[t].userId in w.db.users && w.db.users[w.db.tokens[t].userId].status == Active
  {
    var w1 := Next(w, RefreshReads(c, hash, Some(t)));
    var w2 := Next(w1, RefreshReadsUser(c, nextHash));
    Next(w2, RefreshRotates(c, Some(t)))
  }

  /** A usable token of an active user is exchanged for another of the same family, with a valid access token. */
  lemma UsableTokenIsExchanged(w: World, c: Id, hash: nat, t: Id, nextHash: nat)
    requires Enabled(w, RefreshReads(c, hash, Some(t)))
    requires w.db.tokens[t].usedAt == None && w.db.tokens[t].revokedAt == None && w.clock < w.db.tokens[t].expiresAt
    requires w.db.tokens[t].userId in w.db.users && w.db.users[w.db.tokens[t].userId].status == Active
    requires w.db.nextId !in w.db.tokens && forall s | s in w.db.tokens :: w.db.tokens[s].hash != nextHash
    ensures var w', next, user := Refreshed(w, c, hash, t, nextHash), w.db.nextId, w.db.tokens[t].userId;
            && w'.db.tokens.Keys == w.db.tokens.Keys + {next}
            && (forall s | s in w.db.tokens && s != t :: w'.db.tokens[s] == w.db.tokens[s])
            && w'.db.tokens[t].usedAt == Some(w.clock) && w'.db.tokens[t].replacedBy == Some(next)
            && w'.db.tokens[next].hash == nextHash && w'.db.tokens[next].family == w.db.tokens[t].family
            && w'.db.tokens[next].userId == user && w'.db.tokens[next].IsUsable(w.clock)
            && (exists a :: a in w'.minted && a.userId == user && Accepted(w'.db, a))
  {
    var user := w.db.tokens[t].userId;
    assert Accepted(Refreshed(w, c, hash, t, nextHash).db, AccessToken(user, w.db.users[user].tokenVersion));
  }

  /** A rotation succeeds exactly for a known token that is neither expired nor revoked nor used. */
  lemma RotationSucceedsIff(db: Db, hash: nat, row: Option<Id>, next: RefreshToken, now: Time)
    requires Finds(db, hash, row) && hash != 0 && !HashTaken(db.tokens, next.hash) && db.nextId !in db.tokens
    ensures var r := Rotated(db, hash, row, next, now);
            && (r.1 == None <==> row.Some? && db.tokens[row.value].IsUsable(now))
            && (r.1 == None ==> r.0.tokens[row.value].usedAt == Some(now) && r.0.nextId == db.nextId + 1
                                && r.0.tokens[row.value].replacedBy == Some(db.nextId)
                                && r.0.tokens[db.nextId].family == db.tokens[row.value].family
                                && r.0.tokens[db.nextId].userId == db.tokens[row.value].userId)
  {
  }

  /** However many refreshes run with one token, at most one of them rotates it. */
  lemma AtMostOneRotation(r: Run, i: nat, j: nat, t: Id)
    requires IsRun(r) && RotatesAt(r, i, t) && RotatesAt(r, j, t)
    ensures i == j
  {
    hide IsRun;
    if i < j { RunIsLater(r, i + 1, j); }
    if j < i { RunIsLater(r, j + 1, i); }
  }

  /** One hash, one row: the plain token names the row that overlapping refreshes compete for. */
  lemma HashNamesRow(r: Run, i: nat, j: nat, s: Id, t: Id)
    requires IsRun(r) && i <= j < |r.worlds| && s in r.worlds[i].db.tokens && t in r.worlds[j].db.tokens
    requires r.worlds[i].db.tokens[s].hash == r.worlds[j].db.tokens[t].hash
    ensures s == t
  {
    hide IsRun;
    RunIsLater(r, i, j);
    RunKeeps(r, j);
  }

  ghost predicate FamilyEnded(db: Db, family: nat) {
    && (exists t :: t in db.tokens && db.tokens[t].family == family)
    && (forall t | t in db.tokens && db.tokens[t].family == family :: db.tokens[t].revokedAt.Some?)
  }

  // A pending revocation names the user of its family.
  ghost predicate OwnedBy(tokens: map<Id, RefreshToken>, family: nat, u: Id) {
    exists t :: t in tokens && tokens[t].family == family && tokens[t].userId == u
  }

  ghost predicate PendingOk(db: Db, calls: map<Id, Call>) {
    && (forall c | c in calls && calls[c].ReuseSeen? :: OwnedBy(db.tokens, calls[c].family, calls[c].userId))
    && (forall c | c in calls && calls[c].LoggingOut? :: exists u :: OwnedBy(db.tokens, calls[c].family, u))
  }

  lemma StillOwned(a: Db, b: Db, family: nat, u: Id)
    requires SessionsLater(a, b) && OwnedBy(a.tokens, family, u)
    ensures OwnedBy(b.tokens, family, u)
  {
    var t :| t in a.tokens && a.tokens[t].family == family && a.tokens[t].userId == u;
    assert t in b.tokens && b.tokens[t].family == family && b.tokens[t].userId == u;
  }

  // A call is either as it was, or has just read a token of the family it acts on.
  lemma PendingCalls(w: World, e: Event, c: Id)
    requires Enabled(w, e) && c in Next(w, e).calls
    ensures var s := Next(w, e).calls[c];
            s.ReuseSeen? || s.LoggingOut? ==>
              || (c in w.calls && w.calls[c] == s)
              || (exists t :: t in w.db.tokens && w.db.tokens[t].family == s.family
                              && (s.ReuseSeen? ==> w.db.tokens[t].userId == s.userId))
  {
    hide Perform, Rotated, HashTaken;
  }

  lemma StepKeepsPending(w: World, e: Event)
    requires Inv(w) && Enabled(w, e) && PendingOk(w.db, w.calls)
    ensures PendingOk(Next(w, e).db, Next(w, e).calls)
  {
    StepLater(w, e);
    hide Inv, SessionsLater, OwnedBy, Next, Enabled;
    var w' := Next(w, e);
    forall c | c in w'.calls && (w'.calls[c].ReuseSeen? || w'.calls[c].LoggingOut?)
      ensures w'.calls[c].ReuseSeen? ==> OwnedBy(w'.db.tokens, w'.calls[c].family, w'.calls[c].userId)
      ensures w'.calls[c].LoggingOut? ==> exists u :: OwnedBy(w'.db.tokens, w'.calls[c].family, u)
    {
      var s := w'.calls[c];
      PendingCalls(w, e, c);
      if c in w.calls && w.calls[c] == s {
        var u :| OwnedBy(w.db.tokens, s.family, u) && (s.ReuseSeen? ==> u == s.userId);
        StillOwned(w.db, w'.db, s.family, u);
      } else {
        var t :| t in w.db.tokens && w.db.tokens[t].family == s.family && (s.ReuseSeen? ==> w.db.tokens[t].userId == s.userId);
        TokenOwns(w.db.tokens, t);
        StillOwned(w.db, w'.db, s.family, w.db.tokens[t].userId);
      }
    }
  }

  lemma TokenOwns(tokens: map<Id, RefreshToken>, t: Id)
    requires t in tokens
    ensures OwnedBy(tokens, tokens[t].family, tokens[t].userId)
  {
  }

  lemma {:induction false} RunKeepsPending(r: Run, i: nat)
    requires IsRun(r) && i < |r.worlds|
    ensures PendingOk(r.worlds[i].db, r.worlds[i].calls)
  {
    hide Next, Enabled, Inv;
    if i > 0 {
      RunKeepsPending(r, i - 1);
      RunStep(r, i - 1);
      hide PendingOk, IsRun;
      StepKeepsPending(r.worlds[i - 1], r.events[i - 1]);
    }
  }

  // Step `i` of the run commits the answer to a reuse in a family of user `u`.
  predicate ReuseAt(r: Run, i: nat, u: Id, family: nat) {
    && i < |r.events| && i < |r.worlds|
    && match r.events[i]
       case RefreshRevokes(c) =>
         && c in r.worlds[i].calls && r.worlds[i].calls[c].ReuseSeen?
         && r.worlds[i].calls[c].userId == u && r.worlds[i].calls[c].family == family
       case RefreshRotates(c, row) =>
         && c in r.worlds[i].calls && r.worlds[i].calls[c].Rotating? && row.Some? && row.value in r.worlds[i].db.tokens
         && r.worlds[i].calls[c].hash != 0
         && var t := r.worlds[i].db.tokens[row.value];
         && t.userId == u && t.family == family
         && t.usedAt.Some? && t.revokedAt.None? && !t.IsExpired(r.worlds[i].calls[c].now)
       case _ => false
  }

  // Step `i` of the run commits a logout of the family.
  predicate LogoutAt(r: Run, i: nat, family: nat) {
    && i < |r.events| && i < |r.worlds| && r.events[i].LogoutRevokes?
    && r.events[i].call in r.worlds[i].calls && r.worlds[i].calls[r.events[i].call].LoggingOut?
    && r.worlds[i].calls[r.events[i].call].family == family
  }

  // All tokens of the user's family are revoked, and the user's access tokens with them.
  lemma RevocationEnds(db: Db, u: Id, family: nat, now: Time)
    requires OwnedBy(db.tokens, family, u) && Uniform(db.tokens) && u in db.users
    ensures var r := RevokeFamilyAndIncrement(db, u, family, now);
            && r.Success? && FamilyEnded(r.value, family)
            && r.value.users[u].tokenVersion == db.users[u].tokenVersion + 1
  {
    var db' := RevokeFamilyAndIncrement(db, u, family, now).value;
    var t :| t in db.tokens && db.tokens[t].family == family && db.tokens[t].userId == u;
    assert t in db'.tokens && db'.tokens[t].family == family;
  }

  lemma LogoutEnds(db: Db, u: Id, family: nat, now: Time)
    requires OwnedBy(db.tokens, family, u)
    ensures FamilyEnded(FamilyRevoked(db, family, now), family)
  {
    var db' := FamilyRevoked(db, family, now);
    var t :| t in db.tokens && db.tokens[t].family == family && db.tokens[t].userId == u;
    assert t in db'.tokens && db'.tokens[t].family == family;
  }

  lemma OwnerExists(w: World, family: nat, u: Id)
    requires Inv(w) && OwnedBy(w.db.tokens, family, u)
    ensures u in w.db.users && Uniform(w.db.tokens)
  {
  }

  lemma ReuseStep(r: Run, i: nat, u: Id, family: nat)
    requires IsRun(r) && ReuseAt(r, i, u, family)
    ensures i + 1 < |r.worlds| && FamilyEnded(r.worlds[i + 1].db, family)
    ensures u in r.worlds[i].db.users && u in r.worlds[i + 1].db.users
    ensures r.worlds[i].db.users[u].tokenVersion < r.worlds[i + 1].db.users[u].tokenVersion
  {
    hide IsRun;
    RunStep(r, i);
    RunKeepsPending(r, i);
    hide Inv, Perform, FamilyEnded;
    var w := r.worlds[i];
    if r.events[i].RefreshRotates? { TokenOwns(w.db.tokens, r.events[i].row.value); }
    assert OwnedBy(w.db.tokens, family, u);
    OwnerExists(w, family, u);
    hide OwnedBy, Uniform;
    RevocationEnds(w.db, u, family, w.calls[r.events[i].call].now);
  }

  lemma EndedForGood(r: Run, i: nat, j: nat, family: nat)
    requires IsRun(r) && i <= j < |r.worlds| && FamilyEnded(r.worlds[i].db, family)
    ensures FamilyEnded(r.worlds[j].db, family)
  {
    hide IsRun;
    RunIsLater(r, i, j);
    RunKeeps(r, j);
    var t :| t in r.worlds[i].db.tokens && r.worlds[i].db.tokens[t].family == family;
    assert t in r.worlds[j].db.tokens && r.worlds[j].db.tokens[t].revokedAt.Some?;
  }

  /** A committed reuse ends the family for good: all its tokens stay revoked and none is ever rotated again. */
  lemma ReuseEndsFamily(r: Run, i: nat, j: nat, u: Id, family: nat, t: Id)
    requires IsRun(r) && ReuseAt(r, i, u, family) && i < j < |r.worlds|
    requires t in r.worlds[j].db.tokens && r.worlds[j].db.tokens[t].family == family
    ensures r.worlds[j].db.tokens[t].revokedAt.Some? && !RotatesAt(r, j, t)
  {
    hide IsRun;
    ReuseStep(r, i, u, family);
    EndedForGood(r, i + 1, j, family);
    RevokedNeverRotates(r, j, t);
  }

  lemma LogoutStep(r: Run, i: nat, family: nat)
    requires IsRun(r) && LogoutAt(r, i, family)
    ensures i + 1 < |r.worlds| && FamilyEnded(r.worlds[i + 1].db, family)
  {
    hide IsRun, Inv, FamilyEnded, FamilyRevoked, Perform, Rotated, CreateToken, RevokeFamilyAndIncrement, OwnedBy;
    RunStep(r, i);
    RunKeepsPending(r, i);
    var u :| OwnedBy(r.worlds[i].db.tokens, family, u);
    LogoutEnds(r.worlds[i].db, u, family, r.worlds[i].clock);
  }

  /** So does a logout. */
  lemma LogoutEndsFamily(r: Run, i: nat, j: nat, family: nat, t: Id)
    requires IsRun(r) && LogoutAt(r, i, family) && i < j < |r.worlds|
    requires t in r.worlds[j].db.tokens && r.worlds[j].db.tokens[t].family == family
    ensures r.worlds[j].db.tokens[t].revokedAt.Some? && !RotatesAt(r, j, t)
  {
    hide IsRun;
    LogoutStep(r, i, family);
    EndedForGood(r, i + 1, j, family);
    RevokedNeverRotates(r, j, t);
  }

  lemma RevokedNeverRotates(r: Run, i: nat, t: Id)
    requires IsRun(r) && i < |r.worlds| && t in r.worlds[i].db.tokens && r.worlds[i].db.tokens[t].revokedAt.Some?
    ensures !RotatesAt(r, i, t)
  {
    hide IsRun;
    if RotatesAt(r, i, t) {
      RunStep(r, i);
      hide Inv, Perform;
    }
  }

  // ---------------------------------------------------------------- access tokens

  // Step `i` of the run suspends the user.
  predicate SuspendsAt(r: Run, i: nat, u: Id) {
    && i < |r.events| && i < |r.worlds| && r.events[i].Other? && r.events[i].tx.Suspend? && r.events[i].tx.userId == u
    && Selected(r.worlds[i].db, r.events[i].tx, r.worlds[i].clock)
    && Perform(r.worlds[i].db, r.events[i].tx, r.worlds[i].clock).Success?
  }

  lemma SuspensionStep(r: Run, i: nat, u: Id)
    requires IsRun(r) && SuspendsAt(r, i, u)
    ensures i + 1 < |r.worlds| && u in r.worlds[i].db.users && u in r.worlds[i + 1].db.users
    ensures r.worlds[i].db.users[u].tokenVersion < r.worlds[i + 1].db.users[u].tokenVersion
    ensures !r.worlds[i + 1].db.users[u].IsActive()
  {
    hide IsRun, Perform;
    RunStep(r, i);
    hide Inv;
    SuspensionOnSessions(r.worlds[i].db, r.events[i].tx, r.worlds[i].clock);
  }

  lemma SuspensionRevokes(r: Run, i: nat, u: Id, s: Id)
    requires IsRun(r) && SuspendsAt(r, i, u) && s in r.worlds[i].db.tokens && r.worlds[i].db.tokens[s].userId == u
    ensures i + 1 < |r.worlds| && FamilyEnded(r.worlds[i + 1].db, r.worlds[i].db.tokens[s].family)
  {
    hide IsRun, Perform;
    RunStep(r, i);
    RunIsLater(r, i, i + 1);
    RunKeeps(r, i + 1);
    SuspensionOnSessions(r.worlds[i].db, r.events[i].tx, r.worlds[i].clock);
    assert s in r.worlds[i + 1].db.tokens && r.worlds[i + 1].db.tokens[s].revokedAt.Some?;
  }

  // ---------------------------------------------------------------- what a suspension ends

  // Step `b` of the run commits a login of user `u`: it stores the first token of a new family.
  predicate StoresAt(r: Run, b: nat, u: Id, family: nat) {
    && b < |r.events| && b < |r.worlds| && r.events[b].LoginCreates?
    && r.events[b].call in r.worlds[b].calls && r.worlds[b].calls[r.events[b].call].LoggingIn?
    && r.worlds[b].calls[r.events[b].call].next.userId == u && r.worlds[b].calls[r.events[b].call].next.family == family
    && CreateToken(r.worlds[b].db, r.worlds[b].calls[r.events[b].call].next).Success?
  }

  // Step `a` of the run reads the row of user `u`, who is active, for the login that call `c` is to store.
  predicate ReadsAt(r: Run, a: nat, c: Id, u: Id, family: nat) {
    && a < |r.events| && a < |r.worlds| && r.events[a].LoginReads?
    && r.events[a].call == c && r.events[a].user == u && r.events[a].family == family
    && u in r.worlds[a].db.users && r.worlds[a].db.users[u].IsActive()
  }

  predicate ResumesAt(r: Run, k: nat, u: Id) {
    k < |r.events| && r.events[k].Other? && r.events[k].tx.Resume? && r.events[k].tx.userId == u
  }

  lemma StoreStep(r: Run, b: nat, u: Id, family: nat)
    requires IsRun(r) && StoresAt(r, b, u, family)
    ensures b + 1 < |r.worlds|
    ensures forall t | t in r.worlds[b].db.tokens :: r.worlds[b].db.tokens[t].family != family
    ensures var t, tokens := r.worlds[b].db.nextId, r.worlds[b + 1].db.tokens;
            && t in tokens && tokens[t].family == family && tokens[t].userId == u
            && tokens[t].usedAt.None? && tokens[t].revokedAt.None?
  {
    hide IsRun;
    RunStep(r, b);
    hide TokensOk, MintedOk, HashTaken;
  }

  // What a login is about to store it has read in an earlier step.
  lemma CallWasBegun(w: World, e: Event, c: Id)
    requires Enabled(w, e) && c in Next(w, e).calls && Next(w, e).calls[c].LoggingIn?
    ensures var next := Next(w, e).calls[c].next;
            || (c in w.calls && w.calls[c].LoggingIn? && w.calls[c].next == next)
            || (e == LoginReads(c, next.userId, next.hash, next.family) && next.userId in w.db.users
                && w.db.users[next.userId].IsActive())
  {
    hide Perform, Rotated, HashTaken;
  }

  lemma {:induction false} LoginWasRead(r: Run, b: nat, c: Id) returns (a: nat)
    requires IsRun(r) && b < |r.worlds| && c in r.worlds[b].calls && r.worlds[b].calls[c].LoggingIn?
    ensures a < b && ReadsAt(r, a, c, r.worlds[b].calls[c].next.userId, r.worlds[b].calls[c].next.family)
  {
    if b == 0 {
      assert false;
    } else {
      hide IsRun;
      RunStep(r, b - 1);
      hide Next, Enabled, Inv;
      var w := r.worlds[b - 1];
      CallWasBegun(w, r.events[b - 1], c);
      if c in w.calls && w.calls[c].LoggingIn? && w.calls[c].next == r.worlds[b].calls[c].next {
        a := LoginWasRead(r, b - 1, c);
      } else {
        a := b - 1;
      }
    }
  }

  // A new token either begins the family of a login or joins the family of the token it replaces.
  lemma TokenIsNew(w: World, e: Event, t: Id)
    requires Enabled(w, e) && t in Next(w, e).db.tokens && t !in w.db.tokens
    ensures var token := Next(w, e).db.tokens[t];
            || (e.LoginCreates? && CreateToken(w.db, w.calls[e.call].next).Success? && token == w.calls[e.call].next)
            || (exists s :: s in w.db.tokens && w.db.tokens[s].family == token.family && w.db.tokens[s].userId == token.userId)
  {
    hide Perform, Rotated, CreateToken;
    if e.Other? {
      OtherKeepsTokens(w, e);
    } else if e.RefreshRotates? {
      RotatedTokenJoins(w.db, w.calls[e.call].hash, e.row, w.calls[e.call].next, w.calls[e.call].now, t);
    } else if e.LoginCreates? {
      CreatedIsNext(w.db, w.calls[e.call].next, t);
    }
  }

  lemma RotatedTokenJoins(db: Db, hash: nat, row: Option<Id>, next: RefreshToken, now: Time, t: Id)
    requires Finds(db, hash, row) && t in Rotated(db, hash, row, next, now).0.tokens && t !in db.tokens
    ensures var token := Rotated(db, hash, row, next, now).0.tokens[t];
            exists s :: s in db.tokens && db.tokens[s].family == token.family && db.tokens[s].userId == token.userId
  {
    hide HashTaken;
    assert row.Some? && row.value in db.tokens;
  }

  lemma CreatedIsNext(db: Db, next: RefreshToken, t: Id)
    requires t in Or(CreateToken(db, next), db).tokens && t !in db.tokens
    ensures CreateToken(db, next).Success? && Or(CreateToken(db, next), db).tokens[t] == next
  {
    hide HashTaken;
  }

  lemma OtherKeepsTokens(w: World, e: Event)
    requires Enabled(w, e) && e.Other?
    ensures Next(w, e).db.tokens.Keys == w.db.tokens.Keys
  {
    hide Perform;
    if Perform(w.db, e.tx, w.clock).Success? {
      if e.tx.Suspend? || e.tx.Resume? {
        SuspensionOnSessions(w.db, e.tx, w.clock);
      } else {
        PerformSparesSessions(w.db, e.tx, w.clock);
      }
    }
  }

  lemma RunLengths(r: Run)
    requires IsRun(r)
    ensures |r.worlds| == |r.events| + 1 && r.worlds[0].db.tokens == map[]
  {
  }

  /** Every refresh token of every state belongs to a family that a login of its user has stored before. */
  lemma {:induction false} FamilyOrigin(r: Run, j: nat, t: Id) returns (b: nat)
    requires IsRun(r) && j < |r.worlds| && t in r.worlds[j].db.tokens
    ensures b < j && StoresAt(r, b, r.worlds[j].db.tokens[t].userId, r.worlds[j].db.tokens[t].family)
  {
    hide IsRun, StoresAt, Next, Enabled, Inv, SessionsLater;
    RunLengths(r);
    if j > 0 {
      RunStep(r, j - 1);
      RunIsLater(r, j - 1, j);
      var w, token := r.worlds[j - 1], r.worlds[j].db.tokens[t];
      if t in w.db.tokens {
        StoredStays(w.db, r.worlds[j].db, t);
        b := FamilyOrigin(r, j - 1, t);
      } else {
        TokenIsNew(w, r.events[j - 1], t);
        if s :| s in w.db.tokens && w.db.tokens[s].family == token.family && w.db.tokens[s].userId == token.userId {
          b := FamilyOrigin(r, j - 1, s);
        } else {
          b := j - 1;
          LoginStores(r, b);
        }
      }
    }
  }

  lemma LoginStores(r: Run, b: nat)
    requires b < |r.events| && b < |r.worlds| && Enabled(r.worlds[b], r.events[b]) && r.events[b].LoginCreates?
    requires CreateToken(r.worlds[b].db, r.worlds[b].calls[r.events[b].call].next).Success?
    ensures var next := r.worlds[b].calls[r.events[b].call].next; StoresAt(r, b, next.userId, next.family)
  {
  }

  /**
    Which families a suspension ends: of the logins of the user that ever commit, exactly those that committed before
    it. A family stored before is revoked from then on for good; a family stored later begins unrevoked.
   */
  lemma SuspensionEndsFamilyIff(r: Run, i: nat, b: nat, u: Id, family: nat)
    requires IsRun(r) && SuspendsAt(r, i, u) && StoresAt(r, b, u, family)
    ensures i + 1 < |r.worlds| && b + 1 < |r.worlds|
    ensures FamilyEnded(r.worlds[i + 1].db, family) <==> b < i
    ensures b < i ==> forall j, t | i < j < |r.worlds| && t in r.worlds[j].db.tokens && r.worlds[j].db.tokens[t].family == family ::
                        r.worlds[j].db.tokens[t].revokedAt.Some? && !RotatesAt(r, j, t)
    ensures b > i ==> var t, tokens := r.worlds[b].db.nextId, r.worlds[b + 1].db.tokens;
                      t in tokens && tokens[t].family == family && tokens[t].usedAt.None? && tokens[t].revokedAt.None?
  {
    hide IsRun, Perform, CreateToken, RotatesAt, TokenLater, Selected;
    StoreStep(r, b, u, family);
    SuspensionStep(r, i, u);
    assert b != i;
    if b < i {
      var s := r.worlds[b].db.nextId;
      RunIsLater(r, b + 1, i);
      StoredStays(r.worlds[b + 1].db, r.worlds[i].db, s);
      SuspensionRevokes(r, i, u, s);
      forall j, t | i < j < |r.worlds| && t in r.worlds[j].db.tokens && r.worlds[j].db.tokens[t].family == family
        ensures r.worlds[j].db.tokens[t].revokedAt.Some? && !RotatesAt(r, j, t)
      {
        SuspensionEndsFamilies(r, i, j, u, s, t);
      }
    } else {
      RunIsLater(r, i + 1, b);
      NoTokenYet(r.worlds[i + 1].db, r.worlds[b].db, family);
    }
  }

  lemma StoredStays(a: Db, b: Db, t: Id)
    requires SessionsLater(a, b) && t in a.tokens
    ensures t in b.tokens && b.tokens[t].family == a.tokens[t].family && b.tokens[t].userId == a.tokens[t].userId
  {
  }

  lemma NoTokenYet(a: Db, b: Db, family: nat)
    requires SessionsLater(a, b) && forall t | t in b.tokens :: b.tokens[t].family != family
    ensures forall t | t in a.tokens :: a.tokens[t].family != family
  {
    forall t | t in a.tokens
      ensures a.tokens[t].family != family
    {
      StoredStays(a, b, t);
    }
  }

  /** Every family the user has at that moment, whoever stored it, is ended for good. */
  lemma SuspensionEndsFamilies(r: Run, i: nat, j: nat, u: Id, s: Id, t: Id)
    requires IsRun(r) && SuspendsAt(r, i, u) && i < j < |r.worlds|
    requires s in r.worlds[i].db.tokens && r.worlds[i].db.tokens[s].userId == u
    requires t in r.worlds[j].db.tokens && r.worlds[j].db.tokens[t].family == r.worlds[i].db.tokens[s].family
    ensures r.worlds[j].db.tokens[t].revokedAt.Some? && !RotatesAt(r, j, t)
  {
    hide IsRun;
    SuspensionRevokes(r, i, u, s);
    EndedForGood(r, i + 1, j, r.worlds[i].db.tokens[s].family);
    RevokedNeverRotates(r, j, t);
  }

  // Only a resumption makes a suspended user active.
  lemma ActivationIsResumption(w: World, e: Event, u: Id)
    requires Enabled(w, e) && u in w.db.users && u in Next(w, e).db.users
    requires !w.db.users[u].IsActive() && Next(w, e).db.users[u].IsActive()
    ensures e.Other? && e.tx.Resume? && e.tx.userId == u
  {
    hide Perform, Rotated, HashTaken;
    if e.Other? {
      if Perform(w.db, e.tx, w.clock).Success? {
        if e.tx.Suspend? || e.tx.Resume? {
          SuspensionOnSessions(w.db, e.tx, w.clock);
        } else {
          PerformSparesSessions(w.db, e.tx, w.clock);
        }
      }
    } else if e.RefreshRotates? {
      RotatedKeepsStatus(w.db, w.calls[e.call].hash, e.row, w.calls[e.call].next, w.calls[e.call].now, u);
    }
  }

  lemma RotatedKeepsStatus(db: Db, hash: nat, row: Option<Id>, next: RefreshToken, now: Time, u: Id)
    requires Finds(db, hash, row) && u in db.users
    ensures var db' := Rotated(db, hash, row, next, now).0;
            u in db'.users && db'.users[u].status == db.users[u].status
  {
    hide HashTaken;
  }

  lemma EventResumes(r: Run, k: nat, u: Id)
    requires k < |r.events| && r.events[k].Other? && r.events[k].tx.Resume? && r.events[k].tx.userId == u
    ensures ResumesAt(r, k, u)
  {
  }

  lemma UserStays(r: Run, i: nat, j: nat, u: Id)
    requires IsRun(r) && i <= j < |r.worlds| && u in r.worlds[i].db.users
    ensures u in r.worlds[j].db.users
  {
    hide IsRun, TokenLater;
    RunIsLater(r, i, j);
  }

  lemma {:induction false} ResumedBetween(r: Run, i: nat, a: nat, u: Id) returns (k: nat)
    requires IsRun(r) && i < a < |r.worlds| && u in r.worlds[i].db.users && u in r.worlds[a].db.users
    requires !r.worlds[i].db.users[u].IsActive() && r.worlds[a].db.users[u].IsActive()
    ensures i <= k < a && ResumesAt(r, k, u)
  {
    hide IsRun, Next, Enabled, Inv, ResumesAt;
    RunLengths(r);
    RunStep(r, a - 1);
    UserStays(r, i, a - 1, u);
    if r.worlds[a - 1].db.users[u].IsActive() {
      k := ResumedBetween(r, i, a - 1, u);
    } else {
      k := a - 1;
      ActivationIsResumption(r.worlds[k], r.events[k], u);
      EventResumes(r, k, u);
    }
  }

  /**
    What a suspension does not end: an unrevoked refresh token of the user in a later state belongs to a family that a
    login stored after the suspension, and that login read the user's row before the suspension or after a resumption.
   */
  lemma UnrevokedAfterSuspension(r: Run, i: nat, j: nat, u: Id, t: Id) returns (a: nat, b: nat)
    requires IsRun(r) && SuspendsAt(r, i, u) && i < j < |r.worlds|
    requires t in r.worlds[j].db.tokens && r.worlds[j].db.tokens[t].userId == u && r.worlds[j].db.tokens[t].revokedAt.None?
    ensures i < b < j && a < b && StoresAt(r, b, u, r.worlds[j].db.tokens[t].family)
    ensures ReadsAt(r, a, r.events[b].call, u, r.worlds[j].db.tokens[t].family)
    ensures a < i || exists k :: i < k < a && ResumesAt(r, k, u)
  {
    hide IsRun, Perform, CreateToken, RotatesAt, FamilyEnded, Selected;
    b := FamilyOrigin(r, j, t);
    SuspensionEndsFamilyIff(r, i, b, u, r.worlds[j].db.tokens[t].family);
    SuspensionStep(r, i, u);
    a := LoginWasRead(r, b, r.events[b].call);
    if a > i {
      var k := ResumedBetween(r, i + 1, a, u);
    }
  }

  /** No access token is ever minted ahead of its user's version, and versions never fall. */
  lemma MintedVersions(r: Run, i: nat, j: nat, access: AccessToken)
    requires IsRun(r) && i <= j < |r.worlds| && access in r.worlds[i].minted
    ensures access.userId in r.worlds[i].db.users && access.userId in r.worlds[j].db.users
    ensures access.version <= r.worlds[i].db.users[access.userId].tokenVersion <= r.worlds[j].db.users[access.userId].tokenVersion
  {
    hide IsRun;
    RunKeeps(r, i);
    hide TokensOk, CallsOk;
    RunIsLater(r, i, j);
  }

  /**
    Revoked access stays revoked: an access token minted from a user row read before a suspension or a detected
    reuse is refused in every later state, also after the user was resumed.
   */
  lemma RevokedAccessStaysRevoked(r: Run, i: nat, j: nat, access: AccessToken, family: nat)
    requires IsRun(r) && i < j < |r.worlds| && access in r.worlds[i].minted
    requires SuspendsAt(r, i, access.userId) || ReuseAt(r, i, access.userId, family)
    ensures !Accepted(r.worlds[j].db, access)
  {
    hide IsRun;
    if SuspendsAt(r, i, access.userId) {
      SuspensionStep(r, i, access.userId);
    } else {
      ReuseStep(r, i, access.userId, family);
    }
    MintedVersions(r, i, i, access);
    RunIsLater(r, i + 1, j);
  }

  /**
    A concrete case. A login reads the user's row, the user is suspended, the login stores its token; after the user is
    resumed that token is rotated, and its successor is usable.
   */
  lemma LoginMayOutliveSuspension() returns (r: Run)
    ensures IsRun(r) && |r.worlds| == 8 && RotatesAt(r, 6, 2)
    ensures r.events == [LoginReads(5, 1, 77, 88), Other(Suspend(9, 1, [], "reason", "request")), LoginCreates(5),
                         Other(Resume(9, 1, "reason", "request")), RefreshReads(6, 77, Some(2)), RefreshReadsUser(6, 78),
                         RefreshRotates(6, Some(2))]
    ensures 3 in r.worlds[7].db.tokens && r.worlds[7].db.tokens[3].userId == 1 && r.worlds[7].db.tokens[3].IsUsable(1)
  {
    RacingSteps();
    RacingEnds();
    hide IsStep, RacingWorld, Init, RefreshToken.IsUsable;
    r := Run([RacingWorld(0), RacingWorld(1), RacingWorld(2), RacingWorld(3), RacingWorld(4), RacingWorld(5),
              RacingWorld(6), RacingWorld(7)],
             [LoginReads(5, 1, 77, 88), Other(Suspend(9, 1, [], "reason", "request")), LoginCreates(5),
              Other(Resume(9, 1, "reason", "request")), RefreshReads(6, 77, Some(2)), RefreshReadsUser(6, 78),
              RefreshRotates(6, Some(2))]);
  }

  // The tables of the case: user 1 before (0), during (1) and after (2) the suspension.
  function RacingDb(phase: nat, tokens: map<Id, RefreshToken>, nextId: Id): Db {
    var suspension := AuditEntry(9, OnUser(1), UserSuspend, OfUser(Active), OfUser(Suspended), "reason", "request", 1);
    var resumption := AuditEntry(9, OnUser(1), UserResume, OfUser(Suspended), OfUser(Active), "reason", "request", 1);
    Db(nextId, map[1 := User(RoleUser, if phase == 1 then Suspended else Active, if phase == 0 then 0 else 1,
                             if phase == 0 then 0 else 1)],
       tokens, map[], map[], map[], map[], map[],
       if phase == 0 then [] else if phase == 1 then [suspension] else [suspension, resumption])
  }

  function RacingWorld(k: nat): World {
    var token, next, first := IssuedToken(1, 77, 88, 1), IssuedToken(1, 78, 88, 1), AccessToken(1, 0);
    var login, resumed := map[5 := LoggingIn(token)], RacingDb(2, map[2 := token], 3);
    if k == 0 then World(RacingDb(0, map[], 2), 1, map[], {}, {})
    else if k == 1 then World(RacingDb(0, map[], 2), 1, login, {first}, {88})
    else if k == 2 then World(RacingDb(1, map[], 2), 1, login, {first}, {88})
    else if k == 3 then World(RacingDb(1, map[2 := token], 3), 1, map[], {first}, {88})
    else if k == 4 then World(resumed, 1, map[], {first}, {88})
    else if k == 5 then World(resumed, 1, map[6 := Refreshing(77, 1, 88, 1)], {first}, {88})
    else if k == 6 then World(resumed, 1, map[6 := Rotating(77, next, 1)], {first, AccessToken(1, 1)}, {88})
    else World(RacingDb(2, map[2 := token.MarkUsed(3, 1), 3 := next], 4), 1, map[], {first, AccessToken(1, 1)}, {88})
  }

  lemma RacingSteps()
    ensures IsStep(RacingWorld(0), LoginReads(5, 1, 77, 88), RacingWorld(1))
    ensures IsStep(RacingWorld(1), Other(Suspend(9, 1, [], "reason", "request")), RacingWorld(2))
    ensures IsStep(RacingWorld(2), LoginCreates(5), RacingWorld(3))
    ensures IsStep(RacingWorld(3), Other(Resume(9, 1, "reason", "request")), RacingWorld(4))
    ensures IsStep(RacingWorld(4), RefreshReads(6, 77, Some(2)), RacingWorld(5))
    ensures IsStep(RacingWorld(5), RefreshReadsUser(6, 78), RacingWorld(6))
    ensures IsStep(RacingWorld(6), RefreshRotates(6, Some(2)), RacingWorld(7))
  {
    RacingLogin();
    RacingSuspension();
    RacingResumption();
    RacingRefresh();
    RacingRotation();
    hide IsStep, RacingWorld;
  }

  lemma RacingLogin()
    ensures IsStep(RacingWorld(0), LoginReads(5, 1, 77, 88), RacingWorld(1))
    ensures IsStep(RacingWorld(2), LoginCreates(5), RacingWorld(3))
  {
    hide Perform, Rotated;
    assert RacingWorld(2).calls - {5} == map[];
  }

  lemma RacingSuspension()
    ensures IsStep(RacingWorld(1), Other(Suspend(9, 1, [], "reason", "request")), RacingWorld(2))
  {
    hide Rotated, CreateToken, Perform, SuspendAccount;
    AccountTx(RacingWorld(1).db, Suspend(9, 1, [], "reason", "request"), 1);
    AccountSuspended();
  }

  lemma AccountSuspended()
    ensures SuspendAccount(RacingDb(0, map[], 2), 9, 1, "reason", "request", 1) == Success(RacingDb(1, map[], 2))
  {
    var db := RacingDb(0, map[], 2);
    assert RevokeTokensOfUser(map[], 1, 1) == map[];
    assert db.users[1 := User(RoleUser, Suspended, 1, 1)] == RacingDb(1, map[], 2).users;
    assert db.audit + RacingDb(1, map[], 2).audit == RacingDb(1, map[], 2).audit;
  }

  lemma RacingResumption()
    ensures IsStep(RacingWorld(3), Other(Resume(9, 1, "reason", "request")), RacingWorld(4))
  {
    hide Rotated, CreateToken;
  }

  lemma RacingRefresh()
    ensures IsStep(RacingWorld(4), RefreshReads(6, 77, Some(2)), RacingWorld(5))
    ensures IsStep(RacingWorld(5), RefreshReadsUser(6, 78), RacingWorld(6))
  {
    hide Perform, Rotated, CreateToken;
  }

  lemma RacingRotation()
    ensures IsStep(RacingWorld(6), RefreshRotates(6, Some(2)), RacingWorld(7))
  {
    hide Perform;
    assert RacingWorld(6).calls - {6} == map[];
    assert !HashTaken(RacingWorld(6).db.tokens, 78);
  }

  lemma RacingEnds()
    ensures Init(RacingWorld(0))
    ensures var before, after := RacingWorld(6).db.tokens, RacingWorld(7).db.tokens;
            && 2 in before && before[2].usedAt.None? && 2 in after && after[2].usedAt.Some?
            && 3 in after && after[3].userId == 1 && after[3].IsUsable(1)
  {
  }
}
