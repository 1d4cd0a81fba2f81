/**
  What administrators' transactions promise in terms of the rows alone: when they are refused, with which error, and
  what a committed one leaves of users, refresh tokens, videos and the audit log.
 */
module Moderation {
  import opened Common
  import opened VideoEntity
  import opened UserEntity
  import opened Database
  import opened Coherence
  import opened Outcomes

  // What every audit entry needs.
  predicate Attributable(adminId: Id, target: Id, reason: string, requestId: string, now: Time) {
    adminId != 0 && target != 0 && now != 0 && 1 <= |reason| <= 500 && requestId != ""
  }

  // ---------------------------------------------------------------- one video

  // The video's publication changes, and the log says who changed it and why.
  ghost predicate Moderated(db: Db, db': Db, v: Id, from: PublishStatus, to: PublishStatus, entry: AuditEntry, now: Time)
    requires v in db.videos
  {
    && db' == db.(videos := db'.videos, audit := db.audit + [entry])
    && OnlyRow(db.videos, db'.videos, v) && db.videos[v].publish == from
    && db'.videos[v] == db.videos[v].(publish := to, updatedAt := now)
  }

  /** Exactly a living published video can be hidden. */
  lemma HideOutcome(db: Db, adminId: Id, v: Id, reason: string, requestId: string, clock: Time, now: Time)
    requires DbOk(db, clock)
    ensures var r := HideVideo(db, adminId, v, reason, requestId, now);
            if adminId == 0 || v == 0 || now == 0 then r == Failure(InvalidInput)
            else if !Living(db, v) then r == Failure(VideoNotFound)
            else if db.videos[v].publish != Published then r == Failure(VideoStateConflict)
            else if !Attributable(adminId, v, reason, requestId, now) then r == Failure(InvalidInput)
            else r.Success? && Moderated(db, r.value, v, Published, Hidden,
                                         AuditEntry(adminId, OnVideo(v), VideoHide, OfVideo(Published), OfVideo(Hidden),
                                                    reason, requestId, now), now)
  {
    hide DbOk;
    if v in db.videos { VideoFacts(db, clock, v); }
  }

  /** Exactly a living hidden video of an active user can be restored. */
  lemma RestoreOutcome(db: Db, adminId: Id, v: Id, reason: string, requestId: string, clock: Time, now: Time)
    requires DbOk(db, clock)
    ensures Living(db, v) ==> db.videos[v].userId in db.users
    ensures var r := RestoreVideo(db, adminId, v, reason, requestId, now);
            if adminId == 0 || v == 0 || now == 0 then r == Failure(InvalidInput)
            else if !Living(db, v) then r == Failure(VideoNotFound)
            else if db.videos[v].publish != Hidden then r == Failure(VideoStateConflict)
            else if db.users[db.videos[v].userId].status != Active then r == Failure(Error.UserSuspended)
            else if !Attributable(adminId, v, reason, requestId, now) then r == Failure(InvalidInput)
            else r.Success? && Moderated(db, r.value, v, Hidden, Published,
                                         AuditEntry(adminId, OnVideo(v), VideoRestore, OfVideo(Hidden), OfVideo(Published),
                                                    reason, requestId, now), now)
  {
    hide DbOk;
    if v in db.videos { VideoFacts(db, clock, v); }
  }

  // ---------------------------------------------------------------- users

  // The entry for one of the videos hidden with their owner.
  function HidingEntry(adminId: Id, v: Id, reason: string, requestId: string, now: Time): AuditEntry {
    AuditEntry(adminId, OnVideo(v), VideoHideByUserSuspension, OfVideo(Published), OfVideo(Hidden), reason, requestId, now)
  }

  // The log goes on with an entry for each of the videos, in this order.
  ghost predicate LogsHiding(a: seq<AuditEntry>, b: seq<AuditEntry>, adminId: Id, rows: seq<Id>, reason: string,
                             requestId: string, now: Time)
  {
    && |b| == |a| + |rows| && b[..|a|] == a
    && forall k | 0 <= k < |rows| :: b[|a| + k] == HidingEntry(adminId, rows[k], reason, requestId, now)
  }

  // The rows are hidden; nothing else changes in the table.
  ghost predicate HidesRows(a: map<Id, Video>, b: map<Id, Video>, rows: seq<Id>, now: Time) {
    && b.Keys == a.Keys
    && forall v | v in a :: b[v] == if v in rows then a[v].(publish := Hidden, updatedAt := now) else a[v]
  }

  lemma HidesOne(db: Db, adminId: Id, v: Id, reason: string, requestId: string, now: Time)
    requires v in db.videos && db.videos[v].CanBeViewedPublicly() && Attributable(adminId, v, reason, requestId, now)
    ensures HideAudited(db, adminId, v, VideoHideByUserSuspension, reason, requestId, now)
            == Success(db.(videos := db.videos[v := db.videos[v].(publish := Hidden, updatedAt := now)],
                           audit := db.audit + [HidingEntry(adminId, v, reason, requestId, now)]))
  {
  }

  lemma {:induction false} HidesAll(db: Db, adminId: Id, rows: seq<Id>, reason: string, requestId: string, now: Time)
    requires forall i | 0 <= i < |rows| :: rows[i] in db.videos
    requires forall i | 0 <= i < |rows| ::
               db.videos[rows[i]].CanBeViewedPublicly() && Attributable(adminId, rows[i], reason, requestId, now)
    requires forall i, j | 0 <= i < j < |rows| :: rows[i] != rows[j]
    ensures var r := HideVideos(db, adminId, rows, reason, requestId, now);
            && r.Success? && r.value == db.(videos := r.value.videos, audit := r.value.audit)
            && HidesRows(db.videos, r.value.videos, rows, now)
            && LogsHiding(db.audit, r.value.audit, adminId, rows, reason, requestId, now)
  {
    hide HideAudited, Attributable, HidesRows, LogsHiding, HidingEntry;
    if rows == [] {
      HidesNone(db, adminId, reason, requestId, now);
    } else {
      var init, last := rows[..|rows| - 1], rows[|rows| - 1];
      HidesAll(db, adminId, init, reason, requestId, now);
      var db1 := HideVideos(db, adminId, init, reason, requestId, now).value;
      HiddenElsewhere(db.videos, db1.videos, init, last, now);
      HidesOne(db1, adminId, last, reason, requestId, now);
      assert rows == init + [last];
      LogsMore(db.audit, db1.audit, adminId, init, last, reason, requestId, now);
    }
  }

  lemma HidesNone(db: Db, adminId: Id, reason: string, requestId: string, now: Time)
    ensures HidesRows(db.videos, db.videos, [], now) && LogsHiding(db.audit, db.audit, adminId, [], reason, requestId, now)
  {
  }

  // The next row is as it was, and hiding it as well hides them all.
  lemma HiddenElsewhere(a: map<Id, Video>, b: map<Id, Video>, init: seq<Id>, last: Id, now: Time)
    requires HidesRows(a, b, init, now) && last in a && last !in init
    ensures last in b && b[last] == a[last]
    ensures HidesRows(a, b[last := a[last].(publish := Hidden, updatedAt := now)], init + [last], now)
  {
  }

  lemma LogsMore(a: seq<AuditEntry>, b: seq<AuditEntry>, adminId: Id, init: seq<Id>, last: Id, reason: string,
                 requestId: string, now: Time)
    requires LogsHiding(a, b, adminId, init, reason, requestId, now)
    ensures LogsHiding(a, b + [HidingEntry(adminId, last, reason, requestId, now)], adminId, init + [last], reason, requestId,
                       now)
  {
    hide HidingEntry;
    assert (b + [HidingEntry(adminId, last, reason, requestId, now)])[..|a|] == b[..|a|];
  }

  // A user's status changes with the log.
  ghost predicate StatusSet(db: Db, db': Db, userId: Id, row: User, entry: AuditEntry)
  {
    && OnlyRow(db.users, db'.users, userId) && db'.users[userId] == row
    && |db'.audit| > |db.audit| && db'.audit[..|db.audit|] == db.audit && db'.audit[|db.audit|] == entry
  }

  // None of the user's refresh tokens is left unrevoked.
  ghost predicate TokensRevoked(a: map<Id, RefreshToken>, b: map<Id, RefreshToken>, userId: Id, now: Time) {
    && b.Keys == a.Keys
    && forall t | t in a ::
         b[t] == if a[t].userId == userId && a[t].revokedAt == None then a[t].(revokedAt := Some(now)) else a[t]
  }

  /** Account, tokens, videos and log after a suspension: every published video of the user is hidden, and no other. */
  ghost predicate SuspendedWith(db: Db, db': Db, adminId: Id, userId: Id, rows: seq<Id>, reason: string, requestId: string,
                                now: Time)
    requires userId in db.users
  {
    && db' == db.(users := db'.users, tokens := db'.tokens, videos := db'.videos, audit := db'.audit)
    && StatusSet(db, db', userId,
                 db.users[userId].(status := Suspended, tokenVersion := db.users[userId].tokenVersion + 1, updatedAt := now),
                 AuditEntry(adminId, OnUser(userId), UserSuspend, OfUser(Active), OfUser(Suspended), reason, requestId, now))
    && TokensRevoked(db.tokens, db'.tokens, userId, now)
    && db'.videos.Keys == db.videos.Keys
    && (forall v | v in db.videos ::
          db'.videos[v] == if db.videos[v].userId == userId && db.videos[v].publish == Published
                           then db.videos[v].(publish := Hidden, updatedAt := now) else db.videos[v])
    && LogsHiding(db'.audit[..|db.audit| + 1], db'.audit, adminId, rows, reason, requestId, now)
  }

  // The user's half of a suspension.
  lemma AccountOutcome(db: Db, adminId: Id, userId: Id, reason: string, requestId: string, now: Time)
    ensures var r := SuspendAccount(db, adminId, userId, reason, requestId, now);
            if userId !in db.users then r == Failure(UserNotFound)
            else if db.users[userId].role != RoleUser then r == Failure(UserManagementForbidden)
            else if db.users[userId].status != Active then r == Failure(UserStatusConflict)
            else if !Attributable(adminId, userId, reason, requestId, now) then r == Failure(InvalidInput)
            else && r.Success? && TokensRevoked(db.tokens, r.value.tokens, userId, now)
                 && r.value == db.(users := db.users[userId := db.users[userId].(status := Suspended,
                                                       tokenVersion := db.users[userId].tokenVersion + 1, updatedAt := now)],
                                   tokens := r.value.tokens,
                                   audit := db.audit + [AuditEntry(adminId, OnUser(userId), UserSuspend, OfUser(Active),
                                                                   OfUser(Suspended), reason, requestId, now)])
  {
  }

  // The rows a suspension selects are the user's published videos.
  lemma SelectsExactly(db: Db, userId: Id, rows: seq<Id>, clock: Time)
    requires DbOk(db, clock) && SelectsPublished(db, userId, rows)
    ensures forall v | v in db.videos :: v in rows <==> db.videos[v].userId == userId && db.videos[v].publish == Published
    ensures forall i | 0 <= i < |rows| :: rows[i] != 0
  {
    hide DbOk;
    forall v | v in db.videos
      ensures v in rows <==> db.videos[v].userId == userId && db.videos[v].publish == Published
      ensures v != 0
    {
      VideoFacts(db, clock, v);
      if v in rows {
        var i :| 0 <= i < |rows| && rows[i] == v;
        assert IsPublishedOf(db, userId, rows[i]);
      }
    }
  }

  /** Exactly an active user who is no administrator can be suspended. */
  lemma SuspensionOutcome(db: Db, adminId: Id, userId: Id, rows: seq<Id>, reason: string, requestId: string, clock: Time,
                          now: Time)
    requires DbOk(db, clock) && SelectsPublished(db, userId, rows)
    ensures var r := SuspendUser(db, adminId, userId, rows, reason, requestId, now);
            if userId !in db.users then r == Failure(UserNotFound)
            else if db.users[userId].role != RoleUser then r == Failure(UserManagementForbidden)
            else if db.users[userId].status != Active then r == Failure(UserStatusConflict)
            else if !Attributable(adminId, userId, reason, requestId, now) then r == Failure(InvalidInput)
            else r.Success? && SuspendedWith(db, r.value, adminId, userId, rows, reason, requestId, now)
  {
    hide DbOk, SuspendAccount, HideVideos, TokensRevoked, HidingEntry;
    AccountOutcome(db, adminId, userId, reason, requestId, now);
    if SuspendAccount(db, adminId, userId, reason, requestId, now).Success? {
      var db1 := SuspendAccount(db, adminId, userId, reason, requestId, now).value;
      SelectsExactly(db, userId, rows, clock);
      forall i | 0 <= i < |rows|
        ensures db1.videos[rows[i]].CanBeViewedPublicly() && Attributable(adminId, rows[i], reason, requestId, now)
      {
        assert IsPublishedOf(db, userId, rows[i]);
      }
      HidesAll(db1, adminId, rows, reason, requestId, now);
      var db2 := HideVideos(db1, adminId, rows, reason, requestId, now).value;
      assert db2.audit[..|db.audit| + 1] == db1.audit;
    }
  }

  /** Exactly a suspended user can be resumed; neither videos nor tokens come back. */
  lemma ResumptionOutcome(db: Db, adminId: Id, userId: Id, reason: string, requestId: string, now: Time)
    ensures var r := ResumeUser(db, adminId, userId, reason, requestId, now);
            if userId !in db.users then r == Failure(UserNotFound)
            else if db.users[userId].role != RoleUser then r == Failure(UserManagementForbidden)
            else if db.users[userId].status != Suspended then r == Failure(UserStatusConflict)
            else if !Attributable(adminId, userId, reason, requestId, now) then r == Failure(InvalidInput)
            else && r.Success? && r.value == db.(users := r.value.users, audit := r.value.audit)
                 && |r.value.audit| == |db.audit| + 1
                 && StatusSet(db, r.value, userId, db.users[userId].(status := Active, updatedAt := now),
                              AuditEntry(adminId, OnUser(userId), UserResume, OfUser(Suspended), OfUser(Active), reason,
                                         requestId, now))
  {
  }
}
