/**
  Publication against suspension with the transactions split at their row locks. A transaction reads a row when it
  gets its lock, and all it writes becomes visible at once when it commits; whoever holds a lock keeps others out.
 */
module Locks {
  import opened Common
  import opened VideoEntity

  datatype Row = Row(owner: Id, processing: ProcessingStatus, publish: PublishStatus, deleted: bool) {
    predicate IsPublic() {
      !deleted && processing == Ready && publish == Published
    }
  }

  datatype Write = HideVideo | MakePrivate | DeleteVideo

  /** An open transaction: which rows it has locked and what it read from them. */
  datatype Trans =
    // SuspendUser: the user row, then the user's published videos one by one
    | SuspendLocked(user: Id)
    | SuspendScanning(user: Id, todo: seq<Id>, hidden: set<Id>)
    | ResumeLocked(user: Id)
    // RepublishByOwner: the owner shared, then the video
    | RepublishOwner(user: Id, active: bool, video: Id)
    | RepublishVideo(user: Id, active: bool, video: Id)
    // CompleteProcessing: the video, then its owner shared
    | CompleteVideo(video: Id)
    | CompleteOwner(video: Id, user: Id, active: bool)
    // Hide, SetPrivateByOwner and DeleteByOwner: the video
    | Writing(video: Id)
    // Restore: the video; the owner is read without a lock
    | RestoreVideo(video: Id)
    | RestoreRead(video: Id, active: bool)
  {
    // The user row it holds FOR UPDATE.
    function Exclusive(): Option<Id> {
      if SuspendLocked? || SuspendScanning? || ResumeLocked? then Some(user) else None
    }

    // The user row it holds FOR SHARE.
    function Shared(): Option<Id> {
      if RepublishOwner? || RepublishVideo? || CompleteOwner? then Some(user) else None
    }

    // The video rows it holds FOR UPDATE.
    function Videos(): set<Id> {
      match this
      case SuspendScanning(_, _, hidden) => hidden
      case RepublishVideo(_, _, v) => {v}
      case CompleteVideo(v) => {v}
      case CompleteOwner(v, _, _) => {v}
      case Writing(v) => {v}
      case RestoreVideo(v) => {v}
      case RestoreRead(v, _) => {v}
      case _ => {}
    }
  }

  // Committed rows and open transactions.
  datatype State = State(active: map<Id, bool>, videos: map<Id, Row>, open: map<Id, Trans>)

  datatype Event =
    | SuspendBegins(t: Id, user: Id)
    | SuspendSelects(t: Id, rows: seq<Id>)
    | SuspendLocksRow(t: Id)
    | SuspendCommits(t: Id)
    | ResumeBegins(t: Id, user: Id)
    | ResumeCommits(t: Id)
    | RepublishBegins(t: Id, user: Id, video: Id)
    | RepublishLocksVideo(t: Id)
    | RepublishCommits(t: Id)
    | CompleteBegins(t: Id, video: Id)
    | CompleteLocksOwner(t: Id)
    | CompleteCommits(t: Id)
    | WriteBegins(t: Id, video: Id)
    | WriteCommits(t: Id, write: Write)
    | RestoreBegins(t: Id, video: Id)
    | RestoreReads(t: Id)
    | RestoreCommits(t: Id)
    | RollsBack(t: Id)

  // ---------------------------------------------------------------- locks

  predicate UserFreeForUpdate(s: State, t: Id, u: Id) {
    forall o | o in s.open && o != t :: s.open[o].Exclusive() != Some(u) && s.open[o].Shared() != Some(u)
  }

  predicate UserFreeForShare(s: State, t: Id, u: Id) {
    forall o | o in s.open && o != t :: s.open[o].Exclusive() != Some(u)
  }

  predicate VideoFree(s: State, t: Id, v: Id) {
    forall o | o in s.open && o != t :: v !in s.open[o].Videos()
  }

  predicate PublishedOf(s: State, u: Id, v: Id) {
    v in s.videos && s.videos[v].owner == u && s.videos[v].IsPublic()
  }

  predicate Enabled(s: State, e: Event) {
    match e
    case SuspendBegins(t, u) => t !in s.open && u in s.active && UserFreeForUpdate(s, t, u)
    case SuspendSelects(t, rows) =>
      && t in s.open && s.open[t].SuspendLocked?
      && (forall i | 0 <= i < |rows| :: PublishedOf(s, s.open[t].user, rows[i]))
      && (forall v | v in s.videos && PublishedOf(s, s.open[t].user, v) :: v in rows)
    case SuspendLocksRow(t) =>
      t in s.open && s.open[t].SuspendScanning? && s.open[t].todo != [] && VideoFree(s, t, s.open[t].todo[0])
    case SuspendCommits(t) => t in s.open && s.open[t].SuspendScanning? && s.open[t].todo == []
    case ResumeBegins(t, u) => t !in s.open && u in s.active && UserFreeForUpdate(s, t, u)
    case ResumeCommits(t) => t in s.open && s.open[t].ResumeLocked?
    case RepublishBegins(t, u, _) => t !in s.open && u in s.active && UserFreeForShare(s, t, u)
    case RepublishLocksVideo(t) =>
      t in s.open && s.open[t].RepublishOwner? && s.open[t].video in s.videos && VideoFree(s, t, s.open[t].video)
    case RepublishCommits(t) => t in s.open && s.open[t].RepublishVideo?
    case CompleteBegins(t, v) => t !in s.open && v in s.videos && VideoFree(s, t, v)
    case CompleteLocksOwner(t) =>
      && t in s.open && s.open[t].CompleteVideo? && s.open[t].video in s.videos
      && s.videos[s.open[t].video].owner in s.active && UserFreeForShare(s, t, s.videos[s.open[t].video].owner)
    case CompleteCommits(t) => t in s.open && s.open[t].CompleteOwner?
    case WriteBegins(t, v) => t !in s.open && v in s.videos && VideoFree(s, t, v)
    case WriteCommits(t, _) => t in s.open && s.open[t].Writing?
    case RestoreBegins(t, v) => t !in s.open && v in s.videos && VideoFree(s, t, v)
    case RestoreReads(t) =>
      && t in s.open && s.open[t].RestoreVideo? && s.open[t].video in s.videos
      && s.videos[s.open[t].video].owner in s.active
    case RestoreCommits(t) => t in s.open && s.open[t].RestoreRead?
    case RollsBack(t) => t in s.open
  }

  // ---------------------------------------------------------------- steps

  function Begin(s: State, t: Id, x: Trans): State {
    s.(open := s.open[t := x])
  }

  function End(s: State, t: Id): State {
    s.(open := s.open - {t})
  }

  // A commit that writes one video row.
  function Save(s: State, t: Id, v: Id, row: Row): State {
    s.(videos := s.videos[v := row], open := s.open - {t})
  }

  // What each write makes of the row; a state conflict rolls back.
  function Written(row: Row, write: Write): Row {
    match write
    case HideVideo => if row.IsPublic() then row.(publish := Hidden) else row
    case MakePrivate => if row.IsPublic() then row.(publish := Private) else row
    case DeleteVideo => if !row.deleted then row.(publish := Private, deleted := true) else row
  }

  function Republished(row: Row, user: Id, active: bool): Row {
    if row.owner == user && !row.deleted && row.processing == Ready && row.publish == Private && active
    then row.(publish := Published) else row
  }

  function Completed(row: Row, active: bool): Row {
    if !row.deleted && row.processing == Processing && row.publish == Private
    then row.(processing := Ready, publish := if active then Published else Private) else row
  }

  function Restored(row: Row, active: bool): Row {
    if !row.deleted && row.processing == Ready && row.publish == Hidden && active then row.(publish := Published) else row
  }

  function AllHidden(videos: map<Id, Row>, rows: set<Id>): map<Id, Row> {
    map v | v in videos :: if v in rows then videos[v].(publish := Hidden) else videos[v]
  }

  function Next(s: State, e: Event): State
    requires Enabled(s, e)
  {
    match e
    case SuspendBegins(t, u) => if s.active[u] then Begin(s, t, SuspendLocked(u)) else s
    case SuspendSelects(t, rows) => Begin(s, t, SuspendScanning(s.open[t].user, rows, {}))
    case SuspendLocksRow(t) =>
      // The WHERE clause is evaluated again on the row as it is once the lock is granted.
      var x := s.open[t];
      var v := x.todo[0];
      Begin(s, t, SuspendScanning(x.user, x.todo[1..], if PublishedOf(s, x.user, v) then x.hidden + {v} else x.hidden))
    case SuspendCommits(t) =>
      s.(active := s.active[s.open[t].user := false], videos := AllHidden(s.videos, s.open[t].hidden), open := s.open - {t})
    case ResumeBegins(t, u) => if s.active[u] then s else Begin(s, t, ResumeLocked(u))
    case ResumeCommits(t) => s.(active := s.active[s.open[t].user := true], open := s.open - {t})
    case RepublishBegins(t, u, v) => Begin(s, t, RepublishOwner(u, s.active[u], v))
    case RepublishLocksVideo(t) => Begin(s, t, RepublishVideo(s.open[t].user, s.open[t].active, s.open[t].video))
    case RepublishCommits(t) =>
      var x := s.open[t];
      if x.video in s.videos then Save(s, t, x.video, Republished(s.videos[x.video], x.user, x.active)) else End(s, t)
    case CompleteBegins(t, v) => Begin(s, t, CompleteVideo(v))
    case CompleteLocksOwner(t) =>
      var v := s.open[t].video;
      Begin(s, t, CompleteOwner(v, s.videos[v].owner, s.active[s.videos[v].owner]))
    case CompleteCommits(t) =>
      var x := s.open[t];
      if x.video in s.videos then Save(s, t, x.video, Completed(s.videos[x.video], x.active)) else End(s, t)
    case WriteBegins(t, v) => Begin(s, t, Writing(v))
    case WriteCommits(t, write) =>
      var x := s.open[t];
      if x.video in s.videos then Save(s, t, x.video, Written(s.videos[x.video], write)) else End(s, t)
    case RestoreBegins(t, v) => Begin(s, t, RestoreVideo(v))
    case RestoreReads(t) =>
      var v := s.open[t].video;
      Begin(s, t, RestoreRead(v, s.active[s.videos[v].owner]))
    case RestoreCommits(t) =>
      var x := s.open[t];
      if x.video in s.videos then Save(s, t, x.video, Restored(s.videos[x.video], x.active)) else End(s, t)
    case RollsBack(t) => End(s, t)
  }

  // ---------------------------------------------------------------- the invariant

  /** In the committed rows, no suspended user owns a public video. */
  ghost predicate Safe(s: State) {
    forall v | v in s.videos && s.videos[v].IsPublic() :: s.videos[v].owner in s.active && s.active[s.videos[v].owner]
  }

  ghost predicate LocksCompatible(s: State) {
    && (forall t, o | t in s.open && o in s.open && t != o && s.open[t].Exclusive().Some? ::
          s.open[o].Exclusive() != s.open[t].Exclusive() && s.open[o].Shared() != s.open[t].Exclusive())
    && (forall t, o, v | t in s.open && o in s.open && t != o && v in s.open[t].Videos() :: v !in s.open[o].Videos())
  }

  // What a transaction read from a row it has locked is still so.
  ghost predicate ReadsHold(s: State) {
    && (forall t | t in s.open && s.open[t].Shared().Some? ::
          s.open[t].user in s.active && (s.open[t].active ==> s.active[s.open[t].user]))
    && (forall t | t in s.open && s.open[t].CompleteOwner? && s.open[t].video in s.videos ::
          s.videos[s.open[t].video].owner == s.open[t].user)
    && (forall t | t in s.open && s.open[t].Exclusive().Some? :: s.open[t].user in s.active)
  }

  // A suspension that has selected its rows overlooks none.
  ghost predicate Overlooks(s: State, t: Id, v: Id)
    requires t in s.open && s.open[t].SuspendScanning?
  {
    PublishedOf(s, s.open[t].user, v) && v !in s.open[t].todo && v !in s.open[t].hidden
  }

  ghost predicate NothingOverlooked(s: State) {
    forall t, v | t in s.open && s.open[t].SuspendScanning? :: !Overlooks(s, t, v)
  }

  // What a suspension has locked stays the user's and public until it commits.
  ghost predicate HoldsPublic(s: State) {
    forall t, v | t in s.open && s.open[t].SuspendScanning? && v in s.open[t].hidden :: PublishedOf(s, s.open[t].user, v)
  }

  ghost predicate Inv(s: State) {
    Safe(s) && LocksCompatible(s) && ReadsHold(s) && NothingOverlooked(s) && HoldsPublic(s)
  }

  // ---------------------------------------------------------------- steps that keep it

  // A transaction opens, moves on or goes away; the rows stay. What it holds it was free to take.
  ghost predicate Moves(s: State, s': State, t: Id) {
    && s' == s.(open := s'.open) && s'.open - {t} == s.open - {t}
    && (t in s'.open ==>
          var x := s'.open[t];
          && !x.SuspendScanning?
          && (x.Exclusive().Some? ==> UserFreeForUpdate(s, t, x.user) && x.user in s.active)
          && (x.Shared().Some? ==> UserFreeForShare(s, t, x.user) && x.user in s.active && (x.active ==> s.active[x.user]))
          && (forall v | v in x.Videos() :: VideoFree(s, t, v))
          && (x.CompleteOwner? && x.video in s.videos ==> s.videos[x.video].owner == x.user))
  }

  lemma MovedOthers(s: State, s': State, t: Id, o: Id)
    requires Moves(s, s', t) && o != t
    ensures o in s'.open <==> o in s.open
    ensures o in s.open ==> s'.open[o] == s.open[o]
  {
    assert o in s.open - {t} <==> o in s.open;
    assert o in s'.open - {t} <==> o in s'.open;
  }

  lemma MovesKeepLocks(s: State, s': State, t: Id)
    requires Moves(s, s', t) && LocksCompatible(s)
    ensures LocksCompatible(s')
  {
    forall o | o in s'.open && o != t
      ensures o in s.open && s'.open[o] == s.open[o]
    {
      MovedOthers(s, s', t, o);
    }
  }

  lemma MovesKeepReads(s: State, s': State, t: Id)
    requires Moves(s, s', t) && ReadsHold(s)
    ensures ReadsHold(s')
  {
    forall o | o in s'.open && o != t
      ensures o in s.open && s'.open[o] == s.open[o]
    {
      MovedOthers(s, s', t, o);
    }
  }

  lemma MovesKeepScans(s: State, s': State, t: Id)
    requires Moves(s, s', t) && NothingOverlooked(s) && HoldsPublic(s)
    ensures NothingOverlooked(s') && HoldsPublic(s')
  {
    forall o, v | o in s'.open && s'.open[o].SuspendScanning?
      ensures !Overlooks(s', o, v) && (v in s'.open[o].hidden ==> PublishedOf(s', s'.open[o].user, v))
    {
      MovedOthers(s, s', t, o);
      assert !Overlooks(s, o, v);
    }
  }

  lemma MovesKeep(s: State, s': State, t: Id)
    requires Inv(s) && Moves(s, s', t)
    ensures Inv(s')
  {
    assert Safe(s');
    hide Safe, LocksCompatible, ReadsHold, NothingOverlooked, HoldsPublic, Moves;
    MovesKeepLocks(s, s', t);
    MovesKeepReads(s, s', t);
    MovesKeepScans(s, s', t);
  }

  lemma BeginMoves(s: State, e: Event)
    requires Enabled(s, e)
    requires e.SuspendBegins? || e.ResumeBegins? || e.RepublishBegins? || e.CompleteBegins? || e.WriteBegins? || e.RestoreBegins?
    ensures Moves(s, Next(s, e), e.t)
  {
  }

  lemma ReadMoves(s: State, e: Event)
    requires Inv(s) && Enabled(s, e)
    requires e.RepublishLocksVideo? || e.CompleteLocksOwner? || e.RestoreReads? || e.RollsBack?
    ensures Moves(s, Next(s, e), e.t)
  {
    hide Safe, NothingOverlooked, HoldsPublic;
  }

  lemma ScanOverlooksNone(s: State, e: Event)
    requires NothingOverlooked(s) && Enabled(s, e) && (e.SuspendSelects? || e.SuspendLocksRow?)
    ensures NothingOverlooked(Next(s, e))
  {
    var s' := Next(s, e);
    forall t, v | t in s'.open && s'.open[t].SuspendScanning?
      ensures !Overlooks(s', t, v)
    {
      if t != e.t { assert !Overlooks(s, t, v); }
      if t == e.t && e.SuspendLocksRow? { assert !Overlooks(s, t, v); }
    }
  }

  lemma SelectKeeps(s: State, e: Event)
    requires Inv(s) && Enabled(s, e) && (e.SuspendSelects? || e.SuspendLocksRow?)
    ensures Inv(Next(s, e))
  {
    hide NothingOverlooked, LocksCompatible, ReadsHold, HoldsPublic, Safe, Next;
    ScanOverlooksNone(s, e);
    ScanKeepsLocks(s, e);
    ScanKeepsReads(s, e);
  }

  lemma ScanKeepsLocks(s: State, e: Event)
    requires LocksCompatible(s) && Enabled(s, e) && (e.SuspendSelects? || e.SuspendLocksRow?)
    ensures LocksCompatible(Next(s, e))
  {
  }

  lemma ScanKeepsReads(s: State, e: Event)
    requires ReadsHold(s) && HoldsPublic(s) && Safe(s) && Enabled(s, e) && (e.SuspendSelects? || e.SuspendLocksRow?)
    ensures ReadsHold(Next(s, e)) && HoldsPublic(Next(s, e)) && Safe(Next(s, e))
  {
  }

  lemma UserCommitKeeps(s: State, e: Event)
    requires Inv(s) && Enabled(s, e) && (e.SuspendCommits? || e.ResumeCommits?)
    ensures Inv(Next(s, e))
  {
    var s' := Next(s, e);
    if e.SuspendCommits? {
      forall v | v in s'.videos && s'.videos[v].IsPublic()
        ensures s'.videos[v].owner in s'.active && s'.active[s'.videos[v].owner]
      {
        assert !Overlooks(s, e.t, v);
      }
    }
    forall t, v | t in s'.open && s'.open[t].SuspendScanning?
      ensures !Overlooks(s', t, v)
    {
      assert !Overlooks(s, t, v);
    }
  }

  // A video row is saved by a transaction that has it locked, without becoming public unless its owner's row is held.
  lemma SaveKeeps(s: State, t: Id, v: Id, row: Row)
    requires Inv(s) && t in s.open && s.open[t].Videos() == {v} && v in s.videos && !s.open[t].SuspendScanning?
    requires row.owner == s.videos[v].owner
    requires row.IsPublic() && !s.videos[v].IsPublic() ==> s.open[t].Shared() == Some(row.owner) && s.open[t].active
    ensures Inv(Save(s, t, v, row))
  {
    var s' := Save(s, t, v, row);
    forall o, w | o in s'.open && s'.open[o].SuspendScanning?
      ensures !Overlooks(s', o, w)
    {
      assert !Overlooks(s, o, w);
    }
  }

  lemma VideoCommitKeeps(s: State, e: Event)
    requires Inv(s) && Enabled(s, e) && (e.RepublishCommits? || e.CompleteCommits? || e.WriteCommits?)
    ensures Inv(Next(s, e))
  {
    var x := s.open[e.t];
    if x.video in s.videos {
      if e.RepublishCommits? {
        SaveKeeps(s, e.t, x.video, Republished(s.videos[x.video], x.user, x.active));
      } else if e.CompleteCommits? {
        SaveKeeps(s, e.t, x.video, Completed(s.videos[x.video], x.active));
      } else {
        SaveKeeps(s, e.t, x.video, Written(s.videos[x.video], e.write));
      }
    } else {
      ReadMoves(s, RollsBack(e.t));
      MovesKeep(s, Next(s, e), e.t);
    }
  }

  // ---------------------------------------------------------------- restore

  // The owner is still active, and no suspension of theirs has passed the video by.
  ghost predicate RestoreInTime(s: State, v: Id)
    requires v in s.videos
  {
    && s.videos[v].owner in s.active && s.active[s.videos[v].owner]
    && (forall o | o in s.open && s.open[o].SuspendScanning? && s.open[o].user == s.videos[v].owner :: v in s.open[o].todo)
  }

  /**
    Restore reads the owner without a lock. Its commit keeps the invariant exactly if meanwhile neither a suspension
    has committed nor one has selected its rows without this video.
   */
  lemma RestoreKeepsIff(s: State, t: Id)
    requires Inv(s) && t in s.open && s.open[t].RestoreRead? && s.open[t].video in s.videos
    requires Restored(s.videos[s.open[t].video], s.open[t].active) != s.videos[s.open[t].video]
    ensures Inv(Next(s, RestoreCommits(t))) <==> RestoreInTime(s, s.open[t].video)
    ensures Safe(Next(s, RestoreCommits(t))) <==>
              var owner := s.videos[s.open[t].video].owner; owner in s.active && s.active[owner]
  {
    var v := s.open[t].video;
    var s' := Next(s, RestoreCommits(t));
    var owner := s.videos[v].owner;
    assert s'.videos[v].IsPublic();
    if RestoreInTime(s, v) {
      forall o, w | o in s'.open && s'.open[o].SuspendScanning?
        ensures !Overlooks(s', o, w)
      {
        assert !Overlooks(s, o, w);
      }
    } else if owner in s.active && s.active[owner] {
      var o :| o in s.open && s.open[o].SuspendScanning? && s.open[o].user == owner && v !in s.open[o].todo;
      assert Overlooks(s', o, v);
    }
  }

  // The steps a run may take: any, except that a restore that publishes commits in time.
  ghost predicate InTime(s: State, e: Event) {
    e.RestoreCommits? && e.t in s.open && s.open[e.t].RestoreRead? && s.open[e.t].video in s.videos
    && Restored(s.videos[s.open[e.t].video], s.open[e.t].active) != s.videos[s.open[e.t].video]
    ==> RestoreInTime(s, s.open[e.t].video)
  }

  lemma RestoreCommitKeeps(s: State, e: Event)
    requires Inv(s) && Enabled(s, e) && e.RestoreCommits? && InTime(s, e)
    ensures Inv(Next(s, e))
  {
    var v := s.open[e.t].video;
    if v !in s.videos {
      ReadMoves(s, RollsBack(e.t));
      MovesKeep(s, Next(s, e), e.t);
    } else if Restored(s.videos[v], s.open[e.t].active) == s.videos[v] {
      SaveKeeps(s, e.t, v, s.videos[v]);
    } else {
      RestoreKeepsIff(s, e.t);
    }
  }

  lemma StepKeeps(s: State, e: Event)
    requires Inv(s) && Enabled(s, e) && InTime(s, e)
    ensures Inv(Next(s, e))
  {
    hide Inv, Next, InTime, Moves;
    match e {
      case SuspendSelects(_, _) => SelectKeeps(s, e);
      case SuspendLocksRow(_) => SelectKeeps(s, e);
      case SuspendCommits(_) => UserCommitKeeps(s, e);
      case ResumeCommits(_) => UserCommitKeeps(s, e);
      case RepublishCommits(_) => VideoCommitKeeps(s, e);
      case CompleteCommits(_) => VideoCommitKeeps(s, e);
      case WriteCommits(_, _) => VideoCommitKeeps(s, e);
      case RestoreCommits(_) => RestoreCommitKeeps(s, e);
      case RepublishLocksVideo(_) =>
        ReadMoves(s, e);
        MovesKeep(s, Next(s, e), e.t);
      case CompleteLocksOwner(_) =>
        ReadMoves(s, e);
        MovesKeep(s, Next(s, e), e.t);
      case RestoreReads(_) =>
        ReadMoves(s, e);
        MovesKeep(s, Next(s, e), e.t);
      case RollsBack(_) =>
        ReadMoves(s, e);
        MovesKeep(s, Next(s, e), e.t);
      case _ =>
        BeginMoves(s, e);
        MovesKeep(s, Next(s, e), e.t);
    }
  }

  // ---------------------------------------------------------------- runs

  /** A run starts without open transactions from rows that are safe. */
  ghost predicate IsRun(states: seq<State>, events: seq<Event>) {
    && |states| == |events| + 1 && Safe(states[0]) && states[0].open == map[]
    && forall i | 0 <= i < |events| :: IsStep(states[i], events[i], states[i + 1])
  }

  ghost predicate IsStep(s: State, e: Event, s': State) {
    Enabled(s, e) && s' == Next(s, e)
  }

  lemma {:induction false} RunKeeps(states: seq<State>, events: seq<Event>, i: nat)
    requires IsRun(states, events) && i < |states|
    requires forall k | 0 <= k < i :: InTime(states[k], events[k])
    ensures Inv(states[i])
  {
    hide Next, Enabled, InTime;
    if i > 0 {
      hide Inv;
      RunKeeps(states, events, i - 1);
      assert IsStep(states[i - 1], events[i - 1], states[i - 1 + 1]);
      StepKeeps(states[i - 1], events[i - 1]);
    }
  }

  /**
    No interleaving of suspensions, resumptions, republications, completions and other writes ends with a suspended
    user owning a public video: true of every run in which no restore publishes.
   */
  lemma NoSuspendedPublisher(states: seq<State>, events: seq<Event>, i: nat)
    requires IsRun(states, events) && i < |states|
    requires forall k | 0 <= k < i :: !events[k].RestoreCommits?
    ensures Safe(states[i])
  {
    RunKeeps(states, events, i);
  }

  /** With restores, of every run in which each restore that publishes commits in time. */
  lemma NoSuspendedPublisherWithRestores(states: seq<State>, events: seq<Event>, i: nat)
    requires IsRun(states, events) && i < |states|
    requires forall k | 0 <= k < i :: InTime(states[k], events[k])
    ensures Safe(states[i])
  {
    RunKeeps(states, events, i);
  }

  // A run that goes on from `s`; every restore that publishes in it commits in time.
  ghost predicate Continues(s: State, states: seq<State>, events: seq<Event>) {
    && |states| == |events| + 1 && states[0] == s
    && forall i | 0 <= i < |events| :: IsStep(states[i], events[i], states[i + 1]) && InTime(states[i], events[i])
  }

  lemma {:induction false} ContinuationKeeps(s: State, states: seq<State>, events: seq<Event>, i: nat)
    requires Inv(s) && Continues(s, states, events) && i < |states|
    ensures Inv(states[i])
  {
    hide Inv, Next, Enabled, InTime;
    if i > 0 {
      ContinuationKeeps(s, states, events, i - 1);
      assert IsStep(states[i - 1], events[i - 1], states[i - 1 + 1]);
      StepKeeps(states[i - 1], events[i - 1]);
    }
  }

  lemma ContinuesWith(s: State, e: Event, states: seq<State>, events: seq<Event>)
    requires states != [] && IsStep(s, e, states[0]) && InTime(s, e) && Continues(states[0], states, events)
    ensures Continues(s, [s] + states, [e] + events)
  {
    hide IsStep, InTime;
    var all, steps := [s] + states, [e] + events;
    forall i | 0 <= i < |steps|
      ensures IsStep(all[i], steps[i], all[i + 1]) && InTime(all[i], steps[i])
    {
      if i > 0 { assert IsStep(states[i - 1], events[i - 1], states[i - 1 + 1]); }
    }
  }

  // What an overlooking suspension can always do next: when nobody else is left it locks its rows and commits.
  lemma OverlookedStep(s: State, o: Id, v: Id) returns (e: Event)
    requires o in s.open && s.open[o].SuspendScanning? && Overlooks(s, o, v)
    ensures Enabled(s, e) && InTime(s, e)
    ensures var s' := Next(s, e);
            if o in s'.open
            then && s'.open[o].SuspendScanning? && Overlooks(s', o, v)
                 && (s'.open.Keys < s.open.Keys
                     || (s'.open.Keys == s.open.Keys && |s'.open[o].todo| < |s.open[o].todo|))
            else !Safe(s')
  {
    if x :| x in s.open && x != o {
      e := RollsBack(x);
    } else if s.open[o].todo != [] {
      e := SuspendLocksRow(o);
    } else {
      e := SuspendCommits(o);
      assert Next(s, e).videos[v].IsPublic();
    }
  }

  lemma {:induction false} OverlookedEndsUnsafe(s: State, o: Id, v: Id) returns (states: seq<State>, events: seq<Event>)
    requires o in s.open && s.open[o].SuspendScanning? && Overlooks(s, o, v)
    ensures Continues(s, states, events) && !Safe(states[|states| - 1])
    decreases s.open.Keys, |s.open[o].todo|
  {
    hide Enabled, Next, InTime, Safe, Overlooks;
    var e := OverlookedStep(s, o, v);
    var s' := Next(s, e);
    assert IsStep(s, e, s');
    if o in s'.open {
      states, events := OverlookedEndsUnsafe(s', o, v);
    } else {
      states, events := [s'], [];
    }
    ContinuesWith(s, e, states, events);
    states, events := [s] + states, [e] + events;
  }

  /**
    Whether a restore that publishes is in time decides about whole runs: it is if and only if no run that goes on
    after its commit ever shows a public video of a suspended owner, whatever the open transactions do. If it is late
    and no suspension has committed, the open suspension that passed the video by ends the run unsafe.
   */
  lemma RestoreIsSafeIff(s: State, t: Id)
    requires Inv(s) && t in s.open && s.open[t].RestoreRead? && s.open[t].video in s.videos
    requires Restored(s.videos[s.open[t].video], s.open[t].active) != s.videos[s.open[t].video]
    ensures RestoreInTime(s, s.open[t].video) <==>
              forall states, events, i | Continues(Next(s, RestoreCommits(t)), states, events) && 0 <= i < |states| ::
                Safe(states[i])
  {
    var s', v := Next(s, RestoreCommits(t)), s.open[t].video;
    if RestoreInTime(s, v) {
      hide Continues, Safe;
      RestoreKeepsIff(s, t);
      forall states, events, i | Continues(s', states, events) && 0 <= i < |states|
        ensures Safe(states[i])
      {
        ContinuationKeeps(s', states, events, i);
        InvIsSafe(states[i]);
      }
    } else {
      var states, events := LateRestoreEndsUnsafe(s, t);
      assert !Safe(states[|states| - 1]);
    }
  }

  lemma InvIsSafe(s: State)
    requires Inv(s)
    ensures Safe(s)
  {
  }

  lemma LateRestoreEndsUnsafe(s: State, t: Id) returns (states: seq<State>, events: seq<Event>)
    requires Inv(s) && t in s.open && s.open[t].RestoreRead? && s.open[t].video in s.videos
    requires Restored(s.videos[s.open[t].video], s.open[t].active) != s.videos[s.open[t].video]
    requires !RestoreInTime(s, s.open[t].video)
    ensures Continues(Next(s, RestoreCommits(t)), states, events) && !Safe(states[|states| - 1])
  {
    var s', v := Next(s, RestoreCommits(t)), s.open[t].video;
    var owner := s.videos[v].owner;
    assert s'.videos[v].IsPublic();
    if owner in s.active && s.active[owner] {
      var o :| o in s.open && s.open[o].SuspendScanning? && s.open[o].user == owner && v !in s.open[o].todo;
      assert !PublishedOf(s, owner, v) && v !in s.open[o].hidden;
      assert Overlooks(s', o, v);
      states, events := OverlookedEndsUnsafe(s', o, v);
    } else {
      states, events := [s'], [];
    }
  }

  /** And not of every run: a restore that read an active owner commits after the suspension of that owner. */
  lemma LateRestorePublishes() returns (states: seq<State>, events: seq<Event>)
    ensures IsRun(states, events) && |states| == 7 && !Safe(states[6])
    ensures events == [RestoreBegins(7, 5), RestoreReads(7), SuspendBegins(8, 1), SuspendSelects(8, []),
                       SuspendCommits(8), RestoreCommits(7)]
  {
    LateRestoreReads();
    LateSuspension();
    LateSuspensionCommits();
    LateCommit();
    hide IsStep, LateState, Safe;
    states := [LateState(0), LateState(1), LateState(2), LateState(3), LateState(4), LateState(5), LateState(6)];
    events := [RestoreBegins(7, 5), RestoreReads(7), SuspendBegins(8, 1), SuspendSelects(8, []), SuspendCommits(8),
               RestoreCommits(7)];
  }

  // The states of the case: user 1 owns the hidden video 5, transaction 7 restores it, transaction 8 suspends the user.
  function LateState(k: nat): State {
    var hidden, read := map[5 := Row(1, Ready, Hidden, false)], RestoreRead(5, true);
    if k == 0 then State(map[1 := true], hidden, map[])
    else if k == 1 then State(map[1 := true], hidden, map[7 := RestoreVideo(5)])
    else if k == 2 then State(map[1 := true], hidden, map[7 := read])
    else if k == 3 then State(map[1 := true], hidden, map[7 := read, 8 := SuspendLocked(1)])
    else if k == 4 then State(map[1 := true], hidden, map[7 := read, 8 := SuspendScanning(1, [], {})])
    else if k == 5 then State(map[1 := false], hidden, map[7 := read])
    else State(map[1 := false], map[5 := Row(1, Ready, Published, false)], map[])
  }

  lemma LateRestoreReads()
    ensures IsStep(LateState(0), RestoreBegins(7, 5), LateState(1))
    ensures IsStep(LateState(1), RestoreReads(7), LateState(2))
  {
  }

  lemma LateSuspension()
    ensures IsStep(LateState(2), SuspendBegins(8, 1), LateState(3))
    ensures IsStep(LateState(3), SuspendSelects(8, []), LateState(4))
  {
  }

  lemma LateSuspensionCommits()
    ensures IsStep(LateState(4), SuspendCommits(8), LateState(5))
  {
  }

  lemma LateCommit()
    ensures IsStep(LateState(5), RestoreCommits(7), LateState(6))
    ensures Safe(LateState(0)) && LateState(0).open == map[] && !Safe(LateState(6))
  {
    assert LateState(6).videos[5].IsPublic();
  }
}
