/**
  Refresh tokens with their transactions split at the row locks, under READ COMMITTED. A revocation is one UPDATE: its
  snapshot is taken when it starts, it then locks the rows it found one by one, waiting for whoever holds them, and
  evaluates its WHERE clause again on each; rows committed after the snapshot it never sees. Inserting a token locks
  the row of its user FOR KEY SHARE, because of the foreign key.
 */
module TokenLocks {
  import opened Common

  datatype Row = Row(user: Id, family: nat, used: bool, revoked: bool)

  /** The WHERE clause of a revocation: RevokeFamily, revokeFamilyAndIncrementTokenVersion, SuspendUser. */
  datatype Scope = OfFamily(family: nat) | OfUserFamily(user: Id, family: nat) | OfUser(user: Id) {
    predicate Covers(row: Row) {
      match this
      case OfFamily(f) => row.family == f
      case OfUserFamily(u, f) => row.user == u && row.family == f
      case OfUser(u) => row.user == u
    }

    // The user row that is locked FOR UPDATE before the UPDATE starts.
    function Locked(): Option<Id> {
      if OfFamily? then None else Some(user)
    }
  }

  /** An open transaction. */
  datatype Trans =
    // Rotate: the old token, then the new row, which nobody else sees yet
    | RotateLocked(token: Id)
    | RotateInserted(token: Id, next: Id, row: Row)
    // Rotate of a token that turned out to be used
    | ReuseLocked(token: Id)
    // a revocation that holds its user's row, from a Rotate or on its own
    | UserLocked(scope: Scope, held: Option<Id>)
    // a revocation that has taken its snapshot
    | Revoking(scope: Scope, held: Option<Id>, todo: set<Id>, done: set<Id>)
  {
    // The token rows it has locked.
    function Rows(): set<Id> {
      match this
      case RotateLocked(t) => {t}
      case RotateInserted(t, _, _) => {t}
      case ReuseLocked(t) => {t}
      case UserLocked(_, held) => if held.Some? then {held.value} else {}
      case Revoking(_, held, _, done) => done + if held.Some? then {held.value} else {}
    }

    // The user row it holds FOR UPDATE.
    function Exclusive(): Option<Id> {
      if UserLocked? || Revoking? then scope.Locked() else None
    }

    // The user row it holds FOR KEY SHARE.
    function KeyShared(): Option<Id> {
      if RotateInserted? then Some(row.user) else None
    }
  }

  // Committed rows and open transactions.
  datatype State = State(tokens: map<Id, Row>, open: map<Id, Trans>)

  datatype Event =
    | LoginStores(id: Id, user: Id, family: nat)
    | RotateLocks(t: Id, token: Id)
    | RotateInserts(t: Id, id: Id)
    | RotateCommits(t: Id)
    | ReuseLocksUser(t: Id)
    | RevokeLocksUser(t: Id, scope: Scope)
    | RevokeStarts(t: Id)
    | LogoutStarts(t: Id, family: nat)
    | RevokeLocksRow(t: Id, token: Id)
    | RevokeCommits(t: Id)
    | RollsBack(t: Id)

  // ---------------------------------------------------------------- locks

  predicate RowFree(s: State, t: Id, token: Id) {
    forall o | o in s.open && o != t :: token !in s.open[o].Rows()
  }

  predicate UserFreeForUpdate(s: State, t: Id, u: Id) {
    forall o | o in s.open && o != t :: s.open[o].Exclusive() != Some(u) && s.open[o].KeyShared() != Some(u)
  }

  predicate UserFreeForKeyShare(s: State, t: Id, u: Id) {
    forall o | o in s.open && o != t :: s.open[o].Exclusive() != Some(u)
  }

  // No committed row and no open insertion has the identifier.
  predicate IsFresh(s: State, id: Id) {
    id !in s.tokens && forall o | o in s.open && s.open[o].RotateInserted? :: s.open[o].next != id
  }

  predicate Enabled(s: State, e: Event) {
    match e
    case LoginStores(id, u, f) =>
      && IsFresh(s, id) && (forall t | t in s.tokens :: s.tokens[t].family != f)
      && (forall o | o in s.open :: s.open[o].Exclusive() != Some(u))
    case RotateLocks(t, token) => t !in s.open && token in s.tokens && RowFree(s, t, token)
    case RotateInserts(t, id) =>
      && t in s.open && s.open[t].RotateLocked? && s.open[t].token in s.tokens && IsFresh(s, id)
      && UserFreeForKeyShare(s, t, s.tokens[s.open[t].token].user)
    case RotateCommits(t) => t in s.open && s.open[t].RotateInserted? && s.open[t].token in s.tokens
    case ReuseLocksUser(t) =>
      && t in s.open && s.open[t].ReuseLocked? && s.open[t].token in s.tokens
      && UserFreeForUpdate(s, t, s.tokens[s.open[t].token].user)
    case RevokeLocksUser(t, scope) => t !in s.open && !scope.OfFamily? && UserFreeForUpdate(s, t, scope.user)
    case RevokeStarts(t) => t in s.open && s.open[t].UserLocked?
    case LogoutStarts(t, _) => t !in s.open
    case RevokeLocksRow(t, token) =>
      t in s.open && s.open[t].Revoking? && token in s.open[t].todo && token in s.tokens && RowFree(s, t, token)
    case RevokeCommits(t) => t in s.open && s.open[t].Revoking? && s.open[t].todo == {}
    case RollsBack(t) => t in s.open
  }

  // ---------------------------------------------------------------- steps

  // The rows an UPDATE finds in its snapshot.
  function Matching(tokens: map<Id, Row>, scope: Scope): set<Id> {
    set t | t in tokens && scope.Covers(tokens[t]) && !tokens[t].revoked
  }

  function Revoked(tokens: map<Id, Row>, rows: set<Id>): map<Id, Row> {
    map t | t in tokens :: if t in rows then tokens[t].(revoked := true) else tokens[t]
  }

  function Begin(s: State, t: Id, x: Trans): State {
    s.(open := s.open[t := x])
  }

  function Next(s: State, e: Event): State
    requires Enabled(s, e)
  {
    match e
    case LoginStores(id, u, f) => s.(tokens := s.tokens[id := Row(u, f, false, false)])
    case RotateLocks(t, token) =>
      // A revoked token is refused, a used one is a reuse.
      if s.tokens[token].revoked then s
      else Begin(s, t, if s.tokens[token].used then ReuseLocked(token) else RotateLocked(token))
    case RotateInserts(t, id) =>
      var token := s.open[t].token;
      Begin(s, t, RotateInserted(token, id, Row(s.tokens[token].user, s.tokens[token].family, false, false)))
    case RotateCommits(t) =>
      var x := s.open[t];
      State(s.tokens[x.token := s.tokens[x.token].(used := true)][x.next := x.row], s.open - {t})
    case ReuseLocksUser(t) =>
      var token := s.open[t].token;
      Begin(s, t, UserLocked(OfUserFamily(s.tokens[token].user, s.tokens[token].family), Some(token)))
    case RevokeLocksUser(t, scope) => Begin(s, t, UserLocked(scope, None))
    case RevokeStarts(t) =>
      Begin(s, t, Revoking(s.open[t].scope, s.open[t].held, Matching(s.tokens, s.open[t].scope), {}))
    case LogoutStarts(t, f) => Begin(s, t, Revoking(OfFamily(f), None, Matching(s.tokens, OfFamily(f)), {}))
    case RevokeLocksRow(t, token) =>
      var x := s.open[t];
      Begin(s, t, x.(todo := x.todo - {token}, done := if s.tokens[token].revoked then x.done else x.done + {token}))
    case RevokeCommits(t) => State(Revoked(s.tokens, s.open[t].done), s.open - {t})
    case RollsBack(t) => s.(open := s.open - {t})
  }

  // ---------------------------------------------------------------- the invariant

  // Of a family, all tokens belong to one user and at most one is unused.
  ghost predicate FamiliesOk(tokens: map<Id, Row>) {
    forall a, b | a in tokens && b in tokens && a != b && tokens[a].family == tokens[b].family ::
      tokens[a].user == tokens[b].user && (tokens[a].used || tokens[b].used)
  }

  ghost predicate LocksCompatible(open: map<Id, Trans>) {
    && (forall t, o, k | t in open && o in open && t != o && k in open[t].Rows() :: k !in open[o].Rows())
    && (forall t, o | t in open && o in open && t != o && open[t].Exclusive().Some? ::
          open[o].Exclusive() != open[t].Exclusive() && open[o].KeyShared() != open[t].Exclusive())
  }

  // What a rotation has locked is still unused and unrevoked; what it has inserted nobody else has.
  ghost predicate RotationsOk(tokens: map<Id, Row>, open: map<Id, Trans>) {
    && (forall t | t in open && (open[t].RotateLocked? || open[t].RotateInserted?) ::
          open[t].token in tokens && !tokens[open[t].token].used && !tokens[open[t].token].revoked)
    && (forall t | t in open && open[t].RotateInserted? ::
          && open[t].next !in tokens
          && open[t].row == Row(tokens[open[t].token].user, tokens[open[t].token].family, false, false))
    && (forall t, o | t in open && o in open && t != o && open[t].RotateInserted? && open[o].RotateInserted? ::
          open[t].next != open[o].next)
  }

  // What a revocation works on is committed; what it has locked still matches.
  ghost predicate RevocationsOk(tokens: map<Id, Row>, open: map<Id, Trans>) {
    forall t | t in open && open[t].Revoking? ::
      && (forall k | k in open[t].todo :: k in tokens && open[t].scope.Covers(tokens[k]))
      && (forall k | k in open[t].done :: k in tokens && open[t].scope.Covers(tokens[k]) && !tokens[k].revoked)
  }

  // A revocation that holds its user's row has found everything there is to revoke.
  ghost predicate NothingMissed(tokens: map<Id, Row>, open: map<Id, Trans>) {
    forall t, k | t in open && open[t].Revoking? && open[t].Exclusive().Some? && k in Matching(tokens, open[t].scope) ::
      k in open[t].todo || k in open[t].done
  }

  ghost predicate Inv(s: State) {
    && FamiliesOk(s.tokens) && LocksCompatible(s.open) && RotationsOk(s.tokens, s.open)
    && RevocationsOk(s.tokens, s.open) && NothingMissed(s.tokens, s.open)
  }

  // ---------------------------------------------------------------- steps that keep it

  // What a transaction may become with the rows as they are.
  ghost predicate Fits(s: State, t: Id, x: Trans) {
    && (forall k | k in x.Rows() :: RowFree(s, t, k))
    && (x.Exclusive().Some? ==> UserFreeForUpdate(s, t, x.Exclusive().value))
    && (x.KeyShared().Some? ==> UserFreeForKeyShare(s, t, x.KeyShared().value))
    && (x.RotateLocked? || x.RotateInserted? ==>
          x.token in s.tokens && !s.tokens[x.token].used && !s.tokens[x.token].revoked)
    && (x.RotateInserted? ==>
          && x.next !in s.tokens && x.row == Row(s.tokens[x.token].user, s.tokens[x.token].family, false, false)
          && forall o | o in s.open && o != t && s.open[o].RotateInserted? :: s.open[o].next != x.next)
    && (x.Revoking? ==>
          && (forall k | k in x.todo :: k in s.tokens && x.scope.Covers(s.tokens[k]))
          && (forall k | k in x.done :: k in s.tokens && x.scope.Covers(s.tokens[k]) && !s.tokens[k].revoked)
          && (x.Exclusive().Some? ==> Matching(s.tokens, x.scope) <= x.todo + x.done))
  }

  // One transaction opens, moves on or goes away; the rows stay.
  ghost predicate Moves(s: State, s': State, t: Id) {
    && s'.tokens == s.tokens
    && (forall o | o in s'.open && o != t :: o in s.open && s'.open[o] == s.open[o])
    && (t in s'.open ==> Fits(s, t, s'.open[t]))
  }

  lemma MovesKeepLocks(s: State, s': State, t: Id)
    requires LocksCompatible(s.open) && Moves(s, s', t)
    ensures LocksCompatible(s'.open)
  {
  }

  lemma MovesKeepRotations(s: State, s': State, t: Id)
    requires RotationsOk(s.tokens, s.open) && Moves(s, s', t)
    ensures RotationsOk(s'.tokens, s'.open)
  {
  }

  lemma MovesKeepRevocations(s: State, s': State, t: Id)
    requires RevocationsOk(s.tokens, s.open) && NothingMissed(s.tokens, s.open) && Moves(s, s', t)
    ensures RevocationsOk(s'.tokens, s'.open) && NothingMissed(s'.tokens, s'.open)
  {
    hide Trans.Rows;
  }

  lemma MovesKeep(s: State, s': State, t: Id)
    requires Inv(s) && Moves(s, s', t)
    ensures Inv(s')
  {
    assert s'.tokens == s.tokens;
    hide FamiliesOk, LocksCompatible, RotationsOk, RevocationsOk, NothingMissed, Moves;
    MovesKeepLocks(s, s', t);
    MovesKeepRotations(s, s', t);
    MovesKeepRevocations(s, s', t);
  }

  lemma RotateMoves(s: State, e: Event)
    requires Inv(s) && Enabled(s, e) && (e.RotateLocks? || e.RotateInserts?)
    ensures Moves(s, Next(s, e), e.t)
  {
    hide FamiliesOk, RevocationsOk, NothingMissed;
  }

  lemma RevokeMoves(s: State, e: Event)
    requires Inv(s) && Enabled(s, e)
    requires e.ReuseLocksUser? || e.RevokeLocksUser? || e.RollsBack?
    ensures Moves(s, Next(s, e), e.t)
  {
    hide FamiliesOk, RotationsOk, RevocationsOk, NothingMissed;
  }

  lemma RevokeStartsMoves(s: State, e: Event)
    requires Inv(s) && Enabled(s, e) && (e.RevokeStarts? || e.LogoutStarts?)
    ensures Moves(s, Next(s, e), e.t)
  {
    hide FamiliesOk, RotationsOk, RevocationsOk, NothingMissed;
  }

  lemma RevokeLocksRowMoves(s: State, e: Event)
    requires Inv(s) && Enabled(s, e) && e.RevokeLocksRow?
    ensures Moves(s, Next(s, e), e.t)
  {
    hide FamiliesOk, RotationsOk;
  }

  lemma LoginKeeps(s: State, e: Event)
    requires Inv(s) && Enabled(s, e) && e.LoginStores?
    ensures Inv(Next(s, e))
  {
  }

  lemma EndedKeepsLocks(open: map<Id, Trans>, t: Id)
    requires LocksCompatible(open)
    ensures LocksCompatible(open - {t})
  {
  }

  // A successor joins its family.
  lemma SuccessorKeepsFamilies(tokens: map<Id, Row>, token: Id, next: Id, row: Row)
    requires FamiliesOk(tokens) && token in tokens && !tokens[token].used && next !in tokens
    requires row == Row(tokens[token].user, tokens[token].family, false, false)
    ensures FamiliesOk(tokens[token := tokens[token].(used := true)][next := row])
  {
  }

  lemma SuccessorKeepsRotations(tokens: map<Id, Row>, open: map<Id, Trans>, t: Id)
    requires RotationsOk(tokens, open) && LocksCompatible(open) && t in open && open[t].RotateInserted?
    ensures RotationsOk(tokens[open[t].token := tokens[open[t].token].(used := true)][open[t].next := open[t].row], open - {t})
  {
    var x := open[t];
    forall o | o in open && o != t && (open[o].RotateLocked? || open[o].RotateInserted?)
      ensures open[o].token != x.token
    {
      assert x.token in x.Rows() && open[o].token in open[o].Rows();
    }
  }

  lemma SuccessorKeepsRevocations(tokens: map<Id, Row>, open: map<Id, Trans>, t: Id)
    requires RevocationsOk(tokens, open) && RotationsOk(tokens, open) && t in open && open[t].RotateInserted?
    ensures RevocationsOk(tokens[open[t].token := tokens[open[t].token].(used := true)][open[t].next := open[t].row], open - {t})
  {
  }

  // Whoever holds the user's row keeps successors out.
  lemma SuccessorMissesNothing(tokens: map<Id, Row>, open: map<Id, Trans>, t: Id)
    requires NothingMissed(tokens, open) && RotationsOk(tokens, open) && LocksCompatible(open)
    requires t in open && open[t].RotateInserted?
    ensures NothingMissed(tokens[open[t].token := tokens[open[t].token].(used := true)][open[t].next := open[t].row], open - {t})
  {
    hide Trans.Rows;
    var x := open[t];
    var tokens' := tokens[x.token := tokens[x.token].(used := true)][x.next := x.row];
    forall o, k | o in open - {t} && open[o].Revoking? && open[o].Exclusive().Some? && k in Matching(tokens', open[o].scope)
      ensures k in open[o].todo || k in open[o].done
    {
      assert k != x.next;
      assert k in Matching(tokens, open[o].scope);
    }
  }

  lemma RotateCommitsKeeps(s: State, e: Event)
    requires Inv(s) && Enabled(s, e) && e.RotateCommits?
    ensures Inv(Next(s, e))
  {
    var x := s.open[e.t];
    assert !s.tokens[x.token].used && x.next !in s.tokens;
    assert x.row == Row(s.tokens[x.token].user, s.tokens[x.token].family, false, false);
    hide FamiliesOk, LocksCompatible, RotationsOk, RevocationsOk, NothingMissed;
    SuccessorKeepsFamilies(s.tokens, x.token, x.next, x.row);
    EndedKeepsLocks(s.open, e.t);
    SuccessorKeepsRotations(s.tokens, s.open, e.t);
    SuccessorKeepsRevocations(s.tokens, s.open, e.t);
    SuccessorMissesNothing(s.tokens, s.open, e.t);
  }

  lemma RevokedKeepsRotations(tokens: map<Id, Row>, open: map<Id, Trans>, t: Id)
    requires RotationsOk(tokens, open) && LocksCompatible(open) && t in open && open[t].Revoking?
    ensures RotationsOk(Revoked(tokens, open[t].done), open - {t})
  {
    forall o | o in open && o != t && (open[o].RotateLocked? || open[o].RotateInserted?)
      ensures open[o].token !in open[t].done
    {
      assert open[o].token in open[o].Rows();
    }
  }

  lemma RevokedKeepsRevocations(tokens: map<Id, Row>, open: map<Id, Trans>, t: Id)
    requires RevocationsOk(tokens, open) && LocksCompatible(open) && t in open && open[t].Revoking?
    ensures RevocationsOk(Revoked(tokens, open[t].done), open - {t})
  {
    forall o, k | o in open && o != t && open[o].Revoking? && k in open[o].done
      ensures k !in open[t].done
    {
      assert k in open[o].Rows();
    }
  }

  lemma RevokedMissesNothing(tokens: map<Id, Row>, open: map<Id, Trans>, t: Id)
    requires NothingMissed(tokens, open) && t in open && open[t].Revoking?
    ensures NothingMissed(Revoked(tokens, open[t].done), open - {t})
  {
    hide Trans.Exclusive;
    var tokens' := Revoked(tokens, open[t].done);
    forall o, k | o in open - {t} && open[o].Revoking? && open[o].Exclusive().Some? && k in Matching(tokens', open[o].scope)
      ensures k in open[o].todo || k in open[o].done
    {
      assert k in Matching(tokens, open[o].scope);
    }
  }

  lemma RevokeCommitsKeeps(s: State, e: Event)
    requires Inv(s) && Enabled(s, e) && e.RevokeCommits?
    ensures Inv(Next(s, e))
  {
    assert FamiliesOk(Revoked(s.tokens, s.open[e.t].done)) by {
      hide LocksCompatible, RotationsOk, RevocationsOk, NothingMissed;
    }
    hide FamiliesOk, LocksCompatible, RotationsOk, RevocationsOk, NothingMissed;
    EndedKeepsLocks(s.open, e.t);
    RevokedKeepsRotations(s.tokens, s.open, e.t);
    RevokedKeepsRevocations(s.tokens, s.open, e.t);
    RevokedMissesNothing(s.tokens, s.open, e.t);
  }

  lemma StepKeeps(s: State, e: Event)
    requires Inv(s) && Enabled(s, e)
    ensures Inv(Next(s, e))
  {
    hide Inv, Next, Moves;
    match e {
      case LoginStores(_, _, _) => LoginKeeps(s, e);
      case RotateLocks(_, _) =>
        RotateMoves(s, e);
        MovesKeep(s, Next(s, e), e.t);
      case RotateInserts(_, _) =>
        RotateMoves(s, e);
        MovesKeep(s, Next(s, e), e.t);
      case RotateCommits(_) => RotateCommitsKeeps(s, e);
      case RevokeLocksRow(_, _) =>
        RevokeLocksRowMoves(s, e);
        MovesKeep(s, Next(s, e), e.t);
      case RevokeCommits(_) => RevokeCommitsKeeps(s, e);
      case RevokeStarts(_) =>
        RevokeStartsMoves(s, e);
        MovesKeep(s, Next(s, e), e.t);
      case LogoutStarts(_, _) =>
        RevokeStartsMoves(s, e);
        MovesKeep(s, Next(s, e), e.t);
      case _ =>
        RevokeMoves(s, e);
        MovesKeep(s, Next(s, e), e.t);
    }
  }

  // ---------------------------------------------------------------- runs

  ghost predicate IsStep(s: State, e: Event, s': State) {
    Enabled(s, e) && s' == Next(s, e)
  }

  /** A run starts without tokens and without open transactions. */
  ghost predicate IsRun(states: seq<State>, events: seq<Event>) {
    && |states| == |events| + 1 && states[0] == State(map[], map[])
    && forall i | 0 <= i < |events| :: IsStep(states[i], events[i], states[i + 1])
  }

  lemma {:induction false} RunKeeps(states: seq<State>, events: seq<Event>, i: nat)
    requires IsRun(states, events) && i < |states|
    ensures Inv(states[i])
  {
    hide Next, Enabled;
    if i > 0 {
      hide Inv;
      RunKeeps(states, events, i - 1);
      assert IsStep(states[i - 1], events[i - 1], states[i - 1 + 1]);
      StepKeeps(states[i - 1], events[i - 1]);
    }
  }

  lemma RunStep(states: seq<State>, events: seq<Event>, i: nat)
    requires IsRun(states, events) && i < |events|
    ensures i + 1 < |states| && Inv(states[i]) && Enabled(states[i], events[i]) && states[i + 1] == Next(states[i], events[i])
  {
    hide Inv, Next, Enabled;
    RunKeeps(states, events, i);
    assert IsStep(states[i], events[i], states[i + 1]);
  }

  /** What holds at lock level as well: a family belongs to one user and has at most one unused token. */
  lemma OneUnusedToken(states: seq<State>, events: seq<Event>, i: nat, a: Id, b: Id)
    requires IsRun(states, events) && i < |states| && a in states[i].tokens && b in states[i].tokens
    requires states[i].tokens[a].family == states[i].tokens[b].family
    ensures states[i].tokens[a].user == states[i].tokens[b].user
    ensures !states[i].tokens[a].used && !states[i].tokens[b].used ==> a == b
  {
    hide IsRun, LocksCompatible, RotationsOk, RevocationsOk, NothingMissed;
    RunKeeps(states, events, i);
  }

  // Rows stay, with their family and user, and used and revoked for good.
  ghost predicate Later(a: map<Id, Row>, b: map<Id, Row>) {
    forall t | t in a ::
      && t in b && b[t].family == a[t].family && b[t].user == a[t].user
      && (a[t].used ==> b[t].used) && (a[t].revoked ==> b[t].revoked)
  }

  lemma StepLater(s: State, e: Event)
    requires Inv(s) && Enabled(s, e)
    ensures Later(s.tokens, Next(s, e).tokens)
  {
    hide LocksCompatible, RevocationsOk, NothingMissed, FamiliesOk;
  }

  lemma {:induction false} RunIsLater(states: seq<State>, events: seq<Event>, i: nat, j: nat)
    requires IsRun(states, events) && i <= j < |states|
    ensures Later(states[i].tokens, states[j].tokens)
  {
    hide Next, Enabled, Inv;
    if i < j {
      RunIsLater(states, events, i, j - 1);
      RunStep(states, events, j - 1);
      StepLater(states[j - 1], events[j - 1]);
    }
  }

  // ---------------------------------------------------------------- what ends a family

  /** The family has tokens and all of them are revoked. */
  ghost predicate FamilyEnded(tokens: map<Id, Row>, family: nat) {
    && (exists t :: t in tokens && tokens[t].family == family)
    && (forall t | t in tokens && tokens[t].family == family :: tokens[t].revoked)
  }

  // An ended family gets no further token: a rotation holds an unrevoked one.
  lemma EndedStays(s: State, e: Event, family: nat)
    requires Inv(s) && Enabled(s, e) && FamilyEnded(s.tokens, family)
    ensures FamilyEnded(Next(s, e).tokens, family)
  {
    hide LocksCompatible, RevocationsOk, NothingMissed, FamiliesOk;
    var t :| t in s.tokens && s.tokens[t].family == family;
    assert t in Next(s, e).tokens && Next(s, e).tokens[t].family == family;
  }

  lemma {:induction false} EndedForGood(states: seq<State>, events: seq<Event>, i: nat, j: nat, family: nat)
    requires IsRun(states, events) && i <= j < |states| && FamilyEnded(states[i].tokens, family)
    ensures FamilyEnded(states[j].tokens, family)
  {
    hide Next, Enabled, Inv, FamilyEnded;
    if i < j {
      EndedForGood(states, events, i, j - 1, family);
      RunStep(states, events, j - 1);
      EndedStays(states[j - 1], events[j - 1], family);
    }
  }

  /**
    A revocation that holds its user's row, as those after a reuse and in a suspension do, leaves no token in its scope
    unrevoked, however it interleaves: inserting a successor or storing a login takes the user's row as well.
   */
  lemma UserLockedRevokesAll(states: seq<State>, events: seq<Event>, j: nat, x: Id, t: Id)
    requires IsRun(states, events) && j < |events| && events[j] == RevokeCommits(x)
    requires x in states[j].open && states[j].open[x].Revoking? && !states[j].open[x].scope.OfFamily?
    requires t in states[j].tokens && states[j].open[x].scope.Covers(states[j].tokens[t])
    ensures t in states[j + 1].tokens && states[j + 1].tokens[t].revoked
  {
    hide IsRun;
    RunStep(states, events, j);
    hide FamiliesOk, LocksCompatible, RotationsOk, RevocationsOk;
    var scope := states[j].open[x].scope;
    if !states[j].tokens[t].revoked { assert t in Matching(states[j].tokens, scope); }
  }

  // Every family in the scope is ended for good.
  lemma UserLockedEndsFamilies(states: seq<State>, events: seq<Event>, j: nat, m: nat, x: Id, t: Id)
    requires IsRun(states, events) && j < |events| && j < m < |states| && events[j] == RevokeCommits(x)
    requires x in states[j].open && states[j].open[x].Revoking? && !states[j].open[x].scope.OfFamily?
    requires t in states[j].tokens && states[j].open[x].scope.Covers(states[j].tokens[t])
    ensures FamilyEnded(states[m].tokens, states[j].tokens[t].family)
  {
    hide IsRun, Matching;
    RunStep(states, events, j);
    StepLater(states[j], events[j]);
    hide LocksCompatible, RotationsOk, RevocationsOk, NothingMissed;
    var family, after := states[j].tokens[t].family, states[j + 1].tokens;
    forall k | k in after && after[k].family == family
      ensures after[k].revoked
    {
      UserLockedRevokesAll(states, events, j, x, k);
    }
    assert t in after && after[t].family == family;
    EndedForGood(states, events, j + 1, m, family);
  }

  // ---------------------------------------------------------------- logout

  // Step `i` starts the UPDATE of a logout as transaction `x`, step `j` commits it, and in between it is open.
  ghost predicate LogoutFromTo(states: seq<State>, events: seq<Event>, i: nat, j: nat, x: Id, family: nat) {
    && i < j < |events| && j + 1 < |states| && events[i] == LogoutStarts(x, family) && events[j] == RevokeCommits(x)
    && forall k | i < k < j :: events[k] != RevokeCommits(x) && events[k] != RollsBack(x)
  }

  // Step `k` commits a rotation in the family.
  predicate RotatesAt(states: seq<State>, events: seq<Event>, k: nat, family: nat) {
    && k < |events| && k < |states| && events[k].RotateCommits? && events[k].t in states[k].open
    && states[k].open[events[k].t].RotateInserted? && states[k].open[events[k].t].row.family == family
  }

  // What the UPDATE still has to lock and what it has locked are rows of its snapshot; of those it leaves out none.
  ghost predicate OnSnapshot(start: map<Id, Row>, s: State, x: Id, family: nat) {
    && x in s.open && s.open[x].Revoking? && s.open[x].scope == OfFamily(family)
    && (forall t | t in s.open[x].todo || t in s.open[x].done :: t in start && start[t].family == family)
    && (forall t | t in start && start[t].family == family && t in s.tokens && !s.tokens[t].revoked ::
          t in s.open[x].todo || t in s.open[x].done)
  }

  lemma StartsOnSnapshot(s: State, x: Id, family: nat)
    requires Enabled(s, LogoutStarts(x, family))
    ensures OnSnapshot(s.tokens, Next(s, LogoutStarts(x, family)), x, family)
  {
    forall t | t in s.tokens && s.tokens[t].family == family && !s.tokens[t].revoked
      ensures t in Matching(s.tokens, OfFamily(family))
    {
    }
  }

  lemma StaysOnSnapshot(start: map<Id, Row>, s: State, e: Event, x: Id, family: nat)
    requires Inv(s) && Enabled(s, e) && OnSnapshot(start, s, x, family) && Later(start, s.tokens)
    requires e != RevokeCommits(x) && e != RollsBack(x)
    ensures OnSnapshot(start, Next(s, e), x, family)
  {
    hide Inv, Matching;
    StepLater(s, e);
  }

  lemma {:induction false} KeepsSnapshot(states: seq<State>, events: seq<Event>, i: nat, j: nat, k: nat, x: Id, family: nat)
    requires IsRun(states, events) && LogoutFromTo(states, events, i, j, x, family) && i < k <= j
    ensures OnSnapshot(states[i].tokens, states[k], x, family)
  {
    hide IsRun, Next, Enabled, Inv, OnSnapshot, Later;
    RunStep(states, events, k - 1);
    if k == i + 1 {
      StartsOnSnapshot(states[i], x, family);
    } else {
      KeepsSnapshot(states, events, i, j, k - 1, x, family);
      RunIsLater(states, events, i, k - 1);
      StaysOnSnapshot(states[i].tokens, states[k - 1], events[k - 1], x, family);
    }
  }

  lemma CommitRevokes(start: map<Id, Row>, s: State, x: Id, family: nat, t: Id)
    requires Enabled(s, RevokeCommits(x)) && OnSnapshot(start, s, x, family) && t in s.tokens && s.tokens[t].family == family
    requires Later(start, s.tokens)
    ensures var s' := Next(s, RevokeCommits(x));
            t in s'.tokens && s'.tokens[t].family == family && (s'.tokens[t].revoked <==> t in start || s.tokens[t].revoked)
  {
  }

  /**
    What a logout revokes: of the tokens the family has when its UPDATE commits, exactly those that were committed when
    the UPDATE took its snapshot, besides those that are revoked already.
   */
  lemma LogoutRevokesSnapshot(states: seq<State>, events: seq<Event>, i: nat, j: nat, x: Id, family: nat, t: Id)
    requires IsRun(states, events) && LogoutFromTo(states, events, i, j, x, family)
    requires t in states[j].tokens && states[j].tokens[t].family == family
    ensures t in states[j + 1].tokens && states[j + 1].tokens[t].family == family
    ensures states[j + 1].tokens[t].revoked <==> t in states[i].tokens || states[j].tokens[t].revoked
  {
    hide IsRun, Next, Enabled, Inv, OnSnapshot, Later;
    RunStep(states, events, j);
    KeepsSnapshot(states, events, i, j, j, x, family);
    RunIsLater(states, events, i, j);
    CommitRevokes(states[i].tokens, states[j], x, family, t);
  }

  // A token that joins a family which has one already is a successor.
  lemma NewTokenIsSuccessor(s: State, e: Event, t: Id, k: Id)
    requires Inv(s) && Enabled(s, e) && t !in s.tokens && t in Next(s, e).tokens
    requires k in s.tokens && s.tokens[k].family == Next(s, e).tokens[t].family
    ensures e.RotateCommits? && s.open[e.t].next == t && s.open[e.t].row.family == s.tokens[k].family
  {
    hide Inv;
  }

  lemma {:induction false} NewTokenWasRotated(states: seq<State>, events: seq<Event>, i: nat, j: nat, family: nat, k: Id, t: Id)
    returns (n: nat)
    requires IsRun(states, events) && i <= j < |states| && k in states[i].tokens && states[i].tokens[k].family == family
    requires t in states[j].tokens && states[j].tokens[t].family == family && t !in states[i].tokens
    ensures i <= n < j && RotatesAt(states, events, n, family)
  {
    hide IsRun, Next, Enabled, Inv;
    RunLength(states, events);
    RunIsLater(states, events, i, j - 1);
    RunIsLater(states, events, j - 1, j);
    if t in states[j - 1].tokens {
      n := NewTokenWasRotated(states, events, i, j - 1, family, k, t);
    } else {
      n := j - 1;
      RunStep(states, events, n);
      NewTokenIsSuccessor(states[n], events[n], t, k);
      CommittingRotation(states[n], events[n]);
    }
  }

  lemma CommittingRotation(s: State, e: Event)
    requires Enabled(s, e) && e.RotateCommits?
    ensures e.t in s.open && s.open[e.t].RotateInserted?
  {
  }

  lemma RunLength(states: seq<State>, events: seq<Event>)
    requires IsRun(states, events)
    ensures |states| == |events| + 1
  {
  }

  /**
    Exactly when a logout ends the family: if and only if every token of the family that was committed after the UPDATE
    took its snapshot has been revoked by somebody else. Then the family is ended for good.
   */
  lemma LogoutEndsIff(states: seq<State>, events: seq<Event>, i: nat, j: nat, x: Id, family: nat, k: Id)
    requires IsRun(states, events) && LogoutFromTo(states, events, i, j, x, family)
    requires k in states[i].tokens && states[i].tokens[k].family == family
    ensures FamilyEnded(states[j + 1].tokens, family) <==>
              forall t | t in states[j].tokens && states[j].tokens[t].family == family && t !in states[i].tokens ::
                states[j].tokens[t].revoked
    ensures FamilyEnded(states[j + 1].tokens, family) ==>
              forall m | j < m < |states| :: FamilyEnded(states[m].tokens, family)
  {
    hide IsRun, Next, Enabled, Inv, FamilyEnded;
    CommitAddsNothing(states, events, i, j, x, family);
    RunIsLater(states, events, i, j);
    LogoutRevokesSnapshot(states, events, i, j, x, family, k);
    forall t | t in states[j].tokens && states[j].tokens[t].family == family
      ensures t in states[j + 1].tokens && states[j + 1].tokens[t].family == family
      ensures states[j + 1].tokens[t].revoked <==> t in states[i].tokens || states[j].tokens[t].revoked
    {
      LogoutRevokesSnapshot(states, events, i, j, x, family, t);
    }
    EndedIff(states[i].tokens, states[j].tokens, states[j + 1].tokens, family, k);
    if FamilyEnded(states[j + 1].tokens, family) {
      forall m | j < m < |states|
        ensures FamilyEnded(states[m].tokens, family)
      {
        EndedForGood(states, events, j + 1, m, family);
      }
    }
  }

  lemma EndedIff(start: map<Id, Row>, before: map<Id, Row>, after: map<Id, Row>, family: nat, k: Id)
    requires k in start && k in before && before[k].family == family
    requires forall t | t in after :: t in before && after[t].family == before[t].family
    requires forall t | t in before && before[t].family == family ::
               t in after && after[t].family == family && (after[t].revoked <==> t in start || before[t].revoked)
    ensures FamilyEnded(after, family) <==>
              forall t | t in before && before[t].family == family && t !in start :: before[t].revoked
  {
    assert k in after && after[k].family == family;
  }

  lemma CommitAddsNothing(states: seq<State>, events: seq<Event>, i: nat, j: nat, x: Id, family: nat)
    requires IsRun(states, events) && LogoutFromTo(states, events, i, j, x, family)
    ensures forall t | t in states[j + 1].tokens :: t in states[j].tokens && states[j + 1].tokens[t].family == states[j].tokens[t].family
  {
    hide IsRun, Inv;
    RunStep(states, events, j);
  }

  lemma StartIsNoRotation(states: seq<State>, events: seq<Event>, i: nat, n: nat, family: nat)
    requires i < |events| && events[i].LogoutStarts? && RotatesAt(states, events, n, family)
    ensures n != i
  {
  }

  /** A logout ends the family for good unless a rotation of the family commits while its UPDATE runs. */
  lemma LogoutEndsUnlessRotated(states: seq<State>, events: seq<Event>, i: nat, j: nat, m: nat, x: Id, family: nat, k: Id)
    requires IsRun(states, events) && LogoutFromTo(states, events, i, j, x, family) && j < m < |states|
    requires k in states[i].tokens && states[i].tokens[k].family == family
    requires forall n | i < n < j :: !RotatesAt(states, events, n, family)
    ensures FamilyEnded(states[m].tokens, family)
  {
    hide IsRun, FamilyEnded;
    if t :| t in states[j].tokens && states[j].tokens[t].family == family && t !in states[i].tokens {
      var n := NewTokenWasRotated(states, events, i, j, family, k, t);
      StartIsNoRotation(states, events, i, n, family);
      assert false;
    }
    LogoutEndsIff(states, events, i, j, x, family, k);
  }

  lemma OnlyRevocationsRevoke(s: State, e: Event, t: Id)
    requires Inv(s) && Enabled(s, e) && t in s.tokens && !s.tokens[t].revoked && !e.RevokeCommits?
    ensures t in Next(s, e).tokens && !Next(s, e).tokens[t].revoked
  {
    hide LocksCompatible, RevocationsOk, NothingMissed, FamiliesOk;
  }

  lemma {:induction false} UnrevokedStays(states: seq<State>, events: seq<Event>, i: nat, j: nat, t: Id)
    requires IsRun(states, events) && i <= j < |states| && t in states[i].tokens && !states[i].tokens[t].revoked
    requires forall n | i <= n < j && n < |events| :: !events[n].RevokeCommits?
    ensures t in states[j].tokens && !states[j].tokens[t].revoked
  {
    hide IsRun, Next, Enabled, Inv;
    RunLength(states, events);
    if i < j {
      UnrevokedStays(states, events, i, j - 1, t);
      RunStep(states, events, j - 1);
      OnlyRevocationsRevoke(states[j - 1], events[j - 1], t);
    }
  }

  lemma RotationAdds(s: State, e: Event)
    requires Inv(s) && Enabled(s, e) && e.RotateCommits?
    ensures var x := s.open[e.t];
            x.next !in s.tokens && x.next in Next(s, e).tokens && Next(s, e).tokens[x.next] == x.row && !x.row.revoked
  {
  }

  /** And if no other revocation commits meanwhile, only then: a successor committed meanwhile stays unrevoked. */
  lemma LogoutAloneEndsIff(states: seq<State>, events: seq<Event>, i: nat, j: nat, x: Id, family: nat, k: Id)
    requires IsRun(states, events) && LogoutFromTo(states, events, i, j, x, family)
    requires k in states[i].tokens && states[i].tokens[k].family == family
    requires forall n | i < n < j :: !events[n].RevokeCommits?
    ensures FamilyEnded(states[j + 1].tokens, family) <==> forall n | i < n < j :: !RotatesAt(states, events, n, family)
  {
    hide IsRun, FamilyEnded, Next, Enabled, Inv;
    RunLength(states, events);
    if n :| i < n < j && RotatesAt(states, events, n, family) {
      RunStep(states, events, n);
      RotationAdds(states[n], events[n]);
      var t := states[n].open[events[n].t].next;
      RunIsLater(states, events, i, n);
      RunIsLater(states, events, n + 1, j);
      UnrevokedStays(states, events, n + 1, j, t);
      LogoutEndsIff(states, events, i, j, x, family, k);
    } else {
      LogoutEndsUnlessRotated(states, events, i, j, j + 1, x, family, k);
    }
  }

  /** From the moment the UPDATE holds the unused token of the family, no rotation of the family can commit. */
  lemma DecidedByLastLock(s: State, x: Id, t: Id, y: Id)
    requires Inv(s) && x in s.open && s.open[x].Revoking? && t in s.open[x].done && !s.tokens[t].used
    requires y in s.open && (s.open[y].RotateLocked? || s.open[y].RotateInserted?)
    ensures s.open[y].token in s.tokens && s.tokens[s.open[y].token].family != s.tokens[t].family
  {
    assert s.open[y].token in s.open[y].Rows() && t in s.open[x].Rows();
  }

  // ---------------------------------------------------------------- a concrete case

  /**
    A rotation has locked the token; the logout finds that token alone and waits for it; the rotation commits; the
    logout revokes the old token. The successor is neither used nor revoked, and is rotated in its turn.
   */
  lemma LogoutMissesSuccessor() returns (states: seq<State>, events: seq<Event>)
    ensures IsRun(states, events) && |states| == 11 && LogoutFromTo(states, events, 3, 6, 6, 88)
    ensures events == [LoginStores(2, 1, 88), RotateLocks(5, 2), RotateInserts(5, 3), LogoutStarts(6, 88), RotateCommits(5),
                       RevokeLocksRow(6, 2), RevokeCommits(6), RotateLocks(7, 3), RotateInserts(7, 4), RotateCommits(7)]
    ensures !FamilyEnded(states[7].tokens, 88) && RotatesAt(states, events, 9, 88)
  {
    EarlySteps();
    LogoutFindsOldToken();
    RotationCommits();
    LogoutLocksOldToken();
    LogoutCommits();
    LateSteps();
    CaseEnds();
    hide IsStep, CaseState, FamilyEnded;
    states := [CaseState(0), CaseState(1), CaseState(2), CaseState(3), CaseState(4), CaseState(5), CaseState(6),
               CaseState(7), CaseState(8), CaseState(9), CaseState(10)];
    events := [LoginStores(2, 1, 88), RotateLocks(5, 2), RotateInserts(5, 3), LogoutStarts(6, 88), RotateCommits(5),
               RevokeLocksRow(6, 2), RevokeCommits(6), RotateLocks(7, 3), RotateInserts(7, 4), RotateCommits(7)];
  }

  function CaseState(k: nat): State {
    var unused, used, ended := Row(1, 88, false, false), Row(1, 88, true, false), Row(1, 88, true, true);
    var rotating := RotateInserted(2, 3, unused);
    if k == 0 then State(map[], map[])
    else if k == 1 then State(map[2 := unused], map[])
    else if k == 2 then State(map[2 := unused], map[5 := RotateLocked(2)])
    else if k == 3 then State(map[2 := unused], map[5 := rotating])
    else if k == 4 then State(map[2 := unused], map[5 := rotating, 6 := Revoking(OfFamily(88), None, {2}, {})])
    else if k == 5 then State(map[2 := used, 3 := unused], map[6 := Revoking(OfFamily(88), None, {2}, {})])
    else if k == 6 then State(map[2 := used, 3 := unused], map[6 := Revoking(OfFamily(88), None, {}, {2})])
    else if k == 7 then State(map[2 := ended, 3 := unused], map[])
    else if k == 8 then State(map[2 := ended, 3 := unused], map[7 := RotateLocked(3)])
    else if k == 9 then State(map[2 := ended, 3 := unused], map[7 := RotateInserted(3, 4, unused)])
    else State(map[2 := ended, 3 := used, 4 := unused], map[])
  }

  lemma EarlySteps()
    ensures IsStep(CaseState(0), LoginStores(2, 1, 88), CaseState(1))
    ensures IsStep(CaseState(1), RotateLocks(5, 2), CaseState(2))
    ensures IsStep(CaseState(2), RotateInserts(5, 3), CaseState(3))
  {
  }

  lemma LogoutFindsOldToken()
    ensures IsStep(CaseState(3), LogoutStarts(6, 88), CaseState(4))
  {
    assert Matching(CaseState(3).tokens, OfFamily(88)) == {2};
  }

  lemma RotationCommits()
    ensures IsStep(CaseState(4), RotateCommits(5), CaseState(5))
  {
    assert Next(CaseState(4), RotateCommits(5)).open == CaseState(5).open;
  }

  lemma LogoutLocksOldToken()
    ensures IsStep(CaseState(5), RevokeLocksRow(6, 2), CaseState(6))
  {
    assert {2} - {2} == {};
    assert {} + {2} == {2};
  }

  lemma LogoutCommits()
    ensures IsStep(CaseState(6), RevokeCommits(6), CaseState(7))
  {
    assert Next(CaseState(6), RevokeCommits(6)).open == CaseState(7).open;
  }

  lemma LateSteps()
    ensures IsStep(CaseState(7), RotateLocks(7, 3), CaseState(8))
    ensures IsStep(CaseState(8), RotateInserts(7, 4), CaseState(9))
    ensures IsStep(CaseState(9), RotateCommits(7), CaseState(10))
  {
    assert Next(CaseState(9), RotateCommits(7)).open == CaseState(10).open;
  }

  lemma CaseEnds()
    ensures CaseState(0) == State(map[], map[]) && !FamilyEnded(CaseState(7).tokens, 88)
    ensures 7 in CaseState(9).open && CaseState(9).open[7].RotateInserted? && CaseState(9).open[7].row.family == 88
  {
    assert 3 in CaseState(7).tokens && !CaseState(7).tokens[3].revoked;
  }
}
