/**
  CreateWithIdempotency (backend/repository/video_repository.go): calls that read, insert and read again in separate
  steps, interleaved with each other and with the sweep of expired records, behave as if served one after another.
 */
module Idempotency {
  import opened Common

  /** Hashes are taken as injective; the only scope is that of video creation. */
  datatype Request = Request(userId: Id, keyHash: nat, requestHash: nat, objectKey: Key, expiresAt: Time)

  datatype Record = Record(userId: Id, keyHash: nat, requestHash: nat, resource: Id, expiresAt: Time) {
    predicate IsFor(userId: Id, keyHash: nat) {
      this.userId == userId && this.keyHash == keyHash
    }
  }

  // The columns of a video that the request determines.
  datatype VideoRow = VideoRow(userId: Id, objectKey: Key, requestHash: nat)

  datatype Tables = Tables(nextId: Id, videos: map<Id, VideoRow>, records: map<Id, Record>)

  datatype Outcome = Created(video: Id) | Existing(video: Id) | Conflict | Lost

  predicate Remembered(t: Tables, userId: Id, keyHash: nat) {
    exists r :: r in t.records && t.records[r].IsFor(userId, keyHash)
  }

  // The record a lookup finds.
  predicate Finds(t: Tables, q: Request, row: Option<Id>) {
    match row
    case Some(r) => r in t.records && t.records[r].IsFor(q.userId, q.keyHash)
    case None => !Remembered(t, q.userId, q.keyHash)
  }

  // loadIdempotentVideo
  function Answer(record: Record, q: Request): Outcome {
    if record.requestHash != q.requestHash then Conflict else Existing(record.resource)
  }

  // Both inserts of a creation.
  function Inserted(t: Tables, q: Request): Tables {
    Tables(t.nextId + 2,
           t.videos[t.nextId := VideoRow(q.userId, q.objectKey, q.requestHash)],
           t.records[t.nextId + 1 := Record(q.userId, q.keyHash, q.requestHash, t.nextId, q.expiresAt)])
  }

  /** A creation that nobody interferes with. */
  ghost function Serve(t: Tables, q: Request): (Tables, Outcome) {
    if Remembered(t, q.userId, q.keyHash) then
      var r :| r in t.records && t.records[r].IsFor(q.userId, q.keyHash);
      (t, Answer(t.records[r], q))
    else (Inserted(t, q), Created(t.nextId))
  }

  // ---------------------------------------------------------------- concurrent calls

  datatype Call = Reading(q: Request) | Inserting(q: Request) | Rereading(q: Request)

  /** What has been served so far: calls in the order of their decisive steps, and sweeps. */
  datatype Op = Served(q: Request, outcome: Outcome) | Swept(records: set<Id>)

  datatype World = World(tables: Tables, calls: map<Id, Call>, log: seq<Op>)

  datatype Event =
    | Begins(call: Id, q: Request)
    | Reads(call: Id, row: Option<Id>)
    | Inserts(call: Id)
    | Rereads(call: Id, row: Option<Id>)
    | Aborts(call: Id)
    | Sweeps(records: set<Id>, now: Time)

  predicate Enabled(w: World, e: Event) {
    match e
    case Begins(c, _) => c !in w.calls
    case Reads(c, row) => c in w.calls && w.calls[c].Reading? && Finds(w.tables, w.calls[c].q, row)
    case Inserts(c) => c in w.calls && w.calls[c].Inserting?
    case Rereads(c, row) => c in w.calls && w.calls[c].Rereading? && Finds(w.tables, w.calls[c].q, row)
    case Aborts(c) => c in w.calls
    case Sweeps(rows, now) => forall r | r in rows :: r in w.tables.records && w.tables.records[r].expiresAt <= now
  }

  function Finish(w: World, c: Id, t: Tables, outcome: Outcome): World
    requires c in w.calls
  {
    World(t, w.calls - {c}, w.log + [Served(w.calls[c].q, outcome)])
  }

  function Next(w: World, e: Event): World
    requires Enabled(w, e)
  {
    match e
    case Begins(c, q) => w.(calls := w.calls[c := Reading(q)])
    case Reads(c, row) =>
      if row.Some? then Finish(w, c, w.tables, Answer(w.tables.records[row.value], w.calls[c].q))
      else w.(calls := w.calls[c := Inserting(w.calls[c].q)])
    case Inserts(c) =>
      // A violation of uq_idempotency_records_user_scope_key takes the inserted video back with it.
      if Remembered(w.tables, w.calls[c].q.userId, w.calls[c].q.keyHash) then w.(calls := w.calls[c := Rereading(w.calls[c].q)])
      else Finish(w, c, Inserted(w.tables, w.calls[c].q), Created(w.tables.nextId))
    case Rereads(c, row) =>
      Finish(w, c, w.tables, if row.Some? then Answer(w.tables.records[row.value], w.calls[c].q) else Lost)
    case Aborts(c) => w.(calls := w.calls - {c})
    case Sweeps(rows, _) =>
      w.(tables := w.tables.(records := w.tables.records - rows), log := w.log + [Swept(rows)])
  }

  // ---------------------------------------------------------------- the tables

  /** Each key is remembered once, for a video its user created with the remembered request. */
  ghost predicate TablesOk(t: Tables) {
    && (forall r, s | r in t.records && s in t.records && t.records[r].IsFor(t.records[s].userId, t.records[s].keyHash) :: r == s)
    && (forall r | r in t.records ::
          var record := t.records[r];
          && r < t.nextId && record.resource in t.videos
          && t.videos[record.resource].userId == record.userId && t.videos[record.resource].requestHash == record.requestHash)
    && (forall v | v in t.videos :: v < t.nextId)
    && (forall r, s | r in t.records && s in t.records && r != s :: t.records[r].resource != t.records[s].resource)
  }

  lemma InsertedOk(t: Tables, q: Request)
    requires TablesOk(t) && !Remembered(t, q.userId, q.keyHash)
    ensures TablesOk(Inserted(t, q))
  {
  }

  lemma SweptOk(t: Tables, rows: set<Id>)
    requires TablesOk(t)
    ensures TablesOk(t.(records := t.records - rows))
  {
  }

  lemma ServedByRow(t: Tables, q: Request, row: Id)
    requires TablesOk(t) && Finds(t, q, Some(row))
    ensures Serve(t, q) == (t, Answer(t.records[row], q))
  {
  }

  // ---------------------------------------------------------------- the serial order

  // One entry of the log; a lost call does nothing.
  ghost function Apply(t: Tables, op: Op): Tables {
    if op.Swept? then t.(records := t.records - op.records)
    else if op.outcome == Lost then t
    else Serve(t, op.q).0
  }

  // The call got the answer it would have got alone; it is lost only when its key is not remembered.
  ghost predicate Truthful(t: Tables, op: Op) {
    op.Served? ==>
      if op.outcome == Lost then !Remembered(t, op.q.userId, op.q.keyHash) else op.outcome == Serve(t, op.q).1
  }

  /** The tables after serving a log one entry at a time. */
  ghost function Replay(t: Tables, log: seq<Op>): Tables {
    if log == [] then t else Apply(Replay(t, log[..|log| - 1]), log[|log| - 1])
  }

  /** Every answer in the log is that of the serial order. */
  ghost predicate Faithful(t: Tables, log: seq<Op>) {
    forall i | 0 <= i < |log| :: Truthful(Replay(t, log[..i]), log[i])
  }

  ghost predicate Inv(initial: Tables, w: World) {
    && TablesOk(w.tables) && w.tables == Replay(initial, w.log) && Faithful(initial, w.log)
  }

  lemma Logged(initial: Tables, log: seq<Op>, op: Op)
    requires Faithful(initial, log) && Truthful(Replay(initial, log), op)
    ensures Faithful(initial, log + [op]) && Replay(initial, log + [op]) == Apply(Replay(initial, log), op)
  {
    hide Truthful, Apply;
    assert (log + [op])[..|log|] == log;
    assert forall i | 0 <= i < |log| :: (log + [op])[..i] == log[..i] && (log + [op])[i] == log[i];
  }

  lemma StepKeeps(initial: Tables, w: World, e: Event)
    requires Inv(initial, w) && Enabled(w, e)
    ensures Inv(initial, Next(w, e))
  {
    hide Replay, Faithful;
    var w' := Next(w, e);
    if |w'.log| > |w.log| {
      var op := w'.log[|w.log|];
      match e {
        case Reads(c, row) => ServedByRow(w.tables, w.calls[c].q, row.value);
        case Rereads(c, row) => if row.Some? { ServedByRow(w.tables, w.calls[c].q, row.value); }
        case Inserts(c) => InsertedOk(w.tables, w.calls[c].q);
        case Sweeps(rows, _) => SweptOk(w.tables, rows);
      }
      hide TablesOk;
      Logged(initial, w.log, op);
    }
  }

  /** A run from any coherent tables, with no call in progress. */
  ghost predicate IsRun(worlds: seq<World>, events: seq<Event>) {
    && |worlds| == |events| + 1 && TablesOk(worlds[0].tables) && worlds[0].calls == map[] && worlds[0].log == []
    && forall i | 0 <= i < |events| :: IsStep(worlds[i], events[i], worlds[i + 1])
  }

  ghost predicate IsStep(w: World, e: Event, w': World) {
    Enabled(w, e) && w' == Next(w, e)
  }

  /**
    Creation linearizes: in every state of every run the tables, and the answers of all calls so far, are those of
    serving the calls one after another in the order of their decisive steps, sweeps in between.
   */
  lemma {:induction false} CreationLinearizes(worlds: seq<World>, events: seq<Event>, i: nat)
    requires IsRun(worlds, events) && i < |worlds|
    ensures worlds[i].tables == Replay(worlds[0].tables, worlds[i].log) && Faithful(worlds[0].tables, worlds[i].log)
    ensures TablesOk(worlds[i].tables)
  {
    if i > 0 {
      CreationLinearizes(worlds, events, i - 1);
      assert IsStep(worlds[i - 1], events[i - 1], worlds[i - 1 + 1]);
      hide Next, Enabled, TablesOk, Replay, Faithful;
      StepKeeps(worlds[0].tables, worlds[i - 1], events[i - 1]);
    }
  }

  // ---------------------------------------------------------------- what the serial order means for callers

  lemma {:induction false} ReplayOk(t: Tables, log: seq<Op>)
    requires TablesOk(t)
    ensures TablesOk(Replay(t, log))
  {
    hide TablesOk;
    if log != [] {
      var before := Replay(t, log[..|log| - 1]);
      ReplayOk(t, log[..|log| - 1]);
      match log[|log| - 1] {
        case Served(q, _) =>
          if !Remembered(before, q.userId, q.keyHash) { InsertedOk(before, q); }
        case Swept(rows) => SweptOk(before, rows);
      }
    }
  }

  // The key is remembered for this video and request.
  ghost predicate Names(t: Tables, userId: Id, keyHash: nat, video: Id, requestHash: nat) {
    exists r :: r in t.records && t.records[r].IsFor(userId, keyHash) && t.records[r].resource == video
                && t.records[r].requestHash == requestHash
  }

  lemma ServeNames(t: Tables, q: Request)
    requires TablesOk(t)
    ensures var s := Serve(t, q);
            s.1.Created? || s.1.Existing? ==> Names(s.0, q.userId, q.keyHash, s.1.video, q.requestHash)
  {
    var s := Serve(t, q);
    if s.1.Created? { assert s.0.records[t.nextId + 1].IsFor(q.userId, q.keyHash); }
  }

  lemma NamedAnswers(t: Tables, q: Request, video: Id, requestHash: nat)
    requires TablesOk(t) && Names(t, q.userId, q.keyHash, video, requestHash)
    ensures Serve(t, q) == (t, if q.requestHash == requestHash then Existing(video) else Conflict)
  {
    var r :| r in t.records && t.records[r].IsFor(q.userId, q.keyHash) && t.records[r].resource == video
             && t.records[r].requestHash == requestHash;
    ServedByRow(t, q, r);
  }

  // As long as it is not swept, a key keeps naming the same video.
  lemma {:induction false} NamesStay(t: Tables, log: seq<Op>, i: nat, j: nat, userId: Id, keyHash: nat, video: Id,
                                     requestHash: nat)
    requires TablesOk(t) && i <= j <= |log| && Names(Replay(t, log[..i]), userId, keyHash, video, requestHash)
    requires forall k | i <= k <= j :: Remembered(Replay(t, log[..k]), userId, keyHash)
    ensures Names(Replay(t, log[..j]), userId, keyHash, video, requestHash)
  {
    if i < j {
      NamesStay(t, log, i, j - 1, userId, keyHash, video, requestHash);
      assert log[..j][..j - 1] == log[..j - 1];
      var before, after := Replay(t, log[..j - 1]), Replay(t, log[..j]);
      ReplayOk(t, log[..j - 1]);
      var r :| r in before.records && before.records[r].IsFor(userId, keyHash) && before.records[r].resource == video
               && before.records[r].requestHash == requestHash;
      var s :| s in after.records && after.records[s].IsFor(userId, keyHash);
      if log[j - 1].Served? && log[j - 1].outcome != Lost {
        assert r in after.records;
      }
    }
  }

  /**
    Once a call got a video for its key, every later call with that key gets the same video if its request is the
    same and a conflict if not, until the record is swept; and it changes nothing.
   */
  lemma SameKeySameVideo(t: Tables, log: seq<Op>, i: nat, j: nat)
    requires TablesOk(t) && Faithful(t, log) && i < j < |log| && log[i].Served? && log[j].Served?
    requires log[i].outcome.Created? || log[i].outcome.Existing?
    requires log[j].q.userId == log[i].q.userId && log[j].q.keyHash == log[i].q.keyHash
    requires forall k | i < k <= j :: Remembered(Replay(t, log[..k]), log[i].q.userId, log[i].q.keyHash)
    ensures log[j].outcome
            == if log[j].q.requestHash == log[i].q.requestHash then Existing(log[i].outcome.video) else Conflict
    ensures Replay(t, log[..j + 1]) == Replay(t, log[..j])
  {
    hide Serve, TablesOk, Faithful, Remembered, Names, Replay;
    var q := log[i].q;
    ServedNames(t, log, i);
    NamesStay(t, log, i + 1, j, q.userId, q.keyHash, log[i].outcome.video, q.requestHash);
    assert Remembered(Replay(t, log[..j]), q.userId, q.keyHash);
    ServedNext(t, log, j);
    ReplayOk(t, log[..j]);
    NamedAnswers(Replay(t, log[..j]), log[j].q, log[i].outcome.video, q.requestHash);
  }

  lemma ServedNext(t: Tables, log: seq<Op>, j: nat)
    requires Faithful(t, log) && j < |log|
    ensures Truthful(Replay(t, log[..j]), log[j]) && Replay(t, log[..j + 1]) == Apply(Replay(t, log[..j]), log[j])
  {
    hide Truthful, Apply;
    assert log[..j + 1][..j] == log[..j];
  }

  lemma ServedNames(t: Tables, log: seq<Op>, i: nat)
    requires TablesOk(t) && Faithful(t, log) && i < |log| && log[i].Served?
    requires log[i].outcome.Created? || log[i].outcome.Existing?
    ensures Names(Replay(t, log[..i + 1]), log[i].q.userId, log[i].q.keyHash, log[i].outcome.video, log[i].q.requestHash)
  {
    assert Truthful(Replay(t, log[..i]), log[i]);
    ReplayOk(t, log[..i]);
    hide Serve, Remembered, Faithful;
    ServeNames(Replay(t, log[..i]), log[i].q);
    hide TablesOk, Names;
    assert log[..i + 1][..i] == log[..i];
  }

  /** Only a creation adds a video, exactly one; conflicts, repetitions and lost calls leave the tables alone. */
  lemma OnlyCreationInserts(t: Tables, log: seq<Op>, i: nat)
    requires TablesOk(t) && Faithful(t, log) && i < |log| && log[i].Served?
    ensures var before, after := Replay(t, log[..i]), Replay(t, log[..i + 1]);
            if log[i].outcome.Created? then
              log[i].outcome.video !in before.videos && after == Inserted(before, log[i].q)
              && after.videos.Keys == before.videos.Keys + {log[i].outcome.video}
            else after == before
  {
    assert log[..i + 1][..i] == log[..i];
    ReplayOk(t, log[..i]);
  }

  /** A key is remembered until its time: no record goes before it expires, and none ever changes. */
  lemma RecordsLast(w: World, e: Event, r: Id)
    requires TablesOk(w.tables) && Enabled(w, e) && r in w.tables.records
    ensures var t := Next(w, e).tables;
            if r in t.records then t.records[r] == w.tables.records[r]
            else e.Sweeps? && r in e.records && w.tables.records[r].expiresAt <= e.now
  {
  }

  // ---------------------------------------------------------------- whose answer it is

  // The user has used the key before, for a request with that hash and a video.
  ghost predicate Used(t: Tables, userId: Id, keyHash: nat, requestHash: nat, video: Id) {
    exists r :: r in t.records && t.records[r].userId == userId && t.records[r].keyHash == keyHash
                && t.records[r].requestHash == requestHash && t.records[r].resource == video
  }

  ghost predicate Unused(t: Tables, userId: Id, keyHash: nat) {
    forall r | r in t.records :: t.records[r].userId != userId || t.records[r].keyHash != keyHash
  }

  /** What a call makes of the tables: keys are each user's own, so nobody is answered with another's video. */
  ghost predicate AnsweredRightly(t: Tables, t': Tables, q: Request, outcome: Outcome) {
    match outcome
    case Created(v) =>
      && Unused(t, q.userId, q.keyHash) && v !in t.videos
      && t'.videos == t.videos[v := VideoRow(q.userId, q.objectKey, q.requestHash)]
      && (exists r: Id :: r !in t.records && t'.records == t.records[r := Record(q.userId, q.keyHash, q.requestHash, v, q.expiresAt)])
    case Existing(v) =>
      && t' == t && Used(t, q.userId, q.keyHash, q.requestHash, v)
      && v in t.videos && t.videos[v].userId == q.userId && t.videos[v].requestHash == q.requestHash
    case Conflict => t' == t && exists h, v :: h != q.requestHash && Used(t, q.userId, q.keyHash, h, v)
    case Lost => t' == t && Unused(t, q.userId, q.keyHash)
  }

  lemma ServedRightly(t: Tables, q: Request)
    requires TablesOk(t)
    ensures AnsweredRightly(t, Serve(t, q).0, q, Serve(t, q).1)
  {
    if Remembered(t, q.userId, q.keyHash) {
      var r :| r in t.records && t.records[r].IsFor(q.userId, q.keyHash);
      ServedByRow(t, q, r);
      assert Used(t, q.userId, q.keyHash, t.records[r].requestHash, t.records[r].resource);
    } else {
      var t' := Inserted(t, q);
      var row := Record(q.userId, q.keyHash, q.requestHash, t.nextId, q.expiresAt);
      assert t.nextId + 1 !in t.records && t'.records == t.records[t.nextId + 1 := row];
      forall r | r in t.records
        ensures t.records[r].userId != q.userId || t.records[r].keyHash != q.keyHash
      {
        assert !t.records[r].IsFor(q.userId, q.keyHash);
      }
    }
  }

  lemma LostRightly(t: Tables, q: Request)
    requires !Remembered(t, q.userId, q.keyHash)
    ensures Unused(t, q.userId, q.keyHash)
  {
    forall r | r in t.records
      ensures t.records[r].userId != q.userId || t.records[r].keyHash != q.keyHash
    {
      assert !t.records[r].IsFor(q.userId, q.keyHash);
    }
  }

  /** In every interleaving each call is answered from its own user's keys. */
  lemma AnswersAreTheCallers(t: Tables, log: seq<Op>, i: nat)
    requires TablesOk(t) && Faithful(t, log) && i < |log| && log[i].Served?
    ensures AnsweredRightly(Replay(t, log[..i]), Replay(t, log[..i + 1]), log[i].q, log[i].outcome)
  {
    hide AnsweredRightly, Serve, TablesOk, Remembered;
    assert log[..i + 1][..i] == log[..i];
    ReplayOk(t, log[..i]);
    var before := Replay(t, log[..i]);
    assert Truthful(before, log[i]);
    hide Replay, Faithful;
    if log[i].outcome == Lost {
      LostRightly(before, log[i].q);
      LostChangesNothing(before, log[i].q);
    } else {
      ServedRightly(before, log[i].q);
    }
  }

  lemma LostChangesNothing(t: Tables, q: Request)
    requires Unused(t, q.userId, q.keyHash)
    ensures AnsweredRightly(t, t, q, Lost)
  {
  }

  // ---------------------------------------------------------------- the method

  /** The tables as one call sees them when nobody interferes. */
  class IdempotentVideos {
    var nextId: Id
    var videos: map<Id, VideoRow>
    var records: map<Id, Record>

    constructor (t: Tables)
      ensures Snapshot() == t
    {
      nextId, videos, records := t.nextId, t.videos, t.records;
    }

    function Snapshot(): Tables
      reads this
    {
      Tables(nextId, videos, records)
    }

    method CreateWithIdempotency(q: Request, videoUser: Id) returns (r: Result<Outcome>)
      requires TablesOk(Snapshot())
      modifies this
      ensures r.Failure? <==> videoUser == 0 || videoUser != q.userId || q.objectKey == 0
      ensures r.Failure? ==> Snapshot() == old(Snapshot())
      ensures r.Success? ==> (Snapshot(), r.value) == Serve(old(Snapshot()), q)
      ensures r.Success? ==> AnsweredRightly(old(Snapshot()), Snapshot(), q, r.value)
      ensures TablesOk(Snapshot())
    {
      hide AnsweredRightly;
      if videoUser == 0 || videoUser != q.userId || q.objectKey == 0 { return Failure(InvalidInput); }
      ServedRightly(Snapshot(), q);
      if row :| row in records && records[row].IsFor(q.userId, q.keyHash) {
        ServedByRow(Snapshot(), q, row);
        if records[row].requestHash != q.requestHash { return Success(Conflict); }
        return Success(Existing(records[row].resource));
      }
      InsertedOk(Snapshot(), q);
      var video := nextId;
      videos := videos[video := VideoRow(videoUser, q.objectKey, q.requestHash)];
      records := records[nextId + 1 := Record(q.userId, q.keyHash, q.requestHash, video, q.expiresAt)];
      nextId := nextId + 2;
      r := Success(Created(video));
    }
  }
}
