/**
  The rate limiter: a lazily refilled token bucket per key in Redis, with clamped time and key expiry
  (backend/repository/ratelimit_repository.go, backend/usecase/ratelimit_usecase.go,
  backend/middleware/ratelimit_middleware.go). Lua numbers are taken as reals.
 */
module TokenBucket {
  import opened Common

  // Tokens per second, tokens, tokens, milliseconds.
  datatype Limit = Limit(rate: real, capacity: real, cost: real, ttl: int) {
    predicate Valid() {
      rate > 0.0 && capacity > 0.0 && cost > 0.0 && ttl > 0
    }

    // The bucket fills up within its TTL, even on a clock that loses twice `skew` milliseconds meanwhile.
    predicate Covers(skew: nat) {
      rate * ((ttl - 2 * skew) as real) >= capacity * 1000.0
    }

    // The largest skew covered.
    function MaxSkew(): int
      requires rate > 0.0
    {
      ((ttl as real - capacity * 1000.0 / rate) / 2.0).Floor
    }
  }

  datatype Bucket = Missing | Bucket(tokens: real, updatedAt: int)

  datatype Answer = Answer(allowed: bool, remaining: real, retryAfter: int)

  function Min(a: real, b: real): real {
    if a <= b then a else b
  }

  function Ceil(x: real): int {
    -((-x).Floor)
  }

  // The script's own time never goes back.
  function Clamped(b: Bucket, now: int): int {
    if b.Bucket? && now < b.updatedAt then b.updatedAt else now
  }

  function Refill(l: Limit, elapsed: int): real {
    (elapsed as real) / 1000.0 * l.rate
  }

  function Available(l: Limit, b: Bucket, now: int): real {
    match b
    case Missing => l.capacity
    case Bucket(tokens, updatedAt) => Min(l.capacity, tokens + Refill(l, Clamped(b, now) - updatedAt))
  }

  function RetryAfter(l: Limit, available: real): int
    requires l.rate > 0.0
  {
    Ceil((l.cost - available) / l.rate * 1000.0)
  }

  /** One run of the script. */
  function Request(l: Limit, b: Bucket, now: int): (Bucket, Answer)
    requires l.Valid()
  {
    var available := Available(l, b, now);
    if available >= l.cost then
      (Bucket(available - l.cost, Clamped(b, now)), Answer(true, available - l.cost, 0))
    else
      (Bucket(available, Clamped(b, now)), Answer(false, available, RetryAfter(l, available)))
  }

  // ---------------------------------------------------------------- the store

  datatype Entry = Entry(tokens: real, updatedAt: int, deadline: int) {
    function Content(): Bucket {
      Bucket(tokens, updatedAt)
    }
  }

  // One call: the caller's clock, which the script gets, and the clock of Redis, by which keys expire.
  datatype Call = Call(now: int, server: int)

  // The bucket under a key if keys did not expire.
  function Held(e: Option<Entry>): Bucket {
    if e.Some? then e.value.Content() else Missing
  }

  // What a read at server time `server` finds: an expired key is gone.
  function Found(e: Option<Entry>, server: int): Bucket {
    if e.Some? && server < e.value.deadline then e.value.Content() else Missing
  }

  /** One run of the script on what is stored; it renews the expiry whatever it answers. */
  function Serve(l: Limit, e: Option<Entry>, c: Call): (Entry, Answer)
    requires l.Valid()
  {
    var step := Request(l, Found(e, c.server), c.now);
    (Entry(step.0.tokens, step.0.updatedAt, c.server + l.ttl), step.1)
  }

  function Under(entries: map<Key, Entry>, key: Key): Option<Entry> {
    if key in entries then Some(entries[key]) else None
  }

  /**
    What a call makes of a bucket: it holds what was left plus what has come in since on a clock that does not go back,
    up to the capacity, or is full if its key is gone; the cost is taken exactly if it is there, and else the delay is
    the least number of milliseconds after which it will be.
   */
  predicate Charged(l: Limit, before: Option<Entry>, now: int, server: int, after: Entry, answer: Answer) {
    var kept := before.Some? && server < before.value.deadline;
    var clock := if kept && before.value.updatedAt > now then before.value.updatedAt else now;
    var gained := if kept then before.value.tokens + l.rate * ((clock - before.value.updatedAt) as real) / 1000.0 else 0.0;
    var held := if kept && gained < l.capacity then gained else l.capacity;
    && after.updatedAt == clock && after.deadline == server + l.ttl && answer.remaining == after.tokens
    && if l.cost <= held then
         answer.allowed && answer.retryAfter == 0 && after.tokens == held - l.cost
       else
         && !answer.allowed && after.tokens == held && answer.retryAfter > 0
         && held + l.rate * (answer.retryAfter as real) / 1000.0 >= l.cost
         && held + l.rate * ((answer.retryAfter - 1) as real) / 1000.0 < l.cost
  }

  lemma DelayIsLeast(l: Limit, held: real)
    requires l.Valid() && held < l.cost
    ensures var d := RetryAfter(l, held);
            d > 0 && held + l.rate * (d as real) / 1000.0 >= l.cost && held + l.rate * ((d - 1) as real) / 1000.0 < l.cost
  {
    hide Refill, RetryAfter;
    var d := RetryAfter(l, held);
    RefillCovers(l, held, d);
    RefillCovers(l, held, d - 1);
    RefillIs(l, d);
    RefillIs(l, d - 1);
  }

  lemma RefillIs(l: Limit, elapsed: int)
    ensures Refill(l, elapsed) == l.rate * (elapsed as real) / 1000.0
  {
  }

  lemma ServedIsCharged(l: Limit, e: Option<Entry>, now: int, server: int)
    requires l.Valid()
    ensures var step := Serve(l, e, Call(now, server)); Charged(l, e, now, server, step.0, step.1)
  {
    var held := Available(l, Found(e, server), now);
    var found := Found(e, server);
    if found.Bucket? { RefillIs(l, Clamped(found, now) - found.updatedAt); }
    if held < l.cost { DelayIsLeast(l, held); }
    hide RetryAfter, Refill;
    ServedBy(l, e, now, server, held);
  }

  lemma ServedBy(l: Limit, e: Option<Entry>, now: int, server: int, held: real)
    requires l.Valid() && held == Available(l, Found(e, server), now)
    requires Found(e, server).Bucket? ==>
               var found := Found(e, server); var elapsed := Clamped(found, now) - found.updatedAt;
               Refill(l, elapsed) == l.rate * (elapsed as real) / 1000.0
    requires held < l.cost ==>
               var d := RetryAfter(l, held);
               d > 0 && held + l.rate * (d as real) / 1000.0 >= l.cost && held + l.rate * ((d - 1) as real) / 1000.0 < l.cost
    ensures var step := Serve(l, e, Call(now, server)); Charged(l, e, now, server, step.0, step.1)
  {
    hide RetryAfter, Refill;
  }

  /** The keys of the rate limiter in Redis. */
  class RateLimitRepository {
    var entries: map<Key, Entry>

    constructor ()
      ensures entries == map[]
    {
      entries := map[];
    }

    /** `server` is Redis' own time, `now` the caller's. */
    method Allow(key: Key, l: Limit, now: int, server: int) returns (r: Result<Answer>)
      modifies this
      ensures r.Failure? <==> key == 0 || !l.Valid() || now <= 0
      ensures r.Failure? ==> entries == old(entries)
      ensures r.Success? ==>
                var step := Serve(l, Under(old(entries), key), Call(now, server));
                r.value == step.1 && entries == old(entries)[key := step.0]
      ensures r.Success? ==> key in entries && Charged(l, Under(old(entries), key), now, server, entries[key], r.value)
    {
      hide Charged;
      if key != 0 && l.Valid() { ServedIsCharged(l, Under(entries, key), now, server); }
      if key == 0 { return Failure(InvalidInput); }
      if l.rate <= 0.0 || l.capacity <= 0.0 || l.cost <= 0.0 || now <= 0 || l.ttl <= 0 { return Failure(InvalidInput); }
      var nowMs := now;
      var tokens, updatedAt := l.capacity, nowMs;
      if key in entries && server < entries[key].deadline {
        tokens, updatedAt := entries[key].tokens, entries[key].updatedAt;
      }
      if nowMs < updatedAt {
        nowMs := updatedAt;
      }
      var elapsed := nowMs - updatedAt;
      var refill := (elapsed as real) / 1000.0 * l.rate;
      tokens := Min(l.capacity, tokens + refill);
      var allowed, retryAfter := false, 0;
      if tokens >= l.cost {
        allowed := true;
        tokens := tokens - l.cost;
      } else {
        var needed := l.cost - tokens;
        retryAfter := Ceil(needed / l.rate * 1000.0);
      }
      entries := entries[key := Entry(tokens, nowMs, server + l.ttl)];
      r := Success(Answer(allowed, tokens, retryAfter));
    }
  }

  // ---------------------------------------------------------------- runs on one key

  /** What is stored under a key after the given calls, in whatever order their timestamps are. */
  function After(l: Limit, calls: seq<Call>): Option<Entry>
    requires l.Valid()
    ensures calls != [] ==> After(l, calls).Some?
  {
    if calls == [] then None else Some(Serve(l, After(l, calls[..|calls| - 1]), calls[|calls| - 1]).0)
  }

  // The answer to call number `k`.
  function AnswerTo(l: Limit, calls: seq<Call>, k: nat): Answer
    requires l.Valid() && k < |calls|
  {
    Serve(l, After(l, calls[..k]), calls[k]).1
  }

  // The script's own clock after call number `k`.
  function Clock(l: Limit, calls: seq<Call>, k: nat): int
    requires l.Valid() && k < |calls|
  {
    After(l, calls[..k + 1]).value.updatedAt
  }

  /** How many of the calls from number `i` up to but not including number `j` are admitted. */
  function Admitted(l: Limit, calls: seq<Call>, i: nat, j: nat): nat
    requires l.Valid() && j <= |calls|
  {
    if j <= i then 0 else Admitted(l, calls, i, j - 1) + if AnswerTo(l, calls, j - 1).allowed then 1 else 0
  }

  /** Redis' clock never goes back, and every caller's clock is within `d` milliseconds of it. */
  predicate Skewed(calls: seq<Call>, d: nat) {
    && (forall i | 0 <= i < |calls| :: calls[i].now > 0 && calls[i].server - d <= calls[i].now <= calls[i].server + d)
    && forall i, j | 0 <= i < j < |calls| :: calls[i].server <= calls[j].server
  }

  lemma AfterOneMore(l: Limit, calls: seq<Call>, k: nat)
    requires l.Valid() && k < |calls|
    ensures After(l, calls[..k + 1]) == Some(Serve(l, After(l, calls[..k]), calls[k]).0)
  {
    assert calls[..k + 1][..k] == calls[..k];
  }

  predicate InRange(l: Limit, b: Bucket) {
    b.Missing? || 0.0 <= b.tokens <= l.capacity
  }

  lemma RefillBasics(l: Limit, e: int, f: int)
    requires l.rate > 0.0
    ensures Refill(l, e + f) == Refill(l, e) + Refill(l, f)
    ensures e >= 0 ==> Refill(l, e) >= 0.0
  {
    assert ((e + f) as real) == (e as real) + (f as real);
    var x, y := (e as real) / 1000.0, (f as real) / 1000.0;
    assert (x + y) * l.rate == x * l.rate + y * l.rate;
    if e >= 0 { assert x * l.rate >= 0.0; }
  }

  lemma RequestInRange(l: Limit, b: Bucket, now: int)
    requires l.Valid() && InRange(l, b)
    ensures Request(l, b, now).0.Bucket? && InRange(l, Request(l, b, now).0)
    ensures 0.0 <= Available(l, b, now) <= l.capacity
  {
    if b.Bucket? { RefillBasics(l, Clamped(b, now) - b.updatedAt, 0); }
  }

  /** In every run the tokens stay between zero and the capacity, whatever the clocks do. */
  lemma {:induction false} TokensInRange(l: Limit, calls: seq<Call>)
    requires l.Valid()
    ensures InRange(l, Held(After(l, calls)))
  {
    if calls != [] {
      var init, last := calls[..|calls| - 1], calls[|calls| - 1];
      TokensInRange(l, init);
      RequestInRange(l, Found(After(l, init), last.server), last.now);
    }
  }

  // The script's clock is never further ahead of Redis' than the skew, and a key expires `ttl` after its last call.
  lemma {:induction false} ClockNearServer(l: Limit, calls: seq<Call>, d: nat)
    requires l.Valid() && Skewed(calls, d) && calls != []
    ensures var e, last := After(l, calls).value, calls[|calls| - 1];
            last.now <= e.updatedAt <= last.server + d && e.deadline == last.server + l.ttl
  {
    if |calls| > 1 { ClockNearServer(l, calls[..|calls| - 1], d); }
  }

  lemma PrefixSkewed(calls: seq<Call>, d: nat, k: nat)
    requires Skewed(calls, d) && k <= |calls|
    ensures Skewed(calls[..k], d)
  {
  }

  // ---------------------------------------------------------------- expiry

  // A bucket that has been idle for `ttl` on Redis' clock is full, and so is no bucket.
  lemma IdleIsFull(l: Limit, b: Bucket, now: int, d: nat)
    requires l.Valid() && l.Covers(d) && b.Bucket? && InRange(l, b) && now >= b.updatedAt + l.ttl - 2 * d
    ensures Request(l, Missing, now) == Request(l, b, now)
  {
    CoversMeansRefill(l, d);
    RefillBasics(l, now - b.updatedAt - (l.ttl - 2 * d), l.ttl - 2 * d);
  }

  lemma CoversMeansRefill(l: Limit, d: nat)
    requires l.Valid()
    ensures l.Covers(d) <==> Refill(l, l.ttl - 2 * d) >= l.capacity
    ensures l.Covers(d) ==> l.ttl > 2 * d
  {
    var x := (l.ttl - 2 * d) as real;
    assert x / 1000.0 * l.rate == l.rate * x / 1000.0;
    if l.ttl <= 2 * d { assert x <= 0.0 && l.rate * x <= 0.0; }
  }

  /** Dropping a bucket idle for the TTL less twice the skew goes unnoticed exactly if the bucket is full by then. */
  lemma ExpiryInvisibleIff(l: Limit, d: nat)
    requires l.Valid()
    ensures l.Covers(d) <==>
              forall b: Bucket, now: int | b.Bucket? && InRange(l, b) && now >= b.updatedAt + l.ttl - 2 * d ::
                Request(l, Missing, now) == Request(l, b, now)
  {
    if l.Covers(d) {
      forall b: Bucket, now: int | b.Bucket? && InRange(l, b) && now >= b.updatedAt + l.ttl - 2 * d
        ensures Request(l, Missing, now) == Request(l, b, now)
      {
        IdleIsFull(l, b, now, d);
      }
    } else {
      var b, now := Bucket(0.0, 0), l.ttl - 2 * d;
      CoversMeansRefill(l, d);
      assert Available(l, b, now) < l.capacity;
      assert Request(l, Missing, now) != Request(l, b, now);
    }
  }

  /** The step that makes expiry harmless: what is dropped was full. */
  lemma DroppedWasFull(l: Limit, calls: seq<Call>, c: Call, d: nat)
    requires l.Valid() && l.Covers(d) && Skewed(calls + [c], d)
    ensures Request(l, Found(After(l, calls), c.server), c.now) == Request(l, Held(After(l, calls)), c.now)
  {
    hide Request, InRange;
    if calls != [] {
      PrefixSkewed(calls + [c], d, |calls|);
      assert (calls + [c])[..|calls|] == calls && (calls + [c])[|calls|] == c;
      ClockNearServer(l, calls, d);
      TokensInRange(l, calls);
      if Found(After(l, calls), c.server) != Held(After(l, calls)) {
        IdleIsFull(l, Held(After(l, calls)), c.now, d);
      }
    }
  }

  // The bucket after the same calls if keys never expired.
  function Lasting(l: Limit, calls: seq<Call>): Bucket
    requires l.Valid()
  {
    if calls == [] then Missing else Request(l, Lasting(l, calls[..|calls| - 1]), calls[|calls| - 1].now).0
  }

  /** With clocks skewed by no more than the limit covers, expiry changes no bucket and no answer of any run. */
  lemma {:induction false} ExpiryInvisible(l: Limit, calls: seq<Call>, c: Call, d: nat)
    requires l.Valid() && l.Covers(d) && Skewed(calls + [c], d)
    ensures Held(After(l, calls)) == Lasting(l, calls)
    ensures Serve(l, After(l, calls), c).1 == Request(l, Lasting(l, calls), c.now).1
  {
    hide Request;
    if calls != [] {
      var init, last := calls[..|calls| - 1], calls[|calls| - 1];
      assert init + [last] == calls == (calls + [c])[..|calls|];
      PrefixSkewed(calls + [c], d, |calls|);
      ExpiryInvisible(l, init, last, d);
      DroppedWasFull(l, init, last, d);
      TokensInRange(l, calls);
      ServedIsBucket(l, Lasting(l, init), last.now);
    }
    DroppedWasFull(l, calls, c, d);
  }

  lemma ServedIsBucket(l: Limit, b: Bucket, now: int)
    requires l.Valid()
    ensures Request(l, b, now).0.Bucket?
  {
  }

  // ---------------------------------------------------------------- the admission bound

  function Cost(l: Limit, n: nat): real {
    (n as real) * l.cost
  }

  lemma CostOfOneMore(l: Limit, n: nat)
    ensures Cost(l, n + 1) == Cost(l, n) + l.cost
  {
    assert ((n + 1) as real) == (n as real) + 1.0;
  }

  // One request spends what it is allowed to and gains what has trickled in.
  lemma RequestBalance(l: Limit, b: Bucket, now: int)
    requires l.Valid() && InRange(l, b)
    ensures var r := Request(l, b, now);
            var spent := r.0.tokens + (if r.1.allowed then l.cost else 0.0);
            && spent <= l.capacity
            && (b.Bucket? ==> b.updatedAt <= r.0.updatedAt && spent <= b.tokens + Refill(l, r.0.updatedAt - b.updatedAt))
  {
    RequestInRange(l, b, now);
  }

  /**
    The admission bound of one window: the calls from number `i` up to but not including number `j` are admitted at
    most as often as the capacity, plus the refill between the first and the last of them on the script's clock,
    pays for.
   */
  predicate WithinBound(l: Limit, calls: seq<Call>, i: nat, j: nat)
    requires l.Valid() && i < j <= |calls|
  {
    Cost(l, Admitted(l, calls, i, j)) <= l.capacity + Refill(l, Clock(l, calls, j - 1) - Clock(l, calls, i))
  }

  // A call gains what has trickled in since the one before and spends what it is allowed to.
  lemma CallBalance(l: Limit, calls: seq<Call>, d: nat, k: nat)
    requires l.Valid() && l.Covers(d) && Skewed(calls, d) && k < |calls|
    ensures var spent := After(l, calls[..k + 1]).value.tokens + if AnswerTo(l, calls, k).allowed then l.cost else 0.0;
            && spent <= l.capacity
            && (k > 0 ==> var before := After(l, calls[..k]).value;
                          spent <= before.tokens + Refill(l, Clock(l, calls, k) - Clock(l, calls, k - 1)))
  {
    hide Refill, Request, After, InRange;
    PrefixSkewed(calls, d, k + 1);
    assert calls[..k + 1] == calls[..k] + [calls[k]];
    DroppedWasFull(l, calls[..k], calls[k], d);
    TokensInRange(l, calls[..k]);
    AfterOneMore(l, calls, k);
    ServedIsBucket(l, Held(After(l, calls[..k])), calls[k].now);
    RequestBalance(l, Held(After(l, calls[..k])), calls[k].now);
  }

  // What was spent and what is left came from what was there and what has trickled in since the first call.
  lemma {:induction false} Balance(l: Limit, calls: seq<Call>, d: nat, i: nat, j: nat)
    requires l.Valid() && l.Covers(d) && Skewed(calls, d) && i < j <= |calls|
    ensures Cost(l, Admitted(l, calls, i, j)) + After(l, calls[..j]).value.tokens
            <= l.capacity + Refill(l, Clock(l, calls, j - 1) - Clock(l, calls, i))
    decreases j
  {
    hide Refill, Cost, After, Skewed, AnswerTo;
    CallBalance(l, calls, d, j - 1);
    CostOfOneMore(l, Admitted(l, calls, i, j - 1));
    RefillBasics(l, 0, 0);
    CostOfNone(l);
    if i + 1 < j {
      Balance(l, calls, d, i, j - 1);
      RefillBasics(l, Clock(l, calls, j - 2) - Clock(l, calls, i), Clock(l, calls, j - 1) - Clock(l, calls, j - 2));
    }
  }

  lemma CostOfNone(l: Limit)
    ensures Cost(l, 0) == 0.0
  {
  }

  lemma ClockWithin(l: Limit, calls: seq<Call>, d: nat, k: nat)
    requires l.Valid() && Skewed(calls, d) && k < |calls|
    ensures calls[k].server - d <= Clock(l, calls, k) <= calls[k].server + d
  {
    hide After;
    PrefixSkewed(calls, d, k + 1);
    ClockNearServer(l, calls[..k + 1], d);
  }

  /** The bound holds in every window of every run whose clocks are skewed by no more than the limit covers. */
  lemma AdmissionBound(l: Limit, calls: seq<Call>, d: nat, i: nat, j: nat)
    requires l.Valid() && l.Covers(d) && Skewed(calls, d) && i < j <= |calls|
    ensures WithinBound(l, calls, i, j)
    ensures Cost(l, Admitted(l, calls, i, j))
            <= l.capacity + Refill(l, calls[j - 1].server - calls[i].server + 2 * d)
  {
    hide Cost, Refill, After, Admitted;
    Balance(l, calls, d, i, j);
    TokensInRange(l, calls[..j]);
    ClockWithin(l, calls, d, i);
    ClockWithin(l, calls, d, j - 1);
    var elapsed := Clock(l, calls, j - 1) - Clock(l, calls, i);
    RefillBasics(l, calls[j - 1].server - calls[i].server + 2 * d - elapsed, elapsed);
  }

  // ---------------------------------------------------------------- where the bound ends

  function Times(c: Call, k: nat): (calls: seq<Call>)
    ensures |calls| == k && forall i | 0 <= i < k :: calls[i] == c
  {
    seq(k, _ => c)
  }

  lemma AfterAppended(l: Limit, calls: seq<Call>, c: Call)
    requires l.Valid()
    ensures After(l, calls + [c]) == Some(Serve(l, After(l, calls), c).0)
    ensures AnswerTo(l, calls + [c], |calls|) == Serve(l, After(l, calls), c).1
  {
    assert (calls + [c])[..|calls|] == calls;
  }

  // What a bucket with tokens for one more serves at the same moment.
  lemma BurstStep(l: Limit, e: Option<Entry>, c: Call, k: nat)
    requires l.Valid() && Cost(l, k + 1) <= l.capacity
    requires if k == 0 then Found(e, c.server).Missing?
             else e == Some(Entry(l.capacity - Cost(l, k), c.now, c.server + l.ttl))
    ensures Serve(l, e, c).0 == Entry(l.capacity - Cost(l, k + 1), c.now, c.server + l.ttl)
    ensures Serve(l, e, c).1.allowed
  {
    CostOfOneMore(l, k);
    CostOfNone(l);
    RefillBasics(l, 0, 0);
    CostGrows(l, 0, k);
  }

  // A full bucket serves as many calls at one moment as it holds tokens for.
  lemma {:induction false} Burst(l: Limit, calls: seq<Call>, c: Call, k: nat)
    requires l.Valid() && Found(After(l, calls), c.server).Missing? && k >= 1 && Cost(l, k) <= l.capacity
    ensures After(l, calls + Times(c, k)) == Some(Entry(l.capacity - Cost(l, k), c.now, c.server + l.ttl))
    ensures Admitted(l, calls + Times(c, k), |calls|, |calls| + k) == k
    decreases k
  {
    hide After, AnswerTo, Cost, Serve;
    var all, init := calls + Times(c, k), calls + Times(c, k - 1);
    assert all == init + [c];
    if k == 1 {
      assert init == calls;
    } else {
      CostGrows(l, k - 1, k);
      Burst(l, calls, c, k - 1);
      AdmittedOfPrefix(l, init, [c], |calls|, |init|);
    }
    BurstStep(l, After(l, init), c, k - 1);
    AfterAppended(l, init, c);
  }

  lemma {:induction false} AdmittedOfPrefix(l: Limit, calls: seq<Call>, more: seq<Call>, i: nat, j: nat)
    requires l.Valid() && j <= |calls|
    ensures Admitted(l, calls + more, i, j) == Admitted(l, calls, i, j)
    decreases j
  {
    if i < j {
      AdmittedOfPrefix(l, calls, more, i, j - 1);
      assert (calls + more)[..j - 1] == calls[..j - 1];
    }
  }

  lemma {:induction false} AdmittedSplits(l: Limit, calls: seq<Call>, i: nat, j: nat, k: nat)
    requires l.Valid() && i <= j <= k <= |calls|
    ensures Admitted(l, calls, i, k) == Admitted(l, calls, i, j) + Admitted(l, calls, j, k)
    decreases k
  {
    if j < k { AdmittedSplits(l, calls, i, j, k - 1); }
  }

  // A full bucket emptied at `first` and, after its key has expired, once more at `second`.
  lemma TwoBursts(l: Limit, n: nat, first: Call, second: Call) returns (calls: seq<Call>)
    requires l.Valid() && n >= 1 && l.capacity == Cost(l, n) && second.server >= first.server + l.ttl
    ensures calls == Times(first, n) + Times(second, n)
    ensures Admitted(l, calls, 0, 2 * n) == 2 * n
    ensures Clock(l, calls, 0) == first.now && Clock(l, calls, 2 * n - 1) == second.now
  {
    hide Cost, After, Admitted;
    var once := Times(first, n);
    calls := once + Times(second, n);
    assert [] + once == once;
    NothingAtFirst(l);
    Burst(l, [], first, n);
    Burst(l, once, second, n);
    AdmittedOfPrefix(l, once, Times(second, n), 0, n);
    AdmittedSplits(l, calls, 0, n, 2 * n);
    assert calls[..2 * n] == calls;
    assert calls[..1] == [] + Times(first, 1);
    CostGrows(l, 1, n);
    Burst(l, [], first, 1);
  }

  lemma CostOfTwice(l: Limit, n: nat)
    ensures Cost(l, 2 * n) == Cost(l, n) + Cost(l, n)
  {
    assert ((2 * n) as real) == (n as real) + (n as real);
  }

  lemma NothingAtFirst(l: Limit)
    requires l.Valid()
    ensures After(l, []) == None
  {
  }

  lemma CostGrows(l: Limit, m: nat, n: nat)
    requires l.Valid() && m <= n
    ensures Cost(l, m) <= Cost(l, n)
  {
    MulOrder(m as real, n as real, l.cost);
  }

  /**
    Past the covered skew the bound fails. Callers whose clock is ahead empty the bucket; when its key has expired,
    callers whose clock is behind find it full again, although too little time has passed between them.
   */
  lemma BoundFails(l: Limit, n: nat, d: nat) returns (calls: seq<Call>)
    requires l.Valid() && n >= 1 && l.capacity == Cost(l, n) && !l.Covers(d)
    ensures |calls| == 2 * n && Skewed(calls, d) && !WithinBound(l, calls, 0, 2 * n)
  {
    hide Refill, After, Admitted, Clock, Cost;
    var server := d + 1;
    calls := TwoBursts(l, n, Call(server + d, server), Call(server + l.ttl - d, server + l.ttl));
    CoversMeansRefill(l, d);
    CostOfTwice(l, n);
  }

  /**
    For a bucket that holds a whole number of requests, as each of the eight does, the bound holds in every window of
    every run with clocks skewed by at most `d` if and only if the limit covers that skew.
   */
  lemma AdmissionBoundIff(l: Limit, n: nat, d: nat)
    requires l.Valid() && n >= 1 && l.capacity == Cost(l, n)
    ensures l.Covers(d) <==>
              forall calls: seq<Call>, i: nat, j: nat | Skewed(calls, d) && i < j <= |calls| ::
                WithinBound(l, calls, i, j)
  {
    hide WithinBound, Skewed, Cost;
    if l.Covers(d) {
      forall calls: seq<Call>, i: nat, j: nat | Skewed(calls, d) && i < j <= |calls|
        ensures WithinBound(l, calls, i, j)
      {
        AdmissionBound(l, calls, d, i, j);
      }
    } else {
      var calls := BoundFails(l, n, d);
      assert !WithinBound(l, calls, 0, 2 * n);
    }
  }

  /**
    A concrete case. Three signups at 1 ms on the callers' clock empty the bucket; 60 s later on Redis' clock its key is
    gone, and three more callers whose clock still shows 1 ms are admitted as well.
   */
  lemma SixSignups() returns (calls: seq<Call>)
    ensures calls == Times(Call(1, 0), 3) + Times(Call(1, 60000), 3)
    ensures Admitted(SIGNUP, calls, 0, 6) == 6 && Clock(SIGNUP, calls, 0) == Clock(SIGNUP, calls, 5)
    ensures !WithinBound(SIGNUP, calls, 0, 6)
  {
    calls := TwoBursts(SIGNUP, 3, Call(1, 0), Call(1, 60000));
  }

  lemma CoversUpToMaxSkew(l: Limit, d: nat)
    requires l.Valid()
    ensures l.Covers(d) <==> d <= l.MaxSkew()
  {
    var needed, slack := l.capacity * 1000.0 / l.rate, l.ttl as real;
    var left := (l.ttl - 2 * d) as real;
    assert needed * l.rate == l.capacity * 1000.0;
    if left >= needed { MulOrder(needed, left, l.rate); } else { MulOrderStrict(left, needed, l.rate); }
    assert left == slack - 2.0 * (d as real);
    assert l.Covers(d) <==> d as real <= (slack - needed) / 2.0;
  }

  const SIGNUP := Limit(1.0 / 10.0, 3.0, 1.0, 60000)
  const LOGIN_IP := Limit(1.0 / 5.0, 10.0, 1.0, 100000)
  const LOGIN_EMAIL := Limit(1.0 / 10.0, 5.0, 1.0, 100000)
  const REFRESH := Limit(1.0 / 5.0, 5.0, 1.0, 60000)
  const VIDEO_START_USER := Limit(1.0 / 60.0, 3.0, 1.0, 360000)
  const VIDEO_START_IP := Limit(1.0 / 10.0, 10.0, 1.0, 200000)
  const VIDEO_COMPLETE_USER := Limit(1.0, 10.0, 1.0, 60000)
  const VIDEO_COMPLETE_IP := Limit(2.0, 30.0, 1.0, 60000)

  const LIMITS := {SIGNUP, LOGIN_IP, LOGIN_EMAIL, REFRESH, VIDEO_START_USER, VIDEO_START_IP, VIDEO_COMPLETE_USER,
                   VIDEO_COMPLETE_IP}

  /** The skew each of the eight limits covers, in milliseconds. */
  lemma EightSkews()
    ensures SIGNUP.MaxSkew() == 15000 && REFRESH.MaxSkew() == 17500 && VIDEO_COMPLETE_IP.MaxSkew() == 22500
    ensures LOGIN_IP.MaxSkew() == LOGIN_EMAIL.MaxSkew() == VIDEO_COMPLETE_USER.MaxSkew() == 25000
    ensures VIDEO_START_IP.MaxSkew() == 50000 && VIDEO_START_USER.MaxSkew() == 90000
    ensures forall l <- LIMITS :: l.Valid() && l.MaxSkew() >= 15000
  {
  }

  lemma EightAreWhole(l: Limit)
    requires l in LIMITS
    ensures l.Valid() && l.cost == 1.0 && l.capacity.Floor >= 1 && l.capacity == Cost(l, l.capacity.Floor)
  {
  }

  /** For each of the eight limits the admission bound holds in all runs exactly up to its skew. */
  lemma EightLimitsBound(l: Limit, d: nat)
    requires l in LIMITS
    ensures l.Valid()
    ensures d <= l.MaxSkew() <==>
              forall calls: seq<Call>, i: nat, j: nat | Skewed(calls, d) && i < j <= |calls| ::
                WithinBound(l, calls, i, j)
  {
    hide WithinBound, Skewed, Cost;
    EightAreWhole(l);
    CoversUpToMaxSkew(l, d);
    AdmissionBoundIff(l, l.capacity.Floor, d);
  }

  /** For each of the eight limits, expiry is invisible in every run with clocks at most 15 seconds from Redis'. */
  lemma EightLimitsExpireInvisibly(l: Limit, calls: seq<Call>, c: Call)
    requires l in LIMITS && Skewed(calls + [c], 15000)
    ensures l.Valid() && l.cost <= l.capacity && l.Covers(15000)
    ensures Held(After(l, calls)) == Lasting(l, calls)
    ensures Serve(l, After(l, calls), c).1 == Request(l, Lasting(l, calls), c.now).1
  {
    hide Request;
    EightSkews();
    EightAreWhole(l);
    CoversUpToMaxSkew(l, 15000);
    ExpiryInvisible(l, calls, c, 15000);
  }

  // ---------------------------------------------------------------- retry

  lemma CeilExact(x: real, n: int)
    ensures (n as real) >= x <==> n >= Ceil(x)
  {
  }

  // The refill over `e` milliseconds covers what is missing exactly from the announced time on.
  lemma RefillCovers(l: Limit, available: real, e: int)
    requires l.Valid() && available < l.cost
    ensures available + Refill(l, e) >= l.cost <==> e >= RetryAfter(l, available)
    ensures RetryAfter(l, available) >= 1
  {
    var needed := l.cost - available;
    var seconds := needed / l.rate;
    Quotient(needed, l.rate);
    CeilExact(seconds * 1000.0, e);
    CeilExact(seconds * 1000.0, 0);
    var y := (e as real) / 1000.0;
    assert Refill(l, e) == y * l.rate && RetryAfter(l, available) == Ceil(seconds * 1000.0);
    hide Refill, RetryAfter, Ceil;
    if y >= seconds { MulOrder(seconds, y, l.rate); } else { MulOrderStrict(y, seconds, l.rate); }
  }

  lemma Quotient(a: real, b: real)
    requires a > 0.0 && b > 0.0
    ensures a / b > 0.0 && a / b * b == a
  {
  }

  lemma MulOrder(a: real, b: real, c: real)
    requires a <= b && c > 0.0
    ensures a * c <= b * c
  {
  }

  lemma MulOrderStrict(a: real, b: real, c: real)
    requires a < b && c > 0.0
    ensures a * c < b * c
  {
  }

  // On a bucket that lasts, the announced delay is exact.
  lemma DelayIsExact(l: Limit, b: Bucket, now: int, later: int)
    requires l.Valid() && InRange(l, b) && l.cost <= l.capacity && !Request(l, b, now).1.allowed
    ensures var r := Request(l, b, now);
            && r.1.retryAfter >= 1
            && (Request(l, r.0, later).1.allowed <==> later >= Clamped(b, now) + r.1.retryAfter)
  {
    var r := Request(l, b, now);
    RequestInRange(l, b, now);
    RefillCovers(l, r.0.tokens, Clamped(r.0, later) - r.0.updatedAt);
  }

  /**
    The announced delay is exact. After any calls, whatever the clocks do, a lone call after a denial is admitted if
    and only if its clock shows at least that many milliseconds after the denial or the key has expired, provided a
    request costs no more than the bucket can hold. If clocks are skewed by no more than the limit covers, the
    delay alone decides.
   */
  lemma RetryAfterIsExact(l: Limit, calls: seq<Call>, denied: Call, later: Call, d: nat)
    requires l.Valid() && l.cost <= l.capacity && !Serve(l, After(l, calls), denied).1.allowed
    ensures var r := Serve(l, After(l, calls), denied);
            var admitted := Serve(l, Some(r.0), later).1.allowed;
            && r.1.retryAfter >= 1 && After(l, calls + [denied]) == Some(r.0)
            && (admitted <==> later.now >= r.0.updatedAt + r.1.retryAfter || later.server >= denied.server + l.ttl)
            && (l.Covers(d) && Skewed(calls + [denied, later], d) ==>
                  (admitted <==> later.now >= r.0.updatedAt + r.1.retryAfter))
  {
    hide InRange;
    var b := Found(After(l, calls), denied.server);
    TokensInRange(l, calls);
    FoundInRange(l, After(l, calls), denied.server);
    DelayIsExact(l, b, denied.now, later.now);
    assert (calls + [denied])[..|calls|] == calls;
    if l.Covers(d) && Skewed(calls + [denied, later], d) {
      assert calls + [denied, later] == (calls + [denied]) + [later];
      DroppedWasFull(l, calls + [denied], later, d);
    }
  }

  lemma FoundInRange(l: Limit, e: Option<Entry>, server: int)
    requires InRange(l, Held(e))
    ensures InRange(l, Found(e, server))
  {
  }

  const SECOND: int := 1_000_000_000

  // retryAfterSeconds, on a duration in nanoseconds
  function RetryAfterSeconds(value: int): int {
    if value <= 0 then 1 else (value + SECOND - 1) / SECOND
  }

  /** The Retry-After header is the least number of whole seconds after which a lone call is admitted. */
  lemma RetryAfterHeaderIsExact(l: Limit, calls: seq<Call>, denied: Call, later: Call, seconds: nat, d: nat)
    requires l.Valid() && l.cost <= l.capacity && !Serve(l, After(l, calls), denied).1.allowed
    requires l.Covers(d) && Skewed(calls + [denied, later], d)
    requires later.now == After(l, calls + [denied]).value.updatedAt + 1000 * seconds
    ensures Serve(l, After(l, calls + [denied]), later).1.allowed
            <==> seconds >= RetryAfterSeconds(Serve(l, After(l, calls), denied).1.retryAfter * 1_000_000)
  {
    hide Request;
    RetryAfterIsExact(l, calls, denied, later, d);
  }

  // ---------------------------------------------------------------- denials

  lemma DenialForgotten(l: Limit, b: Bucket, now: int, later: int)
    requires l.Valid() && InRange(l, b) && (b.Bucket? ==> b.updatedAt <= now) && now <= later
    requires !Request(l, b, now).1.allowed
    ensures Request(l, Request(l, b, now).0, later) == Request(l, b, later)
  {
    RequestInRange(l, b, now);
    RefillBasics(l, later - now, 0);
    if b.Bucket? {
      RefillBasics(l, now - b.updatedAt, later - now);
    }
  }

  // The callers' clocks do not go back.
  predicate Ascending(calls: seq<Call>) {
    forall i, j | 0 <= i < j < |calls| :: calls[i].now <= calls[j].now
  }

  lemma {:induction false} ClockIsLast(l: Limit, calls: seq<Call>)
    requires l.Valid() && Ascending(calls) && calls != []
    ensures After(l, calls).value.updatedAt == calls[|calls| - 1].now
  {
    if |calls| > 1 { ClockIsLast(l, calls[..|calls| - 1]); }
  }

  /** The admitted calls. */
  function Kept(l: Limit, calls: seq<Call>): seq<Call>
    requires l.Valid()
  {
    if calls == [] then []
    else
      var init := calls[..|calls| - 1];
      Kept(l, init) + if AnswerTo(l, calls, |calls| - 1).allowed then [calls[|calls| - 1]] else []
  }

  lemma DenialParts(calls: seq<Call>, denied: Call, c: Call, d: nat)
    requires Skewed(calls + [denied] + [c], d) && Ascending(calls + [denied] + [c])
    ensures Skewed(calls + [denied], d) && Skewed(calls + [c], d) && Ascending(calls) && Ascending(calls + [c])
    ensures denied.now <= c.now && (calls != [] ==> calls[|calls| - 1].now <= denied.now)
  {
    var all := calls + [denied] + [c];
    assert all[|calls|] == denied && all[|calls| + 1] == c;
    forall i | 0 <= i < |calls| ensures all[i] == calls[i] {}
    assert all[..|calls| + 1] == calls + [denied];
    PrefixSkewed(all, d, |calls| + 1);
  }

  lemma ForgottenEntry(l: Limit, e: Option<Entry>, denied: Call, c: Call)
    requires l.Valid() && InRange(l, Held(e)) && !Serve(l, e, denied).1.allowed
    requires (e.Some? ==> e.value.updatedAt <= denied.now) && denied.now <= c.now
    requires Request(l, Found(e, denied.server), denied.now) == Request(l, Held(e), denied.now)
    requires Request(l, Found(e, c.server), c.now) == Request(l, Held(e), c.now)
    requires var e' := Some(Serve(l, e, denied).0);
             Request(l, Found(e', c.server), c.now) == Request(l, Held(e'), c.now)
    ensures Serve(l, Some(Serve(l, e, denied).0), c) == Serve(l, e, c)
  {
    hide Request, InRange, Found;
    ServedIsBucket(l, Held(e), denied.now);
    DenialForgotten(l, Held(e), denied.now, c.now);
  }

  // A denied call in between, which also renews the expiry, changes no later answer and no later entry.
  lemma DenialUnseen(l: Limit, calls: seq<Call>, denied: Call, c: Call, d: nat)
    requires l.Valid() && l.Covers(d) && Skewed(calls + [denied] + [c], d) && Ascending(calls + [denied] + [c])
    requires !Serve(l, After(l, calls), denied).1.allowed
    ensures Skewed(calls + [c], d) && Ascending(calls + [c])
    ensures Serve(l, After(l, calls + [denied]), c) == Serve(l, After(l, calls), c)
  {
    hide Request, InRange, Found, Held, Serve, After, Skewed, Ascending;
    DenialParts(calls, denied, c, d);
    DroppedWasFull(l, calls, denied, d);
    DroppedWasFull(l, calls, c, d);
    DroppedWasFull(l, calls + [denied], c, d);
    AfterAppended(l, calls, denied);
    TokensInRange(l, calls);
    NothingAtFirst(l);
    if calls != [] { ClockIsLast(l, calls); }
    ForgottenEntry(l, After(l, calls), denied, c);
  }

  /**
    Denials change nothing: on clocks that do not go back and are skewed by no more than the limit covers, the
    admitted calls alone are all admitted as well, and any later call gets the same answer and leaves the same entry.
   */
  lemma {:induction false} DenialsDoNotMatter(l: Limit, calls: seq<Call>, c: Call, d: nat)
    requires l.Valid() && l.Covers(d) && Skewed(calls + [c], d) && Ascending(calls + [c])
    ensures var kept := Kept(l, calls);
            && Admitted(l, kept, 0, |kept|) == |kept| == Admitted(l, calls, 0, |calls|)
            && Serve(l, After(l, kept), c) == Serve(l, After(l, calls), c)
  {
    hide Request, Skewed, Found;
    if calls != [] {
      var init, last := calls[..|calls| - 1], calls[|calls| - 1];
      assert init + [last] == calls == (calls + [c])[..|calls|];
      PrefixSkewed(calls + [c], d, |calls|);
      assert Ascending(calls);
      DenialsDoNotMatter(l, init, last, d);
      var kept := Kept(l, init);
      AdmittedOfPrefix(l, init, [last], 0, |init|);
      if AnswerTo(l, calls, |init|).allowed {
        assert Kept(l, calls) == kept + [last] && (kept + [last])[..|kept|] == kept;
        AdmittedOfPrefix(l, kept, [last], 0, |kept|);
      } else {
        assert Kept(l, calls) == kept;
        DenialUnseen(l, init, last, c, d);
        DenialsDoNotMatter(l, init, c, d);
      }
    }
  }
}
