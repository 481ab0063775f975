/** The mutation rate limiter of the realtime lab: one token bucket per client, kept in an
    insertion-ordered table of bounded size.  Times are milliseconds, token levels are reals. */
module RateLimiter {

  datatype Config = Config(capacity: real, refillPerSecond: real, maxClients: int)

  datatype Bucket = Bucket(tokens: real, updatedMs: real)

  /** `allowed` and the advertised Retry-After. */
  datatype Decision = Decision(allowed: bool, retryAfterSeconds: int)

  /** The table-full rule refuses a new client without allocating; every other take is decided
      by the client's own bucket. */
  datatype Outcome = Refused(decision: Decision) | Decided(decision: Decision)

  /** A JavaScript Map: `order` lists its keys, oldest insertion first. */
  datatype Table = Table(order: seq<string>, buckets: map<string, Bucket>)

  const EmptyTable := Table([], map[])

  datatype Request = Request(client: string, now: real)

  predicate ValidConfig(cfg: Config) {
    cfg.capacity >= 1.0 && cfg.refillPerSecond > 0.0 && cfg.maxClients >= 1
  }

  function Min(a: real, b: real): real { if a <= b then a else b }

  function Max(a: real, b: real): real { if a >= b then a else b }

  function MaxInt(a: int, b: int): int { if a >= b then a else b }

  function Ceil(x: real): int { -((-x).Floor) }

  function Without(order: seq<string>, key: string): seq<string> {
    if order == [] then []
    else if order[0] == key then Without(order[1..], key)
    else [order[0]] + Without(order[1..], key)
  }

  function Delete(t: Table, key: string): Table {
    Table(Without(t.order, key), t.buckets - {key})
  }

  /** Map.set: a key already present keeps its place. */
  function Set(t: Table, key: string, b: Bucket): Table {
    Table(if key in t.buckets then t.order else t.order + [key], t.buckets[key := b])
  }

  /** The level of a bucket at time `now`. */
  function Refilled(cfg: Config, b: Bucket, now: real): real {
    Min(cfg.capacity, b.tokens + Max(0.0, (now - b.updatedMs) / 1000.0) * cfg.refillPerSecond)
  }

  /** The level a client has at `now`; a client without a bucket has a full one. */
  function Level(cfg: Config, buckets: map<string, Bucket>, client: string, now: real): real {
    if client in buckets then Refilled(cfg, buckets[client], now) else cfg.capacity
  }

  function Decide(cfg: Config, level: real): Decision
    requires ValidConfig(cfg)
  {
    if level >= 1.0 then Decision(true, 0)
    else Decision(false, MaxInt(1, Ceil((1.0 - level) / cfg.refillPerSecond)))
  }

  function Spent(level: real): real { if level >= 1.0 then level - 1.0 else level }

  predicate IsFull(cfg: Config, t: Table, key: string, now: real) {
    key in t.buckets && Refilled(cfg, t.buckets[key], now) >= cfg.capacity
  }

  /** The position of the oldest fully refilled bucket from `i` on, or the table size. */
  function FirstFull(cfg: Config, t: Table, now: real, i: nat): (r: nat)
    requires i <= |t.order|
    ensures i <= r <= |t.order|
    ensures r < |t.order| ==> IsFull(cfg, t, t.order[r], now)
    ensures forall j :: i <= j < r ==> !IsFull(cfg, t, t.order[j], now)
    decreases |t.order| - i
  {
    if i == |t.order| || IsFull(cfg, t, t.order[i], now) then i else FirstFull(cfg, t, now, i + 1)
  }

  function Admit(cfg: Config, t: Table, client: string, now: real): (Table, Outcome)
    requires ValidConfig(cfg)
  {
    var level := Level(cfg, t.buckets, client, now);
    (Set(Delete(t, client), client, Bucket(Spent(level), now)), Decided(Decide(cfg, level)))
  }

  /** One take, as a function of the table. */
  function TakeStep(cfg: Config, t: Table, client: string, now: real): (Table, Outcome)
    requires ValidConfig(cfg)
  {
    if client in t.buckets || |t.order| < cfg.maxClients then Admit(cfg, t, client, now)
    else
      var victim := FirstFull(cfg, t, now, 0);
      if victim == |t.order| then
        (t, Refused(Decision(false, MaxInt(1, Ceil(1.0 / cfg.refillPerSecond)))))
      else Admit(cfg, Delete(t, t.order[victim]), client, now)
  }

  /** What every table keeps, whatever the clock shows. */
  ghost predicate Kept(cfg: Config, t: Table) {
    && ValidConfig(cfg)
    && |t.order| <= cfg.maxClients
    && Distinct(t.order)
    && (forall k :: k in t.order <==> k in t.buckets)
    && (forall k <- t.buckets :: 0.0 <= t.buckets[k].tokens <= cfg.capacity)
  }

  /** With a clock that does not go back; `clock` is the time of the last take. */
  ghost predicate Valid(cfg: Config, t: Table, clock: real) {
    Kept(cfg, t) && forall k <- t.buckets :: t.buckets[k].updatedMs <= clock
  }

  // ---------- the class ----------

  class MutationRateLimiter {
    const config: Config
    var order: seq<string>
    var buckets: map<string, Bucket>
    var admissionRejections: nat

    function State(): Table
      reads this
    {
      Table(order, buckets)
    }

    constructor (config: Config)
      requires ValidConfig(config)
      ensures this.config == config && State() == EmptyTable && admissionRejections == 0
    {
      this.config := config;
      order, buckets, admissionRejections := [], map[], 0;
    }

    method FindEvictableFullBucket(now: real) returns (key: string, found: bool)
      requires forall k <- order :: k in buckets
      ensures var i := FirstFull(config, State(), now, 0);
              found == (i < |order|) && (found ==> key == order[i])
    {
      hide Refilled;
      key, found := "", false;
      var i := 0;
      while i < |order|
        invariant 0 <= i <= |order|
        invariant FirstFull(config, State(), now, 0) == FirstFull(config, State(), now, i)
      {
        if Refilled(config, buckets[order[i]], now) >= config.capacity {
          return order[i], true;
        }
        i := i + 1;
      }
    }

    method DeleteKey(key: string)
      modifies this`order, this`buckets
      ensures State() == Delete(old(State()), key)
    {
      order, buckets := Without(order, key), buckets - {key};
    }

    method SetKey(key: string, b: Bucket)
      modifies this`order, this`buckets
      ensures State() == Set(old(State()), key, b)
    {
      if key !in buckets {
        order := order + [key];
      }
      buckets := buckets[key := b];
    }

    /** Charge the client's bucket and move it to the tail. */
    method Charge(client: string, now: real) returns (decision: Decision)
      requires ValidConfig(config)
      modifies this`order, this`buckets
      ensures (State(), Decided(decision)) == Admit(config, old(State()), client, now)
    {
      FullWhenNew(config, now);
      hide Refilled, Without;
      var bucket := if client in buckets then buckets[client] else Bucket(config.capacity, now);
      DeleteKey(client);
      bucket := Bucket(Refilled(config, bucket, now), now);
      if bucket.tokens >= 1.0 {
        bucket := bucket.(tokens := bucket.tokens - 1.0);
        decision := Decision(true, 0);
      } else {
        var deficit := 1.0 - bucket.tokens;
        decision := Decision(false, MaxInt(1, Ceil(deficit / config.refillPerSecond)));
      }
      SetKey(client, bucket);
    }

    /** `clock` is the time of the previous take: the clock never runs backwards. */
    method Take(client: string, now: real, ghost clock: real) returns (decision: Decision)
      requires Valid(config, State(), clock) && clock <= now
      modifies this
      ensures var (t, outcome) := TakeStep(config, old(State()), client, now);
              && State() == t && decision == outcome.decision
              && admissionRejections == old(admissionRejections) + (if outcome.Refused? then 1 else 0)
      ensures Valid(config, State(), now)
    {
      TakeKeepsValid(config, State(), client, now, clock);
      hide Refilled, Without, Admit;
      if client !in buckets && |order| >= config.maxClients {
        var evictable, found := FindEvictableFullBucket(now);
        if !found {
          admissionRejections := admissionRejections + 1;
          return Decision(false, MaxInt(1, Ceil(1.0 / config.refillPerSecond)));
        }
        DeleteKey(evictable);
      }
      decision := Charge(client, now);
    }
  }

  /** Construction, which the source ends with an error for an invalid configuration. */
  method NewLimiter(config: Config) returns (limiter: MutationRateLimiter?)
    ensures limiter != null <==> config.capacity >= 1.0 && config.refillPerSecond > 0.0 && config.maxClients >= 1
    ensures limiter != null ==> fresh(limiter) && limiter.config == config && limiter.State() == EmptyTable
  {
    if !ValidConfig(config) { return null; }
    limiter := new MutationRateLimiter(config);
  }

  // ---------- the table ----------

  lemma FullWhenNew(cfg: Config, now: real)
    ensures Refilled(cfg, Bucket(cfg.capacity, now), now) == cfg.capacity
  {
    assert (now - now) / 1000.0 * cfg.refillPerSecond == 0.0;
  }

  lemma {:induction false} WithoutMembers(order: seq<string>, key: string)
    ensures forall k :: k in Without(order, key) <==> k in order && k != key
  {
    if order != [] {
      WithoutMembers(order[1..], key);
      assert order == [order[0]] + order[1..];
    }
  }

  ghost predicate Distinct(order: seq<string>) {
    forall i, j :: 0 <= i < j < |order| ==> order[i] != order[j]
  }

  lemma {:induction false} WithoutDistinct(order: seq<string>, key: string)
    requires Distinct(order)
    ensures Distinct(Without(order, key))
    ensures |Without(order, key)| == |order| - (if key in order then 1 else 0)
  {
    if order != [] {
      var rest := order[1..];
      WithoutDistinct(rest, key);
      WithoutMembers(rest, key);
      assert order == [order[0]] + rest;
      assert order[0] !in rest;
    }
  }

  lemma DeleteKeeps(cfg: Config, t: Table, key: string)
    requires Kept(cfg, t)
    ensures Kept(cfg, Delete(t, key))
    ensures |Delete(t, key).order| == |t.order| - (if key in t.buckets then 1 else 0)
  {
    WithoutMembers(t.order, key);
    WithoutDistinct(t.order, key);
  }

  lemma LevelInRange(cfg: Config, t: Table, client: string, now: real)
    requires Kept(cfg, t)
    ensures 0.0 <= Level(cfg, t.buckets, client, now) <= cfg.capacity
  {
    if client in t.buckets {
      var elapsed := Max(0.0, (now - t.buckets[client].updatedMs) / 1000.0);
      assert elapsed * cfg.refillPerSecond >= 0.0;
    }
  }

  lemma AdmitKeeps(cfg: Config, t: Table, client: string, now: real)
    requires Kept(cfg, t) && (client in t.buckets || |t.order| < cfg.maxClients)
    ensures Kept(cfg, Admit(cfg, t, client, now).0)
  {
    LevelInRange(cfg, t, client, now);
    DeleteKeeps(cfg, t, client);
    hide Level;
  }

  /** Whatever the clock shows, a take keeps the table within its size, each bucket within its capacity, and every
      client listed once. */
  lemma TakeKeeps(cfg: Config, t: Table, client: string, now: real)
    requires Kept(cfg, t)
    ensures Kept(cfg, TakeStep(cfg, t, client, now).0)
  {
    if client in t.buckets || |t.order| < cfg.maxClients {
      AdmitKeeps(cfg, t, client, now);
    } else {
      var victim := FirstFull(cfg, t, now, 0);
      if victim < |t.order| {
        DeleteKeeps(cfg, t, t.order[victim]);
        AdmitKeeps(cfg, Delete(t, t.order[victim]), client, now);
      }
    }
  }

  lemma TakeKeepsValid(cfg: Config, t: Table, client: string, now: real, clock: real)
    requires Valid(cfg, t, clock) && clock <= now
    ensures Valid(cfg, TakeStep(cfg, t, client, now).0, now)
  {
    TakeKeeps(cfg, t, client, now);
    hide Kept, Level;
  }

  // ---------- levels over time ----------

  /** A level already refilled at `t1` refills from there: what happened before `t1` no longer matters. */
  lemma LevelLater(cfg: Config, buckets: map<string, Bucket>, client: string, t1: real, t2: real)
    requires ValidConfig(cfg) && t1 <= t2
    requires client in buckets ==> buckets[client].updatedMs <= t1
    ensures Level(cfg, buckets, client, t2)
         == Min(cfg.capacity, Level(cfg, buckets, client, t1) + (t2 - t1) / 1000.0 * cfg.refillPerSecond)
  {
    var rate, step := cfg.refillPerSecond, (t2 - t1) / 1000.0;
    assert step * rate >= 0.0;
    if client in buckets {
      var b := buckets[client];
      var first, whole := (t1 - b.updatedMs) / 1000.0, (t2 - b.updatedMs) / 1000.0;
      assert whole == first + step;
      assert whole * rate == first * rate + step * rate;
    }
  }

  ghost predicate UpdatedBy(buckets: map<string, Bucket>, clock: real) {
    forall k <- buckets :: buckets[k].updatedMs <= clock
  }

  ghost predicate SameLevels(cfg: Config, b: map<string, Bucket>, u: map<string, Bucket>, now: real) {
    forall c :: Level(cfg, b, c, now) == Level(cfg, u, c, now)
  }

  lemma SameLevelsLater(cfg: Config, b: map<string, Bucket>, u: map<string, Bucket>, t1: real, t2: real)
    requires ValidConfig(cfg) && t1 <= t2 && UpdatedBy(b, t1) && UpdatedBy(u, t1) && SameLevels(cfg, b, u, t1)
    ensures SameLevels(cfg, b, u, t2)
  {
    forall c ensures Level(cfg, b, c, t2) == Level(cfg, u, c, t2) {
      LevelLater(cfg, b, c, t1, t2);
      LevelLater(cfg, u, c, t1, t2);
    }
  }

  /** Dropping a fully refilled bucket changes no level. */
  lemma DroppingFullKeepsLevels(cfg: Config, t: Table, victim: string, now: real)
    requires victim in t.buckets && Refilled(cfg, t.buckets[victim], now) >= cfg.capacity
    ensures SameLevels(cfg, Delete(t, victim).buckets, t.buckets, now)
  {
  }

  // ---------- refinement of the unbounded limiter ----------

  ghost predicate Ordered(reqs: seq<Request>, clock: real) {
    && (forall i :: 0 <= i < |reqs| ==> clock <= reqs[i].now)
    && (forall i, j :: 0 <= i < j < |reqs| ==> reqs[i].now <= reqs[j].now)
  }

  /** The outcomes of a run and the table it leaves. */
  ghost function Run(cfg: Config, t: Table, reqs: seq<Request>): (r: (seq<Outcome>, Table))
    requires ValidConfig(cfg)
    ensures |r.0| == |reqs|
    decreases |reqs|
  {
    if reqs == [] then ([], t)
    else
      var (t', outcome) := TakeStep(cfg, t, reqs[0].client, reqs[0].now);
      var (outcomes, last) := Run(cfg, t', reqs[1..]);
      ([outcome] + outcomes, last)
  }

  /** The reference: one bucket per client, never dropped, no table bound. */
  function TakeUnbounded(cfg: Config, u: map<string, Bucket>, client: string, now: real): (map<string, Bucket>, Decision)
    requires ValidConfig(cfg)
  {
    var level := Level(cfg, u, client, now);
    (u[client := Bucket(Spent(level), now)], Decide(cfg, level))
  }

  /** The unbounded limiter fed the same requests, except those the bounded one refused for a full table. */
  ghost function RunUnbounded(cfg: Config, u: map<string, Bucket>, reqs: seq<Request>, bounded: seq<Outcome>): seq<Outcome>
    requires ValidConfig(cfg) && |bounded| == |reqs|
    decreases |reqs|
  {
    if reqs == [] then []
    else if bounded[0].Refused? then [bounded[0]] + RunUnbounded(cfg, u, reqs[1..], bounded[1..])
    else
      var (u', decision) := TakeUnbounded(cfg, u, reqs[0].client, reqs[0].now);
      [Decided(decision)] + RunUnbounded(cfg, u', reqs[1..], bounded[1..])
  }

  lemma AdmitRefines(cfg: Config, t: Table, u: map<string, Bucket>, client: string, now: real, clock: real)
    requires Valid(cfg, t, clock) && clock <= now && SameLevels(cfg, t.buckets, u, now)
    ensures var (t', outcome) := Admit(cfg, t, client, now);
            var (u', decision) := TakeUnbounded(cfg, u, client, now);
            outcome == Decided(decision) && SameLevels(cfg, t'.buckets, u', now)
  {
    var (t', _) := Admit(cfg, t, client, now);
    var (u', _) := TakeUnbounded(cfg, u, client, now);
    forall c ensures Level(cfg, t'.buckets, c, now) == Level(cfg, u', c, now) {
      assert Level(cfg, t.buckets, c, now) == Level(cfg, u, c, now);
    }
  }

  /** One take that is not refused decides as the unbounded limiter does, whatever was evicted. */
  lemma TakeRefines(cfg: Config, t: Table, u: map<string, Bucket>, client: string, now: real, clock: real)
    requires Valid(cfg, t, clock) && clock <= now && UpdatedBy(u, clock) && SameLevels(cfg, t.buckets, u, clock)
    ensures var (t', outcome) := TakeStep(cfg, t, client, now);
            var (u', decision) := TakeUnbounded(cfg, u, client, now);
            if outcome.Refused? then t' == t && SameLevels(cfg, t'.buckets, u, now)
            else outcome == Decided(decision) && SameLevels(cfg, t'.buckets, u', now)
  {
    SameLevelsLater(cfg, t.buckets, u, clock, now);
    if client in t.buckets || |t.order| < cfg.maxClients {
      AdmitRefines(cfg, t, u, client, now, clock);
    } else {
      var victim := FirstFull(cfg, t, now, 0);
      if victim < |t.order| {
        var key := t.order[victim];
        DropThenAdmit(cfg, t, u, client, key, now, clock);
      }
    }
  }

  lemma DropThenAdmit(cfg: Config, t: Table, u: map<string, Bucket>, client: string, victim: string, now: real, clock: real)
    requires Valid(cfg, t, clock) && clock <= now && SameLevels(cfg, t.buckets, u, now)
    requires victim in t.buckets && Refilled(cfg, t.buckets[victim], now) >= cfg.capacity
    ensures var (t', outcome) := Admit(cfg, Delete(t, victim), client, now);
            var (u', decision) := TakeUnbounded(cfg, u, client, now);
            outcome == Decided(decision) && SameLevels(cfg, t'.buckets, u', now)
  {
    DroppingFullKeepsLevels(cfg, t, victim, now);
    DeleteKeeps(cfg, t, victim);
    forall c ensures Level(cfg, Delete(t, victim).buckets, c, now) == Level(cfg, u, c, now) {
      assert Level(cfg, t.buckets, c, now) == Level(cfg, u, c, now);
    }
    AdmitRefines(cfg, Delete(t, victim), u, client, now, clock);
  }

  /** Main result: over any run from any pair of tables with the same levels (two empty ones, say),
      the bounded limiter's outcomes are those of the unbounded one. */
  lemma {:induction false} BoundedRefinesUnbounded(
    cfg: Config, t: Table, u: map<string, Bucket>, reqs: seq<Request>, clock: real)
    requires Valid(cfg, t, clock) && Ordered(reqs, clock)
    requires UpdatedBy(u, clock) && SameLevels(cfg, t.buckets, u, clock)
    ensures RunUnbounded(cfg, u, reqs, Run(cfg, t, reqs).0) == Run(cfg, t, reqs).0
    decreases |reqs|
  {
    if reqs != [] {
      var client, now := reqs[0].client, reqs[0].now;
      TakeKeepsValid(cfg, t, client, now, clock);
      TakeRefines(cfg, t, u, client, now, clock);
      var (t', outcome) := TakeStep(cfg, t, client, now);
      var u' := if outcome.Refused? then u else TakeUnbounded(cfg, u, client, now).0;
      BoundedRefinesUnbounded(cfg, t', u', reqs[1..], now);
      var rest := Run(cfg, t', reqs[1..]).0;
      assert ([outcome] + rest)[1..] == rest;
    }
  }

  // ---------- the rate bound ----------

  function Bit(b: bool): nat { if b then 1 else 0 }

  ghost function Admitted(reqs: seq<Request>, outcomes: seq<Outcome>, client: string): nat
    requires |reqs| == |outcomes|
  {
    if reqs == [] then 0 else
      Bit(reqs[0].client == client && outcomes[0].decision.allowed) + Admitted(reqs[1..], outcomes[1..], client)
  }

  lemma TakeSpends(cfg: Config, t: Table, client: string, now: real, c: string)
    requires Kept(cfg, t)
    ensures var (t', outcome) := TakeStep(cfg, t, client, now);
            Level(cfg, t'.buckets, c, now)
            == Level(cfg, t.buckets, c, now) - (if c == client && outcome.decision.allowed then 1.0 else 0.0)
  {
    LevelInRange(cfg, t, client, now);
    if client !in t.buckets && |t.order| >= cfg.maxClients {
      var victim := FirstFull(cfg, t, now, 0);
      if victim < |t.order| {
        DroppingFullKeepsLevels(cfg, t, t.order[victim], now);
        assert Level(cfg, Delete(t, t.order[victim]).buckets, c, now) == Level(cfg, t.buckets, c, now);
      }
    }
  }

  /** What the refill of so many milliseconds adds. */
  function Refill(cfg: Config, ms: real): real { ms / 1000.0 * cfg.refillPerSecond }

  /** Whichever way the clock moves, a level rises by no more than the refill of what it moves forward. */
  lemma LevelRises(cfg: Config, buckets: map<string, Bucket>, client: string, t1: real, t2: real)
    requires ValidConfig(cfg)
    ensures Level(cfg, buckets, client, t2) <= Level(cfg, buckets, client, t1) + Refill(cfg, Max(0.0, t2 - t1))
  {
    var rate := cfg.refillPerSecond;
    assert Refill(cfg, Max(0.0, t2 - t1)) >= 0.0 by { assert Max(0.0, t2 - t1) / 1000.0 >= 0.0; }
    if client in buckets {
      var b := buckets[client];
      var first, whole, step := Max(0.0, (t1 - b.updatedMs) / 1000.0), Max(0.0, (t2 - b.updatedMs) / 1000.0), Max(0.0, t2 - t1) / 1000.0;
      assert whole <= first + step;
      assert whole * rate <= (first + step) * rate == first * rate + step * rate;
    }
  }

  /** What one take admits is paid for out of the client's level. */
  lemma StepPays(cfg: Config, t: Table, client: string, now: real, before: real, c: string)
    requires Kept(cfg, t)
    ensures var (t', outcome) := TakeStep(cfg, t, client, now);
            && 0.0 <= Level(cfg, t'.buckets, c, now)
            && Bit(client == c && outcome.decision.allowed) as real + Level(cfg, t'.buckets, c, now)
               <= Level(cfg, t.buckets, c, before) + Refill(cfg, Max(0.0, now - before))
  {
    LevelRises(cfg, t.buckets, c, before, now);
    TakeSpends(cfg, t, client, now, c);
    TakeKeeps(cfg, t, client, now);
    LevelInRange(cfg, TakeStep(cfg, t, client, now).0, c, now);
    hide Level, TakeStep, Refill, Kept;
  }

  /** How far the clock moves forward over some requests, all its backward moves left out. */
  ghost function Forward(from: real, reqs: seq<Request>): real
    decreases |reqs|
  {
    if reqs == [] then 0.0 else Max(0.0, reqs[0].now - from) + Forward(reqs[0].now, reqs[1..])
  }

  lemma RefillAdds(cfg: Config, a: real, b: real)
    ensures Refill(cfg, a) + Refill(cfg, b) == Refill(cfg, a + b)
  {
    var x, y := a / 1000.0, b / 1000.0;
    assert (a + b) / 1000.0 == x + y;
    assert (x + y) * cfg.refillPerSecond == x * cfg.refillPerSecond + y * cfg.refillPerSecond;
  }

  lemma {:induction false} AdmittedWithinLevel(cfg: Config, t: Table, reqs: seq<Request>, before: real, c: string)
    requires Kept(cfg, t)
    ensures Admitted(reqs, Run(cfg, t, reqs).0, c) as real <= Level(cfg, t.buckets, c, before) + Refill(cfg, Forward(before, reqs))
    decreases |reqs|
  {
    hide TakeStep, Level, Refill, Kept;
    if reqs == [] {
      NothingAdmitted(cfg, t, before, c);
    } else {
      var client, now, rest := reqs[0].client, reqs[0].now, reqs[1..];
      StepPays(cfg, t, client, now, before, c);
      TakeKeeps(cfg, t, client, now);
      var (t', outcome) := TakeStep(cfg, t, client, now);
      var outcomes := Run(cfg, t', rest).0;
      assert ([outcome] + outcomes)[1..] == outcomes;
      assert Admitted(reqs, [outcome] + outcomes, c)
          == Bit(client == c && outcome.decision.allowed) + Admitted(rest, outcomes, c);
      AdmittedWithinLevel(cfg, t', rest, now, c);
      RefillAdds(cfg, Max(0.0, now - before), Forward(now, rest));
    }
  }

  lemma NothingAdmitted(cfg: Config, t: Table, before: real, c: string)
    requires Kept(cfg, t)
    ensures 0.0 <= Level(cfg, t.buckets, c, before) + Refill(cfg, 0.0)
  {
    LevelInRange(cfg, t, c, before);
    assert Refill(cfg, 0.0) == 0.0 by { assert 0.0 / 1000.0 * cfg.refillPerSecond == 0.0; }
  }

  lemma SliceOfCons<T>(head: T, tail: seq<T>, i: nat)
    requires 0 < i <= |tail| + 1
    ensures ([head] + tail)[i..] == tail[i - 1..] && ([head] + tail)[..i] == [head] + tail[..i - 1]
  {
  }

  lemma {:induction false} RunSplits(cfg: Config, t: Table, reqs: seq<Request>, i: nat)
    requires ValidConfig(cfg) && i <= |reqs|
    ensures Run(cfg, t, reqs).0[i..] == Run(cfg, Run(cfg, t, reqs[..i]).1, reqs[i..]).0
    ensures Run(cfg, t, reqs).0[..i] == Run(cfg, t, reqs[..i]).0
    decreases |reqs|
  {
    if i == 0 {
      assert reqs[..0] == [] && reqs[0..] == reqs;
    } else {
      hide TakeStep;
      var (t', outcome) := TakeStep(cfg, t, reqs[0].client, reqs[0].now);
      var rest := reqs[1..];
      RunSplits(cfg, t', rest, i - 1);
      assert reqs[..i][1..] == rest[..i - 1] && reqs[i..] == rest[i - 1..];
      SliceOfCons(outcome, Run(cfg, t', rest).0, i);
    }
  }

  lemma {:induction false} RunKeeps(cfg: Config, t: Table, reqs: seq<Request>)
    requires Kept(cfg, t)
    ensures Kept(cfg, Run(cfg, t, reqs).1)
    decreases |reqs|
  {
    hide TakeStep, Kept;
    if reqs != [] {
      TakeKeeps(cfg, t, reqs[0].client, reqs[0].now);
      RunKeeps(cfg, TakeStep(cfg, t, reqs[0].client, reqs[0].now).0, reqs[1..]);
    }
  }

  /** Whichever way the clock moves, in every window of every run, evictions included, a client is admitted at most
      capacity + rate * the time the clock moves forward in the window. */
  lemma WindowBound(cfg: Config, t: Table, reqs: seq<Request>, i: nat, j: nat, c: string)
    requires Kept(cfg, t) && i < j <= |reqs|
    ensures Admitted(reqs[i..j], Run(cfg, t, reqs).0[i..j], c) as real
         <= cfg.capacity + Refill(cfg, Forward(reqs[i].now, reqs[i + 1..j]))
  {
    hide TakeStep, Run, Level, Refill;
    var mid, window := Run(cfg, t, reqs[..i]).1, reqs[i..j];
    RunKeeps(cfg, t, reqs[..i]);
    RunSplits(cfg, t, reqs, i);
    RunSplits(cfg, mid, reqs[i..], j - i);
    assert reqs[i..][..j - i] == window;
    assert Run(cfg, t, reqs).0[i..j] == Run(cfg, t, reqs).0[i..][..j - i];
    AdmittedWithinLevel(cfg, mid, window, reqs[i].now, c);
    LevelInRange(cfg, mid, c, reqs[i].now);
    assert window[1..] == reqs[i + 1..j];
  }

  /** A clock that does not go back moves forward by the time from the first reading to the last. */
  lemma {:induction false} ForwardIsElapsed(from: real, reqs: seq<Request>)
    requires Ordered(reqs, from) && reqs != []
    ensures Forward(from, reqs) == reqs[|reqs| - 1].now - from
    decreases |reqs|
  {
    if |reqs| > 1 { ForwardIsElapsed(reqs[0].now, reqs[1..]); }
  }

  // ---------- what a take answers ----------

  lemma VictimIff(cfg: Config, t: Table, now: real, clock: real)
    requires Valid(cfg, t, clock)
    ensures FirstFull(cfg, t, now, 0) == |t.order| <==> forall k <- t.buckets :: Refilled(cfg, t.buckets[k], now) < cfg.capacity
  {
    hide Refilled;
    var i := FirstFull(cfg, t, now, 0);
    if i < |t.order| {
      assert t.order[i] in t.order && IsFull(cfg, t, t.order[i], now);
    } else {
      forall k | k in t.buckets ensures Refilled(cfg, t.buckets[k], now) < cfg.capacity {
        assert k in t.order;
        var j :| 0 <= j < |t.order| && t.order[j] == k;
        assert !IsFull(cfg, t, t.order[j], now);
      }
    }
  }

  /** A take is refused by the full table exactly when the client is new, the table is at its limit and no
      bucket is fully refilled; it then changes nothing and advertises the time one token takes. */
  lemma RefusedIff(cfg: Config, t: Table, client: string, now: real, clock: real)
    requires Valid(cfg, t, clock) && clock <= now
    ensures TakeStep(cfg, t, client, now).1.Refused? <==>
              && client !in t.buckets && |t.order| == cfg.maxClients
              && forall k <- t.buckets :: Refilled(cfg, t.buckets[k], now) < cfg.capacity
    ensures TakeStep(cfg, t, client, now).1.Refused? ==>
              && TakeStep(cfg, t, client, now).0 == t && !TakeStep(cfg, t, client, now).1.decision.allowed
              && TakeStep(cfg, t, client, now).1.decision.retryAfterSeconds as real >= 1.0 / cfg.refillPerSecond
  {
    hide Refilled, Level, Decide, Ceil;
    VictimIff(cfg, t, now, clock);
    CeilAbove(1.0 / cfg.refillPerSecond);
  }

  lemma CeilAbove(x: real)
    ensures x <= Ceil(x) as real < x + 1.0
  {
  }

  /** What a bucket held, and the refill since. */
  function Accrued(cfg: Config, b: Bucket, now: real): real { b.tokens + (now - b.updatedMs) / 1000.0 * cfg.refillPerSecond }

  /** A take that is not refused is allowed exactly when the client is new or what its bucket held, with the
      refill since, makes up a whole token; the bucket is then stamped now and holds one token less. */
  lemma AllowedIff(cfg: Config, t: Table, client: string, now: real, clock: real)
    requires Valid(cfg, t, clock) && clock <= now && TakeStep(cfg, t, client, now).1.Decided?
    ensures var (t', outcome) := TakeStep(cfg, t, client, now);
            && (client !in t.buckets ==> outcome.decision.allowed && client in t'.buckets
                                         && t'.buckets[client] == Bucket(cfg.capacity - 1.0, now))
            && (client in t.buckets ==>
                  var refill := Accrued(cfg, t.buckets[client], now);
                  && (outcome.decision.allowed <==> refill >= 1.0) && client in t'.buckets && t'.buckets[client].updatedMs == now
                  && (outcome.decision.allowed ==>
                        t'.buckets[client].tokens == (if refill <= cfg.capacity then refill else cfg.capacity) - 1.0)
                  && (!outcome.decision.allowed ==> t'.buckets[client].tokens == refill))
  {
    hide Refilled, Accrued, Level, Admit, Decide;
    if client in t.buckets {
      RefillGrows(cfg, t.buckets[client], now, clock);
      LevelOf(cfg, t, client, now);
      AdmitStores(cfg, t, client, now);
      assert TakeStep(cfg, t, client, now) == Admit(cfg, t, client, now);
    } else {
      var victim := FirstFull(cfg, t, now, 0);
      var room := if |t.order| < cfg.maxClients then t else Delete(t, t.order[victim]);
      LevelOf(cfg, room, client, now);
      AdmitStores(cfg, room, client, now);
    }
  }

  lemma LevelOf(cfg: Config, t: Table, client: string, now: real)
    ensures Level(cfg, t.buckets, client, now)
         == if client in t.buckets then Refilled(cfg, t.buckets[client], now) else cfg.capacity
  {
    hide Refilled;
  }

  lemma AdmitStores(cfg: Config, t: Table, client: string, now: real)
    requires ValidConfig(cfg)
    ensures var (t', outcome) := Admit(cfg, t, client, now);
            var level := Level(cfg, t.buckets, client, now);
            && outcome.Decided? && (outcome.decision.allowed <==> level >= 1.0)
            && client in t'.buckets && t'.buckets[client] == Bucket(if level >= 1.0 then level - 1.0 else level, now)
  {
    hide Level, Ceil;
  }

  lemma RefillGrows(cfg: Config, b: Bucket, now: real, clock: real)
    requires ValidConfig(cfg) && b.updatedMs <= clock <= now
    ensures Refilled(cfg, b, now) == Min(cfg.capacity, Accrued(cfg, b, now))
  {
    assert (now - b.updatedMs) / 1000.0 >= 0.0;
  }

  /** A clock that is not past the bucket's stamp refills nothing, but stamps the bucket with its reading. */
  lemma ClockGoingBack(cfg: Config, t: Table, client: string, now: real, clock: real)
    requires Valid(cfg, t, clock) && client in t.buckets && now <= t.buckets[client].updatedMs
    ensures var (t', outcome) := TakeStep(cfg, t, client, now); var held := t.buckets[client].tokens;
            && outcome.Decided? && (outcome.decision.allowed <==> held >= 1.0)
            && client in t'.buckets && t'.buckets[client] == Bucket(if held >= 1.0 then held - 1.0 else held, now)
  {
    hide Level, Admit;
    LevelOf(cfg, t, client, now);
    AdmitStores(cfg, t, client, now);
  }

  /** So the refinement needs a clock that does not go back.  With room for one client and one token a second, takes
      of a at 1000, of b at 2000 and at 0, and of a at 1000 drop each other's full buckets and admit a twice at one
      instant, which the unbounded limiter does not. */
  lemma ClockGoingBackParts(a: string, b: string)
    requires a != b
    ensures var cfg := Config(1.0, 1.0, 1);
            var (t1, o1) := TakeStep(cfg, EmptyTable, a, 1000.0);
            var (t2, o2) := TakeStep(cfg, t1, b, 2000.0);
            var (t3, o3) := TakeStep(cfg, t2, b, 0.0);
            var o4 := TakeStep(cfg, t3, a, 1000.0).1;
            var u1 := TakeUnbounded(cfg, map[], a, 1000.0).0;
            var u2 := TakeUnbounded(cfg, u1, b, 2000.0).0;
            var u3 := TakeUnbounded(cfg, u2, b, 0.0).0;
            && o1.Decided? && o2.Decided? && o3.Decided? && o4.Decided?
            && o4.decision.allowed && !TakeUnbounded(cfg, u3, a, 1000.0).1.allowed
  {
    var cfg := Config(1.0, 1.0, 1);
    FirstTake(cfg, a, 1000.0);
    EvictingTake(cfg, a, b, 1000.0, 2000.0);
    BackwardTake(cfg, b);
    EvictingTake(cfg, b, a, 0.0, 1000.0);
    UnboundedRefuses(cfg, a, b);
    hide TakeStep, TakeUnbounded;
  }

  lemma DeleteOnly(key: string, b: Bucket)
    ensures Delete(Table([key], map[key := b]), key) == EmptyTable
  {
    var t := Table([key], map[key := b]);
    var none: seq<string> := [];
    assert t.order[1..] == none && Without(none, key) == none;
    assert t.buckets - {key} == map[];
  }

  lemma FirstTake(cfg: Config, client: string, now: real)
    requires cfg == Config(1.0, 1.0, 1)
    ensures TakeStep(cfg, EmptyTable, client, now) == (Table([client], map[client := Bucket(0.0, now)]), Decided(Decision(true, 0)))
  {
    var none: seq<string> := [];
    assert EmptyTable.buckets - {client} == EmptyTable.buckets;
    assert Delete(EmptyTable, client) == EmptyTable;
    assert none + [client] == [client];
    assert Level(cfg, EmptyTable.buckets, client, now) == 1.0;
    hide Level;
  }

  /** A second after a bucket was emptied, a new client takes its place. */
  lemma EvictingTake(cfg: Config, gone: string, client: string, since: real, now: real)
    requires cfg == Config(1.0, 1.0, 1) && gone != client && now == since + 1000.0
    ensures TakeStep(cfg, Table([gone], map[gone := Bucket(0.0, since)]), client, now)
         == (Table([client], map[client := Bucket(0.0, now)]), Decided(Decision(true, 0)))
  {
    var t := Table([gone], map[gone := Bucket(0.0, since)]);
    FirstTake(cfg, client, now);
    assert FirstFull(cfg, t, now, 0) == 0 by { assert IsFull(cfg, t, t.order[0], now); }
    DeleteOnly(gone, Bucket(0.0, since));
    hide Admit, IsFull;
  }

  lemma BackwardTake(cfg: Config, client: string)
    requires cfg == Config(1.0, 1.0, 1)
    ensures var (t', outcome) := TakeStep(cfg, Table([client], map[client := Bucket(0.0, 2000.0)]), client, 0.0);
            t' == Table([client], map[client := Bucket(0.0, 0.0)]) && outcome.Decided?
  {
    var t := Table([client], map[client := Bucket(0.0, 2000.0)]);
    assert Level(cfg, t.buckets, client, 0.0) == 0.0;
    DeleteOnly(client, Bucket(0.0, 2000.0));
    hide Level, Decide;
  }

  lemma UnboundedRefuses(cfg: Config, a: string, b: string)
    requires cfg == Config(1.0, 1.0, 1) && a != b
    ensures var u1 := TakeUnbounded(cfg, map[], a, 1000.0).0;
            var u2 := TakeUnbounded(cfg, u1, b, 2000.0).0;
            var u3 := TakeUnbounded(cfg, u2, b, 0.0).0;
            !TakeUnbounded(cfg, u3, a, 1000.0).1.allowed
  {
    var u1 := TakeUnbounded(cfg, map[], a, 1000.0).0;
    assert u1[a] == Bucket(0.0, 1000.0);
    var u2 := TakeUnbounded(cfg, u1, b, 2000.0).0;
    assert u2[a] == Bucket(0.0, 1000.0);
    var u3 := TakeUnbounded(cfg, u2, b, 0.0).0;
    assert u3[a] == Bucket(0.0, 1000.0);
    assert Level(cfg, u3, a, 1000.0) == 0.0;
  }

  /** A table at its limit makes room for a new client by dropping its oldest fully refilled bucket alone. */
  lemma EvictsOldestFull(cfg: Config, t: Table, client: string, now: real, clock: real, i: nat)
    requires Valid(cfg, t, clock) && clock <= now && client !in t.buckets && |t.order| == cfg.maxClients && i < |t.order|
    requires IsFull(cfg, t, t.order[i], now) && forall j :: 0 <= j < i ==> !IsFull(cfg, t, t.order[j], now)
    ensures var t' := TakeStep(cfg, t, client, now).0;
            && t'.order == t.order[..i] + t.order[i + 1..] + [client]
            && t'.buckets.Keys == t.buckets.Keys - {t.order[i]} + {client}
            && forall k <- t.buckets :: k != t.order[i] ==> t'.buckets[k] == t.buckets[k]
  {
    hide Refilled, Level;
    var victim := t.order[i];
    assert FirstFull(cfg, t, now, 0) == i;
    WithoutAt(t.order, i);
    var rest := Delete(t, victim);
    assert client !in t.order && client !in rest.order;
    WithoutAbsent(rest.order, client);
    assert rest.buckets - {client} == rest.buckets;
    assert Delete(rest, client) == rest;
    assert TakeStep(cfg, t, client, now) == Admit(cfg, rest, client, now);
  }

  lemma {:induction false} WithoutAbsent(order: seq<string>, key: string)
    requires key !in order
    ensures Without(order, key) == order
  {
    if order != [] {
      WithoutAbsent(order[1..], key);
      assert order == [order[0]] + order[1..];
    }
  }

  lemma {:induction false} WithoutAt(order: seq<string>, i: nat)
    requires Distinct(order) && i < |order|
    ensures Without(order, order[i]) == order[..i] + order[i + 1..]
  {
    if i == 0 {
      assert order[0] !in order[1..];
      WithoutAbsent(order[1..], order[0]);
    } else {
      WithoutAt(order[1..], i - 1);
      assert order[1..][..i - 1] == order[1..i] && order[1..][i..] == order[i + 1..];
      assert order[..i] == [order[0]] + order[1..i];
    }
  }

  // ---------- Retry-After ----------

  lemma {:induction false} UntouchedWhileTracked(cfg: Config, t: Table, reqs: seq<Request>, clock: real, c: string)
    requires Valid(cfg, t, clock) && Ordered(reqs, clock)
    requires forall r <- reqs :: r.client != c
    ensures var last := Run(cfg, t, reqs).1;
            c in last.buckets ==> c in t.buckets && last.buckets[c] == t.buckets[c]
    decreases |reqs|
  {
    hide Refilled;
    if reqs != [] {
      TakeKeepsValid(cfg, t, reqs[0].client, reqs[0].now, clock);
      var t' := TakeStep(cfg, t, reqs[0].client, reqs[0].now).0;
      UntouchedWhileTracked(cfg, t', reqs[1..], reqs[0].now, c);
      assert c in t'.buckets ==> c in t.buckets && t'.buckets[c] == t.buckets[c];
    }
  }

  lemma WaitRefills(cfg: Config, b: Bucket, wait: int, later: real)
    requires ValidConfig(cfg) && 0.0 <= b.tokens < 1.0
    requires wait == MaxInt(1, Ceil((1.0 - b.tokens) / cfg.refillPerSecond)) && later >= b.updatedMs + 1000.0 * wait as real
    ensures Refilled(cfg, b, later) >= 1.0
  {
    var rate, elapsed := cfg.refillPerSecond, (later - b.updatedMs) / 1000.0;
    var need := (1.0 - b.tokens) / rate;
    assert need <= wait as real <= elapsed;
    assert need * rate == 1.0 - b.tokens;
    assert elapsed * rate >= need * rate;
    assert b.tokens + Max(0.0, elapsed) * rate >= 1.0;
  }

  /** The advertised time is the least number of whole seconds, at least one, that will do. */
  lemma RetryAfterIsLeast(cfg: Config, level: real, wait: int)
    requires ValidConfig(cfg) && 0.0 <= level < 1.0 && 1 <= wait < Decide(cfg, level).retryAfterSeconds
    ensures !Decide(cfg, level).allowed && level + wait as real * cfg.refillPerSecond < 1.0
  {
    var rate := cfg.refillPerSecond;
    var need := (1.0 - level) / rate;
    assert wait as real < need;
    assert wait as real * rate < need * rate;
    assert need * rate == 1.0 - level;
  }

  lemma RefilledIsAdmitted(cfg: Config, t: Table, c: string, later: real)
    requires ValidConfig(cfg) && c in t.buckets && Refilled(cfg, t.buckets[c], later) >= 1.0
    ensures TakeStep(cfg, t, c, later).1 == Decided(Decision(true, 0))
  {
  }

  lemma BlockedLeavesDeficit(cfg: Config, t: Table, c: string, now: real, clock: real)
    requires Valid(cfg, t, clock) && clock <= now
    requires var outcome := TakeStep(cfg, t, c, now).1; outcome.Decided? && !outcome.decision.allowed
    ensures var (t', outcome) := TakeStep(cfg, t, c, now);
            && c in t'.buckets && t'.buckets[c].updatedMs == now && 0.0 <= t'.buckets[c].tokens < 1.0
            && outcome.decision.retryAfterSeconds
               == MaxInt(1, Ceil((1.0 - t'.buckets[c].tokens) / cfg.refillPerSecond))
  {
    TakeKeepsValid(cfg, t, c, now, clock);
  }

  /** A blocked client that stays tracked while others take, and that waits the advertised
      Retry-After, is admitted on its next take. */
  lemma RetryAfterSuffices(
    cfg: Config, t: Table, c: string, now: real, clock: real, others: seq<Request>, later: real)
    requires Valid(cfg, t, clock) && clock <= now
    requires Ordered(others, now) && forall r <- others :: r.client != c
    ensures var (t', outcome) := TakeStep(cfg, t, c, now);
            var last := Run(cfg, t', others).1;
            && outcome.Decided? && !outcome.decision.allowed
            && c in last.buckets
            && later >= now + 1000.0 * outcome.decision.retryAfterSeconds as real
            ==> TakeStep(cfg, last, c, later).1 == Decided(Decision(true, 0))
  {
    hide TakeStep, Run, Refilled;
    var (t', outcome) := TakeStep(cfg, t, c, now);
    if && outcome.Decided? && !outcome.decision.allowed
       && c in Run(cfg, t', others).1.buckets
       && later >= now + 1000.0 * outcome.decision.retryAfterSeconds as real
    {
      BlockedLeavesDeficit(cfg, t, c, now, clock);
      TakeKeepsValid(cfg, t, c, now, clock);
      UntouchedWhileTracked(cfg, t', others, now, c);
      WaitRefills(cfg, t'.buckets[c], outcome.decision.retryAfterSeconds, later);
      RefilledIsAdmitted(cfg, Run(cfg, t', others).1, c, later);
    }
  }
}
