/** What one pass of the dispatcher answers, with the conditions written out: when a turn delivers, dead-letters
    or retries, and when the circuit opens. */
module DispatcherAnswers {
  import opened Common
  import opened Wrappers
  import opened Outbox
  import opened Dispatcher

  // ---------- one turn ----------

  /** A lease call of this worker on the event would succeed. */
  predicate Holds(p: Policy, e: OutboxEvent, rows: Rows, at: Time) {
    Bounded(p.workerId, 128) && DateOk(at) && HeldBy(rows, e.eventId, p.workerId, at)
  }

  predicate Delivers(p: Policy, b: Breaker, t: Turn) { Answers(p, b, t) && 200 <= t.status.value < 300 }

  predicate Overloaded(p: Policy, b: Breaker, t: Turn) { Answers(p, b, t) && (t.status.value == 429 || t.status.value >= 500) }

  /** The first attempt ends in a dead letter: a permanent reply, or an overloaded partner and no budget left. */
  predicate Hopeless(p: Policy, b: Breaker, e: OutboxEvent, t: Turn) {
    Answers(p, b, t) && !Delivers(p, b, t) && (Overloaded(p, b, t) ==> e.attempts >= p.maximumAttempts)
  }

  /** Something in the try block throws: nothing could be sent or no reply came, the sink failed, or the event's
      lease was lost by the time of the lease call. */
  predicate Throws(p: Policy, b: Breaker, e: OutboxEvent, t: Turn) {
    if t.before < b.circuitOpenUntil then !(DateOk(b.circuitOpenUntil) && Holds(p, e, t.rows, t.before))
    else if !Answers(p, b, t) then true
    else if Delivers(p, b, t) then !Holds(p, e, t.rows, t.completed)
    else if Hopeless(p, b, e, t) then !t.records || !Holds(p, e, t.rows, t.completed)
    else !(DateOk(t.completed + p.retryDelayMs) && Holds(p, e, t.rows, t.completed))
  }

  lemma AckOk(p: Policy, e: OutboxEvent, at: Time, rows: Rows)
    ensures Ack(p, e.eventId, at, rows).ok <==> Holds(p, e, rows, at)
  {
    hide Bounded, HeldBy;
  }

  lemma GiveOk(p: Policy, e: OutboxEvent, retryAt: Time, at: Time, rows: Rows)
    ensures Give(p, e.eventId, retryAt, at, rows).ok <==> DateOk(retryAt) && Holds(p, e, rows, at)
  {
    hide Bounded, HeldBy;
  }

  lemma TryCalls(p: Policy, b: Breaker, e: OutboxEvent, t: Turn)
    ensures Try(p, b, e, t).2.None? <==> Throws(p, b, e, t)
  {
    hide Holds, Acknowledged, Released, Failure;
    AckOk(p, e, t.completed, t.rows);
    GiveOk(p, e, b.circuitOpenUntil, t.before, t.rows);
    GiveOk(p, e, t.completed + p.retryDelayMs, t.completed, t.rows);
  }

  /** A turn delivers exactly when the partner answers 2xx while the lease runs.  It dead-letters exactly when
      the reply is permanent or the budget is spent, the sink records, and the lease runs, in the first attempt
      or after its error.  The status it reports is the partner's unless something threw. */
  lemma TurnAnswers(p: Policy, b: Breaker, e: OutboxEvent, t: Turn)
    ensures var outcome := TakeTurn(p, b, e, t).2;
            && (outcome.kind == DeliveredOutcome <==> Delivers(p, b, t) && Holds(p, e, t.rows, t.completed))
            && (outcome.kind == DeadLettered <==>
                  || (Hopeless(p, b, e, t) && t.records && Holds(p, e, t.rows, t.completed))
                  || (Throws(p, b, e, t) && e.attempts >= p.maximumAttempts && t.recordsAgain && Holds(p, e, t.rowsAgain, t.failed)))
            && outcome.status == (if Answers(p, b, t) && !Throws(p, b, e, t) then t.status else None)
  {
    hide Holds, Acknowledged, Released, Failure;
    AckOk(p, e, t.completed, t.rows);
    AckOk(p, e, t.failed, t.rowsAgain);
    GiveOk(p, e, b.circuitOpenUntil, t.before, t.rows);
    GiveOk(p, e, t.completed + p.retryDelayMs, t.completed, t.rows);
  }

  lemma FailureSendsNothing(p: Policy, b: Breaker, at: Time)
    ensures var effects := Failure(p, b, at).1; effects != [] && forall i :: 0 <= i < |effects| ==> !effects[i].Sent?
  {
  }

  /** A turn sends exactly when the circuit is not open and the event can be sent, first and only once. */
  lemma SendsIff(p: Policy, b: Breaker, e: OutboxEvent, t: Turn, i: nat)
    requires i < |TakeTurn(p, b, e, t).1|
    ensures var effects := TakeTurn(p, b, e, t).1;
            && (effects[0] == Sent(e.eventId, t.before) <==> t.before >= b.circuitOpenUntil && t.encodes && p.requestTimeoutMs <= 60_000)
            && (effects[i].Sent? ==> i == 0 && effects[0] == Sent(e.eventId, t.before))
  {
    hide Acknowledged, Released, Failure, Bury, Success, Transient;
    FailureSendsNothing(p, b, t.completed);
    FailureSendsNothing(p, Try(p, b, e, t).0, t.failed);
    BuryStill(p, e.eventId, t.completed, t.records, t.rows);
    BuryStill(p, e.eventId, t.failed, t.recordsAgain, t.rowsAgain);
  }

  /** When the event of a retry may be claimed again: once the circuit closes, or the retry delay after the
      reply or the error. */
  lemma RetryComesBack(p: Policy, b: Breaker, e: OutboxEvent, t: Turn)
    requires TakeTurn(p, b, e, t).2.kind == RetryScheduled
    ensures var effects := TakeTurn(p, b, e, t).1;
            && effects != []
            && var last := effects[|effects| - 1];
            && last.ReleasedTo? && last.id == e.eventId
            && (last.retryAt, last.at) == (
                 if Throws(p, b, e, t) then (t.failed + p.retryDelayMs, t.failed)
                 else if t.before < b.circuitOpenUntil then (b.circuitOpenUntil, t.before)
                 else (t.completed + p.retryDelayMs, t.completed))
  {
    hide Holds, Acknowledged, Released, Failure, Throws;
    TryCalls(p, b, e, t);
  }

  /** How a turn changes the count of failures in a row: 2xx resets it, an overloaded partner adds one, and
      whatever throws adds one more. */
  lemma TurnCounts(p: Policy, b: Breaker, e: OutboxEvent, t: Turn)
    ensures TakeTurn(p, b, e, t).0.consecutiveFailures ==
              (if Delivers(p, b, t) then 0 else b.consecutiveFailures + if Overloaded(p, b, t) then 1 else 0)
              + if Throws(p, b, e, t) then 1 else 0
  {
    hide Acknowledged, Released, Bury, Throws;
    TryCalls(p, b, e, t);
  }

  // ---------- the circuit ----------

  /** The failures since the partner last answered 2xx. */
  function FailuresSince(start: nat, effects: seq<Effect>): nat {
    if effects == [] then start
    else
      var before := FailuresSince(start, effects[..|effects| - 1]);
      match effects[|effects| - 1]
      case Answered(_, status) => if 200 <= status < 300 then 0 else before
      case FailedAt(_) => before + 1
      case _ => before
  }

  /** The circuit opens right after a failure, for the cooldown, exactly when that failure makes the count reach
      the threshold; it closes right after each 2xx reply and at no other time; and 429 and 5xx replies fail. */
  ghost predicate CircuitFollows(p: Policy, start: nat, effects: seq<Effect>) {
    forall i :: 0 <= i < |effects| ==> FollowsAt(p, start, effects, i)
  }

  ghost predicate FollowsAt(p: Policy, start: nat, effects: seq<Effect>, i: nat)
    requires i < |effects|
  {
    match effects[i]
    case FailedAt(at) =>
      FailuresSince(start, effects[..i + 1]) >= p.failureThreshold ==>
        i + 1 < |effects| && effects[i + 1] == CircuitOpened(at + p.cooldownMs)
    case CircuitOpened(until) =>
      && i > 0 && effects[i - 1] == FailedAt(until - p.cooldownMs)
      && FailuresSince(start, effects[..i]) >= p.failureThreshold
    case CircuitClosed => i > 0 && effects[i - 1].Answered? && 200 <= effects[i - 1].status < 300
    case Answered(_, status) =>
      && (200 <= status < 300 ==> i + 1 < |effects| && effects[i + 1] == CircuitClosed)
      && (status == 429 || status >= 500 ==> i + 1 < |effects| && effects[i + 1].FailedAt?)
    case _ => true
  }

  lemma {:induction false} SinceConcat(start: nat, a: seq<Effect>, b: seq<Effect>)
    ensures FailuresSince(start, a + b) == FailuresSince(FailuresSince(start, a), b)
    decreases |b|
  {
    if b == [] {
      assert a + b == a;
    } else {
      assert (a + b)[..|a + b| - 1] == a + b[..|b| - 1];
      SinceConcat(start, a, b[..|b| - 1]);
    }
  }

  lemma FollowsConcat(p: Policy, start: nat, a: seq<Effect>, middle: nat, b: seq<Effect>, end: nat)
    requires CircuitFollows(p, start, a) && FailuresSince(start, a) == middle
    requires CircuitFollows(p, middle, b) && FailuresSince(middle, b) == end
    ensures CircuitFollows(p, start, a + b) && FailuresSince(start, a + b) == end
  {
    hide FailuresSince;
    SinceConcat(start, a, b);
    var all := a + b;
    forall i | 0 <= i < |all| ensures FollowsAt(p, start, all, i) {
      if i < |a| {
        assert all[..i] == a[..i] && all[..i + 1] == a[..i + 1];
        assert FollowsAt(p, start, a, i);
      } else {
        var j := i - |a|;
        assert all[..i] == a + b[..j] && all[..i + 1] == a + b[..j + 1];
        SinceConcat(start, a, b[..j]);
        SinceConcat(start, a, b[..j + 1]);
        assert FollowsAt(p, middle, b, j);
      }
    }
  }

  /** Sends, records and lease calls. */
  predicate Calm(x: Effect) { x.Sent? || x.Recorded? || x.Acked? || x.ReleasedTo? }

  lemma {:induction false} CalmFollows(p: Policy, start: nat, effects: seq<Effect>)
    requires forall i :: 0 <= i < |effects| ==> Calm(effects[i])
    ensures CircuitFollows(p, start, effects) && FailuresSince(start, effects) == start
  {
    if effects != [] { CalmFollows(p, start, effects[..|effects| - 1]); }
  }

  lemma BuryCalm(p: Policy, id: Id, at: Time, records: bool, rows: Rows)
    ensures forall i :: 0 <= i < |Bury(p, id, at, records, rows).0| ==> Calm(Bury(p, id, at, records, rows).0[i])
  {
    hide Acknowledged;
  }

  lemma FailureFollows(p: Policy, b: Breaker, at: Time)
    ensures var (b', tripped) := Failure(p, b, at); var start := b.consecutiveFailures;
            && CircuitFollows(p, start, tripped) && FailuresSince(start, tripped) == b'.consecutiveFailures
            && tripped != [] && tripped[0].FailedAt?
  {
    var start, tripped, first := b.consecutiveFailures, Failure(p, b, at).1, [FailedAt(at)];
    assert first[..0] == [] && tripped[..1] == first && FailuresSince(start, first) == start + 1;
    assert FollowsAt(p, start, tripped, 0);
    if |tripped| > 1 {
      assert tripped[..|tripped| - 1] == first && tripped[1] == CircuitOpened(at + p.cooldownMs);
      assert FollowsAt(p, start, tripped, 1);
    }
  }

  /** A reply that the circuit takes notice of, and what it makes of it. */
  lemma SuccessFollows(p: Policy, start: nat, id: Id, status: int)
    requires Success(status)
    ensures var closing := [Answered(id, status), CircuitClosed];
            CircuitFollows(p, start, closing) && FailuresSince(start, closing) == 0
  {
    var reply, closing := [Answered(id, status)], [Answered(id, status), CircuitClosed];
    assert closing[..1] == reply && reply[..0] == [];
    assert closing[|closing| - 1] == CircuitClosed && closing[..|closing| - 1] == reply;
    assert FailuresSince(start, closing) == FailuresSince(start, reply);
  }

  lemma PermanentFollows(p: Policy, start: nat, id: Id, status: int)
    requires !Success(status) && !Transient(status)
    ensures CircuitFollows(p, start, [Answered(id, status)]) && FailuresSince(start, [Answered(id, status)]) == start
  {
    UncountedReply(start, id, status);
  }

  lemma UncountedReply(start: nat, id: Id, status: int)
    requires !Success(status)
    ensures FailuresSince(start, [Answered(id, status)]) == start
  {
    assert [Answered(id, status)][..0] == [];
  }

  lemma TransientFollows(p: Policy, b: Breaker, id: Id, status: int, at: Time)
    requires !Success(status) && Transient(status)
    ensures var (b', tripped) := Failure(p, b, at); var all := [Answered(id, status)] + tripped;
            CircuitFollows(p, b.consecutiveFailures, all) && FailuresSince(b.consecutiveFailures, all) == b'.consecutiveFailures
  {
    hide Failure, FailuresSince;
    var start, reply, tripped := b.consecutiveFailures, [Answered(id, status)], Failure(p, b, at).1;
    FailureFollows(p, b, at);
    UncountedReply(start, id, status);
    var all := reply + tripped;
    SinceConcat(start, reply, tripped);
    forall i | 0 <= i < |all| ensures FollowsAt(p, start, all, i) {
      if i > 0 {
        assert all[..i] == reply + tripped[..i - 1] && all[..i + 1] == reply + tripped[..i];
        SinceConcat(start, reply, tripped[..i - 1]);
        SinceConcat(start, reply, tripped[..i]);
        assert FollowsAt(p, start, tripped, i - 1);
      }
    }
  }

  lemma TryFollows(p: Policy, b: Breaker, e: OutboxEvent, t: Turn)
    ensures var (b', effects, _) := Try(p, b, e, t);
            CircuitFollows(p, b.consecutiveFailures, effects) && FailuresSince(b.consecutiveFailures, effects) == b'.consecutiveFailures
  {
    hide Acknowledged, Released, Bury, Failure, CircuitFollows, FailuresSince, Success, Transient;
    var id, start := e.eventId, b.consecutiveFailures;
    var (b', effects, _) := Try(p, b, e, t);
    if Answers(p, b, t) {
      var status := t.status.value;
      var sent, reply := [Sent(id, t.before)], [Answered(id, status)];
      var tripped, buried := Failure(p, b, t.completed).1, Bury(p, id, t.completed, t.records, t.rows).0;
      var give := [Give(p, id, t.completed + p.retryDelayMs, t.completed, t.rows)];
      CalmFollows(p, start, sent);
      if Success(status) { SuccessFollows(p, start, id, status); }
      else if Transient(status) { TransientFollows(p, b, id, status, t.completed); }
      else { PermanentFollows(p, start, id, status); }
      BuryCalm(p, id, t.completed, t.records, t.rows);
      var middle := if Success(status) then [Answered(id, status), CircuitClosed] else if Transient(status) then reply + tripped else reply;
      var rest := if Success(status) then [Ack(p, id, t.completed, t.rows)]
                  else if Transient(status) && e.attempts < p.maximumAttempts then give else buried;
      assert effects == sent + (middle + rest);
      CalmFollows(p, b'.consecutiveFailures, rest);
      FollowsConcat(p, start, middle, b'.consecutiveFailures, rest, b'.consecutiveFailures);
      FollowsConcat(p, start, sent, start, middle + rest, b'.consecutiveFailures);
    } else {
      CalmFollows(p, start, effects);
    }
  }

  lemma CatchFollows(p: Policy, b: Breaker, e: OutboxEvent, t: Turn)
    ensures var (b', effects, _) := Catch(p, b, e, t);
            CircuitFollows(p, b.consecutiveFailures, effects) && FailuresSince(b.consecutiveFailures, effects) == b'.consecutiveFailures
  {
    hide Acknowledged, Released, Bury, Failure, CircuitFollows, FailuresSince;
    var id, start := e.eventId, b.consecutiveFailures;
    var (b', effects, _) := Catch(p, b, e, t);
    var tripped := Failure(p, b, t.failed).1;
    FailureFollows(p, b, t.failed);
    BuryCalm(p, id, t.failed, t.recordsAgain, t.rowsAgain);
    var rest := effects[|tripped|..];
    assert effects == tripped + rest;
    CalmFollows(p, b'.consecutiveFailures, rest);
    FollowsConcat(p, start, tripped, b'.consecutiveFailures, rest, b'.consecutiveFailures);
  }

  /** Over a whole pass the breaker counts exactly the failures since the last 2xx reply, and opens and closes
      the circuit exactly as that count says. */
  lemma {:induction false} CircuitCountsFailures(p: Policy, b: Breaker, events: seq<OutboxEvent>, turns: seq<Turn>, n: nat)
    requires n <= |events| == |turns|
    ensures var (b', effects, _) := Pass(p, b, events, turns, n);
            && CircuitFollows(p, b.consecutiveFailures, effects)
            && FailuresSince(b.consecutiveFailures, effects) == b'.consecutiveFailures
    decreases n
  {
    hide Try, Catch, CircuitFollows, FailuresSince;
    var start := b.consecutiveFailures;
    if n == 0 {
      CalmFollows(p, start, []);
    } else {
      CircuitCountsFailures(p, b, events, turns, n - 1);
      var (b1, effects, _) := Pass(p, b, events, turns, n - 1);
      var e, t := events[n - 1], turns[n - 1];
      var (b2, tried, outcome) := Try(p, b1, e, t);
      var (b3, caught, _) := Catch(p, b2, e, t);
      TryFollows(p, b1, e, t);
      CatchFollows(p, b2, e, t);
      FollowsConcat(p, b1.consecutiveFailures, tried, b2.consecutiveFailures, caught, b3.consecutiveFailures);
      FollowsConcat(p, start, effects, b1.consecutiveFailures, tried, b2.consecutiveFailures);
      FollowsConcat(p, start, effects, b1.consecutiveFailures, tried + caught, b3.consecutiveFailures);
    }
  }

  // ---------- before the pass ----------

  /** A pass starts exactly under these settings, and at an instant a date can hold with its lease. */
  lemma RunsIff(p: Policy, started: Time)
    ensures Refused(p, started).None? <==>
              && 1 <= p.requestTimeoutMs < p.leaseMs && 1000 <= p.leaseMs <= 9_007_199_254_740_991
              && 1 <= p.maximumAttempts <= 1000 && 1 <= p.failureThreshold <= 100
              && 1 <= p.retryDelayMs <= 3_600_000 && 1 <= p.cooldownMs <= 3_600_000
              && 1 <= p.batchSize <= 1000 && Bounded(p.workerId, 128) && DateOk(started) && DateOk(started + p.leaseMs)
  {
    hide Bounded;
  }
}
