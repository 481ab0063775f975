/** The partner dispatcher: one pass over the claimed events, with its circuit breaker, retry budget and
    dead letters.  The adapter, the sink, the clock and the rows each lease call meets are given turn by
    turn, so that other workers may act at every await. */
module Dispatcher {
  import opened Common
  import opened Wrappers
  import opened Timestamps
  import opened Outbox
  import DurableStore

  datatype Policy = Policy(
    workerId: Id, leaseMs: int, batchSize: int, requestTimeoutMs: int, maximumAttempts: int, failureThreshold: int,
    retryDelayMs: int, cooldownMs: int)

  /** `#sendBounded` throws before it sends when the timeout is longer than this; no earlier test does. */
  const MAX_REQUEST_TIMEOUT_MS := 60_000

  predicate PolicyOk(p: Policy) {
    && 1 <= p.requestTimeoutMs < p.leaseMs <= MAX_SAFE_INTEGER
    && 1 <= p.maximumAttempts <= 1_000 && 1 <= p.failureThreshold <= 100
    && 1 <= p.retryDelayMs <= 3_600_000 && 1 <= p.cooldownMs <= 3_600_000
  }

  /** What the surroundings do in the turn of one event: the clock readings, whether the payload encodes,
      the partner's status or None for a throw or timeout, whether the sink records, and the rows the
      lease calls of the try block and of the catch block meet. */
  datatype Turn = Turn(
    before: Time, encodes: bool, status: Option<int>, completed: Time, failed: Time, records: bool, recordsAgain: bool,
    rows: Rows, rowsAgain: Rows, rowsLast: Rows)

  datatype Kind = DeliveredOutcome | RetryScheduled | DeadLettered

  datatype Outcome = Outcome(eventId: Id, kind: Kind, status: Option<int>)

  /** What a pass does, in order; `ok` says whether the call succeeded.  FailedAt is one call of #recordFailure. */
  datatype Effect =
    | Sent(id: Id, at: Time)
    | Answered(id: Id, status: int)
    | CircuitClosed
    | FailedAt(at: Time)
    | CircuitOpened(until: Time)
    | Acked(id: Id, at: Time, rows: Rows, ok: bool)
    | ReleasedTo(id: Id, retryAt: Time, at: Time, rows: Rows, ok: bool)
    | Recorded(id: Id, ok: bool)

  datatype Breaker = Breaker(consecutiveFailures: nat, circuitOpenUntil: Time)

  predicate Success(status: int) { 200 <= status < 300 }

  predicate Transient(status: int) { status == 429 || status >= 500 }

  function Failure(p: Policy, b: Breaker, at: Time): (Breaker, seq<Effect>) {
    var failures := b.consecutiveFailures + 1;
    if failures >= p.failureThreshold then
      (Breaker(failures, at + p.cooldownMs), [FailedAt(at), CircuitOpened(at + p.cooldownMs)])
    else (Breaker(failures, b.circuitOpenUntil), [FailedAt(at)])
  }

  function Ack(p: Policy, id: Id, at: Time, rows: Rows): Effect {
    Acked(id, at, rows, Acknowledged(rows, id, p.workerId, at).1.None?)
  }

  function Give(p: Policy, id: Id, retryAt: Time, at: Time, rows: Rows): Effect {
    ReleasedTo(id, retryAt, at, rows, Released(rows, id, p.workerId, retryAt, at).1.None?)
  }

  /** A dead letter: recorded, and acknowledged only if that succeeded.  Whether both did. */
  function Bury(p: Policy, id: Id, at: Time, records: bool, rows: Rows): (seq<Effect>, bool) {
    if !records then ([Recorded(id, false)], false)
    else
      var ack := Ack(p, id, at, rows);
      ([Recorded(id, true), ack], ack.ok)
  }

  /** The try block: effects, and an outcome unless something threw. */
  function Try(p: Policy, b: Breaker, e: OutboxEvent, t: Turn): (Breaker, seq<Effect>, Option<Outcome>) {
    var id := e.eventId;
    if t.before < b.circuitOpenUntil then
      var give := Give(p, id, b.circuitOpenUntil, t.before, t.rows);
      (b, [give], if give.ok then Some(Outcome(id, RetryScheduled, None)) else None)
    else if !t.encodes || p.requestTimeoutMs > MAX_REQUEST_TIMEOUT_MS then (b, [], None)
    else if t.status.None? then (b, [Sent(id, t.before)], None)
    else
      var status := t.status.value;
      var sent := [Sent(id, t.before), Answered(id, status)];
      if Success(status) then
        var ack := Ack(p, id, t.completed, t.rows);
        (Breaker(0, 0), sent + [CircuitClosed, ack], if ack.ok then Some(Outcome(id, DeliveredOutcome, Some(status))) else None)
      else if Transient(status) then
        var (b', tripped) := Failure(p, b, t.completed);
        if e.attempts >= p.maximumAttempts then
          var (effects, ok) := Bury(p, id, t.completed, t.records, t.rows);
          (b', sent + tripped + effects, if ok then Some(Outcome(id, DeadLettered, Some(status))) else None)
        else
          var give := Give(p, id, t.completed + p.retryDelayMs, t.completed, t.rows);
          (b', sent + tripped + [give], if give.ok then Some(Outcome(id, RetryScheduled, Some(status))) else None)
      else
        var (effects, ok) := Bury(p, id, t.completed, t.records, t.rows);
        (b, sent + effects, if ok then Some(Outcome(id, DeadLettered, Some(status))) else None)
  }

  /** The catch block always ends in an outcome. */
  function Catch(p: Policy, b: Breaker, e: OutboxEvent, t: Turn): (Breaker, seq<Effect>, Outcome) {
    var id := e.eventId;
    var (b', tripped) := Failure(p, b, t.failed);
    var (buried, ok) := if e.attempts >= p.maximumAttempts then Bury(p, id, t.failed, t.recordsAgain, t.rowsAgain) else ([], false);
    if ok then (b', tripped + buried, Outcome(id, DeadLettered, None))
    else
      (b', tripped + buried + [Give(p, id, t.failed + p.retryDelayMs, t.failed, t.rowsLast)], Outcome(id, RetryScheduled, None))
  }

  function TakeTurn(p: Policy, b: Breaker, e: OutboxEvent, t: Turn): (Breaker, seq<Effect>, Outcome) {
    var (b1, effects, outcome) := Try(p, b, e, t);
    if outcome.Some? then (b1, effects, outcome.value)
    else
      var (b2, more, caught) := Catch(p, b1, e, t);
      (b2, effects + more, caught)
  }

  /** A pass over the first n events. */
  function Pass(p: Policy, b: Breaker, events: seq<OutboxEvent>, turns: seq<Turn>, n: nat): (Breaker, seq<Effect>, seq<Outcome>)
    requires n <= |events| == |turns|
  {
    if n == 0 then (b, [], [])
    else
      var (b1, effects, outcomes) := Pass(p, b, events, turns, n - 1);
      var (b2, more, outcome) := TakeTurn(p, b1, events[n - 1], turns[n - 1]);
      (b2, effects + more, outcomes + [outcome])
  }

  // ---------- what one turn does ----------

  /** The circuit lets the turn send, it can, and the partner answers in time. */
  predicate Answers(p: Policy, b: Breaker, t: Turn) {
    t.before >= b.circuitOpenUntil && t.encodes && p.requestTimeoutMs <= 60_000 && t.status.Some?
  }

  /** An acknowledgement that succeeded comes after a 2xx reply or a recorded dead letter for the event. */
  predicate Earned(effects: seq<Effect>, i: nat)
    requires i < |effects| && effects[i].Acked?
  {
    exists k :: 0 <= k < i && ((effects[k].Answered? && effects[k].id == effects[i].id && Success(effects[k].status))
                               || (effects[k].Recorded? && effects[k].id == effects[i].id && effects[k].ok))
  }

  ghost predicate AllEarned(effects: seq<Effect>) {
    forall i :: 0 <= i < |effects| && effects[i].Acked? && effects[i].ok ==> Earned(effects, i)
  }

  lemma EarnedConcat(a: seq<Effect>, b: seq<Effect>)
    requires AllEarned(a) && AllEarned(b)
    ensures AllEarned(a + b)
  {
    var all := a + b;
    forall i | 0 <= i < |all| && all[i].Acked? && all[i].ok ensures Earned(all, i) {
      if i < |a| {
        assert Earned(a, i);
        var k :| 0 <= k < i && ((a[k].Answered? && a[k].id == a[i].id && Success(a[k].status))
                                || (a[k].Recorded? && a[k].id == a[i].id && a[k].ok));
        assert all[k] == a[k];
      } else {
        var j := i - |a|;
        assert Earned(b, j);
        var k :| 0 <= k < j && ((b[k].Answered? && b[k].id == b[j].id && Success(b[k].status))
                                || (b[k].Recorded? && b[k].id == b[j].id && b[k].ok));
        assert all[|a| + k] == b[k];
      }
    }
  }

  lemma FailureEarned(p: Policy, b: Breaker, at: Time)
    ensures AllEarned(Failure(p, b, at).1)
  {
  }

  lemma BuryEarned(p: Policy, id: Id, at: Time, records: bool, rows: Rows)
    ensures AllEarned(Bury(p, id, at, records, rows).0)
  {
    hide Acknowledged;
    var (effects, ok) := Bury(p, id, at, records, rows);
    if records {
      assert effects[0] == Recorded(id, true);
      assert Earned(effects, 1);
    }
  }

  lemma TryEarned(p: Policy, b: Breaker, e: OutboxEvent, t: Turn)
    ensures AllEarned(Try(p, b, e, t).1)
  {
    hide Acknowledged, Released, Bury, Failure;
    var (b1, effects, outcome) := Try(p, b, e, t);
    if Answers(p, b, t) {
      var status := t.status.value;
      var sent := [Sent(e.eventId, t.before), Answered(e.eventId, status)];
      BuryEarned(p, e.eventId, t.completed, t.records, t.rows);
      FailureEarned(p, b, t.completed);
      var buried := Bury(p, e.eventId, t.completed, t.records, t.rows).0;
      var tripped := Failure(p, b, t.completed).1;
      if Success(status) {
        assert effects[1] == Answered(e.eventId, status);
        assert Earned(effects, 3);
      } else {
        assert AllEarned(sent);
        EarnedConcat(sent, tripped);
        EarnedConcat(sent + tripped, buried);
        EarnedConcat(sent, buried);
        assert AllEarned([Give(p, e.eventId, t.completed + p.retryDelayMs, t.completed, t.rows)]);
        EarnedConcat(sent + tripped, [Give(p, e.eventId, t.completed + p.retryDelayMs, t.completed, t.rows)]);
      }
    }
  }

  lemma CatchEarned(p: Policy, b: Breaker, e: OutboxEvent, t: Turn)
    ensures AllEarned(Catch(p, b, e, t).1)
  {
    hide Acknowledged, Released, Bury, Failure;
    var tripped := Failure(p, b, t.failed).1;
    FailureEarned(p, b, t.failed);
    BuryEarned(p, e.eventId, t.failed, t.recordsAgain, t.rowsAgain);
    var buried := if e.attempts >= p.maximumAttempts then Bury(p, e.eventId, t.failed, t.recordsAgain, t.rowsAgain).0 else [];
    EarnedConcat(tripped, buried);
    var give := [Give(p, e.eventId, t.failed + p.retryDelayMs, t.failed, t.rowsLast)];
    assert AllEarned(give);
    EarnedConcat(tripped + buried, give);
  }

  lemma TurnEarned(p: Policy, b: Breaker, e: OutboxEvent, t: Turn)
    ensures AllEarned(TakeTurn(p, b, e, t).1)
  {
    hide Try, Catch, AllEarned;
    TryEarned(p, b, e, t);
    CatchEarned(p, Try(p, b, e, t).0, e, t);
    EarnedConcat(Try(p, b, e, t).1, Catch(p, Try(p, b, e, t).0, e, t).1);
  }

  /** Every acknowledgement of a pass that succeeds was earned before. */
  lemma {:induction false} AcknowledgedOnlyWhenEarned(p: Policy, b: Breaker, events: seq<OutboxEvent>, turns: seq<Turn>, n: nat)
    requires n <= |events| == |turns|
    ensures AllEarned(Pass(p, b, events, turns, n).1)
    decreases n
  {
    hide TakeTurn, AllEarned;
    if n > 0 {
      AcknowledgedOnlyWhenEarned(p, b, events, turns, n - 1);
      var (b1, effects, _) := Pass(p, b, events, turns, n - 1);
      TurnEarned(p, b1, events[n - 1], turns[n - 1]);
      EarnedConcat(effects, TakeTurn(p, b1, events[n - 1], turns[n - 1]).1);
    } else {
      assert AllEarned([]) by { NothingEarned(); }
    }
  }

  lemma NothingEarned()
    ensures AllEarned([])
  {
  }

  /** One outcome for each claimed event, in the order claimed. */
  lemma {:induction false} OneOutcomePerEvent(p: Policy, b: Breaker, events: seq<OutboxEvent>, turns: seq<Turn>, n: nat)
    requires n <= |events| == |turns|
    ensures var outcomes := Pass(p, b, events, turns, n).2;
            |outcomes| == n && forall i :: 0 <= i < n ==> outcomes[i].eventId == events[i].eventId
    decreases n
  {
    hide Try, Catch;
    if n > 0 {
      OneOutcomePerEvent(p, b, events, turns, n - 1);
      OutcomeNamesEvent(p, Pass(p, b, events, turns, n - 1).0, events[n - 1], turns[n - 1]);
    }
  }

  lemma OutcomeNamesEvent(p: Policy, b: Breaker, e: OutboxEvent, t: Turn)
    ensures TakeTurn(p, b, e, t).2.eventId == e.eventId
  {
    hide Acknowledged, Released, Failure, Bury;
  }

  // ---------- the circuit ----------

  /** The instant the circuit stays open until, as the effects so far say. */
  function OpenUntil(start: Time, effects: seq<Effect>): Time {
    if effects == [] then start
    else
      match effects[|effects| - 1]
      case CircuitOpened(until) => until
      case CircuitClosed => 0
      case _ => OpenUntil(start, effects[..|effects| - 1])
  }

  ghost predicate SendsWait(start: Time, effects: seq<Effect>) {
    forall i :: 0 <= i < |effects| && effects[i].Sent? ==> effects[i].at >= OpenUntil(start, effects[..i])
  }

  lemma {:induction false} OpenUntilConcat(start: Time, a: seq<Effect>, b: seq<Effect>)
    ensures OpenUntil(start, a + b) == OpenUntil(OpenUntil(start, a), b)
    decreases |b|
  {
    if b == [] {
      assert a + b == a;
    } else {
      assert (a + b)[..|a + b| - 1] == a + b[..|b| - 1];
      OpenUntilConcat(start, a, b[..|b| - 1]);
    }
  }

  lemma SendsWaitConcat(start: Time, a: seq<Effect>, b: seq<Effect>)
    requires SendsWait(start, a) && SendsWait(OpenUntil(start, a), b)
    ensures SendsWait(start, a + b)
  {
    var all := a + b;
    forall i | 0 <= i < |all| && all[i].Sent? ensures all[i].at >= OpenUntil(start, all[..i]) {
      if i < |a| {
        assert all[..i] == a[..i] && all[i] == a[i];
      } else {
        var j := i - |a|;
        assert all[..i] == a + b[..j] && all[i] == b[j];
        OpenUntilConcat(start, a, b[..j]);
      }
    }
  }

  /** Effects that leave the circuit alone and send nothing. */
  predicate Still(e: Effect) { !e.Sent? && !e.CircuitOpened? && !e.CircuitClosed? }

  lemma {:induction false} StillKeeps(start: Time, effects: seq<Effect>)
    requires forall i :: 0 <= i < |effects| ==> Still(effects[i])
    ensures OpenUntil(start, effects) == start && SendsWait(start, effects)
  {
    if effects != [] { StillKeeps(start, effects[..|effects| - 1]); }
  }

  lemma FailureCircuit(p: Policy, b: Breaker, at: Time)
    ensures var (b', tripped) := Failure(p, b, at);
            SendsWait(b.circuitOpenUntil, tripped) && OpenUntil(b.circuitOpenUntil, tripped) == b'.circuitOpenUntil
  {
  }

  lemma SentCircuit(start: Time, id: Id, at: Time, status: int)
    requires at >= start
    ensures SendsWait(start, [Sent(id, at), Answered(id, status)]) && OpenUntil(start, [Sent(id, at), Answered(id, status)]) == start
    ensures SendsWait(start, [Sent(id, at)]) && OpenUntil(start, [Sent(id, at)]) == start
  {
    var s := [Sent(id, at), Answered(id, status)];
    assert s[..1] == [Sent(id, at)] && s[..0] == [] && [Sent(id, at)][..0] == [];
  }

  lemma BuryStill(p: Policy, id: Id, at: Time, records: bool, rows: Rows)
    ensures forall i :: 0 <= i < |Bury(p, id, at, records, rows).0| ==> Still(Bury(p, id, at, records, rows).0[i])
  {
    hide Acknowledged;
  }

  lemma TryCircuit(p: Policy, b: Breaker, e: OutboxEvent, t: Turn)
    ensures var (b', effects, _) := Try(p, b, e, t);
            SendsWait(b.circuitOpenUntil, effects) && OpenUntil(b.circuitOpenUntil, effects) == b'.circuitOpenUntil
  {
    hide Acknowledged, Released, Bury, Failure, SendsWait, OpenUntil;
    var id, start := e.eventId, b.circuitOpenUntil;
    if t.before < start {
      StillKeeps(start, [Give(p, id, start, t.before, t.rows)]);
    } else if !t.encodes || p.requestTimeoutMs > MAX_REQUEST_TIMEOUT_MS {
      StillKeeps(start, []);
    } else if t.status.None? {
      SentCircuit(start, id, t.before, 0);
    } else {
      var status := t.status.value;
      var sent := [Sent(id, t.before), Answered(id, status)];
      SentCircuit(start, id, t.before, status);
      var (b', tripped) := Failure(p, b, t.completed);
      FailureCircuit(p, b, t.completed);
      BuryStill(p, id, t.completed, t.records, t.rows);
      var buried := Bury(p, id, t.completed, t.records, t.rows).0;
      var give := [Give(p, id, t.completed + p.retryDelayMs, t.completed, t.rows)];
      if Success(status) {
        ClosedCircuit(start, Ack(p, id, t.completed, t.rows));
        Joined(start, sent, start, [CircuitClosed, Ack(p, id, t.completed, t.rows)], 0);
      } else if Transient(status) {
        Joined(start, sent, start, tripped, b'.circuitOpenUntil);
        StillKeeps(b'.circuitOpenUntil, buried);
        StillKeeps(b'.circuitOpenUntil, give);
        Joined(start, sent + tripped, b'.circuitOpenUntil, buried, b'.circuitOpenUntil);
        Joined(start, sent + tripped, b'.circuitOpenUntil, give, b'.circuitOpenUntil);
      } else {
        StillKeeps(start, buried);
        Joined(start, sent, start, buried, start);
      }
    }
  }

  lemma ClosedCircuit(start: Time, ack: Effect)
    requires Still(ack)
    ensures SendsWait(start, [CircuitClosed, ack]) && OpenUntil(start, [CircuitClosed, ack]) == 0
  {
    assert [CircuitClosed, ack][..1] == [CircuitClosed];
  }

  lemma Joined(start: Time, a: seq<Effect>, middle: Time, b: seq<Effect>, end: Time)
    requires SendsWait(start, a) && OpenUntil(start, a) == middle && SendsWait(middle, b) && OpenUntil(middle, b) == end
    ensures SendsWait(start, a + b) && OpenUntil(start, a + b) == end
  {
    SendsWaitConcat(start, a, b);
    OpenUntilConcat(start, a, b);
  }

  lemma CatchCircuit(p: Policy, b: Breaker, e: OutboxEvent, t: Turn)
    ensures var (b', effects, _) := Catch(p, b, e, t);
            SendsWait(b.circuitOpenUntil, effects) && OpenUntil(b.circuitOpenUntil, effects) == b'.circuitOpenUntil
  {
    hide Acknowledged, Released, Bury, Failure, SendsWait, OpenUntil;
    var (b', tripped) := Failure(p, b, t.failed);
    FailureCircuit(p, b, t.failed);
    BuryStill(p, e.eventId, t.failed, t.recordsAgain, t.rowsAgain);
    var buried := if e.attempts >= p.maximumAttempts then Bury(p, e.eventId, t.failed, t.recordsAgain, t.rowsAgain).0 else [];
    var give := [Give(p, e.eventId, t.failed + p.retryDelayMs, t.failed, t.rowsLast)];
    StillKeeps(b'.circuitOpenUntil, buried);
    StillKeeps(b'.circuitOpenUntil, give);
    Joined(b.circuitOpenUntil, tripped, b'.circuitOpenUntil, buried, b'.circuitOpenUntil);
    Joined(b.circuitOpenUntil, tripped + buried, b'.circuitOpenUntil, give, b'.circuitOpenUntil);
  }

  /** Nothing is sent before the instant the circuit is open until, which the breaker keeps exactly. */
  lemma {:induction false} NothingSentWhileOpen(p: Policy, b: Breaker, events: seq<OutboxEvent>, turns: seq<Turn>, n: nat)
    requires n <= |events| == |turns|
    ensures var (b', effects, _) := Pass(p, b, events, turns, n);
            SendsWait(b.circuitOpenUntil, effects) && OpenUntil(b.circuitOpenUntil, effects) == b'.circuitOpenUntil
    decreases n
  {
    hide Try, Catch, SendsWait, OpenUntil;
    if n == 0 {
      StillKeeps(b.circuitOpenUntil, []);
    } else {
      NothingSentWhileOpen(p, b, events, turns, n - 1);
      var (b1, effects, _) := Pass(p, b, events, turns, n - 1);
      var e, t := events[n - 1], turns[n - 1];
      var (b2, tried, outcome) := Try(p, b1, e, t);
      TryCircuit(p, b1, e, t);
      CatchCircuit(p, b2, e, t);
      var (b3, caught, _) := Catch(p, b2, e, t);
      Joined(b1.circuitOpenUntil, tried, b2.circuitOpenUntil, caught, b3.circuitOpenUntil);
      Joined(b.circuitOpenUntil, effects, b1.circuitOpenUntil, tried, b2.circuitOpenUntil);
      Joined(b.circuitOpenUntil, effects, b1.circuitOpenUntil, tried + caught, b3.circuitOpenUntil);
    }
  }

  // ---------- what failures leave ----------

  predicate NoneAcked(effects: seq<Effect>) { forall i :: 0 <= i < |effects| ==> !(effects[i].Acked? && effects[i].ok) }

  /** The last lease call of a turn that ends in a retry tried to give the event back. */
  predicate GivenBack(p: Policy, effects: seq<Effect>, id: Id) {
    effects != [] && effects[|effects| - 1].ReleasedTo? && effects[|effects| - 1].id == id
  }

  lemma BuryAcked(p: Policy, id: Id, at: Time, records: bool, rows: Rows)
    ensures NoneAcked(Bury(p, id, at, records, rows).0) <==> !Bury(p, id, at, records, rows).1
  {
    hide Acknowledged;
    var (effects, ok) := Bury(p, id, at, records, rows);
    if ok { assert effects[1].Acked? && effects[1].ok; }
  }

  lemma FailureAcked(p: Policy, b: Breaker, at: Time)
    ensures NoneAcked(Failure(p, b, at).1)
  {
  }

  lemma TryAcked(p: Policy, b: Breaker, e: OutboxEvent, t: Turn)
    ensures var (_, effects, outcome) := Try(p, b, e, t);
            && (NoneAcked(effects) <==> outcome.None? || outcome.value.kind == RetryScheduled)
            && (outcome.Some? && outcome.value.kind == RetryScheduled ==> GivenBack(p, effects, e.eventId))
  {
    hide Acknowledged, Released, Bury, Failure;
    var (b1, effects, outcome) := Try(p, b, e, t);
    if Answers(p, b, t) {
      BuryAcked(p, e.eventId, t.completed, t.records, t.rows);
      FailureAcked(p, b, t.completed);
      var tripped := Failure(p, b, t.completed).1;
      var (buried, ok) := Bury(p, e.eventId, t.completed, t.records, t.rows);
      var sent := [Sent(e.eventId, t.before), Answered(e.eventId, t.status.value)];
      AckedConcat(sent, tripped);
      AckedConcat(sent + tripped, buried);
      AckedConcat(sent, buried);
      AckedConcat(sent + tripped, [Give(p, e.eventId, t.completed + p.retryDelayMs, t.completed, t.rows)]);
      if Success(t.status.value) { assert effects[3] == Ack(p, e.eventId, t.completed, t.rows); }
    }
  }

  lemma AckedConcat(a: seq<Effect>, b: seq<Effect>)
    ensures NoneAcked(a + b) <==> NoneAcked(a) && NoneAcked(b)
  {
    var all := a + b;
    if NoneAcked(all) {
      forall i | 0 <= i < |a| ensures !(a[i].Acked? && a[i].ok) { assert all[i] == a[i]; }
      forall i | 0 <= i < |b| ensures !(b[i].Acked? && b[i].ok) { assert all[|a| + i] == b[i]; }
    }
  }

  lemma CatchAcked(p: Policy, b: Breaker, e: OutboxEvent, t: Turn)
    ensures var (_, effects, outcome) := Catch(p, b, e, t);
            && (NoneAcked(effects) <==> outcome.kind == RetryScheduled) && outcome.kind != DeliveredOutcome
            && (outcome.kind == RetryScheduled ==> GivenBack(p, effects, e.eventId))
  {
    hide Acknowledged, Released, Bury, Failure;
    var tripped := Failure(p, b, t.failed).1;
    FailureAcked(p, b, t.failed);
    BuryAcked(p, e.eventId, t.failed, t.recordsAgain, t.rowsAgain);
    var (buried, ok) := if e.attempts >= p.maximumAttempts then Bury(p, e.eventId, t.failed, t.recordsAgain, t.rowsAgain) else ([], false);
    AckedConcat(tripped, buried);
    AckedConcat(tripped + buried, [Give(p, e.eventId, t.failed + p.retryDelayMs, t.failed, t.rowsLast)]);
  }

  /** A retry was acknowledged by nothing in its turn, and ends with the event being given back; any
      other outcome was acknowledged. */
  lemma RetryIffNotAcknowledged(p: Policy, b: Breaker, e: OutboxEvent, t: Turn)
    ensures var (_, effects, outcome) := TakeTurn(p, b, e, t);
            && (NoneAcked(effects) <==> outcome.kind == RetryScheduled)
            && (outcome.kind == RetryScheduled ==> GivenBack(p, effects, e.eventId))
  {
    hide Try, Catch, NoneAcked, GivenBack;
    TryAcked(p, b, e, t);
    var (b1, effects, outcome) := Try(p, b, e, t);
    CatchAcked(p, b1, e, t);
    AckedConcat(effects, Catch(p, b1, e, t).1);
    assert outcome.None? && Catch(p, b1, e, t).2.kind == RetryScheduled ==> GivenBack(p, effects + Catch(p, b1, e, t).1, e.eventId) by {
      GivenBackConcat(p, effects, Catch(p, b1, e, t).1, e.eventId);
    }
  }

  lemma GivenBackConcat(p: Policy, a: seq<Effect>, b: seq<Effect>, id: Id)
    ensures GivenBack(p, b, id) ==> GivenBack(p, a + b, id)
  {
  }

  predicate LeaseCall(x: Effect) { x.Acked? || x.ReleasedTo? }

  /** The rows after a lease call. */
  function RowsAfter(p: Policy, x: Effect): Rows
    requires LeaseCall(x)
  {
    match x
    case Acked(id, at, rows, _) => Acknowledged(rows, id, p.workerId, at).0
    case ReleasedTo(id, retryAt, at, rows, _) => Released(rows, id, p.workerId, retryAt, at).0
  }

  /** What the lease calls that succeeded make of one row. */
  function RowLeft(row: OutboxEvent, effects: seq<Effect>): OutboxEvent {
    if effects == [] then row
    else RowStep(RowLeft(row, effects[..|effects| - 1]), effects[|effects| - 1])
  }

  function RowStep(row: OutboxEvent, x: Effect): OutboxEvent {
    match x
    case Acked(id, at, _, ok) => if ok && id == row.eventId then row.(deliveredAt := Some(at), claim := None) else row
    case ReleasedTo(id, retryAt, _, _, ok) => if ok && id == row.eventId then row.(availableAt := retryAt, claim := None) else row
    case _ => row
  }

  /** No one else changes this row: each of these lease calls on it meets it as the earlier ones left it. */
  ghost predicate Ours(row: OutboxEvent, effects: seq<Effect>) {
    forall i :: 0 <= i < |effects| && LeaseCall(effects[i]) && effects[i].id == row.eventId ==>
      row.eventId in effects[i].rows && effects[i].rows[row.eventId] == RowLeft(row, effects[..i])
  }

  /** The call was decided by the rows it met. */
  predicate Decided(p: Policy, x: Effect) {
    match x
    case Acked(id, at, rows, _) => x == Ack(p, id, at, rows)
    case ReleasedTo(id, retryAt, at, rows, _) => x == Give(p, id, retryAt, at, rows)
    case _ => true
  }

  /** While no one else changes the row, RowLeft is the row in the table after each lease call on it, and
      a call succeeds exactly while this worker holds the row under a running lease. */
  lemma TableFollowsRowLeft(p: Policy, row: OutboxEvent, effects: seq<Effect>, i: nat)
    requires Ours(row, effects) && i < |effects| && LeaseCall(effects[i]) && effects[i].id == row.eventId && Decided(p, effects[i])
    ensures var x, before := effects[i], RowLeft(row, effects[..i]);
            && row.eventId in RowsAfter(p, x) && RowsAfter(p, x)[row.eventId] == RowLeft(row, effects[..i + 1])
            && (x.ok <==> Bounded(p.workerId, MAX_WORKER_ID) && DateOk(x.at) && (x.ReleasedTo? ==> DateOk(x.retryAt))
                          && before.deliveredAt.None? && before.claim.Some? && before.claim.value.holder == p.workerId
                          && After(before.claim.value.until, x.at))
  {
    hide Bounded, StoredBefore;
    assert effects[..i + 1][..i] == effects[..i];
    RowKeepsId(row, effects[..i]);
  }

  lemma {:induction false} RowKeepsId(row: OutboxEvent, effects: seq<Effect>)
    ensures RowLeft(row, effects).eventId == row.eventId
    decreases |effects|
  {
    if effects != [] { RowKeepsId(row, effects[..|effects| - 1]); }
  }

  lemma {:induction false} RowLeftConcat(row: OutboxEvent, a: seq<Effect>, b: seq<Effect>)
    ensures RowLeft(row, a + b) == RowLeft(RowLeft(row, a), b)
    decreases |b|
  {
    if b == [] {
      assert a + b == a;
    } else {
      assert (a + b)[..|a + b| - 1] == a + b[..|b| - 1];
      RowLeftConcat(row, a, b[..|b| - 1]);
    }
  }

  /** Every effect is decided by its rows, and its lease calls are on this event. */
  ghost predicate CallsOn(p: Policy, effects: seq<Effect>, id: Id) {
    forall i :: 0 <= i < |effects| ==> Decided(p, effects[i]) && (LeaseCall(effects[i]) ==> effects[i].id == id)
  }

  lemma CallsOnConcat(p: Policy, a: seq<Effect>, b: seq<Effect>, id: Id)
    requires CallsOn(p, a, id) && CallsOn(p, b, id)
    ensures CallsOn(p, a + b, id)
  {
  }

  lemma BuryCalls(p: Policy, id: Id, at: Time, records: bool, rows: Rows)
    ensures CallsOn(p, Bury(p, id, at, records, rows).0, id)
  {
    hide Acknowledged;
  }

  lemma TryCalls(p: Policy, b: Breaker, e: OutboxEvent, t: Turn)
    ensures CallsOn(p, Try(p, b, e, t).1, e.eventId)
  {
    hide Acknowledged, Released, Bury;
    BuryCalls(p, e.eventId, t.completed, t.records, t.rows);
  }

  lemma CatchCalls(p: Policy, b: Breaker, e: OutboxEvent, t: Turn)
    ensures CallsOn(p, Catch(p, b, e, t).1, e.eventId)
  {
    hide Acknowledged, Released, Bury;
    BuryCalls(p, e.eventId, t.failed, t.recordsAgain, t.rowsAgain);
  }

  lemma TurnCalls(p: Policy, b: Breaker, e: OutboxEvent, t: Turn)
    ensures CallsOn(p, TakeTurn(p, b, e, t).1, e.eventId)
  {
    hide Try, Catch, CallsOn;
    TryCalls(p, b, e, t);
    CatchCalls(p, Try(p, b, e, t).0, e, t);
    CallsOnConcat(p, Try(p, b, e, t).1, Catch(p, Try(p, b, e, t).0, e, t).1, e.eventId);
  }

  lemma {:induction false} OthersLeaveRow(row: OutboxEvent, effects: seq<Effect>)
    requires forall i :: 0 <= i < |effects| && LeaseCall(effects[i]) ==> effects[i].id != row.eventId
    ensures RowLeft(row, effects) == row
    decreases |effects|
  {
    if effects != [] { OthersLeaveRow(row, effects[..|effects| - 1]); }
  }

  /** Lease calls that fail leave the row. */
  predicate NoneSucceeds(effects: seq<Effect>) { forall i :: 0 <= i < |effects| && LeaseCall(effects[i]) ==> !effects[i].ok }

  lemma {:induction false} FailuresLeaveRow(row: OutboxEvent, effects: seq<Effect>)
    requires NoneSucceeds(effects)
    ensures RowLeft(row, effects) == row
    decreases |effects|
  {
    if effects != [] { FailuresLeaveRow(row, effects[..|effects| - 1]); }
  }

  /** A turn makes lease calls that fail, and at most its last one succeeds. */
  ghost predicate LastCallEnds(effects: seq<Effect>, acknowledged: bool) {
    && (acknowledged ==> effects != [] && effects[|effects| - 1].Acked? && effects[|effects| - 1].ok)
    && (!acknowledged && effects != [] ==> !effects[|effects| - 1].Acked? || !effects[|effects| - 1].ok)
    && (effects != [] ==> NoneSucceeds(effects[..|effects| - 1]))
  }

  lemma SucceedsConcat(a: seq<Effect>, b: seq<Effect>)
    ensures NoneSucceeds(a + b) <==> NoneSucceeds(a) && NoneSucceeds(b)
  {
    var all := a + b;
    if NoneSucceeds(all) {
      forall i | 0 <= i < |a| && LeaseCall(a[i]) ensures !a[i].ok { assert all[i] == a[i]; }
      forall i | 0 <= i < |b| && LeaseCall(b[i]) ensures !b[i].ok { assert all[|a| + i] == b[i]; }
    }
  }

  lemma LastCallConcat(a: seq<Effect>, b: seq<Effect>, acknowledged: bool)
    requires NoneSucceeds(a) && b != [] && LastCallEnds(b, acknowledged)
    ensures LastCallEnds(a + b, acknowledged)
  {
    assert (a + b)[..|a + b| - 1] == a + b[..|b| - 1];
    SucceedsConcat(a, b[..|b| - 1]);
  }

  lemma BuryLast(p: Policy, id: Id, at: Time, records: bool, rows: Rows)
    ensures var (effects, ok) := Bury(p, id, at, records, rows);
            effects != [] && LastCallEnds(effects, ok) && (!ok ==> NoneSucceeds(effects))
  {
    hide Acknowledged;
    var (effects, ok) := Bury(p, id, at, records, rows);
    if records { assert effects[..1] == [Recorded(id, true)]; }
  }

  lemma FailureLast(p: Policy, b: Breaker, at: Time)
    ensures NoneSucceeds(Failure(p, b, at).1)
  {
  }

  lemma SingleLast(x: Effect)
    ensures LastCallEnds([x], x.Acked? && x.ok)
  {
  }

  lemma TryLast(p: Policy, b: Breaker, e: OutboxEvent, t: Turn)
    ensures var (_, effects, outcome) := Try(p, b, e, t);
            && (outcome.None? ==> NoneSucceeds(effects))
            && (outcome.Some? ==> effects != [] && LastCallEnds(effects, outcome.value.kind != RetryScheduled))
  {
    hide Acknowledged, Released, Bury, Failure, LastCallEnds;
    var id := e.eventId;
    if t.before < b.circuitOpenUntil {
      SingleLast(Give(p, id, b.circuitOpenUntil, t.before, t.rows));
    } else if Answers(p, b, t) {
      var status := t.status.value;
      var sent := [Sent(id, t.before), Answered(id, status)];
      var tripped := Failure(p, b, t.completed).1;
      var (buried, ok) := Bury(p, id, t.completed, t.records, t.rows);
      FailureLast(p, b, t.completed);
      BuryLast(p, id, t.completed, t.records, t.rows);
      SucceedsConcat(sent, tripped);
      if Success(status) {
        var ack := Ack(p, id, t.completed, t.rows);
        SingleLast(ack);
        LastCallConcat(sent + [CircuitClosed], [ack], ack.ok);
        assert sent + [CircuitClosed] + [ack] == sent + [CircuitClosed, ack];
      } else if Transient(status) && e.attempts < p.maximumAttempts {
        var give := Give(p, id, t.completed + p.retryDelayMs, t.completed, t.rows);
        SingleLast(give);
        LastCallConcat(sent + tripped, [give], false);
        SucceedsConcat(sent + tripped, [give]);
      } else {
        var before := if Transient(status) then sent + tripped else sent;
        LastCallConcat(before, buried, ok);
        SucceedsConcat(before, buried);
      }
    }
  }

  lemma CatchLast(p: Policy, b: Breaker, e: OutboxEvent, t: Turn)
    ensures var (_, effects, outcome) := Catch(p, b, e, t);
            effects != [] && LastCallEnds(effects, outcome.kind != RetryScheduled)
  {
    hide Acknowledged, Released, Bury, Failure, LastCallEnds;
    var tripped := Failure(p, b, t.failed).1;
    FailureLast(p, b, t.failed);
    BuryLast(p, e.eventId, t.failed, t.recordsAgain, t.rowsAgain);
    var (buried, ok) := if e.attempts >= p.maximumAttempts then Bury(p, e.eventId, t.failed, t.recordsAgain, t.rowsAgain) else ([], false);
    var give := Give(p, e.eventId, t.failed + p.retryDelayMs, t.failed, t.rowsLast);
    if ok {
      LastCallConcat(tripped, buried, true);
    } else {
      SucceedsConcat(tripped, buried);
      SingleLast(give);
      LastCallConcat(tripped + buried, [give], false);
    }
  }

  lemma TurnLast(p: Policy, b: Breaker, e: OutboxEvent, t: Turn)
    ensures var (_, effects, outcome) := TakeTurn(p, b, e, t);
            effects != [] && LastCallEnds(effects, outcome.kind != RetryScheduled)
  {
    hide Try, Catch, LastCallEnds, NoneSucceeds;
    TryLast(p, b, e, t);
    var (b1, effects, outcome) := Try(p, b, e, t);
    CatchLast(p, b1, e, t);
    if outcome.None? {
      var (_, more, caught) := Catch(p, b1, e, t);
      LastCallConcat(effects, more, caught.kind != RetryScheduled);
    }
  }

  /** What a turn leaves of its event's row: delivered unless the outcome is a retry, and then either given
      back or still under the lease it was claimed with. */
  ghost predicate Settles(e: OutboxEvent, row: OutboxEvent, kind: Kind) {
    && (row.deliveredAt.None? <==> kind == RetryScheduled)
    && (kind == RetryScheduled ==> row == e || row == e.(availableAt := row.availableAt, claim := None))
  }

  lemma TurnSettles(p: Policy, b: Breaker, e: OutboxEvent, t: Turn)
    requires e.deliveredAt.None?
    ensures var (_, effects, outcome) := TakeTurn(p, b, e, t); Settles(e, RowLeft(e, effects), outcome.kind)
  {
    hide TakeTurn;
    var (_, effects, outcome) := TakeTurn(p, b, e, t);
    TurnLast(p, b, e, t);
    TurnCalls(p, b, e, t);
    FailuresLeaveRow(e, effects[..|effects| - 1]);
  }

  /** Whatever fails in a pass, sink, lease or adapter, each event that ends in a retry is left undelivered
      and claimable: from its retry time on when giving it back succeeded, else once the lease it was
      claimed with has ended.  Every other event is left delivered. */
  lemma {:induction false} PassSettles(p: Policy, b: Breaker, events: seq<OutboxEvent>, turns: seq<Turn>, n: nat, k: nat, later: Time)
    requires k < n <= |events| == |turns| && events[k].deliveredAt.None? && events[k].claim.Some?
    requires forall i, j :: 0 <= i < j < |events| ==> events[i].eventId != events[j].eventId
    ensures var (_, effects, outcomes) := Pass(p, b, events, turns, n);
            var e, row := events[k], RowLeft(events[k], effects);
            && k < |outcomes| && (row.deliveredAt.None? <==> outcomes[k].kind == RetryScheduled)
            && (outcomes[k].kind == RetryScheduled ==>
                  (Claimable(row, later) <==>
                     if row.claim.None? then AtOrBefore(row.availableAt, later)
                     else AtOrBefore(e.availableAt, later) && AtOrBefore(e.claim.value.until, later)))
  {
    PassLeavesRow(p, b, events, turns, n, k);
    hide Pass, StoredBefore;
  }

  lemma OnOthers(p: Policy, row: OutboxEvent, effects: seq<Effect>, id: Id)
    requires CallsOn(p, effects, id) && id != row.eventId
    ensures RowLeft(row, effects) == row
  {
    OthersLeaveRow(row, effects);
  }

  lemma {:induction false} PassLeavesRow(p: Policy, b: Breaker, events: seq<OutboxEvent>, turns: seq<Turn>, n: nat, k: nat)
    requires k < |events| == |turns| && n <= |events| && events[k].deliveredAt.None?
    requires forall i, j :: 0 <= i < j < |events| ==> events[i].eventId != events[j].eventId
    ensures var (_, effects, outcomes) := Pass(p, b, events, turns, n);
            && |outcomes| == n && (n <= k ==> RowLeft(events[k], effects) == events[k])
            && (k < n ==> Settles(events[k], RowLeft(events[k], effects), outcomes[k].kind))
    decreases n
  {
    hide TakeTurn, CallsOn, Settles;
    if n > 0 {
      PassLeavesRow(p, b, events, turns, n - 1, k);
      var (b1, effects, outcomes) := Pass(p, b, events, turns, n - 1);
      var e, t := events[n - 1], turns[n - 1];
      var (_, more, outcome) := TakeTurn(p, b1, e, t);
      TurnCalls(p, b1, e, t);
      RowLeftConcat(events[k], effects, more);
      RowKeepsId(events[k], effects);
      if k == n - 1 { TurnSettles(p, b1, e, t); } else { OnOthers(p, RowLeft(events[k], effects), more, e.eventId); }
    }
  }

  lemma {:induction false} PassDecided(p: Policy, b: Breaker, events: seq<OutboxEvent>, turns: seq<Turn>, n: nat)
    requires n <= |events| == |turns|
    ensures forall i :: 0 <= i < |Pass(p, b, events, turns, n).1| ==> Decided(p, Pass(p, b, events, turns, n).1[i])
    decreases n
  {
    hide TakeTurn, Decided;
    if n > 0 {
      PassDecided(p, b, events, turns, n - 1);
      TurnCalls(p, Pass(p, b, events, turns, n - 1).0, events[n - 1], turns[n - 1]);
    }
  }

  /** While no one else changes the event's row, RowLeft of the pass is the row the table holds after the
      last lease call on it. */
  lemma PassLeavesTable(p: Policy, b: Breaker, events: seq<OutboxEvent>, turns: seq<Turn>, n: nat, k: nat, last: nat)
    requires k < |events| == |turns| && n <= |events| && last < |Pass(p, b, events, turns, n).1|
    requires var effects, id := Pass(p, b, events, turns, n).1, events[k].eventId;
             && Ours(events[k], effects) && LeaseCall(effects[last]) && effects[last].id == id
             && forall i :: last < i < |effects| && LeaseCall(effects[i]) ==> effects[i].id != id
    ensures var effects, id := Pass(p, b, events, turns, n).1, events[k].eventId;
            id in RowsAfter(p, effects[last]) && RowsAfter(p, effects[last])[id] == RowLeft(events[k], effects)
  {
    PassDecided(p, b, events, turns, n);
    hide Pass, RowsAfter, Decided;
    var effects, row := Pass(p, b, events, turns, n).1, events[k];
    TableFollowsRowLeft(p, row, effects, last);
    assert effects == effects[..last + 1] + effects[last + 1..];
    RowLeftConcat(row, effects[..last + 1], effects[last + 1..]);
    RowKeepsId(row, effects[..last + 1]);
    OthersLeaveRow(RowLeft(row, effects[..last + 1]), effects[last + 1..]);
  }

  /** A record of the dead letter that completed, and right after it an acknowledgement that succeeded. */
  ghost predicate Buried(effects: seq<Effect>, id: Id) {
    exists i :: 0 <= i < |effects| - 1 && effects[i] == Recorded(id, true) && AckedOk(effects[i + 1], id)
  }

  predicate AckedOk(x: Effect, id: Id) { x.Acked? && x.ok && x.id == id }

  /** A turn ends dead-lettered exactly when the event's dead letter was recorded and the event acknowledged
      right after; no other outcome leaves such a pair. */
  lemma DeadLetteredIffBuried(p: Policy, b: Breaker, e: OutboxEvent, t: Turn)
    ensures var (_, effects, outcome) := TakeTurn(p, b, e, t); outcome.kind == DeadLettered <==> Buried(effects, e.eventId)
  {
    hide Acknowledged, Released, Failure;
    var (_, effects, outcome) := TakeTurn(p, b, e, t);
    TurnLast(p, b, e, t);
    BuriedLast(effects, e.eventId);
    EndOfTurn(p, b, e, t);
    hide TakeTurn;
  }

  /** Only the last two effects can be such a pair. */
  lemma BuriedLast(effects: seq<Effect>, id: Id)
    requires effects != [] && NoneSucceeds(effects[..|effects| - 1])
    ensures Buried(effects, id) <==>
              |effects| > 1 && effects[|effects| - 2] == Recorded(id, true) && AckedOk(effects[|effects| - 1], id)
  {
    var n := |effects|;
    assert forall j :: 0 <= j < n - 1 ==> effects[..n - 1][j] == effects[j];
    if Buried(effects, id) {
      var i :| 0 <= i < n - 1 && effects[i] == Recorded(id, true) && AckedOk(effects[i + 1], id);
    }
    if n > 1 && effects[n - 2] == Recorded(id, true) && AckedOk(effects[n - 1], id) { assert effects[n - 2 + 1] == effects[n - 1]; }
  }

  lemma EndOfTurn(p: Policy, b: Breaker, e: OutboxEvent, t: Turn)
    ensures var (_, effects, outcome) := TakeTurn(p, b, e, t);
            outcome.kind == DeadLettered <==>
              |effects| > 1 && effects[|effects| - 2] == Recorded(e.eventId, true) && AckedOk(effects[|effects| - 1], e.eventId)
  {
    hide Acknowledged, Released, Failure;
  }

  /** Dead letters are recorded only for permanent replies or exhausted budgets. */
  lemma BuriedForAReason(p: Policy, b: Breaker, e: OutboxEvent, t: Turn, i: nat)
    requires i < |TakeTurn(p, b, e, t).1| && TakeTurn(p, b, e, t).1[i].Recorded?
    ensures e.attempts >= p.maximumAttempts || (t.status.Some? && !Success(t.status.value) && !Transient(t.status.value))
  {
    hide Acknowledged, Released, Bury;
  }

  // ---------- the class ----------

  /** The table after some effects. */
  function TableLeft(p: Policy, rows: Rows, effects: seq<Effect>): Rows {
    if effects == [] then rows
    else if LeaseCall(effects[|effects| - 1]) then RowsAfter(p, effects[|effects| - 1])
    else TableLeft(p, rows, effects[..|effects| - 1])
  }

  lemma {:induction false} TableConcat(p: Policy, rows: Rows, a: seq<Effect>, b: seq<Effect>)
    ensures TableLeft(p, rows, a + b) == TableLeft(p, TableLeft(p, rows, a), b)
    decreases |b|
  {
    hide RowsAfter;
    if b == [] {
      assert a + b == a;
    } else {
      assert (a + b)[..|a + b| - 1] == a + b[..|b| - 1];
      TableConcat(p, rows, a, b[..|b| - 1]);
    }
  }

  lemma QuietTable(p: Policy, rows: Rows, effects: seq<Effect>)
    requires forall i :: 0 <= i < |effects| ==> !LeaseCall(effects[i])
    ensures TableLeft(p, rows, effects) == rows
  {
  }

  lemma FailureCalls(p: Policy, b: Breaker, at: Time)
    ensures forall i :: 0 <= i < |Failure(p, b, at).1| ==> !LeaseCall(Failure(p, b, at).1[i])
  {
  }

  /** Why a pass did not start. */
  datatype Refusal = InvalidPolicy | ClaimFailed(error: OutboxError)

  function Refused(p: Policy, started: Time): Option<Refusal> {
    if !PolicyOk(p) then Some(InvalidPolicy)
    else
      match ClaimError(p.workerId, p.batchSize, p.leaseMs, started)
      case Some(error) => Some(ClaimFailed(error))
      case None => None
  }

  /** The events of a claim: the rows its query selects, leased. */
  ghost predicate IsBatch(p: Policy, started: Time, rows: Rows, selected: seq<Id>, events: seq<OutboxEvent>) {
    && p.batchSize >= 0 && Selects(rows, started, p.batchSize, selected) && |events| == |selected|
    && forall i :: 0 <= i < |selected| ==>
         selected[i] in rows && events[i] == Leased(rows[selected[i]], p.workerId, started + p.leaseMs)
  }

  function AfterClaim(p: Policy, started: Time, rows: Rows, selected: seq<Id>): Rows {
    LeaseAll(rows, Elements(selected), p.workerId, started + p.leaseMs)
  }

  function FirstTurns(turns: nat -> Turn, n: nat): (firsts: seq<Turn>)
    ensures |firsts| == n && forall i :: 0 <= i < n ==> firsts[i] == turns(i)
  {
    if n == 0 then [] else FirstTurns(turns, n - 1) + [turns(n - 1)]
  }

  /** Between the awaits other workers act on the table of the lease source: each lease call of a turn is
      made on the rows the turn gives for it. */
  class PartnerOutboxDispatcher {
    const policy: Policy
    const source: DurableStore.Store<Text>
    var consecutiveFailures: nat
    var circuitOpenUntil: Time

    function State(): Breaker
      reads this
    {
      Breaker(consecutiveFailures, circuitOpenUntil)
    }

    constructor (policy: Policy, source: DurableStore.Store<Text>)
      ensures this.policy == policy && this.source == source && State() == Breaker(0, 0)
    {
      this.policy, this.source, consecutiveFailures, circuitOpenUntil := policy, source, 0, 0;
    }

    method RecordFailure(at: Time) returns (effects: seq<Effect>)
      modifies this
      ensures (State(), effects) == Failure(policy, old(State()), at)
    {
      consecutiveFailures := consecutiveFailures + 1;
      if consecutiveFailures >= policy.failureThreshold {
        circuitOpenUntil := at + policy.cooldownMs;
        return [FailedAt(at), CircuitOpened(circuitOpenUntil)];
      }
      return [FailedAt(at)];
    }

    method Acknowledge(id: Id, at: Time, rows: Rows) returns (x: Effect)
      modifies source`outbox
      ensures x == Ack(policy, id, at, rows) && source.outbox == RowsAfter(policy, x)
    {
      hide Acknowledged;
      source.outbox := rows;
      var failure := source.AcknowledgeOutbox(id, policy.workerId, at);
      return Acked(id, at, rows, failure.None?);
    }

    method GiveBack(id: Id, retryAt: Time, at: Time, rows: Rows) returns (x: Effect)
      modifies source`outbox
      ensures x == Give(policy, id, retryAt, at, rows) && source.outbox == RowsAfter(policy, x)
    {
      hide Released;
      source.outbox := rows;
      var failure := source.ReleaseOutbox(id, policy.workerId, retryAt, at);
      return ReleasedTo(id, retryAt, at, rows, failure.None?);
    }

    method DeadLetter(id: Id, at: Time, records: bool, rows: Rows) returns (effects: seq<Effect>, ok: bool)
      modifies source`outbox
      ensures (effects, ok) == Bury(policy, id, at, records, rows)
      ensures source.outbox == TableLeft(policy, old(source.outbox), effects)
    {
      hide Acknowledged, RowsAfter;
      if !records {
        effects, ok := [Recorded(id, false)], false;
        QuietTable(policy, source.outbox, effects);
        return;
      }
      var ack := Acknowledge(id, at, rows);
      return [Recorded(id, true), ack], ack.ok;
    }

    method Attempt(e: OutboxEvent, t: Turn) returns (effects: seq<Effect>, outcome: Option<Outcome>)
      modifies this, source`outbox
      ensures (State(), effects, outcome) == Try(policy, old(State()), e, t)
      ensures source.outbox == TableLeft(policy, old(source.outbox), effects)
    {
      hide Acknowledged, Released, Failure, Bury, RowsAfter;
      var id := e.eventId;
      effects := [];
      if t.before < circuitOpenUntil {
        var give := GiveBack(id, circuitOpenUntil, t.before, t.rows);
        return [give], if give.ok then Some(Outcome(id, RetryScheduled, None)) else None;
      }
      if !t.encodes || policy.requestTimeoutMs > MAX_REQUEST_TIMEOUT_MS { return [], None; }
      effects := [Sent(id, t.before)];
      if t.status.None? {
        QuietTable(policy, source.outbox, effects);
        return effects, None;
      }
      var status := t.status.value;
      effects := effects + [Answered(id, status)];
      assert effects == [Sent(id, t.before), Answered(id, status)];
      if Success(status) {
        consecutiveFailures, circuitOpenUntil := 0, 0;
        var ack := Acknowledge(id, t.completed, t.rows);
        effects := effects + [CircuitClosed, ack];
        return effects, if ack.ok then Some(Outcome(id, DeliveredOutcome, Some(status))) else None;
      }
      if Transient(status) {
        var tripped := RecordFailure(t.completed);
        effects := effects + tripped;
        if e.attempts < policy.maximumAttempts {
          var give := GiveBack(id, t.completed + policy.retryDelayMs, t.completed, t.rows);
          return effects + [give], if give.ok then Some(Outcome(id, RetryScheduled, Some(status))) else None;
        }
      }
      assert TableLeft(policy, source.outbox, effects) == source.outbox by {
        FailureCalls(policy, old(State()), t.completed);
        QuietTable(policy, source.outbox, effects);
      }
      ghost var met := source.outbox;
      var buried, ok := DeadLetter(id, t.completed, t.records, t.rows);
      TableConcat(policy, met, effects, buried);
      return effects + buried, if ok then Some(Outcome(id, DeadLettered, Some(status))) else None;
    }

    method Recover(e: OutboxEvent, t: Turn) returns (effects: seq<Effect>, outcome: Outcome)
      modifies this, source`outbox
      ensures (State(), effects, outcome) == Catch(policy, old(State()), e, t)
      ensures source.outbox == TableLeft(policy, old(source.outbox), effects)
    {
      hide Acknowledged, Released, Failure, Bury, RowsAfter;
      effects := RecordFailure(t.failed);
      if e.attempts >= policy.maximumAttempts {
        FailureCalls(policy, old(State()), t.failed);
        QuietTable(policy, source.outbox, effects);
        var buried, ok := DeadLetter(e.eventId, t.failed, t.recordsAgain, t.rowsAgain);
        TableConcat(policy, old(source.outbox), effects, buried);
        effects := effects + buried;
        if ok { return effects, Outcome(e.eventId, DeadLettered, None); }
      } else {
        assert effects + [] == effects;
      }
      var give := GiveBack(e.eventId, t.failed + policy.retryDelayMs, t.failed, t.rowsLast);
      return effects + [give], Outcome(e.eventId, RetryScheduled, None);
    }

    /** A pass: the policy is checked, the events are claimed, and each gets its turn. */
    method DispatchOnce(started: Time, turns: nat -> Turn)
      returns (r: Result<seq<Outcome>, Refusal>, effects: seq<Effect>, selected: seq<Id>, events: seq<OutboxEvent>)
      modifies this, source`outbox
      ensures r.Err? <==> Refused(policy, started).Some?
      ensures r.Err? ==>
                r.error == Refused(policy, started).value && effects == [] && State() == old(State()) && source.outbox == old(source.outbox)
      ensures r.Ok? ==>
                && IsBatch(policy, started, old(source.outbox), selected, events)
                && (State(), effects, r.value) == Pass(policy, old(State()), events, FirstTurns(turns, |events|), |events|)
                && source.outbox == TableLeft(policy, AfterClaim(policy, started, old(source.outbox), selected), effects)
    {
      hide Try, Catch, Selects, ClaimError, TableLeft, Leased;
      effects, selected, events := [], [], [];
      if !PolicyOk(policy) { return Err(InvalidPolicy), effects, selected, events; }
      var claim;
      claim, selected := source.ClaimOutbox(policy.workerId, policy.batchSize, policy.leaseMs, started);
      if claim.Err? { return Err(ClaimFailed(claim.error)), effects, [], events; }
      events := claim.value;
      ghost var claimed, all := source.outbox, FirstTurns(turns, |events|);
      var outcomes: seq<Outcome> := [];
      assert TableLeft(policy, claimed, effects) == claimed by { QuietTable(policy, claimed, effects); }
      for n := 0 to |events|
        invariant (State(), effects, outcomes) == Pass(policy, old(State()), events, all, n)
        invariant source.outbox == TableLeft(policy, claimed, effects)
      {
        var tried, outcome := Attempt(events[n], turns(n));
        TableConcat(policy, claimed, effects, tried);
        if outcome.Some? {
          outcomes := outcomes + [outcome.value];
        } else {
          ghost var before := tried;
          var caught, recovered := Recover(events[n], turns(n));
          TableConcat(policy, claimed, effects + tried, caught);
          tried := tried + caught;
          assert effects + before + caught == effects + tried;
          outcomes := outcomes + [recovered];
        }
        effects := effects + tried;
      }
      r := Ok(outcomes);
    }
  }
}
