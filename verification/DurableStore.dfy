/** The durable store: challenge rows swapped by version, idempotency records written in the transaction
    of the operation they replay, and the outbox.  Functions on the tables, and the class that updates
    them in place. */
module DurableStore {
  import opened Common
  import opened Wrappers
  import opened Timestamps
  import opened Outbox

  datatype VersionedRecord = VersionedRecord(value: Text, status: Text, version: nat, updatedAt: Time)

  datatype IdempotencyRow<R> = IdempotencyRow(requestHash: Text, response: R)

  /** Responses of type R stand for their JSON text. */
  datatype Tables<R> = Tables(challenges: map<Id, VersionedRecord>, idempotency: map<(Text, Text), IdempotencyRow<R>>, outbox: Rows)

  datatype StoreError = Exists | SwapConflict | KeyReused | OutboxFailed(error: OutboxError) | Unavailable

  function Inserted<R>(t: Tables<R>, id: Id, status: Text, value: Text, now: Time): Result<Tables<R>, StoreError> {
    if id in t.challenges then Err(Exists)
    else Ok(t.(challenges := t.challenges[id := VersionedRecord(value, status, 0, now)]))
  }

  /** One row moves to the next version, or nothing happens. */
  function Swapped<R>(
    t: Tables<R>, id: Id, expectedVersion: nat, expectedStatus: Text, nextStatus: Text, nextValue: Text, now: Time):
    Result<Tables<R>, StoreError>
  {
    if id !in t.challenges || t.challenges[id].version != expectedVersion || t.challenges[id].status != expectedStatus then
      Err(SwapConflict)
    else Ok(t.(challenges := t.challenges[id := VersionedRecord(nextValue, nextStatus, expectedVersion + 1, now)]))
  }

  /** An operation inside a transaction: the tables as it leaves them, also when it throws, and a response
      or the error. */
  type Operation<!R> = Tables<R> -> (Tables<R>, Result<R, StoreError>)

  /** The body of an idempotent run, whose writes are in the tables even when it throws. */
  function RunBody<R>(t: Tables<R>, scope: Text, key: Text, requestHash: Text, op: Operation<R>):
    (Tables<R>, Result<(bool, R), StoreError>)
  {
    if (scope, key) in t.idempotency then
      (t, if t.idempotency[(scope, key)].requestHash != requestHash then Err(KeyReused)
          else Ok((true, t.idempotency[(scope, key)].response)))
    else
      match op(t)
      case (written, Err(e)) => (written, Err(e))
      case (written, Ok(response)) =>
        if (scope, key) in written.idempotency then (written, Err(Exists))
        else (written.(idempotency := written.idempotency[(scope, key) := IdempotencyRow(requestHash, response)]), Ok((false, response)))
  }

  /** The body in a transaction of its own: an error rolls its writes back. */
  function RanOnce<R>(t: Tables<R>, scope: Text, key: Text, requestHash: Text, op: Operation<R>):
    (Tables<R>, Result<(bool, R), StoreError>)
  {
    var (written, r) := RunBody(t, scope, key, requestHash, op);
    (if r.Err? then t else written, r)
  }

  // ---------- laws ----------

  /** Operations through the transaction interface only move rows forward and never touch idempotency records. */
  ghost predicate Forward<R(!new)>(t: Tables<R>, t': Tables<R>) {
    && (forall id <- t.challenges :: id in t'.challenges && t.challenges[id].version <= t'.challenges[id].version
          && (t.challenges[id].version == t'.challenges[id].version ==> t'.challenges[id] == t.challenges[id]))
    && t'.idempotency == t.idempotency
  }

  ghost predicate Lawful<R(!new)>(op: Operation<R>) {
    forall t :: Forward(t, op(t).0)
  }

  lemma SwapMovesForward<R(!new)>(t: Tables<R>, id: Id, version: nat, status: Text, nextStatus: Text, value: Text, now: Time)
    ensures var r := Swapped(t, id, version, status, nextStatus, value, now);
            r.Ok? ==> Forward(t, r.value) && r.value.challenges[id].version == version + 1
  {
  }

  /** A row is created exactly under an unused id, at version zero; nothing else changes. */
  lemma InsertedIff<R(!new)>(t: Tables<R>, id: Id, status: Text, value: Text, now: Time)
    ensures var r := Inserted(t, id, status, value, now);
            && (r == Err(Exists) <==> id in t.challenges)
            && (id !in t.challenges ==>
                  r == Ok(Tables(t.challenges[id := VersionedRecord(value, status, 0, now)], t.idempotency, t.outbox)))
  {
  }

  /** A swap succeeds exactly on a row of the expected version and status, which it gives the next version, the
      new status and value and its time; nothing else changes. */
  lemma SwappedIff<R(!new)>(t: Tables<R>, id: Id, version: nat, status: Text, next: Text, value: Text, now: Time)
    ensures var r := Swapped(t, id, version, status, next, value, now);
            && (r.Ok? <==> id in t.challenges && t.challenges[id].version == version && t.challenges[id].status == status)
            && (r.Err? ==> r.error == SwapConflict)
            && (r.Ok? ==> r.value == Tables(t.challenges[id := VersionedRecord(value, next, version + 1, now)], t.idempotency, t.outbox))
  {
  }

  /** Of two swaps that expect one version of a row, whatever lawful operations commit between them, only
      the first can succeed. */
  lemma OneSwapPerVersion<R(!new)>(
    t: Tables<R>, later: Tables<R>, id: Id, version: nat, s1: Text, n1: Text, v1: Text, at1: Time, s2: Text, n2: Text, v2: Text, at2: Time)
    requires Swapped(t, id, version, s1, n1, v1, at1).Ok?
    requires Forward(Swapped(t, id, version, s1, n1, v1, at1).value, later)
    ensures Swapped(later, id, version, s2, n2, v2, at2) == Err(SwapConflict)
  {
    SwapMovesForward(t, id, version, s1, n1, v1, at1);
  }

  /** An idempotent run either changes nothing, whatever its operation wrote before it failed, and replays,
      refuses or fails, or does all of its operation and records its response; it fails exactly when the
      key was used for another request or a first use's operation failed. */
  lemma RunOnceIsAtomic<R(!new)>(t: Tables<R>, scope: Text, key: Text, requestHash: Text, op: Operation<R>)
    requires Lawful(op)
    ensures var (t', r) := RanOnce(t, scope, key, requestHash, op);
            var used := (scope, key) in t.idempotency;
            && (r.Err? || r.value.0 ==> t' == t)
            && (r.Err? <==> if used then t.idempotency[(scope, key)].requestHash != requestHash else op(t).1.Err?)
            && (r.Err? && used ==> r == Err(KeyReused))
            && (r.Ok? && r.value.0 ==> used && r.value.1 == t.idempotency[(scope, key)].response)
            && (r.Ok? && !r.value.0 ==>
                  && !used && op(t).1 == Ok(r.value.1)
                  && t'.challenges == op(t).0.challenges && t'.outbox == op(t).0.outbox
                  && t'.idempotency == t.idempotency[(scope, key) := IdempotencyRow(requestHash, r.value.1)])
            && (forall k <- t.idempotency :: k in t'.idempotency && t'.idempotency[k] == t.idempotency[k])
  {
    assert Forward(t, op(t).0);
  }

  /** An operation that creates a row and then swaps one. */
  function CreateThenSwap<R>(created: Id, value: Text, id: Id, version: nat, status: Text, next: Text, response: R, now: Time): Operation<R> {
    (t: Tables<R>) =>
      match Inserted(t, created, "created", value, now)
      case Err(e) => (t, Err(e))
      case Ok(t1) =>
        match Swapped(t1, id, version, status, next, value, now)
        case Err(e) => (t1, Err(e))
        case Ok(t2) => (t2, Ok(response))
  }

  /** When the swap fails the row it created is in the tables it leaves and in no committed table, its key
      is not used up, and the run succeeds under it once the swap does. */
  lemma HalfDoneIsUndone<R(!new)>(
    t: Tables<R>, scope: Text, key: Text, requestHash: Text, created: Id, value: Text, id: Id, version: nat, status: Text, next: Text,
    response: R, now: Time)
    requires (scope, key) !in t.idempotency && created !in t.challenges && id != created
    ensures var op := CreateThenSwap(created, value, id, version, status, next, response, now);
            var (written, _) := op(t);
            var (t', r) := RanOnce(t, scope, key, requestHash, op);
            && Lawful(op) && created in written.challenges
            && (r.Ok? <==> Swapped(t, id, version, status, next, value, now).Ok?)
            && (r.Err? ==> written != t && t' == t && (scope, key) !in t'.idempotency)
            && (r.Ok? ==> created in t'.challenges && t'.challenges[id].version == version + 1 && (scope, key) in t'.idempotency)
  {
    hide Lawful;
    HalfDoneIsLawful(created, value, id, version, status, next, response, now);
  }

  lemma InsertMovesForward<R(!new)>(t: Tables<R>, id: Id, status: Text, value: Text, now: Time)
    ensures Inserted(t, id, status, value, now).Ok? ==> Forward(t, Inserted(t, id, status, value, now).value)
  {
  }

  lemma ForwardTransitive<R(!new)>(a: Tables<R>, b: Tables<R>, c: Tables<R>)
    requires Forward(a, b) && Forward(b, c)
    ensures Forward(a, c)
  {
  }

  lemma HalfDoneIsLawful<R(!new)>(created: Id, value: Text, id: Id, version: nat, status: Text, next: Text, response: R, now: Time)
    ensures Lawful(CreateThenSwap(created, value, id, version, status, next, response, now))
  {
    hide Inserted, Swapped, Forward;
    forall t: Tables<R> ensures Forward(t, CreateThenSwap(created, value, id, version, status, next, response, now)(t).0) {
      InsertMovesForward(t, created, "created", value, now);
      NothingIsForward(t);
      if Inserted(t, created, "created", value, now).Ok? {
        var t1 := Inserted(t, created, "created", value, now).value;
        SwapMovesForward(t1, id, version, status, next, value, now);
        if Swapped(t1, id, version, status, next, value, now).Ok? {
          ForwardTransitive(t, t1, Swapped(t1, id, version, status, next, value, now).value);
        }
      }
    }
  }

  lemma NothingIsForward<R(!new)>(t: Tables<R>)
    ensures Forward(t, t)
  {
  }

  datatype Run<!R> = Run(scope: Text, key: Text, requestHash: Text, op: Operation<R>)

  function AfterRuns<R>(t: Tables<R>, runs: seq<Run<R>>): Tables<R>
    decreases |runs|
  {
    if runs == [] then t
    else
      var last := runs[|runs| - 1];
      RanOnce(AfterRuns(t, runs[..|runs| - 1]), last.scope, last.key, last.requestHash, last.op).0
  }

  lemma {:induction false} RunsKeepRecords<R(!new)>(t: Tables<R>, runs: seq<Run<R>>)
    requires forall r <- runs :: Lawful(r.op)
    ensures forall k <- t.idempotency :: k in AfterRuns(t, runs).idempotency && AfterRuns(t, runs).idempotency[k] == t.idempotency[k]
    decreases |runs|
  {
    hide RanOnce, Lawful;
    if runs != [] {
      var last := runs[|runs| - 1];
      RunsKeepRecords(t, runs[..|runs| - 1]);
      RunOnceIsAtomic(AfterRuns(t, runs[..|runs| - 1]), last.scope, last.key, last.requestHash, last.op);
    }
  }

  /** Once a run has succeeded under a key, every later run with the same request replays its response
      and changes nothing, whatever its operation is and whatever ran in between. */
  lemma LaterRunsReplay<R(!new)>(t: Tables<R>, run: Run<R>, between: seq<Run<R>>, op: Operation<R>)
    requires Lawful(run.op) && forall r <- between :: Lawful(r.op)
    requires RanOnce(t, run.scope, run.key, run.requestHash, run.op).1.Ok?
    ensures var (t1, first) := RanOnce(t, run.scope, run.key, run.requestHash, run.op);
            var later := AfterRuns(t1, between);
            RanOnce(later, run.scope, run.key, run.requestHash, op) == (later, Ok((true, first.value.1)))
  {
    RunOnceIsAtomic(t, run.scope, run.key, run.requestHash, run.op);
    RunsKeepRecords(RanOnce(t, run.scope, run.key, run.requestHash, run.op).0, between);
    hide AfterRuns, Lawful;
  }

  // ---------- the class ----------

  class Store<R(0)> {
    var challenges: map<Id, VersionedRecord>
    var idempotency: map<(Text, Text), IdempotencyRow<R>>
    var outbox: Rows
    var inTransaction: bool

    function Abs(): Tables<R>
      reads this
    {
      Tables(challenges, idempotency, outbox)
    }

    constructor ()
      ensures Abs() == Tables(map[], map[], map[]) && !inTransaction
    {
      challenges, idempotency, outbox, inTransaction := map[], map[], map[], false;
    }

    method Create(id: Id, status: Text, value: Text, now: Time) returns (r: Result<VersionedRecord, StoreError>)
      modifies this
      ensures inTransaction == old(inTransaction)
      ensures var next := Inserted(old(Abs()), id, status, value, now);
              if next.Ok? then Abs() == next.value && r == Ok(Abs().challenges[id]) else Abs() == old(Abs()) && r == Err(next.error)
    {
      if id in challenges { return Err(Exists); }
      challenges := challenges[id := VersionedRecord(value, status, 0, now)];
      return Ok(challenges[id]);
    }

    method Get(id: Id) returns (r: Option<VersionedRecord>)
      ensures r == if id in challenges then Some(challenges[id]) else None
    {
      return if id in challenges then Some(challenges[id]) else None;
    }

    method CompareAndSwap(id: Id, expectedVersion: nat, expectedStatus: Text, nextStatus: Text, nextValue: Text, now: Time)
      returns (r: Result<VersionedRecord, StoreError>)
      modifies this
      ensures inTransaction == old(inTransaction)
      ensures var next := Swapped(old(Abs()), id, expectedVersion, expectedStatus, nextStatus, nextValue, now);
              if next.Ok? then Abs() == next.value && r == Ok(Abs().challenges[id]) else Abs() == old(Abs()) && r == Err(next.error)
    {
      if id !in challenges || challenges[id].version != expectedVersion || challenges[id].status != expectedStatus {
        return Err(SwapConflict);
      }
      challenges := challenges[id := VersionedRecord(nextValue, nextStatus, expectedVersion + 1, now)];
      return Ok(challenges[id]);
    }

    method GetIdempotent(scope: Text, key: Text, requestHash: Text) returns (r: Result<Option<R>, StoreError>)
      ensures r == if (scope, key) !in idempotency then Ok(None)
                   else if idempotency[(scope, key)].requestHash != requestHash then Err(KeyReused)
                   else Ok(Some(idempotency[(scope, key)].response))
    {
      if (scope, key) !in idempotency { return Ok(None); }
      if idempotency[(scope, key)].requestHash != requestHash { return Err(KeyReused); }
      return Ok(Some(idempotency[(scope, key)].response));
    }

    /** The operation writes in place; an error rolls every table back. */
    method RunIdempotent(scope: Text, key: Text, requestHash: Text, op: Operation<R>) returns (r: Result<(bool, R), StoreError>)
      requires !inTransaction
      modifies this
      ensures !inTransaction
      ensures (Abs(), r) == RanOnce(old(Abs()), scope, key, requestHash, op)
    {
      var began := Abs();
      inTransaction := true;
      r := Transact(scope, key, requestHash, op);
      if r.Err? {
        challenges, idempotency, outbox := began.challenges, began.idempotency, began.outbox;
      }
      inTransaction := false;
    }

    /** The body of the transaction; on an error its writes are still in the tables. */
    method Transact(scope: Text, key: Text, requestHash: Text, op: Operation<R>) returns (r: Result<(bool, R), StoreError>)
      requires inTransaction
      modifies this
      ensures inTransaction
      ensures (Abs(), r) == RunBody(old(Abs()), scope, key, requestHash, op)
    {
      if (scope, key) in idempotency {
        if idempotency[(scope, key)].requestHash != requestHash { return Err(KeyReused); }
        return Ok((true, idempotency[(scope, key)].response));
      }
      var (written, done) := op(Abs());
      challenges, idempotency, outbox := written.challenges, written.idempotency, written.outbox;
      if done.Err? { return Err(done.error); }
      var response := done.value;
      if (scope, key) in idempotency { return Err(Exists); }
      idempotency := idempotency[(scope, key) := IdempotencyRow(requestHash, response)];
      return Ok((false, response));
    }

    method Enqueue(id: Id, key: Text, topic: Text, aggregateId: Text, payload: Text, payloadBytes: nat, now: Time)
      returns (failure: Option<OutboxError>)
      modifies this`outbox
      ensures (outbox, failure) == Enqueued(old(outbox), id, key, topic, aggregateId, payload, payloadBytes, now)
    {
      if !Bounded(key, MAX_EVENT_KEY) || !Bounded(topic, MAX_TOPIC) || !Bounded(aggregateId, MAX_AGGREGATE_ID) {
        return Some(InvalidIdentifier);
      }
      if !DateOk(now) { return Some(InvalidTime); }
      if payloadBytes > MAX_PAYLOAD_BYTES { return Some(InvalidPayload); }
      if id in outbox || exists other :: other in outbox && outbox[other].eventKey == key { return Some(DuplicateKey); }
      outbox := outbox[id := OutboxEvent(id, key, topic, aggregateId, payload, now, now, 0, None, None)];
      return None;
    }

    /** What the claim query answers with. */
    method SelectClaimable(now: Time, limit: nat) returns (ids: seq<Id>)
      ensures Selects(outbox, now, limit, ids)
    {
      ids := [];
      hide Claimable, Before;
      var rest := set id | id in outbox && Claimable(outbox[id], now);
      while |ids| < limit && rest != {}
        invariant |ids| <= limit
        invariant forall i, j :: 0 <= i < j < |ids| ==> ids[i] != ids[j]
        invariant forall id <- outbox :: Claimable(outbox[id], now) <==> id in ids || id in rest
        invariant (forall id <- ids :: id in outbox && id !in rest) && (forall id <- rest :: id in outbox)
        invariant forall i, j :: 0 <= i < j < |ids| ==> !Before(outbox[ids[j]], outbox[ids[i]])
        invariant forall chosen <- ids, other <- rest :: !Before(outbox[other], outbox[chosen])
        decreases rest
      {
        var first := Earliest(rest);
        ghost var before := ids;
        ids, rest := ids + [first], rest - {first};
        assert forall i :: 0 <= i < |before| ==> ids[i] == before[i] && before[i] in before;
      }
    }

    method Earliest(ids: set<Id>) returns (first: Id)
      requires ids != {} && forall id <- ids :: id in outbox
      ensures first in ids && forall id <- ids :: !Before(outbox[id], outbox[first])
    {
      hide Before;
      first :| first in ids;
      var rest := ids - {first};
      assert !Before(outbox[first], outbox[first]) by { NotBeforeItself(outbox[first]); }
      while rest != {}
        invariant first in ids && rest <= ids
        invariant forall id <- ids :: id !in rest ==> !Before(outbox[id], outbox[first])
        decreases rest
      {
        var id :| id in rest;
        if Before(outbox[id], outbox[first]) {
          forall other | other in ids && other !in rest ensures !Before(outbox[other], outbox[id]) {
            if Before(outbox[other], outbox[id]) { BeforeTransitive(outbox[other], outbox[id], outbox[first]); }
          }
          NotBeforeItself(outbox[id]);
          first := id;
        }
        rest := rest - {id};
      }
    }

    /** The rows the query selects are leased one by one, each if it is still free, and read back. */
    method ClaimOutbox(worker: Id, limit: int, leaseMs: int, now: Time)
      returns (r: Result<seq<OutboxEvent>, OutboxError>, selected: seq<Id>)
      modifies this`outbox
      ensures r.Err? <==> ClaimError(worker, limit, leaseMs, now).Some?
      ensures r.Err? ==> outbox == old(outbox) && r.error == ClaimError(worker, limit, leaseMs, now).value
      ensures r.Ok? ==>
                && limit >= 0 && Selects(old(outbox), now, limit, selected)
                && outbox == LeaseAll(old(outbox), Elements(selected), worker, now + leaseMs)
                && |r.value| == |selected|
                && forall i :: 0 <= i < |selected| ==> selected[i] in outbox && r.value[i] == outbox[selected[i]]
    {
      hide Before, Leased, StoredBefore;
      var failure := ClaimError(worker, limit, leaseMs, now);
      if failure.Some? { return Err(failure.value), []; }
      selected := SelectClaimable(now, limit);
      var claimed := LeaseSelected(selected, worker, now + leaseMs, now);
      return Ok(claimed), selected;
    }

    method LeaseSelected(selected: seq<Id>, worker: Id, until: Time, now: Time) returns (claimed: seq<OutboxEvent>)
      requires forall i, j :: 0 <= i < j < |selected| ==> selected[i] != selected[j]
      requires forall id <- selected :: id in outbox && Claimable(outbox[id], now)
      modifies this`outbox
      ensures outbox == LeaseAll(old(outbox), Elements(selected), worker, until)
      ensures |claimed| == |selected|
      ensures forall i :: 0 <= i < |selected| ==> selected[i] in outbox && claimed[i] == outbox[selected[i]]
    {
      hide Leased, StoredBefore;
      claimed := [];
      ghost var began := outbox;
      assert LeaseAll(began, {}, worker, until) == began;
      assert Elements(selected[..0]) == {};
      for i := 0 to |selected|
        invariant outbox == LeaseAll(began, Elements(selected[..i]), worker, until)
        invariant |claimed| == i
        invariant forall j :: 0 <= j < i ==> selected[j] in outbox && claimed[j] == outbox[selected[j]]
      {
        var id := selected[i];
        assert id !in selected[..i] && id in selected;
        assert outbox[id] == began[id];
        ElementsNext(selected, i);
        if outbox[id].deliveredAt.None? && (outbox[id].claim.None? || AtOrBefore(outbox[id].claim.value.until, now)) {
          outbox := outbox[id := Leased(outbox[id], worker, until)];
          claimed := claimed + [outbox[id]];
        }
      }
      assert selected[..|selected|] == selected;
    }

    method AcknowledgeOutbox(id: Id, worker: Id, now: Time) returns (failure: Option<OutboxError>)
      modifies this`outbox
      ensures (outbox, failure) == Acknowledged(old(outbox), id, worker, now)
    {
      if !Bounded(worker, MAX_WORKER_ID) { return Some(InvalidIdentifier); }
      if !DateOk(now) { return Some(InvalidTime); }
      if !HeldBy(outbox, id, worker, now) { return Some(Conflict); }
      outbox := outbox[id := outbox[id].(deliveredAt := Some(now), claim := None)];
      return None;
    }

    method ReleaseOutbox(id: Id, worker: Id, retryAt: Time, now: Time) returns (failure: Option<OutboxError>)
      modifies this`outbox
      ensures (outbox, failure) == Released(old(outbox), id, worker, retryAt, now)
    {
      if !Bounded(worker, MAX_WORKER_ID) { return Some(InvalidIdentifier); }
      if !DateOk(retryAt) || !DateOk(now) { return Some(InvalidTime); }
      if !HeldBy(outbox, id, worker, now) { return Some(Conflict); }
      outbox := outbox[id := outbox[id].(availableAt := retryAt, claim := None)];
      return None;
    }
  }
}
