/** What each operation on the outbox answers, with its conditions written out, and what a run leaves in the rows. */
module OutboxAnswers {
  import opened Common
  import opened Wrappers
  import opened Timestamps
  import opened Outbox

  /** A text of at most so many characters that is not all white space. */
  predicate Short(s: string, limit: nat) { |s| <= limit && exists ch :: ch in s && !Blank(ch) }

  lemma BoundedIff(s: string, limit: nat)
    ensures Bounded(s, limit) <==> Short(s, limit)
  {
    if ch :| ch in s && !Blank(ch) {
      var i :| 0 <= i < |s| && s[i] == ch;
    }
    if i :| 0 <= i < |s| && !Blank(s[i]) { assert s[i] in s; }
  }

  /** A Date can hold the instant. */
  predicate Instant(now: Time) { -8_640_000_000_000_000 <= now <= 8_640_000_000_000_000 }

  /** An event is enqueued exactly when its key, topic and aggregate id are short enough and not blank, its time
      is an instant, its payload has at most a mebibyte, and neither its id nor its key is in the table; it is
      then due at once, never claimed and not delivered, and no other row changes. */
  lemma EnqueuedIff(
    rows: Rows, id: Id, key: Text, topic: Text, aggregateId: Text, payload: Text, payloadBytes: nat, now: Time)
    ensures var (rows', failure) := Enqueued(rows, id, key, topic, aggregateId, payload, payloadBytes, now);
            && (failure.None? <==>
                  && Short(key, 256) && Short(topic, 128) && Short(aggregateId, 256) && Instant(now) && payloadBytes <= 1_048_576
                  && id !in rows && forall other <- rows :: rows[other].eventKey != key)
            && rows' == (if failure.None? then rows[id := OutboxEvent(id, key, topic, aggregateId, payload, now, now, 0, None, None)]
                         else rows)
  {
    hide Bounded, Short;
    BoundedIff(key, 256);
    BoundedIff(topic, 128);
    BoundedIff(aggregateId, 256);
  }

  /** A claim is admitted exactly for a worker name, a limit and a lease in bounds that starts and ends at instants. */
  lemma ClaimAdmittedIff(worker: Id, limit: int, leaseMs: int, now: Time)
    ensures ClaimError(worker, limit, leaseMs, now).None? <==>
              && Short(worker, 128) && 1 <= limit <= 1000 && 1000 <= leaseMs <= 9_007_199_254_740_991
              && Instant(now) && Instant(now + leaseMs)
  {
    hide Bounded, Short;
    BoundedIff(worker, 128);
  }

  /** The worker's lease on the event runs past this instant and the event is not delivered. */
  predicate LeaseRuns(rows: Rows, id: Id, worker: Id, now: Time) {
    && id in rows && rows[id].deliveredAt == None
    && match rows[id].claim
       case Some(Claim(holder, until)) => holder == worker && StoredBefore(now, until)
       case None => false
  }

  /** An acknowledgement succeeds exactly while the worker's lease runs, and then marks the event delivered now. */
  lemma AcknowledgedIff(rows: Rows, id: Id, worker: Id, now: Time)
    ensures var (rows', failure) := Acknowledged(rows, id, worker, now);
            && (failure.None? <==> Short(worker, 128) && Instant(now) && LeaseRuns(rows, id, worker, now))
            && (failure.Some? ==> rows' == rows)
            && (failure.None? ==> rows' == rows[id := OutboxEvent(
                    rows[id].eventId, rows[id].eventKey, rows[id].topic, rows[id].aggregateId, rows[id].payload,
                    rows[id].createdAt, rows[id].availableAt, rows[id].attempts, None, Some(now))])
  {
    hide Bounded, Short, StoredBefore;
    BoundedIff(worker, 128);
  }

  /** A release succeeds exactly while the worker's lease runs, and then leaves the event due at the retry time. */
  lemma ReleasedIff(rows: Rows, id: Id, worker: Id, retryAt: Time, now: Time)
    ensures var (rows', failure) := Released(rows, id, worker, retryAt, now);
            && (failure.None? <==> Short(worker, 128) && Instant(retryAt) && Instant(now) && LeaseRuns(rows, id, worker, now))
            && (failure.Some? ==> rows' == rows)
            && (failure.None? ==> rows' == rows[id := OutboxEvent(
                    rows[id].eventId, rows[id].eventKey, rows[id].topic, rows[id].aggregateId, rows[id].payload,
                    rows[id].createdAt, retryAt, rows[id].attempts, None, None)])
  {
    hide Bounded, Short, StoredBefore;
    BoundedIff(worker, 128);
  }

  /** An event is claimable exactly when it is not delivered, is due, and is under no lease that still runs. */
  lemma ClaimableIff(e: OutboxEvent, now: Time)
    ensures Claimable(e, now) <==>
              && e.deliveredAt == None && !StoredBefore(now, e.availableAt)
              && match e.claim
                 case Some(Claim(_, until)) => !StoredBefore(now, until)
                 case None => true
  {
    hide StoredBefore;
  }

  /** A claimable event that a claim passes over was created after every event taken, or at the same instant with
      a later id, and then the claim is full. */
  lemma PassedOverIsLater(rows: Rows, now: Time, limit: nat, ids: seq<Id>, id: Id, chosen: Id)
    requires forall id <- rows :: rows[id].eventId == id
    requires Selects(rows, now, limit, ids) && id in rows && Claimable(rows[id], now) && id !in ids && chosen in ids
    ensures |ids| == limit && chosen in rows && Claimable(rows[chosen], now)
    ensures || StoredBefore(rows[chosen].createdAt, rows[id].createdAt)
            || (rows[chosen].createdAt == rows[id].createdAt && Less(chosen, id))
  {
    hide StoredBefore, Less, Claimable;
    BeforeTotal(rows[id], rows[chosen]);
  }

  /** A claim leases each event taken to the worker until the end of the lease and counts one more attempt. */
  lemma ClaimLeases(s: State, ids: seq<Id>, worker: Id, limit: int, leaseMs: int, now: Time, id: Id)
    requires id in s.rows && ClaimError(worker, limit, leaseMs, now).None? && Selects(s.rows, now, limit, ids)
    ensures var rows' := Step(s, ClaimBatch(ids, worker, limit, leaseMs, now)).rows; var e := s.rows[id];
            && rows'.Keys == s.rows.Keys
            && rows'[id] == if id !in ids then e else
                 OutboxEvent(e.eventId, e.eventKey, e.topic, e.aggregateId, e.payload, e.createdAt, e.availableAt,
                             e.attempts + 1, Some(Claim(worker, now + leaseMs)), e.deliveredAt)
  {
    hide Bounded, Selects;
  }

  // ---------- whole runs ----------

  /** The row holds what this enqueue asked for. */
  predicate Enqueues(op: Op, e: OutboxEvent) {
    && op.Enqueue? && op.id == e.eventId && op.key == e.eventKey && op.topic == e.topic && op.aggregateId == e.aggregateId
    && op.payload == e.payload && op.now == e.createdAt
  }

  predicate SameContents(e: OutboxEvent, e': OutboxEvent) {
    && e'.eventId == e.eventId && e'.eventKey == e.eventKey && e'.topic == e.topic && e'.aggregateId == e.aggregateId
    && e'.payload == e.payload && e'.createdAt == e.createdAt
  }

  predicate KeysDiffer(rows: Rows) {
    forall a, b :: a in rows && b in rows && a != b ==> rows[a].eventKey != rows[b].eventKey
  }

  ghost predicate KeepsContents(rows: Rows, rows': Rows) {
    rows'.Keys == rows.Keys && forall id <- rows :: SameContents(rows[id], rows'[id])
  }

  lemma EndsKeepContents(rows: Rows, id: Id, worker: Id, retryAt: Time, now: Time)
    ensures KeepsContents(rows, Acknowledged(rows, id, worker, now).0) && KeepsContents(rows, Released(rows, id, worker, retryAt, now).0)
  {
    hide Short, StoredBefore, Instant, Acknowledged, Released;
    AcknowledgedIff(rows, id, worker, now);
    ReleasedIff(rows, id, worker, retryAt, now);
  }

  lemma LeasesKeepContents(rows: Rows, ids: set<Id>, worker: Id, until: Time)
    ensures KeepsContents(rows, LeaseAll(rows, ids, worker, until))
  {
  }

  lemma EnqueueAdds(rows: Rows, op: Op)
    requires KeysDiffer(rows) && op.Enqueue?
    ensures var rows' := Enqueued(rows, op.id, op.key, op.topic, op.aggregateId, op.payload, op.payloadBytes, op.now).0;
            && KeysDiffer(rows')
            && (rows' == rows
                || (op.id !in rows && op.id in rows' && rows' == rows[op.id := rows'[op.id]] && Enqueues(op, rows'[op.id])))
  {
    hide Short, Instant, Enqueued;
    EnqueuedIff(rows, op.id, op.key, op.topic, op.aggregateId, op.payload, op.payloadBytes, op.now);
  }

  /** No operation changes what a row says or removes it, and a row that was not there comes from an enqueue. */
  lemma StepKeepsContents(s: State, op: Op)
    requires KeysDiffer(s.rows)
    ensures var rows' := Step(s, op).rows;
            && KeysDiffer(rows') && s.rows.Keys <= rows'.Keys
            && forall id <- rows' :: if id in s.rows then SameContents(s.rows[id], rows'[id]) else Enqueues(op, rows'[id])
  {
    hide Acknowledged, Released, Enqueued, Selects, ClaimError, LeaseAll;
    match op
    case Enqueue(_, _, _, _, _, _, _) => EnqueueAdds(s.rows, op);
    case ClaimBatch(ids, worker, limit, leaseMs, now) => LeasesKeepContents(s.rows, Elements(ids), worker, now + leaseMs);
    case Acknowledge(id, worker, now) => EndsKeepContents(s.rows, id, worker, 0, now);
    case Release(id, worker, retryAt, now) => EndsKeepContents(s.rows, id, worker, retryAt, now);
  }

  /** Whatever workers do, in any run every row says what one enqueue of the run said, and no two rows share a key. */
  lemma {:induction false} RowsComeFromEnqueues(ops: seq<Op>, id: Id) returns (i: nat)
    requires id in Ran(EmptyOutbox, ops).rows
    ensures i < |ops| && Enqueues(ops[i], Ran(EmptyOutbox, ops).rows[id])
    ensures KeysDiffer(Ran(EmptyOutbox, ops).rows)
    decreases |ops|
  {
    hide Step, SameContents, KeysDiffer;
    KeysAlwaysDiffer(ops);
    var n := |ops| - 1;
    KeysAlwaysDiffer(ops[..n]);
    StepKeepsContents(Ran(EmptyOutbox, ops[..n]), ops[n]);
    if id in Ran(EmptyOutbox, ops[..n]).rows {
      i := RowsComeFromEnqueues(ops[..n], id);
      SameContentsEnqueues(ops[i], Ran(EmptyOutbox, ops[..n]).rows[id], Ran(EmptyOutbox, ops).rows[id]);
    } else {
      i := n;
    }
  }

  lemma SameContentsEnqueues(op: Op, e: OutboxEvent, e': OutboxEvent)
    requires Enqueues(op, e) && SameContents(e, e')
    ensures Enqueues(op, e')
  {
  }

  lemma {:induction false} KeysAlwaysDiffer(ops: seq<Op>)
    ensures KeysDiffer(Ran(EmptyOutbox, ops).rows)
    decreases |ops|
  {
    hide Step;
    if ops != [] {
      KeysAlwaysDiffer(ops[..|ops| - 1]);
      StepKeepsContents(Ran(EmptyOutbox, ops[..|ops| - 1]), ops[|ops| - 1]);
    }
  }
}
