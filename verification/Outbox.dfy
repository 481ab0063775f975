/** The outbox table: events enqueued, claimed under a lease, acknowledged or released by their holder.
    Stored times are compared as texts, which is StoredBefore on the instants. */
module Outbox {
  import opened Common
  import opened Wrappers
  import opened Timestamps

  type Text = string
  type Id = string
  type Time = int

  const MAX_EVENT_KEY := 256
  const MAX_TOPIC := 128
  const MAX_AGGREGATE_ID := 256
  const MAX_WORKER_ID := 128
  const MAX_PAYLOAD_BYTES := 1_048_576
  const MIN_LEASE_MS := 1000

  datatype OutboxError =
    | InvalidIdentifier | InvalidTime | InvalidPayload | DuplicateKey | InvalidClaim | InvalidLease | Conflict

  datatype Claim = Claim(holder: Id, until: Time)

  datatype OutboxEvent = OutboxEvent(
    eventId: Id, eventKey: Text, topic: Text, aggregateId: Text, payload: Text, createdAt: Time, availableAt: Time,
    attempts: nat, claim: Option<Claim>, deliveredAt: Option<Time>)

  type Rows = map<Id, OutboxEvent>

  predicate Bounded(s: Text, limit: nat) { |s| <= limit && exists i :: 0 <= i < |s| && !Blank(s[i]) }

  /** `text(a) <= text(b)` on stored timestamps. */
  predicate AtOrBefore(a: Time, b: Time) { !StoredBefore(b, a) }

  predicate After(a: Time, b: Time) { StoredBefore(b, a) }

  function Enqueued(
    rows: Rows, id: Id, key: Text, topic: Text, aggregateId: Text, payload: Text, payloadBytes: nat, now: Time): (Rows, Option<OutboxError>)
  {
    if !Bounded(key, MAX_EVENT_KEY) || !Bounded(topic, MAX_TOPIC) || !Bounded(aggregateId, MAX_AGGREGATE_ID) then
      (rows, Some(InvalidIdentifier))
    else if !DateOk(now) then (rows, Some(InvalidTime))
    else if payloadBytes > MAX_PAYLOAD_BYTES then (rows, Some(InvalidPayload))
    else if id in rows || exists other :: other in rows && rows[other].eventKey == key then (rows, Some(DuplicateKey))
    else (rows[id := OutboxEvent(id, key, topic, aggregateId, payload, now, now, 0, None, None)], None)
  }

  /** Not delivered, due, and under no lease or a lapsed one. */
  predicate Claimable(e: OutboxEvent, now: Time) {
    && e.deliveredAt.None? && AtOrBefore(e.availableAt, now)
    && (e.claim.None? || AtOrBefore(e.claim.value.until, now))
  }

  predicate Before(a: OutboxEvent, b: OutboxEvent) {
    StoredBefore(a.createdAt, b.createdAt) || (a.createdAt == b.createdAt && Less(a.eventId, b.eventId))
  }

  /** What the claim query returns: the first `limit` claimable events by creation time and id. */
  ghost predicate Selects(rows: Rows, now: Time, limit: nat, ids: seq<Id>) {
    && |ids| <= limit
    && (forall i, j :: 0 <= i < j < |ids| ==> ids[i] != ids[j])
    && (forall id <- ids :: id in rows && Claimable(rows[id], now))
    && (forall i, j :: 0 <= i < j < |ids| ==> !Before(rows[ids[j]], rows[ids[i]]))
    && (forall id <- rows :: Claimable(rows[id], now) && id !in ids ==>
          |ids| == limit && forall chosen <- ids :: !Before(rows[id], rows[chosen]))
  }

  lemma {:induction false} LessTotal(a: string, b: string)
    ensures a == b || Less(a, b) || Less(b, a)
  {
    if a != [] && b != [] {
      LessTotal(a[1..], b[1..]);
      assert a[0] == b[0] && a[1..] == b[1..] ==> a == b by { assert a == [a[0]] + a[1..] && b == [b[0]] + b[1..]; }
    }
  }

  lemma {:induction false} LessTransitive(a: string, b: string, c: string)
    requires Less(a, b) && Less(b, c)
    ensures Less(a, c)
  {
    if a != [] && a[0] == b[0] == c[0] { LessTransitive(a[1..], b[1..], c[1..]); }
  }

  lemma StoredTransitive(a: Time, b: Time, c: Time)
    requires !StoredBefore(b, a) && StoredBefore(b, c)
    ensures StoredBefore(a, c)
  {
    hide YearOf;
    if b < a { YearsFollowTime(b, a); } else { YearsFollowTime(a, b); }
  }

  lemma StoredTotal(a: Time, b: Time)
    ensures a == b || StoredBefore(a, b) || StoredBefore(b, a)
    ensures !(StoredBefore(a, b) && StoredBefore(b, a))
  {
    hide YearOf;
  }

  lemma BeforeTransitive(a: OutboxEvent, b: OutboxEvent, c: OutboxEvent)
    requires Before(a, b) && Before(b, c)
    ensures Before(a, c)
  {
    hide StoredBefore, Less;
    StoredTotal(a.createdAt, b.createdAt);
    if StoredBefore(b.createdAt, c.createdAt) {
      StoredTransitive(a.createdAt, b.createdAt, c.createdAt);
    } else if a.createdAt == b.createdAt {
      LessTransitive(a.eventId, b.eventId, c.eventId);
    }
  }

  lemma NotBeforeItself(e: OutboxEvent)
    ensures !Before(e, e)
  {
    StoredTotal(e.createdAt, e.createdAt);
    NotLessItself(e.eventId);
    hide StoredBefore, Less;
  }

  lemma BeforeTotal(a: OutboxEvent, b: OutboxEvent)
    requires a.eventId != b.eventId
    ensures Before(a, b) || Before(b, a)
  {
    StoredTotal(a.createdAt, b.createdAt);
    LessTotal(a.eventId, b.eventId);
    hide StoredBefore, Less;
  }

  /** The claim query has exactly one answer. */
  lemma OneSelection(rows: Rows, now: Time, limit: nat, ids: seq<Id>, others: seq<Id>)
    requires forall id <- rows :: rows[id].eventId == id
    requires Selects(rows, now, limit, ids) && Selects(rows, now, limit, others)
    ensures ids == others
  {
    hide Before, Claimable;
    var n := if |ids| <= |others| then |ids| else |others|;
    SameStart(rows, now, limit, ids, others, n);
    assert ids[..|ids|] == ids && others[..|others|] == others;
    if n == |ids| {
      NoneUnpicked(rows, now, limit, ids, others[n..]);
    } else {
      NoneUnpicked(rows, now, limit, others, ids[n..]);
    }
  }

  lemma NoneUnpicked(rows: Rows, now: Time, limit: nat, ids: seq<Id>, more: seq<Id>)
    requires Selects(rows, now, limit, ids) && |ids| + |more| <= limit
    requires forall id <- more :: id in rows && Claimable(rows[id], now) && id !in ids
    ensures more == []
  {
    HeadIn(more);
  }

  lemma HeadIn(ids: seq<Id>)
    ensures ids != [] ==> ids[0] in ids
  {
  }

  lemma {:induction false} SameStart(rows: Rows, now: Time, limit: nat, ids: seq<Id>, others: seq<Id>, n: nat)
    requires forall id <- rows :: rows[id].eventId == id
    requires Selects(rows, now, limit, ids) && Selects(rows, now, limit, others)
    requires n <= |ids| && n <= |others|
    ensures ids[..n] == others[..n]
  {
    hide Before, Claimable;
    if n > 0 {
      var k := n - 1;
      SameStart(rows, now, limit, ids, others, k);
      NotBeforeNext(rows, now, limit, ids, others, k);
      NotBeforeNext(rows, now, limit, others, ids, k);
      if ids[k] != others[k] { BeforeTotal(rows[ids[k]], rows[others[k]]); }
      assert ids[..n] == ids[..k] + [ids[k]] && others[..n] == others[..k] + [others[k]];
    }
  }

  lemma NotBeforeNext(rows: Rows, now: Time, limit: nat, ids: seq<Id>, others: seq<Id>, k: nat)
    requires Selects(rows, now, limit, ids) && Selects(rows, now, limit, others)
    requires k < |ids| && k < |others| && ids[..k] == others[..k]
    ensures !Before(rows[ids[k]], rows[others[k]])
  {
    hide Before, Claimable;
    var id := ids[k];
    assert id !in ids[..k] && id in ids && others[k] in others;
    NotBeforeItself(rows[id]);
    assert forall j :: 0 <= j < k ==> others[j] in others[..k];
  }

  function Leased(e: OutboxEvent, worker: Id, until: Time): OutboxEvent {
    e.(claim := Some(Claim(worker, until)), attempts := e.attempts + 1)
  }

  function Elements(ids: seq<Id>): set<Id> { set id | id in ids }

  lemma ElementsNext(ids: seq<Id>, n: nat)
    requires n < |ids|
    ensures Elements(ids[..n + 1]) == Elements(ids[..n]) + {ids[n]}
  {
    assert ids[..n + 1] == ids[..n] + [ids[n]];
  }

  function LeaseAll(rows: Rows, ids: set<Id>, worker: Id, until: Time): Rows {
    map id | id in rows :: if id in ids then Leased(rows[id], worker, until) else rows[id]
  }

  function ClaimError(worker: Id, limit: int, leaseMs: int, now: Time): Option<OutboxError> {
    if !Bounded(worker, MAX_WORKER_ID) then Some(InvalidIdentifier)
    else if !DateOk(now) then Some(InvalidTime)
    else if limit < 1 || limit > 1_000 then Some(InvalidClaim)
    else if leaseMs < MIN_LEASE_MS || leaseMs > MAX_SAFE_INTEGER then Some(InvalidLease)
    else if !DateOk(now + leaseMs) then Some(InvalidTime)
    else None
  }

  /** Held by this worker, its lease still running, and not delivered. */
  predicate HeldBy(rows: Rows, id: Id, worker: Id, now: Time) {
    && id in rows && rows[id].claim.Some? && rows[id].claim.value.holder == worker && After(rows[id].claim.value.until, now)
    && rows[id].deliveredAt.None?
  }

  function Acknowledged(rows: Rows, id: Id, worker: Id, now: Time): (Rows, Option<OutboxError>) {
    if !Bounded(worker, MAX_WORKER_ID) then (rows, Some(InvalidIdentifier))
    else if !DateOk(now) then (rows, Some(InvalidTime))
    else if !HeldBy(rows, id, worker, now) then (rows, Some(Conflict))
    else (rows[id := rows[id].(deliveredAt := Some(now), claim := None)], None)
  }

  function Released(rows: Rows, id: Id, worker: Id, retryAt: Time, now: Time): (Rows, Option<OutboxError>) {
    if !Bounded(worker, MAX_WORKER_ID) then (rows, Some(InvalidIdentifier))
    else if !DateOk(retryAt) || !DateOk(now) then (rows, Some(InvalidTime))
    else if !HeldBy(rows, id, worker, now) then (rows, Some(Conflict))
    else (rows[id := rows[id].(availableAt := retryAt, claim := None)], None)
  }

  // ---------- runs ----------

  /** What happened to one event. */
  datatype Entry =
    | Granted(id: Id, worker: Id, from: Time, until: Time)
    | Freed(id: Id, worker: Id, at: Time)
    | Delivered(id: Id, worker: Id, at: Time)

  /** The table, and a record of claims, releases and acknowledgements that no code reads. */
  datatype State = State(rows: Rows, log: seq<Entry>)

  datatype Op =
    | Enqueue(id: Id, key: Text, topic: Text, aggregateId: Text, payload: Text, payloadBytes: nat, now: Time)
    | ClaimBatch(ids: seq<Id>, worker: Id, limit: int, leaseMs: int, now: Time)
    | Acknowledge(id: Id, worker: Id, now: Time)
    | Release(id: Id, worker: Id, retryAt: Time, now: Time)

  function Grants(ids: seq<Id>, worker: Id, from: Time, until: Time): seq<Entry> {
    seq(|ids|, i requires 0 <= i < |ids| => Granted(ids[i], worker, from, until))
  }

  /** One committed operation of any worker; a claim takes what its query selected. */
  ghost function Step(s: State, op: Op): State {
    match op
    case Enqueue(id, key, topic, aggregateId, payload, bytes, now) =>
      s.(rows := Enqueued(s.rows, id, key, topic, aggregateId, payload, bytes, now).0)
    case ClaimBatch(ids, worker, limit, leaseMs, now) =>
      if ClaimError(worker, limit, leaseMs, now).Some? || !Selects(s.rows, now, limit, ids) then s
      else
        State(LeaseAll(s.rows, Elements(ids), worker, now + leaseMs), s.log + Grants(ids, worker, now, now + leaseMs))
    case Acknowledge(id, worker, now) =>
      var (rows, failure) := Acknowledged(s.rows, id, worker, now);
      if failure.Some? then s else State(rows, s.log + [Delivered(id, worker, now)])
    case Release(id, worker, retryAt, now) =>
      var (rows, failure) := Released(s.rows, id, worker, retryAt, now);
      if failure.Some? then s else State(rows, s.log + [Freed(id, worker, now)])
  }

  ghost function Ran(s: State, ops: seq<Op>): State
    decreases |ops|
  {
    if ops == [] then s else Step(Ran(s, ops[..|ops| - 1]), ops[|ops| - 1])
  }

  const EmptyOutbox := State(map[], [])

  function CountGrants(log: seq<Entry>, id: Id): nat {
    if log == [] then 0
    else CountGrants(log[..|log| - 1], id) + (if log[|log| - 1].Granted? && log[|log| - 1].id == id then 1 else 0)
  }

  /** Whether the entry at i is a grant of the event that no later entry ends. */
  predicate OpenGrant(log: seq<Entry>, i: nat, id: Id)
    requires i < |log|
  {
    log[i].Granted? && log[i].id == id && forall k :: i < k < |log| && log[k].id == id ==> log[k].Granted?
  }

  /** One event and the log agree: its lease is its last open grant, attempts count grants, and it is
      delivered exactly when the log says so, after which nothing happens to it. */
  ghost predicate EventOk(id: Id, e: OutboxEvent, log: seq<Entry>) {
    && e.eventId == id && e.attempts == CountGrants(log, id)
    && (forall i :: 0 <= i < |log| && OpenGrant(log, i, id) ==> e.claim.Some? && log[i].until <= e.claim.value.until)
    && (e.claim.Some? ==> LeaseLogged(e.claim.value, id, log))
    && (e.deliveredAt.Some? <==> exists i :: 0 <= i < |log| && log[i].Delivered? && log[i].id == id)
    && (e.deliveredAt.Some? ==> e.claim.None?)
  }

  ghost predicate LeaseLogged(c: Claim, id: Id, log: seq<Entry>) {
    exists i :: 0 <= i < |log| && OpenGrant(log, i, id) && log[i].worker == c.holder && log[i].until == c.until
  }

  ghost predicate Inv(s: State) {
    && (forall id <- s.rows :: EventOk(id, s.rows[id], s.log))
    && (forall i :: 0 <= i < |s.log| ==> s.log[i].id in s.rows)
    && GrantsEnd(s.log) && DisjointLeases(s.log) && NothingAfterDelivery(s.log)
  }

  predicate GrantsEnd(log: seq<Entry>) {
    forall i :: 0 <= i < |log| && log[i].Granted? ==> log[i].from < log[i].until && KeepsOrder(log[i].until)
  }

  /** Nothing but grants happens to this event between the entries at i and j. */
  predicate OnlyGrantsBetween(log: seq<Entry>, i: nat, j: nat, id: Id)
    requires i <= j <= |log|
  {
    forall k :: i < k < j && log[k].id == id ==> log[k].Granted?
  }

  /** Of two claims of one event with no release or delivery between them, the first lease ends before
      the second begins. */
  predicate DisjointLeases(log: seq<Entry>) {
    forall i, j :: 0 <= i < j < |log| && log[i].Granted? && log[j].Granted? && log[i].id == log[j].id
                   && OnlyGrantsBetween(log, i, j, log[i].id)
      ==> log[i].until <= log[j].from
  }

  predicate NothingAfterDelivery(log: seq<Entry>) {
    forall i, j :: 0 <= i < j < |log| && log[i].Delivered? ==> log[j].id != log[i].id
  }

  // ---------- one entry ----------

  lemma CountSnoc(log: seq<Entry>, e: Entry, id: Id)
    ensures CountGrants(log + [e], id) == CountGrants(log, id) + (if e.Granted? && e.id == id then 1 else 0)
  {
    assert (log + [e])[..|log|] == log;
  }

  lemma {:induction false} NeverLogged(log: seq<Entry>, id: Id)
    requires forall i :: 0 <= i < |log| ==> log[i].id != id
    ensures CountGrants(log, id) == 0
  {
    if log != [] { NeverLogged(log[..|log| - 1], id); }
  }

  lemma OpenGrantSnoc(log: seq<Entry>, entry: Entry, id: Id)
    ensures forall i :: 0 <= i < |log| ==>
              (OpenGrant(log + [entry], i, id) <==> OpenGrant(log, i, id) && (entry.id == id ==> entry.Granted?))
  {
    var log' := log + [entry];
    forall i | 0 <= i < |log|
      ensures OpenGrant(log', i, id) <==> OpenGrant(log, i, id) && (entry.id == id ==> entry.Granted?)
    {
      assert forall k :: 0 <= k < |log| ==> log'[k] == log[k];
      assert log'[|log|] == entry;
    }
  }

  lemma DeliveredSnoc(log: seq<Entry>, entry: Entry, id: Id)
    ensures (exists i :: 0 <= i < |log + [entry]| && (log + [entry])[i].Delivered? && (log + [entry])[i].id == id)
       <==> (exists i :: 0 <= i < |log| && log[i].Delivered? && log[i].id == id) || (entry.Delivered? && entry.id == id)
  {
    var log' := log + [entry];
    if i :| 0 <= i < |log| && log[i].Delivered? && log[i].id == id { assert log'[i] == log[i]; }
    if entry.Delivered? && entry.id == id { assert log'[|log|] == entry; }
  }

  lemma LeaseLoggedSnoc(c: Claim, id: Id, log: seq<Entry>, entry: Entry)
    requires LeaseLogged(c, id, log) && entry.id != id
    ensures LeaseLogged(c, id, log + [entry])
  {
    OpenGrantSnoc(log, entry, id);
    var i :| 0 <= i < |log| && OpenGrant(log, i, id) && log[i].worker == c.holder && log[i].until == c.until;
    assert OpenGrant(log + [entry], i, id);
  }

  /** An entry about another event changes nothing for this one. */
  lemma OtherEntry(id: Id, e: OutboxEvent, log: seq<Entry>, entry: Entry)
    requires EventOk(id, e, log) && entry.id != id
    ensures EventOk(id, e, log + [entry])
  {
    hide CountGrants, OpenGrant, LeaseLogged;
    CountSnoc(log, entry, id);
    OpenGrantSnoc(log, entry, id);
    DeliveredSnoc(log, entry, id);
    if e.claim.Some? { LeaseLoggedSnoc(e.claim.value, id, log, entry); }
    assert !OpenGrant(log + [entry], |log|, id) by { assert (log + [entry])[|log|] == entry; NotItsGrant(log, entry, id); }
  }

  lemma NotItsGrant(log: seq<Entry>, entry: Entry, id: Id)
    requires entry.id != id || !entry.Granted?
    ensures !OpenGrant(log + [entry], |log|, id)
  {
  }

  /** A new lease. */
  lemma GrantOk(id: Id, e: OutboxEvent, log: seq<Entry>, worker: Id, now: Time, until: Time)
    requires EventOk(id, e, log) && Claimable(e, now) && now < until && KeepsOrder(until) && DateOk(now) && GrantsEnd(log)
    ensures EventOk(id, Leased(e, worker, until), log + [Granted(id, worker, now, until)])
  {
    hide StoredBefore;
    var entry := Granted(id, worker, now, until);
    var log' := log + [entry];
    CountSnoc(log, entry, id);
    OpenGrantSnoc(log, entry, id);
    DeliveredSnoc(log, entry, id);
    hide CountGrants;
    assert OpenGrant(log', |log|, id);
    assert log'[|log|] == entry;
    assert LeaseLogged(Claim(worker, until), id, log');
    if e.claim.Some? { LapsedClaim(id, e, log, now); }
    forall i | 0 <= i < |log'| && OpenGrant(log', i, id) ensures log'[i].until <= until {
      if i < |log| { assert OpenGrant(log, i, id) && log'[i] == log[i]; }
    }
  }

  /** A claimable event's lease ended before now. */
  lemma LapsedClaim(id: Id, e: OutboxEvent, log: seq<Entry>, now: Time)
    requires EventOk(id, e, log) && Claimable(e, now) && DateOk(now) && GrantsEnd(log) && e.claim.Some?
    ensures e.claim.value.until <= now
  {
    hide StoredBefore, CountGrants;
    var k :| 0 <= k < |log| && OpenGrant(log, k, id) && log[k].worker == e.claim.value.holder && log[k].until == e.claim.value.until;
    KeptOrder(e.claim.value.until, now);
  }

  /** The holder frees or delivers the event: no grant is open any more. */
  lemma EndOk(id: Id, e: OutboxEvent, log: seq<Entry>, entry: Entry, e': OutboxEvent)
    requires EventOk(id, e, log) && entry.id == id && !entry.Granted? && e.deliveredAt.None?
    requires e'.eventId == id && e'.attempts == e.attempts && e'.claim.None? && (e'.deliveredAt.Some? <==> entry.Delivered?)
    ensures EventOk(id, e', log + [entry])
  {
    var log' := log + [entry];
    CountSnoc(log, entry, id);
    OpenGrantSnoc(log, entry, id);
    DeliveredSnoc(log, entry, id);
    NotItsGrant(log, entry, id);
    hide CountGrants, OpenGrant, LeaseLogged;
  }

  /** An event with an open grant cannot be claimed before that lease has ended. */
  lemma ClaimFollowsLease(id: Id, e: OutboxEvent, log: seq<Entry>, i: nat, now: Time)
    requires EventOk(id, e, log) && Claimable(e, now) && DateOk(now) && i < |log| && OpenGrant(log, i, id)
    requires GrantsEnd(log)
    ensures log[i].until <= now
  {
    hide StoredBefore, CountGrants;
    LapsedClaim(id, e, log, now);
  }

  /** The log properties after one more entry. */
  lemma LogSnoc(s: State, entry: Entry)
    requires GrantsEnd(s.log) && DisjointLeases(s.log) && NothingAfterDelivery(s.log)
    requires entry.id in s.rows && EventOk(entry.id, s.rows[entry.id], s.log) && s.rows[entry.id].deliveredAt.None?
    requires entry.Granted? ==>
               Claimable(s.rows[entry.id], entry.from) && DateOk(entry.from) && entry.from < entry.until && KeepsOrder(entry.until)
    ensures GrantsEnd(s.log + [entry]) && DisjointLeases(s.log + [entry]) && NothingAfterDelivery(s.log + [entry])
  {
    hide StoredBefore, CountGrants, LeaseLogged;
    var log, log', id := s.log, s.log + [entry], entry.id;
    var n := |log|;
    assert log'[n] == entry && forall k :: 0 <= k < n ==> log'[k] == log[k];
    forall i, j | 0 <= i < j < |log'| && log'[i].Granted? && log'[j].Granted? && log'[i].id == log'[j].id
                  && OnlyGrantsBetween(log', i, j, log'[i].id)
      ensures log'[i].until <= log'[j].from
    {
      if j < n {
        assert OnlyGrantsBetween(log, i, j, log[i].id);
      } else {
        assert OpenGrant(log, i, id);
        ClaimFollowsLease(id, s.rows[id], log, i, entry.from);
      }
    }
  }

  // ---------- every operation ----------

  /** One event changes with one entry about it. */
  lemma EntryKeepsInv(s: State, entry: Entry, e': OutboxEvent)
    requires Inv(s) && entry.id in s.rows && s.rows[entry.id].deliveredAt.None?
    requires entry.Granted? ==>
               Claimable(s.rows[entry.id], entry.from) && DateOk(entry.from) && entry.from < entry.until && KeepsOrder(entry.until)
    requires EventOk(entry.id, e', s.log + [entry])
    ensures Inv(State(s.rows[entry.id := e'], s.log + [entry]))
  {
    hide StoredBefore, EventOk, GrantsEnd, DisjointLeases, NothingAfterDelivery, Claimable;
    LogSnoc(s, entry);
    var s' := State(s.rows[entry.id := e'], s.log + [entry]);
    forall id | id in s'.rows ensures EventOk(id, s'.rows[id], s'.log) {
      if id != entry.id { OtherEntry(id, s.rows[id], s.log, entry); }
    }
  }

  lemma EnqueueKeepsInv(s: State, id: Id, key: Text, topic: Text, aggregateId: Text, payload: Text, bytes: nat, now: Time)
    requires Inv(s)
    ensures Inv(s.(rows := Enqueued(s.rows, id, key, topic, aggregateId, payload, bytes, now).0))
  {
    hide StoredBefore, GrantsEnd, DisjointLeases, NothingAfterDelivery, CountGrants, Bounded, LeaseLogged;
    if Enqueued(s.rows, id, key, topic, aggregateId, payload, bytes, now).1.None? {
      NeverLogged(s.log, id);
      assert EventOk(id, OutboxEvent(id, key, topic, aggregateId, payload, now, now, 0, None, None), s.log);
      hide EventOk;
    }
  }

  lemma AcknowledgeKeepsInv(s: State, id: Id, worker: Id, now: Time)
    requires Inv(s)
    ensures Inv(Step(s, Acknowledge(id, worker, now)))
  {
    hide StoredBefore, EventOk, GrantsEnd, DisjointLeases, NothingAfterDelivery, Bounded;
    if Acknowledged(s.rows, id, worker, now).1.None? {
      var e' := s.rows[id].(deliveredAt := Some(now), claim := None);
      EventId(id, s.rows[id], s.log);
      EndOk(id, s.rows[id], s.log, Delivered(id, worker, now), e');
      EntryKeepsInv(s, Delivered(id, worker, now), e');
    }
  }

  lemma EventId(id: Id, e: OutboxEvent, log: seq<Entry>)
    requires EventOk(id, e, log)
    ensures e.eventId == id
  {
  }

  lemma ReleaseKeepsInv(s: State, id: Id, worker: Id, retryAt: Time, now: Time)
    requires Inv(s)
    ensures Inv(Step(s, Release(id, worker, retryAt, now)))
  {
    hide StoredBefore, EventOk, GrantsEnd, DisjointLeases, NothingAfterDelivery, Bounded;
    if Released(s.rows, id, worker, retryAt, now).1.None? {
      var e' := s.rows[id].(availableAt := retryAt, claim := None);
      EventId(id, s.rows[id], s.log);
      EndOk(id, s.rows[id], s.log, Freed(id, worker, now), e');
      EntryKeepsInv(s, Freed(id, worker, now), e');
    }
  }

  /** Claiming event after event, as the loop over the selected rows does. */
  lemma {:induction false} GrantsKeepInv(s: State, ids: seq<Id>, worker: Id, now: Time, until: Time)
    requires Inv(s) && now < until && KeepsOrder(until) && DateOk(now)
    requires forall i, j :: 0 <= i < j < |ids| ==> ids[i] != ids[j]
    requires forall id <- ids :: id in s.rows && Claimable(s.rows[id], now)
    ensures Inv(State(LeaseAll(s.rows, Elements(ids), worker, until), s.log + Grants(ids, worker, now, until)))
    decreases |ids|
  {
    hide StoredBefore, Inv, Claimable;
    if ids == [] {
      assert Elements(ids) == {};
      assert LeaseAll(s.rows, {}, worker, until) == s.rows;
      assert s.log + Grants(ids, worker, now, until) == s.log;
    } else {
      var n := |ids| - 1;
      var front, id := ids[..n], ids[n];
      GrantsKeepInv(s, front, worker, now, until);
      var s1 := State(LeaseAll(s.rows, Elements(front), worker, until), s.log + Grants(front, worker, now, until));
      assert id !in front && s1.rows[id] == s.rows[id];
      GrantKeepsInv(s1, id, worker, now, until);
      ElementsNext(ids, n);
      assert ids[..n + 1] == ids;
      assert LeaseAll(s.rows, Elements(ids), worker, until) == s1.rows[id := Leased(s.rows[id], worker, until)];
      assert s.log + Grants(ids, worker, now, until) == s1.log + [Granted(id, worker, now, until)];
    }
  }

  lemma GrantKeepsInv(s: State, id: Id, worker: Id, now: Time, until: Time)
    requires Inv(s) && id in s.rows && Claimable(s.rows[id], now) && now < until && KeepsOrder(until) && DateOk(now)
    ensures Inv(State(s.rows[id := Leased(s.rows[id], worker, until)], s.log + [Granted(id, worker, now, until)]))
  {
    hide StoredBefore, EventOk, GrantsEnd, DisjointLeases, NothingAfterDelivery;
    GrantOk(id, s.rows[id], s.log, worker, now, until);
    EntryKeepsInv(s, Granted(id, worker, now, until), Leased(s.rows[id], worker, until));
  }

  /** Leases end where texts sort in time order. */
  predicate EndsInTime(op: Op) { op.ClaimBatch? ==> KeepsOrder(op.now + op.leaseMs) }

  lemma StepKeepsInv(s: State, op: Op)
    requires Inv(s) && EndsInTime(op)
    ensures Inv(Step(s, op)) && s.log <= Step(s, op).log
  {
    hide StoredBefore, Inv, Bounded, Claimable;
    match op
    case Enqueue(id, key, topic, aggregateId, payload, bytes, now) =>
      EnqueueKeepsInv(s, id, key, topic, aggregateId, payload, bytes, now);
    case ClaimBatch(ids, worker, limit, leaseMs, now) =>
      if ClaimError(worker, limit, leaseMs, now).None? && Selects(s.rows, now, limit, ids) {
        GrantsKeepInv(s, ids, worker, now, now + leaseMs);
      }
    case Acknowledge(id, worker, now) => AcknowledgeKeepsInv(s, id, worker, now);
    case Release(id, worker, retryAt, now) => ReleaseKeepsInv(s, id, worker, retryAt, now);
  }

  /** Over all interleavings of enqueue, claim, acknowledge and release by any workers, with any clocks:
      claims of one event without a release between them have disjoint leases, nothing happens to a
      delivered event, and `attempts` counts claims. */
  lemma {:induction false} LeasesNeverOverlap(ops: seq<Op>)
    requires forall op <- ops :: EndsInTime(op)
    ensures var s := Ran(EmptyOutbox, ops);
            && DisjointLeases(s.log) && NothingAfterDelivery(s.log)
            && (forall id <- s.rows :: s.rows[id].attempts == CountGrants(s.log, id))
    ensures Inv(Ran(EmptyOutbox, ops))
    decreases |ops|
  {
    hide Step, EndsInTime, DisjointLeases, NothingAfterDelivery, OpenGrant, LeaseLogged, CountGrants, GrantsEnd;
    if ops == [] {
      EmptyInv();
    } else {
      LeasesNeverOverlap(ops[..|ops| - 1]);
      StepKeepsInv(Ran(EmptyOutbox, ops[..|ops| - 1]), ops[|ops| - 1]);
    }
  }

  lemma EmptyInv()
    ensures Inv(EmptyOutbox)
  {
  }

  /** Acknowledging and releasing succeed exactly for the holder of a running lease, which the log shows
      as the last open grant of the event. */
  lemma OnlyTheHolderEnds(s: State, id: Id, worker: Id, retryAt: Time, now: Time)
    requires Inv(s) && Bounded(worker, MAX_WORKER_ID) && DateOk(retryAt) && DateOk(now)
    ensures Acknowledged(s.rows, id, worker, now).1.None? <==> HeldBy(s.rows, id, worker, now)
    ensures Released(s.rows, id, worker, retryAt, now).1.None? <==> HeldBy(s.rows, id, worker, now)
    ensures HeldBy(s.rows, id, worker, now) ==>
              exists i :: 0 <= i < |s.log| && OpenGrant(s.log, i, id) && s.log[i].worker == worker && After(s.log[i].until, now)
  {
    hide Bounded, CountGrants, OpenGrant, GrantsEnd, DisjointLeases, NothingAfterDelivery;
    if HeldBy(s.rows, id, worker, now) {
      assert EventOk(id, s.rows[id], s.log);
    }
  }

  /** EndsInTime is exact: some clock reading before the end of a lease finds the event claimable
      exactly when the lease does not end where texts sort in time order. */
  lemma OverlapsIff(e: OutboxEvent, worker: Id, leaseMs: int, now: Time)
    requires Claimable(e, now) && MIN_LEASE_MS <= leaseMs && DateOk(now) && DateOk(now + leaseMs) && DateOk(e.availableAt)
    ensures (exists later :: DateOk(later) && later < now + leaseMs && Claimable(Leased(e, worker, now + leaseMs), later))
       <==> !KeepsOrder(now + leaseMs)
  {
    hide StoredBefore, KeepsOrder;
    var until := now + leaseMs;
    var leased := Leased(e, worker, until);
    if KeepsOrder(until) {
      forall later | DateOk(later) && Claimable(leased, later) ensures until <= later { KeptOrder(until, later); }
    } else if AtOrBefore(until, now) {
      assert Claimable(leased, now);
    } else {
      var later := LostOrder(until);
      StoredTransitive(e.availableAt, now, until);
      assert Claimable(leased, later);
    }
  }

  /** A leased event can be claimed again at once exactly when its lease runs into year 10000 or crosses
      into another year before year 0. */
  lemma LeaseProtectsIff(e: OutboxEvent, worker: Id, leaseMs: int, now: Time)
    requires Claimable(e, now) && MIN_LEASE_MS <= leaseMs && DateOk(now) && DateOk(now + leaseMs)
    ensures Claimable(Leased(e, worker, now + leaseMs), now)
       <==> now < YEAR_10000_MS <= now + leaseMs || YearOf(now) < YearOf(now + leaseMs) <= -1
  {
    hide YearOf;
    Since10000(now);
    Since10000(now + leaseMs);
    YearsFollowTime(now, now + leaseMs);
  }

  /** Half a second before the year -1 a lease of a second ends at a text that sorts before its start. */
  lemma LeaseAcrossNegativeYears(e: OutboxEvent, worker: Id)
    requires Claimable(e, NEGATIVE_NEW_YEAR - 500)
    ensures Claimable(Leased(e, worker, NEGATIVE_NEW_YEAR + 500), NEGATIVE_NEW_YEAR - 500)
  {
    OneYear(DayOf(NEGATIVE_NEW_YEAR - 500), -2);
    OneYear(DayOf(NEGATIVE_NEW_YEAR + 500), -1);
    LeaseProtectsIff(e, worker, 1000, NEGATIVE_NEW_YEAR - 500);
  }

  /** Midnight of 1 January of the year before year 0. */
  const NEGATIVE_NEW_YEAR := -62_198_755_200_000
}
