/** What ties the cases and overrides of the operations machine to its audit events, in every
    reachable state. */
module OperationsInvariant {
  import opened Common
  import opened Wrappers
  import opened Operations

  // ---------- the events of one case ----------

  function EventKey(e: AuditEvent): Key { (e.body.tenantId, e.body.caseId) }

  function Events(audit: seq<AuditEvent>, key: Key): seq<AuditEvent> {
    if audit == [] then []
    else
      var earlier, e := Events(audit[..|audit| - 1], key), audit[|audit| - 1];
      if EventKey(e) == key then earlier + [e] else earlier
  }

  function OfKind(events: seq<AuditEvent>, kind: EventKind): seq<AuditEvent> {
    if events == [] then []
    else
      var earlier, e := OfKind(events[..|events| - 1], kind), events[|events| - 1];
      if e.body.kind == kind then earlier + [e] else earlier
  }

  function StateOf(kind: EventKind): Option<CaseState> {
    match kind
    case CaseMoved(to) => if to == TrustResetPending then None else Some(to)
    case ResetRequested => Some(TrustResetPending)
    case ResetExecuted => Some(Resolved)
    case ResetApproved => None
    case ResetExpired => None
  }

  /** The state the events of a case lead to. */
  function Derived(events: seq<AuditEvent>): CaseState {
    if events == [] then Opened
    else
      var next := StateOf(events[|events| - 1].body.kind);
      if next.Some? then next.value else Derived(events[..|events| - 1])
  }

  lemma EventsSnoc(audit: seq<AuditEvent>, e: AuditEvent, key: Key)
    ensures Events(audit + [e], key) == Events(audit, key) + (if EventKey(e) == key then [e] else [])
  {
    assert (audit + [e])[..|audit|] == audit;
  }

  lemma OfKindSnoc(events: seq<AuditEvent>, e: AuditEvent, kind: EventKind)
    ensures OfKind(events + [e], kind) == OfKind(events, kind) + (if e.body.kind == kind then [e] else [])
  {
    assert (events + [e])[..|events|] == events;
  }

  lemma DerivedSnoc(events: seq<AuditEvent>, e: AuditEvent)
    ensures Derived(events + [e]) == if StateOf(e.body.kind).Some? then StateOf(e.body.kind).value else Derived(events)
  {
    assert (events + [e])[..|events|] == events;
  }

  // ---------- one case and its override ----------

  predicate CaseOk(key: Key, v: Case, events: seq<AuditEvent>) {
    && key == (v.tenantId, v.caseId) && IdOk(v.tenantId) && IdOk(v.caseId) && SyntheticRef(v.subjectRef)
    && |OfKind(events, CaseMoved(Opened))| == 1 && OfKind(events, CaseMoved(Opened))[0].body.reason == v.reason
    && (forall e <- events :: e.body.correlationId == v.correlationId)
  }

  predicate Witnessed(a: Approval, approved: seq<AuditEvent>) {
    exists e :: e in approved && e.body.actorId == a.actorId && e.body.actorRole == a.role && e.body.occurredAt == a.approvedAt
  }

  predicate DistinctApprovers(approvals: seq<Approval>) {
    forall i, j :: 0 <= i < j < |approvals| ==> approvals[i].actorId != approvals[j].actorId
  }

  /** An override agrees with the request, approval, execution and expiry events of its case. */
  predicate OverrideAgrees(o: Override, events: seq<AuditEvent>) {
    var requested, approved := OfKind(events, ResetRequested), OfKind(events, ResetApproved);
    var executed, lapsed := OfKind(events, ResetExecuted), OfKind(events, ResetExpired);
    && |o.approvals| <= 2 && DistinctApprovers(o.approvals)
    && (forall a <- o.approvals :: IsApprover(a.role))
    && |approved| == |o.approvals| && (forall a <- o.approvals :: Witnessed(a, approved))
    && |requested| == 1 && requested[0].body.actorId == o.requestedBy && requested[0].body.reason == o.reason
    && requested[0].body.occurredAt == o.requestedAt
    && (o.state == Executed <==> executed != []) && (o.state == Lapsed <==> lapsed != [])
    && (o.executedAt.Some? <==> executed != [])
    && (executed != [] ==> o.executedAt == Some(executed[0].body.occurredAt))
  }

  /** An executed override and a resolved case go together, with two approvals. */
  predicate OverrideOk(okey: Key, o: Override, v: Case, events: seq<AuditEvent>) {
    && okey == (o.tenantId, o.overrideId)
    && OverrideAgrees(o, events)
    && v.state in {TrustResetPending, Resolved, Expired}
    && (o.state == Executed <==> v.state == Resolved)
    && (o.state == Executed ==> |o.approvals| == 2)
    && ReasonOk(o.reason)
  }

  /** Two approvals execute an override, and nothing else does. */
  ghost predicate Decided(m: Machine) {
    forall okey <- m.overrides :: m.overrides[okey].state == Executed <==> |m.overrides[okey].approvals| >= 2
  }

  function CaseKeyOf(okey: Key, o: Override): Key { (okey.0, o.caseId) }

  ghost predicate HasOverride(m: Machine, key: Key) {
    exists okey :: okey in m.overrides && CaseKeyOf(okey, m.overrides[okey]) == key
  }

  predicate NoResets(events: seq<AuditEvent>) {
    OfKind(events, ResetRequested) == [] && OfKind(events, ResetApproved) == []
    && OfKind(events, ResetExecuted) == [] && OfKind(events, ResetExpired) == []
  }

  /** A case marked pending whose override was never built. */
  ghost predicate Stranded(m: Machine, key: Key) {
    key in m.cases && m.cases[key].state == TrustResetPending && !HasOverride(m, key)
  }

  ghost predicate SlotOk(m: Machine, key: Key)
    requires key in m.cases
  {
    var v, events := m.cases[key], Events(m.audit, key);
    && CaseOk(key, v, events)
    && (forall okey <- m.overrides ::
          CaseKeyOf(okey, m.overrides[okey]) == key ==> OverrideOk(okey, m.overrides[okey], v, events))
    && (!HasOverride(m, key) ==> NoResets(events))
    && (Derived(events) == v.state || Stranded(m, key))
  }

  ghost predicate OverridesOk(m: Machine) {
    && (forall okey <- m.overrides :: CaseKeyOf(okey, m.overrides[okey]) in m.cases)
    && (forall a, b | a in m.overrides && b in m.overrides ::
          CaseKeyOf(a, m.overrides[a]) == CaseKeyOf(b, m.overrides[b]) ==> a == b)
  }

  predicate LinkOk(c: OpsCrypto, earlier: seq<AuditEvent>, e: AuditEvent) {
    e.body.sequence == |earlier| + 1 && e.body.previousHash == PreviousHash(earlier) && c.digest(e.body) == e.hash
  }

  predicate ChainOk(c: OpsCrypto, audit: seq<AuditEvent>) {
    forall i :: 0 <= i < |audit| ==> LinkOk(c, audit[..i], audit[i])
  }

  ghost predicate HashShaped(c: OpsCrypto) { forall r, k, t :: HexHash(c.requestHash(r, k, t)) }

  predicate IntentOk(m: Machine, i: Intent) { SyntheticRef(i.recipientRef) && (i.tenantId, i.caseId) in m.cases }

  predicate CacheOk(key: Key, x: Cached) { IdOk(key.0) && IdOk(key.1) && HexHash(x.requestHash) }

  ghost predicate MachineOk(c: OpsCrypto, m: Machine) {
    && (forall key <- m.cases :: SlotOk(m, key))
    && OverridesOk(m)
    && ChainOk(c, m.audit)
    && (forall i <- m.intents :: IntentOk(m, i))
    && (forall key <- m.idempotency :: CacheOk(key, m.idempotency[key]))
    && (forall key :: key !in m.cases ==> Events(m.audit, key) == [])
  }

  // ---------- one case moves ----------

  /** m' differs from m in one case, the overrides of that case and events about it; the first and the
      new intents speak of known cases. */
  ghost predicate OneCaseMoves(m: Machine, m': Machine, key: Key) {
    && key in m'.cases
    && (forall k :: k != key ==> (k in m.cases <==> k in m'.cases) && (k in m.cases ==> m'.cases[k] == m.cases[k]))
    && (forall k :: k != key ==> Events(m'.audit, k) == Events(m.audit, k))
    && (forall okey <- m.overrides :: CaseKeyOf(okey, m.overrides[okey]) != key ==>
          okey in m'.overrides && m'.overrides[okey] == m.overrides[okey])
    && (forall okey <- m'.overrides :: CaseKeyOf(okey, m'.overrides[okey]) != key ==>
          okey in m.overrides && m'.overrides[okey] == m.overrides[okey])
    && m'.idempotency == m.idempotency
  }

  lemma OtherSlotKept(m: Machine, m': Machine, key: Key, k: Key)
    requires OneCaseMoves(m, m', key) && k in m.cases && k != key && SlotOk(m, k)
    ensures k in m'.cases && SlotOk(m', k)
  {
    hide CaseOk, OverrideOk, NoResets, Events, Derived;
    assert HasOverride(m, k) <==> HasOverride(m', k);
  }

  lemma MovedMachineOk(c: OpsCrypto, m: Machine, m': Machine, key: Key)
    requires MachineOk(c, m) && OneCaseMoves(m, m', key)
    requires SlotOk(m', key) && OverridesOk(m') && ChainOk(c, m'.audit)
    requires forall i <- m'.intents :: i in m.intents || IntentOk(m', i)
    ensures MachineOk(c, m')
  {
    hide SlotOk, OverridesOk, ChainOk, CacheOk;
    forall k | k in m'.cases ensures SlotOk(m', k) {
      if k != key { OtherSlotKept(m, m', key, k); }
    }
    forall i | i in m'.intents ensures IntentOk(m', i) {
      if i in m.intents { assert IntentOk(m, i); }
    }
  }

  lemma ChainSnoc(c: OpsCrypto, audit: seq<AuditEvent>, e: AuditEvent)
    requires ChainOk(c, audit) && LinkOk(c, audit, e)
    ensures ChainOk(c, audit + [e])
  {
    hide LinkOk;
    var all := audit + [e];
    forall i | 0 <= i < |all| ensures LinkOk(c, all[..i], all[i]) {
      if i < |audit| {
        assert all[..i] == audit[..i];
      } else {
        assert all[..i] == audit;
      }
    }
  }

  lemma SlotAt(c: OpsCrypto, m: Machine, key: Key)
    requires MachineOk(c, m) && key in m.cases
    ensures SlotOk(m, key) && CaseOk(key, m.cases[key], Events(m.audit, key)) && OverridesOk(m) && ChainOk(c, m.audit)
  {
    hide CaseOk, OverrideOk, OverridesOk, NoResets, Events, Derived;
  }

  // ---------- a record about a case, its overrides as they were ----------

  /** The new event keeps what the override is checked against: it is none of the trust-reset kinds. */
  lemma PlainEventKeepsOverride(o: Override, events: seq<AuditEvent>, e: AuditEvent)
    requires OverrideAgrees(o, events) && e.body.kind.CaseMoved?
    ensures OverrideAgrees(o, events + [e])
  {
    OfKindSnoc(events, e, ResetRequested);
    OfKindSnoc(events, e, ResetApproved);
    OfKindSnoc(events, e, ResetExecuted);
    OfKindSnoc(events, e, ResetExpired);
    hide OfKind;
  }

  lemma PlainEventKeepsNoResets(events: seq<AuditEvent>, e: AuditEvent)
    requires NoResets(events) && e.body.kind.CaseMoved?
    ensures NoResets(events + [e])
  {
    OfKindSnoc(events, e, ResetRequested);
    OfKindSnoc(events, e, ResetApproved);
    OfKindSnoc(events, e, ResetExecuted);
    OfKindSnoc(events, e, ResetExpired);
    hide OfKind;
  }

  lemma EventKeepsCase(key: Key, v: Case, v': Case, events: seq<AuditEvent>, e: AuditEvent)
    requires CaseOk(key, v, events) && e.body.kind != CaseMoved(Opened) && e.body.correlationId == v.correlationId
    requires v' == v.(state := v'.state, updatedAt := v'.updatedAt)
    ensures CaseOk(key, v', events + [e])
  {
    OfKindSnoc(events, e, CaseMoved(Opened));
    hide OfKind, IdOk, SyntheticRef;
  }

  /** What Record does to the events, case by case. */
  lemma RecordEvents(
    c: OpsCrypto, m: Machine, key: Key, v: Case, kind: EventKind, actorId: Id, role: Role, reason: Text, now: Time)
    requires ChainOk(c, m.audit) && key == (v.tenantId, v.caseId)
    ensures var m', e := Record(c, m, key, v, kind, actorId, role, reason, now), EventOf(c, m.audit, v, kind, actorId, role, reason, now);
            && ChainOk(c, m'.audit)
            && Events(m'.audit, key) == Events(m.audit, key) + [e]
            && (forall k :: k != key ==> Events(m'.audit, k) == Events(m.audit, k))
  {
    var e := EventOf(c, m.audit, v, kind, actorId, role, reason, now);
    ChainSnoc(c, m.audit, e);
    EventsSnoc(m.audit, e, key);
    forall k ensures Events(m.audit + [e], k) == Events(m.audit, k) + (if EventKey(e) == k then [e] else []) {
      EventsSnoc(m.audit, e, k);
    }
    hide Events, ChainOk;
  }

  /** A case without override, or one that expires, moves by a case event. */
  lemma CaseMoveKeepsOk(c: OpsCrypto, m: Machine, key: Key, to: CaseState, actorId: Id, role: Role, reason: Text, now: Time)
    requires MachineOk(c, m) && key in m.cases && to != Opened && to != TrustResetPending
    requires (to == Expired && m.cases[key].state != Resolved) || !HasOverride(m, key)
    ensures MachineOk(c, Record(c, m, key, m.cases[key].(state := to, updatedAt := now), CaseMoved(to), actorId, role, reason, now))
  {
    hide MachineOk, CaseOk, OverrideAgrees, OverridesOk, NoResets, Events, Derived, ChainOk, IdOk, ReasonOk, EventOf;
    SlotAt(c, m, key);
    var v := m.cases[key];
    var v' := v.(state := to, updatedAt := now);
    var e := EventOf(c, m.audit, v', CaseMoved(to), actorId, role, reason, now);
    var m' := Record(c, m, key, v', CaseMoved(to), actorId, role, reason, now);
    var events := Events(m.audit, key);
    CaseKeyIs(key, v, events);
    RecordEvents(c, m, key, v', CaseMoved(to), actorId, role, reason, now);
    EventFields(c, m.audit, v', CaseMoved(to), actorId, role, reason, now);
    EventKeepsCase(key, v, v', events, e);
    DerivedSnoc(events, e);
    forall okey | okey in m'.overrides && CaseKeyOf(okey, m'.overrides[okey]) == key
      ensures OverrideOk(okey, m'.overrides[okey], v', events + [e])
    {
      assert HasOverride(m, key);
      PlainEventKeepsOverride(m.overrides[okey], events, e);
    }
    if !HasOverride(m', key) {
      assert !HasOverride(m, key);
      PlainEventKeepsNoResets(events, e);
    }
    SameOverridesOk(m, m', key);
    MovedMachineOk(c, m, m', key);
  }

  lemma CaseKeyIs(key: Key, v: Case, events: seq<AuditEvent>)
    requires CaseOk(key, v, events)
    ensures key == (v.tenantId, v.caseId)
  {
  }

  lemma EventFields(
    c: OpsCrypto, audit: seq<AuditEvent>, v: Case, kind: EventKind, actorId: Id, role: Role, reason: Text, now: Time)
    ensures var e := EventOf(c, audit, v, kind, actorId, role, reason, now);
            && e.body.kind == kind && e.body.correlationId == v.correlationId && e.body.occurredAt == now
            && e.body.actorId == actorId && e.body.actorRole == role && e.body.reason == reason
  {
  }

  lemma SameOverridesOk(m: Machine, m': Machine, key: Key)
    requires OverridesOk(m) && m'.overrides == m.overrides && m.cases.Keys <= m'.cases.Keys
    ensures OverridesOk(m')
  {
  }

  lemma IntentKeepsOk(c: OpsCrypto, m: Machine, i: Intent)
    requires MachineOk(c, m) && IntentOk(m, i)
    ensures MachineOk(c, m.(intents := m.intents + [i]))
  {
    hide CaseOk, OverrideOk, NoResets, Events, Derived, ChainOk, CacheOk, SyntheticRef;
    var m' := m.(intents := m.intents + [i]);
    forall k | k in m'.cases ensures SlotOk(m', k) { SlotKept(m, m', k); }
    forall x | x in m'.intents ensures IntentOk(m', x) {
      if x in m.intents { assert IntentOk(m, x); }
    }
  }

  lemma SlotKept(m: Machine, m': Machine, k: Key)
    requires k in m.cases && SlotOk(m, k) && m'.cases == m.cases && m'.overrides == m.overrides && m'.audit == m.audit
    ensures SlotOk(m', k)
  {
    hide CaseOk, OverrideOk, NoResets, Events, Derived;
    assert HasOverride(m, k) <==> HasOverride(m', k);
  }

  lemma NotifyKeepsOk(c: OpsCrypto, m: Machine, key: Key, v: Case, template: Template, now: Time)
    requires MachineOk(c, m) && key in m.cases && key == (v.tenantId, v.caseId) && SyntheticRef(v.subjectRef)
    ensures MachineOk(c, Notify(m, v, template, now))
  {
    hide MachineOk, SyntheticRef;
    IntentKeepsOk(c, m, Intent(v.tenantId, v.caseId, template, v.subjectRef, now));
  }

  // ---------- opening ----------

  lemma OpenKeepsOk(c: OpsCrypto, m: Machine, r: Request, now: Time, drawnId: Id)
    requires MachineOk(c, m) && r.OpenCase? && IdOk(r.tenantId)
    ensures MachineOk(c, OpenWork(c, m, r, now, drawnId).0)
  {
    hide MachineOk, OverridesOk, ChainOk, IdOk, ReasonOk, SyntheticRef, ActorError, NoResets, CaseOk, Record, EventOf;
    var (m', reply) := OpenWork(c, m, r, now, drawnId);
    if reply.CaseReply? {
      var v := reply.theCase;
      var key := (v.tenantId, v.caseId);
      var recorded := Record(c, m, key, v, CaseMoved(Opened), r.actor.actorId, r.actor.role, r.reason, now);
      OpenedKeepsOk(c, m, v, r.actor.actorId, r.actor.role, now);
      RecordCases(c, m, key, v, CaseMoved(Opened), r.actor.actorId, r.actor.role, r.reason, now);
      NotifyKeepsOk(c, recorded, key, v, CaseOpened, now);
    }
  }

  lemma RecordCases(
    c: OpsCrypto, m: Machine, key: Key, v: Case, kind: EventKind, actorId: Id, role: Role, reason: Text, now: Time)
    ensures Record(c, m, key, v, kind, actorId, role, reason, now).cases == m.cases[key := v]
    ensures Record(c, m, key, v, kind, actorId, role, reason, now).overrides == m.overrides
    ensures Record(c, m, key, v, kind, actorId, role, reason, now).intents == m.intents
    ensures Record(c, m, key, v, kind, actorId, role, reason, now).idempotency == m.idempotency
  {
  }

  lemma UnknownCase(c: OpsCrypto, m: Machine, key: Key)
    requires MachineOk(c, m) && key !in m.cases
    ensures Events(m.audit, key) == [] && !HasOverride(m, key) && OverridesOk(m) && ChainOk(c, m.audit)
  {
    hide SlotOk, ChainOk;
  }

  lemma OpenedKeepsOk(c: OpsCrypto, m: Machine, v: Case, actorId: Id, role: Role, now: Time)
    requires MachineOk(c, m) && (v.tenantId, v.caseId) !in m.cases && v.state == Opened
    requires IdOk(v.tenantId) && IdOk(v.caseId) && SyntheticRef(v.subjectRef)
    ensures MachineOk(c, Record(c, m, (v.tenantId, v.caseId), v, CaseMoved(Opened), actorId, role, v.reason, now))
  {
    hide MachineOk, OverridesOk, ChainOk, IdOk, SyntheticRef, Events, EventOf;
    var key := (v.tenantId, v.caseId);
    var m' := Record(c, m, key, v, CaseMoved(Opened), actorId, role, v.reason, now);
    UnknownCase(c, m, key);
    RecordEvents(c, m, key, v, CaseMoved(Opened), actorId, role, v.reason, now);
    EventFields(c, m.audit, v, CaseMoved(Opened), actorId, role, v.reason, now);
    var e := EventOf(c, m.audit, v, CaseMoved(Opened), actorId, role, v.reason, now);
    assert Events(m'.audit, key) == [e];
    assert OfKind([e], CaseMoved(Opened)) == [e];
    PlainEventKeepsNoResets([], e);
    assert [] + [e] == [e];
    assert Derived([e]) == Opened;
    hide OfKind, NoResets, Derived;
    assert !HasOverride(m', key);
    SameOverridesOk(m, m', key);
    MovedMachineOk(c, m, m', key);
  }

  // ---------- moving to another state, or past the lifetime ----------

  /** A case that is neither finished nor pending has no override. */
  lemma NoOverrideYet(c: OpsCrypto, m: Machine, key: Key)
    requires MachineOk(c, m) && key in m.cases && m.cases[key].state !in {TrustResetPending, Resolved, Expired}
    ensures !HasOverride(m, key)
  {
    hide MachineOk, CaseOk, OverrideAgrees, OverridesOk, NoResets, Events, Derived, ChainOk;
    SlotAt(c, m, key);
  }

  lemma ActiveCaseKeepsOk(c: OpsCrypto, m: Machine, key: Key, now: Time)
    requires MachineOk(c, m)
    ensures var (m1, failure) := ActiveCase(c, m, key, now);
            && MachineOk(c, m1)
            && (failure.None? ==> m1 == m && key in m.cases && !Terminal(m.cases[key].state))
  {
    hide MachineOk, Record;
    if ActiveCase(c, m, key, now).1 == Some(CaseExpired) {
      CaseMoveKeepsOk(c, m, key, Expired, "system", System, "case lifetime expired", now);
    }
  }

  lemma CaseFacts(c: OpsCrypto, m: Machine, key: Key)
    requires MachineOk(c, m) && key in m.cases
    ensures key == (m.cases[key].tenantId, m.cases[key].caseId) && SyntheticRef(m.cases[key].subjectRef)
  {
    hide MachineOk, OverridesOk, ChainOk, SyntheticRef, SlotOk, Events, OfKind;
    SlotAt(c, m, key);
  }

  lemma TransitionKeepsOk(
    c: OpsCrypto, m: Machine, tenantId: Id, caseId: Id, nextState: CaseState, reason: Text, actor: Actor, now: Time)
    requires MachineOk(c, m)
    ensures MachineOk(c, TransitionWork(c, m, tenantId, caseId, nextState, reason, actor, now).0)
  {
    hide MachineOk, ActorError, ReasonOk, SyntheticRef, Record, Notify, ActiveCase;
    var key := (tenantId, caseId);
    ActiveCaseKeepsOk(c, m, key, now);
    var (m', reply) := TransitionWork(c, m, tenantId, caseId, nextState, reason, actor, now);
    if ActiveCase(c, m, key, now).1.None? && reply.CaseReply? {
      var v := m.cases[key];
      var v' := v.(state := nextState, updatedAt := now);
      NextStatesFacts(v.caseType, v.state, nextState);
      NoOverrideYet(c, m, key);
      CaseMoveKeepsOk(c, m, key, nextState, actor.actorId, actor.role, reason, now);
      RecordCases(c, m, key, v', CaseMoved(nextState), actor.actorId, actor.role, reason, now);
      CaseFacts(c, m, key);
      NotifyKeepsOk(c, Record(c, m, key, v', CaseMoved(nextState), actor.actorId, actor.role, reason, now), key, v',
                    CaseStateChanged, now);
    }
  }

  /** The table never leads back to opened, and out of a pending reset only to resolved. */
  lemma NextStatesFacts(t: CaseType, s: CaseState, to: CaseState)
    requires to in NextStates(t, s)
    ensures to != Opened && !Terminal(s) && (s == TrustResetPending ==> to == Resolved)
  {
  }

  // ---------- requesting a trust reset ----------

  /** An event of another kind leaves the events of one kind alone. */
  lemma ResetEventParts(events: seq<AuditEvent>, e: AuditEvent)
    ensures OfKind(events + [e], ResetRequested) == OfKind(events, ResetRequested) + (if e.body.kind == ResetRequested then [e] else [])
    ensures OfKind(events + [e], ResetApproved) == OfKind(events, ResetApproved) + (if e.body.kind == ResetApproved then [e] else [])
    ensures OfKind(events + [e], ResetExecuted) == OfKind(events, ResetExecuted) + (if e.body.kind == ResetExecuted then [e] else [])
    ensures OfKind(events + [e], ResetExpired) == OfKind(events, ResetExpired) + (if e.body.kind == ResetExpired then [e] else [])
  {
    hide OfKind;
    OfKindSnoc(events, e, ResetRequested);
    OfKindSnoc(events, e, ResetApproved);
    OfKindSnoc(events, e, ResetExecuted);
    OfKindSnoc(events, e, ResetExpired);
  }

  lemma RequestedAgrees(o: Override, events: seq<AuditEvent>, e: AuditEvent)
    requires NoResets(events) && e.body.kind == ResetRequested
    requires o.state == Pending && o.approvals == [] && o.executedAt.None?
    requires o.requestedBy == e.body.actorId && o.reason == e.body.reason && o.requestedAt == e.body.occurredAt
    ensures OverrideAgrees(o, events + [e])
  {
    hide OfKind;
    ResetEventParts(events, e);
  }

  lemma RequestedKeepsOk(c: OpsCrypto, m: Machine, okey: Key, o: Override, key: Key, role: Role, now: Time)
    requires MachineOk(c, m) && key in m.cases && !HasOverride(m, key) && okey !in m.overrides
    requires okey == (o.tenantId, o.overrideId) && key == (o.tenantId, o.caseId) && ReasonOk(o.reason)
    requires o.state == Pending && o.approvals == [] && o.executedAt.None? && o.requestedAt == now
    ensures var v := m.cases[key].(state := TrustResetPending, updatedAt := now);
            MachineOk(c, Record(c, m.(overrides := m.overrides[okey := o]), key, v, ResetRequested, o.requestedBy, role, o.reason, now))
  {
    hide MachineOk, CaseOk, OverrideAgrees, OverridesOk, NoResets, Events, Derived, ChainOk, IdOk, ReasonOk, EventOf;
    SlotAt(c, m, key);
    var v := m.cases[key].(state := TrustResetPending, updatedAt := now);
    var stored := m.(overrides := m.overrides[okey := o]);
    var m' := Record(c, stored, key, v, ResetRequested, o.requestedBy, role, o.reason, now);
    var e := EventOf(c, m.audit, v, ResetRequested, o.requestedBy, role, o.reason, now);
    var events := Events(m.audit, key);
    CaseKeyIs(key, m.cases[key], events);
    RecordEvents(c, stored, key, v, ResetRequested, o.requestedBy, role, o.reason, now);
    EventFields(c, m.audit, v, ResetRequested, o.requestedBy, role, o.reason, now);
    EventKeepsCase(key, m.cases[key], v, events, e);
    DerivedSnoc(events, e);
    RequestedAgrees(o, events, e);
    assert HasOverride(m', key) by { assert okey in m'.overrides; }
    NewOverrideOk(m, m', okey, o, key);
    assert SlotOk(m', key);
    MovedMachineOk(c, m, m', key);
  }

  lemma NewOverrideOk(m: Machine, m': Machine, okey: Key, o: Override, key: Key)
    requires OverridesOk(m) && key in m.cases && !HasOverride(m, key) && CaseKeyOf(okey, o) == key
    requires m'.overrides == m.overrides[okey := o] && m.cases.Keys <= m'.cases.Keys && okey !in m.overrides
    ensures OverridesOk(m')
    ensures forall x <- m'.overrides :: CaseKeyOf(x, m'.overrides[x]) == key ==> x == okey
  {
  }

  /** The branch that strands a case: its state changes with neither override nor event. */
  lemma StrandedKeepsOk(c: OpsCrypto, m: Machine, key: Key, now: Time)
    requires MachineOk(c, m) && key in m.cases && !HasOverride(m, key)
    ensures MachineOk(c, m.(cases := m.cases[key := m.cases[key].(state := TrustResetPending, updatedAt := now)]))
  {
    hide MachineOk, OverrideAgrees, OverridesOk, NoResets, Events, Derived, ChainOk, IdOk, SyntheticRef, OfKind;
    SlotAt(c, m, key);
    var m' := m.(cases := m.cases[key := m.cases[key].(state := TrustResetPending, updatedAt := now)]);
    assert !HasOverride(m', key);
    SameOverridesOk(m, m', key);
    StrandedIntents(c, m, m');
    MovedMachineOk(c, m, m', key);
  }

  lemma StrandedIntents(c: OpsCrypto, m: Machine, m': Machine)
    requires m'.intents == m.intents
    ensures forall i <- m'.intents :: i in m.intents
  {
  }

  lemma RequestKeepsOk(c: OpsCrypto, m: Machine, r: Request, now: Time, drawnId: Id)
    requires MachineOk(c, m) && r.RequestTrustReset?
    ensures MachineOk(c, RequestWork(c, m, r, now, drawnId).0)
  {
    hide MachineOk, ActorError, ReasonOk, SyntheticRef, Record, Notify, ActiveCase, IdOk;
    var key := (r.tenantId, r.caseId);
    ActiveCaseKeepsOk(c, m, key, now);
    var (m', reply) := RequestWork(c, m, r, now, drawnId);
    if ActiveCase(c, m, key, now).1.None? && Eligible(m.cases[key]) {
      NoOverrideYet(c, m, key);
      CaseFacts(c, m, key);
      StrandedKeepsOk(c, m, key, now);
      if reply.OverrideReply? {
        var o := reply.theOverride;
        var okey := (o.tenantId, o.overrideId);
        var stored := m.(overrides := m.overrides[okey := o]);
        var v := m.cases[key].(state := TrustResetPending, updatedAt := now);
        RequestedKeepsOk(c, m, okey, o, key, r.actor.role, now);
        RecordCases(c, stored, key, v, ResetRequested, o.requestedBy, r.actor.role, o.reason, now);
        NotifyKeepsOk(c, Record(c, stored, key, v, ResetRequested, o.requestedBy, r.actor.role, o.reason, now), key, v,
                      ApprovalRequested, now);
      }
    }
  }

  // ---------- approving ----------

  lemma OverrideFacts(c: OpsCrypto, m: Machine, okey: Key)
    requires MachineOk(c, m) && okey in m.overrides
    ensures var o := m.overrides[okey];
            var key := CaseKeyOf(okey, o);
            && key in m.cases && OverrideOk(okey, o, m.cases[key], Events(m.audit, key)) && OverridesOk(m)
            && HasOverride(m, key)
            && (forall x <- m.overrides :: CaseKeyOf(x, m.overrides[x]) == key ==> x == okey)
  {
    hide CaseOk, OverrideOk, NoResets, Events, Derived, ChainOk, CacheOk, IntentOk;
    var key := CaseKeyOf(okey, m.overrides[okey]);
    assert key in m.cases && SlotOk(m, key);
  }

  /** The override of a case is rewritten together with one event about the case. */
  lemma OverrideMoveKeepsOk(
    c: OpsCrypto, m: Machine, okey: Key, o': Override, v': Case, kind: EventKind, actorId: Id, role: Role, reason: Text, now: Time)
    requires MachineOk(c, m) && okey in m.overrides && o'.caseId == m.overrides[okey].caseId
    requires kind in {ResetApproved, ResetExecuted, ResetExpired}
    requires var key := CaseKeyOf(okey, o');
             && key in m.cases && v' == m.cases[key].(state := v'.state, updatedAt := v'.updatedAt)
             && v'.state == (if kind == ResetExecuted then Resolved else m.cases[key].state)
             && Derived(Events(m.audit, key)) == m.cases[key].state
             && OverrideOk(okey, o', v', Events(m.audit, key) + [EventOf(c, m.audit, v', kind, actorId, role, reason, now)])
    ensures MachineOk(c, Record(c, m.(overrides := m.overrides[okey := o']), CaseKeyOf(okey, o'), v', kind, actorId, role, reason, now))
  {
    hide MachineOk, CaseOk, OverrideOk, OverridesOk, NoResets, Events, Derived, ChainOk, IdOk, ReasonOk, EventOf;
    var key := CaseKeyOf(okey, o');
    SlotAt(c, m, key);
    OverrideFacts(c, m, okey);
    var stored := m.(overrides := m.overrides[okey := o']);
    var m' := Record(c, stored, key, v', kind, actorId, role, reason, now);
    var e := EventOf(c, m.audit, v', kind, actorId, role, reason, now);
    var events := Events(m.audit, key);
    CaseKeyIs(key, m.cases[key], events);
    RecordEvents(c, stored, key, v', kind, actorId, role, reason, now);
    EventFields(c, m.audit, v', kind, actorId, role, reason, now);
    EventKeepsCase(key, m.cases[key], v', events, e);
    DerivedSnoc(events, e);
    assert HasOverride(m', key) by { assert okey in m'.overrides; }
    RewrittenOverrides(m, m', okey, o', key);
    assert SlotOk(m', key);
    MovedMachineOk(c, m, m', key);
  }

  lemma RewrittenOverrides(m: Machine, m': Machine, okey: Key, o': Override, key: Key)
    requires OverridesOk(m) && okey in m.overrides && o'.caseId == m.overrides[okey].caseId && key == CaseKeyOf(okey, o')
    requires m'.overrides == m.overrides[okey := o'] && m.cases.Keys <= m'.cases.Keys
    ensures OverridesOk(m')
    ensures forall x <- m'.overrides :: CaseKeyOf(x, m'.overrides[x]) == key ==> x == okey
  {
  }

  lemma LapsedOk(okey: Key, o: Override, v: Case, events: seq<AuditEvent>, e: AuditEvent)
    requires OverrideOk(okey, o, v, events) && o.state == Pending && e.body.kind == ResetExpired
    ensures OverrideOk(okey, o.(state := Lapsed), v, events + [e])
  {
    hide OfKind, ReasonOk;
    ResetEventParts(events, e);
  }

  lemma ApprovedOk(okey: Key, o: Override, v: Case, events: seq<AuditEvent>, e: AuditEvent, a: Approval)
    requires OverrideAgrees(o, events) && o.state == Pending && e.body.kind == ResetApproved
    requires IsApprover(a.role) && !ApprovedBy(o, a.actorId) && |o.approvals| < 2
    requires a == Approval(e.body.actorId, e.body.actorRole, e.body.occurredAt)
    ensures OverrideAgrees(o.(approvals := o.approvals + [a]), events + [e])
  {
    hide OfKind;
    ResetEventParts(events, e);
    var approved, approved' := OfKind(events, ResetApproved), OfKind(events + [e], ResetApproved);
    forall x | x in o.approvals + [a] ensures Witnessed(x, approved') {
      if x in o.approvals {
        var w :| w in approved && w.body.actorId == x.actorId && w.body.actorRole == x.role && w.body.occurredAt == x.approvedAt;
        assert w in approved';
      } else {
        assert e in approved';
      }
    }
  }

  lemma ExecutedAgrees(o: Override, events: seq<AuditEvent>, e: AuditEvent)
    requires OverrideAgrees(o, events) && o.state == Pending && e.body.kind == ResetExecuted
    ensures OverrideAgrees(o.(state := Executed, executedAt := Some(e.body.occurredAt)), events + [e])
  {
    hide OfKind;
    ResetEventParts(events, e);
  }

  /** The case an approval works on: not stranded, so its events lead to its state. */
  lemma ApprovableCase(c: OpsCrypto, m: Machine, okey: Key)
    requires MachineOk(c, m) && okey in m.overrides
    ensures var key := CaseKeyOf(okey, m.overrides[okey]);
            && key in m.cases && key == (m.cases[key].tenantId, m.cases[key].caseId)
            && Derived(Events(m.audit, key)) == m.cases[key].state
            && OverrideOk(okey, m.overrides[okey], m.cases[key], Events(m.audit, key))
  {
    hide MachineOk, CaseOk, OverrideOk, NoResets, Events, Derived, ChainOk, OverridesOk;
    OverrideFacts(c, m, okey);
    var key := CaseKeyOf(okey, m.overrides[okey]);
    SlotAt(c, m, key);
    CaseKeyIs(key, m.cases[key], Events(m.audit, key));
  }

  lemma LapseKeepsOk(c: OpsCrypto, m: Machine, okey: Key, now: Time)
    requires MachineOk(c, m) && okey in m.overrides && m.overrides[okey].state == Pending
    ensures var o := m.overrides[okey];
            var key := CaseKeyOf(okey, o);
            && key in m.cases
            && MachineOk(c, Record(c, m.(overrides := m.overrides[okey := o.(state := Lapsed)]), key, m.cases[key], ResetExpired,
                                   "system", System, "approval window expired", now))
  {
    hide MachineOk, OverrideOk, Events, Derived, EventOf, Record;
    var o := m.overrides[okey];
    ApprovableCase(c, m, okey);
    var v := m.cases[CaseKeyOf(okey, o)];
    EventFields(c, m.audit, v, ResetExpired, "system", System, "approval window expired", now);
    LapsedOk(okey, o, v, Events(m.audit, CaseKeyOf(okey, o)),
             EventOf(c, m.audit, v, ResetExpired, "system", System, "approval window expired", now));
    OverrideMoveKeepsOk(c, m, okey, o.(state := Lapsed), v, ResetExpired, "system", System, "approval window expired", now);
  }

  function WithApproval(o: Override, actor: Actor, now: Time): Override {
    o.(approvals := o.approvals + [Approval(actor.actorId, actor.role, now)])
  }

  /** The machine with one more approval recorded. */
  function ApprovedMachine(c: OpsCrypto, m: Machine, okey: Key, actor: Actor, reason: Text, now: Time): Machine
    requires okey in m.overrides && CaseKeyOf(okey, m.overrides[okey]) in m.cases
  {
    var o := m.overrides[okey];
    var key := CaseKeyOf(okey, o);
    Record(c, m.(overrides := m.overrides[okey := WithApproval(o, actor, now)]), key, m.cases[key], ResetApproved,
           actor.actorId, actor.role, reason, now)
  }

  lemma ApprovalKeepsOk(c: OpsCrypto, m: Machine, okey: Key, actor: Actor, reason: Text, now: Time)
    requires MachineOk(c, m) && okey in m.overrides && IsApprover(actor.role)
    requires var o := m.overrides[okey]; o.state == Pending && !ApprovedBy(o, actor.actorId) && |o.approvals| < 2
    ensures CaseKeyOf(okey, m.overrides[okey]) in m.cases
    ensures MachineOk(c, ApprovedMachine(c, m, okey, actor, reason, now))
  {
    hide MachineOk, Events, Derived, EventOf, Record, OverrideAgrees, ApprovedBy;
    var o := m.overrides[okey];
    ApprovableCase(c, m, okey);
    var v := m.cases[CaseKeyOf(okey, o)];
    EventFields(c, m.audit, v, ResetApproved, actor.actorId, actor.role, reason, now);
    ApprovedOk(okey, o, v, Events(m.audit, CaseKeyOf(okey, o)),
               EventOf(c, m.audit, v, ResetApproved, actor.actorId, actor.role, reason, now), Approval(actor.actorId, actor.role, now));
    OverrideMoveKeepsOk(c, m, okey, WithApproval(o, actor, now), v, ResetApproved, actor.actorId, actor.role, reason, now);
  }

  lemma ApprovedMachineFacts(c: OpsCrypto, m: Machine, okey: Key, actor: Actor, reason: Text, now: Time)
    requires okey in m.overrides && CaseKeyOf(okey, m.overrides[okey]) in m.cases
    ensures var a, o := ApprovedMachine(c, m, okey, actor, reason, now), m.overrides[okey];
            && a.cases == m.cases && a.overrides == m.overrides[okey := WithApproval(o, actor, now)]
  {
  }

  lemma ExecutionKeepsOk(c: OpsCrypto, m: Machine, okey: Key, now: Time)
    requires MachineOk(c, m) && okey in m.overrides
    requires m.overrides[okey].state == Pending && |m.overrides[okey].approvals| == 2
    ensures var o := m.overrides[okey];
            var key := CaseKeyOf(okey, o);
            && key in m.cases
            && var v := m.cases[key].(state := Resolved, updatedAt := now);
               MachineOk(c, Record(c, m.(overrides := m.overrides[okey := o.(state := Executed, executedAt := Some(now))]), key, v,
                                   ResetExecuted, "system", System, o.reason, now))
  {
    hide MachineOk, Events, Derived, EventOf, Record, OverrideAgrees;
    var o := m.overrides[okey];
    ApprovableCase(c, m, okey);
    var v := m.cases[CaseKeyOf(okey, o)].(state := Resolved, updatedAt := now);
    EventFields(c, m.audit, v, ResetExecuted, "system", System, o.reason, now);
    ExecutedAgrees(o, Events(m.audit, CaseKeyOf(okey, o)), EventOf(c, m.audit, v, ResetExecuted, "system", System, o.reason, now));
    OverrideMoveKeepsOk(c, m, okey, o.(state := Executed, executedAt := Some(now)), v, ResetExecuted, "system", System, o.reason, now);
  }

  lemma ApproveKeepsOk(c: OpsCrypto, m: Machine, r: Request, now: Time)
    requires MachineOk(c, m) && Decided(m) && r.ApproveTrustReset?
    ensures MachineOk(c, ApproveWork(c, m, r, now).0)
  {
    hide MachineOk, ActorError, ReasonOk, SyntheticRef, Record, Notify, ActiveCase, IdOk, ApprovedBy;
    var okey := (r.tenantId, r.overrideId);
    if okey in m.overrides {
      var o := m.overrides[okey];
      var key := CaseKeyOf(okey, o);
      ActiveCaseKeepsOk(c, m, key, now);
      if ActiveCase(c, m, key, now).1.None? && o.state == Pending {
        LapseKeepsOk(c, m, okey, now);
        if !ApprovedBy(o, r.actor.actorId) && IsApprover(r.actor.role) {
          ApprovalKeepsOk(c, m, okey, r.actor, r.reason, now);
          ApprovedMachineFacts(c, m, okey, r.actor, r.reason, now);
          var approved := ApprovedMachine(c, m, okey, r.actor, r.reason, now);
          if |o.approvals| == 1 {
            ExecutedKeepsOk(c, approved, okey, key, now);
          }
        }
      }
    }
  }

  lemma ExecutedKeepsOk(c: OpsCrypto, m: Machine, okey: Key, key: Key, now: Time)
    requires MachineOk(c, m) && okey in m.overrides && key == CaseKeyOf(okey, m.overrides[okey])
    requires m.overrides[okey].state == Pending && |m.overrides[okey].approvals| == 2
    ensures key in m.cases
    ensures var o := m.overrides[okey];
            var v := m.cases[key].(state := Resolved, updatedAt := now);
            MachineOk(c, Notify(Record(c, m.(overrides := m.overrides[okey := o.(state := Executed, executedAt := Some(now))]), key, v,
                                       ResetExecuted, "system", System, o.reason, now), v, TrustResetCompleted, now))
  {
    hide MachineOk, SyntheticRef, Record, Notify;
    var o := m.overrides[okey];
    ExecutionKeepsOk(c, m, okey, now);
    CaseFacts(c, m, key);
    var v := m.cases[key].(state := Resolved, updatedAt := now);
    var stored := m.(overrides := m.overrides[okey := o.(state := Executed, executedAt := Some(now))]);
    RecordCases(c, stored, key, v, ResetExecuted, "system", System, o.reason, now);
    NotifyKeepsOk(c, Record(c, stored, key, v, ResetExecuted, "system", System, o.reason, now), key, v, TrustResetCompleted, now);
  }

  // ---------- every call ----------

  lemma WorkKeepsOk(c: OpsCrypto, m: Machine, r: Request, now: Time, drawnId: Id)
    requires MachineOk(c, m) && Decided(m) && IdOk(r.tenantId)
    ensures MachineOk(c, Work(c, m, r, now, drawnId).0)
  {
    hide MachineOk, Decided, IdOk, OpenWork, TransitionWork, RequestWork, ApproveWork;
    match r
    case OpenCase(_, _, _, _, _, _, _, _, _) => OpenKeepsOk(c, m, r, now, drawnId);
    case Transition(tenantId, caseId, next, reason, actor) => TransitionKeepsOk(c, m, tenantId, caseId, next, reason, actor, now);
    case VerifyRecoveryProof(tenantId, caseId, proof, reason, actor) =>
      TransitionKeepsOk(c, m, tenantId, caseId, ProofVerified, reason + " [proof:" + ProofText(proof) + "]", actor, now);
    case RequestTrustReset(_, _, _, _, _, _) => RequestKeepsOk(c, m, r, now, drawnId);
    case ApproveTrustReset(_, _, _, _) => ApproveKeepsOk(c, m, r, now);
  }

  lemma ActiveCaseOverrides(c: OpsCrypto, m: Machine, key: Key, now: Time)
    ensures ActiveCase(c, m, key, now).0.overrides == m.overrides
    ensures ActiveCase(c, m, key, now).0.idempotency == m.idempotency
  {
    hide EventOf;
  }

  lemma TransitionOverrides(
    c: OpsCrypto, m: Machine, tenantId: Id, caseId: Id, nextState: CaseState, reason: Text, actor: Actor, now: Time)
    ensures var m' := TransitionWork(c, m, tenantId, caseId, nextState, reason, actor, now).0;
            m'.overrides == m.overrides && m'.idempotency == m.idempotency
  {
    hide ActorError, ReasonOk, ActiveCase, EventOf, NextStates, MayMoveTo;
    ActiveCaseOverrides(c, m, (tenantId, caseId), now);
  }

  lemma RequestOverrides(c: OpsCrypto, m: Machine, r: Request, now: Time, drawnId: Id)
    requires r.RequestTrustReset? && Decided(m)
    ensures Decided(RequestWork(c, m, r, now, drawnId).0) && RequestWork(c, m, r, now, drawnId).0.idempotency == m.idempotency
  {
    hide ActorError, ReasonOk, ActiveCase, IdOk, EventOf;
    ActiveCaseOverrides(c, m, (r.tenantId, r.caseId), now);
  }

  lemma ApproveOverrides(c: OpsCrypto, m: Machine, r: Request, now: Time)
    requires r.ApproveTrustReset? && Decided(m)
    ensures Decided(ApproveWork(c, m, r, now).0) && ApproveWork(c, m, r, now).0.idempotency == m.idempotency
  {
    hide ActorError, ReasonOk, ActiveCase, IdOk, EventOf, ApprovedBy;
    if (r.tenantId, r.overrideId) in m.overrides {
      ActiveCaseOverrides(c, m, (r.tenantId, m.overrides[(r.tenantId, r.overrideId)].caseId), now);
    }
  }

  lemma WorkKeepsDecided(c: OpsCrypto, m: Machine, r: Request, now: Time, drawnId: Id)
    requires Decided(m)
    ensures Decided(Work(c, m, r, now, drawnId).0)
    ensures Work(c, m, r, now, drawnId).0.idempotency == m.idempotency
  {
    hide OpenError, IdOk, EventOf, TransitionWork, RequestWork, ApproveWork, DateOk;
    match r
    case OpenCase(_, _, _, _, _, _, _, _, _) =>
    case Transition(tenantId, caseId, next, reason, actor) =>
      TransitionOverrides(c, m, tenantId, caseId, next, reason, actor, now);
    case VerifyRecoveryProof(tenantId, caseId, proof, reason, actor) =>
      TransitionOverrides(c, m, tenantId, caseId, ProofVerified, reason + " [proof:" + ProofText(proof) + "]", actor, now);
    case RequestTrustReset(_, _, _, _, _, _) => RequestOverrides(c, m, r, now, drawnId);
    case ApproveTrustReset(_, _, _, _) => ApproveOverrides(c, m, r, now);
  }

  lemma CacheKeepsOk(c: OpsCrypto, m: Machine, key: Key, x: Cached)
    requires MachineOk(c, m) && CacheOk(key, x)
    ensures MachineOk(c, m.(idempotency := m.idempotency[key := x]))
  {
    hide CaseOk, OverrideOk, NoResets, Events, Derived, ChainOk, CacheOk, SyntheticRef;
    var m' := m.(idempotency := m.idempotency[key := x]);
    forall k | k in m'.cases ensures SlotOk(m', k) { SlotKept(m, m', k); }
    forall i | i in m'.intents ensures IntentOk(m', i) { assert IntentOk(m, i); }
  }

  /** Every call keeps the relation, throwing calls and replays included. */
  lemma StepKeepsOk(c: OpsCrypto, m: Machine, call: Call)
    requires HashShaped(c) && MachineOk(c, m) && Decided(m)
    ensures MachineOk(c, Step(c, m, call).0) && Decided(Step(c, m, call).0)
  {
    hide MachineOk, Work, IdOk, HexHash;
    if Precheck(m, call).None? {
      var r := call.request;
      var key := (r.tenantId, call.idempotencyKey);
      if key !in m.idempotency {
        WorkKeepsOk(c, m, r, call.now, call.drawnId);
        WorkKeepsDecided(c, m, r, call.now, call.drawnId);
        CacheKeepsOk(c, Work(c, m, r, call.now, call.drawnId).0, key,
                     Cached(c.requestHash(r, call.idempotencyKey, call.now), Work(c, m, r, call.now, call.drawnId).1));
      }
    }
  }

  lemma {:induction false} RunKeepsOk(c: OpsCrypto, m: Machine, calls: seq<Call>)
    requires HashShaped(c) && MachineOk(c, m) && Decided(m)
    ensures MachineOk(c, After(c, m, calls)) && Decided(After(c, m, calls))
    decreases |calls|
  {
    hide MachineOk, Decided, HashShaped, Step;
    if calls != [] {
      RunKeepsOk(c, m, calls[..|calls| - 1]);
      StepKeepsOk(c, After(c, m, calls[..|calls| - 1]), calls[|calls| - 1]);
    }
  }

  lemma EmptyOk(c: OpsCrypto)
    ensures MachineOk(c, EmptyMachine) && Decided(EmptyMachine)
  {
  }
}
