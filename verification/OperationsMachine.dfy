/** The customer operations machine as the class of the package: maps and arrays updated in place, each
    method tied to the step of module Operations, restore with its loops. */
module OperationsMachine {
  import opened Common
  import opened Wrappers
  import opened Listings
  import opened Operations
  import opened OperationsInvariant
  import opened OperationsTheorems

  class CustomerOperationsStateMachine {
    const crypto: OpsCrypto
    var cases: map<Key, Case>
    var overrides: map<Key, Override>
    var audit: seq<AuditEvent>
    var intents: seq<Intent>
    var idempotency: map<Key, Cached>

    function Abs(): Machine
      reads this
    {
      Machine(cases, overrides, audit, intents, idempotency)
    }

    constructor (crypto: OpsCrypto, m: Machine)
      ensures this.crypto == crypto && Abs() == m
    {
      this.crypto := crypto;
      cases, overrides, audit, intents, idempotency := m.cases, m.overrides, m.audit, m.intents, m.idempotency;
    }

    // ---------- shared steps ----------

    method AppendAudit(v: Case, kind: EventKind, actorId: Id, role: Role, reason: Text, now: Time)
      modifies this`audit
      ensures audit == old(audit) + [EventOf(crypto, old(audit), v, kind, actorId, role, reason, now)]
    {
      var body := AuditBody(
        |audit| + 1, v.tenantId, v.caseId, kind, actorId, role, reason, v.correlationId, now,
        if |audit| > 0 then audit[|audit| - 1].hash else HASH_GENESIS);
      audit := audit + [AuditEvent(body, crypto.digest(body))];
    }

    method NotifyCase(v: Case, template: Template, now: Time)
      modifies this`intents
      ensures Abs() == Notify(old(Abs()), v, template, now)
    {
      intents := intents + [Intent(v.tenantId, v.caseId, template, v.subjectRef, now)];
    }

    method FindActive(key: Key, now: Time) returns (failure: Option<OpsError>)
      modifies this`cases, this`audit
      ensures (Abs(), failure) == ActiveCase(crypto, old(Abs()), key, now)
    {
      if key !in cases { return Some(CaseNotFound); }
      var v := cases[key];
      if Terminal(v.state) { return Some(CaseTerminal); }
      if now >= v.expiresAt {
        v := v.(state := Expired, updatedAt := now);
        cases := cases[key := v];
        AppendAudit(v, CaseMoved(Expired), "system", System, "case lifetime expired", now);
        return Some(CaseExpired);
      }
      return None;
    }

    /** The idempotency cache: a hit, or None when the work has to be done. */
    method Lookup(call: Call) returns (hit: Option<Reply>)
      ensures hit.Some? ==> Step(crypto, Abs(), call) == (Abs(), hit.value)
      ensures hit.None? ==>
                && Precheck(Abs(), call).None? && (call.request.tenantId, call.idempotencyKey) !in idempotency
    {
      hide IdOk, Work;
      var failure := Precheck(Abs(), call);
      if failure.Some? { return Some(Failed(failure.value)); }
      var key := (call.request.tenantId, call.idempotencyKey);
      if key !in idempotency { return None; }
      if idempotency[key].requestHash != crypto.requestHash(call.request, call.idempotencyKey, call.now) {
        return Some(Failed(KeyReused));
      }
      return Some(idempotency[key].reply);
    }

    method Remember(call: Call, reply: Reply)
      modifies this`idempotency
      ensures var key := (call.request.tenantId, call.idempotencyKey);
              Abs() == old(Abs()).(idempotency := old(idempotency)[
                         key := Cached(crypto.requestHash(call.request, call.idempotencyKey, call.now), reply)])
    {
      var key := (call.request.tenantId, call.idempotencyKey);
      idempotency := idempotency[key := Cached(crypto.requestHash(call.request, call.idempotencyKey, call.now), reply)];
    }

    // ---------- the operations ----------

    method OpenCase(call: Call) returns (reply: Reply)
      requires call.request.OpenCase?
      modifies this
      ensures (Abs(), reply) == Step(crypto, old(Abs()), call)
    {
      hide OpenWork, Precheck;
      var hit := Lookup(call);
      if hit.Some? { return hit.value; }
      reply := DoOpen(call.request, call.now, call.drawnId);
      SameCache(crypto, old(Abs()), call);
      Remember(call, reply);
    }

    method DoOpen(r: Request, now: Time, drawnId: Id) returns (reply: Reply)
      requires r.OpenCase?
      modifies this
      ensures (Abs(), reply) == OpenWork(crypto, old(Abs()), r, now, drawnId)
    {
      hide IdOk, SyntheticRef, ReasonOk;
      var failure := OpenError(r, now);
      if failure.Some? { return Failed(failure.value); }
      var caseId := Chosen(r.suppliedId, drawnId);
      if !IdOk(caseId) { return Failed(InvalidCaseId); }
      var key := (r.tenantId, caseId);
      if key in cases { return Failed(CaseExists); }
      if !DateOk(now + r.ttlMs) { return Failed(InvalidTime); }
      var v := Case(
        r.tenantId, caseId, r.caseType, Opened, r.subjectRef, r.subjectDeviceId, r.reason, r.correlationId, now,
        now + r.ttlMs, now);
      cases := cases[key := v];
      AppendAudit(v, CaseMoved(Opened), r.actor.actorId, r.actor.role, r.reason, now);
      NotifyCase(v, CaseOpened, now);
      return CaseReply(v);
    }

    method Transition(call: Call) returns (reply: Reply)
      requires call.request.Transition? || call.request.VerifyRecoveryProof?
      modifies this
      ensures (Abs(), reply) == Step(crypto, old(Abs()), call)
    {
      hide TransitionWork, Precheck;
      var hit := Lookup(call);
      if hit.Some? { return hit.value; }
      match call.request {
        case Transition(tenantId, caseId, nextState, reason, actor) =>
          reply := DoTransition(tenantId, caseId, nextState, reason, actor, call.now);
        case VerifyRecoveryProof(tenantId, caseId, proof, reason, actor) =>
          reply := DoTransition(tenantId, caseId, ProofVerified, reason + " [proof:" + ProofText(proof) + "]", actor, call.now);
      }
      SameCache(crypto, old(Abs()), call);
      Remember(call, reply);
    }

    method DoTransition(tenantId: Id, caseId: Id, nextState: CaseState, reason: Text, actor: Actor, now: Time)
      returns (reply: Reply)
      modifies this
      ensures (Abs(), reply) == TransitionWork(crypto, old(Abs()), tenantId, caseId, nextState, reason, actor, now)
    {
      hide ActiveCase, ReasonOk, ActorError, NextStates, MayMoveTo;
      var failure := ActorError(tenantId, actor);
      if failure.Some? { return Failed(failure.value); }
      if !ReasonOk(reason) { return Failed(InvalidReason); }
      var key := (tenantId, caseId);
      ActiveCaseFinds(crypto, Abs(), key, now);
      failure := FindActive(key, now);
      if failure.Some? { return Failed(failure.value); }
      var v := cases[key];
      if nextState == TrustResetPending || (nextState == Resolved && v.state == TrustResetPending) {
        return Failed(DualControlRequired);
      }
      if nextState !in NextStates(v.caseType, v.state) { return Failed(InvalidTransition); }
      if !MayMoveTo(actor.role, nextState) { return Failed(NotAuthorized); }
      v := v.(state := nextState, updatedAt := now);
      cases := cases[key := v];
      AppendAudit(v, CaseMoved(nextState), actor.actorId, actor.role, reason, now);
      NotifyCase(v, CaseStateChanged, now);
      return CaseReply(v);
    }

    method RequestTrustReset(call: Call) returns (reply: Reply)
      requires call.request.RequestTrustReset?
      modifies this
      ensures (Abs(), reply) == Step(crypto, old(Abs()), call)
    {
      hide RequestWork, Precheck;
      var hit := Lookup(call);
      if hit.Some? { return hit.value; }
      reply := DoRequest(call.request, call.now, call.drawnId);
      SameCache(crypto, old(Abs()), call);
      Remember(call, reply);
    }

    method DoRequest(r: Request, now: Time, drawnId: Id) returns (reply: Reply)
      requires r.RequestTrustReset?
      modifies this
      ensures (Abs(), reply) == RequestWork(crypto, old(Abs()), r, now, drawnId)
    {
      hide ActiveCase, ReasonOk, ActorError, IdOk;
      var failure := ActorError(r.tenantId, r.actor);
      if failure.Some? { return Failed(failure.value); }
      if !ReasonOk(r.reason) { return Failed(InvalidReason); }
      if !IsApprover(r.actor.role) { return Failed(NotAuthorized); }
      if !TtlOk(r.ttlMs, MAX_OVERRIDE_TTL_MS) { return Failed(InvalidTtl); }
      var key := (r.tenantId, r.caseId);
      ActiveCaseFinds(crypto, Abs(), key, now);
      failure := FindActive(key, now);
      if failure.Some? { return Failed(failure.value); }
      var v := cases[key];
      if !Eligible(v) { return Failed(NotEligible); }
      var overrideId := Chosen(r.suppliedId, drawnId);
      if !IdOk(overrideId) { return Failed(InvalidOverrideId); }
      var okey := (r.tenantId, overrideId);
      if okey in overrides { return Failed(OverrideExists); }
      v := v.(state := TrustResetPending, updatedAt := now);
      cases := cases[key := v];
      if !DateOk(now + r.ttlMs) { return Failed(InvalidTime); }
      var o := Override(r.tenantId, overrideId, v.caseId, Pending, r.reason, r.actor.actorId, now, now + r.ttlMs, [], None);
      overrides := overrides[okey := o];
      AppendAudit(v, ResetRequested, r.actor.actorId, r.actor.role, r.reason, now);
      NotifyCase(v, ApprovalRequested, now);
      return OverrideReply(o);
    }

    method ApproveTrustReset(call: Call) returns (reply: Reply)
      requires call.request.ApproveTrustReset?
      modifies this
      ensures (Abs(), reply) == Step(crypto, old(Abs()), call)
    {
      hide ApproveWork, Precheck;
      var hit := Lookup(call);
      if hit.Some? { return hit.value; }
      reply := DoApprove(call.request, call.now);
      SameCache(crypto, old(Abs()), call);
      Remember(call, reply);
    }

    method DoApprove(r: Request, now: Time) returns (reply: Reply)
      requires r.ApproveTrustReset?
      modifies this
      ensures (Abs(), reply) == ApproveWork(crypto, old(Abs()), r, now)
    {
      hide ActiveCase, ReasonOk, ActorError, IdOk, ApprovedBy;
      var failure := ActorError(r.tenantId, r.actor);
      if failure.Some? { return Failed(failure.value); }
      if !ReasonOk(r.reason) { return Failed(InvalidReason); }
      if !IsApprover(r.actor.role) { return Failed(NotAuthorized); }
      if !IdOk(r.overrideId) { return Failed(InvalidOverrideId); }
      var okey := (r.tenantId, r.overrideId);
      if okey !in overrides { return Failed(OverrideNotFound); }
      var o := overrides[okey];
      var key := (r.tenantId, o.caseId);
      ActiveCaseFinds(crypto, Abs(), key, now);
      failure := FindActive(key, now);
      if failure.Some? { return Failed(failure.value); }
      if o.state != Pending { return Failed(OverrideTerminal); }
      if now >= o.expiresAt {
        overrides := overrides[okey := o.(state := Lapsed)];
        assert cases[key := cases[key]] == cases;
        AppendAudit(cases[key], ResetExpired, "system", System, "approval window expired", now);
        return Failed(OverrideExpired);
      }
      if ApprovedBy(o, r.actor.actorId) { return Failed(DuplicateApprover); }
      if cases[key].subjectDeviceId != "" && r.actor.deviceId == cases[key].subjectDeviceId { return Failed(AffectedDevice); }
      reply := RecordApproval(okey, key, r.actor, r.reason, now);
    }

    method RecordApproval(okey: Key, key: Key, actor: Actor, reason: Text, now: Time) returns (reply: Reply)
      requires okey in overrides && key in cases
      modifies this
      ensures var m, o, v := old(Abs()), old(overrides)[okey], old(cases)[key];
              var o' := o.(approvals := o.approvals + [Approval(actor.actorId, actor.role, now)]);
              var approved := Record(crypto, m.(overrides := m.overrides[okey := o']), key, v, ResetApproved, actor.actorId, actor.role,
                                     reason, now);
              var o'', v' := o'.(state := Executed, executedAt := Some(now)), v.(state := Resolved, updatedAt := now);
              (Abs(), reply) == if |o'.approvals| != 2 then (approved, OverrideReply(o'))
                                else (Notify(Record(crypto, approved.(overrides := approved.overrides[okey := o'']), key, v', ResetExecuted,
                                                    "system", System, o.reason, now), v', TrustResetCompleted, now), OverrideReply(o''))
    {
      var o, v := overrides[okey], cases[key];
      o := o.(approvals := o.approvals + [Approval(actor.actorId, actor.role, now)]);
      overrides := overrides[okey := o];
      AppendAudit(v, ResetApproved, actor.actorId, actor.role, reason, now);
      assert cases[key := v] == cases;
      if |o.approvals| == 2 {
        o := o.(state := Executed, executedAt := Some(now));
        v := v.(state := Resolved, updatedAt := now);
        overrides := overrides[okey := o];
        cases := cases[key := v];
        AppendAudit(v, ResetExecuted, "system", System, o.reason, now);
        NotifyCase(v, TrustResetCompleted, now);
      }
      return OverrideReply(o);
    }

    /** The loop over the hash chain. */
    method VerifyAudit() returns (ok: bool)
      ensures ok <==> ChainOk(crypto, audit)
    {
      var previousHash := HASH_GENESIS;
      var i := 0;
      while i < |audit|
        invariant 0 <= i <= |audit|
        invariant previousHash == PreviousHash(audit[..i])
        invariant forall j :: 0 <= j < i ==> LinkOk(crypto, audit[..j], audit[j])
      {
        var event := audit[i];
        if event.body.sequence != i + 1 || event.body.previousHash != previousHash || crypto.digest(event.body) != event.hash {
          assert !LinkOk(crypto, audit[..i], audit[i]);
          return false;
        }
        previousHash := event.hash;
        i := i + 1;
      }
      return true;
    }

    method TakeSnapshot() returns (s: Snapshot)
      requires MachineOk(crypto, Abs())
      ensures SnapshotOf(Abs(), s)
    {
      hide MachineOk, Lists, Caches, DistinctKeys;
      KeysOk(crypto, Abs());
      var caseList := Values(cases, CaseKey);
      var overrideList := Values(overrides, OverrideKey);
      var entries := CacheEntries(idempotency);
      return Snapshot(1, caseList, overrideList, audit, intents, entries);
    }
  }

  lemma SameCache(c: OpsCrypto, m: Machine, call: Call)
    ensures Work(c, m, call.request, call.now, call.drawnId).0.idempotency == m.idempotency
  {
    hide Work;
    WorkKeepsCache(c, m, call.request, call.now, call.drawnId);
  }

  lemma ActiveCaseFinds(c: OpsCrypto, m: Machine, key: Key, now: Time)
    ensures ActiveCase(c, m, key, now).1.None? ==> key in m.cases && ActiveCase(c, m, key, now).0 == m
    ensures ActiveCase(c, m, key, now).0.overrides == m.overrides
  {
    hide EventOf;
  }

  lemma KeysOk(c: OpsCrypto, m: Machine)
    requires MachineOk(c, m)
    ensures forall key <- m.cases :: CaseKey(m.cases[key]) == key
    ensures forall okey <- m.overrides :: OverrideKey(m.overrides[okey]) == okey
  {
    hide MachineOk, RestorableCase, RestorableOverride;
    forall key | key in m.cases ensures CaseKey(m.cases[key]) == key { CaseRestorableIff(c, m, key); }
    forall okey | okey in m.overrides ensures OverrideKey(m.overrides[okey]) == okey { OverrideRestorable(c, m, okey); }
  }

  lemma CachesSnoc(xs: seq<CacheEntry>, e: CacheEntry)
    requires DistinctKeys(xs, CacheKey) && CacheKey(e) !in Caches(xs)
    ensures DistinctKeys(xs + [e], CacheKey) && Caches(xs + [e]) == Caches(xs)[CacheKey(e) := e.cached]
  {
    var all := xs + [e];
    assert all[..|xs|] == xs && all[..|xs| + 1] == all;
    IndexSnoc(all, |xs|, CacheKey);
    DistinctSnoc(all, |xs|, CacheKey);
  }

  method CacheEntries(cache: map<Key, Cached>) returns (xs: seq<CacheEntry>)
    ensures DistinctKeys(xs, CacheKey) && Caches(xs) == cache
  {
    xs := [];
    var rest := cache.Keys;
    while rest != {}
      invariant rest <= cache.Keys
      invariant DistinctKeys(xs, CacheKey) && Caches(xs) == cache - rest
      decreases rest
    {
      hide DistinctKeys, Caches, Index;
      var k :| k in rest;
      ghost var before := xs;
      xs, rest := xs + [CacheEntry(k.0, k.1, cache[k])], rest - {k};
      assert CacheKey(CacheEntry(k.0, k.1, cache[k])) == k && k !in Caches(before);
      CachesSnoc(before, CacheEntry(k.0, k.1, cache[k]));
      assert cache - rest == (cache - (rest + {k}))[k := cache[k]];
    }
  }

  // ---------- restore ----------

  method FilterCase(audit: seq<AuditEvent>, key: Key) returns (events: seq<AuditEvent>)
    ensures events == Events(audit, key)
  {
    events := [];
    for i := 0 to |audit|
      invariant events == Events(audit[..i], key)
    {
      assert audit[..i + 1][..i] == audit[..i];
      if EventKey(audit[i]) == key { events := events + [audit[i]]; }
    }
    assert audit[..|audit|] == audit;
  }

  method FilterKind(events: seq<AuditEvent>, kind: EventKind) returns (xs: seq<AuditEvent>)
    ensures xs == OfKind(events, kind)
  {
    xs := [];
    for i := 0 to |events|
      invariant xs == OfKind(events[..i], kind)
    {
      assert events[..i + 1][..i] == events[..i];
      if events[i].body.kind == kind { xs := xs + [events[i]]; }
    }
    assert events[..|events|] == events;
  }

  method Reduce(events: seq<AuditEvent>) returns (state: CaseState)
    ensures state == Derived(events)
  {
    state := Opened;
    for i := 0 to |events|
      invariant state == Derived(events[..i])
    {
      assert events[..i + 1][..i] == events[..i];
      var next := StateOf(events[i].body.kind);
      if next.Some? { state := next.value; }
    }
    assert events[..|events|] == events;
  }

  method ValidCase(audit: seq<AuditEvent>, v: Case) returns (ok: bool)
    ensures ok == RestorableCase(audit, v)
  {
    hide IdOk, SyntheticRef, Events, OfKind, Derived;
    if !IdOk(v.tenantId) || !IdOk(v.caseId) || !SyntheticRef(v.subjectRef) { return false; }
    var events := FilterCase(audit, (v.tenantId, v.caseId));
    var openings := FilterKind(events, CaseMoved(Opened));
    if |openings| == 0 || openings[0].body.reason != v.reason { return false; }
    if exists e :: e in events && e.body.correlationId != v.correlationId { return false; }
    var state := Reduce(events);
    return state == v.state;
  }

  method ValidOverride(cases: map<Key, Case>, audit: seq<AuditEvent>, o: Override) returns (ok: bool)
    ensures ok == RestorableOverride(cases, audit, o)
  {
    hide Events, OfKind;
    var events := FilterCase(audit, (o.tenantId, o.caseId));
    return (o.tenantId, o.caseId) in cases && OverrideAgrees(o, events);
  }

  method ValidateState(c: OpsCrypto, s: Snapshot, m: Machine) returns (ok: bool)
    requires m == Restored(s)
    ensures ok <==> && (forall v <- s.cases :: RestorableCase(s.audit, v))
                    && (forall o <- s.overrides :: RestorableOverride(m.cases, s.audit, o))
                    && DistinctKeys(s.overrides, CaseOfOverride)
                    && (forall i <- s.intents :: IntentOk(m, i))
  {
    hide RestorableCase, RestorableOverride, IntentOk, Restored, Index, DistinctKeys;
    for i := 0 to |s.cases|
      invariant forall v <- s.cases[..i] :: RestorableCase(s.audit, v)
    {
      var valid := ValidCase(s.audit, s.cases[i]);
      if !valid { return false; }
    }
    var seen: map<Key, Override> := map[];
    assert s.overrides[..0] == [];
    IndexNothing(CaseOfOverride);
    for i := 0 to |s.overrides|
      invariant forall o <- s.overrides[..i] :: RestorableOverride(m.cases, s.audit, o)
      invariant DistinctKeys(s.overrides[..i], CaseOfOverride) && seen == Index(s.overrides[..i], CaseOfOverride)
    {
      IndexSnoc(s.overrides, i, CaseOfOverride);
      DistinctSnoc(s.overrides, i, CaseOfOverride);
      DistinctPrefix(s.overrides, i + 1, CaseOfOverride);
      var o := s.overrides[i];
      if CaseOfOverride(o) in seen { return false; }
      var valid := ValidOverride(m.cases, s.audit, o);
      if !valid { return false; }
      seen := seen[CaseOfOverride(o) := o];
    }
    assert s.cases[..|s.cases|] == s.cases && s.overrides[..|s.overrides|] == s.overrides;
    return forall i :: i in s.intents ==> IntentOk(m, i);
  }

  method Restore(c: OpsCrypto, s: Snapshot) returns (r: Result<CustomerOperationsStateMachine, OpsError>)
    ensures r.Ok? <==> Restorable(c, s)
    ensures r.Ok? ==> fresh(r.value) && r.value.crypto == c && r.value.Abs() == Restored(s)
  {
    hide RestorableCase, RestorableOverride, IntentOk, Index, DistinctKeys, ChainOk, CacheOk;
    if s.schemaVersion != 1 { return Err(InvalidSnapshot); }
    var cases := RestoreUnique(s.cases, CaseKey, v => true);
    if cases.None? { return Err(InvalidSnapshot); }
    var overrides := RestoreUnique(s.overrides, OverrideKey, o => true);
    if overrides.None? { return Err(InvalidSnapshot); }
    var entries := RestoreUnique(s.idempotency, CacheKey, RestorableEntry);
    if entries.None? { return Err(InvalidSnapshot); }
    var cache := map k | k in entries.value :: entries.value[k].cached;
    var m := Machine(cases.value, overrides.value, s.audit, s.intents, cache);
    assert m == Restored(s);
    var machine := new CustomerOperationsStateMachine(c, m);
    var intact := machine.VerifyAudit();
    if !intact { return Err(InvalidSnapshot); }
    var valid := ValidateState(c, s, m);
    if !valid { return Err(InvalidSnapshot); }
    return Ok(machine);
  }
}
