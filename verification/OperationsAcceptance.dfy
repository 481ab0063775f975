/** Which snapshots of the operations machine `restore` accepts, whoever wrote them: each record against the
    events about its case, with the events read by position. */
module OperationsAcceptance {
  import opened Common
  import opened Wrappers
  import opened Listings
  import opened Operations
  import opened OperationsInvariant
  import opened OperationsTheorems

  type Trail = seq<AuditEvent>

  predicate Has(events: Trail, kind: EventKind) { exists e <- events :: e.body.kind == kind }

  /** The event at i is the first of its kind. */
  predicate FirstAt(events: Trail, i: nat, kind: EventKind) {
    i < |events| && events[i].body.kind == kind && forall j :: 0 <= j < i ==> events[j].body.kind != kind
  }

  /** The event at i is the only one of its kind. */
  predicate OnlyAt(events: Trail, i: nat, kind: EventKind) {
    FirstAt(events, i, kind) && forall j :: i < j < |events| ==> events[j].body.kind != kind
  }

  /** The event says the case is in this state from now on. */
  predicate Enters(e: AuditEvent, state: CaseState) {
    match e.body.kind
    case CaseMoved(to) => to == state && to != TrustResetPending
    case ResetRequested => state == TrustResetPending
    case ResetExecuted => state == Resolved
    case ResetApproved => false
    case ResetExpired => false
  }

  predicate EntersNone(e: AuditEvent) { e.body.kind in {CaseMoved(TrustResetPending), ResetApproved, ResetExpired} }

  /** The last event that enters a state enters this one, or none enters any and it is the first state. */
  ghost predicate EndsIn(events: Trail, state: CaseState) {
    || (state == Opened && forall e <- events :: EntersNone(e))
    || exists i: nat :: LastEnters(events, i, state)
  }

  predicate LastEnters(events: Trail, i: nat, state: CaseState) {
    i < |events| && Enters(events[i], state) && forall j :: i < j < |events| ==> EntersNone(events[j])
  }

  /** The case is open under the reason of its first opening, all its events carry its correlation id, and it is in
      the state they end in. */
  ghost predicate CaseAcceptable(v: Case, events: Trail) {
    && Identifier(v.tenantId, 128) && Identifier(v.caseId, 128) && SyntheticRef(v.subjectRef)
    && (exists i: nat :: FirstAt(events, i, CaseMoved(Opened)) && events[i].body.reason == v.reason)
    && (forall e <- events :: e.body.correlationId == v.correlationId)
    && EndsIn(events, v.state)
  }

  /** At most two approvals, by different actors of the three approving roles, one for each approval event and
      each witnessed by one. */
  ghost predicate ApprovalsAcceptable(o: Override, events: Trail) {
    && |o.approvals| <= 2 && (|o.approvals| == 2 ==> o.approvals[0].actorId != o.approvals[1].actorId)
    && (forall a <- o.approvals :: a.role in {SecurityOperator, Supervisor, RecoveryOfficer})
    && Times(events, ResetApproved) == |o.approvals|
    && forall a <- o.approvals ::
         exists e :: e in events && e.body.kind == ResetApproved
                     && e.body.actorId == a.actorId && e.body.actorRole == a.role && e.body.occurredAt == a.approvedAt
  }

  /** How many events are of this kind. */
  function Times(events: Trail, kind: EventKind): nat {
    if events == [] then 0
    else Times(events[..|events| - 1], kind) + if events[|events| - 1].body.kind == kind then 1 else 0
  }

  ghost predicate AskedAsSaid(o: Override, events: Trail) {
    exists i: nat :: OnlyAt(events, i, ResetRequested) && events[i].body.actorId == o.requestedBy
                     && events[i].body.reason == o.reason && events[i].body.occurredAt == o.requestedAt
  }

  ghost predicate ExecutedAsSaid(o: Override, events: Trail) {
    match o.executedAt
    case Some(at) => exists i: nat :: FirstAt(events, i, ResetExecuted) && events[i].body.occurredAt == at
    case None => !Has(events, ResetExecuted)
  }

  /** The override was asked for once, as it says; it is executed, at the time it says, exactly when an event says
      so, and has lapsed exactly when one says so. */
  ghost predicate OverrideAcceptable(o: Override, events: Trail) {
    && ApprovalsAcceptable(o, events) && AskedAsSaid(o, events) && ExecutedAsSaid(o, events)
    && (o.state == Executed <==> Has(events, ResetExecuted)) && (o.state == Lapsed <==> Has(events, ResetExpired))
  }

  /** The event at i has the next number and names and hashes the one before it. */
  predicate Linked(c: OpsCrypto, audit: Trail, i: nat)
    requires i < |audit|
  {
    && audit[i].body.sequence == i + 1 && audit[i].hash == c.digest(audit[i].body)
    && audit[i].body.previousHash == if i == 0 then "GENESIS" else audit[i - 1].hash
  }

  predicate ChainAcceptable(c: OpsCrypto, audit: Trail) { forall i :: 0 <= i < |audit| ==> Linked(c, audit, i) }

  ghost predicate Acceptable(c: OpsCrypto, m: Machine) {
    && ChainAcceptable(c, m.audit)
    && (forall key <- m.cases :: CaseAcceptable(m.cases[key], Events(m.audit, key)))
    && (forall okey <- m.overrides ::
          var key := (okey.0, m.overrides[okey].caseId);
          key in m.cases && OverrideAcceptable(m.overrides[okey], Events(m.audit, key)))
    && (forall a, b | a in m.overrides && b in m.overrides && a != b :: a.0 != b.0 || m.overrides[a].caseId != m.overrides[b].caseId)
    && (forall i <- m.intents :: SyntheticRef(i.recipientRef) && (i.tenantId, i.caseId) in m.cases)
    && (forall key <- m.idempotency ::
          Identifier(key.0, 128) && Identifier(key.1, 128) && HexHash(m.idempotency[key].requestHash))
  }

  // ---------- filters and positions ----------

  lemma {:induction false} NoneOfKind(events: Trail, kind: EventKind)
    ensures OfKind(events, kind) == [] <==> !Has(events, kind)
  {
    if events != [] {
      var n := |events| - 1;
      NoneOfKind(events[..n], kind);
      assert events == events[..n] + [events[n]];
    }
  }

  lemma {:induction false} CountOfKind(events: Trail, kind: EventKind)
    ensures |OfKind(events, kind)| == Times(events, kind)
  {
    if events != [] { CountOfKind(events[..|events| - 1], kind); }
  }

  lemma {:induction false} FirstOfKind(events: Trail, kind: EventKind) returns (i: nat)
    requires OfKind(events, kind) != []
    ensures FirstAt(events, i, kind) && events[i] == OfKind(events, kind)[0]
  {
    var n := |events| - 1;
    if OfKind(events[..n], kind) != [] {
      i := FirstOfKind(events[..n], kind);
    } else {
      NoneOfKind(events[..n], kind);
      forall j | 0 <= j < n ensures events[j].body.kind != kind { assert events[j] in events[..n]; }
      i := n;
    }
  }

  lemma OneFirst(events: Trail, i: nat, j: nat, kind: EventKind)
    requires FirstAt(events, i, kind) && FirstAt(events, j, kind)
    ensures i == j
  {
  }

  lemma {:induction false} OnlyOfKind(events: Trail, i: nat, kind: EventKind)
    requires FirstAt(events, i, kind)
    ensures OnlyAt(events, i, kind) <==> |OfKind(events, kind)| == 1
  {
    var n := |events| - 1;
    if i == n {
      forall e | e in events[..n] ensures e.body.kind != kind { var j :| 0 <= j < n && events[..n][j] == e; }
      NoneOfKind(events[..n], kind);
    } else {
      assert FirstAt(events[..n], i, kind);
      OnlyOfKind(events[..n], i, kind);
      NoneOfKind(events[..n], kind);
      assert events[..n][i] in events[..n];
      if OnlyAt(events, i, kind) { assert OnlyAt(events[..n], i, kind); }
      if |OfKind(events, kind)| == 1 { assert events[n].body.kind != kind; }
    }
  }

  lemma {:induction false} MemberOfKind(events: Trail, kind: EventKind, e: AuditEvent)
    ensures e in OfKind(events, kind) <==> e in events && e.body.kind == kind
  {
    if events != [] {
      var n := |events| - 1;
      MemberOfKind(events[..n], kind, e);
      assert events == events[..n] + [events[n]];
    }
  }

  lemma {:induction false} EndsInDerived(events: Trail, state: CaseState)
    ensures Derived(events) == state <==> EndsIn(events, state)
  {
    if events != [] {
      var n := |events| - 1;
      hide EndsIn, Enters;
      EndsInDerived(events[..n], state);
      EntersIsStateOf(events[n], state);
      if EntersNone(events[n]) { EndsInFront(events, state); } else { EndsHere(events, state); }
    } else {
      EndsNowhere(state);
    }
  }

  lemma EntersIsStateOf(e: AuditEvent, state: CaseState)
    ensures EntersNone(e) <==> StateOf(e.body.kind).None?
    ensures Enters(e, state) <==> StateOf(e.body.kind) == Some(state)
  {
  }

  lemma EndsNowhere(state: CaseState)
    ensures EndsIn([], state) <==> state == Opened
  {
  }

  lemma EndsHere(events: Trail, state: CaseState)
    requires events != [] && !EntersNone(events[|events| - 1])
    ensures EndsIn(events, state) <==> Enters(events[|events| - 1], state)
  {
    hide Enters, EntersNone;
    var n := |events| - 1;
    assert events[n] in events;
    if Enters(events[n], state) { assert LastEnters(events, n, state); }
  }

  lemma EndsInFront(events: Trail, state: CaseState)
    requires events != [] && EntersNone(events[|events| - 1])
    ensures EndsIn(events, state) <==> EndsIn(events[..|events| - 1], state)
  {
    hide LastEnters, EntersNone;
    var n := |events| - 1;
    var front := events[..n];
    assert events == front + [events[n]];
    assert (forall e <- events :: EntersNone(e)) <==> (forall e <- front :: EntersNone(e));
    forall i: nat ensures LastEnters(events, i, state) <==> LastEnters(front, i, state) { LastInFront(events, i, state); }
  }

  lemma LastInFront(events: Trail, i: nat, state: CaseState)
    requires events != [] && EntersNone(events[|events| - 1])
    ensures LastEnters(events, i, state) <==> LastEnters(events[..|events| - 1], i, state)
  {
    hide Enters, EntersNone;
    NotLastOfBoth(events, state);
    assert forall j :: 0 <= j < |events| - 1 ==> events[j] == events[..|events| - 1][j];
  }

  lemma NotLastOfBoth(events: Trail, state: CaseState)
    requires events != [] && EntersNone(events[|events| - 1])
    ensures !LastEnters(events, |events| - 1, state)
  {
  }

  // ---------- record by record ----------

  lemma CaseIff(audit: Trail, v: Case)
    ensures RestorableCase(audit, v) <==> CaseAcceptable(v, Events(audit, CaseKey(v)))
  {
    hide EndsIn, Derived, Identifier, SyntheticRef, FirstAt, Has;
    var events := Events(audit, CaseKey(v));
    EndsInDerived(events, v.state);
    NoneOfKind(events, CaseMoved(Opened));
    if OfKind(events, CaseMoved(Opened)) != [] {
      var first := FirstOfKind(events, CaseMoved(Opened));
      forall i: nat | FirstAt(events, i, CaseMoved(Opened)) ensures i == first { OneFirst(events, i, first, CaseMoved(Opened)); }
    } else {
      forall i: nat ensures !FirstAt(events, i, CaseMoved(Opened)) { NotFirst(events, i, CaseMoved(Opened)); }
    }
  }

  lemma NotFirst(events: Trail, i: nat, kind: EventKind)
    requires !Has(events, kind)
    ensures !FirstAt(events, i, kind)
  {
    if i < |events| { assert events[i] in events; }
  }

  lemma ApproversDiffer(approvals: seq<Approval>)
    requires |approvals| <= 2
    ensures DistinctApprovers(approvals) <==> (|approvals| == 2 ==> approvals[0].actorId != approvals[1].actorId)
  {
  }

  lemma WitnessedIff(a: Approval, events: Trail)
    ensures Witnessed(a, OfKind(events, ResetApproved)) <==>
              exists e :: e in events && e.body.kind == ResetApproved
                          && e.body.actorId == a.actorId && e.body.actorRole == a.role && e.body.occurredAt == a.approvedAt
  {
    forall e ensures e in OfKind(events, ResetApproved) <==> e in events && e.body.kind == ResetApproved {
      MemberOfKind(events, ResetApproved, e);
    }
  }

  lemma ApprovalsIff(o: Override, events: Trail)
    ensures ApprovalsAcceptable(o, events) <==>
              && |o.approvals| <= 2 && DistinctApprovers(o.approvals) && (forall a <- o.approvals :: IsApprover(a.role))
              && |OfKind(events, ResetApproved)| == |o.approvals|
              && forall a <- o.approvals :: Witnessed(a, OfKind(events, ResetApproved))
  {
    if |o.approvals| <= 2 { ApproversDiffer(o.approvals); }
    CountOfKind(events, ResetApproved);
    forall a ensures Witnessed(a, OfKind(events, ResetApproved)) <==>
        exists e :: e in events && e.body.kind == ResetApproved
                    && e.body.actorId == a.actorId && e.body.actorRole == a.role && e.body.occurredAt == a.approvedAt {
      WitnessedIff(a, events);
    }
    hide Witnessed, DistinctApprovers, OfKind, Times;
  }

  lemma AskedIff(o: Override, events: Trail)
    ensures var requested := OfKind(events, ResetRequested);
            AskedAsSaid(o, events) <==>
              && |requested| == 1 && requested[0].body.actorId == o.requestedBy && requested[0].body.reason == o.reason
              && requested[0].body.occurredAt == o.requestedAt
  {
    hide FirstAt, Has;
    var kind := ResetRequested;
    NoneOfKind(events, kind);
    if OfKind(events, kind) != [] {
      var first := FirstOfKind(events, kind);
      OnlyOfKind(events, first, kind);
      forall i: nat | OnlyAt(events, i, kind) ensures i == first { OneFirst(events, i, first, kind); }
    } else {
      forall i: nat ensures !OnlyAt(events, i, kind) { NotFirst(events, i, kind); }
    }
  }

  lemma ExecutedIff(o: Override, events: Trail)
    ensures var executed := OfKind(events, ResetExecuted);
            ExecutedAsSaid(o, events) <==>
              (o.executedAt.Some? <==> executed != []) && (executed != [] ==> o.executedAt == Some(executed[0].body.occurredAt))
  {
    hide FirstAt, Has;
    var kind := ResetExecuted;
    NoneOfKind(events, kind);
    if OfKind(events, kind) != [] {
      var first := FirstOfKind(events, kind);
      forall i: nat | FirstAt(events, i, kind) ensures i == first { OneFirst(events, i, first, kind); }
    } else {
      forall i: nat ensures !FirstAt(events, i, kind) { NotFirst(events, i, kind); }
    }
  }

  lemma OverrideIff(o: Override, events: Trail)
    ensures OverrideAgrees(o, events) <==> OverrideAcceptable(o, events)
  {
    hide ApprovalsAcceptable, Witnessed, DistinctApprovers, OfKind, AskedAsSaid, ExecutedAsSaid, Has, IsApprover;
    ApprovalsIff(o, events);
    AskedIff(o, events);
    ExecutedIff(o, events);
    NoneOfKind(events, ResetExecuted);
    NoneOfKind(events, ResetExpired);
  }

  lemma LinkIff(c: OpsCrypto, audit: Trail, i: nat)
    requires i < |audit|
    ensures LinkOk(c, audit[..i], audit[i]) <==> Linked(c, audit, i)
  {
  }

  lemma ChainIff(c: OpsCrypto, audit: Trail)
    ensures ChainOk(c, audit) <==> ChainAcceptable(c, audit)
  {
    hide LinkOk, Linked;
    if ChainOk(c, audit) {
      forall i: nat | i < |audit| ensures Linked(c, audit, i) { LinkIff(c, audit, i); }
    }
    if ChainAcceptable(c, audit) {
      forall i: nat | i < |audit| ensures LinkOk(c, audit[..i], audit[i]) { LinkIff(c, audit, i); }
    }
  }

  // ---------- whole snapshots ----------

  /** A snapshot is accepted exactly when it lists the records of an acceptable machine, each once, and it restores
      to that machine. */
  lemma AcceptsIff(c: OpsCrypto, s: Snapshot)
    ensures var m := Restored(s); Restorable(c, s) <==> SnapshotOf(m, s) && Acceptable(c, m)
  {
    hide RestorableCase, RestorableOverride, RestorableEntry, CaseAcceptable, OverrideAcceptable, ChainOk, ChainAcceptable, Identifier,
         Events, HexHash, SyntheticRef, Lists, DistinctKeys, Index;
    IndexLists(s.cases, CaseKey);
    IndexLists(s.overrides, OverrideKey);
    ChainIff(c, s.audit);
    if DistinctKeys(s.cases, CaseKey) { CasesIff(s); }
    if DistinctKeys(s.overrides, OverrideKey) { OverridesIff(s); }
    if DistinctKeys(s.idempotency, CacheKey) { EntriesIff(s); }
  }

  lemma CasesIff(s: Snapshot)
    requires DistinctKeys(s.cases, CaseKey)
    ensures var m := Restored(s);
            (forall v <- s.cases :: RestorableCase(s.audit, v)) <==> forall key <- m.cases :: CaseAcceptable(m.cases[key], Events(m.audit, key))
  {
    hide RestorableCase, CaseAcceptable, Events;
    IndexMembers(s.cases, CaseKey);
    var m := Restored(s);
    forall v ensures RestorableCase(s.audit, v) <==> CaseAcceptable(v, Events(s.audit, CaseKey(v))) { CaseIff(s.audit, v); }
  }

  lemma OverridesIff(s: Snapshot)
    requires DistinctKeys(s.overrides, OverrideKey)
    ensures var m := Restored(s);
            && ((forall o <- s.overrides :: RestorableOverride(m.cases, s.audit, o)) <==>
                  forall okey <- m.overrides ::
                    var key := (okey.0, m.overrides[okey].caseId);
                    key in m.cases && OverrideAcceptable(m.overrides[okey], Events(m.audit, key)))
            && (DistinctKeys(s.overrides, CaseOfOverride) <==>
                  forall a, b | a in m.overrides && b in m.overrides && a != b ::
                    a.0 != b.0 || m.overrides[a].caseId != m.overrides[b].caseId)
  {
    hide OverrideAgrees, OverrideAcceptable, Events;
    IndexMembers(s.overrides, OverrideKey);
    var m := Restored(s);
    forall o ensures OverrideAgrees(o, Events(s.audit, CaseOfOverride(o))) <==> OverrideAcceptable(o, Events(s.audit, CaseOfOverride(o))) {
      OverrideIff(o, Events(s.audit, CaseOfOverride(o)));
    }
  }

  lemma EntriesIff(s: Snapshot)
    requires DistinctKeys(s.idempotency, CacheKey)
    ensures var m := Restored(s);
            (forall e <- s.idempotency :: RestorableEntry(e)) <==>
              forall key <- m.idempotency ::
                Identifier(key.0, 128) && Identifier(key.1, 128) && HexHash(m.idempotency[key].requestHash)
  {
    hide Identifier, HexHash;
    IndexMembers(s.idempotency, CacheKey);
  }
}
