/** Snapshots, replays and trust resets of the operations machine over whole runs. */
module OperationsTheorems {
  import opened Common
  import opened Wrappers
  import opened Listings
  import opened Operations
  import opened OperationsInvariant

  // ---------- snapshots ----------

  datatype CacheEntry = CacheEntry(scope: Id, key: Id, cached: Cached)

  /** The persisted arrays, in any order. */
  datatype Snapshot = Snapshot(
    schemaVersion: int, cases: seq<Case>, overrides: seq<Override>, audit: seq<AuditEvent>, intents: seq<Intent>,
    idempotency: seq<CacheEntry>)

  function CaseKey(v: Case): Key { (v.tenantId, v.caseId) }
  function OverrideKey(o: Override): Key { (o.tenantId, o.overrideId) }
  function CacheKey(e: CacheEntry): Key { (e.scope, e.key) }

  function Caches(entries: seq<CacheEntry>): map<Key, Cached> {
    var m := Index(entries, CacheKey);
    map k | k in m :: m[k].cached
  }

  ghost predicate SnapshotOf(m: Machine, s: Snapshot) {
    && s.schemaVersion == 1
    && Lists(s.cases, m.cases, CaseKey)
    && Lists(s.overrides, m.overrides, OverrideKey)
    && s.audit == m.audit && s.intents == m.intents
    && DistinctKeys(s.idempotency, CacheKey) && Caches(s.idempotency) == m.idempotency
  }

  function Restored(s: Snapshot): Machine {
    Machine(Index(s.cases, CaseKey), Index(s.overrides, OverrideKey), s.audit, s.intents, Caches(s.idempotency))
  }

  /** The checks of a restored case against its events. */
  predicate RestorableCase(audit: seq<AuditEvent>, v: Case) {
    var events := Events(audit, CaseKey(v));
    var openings := OfKind(events, CaseMoved(Opened));
    && IdOk(v.tenantId) && IdOk(v.caseId) && SyntheticRef(v.subjectRef)
    && openings != [] && openings[0].body.reason == v.reason
    && (forall e <- events :: e.body.correlationId == v.correlationId)
    && Derived(events) == v.state
  }

  function CaseOfOverride(o: Override): Key { (o.tenantId, o.caseId) }

  predicate RestorableOverride(cases: map<Key, Case>, audit: seq<AuditEvent>, o: Override) {
    CaseOfOverride(o) in cases && OverrideAgrees(o, Events(audit, CaseOfOverride(o)))
  }

  predicate RestorableEntry(e: CacheEntry) { CacheOk(CacheKey(e), e.cached) }

  ghost predicate Restorable(c: OpsCrypto, s: Snapshot) {
    var m := Restored(s);
    && s.schemaVersion == 1
    && DistinctKeys(s.cases, CaseKey) && DistinctKeys(s.overrides, OverrideKey) && DistinctKeys(s.idempotency, CacheKey)
    && (forall e <- s.idempotency :: RestorableEntry(e))
    && ChainOk(c, s.audit)
    && (forall v <- s.cases :: RestorableCase(s.audit, v))
    && (forall o <- s.overrides :: RestorableOverride(m.cases, s.audit, o))
    && DistinctKeys(s.overrides, CaseOfOverride)
    && (forall i <- s.intents :: IntentOk(m, i))
  }

  ghost predicate NoneStranded(m: Machine) { forall key <- m.cases :: !Stranded(m, key) }

  lemma SnapshotRestores(m: Machine, s: Snapshot)
    requires SnapshotOf(m, s)
    ensures Restored(s) == m
  {
    hide Lists, Caches;
    ListsIsIndex(s.cases, m.cases, CaseKey);
    ListsIsIndex(s.overrides, m.overrides, OverrideKey);
  }

  /** Without override there is no request event, so the events never lead to a pending reset. */
  lemma {:induction false} NotRequestedNotPending(events: seq<AuditEvent>)
    requires OfKind(events, ResetRequested) == []
    ensures Derived(events) != TrustResetPending
  {
    if events != [] {
      NotRequestedNotPending(events[..|events| - 1]);
    }
  }

  lemma CaseRestorableIff(c: OpsCrypto, m: Machine, key: Key)
    requires MachineOk(c, m) && key in m.cases
    ensures CaseKey(m.cases[key]) == key
    ensures RestorableCase(m.audit, m.cases[key]) <==> !Stranded(m, key)
  {
    hide MachineOk, OverrideOk, OverridesOk, ChainOk, IdOk, SyntheticRef, Events, OfKind, Derived;
    SlotAt(c, m, key);
    if Stranded(m, key) { NotRequestedNotPending(Events(m.audit, key)); }
  }

  lemma OverrideRestorable(c: OpsCrypto, m: Machine, okey: Key)
    requires MachineOk(c, m) && okey in m.overrides
    ensures OverrideKey(m.overrides[okey]) == okey && CaseOfOverride(m.overrides[okey]) == CaseKeyOf(okey, m.overrides[okey])
    ensures RestorableOverride(m.cases, m.audit, m.overrides[okey])
  {
    hide MachineOk, OverrideAgrees, Events, Derived;
    ApprovableCase(c, m, okey);
  }

  lemma DistinctOverrideCases(c: OpsCrypto, m: Machine, xs: seq<Override>)
    requires MachineOk(c, m) && Lists(xs, m.overrides, OverrideKey)
    ensures DistinctKeys(xs, CaseOfOverride)
  {
    hide MachineOk, RestorableOverride;
    forall i, j | 0 <= i < j < |xs| ensures CaseOfOverride(xs[i]) != CaseOfOverride(xs[j]) {
      OverrideRestorable(c, m, OverrideKey(xs[i]));
      OverrideRestorable(c, m, OverrideKey(xs[j]));
      OneOverridePerCase(c, m, OverrideKey(xs[i]), OverrideKey(xs[j]));
    }
  }

  lemma OneOverridePerCase(c: OpsCrypto, m: Machine, a: Key, b: Key)
    requires MachineOk(c, m) && a in m.overrides && b in m.overrides && a != b
    ensures CaseKeyOf(a, m.overrides[a]) != CaseKeyOf(b, m.overrides[b])
  {
    hide SlotOk, ChainOk, CacheOk, IntentOk;
  }

  lemma OthersRestorable(c: OpsCrypto, m: Machine, s: Snapshot)
    requires MachineOk(c, m) && SnapshotOf(m, s)
    ensures forall e <- s.idempotency :: RestorableEntry(e)
    ensures ChainOk(c, s.audit) && forall i <- s.intents :: IntentOk(m, i)
  {
    hide SlotOk, OverridesOk, Lists, CacheOk;
    IndexMembers(s.idempotency, CacheKey);
    forall e | e in s.idempotency ensures RestorableEntry(e) {
      var i :| 0 <= i < |s.idempotency| && s.idempotency[i] == e;
      assert CacheKey(e) in m.idempotency && m.idempotency[CacheKey(e)] == e.cached;
    }
  }

  /** A snapshot always restores to the same machine, and passes every check exactly when no case is
      stranded. */
  lemma SnapshotPassesIff(c: OpsCrypto, m: Machine, s: Snapshot)
    requires MachineOk(c, m) && SnapshotOf(m, s)
    ensures Restored(s) == m
    ensures Restorable(c, s) <==> NoneStranded(m)
  {
    hide MachineOk, RestorableCase, RestorableOverride, RestorableEntry, Stranded, ChainOk, IntentOk, DistinctKeys, Caches, Index;
    SnapshotRestores(m, s);
    OthersRestorable(c, m, s);
    DistinctOverrideCases(c, m, s.overrides);
    forall v | v in s.cases ensures CaseKey(v) in m.cases && m.cases[CaseKey(v)] == v {
      var i :| 0 <= i < |s.cases| && s.cases[i] == v;
    }
    forall key | key in m.cases ensures m.cases[key] in s.cases && (RestorableCase(s.audit, m.cases[key]) <==> !Stranded(m, key)) {
      CaseRestorableIff(c, m, key);
    }
    forall o | o in s.overrides ensures RestorableOverride(m.cases, s.audit, o) {
      var i :| 0 <= i < |s.overrides| && s.overrides[i] == o;
      OverrideRestorable(c, m, OverrideKey(o));
    }
  }

  // ---------- which call strands a case ----------

  /** A trust reset request that passes every check and would expire after the last representable instant. */
  predicate Strands(m: Machine, call: Call) {
    var r, now := call.request, call.now;
    && r.RequestTrustReset? && Precheck(m, call).None? && (r.tenantId, call.idempotencyKey) !in m.idempotency
    && ActorError(r.tenantId, r.actor).None? && ReasonOk(r.reason) && IsApprover(r.actor.role)
    && TtlOk(r.ttlMs, MAX_OVERRIDE_TTL_MS)
    && var key := (r.tenantId, r.caseId);
       && key in m.cases && now < m.cases[key].expiresAt && Eligible(m.cases[key])
       && IdOk(Chosen(r.suppliedId, call.drawnId)) && (r.tenantId, Chosen(r.suppliedId, call.drawnId)) !in m.overrides
       && now + r.ttlMs > MAX_DATE_MS
  }

  lemma ActiveCaseStrandsNothing(c: OpsCrypto, m: Machine, key: Key, now: Time)
    requires NoneStranded(m)
    ensures NoneStranded(ActiveCase(c, m, key, now).0)
  {
    hide EventOf;
    var m1 := ActiveCase(c, m, key, now).0;
    forall k | k in m1.cases ensures !Stranded(m1, k) {
      if k in m.cases { assert !Stranded(m, k); }
    }
  }

  lemma TransitionStrandsNothing(
    c: OpsCrypto, m: Machine, tenantId: Id, caseId: Id, nextState: CaseState, reason: Text, actor: Actor, now: Time)
    requires NoneStranded(m)
    ensures NoneStranded(TransitionWork(c, m, tenantId, caseId, nextState, reason, actor, now).0)
  {
    hide ActiveCase, ActorError, EventOf, NextStates, MayMoveTo, NoneStranded;
    ActiveCaseStrandsNothing(c, m, (tenantId, caseId), now);
    var m1 := ActiveCase(c, m, (tenantId, caseId), now).0;
    var m' := TransitionWork(c, m, tenantId, caseId, nextState, reason, actor, now).0;
    if m' != m && m' != m1 {
      MovedStrandsNothing(m1, m', (tenantId, caseId));
    }
  }

  /** A case that moves to another state than a pending reset, or has an override, is not stranded. */
  lemma MovedStrandsNothing(m: Machine, m': Machine, key: Key)
    requires NoneStranded(m) && key in m'.cases && m'.cases == m.cases[key := m'.cases[key]]
    requires forall okey <- m.overrides :: okey in m'.overrides && m'.overrides[okey].caseId == m.overrides[okey].caseId
    requires m'.cases[key].state != TrustResetPending || HasOverride(m', key)
    ensures NoneStranded(m')
  {
    forall k | k in m'.cases ensures !Stranded(m', k) {
      if k != key {
        assert !Stranded(m, k);
        if HasOverride(m, k) {
          var okey :| okey in m.overrides && CaseKeyOf(okey, m.overrides[okey]) == k;
          assert okey in m'.overrides && CaseKeyOf(okey, m'.overrides[okey]) == k;
        }
      }
    }
  }

  lemma OpenStrandsNothing(c: OpsCrypto, m: Machine, r: Request, now: Time, drawnId: Id)
    requires r.OpenCase? && NoneStranded(m)
    ensures NoneStranded(OpenWork(c, m, r, now, drawnId).0)
  {
    hide EventOf, OpenError, IdOk, NoneStranded;
    var (m', reply) := OpenWork(c, m, r, now, drawnId);
    if reply.CaseReply? { MovedStrandsNothing(m, m', CaseKey(reply.theCase)); }
  }

  lemma ApproveStrandsNothing(c: OpsCrypto, m: Machine, r: Request, now: Time)
    requires MachineOk(c, m) && r.ApproveTrustReset? && NoneStranded(m)
    ensures NoneStranded(ApproveWork(c, m, r, now).0)
  {
    hide MachineOk, ActiveCase, ActorError, EventOf, IdOk, ReasonOk, ApprovedBy, NoneStranded;
    var okey := (r.tenantId, r.overrideId);
    if okey in m.overrides {
      var key := CaseKeyOf(okey, m.overrides[okey]);
      ActiveCaseStrandsNothing(c, m, key, now);
      ActiveCaseOverrides(c, m, key, now);
      ActiveCaseKeepsOk(c, m, key, now);
      var m' := ApproveWork(c, m, r, now).0;
      if ActiveCase(c, m, key, now).1.None? {
        assert HasOverride(m', key) by { assert okey in m'.overrides; }
        MovedStrandsNothing(m, m', key);
      }
    }
  }

  lemma RequestStrandsIff(c: OpsCrypto, m: Machine, call: Call)
    requires MachineOk(c, m) && NoneStranded(m) && call.request.RequestTrustReset? && Precheck(m, call).None?
    requires (call.request.tenantId, call.idempotencyKey) !in m.idempotency
    ensures NoneStranded(RequestWork(c, m, call.request, call.now, call.drawnId).0) <==> !Strands(m, call)
  {
    hide MachineOk, ActorError, EventOf, IdOk, ReasonOk, NoneStranded;
    var r := call.request;
    var key := (r.tenantId, r.caseId);
    ActiveCaseStrandsNothing(c, m, key, call.now);
    var m' := RequestWork(c, m, r, call.now, call.drawnId).0;
    if Strands(m, call) {
      NoOverrideYet(c, m, key);
      StrandedHere(m, m', key);
    } else if ActiveCase(c, m, key, call.now).1.None? && m' != m {
      CaseFacts(c, m, key);
      var okey := (r.tenantId, Chosen(r.suppliedId, call.drawnId));
      assert HasOverride(m', key) by { assert okey in m'.overrides && CaseKeyOf(okey, m'.overrides[okey]) == key; }
      MovedStrandsNothing(m, m', key);
    }
  }

  lemma StrandedHere(m: Machine, m': Machine, key: Key)
    requires !HasOverride(m, key) && m'.overrides == m.overrides && key in m'.cases && m'.cases[key].state == TrustResetPending
    ensures !NoneStranded(m')
  {
    assert Stranded(m', key);
  }

  /** A call strands a case exactly when it is a trust reset request that passes every check and whose
      expiry lies past the last representable instant. */
  lemma StepStrandsIff(c: OpsCrypto, m: Machine, call: Call)
    requires MachineOk(c, m) && NoneStranded(m)
    ensures NoneStranded(Step(c, m, call).0) <==> !Strands(m, call)
  {
    hide MachineOk, NoneStranded, OpenWork, TransitionWork, RequestWork, ApproveWork;
    var r, now := call.request, call.now;
    if Precheck(m, call).None? && (r.tenantId, call.idempotencyKey) !in m.idempotency {
      match r
      case OpenCase(_, _, _, _, _, _, _, _, _) => OpenStrandsNothing(c, m, r, now, call.drawnId);
      case Transition(tenantId, caseId, next, reason, actor) =>
        TransitionStrandsNothing(c, m, tenantId, caseId, next, reason, actor, now);
      case VerifyRecoveryProof(tenantId, caseId, proof, reason, actor) =>
        TransitionStrandsNothing(c, m, tenantId, caseId, ProofVerified, reason + " [proof:" + ProofText(proof) + "]", actor, now);
      case RequestTrustReset(_, _, _, _, _, _) => RequestStrandsIff(c, m, call);
      case ApproveTrustReset(_, _, _, _) => ApproveStrandsNothing(c, m, r, now);
    }
    CachingStrandsNothing(Work(c, m, r, now, call.drawnId).0, Step(c, m, call).0);
  }

  lemma CachingStrandsNothing(a: Machine, b: Machine)
    ensures a.cases == b.cases && a.overrides == b.overrides ==> (NoneStranded(a) <==> NoneStranded(b))
  {
    if a.cases == b.cases && a.overrides == b.overrides {
      assert forall key :: HasOverride(a, key) <==> HasOverride(b, key);
      assert forall key :: Stranded(a, key) <==> Stranded(b, key);
    }
  }

  ghost predicate SnapshotsPass(c: OpsCrypto, calls: seq<Call>, n: nat)
    requires n <= |calls|
  {
    forall i :: 0 <= i <= n ==> NoneStranded(After(c, EmptyMachine, calls[..i]))
  }

  ghost predicate NoneStrands(c: OpsCrypto, calls: seq<Call>, n: nat)
    requires n <= |calls|
  {
    forall i :: 0 <= i < n ==> !Strands(After(c, EmptyMachine, calls[..i]), calls[i])
  }

  lemma AfterNext(c: OpsCrypto, calls: seq<Call>, n: nat)
    requires n < |calls|
    ensures After(c, EmptyMachine, calls[..n + 1]) == Step(c, After(c, EmptyMachine, calls[..n]), calls[n]).0
  {
    hide Step;
    assert calls[..n + 1][..n] == calls[..n];
  }

  /** Along a run from the empty machine every snapshot passes restore exactly when no call of the run
      strands a case. */
  lemma {:induction false} RunRestorableIff(c: OpsCrypto, calls: seq<Call>, n: nat)
    requires HashShaped(c) && n <= |calls|
    ensures SnapshotsPass(c, calls, n) <==> NoneStrands(c, calls, n)
    decreases n
  {
    hide Step, After, NoneStranded, Strands, MachineOk, HashShaped, Decided;
    if n == 0 {
      EmptyStrandsNothing();
      assert After(c, EmptyMachine, calls[..0]) == EmptyMachine by { AfterNothing(c); }
    } else {
      RunRestorableIff(c, calls, n - 1);
      var m := After(c, EmptyMachine, calls[..n - 1]);
      AfterNext(c, calls, n - 1);
      EmptyOk(c);
      RunKeepsOk(c, EmptyMachine, calls[..n - 1]);
      if NoneStranded(m) { StepStrandsIff(c, m, calls[n - 1]); }
      assert SnapshotsPass(c, calls, n) <==> SnapshotsPass(c, calls, n - 1) && NoneStranded(After(c, EmptyMachine, calls[..n]));
      assert NoneStrands(c, calls, n) <==> NoneStrands(c, calls, n - 1) && !Strands(m, calls[n - 1]);
      assert SnapshotsPass(c, calls, n - 1) ==> NoneStranded(m);
    }
  }

  lemma AfterNothing(c: OpsCrypto)
    ensures After(c, EmptyMachine, []) == EmptyMachine
  {
  }

  lemma EmptyStrandsNothing()
    ensures NoneStranded(EmptyMachine)
  {
  }

  /** Calls made a day or more before the last representable instant never strand a case. */
  lemma EarlyCallsStrandNothing(m: Machine, call: Call)
    requires call.now + MAX_OVERRIDE_TTL_MS <= MAX_DATE_MS
    ensures !Strands(m, call)
  {
    hide IdOk, ReasonOk, ActorError;
  }

  const LATE := MAX_DATE_MS - 3_600_000

  const Officer := Actor("t", "officer", SecurityOperator, "")

  function LateOpen(): Call {
    Call(OpenCase("t", DeviceLoss, "synthetic-s", "", "lost", "corr", Officer, 3_000_000, Some("case")), "k1", LATE, "")
  }

  function LateContain(): Call { Call(Transition("t", "case", Contained, "lost", Officer), "k2", LATE, "") }

  function LateReset(): Call {
    Call(RequestTrustReset("t", "case", "lost", Officer, MAX_OVERRIDE_TTL_MS, Some("reset")), "k3", LATE, "")
  }

  lemma LateOpened(c: OpsCrypto)
    ensures var m := Step(c, EmptyMachine, LateOpen()).0;
            && ("t", "case") in m.cases && m.cases[("t", "case")].state == Opened
            && m.cases[("t", "case")].caseType == DeviceLoss && m.cases[("t", "case")].expiresAt == LATE + 3_000_000
            && m.overrides == map[] && m.idempotency.Keys == {("t", "k1")}
  {
    assert SyntheticRef("synthetic-s") by { assert "synthetic-s"[|SYNTHETIC|..] == "s"; }
    hide SyntheticRef, EventOf;
  }

  lemma LateContained(c: OpsCrypto, m: Machine)
    requires ("t", "case") in m.cases && m.cases[("t", "case")].state == Opened
    requires m.cases[("t", "case")].caseType == DeviceLoss && m.cases[("t", "case")].expiresAt == LATE + 3_000_000
    requires m.overrides == map[] && m.idempotency.Keys == {("t", "k1")}
    ensures var m' := Step(c, m, LateContain()).0;
            && ("t", "case") in m'.cases && m'.cases[("t", "case")].state == Contained
            && m'.cases[("t", "case")].caseType == DeviceLoss && m'.cases[("t", "case")].expiresAt == LATE + 3_000_000
            && m'.overrides == map[] && m'.idempotency.Keys == {("t", "k1"), ("t", "k2")}
  {
    hide EventOf;
  }

  lemma LateStrands(m: Machine)
    requires ("t", "case") in m.cases && m.cases[("t", "case")].state == Contained
    requires m.cases[("t", "case")].caseType == DeviceLoss && m.cases[("t", "case")].expiresAt == LATE + 3_000_000
    requires m.overrides == map[] && m.idempotency.Keys == {("t", "k1"), ("t", "k2")}
    ensures Strands(m, LateReset())
  {
  }

  /** A run of three calls in the last hour before the last representable instant after which the
      snapshot does not pass restore. */
  lemma LastHourStrands(c: OpsCrypto)
    requires HashShaped(c)
    ensures !SnapshotsPass(c, [LateOpen(), LateContain(), LateReset()], 3)
  {
    hide Step, Strands, HashShaped, LateOpen, LateContain, LateReset, SnapshotsPass, NoneStranded;
    var calls := [LateOpen(), LateContain(), LateReset()];
    AfterNothing(c);
    assert calls[..0] == [];
    AfterNext(c, calls, 0);
    AfterNext(c, calls, 1);
    LateOpened(c);
    LateContained(c, After(c, EmptyMachine, calls[..1]));
    LateStrands(After(c, EmptyMachine, calls[..2]));
    assert !NoneStrands(c, calls, 3);
    RunRestorableIff(c, calls, 3);
  }

  // ---------- replays ----------

  /** Cases never disappear and never change type or subject device. */
  ghost predicate CasesKept(m: Machine, m': Machine) {
    forall key <- m.cases :: key in m'.cases && m'.cases[key].caseType == m.cases[key].caseType
                             && m'.cases[key].subjectDeviceId == m.cases[key].subjectDeviceId
  }

  lemma OpenKeepsCases(c: OpsCrypto, m: Machine, r: Request, now: Time, drawnId: Id)
    requires r.OpenCase?
    ensures CasesKept(m, OpenWork(c, m, r, now, drawnId).0)
  {
    hide OpenError, IdOk, EventOf, DateOk;
  }

  lemma ActiveKeepsCases(c: OpsCrypto, m: Machine, key: Key, now: Time)
    ensures CasesKept(m, ActiveCase(c, m, key, now).0)
  {
    hide EventOf;
  }

  lemma TransitionKeepsCases(
    c: OpsCrypto, m: Machine, tenantId: Id, caseId: Id, nextState: CaseState, reason: Text, actor: Actor, now: Time)
    ensures CasesKept(m, TransitionWork(c, m, tenantId, caseId, nextState, reason, actor, now).0)
  {
    hide ActiveCase, ActorError, ReasonOk, EventOf, MayMoveTo, NextStates;
    ActiveKeepsCases(c, m, (tenantId, caseId), now);
  }

  lemma RequestKeepsCases(c: OpsCrypto, m: Machine, r: Request, now: Time, drawnId: Id)
    requires r.RequestTrustReset?
    ensures CasesKept(m, RequestWork(c, m, r, now, drawnId).0)
  {
    hide ActiveCase, ActorError, ReasonOk, EventOf, IdOk, DateOk;
    ActiveKeepsCases(c, m, (r.tenantId, r.caseId), now);
  }

  lemma ApproveKeepsCases(c: OpsCrypto, m: Machine, r: Request, now: Time)
    requires r.ApproveTrustReset?
    ensures CasesKept(m, ApproveWork(c, m, r, now).0)
  {
    hide ActiveCase, ActorError, ReasonOk, EventOf, IdOk, ApprovedBy;
    if (r.tenantId, r.overrideId) in m.overrides {
      ActiveKeepsCases(c, m, (r.tenantId, m.overrides[(r.tenantId, r.overrideId)].caseId), now);
    }
  }

  lemma WorkKeepsCases(c: OpsCrypto, m: Machine, r: Request, now: Time, drawnId: Id)
    ensures CasesKept(m, Work(c, m, r, now, drawnId).0)
  {
    hide CasesKept, OpenWork, TransitionWork, RequestWork, ApproveWork;
    match r
    case OpenCase(_, _, _, _, _, _, _, _, _) => OpenKeepsCases(c, m, r, now, drawnId);
    case Transition(tenantId, caseId, next, reason, actor) =>
      TransitionKeepsCases(c, m, tenantId, caseId, next, reason, actor, now);
    case VerifyRecoveryProof(tenantId, caseId, proof, reason, actor) =>
      TransitionKeepsCases(c, m, tenantId, caseId, ProofVerified, reason + " [proof:" + ProofText(proof) + "]", actor, now);
    case RequestTrustReset(_, _, _, _, _, _) => RequestKeepsCases(c, m, r, now, drawnId);
    case ApproveTrustReset(_, _, _, _) => ApproveKeepsCases(c, m, r, now);
  }

  lemma StepKeepsCases(c: OpsCrypto, m: Machine, call: Call)
    ensures var m' := Step(c, m, call).0;
            && CasesKept(m, m')
            && (forall key <- m.idempotency :: key in m'.idempotency && m'.idempotency[key] == m.idempotency[key])
  {
    hide Work;
    var r := call.request;
    WorkKeepsCases(c, m, r, call.now, call.drawnId);
    WorkKeepsCache(c, m, r, call.now, call.drawnId);
  }

  lemma WorkKeepsCache(c: OpsCrypto, m: Machine, r: Request, now: Time, drawnId: Id)
    ensures Work(c, m, r, now, drawnId).0.idempotency == m.idempotency
  {
    hide ActorError, ReasonOk, SyntheticRef, IdOk, ApprovedBy, EventOf, OpenError, NextStates, MayMoveTo, DateOk;
  }

  lemma {:induction false} RunKeepsCases(c: OpsCrypto, m: Machine, calls: seq<Call>)
    ensures var m' := After(c, m, calls);
            && CasesKept(m, m')
            && (forall key <- m.idempotency :: key in m'.idempotency && m'.idempotency[key] == m.idempotency[key])
    decreases |calls|
  {
    hide Step;
    if calls != [] {
      RunKeepsCases(c, m, calls[..|calls| - 1]);
      StepKeepsCases(c, After(c, m, calls[..|calls| - 1]), calls[|calls| - 1]);
    }
  }

  /** Replaying a call that reached the cache, whatever ran in between and whatever id is drawn, has no
      effect and gives the reply of the first time, a failure included. */
  lemma ReplayHasNoEffect(c: OpsCrypto, m: Machine, call: Call, between: seq<Call>, drawnId: Id)
    requires Precheck(m, call).None?
    ensures var m' := After(c, Step(c, m, call).0, between);
            Step(c, m', call.(drawnId := drawnId)) == (m', Step(c, m, call).1)
  {
    hide Work, IdOk;
    StepKeepsCases(c, m, call);
    RunKeepsCases(c, Step(c, m, call).0, between);
    WorkKeepsCache(c, m, call.request, call.now, call.drawnId);
  }

  // ---------- trust resets ----------

  /** The call that added the i-th approval of an override: made by that approver, at that time, from
      a device that is not the case's own. */
  ghost predicate ApprovalCall(c: OpsCrypto, calls: seq<Call>, j: nat, okey: Key, i: nat)
    requires j < |calls|
  {
    var before, after, call := After(c, EmptyMachine, calls[..j]), After(c, EmptyMachine, calls[..j + 1]), calls[j];
    && okey in before.overrides && okey in after.overrides
    && Approves(before, after, call, okey, i)
  }

  ghost predicate Approves(before: Machine, after: Machine, call: Call, okey: Key, i: nat)
    requires okey in before.overrides && okey in after.overrides
  {
    var o, o', r := before.overrides[okey], after.overrides[okey], call.request;
    && r.ApproveTrustReset? && okey == (r.tenantId, r.overrideId)
    && |o.approvals| == i && o'.approvals == o.approvals + [Approval(r.actor.actorId, r.actor.role, call.now)]
    && CaseKeyOf(okey, o) in before.cases
    && var device := before.cases[CaseKeyOf(okey, o)].subjectDeviceId;
       device != "" ==> r.actor.deviceId != device
  }

  /** What one call does to an override: nothing to its approvals, or one more from an approving call. */
  lemma StepApproves(c: OpsCrypto, m: Machine, call: Call, okey: Key)
    requires okey in m.overrides
    ensures var m' := Step(c, m, call).0;
            && okey in m'.overrides && m'.overrides[okey].caseId == m.overrides[okey].caseId
            && (m'.overrides[okey].approvals == m.overrides[okey].approvals
                || Approves(m, m', call, okey, |m.overrides[okey].approvals|))
  {
    hide ActorError, ReasonOk, SyntheticRef, IdOk, ApprovedBy, OpenWork, TransitionWork, RequestWork, ApproveWork, EventOf;
    var r, now := call.request, call.now;
    if Precheck(m, call).None? && (r.tenantId, call.idempotencyKey) !in m.idempotency {
      match r
      case OpenCase(_, _, _, _, _, _, _, _, _) => OpenSameOverrides(c, m, r, now, call.drawnId);
      case Transition(tenantId, caseId, next, reason, actor) =>
        TransitionOverrides(c, m, tenantId, caseId, next, reason, actor, now);
      case VerifyRecoveryProof(tenantId, caseId, proof, reason, actor) =>
        TransitionOverrides(c, m, tenantId, caseId, ProofVerified, reason + " [proof:" + ProofText(proof) + "]", actor, now);
      case RequestTrustReset(_, _, _, _, _, _) => RequestAddsOverrides(c, m, r, now, call.drawnId);
      case ApproveTrustReset(_, _, _, _) => ApproveAdds(c, m, call, okey);
    }
  }

  lemma OpenSameOverrides(c: OpsCrypto, m: Machine, r: Request, now: Time, drawnId: Id)
    requires r.OpenCase?
    ensures OpenWork(c, m, r, now, drawnId).0.overrides == m.overrides
  {
    hide OpenError, IdOk, EventOf, DateOk;
  }

  lemma RequestAddsOverrides(c: OpsCrypto, m: Machine, r: Request, now: Time, drawnId: Id)
    requires r.RequestTrustReset?
    ensures forall okey <- m.overrides ::
              okey in RequestWork(c, m, r, now, drawnId).0.overrides
              && RequestWork(c, m, r, now, drawnId).0.overrides[okey] == m.overrides[okey]
  {
    hide ActorError, ReasonOk, IdOk, EventOf, DateOk, ActiveCase;
    ActiveCaseOverrides(c, m, (r.tenantId, r.caseId), now);
  }

  lemma ApproveAdds(c: OpsCrypto, m: Machine, call: Call, okey: Key)
    requires call.request.ApproveTrustReset? && okey in m.overrides
    ensures var m' := ApproveWork(c, m, call.request, call.now).0;
            && okey in m'.overrides && m'.overrides[okey].caseId == m.overrides[okey].caseId
            && (m'.overrides[okey].approvals == m.overrides[okey].approvals
                || Approves(m, m', call, okey, |m.overrides[okey].approvals|))
  {
    hide ActorError, ReasonOk, IdOk, EventOf, ApprovedBy;
  }

  /** Every approval in a reached machine was added by its own call of the run. */
  lemma {:induction false} ApprovalsHaveCalls(c: OpsCrypto, calls: seq<Call>, okey: Key, i: nat)
    requires HashShaped(c) && okey in After(c, EmptyMachine, calls).overrides
    requires i < |After(c, EmptyMachine, calls).overrides[okey].approvals|
    ensures exists j :: 0 <= j < |calls| && ApprovalCall(c, calls, j, okey, i)
    decreases |calls|
  {
    hide Step, HashShaped, MachineOk, Approves;
    var n := |calls| - 1;
    var front := calls[..n];
    var m := After(c, EmptyMachine, front);
    assert calls[..n + 1] == calls;
    EmptyOk(c);
    RunKeepsOk(c, EmptyMachine, front);
    if okey in m.overrides {
      StepApproves(c, m, calls[n], okey);
      if i < |m.overrides[okey].approvals| {
        ApprovalsHaveCalls(c, front, okey, i);
        var j :| 0 <= j < n && ApprovalCall(c, front, j, okey, i);
        assert front[..j] == calls[..j] && front[..j + 1] == calls[..j + 1];
        assert ApprovalCall(c, calls, j, okey, i);
      } else {
        ApprovesOne(m, After(c, EmptyMachine, calls), calls[n], okey);
        assert ApprovalCall(c, calls, n, okey, i);
      }
    } else {
      NewOverrideUnapproved(c, m, calls[n], okey);
    }
  }

  lemma ApprovesOne(before: Machine, after: Machine, call: Call, okey: Key)
    requires okey in before.overrides && okey in after.overrides
    ensures Approves(before, after, call, okey, |before.overrides[okey].approvals|) ==>
              |after.overrides[okey].approvals| == |before.overrides[okey].approvals| + 1
  {
  }

  lemma NewOverrideUnapproved(c: OpsCrypto, m: Machine, call: Call, okey: Key)
    requires okey !in m.overrides
    ensures okey in Step(c, m, call).0.overrides ==> Step(c, m, call).0.overrides[okey].approvals == []
  {
    hide ActorError, ReasonOk, SyntheticRef, IdOk, ApprovedBy, EventOf, OpenWork, TransitionWork, RequestWork, ApproveWork;
    var r, now := call.request, call.now;
    if Precheck(m, call).None? && (r.tenantId, call.idempotencyKey) !in m.idempotency {
      match r
      case OpenCase(_, _, _, _, _, _, _, _, _) => OpenSameOverrides(c, m, r, now, call.drawnId);
      case Transition(tenantId, caseId, next, reason, actor) =>
        TransitionOverrides(c, m, tenantId, caseId, next, reason, actor, now);
      case VerifyRecoveryProof(tenantId, caseId, proof, reason, actor) =>
        TransitionOverrides(c, m, tenantId, caseId, ProofVerified, reason + " [proof:" + ProofText(proof) + "]", actor, now);
      case RequestTrustReset(_, _, _, _, _, _) => RequestedUnapproved(c, m, r, now, call.drawnId, okey);
      case ApproveTrustReset(_, _, _, _) => ApproveAddsNoOverride(c, m, r, now, okey);
    }
  }

  lemma RequestedUnapproved(c: OpsCrypto, m: Machine, r: Request, now: Time, drawnId: Id, okey: Key)
    requires r.RequestTrustReset? && okey !in m.overrides
    ensures var m' := RequestWork(c, m, r, now, drawnId).0;
            okey in m'.overrides ==> m'.overrides[okey].approvals == []
  {
    hide ActorError, ReasonOk, IdOk, EventOf, DateOk, ActiveCase;
    ActiveCaseOverrides(c, m, (r.tenantId, r.caseId), now);
  }

  lemma ApproveAddsNoOverride(c: OpsCrypto, m: Machine, r: Request, now: Time, okey: Key)
    requires r.ApproveTrustReset? && okey !in m.overrides
    ensures okey !in ApproveWork(c, m, r, now).0.overrides
  {
    hide ActorError, ReasonOk, IdOk, EventOf, ApprovedBy;
  }

  /** Where a case can go from a pending reset: nowhere, past its lifetime, or to resolved, and then it
      has an executed override. */
  lemma PendingStep(c: OpsCrypto, m: Machine, call: Call, key: Key)
    requires MachineOk(c, m) && key in m.cases && m.cases[key].state in {TrustResetPending, Expired}
    ensures var m' := Step(c, m, call).0;
            && key in m'.cases && m'.cases[key].state in {TrustResetPending, Expired, Resolved}
            && (m'.cases[key].state == Resolved ==> HasOverride(m', key))
  {
    hide MachineOk, ActorError, ReasonOk, SyntheticRef, IdOk, ApprovedBy, EventOf, OpenWork, TransitionWork, RequestWork, ApproveWork;
    var r, now := call.request, call.now;
    if Precheck(m, call).None? && (r.tenantId, call.idempotencyKey) !in m.idempotency {
      match r
      case OpenCase(_, _, _, _, _, _, _, _, _) => OpenLeavesCase(c, m, r, now, call.drawnId, key);
      case Transition(tenantId, caseId, next, reason, actor) =>
        TransitionFromPending(c, m, tenantId, caseId, next, reason, actor, now, key);
      case VerifyRecoveryProof(tenantId, caseId, proof, reason, actor) =>
        TransitionFromPending(c, m, tenantId, caseId, ProofVerified, reason + " [proof:" + ProofText(proof) + "]", actor, now, key);
      case RequestTrustReset(_, _, _, _, _, _) => RequestFromPending(c, m, r, now, call.drawnId, key);
      case ApproveTrustReset(_, _, _, _) => ApproveFromPending(c, m, r, now, key);
    }
    SameOverridesHave(Work(c, m, r, now, call.drawnId).0, Step(c, m, call).0, key);
  }

  lemma SameOverridesHave(a: Machine, b: Machine, key: Key)
    ensures a.overrides == b.overrides && HasOverride(a, key) ==> HasOverride(b, key)
  {
  }

  lemma OpenLeavesCase(c: OpsCrypto, m: Machine, r: Request, now: Time, drawnId: Id, key: Key)
    requires r.OpenCase? && key in m.cases
    ensures var m' := OpenWork(c, m, r, now, drawnId).0; key in m'.cases && m'.cases[key] == m.cases[key]
  {
    hide OpenError, IdOk, EventOf, DateOk;
  }

  lemma TransitionFromPending(
    c: OpsCrypto, m: Machine, tenantId: Id, caseId: Id, nextState: CaseState, reason: Text, actor: Actor, now: Time, key: Key)
    requires key in m.cases && m.cases[key].state in {TrustResetPending, Expired}
    ensures var m' := TransitionWork(c, m, tenantId, caseId, nextState, reason, actor, now).0;
            key in m'.cases && m'.cases[key].state in {TrustResetPending, Expired}
  {
    hide ActorError, ReasonOk, EventOf, MayMoveTo;
  }

  lemma RequestFromPending(c: OpsCrypto, m: Machine, r: Request, now: Time, drawnId: Id, key: Key)
    requires r.RequestTrustReset? && key in m.cases && m.cases[key].state in {TrustResetPending, Expired}
    ensures var m' := RequestWork(c, m, r, now, drawnId).0;
            key in m'.cases && m'.cases[key].state in {TrustResetPending, Expired}
  {
    hide ActorError, ReasonOk, EventOf, IdOk, DateOk;
  }

  lemma ApproveFromPending(c: OpsCrypto, m: Machine, r: Request, now: Time, key: Key)
    requires r.ApproveTrustReset? && key in m.cases && m.cases[key].state in {TrustResetPending, Expired}
    ensures var m' := ApproveWork(c, m, r, now).0;
            && key in m'.cases && m'.cases[key].state in {TrustResetPending, Expired, Resolved}
            && (m'.cases[key].state == Resolved ==> HasOverride(m', key))
  {
    hide ActorError, ReasonOk, EventOf, IdOk, ApprovedBy;
    var okey := (r.tenantId, r.overrideId);
    var m' := ApproveWork(c, m, r, now).0;
    if m'.cases[key].state == Resolved {
      assert okey in m'.overrides && CaseKeyOf(okey, m'.overrides[okey]) == key;
    }
  }

  lemma StepKeepsHasOverride(c: OpsCrypto, m: Machine, call: Call, key: Key)
    requires HasOverride(m, key)
    ensures HasOverride(Step(c, m, call).0, key)
  {
    hide Step;
    var okey :| okey in m.overrides && CaseKeyOf(okey, m.overrides[okey]) == key;
    StepApproves(c, m, call, okey);
    assert CaseKeyOf(okey, Step(c, m, call).0.overrides[okey]) == key;
  }

  /** Once in a pending reset, a case found resolved later has an override. */
  lemma {:induction false} ResolvedHasOverride(c: OpsCrypto, calls: seq<Call>, k: nat, key: Key)
    requires HashShaped(c) && k <= |calls|
    requires key in After(c, EmptyMachine, calls[..k]).cases
    requires After(c, EmptyMachine, calls[..k]).cases[key].state == TrustResetPending
    ensures var m := After(c, EmptyMachine, calls);
            && key in m.cases && m.cases[key].state in {TrustResetPending, Expired, Resolved}
            && (m.cases[key].state == Resolved ==> HasOverride(m, key))
    decreases |calls|
  {
    hide Step, HashShaped, MachineOk, HasOverride, Decided;
    if k == |calls| {
      assert calls[..k] == calls;
    } else {
      var n := |calls| - 1;
      var front := calls[..n];
      assert front[..k] == calls[..k];
      ResolvedHasOverride(c, front, k, key);
      EmptyOk(c);
      RunKeepsOk(c, EmptyMachine, front);
      var m := After(c, EmptyMachine, front);
      if m.cases[key].state == Resolved {
        StepKeepsHasOverride(c, m, calls[n], key);
        TerminalStays(c, m, calls[n], key);
      } else {
        PendingStep(c, m, calls[n], key);
      }
    }
  }

  /** A finished case never moves again. */
  lemma TerminalStays(c: OpsCrypto, m: Machine, call: Call, key: Key)
    requires key in m.cases && Terminal(m.cases[key].state)
    ensures key in Step(c, m, call).0.cases && Step(c, m, call).0.cases[key] == m.cases[key]
  {
    hide ActorError, ReasonOk, SyntheticRef, IdOk, ApprovedBy, EventOf, OpenWork, TransitionWork, RequestWork, ApproveWork;
    var r, now := call.request, call.now;
    if Precheck(m, call).None? && (r.tenantId, call.idempotencyKey) !in m.idempotency {
      match r
      case OpenCase(_, _, _, _, _, _, _, _, _) => OpenLeavesCase(c, m, r, now, call.drawnId, key);
      case Transition(tenantId, caseId, next, reason, actor) =>
        TransitionLeavesTerminal(c, m, tenantId, caseId, next, reason, actor, now, key);
      case VerifyRecoveryProof(tenantId, caseId, proof, reason, actor) =>
        TransitionLeavesTerminal(c, m, tenantId, caseId, ProofVerified, reason + " [proof:" + ProofText(proof) + "]", actor, now, key);
      case RequestTrustReset(_, _, _, _, _, _) => RequestLeavesTerminal(c, m, r, now, call.drawnId, key);
      case ApproveTrustReset(_, _, _, _) => ApproveLeavesTerminal(c, m, r, now, key);
    }
  }

  lemma TransitionLeavesTerminal(
    c: OpsCrypto, m: Machine, tenantId: Id, caseId: Id, nextState: CaseState, reason: Text, actor: Actor, now: Time, key: Key)
    requires key in m.cases && Terminal(m.cases[key].state)
    ensures var m' := TransitionWork(c, m, tenantId, caseId, nextState, reason, actor, now).0;
            key in m'.cases && m'.cases[key] == m.cases[key]
  {
    hide ActorError, ReasonOk, EventOf, MayMoveTo, NextStates;
  }

  lemma RequestLeavesTerminal(c: OpsCrypto, m: Machine, r: Request, now: Time, drawnId: Id, key: Key)
    requires r.RequestTrustReset? && key in m.cases && Terminal(m.cases[key].state)
    ensures var m' := RequestWork(c, m, r, now, drawnId).0; key in m'.cases && m'.cases[key] == m.cases[key]
  {
    hide ActorError, ReasonOk, EventOf, IdOk, DateOk;
  }

  lemma ApproveLeavesTerminal(c: OpsCrypto, m: Machine, r: Request, now: Time, key: Key)
    requires r.ApproveTrustReset? && key in m.cases && Terminal(m.cases[key].state)
    ensures var m' := ApproveWork(c, m, r, now).0; key in m'.cases && m'.cases[key] == m.cases[key]
  {
    hide ActorError, ReasonOk, EventOf, IdOk, ApprovedBy;
  }

  /** An override executed by exactly two approvals, of two actors in approver roles, each added by a
      call of the run that did not come from the subject's device. */
  ghost predicate ExecutedByTwo(c: OpsCrypto, calls: seq<Call>, okey: Key, key: Key) {
    var m := After(c, EmptyMachine, calls);
    && okey in m.overrides
    && var o := m.overrides[okey];
       && CaseKeyOf(okey, o) == key && o.state == Executed && |o.approvals| == 2
       && o.approvals[0].actorId != o.approvals[1].actorId
       && IsApprover(o.approvals[0].role) && IsApprover(o.approvals[1].role)
       && (exists j :: 0 <= j < |calls| && ApprovalCall(c, calls, j, okey, 0))
       && (exists j :: 0 <= j < |calls| && ApprovalCall(c, calls, j, okey, 1))
  }

  /** A case that enters a pending trust reset becomes resolved only through its single override. */
  lemma ResolvedOnlyThroughOverride(c: OpsCrypto, calls: seq<Call>, k: nat, key: Key)
    requires HashShaped(c) && k <= |calls|
    requires key in After(c, EmptyMachine, calls[..k]).cases
    requires After(c, EmptyMachine, calls[..k]).cases[key].state == TrustResetPending
    requires key in After(c, EmptyMachine, calls).cases && After(c, EmptyMachine, calls).cases[key].state == Resolved
    ensures exists okey :: ExecutedByTwo(c, calls, okey, key)
    ensures forall a, b :: ExecutedByTwo(c, calls, a, key) && ExecutedByTwo(c, calls, b, key) ==> a == b
  {
    hide HashShaped, MachineOk, Decided, ApprovalCall;
    ResolvedHasOverride(c, calls, k, key);
    EmptyOk(c);
    RunKeepsOk(c, EmptyMachine, calls);
    var m := After(c, EmptyMachine, calls);
    var okey :| okey in m.overrides && CaseKeyOf(okey, m.overrides[okey]) == key;
    ResolvedOverride(c, m, okey);
    ApprovalsHaveCalls(c, calls, okey, 0);
    ApprovalsHaveCalls(c, calls, okey, 1);
    assert ExecutedByTwo(c, calls, okey, key);
    forall a, b | ExecutedByTwo(c, calls, a, key) && ExecutedByTwo(c, calls, b, key) ensures a == b {
      if a != b { OneOverridePerCase(c, m, a, b); }
    }
  }

  lemma ResolvedOverride(c: OpsCrypto, m: Machine, okey: Key)
    requires MachineOk(c, m) && okey in m.overrides
    requires CaseKeyOf(okey, m.overrides[okey]) in m.cases && m.cases[CaseKeyOf(okey, m.overrides[okey])].state == Resolved
    ensures var o := m.overrides[okey];
            && o.state == Executed && |o.approvals| == 2 && o.approvals[0].actorId != o.approvals[1].actorId
            && IsApprover(o.approvals[0].role) && IsApprover(o.approvals[1].role)
  {
    hide MachineOk, Events, Derived, OfKind, Witnessed;
    ApprovableCase(c, m, okey);
  }
}
