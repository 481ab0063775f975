/** What each call of the operations machine answers under an unused key: exactly when it succeeds, and the
    case, override, event and notification it then leaves.  Over runs, who moved each case and along which row
    of the table. */
module OperationsAnswers {
  import opened Common
  import opened Wrappers
  import opened Operations
  import opened OperationsInvariant
  import opened OperationsTheorems

  // ---------- the tables, row by row ----------

  /** The moves a case of this type may make. */
  function Rows(t: CaseType): set<(CaseState, CaseState)> {
    match t
    case DeviceLoss =>
      {(Opened, Contained), (Opened, Cancelled), (Contained, TrustResetPending), (Contained, Resolved), (TrustResetPending, Resolved)}
    case AccountRecovery =>
      {(Opened, ProofVerified), (Opened, Cancelled), (ProofVerified, TrustResetPending), (TrustResetPending, Resolved)}
    case FalseDeclineReview =>
      {(Opened, UnderReview), (Opened, Cancelled), (UnderReview, Upheld), (UnderReview, Overturned)}
    case FraudulentApprovalDispute =>
      {(Opened, PaymentFrozen), (Opened, Cancelled), (PaymentFrozen, UnderReview), (UnderReview, Upheld), (UnderReview, Remediated)}
    case CompromiseResponse =>
      {(Opened, Contained), (Contained, Eradicated), (Contained, TrustResetPending), (Eradicated, Resolved), (TrustResetPending, Resolved)}
  }

  /** The roles that may move a case to a state. */
  function RolesFor(to: CaseState): set<Role> {
    match to
    case Contained => {FraudAnalyst, SecurityOperator, Supervisor}
    case ProofVerified => {RecoveryOfficer, SecurityOperator}
    case UnderReview => {FraudAnalyst, Supervisor}
    case PaymentFrozen => {FraudAnalyst, SecurityOperator, Supervisor}
    case Eradicated => {SecurityOperator, Supervisor}
    case Upheld => {FraudAnalyst, Supervisor}
    case Overturned => {FraudAnalyst, Supervisor}
    case Remediated => {FraudAnalyst, SecurityOperator, Supervisor}
    case Resolved => {SecurityOperator, Supervisor}
    case Cancelled => {Customer, FraudAnalyst, SecurityOperator, Supervisor}
    case _ => {}
  }

  lemma TableIff(t: CaseType, s: CaseState, next: CaseState)
    ensures next in NextStates(t, s) <==> (s, next) in Rows(t)
  {
  }

  lemma RolesIff(role: Role, to: CaseState)
    ensures MayMoveTo(role, to) <==> role in RolesFor(to)
  {
  }

  // ---------- texts ----------

  function TrimStart(s: Text): Text { if s != "" && Blank(s[0]) then TrimStart(s[1..]) else s }

  function TrimEnd(s: Text): Text { if s != "" && Blank(s[|s| - 1]) then TrimEnd(s[..|s| - 1]) else s }

  lemma {:induction false} TrimShortens(s: Text)
    ensures |TrimStart(s)| <= |s| && |TrimEnd(s)| <= |s|
  {
    if s != "" && Blank(s[0]) { TrimShortens(s[1..]); }
    if s != "" && Blank(s[|s| - 1]) { TrimShortens(s[..|s| - 1]); }
  }

  /** A reason is a text of 3 to 512 characters that trimming leaves as it is. */
  lemma ReasonIff(s: Text)
    ensures ReasonOk(s) <==> 3 <= |s| <= 512 && TrimEnd(TrimStart(s)) == s
  {
    if 3 <= |s| <= 512 && Blank(s[0]) {
      TrimShortens(s[1..]);
      TrimShortens(TrimStart(s));
    } else if 3 <= |s| <= 512 && Blank(s[|s| - 1]) {
      TrimShortens(s[..|s| - 1]);
    }
  }

  /** A synthetic reference is the prefix and an identifier after it. */
  lemma SyntheticIff(s: Text)
    ensures SyntheticRef(s) <==> exists id: Text :: s == "synthetic-" + id && Identifier(id, 119)
  {
    hide Identifier;
    if SyntheticRef(s) { assert s == "synthetic-" + s[|SYNTHETIC|..]; }
    if id: Text :| s == "synthetic-" + id && Identifier(id, 119) { assert s[|SYNTHETIC|..] == id; }
  }

  // ---------- shared conditions ----------

  /** The first use of a well-formed key, at a time that can be written down. */
  predicate FirstUse(m: Machine, tenantId: Id, call: Call) {
    && IdOk(tenantId) && IdOk(call.idempotencyKey) && DateOk(call.now) && (tenantId, call.idempotencyKey) !in m.idempotency
  }

  predicate ActorOk(tenantId: Id, actor: Actor) {
    actor.tenantId == tenantId && IdOk(actor.actorId) && (actor.deviceId != "" ==> IdOk(actor.deviceId))
  }

  /** A case of the tenant that is not finished and not past its lifetime. */
  predicate Running(m: Machine, key: Key, now: Time) {
    && key in m.cases && now < m.cases[key].expiresAt
    && m.cases[key].state !in {Resolved, Upheld, Overturned, Remediated, Expired, Cancelled}
  }

  /** One more event, about this case as it then is, linked to the chain; nothing about other cases. */
  ghost predicate Recorded(
    c: OpsCrypto, audit: seq<AuditEvent>, audit': seq<AuditEvent>, v: Case, kind: EventKind, actorId: Id, role: Role, reason: Text, now: Time)
  {
    && |audit'| == |audit| + 1 && audit'[..|audit|] == audit
    && var e := audit'[|audit|];
       && e.body == AuditBody(
            |audit| + 1, v.tenantId, v.caseId, kind, actorId, role, reason, v.correlationId, now,
            if audit == [] then "GENESIS" else audit[|audit| - 1].hash)
       && e.hash == c.digest(e.body)
  }

  function IntentFor(v: Case, template: Template, now: Time): Intent {
    Intent(v.tenantId, v.caseId, template, v.subjectRef, now)
  }

  predicate Failing(m: Machine, r: (Machine, Reply)) { r.1.Failed? }

  /** A call reaches the cache exactly with a well-formed tenant, key and time and, for a recovery proof, a strong
      method and an account recovery case of the tenant; every other call fails and writes nothing. */
  lemma PrecheckIff(c: OpsCrypto, m: Machine, call: Call)
    ensures var r := call.request;
            && (Precheck(m, call).None? <==>
                  && IdOk(r.tenantId) && IdOk(call.idempotencyKey) && DateOk(call.now)
                  && (r.VerifyRecoveryProof? ==>
                        && r.proofMethod != OtherProof && IdOk(r.caseId) && (r.tenantId, r.caseId) in m.cases
                        && m.cases[(r.tenantId, r.caseId)].caseType == AccountRecovery))
            && (Precheck(m, call).Some? ==> Step(c, m, call).0 == m && Step(c, m, call).1.Failed?)
  {
    hide IdOk, DateOk, Work;
  }

  /** A used key is answered with its cached reply, a failure included, exactly when the request hashes to what is
      cached with it, and is refused otherwise; either way nothing changes. */
  lemma UsedKeyIff(c: OpsCrypto, m: Machine, call: Call)
    requires Precheck(m, call).None? && (call.request.tenantId, call.idempotencyKey) in m.idempotency
    ensures var cached := m.idempotency[(call.request.tenantId, call.idempotencyKey)];
            Step(c, m, call)
            == (m, if c.requestHash(call.request, call.idempotencyKey, call.now) == cached.requestHash then cached.reply else Failed(KeyReused))
  {
    hide IdOk, DateOk, Work;
  }

  /** What every call leaves in the cache: its reply, failures included, under its own key. */
  lemma CachesReply(c: OpsCrypto, m: Machine, call: Call)
    requires Precheck(m, call).None? && (call.request.tenantId, call.idempotencyKey) !in m.idempotency
    ensures var (m', reply) := Step(c, m, call);
            m'.idempotency == m.idempotency[
              (call.request.tenantId, call.idempotencyKey) := Cached(c.requestHash(call.request, call.idempotencyKey, call.now), reply)]
  {
    WorkKeepsCache(c, m, call.request, call.now, call.drawnId);
    hide Work, IdOk;
  }

  lemma WorkKeepsCache(c: OpsCrypto, m: Machine, r: Request, now: Time, drawnId: Id)
    ensures Work(c, m, r, now, drawnId).0.idempotency == m.idempotency
  {
    hide EventOf, ActorError, ReasonOk, IdOk, NextStates, MayMoveTo, OpenError, ApprovedBy, DateOk;
  }

  // ---------- opening ----------

  /** Opening succeeds exactly for an actor of the tenant, a synthetic subject, well-formed device, reason and
      correlation id, a lifetime of a minute to thirty days that ends at a representable time, and an unused
      case id.  The case is then opened as asked, with one event and one notification. */
  lemma OpenIff(c: OpsCrypto, m: Machine, call: Call)
    requires call.request.OpenCase? && FirstUse(m, call.request.tenantId, call)
    ensures var r, now := call.request, call.now;
            var id := if r.suppliedId.Some? then r.suppliedId.value else call.drawnId;
            var (m', reply) := Step(c, m, call);
            && (!reply.Failed? <==>
                  && ActorOk(r.tenantId, r.actor) && SyntheticRef(r.subjectRef) && (r.subjectDeviceId != "" ==> IdOk(r.subjectDeviceId))
                  && ReasonOk(r.reason) && IdOk(r.correlationId) && 60_000 <= r.ttlMs <= 2_592_000_000 && IdOk(id)
                  && (r.tenantId, id) !in m.cases && DateOk(now + r.ttlMs))
            && (reply.Failed? ==> m' == m.(idempotency := m'.idempotency))
            && (!reply.Failed? ==>
                  var v := Case(r.tenantId, id, r.caseType, Opened, r.subjectRef, r.subjectDeviceId, r.reason, r.correlationId, now,
                                now + r.ttlMs, now);
                  && reply == CaseReply(v) && m'.cases == m.cases[(r.tenantId, id) := v] && m'.overrides == m.overrides
                  && Recorded(c, m.audit, m'.audit, v, CaseMoved(Opened), r.actor.actorId, r.actor.role, r.reason, now)
                  && m'.intents == m.intents + [IntentFor(v, CaseOpened, now)])
  {
    hide IdOk, ReasonOk, SyntheticRef, DateOk;
  }

  // ---------- moving ----------

  /** A transition is of a running case, not one that dual control alone may make, along a row of the table,
      and by a role for it. */
  predicate MayMove(m: Machine, key: Key, to: CaseState, actor: Actor, now: Time) {
    && Running(m, key, now)
    && to != TrustResetPending && !(to == Resolved && m.cases[key].state == TrustResetPending)
    && (m.cases[key].state, to) in Rows(m.cases[key].caseType) && actor.role in RolesFor(to)
  }

  ghost predicate Moved(c: OpsCrypto, m: Machine, m': Machine, key: Key, to: CaseState, actor: Actor, reason: Text, now: Time, reply: Reply)
    requires key in m.cases
  {
    var v := m.cases[key].(state := to, updatedAt := now);
    && reply == CaseReply(v) && m'.cases == m.cases[key := v] && m'.overrides == m.overrides
    && Recorded(c, m.audit, m'.audit, v, CaseMoved(to), actor.actorId, actor.role, reason, now)
    && m'.intents == m.intents + [IntentFor(v, CaseStateChanged, now)]
  }

  lemma MoveSucceedsIff(c: OpsCrypto, m: Machine, tenantId: Id, caseId: Id, to: CaseState, reason: Text, actor: Actor, now: Time)
    ensures !TransitionWork(c, m, tenantId, caseId, to, reason, actor, now).1.Failed?
       <==> ActorOk(tenantId, actor) && ReasonOk(reason) && MayMove(m, (tenantId, caseId), to, actor, now)
  {
    hide NextStates, MayMoveTo, IdOk, ReasonOk, Record, Notify, Rows, RolesFor;
    var key := (tenantId, caseId);
    if key in m.cases { TableIff(m.cases[key].caseType, m.cases[key].state, to); }
    RolesIff(actor.role, to);
  }

  lemma MoveWorkIff(c: OpsCrypto, m: Machine, tenantId: Id, caseId: Id, to: CaseState, reason: Text, actor: Actor, now: Time)
    ensures var key := (tenantId, caseId);
            var (m', reply) := TransitionWork(c, m, tenantId, caseId, to, reason, actor, now);
            && (!reply.Failed? <==> ActorOk(tenantId, actor) && ReasonOk(reason) && MayMove(m, key, to, actor, now))
            && (!reply.Failed? ==> Moved(c, m, m', key, to, actor, reason, now, reply))
  {
    hide NextStates, MayMoveTo, ActorError, ReasonOk, ActorOk, MayMove;
    MoveSucceedsIff(c, m, tenantId, caseId, to, reason, actor, now);
    MayMoveKnown(m, (tenantId, caseId), to, actor, now);
  }

  lemma MayMoveKnown(m: Machine, key: Key, to: CaseState, actor: Actor, now: Time)
    ensures MayMove(m, key, to, actor, now) ==> key in m.cases
  {
  }

  /** A transition succeeds exactly for an actor of the tenant with a reason, when it may be made; the case is
      then in that state, with one event and one notification. */
  lemma TransitionIff(c: OpsCrypto, m: Machine, call: Call)
    requires call.request.Transition? && FirstUse(m, call.request.tenantId, call)
    ensures var r, now := call.request, call.now;
            var key := (r.tenantId, r.caseId);
            var (m', reply) := Step(c, m, call);
            && (!reply.Failed? <==> ActorOk(r.tenantId, r.actor) && ReasonOk(r.reason) && MayMove(m, key, r.nextState, r.actor, now))
            && (!reply.Failed? ==> Moved(c, m, m', key, r.nextState, r.actor, r.reason, now, reply))
  {
    hide TransitionWork, ActorOk, MayMove, IdOk, ReasonOk, DateOk;
    var r := call.request;
    MoveWorkIff(c, m, r.tenantId, r.caseId, r.nextState, r.reason, r.actor, call.now);
  }

  /** A recovery proof is a transition to `proof_verified` of an account recovery case, by one of the three
      strong methods, whose reason names the method. */
  lemma ProofIff(c: OpsCrypto, m: Machine, call: Call)
    requires call.request.VerifyRecoveryProof? && FirstUse(m, call.request.tenantId, call)
    ensures var r, now := call.request, call.now;
            var key := (r.tenantId, r.caseId);
            var proof := match r.proofMethod
                          case ExistingPasskey => "existing_passkey"
                          case InPersonStrongIdentity => "in_person_strong_identity"
                          case BankVerifiedStrongIdentity => "bank_verified_strong_identity"
                          case OtherProof => "";
            var reason := r.reason + " [proof:" + proof + "]";
            var (m', reply) := Step(c, m, call);
            && (!reply.Failed? <==>
                  && r.proofMethod != OtherProof && IdOk(r.caseId) && key in m.cases && m.cases[key].caseType == AccountRecovery
                  && ActorOk(r.tenantId, r.actor) && ReasonOk(reason) && MayMove(m, key, ProofVerified, r.actor, now))
            && (!reply.Failed? ==> Moved(c, m, m', key, ProofVerified, r.actor, reason, now, reply))
  {
    hide TransitionWork, ActorOk, MayMove, IdOk, ReasonOk, DateOk;
    var r := call.request;
    MoveWorkIff(c, m, r.tenantId, r.caseId, ProofVerified, r.reason + " [proof:" + ProofText(r.proofMethod) + "]", r.actor, call.now);
  }

  // ---------- trust resets ----------

  /** A trust reset request succeeds exactly for an approver of the tenant with a reason, a window of a minute
      to a day that ends at a representable time, a running case ready for it and an unused override id.  The
      case is then pending and the override waits without approvals. */
  lemma RequestIff(c: OpsCrypto, m: Machine, call: Call)
    requires call.request.RequestTrustReset? && FirstUse(m, call.request.tenantId, call)
    ensures var r, now := call.request, call.now;
            var key, id := (r.tenantId, r.caseId), if r.suppliedId.Some? then r.suppliedId.value else call.drawnId;
            var (m', reply) := Step(c, m, call);
            && (!reply.Failed? <==>
                  && ActorOk(r.tenantId, r.actor) && ReasonOk(r.reason) && r.actor.role in {SecurityOperator, Supervisor, RecoveryOfficer}
                  && 60_000 <= r.ttlMs <= 86_400_000 && Running(m, key, now)
                  && (m.cases[key].caseType, m.cases[key].state)
                     in {(AccountRecovery, ProofVerified), (DeviceLoss, Contained), (CompromiseResponse, Contained)}
                  && IdOk(id) && (r.tenantId, id) !in m.overrides && DateOk(now + r.ttlMs))
            && (!reply.Failed? ==>
                  var v := m.cases[key].(state := TrustResetPending, updatedAt := now);
                  var o := Override(r.tenantId, id, v.caseId, Pending, r.reason, r.actor.actorId, now, now + r.ttlMs, [], None);
                  && reply == OverrideReply(o) && m'.cases == m.cases[key := v] && m'.overrides == m.overrides[(r.tenantId, id) := o]
                  && Recorded(c, m.audit, m'.audit, v, ResetRequested, r.actor.actorId, r.actor.role, r.reason, now)
                  && m'.intents == m.intents + [IntentFor(v, ApprovalRequested, now)])
  {
    hide IdOk, ReasonOk, DateOk;
  }

  predicate MayApprove(m: Machine, okey: Key, actor: Actor, now: Time) {
    && okey in m.overrides
    && var o, key := m.overrides[okey], (okey.0, m.overrides[okey].caseId);
       && Running(m, key, now) && o.state == Pending && now < o.expiresAt
       && (forall a <- o.approvals :: a.actorId != actor.actorId)
       && (m.cases[key].subjectDeviceId != "" ==> actor.deviceId != m.cases[key].subjectDeviceId)
  }

  /** An approval succeeds exactly for an approver of the tenant with a reason, while the override and its case
      are open, who has not approved it before and is not on the affected device.  It adds that approval; the
      second one executes the override and resolves the case. */
  lemma ApproveIff(c: OpsCrypto, m: Machine, call: Call)
    requires call.request.ApproveTrustReset? && FirstUse(m, call.request.tenantId, call)
    ensures var r, now := call.request, call.now;
            var okey := (r.tenantId, r.overrideId);
            var (m', reply) := Step(c, m, call);
            && (!reply.Failed? <==>
                  && ActorOk(r.tenantId, r.actor) && ReasonOk(r.reason) && r.actor.role in {SecurityOperator, Supervisor, RecoveryOfficer}
                  && IdOk(r.overrideId) && MayApprove(m, okey, r.actor, now))
            && (!reply.Failed? ==> ApprovedAs(c, m, m', okey, r.actor, r.reason, now, reply))
  {
    hide IdOk, ReasonOk, DateOk, ApprovedAs;
    var r, now := call.request, call.now;
    var okey := (r.tenantId, r.overrideId);
    if okey in m.overrides && !ApproveWork(c, m, r, now).1.Failed? {
      ApprovalLeaves(c, m, r, now);
      var m1, m2 := ApproveWork(c, m, r, now).0, Step(c, m, call).0;
      CacheApart(c, m, m1, m2, okey, r.actor, r.reason, now, ApproveWork(c, m, r, now).1);
    }
  }

  ghost predicate ApprovedAs(c: OpsCrypto, m: Machine, m': Machine, okey: Key, actor: Actor, reason: Text, now: Time, reply: Reply)
    requires okey in m.overrides
  {
    var o, key := m.overrides[okey], (okey.0, m.overrides[okey].caseId);
    var o1 := o.(approvals := o.approvals + [Approval(actor.actorId, actor.role, now)]);
    && key in m.cases
    && if |o.approvals| != 1 then
         && reply == OverrideReply(o1) && m'.overrides == m.overrides[okey := o1] && m'.cases == m.cases && m'.intents == m.intents
         && Recorded(c, m.audit, m'.audit, m.cases[key], ResetApproved, actor.actorId, actor.role, reason, now)
       else
         var o2, v := o1.(state := Executed, executedAt := Some(now)), m.cases[key].(state := Resolved, updatedAt := now);
         && reply == OverrideReply(o2) && m'.overrides == m.overrides[okey := o2] && m'.cases == m.cases[key := v]
         && |m'.audit| == |m.audit| + 2
         && Recorded(c, m.audit, m'.audit[..|m.audit| + 1], m.cases[key], ResetApproved, actor.actorId, actor.role, reason, now)
         && Recorded(c, m'.audit[..|m.audit| + 1], m'.audit, v, ResetExecuted, "system", System, o.reason, now)
         && m'.intents == m.intents + [IntentFor(v, TrustResetCompleted, now)]
  }

  lemma CacheApart(
    c: OpsCrypto, m: Machine, m1: Machine, m2: Machine, okey: Key, actor: Actor, reason: Text, now: Time, reply: Reply)
    requires okey in m.overrides && ApprovedAs(c, m, m1, okey, actor, reason, now, reply) && m2 == m1.(idempotency := m2.idempotency)
    ensures ApprovedAs(c, m, m2, okey, actor, reason, now, reply)
  {
  }

  lemma ApprovalLeaves(c: OpsCrypto, m: Machine, r: Request, now: Time)
    requires r.ApproveTrustReset? && (r.tenantId, r.overrideId) in m.overrides && !ApproveWork(c, m, r, now).1.Failed?
    ensures ApprovedAs(c, m, ApproveWork(c, m, r, now).0, (r.tenantId, r.overrideId), r.actor, r.reason, now, ApproveWork(c, m, r, now).1)
  {
    hide IdOk, ReasonOk, ActorError, ApprovedBy;
    var okey := (r.tenantId, r.overrideId);
    var key := (r.tenantId, m.overrides[okey].caseId);
    assert m.cases[key := m.cases[key]] == m.cases;
    var m' := ApproveWork(c, m, r, now).0;
    if |m.overrides[okey].approvals| == 1 {
      assert m'.audit[..|m.audit| + 1][..|m.audit|] == m.audit;
    }
  }

  predicate NothingHappens(m: Machine, m': Machine) { m'.cases == m.cases && m'.overrides == m.overrides && m'.audit == m.audit }

  ghost predicate CaseLapses(c: OpsCrypto, m: Machine, m': Machine, key: Key, now: Time) {
    && key in m.cases && now >= m.cases[key].expiresAt && m'.overrides == m.overrides
    && m'.cases == m.cases[key := m.cases[key].(state := Expired, updatedAt := now)]
    && Recorded(c, m.audit, m'.audit, m.cases[key], CaseMoved(Expired), "system", System, "case lifetime expired", now)
  }

  ghost predicate OverrideLapses(c: OpsCrypto, m: Machine, m': Machine, key: Key, okey: Key, now: Time) {
    && key in m.cases && okey in m.overrides && now >= m.overrides[okey].expiresAt && m'.cases == m.cases
    && m'.overrides == m.overrides[okey := m.overrides[okey].(state := Lapsed)]
    && Recorded(c, m.audit, m'.audit, m.cases[key], ResetExpired, "system", System, "approval window expired", now)
  }

  predicate LeftPending(m: Machine, m': Machine, key: Key, now: Time) {
    && key in m.cases && m'.overrides == m.overrides && m'.audit == m.audit
    && m'.cases == m.cases[key := m.cases[key].(state := TrustResetPending, updatedAt := now)]
  }

  /** What a failing call may leave. */
  ghost predicate FailureLeaves(c: OpsCrypto, m: Machine, m': Machine, key: Key, r: Request, now: Time) {
    && m'.intents == m.intents
    && (NothingHappens(m, m') || CaseLapses(c, m, m', key, now)
        || (r.ApproveTrustReset? && OverrideLapses(c, m, m', key, (r.tenantId, r.overrideId), now))
        || (r.RequestTrustReset? && !DateOk(now + r.ttlMs) && LeftPending(m, m', key, now)))
  }

  lemma ActiveLeaves(c: OpsCrypto, m: Machine, key: Key, r: Request, now: Time)
    ensures ActiveCase(c, m, key, now).1.Some? ==> FailureLeaves(c, m, ActiveCase(c, m, key, now).0, key, r, now)
    ensures ActiveCase(c, m, key, now).1.None? ==> ActiveCase(c, m, key, now).0 == m && key in m.cases
    ensures FailureLeaves(c, m, m, key, r, now)
  {
  }

  lemma ApproveFailureLeaves(c: OpsCrypto, m: Machine, r: Request, now: Time)
    requires r.ApproveTrustReset? && ApproveWork(c, m, r, now).1.Failed?
    ensures FailureLeaves(c, m, ApproveWork(c, m, r, now).0,
                          (r.tenantId, if (r.tenantId, r.overrideId) in m.overrides then m.overrides[(r.tenantId, r.overrideId)].caseId else ""),
                          r, now)
  {
    hide ActiveCase, ActorError, ReasonOk, IdOk, ApprovedBy;
    var okey := (r.tenantId, r.overrideId);
    var key := (r.tenantId, if okey in m.overrides then m.overrides[okey].caseId else "");
    ActiveLeaves(c, m, key, r, now);
    if key in m.cases { assert m.cases[key := m.cases[key]] == m.cases; }
  }

  /** Failing calls write nothing but the cache, except three: finding a case past its lifetime expires it,
      approving an override past its window lapses it, and a reset whose window ends past the last
      representable time leaves its case pending. */
  lemma FailuresChange(c: OpsCrypto, m: Machine, call: Call)
    requires Step(c, m, call).1.Failed?
    ensures FailureLeaves(c, m, Step(c, m, call).0, CaseTouched(m, call), call.request, call.now)
  {
    hide ActiveCase, ApproveWork, IdOk, ReasonOk, DateOk, ActorError, NextStates, MayMoveTo, OpenError, FailureLeaves;
    var key, r, now := CaseTouched(m, call), call.request, call.now;
    ActiveLeaves(c, m, key, r, now);
    SameButCache(c, m, Work(c, m, r, now, call.drawnId).0, Step(c, m, call).0, key, r, now);
    SameButCache(c, m, m, Step(c, m, call).0, key, r, now);
    if r.ApproveTrustReset? && ApproveWork(c, m, r, now).1.Failed? { ApproveFailureLeaves(c, m, r, now); }
    if r.RequestTrustReset? && key in m.cases {
      var v := m.cases[key].(state := TrustResetPending, updatedAt := now);
      PendingLeaves(c, m, m.(cases := m.cases[key := v]), key, r, now);
    }
  }

  lemma SameButCache(c: OpsCrypto, m: Machine, a: Machine, b: Machine, key: Key, r: Request, now: Time)
    ensures a.cases == b.cases && a.overrides == b.overrides && a.audit == b.audit && a.intents == b.intents ==>
              (FailureLeaves(c, m, a, key, r, now) <==> FailureLeaves(c, m, b, key, r, now))
  {
  }

  lemma PendingLeaves(c: OpsCrypto, m: Machine, m': Machine, key: Key, r: Request, now: Time)
    requires r.RequestTrustReset? && key in m.cases
    requires m' == m.(cases := m.cases[key := m.cases[key].(state := TrustResetPending, updatedAt := now)])
    ensures !DateOk(now + r.ttlMs) ==> FailureLeaves(c, m, m', key, r, now)
  {
  }

  function CaseTouched(m: Machine, call: Call): Key {
    var r := call.request;
    match r
    case OpenCase(tenantId, _, _, _, _, _, _, _, _) => (tenantId, "")
    case Transition(tenantId, caseId, _, _, _) => (tenantId, caseId)
    case VerifyRecoveryProof(tenantId, caseId, _, _, _) => (tenantId, caseId)
    case RequestTrustReset(tenantId, caseId, _, _, _, _) => (tenantId, caseId)
    case ApproveTrustReset(tenantId, overrideId, _, _) =>
      (tenantId, if (tenantId, overrideId) in m.overrides then m.overrides[(tenantId, overrideId)].caseId else "")
  }

  // ---------- who moved a case ----------

  /** A move other than opening and expiring was made by a role for it, along a row of the table from the state
      the case's earlier events lead to. */
  ghost predicate MoveAllowed(m: Machine, i: nat)
    requires i < |m.audit|
  {
    var b := m.audit[i].body;
    b.kind.CaseMoved? && b.kind.to !in {Opened, Expired} ==>
      && (b.tenantId, b.caseId) in m.cases && b.actorRole in RolesFor(b.kind.to)
      && (Derived(Events(m.audit[..i], (b.tenantId, b.caseId))), b.kind.to) in Rows(m.cases[(b.tenantId, b.caseId)].caseType)
  }

  ghost predicate MovesAllowed(m: Machine) { forall i :: 0 <= i < |m.audit| ==> MoveAllowed(m, i) }

  /** Earlier moves stay allowed while the audit only grows and cases keep their type. */
  lemma AllowedStays(m: Machine, m': Machine, i: nat)
    requires m.audit <= m'.audit && i < |m.audit| && MoveAllowed(m, i) && CasesKept(m, m')
    ensures MoveAllowed(m', i)
  {
    assert m'.audit[..i] == m.audit[..i];
  }

  /** No event but that of a successful move is a move other than opening and expiring. */
  lemma StepAddsMoves(c: OpsCrypto, m: Machine, call: Call)
    requires MachineOk(c, m)
    ensures var m' := Step(c, m, call).0;
            && m.audit <= m'.audit
            && forall i :: |m.audit| <= i < |m'.audit| ==> MoveAllowed(m', i)
  {
    hide MachineOk, OpenWork, TransitionWork, RequestWork, ApproveWork, MoveAllowed;
    var r, now := call.request, call.now;
    SameAudit(Work(c, m, r, now, call.drawnId).0, Step(c, m, call).0);
    match r
    case OpenCase(_, _, _, _, _, _, _, _, _) => OpenAddsNoMove(c, m, r, now, call.drawnId);
    case Transition(tenantId, caseId, next, reason, actor) => MoveAdds(c, m, tenantId, caseId, next, reason, actor, now);
    case VerifyRecoveryProof(tenantId, caseId, proof, reason, actor) =>
      MoveAdds(c, m, tenantId, caseId, ProofVerified, reason + " [proof:" + ProofText(proof) + "]", actor, now);
    case RequestTrustReset(_, _, _, _, _, _) => RequestAddsNoMove(c, m, r, now, call.drawnId);
    case ApproveTrustReset(_, _, _, _) => ApproveAddsNoMove(c, m, r, now);
  }

  lemma SameAudit(a: Machine, b: Machine)
    ensures a.audit == b.audit && a.cases == b.cases ==> forall i :: 0 <= i < |a.audit| ==> (MoveAllowed(a, i) <==> MoveAllowed(b, i))
  {
  }

  lemma OpenAddsNoMove(c: OpsCrypto, m: Machine, r: Request, now: Time, drawnId: Id)
    requires r.OpenCase?
    ensures var m' := OpenWork(c, m, r, now, drawnId).0;
            m.audit <= m'.audit && forall i :: |m.audit| <= i < |m'.audit| ==> MoveAllowed(m', i)
  {
    hide Derived, Events, Rows, RolesFor, OpenError, IdOk, DateOk;
  }

  lemma RequestAddsNoMove(c: OpsCrypto, m: Machine, r: Request, now: Time, drawnId: Id)
    requires r.RequestTrustReset?
    ensures var m' := RequestWork(c, m, r, now, drawnId).0;
            m.audit <= m'.audit && forall i :: |m.audit| <= i < |m'.audit| ==> MoveAllowed(m', i)
  {
    hide Derived, Events, Rows, RolesFor, ActorError, ReasonOk, IdOk, DateOk;
  }

  lemma ApproveAddsNoMove(c: OpsCrypto, m: Machine, r: Request, now: Time)
    requires r.ApproveTrustReset?
    ensures var m' := ApproveWork(c, m, r, now).0;
            m.audit <= m'.audit && forall i :: |m.audit| <= i < |m'.audit| ==> MoveAllowed(m', i)
  {
    hide Derived, Events, Rows, RolesFor, ActorError, ReasonOk, IdOk, ApprovedBy;
  }

  lemma MoveAdds(c: OpsCrypto, m: Machine, tenantId: Id, caseId: Id, to: CaseState, reason: Text, actor: Actor, now: Time)
    requires MachineOk(c, m)
    ensures var m' := TransitionWork(c, m, tenantId, caseId, to, reason, actor, now).0;
            m.audit <= m'.audit && forall i :: |m.audit| <= i < |m'.audit| ==> MoveAllowed(m', i)
  {
    hide MachineOk, NextStates, MayMoveTo, ActorError, ReasonOk, Derived, Events;
    var key := (tenantId, caseId);
    var (m', reply) := TransitionWork(c, m, tenantId, caseId, to, reason, actor, now);
    if !reply.Failed? {
      MoveWorkIff(c, m, tenantId, caseId, to, reason, actor, now);
      DerivedIsState(c, m, key);
      assert m'.audit[..|m.audit|] == m.audit;
      hide TransitionWork;
    }
  }

  /** A case that is not pending is in the state its events lead to. */
  lemma DerivedIsState(c: OpsCrypto, m: Machine, key: Key)
    requires MachineOk(c, m) && key in m.cases
    ensures m.cases[key].state != TrustResetPending ==> Derived(Events(m.audit, key)) == m.cases[key].state
    ensures key == (m.cases[key].tenantId, m.cases[key].caseId)
  {
    hide MachineOk, OverrideOk, OverridesOk, ChainOk, IdOk, SyntheticRef, Events, OfKind, Derived;
    SlotAt(c, m, key);
  }

  /** Over every run, each move of a case other than its opening and its expiry was made by a role for that
      state, along a row of the table for its type from the state its earlier events lead to. */
  lemma {:induction false} MovesWereAllowed(c: OpsCrypto, calls: seq<Call>)
    requires HashShaped(c)
    ensures MovesAllowed(After(c, EmptyMachine, calls))
    decreases |calls|
  {
    hide Step, MoveAllowed, MachineOk, HashShaped, Decided, CasesKept;
    if calls != [] {
      var n := |calls| - 1;
      var m := After(c, EmptyMachine, calls[..n]);
      MovesWereAllowed(c, calls[..n]);
      EmptyOk(c);
      RunKeepsOk(c, EmptyMachine, calls[..n]);
      StepAddsMoves(c, m, calls[n]);
      StepKeepsCases(c, m, calls[n]);
      var m' := Step(c, m, calls[n]).0;
      forall i | 0 <= i < |m'.audit| ensures MoveAllowed(m', i) {
        if i < |m.audit| { AllowedStays(m, m', i); }
      }
    }
  }
}
