/** The customer operations machine: cases, dual-control trust resets, their hash-chained audit, the
    notification intents and the idempotency cache, as one function per operation. */
module Operations {
  import opened Common
  import opened Wrappers

  type Text = string
  type Id = string
  type Time = int
  /** A tenant and an id within it. */
  type Key = (Id, Id)

  const MIN_TTL_MS := 60_000
  const MAX_TTL_MS := 30 * 24 * 60 * 60 * 1_000
  const MAX_OVERRIDE_TTL_MS := 24 * 60 * 60 * 1_000
  const HASH_GENESIS := "GENESIS"

  datatype CaseType = DeviceLoss | AccountRecovery | FalseDeclineReview | FraudulentApprovalDispute | CompromiseResponse

  datatype CaseState =
    | Opened | Contained | ProofVerified | TrustResetPending | UnderReview | PaymentFrozen | Eradicated
    | Upheld | Overturned | Remediated | Resolved | Expired | Cancelled

  datatype Role = Customer | FraudAnalyst | SecurityOperator | Supervisor | RecoveryOfficer | System

  /** An empty device id stands for none. */
  datatype Actor = Actor(tenantId: Id, actorId: Id, role: Role, deviceId: Id)

  datatype Case = Case(
    tenantId: Id, caseId: Id, caseType: CaseType, state: CaseState, subjectRef: Text, subjectDeviceId: Id, reason: Text,
    correlationId: Id, openedAt: Time, expiresAt: Time, updatedAt: Time)

  datatype Approval = Approval(actorId: Id, role: Role, approvedAt: Time)

  datatype OverrideState = Pending | Executed | Lapsed | Withdrawn

  datatype Override = Override(
    tenantId: Id, overrideId: Id, caseId: Id, state: OverrideState, reason: Text, requestedBy: Id, requestedAt: Time,
    expiresAt: Time, approvals: seq<Approval>, executedAt: Option<Time>)

  /** `case.<state>` or one of the trust-reset types. */
  datatype EventKind = CaseMoved(to: CaseState) | ResetRequested | ResetApproved | ResetExpired | ResetExecuted

  datatype AuditBody = AuditBody(
    sequence: int, tenantId: Id, caseId: Id, kind: EventKind, actorId: Id, actorRole: Role, reason: Text, correlationId: Id,
    occurredAt: Time, previousHash: Text)

  datatype AuditEvent = AuditEvent(body: AuditBody, hash: Text)

  datatype Template = CaseOpened | CaseStateChanged | ApprovalRequested | TrustResetCompleted

  datatype Intent = Intent(tenantId: Id, caseId: Id, template: Template, recipientRef: Text, createdAt: Time)

  datatype OpsError =
    | InvalidTenantId | InvalidKey | KeyReused | CrossTenant | InvalidActorId | InvalidActorDevice | InvalidTime
    | InvalidSubject | InvalidDeviceId | InvalidReason | InvalidCorrelationId | InvalidTtl | InvalidCaseId | CaseExists
    | CaseNotFound | CaseTerminal | CaseExpired | DualControlRequired | InvalidTransition | NotAuthorized
    | ProofDowngrade | NotAccountRecovery | NotEligible | InvalidOverrideId | OverrideExists | OverrideNotFound
    | OverrideTerminal | OverrideExpired | DuplicateApprover | AffectedDevice | InvalidSnapshot

  datatype Reply = CaseReply(theCase: Case) | OverrideReply(theOverride: Override) | Failed(error: OpsError)

  datatype Cached = Cached(requestHash: Text, reply: Reply)

  datatype Machine = Machine(
    cases: map<Key, Case>, overrides: map<Key, Override>, audit: seq<AuditEvent>, intents: seq<Intent>,
    idempotency: map<Key, Cached>)

  const EmptyMachine := Machine(map[], map[], [], [], map[])

  datatype ProofMethod = ExistingPasskey | InPersonStrongIdentity | BankVerifiedStrongIdentity | OtherProof

  datatype Request =
    | OpenCase(
        tenantId: Id, caseType: CaseType, subjectRef: Text, subjectDeviceId: Id, reason: Text, correlationId: Id, actor: Actor,
        ttlMs: int, suppliedId: Option<Id>)
    | Transition(tenantId: Id, caseId: Id, nextState: CaseState, reason: Text, actor: Actor)
    | VerifyRecoveryProof(tenantId: Id, caseId: Id, proofMethod: ProofMethod, reason: Text, actor: Actor)
    | RequestTrustReset(tenantId: Id, caseId: Id, reason: Text, actor: Actor, ttlMs: int, suppliedId: Option<Id>)
    | ApproveTrustReset(tenantId: Id, overrideId: Id, reason: Text, actor: Actor)

  /** One call: what is asked, under which idempotency key, when, and the id drawn if none is supplied. */
  datatype Call = Call(request: Request, idempotencyKey: Id, now: Time, drawnId: Id)

  /** SHA-256 over the stable JSON text, uninterpreted. */
  datatype OpsCrypto = OpsCrypto(requestHash: (Request, Id, Time) -> Text, digest: AuditBody -> Text)

  // ---------- text checks ----------

  predicate IdOk(s: Text) { Identifier(s, 128) }

  const SYNTHETIC := "synthetic-"

  predicate SyntheticRef(s: Text) { SYNTHETIC <= s && Identifier(s[|SYNTHETIC|..], 119) }

  predicate ReasonOk(s: Text) { 3 <= |s| <= 512 && !Blank(s[0]) && !Blank(s[|s| - 1]) }

  // ---------- tables ----------

  predicate IsApprover(role: Role) { role in {SecurityOperator, Supervisor, RecoveryOfficer} }

  predicate MayMoveTo(role: Role, to: CaseState) {
    match to
    case Contained => role in {FraudAnalyst, SecurityOperator, Supervisor}
    case ProofVerified => role in {RecoveryOfficer, SecurityOperator}
    case UnderReview => role in {FraudAnalyst, Supervisor}
    case PaymentFrozen => role in {FraudAnalyst, SecurityOperator, Supervisor}
    case Eradicated => role in {SecurityOperator, Supervisor}
    case Upheld => role in {FraudAnalyst, Supervisor}
    case Overturned => role in {FraudAnalyst, Supervisor}
    case Remediated => role in {FraudAnalyst, SecurityOperator, Supervisor}
    case Resolved => role in {SecurityOperator, Supervisor}
    case Cancelled => role in {Customer, FraudAnalyst, SecurityOperator, Supervisor}
    case _ => false
  }

  function NextStates(t: CaseType, s: CaseState): set<CaseState> {
    match t
    case DeviceLoss => (
      match s
      case Opened => {Contained, Cancelled}
      case Contained => {TrustResetPending, Resolved}
      case TrustResetPending => {Resolved}
      case _ => {})
    case AccountRecovery => (
      match s
      case Opened => {ProofVerified, Cancelled}
      case ProofVerified => {TrustResetPending}
      case TrustResetPending => {Resolved}
      case _ => {})
    case FalseDeclineReview => (
      match s
      case Opened => {UnderReview, Cancelled}
      case UnderReview => {Upheld, Overturned}
      case _ => {})
    case FraudulentApprovalDispute => (
      match s
      case Opened => {PaymentFrozen, Cancelled}
      case PaymentFrozen => {UnderReview}
      case UnderReview => {Upheld, Remediated}
      case _ => {})
    case CompromiseResponse => (
      match s
      case Opened => {Contained}
      case Contained => {Eradicated, TrustResetPending}
      case Eradicated => {Resolved}
      case TrustResetPending => {Resolved}
      case _ => {})
  }

  predicate Terminal(s: CaseState) { s in {Resolved, Upheld, Overturned, Remediated, Expired, Cancelled} }

  /** Eligible for a trust reset. */
  predicate Eligible(v: Case) {
    (v.caseType == AccountRecovery && v.state == ProofVerified)
    || (v.caseType in {DeviceLoss, CompromiseResponse} && v.state == Contained)
  }

  // ---------- shared steps ----------

  function PreviousHash(audit: seq<AuditEvent>): Text { if audit == [] then HASH_GENESIS else audit[|audit| - 1].hash }

  function EventOf(
    c: OpsCrypto, audit: seq<AuditEvent>, v: Case, kind: EventKind, actorId: Id, role: Role, reason: Text, now: Time): AuditEvent
  {
    var body := AuditBody(
      |audit| + 1, v.tenantId, v.caseId, kind, actorId, role, reason, v.correlationId, now, PreviousHash(audit));
    AuditEvent(body, c.digest(body))
  }

  /** A case is rewritten and one event about it recorded. */
  function Record(
    c: OpsCrypto, m: Machine, key: Key, v: Case, kind: EventKind, actorId: Id, role: Role, reason: Text, now: Time): Machine
  {
    m.(cases := m.cases[key := v], audit := m.audit + [EventOf(c, m.audit, v, kind, actorId, role, reason, now)])
  }

  function Notify(m: Machine, v: Case, template: Template, now: Time): Machine {
    m.(intents := m.intents + [Intent(v.tenantId, v.caseId, template, v.subjectRef, now)])
  }

  /** Finding the case a call works on moves a case past its lifetime to `expired`, and then throws. */
  function ActiveCase(c: OpsCrypto, m: Machine, key: Key, now: Time): (Machine, Option<OpsError>) {
    if key !in m.cases then (m, Some(CaseNotFound))
    else
      var v := m.cases[key];
      if Terminal(v.state) then (m, Some(CaseTerminal))
      else if now >= v.expiresAt then
        (Record(c, m, key, v.(state := Expired, updatedAt := now), CaseMoved(Expired), "system", System,
                "case lifetime expired", now), Some(CaseExpired))
      else (m, None)
  }

  function ActorError(tenantId: Id, actor: Actor): Option<OpsError> {
    if actor.tenantId != tenantId then Some(CrossTenant)
    else if !IdOk(actor.actorId) then Some(InvalidActorId)
    else if actor.deviceId != "" && !IdOk(actor.deviceId) then Some(InvalidActorDevice)
    else None
  }

  predicate TtlOk(ttlMs: int, limit: int) { MIN_TTL_MS <= ttlMs <= limit }

  // ---------- the operations ----------

  function OpenError(r: Request, now: Time): Option<OpsError>
    requires r.OpenCase?
  {
    if ActorError(r.tenantId, r.actor).Some? then ActorError(r.tenantId, r.actor)
    else if !SyntheticRef(r.subjectRef) then Some(InvalidSubject)
    else if r.subjectDeviceId != "" && !IdOk(r.subjectDeviceId) then Some(InvalidDeviceId)
    else if !ReasonOk(r.reason) then Some(InvalidReason)
    else if !IdOk(r.correlationId) then Some(InvalidCorrelationId)
    else if !TtlOk(r.ttlMs, MAX_TTL_MS) then Some(InvalidTtl)
    else None
  }

  function Chosen(supplied: Option<Id>, drawn: Id): Id { if supplied.Some? then supplied.value else drawn }

  function OpenWork(c: OpsCrypto, m: Machine, r: Request, now: Time, drawnId: Id): (Machine, Reply)
    requires r.OpenCase?
  {
    var caseId := Chosen(r.suppliedId, drawnId);
    var key := (r.tenantId, caseId);
    if OpenError(r, now).Some? then (m, Failed(OpenError(r, now).value))
    else if !IdOk(caseId) then (m, Failed(InvalidCaseId))
    else if key in m.cases then (m, Failed(CaseExists))
    else if !DateOk(now + r.ttlMs) then (m, Failed(InvalidTime))
    else
      var v := Case(
        r.tenantId, caseId, r.caseType, Opened, r.subjectRef, r.subjectDeviceId, r.reason, r.correlationId, now,
        now + r.ttlMs, now);
      (Notify(Record(c, m, key, v, CaseMoved(Opened), r.actor.actorId, r.actor.role, r.reason, now), v, CaseOpened, now),
       CaseReply(v))
  }

  function TransitionWork(
    c: OpsCrypto, m: Machine, tenantId: Id, caseId: Id, nextState: CaseState, reason: Text, actor: Actor, now: Time): (Machine, Reply)
  {
    var key := (tenantId, caseId);
    if ActorError(tenantId, actor).Some? then (m, Failed(ActorError(tenantId, actor).value))
    else if !ReasonOk(reason) then (m, Failed(InvalidReason))
    else
      var (m1, failure) := ActiveCase(c, m, key, now);
      if failure.Some? then (m1, Failed(failure.value))
      else
        var v := m1.cases[key];
        if nextState == TrustResetPending || (nextState == Resolved && v.state == TrustResetPending) then
          (m1, Failed(DualControlRequired))
        else if nextState !in NextStates(v.caseType, v.state) then (m1, Failed(InvalidTransition))
        else if !MayMoveTo(actor.role, nextState) then (m1, Failed(NotAuthorized))
        else
          var v' := v.(state := nextState, updatedAt := now);
          (Notify(Record(c, m1, key, v', CaseMoved(nextState), actor.actorId, actor.role, reason, now), v', CaseStateChanged, now),
           CaseReply(v'))
  }

  /** The case is marked pending before its override is built: an expiry past the last representable
      instant throws in between. */
  function RequestWork(c: OpsCrypto, m: Machine, r: Request, now: Time, drawnId: Id): (Machine, Reply)
    requires r.RequestTrustReset?
  {
    var key := (r.tenantId, r.caseId);
    if ActorError(r.tenantId, r.actor).Some? then (m, Failed(ActorError(r.tenantId, r.actor).value))
    else if !ReasonOk(r.reason) then (m, Failed(InvalidReason))
    else if !IsApprover(r.actor.role) then (m, Failed(NotAuthorized))
    else if !TtlOk(r.ttlMs, MAX_OVERRIDE_TTL_MS) then (m, Failed(InvalidTtl))
    else
      var (m1, failure) := ActiveCase(c, m, key, now);
      if failure.Some? then (m1, Failed(failure.value))
      else
        var v := m1.cases[key];
        var overrideId := Chosen(r.suppliedId, drawnId);
        var okey := (r.tenantId, overrideId);
        if !Eligible(v) then (m1, Failed(NotEligible))
        else if !IdOk(overrideId) then (m1, Failed(InvalidOverrideId))
        else if okey in m1.overrides then (m1, Failed(OverrideExists))
        else
          var v' := v.(state := TrustResetPending, updatedAt := now);
          if !DateOk(now + r.ttlMs) then (m1.(cases := m1.cases[key := v']), Failed(InvalidTime))
          else
            var o := Override(
              r.tenantId, overrideId, v.caseId, Pending, r.reason, r.actor.actorId, now, now + r.ttlMs, [], None);
            (Notify(Record(c, m1.(overrides := m1.overrides[okey := o]), key, v', ResetRequested, r.actor.actorId, r.actor.role,
                           r.reason, now), v', ApprovalRequested, now),
             OverrideReply(o))
  }

  predicate ApprovedBy(o: Override, actorId: Id) { exists a :: a in o.approvals && a.actorId == actorId }

  function ApproveWork(c: OpsCrypto, m: Machine, r: Request, now: Time): (Machine, Reply)
    requires r.ApproveTrustReset?
  {
    var okey := (r.tenantId, r.overrideId);
    if ActorError(r.tenantId, r.actor).Some? then (m, Failed(ActorError(r.tenantId, r.actor).value))
    else if !ReasonOk(r.reason) then (m, Failed(InvalidReason))
    else if !IsApprover(r.actor.role) then (m, Failed(NotAuthorized))
    else if !IdOk(r.overrideId) then (m, Failed(InvalidOverrideId))
    else if okey !in m.overrides then (m, Failed(OverrideNotFound))
    else
      var o := m.overrides[okey];
      var key := (r.tenantId, o.caseId);
      var (m1, failure) := ActiveCase(c, m, key, now);
      if failure.Some? then (m1, Failed(failure.value))
      else
        var v := m1.cases[key];
        if o.state != Pending then (m1, Failed(OverrideTerminal))
        else if now >= o.expiresAt then
          (Record(c, m1.(overrides := m1.overrides[okey := o.(state := Lapsed)]), key, v, ResetExpired, "system", System,
                  "approval window expired", now), Failed(OverrideExpired))
        else if ApprovedBy(o, r.actor.actorId) then (m1, Failed(DuplicateApprover))
        else if v.subjectDeviceId != "" && r.actor.deviceId == v.subjectDeviceId then (m1, Failed(AffectedDevice))
        else
          var o' := o.(approvals := o.approvals + [Approval(r.actor.actorId, r.actor.role, now)]);
          var approved := Record(c, m1.(overrides := m1.overrides[okey := o']), key, v, ResetApproved, r.actor.actorId,
                                 r.actor.role, r.reason, now);
          if |o'.approvals| != 2 then (approved, OverrideReply(o'))
          else
            var o'' := o'.(state := Executed, executedAt := Some(now));
            var v' := v.(state := Resolved, updatedAt := now);
            (Notify(Record(c, approved.(overrides := approved.overrides[okey := o'']), key, v', ResetExecuted, "system", System,
                           o.reason, now), v', TrustResetCompleted, now),
             OverrideReply(o''))
  }

  function ProofText(p: ProofMethod): Text {
    match p
    case ExistingPasskey => "existing_passkey"
    case InPersonStrongIdentity => "in_person_strong_identity"
    case BankVerifiedStrongIdentity => "bank_verified_strong_identity"
    case OtherProof => ""
  }

  function Work(c: OpsCrypto, m: Machine, r: Request, now: Time, drawnId: Id): (Machine, Reply) {
    match r
    case OpenCase(_, _, _, _, _, _, _, _, _) => OpenWork(c, m, r, now, drawnId)
    case Transition(tenantId, caseId, nextState, reason, actor) => TransitionWork(c, m, tenantId, caseId, nextState, reason, actor, now)
    case VerifyRecoveryProof(tenantId, caseId, proof, reason, actor) =>
      TransitionWork(c, m, tenantId, caseId, ProofVerified, reason + " [proof:" + ProofText(proof) + "]", actor, now)
    case RequestTrustReset(_, _, _, _, _, _) => RequestWork(c, m, r, now, drawnId)
    case ApproveTrustReset(_, _, _, _) => ApproveWork(c, m, r, now)
  }

  /** What is checked, and thrown uncached, before the idempotency cache is looked at. */
  function Precheck(m: Machine, call: Call): Option<OpsError> {
    var r := call.request;
    if r.VerifyRecoveryProof? && r.proofMethod == OtherProof then Some(ProofDowngrade)
    else if r.VerifyRecoveryProof? && !IdOk(r.tenantId) then Some(InvalidTenantId)
    else if r.VerifyRecoveryProof? && !IdOk(r.caseId) then Some(InvalidCaseId)
    else if r.VerifyRecoveryProof? && (r.tenantId, r.caseId) !in m.cases then Some(CaseNotFound)
    else if r.VerifyRecoveryProof? && m.cases[(r.tenantId, r.caseId)].caseType != AccountRecovery then Some(NotAccountRecovery)
    else if !DateOk(call.now) then Some(InvalidTime)
    else if !IdOk(r.tenantId) then Some(InvalidTenantId)
    else if !IdOk(call.idempotencyKey) then Some(InvalidKey)
    else None
  }

  /** One call.  The first use of a key does the work and caches the outcome, failures included. */
  function Step(c: OpsCrypto, m: Machine, call: Call): (Machine, Reply) {
    var failure := Precheck(m, call);
    if failure.Some? then (m, Failed(failure.value))
    else
      var key := (call.request.tenantId, call.idempotencyKey);
      var requestHash := c.requestHash(call.request, call.idempotencyKey, call.now);
      if key in m.idempotency then
        (m, if m.idempotency[key].requestHash != requestHash then Failed(KeyReused) else m.idempotency[key].reply)
      else
        var (m', reply) := Work(c, m, call.request, call.now, call.drawnId);
        (m'.(idempotency := m'.idempotency[key := Cached(requestHash, reply)]), reply)
  }

  function After(c: OpsCrypto, m: Machine, calls: seq<Call>): Machine
    decreases |calls|
  {
    if calls == [] then m else Step(c, After(c, m, calls[..|calls| - 1]), calls[|calls| - 1]).0
  }
}
