/** The texts under which the operations machine keeps its cases and overrides: a tenant, a colon and an
    id.  While tenant ids hold no colon a machine on texts is the machine on pairs; with colons two pairs
    can share a text, and one tenant's call then works on another tenant's case. */
module OperationsKeys {
  import opened Common
  import opened Wrappers
  import opened Operations
  import opened OperationsTheorems

  function TextKey(k: Key): Text { k.0 + ":" + k.1 }

  predicate Plain(tenantId: Id) { ':' !in tenantId }

  /** One key is the other with a piece moved over the colon. */
  ghost predicate Shifted(a: Key, b: Key) { exists middle: Text :: b.0 == a.0 + ":" + middle && a.1 == middle + ":" + b.1 }

  lemma SplitText(a: Key, b: Key)
    requires TextKey(a) == TextKey(b) && |a.0| < |b.0|
    ensures Shifted(a, b)
  {
    var n, x := |a.0|, TextKey(a);
    var middle := b.0[n + 1..];
    assert a.0 == x[..n] && b.0 == x[..|b.0|] && x[n] == ':';
    assert b.0 == a.0 + ":" + middle;
    assert a.1 == x[n + 1..] && b.1 == x[|b.0| + 1..];
    assert x[n + 1..] == x[n + 1..|b.0|] + x[|b.0|..] && x[|b.0|..] == [x[|b.0|]] + x[|b.0| + 1..];
    assert a.1 == middle + ":" + b.1;
  }

  /** Two keys share a text exactly when they are equal or one is the other shifted over a colon. */
  lemma SameTextIff(a: Key, b: Key)
    ensures TextKey(a) == TextKey(b) <==> a == b || Shifted(a, b) || Shifted(b, a)
  {
    if TextKey(a) == TextKey(b) {
      if |a.0| < |b.0| {
        SplitText(a, b);
      } else if |b.0| < |a.0| {
        SplitText(b, a);
      } else {
        assert a.0 == TextKey(a)[..|a.0|] && b.0 == TextKey(b)[..|a.0|];
        assert a.1 == TextKey(a)[|a.0| + 1..] && b.1 == TextKey(b)[|a.0| + 1..];
      }
    }
    if Shifted(a, b) { ShiftedShare(a, b); }
    if Shifted(b, a) { ShiftedShare(b, a); }
  }

  lemma ShiftedShare(a: Key, b: Key)
    requires Shifted(a, b)
    ensures TextKey(a) == TextKey(b) && ':' in b.0
  {
    var middle: Text :| b.0 == a.0 + ":" + middle && a.1 == middle + ":" + b.1;
    assert b.0[|a.0|] == ':';
    assert a.0 + ":" + (middle + ":" + b.1) == (a.0 + ":" + middle) + ":" + b.1;
  }

  lemma PlainTextsDiffer(a: Key, b: Key)
    requires Plain(a.0) && Plain(b.0)
    ensures TextKey(a) == TextKey(b) <==> a == b
  {
    SameTextIff(a, b);
    if Shifted(a, b) { ShiftedShare(a, b); }
    if Shifted(b, a) { ShiftedShare(b, a); }
  }

  // ---------- the machine on texts ----------

  datatype TextMachine = TextMachine(
    cases: map<Text, Case>, overrides: map<Text, Override>, audit: seq<AuditEvent>, intents: seq<Intent>,
    idempotency: map<Key, Cached>)

  const EmptyTexts := TextMachine(map[], map[], [], [], map[])

  /** What a map on texts holds for one pair. */
  function Found<V>(t: map<Text, V>, k: Key): map<Key, V> { if TextKey(k) in t then map[k := t[TextKey(k)]] else map[] }

  function Put<V>(t: map<Text, V>, m: map<Key, V>, k: Key): map<Text, V> { if k in m then t[TextKey(k) := m[k]] else t }

  /** The override a call names. */
  function OverrideOfCall(call: Call): Key {
    var r := call.request;
    match r
    case RequestTrustReset(tenantId, _, _, _, _, supplied) => (tenantId, Chosen(supplied, call.drawnId))
    case ApproveTrustReset(tenantId, overrideId, _, _) => (tenantId, overrideId)
    case _ => (r.tenantId, "")
  }

  /** The case a call works on; an approval finds it through its override. */
  function CaseOfCall(call: Call, overrides: map<Key, Override>): Key {
    var r := call.request;
    match r
    case OpenCase(tenantId, _, _, _, _, _, _, _, supplied) => (tenantId, Chosen(supplied, call.drawnId))
    case Transition(tenantId, caseId, _, _, _) => (tenantId, caseId)
    case VerifyRecoveryProof(tenantId, caseId, _, _, _) => (tenantId, caseId)
    case RequestTrustReset(tenantId, caseId, _, _, _, _) => (tenantId, caseId)
    case ApproveTrustReset(tenantId, overrideId, _, _) =>
      (tenantId, if (tenantId, overrideId) in overrides then overrides[(tenantId, overrideId)].caseId else "")
  }

  /** A call on the records that the texts of its case and of its override lead to. */
  function TextStep(c: OpsCrypto, t: TextMachine, call: Call): (TextMachine, Reply) {
    var okey := OverrideOfCall(call);
    var overrides := Found(t.overrides, okey);
    var key := CaseOfCall(call, overrides);
    var (m, reply) := Step(c, Machine(Found(t.cases, key), overrides, t.audit, t.intents, t.idempotency), call);
    (TextMachine(Put(t.cases, m.cases, key), Put(t.overrides, m.overrides, okey), m.audit, m.intents, m.idempotency), reply)
  }

  function TextAfter(c: OpsCrypto, t: TextMachine, calls: seq<Call>): TextMachine
    decreases |calls|
  {
    if calls == [] then t else TextStep(c, TextAfter(c, t, calls[..|calls| - 1]), calls[|calls| - 1]).0
  }

  // ---------- a call touches one case and one override ----------

  ghost predicate AgreeAt<V>(a: map<Key, V>, b: map<Key, V>, k: Key) {
    (k in a <==> k in b) && (k in a ==> a[k] == b[k])
  }

  function PutPair<V>(a: map<Key, V>, b: map<Key, V>, k: Key): map<Key, V> { if k in b then a[k := b[k]] else a }

  ghost predicate Alike(m: Machine, f: Machine, key: Key, okey: Key) {
    && AgreeAt(m.cases, f.cases, key) && AgreeAt(m.overrides, f.overrides, okey)
    && m.audit == f.audit && m.intents == f.intents && m.idempotency == f.idempotency
  }

  /** Both machines changed alike, at the one case and the one override. */
  ghost predicate Local(m: Machine, f: Machine, a: Machine, b: Machine, key: Key, okey: Key) {
    && a.cases == PutPair(m.cases, b.cases, key) && a.overrides == PutPair(m.overrides, b.overrides, okey)
    && AgreeAt(a.cases, b.cases, key) && AgreeAt(a.overrides, b.overrides, okey)
    && a.audit == b.audit && a.intents == b.intents && a.idempotency == b.idempotency
  }

  ghost predicate SameWork(m: Machine, f: Machine, a: (Machine, Reply), b: (Machine, Reply), key: Key, okey: Key) {
    a.1 == b.1 && Local(m, f, a.0, b.0, key, okey)
  }

  lemma NothingIsLocal(m: Machine, f: Machine, key: Key, okey: Key)
    requires Alike(m, f, key, okey)
    ensures Local(m, f, m, f, key, okey)
  {
  }

  lemma RecordIsLocal(
    c: OpsCrypto, m: Machine, f: Machine, a: Machine, b: Machine, key: Key, okey: Key, v: Case, kind: EventKind, actorId: Id, role: Role,
    reason: Text, now: Time)
    requires Local(m, f, a, b, key, okey)
    ensures Local(m, f, Record(c, a, key, v, kind, actorId, role, reason, now), Record(c, b, key, v, kind, actorId, role, reason, now),
                  key, okey)
  {
    hide EventOf;
  }

  lemma NotifyIsLocal(m: Machine, f: Machine, a: Machine, b: Machine, key: Key, okey: Key, v: Case, template: Template, now: Time)
    requires Local(m, f, a, b, key, okey)
    ensures Local(m, f, Notify(a, v, template, now), Notify(b, v, template, now), key, okey)
  {
  }

  lemma CaseIsLocal(m: Machine, f: Machine, a: Machine, b: Machine, key: Key, okey: Key, v: Case)
    requires Local(m, f, a, b, key, okey)
    ensures Local(m, f, a.(cases := a.cases[key := v]), b.(cases := b.cases[key := v]), key, okey)
  {
  }

  lemma OverrideIsLocal(m: Machine, f: Machine, a: Machine, b: Machine, key: Key, okey: Key, o: Override)
    requires Local(m, f, a, b, key, okey)
    ensures Local(m, f, a.(overrides := a.overrides[okey := o]), b.(overrides := b.overrides[okey := o]), key, okey)
  {
  }

  lemma ActiveIsLocal(c: OpsCrypto, m: Machine, f: Machine, key: Key, okey: Key, now: Time)
    requires Alike(m, f, key, okey)
    ensures var a, b := ActiveCase(c, m, key, now), ActiveCase(c, f, key, now);
            && a.1 == b.1 && Local(m, f, a.0, b.0, key, okey) && (a.1.None? ==> key in m.cases && key in f.cases && a.0 == m && b.0 == f)
  {
    hide Record, Local;
    NothingIsLocal(m, f, key, okey);
    if key in m.cases {
      RecordIsLocal(c, m, f, m, f, key, okey, m.cases[key].(state := Expired, updatedAt := now), CaseMoved(Expired), "system", System,
                    "case lifetime expired", now);
    }
  }

  lemma OpenIsLocal(c: OpsCrypto, m: Machine, f: Machine, r: Request, now: Time, drawnId: Id, okey: Key)
    requires r.OpenCase? && Alike(m, f, (r.tenantId, Chosen(r.suppliedId, drawnId)), okey)
    ensures SameWork(m, f, OpenWork(c, m, r, now, drawnId), OpenWork(c, f, r, now, drawnId),
                     (r.tenantId, Chosen(r.suppliedId, drawnId)), okey)
  {
    hide Record, Notify, Local, OpenError, IdOk, DateOk;
    var caseId := Chosen(r.suppliedId, drawnId);
    var key := (r.tenantId, caseId);
    var v := Case(
      r.tenantId, caseId, r.caseType, Opened, r.subjectRef, r.subjectDeviceId, r.reason, r.correlationId, now, now + r.ttlMs, now);
    NothingIsLocal(m, f, key, okey);
    RecordIsLocal(c, m, f, m, f, key, okey, v, CaseMoved(Opened), r.actor.actorId, r.actor.role, r.reason, now);
    NotifyIsLocal(m, f, Record(c, m, key, v, CaseMoved(Opened), r.actor.actorId, r.actor.role, r.reason, now),
                  Record(c, f, key, v, CaseMoved(Opened), r.actor.actorId, r.actor.role, r.reason, now), key, okey, v, CaseOpened, now);
  }

  lemma TransitionIsLocal(
    c: OpsCrypto, m: Machine, f: Machine, tenantId: Id, caseId: Id, next: CaseState, reason: Text, actor: Actor, now: Time, okey: Key)
    requires Alike(m, f, (tenantId, caseId), okey)
    ensures SameWork(m, f, TransitionWork(c, m, tenantId, caseId, next, reason, actor, now),
                     TransitionWork(c, f, tenantId, caseId, next, reason, actor, now), (tenantId, caseId), okey)
  {
    hide Record, Notify, Local, ActiveCase, ActorError, ReasonOk, NextStates, MayMoveTo;
    var key := (tenantId, caseId);
    NothingIsLocal(m, f, key, okey);
    ActiveIsLocal(c, m, f, key, okey, now);
    if ActiveCase(c, m, key, now).1.None? {
      var v := m.cases[key].(state := next, updatedAt := now);
      RecordIsLocal(c, m, f, m, f, key, okey, v, CaseMoved(next), actor.actorId, actor.role, reason, now);
      NotifyIsLocal(m, f, Record(c, m, key, v, CaseMoved(next), actor.actorId, actor.role, reason, now),
                    Record(c, f, key, v, CaseMoved(next), actor.actorId, actor.role, reason, now), key, okey, v, CaseStateChanged, now);
    }
  }

  lemma RequestIsLocal(c: OpsCrypto, m: Machine, f: Machine, r: Request, now: Time, drawnId: Id)
    requires r.RequestTrustReset? && Alike(m, f, (r.tenantId, r.caseId), (r.tenantId, Chosen(r.suppliedId, drawnId)))
    ensures SameWork(m, f, RequestWork(c, m, r, now, drawnId), RequestWork(c, f, r, now, drawnId),
                     (r.tenantId, r.caseId), (r.tenantId, Chosen(r.suppliedId, drawnId)))
  {
    hide Record, Notify, Local, ActiveCase, ActorError, ReasonOk, IdOk, DateOk, Eligible;
    var overrideId := Chosen(r.suppliedId, drawnId);
    var key, okey := (r.tenantId, r.caseId), (r.tenantId, overrideId);
    NothingIsLocal(m, f, key, okey);
    ActiveIsLocal(c, m, f, key, okey, now);
    if ActiveCase(c, m, key, now).1.None? {
      var v := m.cases[key].(state := TrustResetPending, updatedAt := now);
      CaseIsLocal(m, f, m, f, key, okey, v);
      var o := Override(
        r.tenantId, overrideId, v.caseId, Pending, r.reason, r.actor.actorId, now, now + r.ttlMs, [], None);
      var a, b := m.(overrides := m.overrides[okey := o]), f.(overrides := f.overrides[okey := o]);
      OverrideIsLocal(m, f, m, f, key, okey, o);
      RecordIsLocal(c, m, f, a, b, key, okey, v, ResetRequested, r.actor.actorId, r.actor.role, r.reason, now);
      NotifyIsLocal(m, f, Record(c, a, key, v, ResetRequested, r.actor.actorId, r.actor.role, r.reason, now),
                    Record(c, b, key, v, ResetRequested, r.actor.actorId, r.actor.role, r.reason, now), key, okey, v, ApprovalRequested, now);
    }
  }

  lemma ApproveIsLocal(c: OpsCrypto, m: Machine, f: Machine, r: Request, now: Time, key: Key)
    requires r.ApproveTrustReset? && Alike(m, f, key, (r.tenantId, r.overrideId))
    requires (r.tenantId, r.overrideId) in m.overrides ==> key == (r.tenantId, m.overrides[(r.tenantId, r.overrideId)].caseId)
    ensures SameWork(m, f, ApproveWork(c, m, r, now), ApproveWork(c, f, r, now), key, (r.tenantId, r.overrideId))
  {
    hide Record, Notify, Local, ActiveCase, ActorError, ReasonOk, IdOk, ApprovedBy;
    var okey := (r.tenantId, r.overrideId);
    NothingIsLocal(m, f, key, okey);
    if okey in m.overrides {
      ActiveIsLocal(c, m, f, key, okey, now);
      if ActiveCase(c, m, key, now).1.None? { ApprovalIsLocal(c, m, f, r, now, key, okey); }
    }
  }

  /** The changes an approval can make: the override lapses, gains an approval, or is executed with it. */
  lemma ApprovalIsLocal(c: OpsCrypto, m: Machine, f: Machine, r: Request, now: Time, key: Key, okey: Key)
    requires r.ApproveTrustReset? && Alike(m, f, key, okey) && okey in m.overrides && key in m.cases
    ensures var o, v := m.overrides[okey], m.cases[key];
            var lapsed, approved := o.(state := Lapsed), o.(approvals := o.approvals + [Approval(r.actor.actorId, r.actor.role, now)]);
            var executed, resolved := approved.(state := Executed, executedAt := Some(now)), v.(state := Resolved, updatedAt := now);
            var a, b := Approves(c, m, key, okey, v, approved, r, now), Approves(c, f, key, okey, v, approved, r, now);
            && Local(m, f, Lapses(c, m, key, okey, v, lapsed, now), Lapses(c, f, key, okey, v, lapsed, now), key, okey)
            && Local(m, f, a, b, key, okey)
            && Local(m, f, Executes(c, a, key, okey, resolved, executed, o.reason, now),
                     Executes(c, b, key, okey, resolved, executed, o.reason, now), key, okey)
  {
    hide Record, Notify, Local;
    var o, v := m.overrides[okey], m.cases[key];
    var lapsed, approved := o.(state := Lapsed), o.(approvals := o.approvals + [Approval(r.actor.actorId, r.actor.role, now)]);
    var executed, resolved := approved.(state := Executed, executedAt := Some(now)), v.(state := Resolved, updatedAt := now);
    NothingIsLocal(m, f, key, okey);
    OverrideIsLocal(m, f, m, f, key, okey, lapsed);
    RecordIsLocal(c, m, f, m.(overrides := m.overrides[okey := lapsed]), f.(overrides := f.overrides[okey := lapsed]), key, okey,
                  v, ResetExpired, "system", System, "approval window expired", now);
    OverrideIsLocal(m, f, m, f, key, okey, approved);
    RecordIsLocal(c, m, f, m.(overrides := m.overrides[okey := approved]), f.(overrides := f.overrides[okey := approved]), key, okey,
                  v, ResetApproved, r.actor.actorId, r.actor.role, r.reason, now);
    var a, b := Approves(c, m, key, okey, v, approved, r, now), Approves(c, f, key, okey, v, approved, r, now);
    OverrideIsLocal(m, f, a, b, key, okey, executed);
    var a1, b1 := a.(overrides := a.overrides[okey := executed]), b.(overrides := b.overrides[okey := executed]);
    RecordIsLocal(c, m, f, a1, b1, key, okey, resolved, ResetExecuted, "system", System, o.reason, now);
    NotifyIsLocal(m, f, Record(c, a1, key, resolved, ResetExecuted, "system", System, o.reason, now),
                  Record(c, b1, key, resolved, ResetExecuted, "system", System, o.reason, now), key, okey, resolved, TrustResetCompleted, now);
  }

  function Lapses(c: OpsCrypto, m: Machine, key: Key, okey: Key, v: Case, lapsed: Override, now: Time): Machine {
    Record(c, m.(overrides := m.overrides[okey := lapsed]), key, v, ResetExpired, "system", System, "approval window expired", now)
  }

  function Approves(c: OpsCrypto, m: Machine, key: Key, okey: Key, v: Case, approved: Override, r: Request, now: Time): Machine
    requires r.ApproveTrustReset?
  {
    Record(c, m.(overrides := m.overrides[okey := approved]), key, v, ResetApproved, r.actor.actorId, r.actor.role, r.reason, now)
  }

  function Executes(c: OpsCrypto, m: Machine, key: Key, okey: Key, resolved: Case, executed: Override, reason: Text, now: Time): Machine {
    Notify(Record(c, m.(overrides := m.overrides[okey := executed]), key, resolved, ResetExecuted, "system", System, reason, now),
           resolved, TrustResetCompleted, now)
  }

  lemma StepIsLocal(c: OpsCrypto, m: Machine, f: Machine, call: Call)
    requires Alike(m, f, CaseOfCall(call, m.overrides), OverrideOfCall(call))
    ensures SameWork(m, f, Step(c, m, call), Step(c, f, call), CaseOfCall(call, m.overrides), OverrideOfCall(call))
  {
    WorkIsLocal(c, m, f, call);
    NothingIsLocal(m, f, CaseOfCall(call, m.overrides), OverrideOfCall(call));
    hide Work, IdOk, DateOk, PutPair;
    assert Precheck(m, call) == Precheck(f, call);
  }

  lemma WorkIsLocal(c: OpsCrypto, m: Machine, f: Machine, call: Call)
    requires Alike(m, f, CaseOfCall(call, m.overrides), OverrideOfCall(call))
    ensures SameWork(m, f, Work(c, m, call.request, call.now, call.drawnId), Work(c, f, call.request, call.now, call.drawnId),
                     CaseOfCall(call, m.overrides), OverrideOfCall(call))
  {
    hide OpenWork, TransitionWork, RequestWork, ApproveWork, SameWork, Alike;
    var r, now, okey := call.request, call.now, OverrideOfCall(call);
    match r
    case OpenCase(_, _, _, _, _, _, _, _, _) => OpenIsLocal(c, m, f, r, now, call.drawnId, okey);
    case Transition(tenantId, caseId, next, reason, actor) =>
      TransitionIsLocal(c, m, f, tenantId, caseId, next, reason, actor, now, okey);
    case VerifyRecoveryProof(tenantId, caseId, proof, reason, actor) =>
      TransitionIsLocal(c, m, f, tenantId, caseId, ProofVerified, reason + " [proof:" + ProofText(proof) + "]", actor, now, okey);
    case RequestTrustReset(_, _, _, _, _, _) => RequestIsLocal(c, m, f, r, now, call.drawnId);
    case ApproveTrustReset(_, _, _, _) => ApproveIsLocal(c, m, f, r, now, CaseOfCall(call, m.overrides));
  }

  // ---------- texts and pairs ----------

  /** The map on texts holds what the map on pairs holds, and its tenants hold no colon. */
  ghost predicate ByText<V>(t: map<Text, V>, m: map<Key, V>) {
    && (forall k <- m :: Plain(k.0) && TextKey(k) in t && t[TextKey(k)] == m[k])
    && (forall x <- t :: exists k :: k in m && TextKey(k) == x)
  }

  ghost predicate SameRecords(t: TextMachine, m: Machine) {
    && ByText(t.cases, m.cases) && ByText(t.overrides, m.overrides)
    && t.audit == m.audit && t.intents == m.intents && t.idempotency == m.idempotency
  }

  lemma FoundAgrees<V>(t: map<Text, V>, m: map<Key, V>, k: Key)
    requires ByText(t, m) && Plain(k.0)
    ensures AgreeAt(m, Found(t, k), k)
  {
    if TextKey(k) in t {
      var other :| other in m && TextKey(other) == TextKey(k);
      PlainTextsDiffer(k, other);
    }
  }

  lemma PutAgrees<V>(t: map<Text, V>, m: map<Key, V>, b: map<Key, V>, k: Key)
    requires ByText(t, m) && Plain(k.0)
    ensures ByText(Put(t, b, k), PutPair(m, b, k))
  {
    var t', m' := Put(t, b, k), PutPair(m, b, k);
    forall j | j in m' ensures Plain(j.0) && TextKey(j) in t' && t'[TextKey(j)] == m'[j] { PlainTextsDiffer(j, k); }
    forall x | x in t' ensures exists j :: j in m' && TextKey(j) == x {
      if x in t {
        var j :| j in m && TextKey(j) == x;
        assert j in m';
      } else {
        assert k in m';
      }
    }
  }

  /** A call of a tenant without colon does on texts what it does on pairs. */
  lemma TextStepIsStep(c: OpsCrypto, t: TextMachine, m: Machine, call: Call)
    requires SameRecords(t, m) && Plain(call.request.tenantId)
    ensures SameRecords(TextStep(c, t, call).0, Step(c, m, call).0) && TextStep(c, t, call).1 == Step(c, m, call).1
  {
    hide Step, ByText, Found, Put, PutPair, AgreeAt, TextKey;
    var okey := OverrideOfCall(call);
    FoundAgrees(t.overrides, m.overrides, okey);
    var overrides := Found(t.overrides, okey);
    SameCase(call, m.overrides, overrides);
    var key := CaseOfCall(call, m.overrides);
    FoundAgrees(t.cases, m.cases, key);
    var f := Machine(Found(t.cases, key), overrides, t.audit, t.intents, t.idempotency);
    StepIsLocal(c, m, f, call);
    PutAgrees(t.cases, m.cases, Step(c, f, call).0.cases, key);
    PutAgrees(t.overrides, m.overrides, Step(c, f, call).0.overrides, okey);
  }

  lemma SameCase(call: Call, a: map<Key, Override>, b: map<Key, Override>)
    requires AgreeAt(a, b, OverrideOfCall(call))
    ensures CaseOfCall(call, a) == CaseOfCall(call, b)
    ensures CaseOfCall(call, a).0 == call.request.tenantId == OverrideOfCall(call).0
  {
  }

  /** Over any run whose tenants hold no colon, the machine on texts gives the replies and holds the
      records of the machine on pairs. */
  lemma {:induction false} TextRunIsRun(c: OpsCrypto, calls: seq<Call>)
    requires forall call <- calls :: Plain(call.request.tenantId)
    ensures SameRecords(TextAfter(c, EmptyTexts, calls), After(c, EmptyMachine, calls))
    ensures forall next: Call :: Plain(next.request.tenantId) ==>
              TextStep(c, TextAfter(c, EmptyTexts, calls), next).1 == Step(c, After(c, EmptyMachine, calls), next).1
    decreases |calls|
  {
    hide Step, TextStep;
    if calls != [] {
      var n := |calls| - 1;
      TextRunIsRun(c, calls[..n]);
      TextStepIsStep(c, TextAfter(c, EmptyTexts, calls[..n]), After(c, EmptyMachine, calls[..n]), calls[n]);
    }
    hide SameRecords;
    forall next: Call | Plain(next.request.tenantId)
      ensures TextStep(c, TextAfter(c, EmptyTexts, calls), next).1 == Step(c, After(c, EmptyMachine, calls), next).1
    {
      TextStepIsStep(c, TextAfter(c, EmptyTexts, calls), After(c, EmptyMachine, calls), next);
    }
  }

  // ---------- a collision ----------

  const Lender := Actor("a:b", "officer", SecurityOperator, "")
  const Stranger := Actor("a", "officer", SecurityOperator, "")

  const OpenTheirs := Call(OpenCase("a:b", DeviceLoss, "synthetic-s", "", "lost", "corr", Lender, 3_000_000, Some("c")), "k1", 0, "")
  const ContainTheirs := Call(Transition("a:b", "c", Contained, "lost", Lender), "k2", 0, "")
  const ResetByStranger := Call(RequestTrustReset("a", "b:c", "lost", Stranger, 60_000, Some("reset")), "k3", 0, "")

  /** The override's case is looked up under the override's own tenant, as restoring does. */
  predicate CaseMissing(t: TextMachine, o: Override) { TextKey(CaseOfOverride(o)) !in t.cases }

  lemma Texts()
    ensures TextKey(("a:b", "c")) == "a:b:c" == TextKey(("a", "b:c"))
    ensures TextKey(("a", "reset")) == "a:reset" && TextKey(("a", "c")) == "a:c" && "a:b:c" != "a:c"
    ensures SyntheticRef("synthetic-s")
  {
    assert "synthetic-s"[|SYNTHETIC|..] == "s";
  }

  lemma ChecksPass()
    ensures IdOk("a:b") && IdOk("a") && IdOk("c") && IdOk("k1") && IdOk("k2") && IdOk("k3") && IdOk("reset") && IdOk("corr")
    ensures ReasonOk("lost") && ActorError("a:b", Lender).None? && ActorError("a", Stranger).None?
    ensures ("a:b", "k1") != ("a:b", "k2") && ("a", "k3") != ("a:b", "k1") && ("a", "k3") != ("a:b", "k2")
  {
    assert "a" != "a:b" by { assert |"a"| != |"a:b"|; }
  }

  lemma TheirsOpened(c: OpsCrypto)
    ensures var t := TextStep(c, EmptyTexts, OpenTheirs).0;
            && t.cases.Keys == {"a:b:c"} && t.cases["a:b:c"].tenantId == "a:b" && t.cases["a:b:c"].caseId == "c"
            && t.cases["a:b:c"].state == Opened && t.cases["a:b:c"].caseType == DeviceLoss && t.cases["a:b:c"].expiresAt == 3_000_000
            && t.overrides == map[] && t.idempotency.Keys == {("a:b", "k1")}
  {
    Texts();
    ChecksPass();
    hide SyntheticRef, EventOf, TextKey, IdOk, ReasonOk, ActorError;
  }

  lemma TheirsContained(c: OpsCrypto, t: TextMachine)
    requires t.cases.Keys == {"a:b:c"} && t.cases["a:b:c"].tenantId == "a:b" && t.cases["a:b:c"].caseId == "c"
    requires t.cases["a:b:c"].state == Opened && t.cases["a:b:c"].caseType == DeviceLoss && t.cases["a:b:c"].expiresAt == 3_000_000
    requires t.overrides == map[] && t.idempotency.Keys == {("a:b", "k1")}
    ensures var t' := TextStep(c, t, ContainTheirs).0;
            && t'.cases.Keys == {"a:b:c"} && t'.cases["a:b:c"].tenantId == "a:b" && t'.cases["a:b:c"].caseId == "c"
            && t'.cases["a:b:c"].state == Contained && t'.cases["a:b:c"].caseType == DeviceLoss
            && t'.cases["a:b:c"].expiresAt == 3_000_000
            && t'.overrides == map[] && t'.idempotency.Keys == {("a:b", "k1"), ("a:b", "k2")}
  {
    Texts();
    ChecksPass();
    hide SyntheticRef, EventOf, TextKey, IdOk, ReasonOk, ActorError;
  }

  lemma TheirsReset(c: OpsCrypto, t: TextMachine)
    requires t.cases.Keys == {"a:b:c"} && t.cases["a:b:c"].tenantId == "a:b" && t.cases["a:b:c"].caseId == "c"
    requires t.cases["a:b:c"].state == Contained && t.cases["a:b:c"].caseType == DeviceLoss && t.cases["a:b:c"].expiresAt == 3_000_000
    requires t.overrides == map[] && t.idempotency.Keys == {("a:b", "k1"), ("a:b", "k2")}
    ensures var t' := TextStep(c, t, ResetByStranger).0;
            && "a:b:c" in t'.cases && t'.cases["a:b:c"].tenantId == "a:b" && t'.cases["a:b:c"].state == TrustResetPending
            && "a:reset" in t'.overrides && t'.overrides["a:reset"].tenantId == "a" && CaseMissing(t', t'.overrides["a:reset"])
  {
    Texts();
    ChecksPass();
    hide SyntheticRef, EventOf, TextKey, IdOk, ReasonOk, ActorError;
  }

  /** A run of three calls, none past any limit, in which a request of tenant `a` moves the case of tenant
      `a:b`, and whose override has its case nowhere, so that restoring its snapshot is refused. */
  lemma CollisionCrossesTenants(c: OpsCrypto)
    ensures var t := TextAfter(c, EmptyTexts, [OpenTheirs, ContainTheirs, ResetByStranger]);
            && "a:b:c" in t.cases && t.cases["a:b:c"].tenantId == "a:b" && t.cases["a:b:c"].state == TrustResetPending
            && "a:reset" in t.overrides && t.overrides["a:reset"].tenantId == "a" && CaseMissing(t, t.overrides["a:reset"])
  {
    hide TextStep, CaseMissing;
    var calls := [OpenTheirs, ContainTheirs, ResetByStranger];
    assert calls[..3] == calls && calls[..2] == [OpenTheirs, ContainTheirs] && calls[..2][..1] == [OpenTheirs] && [OpenTheirs][..0] == [];
    assert TextAfter(c, EmptyTexts, []) == EmptyTexts;
    assert TextAfter(c, EmptyTexts, [OpenTheirs]) == TextStep(c, EmptyTexts, OpenTheirs).0;
    TheirsOpened(c);
    TheirsContained(c, TextAfter(c, EmptyTexts, [OpenTheirs]));
    TheirsReset(c, TextAfter(c, EmptyTexts, [OpenTheirs, ContainTheirs]));
  }
}
