/** Restoring the snapshot of a reachable engine: when it succeeds, and runs on which it does not. */
module AirlockRestoreRuns {
  import opened Wrappers
  import opened Transitions
  import opened Challenges
  import opened Airlock
  import opened AirlockInvariant
  import opened AirlockRuns
  import opened AirlockTheorems
  import opened AirlockHistory
  import opened AirlockRestore

  ghost predicate IssuedBy(records: Records, clock: Time) {
    forall id <- records :: records[id].binding.issuedAt <= clock
  }

  lemma StampedStaysInOrder(s: State, s': State, clock: Time, now: Time)
    requires Stamped(s.challenges, s'.challenges, now) && NoneEarly(s) && IssuedBy(s.challenges, clock) && clock <= now
    ensures NoneEarly(s') && IssuedBy(s'.challenges, now)
  {
  }

  /** With a clock that never runs backwards no challenge is consumed before its issuance. */
  lemma {:induction false} ForwardClockConsumesLate(c: Crypto, events: seq<Event>)
    requires Legal(c, events) && ClockForward(events)
    ensures NoneEarly(After(c, events))
    ensures events != [] ==> IssuedBy(After(c, events).challenges, events[|events| - 1].now)
    decreases |events|
  {
    hide Step, NoneEarly, IssuedBy, Stamped, Advances, MovesTransactions;
    if events == [] {
      assert NoneEarly(EmptyState) by { EmptyIsInOrder(0); }
    } else {
      var m := |events| - 1;
      var s := After(c, events[..m]);
      LegalPrefix(c, events, m);
      ForwardClockConsumesLate(c, events[..m]);
      StepMoves(c, s, events[m]);
      var clock := if m == 0 then events[m].now else events[m - 1].now;
      EmptyIsInOrder(clock);
      StampedStaysInOrder(s, After(c, events), clock, events[m].now);
    }
  }

  lemma EmptyIsInOrder(clock: Time)
    ensures NoneEarly(EmptyState) && IssuedBy(EmptyState.challenges, clock)
  {
  }

  /** For every state reached by any calls, throwing ones included, with a clock that never runs
      backwards and approvals naming their own challenge: every snapshot of it restores to an equal
      engine, exactly when no pending aggregate points at a challenge marked expired. */
  lemma SnapshotRoundTrip(c: Crypto, events: seq<Event>, snap: EngineSnapshot)
    requires Legal(c, events) && Owning(c, events) && ClockForward(events) && SnapshotOf(After(c, events), snap)
    ensures Restored(snap) == After(c, events)
    ensures Restorable(c, snap) <==> NoneStuck(After(c, events))
  {
    hide After, Inv, Lifecycle, SnapshotOf, Restored, Restorable, NoneStuck, NoneEarly, Legal, Owning;
    ReachableInv(c, events);
    ReachableLifecycle(c, events);
    ForwardClockConsumesLate(c, events);
    RestoreExactly(c, After(c, events), snap);
  }

  // ---------- runs whose snapshot is refused ----------

  /** Primitives that accept every key id and signature and fingerprint a key by itself. */
  function Permissive(): Crypto {
    Crypto(k => true, k => Some(k), (a, k) => true)
  }

  const Dev := Device("device", "subject", "key", "pem", Active)

  function Asked(token: Id, challenge: Id): Binding {
    Binding(ProvisionPaymentToken, challenge, "subject", "account", token, "device", None, 0, PROVISIONING_TTL_MS)
  }

  function Ask(token: Id, request: Id, challenge: Id): Event {
    Event(RequestProvisioning("subject", "account", token, "device", 1000, request, challenge), 0)
  }

  function Pending(token: Id): Token { Token(token, "subject", "account", TokenPending, Some(Caps(1000, 2000))) }

  function PendingAsk(token: Id, request: Id, challenge: Id): Request {
    Request(request, token, "device", ProvTrustedDeviceChallenge, Asked(token, challenge))
  }

  const Enrolment := Event(EnrollTrustedDevice("subject", "key", "pem", "device"), 0)

  lemma AfterOne()
    ensures After(Permissive(), [Enrolment])
         == EmptyState.(devices := map["device" := Dev], audit := [AuditEntry(DeviceEnrolled, "device", 0)])
    ensures Legal(Permissive(), [Enrolment]) && Owning(Permissive(), [Enrolment])
  {
    assert [Enrolment][..0] == [];
  }

  /** Appending one event to a run. */
  lemma Extend(c: Crypto, events: seq<Event>, e: Event)
    requires Legal(c, events) && FreshIds(After(c, events), e.call)
    ensures Legal(c, events + [e])
    ensures Owning(c, events) && OwnApproval(After(c, events), e.call) ==> Owning(c, events + [e])
    ensures After(c, events + [e]) == Step(c, After(c, events), e.call, e.now).0
  {
    hide Step, FreshIds, OwnApproval;
    var all := events + [e];
    assert all[..|events|] == events;
    forall k | 0 <= k < |events| ensures all[..k] == events[..k] {
    }
    AfterStep(c, all);
  }

  lemma AskStep(s: State, token: Id, request: Id, challenge: Id)
    requires s.devices == map["device" := Dev] && token !in s.tokens
    ensures var s' := Step(Permissive(), s, Ask(token, request, challenge).call, 0).0;
            && s'.devices == s.devices && s'.transactions == s.transactions && s'.tokens == s.tokens[token := Pending(token)]
            && s'.provisioning == s.provisioning[request := PendingAsk(token, request, challenge)]
            && s'.challenges == s.challenges[challenge := Challenge(Asked(token, challenge), Created, None)]
  {
  }

  /** An approval that arrives at the expiry time throws, and leaves a request that is still pending
      on an expired challenge: no snapshot of that state is accepted. */
  lemma LateApprovalSticks()
    ensures exists events ::
              && Legal(Permissive(), events) && Owning(Permissive(), events) && ClockForward(events)
              && forall snap :: SnapshotOf(After(Permissive(), events), snap) ==> !Restorable(Permissive(), snap)
  {
    var c := Permissive();
    var events := LateRun();
    hide After, Legal, Owning, ClockForward, SnapshotOf, Restorable;
    forall snap | SnapshotOf(After(c, events), snap) ensures !Restorable(c, snap) {
      SnapshotRoundTrip(c, events, snap);
      assert RequestStuck(After(c, events), "r");
    }
  }

  lemma LateRun() returns (events: seq<Event>)
    ensures Legal(Permissive(), events) && Owning(Permissive(), events) && ClockForward(events)
    ensures "r" in After(Permissive(), events).provisioning && RequestStuck(After(Permissive(), events), "r")
  {
    hide Step, After, Legal, Owning;
    var c := Permissive();
    var late := Event(ApproveProvisioning("r", Approval(Asked("t", "ch"), "key", "sig"), Capped), PROVISIONING_TTL_MS);
    AfterOne();
    var one := [Enrolment];
    var two := one + [Ask("t", "r", "ch")];
    Extend(c, one, Ask("t", "r", "ch"));
    AskStep(After(c, one), "t", "r", "ch");
    LateStep(After(c, two), late);
    Extend(c, two, late);
    events := two + [late];
  }

  lemma LateStep(s: State, late: Event)
    requires s.devices == map["device" := Dev]
    requires s.provisioning == map["r" := PendingAsk("t", "r", "ch")]
    requires s.challenges == map["ch" := Challenge(Asked("t", "ch"), Created, None)]
    requires late == Event(ApproveProvisioning("r", Approval(Asked("t", "ch"), "key", "sig"), Capped), PROVISIONING_TTL_MS)
    ensures FreshIds(s, late.call) && OwnApproval(s, late.call)
    ensures RequestStuck(Step(Permissive(), s, late.call, late.now).0, "r")
  {
  }

  /** Without the rule that an approval names its own challenge, the snapshot can be refused too: an
      approval of one request spends another request's challenge. */
  lemma ForeignApprovalBreaksRestore()
    ensures exists events ::
              && Legal(Permissive(), events) && ClockForward(events) && NoneStuck(After(Permissive(), events))
              && forall snap :: SnapshotOf(After(Permissive(), events), snap) ==> !Restorable(Permissive(), snap)
  {
    hide Step, After, Legal, Owning, ClockForward, SnapshotOf, Restorable;
    var c := Permissive();
    var foreign := Event(ApproveProvisioning("r1", Approval(Asked("t2", "ch2"), "key", "sig"), Capped), 0);
    var three := TwoRequests();
    ForeignStep(After(c, three), foreign);
    Extend(c, three, foreign);
    var events := three + [foreign];
    assert ClockForward(events) by { AllAtZero(events); }
    forall snap | SnapshotOf(After(c, events), snap) ensures !Restorable(c, snap) {
      ApprovedButOpenIsRefused(c, After(c, events), snap, "r1");
    }
  }

  lemma AllAtZero(events: seq<Event>)
    requires forall e <- events :: e.now == 0
    ensures ClockForward(events)
  {
  }

  lemma TwoRequests() returns (events: seq<Event>)
    ensures Legal(Permissive(), events) && forall e <- events :: e.now == 0
    ensures var s := After(Permissive(), events);
            && s.devices == map["device" := Dev] && s.tokens == map["t1" := Pending("t1"), "t2" := Pending("t2")]
            && s.provisioning == map["r1" := PendingAsk("t1", "r1", "ch1"), "r2" := PendingAsk("t2", "r2", "ch2")]
            && s.challenges == map["ch1" := Challenge(Asked("t1", "ch1"), Created, None),
                                   "ch2" := Challenge(Asked("t2", "ch2"), Created, None)]
            && s.transactions == map[]
  {
    hide Step, After, Legal, Owning;
    var c := Permissive();
    AfterOne();
    var one := [Enrolment];
    var two := one + [Ask("t1", "r1", "ch1")];
    Extend(c, one, Ask("t1", "r1", "ch1"));
    AskStep(After(c, one), "t1", "r1", "ch1");
    Extend(c, two, Ask("t2", "r2", "ch2"));
    AskStep(After(c, two), "t2", "r2", "ch2");
    events := two + [Ask("t2", "r2", "ch2")];
  }

  lemma ForeignStep(s: State, foreign: Event)
    requires s.devices == map["device" := Dev]
    requires s.tokens == map["t1" := Pending("t1"), "t2" := Pending("t2")]
    requires s.provisioning == map["r1" := PendingAsk("t1", "r1", "ch1"), "r2" := PendingAsk("t2", "r2", "ch2")]
    requires s.challenges == map["ch1" := Challenge(Asked("t1", "ch1"), Created, None),
                                 "ch2" := Challenge(Asked("t2", "ch2"), Created, None)]
    requires s.transactions == map[]
    requires foreign == Event(ApproveProvisioning("r1", Approval(Asked("t2", "ch2"), "key", "sig"), Capped), 0)
    ensures FreshIds(s, foreign.call)
    ensures var s' := Step(Permissive(), s, foreign.call, foreign.now).0;
            && NoneStuck(s') && "r1" in s'.provisioning && s'.provisioning["r1"].state == ProvTokenActiveCapped
            && s'.provisioning["r1"].challenge.challengeId == "ch1"
            && "ch1" in s'.challenges && s'.challenges["ch1"].status == Created
  {
    hide Enroll, Revoke, MarkCompromised, Rotate, Provision, AuthorizeStep, Confirm, Expire, Clear;
  }

  lemma ApprovedButOpenIsRefused(c: Crypto, s: State, snap: EngineSnapshot, r: Id)
    requires SnapshotOf(s, snap) && r in s.provisioning && s.provisioning[r].state == ProvTokenActiveCapped
    requires s.provisioning[r].challenge.challengeId in s.challenges
    requires s.challenges[s.provisioning[r].challenge.challengeId].status == Created
    ensures !Restorable(c, snap)
  {
    SnapshotRestores(s, snap);
    assert s.provisioning[r] in snap.provisioning;
    assert !RestorableRequest(s, s.provisioning[r]);
  }
}
