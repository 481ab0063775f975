/** Which calls of a run make a pending aggregate unrestorable, and which clear it again. */
module AirlockStuck {
  import opened Wrappers
  import opened Transitions
  import opened Challenges
  import opened Airlock
  import opened AirlockInvariant
  import opened AirlockRuns
  import opened AirlockTheorems
  import opened AirlockRestore
  import opened AirlockRestoreRuns

  /** A provisioning request or a transaction. */
  datatype Aggregate = OfRequest(id: Id) | OfTransaction(id: Id)

  predicate Known(s: State, a: Aggregate) {
    match a
    case OfRequest(id) => id in s.provisioning
    case OfTransaction(id) => id in s.transactions
  }

  predicate Waiting(s: State, a: Aggregate) {
    match a
    case OfRequest(id) => id in s.provisioning && s.provisioning[id].state == ProvTrustedDeviceChallenge
    case OfTransaction(id) => id in s.transactions && s.transactions[id].state == TxConfirmationPending
  }

  function ChallengeAt(s: State, a: Aggregate): Id
    requires Known(s, a)
  {
    match a
    case OfRequest(id) => s.provisioning[id].challenge.challengeId
    case OfTransaction(id) => s.transactions[id].challenge.challengeId
  }

  function DeviceAt(s: State, a: Aggregate): Id
    requires Known(s, a)
  {
    match a
    case OfRequest(id) => s.provisioning[id].deviceId
    case OfTransaction(id) => s.transactions[id].challenge.deviceId
  }

  /** Pending, with a challenge marked expired. */
  predicate Stuck(s: State, a: Aggregate) {
    Waiting(s, a) && ChallengeAt(s, a) in s.challenges && s.challenges[ChallengeAt(s, a)].status == Expired
  }

  lemma NoneStuckIff(s: State)
    ensures NoneStuck(s) <==> forall a :: !Stuck(s, a)
  {
    assert forall r :: Stuck(s, OfRequest(r)) <==> RequestStuck(s, r);
    assert forall t :: Stuck(s, OfTransaction(t)) <==> TransactionStuck(s, t);
  }

  // ---------- a late approval ----------

  /** All an approval needs but time: a challenge still open, with exactly the binding approved. */
  predicate LateRecord(records: Records, approval: Approval, now: Time) {
    var id := approval.binding.challengeId;
    && id in records && records[id].status == Created && ValidBinding(records[id].binding) && ValidBinding(approval.binding)
    && records[id].binding == approval.binding && now >= records[id].binding.expiresAt
  }

  predicate LateOn(s: State, deviceId: Id, approval: Approval, now: Time) {
    && deviceId in s.devices && s.devices[deviceId].status == Active && approval.keyId == s.devices[deviceId].keyId
    && LateRecord(s.challenges, approval, now)
  }

  /** The call approves or confirms this aggregate after its challenge has expired. */
  predicate ApprovesLate(s: State, call: Call, now: Time, a: Aggregate) {
    Known(s, a) &&
    match call
    case ApproveProvisioning(id, approval, _) => a == OfRequest(id) && LateOn(s, DeviceAt(s, a), approval, now)
    case ConfirmTransactionCall(id, approval) => a == OfTransaction(id) && LateOn(s, DeviceAt(s, a), approval, now)
    case _ => false
  }

  /** The call revokes, marks compromised or rotates the aggregate's device, and succeeds. */
  ghost predicate ClearsDevice(c: Crypto, s: State, call: Call, now: Time, a: Aggregate) {
    Known(s, a) && DeviceOf(call) == Some(DeviceAt(s, a)) && Step(c, s, call, now).1 == Done
  }

  lemma ConsumeCases(c: Crypto, records: Records, approval: Approval, publicKey: string, now: Time)
    ensures var id := approval.binding.challengeId;
            var (after, outcome) := ConsumeStep(c, records, approval, publicKey, now);
            if LateRecord(records, approval, now) then
              outcome.Threw? && after == records[id := records[id].(status := Expired)]
            else if outcome.Threw? then after == records
            else
              && id in records && records[id].status == Created
              && after == records[id := records[id].(status := Confirmed, consumedAt := Some(now))]
  {
  }

  /** Nothing but this aggregate and its challenge changes. */
  ghost predicate OnlyMoves(s: State, s': State, a: Aggregate)
    requires Known(s, a)
  {
    && s'.challenges.Keys == s.challenges.Keys
    && (forall id <- s.challenges :: id != ChallengeAt(s, a) ==> s'.challenges[id] == s.challenges[id])
    && s'.provisioning.Keys == s.provisioning.Keys
    && (forall r <- s.provisioning :: a != OfRequest(r) ==> s'.provisioning[r] == s.provisioning[r])
    && s'.transactions.Keys == s.transactions.Keys
    && (forall t <- s.transactions :: a != OfTransaction(t) ==> s'.transactions[t] == s.transactions[t])
  }

  lemma OthersStay(c: Crypto, s: State, s': State, a: Aggregate, b: Aggregate)
    requires Inv(c, s) && Lifecycle(s) && Known(s, b) && OnlyMoves(s, s', b) && a != b
    ensures Stuck(s', a) <==> Stuck(s, a)
  {
    hide Inv, Lifecycle;
    if Known(s, a) { OwnChallengesDiffer(c, s, a, b); }
  }

  lemma OwnChallenge(c: Crypto, s: State, a: Aggregate)
    requires Inv(c, s) && Lifecycle(s) && Known(s, a)
    ensures ChallengeAt(s, a) in s.challenges
    ensures s.challenges[ChallengeAt(s, a)].status == Created ==> Waiting(s, a)
    ensures s.challenges[ChallengeAt(s, a)].status == Confirmed ==> !Waiting(s, a)
  {
    hide RequestsOk, TransactionsOk, LedgerOk, DevicesOk, RecordsOk, TokensOk, Owned, Lifecycle;
    match a {
      case OfRequest(id) => LifecycleOfRequest(s, id);
      case OfTransaction(id) => LifecycleOfTransaction(s, id);
    }
  }

  lemma OwnChallengesDiffer(c: Crypto, s: State, a: Aggregate, b: Aggregate)
    requires Inv(c, s) && Known(s, a) && Known(s, b) && a != b
    ensures ChallengeAt(s, a) != ChallengeAt(s, b)
  {
    DistinctChallenges(s);
    hide RequestsOk, TransactionsOk, LedgerOk, DevicesOk, RecordsOk, TokensOk, Owned;
  }

  // ---------- call by call ----------

  /** A map changed at one key at most. */
  ghost predicate ChangedAt<V>(m: map<Id, V>, m': map<Id, V>, key: Id) {
    m' == m || (key in m && key in m' && m' == m[key := m'[key]])
  }

  lemma RequestMoves(s: State, s': State, id: Id)
    requires id in s.provisioning && ChangedAt(s.challenges, s'.challenges, s.provisioning[id].challenge.challengeId)
    requires ChangedAt(s.provisioning, s'.provisioning, id) && s'.transactions == s.transactions
    ensures OnlyMoves(s, s', OfRequest(id))
  {
  }

  lemma TransactionMoves(s: State, s': State, id: Id)
    requires id in s.transactions && ChangedAt(s.challenges, s'.challenges, s.transactions[id].challenge.challengeId)
    requires ChangedAt(s.transactions, s'.transactions, id) && s'.provisioning == s.provisioning
    ensures OnlyMoves(s, s', OfTransaction(id))
  {
  }

  lemma ConsumeChanges(c: Crypto, records: Records, approval: Approval, publicKey: string, now: Time)
    ensures ChangedAt(records, ConsumeStep(c, records, approval, publicKey, now).0, approval.binding.challengeId)
  {
    hide ConsumeStep, LateRecord;
    ConsumeCases(c, records, approval, publicKey, now);
    LateIsOpen(records, approval, now);
  }

  lemma ApproveMovesOne(c: Crypto, s: State, id: Id, approval: Approval, activation: Activation, now: Time)
    requires OwnApproval(s, ApproveProvisioning(id, approval, activation)) && id in s.provisioning
    ensures OnlyMoves(s, Approve(c, s, id, approval, activation, now).0, OfRequest(id))
  {
    hide ConsumeStep, ActivatedRequest, OnlyMoves, ChangedAt;
    if s.provisioning[id].deviceId in s.devices {
      ConsumeChanges(c, s.challenges, approval, s.devices[s.provisioning[id].deviceId].publicKey, now);
    }
    var s' := Approve(c, s, id, approval, activation, now).0;
    Unchanged(s.challenges, s.provisioning[id].challenge.challengeId);
    ApproveTouches(c, s, id, approval, activation, now);
    TouchedAt(s.provisioning, s'.provisioning, id);
    RequestMoves(s, s', id);
  }

  lemma Unchanged<V>(m: map<Id, V>, key: Id)
    ensures ChangedAt(m, m, key)
  {
  }

  lemma TouchedAt<V>(m: map<Id, V>, m': map<Id, V>, key: Id)
    requires m' == m || (key in m && key in m' && m' == m[key := m'[key]])
    ensures ChangedAt(m, m', key)
  {
  }

  lemma ApproveStuckIff(c: Crypto, s: State, id: Id, approval: Approval, activation: Activation, now: Time, a: Aggregate)
    requires Inv(c, s) && Lifecycle(s) && OwnApproval(s, ApproveProvisioning(id, approval, activation))
    ensures Stuck(Approve(c, s, id, approval, activation, now).0, a)
       <==> Stuck(s, a) || ApprovesLate(s, ApproveProvisioning(id, approval, activation), now, a)
  {
    hide Inv, Lifecycle, ConsumeStep, LateRecord, ActivatedRequest, OnlyMoves;
    if id in s.provisioning {
      if a != OfRequest(id) {
        hide Approve, Stuck;
        ApproveMovesOne(c, s, id, approval, activation, now);
        OthersStay(c, s, Approve(c, s, id, approval, activation, now).0, a, OfRequest(id));
      } else if s.provisioning[id].deviceId in s.devices {
        OwnChallenge(c, s, a);
        ConsumeCases(c, s.challenges, approval, s.devices[s.provisioning[id].deviceId].publicKey, now);
        LateIsOpen(s.challenges, approval, now);
        ActivatedStates(activation);
      }
    }
  }

  lemma LateIsOpen(records: Records, approval: Approval, now: Time)
    ensures LateRecord(records, approval, now) ==>
              approval.binding.challengeId in records && records[approval.binding.challengeId].status == Created
  {
  }

  lemma ActivatedStates(activation: Activation)
    ensures ActivatedRequest(activation) != ProvTrustedDeviceChallenge
  {
  }

  lemma ConfirmMovesOne(c: Crypto, s: State, id: Id, approval: Approval, now: Time)
    requires OwnApproval(s, ConfirmTransactionCall(id, approval)) && id in s.transactions
    ensures OnlyMoves(s, Confirm(c, s, id, approval, now).0, OfTransaction(id))
  {
    hide ConsumeStep, OnlyMoves, ChangedAt;
    if s.transactions[id].challenge.deviceId in s.devices {
      ConsumeChanges(c, s.challenges, approval, s.devices[s.transactions[id].challenge.deviceId].publicKey, now);
    }
    var s' := Confirm(c, s, id, approval, now).0;
    Unchanged(s.challenges, s.transactions[id].challenge.challengeId);
    ConfirmTouches(c, s, id, approval, now);
    TouchedAt(s.transactions, s'.transactions, id);
    TransactionMoves(s, s', id);
  }

  lemma ConfirmStuckIff(c: Crypto, s: State, id: Id, approval: Approval, now: Time, a: Aggregate)
    requires Inv(c, s) && Lifecycle(s) && OwnApproval(s, ConfirmTransactionCall(id, approval))
    ensures Stuck(Confirm(c, s, id, approval, now).0, a)
       <==> Stuck(s, a) || ApprovesLate(s, ConfirmTransactionCall(id, approval), now, a)
  {
    hide Inv, Lifecycle, ConsumeStep, LateRecord, OnlyMoves;
    if id in s.transactions {
      if a != OfTransaction(id) {
        hide Confirm, Stuck;
        ConfirmMovesOne(c, s, id, approval, now);
        OthersStay(c, s, Confirm(c, s, id, approval, now).0, a, OfTransaction(id));
      } else if s.transactions[id].challenge.deviceId in s.devices {
        OwnChallenge(c, s, a);
        ConsumeCases(c, s.challenges, approval, s.devices[s.transactions[id].challenge.deviceId].publicKey, now);
        LateIsOpen(s.challenges, approval, now);
      }
    }
  }

  lemma CancelChanges(records: Records, id: Id, now: Time)
    ensures ChangedAt(records, CancelStep(records, id, now).0, id)
  {
  }

  lemma ExpireMovesOne(c: Crypto, s: State, id: Id, now: Time)
    requires id in s.transactions
    ensures OnlyMoves(s, Expire(s, id, now).0, OfTransaction(id))
  {
    hide ReleaseFrom, CancelStep, OnlyMoves, ChangedAt;
    var s' := Expire(s, id, now).0;
    CancelChanges(s.challenges, s.transactions[id].challenge.challengeId, now);
    TouchedAt(s.transactions, s'.transactions, id);
    TransactionMoves(s, s', id);
  }

  lemma ExpireStuckIff(c: Crypto, s: State, id: Id, now: Time, a: Aggregate)
    requires Inv(c, s) && Lifecycle(s)
    ensures Stuck(Expire(s, id, now).0, a) <==> Stuck(s, a)
  {
    hide Inv, Lifecycle, ReleaseFrom, OnlyMoves;
    if id in s.transactions {
      if a != OfTransaction(id) {
        hide Expire, Stuck;
        ExpireMovesOne(c, s, id, now);
        OthersStay(c, s, Expire(s, id, now).0, a, OfTransaction(id));
      } else {
        OwnChallenge(c, s, a);
      }
    }
  }

  lemma ClearStuckIff(c: Crypto, s: State, id: Id, now: Time, a: Aggregate)
    requires Inv(c, s) && Lifecycle(s)
    ensures Stuck(Clear(s, id, now).0, a) <==> Stuck(s, a)
  {
    hide Inv, Lifecycle;
  }

  lemma ProvisionStuckIff(
    c: Crypto, s: State, subjectId: Id, accountId: Id, tokenId: Id, deviceId: Id, capMinor: int, requestId: Id, challengeId: Id, now: Time,
    a: Aggregate)
    requires Inv(c, s) && Lifecycle(s) && requestId !in s.provisioning && challengeId !in s.challenges
    ensures Stuck(Provision(s, subjectId, accountId, tokenId, deviceId, capMinor, requestId, challengeId, now).0, a) <==> Stuck(s, a)
  {
    hide Inv, Lifecycle;
    if Known(s, a) { OwnChallenge(c, s, a); }
  }

  lemma AuthorizeStuckIff(
    c: Crypto, s: State, transactionId: Id, tokenId: Id, merchantId: Id, amountMinor: int, strategy: Strategy, deviceId: Id,
    challengeId: Id, now: Time, a: Aggregate)
    requires Inv(c, s) && Lifecycle(s) && challengeId !in s.challenges
    ensures Stuck(AuthorizeStep(s, transactionId, tokenId, merchantId, amountMinor, strategy, deviceId, challengeId, now).0, a)
       <==> Stuck(s, a)
  {
    hide Inv, Lifecycle;
    if Known(s, a) { OwnChallenge(c, s, a); }
  }

  lemma DeviceCallStuckIff(c: Crypto, s: State, call: Call, now: Time, a: Aggregate)
    requires Inv(c, s) && Lifecycle(s) && DeviceOf(call).Some?
    ensures Stuck(Step(c, s, call, now).0, a) <==> Stuck(s, a) && !ClearsDevice(c, s, call, now, a)
  {
    hide Inv, Lifecycle, Step, Invalidate;
    DeviceCallIsInvalidation(c, s, call, now);
    if Known(s, a) { OwnChallenge(c, s, a); }
    if Step(c, s, call, now).1 == Done {
      var d := DeviceOf(call).value;
      InvalidateStuckIff(s, d, now, a);
      SameStuck(Invalidate(s, d, now).0, Step(c, s, call, now).0, a);
    }
  }

  lemma SameStuck(s: State, s': State, a: Aggregate)
    requires s'.challenges == s.challenges && s'.provisioning == s.provisioning && s'.transactions == s.transactions
    ensures Stuck(s', a) <==> Stuck(s, a)
  {
  }

  lemma InvalidateStuckIff(s: State, d: Id, now: Time, a: Aggregate)
    requires Lifecycle(s) && Invalidate(s, d, now).1 == Done
    ensures Stuck(Invalidate(s, d, now).0, a) <==> Stuck(s, a) && DeviceAt(s, a) != d
  {
    PendingIsReconcilable(s, d);
    hide Lifecycle, TooEarly, ReconcilableRequests, ReconcilableTransactions, ChallengeOf;
  }

  /** A call leaves an aggregate stuck exactly when it approves it late, or found it stuck and does not
      take its device's challenges back. */
  lemma StepStuckIff(c: Crypto, s: State, call: Call, now: Time, a: Aggregate)
    requires Inv(c, s) && Lifecycle(s) && FreshIds(s, call) && OwnApproval(s, call)
    ensures Stuck(Step(c, s, call, now).0, a)
       <==> ApprovesLate(s, call, now, a) || (Stuck(s, a) && !ClearsDevice(c, s, call, now, a))
  {
    hide Inv, Lifecycle, Stuck, Enroll, Revoke, MarkCompromised, Rotate, Provision, Approve, AuthorizeStep, Confirm, Expire, Clear;
    match call
    case EnrollTrustedDevice(subjectId, keyId, publicKey, d) => EnrollStuckIff(c, s, subjectId, keyId, publicKey, d, now, a);
    case RevokeTrustedDevice(_) => DeviceCallStuckIff(c, s, call, now, a);
    case MarkTrustedDeviceCompromised(_) => DeviceCallStuckIff(c, s, call, now, a);
    case RotateTrustedDeviceKey(_, _, _) => DeviceCallStuckIff(c, s, call, now, a);
    case RequestProvisioning(subjectId, accountId, tokenId, d, capMinor, requestId, challengeId) =>
      ProvisionStuckIff(c, s, subjectId, accountId, tokenId, d, capMinor, requestId, challengeId, now, a);
    case ApproveProvisioning(id, approval, activation) => ApproveStuckIff(c, s, id, approval, activation, now, a);
    case Authorize(transactionId, tokenId, merchantId, amountMinor, strategy, d, challengeId) =>
      AuthorizeStuckIff(c, s, transactionId, tokenId, merchantId, amountMinor, strategy, d, challengeId, now, a);
    case ConfirmTransactionCall(id, approval) => ConfirmStuckIff(c, s, id, approval, now, a);
    case ExpireAndReverse(id) => ExpireStuckIff(c, s, id, now, a);
    case ReceiveClearing(id) => ClearStuckIff(c, s, id, now, a);
  }

  lemma EnrollStuckIff(c: Crypto, s: State, subjectId: Id, keyId: Id, publicKey: string, d: Id, now: Time, a: Aggregate)
    ensures Stuck(Enroll(c, s, subjectId, keyId, publicKey, d, now).0, a) <==> Stuck(s, a)
  {
    hide KeyIdTaken, PublicKeyTaken;
  }

  // ---------- over a run ----------

  /** The call at k approved the aggregate late, and no later call of the run took its device's challenges
      back. */
  ghost predicate StuckSince(c: Crypto, events: seq<Event>, a: Aggregate, k: nat)
    requires k < |events|
  {
    && ApprovesLate(After(c, events[..k]), events[k].call, events[k].now, a)
    && forall j :: k < j < |events| ==> !ClearsDevice(c, After(c, events[..j]), events[j].call, events[j].now, a)
  }

  ghost predicate LeftStuck(c: Crypto, events: seq<Event>, a: Aggregate) {
    exists k :: 0 <= k < |events| && StuckSince(c, events, a, k)
  }

  /** Along a run with own approvals an aggregate is stuck exactly when some call approved it late and no
      later call revoked, marked compromised or rotated its device. */
  lemma {:induction false} RunStuckIff(c: Crypto, events: seq<Event>, a: Aggregate)
    requires Legal(c, events) && Owning(c, events)
    ensures Stuck(After(c, events), a) <==> LeftStuck(c, events, a)
    decreases |events|
  {
    hide Step, Stuck, ApprovesLate, ClearsDevice, Inv, Lifecycle, FreshIds, OwnApproval, StuckSince;
    if events == [] {
      assert !Stuck(EmptyState, a) by { NothingStuck(a); }
    } else {
      var n := |events| - 1;
      var s, last := After(c, events[..n]), events[n];
      LegalPrefix(c, events, n);
      ReachableInv(c, events[..n]);
      ReachableLifecycle(c, events[..n]);
      RunStuckIff(c, events[..n], a);
      assert FreshIds(s, last.call) && OwnApproval(s, last.call);
      StepStuckIff(c, s, last.call, last.now, a);
      SinceSnoc(c, events, a);
    }
  }

  lemma NothingStuck(a: Aggregate)
    ensures !Stuck(EmptyState, a)
  {
  }

  /** What the last call adds. */
  lemma SinceSnoc(c: Crypto, events: seq<Event>, a: Aggregate)
    requires events != []
    ensures var n := |events| - 1;
            var s, last := After(c, events[..n]), events[n];
            var added := ApprovesLate(s, last.call, last.now, a);
            var kept := LeftStuck(c, events[..n], a) && !ClearsDevice(c, s, last.call, last.now, a);
            LeftStuck(c, events, a) <==> added || kept
  {
    hide Step, ApprovesLate, ClearsDevice, After;
    var n := |events| - 1;
    forall k | 0 <= k < n
      ensures StuckSince(c, events, a, k)
         <==> StuckSince(c, events[..n], a, k) && !ClearsDevice(c, After(c, events[..n]), events[n].call, events[n].now, a)
    {
      assert forall j :: 0 <= j <= n ==> events[..n][..j] == events[..j];
    }
    if ApprovesLate(After(c, events[..n]), events[n].call, events[n].now, a) { assert StuckSince(c, events, a, n); }
  }

  /** For every run with a forward clock and own approvals the snapshot restores to an equal engine exactly
      when each late approval was followed by a call that took back its device's challenges. */
  lemma RestoresIff(c: Crypto, events: seq<Event>, snap: EngineSnapshot)
    requires Legal(c, events) && Owning(c, events) && ClockForward(events) && SnapshotOf(After(c, events), snap)
    ensures Restored(snap) == After(c, events)
    ensures Restorable(c, snap) <==> forall a :: !LeftStuck(c, events, a)
  {
    hide After, SnapshotOf, Restored, Restorable, NoneStuck, Legal, Owning, Stuck, LeftStuck;
    SnapshotRoundTrip(c, events, snap);
    NoneStuckIff(After(c, events));
    forall a ensures Stuck(After(c, events), a) <==> LeftStuck(c, events, a) {
      RunStuckIff(c, events, a);
    }
  }
}
