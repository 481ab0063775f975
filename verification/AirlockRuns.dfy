/** Whole runs of the airlock engine: lifecycles, ranks, revocation. */
module AirlockRuns {
  import opened Wrappers
  import opened Transitions
  import opened Challenges
  import opened Airlock
  import opened AirlockInvariant
  import opened AirlockInvalidation

  // ---------- lifecycles ----------

  /** An approval or confirmation names the challenge of the aggregate it is passed with. */
  predicate OwnApproval(s: State, call: Call) {
    match call
    case ApproveProvisioning(id, approval, _) =>
      id in s.provisioning ==> approval.binding.challengeId == s.provisioning[id].challenge.challengeId
    case ConfirmTransactionCall(id, approval) =>
      id in s.transactions ==> approval.binding.challengeId == s.transactions[id].challenge.challengeId
    case _ => true
  }

  predicate RequestStatusOk(state: ProvisioningState, status: ChallengeStatus) {
    match state
    case ProvTrustedDeviceChallenge => status in {Created, Expired}
    case ProvTokenActiveCapped => status == Confirmed
    case ProvTokenActiveFull => status == Confirmed
    case ProvDeclined => status in {Cancelled, Expired}
    case _ => false
  }

  predicate TransactionStatusOk(state: TransactionState, status: ChallengeStatus) {
    match state
    case TxConfirmationPending => status in {Created, Expired}
    case TxConfirmed => status == Confirmed
    case TxSettled => status == Confirmed
    case TxDeclined => status in {Cancelled, Expired}
    case TxReversed => status == Cancelled
    case TxException => status == Cancelled
    case _ => false
  }

  predicate RequestLives(records: Records, r: Request) {
    r.challenge.challengeId in records && RequestStatusOk(r.state, records[r.challenge.challengeId].status)
  }

  predicate TransactionLives(records: Records, t: Transaction) {
    t.challenge.challengeId in records && TransactionStatusOk(t.state, records[t.challenge.challengeId].status)
  }

  /** Every aggregate's state agrees with the status of its challenge. */
  ghost predicate Lifecycle(s: State) {
    && (forall id <- s.provisioning :: RequestLives(s.challenges, s.provisioning[id]))
    && (forall id <- s.transactions :: TransactionLives(s.challenges, s.transactions[id]))
  }

  /** No two aggregates share a challenge. */
  lemma DistinctChallenges(s: State)
    requires RequestsOk(s) && TransactionsOk(s)
    ensures forall a, b | a in s.provisioning && b in s.provisioning && a != b ::
              s.provisioning[a].challenge.challengeId != s.provisioning[b].challenge.challengeId
    ensures forall a, b | a in s.transactions && b in s.transactions && a != b ::
              s.transactions[a].challenge.challengeId != s.transactions[b].challenge.challengeId
    ensures forall a, b | a in s.provisioning && b in s.transactions ::
              s.provisioning[a].challenge.challengeId != s.transactions[b].challenge.challengeId
  {
    forall a, b | a in s.provisioning && b in s.provisioning && a != b
      ensures s.provisioning[a].challenge.challengeId != s.provisioning[b].challenge.challengeId
    {
      RequestAt(s, a);
      RequestAt(s, b);
    }
    forall a, b | a in s.transactions && b in s.transactions && a != b
      ensures s.transactions[a].challenge.challengeId != s.transactions[b].challenge.challengeId
    {
      TransactionAt(s, a);
      TransactionAt(s, b);
    }
    forall a, b | a in s.provisioning && b in s.transactions
      ensures s.provisioning[a].challenge.challengeId != s.transactions[b].challenge.challengeId
    {
      RequestAt(s, a);
      TransactionAt(s, b);
    }
  }

  /** A late approval expires a created challenge; the pending aggregate it leaves behind is still in step. */
  lemma ExpiryKeepsLifecycle(s: State, id: Id)
    requires Lifecycle(s) && id in s.challenges && s.challenges[id].status == Created
    ensures Lifecycle(s.(challenges := s.challenges[id := s.challenges[id].(status := Expired)]))
  {
  }

  /** One request and its own challenge move together. */
  lemma RequestMoveKeepsLifecycle(s: State, s': State, id: Id)
    requires RequestsOk(s) && TransactionsOk(s) && Lifecycle(s) && id in s.provisioning && id in s'.provisioning
    requires var cid := s.provisioning[id].challenge.challengeId;
             && cid in s.challenges && cid in s'.challenges && s'.challenges == s.challenges[cid := s'.challenges[cid]]
             && s'.provisioning == s.provisioning[id := s'.provisioning[id]] && s'.transactions == s.transactions
             && RequestLives(s'.challenges, s'.provisioning[id])
    ensures Lifecycle(s')
  {
    DistinctChallenges(s);
    hide RequestsOk, TransactionsOk, RequestStatusOk, TransactionStatusOk;
  }

  lemma TransactionMoveKeepsLifecycle(s: State, s': State, id: Id)
    requires RequestsOk(s) && TransactionsOk(s) && Lifecycle(s) && id in s.transactions && id in s'.transactions
    requires var cid := s.transactions[id].challenge.challengeId;
             && cid in s.challenges && cid in s'.challenges && s'.challenges == s.challenges[cid := s'.challenges[cid]]
             && s'.transactions == s.transactions[id := s'.transactions[id]] && s'.provisioning == s.provisioning
             && TransactionLives(s'.challenges, s'.transactions[id])
    ensures Lifecycle(s')
  {
    DistinctChallenges(s);
    hide RequestsOk, TransactionsOk, RequestStatusOk, TransactionStatusOk;
  }

  lemma SameLifecycle(s: State, s': State)
    requires Lifecycle(s) && s'.challenges == s.challenges && s'.provisioning == s.provisioning
    requires s'.transactions == s.transactions
    ensures Lifecycle(s')
  {
  }

  lemma ApproveKeepsLifecycle(c: Crypto, s: State, id: Id, approval: Approval, activation: Activation, now: Time)
    requires Inv(c, s) && Lifecycle(s) && OwnApproval(s, ApproveProvisioning(id, approval, activation))
    ensures Lifecycle(Approve(c, s, id, approval, activation, now).0)
  {
    hide RequestsOk, TransactionsOk, LedgerOk, DevicesOk, RecordsOk, TokensOk, Owned, Lifecycle;
    var (s', outcome) := Approve(c, s, id, approval, activation, now);
    if outcome == Done {
      RequestAt(s, id);
      RequestMoveKeepsLifecycle(s, s', id);
    } else if id in s.provisioning {
      RequestAt(s, id);
      LifecycleOfRequest(s, id);
      if s' != s {
        ExpiryKeepsLifecycle(s, approval.binding.challengeId);
      }
    }
  }

  lemma LifecycleOfRequest(s: State, id: Id)
    requires Lifecycle(s) && id in s.provisioning
    ensures RequestLives(s.challenges, s.provisioning[id])
  {
  }

  lemma LifecycleOfTransaction(s: State, id: Id)
    requires Lifecycle(s) && id in s.transactions
    ensures TransactionLives(s.challenges, s.transactions[id])
  {
  }

  lemma ConfirmKeepsLifecycle(c: Crypto, s: State, id: Id, approval: Approval, now: Time)
    requires Inv(c, s) && Lifecycle(s) && OwnApproval(s, ConfirmTransactionCall(id, approval))
    ensures Lifecycle(Confirm(c, s, id, approval, now).0)
  {
    hide RequestsOk, TransactionsOk, LedgerOk, DevicesOk, RecordsOk, TokensOk, Owned, Lifecycle;
    var (s', outcome) := Confirm(c, s, id, approval, now);
    if outcome == Done {
      TransactionAt(s, id);
      TransactionMoveKeepsLifecycle(s, s', id);
    } else if id in s.transactions {
      TransactionAt(s, id);
      LifecycleOfTransaction(s, id);
      if s' != s {
        ExpiryKeepsLifecycle(s, approval.binding.challengeId);
      }
    }
  }

  lemma ExpireKeepsLifecycle(c: Crypto, s: State, id: Id, now: Time)
    requires Inv(c, s) && Lifecycle(s)
    ensures Lifecycle(Expire(s, id, now).0)
    ensures Expire(s, id, now).1.Threw? ==> Expire(s, id, now).0 == s
  {
    hide RequestsOk, TransactionsOk, LedgerOk, DevicesOk, RecordsOk, TokensOk, Owned, Lifecycle;
    var (s', outcome) := Expire(s, id, now);
    if id in s.transactions {
      TransactionAt(s, id);
      LifecycleOfTransaction(s, id);
      if outcome == Done {
        TransactionMoveKeepsLifecycle(s, s', id);
      }
    }
  }

  lemma ClearKeepsLifecycle(c: Crypto, s: State, id: Id, now: Time)
    requires Inv(c, s) && Lifecycle(s)
    ensures Lifecycle(Clear(s, id, now).0)
  {
    hide RequestsOk, TransactionsOk, LedgerOk, DevicesOk, RecordsOk, TokensOk, Owned, Lifecycle;
    var (s', outcome) := Clear(s, id, now);
    if outcome == Done {
      TransactionAt(s, id);
      LifecycleOfTransaction(s, id);
      assert s'.challenges == s.challenges[s.transactions[id].challenge.challengeId := s'.challenges[s.transactions[id].challenge.challengeId]];
      TransactionMoveKeepsLifecycle(s, s', id);
    }
  }

  lemma AddedChallengeKeepsLifecycle(s: State, s': State, cid: Id)
    requires Lifecycle(s) && cid !in s.challenges && cid in s'.challenges
    requires s'.challenges == s.challenges[cid := s'.challenges[cid]]
    requires forall id <- s'.provisioning ::
               (id in s.provisioning && s'.provisioning[id] == s.provisioning[id]) || RequestLives(s'.challenges, s'.provisioning[id])
    requires forall id <- s'.transactions ::
               (id in s.transactions && s'.transactions[id] == s.transactions[id]) || TransactionLives(s'.challenges, s'.transactions[id])
    ensures Lifecycle(s')
  {
    hide RequestStatusOk, TransactionStatusOk;
  }

  lemma OwnChallengeIn(s: State, requests: set<Id>, transactions: set<Id>)
    requires RequestsOk(s) && TransactionsOk(s) && requests <= s.provisioning.Keys && transactions <= s.transactions.Keys
    ensures forall id <- s.provisioning ::
              s.provisioning[id].challenge.challengeId in ChallengeOf(s, requests, transactions) <==> id in requests
    ensures forall id <- s.transactions ::
              s.transactions[id].challenge.challengeId in ChallengeOf(s, requests, transactions) <==> id in transactions
  {
    DistinctChallenges(s);
    hide RequestsOk, TransactionsOk;
  }

  lemma DeclinedRequestLives(records: Records, ids: set<Id>, r: Request, now: Time)
    requires RequestLives(records, r) && r.challenge.challengeId in ids && r.state == ProvTrustedDeviceChallenge
    ensures RequestLives(CancelledIn(records, ids, now), r.(state := ProvDeclined))
  {
  }

  lemma DeclinedTransactionLives(records: Records, ids: set<Id>, t: Transaction, now: Time)
    requires TransactionLives(records, t) && t.challenge.challengeId in ids && t.state == TxConfirmationPending
    ensures TransactionLives(CancelledIn(records, ids, now), Release(t.(state := TxDeclined)))
  {
  }

  lemma UntouchedRequestLives(records: Records, ids: set<Id>, r: Request, now: Time)
    requires RequestLives(records, r) && r.challenge.challengeId !in ids
    ensures RequestLives(CancelledIn(records, ids, now), r)
  {
  }

  lemma UntouchedTransactionLives(records: Records, ids: set<Id>, t: Transaction, now: Time)
    requires TransactionLives(records, t) && t.challenge.challengeId !in ids
    ensures TransactionLives(CancelledIn(records, ids, now), t)
  {
  }

  lemma PendingInReconciling(s: State, requests: set<Id>, transactions: set<Id>, now: Time)
    requires Reconciling(s, requests, transactions, now)
    ensures forall r <- requests :: r in s.provisioning && s.provisioning[r].state == ProvTrustedDeviceChallenge
    ensures forall t <- transactions :: t in s.transactions && s.transactions[t].state == TxConfirmationPending
  {
  }

  lemma DeclinedRequestsLive(s: State, requests: set<Id>, ids: set<Id>, now: Time)
    requires Lifecycle(s)
    requires forall id <- s.provisioning :: s.provisioning[id].challenge.challengeId in ids <==> id in requests
    requires forall r <- requests :: r in s.provisioning && s.provisioning[r].state == ProvTrustedDeviceChallenge
    ensures forall id <- DeclineRequests(s.provisioning, requests) ::
              RequestLives(CancelledIn(s.challenges, ids, now), DeclineRequests(s.provisioning, requests)[id])
  {
    forall id | id in s.provisioning
      ensures RequestLives(CancelledIn(s.challenges, ids, now), DeclineRequests(s.provisioning, requests)[id])
    {
      LifecycleOfRequest(s, id);
      hide RequestLives, CancelledIn, Lifecycle;
      if id in requests {
        DeclinedRequestLives(s.challenges, ids, s.provisioning[id], now);
      } else {
        UntouchedRequestLives(s.challenges, ids, s.provisioning[id], now);
      }
    }
  }

  lemma DeclinedTransactionsLive(s: State, transactions: set<Id>, ids: set<Id>, now: Time)
    requires Lifecycle(s)
    requires forall id <- s.transactions :: s.transactions[id].challenge.challengeId in ids <==> id in transactions
    requires forall t <- transactions :: t in s.transactions && s.transactions[t].state == TxConfirmationPending
    ensures forall id <- DeclineTransactions(s.transactions, transactions) ::
              TransactionLives(CancelledIn(s.challenges, ids, now), DeclineTransactions(s.transactions, transactions)[id])
  {
    forall id | id in s.transactions
      ensures TransactionLives(CancelledIn(s.challenges, ids, now), DeclineTransactions(s.transactions, transactions)[id])
    {
      LifecycleOfTransaction(s, id);
      hide TransactionLives, CancelledIn, Lifecycle;
      if id in transactions {
        DeclinedTransactionLives(s.challenges, ids, s.transactions[id], now);
      } else {
        UntouchedTransactionLives(s.challenges, ids, s.transactions[id], now);
      }
    }
  }

  lemma ReconciledKeepsLifecycle(s: State, requests: set<Id>, transactions: set<Id>, now: Time)
    requires RequestsOk(s) && TransactionsOk(s) && Lifecycle(s) && Reconciling(s, requests, transactions, now)
    ensures Lifecycle(Reconciled(s, requests, transactions, now))
  {
    var ids := ChallengeOf(s, requests, transactions);
    PendingInReconciling(s, requests, transactions, now);
    OwnChallengeIn(s, requests, transactions);
    DeclinedRequestsLive(s, requests, ids, now);
    DeclinedTransactionsLive(s, transactions, ids, now);
    hide RequestsOk, TransactionsOk, Reduced, TokensOf, DeclineTokens, ChallengeOf, RequestLives, TransactionLives, Reconciling,
         DeclineRequests, DeclineTransactions, CancelledIn;
  }

  lemma InvalidateKeepsLifecycle(s: State, deviceId: Id, now: Time)
    requires RequestsOk(s) && TransactionsOk(s) && Lifecycle(s)
    ensures Lifecycle(Invalidate(s, deviceId, now).0)
  {
    if !TooEarly(s, deviceId, now) {
      NotTooEarly(s, deviceId, now);
      hide RequestsOk, TransactionsOk, Lifecycle, Reconciling, Reconciled;
      ReconciledKeepsLifecycle(s, ReconcilableRequests(s, deviceId), ReconcilableTransactions(s, deviceId), now);
    }
  }

  /** An invalidation leaves devices and audit alone, and a throwing one everything. */
  lemma InvalidateFrame(s: State, deviceId: Id, now: Time)
    ensures var (i, outcome) := Invalidate(s, deviceId, now);
            i.devices == s.devices && i.audit == s.audit && (outcome.Threw? ==> i == s)
  {
    if !TooEarly(s, deviceId, now) {
      ReconciledDevices(s, ReconcilableRequests(s, deviceId), ReconcilableTransactions(s, deviceId), now);
    }
    hide TooEarly, Reconciled;
  }

  function DeviceOf(call: Call): Option<Id> {
    match call
    case RevokeTrustedDevice(d) => Some(d)
    case MarkTrustedDeviceCompromised(d) => Some(d)
    case RotateTrustedDeviceKey(d, _, _) => Some(d)
    case _ => None
  }

  /** What a call on one device may do: throw and change nothing, or invalidate and then rewrite that device. */
  ghost predicate InvalidatesThenRewrites(s: State, d: Id, now: Time, result: (State, Outcome)) {
    var (s', outcome) := result;
    var (i, done) := Invalidate(s, d, now);
    if outcome.Threw? then s' == s
    else
      && done == Done && d in s.devices && s.devices[d].status == Active && d in s'.devices
      && s'.devices == s.devices[d := s'.devices[d]]
      && s' == i.(devices := s'.devices, audit := s'.audit)
  }

  lemma RetiringIsInvalidation(s: State, d: Id, now: Time)
    ensures InvalidatesThenRewrites(s, d, now, Revoke(s, d, now))
    ensures InvalidatesThenRewrites(s, d, now, MarkCompromised(s, d, now))
    ensures Revoke(s, d, now).1 == Done ==> Revoke(s, d, now).0.devices[d].status == Revoked
    ensures MarkCompromised(s, d, now).1 == Done ==> MarkCompromised(s, d, now).0.devices[d].status == Revoked
  {
    InvalidateFrame(s, d, now);
    hide Invalidate;
  }

  lemma RotationIsInvalidation(c: Crypto, s: State, d: Id, keyId: Id, publicKey: string, now: Time)
    ensures InvalidatesThenRewrites(s, d, now, Rotate(c, s, d, keyId, publicKey, now))
  {
    InvalidateFrame(s, d, now);
    hide Invalidate, KeyIdTaken, PublicKeyTaken;
  }

  /** Revocation, compromise and rotation throw with the engine unchanged, or are the invalidation
      of the device's outstanding challenges followed by a change of that device alone. */
  lemma DeviceCallIsInvalidation(c: Crypto, s: State, call: Call, now: Time)
    requires DeviceOf(call).Some?
    ensures var (s', outcome) := Step(c, s, call, now);
            var d := DeviceOf(call).value;
            var (i, done) := Invalidate(s, d, now);
            if outcome.Threw? then s' == s
            else
              && done == Done && d in s.devices && s.devices[d].status == Active && d in s'.devices
              && s'.devices == s.devices[d := s'.devices[d]]
              && s' == i.(devices := s'.devices, audit := s'.audit)
              && (!call.RotateTrustedDeviceKey? ==> s'.devices[d].status == Revoked)
  {
    var d := DeviceOf(call).value;
    RetiringIsInvalidation(s, d, now);
    hide Invalidate, Revoke, MarkCompromised, Rotate;
    match call
    case RevokeTrustedDevice(_) =>
    case MarkTrustedDeviceCompromised(_) =>
    case RotateTrustedDeviceKey(_, keyId, publicKey) => RotationIsInvalidation(c, s, d, keyId, publicKey, now);
  }

  /** Every call whose approval is its own keeps aggregates and challenges in step. */
  lemma StepKeepsLifecycle(c: Crypto, s: State, call: Call, now: Time)
    requires Inv(c, s) && Lifecycle(s) && FreshIds(s, call) && OwnApproval(s, call)
    ensures Lifecycle(Step(c, s, call, now).0)
  {
    hide Inv, Lifecycle, Enroll, Revoke, MarkCompromised, Rotate, Provision, Approve, AuthorizeStep, Confirm, Expire, Clear;
    match call
    case EnrollTrustedDevice(_, _, _, _) => EnrollKeepsLifecycle(c, s, call, now);
    case RevokeTrustedDevice(_) => DeviceCallKeepsLifecycle(c, s, call, now);
    case MarkTrustedDeviceCompromised(_) => DeviceCallKeepsLifecycle(c, s, call, now);
    case RotateTrustedDeviceKey(_, _, _) => DeviceCallKeepsLifecycle(c, s, call, now);
    case RequestProvisioning(subjectId, accountId, tokenId, d, capMinor, requestId, cid) =>
      ProvisionKeepsLifecycle(s, subjectId, accountId, tokenId, d, capMinor, requestId, cid, now);
    case ApproveProvisioning(id, approval, activation) => ApproveKeepsLifecycle(c, s, id, approval, activation, now);
    case Authorize(t, tokenId, merchantId, amountMinor, strategy, d, cid) =>
      AuthorizeKeepsLifecycle(s, t, tokenId, merchantId, amountMinor, strategy, d, cid, now);
    case ConfirmTransactionCall(id, approval) => ConfirmKeepsLifecycle(c, s, id, approval, now);
    case ExpireAndReverse(id) => ExpireKeepsLifecycle(c, s, id, now);
    case ReceiveClearing(id) => ClearKeepsLifecycle(c, s, id, now);
  }

  lemma EnrollKeepsLifecycle(c: Crypto, s: State, call: Call, now: Time)
    requires Lifecycle(s) && call.EnrollTrustedDevice?
    ensures Lifecycle(Step(c, s, call, now).0)
  {
    hide Lifecycle, KeyIdTaken, PublicKeyTaken;
    SameLifecycle(s, Step(c, s, call, now).0);
  }

  lemma DeviceCallKeepsLifecycle(c: Crypto, s: State, call: Call, now: Time)
    requires Inv(c, s) && Lifecycle(s) && DeviceOf(call).Some?
    ensures Lifecycle(Step(c, s, call, now).0)
  {
    hide RequestsOk, TransactionsOk, LedgerOk, DevicesOk, RecordsOk, TokensOk, Owned, Lifecycle, Invalidate, Step;
    DeviceCallIsInvalidation(c, s, call, now);
    var d := DeviceOf(call).value;
    InvalidateKeepsLifecycle(s, d, now);
    SameLifecycle(if Step(c, s, call, now).1 == Done then Invalidate(s, d, now).0 else s, Step(c, s, call, now).0);
  }

  lemma ProvisionKeepsLifecycle(
    s: State, subjectId: Id, accountId: Id, tokenId: Id, d: Id, capMinor: int, requestId: Id, cid: Id, now: Time)
    requires Lifecycle(s) && cid !in s.challenges
    ensures Lifecycle(Provision(s, subjectId, accountId, tokenId, d, capMinor, requestId, cid, now).0)
  {
    hide Lifecycle;
    var s' := Provision(s, subjectId, accountId, tokenId, d, capMinor, requestId, cid, now).0;
    if s' != s { AddedChallengeKeepsLifecycle(s, s', cid); }
  }

  lemma AuthorizeKeepsLifecycle(
    s: State, t: Id, tokenId: Id, merchantId: Id, amountMinor: int, strategy: Strategy, d: Id, cid: Id, now: Time)
    requires Lifecycle(s) && cid !in s.challenges
    ensures Lifecycle(AuthorizeStep(s, t, tokenId, merchantId, amountMinor, strategy, d, cid, now).0)
  {
    hide Lifecycle;
    var s' := AuthorizeStep(s, t, tokenId, merchantId, amountMinor, strategy, d, cid, now).0;
    if s' != s { AddedChallengeKeepsLifecycle(s, s', cid); }
  }
}
