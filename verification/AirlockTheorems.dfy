/** What every run of the airlock engine guarantees. */
module AirlockTheorems {
  import opened Wrappers
  import opened Transitions
  import opened Challenges
  import opened Airlock
  import opened AirlockInvariant
  import opened AirlockInvalidation
  import opened AirlockRuns

  datatype Event = Event(call: Call, now: Time)

  /** The state a run of calls leaves, starting from a new engine. */
  ghost function After(c: Crypto, events: seq<Event>): State {
    if events == [] then EmptyState
    else
      var last := events[|events| - 1];
      Step(c, After(c, events[..|events| - 1]), last.call, last.now).0
  }

  ghost predicate Legal(c: Crypto, events: seq<Event>) {
    forall k :: 0 <= k < |events| ==> FreshIds(After(c, events[..k]), events[k].call)
  }

  ghost predicate Owning(c: Crypto, events: seq<Event>) {
    forall k :: 0 <= k < |events| ==> OwnApproval(After(c, events[..k]), events[k].call)
  }

  ghost predicate ClockForward(events: seq<Event>) {
    forall i, j :: 0 <= i < j < |events| ==> events[i].now <= events[j].now
  }

  lemma LegalPrefix(c: Crypto, events: seq<Event>, n: nat)
    requires n <= |events|
    ensures Legal(c, events) ==> Legal(c, events[..n])
    ensures Owning(c, events) ==> Owning(c, events[..n])
    ensures ClockForward(events) ==> ClockForward(events[..n])
  {
    forall k | 0 <= k < n ensures events[..n][..k] == events[..k] {
    }
  }

  /** Every state of every run satisfies the invariant, whatever the approvals and the clock. */
  lemma {:induction false} ReachableInv(c: Crypto, events: seq<Event>)
    requires Legal(c, events)
    ensures Inv(c, After(c, events))
    decreases |events|
  {
    hide Inv, Step;
    if events == [] {
      EmptyKeepsInv(c);
    } else {
      var n := |events| - 1;
      LegalPrefix(c, events, n);
      ReachableInv(c, events[..n]);
      StepKeepsInv(c, After(c, events[..n]), events[n].call, events[n].now);
    }
  }

  lemma {:induction false} ReachableLifecycle(c: Crypto, events: seq<Event>)
    requires Legal(c, events) && Owning(c, events)
    ensures Lifecycle(After(c, events))
    decreases |events|
  {
    hide Inv, Step;
    if events != [] {
      var n := |events| - 1;
      LegalPrefix(c, events, n);
      ReachableInv(c, events[..n]);
      ReachableLifecycle(c, events[..n]);
      StepKeepsLifecycle(c, After(c, events[..n]), events[n].call, events[n].now);
    }
  }

  // ---------- the daily-spend ledger ----------

  /** On every run the ledger equals, key for key, what transactions still reserve; it has no zero
      entry and stays within the daily cap of an active capped token. */
  lemma DailySpendConserved(c: Crypto, events: seq<Event>, key: SpendKey)
    requires Legal(c, events)
    ensures var s := After(c, events);
            && SpendAt(s.dailySpend, key) == Held(s.transactions, key)
            && (key in s.dailySpend ==>
                  && key.tokenId in s.tokens && s.tokens[key.tokenId].state == TokenActiveCapped
                  && s.tokens[key.tokenId].caps.Some?
                  && 0 < s.dailySpend[key] <= s.tokens[key.tokenId].caps.value.dailyMinor)
  {
    ReachableInv(c, events);
    hide RequestsOk, TransactionsOk, DevicesOk, RecordsOk, TokensOk, Owned, Step, After;
    var s := After(c, events);
    assert key in s.dailySpend ==> EntryOk(s.tokens, key, s.dailySpend[key]);
  }

  /** No sum of two safe integers exceeds this. */
  const TWO_TO_54 := 18_014_398_509_481_984

  /** A rounding of sums of two safe integers: exact on safe integers, and monotone. */
  ghost predicate Rounding(round: int -> int) {
    && (forall n :: SafeInteger(n) ==> round(n) == n)
    && (forall a, b :: -TWO_TO_54 <= a <= b <= TWO_TO_54 ==> round(a) <= round(b))
  }

  /** The two cap tests of an authorization, with the running total rounded. */
  predicate Admits(round: int -> int, caps: Caps, spent: int, amount: int) {
    && SafeInteger(amount) && 0 < amount <= caps.perTransactionMinor
    && !(round(spent + amount) > caps.dailyMinor)
  }

  function Exact(n: int): int { n }

  /** Because a cap is at most half the largest safe integer, the cap tests give the exact answer under
      every such rounding, and the total then put on the ledger is exact. */
  lemma CapTestSurvivesRounding(c: Crypto, s: State, round: int -> int, key: SpendKey, amount: int)
    requires Inv(c, s) && Rounding(round)
    requires key.tokenId in s.tokens && s.tokens[key.tokenId].state == TokenActiveCapped
    ensures var caps, spent := s.tokens[key.tokenId].caps, SpendAt(s.dailySpend, key);
            && caps.Some? && (Admits(round, caps.value, spent, amount) <==> Admits(Exact, caps.value, spent, amount))
            && (Admits(round, caps.value, spent, amount) ==> round(spent + amount) == spent + amount)
  {
    TokenAt(s.tokens, key.tokenId);
    var daily := s.tokens[key.tokenId].caps.value.dailyMinor;
    assert key in s.dailySpend ==> EntryOk(s.tokens, key, s.dailySpend[key]);
    var total := SpendAt(s.dailySpend, key) + amount;
    assert SafeInteger(daily + 1) && round(daily + 1) == daily + 1;
    if total <= daily && amount > 0 {
      assert SafeInteger(total);
    }
  }

  /** Rounding to the nearest double, ties to even, of integers up to two to the 54: above two to the 53
      doubles are the even integers. */
  function Double(n: int): int {
    if TWO_TO_54 / 2 < n <= TWO_TO_54 && n % 2 == 1 then (if n % 4 == 1 then n - 1 else n + 1) else n
  }

  /** Under doubles every admitted payment is admitted exactly and leaves an exact total, whatever was
      spent before. */
  ghost predicate DoublesAreExact(cap: int) {
    forall spent, amount :: 0 <= spent <= 2 * cap && Admits(Double, Caps(cap, 2 * cap), spent, amount) ==>
      Admits(Exact, Caps(cap, 2 * cap), spent, amount) && Double(spent + amount) == spent + amount
  }

  lemma WithinBound(cap: int, spent: int, amount: int)
    requires 0 < cap <= MAX_CAP_MINOR && 0 <= spent <= 2 * cap && Admits(Double, Caps(cap, 2 * cap), spent, amount)
    ensures Admits(Exact, Caps(cap, 2 * cap), spent, amount) && Double(spent + amount) == spent + amount
  {
  }

  /** Above the bound the daily cap is beyond two to the 53, and an odd total near it is rounded. */
  lemma BeyondBound(cap: int) returns (spent: int)
    requires MAX_CAP_MINOR < cap && SafeInteger(cap)
    ensures 0 <= spent <= 2 * cap && Admits(Double, Caps(cap, 2 * cap), spent, 1) && Double(spent + 1) != spent + 1
  {
    spent := if cap % 2 == 0 then 2 * cap else 2 * cap - 2;
  }

  /** The bound on caps is exact: doubles do for a cap exactly when it is within it. */
  lemma CapBoundIsExact(cap: int)
    requires 0 < cap && SafeInteger(cap)
    ensures DoublesAreExact(cap) <==> cap <= MAX_CAP_MINOR
  {
    hide Admits, Double;
    if cap <= MAX_CAP_MINOR {
      forall spent, amount | 0 <= spent <= 2 * cap && Admits(Double, Caps(cap, 2 * cap), spent, amount)
        ensures Admits(Exact, Caps(cap, 2 * cap), spent, amount) && Double(spent + amount) == spent + amount
      {
        WithinBound(cap, spent, amount);
      }
    } else {
      var spent := BeyondBound(cap);
    }
  }

  /** The bound is the largest that will do.  With the next cap, two payments of the whole cap spend the
      daily cap exactly, and doubles then admit one unit more and leave the ledger as it was. */
  lemma RoundingNeedsTheBound()
    ensures var cap := MAX_CAP_MINOR + 1;
            var caps := Caps(cap, cap * 2);
            && Rounding(Double)
            && Admits(Double, caps, 0, cap) && Double(0 + cap) == cap
            && Admits(Double, caps, cap, cap) && Double(cap + cap) == 2 * cap
            && Admits(Double, caps, 2 * cap, 1) && Double(2 * cap + 1) == 2 * cap
            && !Admits(Exact, caps, 2 * cap, 1)
  {
  }

  // ---------- revocation, compromise, rotation ----------

  ghost predicate NothingPending(s: State, deviceId: Id) {
    && (forall r <- s.provisioning :: !PendingRequest(s, deviceId, r))
    && (forall t <- s.transactions :: !PendingTransaction(s, deviceId, t))
  }

  /** A revoked device on which nothing is pending. */
  ghost predicate Dead(s: State, deviceId: Id) {
    deviceId in s.devices && s.devices[deviceId].status == Revoked && NothingPending(s, deviceId)
  }

  ghost predicate NoCreatedChallenge(s: State, deviceId: Id) {
    forall id <- s.challenges :: s.challenges[id].status == Created ==> s.challenges[id].binding.deviceId != deviceId
  }

  lemma PendingIsReconcilable(s: State, deviceId: Id)
    requires Lifecycle(s)
    ensures ReconcilableRequests(s, deviceId) == PendingRequests(s, deviceId)
    ensures ReconcilableTransactions(s, deviceId) == PendingTransactions(s, deviceId)
  {
    forall r | r in s.provisioning && PendingRequest(s, deviceId, r)
      ensures Reconcilable(s, s.provisioning[r].challenge.challengeId)
    {
      assert RequestLives(s.challenges, s.provisioning[r]);
    }
    forall t | t in s.transactions && PendingTransaction(s, deviceId, t)
      ensures Reconcilable(s, s.transactions[t].challenge.challengeId)
    {
      assert TransactionLives(s.challenges, s.transactions[t]);
    }
  }

  /** A created challenge belongs to a pending aggregate of the same device. */
  lemma CreatedHasPendingOwner(s: State, deviceId: Id, id: Id)
    requires RequestsOk(s) && TransactionsOk(s) && Owned(s) && Lifecycle(s)
    requires id in s.challenges && s.challenges[id].status == Created && s.challenges[id].binding.deviceId == deviceId
    ensures !NothingPending(s, deviceId)
  {
    hide RequestsOk, TransactionsOk, Lifecycle;
    if OwnedByRequest(s, id) {
      var r :| r in s.provisioning && s.provisioning[r].challenge.challengeId == id;
      RequestAt(s, r);
      LifecycleOfRequest(s, r);
      assert PendingRequest(s, deviceId, r);
    } else {
      var t :| t in s.transactions && s.transactions[t].challenge.challengeId == id;
      TransactionAt(s, t);
      LifecycleOfTransaction(s, t);
      assert PendingTransaction(s, deviceId, t);
    }
  }

  lemma ReconciledLeavesNothing(s: State, deviceId: Id, now: Time)
    ensures NothingPending(Reconciled(s, PendingRequests(s, deviceId), PendingTransactions(s, deviceId), now), deviceId)
  {
  }

  lemma InvalidateLeavesNothing(s: State, deviceId: Id, now: Time)
    requires Lifecycle(s) && Invalidate(s, deviceId, now).1 == Done
    ensures NothingPending(Invalidate(s, deviceId, now).0, deviceId)
  {
    PendingIsReconcilable(s, deviceId);
    ReconciledLeavesNothing(s, deviceId, now);
    hide Reconciled, NothingPending, Lifecycle, TooEarly;
  }

  lemma QuietHasNoCreated(s: State, deviceId: Id)
    requires RequestsOk(s) && TransactionsOk(s) && Owned(s) && Lifecycle(s) && NothingPending(s, deviceId)
    ensures NoCreatedChallenge(s, deviceId)
  {
    hide RequestsOk, TransactionsOk, Owned, Lifecycle, NothingPending;
    forall id | id in s.challenges && s.challenges[id].status == Created
      ensures s.challenges[id].binding.deviceId != deviceId
    {
      if s.challenges[id].binding.deviceId == deviceId {
        CreatedHasPendingOwner(s, deviceId, id);
      }
    }
  }

  /** Revoke, compromise and rotate throw with the engine unchanged, or leave the device with no
      pending aggregate and no created challenge, every aggregate that was pending declined and its
      reservation off the ledger. */
  lemma LockdownClears(c: Crypto, s: State, call: Call, now: Time)
    requires Inv(c, s) && Lifecycle(s) && DeviceOf(call).Some?
    ensures var (s', outcome) := Step(c, s, call, now);
            var d := DeviceOf(call).value;
            if outcome.Threw? then s' == s
            else
              && NothingPending(s', d) && NoCreatedChallenge(s', d)
              && (!call.RotateTrustedDeviceKey? ==> Dead(s', d))
              && s'.transactions == DeclineTransactions(s.transactions, PendingTransactions(s, d))
              && s'.provisioning == DeclineRequests(s.provisioning, PendingRequests(s, d))
              && (forall key :: SpendAt(s'.dailySpend, key)
                             == SpendAt(s.dailySpend, key) - Held(Restrict(s.transactions, PendingTransactions(s, d)), key))
  {
    var d := DeviceOf(call).value;
    var (s', outcome) := Step(c, s, call, now);
    DeviceCallIsInvalidation(c, s, call, now);
    StepKeepsInv(c, s, call, now);
    StepKeepsLifecycle(c, s, call, now);
    if outcome == Done {
      InvalidateLeavesNothing(s, d, now);
      PendingIsReconcilable(s, d);
      ReconciledParts(s, PendingRequests(s, d), PendingTransactions(s, d), now);
      hide Step, Reconciled, RequestsOk, TransactionsOk, LedgerOk, DevicesOk, RecordsOk, TokensOk, Owned, Lifecycle,
           PendingRequests, PendingTransactions, ReconcilableRequests, ReconcilableTransactions, TooEarly,
           DeclineTransactions, DeclineRequests;
      SamePending(Invalidate(s, d, now).0, s', d);
      QuietHasNoCreated(s', d);
      forall key ensures SpendAt(s'.dailySpend, key)
                      == SpendAt(s.dailySpend, key) - Held(Restrict(s.transactions, PendingTransactions(s, d)), key)
      {
        SpendAfterRelease(s, s', PendingTransactions(s, d), key);
      }
    }
  }

  lemma ReconciledParts(s: State, requests: set<Id>, transactions: set<Id>, now: Time)
    ensures Reconciled(s, requests, transactions, now).transactions == DeclineTransactions(s.transactions, transactions)
    ensures Reconciled(s, requests, transactions, now).provisioning == DeclineRequests(s.provisioning, requests)
  {
  }

  lemma SamePending(s: State, s': State, deviceId: Id)
    requires s'.provisioning == s.provisioning && s'.transactions == s.transactions && NothingPending(s, deviceId)
    ensures NothingPending(s', deviceId)
  {
  }

  lemma SpendAfterRelease(s: State, s': State, released: set<Id>, key: SpendKey)
    requires LedgerOk(s) && LedgerOk(s')
    requires s'.transactions == DeclineTransactions(s.transactions, released) && released <= s.transactions.Keys
    ensures SpendAt(s'.dailySpend, key) == SpendAt(s.dailySpend, key) - Held(Restrict(s.transactions, released), key)
  {
    HeldAfterRelease(s.transactions, s'.transactions, released, key);
    assert SpendAt(s.dailySpend, key) == Held(s.transactions, key);
    assert SpendAt(s'.dailySpend, key) == Held(s'.transactions, key);
  }

  // ---------- after revocation ----------

  predicate TransactionOn(s: State, deviceId: Id, t: Id, state: TransactionState) {
    t in s.transactions && s.transactions[t].challenge.deviceId == deviceId && s.transactions[t].state == state
  }

  predicate RequestOn(s: State, deviceId: Id, r: Id, states: set<ProvisioningState>) {
    r in s.provisioning && s.provisioning[r].deviceId == deviceId && s.provisioning[r].state in states
  }

  const ApprovedStates := {ProvTokenActiveCapped, ProvTokenActiveFull}

  /** No new work on the device becomes confirmed or approved. */
  ghost predicate NoNewWork(s: State, s': State, deviceId: Id) {
    && (forall t :: TransactionOn(s', deviceId, t, TxConfirmed) ==> TransactionOn(s, deviceId, t, TxConfirmed))
    && (forall r :: RequestOn(s', deviceId, r, ApprovedStates) ==> RequestOn(s, deviceId, r, ApprovedStates))
  }

  lemma InvalidateOtherKeepsDead(s: State, other: Id, now: Time, deviceId: Id)
    requires NothingPending(s, deviceId)
    ensures NothingPending(Invalidate(s, other, now).0, deviceId)
    ensures NoNewWork(s, Invalidate(s, other, now).0, deviceId)
  {
    if !TooEarly(s, other, now) {
      ReconciledParts(s, ReconcilableRequests(s, other), ReconcilableTransactions(s, other), now);
      hide Reconciled, ReconcilableRequests, ReconcilableTransactions, TooEarly;
    }
  }

  /** A step that leaves the device's own aggregates alone, or moves them to other states, changes nothing. */
  lemma MovesKeepDead(s: State, s': State, deviceId: Id, rs: set<Id>, ts: set<Id>)
    requires NothingPending(s, deviceId)
    requires forall r <- s'.provisioning ::
               if r in rs then s'.provisioning[r].deviceId != deviceId
               else r in s.provisioning && s'.provisioning[r] == s.provisioning[r]
    requires forall t <- s'.transactions ::
               if t in ts then s'.transactions[t].challenge.deviceId != deviceId
                 || s'.transactions[t].state !in {TxConfirmationPending, TxConfirmed}
               else t in s.transactions && s'.transactions[t] == s.transactions[t]
    ensures NothingPending(s', deviceId) && NoNewWork(s, s', deviceId)
  {
  }

  /** Approving moves at most one request, and none of a revoked device. */
  lemma ApproveTouches(c: Crypto, s: State, id: Id, approval: Approval, activation: Activation, now: Time)
    ensures var s' := Approve(c, s, id, approval, activation, now).0;
            && s'.devices == s.devices && s'.transactions == s.transactions
            && (s'.provisioning == s.provisioning
                || (id in s.provisioning && s'.provisioning == s.provisioning[id := s'.provisioning[id]]
                    && s'.provisioning[id].deviceId == s.provisioning[id].deviceId
                    && s.provisioning[id].deviceId in s.devices && s.devices[s.provisioning[id].deviceId].status != Revoked))
  {
    hide ConsumeStep, TransitionProvisioning;
  }

  lemma ApproveKeepsDead(c: Crypto, s: State, id: Id, approval: Approval, activation: Activation, now: Time, deviceId: Id)
    requires Dead(s, deviceId)
    ensures var s' := Approve(c, s, id, approval, activation, now).0; Dead(s', deviceId) && NoNewWork(s, s', deviceId)
  {
    hide Approve, NothingPending, NoNewWork;
    var s' := Approve(c, s, id, approval, activation, now).0;
    ApproveTouches(c, s, id, approval, activation, now);
    MovesKeepDead(s, s', deviceId, if s'.provisioning == s.provisioning then {} else {id}, {});
  }

  /** Confirming moves at most one transaction, and none of a revoked device. */
  lemma ConfirmTouches(c: Crypto, s: State, id: Id, approval: Approval, now: Time)
    ensures var s' := Confirm(c, s, id, approval, now).0;
            && s'.devices == s.devices && s'.provisioning == s.provisioning
            && (s'.transactions == s.transactions
                || (id in s.transactions && s'.transactions == s.transactions[id := s.transactions[id].(state := TxConfirmed)]
                    && s.transactions[id].challenge.deviceId in s.devices
                    && s.devices[s.transactions[id].challenge.deviceId].status != Revoked))
  {
    hide ConsumeStep, TransitionTransaction;
  }

  lemma ConfirmKeepsDead(c: Crypto, s: State, id: Id, approval: Approval, now: Time, deviceId: Id)
    requires Dead(s, deviceId)
    ensures var s' := Confirm(c, s, id, approval, now).0; Dead(s', deviceId) && NoNewWork(s, s', deviceId)
  {
    hide Confirm, NothingPending, NoNewWork;
    var s' := Confirm(c, s, id, approval, now).0;
    ConfirmTouches(c, s, id, approval, now);
    MovesKeepDead(s, s', deviceId, {}, if s'.transactions == s.transactions then {} else {id});
  }

  lemma ExpireKeepsDead(c: Crypto, s: State, id: Id, now: Time, deviceId: Id)
    requires Dead(s, deviceId)
    ensures var s' := Expire(s, id, now).0; Dead(s', deviceId) && NoNewWork(s, s', deviceId)
  {
    hide ConsumeStep, CancelStep, ReleaseFrom, NothingPending, NoNewWork;
    var s' := Expire(s, id, now).0;
    MovesKeepDead(s, s', deviceId, {}, if s'.transactions == s.transactions then {} else {id});
  }

  lemma ClearKeepsDead(c: Crypto, s: State, id: Id, now: Time, deviceId: Id)
    requires Dead(s, deviceId)
    ensures var s' := Clear(s, id, now).0; Dead(s', deviceId) && NoNewWork(s, s', deviceId)
  {
    hide ConsumeStep, CancelStep, ReleaseFrom, NothingPending, NoNewWork;
    var s' := Clear(s, id, now).0;
    MovesKeepDead(s, s', deviceId, {}, if s'.transactions == s.transactions then {} else {id});
  }

  lemma ProvisionKeepsDead(
    s: State, subjectId: Id, accountId: Id, tokenId: Id, d: Id, capMinor: int, requestId: Id, challengeId: Id, now: Time,
    deviceId: Id)
    requires Dead(s, deviceId)
    ensures var s' := Provision(s, subjectId, accountId, tokenId, d, capMinor, requestId, challengeId, now).0;
            Dead(s', deviceId) && NoNewWork(s, s', deviceId)
  {
    hide NothingPending, NoNewWork;
    var s' := Provision(s, subjectId, accountId, tokenId, d, capMinor, requestId, challengeId, now).0;
    MovesKeepDead(s, s', deviceId, if s' == s then {} else {requestId}, {});
  }

  lemma AuthorizeKeepsDead(
    s: State, transactionId: Id, tokenId: Id, merchantId: Id, amountMinor: int, strategy: Strategy, d: Id,
    challengeId: Id, now: Time, deviceId: Id)
    requires Dead(s, deviceId)
    ensures var s' := AuthorizeStep(s, transactionId, tokenId, merchantId, amountMinor, strategy, d, challengeId, now).0;
            Dead(s', deviceId) && NoNewWork(s, s', deviceId)
  {
    hide NothingPending, NoNewWork;
    var s' := AuthorizeStep(s, transactionId, tokenId, merchantId, amountMinor, strategy, d, challengeId, now).0;
    MovesKeepDead(s, s', deviceId, {}, if s' == s then {} else {transactionId});
  }

  lemma DeviceCallKeepsDead(c: Crypto, s: State, call: Call, now: Time, deviceId: Id)
    requires Dead(s, deviceId) && DeviceOf(call).Some?
    ensures var s' := Step(c, s, call, now).0; Dead(s', deviceId) && NoNewWork(s, s', deviceId)
  {
    hide Step, Invalidate;
    DeviceCallIsInvalidation(c, s, call, now);
    InvalidateOtherKeepsDead(s, DeviceOf(call).value, now, deviceId);
  }

  lemma EnrollKeepsDead(c: Crypto, s: State, subjectId: Id, keyId: Id, publicKey: string, d: Id, now: Time, deviceId: Id)
    requires Dead(s, deviceId)
    ensures var s' := Enroll(c, s, subjectId, keyId, publicKey, d, now).0; Dead(s', deviceId) && NoNewWork(s, s', deviceId)
  {
    hide KeyIdTaken, PublicKeyTaken, NothingPending, NoNewWork;
    MovesKeepDead(s, Enroll(c, s, subjectId, keyId, publicKey, d, now).0, deviceId, {}, {});
  }

  lemma StepKeepsDead(c: Crypto, s: State, call: Call, now: Time, deviceId: Id)
    requires Dead(s, deviceId)
    ensures var s' := Step(c, s, call, now).0; Dead(s', deviceId) && NoNewWork(s, s', deviceId)
  {
    hide Enroll, Revoke, MarkCompromised, Rotate, Provision, Approve, AuthorizeStep, Confirm, Expire, Clear, Dead, NoNewWork;
    match call
    case EnrollTrustedDevice(subjectId, keyId, publicKey, d) => EnrollKeepsDead(c, s, subjectId, keyId, publicKey, d, now, deviceId);
    case RevokeTrustedDevice(_) => DeviceCallKeepsDead(c, s, call, now, deviceId);
    case MarkTrustedDeviceCompromised(_) => DeviceCallKeepsDead(c, s, call, now, deviceId);
    case RotateTrustedDeviceKey(_, _, _) => DeviceCallKeepsDead(c, s, call, now, deviceId);
    case RequestProvisioning(subjectId, accountId, tokenId, d, capMinor, requestId, challengeId) =>
      ProvisionKeepsDead(s, subjectId, accountId, tokenId, d, capMinor, requestId, challengeId, now, deviceId);
    case ApproveProvisioning(id, approval, activation) => ApproveKeepsDead(c, s, id, approval, activation, now, deviceId);
    case Authorize(transactionId, tokenId, merchantId, amountMinor, strategy, d, challengeId) =>
      AuthorizeKeepsDead(s, transactionId, tokenId, merchantId, amountMinor, strategy, d, challengeId, now, deviceId);
    case ConfirmTransactionCall(id, approval) => ConfirmKeepsDead(c, s, id, approval, now, deviceId);
    case ExpireAndReverse(id) => ExpireKeepsDead(c, s, id, now, deviceId);
    case ReceiveClearing(id) => ClearKeepsDead(c, s, id, now, deviceId);
  }

  /** A call that takes the device out of service. */
  predicate Locks(call: Call, deviceId: Id) { DeviceOf(call) == Some(deviceId) && !call.RotateTrustedDeviceKey? }

  lemma AfterNext(c: Crypto, events: seq<Event>, k: nat)
    requires k < |events|
    ensures After(c, events[..k + 1]) == Step(c, After(c, events[..k]), events[k].call, events[k].now).0
  {
    hide Step;
    assert events[..k + 1][..k] == events[..k];
  }

  lemma NoNewWorkTransitive(a: State, b: State, d: State, deviceId: Id)
    requires NoNewWork(a, b, deviceId) && NoNewWork(b, d, deviceId)
    ensures NoNewWork(a, d, deviceId)
  {
  }

  lemma LockedAtOnce(c: Crypto, events: seq<Event>, k: nat, deviceId: Id)
    requires Legal(c, events) && Owning(c, events) && k < |events| && Locks(events[k].call, deviceId)
    requires Step(c, After(c, events[..k]), events[k].call, events[k].now).1 == Done
    ensures Dead(After(c, events[..k + 1]), deviceId) && NoNewWork(After(c, events[..k]), After(c, events[..k + 1]), deviceId)
  {
    hide Legal, Owning, After, Step, Inv, Lifecycle, NoNewWork, Dead, NothingPending, NoCreatedChallenge, DeclineTransactions,
         DeclineRequests, PendingRequests, PendingTransactions;
    var before, last := After(c, events[..k]), events[k];
    AfterNext(c, events, k);
    LegalPrefix(c, events, k);
    ReachableInv(c, events[..k]);
    ReachableLifecycle(c, events[..k]);
    LockdownClears(c, before, last.call, last.now);
    DeclinesNothingNew(before, After(c, events[..k + 1]), PendingRequests(before, deviceId), PendingTransactions(before, deviceId),
                       deviceId);
  }

  /** Once a call of a run has revoked a device or marked it compromised, nothing on the device is ever
      pending again, and nothing on it is approved or confirmed that was not before, whatever the rest of
      the run is. */
  lemma {:induction false} RevokedForever(c: Crypto, events: seq<Event>, k: nat, m: nat, deviceId: Id)
    requires Legal(c, events) && Owning(c, events) && k < m <= |events| && Locks(events[k].call, deviceId)
    requires Step(c, After(c, events[..k]), events[k].call, events[k].now).1 == Done
    ensures Dead(After(c, events[..m]), deviceId) && NoNewWork(After(c, events[..k]), After(c, events[..m]), deviceId)
    decreases m
  {
    hide Legal, Owning, After, Step, Inv, NoNewWork, Dead, Locks;
    if m == k + 1 {
      LockedAtOnce(c, events, k, deviceId);
    } else {
      var earlier, last := After(c, events[..m - 1]), events[m - 1];
      AfterNext(c, events, m - 1);
      RevokedForever(c, events, k, m - 1, deviceId);
      StepKeepsDead(c, earlier, last.call, last.now, deviceId);
      NoNewWorkTransitive(After(c, events[..k]), earlier, After(c, events[..m]), deviceId);
    }
  }

  lemma DeclinesNothingNew(s: State, s': State, requests: set<Id>, transactions: set<Id>, deviceId: Id)
    requires s'.transactions == DeclineTransactions(s.transactions, transactions)
    requires s'.provisioning == DeclineRequests(s.provisioning, requests)
    ensures NoNewWork(s, s', deviceId)
  {
  }
}
