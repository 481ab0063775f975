/** Histories of challenges and transactions over runs of the airlock engine. */
module AirlockHistory {
  import opened Wrappers
  import opened Transitions
  import opened Challenges
  import opened Airlock
  import opened AirlockInvariant
  import opened AirlockRuns
  import opened AirlockTheorems

  /** The facts of a transaction are fixed; its state only moves to a lower rank. */
  predicate TransactionAdvances(before: Transaction, after: Transaction) {
    && after.transactionId == before.transactionId && after.tokenId == before.tokenId
    && after.merchantId == before.merchantId && after.amountMinor == before.amountMinor
    && after.currency == before.currency && after.strategy == before.strategy && after.challenge == before.challenge
    && (after == before || Rank(after.state) < Rank(before.state))
  }

  ghost predicate TransactionsAdvance(before: map<Id, Transaction>, after: map<Id, Transaction>) {
    forall t <- before :: t in after && TransactionAdvances(before[t], after[t])
  }

  /** How a call may move a transaction. */
  ghost predicate Moved(c: Crypto, s: State, e: Event, t: Id, before: Transaction, after: Transaction) {
    match e.call
    case ConfirmTransactionCall(id, approval) =>
      var d := before.challenge.deviceId;
      && id == t && before.state == TxConfirmationPending && after == before.(state := TxConfirmed)
      && d in s.devices && s.devices[d].status == Active && approval.keyId == s.devices[d].keyId
      && ConsumeStep(c, s.challenges, approval, s.devices[d].publicKey, e.now).1 == Done
    case ExpireAndReverse(id) =>
      && id == t && before.state == TxConfirmationPending && after == Release(before.(state := TxReversed))
      && CancelStep(s.challenges, before.challenge.challengeId, e.now).1 == Done
    case ReceiveClearing(id) =>
      && id == t && TransitionTransaction(before.state, TxClearingReceived).Some?
      && after == before.(state :=
           if before.state in {TxExpired, TxReversalRequested, TxReversed} then TxException else TxSettled)
    case _ =>
      && DeviceOf(e.call).Some?
      && before.state == TxConfirmationPending && after == Release(before.(state := TxDeclined))
  }

  /** What an event does to the transactions: it adds pending ones, or moves one or several. */
  ghost predicate MovesTransactions(c: Crypto, s: State, e: Event, s': State) {
    && (forall t <- s.transactions :: t in s'.transactions)
    && (forall t <- s'.transactions ::
          if t in s.transactions then
            s'.transactions[t] == s.transactions[t] || Moved(c, s, e, t, s.transactions[t], s'.transactions[t])
          else s'.transactions[t].state == TxConfirmationPending)
  }

  lemma InvalidateMoves(s: State, deviceId: Id, now: Time)
    ensures var i := Invalidate(s, deviceId, now).0;
            && Advances(s.challenges, i.challenges) && Stamped(s.challenges, i.challenges, now)
            && i.transactions.Keys == s.transactions.Keys
            && forall t <- s.transactions ::
                 i.transactions[t] == s.transactions[t]
                 || (s.transactions[t].state == TxConfirmationPending
                     && i.transactions[t] == Release(s.transactions[t].(state := TxDeclined)))
  {
    if !TooEarly(s, deviceId, now) {
      hide ChallengeOf, Reduced, ReconcilableRequests, DeclineRequests, TokensOf, DeclineTokens, TooEarly;
    }
  }

  lemma OneMoves(c: Crypto, s: State, e: Event, s': State, id: Id)
    requires id in s.transactions && id in s'.transactions
    requires s'.transactions == s.transactions[id := s'.transactions[id]]
    requires Moved(c, s, e, id, s.transactions[id], s'.transactions[id])
    ensures MovesTransactions(c, s, e, s')
  {
    hide Moved;
  }

  lemma NoneMoves(c: Crypto, s: State, e: Event, s': State)
    requires s'.transactions == s.transactions
    ensures MovesTransactions(c, s, e, s')
  {
    hide Moved;
  }

  lemma ConfirmMoves(c: Crypto, s: State, id: Id, approval: Approval, now: Time)
    ensures var s' := Confirm(c, s, id, approval, now).0;
            Advances(s.challenges, s'.challenges) && Stamped(s.challenges, s'.challenges, now)
            && MovesTransactions(c, s, Event(ConfirmTransactionCall(id, approval), now), s')
  {
    hide Advances, Stamped, ConsumeStep, MovesTransactions, CancelStep;
    var e, s' := Event(ConfirmTransactionCall(id, approval), now), Confirm(c, s, id, approval, now).0;
    AdvancesReflexive(s.challenges);
    if id in s.transactions && s.transactions[id].challenge.deviceId in s.devices {
      ConsumeMoves(c, s.challenges, approval, s.devices[s.transactions[id].challenge.deviceId].publicKey, now);
    }
    if s'.transactions == s.transactions {
      NoneMoves(c, s, e, s');
    } else {
      OneMoves(c, s, e, s', id);
    }
  }

  lemma ExpireMoves(c: Crypto, s: State, id: Id, now: Time)
    ensures var s' := Expire(s, id, now).0;
            Advances(s.challenges, s'.challenges) && Stamped(s.challenges, s'.challenges, now)
            && MovesTransactions(c, s, Event(ExpireAndReverse(id), now), s')
  {
    hide Advances, Stamped, CancelStep, ReleaseFrom, MovesTransactions, ConsumeStep;
    var e, s' := Event(ExpireAndReverse(id), now), Expire(s, id, now).0;
    AdvancesReflexive(s.challenges);
    if id in s.transactions {
      CancelMoves(s.challenges, s.transactions[id].challenge.challengeId, now);
    }
    if s'.transactions == s.transactions {
      NoneMoves(c, s, e, s');
    } else {
      OneMoves(c, s, e, s', id);
    }
  }

  lemma ClearMoves(c: Crypto, s: State, id: Id, now: Time)
    ensures var s' := Clear(s, id, now).0;
            s'.challenges == s.challenges && MovesTransactions(c, s, Event(ReceiveClearing(id), now), s')
  {
    hide MovesTransactions, ConsumeStep, CancelStep;
    var e, s' := Event(ReceiveClearing(id), now), Clear(s, id, now).0;
    if s'.transactions == s.transactions {
      NoneMoves(c, s, e, s');
    } else {
      OneMoves(c, s, e, s', id);
    }
  }

  lemma ApproveMoves(c: Crypto, s: State, id: Id, approval: Approval, activation: Activation, now: Time)
    ensures var s' := Approve(c, s, id, approval, activation, now).0;
            Advances(s.challenges, s'.challenges) && Stamped(s.challenges, s'.challenges, now)
            && s'.transactions == s.transactions
  {
    hide Advances, Stamped, ConsumeStep, Activated, TransitionProvisioning;
    AdvancesReflexive(s.challenges);
    if id in s.provisioning && s.provisioning[id].deviceId in s.devices {
      ConsumeMoves(c, s.challenges, approval, s.devices[s.provisioning[id].deviceId].publicKey, now);
    }
  }

  lemma ProvisionMoves(s: State, subjectId: Id, accountId: Id, tokenId: Id, d: Id, cap: int, r: Id, cid: Id, now: Time)
    requires cid !in s.challenges
    ensures var s' := Provision(s, subjectId, accountId, tokenId, d, cap, r, cid, now).0;
            Advances(s.challenges, s'.challenges) && Stamped(s.challenges, s'.challenges, now)
            && s'.transactions == s.transactions
  {
  }

  lemma AuthorizeMoves(
    c: Crypto, s: State, t: Id, tokenId: Id, merchantId: Id, amount: int, strategy: Strategy, d: Id, cid: Id, now: Time)
    requires cid !in s.challenges
    ensures var s' := AuthorizeStep(s, t, tokenId, merchantId, amount, strategy, d, cid, now).0;
            && Advances(s.challenges, s'.challenges) && Stamped(s.challenges, s'.challenges, now)
            && MovesTransactions(c, s, Event(Authorize(t, tokenId, merchantId, amount, strategy, d, cid), now), s')
  {
  }

  lemma DeviceCallMoves(c: Crypto, s: State, e: Event)
    requires DeviceOf(e.call).Some?
    ensures var s' := Step(c, s, e.call, e.now).0;
            Advances(s.challenges, s'.challenges) && Stamped(s.challenges, s'.challenges, e.now)
            && MovesTransactions(c, s, e, s')
  {
    DeviceCallIsInvalidation(c, s, e.call, e.now);
    InvalidateMoves(s, DeviceOf(e.call).value, e.now);
    AdvancesReflexive(s.challenges);
    hide Step, Invalidate, Advances, Stamped;
  }

  lemma StepMoves(c: Crypto, s: State, e: Event)
    requires FreshIds(s, e.call)
    ensures var s' := Step(c, s, e.call, e.now).0;
            Advances(s.challenges, s'.challenges) && Stamped(s.challenges, s'.challenges, e.now)
            && MovesTransactions(c, s, e, s')
  {
    hide Advances, Stamped, MovesTransactions, Enroll, Revoke, MarkCompromised, Rotate, Confirm, Expire, Clear, Approve, Provision,
         AuthorizeStep;
    var now, s' := e.now, Step(c, s, e.call, e.now).0;
    AdvancesReflexive(s.challenges);
    match e.call
    case EnrollTrustedDevice(subjectId, keyId, publicKey, d) =>
      EnrollFrame(c, s, subjectId, keyId, publicKey, d, now);
      NoneMoves(c, s, e, s');
    case RevokeTrustedDevice(_) => DeviceCallMoves(c, s, e);
    case MarkTrustedDeviceCompromised(_) => DeviceCallMoves(c, s, e);
    case RotateTrustedDeviceKey(_, _, _) => DeviceCallMoves(c, s, e);
    case RequestProvisioning(subjectId, accountId, tokenId, d, capMinor, requestId, challengeId) =>
      ProvisionMoves(s, subjectId, accountId, tokenId, d, capMinor, requestId, challengeId, now);
      NoneMoves(c, s, e, s');
    case ApproveProvisioning(id, approval, activation) =>
      ApproveMoves(c, s, id, approval, activation, now);
      NoneMoves(c, s, e, s');
    case Authorize(t, tokenId, merchantId, amountMinor, strategy, d, challengeId) =>
      AuthorizeMoves(c, s, t, tokenId, merchantId, amountMinor, strategy, d, challengeId, now);
    case ConfirmTransactionCall(id, approval) => ConfirmMoves(c, s, id, approval, now);
    case ExpireAndReverse(id) => ExpireMoves(c, s, id, now);
    case ReceiveClearing(id) => ClearMoves(c, s, id, now);
  }

  lemma EnrollFrame(c: Crypto, s: State, subjectId: Id, keyId: Id, publicKey: string, d: Id, now: Time)
    ensures var s' := Enroll(c, s, subjectId, keyId, publicKey, d, now).0;
            s'.challenges == s.challenges && s'.transactions == s.transactions
  {
    hide KeyIdTaken, PublicKeyTaken;
  }

  lemma MovedAdvances(c: Crypto, s: State, e: Event, t: Id, before: Transaction, after: Transaction)
    requires Moved(c, s, e, t, before, after)
    ensures TransactionAdvances(before, after)
  {
    hide ConsumeStep, CancelStep;
  }

  /** In every call each challenge leaves `created` at most once, and each transaction keeps its rank
      or lowers it. */
  lemma StepAdvances(c: Crypto, s: State, e: Event)
    requires FreshIds(s, e.call)
    ensures var s' := Step(c, s, e.call, e.now).0;
            Advances(s.challenges, s'.challenges) && TransactionsAdvance(s.transactions, s'.transactions)
  {
    StepMoves(c, s, e);
    hide Step, Moved, Advances;
    var s' := Step(c, s, e.call, e.now).0;
    forall t | t in s.transactions ensures TransactionAdvances(s.transactions[t], s'.transactions[t]) {
      if s'.transactions[t] != s.transactions[t] {
        MovedAdvances(c, s, e, t, s.transactions[t], s'.transactions[t]);
      }
    }
  }

  lemma AdvancesTransitive(a: Records, b: Records, d: Records)
    requires Advances(a, b) && Advances(b, d)
    ensures Advances(a, d)
  {
    forall id | id in a ensures id in d && RecordAdvances(a[id], d[id]) {
      assert id in b && RecordAdvances(a[id], b[id]) && RecordAdvances(b[id], d[id]);
    }
  }

  lemma TransactionsAdvanceTransitive(a: map<Id, Transaction>, b: map<Id, Transaction>, d: map<Id, Transaction>)
    requires TransactionsAdvance(a, b) && TransactionsAdvance(b, d)
    ensures TransactionsAdvance(a, d)
  {
    forall id | id in a ensures id in d && TransactionAdvances(a[id], d[id]) {
      assert id in b && TransactionAdvances(a[id], b[id]) && TransactionAdvances(b[id], d[id]);
    }
  }

  /** Over any run: a challenge once terminal never changes again, and no transaction returns to a
      state it has left. */
  lemma {:induction false} RunAdvances(c: Crypto, events: seq<Event>, n: nat)
    requires Legal(c, events) && n <= |events|
    ensures Advances(After(c, events[..n]).challenges, After(c, events).challenges)
    ensures TransactionsAdvance(After(c, events[..n]).transactions, After(c, events).transactions)
    decreases |events|
  {
    hide Step, Advances, TransactionsAdvance, After, FreshIds;
    if n == |events| {
      assert events[..n] == events;
      AdvancesReflexive(After(c, events).challenges);
      TransactionsReflexive(After(c, events).transactions);
    } else {
      var m := |events| - 1;
      LegalPrefix(c, events, m);
      RunAdvances(c, events[..m], n);
      assert events[..m][..n] == events[..n];
      var s, mid := After(c, events[..n]), After(c, events[..m]);
      StepAdvances(c, mid, events[m]);
      AfterStep(c, events);
      AdvancesTransitive(s.challenges, mid.challenges, After(c, events).challenges);
      TransactionsAdvanceTransitive(s.transactions, mid.transactions, After(c, events).transactions);
    }
  }

  lemma AfterStep(c: Crypto, events: seq<Event>)
    requires events != []
    ensures var m := |events| - 1; After(c, events) == Step(c, After(c, events[..m]), events[m].call, events[m].now).0
  {
    hide Step;
  }

  lemma TransactionsReflexive(a: map<Id, Transaction>)
    ensures TransactionsAdvance(a, a)
  {
  }

  // ---------- where confirmations and reversals come from ----------

  /** The event is a confirmation of transaction `t` by the exact binding `b`, before its expiry, with
      a signature that verifies under the key of the active device it names. */
  ghost predicate ConfirmsExactly(c: Crypto, s: State, e: Event, t: Id, b: Binding) {
    && e.call.ConfirmTransactionCall? && e.call.transactionId == t
    && e.call.approval.binding == b && e.now < b.expiresAt
    && b.deviceId in s.devices && s.devices[b.deviceId].status == Active
    && e.call.approval.keyId == s.devices[b.deviceId].keyId
    && c.verify(e.call.approval, s.devices[b.deviceId].publicKey)
  }

  /** The event is a timeout reversal of transaction `t` that cancelled its challenge. */
  ghost predicate ReversesByTimeout(s: State, e: Event, t: Id, b: Binding) {
    && e.call == ExpireAndReverse(t) && b.challengeId in s.challenges
    && s.challenges[b.challengeId] == Challenge(b, Created, None) && b.issuedAt <= e.now
  }

  predicate StateIn(s: State, t: Id, states: set<TransactionState>) {
    t in s.transactions && s.transactions[t].state in states
  }

  lemma MovedToConfirmed(c: Crypto, s: State, e: Event, t: Id, before: Transaction, after: Transaction)
    requires Moved(c, s, e, t, before, after) && after.state in {TxConfirmed, TxSettled}
    requires before.state in {TxConfirmationPending, TxDeclined, TxReversed, TxException}
    ensures e.call.ConfirmTransactionCall? && e.call.transactionId == t
    ensures var d := before.challenge.deviceId;
            && d in s.devices && s.devices[d].status == Active && e.call.approval.keyId == s.devices[d].keyId
            && ConsumeStep(c, s.challenges, e.call.approval, s.devices[d].publicKey, e.now).1 == Done
  {
    hide ConsumeStep, CancelStep;
  }

  lemma StepConfirms(c: Crypto, s: State, e: Event, t: Id)
    requires Inv(c, s) && FreshIds(s, e.call) && OwnApproval(s, e.call)
    requires StateIn(Step(c, s, e.call, e.now).0, t, {TxConfirmed, TxSettled}) && !StateIn(s, t, {TxConfirmed, TxSettled})
    ensures t in s.transactions && ConfirmsExactly(c, s, e, t, s.transactions[t].challenge)
  {
    hide Step, RequestsOk, TransactionsOk, LedgerOk, DevicesOk, RecordsOk, TokensOk, Owned, Moved, ConsumeStep, FreshIds;
    var s' := Step(c, s, e.call, e.now).0;
    StepMoves(c, s, e);
    TransactionAt(s, t);
    MovedToConfirmed(c, s, e, t, s.transactions[t], s'.transactions[t]);
    ConsumeAdvances(c, s.challenges, e.call.approval, s.devices[s.transactions[t].challenge.deviceId].publicKey, e.now);
  }

  lemma MovedToReversed(c: Crypto, s: State, e: Event, t: Id, before: Transaction, after: Transaction)
    requires Moved(c, s, e, t, before, after) && after.state in {TxReversed, TxException}
    requires before.state in {TxConfirmationPending, TxConfirmed, TxDeclined, TxSettled}
    ensures e.call == ExpireAndReverse(t)
    ensures CancelStep(s.challenges, before.challenge.challengeId, e.now).1 == Done
  {
    hide ConsumeStep, CancelStep;
  }

  lemma StepReverses(c: Crypto, s: State, e: Event, t: Id)
    requires Inv(c, s) && FreshIds(s, e.call)
    requires StateIn(Step(c, s, e.call, e.now).0, t, {TxReversed, TxException}) && !StateIn(s, t, {TxReversed, TxException})
    ensures t in s.transactions && ReversesByTimeout(s, e, t, s.transactions[t].challenge)
  {
    hide Step, RequestsOk, TransactionsOk, LedgerOk, DevicesOk, RecordsOk, TokensOk, Owned, Moved, FreshIds;
    var s' := Step(c, s, e.call, e.now).0;
    StepMoves(c, s, e);
    TransactionAt(s, t);
    MovedToReversed(c, s, e, t, s.transactions[t], s'.transactions[t]);
    RecordAt(s.challenges, s.transactions[t].challenge.challengeId);
  }

  /** On every run with own approvals, a transaction that is confirmed or settled was confirmed by a
      call that presented exactly its binding, before expiry, properly signed. */
  lemma {:induction false} SettledWasConsumed(c: Crypto, events: seq<Event>, t: Id) returns (k: nat)
    requires Legal(c, events) && Owning(c, events)
    requires StateIn(After(c, events), t, {TxConfirmed, TxSettled})
    ensures k < |events|
    ensures ConfirmsExactly(c, After(c, events[..k]), events[k], t, After(c, events).transactions[t].challenge)
    decreases |events|
  {
    hide Step, Advances, ConfirmsExactly, Inv;
    var m := |events| - 1;
    LegalPrefix(c, events, m);
    var s := After(c, events[..m]);
    StepAdvances(c, s, events[m]);
    if StateIn(s, t, {TxConfirmed, TxSettled}) {
      k := SettledWasConsumed(c, events[..m], t);
      assert events[..m][..k] == events[..k];
    } else {
      ReachableInv(c, events[..m]);
      StepConfirms(c, s, events[m], t);
      k := m;
    }
  }

  /** On every run, foreign approvals included, a transaction that is reversed or ended in a clearing
      exception was reversed by a timeout that cancelled its own challenge. */
  lemma {:induction false} ExceptionWasReversed(c: Crypto, events: seq<Event>, t: Id) returns (k: nat)
    requires Legal(c, events)
    requires StateIn(After(c, events), t, {TxReversed, TxException})
    ensures k < |events|
    ensures ReversesByTimeout(After(c, events[..k]), events[k], t, After(c, events).transactions[t].challenge)
    decreases |events|
  {
    hide Step, Advances, ReversesByTimeout, Inv;
    var m := |events| - 1;
    LegalPrefix(c, events, m);
    var s := After(c, events[..m]);
    StepAdvances(c, s, events[m]);
    if StateIn(s, t, {TxReversed, TxException}) {
      k := ExceptionWasReversed(c, events[..m], t);
      assert events[..m][..k] == events[..k];
    } else {
      ReachableInv(c, events[..m]);
      StepReverses(c, s, events[m], t);
      k := m;
    }
  }

  /** What the challenge of a finished transaction says: settled means confirmed before expiry with
      exactly the stored binding, exception means cancelled. */
  lemma FinishedMeansConsumed(c: Crypto, s: State, t: Id)
    requires Inv(c, s) && Lifecycle(s) && StateIn(s, t, {TxSettled, TxException})
    ensures var b := s.transactions[t].challenge;
            && b.challengeId in s.challenges && s.challenges[b.challengeId].consumedAt.Some?
            && var at := s.challenges[b.challengeId].consumedAt.value;
               if s.transactions[t].state == TxSettled then
                 s.challenges[b.challengeId] == Challenge(b, Confirmed, Some(at)) && at < b.expiresAt
               else s.challenges[b.challengeId] == Challenge(b, Cancelled, Some(at)) && at >= b.issuedAt
  {
    hide RequestsOk, TransactionsOk, LedgerOk, DevicesOk, RecordsOk, TokensOk, Owned, Lifecycle;
    TransactionAt(s, t);
    LifecycleOfTransaction(s, t);
    RecordAt(s.challenges, s.transactions[t].challenge.challengeId);
  }

  /** A transaction that has settled never shows an exception later in the run, nor the reverse. */
  lemma SettledXorException(c: Crypto, events: seq<Event>, n: nat, t: Id)
    requires Legal(c, events) && n <= |events|
    ensures var s, s' := After(c, events[..n]), After(c, events);
            && (StateIn(s, t, {TxSettled}) ==> StateIn(s', t, {TxSettled}))
            && (StateIn(s, t, {TxException}) ==> StateIn(s', t, {TxException}))
  {
    hide After, Step, Advances, FreshIds;
    RunAdvances(c, events, n);
  }

  lemma RecordAt(records: Records, id: Id)
    requires RecordsOk(records) && id in records
    ensures RecordOk(id, records[id])
  {
  }

  // ---------- the audit ----------

  /** The one entry a successful call records: its kind and the aggregate it is about. */
  function EntryFor(call: Call, now: Time): AuditEntry {
    match call
    case EnrollTrustedDevice(_, _, _, d) => AuditEntry(DeviceEnrolled, d, now)
    case RevokeTrustedDevice(d) => AuditEntry(DeviceRevokedEvent, d, now)
    case MarkTrustedDeviceCompromised(d) => AuditEntry(DeviceCompromised, d, now)
    case RotateTrustedDeviceKey(d, _, _) => AuditEntry(DeviceKeyRotated, d, now)
    case RequestProvisioning(_, _, _, _, _, requestId, _) => AuditEntry(ProvisioningChallengeCreated, requestId, now)
    case ApproveProvisioning(requestId, _, _) => AuditEntry(ProvisioningApproved, requestId, now)
    case Authorize(t, _, _, _, _, _, _) => AuditEntry(TransactionPending, t, now)
    case ConfirmTransactionCall(t, _) => AuditEntry(TransactionConfirmedEvent, t, now)
    case ExpireAndReverse(t) => AuditEntry(TransactionReversed, t, now)
    case ReceiveClearing(t) => AuditEntry(ClearingReceived, t, now)
  }

  predicate Records(before: State, result: (State, Outcome), entry: AuditEntry) {
    result.0.audit == before.audit + (if result.1 == Done then [entry] else [])
  }

  lemma DeviceCallRecords(c: Crypto, s: State, call: Call, now: Time)
    requires DeviceOf(call).Some?
    ensures Records(s, Step(c, s, call, now), EntryFor(call, now))
  {
    hide Invalidate, KeyIdTaken, PublicKeyTaken;
    InvalidateFrame(s, DeviceOf(call).value, now);
  }

  lemma ApprovalRecords(c: Crypto, s: State, id: Id, approval: Approval, activation: Activation, now: Time)
    ensures Records(s, Approve(c, s, id, approval, activation, now), AuditEntry(ProvisioningApproved, id, now))
    ensures Records(s, Confirm(c, s, id, approval, now), AuditEntry(TransactionConfirmedEvent, id, now))
  {
    hide ConsumeStep, Activated;
  }

  lemma AuthorizationRecords(
    s: State, t: Id, tokenId: Id, merchantId: Id, amount: int, strategy: Strategy, d: Id, cid: Id, now: Time)
    ensures Records(s, AuthorizeStep(s, t, tokenId, merchantId, amount, strategy, d, cid, now), AuditEntry(TransactionPending, t, now))
  {
  }

  lemma ClosingRecords(s: State, t: Id, now: Time)
    ensures Records(s, Expire(s, t, now), AuditEntry(TransactionReversed, t, now))
    ensures Records(s, Clear(s, t, now), AuditEntry(ClearingReceived, t, now))
  {
    hide CancelStep, ReleaseFrom;
  }

  /** Every call that succeeds records exactly one entry, about its own aggregate, and a call that
      throws records none. */
  lemma SuccessIsRecordedOnce(c: Crypto, s: State, call: Call, now: Time)
    ensures Records(s, Step(c, s, call, now), EntryFor(call, now))
  {
    if DeviceOf(call).Some? {
      DeviceCallRecords(c, s, call, now);
    } else {
      hide Approve, Confirm, AuthorizeStep, Expire, Clear, KeyIdTaken, PublicKeyTaken;
      match call
      case ApproveProvisioning(id, approval, activation) => ApprovalRecords(c, s, id, approval, activation, now);
      case ConfirmTransactionCall(id, approval) => ApprovalRecords(c, s, id, approval, Full, now);
      case Authorize(t, tokenId, merchantId, amount, strategy, d, cid) =>
        AuthorizationRecords(s, t, tokenId, merchantId, amount, strategy, d, cid, now);
      case ExpireAndReverse(t) => ClosingRecords(s, t, now);
      case ReceiveClearing(t) => ClosingRecords(s, t, now);
      case _ =>
    }
  }

  /** The entries of the successful calls of a run, in order. */
  ghost function Successes(c: Crypto, events: seq<Event>): seq<AuditEntry>
    decreases |events|
  {
    if events == [] then []
    else
      var before, last := After(c, events[..|events| - 1]), events[|events| - 1];
      Successes(c, events[..|events| - 1])
      + (if Step(c, before, last.call, last.now).1 == Done then [EntryFor(last.call, last.now)] else [])
  }

  /** Over any run the audit lists exactly the successful calls, in order. */
  lemma {:induction false} AuditListsSuccesses(c: Crypto, events: seq<Event>)
    ensures After(c, events).audit == Successes(c, events)
    decreases |events|
  {
    hide Step, EntryFor;
    if events != [] {
      var last := events[|events| - 1];
      AuditListsSuccesses(c, events[..|events| - 1]);
      SuccessIsRecordedOnce(c, After(c, events[..|events| - 1]), last.call, last.now);
    }
  }
}
