/** Invalidating the outstanding challenges of a device: the invariant, and the ledger. */
module AirlockInvalidation {
  import opened Wrappers
  import opened Transitions
  import opened Challenges
  import opened MapSums
  import opened Airlock
  import opened AirlockInvariant
  import opened AirlockCalls

  /** The aggregates may be reconciled at `now`: they are pending, and no created challenge of theirs
      was issued later. */
  ghost predicate Reconciling(s: State, requests: set<Id>, transactions: set<Id>, now: Time) {
    && (forall r <- requests :: r in s.provisioning && s.provisioning[r].state == ProvTrustedDeviceChallenge)
    && (forall t <- transactions :: t in s.transactions && s.transactions[t].state == TxConfirmationPending)
    && (forall id <- ChallengeOf(s, requests, transactions) ::
          id in s.challenges && s.challenges[id].status == Created ==> s.challenges[id].binding.issuedAt <= now)
  }

  lemma CancelledInAdvances(records: Records, ids: set<Id>, now: Time)
    requires RecordsOk(records)
    requires forall id <- ids :: id in records && records[id].status == Created ==> records[id].binding.issuedAt <= now
    ensures RecordsOk(CancelledIn(records, ids, now))
    ensures Advances(records, CancelledIn(records, ids, now))
    ensures CancelledIn(records, ids, now).Keys == records.Keys
  {
  }

  lemma ReconciledTokensOk(s: State, requests: set<Id>, transactions: set<Id>, now: Time)
    requires TokensOk(s.tokens)
    ensures TokensOk(Reconciled(s, requests, transactions, now).tokens)
  {
    var s' := Reconciled(s, requests, transactions, now);
    forall k | k in s'.tokens ensures TokenOk(k, s'.tokens[k]) {
      assert TokenOk(k, s.tokens[k]);
    }
  }

  lemma ReconciledGrows(s: State, requests: set<Id>, transactions: set<Id>, now: Time)
    requires RecordsOk(s.challenges) && Reconciling(s, requests, transactions, now)
    ensures Grows(s, Reconciled(s, requests, transactions, now))
    ensures RecordsOk(Reconciled(s, requests, transactions, now).challenges)
  {
    CancelledInAdvances(s.challenges, ChallengeOf(s, requests, transactions), now);
    hide Advances, RecordsOk;
  }

  lemma ReconciledRequestOk(s: State, s': State, requests: set<Id>, id: Id)
    requires RequestsOk(s) && Grows(s, s') && id in s.provisioning
    requires s'.provisioning == DeclineRequests(s.provisioning, requests)
    requires s'.tokens == DeclineTokens(s.tokens, TokensOf(s, requests))
    requires id in requests ==> s.provisioning[id].state == ProvTrustedDeviceChallenge
    requires requests <= s.provisioning.Keys
    ensures RequestOk(s', id, s'.provisioning[id])
  {
    var r := s.provisioning[id];
    if id in requests {
      assert r.tokenId in TokensOf(s, requests);
    } else {
      assert r.tokenId !in TokensOf(s, requests);
      RequestAt(s, id);
      hide RequestsOk, Grows, RequestOk;
      RequestFrame(s, s', id, r);
    }
  }

  lemma ReconciledRequestsOk(s: State, requests: set<Id>, transactions: set<Id>, now: Time)
    requires RequestsOk(s) && Reconciling(s, requests, transactions, now)
    requires Grows(s, Reconciled(s, requests, transactions, now))
    ensures RequestsOk(Reconciled(s, requests, transactions, now))
  {
    hide Grows, CancelledIn, Reduced, DeclineTransactions, RequestOk, TokensOf, ChallengeOf, DeclineTokens;
    var s' := Reconciled(s, requests, transactions, now);
    forall id | id in s'.provisioning ensures RequestOk(s', id, s'.provisioning[id]) {
      ReconciledRequestOk(s, s', requests, id);
    }
  }

  lemma ReconciledTransactionsOk(s: State, requests: set<Id>, transactions: set<Id>, now: Time)
    requires TransactionsOk(s) && Reconciling(s, requests, transactions, now)
    requires Grows(s, Reconciled(s, requests, transactions, now))
    ensures TransactionsOk(Reconciled(s, requests, transactions, now))
  {
    hide Grows, CancelledIn, Reduced, DeclineRequests, TokensOf, ChallengeOf, DeclineTokens, TransactionsOk;
    var s' := Reconciled(s, requests, transactions, now);
    forall id | id in s'.transactions ensures TransactionOk(s', id, s'.transactions[id]) {
      TransactionAt(s, id);
      TransactionFrame(s, s', id, s.transactions[id]);
    }
    TransactionsFromEach(s');
  }

  lemma TransactionsFromEach(s: State)
    requires forall id <- s.transactions :: TransactionOk(s, id, s.transactions[id])
    ensures TransactionsOk(s)
  {
  }

  /** Releasing a set of reservations takes their sum off the ledger. */
  lemma HeldAfterRelease(before: map<Id, Transaction>, after: map<Id, Transaction>, released: set<Id>, key: SpendKey)
    requires released <= before.Keys && after.Keys == before.Keys
    requires forall t <- before ::
               if t in released then after[t].capReservation.None? else after[t].capReservation == before[t].capReservation
    ensures Held(after, key) == Held(before, key) - Held(Restrict(before, released), key)
  {
    var w := Weight(key);
    SumSplit(before, released, w);
    SumSplit(after, released, w);
    SumCongruent(after - released, before - released, w);
    SumZero(Restrict(after, released), w);
  }

  lemma {:induction false} SumZero<K(!new), V>(m: map<K, V>, f: V -> int)
    requires forall k <- m :: f(m[k]) == 0
    ensures Sum(m, f) == 0
    decreases |m|
  {
    if m != map[] {
      var k :| k in m && Sum(m, f) == f(m[k]) + Sum(m - {k}, f);
      SumZero(m - {k}, f);
    }
  }

  lemma ReducedIsExact(s: State, released: set<Id>, key: SpendKey)
    requires TransactionsOk(s) && LedgerOk(s) && released <= s.transactions.Keys
    ensures SpendAt(Reduced(s.dailySpend, s.transactions, released), key)
         == Held(DeclineTransactions(s.transactions, released), key)
  {
    hide Held, Restrict, LedgerOk;
    HeldAfterRelease(s.transactions, DeclineTransactions(s.transactions, released), released, key);
    HeldIsNonNegative(s, released, key);
    HeldAtMostAll(s, released, key);
    LedgerAt(s, key);
    hide TransactionsOk, DeclineTransactions;
  }

  lemma LedgerAt(s: State, key: SpendKey)
    requires LedgerOk(s)
    ensures SpendAt(s.dailySpend, key) == Held(s.transactions, key)
  {
  }

  lemma HeldAtMostAll(s: State, released: set<Id>, key: SpendKey)
    requires TransactionsOk(s) && released <= s.transactions.Keys
    ensures Held(Restrict(s.transactions, released), key) <= Held(s.transactions, key)
  {
    HeldNonNegative(s, s.transactions - released, key);
    SumSplit(s.transactions, released, Weight(key));
    hide TransactionsOk, Weight;
  }

  lemma ReconciledLedgerOk(s: State, requests: set<Id>, transactions: set<Id>, now: Time)
    requires TransactionsOk(s) && LedgerOk(s) && transactions <= s.transactions.Keys
    ensures LedgerOk(Reconciled(s, requests, transactions, now))
  {
    hide DeclineTransactions, CancelledIn, TokensOf, ChallengeOf, DeclineRequests, TransactionsOk;
    var s' := Reconciled(s, requests, transactions, now);
    forall key ensures SpendAt(s'.dailySpend, key) == Held(s'.transactions, key) {
      ReducedIsExact(s, transactions, key);
    }
    forall key | key in s'.dailySpend ensures EntryOk(s'.tokens, key, s'.dailySpend[key]) {
      assert EntryOk(s.tokens, key, s.dailySpend[key]);
      HeldIsNonNegative(s, transactions, key);
    }
  }

  lemma HeldIsNonNegative(s: State, transactions: set<Id>, key: SpendKey)
    requires TransactionsOk(s)
    ensures Held(Restrict(s.transactions, transactions), key) >= 0
  {
    HeldNonNegative(s, Restrict(s.transactions, transactions), key);
  }

  lemma ReconciledKeepsInv(c: Crypto, s: State, requests: set<Id>, transactions: set<Id>, now: Time)
    requires Inv(c, s) && Reconciling(s, requests, transactions, now)
    ensures Inv(c, Reconciled(s, requests, transactions, now))
  {
    hide RequestsOk, TransactionsOk, LedgerOk, DevicesOk, RecordsOk, TokensOk, Grows, Owned, Reconciled;
    assert Reconciled(s, requests, transactions, now).devices == s.devices by {
      ReconciledDevices(s, requests, transactions, now);
    }
    ReconciledGrows(s, requests, transactions, now);
    ReconciledTokensOk(s, requests, transactions, now);
    ReconciledLedgerOk(s, requests, transactions, now);
    ReconciledRequestsOk(s, requests, transactions, now);
    ReconciledTransactionsOk(s, requests, transactions, now);
    ReconciledOwned(s, requests, transactions, now);
  }

  lemma ReconciledDevices(s: State, requests: set<Id>, transactions: set<Id>, now: Time)
    ensures Reconciled(s, requests, transactions, now).devices == s.devices
    ensures Reconciled(s, requests, transactions, now).audit == s.audit
  {
  }

  lemma ReconciledOwned(s: State, requests: set<Id>, transactions: set<Id>, now: Time)
    requires Owned(s)
    ensures Owned(Reconciled(s, requests, transactions, now))
  {
    hide Owned;
    OwnedFrame(s, Reconciled(s, requests, transactions, now));
  }

  lemma NotTooEarly(s: State, deviceId: Id, now: Time)
    requires !TooEarly(s, deviceId, now)
    ensures Reconciling(s, ReconcilableRequests(s, deviceId), ReconcilableTransactions(s, deviceId), now)
  {
    forall id | id in ChallengeOf(s, ReconcilableRequests(s, deviceId), ReconcilableTransactions(s, deviceId))
                && id in s.challenges && s.challenges[id].status == Created
      ensures s.challenges[id].binding.issuedAt <= now
    {
      assert id in ChallengeOf(s, PendingRequests(s, deviceId), PendingTransactions(s, deviceId));
    }
  }

  lemma InvalidateKeepsInv(c: Crypto, s: State, deviceId: Id, now: Time)
    requires Inv(c, s)
    ensures Inv(c, Invalidate(s, deviceId, now).0)
    ensures Invalidate(s, deviceId, now).0.devices == s.devices
    ensures Invalidate(s, deviceId, now).1.Threw? ==> Invalidate(s, deviceId, now).0 == s
  {
    if !TooEarly(s, deviceId, now) {
      NotTooEarly(s, deviceId, now);
      hide Inv, Reconciling;
      ReconciledKeepsInv(c, s, ReconcilableRequests(s, deviceId), ReconcilableTransactions(s, deviceId), now);
    }
  }

  lemma RetireKeepsInv(c: Crypto, s: State, deviceId: Id, kind: AuditKind, now: Time)
    requires Inv(c, s) && deviceId in s.devices
    ensures Inv(c, Retire(s, deviceId, kind, now).0)
  {
    InvalidateKeepsInv(c, s, deviceId, now);
    hide Invalidate;
    var (i, outcome) := Invalidate(s, deviceId, now);
    if outcome == Done {
      ReplacedDeviceKeepsInv(c, i, deviceId, s.devices[deviceId].(status := Revoked), i.audit + [AuditEntry(kind, deviceId, now)]);
    }
  }

  lemma ReplacedDeviceKeepsInv(c: Crypto, s: State, id: Id, d: Device, audit: seq<AuditEntry>)
    requires Inv(c, s) && id in s.devices && d.deviceId == s.devices[id].deviceId && d.subjectId == s.devices[id].subjectId
    requires d.keyId == s.devices[id].keyId || (c.validKeyId(d.keyId) && !KeyIdTaken(s.devices, d.keyId, Some(id)))
    requires d.publicKey == s.devices[id].publicKey
          || (c.fingerprint(d.publicKey).Some? && !PublicKeyTaken(c, s.devices, d.publicKey, Some(id)))
    ensures Inv(c, s.(devices := s.devices[id := d], audit := audit))
  {
    assert DeviceOk(c, id, s.devices[id]);
    ReplaceDeviceKeepsOk(c, s.devices, id, d);
    hide RequestsOk, TransactionsOk, LedgerOk, DevicesOk, RecordsOk, TokensOk, Owned, KeyIdTaken, PublicKeyTaken;
    DevicesKeepInv(c, s, s.devices[id := d], audit);
  }

  lemma RotateKeepsInv(c: Crypto, s: State, deviceId: Id, keyId: Id, publicKey: string, now: Time)
    requires Inv(c, s)
    ensures Inv(c, Rotate(c, s, deviceId, keyId, publicKey, now).0)
  {
    hide Inv, Invalidate, KeyIdTaken, PublicKeyTaken;
    var (s', outcome) := Rotate(c, s, deviceId, keyId, publicKey, now);
    if outcome == Done {
      InvalidateKeepsInv(c, s, deviceId, now);
      DeviceAt(c, s, deviceId);
      var i := Invalidate(s, deviceId, now).0;
      var d := s.devices[deviceId].(keyId := keyId, publicKey := publicKey);
      assert s' == i.(devices := i.devices[deviceId := d], audit := s'.audit);
      ReplacedDeviceKeepsInv(c, i, deviceId, d, s'.audit);
    }
  }

  lemma DeviceAt(c: Crypto, s: State, id: Id)
    requires Inv(c, s) && id in s.devices
    ensures DeviceOk(c, id, s.devices[id])
  {
  }

  /** Every call, throwing or not, with its own or a foreign approval, keeps the invariant. */
  lemma StepKeepsInv(c: Crypto, s: State, call: Call, now: Time)
    requires Inv(c, s) && FreshIds(s, call)
    ensures Inv(c, Step(c, s, call, now).0)
  {
    hide Inv, Enroll, Retire, Rotate, Provision, Approve, AuthorizeStep, Confirm, Expire, Clear;
    match call
    case EnrollTrustedDevice(subjectId, keyId, publicKey, deviceId) => EnrollKeepsInv(c, s, subjectId, keyId, publicKey, deviceId, now);
    case RevokeTrustedDevice(deviceId) => if deviceId in s.devices { RetireKeepsInv(c, s, deviceId, DeviceRevokedEvent, now); }
    case MarkTrustedDeviceCompromised(deviceId) => if deviceId in s.devices { RetireKeepsInv(c, s, deviceId, DeviceCompromised, now); }
    case RotateTrustedDeviceKey(deviceId, keyId, publicKey) => RotateKeepsInv(c, s, deviceId, keyId, publicKey, now);
    case RequestProvisioning(subjectId, accountId, tokenId, deviceId, capMinor, requestId, challengeId) =>
      ProvisionKeepsInv(c, s, subjectId, accountId, tokenId, deviceId, capMinor, requestId, challengeId, now);
    case ApproveProvisioning(requestId, approval, activation) => ApproveKeepsInv(c, s, requestId, approval, activation, now);
    case Authorize(transactionId, tokenId, merchantId, amountMinor, strategy, deviceId, challengeId) =>
      AuthorizeKeepsInv(c, s, transactionId, tokenId, merchantId, amountMinor, strategy, deviceId, challengeId, now);
    case ConfirmTransactionCall(transactionId, approval) => ConfirmKeepsInv(c, s, transactionId, approval, now);
    case ExpireAndReverse(transactionId) => ExpireKeepsInv(c, s, transactionId, now);
    case ReceiveClearing(transactionId) => ClearKeepsInv(c, s, transactionId, now);
  }

  lemma EmptyKeepsInv(c: Crypto)
    ensures Inv(c, EmptyState)
  {
  }
}
