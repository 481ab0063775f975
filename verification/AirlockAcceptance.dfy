/** Which snapshots `restore` accepts, whoever wrote them: the conditions on the engine it yields, free of any
    order of the listed records. */
module AirlockAcceptance {
  import opened Wrappers
  import opened Transitions
  import opened Challenges
  import opened Listings
  import opened Airlock
  import opened AirlockInvariant
  import opened AirlockRestore

  const MAX_AMOUNT := 9_007_199_254_740_991

  predicate BindingAcceptable(b: Binding) {
    && b.issuedAt < b.expiresAt
    && match b.purpose
       case ProvisionPaymentToken => b.payment == None
       case ConfirmTransaction => b.payment.Some? && 1 <= b.payment.value.amountMinor <= MAX_AMOUNT
  }

  /** A consumption time comes not before issuance; a created challenge has none, a confirmed or cancelled one
      has, and an expired one may. */
  predicate ChallengeAcceptable(r: Challenge) {
    && BindingAcceptable(r.binding)
    && match r.status
       case Created => r.consumedAt == None
       case Expired => r.consumedAt.Some? ==> r.binding.issuedAt <= r.consumedAt.value
       case Confirmed => r.consumedAt.Some? && r.binding.issuedAt <= r.consumedAt.value
       case Cancelled => r.consumedAt.Some? && r.binding.issuedAt <= r.consumedAt.value
  }

  /** Only an actively capped token needs caps. */
  predicate TokenAcceptable(t: Token) {
    t.state != TokenActiveCapped
    || match t.caps
       case Some(Caps(perTransaction, daily)) => 1 <= perTransaction <= MAX_AMOUNT && 1 <= daily <= MAX_AMOUNT
       case None => false
  }

  /** The states a request can be in when its challenge has this status. */
  function RequestStates(status: ChallengeStatus): set<ProvisioningState> {
    match status
    case Created => {ProvRequested, ProvRiskScored, ProvTrustedDeviceChallenge}
    case Confirmed => {ProvApproved, ProvTokenActiveCapped, ProvTokenActiveFull}
    case Cancelled => {ProvDeclined}
    case Expired => {ProvDeclined, ProvExpired}
  }

  function TransactionStates(status: ChallengeStatus): set<TransactionState> {
    match status
    case Created => {TxReceived, TxConfirmationPending}
    case Confirmed => {TxConfirmed, TxReversalRequested, TxReversed, TxClearingReceived, TxSettled, TxException}
    case _ => {TxDeclined, TxExpired, TxReversalRequested, TxReversed, TxClearingReceived, TxException}
  }

  /** The binding is that of a stored challenge and names this token's owner and a device of the same subject. */
  predicate BindingFits(s: State, b: Binding, purpose: Purpose, tokenId: Id) {
    && b.purpose == purpose && b.tokenId == tokenId && tokenId in s.tokens && b.deviceId in s.devices
    && b.subjectId == s.tokens[tokenId].subjectId && b.accountId == s.tokens[tokenId].accountId
    && s.devices[b.deviceId].subjectId == s.tokens[tokenId].subjectId
    && b.challengeId in s.challenges && s.challenges[b.challengeId].binding == b
  }

  predicate RequestAcceptable(s: State, r: Request) {
    && BindingFits(s, r.challenge, ProvisionPaymentToken, r.tokenId) && r.deviceId == r.challenge.deviceId
    && r.state in RequestStates(s.challenges[r.challenge.challengeId].status)
  }

  predicate TransactionAcceptable(s: State, t: Transaction) {
    && BindingFits(s, t.challenge, ConfirmTransaction, t.tokenId)
    && t.challenge.payment == Some(Payment(t.transactionId, t.merchantId, t.amountMinor, USD)) && t.currency == USD
    && t.state in TransactionStates(s.challenges[t.challenge.challengeId].status)
    && match t.capReservation
       case Some(Reservation(key, amount)) => key == SpendKey(t.tokenId, Day(t.challenge.issuedAt)) && 1 <= amount <= MAX_AMOUNT
       case None => true
  }

  /** The ledger holds, key for key, what the transactions reserve, and only on actively capped tokens. */
  ghost predicate LedgerAcceptable(s: State) {
    && (forall key :: SpendAt(s.dailySpend, key) == Held(s.transactions, key))
    && (forall key <- s.dailySpend ::
          1 <= s.dailySpend[key] <= MAX_AMOUNT && key.tokenId in s.tokens && s.tokens[key.tokenId].state == TokenActiveCapped)
  }

  ghost predicate Acceptable(c: Crypto, s: State) {
    && (forall id <- s.challenges :: ChallengeAcceptable(s.challenges[id]))
    && DevicesOk(c, s.devices)
    && (forall id <- s.tokens :: TokenAcceptable(s.tokens[id]))
    && (forall id <- s.provisioning :: RequestAcceptable(s, s.provisioning[id]))
    && (forall id <- s.transactions :: TransactionAcceptable(s, s.transactions[id]))
    && LedgerAcceptable(s)
  }

  // ---------- record by record ----------

  lemma ChallengeIff(r: Challenge)
    ensures RestorableChallenge(r) <==> ChallengeAcceptable(r)
  {
  }

  lemma TokenIff(t: Token)
    ensures RestorableToken(t) <==> TokenAcceptable(t)
  {
  }

  lemma RequestIff(s: State, r: Request)
    requires forall id <- s.challenges :: ChallengeAcceptable(s.challenges[id])
    ensures RestorableRequest(s, r) <==> RequestAcceptable(s, r)
  {
    if r.challenge.challengeId in s.challenges { ChallengeIff(s.challenges[r.challenge.challengeId]); }
  }

  lemma TransactionIff(s: State, t: Transaction)
    requires forall id <- s.challenges :: ChallengeAcceptable(s.challenges[id])
    ensures RestorableTransaction(s, t) && RestorableReservation(t) <==> TransactionAcceptable(s, t)
  {
    if t.challenge.challengeId in s.challenges { ChallengeIff(s.challenges[t.challenge.challengeId]); }
  }

  // ---------- the lists ----------

  /** Checked one after the other, each against the earlier ones, the devices pass exactly when no two share an id,
      a key id or a fingerprint and each is valid by itself. */
  lemma DevicesIff(c: Crypto, xs: seq<Device>)
    ensures RestorableDevices(c, xs, |xs|) <==> DistinctKeys(xs, DeviceKey) && DevicesOk(c, Index(xs, DeviceKey))
  {
    if RestorableDevices(c, xs, |xs|) {
      forall i, j | 0 <= i < j < |xs|
        ensures xs[i].deviceId != xs[j].deviceId && xs[i].keyId != xs[j].keyId && c.fingerprint(xs[i].publicKey) != c.fingerprint(xs[j].publicKey)
      {
        assert RestorableDevice(c, xs[..j], xs[j]) && xs[i] in xs[..j];
      }
      assert DistinctKeys(xs, DeviceKey);
      IndexMembers(xs, DeviceKey);
      DevicesFromList(c, xs, Index(xs, DeviceKey));
    } else if DistinctKeys(xs, DeviceKey) && DevicesOk(c, Index(xs, DeviceKey)) {
      IndexMembers(xs, DeviceKey);
      var s := EmptyState.(devices := Index(xs, DeviceKey));
      DevicesRestorable(c, s, EngineSnapshot([], xs, [], [], [], [], []));
      assert false;
    }
  }

  lemma DevicesFromList(c: Crypto, xs: seq<Device>, m: map<Id, Device>)
    requires Lists(xs, m, DeviceKey) && forall x <- xs :: c.validKeyId(x.keyId) && c.fingerprint(x.publicKey).Some?
    requires forall i, j :: 0 <= i < j < |xs| ==>
               xs[i].keyId != xs[j].keyId && c.fingerprint(xs[i].publicKey) != c.fingerprint(xs[j].publicKey)
    ensures DevicesOk(c, m)
  {
    forall a, b | a in m && b in m && a != b
      ensures m[a].keyId != m[b].keyId && c.fingerprint(m[a].publicKey) != c.fingerprint(m[b].publicKey)
    {
      var i :| 0 <= i < |xs| && xs[i] == m[a];
      var j :| 0 <= j < |xs| && xs[j] == m[b];
      assert DeviceKey(xs[i]) == a && DeviceKey(xs[j]) == b;
    }
  }

  /** The ledger entries and the reservations agree exactly as sums per key. */
  lemma LedgerIff(s: State, snap: EngineSnapshot)
    requires s == Restored(snap) && Lists(snap.transactions, s.transactions, TransactionKey)
    requires DistinctKeys(snap.dailySpend, SpendEntryKey) && forall t <- snap.transactions :: RestorableReservation(t)
    ensures LedgerAcceptable(s) <==>
              (forall e <- snap.dailySpend :: RestorableSpend(s.tokens, e)) && ReservedTotals(snap.transactions) == s.dailySpend
  {
    hide Held;
    var totals := ReservedTotals(snap.transactions);
    forall key ensures SpendAt(totals, key) == Held(s.transactions, key) { TotalsAreHeld(snap.transactions, key); }
    TotalsPositive(snap.transactions);
    EntriesIff(s, snap);
    if LedgerAcceptable(s) {
      forall key ensures (key in totals <==> key in s.dailySpend) && SpendAt(totals, key) == SpendAt(s.dailySpend, key) {
        assert SpendAt(s.dailySpend, key) == Held(s.transactions, key);
      }
    }
  }

  lemma EntriesIff(s: State, snap: EngineSnapshot)
    requires s == Restored(snap) && DistinctKeys(snap.dailySpend, SpendEntryKey)
    ensures (forall e <- snap.dailySpend :: RestorableSpend(s.tokens, e)) <==>
              forall key <- s.dailySpend ::
                1 <= s.dailySpend[key] <= MAX_AMOUNT && key.tokenId in s.tokens && s.tokens[key.tokenId].state == TokenActiveCapped
  {
    IndexMembers(snap.dailySpend, SpendEntryKey);
    if forall key <- s.dailySpend ::
        1 <= s.dailySpend[key] <= MAX_AMOUNT && key.tokenId in s.tokens && s.tokens[key.tokenId].state == TokenActiveCapped {
      forall e | e in snap.dailySpend ensures RestorableSpend(s.tokens, e) {
        assert SpendEntryKey(e) in s.dailySpend && s.dailySpend[e.key] == e.amountMinor;
      }
    } else {
      var key :| key in s.dailySpend
        && !(1 <= s.dailySpend[key] <= MAX_AMOUNT && key.tokenId in s.tokens && s.tokens[key.tokenId].state == TokenActiveCapped);
      assert !RestorableSpend(s.tokens, Index(snap.dailySpend, SpendEntryKey)[key]);
    }
  }

  /** A snapshot is accepted exactly when it lists the records of an acceptable engine, each once, and it restores
      to that engine. */
  lemma AcceptsIff(c: Crypto, snap: EngineSnapshot)
    ensures var s := Restored(snap); Restorable(c, snap) <==> SnapshotOf(s, snap) && Acceptable(c, s)
  {
    var s := Restored(snap);
    hide RestorableChallenge, RestorableToken, RestorableRequest, RestorableTransaction, RestorableReservation, RestorableDevices,
         RestorableSpend, ChallengeAcceptable, TokenAcceptable, RequestAcceptable, TransactionAcceptable, LedgerAcceptable, DevicesOk;
    IndexLists(snap.challenges, ChallengeKey);
    IndexLists(snap.devices, DeviceKey);
    IndexLists(snap.tokens, TokenKey);
    IndexLists(snap.provisioning, RequestKey);
    IndexLists(snap.transactions, TransactionKey);
    DevicesIff(c, snap.devices);
    if DistinctKeys(snap.challenges, ChallengeKey) && DistinctKeys(snap.devices, DeviceKey) && DistinctKeys(snap.tokens, TokenKey)
       && DistinctKeys(snap.provisioning, RequestKey) && DistinctKeys(snap.transactions, TransactionKey)
       && DistinctKeys(snap.dailySpend, SpendEntryKey) {
      ListedIff(c, snap);
    }
  }

  lemma ListedIff(c: Crypto, snap: EngineSnapshot)
    requires SnapshotOf(Restored(snap), snap)
    requires DistinctKeys(snap.challenges, ChallengeKey) && DistinctKeys(snap.devices, DeviceKey) && DistinctKeys(snap.tokens, TokenKey)
    requires DistinctKeys(snap.provisioning, RequestKey) && DistinctKeys(snap.transactions, TransactionKey)
    ensures var s := Restored(snap); Restorable(c, snap) <==> Acceptable(c, s)
  {
    var s := Restored(snap);
    hide RestorableChallenge, RestorableToken, RestorableRequest, RestorableTransaction, RestorableReservation, RestorableDevices,
         RestorableSpend, ChallengeAcceptable, TokenAcceptable, RequestAcceptable, TransactionAcceptable, LedgerAcceptable, DevicesOk, Lists;
    forall r ensures RestorableChallenge(r) <==> ChallengeAcceptable(r) { ChallengeIff(r); }
    forall t ensures RestorableToken(t) <==> TokenAcceptable(t) { TokenIff(t); }
    ListedAll(snap.challenges, s.challenges, ChallengeKey, ChallengeAcceptable);
    ListedAll(snap.tokens, s.tokens, TokenKey, TokenAcceptable);
    DevicesIff(c, snap.devices);
    if forall id <- s.challenges :: ChallengeAcceptable(s.challenges[id]) {
      forall r ensures RestorableRequest(s, r) <==> RequestAcceptable(s, r) { RequestIff(s, r); }
      forall t ensures RestorableTransaction(s, t) && RestorableReservation(t) <==> TransactionAcceptable(s, t) { TransactionIff(s, t); }
      ListedAll(snap.provisioning, s.provisioning, RequestKey, (r: Request) => RequestAcceptable(s, r));
      ListedAll(snap.transactions, s.transactions, TransactionKey, (t: Transaction) => TransactionAcceptable(s, t));
      if forall t <- snap.transactions :: RestorableReservation(t) { LedgerIff(s, snap); }
    }
  }

  // ---------- what restore does not check ----------

  /** Confirmed before it expired, or expired without being consumed. */
  predicate ChallengeInStep(r: Challenge) {
    && (r.status == Confirmed ==> r.consumedAt.Some? && r.consumedAt.value < r.binding.expiresAt)
    && (r.status == Expired ==> r.consumedAt == None)
  }

  predicate TokenInStep(t: Token) {
    && (t.caps.None? <==> t.state == TokenActiveFull)
    && (t.caps.Some? ==> 0 < t.caps.value.perTransactionMinor <= MAX_CAP_MINOR
                         && t.caps.value.dailyMinor == 2 * t.caps.value.perTransactionMinor)
  }

  /** The transaction is of a token that was activated, within its cap, and in a state an engine can be in; it
      holds a reservation of its amount exactly when its token is capped and it is pending, confirmed or settled. */
  predicate TransactionInStep(s: State, t: Transaction)
    requires t.tokenId in s.tokens
  {
    var token := s.tokens[t.tokenId];
    && token.state in {TokenActiveCapped, TokenActiveFull}
    && (token.state == TokenActiveCapped ==> token.caps.Some? && t.amountMinor <= token.caps.value.perTransactionMinor)
    && t.state in {TxConfirmationPending, TxConfirmed, TxDeclined, TxReversed, TxSettled, TxException}
    && (t.capReservation.Some? <==> token.state == TokenActiveCapped && t.state in {TxConfirmationPending, TxConfirmed, TxSettled})
    && (t.capReservation.Some? ==> t.capReservation.value.amountMinor == t.amountMinor)
  }

  /** What restore takes on trust. */
  ghost predicate InStep(s: State)
    requires forall id <- s.provisioning :: s.provisioning[id].tokenId in s.tokens
    requires forall id <- s.transactions :: s.transactions[id].tokenId in s.tokens
  {
    && (forall id <- s.challenges :: ChallengeInStep(s.challenges[id]))
    && (forall id <- s.tokens :: TokenInStep(s.tokens[id]))
    && (forall id <- s.provisioning :: TokenStateFor(s.provisioning[id].state) == Some(s.tokens[s.provisioning[id].tokenId].state))
    && (forall a, b | a in s.provisioning && b in s.provisioning && a != b :: s.provisioning[a].tokenId != s.provisioning[b].tokenId)
    && (forall id <- s.transactions :: TransactionInStep(s, s.transactions[id]))
    && (forall key <- s.dailySpend ::
          key.tokenId in s.tokens && s.tokens[key.tokenId].caps.Some? && s.dailySpend[key] <= s.tokens[key.tokenId].caps.value.dailyMinor)
    && Owned(s)
  }

  lemma AggregatesNameTokens(c: Crypto, s: State)
    requires Acceptable(c, s)
    ensures forall id <- s.provisioning :: s.provisioning[id].tokenId in s.tokens
    ensures forall id <- s.transactions :: s.transactions[id].tokenId in s.tokens
  {
    hide ChallengeAcceptable, TokenAcceptable, LedgerAcceptable, DevicesOk;
  }

  lemma RecordInStep(r: Challenge)
    requires ChallengeAcceptable(r)
    ensures RecordOk(r.binding.challengeId, r) <==> ChallengeInStep(r)
  {
  }

  lemma RecordsInStep(s: State)
    requires forall id <- s.challenges :: ChallengeAcceptable(s.challenges[id]) && s.challenges[id].binding.challengeId == id
    ensures RecordsOk(s.challenges) <==> forall id <- s.challenges :: ChallengeInStep(s.challenges[id])
  {
    forall id | id in s.challenges ensures RecordOk(id, s.challenges[id]) <==> ChallengeInStep(s.challenges[id]) {
      RecordInStep(s.challenges[id]);
    }
  }

  lemma TokensInStep(s: State)
    requires forall id <- s.tokens :: s.tokens[id].tokenId == id
    ensures TokensOk(s.tokens) <==> forall id <- s.tokens :: TokenInStep(s.tokens[id])
  {
  }

  lemma RequestInStep(s: State, id: Id)
    requires id in s.provisioning && s.provisioning[id].requestId == id && RequestAcceptable(s, s.provisioning[id])
    ensures var r := s.provisioning[id]; RequestOk(s, id, r) <==> TokenStateFor(r.state) == Some(s.tokens[r.tokenId].state)
  {
  }

  lemma TransactionsInStep(s: State, id: Id)
    requires id in s.transactions && s.transactions[id].transactionId == id && TransactionAcceptable(s, s.transactions[id])
    requires BindingAcceptable(s.transactions[id].challenge)
    ensures TransactionOk(s, id, s.transactions[id]) <==> TransactionInStep(s, s.transactions[id])
  {
  }

  /** The engine a snapshot restores to satisfies the relation that every call keeps exactly when, besides what
      restore checks, the snapshot has these properties. */
  lemma RestoredInvIff(c: Crypto, snap: EngineSnapshot)
    requires Restorable(c, snap)
    ensures var s := Restored(snap);
            && (forall id <- s.provisioning :: s.provisioning[id].tokenId in s.tokens)
            && (forall id <- s.transactions :: s.transactions[id].tokenId in s.tokens)
            && (Inv(c, s) <==> InStep(s))
  {
    hide Restored, Restorable, Held, ChallengeAcceptable, TokenAcceptable, RequestAcceptable, TransactionAcceptable, DevicesOk, RecordOk,
         TokenOk, RequestOk, TransactionOk, Owned, ChallengeInStep, TokenInStep, TransactionInStep, RecordsOk, TokensOk;
    var s := Restored(snap);
    AcceptsIff(c, snap);
    AggregatesNameTokens(c, s);
    RecordsInStep(s);
    TokensInStep(s);
    forall id | id in s.provisioning
      ensures var r := s.provisioning[id]; RequestOk(s, id, r) <==> TokenStateFor(r.state) == Some(s.tokens[r.tokenId].state)
    {
      RequestInStep(s, id);
    }
    forall id | id in s.transactions ensures TransactionOk(s, id, s.transactions[id]) <==> TransactionInStep(s, s.transactions[id]) {
      TransactionBinding(s, s.transactions[id]);
      TransactionsInStep(s, id);
    }
  }

  lemma TransactionBinding(s: State, t: Transaction)
    requires TransactionAcceptable(s, t) && forall id <- s.challenges :: ChallengeAcceptable(s.challenges[id])
    ensures BindingAcceptable(t.challenge)
  {
    assert ChallengeAcceptable(s.challenges[t.challenge.challengeId]);
  }

  /** A snapshot with a confirmed transaction of 500 under a token capped at 1. */
  function OverspentSnapshot(): EngineSnapshot {
    var b := Binding(ConfirmTransaction, "c", "s", "a", "t", "d", Some(Payment("x", "m", 500, USD)), 0, 1);
    EngineSnapshot(
      [Challenge(b, Confirmed, Some(0))], [Device("d", "s", "k", "p", Active)],
      [Token("t", "s", "a", TokenActiveCapped, Some(Caps(1, 2)))], [],
      [Transaction("x", "t", "m", 500, USD, TxConfirmed, PreAuthorizationStepUp, b, Some(Reservation(SpendKey("t", 0), 500)))],
      [SpendEntry(SpendKey("t", 0), 500)], [])
  }

  /** Restore accepts it: it compares reservations with the ledger and neither with the caps. */
  lemma OverspentIsAccepted(c: Crypto)
    requires c.validKeyId("k") && c.fingerprint("p").Some?
    ensures Restorable(c, OverspentSnapshot())
    ensures var s := Restored(OverspentSnapshot());
            "t" in s.tokens && s.tokens["t"].caps == Some(Caps(1, 2)) && SpendAt(s.dailySpend, SpendKey("t", 0)) == 500
  {
    var snap := OverspentSnapshot();
    assert snap.transactions[..0] == [] && snap.dailySpend[..0] == [] && snap.tokens[..0] == [];
    assert snap.challenges[..0] == [] && snap.devices[..0] == [];
    assert ReservedTotals(snap.transactions) == map[SpendKey("t", 0) := 500];
    assert Restored(snap).dailySpend == map[SpendKey("t", 0) := 500];
  }
}
