/** Snapshots of the airlock engine, and exactly when `restore` accepts one. */
module AirlockRestore {
  import opened Common
  import opened Wrappers
  import opened Transitions
  import opened Challenges
  import opened Listings
  import opened Airlock
  import opened AirlockInvariant
  import opened AirlockCalls
  import opened AirlockRuns

  datatype SpendEntry = SpendEntry(key: SpendKey, amountMinor: int)

  /** The persisted arrays, in any order. */
  datatype EngineSnapshot = EngineSnapshot(
    challenges: seq<Challenge>, devices: seq<Device>, tokens: seq<Token>, provisioning: seq<Request>,
    transactions: seq<Transaction>, dailySpend: seq<SpendEntry>, audit: seq<AuditEntry>)

  function ChallengeKey(r: Challenge): Id { r.binding.challengeId }
  function DeviceKey(d: Device): Id { d.deviceId }
  function TokenKey(t: Token): Id { t.tokenId }
  function RequestKey(r: Request): Id { r.requestId }
  function TransactionKey(t: Transaction): Id { t.transactionId }
  function SpendEntryKey(e: SpendEntry): SpendKey { e.key }

  function Amounts(entries: seq<SpendEntry>): map<SpendKey, int> {
    var m := Index(entries, SpendEntryKey);
    map k | k in m :: m[k].amountMinor
  }

  ghost predicate SnapshotOf(s: State, snap: EngineSnapshot) {
    && Lists(snap.challenges, s.challenges, ChallengeKey)
    && Lists(snap.devices, s.devices, DeviceKey)
    && Lists(snap.tokens, s.tokens, TokenKey)
    && Lists(snap.provisioning, s.provisioning, RequestKey)
    && Lists(snap.transactions, s.transactions, TransactionKey)
    && DistinctKeys(snap.dailySpend, SpendEntryKey) && Amounts(snap.dailySpend) == s.dailySpend
    && snap.audit == s.audit
  }

  function Restored(snap: EngineSnapshot): State {
    State(Index(snap.challenges, ChallengeKey), Index(snap.devices, DeviceKey), Index(snap.tokens, TokenKey),
          Index(snap.provisioning, RequestKey), Index(snap.transactions, TransactionKey), Amounts(snap.dailySpend),
          snap.audit)
  }

  // ---------- the checks of restore ----------

  predicate RestorableChallenge(r: Challenge) {
    && ValidBinding(r.binding)
    && (r.status in {Confirmed, Cancelled} ==> r.consumedAt.Some?)
    && (r.consumedAt.Some? ==> r.consumedAt.value >= r.binding.issuedAt)
    && (r.status == Created ==> r.consumedAt.None?)
  }

  /** Each device is checked against those restored before it. */
  predicate RestorableDevice(c: Crypto, earlier: seq<Device>, d: Device) {
    && c.validKeyId(d.keyId) && c.fingerprint(d.publicKey).Some?
    && forall e <- earlier ::
         e.deviceId != d.deviceId && e.keyId != d.keyId && c.fingerprint(e.publicKey) != c.fingerprint(d.publicKey)
  }

  predicate RestorableDevices(c: Crypto, xs: seq<Device>, n: nat)
    requires n <= |xs|
  {
    forall i :: 0 <= i < n ==> RestorableDevice(c, xs[..i], xs[i])
  }

  predicate RestorableToken(t: Token) {
    t.state == TokenActiveCapped ==>
      && t.caps.Some?
      && 0 < t.caps.value.perTransactionMinor <= MAX_SAFE_INTEGER
      && 0 < t.caps.value.dailyMinor <= MAX_SAFE_INTEGER
  }

  /** #assertStoredChallengeMatches */
  predicate Matches(records: Records, b: Binding) {
    b.challengeId in records && ValidBinding(b) && ValidBinding(records[b.challengeId].binding)
    && records[b.challengeId].binding == b
  }

  function RequestStatuses(state: ProvisioningState): set<ChallengeStatus> {
    match state
    case ProvRequested => {Created}
    case ProvRiskScored => {Created}
    case ProvTrustedDeviceChallenge => {Created}
    case ProvApproved => {Confirmed}
    case ProvTokenActiveCapped => {Confirmed}
    case ProvTokenActiveFull => {Confirmed}
    case ProvDeclined => {Cancelled, Expired}
    case ProvExpired => {Expired}
  }

  function TransactionStatuses(state: TransactionState): set<ChallengeStatus> {
    match state
    case TxReceived => {Created}
    case TxConfirmationPending => {Created}
    case TxConfirmed => {Confirmed}
    case TxDeclined => {Cancelled, Expired}
    case TxExpired => {Cancelled, Expired}
    case TxReversalRequested => {Confirmed, Cancelled, Expired}
    case TxReversed => {Confirmed, Cancelled, Expired}
    case TxClearingReceived => {Confirmed, Cancelled, Expired}
    case TxSettled => {Confirmed}
    case TxException => {Confirmed, Cancelled, Expired}
  }

  predicate RestorableRequest(s: State, r: Request) {
    && r.tokenId in s.tokens && r.deviceId in s.devices
    && var token := s.tokens[r.tokenId];
    && r.challenge.purpose == ProvisionPaymentToken
    && r.challenge.tokenId == r.tokenId && r.challenge.deviceId == r.deviceId
    && r.challenge.subjectId == token.subjectId && r.challenge.accountId == token.accountId
    && s.devices[r.deviceId].subjectId == token.subjectId
    && Matches(s.challenges, r.challenge)
    && s.challenges[r.challenge.challengeId].status in RequestStatuses(r.state)
  }

  predicate RestorableTransaction(s: State, t: Transaction) {
    && t.tokenId in s.tokens
    && 0 < t.amountMinor <= MAX_SAFE_INTEGER && t.currency == USD
    && var token := s.tokens[t.tokenId];
    && t.challenge.purpose == ConfirmTransaction
    && t.challenge.payment == Some(Payment(t.transactionId, t.merchantId, t.amountMinor, t.currency))
    && t.challenge.tokenId == t.tokenId
    && t.challenge.subjectId == token.subjectId && t.challenge.accountId == token.accountId
    && t.challenge.deviceId in s.devices && s.devices[t.challenge.deviceId].subjectId == token.subjectId
    && Matches(s.challenges, t.challenge)
    && s.challenges[t.challenge.challengeId].status in TransactionStatuses(t.state)
  }

  predicate RestorableSpend(tokens: map<Id, Token>, e: SpendEntry) {
    && e.key.tokenId in tokens && tokens[e.key.tokenId].state == TokenActiveCapped
    && 0 < e.amountMinor <= MAX_SAFE_INTEGER
  }

  predicate RestorableReservation(t: Transaction) {
    t.capReservation.Some? ==>
      && 0 < t.capReservation.value.amountMinor <= MAX_SAFE_INTEGER
      && t.capReservation.value.key == SpendKey(t.tokenId, Day(t.challenge.issuedAt))
  }

  /** The reservations summed by ledger key, in array order. */
  function ReservedTotals(ts: seq<Transaction>): map<SpendKey, int> {
    if ts == [] then map[]
    else
      var totals, r := ReservedTotals(ts[..|ts| - 1]), ts[|ts| - 1].capReservation;
      if r.None? then totals else totals[r.value.key := SpendAt(totals, r.value.key) + r.value.amountMinor]
  }

  ghost predicate Restorable(c: Crypto, snap: EngineSnapshot) {
    var s := Restored(snap);
    && DistinctKeys(snap.challenges, ChallengeKey) && (forall r <- snap.challenges :: RestorableChallenge(r))
    && RestorableDevices(c, snap.devices, |snap.devices|)
    && DistinctKeys(snap.tokens, TokenKey) && (forall t <- snap.tokens :: RestorableToken(t))
    && DistinctKeys(snap.provisioning, RequestKey) && (forall r <- snap.provisioning :: RestorableRequest(s, r))
    && DistinctKeys(snap.transactions, TransactionKey) && (forall t <- snap.transactions :: RestorableTransaction(s, t))
    && DistinctKeys(snap.dailySpend, SpendEntryKey) && (forall e <- snap.dailySpend :: RestorableSpend(s.tokens, e))
    && (forall t <- snap.transactions :: RestorableReservation(t))
    && ReservedTotals(snap.transactions) == s.dailySpend
  }

  lemma SnapshotRestores(s: State, snap: EngineSnapshot)
    requires SnapshotOf(s, snap)
    ensures Restored(snap) == s
  {
    hide Lists, DistinctKeys;
    ListsIsIndex(snap.challenges, s.challenges, ChallengeKey);
    ListsIsIndex(snap.devices, s.devices, DeviceKey);
    ListsIsIndex(snap.tokens, s.tokens, TokenKey);
    ListsIsIndex(snap.provisioning, s.provisioning, RequestKey);
    ListsIsIndex(snap.transactions, s.transactions, TransactionKey);
  }

  // ---------- the totals are the ledger ----------

  lemma {:induction false} TotalsAreHeld(ts: seq<Transaction>, key: SpendKey)
    requires DistinctKeys(ts, TransactionKey)
    ensures SpendAt(ReservedTotals(ts), key) == Held(Index(ts, TransactionKey), key)
  {
    if ts == [] {
      assert Held(map[], key) == 0;
    } else {
      var front, t := ts[..|ts| - 1], ts[|ts| - 1];
      TotalsAreHeld(front, key);
      IndexMembers(front, TransactionKey);
      assert t.transactionId !in Index(front, TransactionKey);
      HeldUpdate(Index(front, TransactionKey), t.transactionId, t, key);
    }
  }

  lemma {:induction false} TotalsPositive(ts: seq<Transaction>)
    requires forall t <- ts :: RestorableReservation(t)
    ensures forall key <- ReservedTotals(ts) :: ReservedTotals(ts)[key] > 0
  {
    if ts != [] {
      assert RestorableReservation(ts[|ts| - 1]);
      TotalsPositive(ts[..|ts| - 1]);
    }
  }

  lemma TotalsAreLedger(s: State, snap: EngineSnapshot)
    requires LedgerOk(s) && Lists(snap.transactions, s.transactions, TransactionKey)
    requires forall t <- snap.transactions :: RestorableReservation(t)
    ensures ReservedTotals(snap.transactions) == s.dailySpend
  {
    var totals := ReservedTotals(snap.transactions);
    ListsIsIndex(snap.transactions, s.transactions, TransactionKey);
    TotalsPositive(snap.transactions);
    forall key ensures (key in totals <==> key in s.dailySpend) && SpendAt(totals, key) == SpendAt(s.dailySpend, key) {
      TotalsAreHeld(snap.transactions, key);
      assert SpendAt(s.dailySpend, key) == Held(s.transactions, key);
      assert key in s.dailySpend ==> EntryOk(s.tokens, key, s.dailySpend[key]);
    }
  }

  // ---------- exactly when restore accepts ----------

  /** No pending aggregate points at a challenge that a late approval marked expired. */
  ghost predicate NoneStuck(s: State) {
    && (forall r <- s.provisioning :: !RequestStuck(s, r))
    && (forall t <- s.transactions :: !TransactionStuck(s, t))
  }

  predicate RequestStuck(s: State, r: Id) {
    && r in s.provisioning && s.provisioning[r].state == ProvTrustedDeviceChallenge
    && s.provisioning[r].challenge.challengeId in s.challenges
    && s.challenges[s.provisioning[r].challenge.challengeId].status == Expired
  }

  predicate TransactionStuck(s: State, t: Id) {
    && t in s.transactions && s.transactions[t].state == TxConfirmationPending
    && s.transactions[t].challenge.challengeId in s.challenges
    && s.challenges[s.transactions[t].challenge.challengeId].status == Expired
  }

  /** No challenge was confirmed at a time before its issuance. */
  ghost predicate NoneEarly(s: State) {
    forall id <- s.challenges ::
      s.challenges[id].consumedAt.Some? ==> s.challenges[id].consumedAt.value >= s.challenges[id].binding.issuedAt
  }

  lemma ChallengesRestorable(s: State, snap: EngineSnapshot)
    requires RecordsOk(s.challenges) && Lists(snap.challenges, s.challenges, ChallengeKey)
    ensures (forall r <- snap.challenges :: RestorableChallenge(r)) <==> NoneEarly(s)
  {
    forall i | 0 <= i < |snap.challenges|
      ensures RecordOk(ChallengeKey(snap.challenges[i]), snap.challenges[i])
    {
    }
    if forall r <- snap.challenges :: RestorableChallenge(r) {
      forall id | id in s.challenges && s.challenges[id].consumedAt.Some?
        ensures s.challenges[id].consumedAt.value >= s.challenges[id].binding.issuedAt
      {
        assert RestorableChallenge(s.challenges[id]);
      }
    }
  }

  lemma DevicesRestorable(c: Crypto, s: State, snap: EngineSnapshot)
    requires DevicesOk(c, s.devices) && Lists(snap.devices, s.devices, DeviceKey)
    ensures RestorableDevices(c, snap.devices, |snap.devices|)
  {
    forall i | 0 <= i < |snap.devices| ensures RestorableDevice(c, snap.devices[..i], snap.devices[i]) {
      var d := snap.devices[i];
      assert DeviceOk(c, DeviceKey(d), s.devices[DeviceKey(d)]);
      forall e | e in snap.devices[..i]
        ensures e.deviceId != d.deviceId && e.keyId != d.keyId && c.fingerprint(e.publicKey) != c.fingerprint(d.publicKey)
      {
        var j :| 0 <= j < i && snap.devices[j] == e;
        assert DeviceKey(snap.devices[j]) != DeviceKey(snap.devices[i]);
        assert s.devices[DeviceKey(e)] == e && s.devices[DeviceKey(d)] == d;
      }
    }
  }

  lemma RequestRestorable(s: State, id: Id)
    requires RequestsOk(s) && RecordsOk(s.challenges) && Lifecycle(s) && id in s.provisioning
    ensures RestorableRequest(s, s.provisioning[id]) <==> !RequestStuck(s, id)
  {
    hide RequestsOk, RecordsOk, Lifecycle;
    var r := s.provisioning[id];
    RequestAt(s, id);
    LifecycleOfRequest(s, id);
    ValidStored(s.challenges, r.challenge);
  }

  lemma TransactionRestorable(s: State, id: Id)
    requires TransactionsOk(s) && RecordsOk(s.challenges) && Lifecycle(s) && id in s.transactions
    ensures RestorableTransaction(s, s.transactions[id]) <==> !TransactionStuck(s, id)
    ensures RestorableReservation(s.transactions[id])
  {
    hide TransactionsOk, RecordsOk, Lifecycle;
    var t := s.transactions[id];
    TransactionAt(s, id);
    LifecycleOfTransaction(s, id);
    ValidStored(s.challenges, t.challenge);
  }

  lemma ValidStored(records: Records, b: Binding)
    requires RecordsOk(records) && Stored(records, b)
    ensures Matches(records, b)
  {
  }

  lemma RequestsRestorable(s: State, snap: EngineSnapshot)
    requires RequestsOk(s) && RecordsOk(s.challenges) && Lifecycle(s) && Lists(snap.provisioning, s.provisioning, RequestKey)
    ensures (forall r <- snap.provisioning :: RestorableRequest(s, r)) <==> (forall r <- s.provisioning :: !RequestStuck(s, r))
  {
    forall id | id in s.provisioning ensures RestorableRequest(s, s.provisioning[id]) <==> !RequestStuck(s, id) {
      RequestRestorable(s, id);
    }
    hide RequestsOk, RecordsOk, Lifecycle, RestorableRequest, RequestStuck;
    ListedAll(snap.provisioning, s.provisioning, RequestKey, (r: Request) => RestorableRequest(s, r));
  }

  lemma TransactionsRestorable(s: State, snap: EngineSnapshot)
    requires TransactionsOk(s) && RecordsOk(s.challenges) && Lifecycle(s)
    requires Lists(snap.transactions, s.transactions, TransactionKey)
    ensures (forall t <- snap.transactions :: RestorableTransaction(s, t))
       <==> (forall t <- s.transactions :: !TransactionStuck(s, t))
    ensures forall t <- snap.transactions :: RestorableReservation(t)
  {
    forall id | id in s.transactions
      ensures RestorableTransaction(s, s.transactions[id]) <==> !TransactionStuck(s, id)
      ensures RestorableReservation(s.transactions[id])
    {
      TransactionRestorable(s, id);
    }
    hide TransactionsOk, RecordsOk, Lifecycle, RestorableTransaction, TransactionStuck, RestorableReservation;
    ListedAll(snap.transactions, s.transactions, TransactionKey, (t: Transaction) => RestorableTransaction(s, t));
    ListedAll(snap.transactions, s.transactions, TransactionKey, RestorableReservation);
  }

  lemma ListedAll<K, V>(xs: seq<V>, m: map<K, V>, key: V -> K, p: V -> bool)
    requires Lists(xs, m, key)
    ensures (forall x <- xs :: p(x)) <==> (forall k <- m :: p(m[k]))
  {
    if forall k <- m :: p(m[k]) {
      forall x | x in xs ensures p(x) {
        assert m[key(x)] == x;
      }
    }
  }

  lemma TokensRestorable(s: State, snap: EngineSnapshot)
    requires TokensOk(s.tokens) && Lists(snap.tokens, s.tokens, TokenKey)
    ensures forall t <- snap.tokens :: RestorableToken(t)
  {
    forall t | t in snap.tokens ensures RestorableToken(t) {
      assert TokenOk(TokenKey(t), s.tokens[TokenKey(t)]);
    }
  }

  lemma SpendRestorable(s: State, snap: EngineSnapshot)
    requires LedgerOk(s) && TokensOk(s.tokens)
    requires DistinctKeys(snap.dailySpend, SpendEntryKey) && Amounts(snap.dailySpend) == s.dailySpend
    ensures forall e <- snap.dailySpend :: RestorableSpend(s.tokens, e)
  {
    IndexMembers(snap.dailySpend, SpendEntryKey);
    forall e | e in snap.dailySpend ensures RestorableSpend(s.tokens, e) {
      var i :| 0 <= i < |snap.dailySpend| && snap.dailySpend[i] == e;
      assert SpendEntryKey(e) == e.key && e.key in s.dailySpend && s.dailySpend[e.key] == e.amountMinor;
      assert EntryOk(s.tokens, e.key, s.dailySpend[e.key]);
      TokenAt(s.tokens, e.key.tokenId);
    }
  }

  /** Main result: a snapshot of an engine in step restores to an equal engine, exactly when no pending
      aggregate is stuck on an expired challenge and no challenge was consumed before its issuance. */
  lemma RestoreExactly(c: Crypto, s: State, snap: EngineSnapshot)
    requires Inv(c, s) && Lifecycle(s) && SnapshotOf(s, snap)
    ensures Restored(snap) == s
    ensures Restorable(c, snap) <==> NoneStuck(s) && NoneEarly(s)
  {
    hide RequestsOk, TransactionsOk, LedgerOk, DevicesOk, RecordsOk, TokensOk, Owned, Lifecycle, Restored,
         RestorableChallenge, RestorableRequest, RestorableTransaction, RestorableReservation, RestorableDevice,
         RestorableToken, RestorableSpend, RequestStuck, TransactionStuck, NoneEarly;
    SnapshotRestores(s, snap);
    ChallengesRestorable(s, snap);
    DevicesRestorable(c, s, snap);
    TokensRestorable(s, snap);
    RequestsRestorable(s, snap);
    TransactionsRestorable(s, snap);
    SpendRestorable(s, snap);
    TotalsAreLedger(s, snap);
  }
}
