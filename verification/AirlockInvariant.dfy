/** The relation between devices, tokens, requests, transactions, challenges and the spend ledger
    that every call keeps, throwing calls and approvals of foreign challenges included. */
module AirlockInvariant {
  import opened Common
  import opened Wrappers
  import opened Transitions
  import opened Challenges
  import opened Airlock

  predicate DeviceOk(c: Crypto, id: Id, d: Device) {
    d.deviceId == id && c.validKeyId(d.keyId) && c.fingerprint(d.publicKey).Some?
  }

  ghost predicate DevicesOk(c: Crypto, devices: map<Id, Device>) {
    && (forall id <- devices :: DeviceOk(c, id, devices[id]))
    && (forall a, b | a in devices && b in devices && a != b ::
          devices[a].keyId != devices[b].keyId
          && c.fingerprint(devices[a].publicKey) != c.fingerprint(devices[b].publicKey))
  }

  predicate TokenOk(id: Id, t: Token) {
    && t.tokenId == id
    && (t.caps.None? <==> t.state == TokenActiveFull)
    && (t.caps.Some? ==> 0 < t.caps.value.perTransactionMinor <= MAX_CAP_MINOR
                         && t.caps.value.dailyMinor == 2 * t.caps.value.perTransactionMinor)
  }

  ghost predicate TokensOk(tokens: map<Id, Token>) {
    forall id <- tokens :: TokenOk(id, tokens[id])
  }

  predicate Stored(records: Records, b: Binding) {
    b.challengeId in records && records[b.challengeId].binding == b
  }

  /** The token state that goes with each request state an engine can be in. */
  function TokenStateFor(p: ProvisioningState): Option<TokenState> {
    match p
    case ProvTrustedDeviceChallenge => Some(TokenPending)
    case ProvTokenActiveCapped => Some(TokenActiveCapped)
    case ProvTokenActiveFull => Some(TokenActiveFull)
    case ProvDeclined => Some(TokenDeclined)
    case _ => None
  }

  predicate RequestOk(s: State, id: Id, r: Request) {
    && r.requestId == id
    && r.tokenId in s.tokens && r.deviceId in s.devices
    && s.devices[r.deviceId].subjectId == s.tokens[r.tokenId].subjectId
    && Stored(s.challenges, r.challenge)
    && r.challenge.purpose == ProvisionPaymentToken
    && r.challenge.subjectId == s.tokens[r.tokenId].subjectId
    && r.challenge.accountId == s.tokens[r.tokenId].accountId
    && r.challenge.tokenId == r.tokenId
    && r.challenge.deviceId == r.deviceId
    && TokenStateFor(r.state) == Some(s.tokens[r.tokenId].state)
  }

  ghost predicate RequestsOk(s: State) {
    && (forall id <- s.provisioning :: RequestOk(s, id, s.provisioning[id]))
    && (forall a, b | a in s.provisioning && b in s.provisioning && a != b ::
          s.provisioning[a].tokenId != s.provisioning[b].tokenId)
  }

  predicate Holding(state: TransactionState) { state in {TxConfirmationPending, TxConfirmed, TxSettled} }

  predicate Spendable(t: Token) { t.state in {TokenActiveCapped, TokenActiveFull} }

  /** Exactly the transactions of capped tokens that are pending, confirmed or settled hold a reservation. */
  predicate TransactionOk(s: State, id: Id, t: Transaction) {
    && t.transactionId == id
    && t.tokenId in s.tokens && Spendable(s.tokens[t.tokenId])
    && t.challenge.deviceId in s.devices
    && s.devices[t.challenge.deviceId].subjectId == s.tokens[t.tokenId].subjectId
    && Stored(s.challenges, t.challenge)
    && t.challenge.purpose == ConfirmTransaction
    && t.challenge.subjectId == s.tokens[t.tokenId].subjectId
    && t.challenge.accountId == s.tokens[t.tokenId].accountId
    && t.challenge.tokenId == t.tokenId
    && t.challenge.payment == Some(Payment(id, t.merchantId, t.amountMinor, USD))
    && t.currency == USD
    && 0 < t.amountMinor <= MAX_SAFE_INTEGER
    && (s.tokens[t.tokenId].state == TokenActiveCapped ==>
          s.tokens[t.tokenId].caps.Some? && t.amountMinor <= s.tokens[t.tokenId].caps.value.perTransactionMinor)
    && t.state in {TxConfirmationPending, TxConfirmed, TxDeclined, TxReversed, TxSettled, TxException}
    && t.capReservation
       == if s.tokens[t.tokenId].state == TokenActiveCapped && Holding(t.state) then
            Some(Reservation(SpendKey(t.tokenId, Day(t.challenge.issuedAt)), t.amountMinor))
          else None
  }

  ghost predicate TransactionsOk(s: State) {
    forall id <- s.transactions :: TransactionOk(s, id, s.transactions[id])
  }

  predicate EntryOk(tokens: map<Id, Token>, key: SpendKey, amount: int) {
    && amount > 0
    && key.tokenId in tokens && tokens[key.tokenId].state == TokenActiveCapped
    && tokens[key.tokenId].caps.Some? && amount <= tokens[key.tokenId].caps.value.dailyMinor
  }

  /** The ledger equals, key for key, the reservations still held; it has no zero entry and never
      exceeds the daily cap. */
  ghost predicate LedgerOk(s: State) {
    && (forall key :: SpendAt(s.dailySpend, key) == Held(s.transactions, key))
    && (forall key <- s.dailySpend :: EntryOk(s.tokens, key, s.dailySpend[key]))
  }

  ghost predicate OwnedByRequest(s: State, challengeId: Id) {
    exists r :: r in s.provisioning && s.provisioning[r].challenge.challengeId == challengeId
  }

  ghost predicate OwnedByTransaction(s: State, challengeId: Id) {
    exists t :: t in s.transactions && s.transactions[t].challenge.challengeId == challengeId
  }

  /** Every stored challenge belongs to a request or a transaction. */
  ghost predicate Owned(s: State) {
    forall id <- s.challenges :: OwnedByRequest(s, id) || OwnedByTransaction(s, id)
  }

  ghost predicate Inv(c: Crypto, s: State) {
    && RecordsOk(s.challenges)
    && DevicesOk(c, s.devices)
    && TokensOk(s.tokens)
    && RequestsOk(s)
    && TransactionsOk(s)
    && LedgerOk(s)
    && Owned(s)
  }

  /** The identifiers drawn at random are new. */
  predicate FreshIds(s: State, call: Call) {
    match call
    case RequestProvisioning(_, _, _, _, _, requestId, challengeId) => requestId !in s.provisioning && challengeId !in s.challenges
    case Authorize(_, _, _, _, _, _, challengeId) => challengeId !in s.challenges
    case _ => true
  }

  // ---------- frames ----------

  /** What a call may change under an aggregate it does not touch. */
  ghost predicate Grows(s: State, s': State) {
    && Advances(s.challenges, s'.challenges)
    && (forall d <- s.devices :: d in s'.devices && s'.devices[d].subjectId == s.devices[d].subjectId)
    && (forall k <- s.tokens ::
          && k in s'.tokens
          && s'.tokens[k].subjectId == s.tokens[k].subjectId && s'.tokens[k].accountId == s.tokens[k].accountId
          && (Spendable(s.tokens[k]) ==> s'.tokens[k] == s.tokens[k]))
  }

  lemma TransactionFrame(s: State, s': State, id: Id, t: Transaction)
    requires TransactionOk(s, id, t) && Grows(s, s')
    ensures TransactionOk(s', id, t)
  {
  }

  lemma RequestFrame(s: State, s': State, id: Id, r: Request)
    requires RequestOk(s, id, r) && Grows(s, s')
    requires r.tokenId in s'.tokens && s'.tokens[r.tokenId].state == s.tokens[r.tokenId].state
    ensures RequestOk(s', id, r)
  {
  }

  lemma TransactionsFrame(s: State, s': State)
    requires TransactionsOk(s) && Grows(s, s') && s'.transactions == s.transactions
    ensures TransactionsOk(s')
  {
    forall id | id in s'.transactions ensures TransactionOk(s', id, s'.transactions[id]) {
      TransactionFrame(s, s', id, s.transactions[id]);
    }
  }

  lemma RequestsFrame(s: State, s': State)
    requires RequestsOk(s) && Grows(s, s') && s'.provisioning == s.provisioning
    requires forall k <- s.tokens :: k in s'.tokens && s'.tokens[k].state == s.tokens[k].state
    ensures RequestsOk(s')
  {
    forall id | id in s'.provisioning ensures RequestOk(s', id, s'.provisioning[id]) {
      assert s.provisioning[id].tokenId in s.tokens;
      RequestFrame(s, s', id, s.provisioning[id]);
    }
  }

  lemma OwnedFrame(s: State, s': State)
    requires Owned(s)
    requires forall id <- s'.challenges :: id in s.challenges || OwnedByRequest(s', id) || OwnedByTransaction(s', id)
    requires forall r <- s.provisioning :: r in s'.provisioning && s'.provisioning[r].challenge == s.provisioning[r].challenge
    requires forall t <- s.transactions :: t in s'.transactions && s'.transactions[t].challenge == s.transactions[t].challenge
    ensures Owned(s')
  {
    forall id | id in s'.challenges ensures OwnedByRequest(s', id) || OwnedByTransaction(s', id) {
      if id !in s.challenges {
      } else if OwnedByRequest(s, id) {
        var r :| r in s.provisioning && s.provisioning[r].challenge.challengeId == id;
        assert r in s'.provisioning;
      } else {
        var t :| t in s.transactions && s.transactions[t].challenge.challengeId == id;
        assert t in s'.transactions;
      }
    }
  }

  // ---------- one element of each relation ----------

  lemma RequestAt(s: State, id: Id)
    requires RequestsOk(s) && id in s.provisioning
    ensures RequestOk(s, id, s.provisioning[id])
  {
  }

  lemma TransactionAt(s: State, id: Id)
    requires TransactionsOk(s) && id in s.transactions
    ensures TransactionOk(s, id, s.transactions[id])
  {
  }

  lemma TokenAt(tokens: map<Id, Token>, id: Id)
    requires TokensOk(tokens) && id in tokens
    ensures TokenOk(id, tokens[id])
  {
  }

  lemma TokenUpdateOk(tokens: map<Id, Token>, id: Id, t: Token)
    requires TokensOk(tokens) && TokenOk(id, t)
    ensures TokensOk(tokens[id := t])
  {
  }

  lemma RecordAddOk(records: Records, id: Id, r: Challenge)
    requires RecordsOk(records) && RecordOk(id, r) && id !in records
    ensures RecordsOk(records[id := r]) && Advances(records, records[id := r])
  {
  }

  lemma AdvancesReflexive(records: Records)
    ensures Advances(records, records) && forall now :: Stamped(records, records, now)
  {
  }

  // ---------- one challenge or one device changes ----------

  /** Only challenges advance: the state a late or foreign approval may leave behind. */
  lemma ChallengesAdvanceKeepsInv(c: Crypto, s: State, records: Records)
    requires Inv(c, s) && Advances(s.challenges, records) && RecordsOk(records) && records.Keys == s.challenges.Keys
    ensures Inv(c, s.(challenges := records))
  {
    var s' := s.(challenges := records);
    hide RequestsOk, TransactionsOk, DevicesOk, RecordsOk, TokensOk;
    RequestsFrame(s, s');
    TransactionsFrame(s, s');
    OwnedFrame(s, s');
    hide Held, EntryOk;
  }

  lemma DevicesKeepInv(c: Crypto, s: State, devices: map<Id, Device>, audit: seq<AuditEntry>)
    requires Inv(c, s) && DevicesOk(c, devices)
    requires forall d <- s.devices :: d in devices && devices[d].subjectId == s.devices[d].subjectId
    ensures Inv(c, s.(devices := devices, audit := audit))
  {
    var s' := s.(devices := devices, audit := audit);
    hide RequestsOk, TransactionsOk, DevicesOk, RecordsOk, TokensOk;
    RequestsFrame(s, s');
    TransactionsFrame(s, s');
    hide Held, EntryOk, OwnedByRequest, OwnedByTransaction;
  }

  lemma AddDeviceKeepsOk(c: Crypto, devices: map<Id, Device>, id: Id, d: Device)
    requires DevicesOk(c, devices) && id !in devices && DeviceOk(c, id, d)
    requires !KeyIdTaken(devices, d.keyId, None) && !PublicKeyTaken(c, devices, d.publicKey, None)
    ensures DevicesOk(c, devices[id := d])
  {
  }

  lemma EnrollKeepsInv(c: Crypto, s: State, subjectId: Id, keyId: Id, publicKey: string, deviceId: Id, now: Time)
    requires Inv(c, s)
    ensures Inv(c, Enroll(c, s, subjectId, keyId, publicKey, deviceId, now).0)
  {
    var (s', outcome) := Enroll(c, s, subjectId, keyId, publicKey, deviceId, now);
    if outcome == Done {
      AddDeviceKeepsOk(c, s.devices, deviceId, Device(deviceId, subjectId, keyId, publicKey, Active));
      hide RequestsOk, TransactionsOk, LedgerOk, Owned, DevicesOk, RecordsOk, TokensOk, KeyIdTaken, PublicKeyTaken;
      DevicesKeepInv(c, s, s'.devices, s'.audit);
    }
  }

  /** A device may lose its active status, or take a new key id and public key that no other device has. */
  lemma ReplaceDeviceKeepsOk(c: Crypto, devices: map<Id, Device>, id: Id, d: Device)
    requires DevicesOk(c, devices) && id in devices && d.deviceId == id
    requires d.keyId == devices[id].keyId || (c.validKeyId(d.keyId) && !KeyIdTaken(devices, d.keyId, Some(id)))
    requires d.publicKey == devices[id].publicKey
          || (c.fingerprint(d.publicKey).Some? && !PublicKeyTaken(c, devices, d.publicKey, Some(id)))
    ensures DevicesOk(c, devices[id := d])
  {
  }
}
