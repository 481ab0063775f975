/** The issuer's airlock engine: its records and, call by call, what it does to them. */
module Airlock {
  import opened Wrappers
  import opened Transitions
  import opened Challenges
  import opened MapSums

  const MS_PER_DAY := 86_400_000
  const PROVISIONING_TTL_MS := 120_000
  const CONFIRMATION_TTL_MS := 30_000
  /** Math.floor(Number.MAX_SAFE_INTEGER / 2) */
  const MAX_CAP_MINOR := 4503599627370495

  datatype DeviceStatus = Active | Revoked

  datatype Device = Device(deviceId: Id, subjectId: Id, keyId: Id, publicKey: string, status: DeviceStatus)

  datatype TokenState = TokenPending | TokenActiveCapped | TokenActiveFull | TokenDeclined

  datatype Caps = Caps(perTransactionMinor: int, dailyMinor: int)

  datatype Token = Token(tokenId: Id, subjectId: Id, accountId: Id, state: TokenState, caps: Option<Caps>)

  datatype Request = Request(requestId: Id, tokenId: Id, deviceId: Id, state: ProvisioningState, challenge: Binding)

  /** The ledger key `${tokenId}:${day}`, with the day as a number. */
  datatype SpendKey = SpendKey(tokenId: Id, day: int)

  datatype Reservation = Reservation(key: SpendKey, amountMinor: int)

  datatype Strategy = PreAuthorizationStepUp | ProvisionalMonitoring

  datatype Transaction = Transaction(
    transactionId: Id, tokenId: Id, merchantId: Id, amountMinor: int, currency: Currency,
    state: TransactionState, strategy: Strategy, challenge: Binding, capReservation: Option<Reservation>)

  datatype AuditKind =
    | DeviceEnrolled | DeviceRevokedEvent | DeviceCompromised | DeviceKeyRotated
    | ProvisioningChallengeCreated | ProvisioningApproved
    | TransactionPending | TransactionConfirmedEvent | TransactionReversed | ClearingReceived

  datatype AuditEntry = AuditEntry(kind: AuditKind, correlationId: Id, at: Time)

  datatype State = State(
    challenges: Records,
    devices: map<Id, Device>,
    tokens: map<Id, Token>,
    provisioning: map<Id, Request>,
    transactions: map<Id, Transaction>,
    dailySpend: map<SpendKey, int>,
    audit: seq<AuditEntry>)

  const EmptyState := State(map[], map[], map[], map[], map[], map[], [])

  datatype Activation = Capped | Full

  /** One public call; the identifiers the source draws at random are arguments. */
  datatype Call =
    | EnrollTrustedDevice(subjectId: Id, keyId: Id, publicKey: string, deviceId: Id)
    | RevokeTrustedDevice(deviceId: Id)
    | MarkTrustedDeviceCompromised(deviceId: Id)
    | RotateTrustedDeviceKey(deviceId: Id, keyId: Id, publicKey: string)
    | RequestProvisioning(
        subjectId: Id, accountId: Id, tokenId: Id, deviceId: Id, capMinor: int, newRequestId: Id, newChallengeId: Id)
    | ApproveProvisioning(requestId: Id, approval: Approval, activation: Activation)
    | Authorize(
        transactionId: Id, tokenId: Id, merchantId: Id, amountMinor: int, strategy: Strategy, deviceId: Id,
        newChallengeId: Id)
    | ConfirmTransactionCall(transactionId: Id, approval: Approval)
    | ExpireAndReverse(transactionId: Id)
    | ReceiveClearing(transactionId: Id)

  function Day(at: Time): int { at / MS_PER_DAY }

  // ---------- devices ----------

  predicate KeyIdTaken(devices: map<Id, Device>, keyId: Id, exceptDevice: Option<Id>) {
    exists d :: d in devices && exceptDevice != Some(d) && devices[d].keyId == keyId
  }

  predicate PublicKeyTaken(c: Crypto, devices: map<Id, Device>, publicKey: string, exceptDevice: Option<Id>) {
    exists d :: d in devices && exceptDevice != Some(d) && c.fingerprint(devices[d].publicKey) == c.fingerprint(publicKey)
  }

  function RequireActiveDevice(s: State, deviceId: Id, subjectId: Option<Id>): Outcome {
    if deviceId !in s.devices then Threw(UnknownDevice)
    else if s.devices[deviceId].status != Active then Threw(DeviceRevoked)
    else if subjectId.Some? && s.devices[deviceId].subjectId != subjectId.value then Threw(SubjectMismatch)
    else Done
  }

  function Enroll(c: Crypto, s: State, subjectId: Id, keyId: Id, publicKey: string, deviceId: Id, now: Time): (State, Outcome) {
    if deviceId in s.devices then (s, Threw(DuplicateDevice))
    else if !c.validKeyId(keyId) then (s, Threw(InvalidKeyId))
    else if KeyIdTaken(s.devices, keyId, None) then (s, Threw(DuplicateKeyId))
    else if c.fingerprint(publicKey).None? then (s, Threw(InvalidPublicKey))
    else if PublicKeyTaken(c, s.devices, publicKey, None) then (s, Threw(DuplicatePublicKey))
    else
      (s.(devices := s.devices[deviceId := Device(deviceId, subjectId, keyId, publicKey, Active)],
          audit := s.audit + [AuditEntry(DeviceEnrolled, deviceId, now)]), Done)
  }

  // ---------- the spend ledger ----------

  function SpendAt(spend: map<SpendKey, int>, key: SpendKey): int {
    if key in spend then spend[key] else 0
  }

  function MaxInt(a: int, b: int): int { if a >= b then a else b }

  /** releaseCapReservation on the ledger: clamp at zero, drop zero entries. */
  function ReleaseFrom(spend: map<SpendKey, int>, r: Option<Reservation>): map<SpendKey, int> {
    if r.None? then spend
    else
      var remaining := MaxInt(0, SpendAt(spend, r.value.key) - r.value.amountMinor);
      if remaining == 0 then spend - {r.value.key} else spend[r.value.key := remaining]
  }

  function Release(t: Transaction): Transaction { t.(capReservation := None) }

  /** What one transaction still reserves under a ledger key. */
  function Weight(key: SpendKey): Transaction -> int {
    (t: Transaction) =>
      if t.capReservation.Some? && t.capReservation.value.key == key then t.capReservation.value.amountMinor else 0
  }

  /** What a set of transactions reserves under a ledger key. */
  ghost function Held(transactions: map<Id, Transaction>, key: SpendKey): int {
    Sum(transactions, Weight(key))
  }

  function Restrict<V>(m: map<Id, V>, ids: set<Id>): map<Id, V> { m - (m.Keys - ids) }

  /** The ledger after the reservations of `released` are given back. */
  ghost function Reduced(spend: map<SpendKey, int>, transactions: map<Id, Transaction>, released: set<Id>): map<SpendKey, int> {
    map key | key in spend && spend[key] > Held(Restrict(transactions, released), key)
      :: spend[key] - Held(Restrict(transactions, released), key)
  }

  // ---------- invalidation ----------

  predicate PendingRequest(s: State, deviceId: Id, r: Id) {
    r in s.provisioning && s.provisioning[r].deviceId == deviceId && s.provisioning[r].state == ProvTrustedDeviceChallenge
  }

  predicate PendingTransaction(s: State, deviceId: Id, t: Id) {
    && t in s.transactions && s.transactions[t].challenge.deviceId == deviceId
    && s.transactions[t].state == TxConfirmationPending
  }

  function PendingRequests(s: State, deviceId: Id): set<Id> {
    set r | r in s.provisioning && PendingRequest(s, deviceId, r)
  }

  function PendingTransactions(s: State, deviceId: Id): set<Id> {
    set t | t in s.transactions && PendingTransaction(s, deviceId, t)
  }

  function ChallengeOf(s: State, requests: set<Id>, transactions: set<Id>): set<Id> {
    (set r | r in s.provisioning && r in requests :: s.provisioning[r].challenge.challengeId)
    + (set t | t in s.transactions && t in transactions :: s.transactions[t].challenge.challengeId)
  }

  /** Phase one of the invalidation: no outstanding challenge may have been issued later than now. */
  predicate TooEarly(s: State, deviceId: Id, now: Time) {
    exists id :: id in s.challenges && s.challenges[id].status == Created && now < s.challenges[id].binding.issuedAt
              && id in ChallengeOf(s, PendingRequests(s, deviceId), PendingTransactions(s, deviceId))
  }

  predicate Reconcilable(s: State, challengeId: Id) {
    challengeId in s.challenges && s.challenges[challengeId].status in {Created, Cancelled, Expired}
  }

  function ReconcilableRequests(s: State, deviceId: Id): set<Id> {
    set r | r in s.provisioning && PendingRequest(s, deviceId, r) && Reconcilable(s, s.provisioning[r].challenge.challengeId)
  }

  function ReconcilableTransactions(s: State, deviceId: Id): set<Id> {
    set t | t in s.transactions && PendingTransaction(s, deviceId, t) && Reconcilable(s, s.transactions[t].challenge.challengeId)
  }

  function CancelledIn(records: Records, ids: set<Id>, now: Time): Records {
    map id | id in records ::
      if id in ids && records[id].status == Created then records[id].(status := Cancelled, consumedAt := Some(now))
      else records[id]
  }

  function TokensOf(s: State, requests: set<Id>): set<Id> {
    set r | r in s.provisioning && r in requests :: s.provisioning[r].tokenId
  }

  function DeclineRequests(requests: map<Id, Request>, ids: set<Id>): map<Id, Request> {
    map r | r in requests :: if r in ids then requests[r].(state := ProvDeclined) else requests[r]
  }

  function DeclineTokens(tokens: map<Id, Token>, ids: set<Id>): map<Id, Token> {
    map k | k in tokens ::
      if k in ids && tokens[k].state == TokenPending then tokens[k].(state := TokenDeclined) else tokens[k]
  }

  function DeclineTransactions(transactions: map<Id, Transaction>, ids: set<Id>): map<Id, Transaction> {
    map t | t in transactions :: if t in ids then Release(transactions[t].(state := TxDeclined)) else transactions[t]
  }

  /** The state in which the given aggregates are declined, their challenges cancelled, their tokens
      declined and their reservations given back, all at once. */
  ghost function Reconciled(s: State, requests: set<Id>, transactions: set<Id>, now: Time): State {
    s.(challenges := CancelledIn(s.challenges, ChallengeOf(s, requests, transactions), now),
       provisioning := DeclineRequests(s.provisioning, requests),
       tokens := DeclineTokens(s.tokens, TokensOf(s, requests)),
       transactions := DeclineTransactions(s.transactions, transactions),
       dailySpend := Reduced(s.dailySpend, s.transactions, transactions))
  }

  /** Invalidating a device's outstanding challenges: all or nothing. */
  ghost function Invalidate(s: State, deviceId: Id, now: Time): (State, Outcome) {
    if TooEarly(s, deviceId, now) then (s, Threw(CancelledBeforeIssuance))
    else (Reconciled(s, ReconcilableRequests(s, deviceId), ReconcilableTransactions(s, deviceId), now), Done)
  }

  ghost function Retire(s: State, deviceId: Id, kind: AuditKind, now: Time): (State, Outcome)
    requires deviceId in s.devices
  {
    var (i, outcome) := Invalidate(s, deviceId, now);
    if outcome.Threw? then (s, outcome)
    else (i.(devices := i.devices[deviceId := s.devices[deviceId].(status := Revoked)],
             audit := i.audit + [AuditEntry(kind, deviceId, now)]), Done)
  }

  ghost function Revoke(s: State, deviceId: Id, now: Time): (State, Outcome) {
    if deviceId !in s.devices then (s, Threw(UnknownDevice))
    else if s.devices[deviceId].status == Revoked then (s, Threw(DeviceAlreadyRevoked))
    else Retire(s, deviceId, DeviceRevokedEvent, now)
  }

  ghost function MarkCompromised(s: State, deviceId: Id, now: Time): (State, Outcome) {
    if deviceId !in s.devices then (s, Threw(UnknownDevice))
    else if s.devices[deviceId].status != Active then (s, Threw(DeviceNotActive))
    else Retire(s, deviceId, DeviceCompromised, now)
  }

  ghost function Rotate(c: Crypto, s: State, deviceId: Id, keyId: Id, publicKey: string, now: Time): (State, Outcome) {
    if deviceId !in s.devices then (s, Threw(UnknownDevice))
    else if s.devices[deviceId].status != Active then (s, Threw(DeviceNotActive))
    else if keyId == s.devices[deviceId].keyId then (s, Threw(SameKeyId))
    else if !c.validKeyId(keyId) then (s, Threw(InvalidKeyId))
    else if KeyIdTaken(s.devices, keyId, Some(deviceId)) then (s, Threw(DuplicateKeyId))
    else if c.fingerprint(publicKey).None? then (s, Threw(InvalidPublicKey))
    else if c.fingerprint(publicKey) == c.fingerprint(s.devices[deviceId].publicKey) then (s, Threw(SamePublicKey))
    else if PublicKeyTaken(c, s.devices, publicKey, Some(deviceId)) then (s, Threw(DuplicatePublicKey))
    else
      var (i, outcome) := Invalidate(s, deviceId, now);
      if outcome.Threw? then (s, outcome)
      else (i.(devices := i.devices[deviceId := s.devices[deviceId].(keyId := keyId, publicKey := publicKey)],
               audit := i.audit + [AuditEntry(DeviceKeyRotated, deviceId, now)]), Done)
  }

  // ---------- provisioning ----------

  function Provision(
    s: State, subjectId: Id, accountId: Id, tokenId: Id, deviceId: Id, capMinor: int, requestId: Id, challengeId: Id,
    now: Time): (State, Outcome)
  {
    if tokenId in s.tokens then (s, Threw(DuplicateToken))
    else if !SafeInteger(capMinor) || capMinor <= 0 || capMinor > MAX_CAP_MINOR then (s, Threw(InvalidCap))
    else if RequireActiveDevice(s, deviceId, Some(subjectId)).Threw? then (s, RequireActiveDevice(s, deviceId, Some(subjectId)))
    else
      var token := Token(tokenId, subjectId, accountId, TokenPending, Some(Caps(capMinor, capMinor * 2)));
      var (records, challenge) := CreateChallenge(
        s.challenges, ProvisionPaymentToken, challengeId, subjectId, accountId, tokenId, deviceId, None,
        PROVISIONING_TTL_MS, now);
      var request := Request(requestId, tokenId, deviceId, ProvTrustedDeviceChallenge, challenge);
      (s.(challenges := records, tokens := s.tokens[tokenId := token],
          provisioning := s.provisioning[requestId := request],
          audit := s.audit + [AuditEntry(ProvisioningChallengeCreated, requestId, now)]), Done)
  }

  function Activated(t: Token, activation: Activation): Token {
    match activation
    case Capped => t.(state := TokenActiveCapped)
    case Full => t.(state := TokenActiveFull, caps := None)
  }

  function ActivatedRequest(activation: Activation): ProvisioningState {
    match activation
    case Capped => ProvTokenActiveCapped
    case Full => ProvTokenActiveFull
  }

  function Approve(c: Crypto, s: State, requestId: Id, approval: Approval, activation: Activation, now: Time): (State, Outcome) {
    if requestId !in s.provisioning then (s, Threw(UnknownRequest))
    else
      var request := s.provisioning[requestId];
      var active := RequireActiveDevice(s, request.deviceId, None);
      if active.Threw? then (s, active)
      else if approval.keyId != s.devices[request.deviceId].keyId then (s, Threw(KeyIdMismatch))
      else
        var (records, consumed) := ConsumeStep(c, s.challenges, approval, s.devices[request.deviceId].publicKey, now);
        var s1 := s.(challenges := records);
        if consumed.Threw? then (s1, consumed)
        else if TransitionProvisioning(request.state, ProvApproved).None? then (s1, Threw(InvalidTransition))
        else
          var s2 := s1.(provisioning := s.provisioning[requestId := request.(state := ActivatedRequest(activation))]);
          if request.tokenId !in s.tokens then (s2, Threw(UnknownToken))
          else
            (s2.(tokens := s.tokens[request.tokenId := Activated(s.tokens[request.tokenId], activation)],
                 audit := s.audit + [AuditEntry(ProvisioningApproved, requestId, now)]), Done)
  }

  // ---------- transactions ----------

  function AuthorizeStep(
    s: State, transactionId: Id, tokenId: Id, merchantId: Id, amountMinor: int, strategy: Strategy, deviceId: Id,
    challengeId: Id, now: Time): (State, Outcome)
  {
    if transactionId in s.transactions then (s, Threw(DuplicateTransaction))
    else if !SafeInteger(amountMinor) || amountMinor <= 0 then (s, Threw(InvalidAmount))
    else if tokenId !in s.tokens then (s, Threw(UnknownToken))
    else
      var token := s.tokens[tokenId];
      if token.state in {TokenPending, TokenDeclined} then (s, Threw(TokenNotSpendable))
      else if RequireActiveDevice(s, deviceId, Some(token.subjectId)).Threw? then
        (s, RequireActiveDevice(s, deviceId, Some(token.subjectId)))
      else
        var capped := token.state == TokenActiveCapped;
        var caps := if token.caps.Some? then token.caps.value else Caps(0, 0);
        var key := SpendKey(tokenId, Day(now));
        var nextTotal := SpendAt(s.dailySpend, key) + amountMinor;
        if capped && amountMinor > caps.perTransactionMinor then (s, Threw(ExceedsCap))
        else if capped && nextTotal > caps.dailyMinor then (s, Threw(ExceedsDailyCap))
        else
          var (records, challenge) := CreateChallenge(
            s.challenges, ConfirmTransaction, challengeId, token.subjectId, token.accountId, tokenId, deviceId,
            Some(Payment(transactionId, merchantId, amountMinor, USD)), CONFIRMATION_TTL_MS, now);
          var transaction := Transaction(
            transactionId, tokenId, merchantId, amountMinor, USD, TxConfirmationPending, strategy, challenge,
            if capped then Some(Reservation(key, amountMinor)) else None);
          (s.(challenges := records, transactions := s.transactions[transactionId := transaction],
              dailySpend := if capped then s.dailySpend[key := nextTotal] else s.dailySpend,
              audit := s.audit + [AuditEntry(TransactionPending, transactionId, now)]), Done)
  }

  function Confirm(c: Crypto, s: State, transactionId: Id, approval: Approval, now: Time): (State, Outcome) {
    if transactionId !in s.transactions then (s, Threw(UnknownTransaction))
    else
      var transaction := s.transactions[transactionId];
      var deviceId := transaction.challenge.deviceId;
      var active := RequireActiveDevice(s, deviceId, None);
      if active.Threw? then (s, active)
      else if approval.keyId != s.devices[deviceId].keyId then (s, Threw(KeyIdMismatch))
      else
        var (records, consumed) := ConsumeStep(c, s.challenges, approval, s.devices[deviceId].publicKey, now);
        var s1 := s.(challenges := records);
        if consumed.Threw? then (s1, consumed)
        else if TransitionTransaction(transaction.state, TxConfirmed).None? then (s1, Threw(InvalidTransition))
        else
          (s1.(transactions := s.transactions[transactionId := transaction.(state := TxConfirmed)],
               audit := s.audit + [AuditEntry(TransactionConfirmedEvent, transactionId, now)]), Done)
  }

  function Expire(s: State, transactionId: Id, now: Time): (State, Outcome) {
    if transactionId !in s.transactions then (s, Threw(UnknownTransaction))
    else
      var transaction := s.transactions[transactionId];
      var (records, cancelled) := CancelStep(s.challenges, transaction.challenge.challengeId, now);
      var s1 := s.(challenges := records);
      if cancelled.Threw? then (s1, cancelled)
      else if TransitionTransaction(transaction.state, TxExpired).None? then (s1, Threw(InvalidTransition))
      else
        (s1.(transactions := s.transactions[transactionId := Release(transaction.(state := TxReversed))],
             dailySpend := ReleaseFrom(s.dailySpend, transaction.capReservation),
             audit := s.audit + [AuditEntry(TransactionReversed, transactionId, now)]), Done)
  }

  function Clear(s: State, transactionId: Id, now: Time): (State, Outcome) {
    if transactionId !in s.transactions then (s, Threw(UnknownTransaction))
    else
      var transaction := s.transactions[transactionId];
      if TransitionTransaction(transaction.state, TxClearingReceived).None? then (s, Threw(InvalidTransition))
      else
        var reversedBeforeClearing := transaction.state in {TxExpired, TxReversalRequested, TxReversed};
        (s.(transactions := s.transactions[
              transactionId := transaction.(state := if reversedBeforeClearing then TxException else TxSettled)],
            audit := s.audit + [AuditEntry(ClearingReceived, transactionId, now)]), Done)
  }

  /** One call at one instant. */
  ghost function Step(c: Crypto, s: State, call: Call, now: Time): (State, Outcome) {
    match call
    case EnrollTrustedDevice(subjectId, keyId, publicKey, deviceId) => Enroll(c, s, subjectId, keyId, publicKey, deviceId, now)
    case RevokeTrustedDevice(deviceId) => Revoke(s, deviceId, now)
    case MarkTrustedDeviceCompromised(deviceId) => MarkCompromised(s, deviceId, now)
    case RotateTrustedDeviceKey(deviceId, keyId, publicKey) => Rotate(c, s, deviceId, keyId, publicKey, now)
    case RequestProvisioning(subjectId, accountId, tokenId, deviceId, capMinor, requestId, challengeId) =>
      Provision(s, subjectId, accountId, tokenId, deviceId, capMinor, requestId, challengeId, now)
    case ApproveProvisioning(requestId, approval, activation) => Approve(c, s, requestId, approval, activation, now)
    case Authorize(transactionId, tokenId, merchantId, amountMinor, strategy, deviceId, challengeId) =>
      AuthorizeStep(s, transactionId, tokenId, merchantId, amountMinor, strategy, deviceId, challengeId, now)
    case ConfirmTransactionCall(transactionId, approval) => Confirm(c, s, transactionId, approval, now)
    case ExpireAndReverse(transactionId) => Expire(s, transactionId, now)
    case ReceiveClearing(transactionId) => Clear(s, transactionId, now)
  }
}
