/** One-time challenges: the challenge store of the airlock, as functions on its record map and as
    the class that updates the map in place.  Times are integer milliseconds. */
module Challenges {
  import opened Common
  import opened Wrappers

  type Id = string
  type Time = int

  predicate SafeInteger(n: int) { -MAX_SAFE_INTEGER <= n <= MAX_SAFE_INTEGER }

  datatype Purpose = ProvisionPaymentToken | ConfirmTransaction

  datatype Currency = USD | EUR | GBP | CAD | AUD

  /** The transaction-only fields of a binding. */
  datatype Payment = Payment(transactionId: Id, merchantId: Id, amountMinor: int, currency: Currency)

  datatype Binding = Binding(
    purpose: Purpose, challengeId: Id, subjectId: Id, accountId: Id, tokenId: Id, deviceId: Id,
    payment: Option<Payment>, issuedAt: Time, expiresAt: Time)

  datatype ChallengeStatus = Created | Confirmed | Expired | Cancelled

  datatype Challenge = Challenge(binding: Binding, status: ChallengeStatus, consumedAt: Option<Time>)

  datatype Approval = Approval(binding: Binding, keyId: Id, signature: string)

  type Records = map<Id, Challenge>

  /** The cryptographic primitives, left uninterpreted: which key ids match the key-id pattern, the
      fingerprint of a public key (None when its profile is rejected) and signature verification. */
  datatype Crypto = Crypto(
    validKeyId: Id -> bool,
    fingerprint: string -> Option<string>,
    verify: (Approval, string) -> bool)

  datatype Error =
    | DuplicateDevice | InvalidKeyId | DuplicateKeyId | InvalidPublicKey | DuplicatePublicKey
    | UnknownDevice | DeviceAlreadyRevoked | DeviceNotActive | SameKeyId | SamePublicKey
    | DeviceRevoked | SubjectMismatch | KeyIdMismatch
    | DuplicateToken | InvalidCap | UnknownToken | TokenNotSpendable
    | UnknownRequest | UnknownTransaction | DuplicateTransaction | InvalidAmount
    | ExceedsCap | ExceedsDailyCap | InvalidTransition
    | InvalidTtl | InvalidBinding | UnknownChallenge | ChallengeTerminal | BindingMismatch
    | ChallengeExpired | InvalidSignature | CancelledBeforeIssuance
    | InvalidSnapshot

  datatype Outcome = Done | Threw(error: Error)

  /** What validateBinding demands beyond well-formed strings and timestamps. */
  predicate ValidBinding(b: Binding) {
    && b.expiresAt > b.issuedAt
    && (b.purpose == ConfirmTransaction <==> b.payment.Some?)
    && (b.payment.Some? ==> 0 < b.payment.value.amountMinor <= MAX_SAFE_INTEGER)
  }

  function CreateChallenge(
    records: Records, purpose: Purpose, challengeId: Id, subjectId: Id, accountId: Id, tokenId: Id, deviceId: Id,
    payment: Option<Payment>, ttlMs: int, now: Time): (Records, Binding)
  {
    var b := Binding(purpose, challengeId, subjectId, accountId, tokenId, deviceId, payment, now, now + ttlMs);
    (records[challengeId := Challenge(b, Created, None)], b)
  }

  /** `consume` changes the store even when it throws: a late approval marks the challenge expired. */
  function ConsumeStep(c: Crypto, records: Records, approval: Approval, publicKey: string, now: Time): (Records, Outcome) {
    var id := approval.binding.challengeId;
    if id !in records then (records, Threw(UnknownChallenge))
    else
      var record := records[id];
      if record.status != Created then (records, Threw(ChallengeTerminal))
      else if !ValidBinding(record.binding) || !ValidBinding(approval.binding) then (records, Threw(InvalidBinding))
      else if record.binding != approval.binding then (records, Threw(BindingMismatch))
      else if now >= record.binding.expiresAt then
        (records[id := record.(status := Expired)], Threw(ChallengeExpired))
      else if !c.verify(approval, publicKey) then (records, Threw(InvalidSignature))
      else (records[id := record.(status := Confirmed, consumedAt := Some(now))], Done)
  }

  function CancelStep(records: Records, id: Id, now: Time): (Records, Outcome) {
    if id !in records then (records, Threw(UnknownChallenge))
    else if records[id].status != Created then (records, Threw(ChallengeTerminal))
    else if now < records[id].binding.issuedAt then (records, Threw(CancelledBeforeIssuance))
    else (records[id := records[id].(status := Cancelled, consumedAt := Some(now))], Done)
  }

  /** What one call may do to the records: add some, and move some from created to a terminal status. */
  ghost predicate Advances(before: Records, after: Records) {
    forall id <- before :: id in after && RecordAdvances(before[id], after[id])
  }

  ghost predicate RecordAdvances(before: Challenge, after: Challenge) {
    after.binding == before.binding && (after != before ==> before.status == Created && after.status != Created)
  }

  /** One call at `now` issues challenges at `now` and consumes challenges at `now`. */
  ghost predicate Stamped(before: Records, after: Records, now: Time) {
    forall id <- after ::
      if id in before then
        after[id].binding == before[id].binding
        && (after[id].consumedAt == before[id].consumedAt || after[id].consumedAt == Some(now))
      else after[id].binding.issuedAt == now && after[id].consumedAt.None?
  }

  /** The part of the invariant that speaks of one record. */
  predicate RecordOk(id: Id, r: Challenge) {
    && r.binding.challengeId == id
    && ValidBinding(r.binding)
    && (r.consumedAt.Some? <==> r.status in {Confirmed, Cancelled})
    && (r.status == Cancelled ==> r.binding.issuedAt <= r.consumedAt.value)
    && (r.status == Confirmed ==> r.consumedAt.value < r.binding.expiresAt)
  }

  ghost predicate RecordsOk(records: Records) {
    forall id <- records :: RecordOk(id, records[id])
  }

  lemma ConsumeMoves(c: Crypto, records: Records, approval: Approval, publicKey: string, now: Time)
    ensures Advances(records, ConsumeStep(c, records, approval, publicKey, now).0)
    ensures Stamped(records, ConsumeStep(c, records, approval, publicKey, now).0, now)
  {
  }

  lemma CancelMoves(records: Records, id: Id, now: Time)
    ensures Advances(records, CancelStep(records, id, now).0)
    ensures Stamped(records, CancelStep(records, id, now).0, now)
  {
  }

  lemma ConsumeAdvances(c: Crypto, records: Records, approval: Approval, publicKey: string, now: Time)
    requires RecordsOk(records)
    ensures var (after, outcome) := ConsumeStep(c, records, approval, publicKey, now);
            && RecordsOk(after) && Advances(records, after) && after.Keys == records.Keys
            && (outcome == Done ==>
                  var id := approval.binding.challengeId;
                  && id in records && records[id].status == Created && records[id].binding == approval.binding
                  && now < approval.binding.expiresAt && c.verify(approval, publicKey)
                  && after == records[id := Challenge(approval.binding, Confirmed, Some(now))])
  {
  }

  lemma CancelAdvances(records: Records, id: Id, now: Time)
    requires RecordsOk(records)
    ensures var (after, outcome) := CancelStep(records, id, now);
            && RecordsOk(after) && Advances(records, after) && after.Keys == records.Keys
            && (outcome.Threw? ==> after == records)
  {
  }

  class ChallengeStore {
    var records: Records

    constructor (records: Records)
      ensures this.records == records
    {
      this.records := records;
    }

    /** The source draws `challengeId` at random. */
    method Create(
      purpose: Purpose, challengeId: Id, subjectId: Id, accountId: Id, tokenId: Id, deviceId: Id,
      payment: Option<Payment>, ttlMs: int, now: Time) returns (r: Result<Binding, Error>)
      modifies this
      ensures if 1_000 <= ttlMs <= 300_000 then
                var (after, b) := CreateChallenge(
                  old(records), purpose, challengeId, subjectId, accountId, tokenId, deviceId, payment, ttlMs, now);
                records == after && r == Ok(b)
              else records == old(records) && r == Err(InvalidTtl)
    {
      if !SafeInteger(ttlMs) || ttlMs < 1_000 || ttlMs > 300_000 {
        return Err(InvalidTtl);
      }
      var binding := Binding(purpose, challengeId, subjectId, accountId, tokenId, deviceId, payment, now, now + ttlMs);
      records := records[challengeId := Challenge(binding, Created, None)];
      return Ok(binding);
    }

    method Consume(c: Crypto, approval: Approval, publicKey: string, now: Time) returns (outcome: Outcome)
      modifies this
      ensures (records, outcome) == ConsumeStep(c, old(records), approval, publicKey, now)
    {
      var id := approval.binding.challengeId;
      if id !in records { return Threw(UnknownChallenge); }
      var record := records[id];
      if record.status != Created { return Threw(ChallengeTerminal); }
      if !ValidBinding(record.binding) || !ValidBinding(approval.binding) { return Threw(InvalidBinding); }
      if record.binding != approval.binding { return Threw(BindingMismatch); }
      if now >= record.binding.expiresAt {
        records := records[id := record.(status := Expired)];
        return Threw(ChallengeExpired);
      }
      if !c.verify(approval, publicKey) { return Threw(InvalidSignature); }
      records := records[id := record.(status := Confirmed, consumedAt := Some(now))];
      return Done;
    }

    method Cancel(id: Id, now: Time) returns (outcome: Outcome)
      modifies this
      ensures (records, outcome) == CancelStep(old(records), id, now)
    {
      if id !in records { return Threw(UnknownChallenge); }
      var record := records[id];
      if record.status != Created { return Threw(ChallengeTerminal); }
      if now < record.binding.issuedAt { return Threw(CancelledBeforeIssuance); }
      records := records[id := record.(status := Cancelled, consumedAt := Some(now))];
      return Done;
    }
  }
}
