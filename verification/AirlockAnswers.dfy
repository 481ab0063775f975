/** What each call of the airlock engine answers, in every state that satisfies the relation: exactly when
    it succeeds, and what it then leaves. */
module AirlockAnswers {
  import opened Common
  import opened Wrappers
  import opened Transitions
  import opened Challenges
  import opened Airlock
  import opened AirlockInvariant
  import opened AirlockCalls
  import AirlockInvalidation
  import opened AirlockRuns
  import opened AirlockTheorems
  import opened AirlockStuck

  predicate IsActive(s: State, d: Id) { d in s.devices && s.devices[d].status == Active }

  /** Two states that differ at most in these parts; the audit is the subject of AirlockHistory. */
  predicate OnlyDevices(s: State, s': State) {
    && s'.challenges == s.challenges && s'.tokens == s.tokens && s'.provisioning == s.provisioning
    && s'.transactions == s.transactions && s'.dailySpend == s.dailySpend
  }

  // ---------- devices ----------

  /** An enrolment succeeds exactly for an unused device id, a valid unused key id and an accepted key that
      no device has, and adds that device, active. */
  lemma EnrollIff(c: Crypto, s: State, subjectId: Id, keyId: Id, publicKey: string, d: Id, now: Time)
    ensures var (s', outcome) := Step(c, s, EnrollTrustedDevice(subjectId, keyId, publicKey, d), now);
            && (outcome == Done <==>
                  && d !in s.devices && c.validKeyId(keyId) && c.fingerprint(publicKey).Some?
                  && (forall e <- s.devices :: s.devices[e].keyId != keyId)
                  && (forall e <- s.devices :: c.fingerprint(s.devices[e].publicKey) != c.fingerprint(publicKey)))
            && (outcome.Threw? ==> s' == s)
            && (outcome == Done ==>
                  OnlyDevices(s, s') && s'.devices == s.devices[d := Device(d, subjectId, keyId, publicKey, Active)])
  {
    hide Revoke, MarkCompromised, Rotate, Provision, Approve, AuthorizeStep, Confirm, Expire, Clear;
  }

  /** No pending aggregate of the device has an open challenge issued later than now. */
  ghost predicate NoneFromTheFuture(s: State, d: Id, now: Time) {
    && (forall r <- s.provisioning :: Pending(s, OfRequest(r), d) ==> Issued(s, OfRequest(r), now))
    && (forall t <- s.transactions :: Pending(s, OfTransaction(t), d) ==> Issued(s, OfTransaction(t), now))
  }

  predicate Pending(s: State, a: Aggregate, d: Id) { Waiting(s, a) && DeviceAt(s, a) == d }

  predicate Issued(s: State, a: Aggregate, now: Time)
    requires Known(s, a)
  {
    var id := ChallengeAt(s, a);
    id in s.challenges && s.challenges[id].status == Created ==> s.challenges[id].binding.issuedAt <= now
  }

  lemma TooEarlyIff(s: State, d: Id, now: Time)
    ensures TooEarly(s, d, now) <==> !NoneFromTheFuture(s, d, now)
  {
    if TooEarly(s, d, now) {
      var id :| id in s.challenges && s.challenges[id].status == Created && now < s.challenges[id].binding.issuedAt
                && id in ChallengeOf(s, PendingRequests(s, d), PendingTransactions(s, d));
      ChallengeOwner(s, d, id, now);
    }
    if r :| r in s.provisioning && Pending(s, OfRequest(r), d) && !Issued(s, OfRequest(r), now) {
      PendingChallenge(s, d, OfRequest(r));
    }
    if t :| t in s.transactions && Pending(s, OfTransaction(t), d) && !Issued(s, OfTransaction(t), now) {
      PendingChallenge(s, d, OfTransaction(t));
    }
  }

  lemma PendingChallenge(s: State, d: Id, a: Aggregate)
    requires Pending(s, a, d)
    ensures ChallengeAt(s, a) in ChallengeOf(s, PendingRequests(s, d), PendingTransactions(s, d))
  {
    match a {
      case OfRequest(r) => assert r in PendingRequests(s, d);
      case OfTransaction(t) => assert t in PendingTransactions(s, d);
    }
  }

  lemma ChallengeOwner(s: State, d: Id, id: Id, now: Time)
    requires id in s.challenges && s.challenges[id].status == Created && now < s.challenges[id].binding.issuedAt
    requires id in ChallengeOf(s, PendingRequests(s, d), PendingTransactions(s, d))
    ensures !NoneFromTheFuture(s, d, now)
  {
    if r :| r in s.provisioning && r in PendingRequests(s, d) && s.provisioning[r].challenge.challengeId == id {
      assert Pending(s, OfRequest(r), d) && !Issued(s, OfRequest(r), now);
    } else {
      var t :| t in s.transactions && t in PendingTransactions(s, d) && s.transactions[t].challenge.challengeId == id;
      assert Pending(s, OfTransaction(t), d) && !Issued(s, OfTransaction(t), now);
    }
  }

  lemma InvalidateIff(s: State, d: Id, now: Time)
    ensures Invalidate(s, d, now).1 == Done <==> NoneFromTheFuture(s, d, now)
    ensures Invalidate(s, d, now).1 == Done ==> Invalidate(s, d, now).0.devices == s.devices
  {
    InvalidateFrame(s, d, now);
    TooEarlyIff(s, d, now);
    hide TooEarly, NoneFromTheFuture, Reconciled;
  }

  /** Revoking succeeds exactly for a device not yet revoked, marking compromised likewise, both only when
      none of its open challenges comes from the future; the device is then revoked and otherwise as it was. */
  lemma RevokeIff(c: Crypto, s: State, d: Id, now: Time)
    ensures forall call <- {RevokeTrustedDevice(d), MarkTrustedDeviceCompromised(d)} ::
              var (s', outcome) := Step(c, s, call, now);
              && (outcome == Done <==> IsActive(s, d) && NoneFromTheFuture(s, d, now))
              && (outcome.Threw? ==> s' == s)
              && (outcome == Done ==> s'.devices == s.devices[d := s.devices[d].(status := Revoked)])
  {
    hide Invalidate, NoneFromTheFuture, Enroll, Rotate, Provision, Approve, AuthorizeStep, Confirm, Expire, Clear;
    InvalidateIff(s, d, now);
  }

  /** Rotating succeeds exactly for an active device with another valid key id and another accepted key, both
      unused by other devices; the device then has the new key and is otherwise as it was. */
  lemma RotateIff(c: Crypto, s: State, d: Id, keyId: Id, publicKey: string, now: Time)
    ensures var (s', outcome) := Step(c, s, RotateTrustedDeviceKey(d, keyId, publicKey), now);
            && (outcome == Done <==>
                  && IsActive(s, d) && c.validKeyId(keyId) && c.fingerprint(publicKey).Some?
                  && (forall e <- s.devices :: s.devices[e].keyId != keyId)
                  && (forall e <- s.devices :: c.fingerprint(s.devices[e].publicKey) != c.fingerprint(publicKey))
                  && NoneFromTheFuture(s, d, now))
            && (outcome.Threw? ==> s' == s)
            && (outcome == Done ==> s'.devices == s.devices[d := s.devices[d].(keyId := keyId, publicKey := publicKey)])
  {
    hide Invalidate, NoneFromTheFuture, Enroll, Revoke, MarkCompromised, Provision, Approve, AuthorizeStep, Confirm, Expire, Clear;
    InvalidateIff(s, d, now);
  }

  /** A pending aggregate of the device whose challenge is not confirmed. */
  predicate Declines(s: State, a: Aggregate, d: Id) {
    Pending(s, a, d) && ChallengeAt(s, a) in s.challenges && s.challenges[ChallengeAt(s, a)].status != Confirmed
  }

  /** The challenge of a pending aggregate of the device. */
  ghost predicate Outstanding(s: State, d: Id, id: Id) {
    || (exists r :: r in s.provisioning && Pending(s, OfRequest(r), d) && ChallengeAt(s, OfRequest(r)) == id)
    || (exists t :: t in s.transactions && Pending(s, OfTransaction(t), d) && ChallengeAt(s, OfTransaction(t)) == id)
  }

  /** The pending requests and transactions of the device whose challenge is not confirmed are declined. */
  ghost predicate DeclinesAggregates(s: State, s': State, d: Id) {
    && s'.provisioning == (map r | r in s.provisioning ::
         if Declines(s, OfRequest(r), d) then s.provisioning[r].(state := ProvDeclined) else s.provisioning[r])
    && s'.transactions == (map t | t in s.transactions ::
         if Declines(s, OfTransaction(t), d) then s.transactions[t].(state := TxDeclined, capReservation := None) else s.transactions[t])
  }

  /** And so are the tokens of those requests, and no others. */
  ghost predicate DeclinesTokens(s: State, s': State, d: Id) {
    && s'.tokens.Keys == s.tokens.Keys
    && (forall r <- s.provisioning :: Declines(s, OfRequest(r), d) ==>
          && s.provisioning[r].tokenId in s.tokens
          && s'.tokens[s.provisioning[r].tokenId] == s.tokens[s.provisioning[r].tokenId].(state := TokenDeclined))
    && forall k <- s.tokens ::
         (forall r <- s.provisioning :: Declines(s, OfRequest(r), d) ==> s.provisioning[r].tokenId != k) ==> s'.tokens[k] == s.tokens[k]
  }

  /** Their open challenges are cancelled now, and no others. */
  ghost predicate CancelsOutstanding(s: State, s': State, d: Id, now: Time) {
    && s'.challenges.Keys == s.challenges.Keys
    && forall id <- s.challenges :: s'.challenges[id] ==
         if s.challenges[id].status == Created && Outstanding(s, d, id) then Challenge(s.challenges[id].binding, Cancelled, Some(now))
         else s.challenges[id]
  }

  /** Revoking, marking compromised and rotating decline exactly the device's pending requests and transactions
      whose challenge no foreign approval has confirmed.  Requests take their tokens with them, transactions
      lose their reservations, and the open challenges are cancelled. */
  lemma LockdownDeclines(c: Crypto, s: State, call: Call, now: Time)
    requires Inv(c, s) && DeviceOf(call).Some? && Step(c, s, call, now).1 == Done
    ensures var s', d := Step(c, s, call, now).0, DeviceOf(call).value;
            && DeclinesAggregates(s, s', d) && DeclinesTokens(s, s', d) && CancelsOutstanding(s, s', d, now)
            && forall key :: SpendAt(s'.dailySpend, key) == Held(s'.transactions, key)
  {
    hide Step, RequestsOk, TransactionsOk, DevicesOk, RecordsOk, TokensOk, Owned, TooEarly, Held, EntryOk, Reconciled, Declines, Outstanding,
         DeclinesAggregates, DeclinesTokens, CancelsOutstanding;
    var d := DeviceOf(call).value;
    DeviceCallIsInvalidation(c, s, call, now);
    AirlockInvalidation.StepKeepsInv(c, s, call, now);
    var i, s' := Invalidate(s, d, now).0, Step(c, s, call, now).0;
    InvalidateDeclines(s, d, now);
    InvalidateDeclinesTokens(c, s, d, now);
    InvalidateCancels(s, d, now);
    SameRecords(s, i, s', d, now);
  }

  lemma SameRecords(s: State, i: State, s': State, d: Id, now: Time)
    requires s' == i.(devices := s'.devices, audit := s'.audit)
    requires DeclinesAggregates(s, i, d) && DeclinesTokens(s, i, d) && CancelsOutstanding(s, i, d, now)
    ensures DeclinesAggregates(s, s', d) && DeclinesTokens(s, s', d) && CancelsOutstanding(s, s', d, now)
  {
    hide Declines, Outstanding;
  }

  lemma InvalidateDeclines(s: State, d: Id, now: Time)
    requires !TooEarly(s, d, now)
    ensures DeclinesAggregates(s, Invalidate(s, d, now).0, d)
  {
    hide TooEarly, Reduced, ChallengeOf, CancelledIn, DeclineTokens;
    forall r | r in s.provisioning ensures r in ReconcilableRequests(s, d) <==> Declines(s, OfRequest(r), d) {}
    forall t | t in s.transactions ensures t in ReconcilableTransactions(s, d) <==> Declines(s, OfTransaction(t), d) {}
    hide ReconcilableRequests, ReconcilableTransactions, Declines;
  }

  lemma InvalidateDeclinesTokens(c: Crypto, s: State, d: Id, now: Time)
    requires Inv(c, s) && !TooEarly(s, d, now)
    ensures DeclinesTokens(s, Invalidate(s, d, now).0, d)
  {
    hide RequestsOk, TransactionsOk, DevicesOk, RecordsOk, TokensOk, Owned, LedgerOk, TooEarly, Reduced, ChallengeOf, CancelledIn,
         DeclineRequests, DeclineTransactions;
    forall r | r in s.provisioning
      ensures r in ReconcilableRequests(s, d) <==> Declines(s, OfRequest(r), d)
      ensures Declines(s, OfRequest(r), d) ==>
                s.provisioning[r].tokenId in s.tokens && s.tokens[s.provisioning[r].tokenId].state == TokenPending
    {
      RequestAt(s, r);
    }
    hide ReconcilableRequests, ReconcilableTransactions, Declines;
  }

  lemma InvalidateCancels(s: State, d: Id, now: Time)
    requires !TooEarly(s, d, now)
    ensures CancelsOutstanding(s, Invalidate(s, d, now).0, d, now)
  {
    hide TooEarly, Reduced, ChallengeOf, Outstanding, DeclineTokens, DeclineRequests, DeclineTransactions;
    forall id | id in s.challenges && s.challenges[id].status == Created
      ensures Outstanding(s, d, id) <==> id in ChallengeOf(s, ReconcilableRequests(s, d), ReconcilableTransactions(s, d))
    {
      OutstandingIff(s, d, id);
    }
  }

  lemma OutstandingIff(s: State, d: Id, id: Id)
    requires id in s.challenges && s.challenges[id].status == Created
    ensures Outstanding(s, d, id) <==> id in ChallengeOf(s, ReconcilableRequests(s, d), ReconcilableTransactions(s, d))
  {
    if r :| r in s.provisioning && Pending(s, OfRequest(r), d) && ChallengeAt(s, OfRequest(r)) == id {
      assert r in ReconcilableRequests(s, d);
    }
    if t :| t in s.transactions && Pending(s, OfTransaction(t), d) && ChallengeAt(s, OfTransaction(t)) == id {
      assert t in ReconcilableTransactions(s, d);
    }
    if id in ChallengeOf(s, ReconcilableRequests(s, d), ReconcilableTransactions(s, d)) {
      if r :| r in s.provisioning && r in ReconcilableRequests(s, d) && s.provisioning[r].challenge.challengeId == id {
        assert Pending(s, OfRequest(r), d);
      } else {
        var t :| t in s.transactions && t in ReconcilableTransactions(s, d) && s.transactions[t].challenge.challengeId == id;
        assert Pending(s, OfTransaction(t), d);
      }
    }
  }

  // ---------- provisioning ----------

  /** A request succeeds exactly for a new token, a cap within the bound and an active device of the subject.
      It adds a pending token with that cap and twice it a day, and a request waiting for a two-minute
      challenge bound to subject, account, token and device. */
  lemma ProvisionIff(c: Crypto, s: State, subjectId: Id, accountId: Id, tokenId: Id, d: Id, cap: int, r: Id, cid: Id, now: Time)
    ensures var (s', outcome) := Step(c, s, RequestProvisioning(subjectId, accountId, tokenId, d, cap, r, cid), now);
            && (outcome == Done <==>
                  tokenId !in s.tokens && 0 < cap <= 4_503_599_627_370_495 && IsActive(s, d) && s.devices[d].subjectId == subjectId)
            && (outcome.Threw? ==> s' == s)
            && (outcome == Done ==>
                  var b := Binding(ProvisionPaymentToken, cid, subjectId, accountId, tokenId, d, None, now, now + 120_000);
                  && s'.devices == s.devices && s'.transactions == s.transactions && s'.dailySpend == s.dailySpend
                  && s'.tokens == s.tokens[tokenId := Token(tokenId, subjectId, accountId, TokenPending, Some(Caps(cap, 2 * cap)))]
                  && s'.provisioning == s.provisioning[r := Request(r, tokenId, d, ProvTrustedDeviceChallenge, b)]
                  && s'.challenges == s.challenges[cid := Challenge(b, Created, None)])
  {
    hide Enroll, Revoke, MarkCompromised, Rotate, Approve, AuthorizeStep, Confirm, Expire, Clear;
  }

  /** All an approval needs of its challenge: still open, bound as approved, in time, and signed with the
      device's own key. */
  predicate Approves(c: Crypto, s: State, d: Id, approval: Approval, now: Time) {
    var id := approval.binding.challengeId;
    && IsActive(s, d) && approval.keyId == s.devices[d].keyId
    && id in s.challenges && s.challenges[id].status == Created && s.challenges[id].binding == approval.binding
    && now < approval.binding.expiresAt && c.verify(approval, s.devices[d].publicKey)
  }

  lemma ConsumeIff(c: Crypto, records: Records, approval: Approval, publicKey: string, now: Time)
    requires RecordsOk(records)
    ensures var id := approval.binding.challengeId;
            var (after, outcome) := ConsumeStep(c, records, approval, publicKey, now);
            && (outcome == Done <==>
                  && id in records && records[id].status == Created && records[id].binding == approval.binding
                  && now < approval.binding.expiresAt && c.verify(approval, publicKey))
            && (outcome == Done ==> after == records[id := Challenge(approval.binding, Confirmed, Some(now))])
  {
  }

  /** Approving succeeds exactly when a waiting request's active device approves an open challenge in time.
      The challenge is then confirmed now; the request and its token take the activation asked for, a capped
      token keeping its caps and a full one losing them. */
  lemma ApproveIff(c: Crypto, s: State, r: Id, approval: Approval, activation: Activation, now: Time)
    requires Inv(c, s)
    ensures var (s', outcome) := Step(c, s, ApproveProvisioning(r, approval, activation), now);
            && (outcome == Done <==>
                  && r in s.provisioning && s.provisioning[r].state == ProvTrustedDeviceChallenge
                  && Approves(c, s, s.provisioning[r].deviceId, approval, now))
            && (outcome == Done ==>
                  var token := s.provisioning[r].tokenId;
                  && token in s.tokens
                  && s'.devices == s.devices && s'.transactions == s.transactions && s'.dailySpend == s.dailySpend
                  && s'.challenges == s.challenges[approval.binding.challengeId := Challenge(approval.binding, Confirmed, Some(now))]
                  && (activation == Capped ==>
                        && s'.provisioning == s.provisioning[r := s.provisioning[r].(state := ProvTokenActiveCapped)]
                        && s'.tokens == s.tokens[token := s.tokens[token].(state := TokenActiveCapped)] && s'.tokens[token].caps.Some?)
                  && (activation == Full ==>
                        && s'.provisioning == s.provisioning[r := s.provisioning[r].(state := ProvTokenActiveFull)]
                        && s'.tokens == s.tokens[token := s.tokens[token].(state := TokenActiveFull, caps := None)]))
  {
    hide ConsumeStep, RequestsOk, TransactionsOk, LedgerOk, DevicesOk, RecordsOk, TokensOk, Owned,
         Enroll, Revoke, MarkCompromised, Rotate, Provision, AuthorizeStep, Confirm, Expire, Clear;
    if r in s.provisioning {
      RequestAt(s, r);
      TokenAt(s.tokens, s.provisioning[r].tokenId);
      if s.provisioning[r].deviceId in s.devices {
        ConsumeIff(c, s.challenges, approval, s.devices[s.provisioning[r].deviceId].publicKey, now);
      }
    }
  }

  // ---------- transactions ----------

  /** An authorization under an unused id succeeds exactly when the amount is a positive safe integer, the
      token is active, the device is active and of the token's subject, and a capped token satisfies both
      its caps.  It reserves the amount on the token's day if it is capped, and leaves a transaction waiting
      for a thirty-second challenge bound to all of it. */
  lemma AuthorizeIff(
    c: Crypto, s: State, t: Id, tokenId: Id, merchantId: Id, amount: int, strategy: Strategy, d: Id, cid: Id, now: Time)
    requires Inv(c, s)
    ensures var (s', outcome) := Step(c, s, Authorize(t, tokenId, merchantId, amount, strategy, d, cid), now);
            var key := SpendKey(tokenId, now / 86_400_000);
            && (outcome == Done <==>
                  && t !in s.transactions && 0 < amount <= MAX_SAFE_INTEGER
                  && tokenId in s.tokens && s.tokens[tokenId].state in {TokenActiveCapped, TokenActiveFull}
                  && IsActive(s, d) && s.devices[d].subjectId == s.tokens[tokenId].subjectId
                  && (s.tokens[tokenId].state == TokenActiveCapped ==>
                        s.tokens[tokenId].caps.Some? && Admits(Exact, s.tokens[tokenId].caps.value, SpendAt(s.dailySpend, key), amount)))
            && (outcome.Threw? ==> s' == s)
            && (outcome == Done ==>
                  var token := s.tokens[tokenId];
                  var b := Binding(ConfirmTransaction, cid, token.subjectId, token.accountId, tokenId, d,
                                   Some(Payment(t, merchantId, amount, USD)), now, now + 30_000);
                  var capped := token.state == TokenActiveCapped;
                  && s'.devices == s.devices && s'.tokens == s.tokens && s'.provisioning == s.provisioning
                  && s'.challenges == s.challenges[cid := Challenge(b, Created, None)]
                  && s'.transactions == s.transactions[t := Transaction(
                       t, tokenId, merchantId, amount, USD, TxConfirmationPending, strategy, b,
                       if capped then Some(Reservation(key, amount)) else None)]
                  && s'.dailySpend
                     == if capped then s.dailySpend[key := SpendAt(s.dailySpend, key) + amount] else s.dailySpend)
  {
    hide RequestsOk, TransactionsOk, LedgerOk, DevicesOk, RecordsOk, TokensOk, Owned,
         Enroll, Revoke, MarkCompromised, Rotate, Provision, Approve, Confirm, Expire, Clear;
    if tokenId in s.tokens { TokenAt(s.tokens, tokenId); }
  }

  /** In every state of every run a payment of a token with caps is within its cap per transaction. */
  lemma PerTransactionCapHolds(c: Crypto, events: seq<Event>, t: Id)
    requires Legal(c, events)
    ensures var s := After(c, events);
            t in s.transactions ==>
              && s.transactions[t].tokenId in s.tokens
              && (s.tokens[s.transactions[t].tokenId].state == TokenActiveCapped ==>
                    s.tokens[s.transactions[t].tokenId].caps.Some?
                    && s.transactions[t].amountMinor <= s.tokens[s.transactions[t].tokenId].caps.value.perTransactionMinor)
  {
    ReachableInv(c, events);
    hide RequestsOk, LedgerOk, DevicesOk, RecordsOk, TokensOk, Owned, After;
    if t in After(c, events).transactions { TransactionAt(After(c, events), t); }
  }

  /** Confirming succeeds exactly when the pending transaction's active device approves an open challenge in
      time; the challenge is then confirmed now and the transaction confirmed, and nothing else changes. */
  lemma ConfirmIff(c: Crypto, s: State, t: Id, approval: Approval, now: Time)
    requires Inv(c, s)
    ensures var (s', outcome) := Step(c, s, ConfirmTransactionCall(t, approval), now);
            && (outcome == Done <==>
                  && t in s.transactions && s.transactions[t].state == TxConfirmationPending
                  && Approves(c, s, s.transactions[t].challenge.deviceId, approval, now))
            && (outcome == Done ==>
                  && s'.devices == s.devices && s'.tokens == s.tokens && s'.provisioning == s.provisioning
                  && s'.dailySpend == s.dailySpend
                  && s'.challenges == s.challenges[approval.binding.challengeId := Challenge(approval.binding, Confirmed, Some(now))]
                  && s'.transactions == s.transactions[t := s.transactions[t].(state := TxConfirmed)])
  {
    hide ConsumeStep, RequestsOk, TransactionsOk, LedgerOk, DevicesOk, RecordsOk, TokensOk, Owned,
         Enroll, Revoke, MarkCompromised, Rotate, Provision, Approve, AuthorizeStep, Expire, Clear;
    if t in s.transactions {
      TransactionAt(s, t);
      if s.transactions[t].challenge.deviceId in s.devices {
        ConsumeIff(c, s.challenges, approval, s.devices[s.transactions[t].challenge.deviceId].publicKey, now);
      }
    }
  }

  /** The request or transaction an approval is given for, and its device. */
  function ApprovedBy(s: State, call: Call): Option<(Aggregate, Approval)> {
    match call
    case ApproveProvisioning(r, approval, _) => if r in s.provisioning then Some((OfRequest(r), approval)) else None
    case ConfirmTransactionCall(t, approval) => if t in s.transactions then Some((OfTransaction(t), approval)) else None
    case _ => None
  }

  /** The approval names an open challenge with exactly its binding, and comes from the aggregate's active device. */
  predicate Reaches(s: State, d: Id, approval: Approval) {
    var id := approval.binding.challengeId;
    && IsActive(s, d) && approval.keyId == s.devices[d].keyId
    && id in s.challenges && s.challenges[id].status == Created && s.challenges[id].binding == approval.binding
  }

  /** A throwing approval writes exactly in two cases: one that is late marks the challenge it names expired, and
      a proper one for an aggregate that is not waiting still confirms that challenge. */
  lemma ThrownApprovalLeaves(c: Crypto, s: State, call: Call, now: Time)
    requires Inv(c, s) && (call.ApproveProvisioning? || call.ConfirmTransactionCall?) && Step(c, s, call, now).1.Threw?
    ensures Step(c, s, call, now).0 ==
              match ApprovedBy(s, call)
              case None => s
              case Some((a, approval)) =>
                var id, d := approval.binding.challengeId, DeviceAt(s, a);
                if !Reaches(s, d, approval) then s
                else if now >= approval.binding.expiresAt then s.(challenges := s.challenges[id := s.challenges[id].(status := Expired)])
                else if c.verify(approval, s.devices[d].publicKey) then
                  s.(challenges := s.challenges[id := Challenge(approval.binding, Confirmed, Some(now))])
                else s
    ensures Step(c, s, call, now).0.challenges.Keys == s.challenges.Keys
  {
    hide RequestsOk, TransactionsOk, LedgerOk, DevicesOk, RecordsOk, TokensOk, Owned, ConsumeStep,
         Enroll, Revoke, MarkCompromised, Rotate, Provision, AuthorizeStep, Expire, Clear;
    if ApprovedBy(s, call).Some? {
      var (a, approval) := ApprovedBy(s, call).value;
      match a {
        case OfRequest(r) => RequestAt(s, r);
        case OfTransaction(t) => TransactionAt(s, t);
      }
      if DeviceAt(s, a) in s.devices { ConsumeLeaves(c, s.challenges, approval, s.devices[DeviceAt(s, a)].publicKey, now); }
    }
  }

  lemma ConsumeLeaves(c: Crypto, records: Records, approval: Approval, publicKey: string, now: Time)
    requires RecordsOk(records)
    ensures var id := approval.binding.challengeId;
            ConsumeStep(c, records, approval, publicKey, now).0 ==
              if !(id in records && records[id].status == Created && records[id].binding == approval.binding) then records
              else if now >= approval.binding.expiresAt then records[id := records[id].(status := Expired)]
              else if c.verify(approval, publicKey) then records[id := Challenge(approval.binding, Confirmed, Some(now))]
              else records
  {
  }

  /** Expiring succeeds exactly for a pending transaction whose challenge is open and was issued by now; the
      challenge is cancelled, the transaction reversed and what it reserved taken off the ledger. */
  lemma ExpireIff(c: Crypto, s: State, t: Id, now: Time)
    requires Inv(c, s) && Lifecycle(s)
    ensures var (s', outcome) := Step(c, s, ExpireAndReverse(t), now);
            && (outcome == Done <==>
                  && t in s.transactions && s.transactions[t].state == TxConfirmationPending
                  && !Stuck(s, OfTransaction(t)) && s.transactions[t].challenge.issuedAt <= now)
            && (outcome.Threw? ==> s' == s)
            && (outcome == Done ==>
                  var was := s.transactions[t];
                  && s'.devices == s.devices && s'.tokens == s.tokens && s'.provisioning == s.provisioning
                  && s'.challenges == s.challenges[was.challenge.challengeId := Challenge(was.challenge, Cancelled, Some(now))]
                  && s'.transactions == s.transactions[t := was.(state := TxReversed, capReservation := None)]
                  && forall key :: SpendAt(s'.dailySpend, key)
                       == SpendAt(s.dailySpend, key)
                          - (if was.capReservation.Some? && was.capReservation.value.key == key then was.amountMinor else 0))
  {
    hide RequestsOk, TransactionsOk, LedgerOk, DevicesOk, RecordsOk, TokensOk, Owned, Lifecycle, CancelStep, ReleaseFrom,
         Enroll, Revoke, MarkCompromised, Rotate, Provision, Approve, AuthorizeStep, Confirm, Clear;
    if t in s.transactions {
      TransactionAt(s, t);
      LifecycleOfTransaction(s, t);
      CancelIff(s.challenges, s.transactions[t].challenge.challengeId, now);
      ReleaseIs(c, s, t);
    }
  }

  lemma CancelIff(records: Records, id: Id, now: Time)
    ensures var (after, outcome) := CancelStep(records, id, now);
            && (outcome == Done <==> id in records && records[id].status == Created && records[id].binding.issuedAt <= now)
            && (outcome.Threw? ==> after == records)
            && (outcome == Done ==> after == records[id := Challenge(records[id].binding, Cancelled, Some(now))])
  {
  }

  lemma ReleaseIs(c: Crypto, s: State, t: Id)
    requires Inv(c, s) && t in s.transactions
    ensures var was := s.transactions[t];
            forall key :: SpendAt(ReleaseFrom(s.dailySpend, was.capReservation), key)
              == SpendAt(s.dailySpend, key)
                 - (if was.capReservation.Some? && was.capReservation.value.key == key then was.amountMinor else 0)
  {
    hide RequestsOk, LedgerOk, DevicesOk, RecordsOk, TokensOk, Owned, TransactionsOk;
    TransactionAt(s, t);
    if s.transactions[t].capReservation.Some? { ReleaseIsCovered(s, t); }
  }

  /** Clearing succeeds exactly for a confirmed transaction, which settles, and for a reversed one, which
      becomes an exception; nothing else changes. */
  lemma ClearIff(c: Crypto, s: State, t: Id, now: Time)
    requires Inv(c, s)
    ensures var (s', outcome) := Step(c, s, ReceiveClearing(t), now);
            && (outcome == Done <==> t in s.transactions && s.transactions[t].state in {TxConfirmed, TxReversed})
            && (outcome.Threw? ==> s' == s)
            && (outcome == Done ==>
                  && s'.devices == s.devices && s'.tokens == s.tokens && s'.provisioning == s.provisioning
                  && s'.challenges == s.challenges && s'.dailySpend == s.dailySpend
                  && s'.transactions == s.transactions[t := s.transactions[t].(
                       state := if s.transactions[t].state == TxConfirmed then TxSettled else TxException)])
  {
    hide RequestsOk, TransactionsOk, LedgerOk, DevicesOk, RecordsOk, TokensOk, Owned,
         Enroll, Revoke, MarkCompromised, Rotate, Provision, Approve, AuthorizeStep, Confirm, Expire;
    if t in s.transactions { TransactionAt(s, t); }
  }
}
