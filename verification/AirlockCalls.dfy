/** Every call keeps the invariant of the airlock engine. */
module AirlockCalls {
  import opened Wrappers
  import opened Transitions
  import opened Challenges
  import opened MapSums
  import opened Airlock
  import opened AirlockInvariant

  // ---------- provisioning ----------

  lemma ProvisionKeepsInv(
    c: Crypto, s: State, subjectId: Id, accountId: Id, tokenId: Id, deviceId: Id, capMinor: int, requestId: Id,
    challengeId: Id, now: Time)
    requires Inv(c, s) && requestId !in s.provisioning && challengeId !in s.challenges
    ensures Inv(c, Provision(s, subjectId, accountId, tokenId, deviceId, capMinor, requestId, challengeId, now).0)
  {
    hide RequestsOk, TransactionsOk, LedgerOk, Owned, DevicesOk, RecordsOk, TokensOk, Advances;
    var (s', outcome) := Provision(s, subjectId, accountId, tokenId, deviceId, capMinor, requestId, challengeId, now);
    if outcome == Done {
      TokenUpdateOk(s.tokens, tokenId, s'.tokens[tokenId]);
      RecordAddOk(s.challenges, challengeId, s'.challenges[challengeId]);
      assert RequestOk(s', requestId, s'.provisioning[requestId]);
      hide RequestOk, RecordOk, TokenOk;
      assert Grows(s, s');
      AddedRequestOk(s, s', requestId);
      TransactionsFrame(s, s');
      assert OwnedByRequest(s', challengeId);
      OwnedFrame(s, s');
      LedgerFrame(s, s');
    }
  }

  lemma AddedRequestOk(s: State, s': State, requestId: Id)
    requires RequestsOk(s) && Grows(s, s') && requestId !in s.provisioning
    requires requestId in s'.provisioning && s'.provisioning == s.provisioning[requestId := s'.provisioning[requestId]]
    requires RequestOk(s', requestId, s'.provisioning[requestId])
    requires s'.provisioning[requestId].tokenId !in s.tokens
    requires forall k <- s.tokens :: k in s'.tokens && s'.tokens[k] == s.tokens[k]
    ensures RequestsOk(s')
  {
    forall id | id in s'.provisioning ensures RequestOk(s', id, s'.provisioning[id]) {
      if id != requestId {
        assert RequestOk(s, id, s.provisioning[id]);
        RequestFrame(s, s', id, s.provisioning[id]);
      }
    }
    assert forall id <- s.provisioning :: s.provisioning[id].tokenId in s.tokens;
  }

  lemma LedgerFrame(s: State, s': State)
    requires LedgerOk(s) && s'.transactions == s.transactions && s'.dailySpend == s.dailySpend
    requires forall k <- s.tokens :: k in s'.tokens && (Spendable(s.tokens[k]) ==> s'.tokens[k] == s.tokens[k])
    ensures LedgerOk(s')
  {
  }

  lemma ApproveKeepsInv(c: Crypto, s: State, requestId: Id, approval: Approval, activation: Activation, now: Time)
    requires Inv(c, s)
    ensures Inv(c, Approve(c, s, requestId, approval, activation, now).0)
  {
    hide RequestsOk, TransactionsOk, LedgerOk, Owned, DevicesOk, RecordsOk, TokensOk, Advances, ConsumeStep;
    if requestId in s.provisioning && s.provisioning[requestId].deviceId in s.devices {
      var request := s.provisioning[requestId];
      var publicKey := s.devices[request.deviceId].publicKey;
      var records := ConsumeStep(c, s.challenges, approval, publicKey, now).0;
      ConsumeAdvances(c, s.challenges, approval, publicKey, now);
      ChallengesAdvanceKeepsInv(c, s, records);
      var (s', outcome) := Approve(c, s, requestId, approval, activation, now);
      RequestAt(s, requestId);
      if outcome == Done {
        ActivateKeepsInv(c, s.(challenges := records), requestId, activation, s'.audit);
      }
    }
  }

  ghost function Activate(s: State, requestId: Id, activation: Activation, audit: seq<AuditEntry>): State
    requires requestId in s.provisioning && s.provisioning[requestId].tokenId in s.tokens
  {
    var request := s.provisioning[requestId];
    s.(provisioning := s.provisioning[requestId := request.(state := ActivatedRequest(activation))],
       tokens := s.tokens[request.tokenId := Activated(s.tokens[request.tokenId], activation)],
       audit := audit)
  }

  lemma ActivateKeepsInv(c: Crypto, s: State, requestId: Id, activation: Activation, audit: seq<AuditEntry>)
    requires Inv(c, s) && requestId in s.provisioning && s.provisioning[requestId].tokenId in s.tokens
    requires s.provisioning[requestId].state == ProvTrustedDeviceChallenge
    ensures Inv(c, Activate(s, requestId, activation, audit))
  {
    hide RequestsOk, TransactionsOk, LedgerOk, Owned, DevicesOk, RecordsOk, TokensOk, Advances;
    var s' := Activate(s, requestId, activation, audit);
    var tokenId := s.provisioning[requestId].tokenId;
    RequestAt(s, requestId);
    TokenAt(s.tokens, tokenId);
    TokenUpdateOk(s.tokens, tokenId, s'.tokens[tokenId]);
    assert RequestOk(s', requestId, s'.provisioning[requestId]);
    hide RequestOk, TokenOk;
    AdvancesReflexive(s.challenges);
    assert Grows(s, s');
    ChangedRequestOk(s, s', requestId);
    TransactionsFrame(s, s');
    OwnedFrame(s, s');
    LedgerFrame(s, s');
  }

  lemma ChangedRequestOk(s: State, s': State, requestId: Id)
    requires RequestsOk(s) && Grows(s, s') && requestId in s.provisioning && requestId in s'.provisioning
    requires s'.provisioning == s.provisioning[requestId := s'.provisioning[requestId]]
    requires RequestOk(s', requestId, s'.provisioning[requestId])
    requires s'.provisioning[requestId].tokenId == s.provisioning[requestId].tokenId
    requires forall k <- s.tokens :: k in s'.tokens
               && (k != s.provisioning[requestId].tokenId ==> s'.tokens[k] == s.tokens[k])
    ensures RequestsOk(s')
  {
    forall id | id in s'.provisioning ensures RequestOk(s', id, s'.provisioning[id]) {
      if id != requestId {
        assert RequestOk(s, id, s.provisioning[id]);
        assert s.provisioning[id].tokenId in s.tokens;
        RequestFrame(s, s', id, s.provisioning[id]);
      }
    }
  }

  // ---------- the ledger ----------

  lemma HeldUpdate(transactions: map<Id, Transaction>, id: Id, t: Transaction, key: SpendKey)
    ensures Held(transactions[id := t], key)
         == Held(transactions, key) - (if id in transactions then Weight(key)(transactions[id]) else 0) + Weight(key)(t)
  {
    SumUpdate(transactions, Weight(key), id, t);
  }

  lemma HeldNonNegative(s: State, transactions: map<Id, Transaction>, key: SpendKey)
    requires forall id <- transactions :: id in s.transactions && transactions[id] == s.transactions[id]
    requires TransactionsOk(s)
    ensures Held(transactions, key) >= 0
  {
    forall id | id in transactions ensures Weight(key)(transactions[id]) >= 0 {
      assert TransactionOk(s, id, transactions[id]);
    }
    SumNonNegative(transactions, Weight(key));
  }

  /** The clamp at zero never fires: what is released is there, in full. */
  lemma ReleaseIsCovered(s: State, id: Id)
    requires TransactionsOk(s) && LedgerOk(s) && id in s.transactions && s.transactions[id].capReservation.Some?
    ensures var r := s.transactions[id].capReservation.value;
            r.key in s.dailySpend && 0 < r.amountMinor <= s.dailySpend[r.key]
  {
    var r := s.transactions[id].capReservation.value;
    forall i | i in s.transactions ensures Weight(r.key)(s.transactions[i]) >= 0 {
      assert TransactionOk(s, i, s.transactions[i]);
    }
    SumCovers(s.transactions, Weight(r.key), id);
    assert SpendAt(s.dailySpend, r.key) == Held(s.transactions, r.key);
  }

  lemma ReleaseKeepsLedger(s: State, id: Id, t: Transaction)
    requires TransactionsOk(s) && LedgerOk(s) && id in s.transactions && t.capReservation.None?
    ensures LedgerOk(s.(transactions := s.transactions[id := t],
                        dailySpend := ReleaseFrom(s.dailySpend, s.transactions[id].capReservation)))
  {
    var r := s.transactions[id].capReservation;
    var spend, transactions := ReleaseFrom(s.dailySpend, r), s.transactions[id := t];
    if r.Some? {
      ReleaseIsCovered(s, id);
    }
    forall key ensures SpendAt(spend, key) == Held(transactions, key) {
      HeldUpdate(s.transactions, id, t, key);
      assert SpendAt(s.dailySpend, key) == Held(s.transactions, key);
    }
    forall key | key in spend ensures EntryOk(s.tokens, key, spend[key]) {
      assert key in s.dailySpend && spend[key] <= s.dailySpend[key];
      assert EntryOk(s.tokens, key, s.dailySpend[key]);
    }
  }

  /** A transaction that keeps its reservation keeps the ledger. */
  lemma MoveKeepsLedger(s: State, id: Id, t: Transaction)
    requires LedgerOk(s) && id in s.transactions && t.capReservation == s.transactions[id].capReservation
    ensures LedgerOk(s.(transactions := s.transactions[id := t]))
  {
    forall key ensures SpendAt(s.dailySpend, key) == Held(s.transactions[id := t], key) {
      HeldUpdate(s.transactions, id, t, key);
    }
  }

  // ---------- transactions ----------

  lemma AddedTransactionOk(s: State, s': State, id: Id)
    requires TransactionsOk(s) && Grows(s, s') && id in s'.transactions
    requires s'.transactions == s.transactions[id := s'.transactions[id]]
    requires TransactionOk(s', id, s'.transactions[id])
    ensures TransactionsOk(s')
  {
    forall t | t in s'.transactions ensures TransactionOk(s', t, s'.transactions[t]) {
      if t != id {
        assert TransactionOk(s, t, s.transactions[t]);
        TransactionFrame(s, s', t, s.transactions[t]);
      }
    }
  }

  lemma ReserveKeepsLedger(s: State, id: Id, t: Transaction, caps: Caps)
    requires LedgerOk(s) && TokensOk(s.tokens) && id !in s.transactions
    requires t.capReservation.Some? && t.capReservation.value.amountMinor > 0
    requires var k := t.capReservation.value.key;
             && k.tokenId in s.tokens && s.tokens[k.tokenId].state == TokenActiveCapped
             && s.tokens[k.tokenId].caps == Some(caps)
             && SpendAt(s.dailySpend, k) + t.capReservation.value.amountMinor <= caps.dailyMinor
    ensures var r := t.capReservation.value;
            LedgerOk(s.(transactions := s.transactions[id := t],
                        dailySpend := s.dailySpend[r.key := SpendAt(s.dailySpend, r.key) + r.amountMinor]))
  {
    var r := t.capReservation.value;
    var spend := s.dailySpend[r.key := SpendAt(s.dailySpend, r.key) + r.amountMinor];
    forall key ensures SpendAt(spend, key) == Held(s.transactions[id := t], key) {
      HeldUpdate(s.transactions, id, t, key);
      assert SpendAt(s.dailySpend, key) == Held(s.transactions, key);
    }
    forall key | key in spend ensures EntryOk(s.tokens, key, spend[key]) {
      assert r.key in s.dailySpend ==> EntryOk(s.tokens, r.key, s.dailySpend[r.key]);
      if key != r.key {
        assert EntryOk(s.tokens, key, s.dailySpend[key]);
      }
    }
  }

  lemma AuthorizeKeepsLedger(
    s: State, transactionId: Id, tokenId: Id, merchantId: Id, amountMinor: int, strategy: Strategy,
    deviceId: Id, challengeId: Id, now: Time)
    requires LedgerOk(s) && TokensOk(s.tokens)
    ensures LedgerOk(AuthorizeStep(s, transactionId, tokenId, merchantId, amountMinor, strategy, deviceId, challengeId, now).0)
  {
    hide LedgerOk, TokensOk;
    var (s', outcome) :=
      AuthorizeStep(s, transactionId, tokenId, merchantId, amountMinor, strategy, deviceId, challengeId, now);
    if outcome == Done {
      var t := s'.transactions[transactionId];
      TokenAt(s.tokens, tokenId);
      var s1 := s.(transactions := s'.transactions, dailySpend := s'.dailySpend);
      if t.capReservation.Some? {
        ReserveKeepsLedger(s, transactionId, t, s.tokens[tokenId].caps.value);
      } else {
        NoReservationKeepsLedger(s, transactionId, t);
        assert s1 == s.(transactions := s'.transactions);
      }
      SameLedger(s1, s');
    }
  }

  lemma SameLedger(s: State, s': State)
    requires LedgerOk(s) && s'.tokens == s.tokens && s'.transactions == s.transactions && s'.dailySpend == s.dailySpend
    ensures LedgerOk(s')
  {
  }

  lemma AuthorizeKeepsInv(
    c: Crypto, s: State, transactionId: Id, tokenId: Id, merchantId: Id, amountMinor: int, strategy: Strategy,
    deviceId: Id, challengeId: Id, now: Time)
    requires Inv(c, s) && challengeId !in s.challenges
    ensures Inv(c, AuthorizeStep(s, transactionId, tokenId, merchantId, amountMinor, strategy, deviceId, challengeId, now).0)
  {
    hide RequestsOk, TransactionsOk, LedgerOk, Owned, DevicesOk, RecordsOk, TokensOk, Advances;
    var (s', outcome) :=
      AuthorizeStep(s, transactionId, tokenId, merchantId, amountMinor, strategy, deviceId, challengeId, now);
    if outcome == Done {
      var t := s'.transactions[transactionId];
      TokenAt(s.tokens, tokenId);
      RecordAddOk(s.challenges, challengeId, s'.challenges[challengeId]);
      assert TransactionOk(s', transactionId, t);
      AuthorizeKeepsLedger(s, transactionId, tokenId, merchantId, amountMinor, strategy, deviceId, challengeId, now);
      hide AuthorizeStep, TransactionOk, RecordOk, TokenOk;
      assert Grows(s, s');
      AddedTransactionOk(s, s', transactionId);
      RequestsFrame(s, s');
      assert OwnedByTransaction(s', challengeId);
      OwnedFrame(s, s');
    }
  }

  lemma NoReservationKeepsLedger(s: State, id: Id, t: Transaction)
    requires LedgerOk(s) && id !in s.transactions && t.capReservation.None?
    ensures LedgerOk(s.(transactions := s.transactions[id := t]))
  {
    forall key ensures SpendAt(s.dailySpend, key) == Held(s.transactions[id := t], key) {
      HeldUpdate(s.transactions, id, t, key);
    }
  }

  /** One transaction moves to another state, and with it the challenges advance and the ledger follows. */
  lemma MovedTransactionKeepsInv(c: Crypto, s: State, s': State, id: Id)
    requires Inv(c, s) && id in s.transactions && id in s'.transactions
    requires s' == s.(transactions := s.transactions[id := s'.transactions[id]], dailySpend := s'.dailySpend, audit := s'.audit)
    requires TransactionOk(s', id, s'.transactions[id]) && LedgerOk(s')
    requires s'.transactions[id].challenge == s.transactions[id].challenge
    ensures Inv(c, s')
  {
    hide RequestsOk, TransactionsOk, LedgerOk, Owned, DevicesOk, RecordsOk, TokensOk, Advances, TransactionOk;
    AdvancesReflexive(s.challenges);
    assert Grows(s, s');
    AddedTransactionOk(s, s', id);
    RequestsFrame(s, s');
    OwnedFrame(s, s');
  }

  lemma ConfirmKeepsInv(c: Crypto, s: State, transactionId: Id, approval: Approval, now: Time)
    requires Inv(c, s)
    ensures Inv(c, Confirm(c, s, transactionId, approval, now).0)
  {
    hide RequestsOk, TransactionsOk, LedgerOk, Owned, DevicesOk, RecordsOk, TokensOk, Advances, ConsumeStep;
    if transactionId in s.transactions && s.transactions[transactionId].challenge.deviceId in s.devices {
      var t := s.transactions[transactionId];
      var publicKey := s.devices[t.challenge.deviceId].publicKey;
      var records := ConsumeStep(c, s.challenges, approval, publicKey, now).0;
      ConsumeAdvances(c, s.challenges, approval, publicKey, now);
      ChallengesAdvanceKeepsInv(c, s, records);
      var (s', outcome) := Confirm(c, s, transactionId, approval, now);
      var s1 := s.(challenges := records);
      TransactionAt(s1, transactionId);
      if outcome == Done {
        MoveKeepsLedger(s1, transactionId, s'.transactions[transactionId]);
        SameLedger(s1.(transactions := s'.transactions), s');
        MovedTransactionKeepsInv(c, s1, s', transactionId);
      }
    }
  }

  lemma ExpireKeepsInv(c: Crypto, s: State, transactionId: Id, now: Time)
    requires Inv(c, s)
    ensures Inv(c, Expire(s, transactionId, now).0)
  {
    hide RequestsOk, TransactionsOk, LedgerOk, Owned, DevicesOk, RecordsOk, TokensOk, Advances, CancelStep;
    if transactionId in s.transactions {
      var t := s.transactions[transactionId];
      var records := CancelStep(s.challenges, t.challenge.challengeId, now).0;
      CancelAdvances(s.challenges, t.challenge.challengeId, now);
      ChallengesAdvanceKeepsInv(c, s, records);
      var (s', outcome) := Expire(s, transactionId, now);
      var s1 := s.(challenges := records);
      TransactionAt(s1, transactionId);
      if outcome == Done {
        ReleaseKeepsLedger(s1, transactionId, s'.transactions[transactionId]);
        SameLedger(s1.(transactions := s'.transactions, dailySpend := s'.dailySpend), s');
        MovedTransactionKeepsInv(c, s1, s', transactionId);
      }
    }
  }

  lemma ClearKeepsInv(c: Crypto, s: State, transactionId: Id, now: Time)
    requires Inv(c, s)
    ensures Inv(c, Clear(s, transactionId, now).0)
  {
    hide RequestsOk, TransactionsOk, LedgerOk, Owned, DevicesOk, RecordsOk, TokensOk, Advances;
    if transactionId in s.transactions {
      var t := s.transactions[transactionId];
      var (s', outcome) := Clear(s, transactionId, now);
      TransactionAt(s, transactionId);
      if outcome == Done {
        MoveKeepsLedger(s, transactionId, s'.transactions[transactionId]);
        SameLedger(s.(transactions := s'.transactions), s');
        MovedTransactionKeepsInv(c, s, s', transactionId);
      }
    }
  }
}
