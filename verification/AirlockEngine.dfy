/** The engine as the class the issuer simulator runs: maps and records updated in place, loops over
    them, each method tied to the step of the same name in module Airlock. */
module AirlockEngine {
  import opened Wrappers
  import opened Transitions
  import opened Challenges
  import opened Listings
  import opened Airlock
  import opened AirlockInvariant
  import opened AirlockCalls
  import opened AirlockInvalidation
  import opened AirlockRuns
  import opened AirlockRestore

  method AssertKeyIdAvailable(c: Crypto, devices: map<Id, Device>, keyId: Id, exceptDevice: Option<Id>)
    returns (outcome: Outcome)
    ensures outcome == if !c.validKeyId(keyId) then Threw(InvalidKeyId)
                       else if KeyIdTaken(devices, keyId, exceptDevice) then Threw(DuplicateKeyId) else Done
  {
    if !c.validKeyId(keyId) { return Threw(InvalidKeyId); }
    var ids := Enumerate(devices.Keys);
    var i := 0;
    while i < |ids|
      invariant 0 <= i <= |ids|
      invariant forall j :: 0 <= j < i ==> exceptDevice == Some(ids[j]) || devices[ids[j]].keyId != keyId
    {
      if exceptDevice != Some(ids[i]) && devices[ids[i]].keyId == keyId { return Threw(DuplicateKeyId); }
      i := i + 1;
    }
    return Done;
  }

  method AssertPublicKeyAvailable(c: Crypto, devices: map<Id, Device>, publicKey: string, exceptDevice: Option<Id>)
    returns (outcome: Outcome)
    ensures outcome == if PublicKeyTaken(c, devices, publicKey, exceptDevice) then Threw(DuplicatePublicKey) else Done
  {
    var fingerprint := c.fingerprint(publicKey);
    var ids := Enumerate(devices.Keys);
    var i := 0;
    while i < |ids|
      invariant 0 <= i <= |ids|
      invariant forall j :: 0 <= j < i ==> exceptDevice == Some(ids[j]) || c.fingerprint(devices[ids[j]].publicKey) != fingerprint
    {
      if exceptDevice != Some(ids[i]) && c.fingerprint(devices[ids[i]].publicKey) == fingerprint {
        return Threw(DuplicatePublicKey);
      }
      i := i + 1;
    }
    return Done;
  }

  // ---------- restore ----------

  method RestoreDevices(c: Crypto, xs: seq<Device>) returns (r: Option<map<Id, Device>>)
    ensures r == if RestorableDevices(c, xs, |xs|) then Some(Index(xs, DeviceKey)) else None
  {
    var m: map<Id, Device> := map[];
    var i := 0;
    while i < |xs|
      invariant 0 <= i <= |xs|
      invariant RestorableDevices(c, xs, i)
      invariant m == Index(xs[..i], DeviceKey)
    {
      hide Index, RestorableDevice, RestorableDevices, KeyIdTaken, PublicKeyTaken;
      EarlierDistinct(c, xs, i);
      RestorableSnoc(c, xs, i);
      IndexSnoc(xs, i, DeviceKey);
      var d := xs[i];
      TakenIsEarlier(c, xs[..i], d);
      if c.fingerprint(d.publicKey).None? || d.deviceId in m { return None; }
      var keyId := AssertKeyIdAvailable(c, m, d.keyId, None);
      if keyId.Threw? { return None; }
      var publicKey := AssertPublicKeyAvailable(c, m, d.publicKey, None);
      if publicKey.Threw? { return None; }
      m := m[d.deviceId := d];
      i := i + 1;
    }
    assert xs[..i] == xs;
    return Some(m);
  }

  lemma EarlierDistinct(c: Crypto, xs: seq<Device>, n: nat)
    requires n <= |xs| && RestorableDevices(c, xs, n)
    ensures DistinctKeys(xs[..n], DeviceKey)
  {
    forall i, j | 0 <= i < j < n ensures DeviceKey(xs[i]) != DeviceKey(xs[j]) {
      assert RestorableDevice(c, xs[..j], xs[j]) && xs[..j][i] == xs[i];
    }
  }

  lemma RestorableSnoc(c: Crypto, xs: seq<Device>, n: nat)
    requires n < |xs|
    ensures RestorableDevices(c, xs, n + 1) <==> RestorableDevices(c, xs, n) && RestorableDevice(c, xs[..n], xs[n])
    ensures RestorableDevices(c, xs, |xs|) ==> RestorableDevices(c, xs, n + 1)
  {
    hide RestorableDevice;
  }

  lemma TakenIsEarlier(c: Crypto, earlier: seq<Device>, d: Device)
    requires DistinctKeys(earlier, DeviceKey)
    ensures var m := Index(earlier, DeviceKey);
            RestorableDevice(c, earlier, d) <==>
              && c.fingerprint(d.publicKey).Some? && c.validKeyId(d.keyId) && d.deviceId !in m
              && !KeyIdTaken(m, d.keyId, None) && !PublicKeyTaken(c, m, d.publicKey, None)
  {
    var m := Index(earlier, DeviceKey);
    IndexMembers(earlier, DeviceKey);
    forall i | 0 <= i < |earlier| ensures earlier[i].deviceId in m && m[earlier[i].deviceId] == earlier[i] {
      assert DeviceKey(earlier[i]) == earlier[i].deviceId;
    }
    forall k | k in m ensures m[k] in earlier && m[k].deviceId == k {
      assert DeviceKey(m[k]) == m[k].deviceId;
    }
  }

  method RestoreSpend(tokens: map<Id, Token>, xs: seq<SpendEntry>) returns (r: Option<map<SpendKey, int>>)
    ensures r == if DistinctKeys(xs, SpendEntryKey) && (forall e <- xs :: RestorableSpend(tokens, e)) then Some(Amounts(xs)) else None
  {
    var m: map<SpendKey, int> := map[];
    var i := 0;
    while i < |xs|
      invariant 0 <= i <= |xs|
      invariant DistinctKeys(xs[..i], SpendEntryKey) && (forall e <- xs[..i] :: RestorableSpend(tokens, e))
      invariant m == Amounts(xs[..i])
    {
      hide DistinctKeys, Index, RestorableSpend;
      IndexSnoc(xs, i, SpendEntryKey);
      DistinctSnoc(xs, i, SpendEntryKey);
      var e := xs[i];
      if !RestorableSpend(tokens, e) { return None; }
      DistinctPrefix(xs, i + 1, SpendEntryKey);
      if e.key in m {
        return None;
      }
      m := m[e.key := e.amountMinor];
      i := i + 1;
    }
    assert xs[..i] == xs;
    return Some(m);
  }

  method SumReservations(ts: seq<Transaction>) returns (r: Option<map<SpendKey, int>>)
    ensures r == if (forall t <- ts :: RestorableReservation(t)) then Some(ReservedTotals(ts)) else None
  {
    var totals: map<SpendKey, int> := map[];
    var i := 0;
    while i < |ts|
      invariant 0 <= i <= |ts|
      invariant forall t <- ts[..i] :: RestorableReservation(t)
      invariant totals == ReservedTotals(ts[..i])
    {
      assert ts[..i + 1][..i] == ts[..i];
      if !RestorableReservation(ts[i]) { return None; }
      if ts[i].capReservation.Some? {
        var r := ts[i].capReservation.value;
        totals := totals[r.key := SpendAt(totals, r.key) + r.amountMinor];
      }
      i := i + 1;
    }
    assert ts[..i] == ts;
    return Some(totals);
  }

  /** The whole of restore: it accepts exactly the restorable snapshots, and rebuilds their state. */
  method RestoreState(c: Crypto, snap: EngineSnapshot) returns (r: Result<State, Error>)
    ensures r == if Restorable(c, snap) then Ok(Restored(snap)) else Err(InvalidSnapshot)
  {
    hide DistinctKeys, Index, Amounts, ReservedTotals, RestorableChallenge, RestorableDevices, RestorableToken,
         RestorableRequest, RestorableTransaction, RestorableSpend, RestorableReservation;
    ghost var target := Restored(snap);
    var records := RestoreUnique(snap.challenges, ChallengeKey, RestorableChallenge);
    if records.None? { return Err(InvalidSnapshot); }
    var devices := RestoreDevices(c, snap.devices);
    if devices.None? { return Err(InvalidSnapshot); }
    var tokens := RestoreUnique(snap.tokens, TokenKey, RestorableToken);
    if tokens.None? { return Err(InvalidSnapshot); }
    var s := State(records.value, devices.value, tokens.value, map[], map[], map[], snap.audit);
    SameChecks(s, target);
    var provisioning := RestoreUnique(snap.provisioning, RequestKey, r => RestorableRequest(s, r));
    if provisioning.None? { return Err(InvalidSnapshot); }
    var transactions := RestoreUnique(snap.transactions, TransactionKey, t => RestorableTransaction(s, t));
    if transactions.None? { return Err(InvalidSnapshot); }
    var spend := RestoreSpend(s.tokens, snap.dailySpend);
    if spend.None? { return Err(InvalidSnapshot); }
    var totals := SumReservations(snap.transactions);
    if totals.None? || totals.value != spend.value { return Err(InvalidSnapshot); }
    return Ok(s.(provisioning := provisioning.value, transactions := transactions.value, dailySpend := spend.value));
  }

  /** The reference checks read only what is restored before them. */
  lemma SameChecks(s: State, target: State)
    requires s.challenges == target.challenges && s.devices == target.devices && s.tokens == target.tokens
    ensures forall r :: RestorableRequest(s, r) == RestorableRequest(target, r)
    ensures forall t :: RestorableTransaction(s, t) == RestorableTransaction(target, t)
  {
  }

  // ---------- one aggregate at a time ----------

  lemma CancelOneMore(records: Records, ids: set<Id>, more: set<Id>, cid: Id, now: Time)
    requires more == ids + {cid}
    ensures CancelledIn(records, more, now) == CancelledIn(CancelledIn(records, ids, now), {cid}, now)
  {
  }

  lemma DeclineTokenOneMore(tokens: map<Id, Token>, ids: set<Id>, more: set<Id>, k: Id)
    requires more == ids + {k} && k !in ids && k in tokens
    ensures DeclineTokens(tokens, more)
         == if tokens[k].state == TokenPending then DeclineTokens(tokens, ids)[k := tokens[k].(state := TokenDeclined)]
            else DeclineTokens(tokens, ids)
  {
  }

  lemma DeclineRequestOneMore(requests: map<Id, Request>, ids: set<Id>, r: Id)
    requires r in requests && r !in ids
    ensures DeclineRequests(requests, ids + {r}) == DeclineRequests(requests, ids)[r := requests[r].(state := ProvDeclined)]
  {
  }

  lemma DeclineTransactionOneMore(ts: map<Id, Transaction>, ids: set<Id>, t: Id)
    requires t in ts && t !in ids
    ensures DeclineTransactions(ts, ids + {t}) == DeclineTransactions(ts, ids)[t := Release(ts[t].(state := TxDeclined))]
  {
  }

  lemma TokenNotYet(s: State, requests: set<Id>, r: Id)
    requires RequestsOk(s) && requests <= s.provisioning.Keys && r in s.provisioning && r !in requests
    ensures s.provisioning[r].tokenId !in TokensOf(s, requests)
    ensures TokensOf(s, requests + {r}) == TokensOf(s, requests) + {s.provisioning[r].tokenId}
  {
  }

  lemma ChallengesWithRequest(s: State, requests: set<Id>, r: Id)
    requires r in s.provisioning
    ensures ChallengeOf(s, requests + {r}, {}) == ChallengeOf(s, requests, {}) + {s.provisioning[r].challenge.challengeId}
  {
  }

  lemma ChallengesWithTransaction(s: State, requests: set<Id>, transactions: set<Id>, t: Id)
    requires t in s.transactions
    ensures ChallengeOf(s, requests, transactions + {t})
         == ChallengeOf(s, requests, transactions) + {s.transactions[t].challenge.challengeId}
  {
  }

  lemma OthersUntouched(s: State, requests: set<Id>, transactions: set<Id>, now: Time)
    requires RequestsOk(s) && TransactionsOk(s) && requests <= s.provisioning.Keys && transactions <= s.transactions.Keys
    ensures var q := Reconciled(s, requests, transactions, now);
            && (forall r <- s.provisioning :: r !in requests ==>
                  var cid := s.provisioning[r].challenge.challengeId;
                  cid in s.challenges && cid in q.challenges && q.challenges[cid] == s.challenges[cid])
            && (forall t <- s.transactions :: t !in transactions ==>
                  var cid := s.transactions[t].challenge.challengeId;
                  cid in s.challenges && cid in q.challenges && q.challenges[cid] == s.challenges[cid])
  {
    OwnChallengeIn(s, requests, transactions);
    hide ChallengeOf, Reduced, DeclineRequests, DeclineTransactions, DeclineTokens;
    forall r | r in s.provisioning ensures s.provisioning[r].challenge.challengeId in s.challenges { RequestAt(s, r); }
    forall t | t in s.transactions ensures s.transactions[t].challenge.challengeId in s.challenges { TransactionAt(s, t); }
  }

  /** Reconciling one more request, in place. */
  lemma AddRequest(s: State, requests: set<Id>, r: Id, now: Time)
    requires RequestsOk(s) && TransactionsOk(s) && requests <= s.provisioning.Keys && r in s.provisioning && r !in requests
    ensures var q, request := Reconciled(s, requests, {}, now), s.provisioning[r];
            var cid, k := request.challenge.challengeId, request.tokenId;
            && cid in s.challenges && cid in q.challenges && q.challenges[cid] == s.challenges[cid]
            && k in s.tokens && k in q.tokens && q.tokens[k] == s.tokens[k]
            && r in q.provisioning && q.provisioning[r] == request
            && Reconciled(s, requests + {r}, {}, now)
               == q.(challenges := CancelledIn(q.challenges, {cid}, now),
                     provisioning := q.provisioning[r := request.(state := ProvDeclined)],
                     tokens := if q.tokens[k].state == TokenPending then q.tokens[k := q.tokens[k].(state := TokenDeclined)] else q.tokens)
  {
    var request := s.provisioning[r];
    OthersUntouched(s, requests, {}, now);
    RequestAt(s, r);
    TokenNotYet(s, requests, r);
    ChallengesWithRequest(s, requests, r);
    CancelOneMore(s.challenges, ChallengeOf(s, requests, {}), ChallengeOf(s, requests + {r}, {}), request.challenge.challengeId, now);
    DeclineTokenOneMore(s.tokens, TokensOf(s, requests), TokensOf(s, requests + {r}), request.tokenId);
    DeclineRequestOneMore(s.provisioning, requests, r);
    hide RequestsOk, TransactionsOk, Reduced, ChallengeOf, TokensOf, DeclineTransactions, CancelledIn;
  }

  lemma ReduceOneMoreAt(spend: map<SpendKey, int>, ts: map<Id, Transaction>, released: set<Id>, t: Id, key: SpendKey)
    requires t in ts && t !in released
    requires ts[t].capReservation.Some? ==> ts[t].capReservation.value.amountMinor > 0
    ensures Held(Restrict(ts, released + {t}), key) == Held(Restrict(ts, released), key) + Weight(key)(ts[t])
  {
    assert Restrict(ts, released + {t}) == Restrict(ts, released)[t := ts[t]];
    HeldUpdate(Restrict(ts, released), t, ts[t], key);
  }

  lemma ReduceOneMore(spend: map<SpendKey, int>, ts: map<Id, Transaction>, released: set<Id>, t: Id)
    requires t in ts && t !in released
    requires ts[t].capReservation.Some? ==> ts[t].capReservation.value.amountMinor > 0
    ensures Reduced(spend, ts, released + {t}) == ReleaseFrom(Reduced(spend, ts, released), ts[t].capReservation)
  {
    hide Held, Restrict;
    forall key ensures Held(Restrict(ts, released + {t}), key) == Held(Restrict(ts, released), key) + Weight(key)(ts[t]) {
      ReduceOneMoreAt(spend, ts, released, t, key);
    }
    hide Weight;
    var next, target := Reduced(spend, ts, released + {t}), ReleaseFrom(Reduced(spend, ts, released), ts[t].capReservation);
    forall key ensures (key in next <==> key in target) && (key in next ==> next[key] == target[key]) {
      WeightAt(ts[t], key);
    }
  }

  lemma WeightAt(t: Transaction, key: SpendKey)
    ensures Weight(key)(t)
         == if t.capReservation.Some? && t.capReservation.value.key == key then t.capReservation.value.amountMinor else 0
  {
  }

  /** Reconciling one more transaction, in place. */
  lemma AddTransaction(s: State, requests: set<Id>, transactions: set<Id>, t: Id, now: Time)
    requires RequestsOk(s) && TransactionsOk(s) && requests <= s.provisioning.Keys && transactions <= s.transactions.Keys
    requires t in s.transactions && t !in transactions
    ensures var q, transaction := Reconciled(s, requests, transactions, now), s.transactions[t];
            var cid := transaction.challenge.challengeId;
            && cid in s.challenges && cid in q.challenges && q.challenges[cid] == s.challenges[cid]
            && t in q.transactions && q.transactions[t] == transaction
            && Reconciled(s, requests, transactions + {t}, now)
               == q.(challenges := CancelledIn(q.challenges, {cid}, now),
                     transactions := q.transactions[t := Release(transaction.(state := TxDeclined))],
                     dailySpend := ReleaseFrom(q.dailySpend, transaction.capReservation))
  {
    var transaction := s.transactions[t];
    OthersUntouched(s, requests, transactions, now);
    TransactionAt(s, t);
    ReduceOneMore(s.dailySpend, s.transactions, transactions, t);
    ChallengesWithTransaction(s, requests, transactions, t);
    CancelOneMore(s.challenges, ChallengeOf(s, requests, transactions), ChallengeOf(s, requests, transactions + {t}),
                  transaction.challenge.challengeId, now);
    DeclineTransactionOneMore(s.transactions, transactions, t);
    hide RequestsOk, TransactionsOk, Reduced, ChallengeOf, TokensOf, CancelledIn, ReleaseFrom, DeclineRequests, DeclineTokens;
  }

  // ---------- what the loops rely on ----------

  predicate OpenedLater(s: State, id: Id, now: Time) {
    id in s.challenges && s.challenges[id].status == Created && now < s.challenges[id].binding.issuedAt
  }

  lemma KeysOfInv(c: Crypto, s: State)
    requires Inv(c, s)
    ensures forall k <- s.challenges :: ChallengeKey(s.challenges[k]) == k
    ensures forall k <- s.devices :: DeviceKey(s.devices[k]) == k
    ensures forall k <- s.tokens :: TokenKey(s.tokens[k]) == k
    ensures forall k <- s.provisioning :: RequestKey(s.provisioning[k]) == k
    ensures forall k <- s.transactions :: TransactionKey(s.transactions[k]) == k
  {
    hide LedgerOk, Owned;
  }

  function RequestChallenges(requests: map<Id, Request>, ids: seq<Id>): (r: seq<Id>)
    requires forall i :: 0 <= i < |ids| ==> ids[i] in requests
  {
    seq(|ids|, i requires 0 <= i < |ids| => requests[ids[i]].challenge.challengeId)
  }

  function TransactionChallenges(transactions: map<Id, Transaction>, ids: seq<Id>): (r: seq<Id>)
    requires forall i :: 0 <= i < |ids| ==> ids[i] in transactions
  {
    seq(|ids|, i requires 0 <= i < |ids| => transactions[ids[i]].challenge.challengeId)
  }

  lemma RequestChallengesCovered(s: State, ids: seq<Id>)
    requires RequestsOk(s) && forall i :: 0 <= i < |ids| ==> ids[i] in s.provisioning
    ensures forall r <- ids :: s.provisioning[r].challenge.challengeId in RequestChallenges(s.provisioning, ids)
    ensures forall id <- RequestChallenges(s.provisioning, ids) ::
              id in s.challenges && exists r <- ids :: s.provisioning[r].challenge.challengeId == id
  {
    var cs := RequestChallenges(s.provisioning, ids);
    forall r | r in ids ensures s.provisioning[r].challenge.challengeId in cs {
      var i :| 0 <= i < |ids| && ids[i] == r;
      assert cs[i] == s.provisioning[r].challenge.challengeId;
    }
    forall id | id in cs ensures id in s.challenges && exists r <- ids :: s.provisioning[r].challenge.challengeId == id {
      var i :| 0 <= i < |cs| && cs[i] == id;
      RequestAt(s, ids[i]);
      assert ids[i] in ids;
    }
    hide RequestsOk;
  }

  lemma TransactionChallengesCovered(s: State, ids: seq<Id>)
    requires TransactionsOk(s) && forall i :: 0 <= i < |ids| ==> ids[i] in s.transactions
    ensures forall t <- ids :: s.transactions[t].challenge.challengeId in TransactionChallenges(s.transactions, ids)
    ensures forall id <- TransactionChallenges(s.transactions, ids) ::
              id in s.challenges && exists t <- ids :: s.transactions[t].challenge.challengeId == id
  {
    var cs := TransactionChallenges(s.transactions, ids);
    forall t | t in ids ensures s.transactions[t].challenge.challengeId in cs {
      var i :| 0 <= i < |ids| && ids[i] == t;
      assert cs[i] == s.transactions[t].challenge.challengeId;
    }
    forall id | id in cs ensures id in s.challenges && exists t <- ids :: s.transactions[t].challenge.challengeId == id {
      var i :| 0 <= i < |cs| && cs[i] == id;
      TransactionAt(s, ids[i]);
      assert ids[i] in ids;
    }
    hide TransactionsOk;
  }

  /** The plan lists the challenges of the pending aggregates, which are all stored; the first phase
      of the invalidation decides by them. */
  lemma PlanDecides(s: State, deviceId: Id, requests: seq<Id>, pending: seq<Id>, now: Time)
    requires RequestsOk(s) && TransactionsOk(s)
    requires forall r :: r in requests <==> r in PendingRequests(s, deviceId)
    requires forall t :: t in pending <==> t in PendingTransactions(s, deviceId)
    requires forall i :: 0 <= i < |requests| ==> requests[i] in s.provisioning
    requires forall i :: 0 <= i < |pending| ==> pending[i] in s.transactions
    ensures var plan := RequestChallenges(s.provisioning, requests) + TransactionChallenges(s.transactions, pending);
            && (forall id <- plan :: id in s.challenges)
            && (TooEarly(s, deviceId, now) <==> exists id <- plan :: OpenedLater(s, id, now))
            && (forall r <- requests :: s.provisioning[r].challenge.challengeId in plan)
            && (forall t <- pending :: s.transactions[t].challenge.challengeId in plan)
  {
    RequestChallengesCovered(s, requests);
    TransactionChallengesCovered(s, pending);
    hide RequestChallenges, TransactionChallenges, RequestsOk, TransactionsOk;
    var plan := RequestChallenges(s.provisioning, requests) + TransactionChallenges(s.transactions, pending);
    assert forall id :: id in plan <==> id in ChallengeOf(s, PendingRequests(s, deviceId), PendingTransactions(s, deviceId));
  }

  lemma PendingAreStored(s: State, deviceId: Id, requests: seq<Id>, pending: seq<Id>)
    requires forall r :: r in requests <==> r in PendingRequests(s, deviceId)
    requires forall t :: t in pending <==> t in PendingTransactions(s, deviceId)
    ensures forall i :: 0 <= i < |requests| ==> requests[i] in s.provisioning
    ensures forall i :: 0 <= i < |pending| ==> pending[i] in s.transactions
    ensures forall r <- requests :: r in s.provisioning
    ensures forall t <- pending :: t in s.transactions
    ensures ReconcilableRequests(s, deviceId) <= s.provisioning.Keys
  {
    forall i | 0 <= i < |requests| ensures requests[i] in s.provisioning { assert requests[i] in requests; }
    forall i | 0 <= i < |pending| ensures pending[i] in s.transactions { assert pending[i] in pending; }
  }

  lemma CancelledSingle(records: Records, id: Id, now: Time)
    requires id in records
    ensures CancelledIn(records, {id}, now)
         == if records[id].status == Created then records[id := records[id].(status := Cancelled, consumedAt := Some(now))]
            else records
  {
  }

  lemma RequestStays(s: State, requests: set<Id>, transactions: set<Id>, r: Id, now: Time)
    requires r in s.provisioning && r !in requests
    ensures var q := Reconciled(s, requests, transactions, now); r in q.provisioning && q.provisioning[r] == s.provisioning[r]
  {
  }

  lemma TransactionStays(s: State, requests: set<Id>, transactions: set<Id>, t: Id, now: Time)
    requires t in s.transactions && t !in transactions
    ensures var q := Reconciled(s, requests, transactions, now); t in q.transactions && q.transactions[t] == s.transactions[t]
  {
  }

  lemma NothingReconciled(s: State, now: Time)
    requires LedgerOk(s)
    ensures Reconciled(s, {}, {}, now) == s
  {
    NothingReduced(s);
    NothingDeclined(s, now);
    hide LedgerOk, Reduced, CancelledIn, ChallengeOf, TokensOf, DeclineRequests, DeclineTokens, DeclineTransactions;
  }

  lemma NothingReduced(s: State)
    requires LedgerOk(s)
    ensures Reduced(s.dailySpend, s.transactions, {}) == s.dailySpend
  {
    assert Restrict(s.transactions, {}) == map[];
    assert forall key <- s.dailySpend :: EntryOk(s.tokens, key, s.dailySpend[key]);
  }

  lemma NothingDeclined(s: State, now: Time)
    ensures CancelledIn(s.challenges, ChallengeOf(s, {}, {}), now) == s.challenges
    ensures DeclineRequests(s.provisioning, {}) == s.provisioning
    ensures DeclineTokens(s.tokens, TokensOf(s, {})) == s.tokens
    ensures DeclineTransactions(s.transactions, {}) == s.transactions
  {
  }

  lemma AmountsSnoc(xs: seq<SpendEntry>, e: SpendEntry)
    requires DistinctKeys(xs, SpendEntryKey) && e.key !in Amounts(xs)
    ensures DistinctKeys(xs + [e], SpendEntryKey) && Amounts(xs + [e]) == Amounts(xs)[e.key := e.amountMinor]
  {
    var all := xs + [e];
    assert SpendEntryKey(e) == e.key;
    assert all[..|xs|] == xs && all[..|xs| + 1] == all;
    IndexSnoc(all, |xs|, SpendEntryKey);
    DistinctSnoc(all, |xs|, SpendEntryKey);
  }

  method SpendValues(spend: map<SpendKey, int>) returns (xs: seq<SpendEntry>)
    ensures DistinctKeys(xs, SpendEntryKey) && Amounts(xs) == spend
  {
    xs := [];
    var rest := spend.Keys;
    while rest != {}
      invariant rest <= spend.Keys
      invariant DistinctKeys(xs, SpendEntryKey) && Amounts(xs) == spend - rest
      decreases rest
    {
      hide DistinctKeys, Amounts, Index;
      var k :| k in rest;
      ghost var before := xs;
      xs, rest := xs + [SpendEntry(k, spend[k])], rest - {k};
      assert k !in Amounts(before);
      AmountsSnoc(before, SpendEntry(k, spend[k]));
      assert spend - rest == (spend - (rest + {k}))[k := spend[k]];
    }
  }

  // ---------- the class ----------

  class AirlockEngine {
    const crypto: Crypto
    const challenges: ChallengeStore
    var devices: map<Id, Device>
    var tokens: map<Id, Token>
    var provisioning: map<Id, Request>
    var transactions: map<Id, Transaction>
    var dailySpend: map<SpendKey, int>
    var audit: seq<AuditEntry>

    function Abs(): State
      reads this, challenges
    {
      State(challenges.records, devices, tokens, provisioning, transactions, dailySpend, audit)
    }

    constructor (crypto: Crypto, s: State)
      ensures this.crypto == crypto && Abs() == s && fresh(challenges)
    {
      this.crypto := crypto;
      challenges := new ChallengeStore(s.challenges);
      devices, tokens, provisioning := s.devices, s.tokens, s.provisioning;
      transactions, dailySpend, audit := s.transactions, s.dailySpend, s.audit;
    }

    static method Restore(crypto: Crypto, snap: EngineSnapshot) returns (r: Result<AirlockEngine, Error>)
      ensures r.Ok? <==> Restorable(crypto, snap)
      ensures r.Ok? ==> fresh(r.value) && r.value.Abs() == Restored(snap)
      ensures r.Err? ==> r.error == InvalidSnapshot
    {
      var state := RestoreState(crypto, snap);
      if state.Err? { return Err(state.error); }
      var engine := new AirlockEngine(crypto, state.value);
      return Ok(engine);
    }

    method Snapshot() returns (snap: EngineSnapshot)
      requires Inv(crypto, Abs())
      ensures SnapshotOf(Abs(), snap)
    {
      KeysOfInv(crypto, Abs());
      hide Inv, Lists, DistinctKeys, Index;
      var records := Values(challenges.records, ChallengeKey);
      var ds := Values(devices, DeviceKey);
      var ts := Values(tokens, TokenKey);
      var rs := Values(provisioning, RequestKey);
      var xs := Values(transactions, TransactionKey);
      var spend := SpendValues(dailySpend);
      snap := EngineSnapshot(records, ds, ts, rs, xs, spend, audit);
    }

    method InvalidateOutstandingChallenges(deviceId: Id, now: Time) returns (outcome: Outcome)
      requires Inv(crypto, Abs())
      modifies this, challenges
      ensures (Abs(), outcome) == Invalidate(old(Abs()), deviceId, now)
    {
      ghost var s := Abs();
      hide RequestsOk, TransactionsOk, LedgerOk, DevicesOk, RecordsOk, TokensOk, Owned, Reconciled, OpenedLater, TooEarly,
           RequestChallenges, TransactionChallenges, PendingRequests, PendingTransactions, ReconcilableRequests,
           ReconcilableTransactions;
      var requests := Enumerate(PendingRequests(Abs(), deviceId));
      var pending := Enumerate(PendingTransactions(Abs(), deviceId));
      PendingAreStored(s, deviceId, requests, pending);
      PlanDecides(s, deviceId, requests, pending, now);
      var plan := RequestChallenges(provisioning, requests) + TransactionChallenges(transactions, pending);
      var early := AnyOpenedLater(plan, now);
      if early { return Threw(CancelledBeforeIssuance); }
      DeclinePendingRequests(s, deviceId, requests, now);
      DeclinePendingTransactions(s, deviceId, ReconcilableRequests(s, deviceId), pending, now);
      return Done;
    }

    /** Phase one: validate the complete plan before changing anything. */
    method AnyOpenedLater(plan: seq<Id>, now: Time) returns (early: bool)
      requires forall id <- plan :: id in challenges.records
      ensures early <==> exists id <- plan :: OpenedLater(Abs(), id, now)
    {
      var i := 0;
      while i < |plan|
        invariant 0 <= i <= |plan|
        invariant forall j :: 0 <= j < i ==> !OpenedLater(Abs(), plan[j], now)
      {
        var record := challenges.records[plan[i]];
        if record.status == Created && now < record.binding.issuedAt {
          assert OpenedLater(Abs(), plan[i], now);
          return true;
        }
        i := i + 1;
      }
      return false;
    }

    /** Phase two, one request: cancel, decline, and decline the pending token. */
    method DeclineRequest(ghost s: State, ghost done: set<Id>, r: Id, now: Time)
      requires RequestsOk(s) && TransactionsOk(s) && done <= s.provisioning.Keys && Abs() == Reconciled(s, done, {}, now)
      requires r in s.provisioning && r !in done && s.provisioning[r].state == ProvTrustedDeviceChallenge
      requires Reconcilable(s, s.provisioning[r].challenge.challengeId)
      requires !OpenedLater(s, s.provisioning[r].challenge.challengeId, now)
      modifies this, challenges
      ensures Abs() == Reconciled(s, done + {r}, {}, now)
    {
      hide RequestsOk, TransactionsOk, Reconciled, CancelledIn;
      AddRequest(s, done, r, now);
      var request := provisioning[r];
      var id := request.challenge.challengeId;
      CancelledSingle(challenges.records, id, now);
      if challenges.records[id].status == Created {
        var cancelled := challenges.Cancel(id, now);
        assert cancelled == Done;
      }
      provisioning := provisioning[r := request.(state := ProvDeclined)];
      if tokens[request.tokenId].state == TokenPending {
        tokens := tokens[request.tokenId := tokens[request.tokenId].(state := TokenDeclined)];
      }
    }

    /** Phase two, one transaction: cancel, decline, and give the reservation back. */
    method DeclineTransaction(ghost s: State, ghost requests: set<Id>, ghost done: set<Id>, t: Id, now: Time)
      requires RequestsOk(s) && TransactionsOk(s) && requests <= s.provisioning.Keys && done <= s.transactions.Keys
      requires Abs() == Reconciled(s, requests, done, now)
      requires t in s.transactions && t !in done && s.transactions[t].state == TxConfirmationPending
      requires Reconcilable(s, s.transactions[t].challenge.challengeId)
      requires !OpenedLater(s, s.transactions[t].challenge.challengeId, now)
      modifies this, challenges
      ensures Abs() == Reconciled(s, requests, done + {t}, now)
    {
      hide RequestsOk, TransactionsOk, Reconciled, CancelledIn;
      AddTransaction(s, requests, done, t, now);
      var transaction := transactions[t];
      var id := transaction.challenge.challengeId;
      CancelledSingle(challenges.records, id, now);
      if challenges.records[id].status == Created {
        var cancelled := challenges.Cancel(id, now);
        assert cancelled == Done;
      }
      ReleaseCapReservation(transaction);
      transactions := transactions[t := Release(transaction.(state := TxDeclined))];
    }

    method ReleaseCapReservation(transaction: Transaction)
      modifies this`dailySpend
      ensures dailySpend == ReleaseFrom(old(dailySpend), transaction.capReservation)
    {
      if transaction.capReservation.None? { return; }
      var r := transaction.capReservation.value;
      var remaining := MaxInt(0, SpendAt(dailySpend, r.key) - r.amountMinor);
      if remaining == 0 {
        dailySpend := dailySpend - {r.key};
      } else {
        dailySpend := dailySpend[r.key := remaining];
      }
    }

    method DeclinePendingRequests(ghost s: State, deviceId: Id, requests: seq<Id>, now: Time)
      requires RequestsOk(s) && TransactionsOk(s) && LedgerOk(s) && Abs() == s
      requires forall i, j :: 0 <= i < j < |requests| ==> requests[i] != requests[j]
      requires forall r :: r in requests <==> r in PendingRequests(s, deviceId)
      requires forall r <- requests :: r in s.provisioning
      requires forall r <- requests :: !OpenedLater(s, s.provisioning[r].challenge.challengeId, now)
      modifies this, challenges
      ensures Abs() == Reconciled(s, ReconcilableRequests(s, deviceId), {}, now)
    {
      hide RequestsOk, TransactionsOk, LedgerOk, Reconciled;
      ghost var done: set<Id> := {};
      NothingReconciled(s, now);
      var i := 0;
      while i < |requests|
        invariant 0 <= i <= |requests|
        invariant forall r :: r in done <==> r in requests[..i] && r in ReconcilableRequests(s, deviceId)
        invariant Abs() == Reconciled(s, done, {}, now)
      {
        var r := requests[i];
        assert requests[..i + 1] == requests[..i] + [r] && r !in requests[..i] && r in requests;
        OthersUntouched(s, done, {}, now);
        RequestStays(s, done, {}, r, now);
        if challenges.records[provisioning[r].challenge.challengeId].status != Confirmed {
          DeclineRequest(s, done, r, now);
          done := done + {r};
        }
        i := i + 1;
      }
      assert requests[..i] == requests;
      assert done == ReconcilableRequests(s, deviceId);
    }

    method DeclinePendingTransactions(ghost s: State, deviceId: Id, ghost requests: set<Id>, pending: seq<Id>, now: Time)
      requires RequestsOk(s) && TransactionsOk(s) && requests <= s.provisioning.Keys
      requires Abs() == Reconciled(s, requests, {}, now)
      requires forall i, j :: 0 <= i < j < |pending| ==> pending[i] != pending[j]
      requires forall t :: t in pending <==> t in PendingTransactions(s, deviceId)
      requires forall t <- pending :: t in s.transactions
      requires forall t <- pending :: !OpenedLater(s, s.transactions[t].challenge.challengeId, now)
      modifies this, challenges
      ensures Abs() == Reconciled(s, requests, ReconcilableTransactions(s, deviceId), now)
    {
      hide RequestsOk, TransactionsOk, Reconciled;
      ghost var done: set<Id> := {};
      var i := 0;
      while i < |pending|
        invariant 0 <= i <= |pending|
        invariant forall t :: t in done <==> t in pending[..i] && t in ReconcilableTransactions(s, deviceId)
        invariant Abs() == Reconciled(s, requests, done, now)
      {
        var t := pending[i];
        assert pending[..i + 1] == pending[..i] + [t] && t !in pending[..i] && t in pending;
        OthersUntouched(s, requests, done, now);
        TransactionStays(s, requests, done, t, now);
        if challenges.records[transactions[t].challenge.challengeId].status != Confirmed {
          DeclineTransaction(s, requests, done, t, now);
          done := done + {t};
        }
        i := i + 1;
      }
      assert pending[..i] == pending;
      assert done == ReconcilableTransactions(s, deviceId);
    }

    // ---------- the public calls ----------

    method EnrollTrustedDevice(subjectId: Id, keyId: Id, publicKey: string, deviceId: Id, now: Time) returns (outcome: Outcome)
      modifies this
      ensures (Abs(), outcome) == Enroll(crypto, old(Abs()), subjectId, keyId, publicKey, deviceId, now)
    {
      hide KeyIdTaken, PublicKeyTaken;
      if deviceId in devices { return Threw(DuplicateDevice); }
      outcome := AssertKeyIdAvailable(crypto, devices, keyId, None);
      if outcome.Threw? { return; }
      if crypto.fingerprint(publicKey).None? { return Threw(InvalidPublicKey); }
      outcome := AssertPublicKeyAvailable(crypto, devices, publicKey, None);
      if outcome.Threw? { return; }
      devices := devices[deviceId := Device(deviceId, subjectId, keyId, publicKey, Active)];
      audit := audit + [AuditEntry(DeviceEnrolled, deviceId, now)];
      return Done;
    }

    method RevokeTrustedDevice(deviceId: Id, now: Time) returns (outcome: Outcome)
      requires Inv(crypto, Abs())
      modifies this, challenges
      ensures (Abs(), outcome) == Revoke(old(Abs()), deviceId, now)
    {
      InvalidateFrame(Abs(), deviceId, now);
      hide Inv, Invalidate;
      if deviceId !in devices { return Threw(UnknownDevice); }
      var device := devices[deviceId];
      if device.status == Revoked { return Threw(DeviceAlreadyRevoked); }
      outcome := InvalidateOutstandingChallenges(deviceId, now);
      if outcome.Threw? { return; }
      devices := devices[deviceId := device.(status := Revoked)];
      audit := audit + [AuditEntry(DeviceRevokedEvent, deviceId, now)];
      return Done;
    }

    method MarkTrustedDeviceCompromised(deviceId: Id, now: Time) returns (outcome: Outcome)
      requires Inv(crypto, Abs())
      modifies this, challenges
      ensures (Abs(), outcome) == MarkCompromised(old(Abs()), deviceId, now)
    {
      InvalidateFrame(Abs(), deviceId, now);
      hide Inv, Invalidate;
      if deviceId !in devices { return Threw(UnknownDevice); }
      var device := devices[deviceId];
      if device.status != Active { return Threw(DeviceNotActive); }
      outcome := InvalidateOutstandingChallenges(deviceId, now);
      if outcome.Threw? { return; }
      devices := devices[deviceId := device.(status := Revoked)];
      audit := audit + [AuditEntry(DeviceCompromised, deviceId, now)];
      return Done;
    }

    method RotateTrustedDeviceKey(deviceId: Id, keyId: Id, publicKey: string, now: Time) returns (outcome: Outcome)
      requires Inv(crypto, Abs())
      modifies this, challenges
      ensures (Abs(), outcome) == Rotate(crypto, old(Abs()), deviceId, keyId, publicKey, now)
    {
      InvalidateFrame(Abs(), deviceId, now);
      hide Inv, Invalidate, KeyIdTaken, PublicKeyTaken;
      if deviceId !in devices { return Threw(UnknownDevice); }
      var device := devices[deviceId];
      if device.status != Active { return Threw(DeviceNotActive); }
      if keyId == device.keyId { return Threw(SameKeyId); }
      outcome := AssertKeyIdAvailable(crypto, devices, keyId, Some(deviceId));
      if outcome.Threw? { return; }
      if crypto.fingerprint(publicKey).None? { return Threw(InvalidPublicKey); }
      if crypto.fingerprint(publicKey) == crypto.fingerprint(device.publicKey) { return Threw(SamePublicKey); }
      outcome := AssertPublicKeyAvailable(crypto, devices, publicKey, Some(deviceId));
      if outcome.Threw? { return; }
      outcome := InvalidateOutstandingChallenges(deviceId, now);
      if outcome.Threw? { return; }
      devices := devices[deviceId := device.(keyId := keyId, publicKey := publicKey)];
      audit := audit + [AuditEntry(DeviceKeyRotated, deviceId, now)];
      return Done;
    }

    method RequestProvisioning(
      subjectId: Id, accountId: Id, tokenId: Id, deviceId: Id, capMinor: int, requestId: Id, challengeId: Id, now: Time)
      returns (outcome: Outcome)
      modifies this, challenges
      ensures (Abs(), outcome)
           == Provision(old(Abs()), subjectId, accountId, tokenId, deviceId, capMinor, requestId, challengeId, now)
    {
      if tokenId in tokens { return Threw(DuplicateToken); }
      if !SafeInteger(capMinor) || capMinor <= 0 || capMinor > MAX_CAP_MINOR { return Threw(InvalidCap); }
      outcome := RequireActiveDevice(Abs(), deviceId, Some(subjectId));
      if outcome.Threw? { return; }
      tokens := tokens[tokenId := Token(tokenId, subjectId, accountId, TokenPending, Some(Caps(capMinor, capMinor * 2)))];
      var state := TransitionProvisioning(ProvRequested, ProvRiskScored);
      state := TransitionProvisioning(state.value, ProvTrustedDeviceChallenge);
      var challenge := challenges.Create(
        ProvisionPaymentToken, challengeId, subjectId, accountId, tokenId, deviceId, None, PROVISIONING_TTL_MS, now);
      provisioning := provisioning[requestId := Request(requestId, tokenId, deviceId, state.value, challenge.value)];
      audit := audit + [AuditEntry(ProvisioningChallengeCreated, requestId, now)];
      return Done;
    }

    method ApproveProvisioning(requestId: Id, approval: Approval, now: Time, activation: Activation) returns (outcome: Outcome)
      modifies this, challenges
      ensures (Abs(), outcome) == Approve(crypto, old(Abs()), requestId, approval, activation, now)
    {
      hide ConsumeStep;
      if requestId !in provisioning { return Threw(UnknownRequest); }
      var request := provisioning[requestId];
      outcome := RequireActiveDevice(Abs(), request.deviceId, None);
      if outcome.Threw? { return; }
      var device := devices[request.deviceId];
      if approval.keyId != device.keyId { return Threw(KeyIdMismatch); }
      outcome := challenges.Consume(crypto, approval, device.publicKey, now);
      if outcome.Threw? { return; }
      var approved := TransitionProvisioning(request.state, ProvApproved);
      if approved.None? { return Threw(InvalidTransition); }
      var activated := TransitionProvisioning(approved.value, ActivatedRequest(activation));
      request := request.(state := activated.value);
      provisioning := provisioning[requestId := request];
      if request.tokenId !in tokens { return Threw(UnknownToken); }
      var token := tokens[request.tokenId];
      if activation == Capped {
        token := token.(state := TokenActiveCapped);
      } else {
        token := token.(state := TokenActiveFull, caps := None);
      }
      tokens := tokens[request.tokenId := token];
      audit := audit + [AuditEntry(ProvisioningApproved, requestId, now)];
      return Done;
    }

    method Authorize(
      transactionId: Id, tokenId: Id, merchantId: Id, amountMinor: int, strategy: Strategy, deviceId: Id, challengeId: Id,
      now: Time) returns (outcome: Outcome)
      modifies this, challenges
      ensures (Abs(), outcome)
           == AuthorizeStep(old(Abs()), transactionId, tokenId, merchantId, amountMinor, strategy, deviceId, challengeId, now)
    {
      if transactionId in transactions { return Threw(DuplicateTransaction); }
      if !SafeInteger(amountMinor) || amountMinor <= 0 { return Threw(InvalidAmount); }
      if tokenId !in tokens { return Threw(UnknownToken); }
      var token := tokens[tokenId];
      if token.state == TokenPending || token.state == TokenDeclined { return Threw(TokenNotSpendable); }
      outcome := RequireActiveDevice(Abs(), deviceId, Some(token.subjectId));
      if outcome.Threw? { return; }
      var caps := if token.caps.Some? then token.caps.value else Caps(0, 0);
      if token.state == TokenActiveCapped && amountMinor > caps.perTransactionMinor { return Threw(ExceedsCap); }
      var capReservation: Option<Reservation> := None;
      if token.state == TokenActiveCapped {
        var key := SpendKey(tokenId, Day(now));
        var nextTotal := SpendAt(dailySpend, key) + amountMinor;
        if nextTotal > caps.dailyMinor { return Threw(ExceedsDailyCap); }
        dailySpend := dailySpend[key := nextTotal];
        capReservation := Some(Reservation(key, amountMinor));
      }
      var state := TransitionTransaction(TxReceived, TxConfirmationPending);
      var challenge := challenges.Create(
        Purpose.ConfirmTransaction, challengeId, token.subjectId, token.accountId, tokenId, deviceId,
        Some(Payment(transactionId, merchantId, amountMinor, USD)), CONFIRMATION_TTL_MS, now);
      transactions := transactions[transactionId := Transaction(
        transactionId, tokenId, merchantId, amountMinor, USD, state.value, strategy, challenge.value, capReservation)];
      audit := audit + [AuditEntry(TransactionPending, transactionId, now)];
      return Done;
    }

    method ConfirmTransaction(transactionId: Id, approval: Approval, now: Time) returns (outcome: Outcome)
      modifies this, challenges
      ensures (Abs(), outcome) == Confirm(crypto, old(Abs()), transactionId, approval, now)
    {
      hide ConsumeStep;
      if transactionId !in transactions { return Threw(UnknownTransaction); }
      var transaction := transactions[transactionId];
      outcome := RequireActiveDevice(Abs(), transaction.challenge.deviceId, None);
      if outcome.Threw? { return; }
      var device := devices[transaction.challenge.deviceId];
      if approval.keyId != device.keyId { return Threw(KeyIdMismatch); }
      outcome := challenges.Consume(crypto, approval, device.publicKey, now);
      if outcome.Threw? { return; }
      var state := TransitionTransaction(transaction.state, TxConfirmed);
      if state.None? { return Threw(InvalidTransition); }
      transactions := transactions[transactionId := transaction.(state := state.value)];
      audit := audit + [AuditEntry(TransactionConfirmedEvent, transactionId, now)];
      return Done;
    }

    method ExpireAndReverse(transactionId: Id, now: Time) returns (outcome: Outcome)
      modifies this, challenges
      ensures (Abs(), outcome) == Expire(old(Abs()), transactionId, now)
    {
      hide CancelStep;
      if transactionId !in transactions { return Threw(UnknownTransaction); }
      var transaction := transactions[transactionId];
      outcome := challenges.Cancel(transaction.challenge.challengeId, now);
      if outcome.Threw? { return; }
      var state := TransitionTransaction(transaction.state, TxExpired);
      if state.None? { return Threw(InvalidTransition); }
      state := TransitionTransaction(state.value, TxReversalRequested);
      state := TransitionTransaction(state.value, TxReversed);
      ReleaseCapReservation(transaction);
      transactions := transactions[transactionId := Release(transaction.(state := state.value))];
      audit := audit + [AuditEntry(TransactionReversed, transactionId, now)];
      return Done;
    }

    method ReceiveClearing(transactionId: Id, now: Time) returns (outcome: Outcome)
      modifies this
      ensures (Abs(), outcome) == Clear(old(Abs()), transactionId, now)
    {
      if transactionId !in transactions { return Threw(UnknownTransaction); }
      var transaction := transactions[transactionId];
      var reversedBeforeClearing := transaction.state in {TxExpired, TxReversalRequested, TxReversed};
      var state := TransitionTransaction(transaction.state, TxClearingReceived);
      if state.None? { return Threw(InvalidTransition); }
      state := TransitionTransaction(state.value, if reversedBeforeClearing then TxException else TxSettled);
      transactions := transactions[transactionId := transaction.(state := state.value)];
      audit := audit + [AuditEntry(ClearingReceived, transactionId, now)];
      return Done;
    }

    /** Any public call: the step of the model, and an engine that satisfies the invariant again. */
    method Perform(call: Call, now: Time) returns (outcome: Outcome)
      requires Inv(crypto, Abs()) && FreshIds(Abs(), call)
      modifies this, challenges
      ensures (Abs(), outcome) == Step(crypto, old(Abs()), call, now) && Inv(crypto, Abs())
    {
      StepKeepsInv(crypto, Abs(), call, now);
      hide Inv, FreshIds, Enroll, Revoke, MarkCompromised, Rotate, Provision, Approve, AuthorizeStep, Confirm, Expire, Clear;
      match call {
        case EnrollTrustedDevice(subjectId, keyId, publicKey, deviceId) =>
          outcome := EnrollTrustedDevice(subjectId, keyId, publicKey, deviceId, now);
        case RevokeTrustedDevice(deviceId) => outcome := RevokeTrustedDevice(deviceId, now);
        case MarkTrustedDeviceCompromised(deviceId) => outcome := MarkTrustedDeviceCompromised(deviceId, now);
        case RotateTrustedDeviceKey(deviceId, keyId, publicKey) => outcome := RotateTrustedDeviceKey(deviceId, keyId, publicKey, now);
        case RequestProvisioning(subjectId, accountId, tokenId, deviceId, capMinor, requestId, challengeId) =>
          outcome := RequestProvisioning(subjectId, accountId, tokenId, deviceId, capMinor, requestId, challengeId, now);
        case ApproveProvisioning(requestId, approval, activation) =>
          outcome := ApproveProvisioning(requestId, approval, now, activation);
        case Authorize(transactionId, tokenId, merchantId, amountMinor, strategy, deviceId, challengeId) =>
          outcome := Authorize(transactionId, tokenId, merchantId, amountMinor, strategy, deviceId, challengeId, now);
        case ConfirmTransactionCall(transactionId, approval) => outcome := ConfirmTransaction(transactionId, approval, now);
        case ExpireAndReverse(transactionId) => outcome := ExpireAndReverse(transactionId, now);
        case ReceiveClearing(transactionId) => outcome := ReceiveClearing(transactionId, now);
      }
    }
  }
}
