/** The partner webhook receiver: signature and replay-window checks, one-time nonces, idempotent
    application.  Hashing and the MAC are uninterpreted. */
module Webhook {
  import opened Common
  import opened Wrappers

  type Text = string
  type Time = int

  const SIGNATURE_VERSION: Text := "v1"
  const DEFAULT_WINDOW := 300
  const MAX_WINDOW := 3_600
  const MAX_WEBHOOK_BYTES := 1_048_576
  const MIN_SECRET_BYTES := 32

  /** Body and key bytes, as texts of bytes. */
  datatype Crypto = Crypto(
    digest: Text -> Text,
    hmac: (Text, Text) -> Text,
    /** the event id of a well-formed envelope */
    envelope: Text -> Option<Text>)

  datatype Headers = Headers(version: Text, keyId: Text, nonce: Text, timestamp: Text, idempotencyKey: Text, signature: Text)

  datatype WebhookError =
    | TooLarge | BadVersion | BadToken | BadTimestamp | BadWindow | OutsideWindow | UnknownKey | BadKey | BadSignature
    | ReplayDetected | BadBody | KeyReused | ApplyFailed

  predicate Token(s: Text) { Identifier(s, 128) }

  /** `0` or up to sixteen digits without a leading zero. */
  predicate TimestampOk(s: Text) {
    && 1 <= |s| <= 16 && (forall i :: 0 <= i < |s| ==> Digit(s[i]))
    && (s[0] == '0' ==> |s| == 1)
  }

  function Value(s: Text): nat
    requires forall i :: 0 <= i < |s| ==> Digit(s[i])
  {
    if s == "" then 0
    else
      assert Digit(s[|s| - 1]);
      Value(s[..|s| - 1]) * 10 + (s[|s| - 1] as int - '0' as int)
  }

  // ---------- what is signed ----------

  function CanonicalRequest(c: Crypto, timestamp: Text, nonce: Text, idempotencyKey: Text, body: Text): Text {
    SIGNATURE_VERSION + "\n" + (timestamp + "\n" + (nonce + "\n" + (idempotencyKey + "\n" + c.digest(body))))
  }

  predicate OneLine(s: Text) { forall i :: 0 <= i < |s| ==> s[i] != '\n' }

  lemma {:induction false} FirstLine(a: Text, b: Text, x: Text, y: Text)
    requires OneLine(a) && OneLine(b) && a + "\n" + x == b + "\n" + y
    ensures a == b && x == y
    decreases |a|
  {
    var s, t := a + "\n" + x, b + "\n" + y;
    assert s[0] == t[0];
    if a == "" {
      assert s[1..] == x && t[1..] == y;
    } else {
      assert s[1..] == a[1..] + "\n" + x && t[1..] == b[1..] + "\n" + y;
      FirstLine(a[1..], b[1..], x, y);
      assert a == [a[0]] + a[1..] && b == [b[0]] + b[1..];
    }
  }

  lemma TokensAreOneLine(s: Text)
    requires Token(s) || TimestampOk(s)
    ensures OneLine(s)
  {
  }

  /** The signed string determines timestamp, nonce, idempotency key and body digest. */
  lemma SignedStringDeterminesFields(
    c: Crypto, t1: Text, n1: Text, k1: Text, b1: Text, t2: Text, n2: Text, k2: Text, b2: Text)
    requires TimestampOk(t1) && TimestampOk(t2) && Token(n1) && Token(n2) && Token(k1) && Token(k2)
    requires CanonicalRequest(c, t1, n1, k1, b1) == CanonicalRequest(c, t2, n2, k2, b2)
    ensures t1 == t2 && n1 == n2 && k1 == k2 && c.digest(b1) == c.digest(b2)
  {
    TokensAreOneLine(t1);
    TokensAreOneLine(t2);
    TokensAreOneLine(n1);
    TokensAreOneLine(n2);
    TokensAreOneLine(k1);
    TokensAreOneLine(k2);
    hide Token, TimestampOk, OneLine;
    var r1, r2 := k1 + "\n" + c.digest(b1), k2 + "\n" + c.digest(b2);
    var s1, s2 := n1 + "\n" + r1, n2 + "\n" + r2;
    assert OneLine(SIGNATURE_VERSION) by { VersionIsOneLine(); }
    FirstLine(SIGNATURE_VERSION, SIGNATURE_VERSION, t1 + "\n" + s1, t2 + "\n" + s2);
    FirstLine(t1, t2, s1, s2);
    FirstLine(n1, n2, r1, r2);
    FirstLine(k1, k2, c.digest(b1), c.digest(b2));
  }

  lemma VersionIsOneLine()
    ensures OneLine(SIGNATURE_VERSION)
  {
  }

  // ---------- the stores ----------

  /** Purge what has expired, then record the key unless it is there. */
  function ConsumedOnce(entries: map<Text, Time>, key: Text, expiresAt: Time, now: Time): (map<Text, Time>, bool) {
    var kept := map k | k in entries && entries[k] > now :: entries[k];
    if key in kept then (kept, false) else (kept[key := expiresAt], true)
  }

  datatype Receipt = Receipt(requestHash: Text, eventId: Text)

  // ---------- one delivery ----------

  datatype Delivery = Delivery(headers: Headers, body: Text, now: Time, applies: bool)

  function NonceKey(h: Headers): Text { h.keyId + ":" + h.nonce }
  function EntryKey(h: Headers): Text { h.keyId + ":" + h.idempotencyKey }

  type Keys = map<Text, Text>

  /** Everything checked before the nonce is consumed. */
  function CheckError(c: Crypto, keys: Keys, d: Delivery, window: int): Option<WebhookError> {
    var h := d.headers;
    if |d.body| > MAX_WEBHOOK_BYTES then Some(TooLarge)
    else if h.version != SIGNATURE_VERSION then Some(BadVersion)
    else if !Token(h.keyId) || !Token(h.nonce) || !Token(h.idempotencyKey) then Some(BadToken)
    else if !TimestampOk(h.timestamp) then Some(BadTimestamp)
    else if window < 1 || window > MAX_WINDOW then Some(BadWindow)
    else if !(-MAX_SAFE_INTEGER <= d.now <= MAX_SAFE_INTEGER) || d.now - Value(h.timestamp) > window
         || Value(h.timestamp) - d.now > window then Some(OutsideWindow)
    else if h.keyId !in keys then Some(UnknownKey)
    else if |keys[h.keyId]| < MIN_SECRET_BYTES then Some(BadKey)
    else if h.signature != SIGNATURE_VERSION + "=" + c.hmac(keys[h.keyId], CanonicalRequest(c, h.timestamp, h.nonce, h.idempotencyKey, d.body))
    then Some(BadSignature)
    else None
  }

  /** The stores, and a record of verified deliveries and completed applications that no code reads. */
  datatype Entry =
    | Verified(nonceKey: Text, expiresAt: Time, at: Time, delivery: Delivery)
    | Applied(entryKey: Text, requestHash: Text, delivery: Delivery)

  datatype State = State(replay: map<Text, Time>, receipts: map<Text, Receipt>, log: seq<Entry>)

  datatype Reply = Accepted(eventId: Text) | Duplicate(eventId: Text) | Refused(error: WebhookError)

  function Expiry(d: Delivery, window: int): Time
    requires TimestampOk(d.headers.timestamp)
  {
    Value(d.headers.timestamp) + window
  }

  /** Verification: checks, then the nonce. */
  function Verify(c: Crypto, keys: Keys, s: State, d: Delivery, window: int): (State, Option<WebhookError>) {
    var failure := CheckError(c, keys, d, window);
    if failure.Some? then (s, failure)
    else
      var (replay, consumed) := ConsumedOnce(s.replay, NonceKey(d.headers), Expiry(d, window), d.now);
      if !consumed then (s.(replay := replay), Some(ReplayDetected))
      else (s.(replay := replay, log := s.log + [Verified(NonceKey(d.headers), Expiry(d, window), d.now, d)]), None)
  }

  function Receive(c: Crypto, keys: Keys, s: State, d: Delivery): (State, Reply) {
    var (s1, failure) := Verify(c, keys, s, d, DEFAULT_WINDOW);
    if failure.Some? then (s1, Refused(failure.value))
    else if c.envelope(d.body).None? then (s1, Refused(BadBody))
    else
      var key, requestHash := EntryKey(d.headers), c.digest(d.body);
      if key in s1.receipts then
        (s1, if s1.receipts[key].requestHash != requestHash then Refused(KeyReused) else Duplicate(s1.receipts[key].eventId))
      else if !d.applies then (s1, Refused(ApplyFailed))
      else
        (s1.(receipts := s1.receipts[key := Receipt(requestHash, c.envelope(d.body).value)],
             log := s1.log + [Applied(key, requestHash, d)]), Accepted(c.envelope(d.body).value))
  }

  function After(c: Crypto, keys: Keys, s: State, deliveries: seq<Delivery>): State
    decreases |deliveries|
  {
    if deliveries == [] then s else Receive(c, keys, After(c, keys, s, deliveries[..|deliveries| - 1]), deliveries[|deliveries| - 1]).0
  }

  const EmptyReceiver := State(map[], map[], [])

  predicate ClockForward(deliveries: seq<Delivery>) {
    forall i, j :: 0 <= i < j < |deliveries| ==> deliveries[i].now <= deliveries[j].now
  }

  // ---------- invariants ----------

  predicate AppliedOnce(log: seq<Entry>) {
    forall i, j :: 0 <= i < j < |log| && log[i].Applied? && log[j].Applied? ==> log[i].entryKey != log[j].entryKey
  }

  /** Of two verified deliveries with one key id and nonce, the second comes when the first's window is over. */
  predicate NoncesWait(log: seq<Entry>) {
    forall i, j :: 0 <= i < j < |log| && log[i].Verified? && log[j].Verified? && log[i].nonceKey == log[j].nonceKey
      ==> log[j].at >= log[i].expiresAt
  }

  ghost predicate ReceiptsLogged(s: State) {
    && (forall i :: 0 <= i < |s.log| && s.log[i].Applied? ==>
          s.log[i].entryKey in s.receipts && s.receipts[s.log[i].entryKey].requestHash == s.log[i].requestHash)
    && AppliedOnce(s.log)
  }

  /** A verified nonce is remembered until its window is over. */
  ghost predicate NoncesKept(s: State, clock: Time) {
    && (forall i :: 0 <= i < |s.log| && s.log[i].Verified? && s.log[i].expiresAt > clock ==>
          s.log[i].nonceKey in s.replay && s.replay[s.log[i].nonceKey] >= s.log[i].expiresAt)
    && NoncesWait(s.log)
  }

  lemma ReceiveKeepsReceipts(c: Crypto, keys: Keys, s: State, d: Delivery)
    requires ReceiptsLogged(s)
    ensures ReceiptsLogged(Receive(c, keys, s, d).0)
  {
    hide CheckError, ConsumedOnce;
  }

  lemma VerifyKeepsNonces(c: Crypto, keys: Keys, s: State, d: Delivery, window: int, clock: Time)
    requires NoncesKept(s, clock) && clock <= d.now
    ensures NoncesKept(Verify(c, keys, s, d, window).0, d.now)
  {
    hide Value, Token;
  }

  lemma ReceiveKeepsNonces(c: Crypto, keys: Keys, s: State, d: Delivery, clock: Time)
    requires NoncesKept(s, clock) && clock <= d.now
    ensures NoncesKept(Receive(c, keys, s, d).0, d.now)
  {
    VerifyKeepsNonces(c, keys, s, d, DEFAULT_WINDOW, clock);
    hide Verify;
  }

  lemma {:induction false} RunKeepsReceipts(c: Crypto, keys: Keys, deliveries: seq<Delivery>)
    ensures ReceiptsLogged(After(c, keys, EmptyReceiver, deliveries))
    decreases |deliveries|
  {
    hide Receive;
    if deliveries != [] {
      RunKeepsReceipts(c, keys, deliveries[..|deliveries| - 1]);
      ReceiveKeepsReceipts(c, keys, After(c, keys, EmptyReceiver, deliveries[..|deliveries| - 1]), deliveries[|deliveries| - 1]);
    }
  }

  /** Over any sequence of deliveries `apply` completes at most once for each key-id and idempotency-key
      entry. */
  lemma AppliesAtMostOnce(c: Crypto, keys: Keys, deliveries: seq<Delivery>)
    ensures AppliedOnce(After(c, keys, EmptyReceiver, deliveries).log)
  {
    RunKeepsReceipts(c, keys, deliveries);
  }

  lemma {:induction false} RunKeepsNonces(c: Crypto, keys: Keys, deliveries: seq<Delivery>, clock: Time)
    requires ClockForward(deliveries) && forall i :: 0 <= i < |deliveries| ==> deliveries[i].now <= clock
    ensures NoncesKept(After(c, keys, EmptyReceiver, deliveries), clock)
    decreases |deliveries|
  {
    hide Receive;
    if deliveries != [] {
      var n := |deliveries| - 1;
      RunKeepsNonces(c, keys, deliveries[..n], deliveries[n].now);
      var s := After(c, keys, EmptyReceiver, deliveries[..n]);
      ReceiveKeepsNonces(c, keys, s, deliveries[n], deliveries[n].now);
      LaterStillKept(Receive(c, keys, s, deliveries[n]).0, deliveries[n].now, clock);
    }
  }

  lemma LaterStillKept(s: State, clock: Time, later: Time)
    requires NoncesKept(s, clock) && clock <= later
    ensures NoncesKept(s, later)
  {
  }

  /** With a clock that does not run backwards, two verified deliveries with one key id and nonce are
      separated by at least the first one's remaining window. */
  lemma NoncesSeparated(c: Crypto, keys: Keys, deliveries: seq<Delivery>)
    requires ClockForward(deliveries)
    ensures NoncesWait(After(c, keys, EmptyReceiver, deliveries).log)
  {
    hide NoncesWait;
    if deliveries == [] {
      RunKeepsNonces(c, keys, deliveries, 0);
    } else {
      RunKeepsNonces(c, keys, deliveries, deliveries[|deliveries| - 1].now);
    }
    assert forall s, clock :: NoncesKept(s, clock) ==> NoncesWait(s.log);
  }

  /** The same headers verify again, on a clock that does not run backwards, exactly at the last second
      of their own window and only if nothing with that nonce is still remembered: the window is closed
      at its end, and the memory of the nonce ends there too. */
  lemma SameHeadersVerifyAgainIff(c: Crypto, keys: Keys, s: State, first: Delivery, again: Delivery)
    requires first.headers == again.headers && first.body == again.body && first.now <= again.now <= MAX_SAFE_INTEGER
    requires Verify(c, keys, s, first, DEFAULT_WINDOW).1.None?
    ensures Verify(c, keys, Verify(c, keys, s, first, DEFAULT_WINDOW).0, again, DEFAULT_WINDOW).1.None?
       <==> again.now == Expiry(first, DEFAULT_WINDOW)
  {
    hide Token, Value;
  }

  /** A receipt, once given, never changes: a redelivery under a new nonce is a duplicate with the same
      event id, or is refused because its body differs. */
  lemma {:induction false} ReceiptsStay(c: Crypto, keys: Keys, s: State, deliveries: seq<Delivery>)
    ensures forall k <- s.receipts :: k in After(c, keys, s, deliveries).receipts && After(c, keys, s, deliveries).receipts[k] == s.receipts[k]
    decreases |deliveries|
  {
    hide CheckError, ConsumedOnce;
    if deliveries != [] { ReceiptsStay(c, keys, s, deliveries[..|deliveries| - 1]); }
  }

  lemma RedeliveryIsDuplicate(c: Crypto, keys: Keys, s: State, d: Delivery, between: seq<Delivery>, again: Delivery)
    requires Receive(c, keys, s, d).1.Accepted? && EntryKey(again.headers) == EntryKey(d.headers)
    ensures var later := After(c, keys, Receive(c, keys, s, d).0, between);
            var (s', reply) := Receive(c, keys, later, again);
            && !reply.Accepted? && s'.receipts == later.receipts
            && (reply.Duplicate? ==> reply.eventId == Receive(c, keys, s, d).1.eventId && c.digest(again.body) == c.digest(d.body))
  {
    ReceiptsStay(c, keys, Receive(c, keys, s, d).0, between);
    hide CheckError, ConsumedOnce, After;
  }

  // ---------- what is verified ----------

  /** The MAC of the five signed lines under the key the headers name. */
  predicate SignedBy(c: Crypto, keys: Keys, d: Delivery) {
    var h := d.headers;
    && h.keyId in keys && |keys[h.keyId]| >= 32
    && h.signature
       == "v1=" + c.hmac(keys[h.keyId], "v1\n" + h.timestamp + "\n" + h.nonce + "\n" + h.idempotencyKey + "\n" + c.digest(d.body))
  }

  predicate WellShaped(d: Delivery) {
    && |d.body| <= 1_048_576 && d.headers.version == "v1"
    && Token(d.headers.keyId) && Token(d.headers.nonce) && Token(d.headers.idempotencyKey) && TimestampOk(d.headers.timestamp)
  }

  /** A delivery verifies exactly when it is well shaped, sent within the window of a permitted size, signed
      with a known key, and its nonce is not remembered past now. */
  lemma VerifiedIff(c: Crypto, keys: Keys, s: State, d: Delivery, window: int)
    ensures Verify(c, keys, s, d, window).1.None? <==>
              && WellShaped(d) && SignedBy(c, keys, d) && 1 <= window <= 3_600
              && -MAX_SAFE_INTEGER <= d.now <= MAX_SAFE_INTEGER
              && Value(d.headers.timestamp) - window <= d.now <= Value(d.headers.timestamp) + window
              && var nonce := d.headers.keyId + ":" + d.headers.nonce; (nonce in s.replay ==> s.replay[nonce] <= d.now)
  {
    SameLines(c, d);
    hide Token, TimestampOk, Value, CanonicalRequest;
  }

  lemma SameLines(c: Crypto, d: Delivery)
    ensures var h := d.headers;
            "v1\n" + h.timestamp + "\n" + h.nonce + "\n" + h.idempotencyKey + "\n" + c.digest(d.body)
            == CanonicalRequest(c, h.timestamp, h.nonce, h.idempotencyKey, d.body)
  {
    var h := d.headers;
    var end := h.idempotencyKey + "\n" + c.digest(d.body);
    assert "v1\n" == SIGNATURE_VERSION + "\n";
    assert "v1\n" + h.timestamp + "\n" + h.nonce + "\n" + h.idempotencyKey + "\n" + c.digest(d.body)
        == "v1\n" + (h.timestamp + "\n" + (h.nonce + "\n" + end));
  }

  /** What verifying leaves: nothing changes unless the nonce was asked for; then what has expired is
      forgotten, and a nonce that verified is remembered until its window is over. */
  lemma VerifyRemembers(c: Crypto, keys: Keys, s: State, d: Delivery, window: int)
    ensures var (s', failure) := Verify(c, keys, s, d, window);
            var nonce := d.headers.keyId + ":" + d.headers.nonce;
            && s'.receipts == s.receipts
            && (failure.Some? && failure != Some(ReplayDetected) ==> s' == s)
            && (failure == Some(ReplayDetected) ==> s'.log == s.log && nonce in s.replay && s.replay[nonce] > d.now)
            && (failure == Some(ReplayDetected) || failure.None? ==>
                  forall k :: k != nonce ==> (k in s'.replay <==> k in s.replay && s.replay[k] > d.now)
                                             && (k in s'.replay ==> s'.replay[k] == s.replay[k]))
            && (failure.None? ==>
                  && TimestampOk(d.headers.timestamp) && nonce in s'.replay
                  && s'.replay[nonce] == Value(d.headers.timestamp) + window
                  && s'.log == s.log + [Verified(nonce, Value(d.headers.timestamp) + window, d.now, d)])
  {
    hide Token, Value, CanonicalRequest;
  }

  /** The entry names its delivery's own nonce, entry and digest, and that delivery carried the signature of
      its own content. */
  predicate EntrySigned(c: Crypto, keys: Keys, e: Entry) {
    var d := e.delivery;
    && WellShaped(d) && SignedBy(c, keys, d)
    && (e.Verified? ==> e.nonceKey == NonceKey(d.headers) && e.at == d.now)
    && (e.Applied? ==> e.entryKey == EntryKey(d.headers) && e.requestHash == c.digest(d.body) && d.applies && c.envelope(d.body).Some?)
  }

  /** Every entry of the log comes from a delivery of the run. */
  ghost predicate LogSigned(c: Crypto, keys: Keys, log: seq<Entry>, deliveries: seq<Delivery>) {
    forall i :: 0 <= i < |log| ==> log[i].delivery in deliveries && EntrySigned(c, keys, log[i])
  }

  lemma LogSnoc(c: Crypto, keys: Keys, log: seq<Entry>, more: seq<Entry>, deliveries: seq<Delivery>, d: Delivery)
    requires LogSigned(c, keys, log, deliveries)
    requires forall i :: 0 <= i < |more| ==> more[i].delivery == d && EntrySigned(c, keys, more[i])
    ensures LogSigned(c, keys, log + more, deliveries + [d])
  {
    hide EntrySigned;
  }

  /** What a delivery adds to the log: nothing, its verification, or that and its application. */
  lemma ReceiveAdds(c: Crypto, keys: Keys, s: State, d: Delivery) returns (more: seq<Entry>)
    ensures Receive(c, keys, s, d).0.log == s.log + more
    ensures forall i :: 0 <= i < |more| ==> more[i].delivery == d && EntrySigned(c, keys, more[i])
  {
    hide Verify, WellShaped, SignedBy, Value;
    VerifiedIff(c, keys, s, d, DEFAULT_WINDOW);
    VerifyRemembers(c, keys, s, d, DEFAULT_WINDOW);
    var log := Receive(c, keys, s, d).0.log;
    more := log[|s.log|..];
  }

  lemma ReceiveLogs(c: Crypto, keys: Keys, s: State, d: Delivery, deliveries: seq<Delivery>)
    requires LogSigned(c, keys, s.log, deliveries)
    ensures LogSigned(c, keys, Receive(c, keys, s, d).0.log, deliveries + [d])
  {
    hide Receive, LogSigned, EntrySigned;
    var more := ReceiveAdds(c, keys, s, d);
    LogSnoc(c, keys, s.log, more, deliveries, d);
  }

  lemma {:induction false} EntriesAreSigned(c: Crypto, keys: Keys, deliveries: seq<Delivery>)
    ensures LogSigned(c, keys, After(c, keys, EmptyReceiver, deliveries).log, deliveries)
    decreases |deliveries|
  {
    hide Receive, LogSigned;
    if deliveries == [] {
      assert LogSigned(c, keys, [], []) by { NothingLogged(c, keys); }
    } else {
      var n := |deliveries| - 1;
      EntriesAreSigned(c, keys, deliveries[..n]);
      ReceiveLogs(c, keys, After(c, keys, EmptyReceiver, deliveries[..n]), deliveries[n], deliveries[..n]);
      assert deliveries == deliveries[..n] + [deliveries[n]];
    }
  }

  lemma NothingLogged(c: Crypto, keys: Keys)
    ensures LogSigned(c, keys, [], [])
  {
  }

  ghost predicate MacCollisionFree(c: Crypto) {
    forall k1, m1, k2, m2 {:trigger c.hmac(k1, m1), c.hmac(k2, m2)} :: c.hmac(k1, m1) == c.hmac(k2, m2) ==> k1 == k2 && m1 == m2
  }

  lemma OneSignatureOneRequest(c: Crypto, keys: Keys, d1: Delivery, d2: Delivery)
    requires MacCollisionFree(c) && WellShaped(d1) && WellShaped(d2) && SignedBy(c, keys, d1) && SignedBy(c, keys, d2)
    requires d1.headers.signature == d2.headers.signature
    ensures d1.headers.timestamp == d2.headers.timestamp && d1.headers.nonce == d2.headers.nonce
    ensures d1.headers.idempotencyKey == d2.headers.idempotencyKey && c.digest(d1.body) == c.digest(d2.body)
    ensures keys[d1.headers.keyId] == keys[d2.headers.keyId]
  {
    hide Token, TimestampOk;
    SameLines(c, d1);
    SameLines(c, d2);
    hide CanonicalRequest;
    var h1, h2 := d1.headers, d2.headers;
    SameSuffix(c.hmac(keys[h1.keyId], CanonicalRequest(c, h1.timestamp, h1.nonce, h1.idempotencyKey, d1.body)),
               c.hmac(keys[h2.keyId], CanonicalRequest(c, h2.timestamp, h2.nonce, h2.idempotencyKey, d2.body)));
    SignedStringDeterminesFields(c, h1.timestamp, h1.nonce, h1.idempotencyKey, d1.body, h2.timestamp, h2.nonce, h2.idempotencyKey, d2.body);
  }

  lemma SameSuffix(x: Text, y: Text)
    requires "v1=" + x == "v1=" + y
    ensures x == y
  {
    assert ("v1=" + x)[3..] == x && ("v1=" + y)[3..] == y;
  }

  /** Over any deliveries, with a collision-free MAC, two verified or applied deliveries that carry one
      signature agree in timestamp, nonce, idempotency key and body digest. */
  lemma SignaturesSeparate(c: Crypto, keys: Keys, deliveries: seq<Delivery>, i: nat, j: nat)
    requires MacCollisionFree(c)
    requires var log := After(c, keys, EmptyReceiver, deliveries).log;
             i < |log| && j < |log| && log[i].delivery.headers.signature == log[j].delivery.headers.signature
    ensures var log := After(c, keys, EmptyReceiver, deliveries).log;
            var h, g := log[i].delivery.headers, log[j].delivery.headers;
            && h.timestamp == g.timestamp && h.nonce == g.nonce && h.idempotencyKey == g.idempotencyKey
            && c.digest(log[i].delivery.body) == c.digest(log[j].delivery.body)
  {
    EntriesAreSigned(c, keys, deliveries);
    var log := After(c, keys, EmptyReceiver, deliveries).log;
    hide After, MacCollisionFree, WellShaped, SignedBy;
    OneSignatureOneRequest(c, keys, log[i].delivery, log[j].delivery);
  }

  // ---------- what a verified delivery is answered with ----------

  /** The first delivery under an entry is applied and accepted with its event id; one that fails to apply
      leaves no receipt. */
  lemma FirstIsApplied(c: Crypto, keys: Keys, s: State, d: Delivery)
    requires Verify(c, keys, s, d, 300).1.None?
    ensures var (s', reply) := Receive(c, keys, s, d);
            var entry := d.headers.keyId + ":" + d.headers.idempotencyKey;
            && (c.envelope(d.body).None? ==> reply == Refused(BadBody) && s'.receipts == s.receipts)
            && (c.envelope(d.body).Some? && entry !in s.receipts && d.applies ==>
                  && reply == Accepted(c.envelope(d.body).value)
                  && s'.receipts == s.receipts[entry := Receipt(c.digest(d.body), c.envelope(d.body).value)]
                  && |s'.log| == |s.log| + 2 && s'.log[|s.log| + 1] == Applied(entry, c.digest(d.body), d))
            && (c.envelope(d.body).Some? && entry !in s.receipts && !d.applies ==> reply == Refused(ApplyFailed) && s'.receipts == s.receipts)
  {
    VerifyRemembers(c, keys, s, d, DEFAULT_WINDOW);
    hide Verify, Value;
  }

  /** Once a delivery was accepted, every later one under its entry that verifies and is well formed is a
      duplicate with the first one's event id when its digest is the same, and refused when it is not;
      nothing is applied again. */
  lemma LaterIsDuplicate(c: Crypto, keys: Keys, s: State, d: Delivery, between: seq<Delivery>, again: Delivery)
    requires Receive(c, keys, s, d).1.Accepted? && EntryKey(again.headers) == EntryKey(d.headers)
    requires var later := After(c, keys, Receive(c, keys, s, d).0, between); Verify(c, keys, later, again, 300).1.None?
    requires c.envelope(again.body).Some?
    ensures var later := After(c, keys, Receive(c, keys, s, d).0, between);
            var (s', reply) := Receive(c, keys, later, again);
            && reply == (if c.digest(again.body) == c.digest(d.body) then Duplicate(Receive(c, keys, s, d).1.eventId) else Refused(KeyReused))
            && s'.receipts == later.receipts
  {
    ReceiptsStay(c, keys, Receive(c, keys, s, d).0, between);
    hide Verify, After;
    VerifyRemembers(c, keys, After(c, keys, Receive(c, keys, s, d).0, between), again, 300);
  }

  // ---------- signing ----------

  /** A number in decimal digits. */
  function Decimal(n: nat): (t: Text)
    ensures t != "" && forall i :: 0 <= i < |t| ==> Digit(t[i])
  {
    if n < 10 then ['0' + n as char] else Decimal(n / 10) + ['0' + (n % 10) as char]
  }

  lemma {:induction false} ValueOfDecimal(n: nat)
    ensures Value(Decimal(n)) == n && (n > 0 ==> Decimal(n)[0] != '0')
  {
    if n >= 10 { ValueOfDecimal(n / 10); }
  }

  function Power10(k: nat): nat { if k == 0 then 1 else 10 * Power10(k - 1) }

  lemma {:induction false} DecimalLength(n: nat, k: nat)
    requires k >= 1 && n < Power10(k)
    ensures |Decimal(n)| <= k
    decreases k
  {
    if n >= 10 { DecimalLength(n / 10, k - 1); }
  }

  lemma {:induction false} DecimalOfValue(s: Text)
    requires TimestampOk(s)
    ensures Decimal(Value(s)) == s && Value(s) < Power10(|s|) && (|s| > 1 ==> Value(s) >= 10)
    decreases |s|
  {
    var n := |s| - 1;
    assert s == s[..n] + [s[n]];
    if n > 0 {
      DecimalOfValue(s[..n]);
      assert s[..n][0] == s[0];
    } else {
      assert s[..0] == "" && Value(s[..0]) == 0;
    }
  }

  /** Timestamps are accepted exactly when they are the decimal text of a number of at most sixteen digits. */
  lemma TimestampIff(s: Text)
    ensures TimestampOk(s) <==> exists n: nat :: n < 10_000_000_000_000_000 && s == Decimal(n)
  {
    SixteenDigits();
    if TimestampOk(s) {
      DecimalOfValue(s);
      PowersGrow(|s|, 16);
    }
    if n: nat :| n < 10_000_000_000_000_000 && s == Decimal(n) {
      ValueOfDecimal(n);
      DecimalLength(n, 16);
    }
  }

  lemma {:induction false} PowersGrow(a: nat, b: nat)
    requires a <= b
    ensures Power10(a) <= Power10(b)
  {
    if a < b { PowersGrow(a, b - 1); }
  }

  /** The headers of a signed request. */
  function SignedHeaders(c: Crypto, keyId: Text, secret: Text, nonce: Text, idempotencyKey: Text, at: nat, body: Text): Headers {
    Headers(SIGNATURE_VERSION, keyId, nonce, Decimal(at), idempotencyKey,
            SIGNATURE_VERSION + "=" + c.hmac(secret, CanonicalRequest(c, Decimal(at), nonce, idempotencyKey, body)))
  }

  /** What is signed verifies, as long as the window is open and the nonce unused. */
  lemma SignedVerifies(
    c: Crypto, keys: Keys, s: State, keyId: Text, nonce: Text, idempotencyKey: Text, at: nat, body: Text, now: Time, applies: bool)
    requires Token(keyId) && Token(nonce) && Token(idempotencyKey) && at <= MAX_SAFE_INTEGER && |body| <= MAX_WEBHOOK_BYTES
    requires keyId in keys && |keys[keyId]| >= MIN_SECRET_BYTES && -MAX_SAFE_INTEGER <= now <= MAX_SAFE_INTEGER
    ensures var d := Delivery(SignedHeaders(c, keyId, keys[keyId], nonce, idempotencyKey, at, body), body, now, applies);
            var unused := keyId + ":" + nonce in s.replay ==> s.replay[keyId + ":" + nonce] <= now;
            Verify(c, keys, s, d, DEFAULT_WINDOW).1.None? <==> at - 300 <= now <= at + 300 && unused
  {
    var d := Delivery(SignedHeaders(c, keyId, keys[keyId], nonce, idempotencyKey, at, body), body, now, applies);
    ValueOfDecimal(at);
    SixteenDigits();
    DecimalLength(at, 16);
    hide Token, Value, CanonicalRequest, Decimal, Verify;
    SameLines(c, d);
    VerifiedIff(c, keys, s, d, DEFAULT_WINDOW);
  }

  lemma SixteenDigits()
    ensures Power10(16) == 10_000_000_000_000_000
  {
    assert Power10(4) == 10_000;
    assert Power10(8) == 100_000_000;
    assert Power10(12) == 1_000_000_000_000;
  }

  // ---------- the classes ----------

  class MemoryReplayStore {
    var entries: map<Text, Time>

    constructor ()
      ensures entries == map[]
    {
      entries := map[];
    }

    method ConsumeOnce(key: Text, expiresAt: Time, now: Time) returns (ok: bool)
      modifies this
      ensures (entries, ok) == ConsumedOnce(old(entries), key, expiresAt, now)
    {
      var pending := entries.Keys;
      while pending != {}
        invariant pending <= old(entries).Keys && entries.Keys <= old(entries).Keys
        invariant forall k <- entries :: entries[k] == old(entries)[k]
        invariant forall k <- old(entries) :: k in entries <==> k in pending || old(entries)[k] > now
        decreases pending
      {
        var candidate :| candidate in pending;
        pending := pending - {candidate};
        if entries[candidate] <= now { entries := entries - {candidate}; }
      }
      assert entries == map k | k in old(entries) && old(entries)[k] > now :: old(entries)[k];
      if key in entries { return false; }
      entries := entries[key := expiresAt];
      return true;
    }
  }

  class MemoryPartnerIdempotencyStore {
    var entries: map<Text, Receipt>

    constructor ()
      ensures entries == map[]
    {
      entries := map[];
    }

    /** Replays the receipt of a key, or does the work, which may throw, and keeps its receipt. */
    method RunOnce(key: Text, requestHash: Text, applies: bool, eventId: Text) returns (r: Result<(bool, Text), WebhookError>)
      modifies this
      ensures key in old(entries) ==>
                && entries == old(entries)
                && r == (if old(entries)[key].requestHash != requestHash then Err(KeyReused) else Ok((true, old(entries)[key].eventId)))
      ensures key !in old(entries) && !applies ==> entries == old(entries) && r == Err(ApplyFailed)
      ensures key !in old(entries) && applies ==>
                entries == old(entries)[key := Receipt(requestHash, eventId)] && r == Ok((false, eventId))
    {
      if key in entries {
        if entries[key].requestHash != requestHash { return Err(KeyReused); }
        return Ok((true, entries[key].eventId));
      }
      if !applies { return Err(ApplyFailed); }
      entries := entries[key := Receipt(requestHash, eventId)];
      return Ok((false, eventId));
    }
  }

  class Receiver {
    const crypto: Crypto
    const keys: Keys
    const replayStore: MemoryReplayStore
    const idempotencyStore: MemoryPartnerIdempotencyStore

    constructor (crypto: Crypto, keys: Keys)
      ensures this.crypto == crypto && this.keys == keys && Abs([]) == EmptyReceiver
      ensures fresh(replayStore) && fresh(idempotencyStore)
    {
      this.crypto, this.keys := crypto, keys;
      replayStore := new MemoryReplayStore();
      idempotencyStore := new MemoryPartnerIdempotencyStore();
    }

    ghost function Abs(log: seq<Entry>): State
      reads this, replayStore, idempotencyStore
    {
      State(replayStore.entries, idempotencyStore.entries, log)
    }

    method VerifyWebhook(d: Delivery, window: int, ghost log: seq<Entry>) returns (failure: Option<WebhookError>, ghost log': seq<Entry>)
      modifies replayStore
      ensures (Abs(log'), failure) == Verify(crypto, keys, old(Abs(log)), d, window)
    {
      hide CheckError, ConsumedOnce, Value;
      failure, log' := CheckError(crypto, keys, d, window), log;
      if failure.Some? { return; }
      CheckedTimestamp(crypto, keys, d, window);
      var unseen := replayStore.ConsumeOnce(NonceKey(d.headers), Value(d.headers.timestamp) + window, d.now);
      if !unseen { return Some(ReplayDetected), log; }
      return None, log + [Verified(NonceKey(d.headers), Expiry(d, window), d.now, d)];
    }

    method ReceiveWebhook(d: Delivery, ghost log: seq<Entry>) returns (reply: Reply, ghost log': seq<Entry>)
      modifies replayStore, idempotencyStore
      ensures (Abs(log'), reply) == Receive(crypto, keys, old(Abs(log)), d)
    {
      hide Verify;
      var failure;
      failure, log' := VerifyWebhook(d, DEFAULT_WINDOW, log);
      if failure.Some? { return Refused(failure.value), log'; }
      var parsed := crypto.envelope(d.body);
      if parsed.None? { return Refused(BadBody), log'; }
      var key, requestHash := EntryKey(d.headers), crypto.digest(d.body);
      var result := idempotencyStore.RunOnce(key, requestHash, d.applies, parsed.value);
      if result.Err? { return Refused(result.error), log'; }
      if result.value.0 { return Duplicate(result.value.1), log'; }
      return Accepted(result.value.1), log' + [Applied(key, requestHash, d)];
    }
  }

  lemma CheckedTimestamp(c: Crypto, keys: Keys, d: Delivery, window: int)
    requires CheckError(c, keys, d, window).None?
    ensures TimestampOk(d.headers.timestamp)
  {
    hide Token, Value;
  }
}
