/** The authenticated audit log: a hash chain of events, each tagged under the key active when it was
    appended, and a trust anchor that pins the tip.  The digest and the MAC are uninterpreted. */
module AuditChain {
  import opened Common
  import opened Wrappers

  const HASH_GENESIS := "GENESIS"
  const AUTHENTICATION_GENESIS := "AUTH-GENESIS"

  type Text = string
  /** Key bytes, 0 to 255 each. */
  type Secret = seq<int>

  datatype Body = Body(
    sequence: int, eventId: Text, kind: Text, correlationId: Text, causationId: Option<Text>, occurredAt: Text,
    payload: Text, previousHash: Text)

  datatype Authentication = Authentication(keyId: Text, keyVersion: int, previousTag: Text, tag: Text)

  datatype Event = Event(body: Body, hash: Text, authentication: Option<Authentication>)

  /** The five fields the MAC covers, after its version line. */
  datatype MacInput = MacInput(sequence: int, hash: Text, keyId: Text, keyVersion: int, previousTag: Text)

  datatype AuditCrypto = AuditCrypto(
    digest: Body -> Text,
    mac: (Secret, MacInput) -> Text,
    /** base64url decoding, which ignores the padding bits of the last character */
    tagBytes: Text -> seq<int>,
    isDate: Text -> bool)

  predicate KeyIdOk(id: Text) { Identifier(id, 128) }

  predicate TagOk(tag: Text) {
    |tag| == 43 && forall i :: 0 <= i < |tag| ==> AlphaNumeric(tag[i]) || tag[i] in {'_', '-'}
  }

  /** The shape of a 32-byte MAC in base64url. */
  ghost predicate MacShaped(c: AuditCrypto) { forall k, x :: TagOk(c.mac(k, x)) }

  ghost predicate DigestCollisionFree(c: AuditCrypto) {
    (forall a, b :: c.digest(a) == c.digest(b) ==> a == b) && (forall a :: c.digest(a) != HASH_GENESIS)
  }

  ghost predicate MacCollisionFree(c: AuditCrypto) {
    forall j, x, k, y :: c.tagBytes(c.mac(j, x)) == c.tagBytes(c.mac(k, y)) ==> x == y
  }

  // ---------- the keyring ----------

  datatype KeyStatus = Provisioned | Active | Retired

  datatype KeyRecord = KeyRecord(secret: Secret, status: KeyStatus, version: Option<int>)

  datatype Keyring = Keyring(keys: map<Text, KeyRecord>, activeKeyId: Text, latest: int)

  datatype AuditError =
    | NoKeys | InvalidKey | DuplicateKeyId | NotProvisioned | RetiredKey | AlreadyActive
    | InvalidDate | InvalidSnapshot | AnchorRequired | NotAuthenticated | InvalidEvent | ChainRejected | AnchorMismatch

  datatype Outcome = Done | Threw(error: AuditError)

  predicate KeyOk(keyId: Text, secret: Secret) { KeyIdOk(keyId) && |secret| >= 32 }

  function RingAdd(ring: Keyring, keyId: Text, secret: Secret): (Keyring, Outcome) {
    if !KeyOk(keyId, secret) then (ring, Threw(InvalidKey))
    else if keyId in ring.keys then (ring, Threw(DuplicateKeyId))
    else (ring.(keys := ring.keys[keyId := KeyRecord(secret, Provisioned, None)]), Done)
  }

  predicate HasActive(ring: Keyring) {
    ring.activeKeyId in ring.keys && ring.keys[ring.activeKeyId].version.Some?
  }

  function RingActivate(ring: Keyring, keyId: Text): (Keyring, Outcome)
    requires HasActive(ring)
  {
    if keyId !in ring.keys then (ring, Threw(NotProvisioned))
    else if ring.keys[keyId].status == Retired then (ring, Threw(RetiredKey))
    else if ring.keys[keyId].status == Active then (ring, Threw(AlreadyActive))
    else
      var retired := ring.keys[ring.activeKeyId := ring.keys[ring.activeKeyId].(status := Retired)];
      (Keyring(retired[keyId := ring.keys[keyId].(status := Active, version := Some(ring.latest + 1))], keyId, ring.latest + 1),
       Done)
  }

  /** What the keyring tells a verifier about a key id. */
  function KeyFor(ring: Keyring, keyId: Text): Option<KeyRecord> {
    if keyId !in ring.keys || ring.keys[keyId].status == Provisioned || ring.keys[keyId].version.None? then None
    else Some(ring.keys[keyId])
  }

  predicate KeyRecordOk(ring: Keyring, id: Text, k: KeyRecord) {
    && KeyOk(id, k.secret)
    && (k.status == Active <==> id == ring.activeKeyId)
    && (k.status == Provisioned <==> k.version.None?)
    && (k.version.Some? ==> 1 <= k.version.value <= ring.latest)
  }

  /** One active key, holding the latest version; every version given to one key only. */
  ghost predicate RingOk(ring: Keyring) {
    && HasActive(ring) && ring.keys[ring.activeKeyId].version == Some(ring.latest)
    && (forall id <- ring.keys :: KeyRecordOk(ring, id, ring.keys[id]))
    && (forall a, b | a in ring.keys && b in ring.keys && ring.keys[a].version.Some? && a != b ::
          ring.keys[a].version != ring.keys[b].version)
  }

  /** Keys keep their secret and, once given, their version. */
  ghost predicate RingGrows(r: Keyring, r': Keyring) {
    && r.latest <= r'.latest && (r.latest == r'.latest ==> r.activeKeyId == r'.activeKeyId)
    && (forall id <- r.keys ::
          && id in r'.keys && r'.keys[id].secret == r.keys[id].secret
          && (r.keys[id].version.Some? ==> r'.keys[id].version == r.keys[id].version))
  }

  lemma AddKeepsRing(ring: Keyring, keyId: Text, secret: Secret)
    requires RingOk(ring)
    ensures RingOk(RingAdd(ring, keyId, secret).0) && RingGrows(ring, RingAdd(ring, keyId, secret).0)
    ensures RingAdd(ring, keyId, secret).0.latest == ring.latest
  {
  }

  lemma ActivateKeepsRing(ring: Keyring, keyId: Text)
    requires RingOk(ring)
    ensures var (ring', outcome) := RingActivate(ring, keyId);
            && RingOk(ring') && RingGrows(ring, ring')
            && (if outcome == Done then ring'.latest == ring.latest + 1 else ring' == ring)
  {
    hide KeyOk;
    var (ring', outcome) := RingActivate(ring, keyId);
    if outcome == Done {
      forall id | id in ring'.keys ensures KeyRecordOk(ring', id, ring'.keys[id]) {
        assert KeyRecordOk(ring, id, ring.keys[id]);
      }
      assert forall id <- ring.keys :: id != keyId ==> ring'.keys[id].version == ring.keys[id].version;
    }
  }

  // ---------- the chain ----------

  function Tip(events: seq<Event>): Option<Event> { if events == [] then None else Some(events[|events| - 1]) }

  function HashOf(previous: Option<Event>): Text { if previous.Some? then previous.value.hash else HASH_GENESIS }

  function TagOf(previous: Option<Event>): Text {
    if previous.Some? && previous.value.authentication.Some? then previous.value.authentication.value.tag
    else AUTHENTICATION_GENESIS
  }

  function VersionOf(previous: Option<Event>): int {
    if previous.Some? && previous.value.authentication.Some? then previous.value.authentication.value.keyVersion else 0
  }

  function KeyIdOf(previous: Option<Event>): Option<Text> {
    if previous.Some? && previous.value.authentication.Some? then Some(previous.value.authentication.value.keyId) else None
  }

  predicate AuthenticationOk(a: Authentication) {
    && KeyIdOk(a.keyId) && 0 < a.keyVersion <= MAX_SAFE_INTEGER
    && (a.previousTag == AUTHENTICATION_GENESIS || TagOk(a.previousTag))
    && TagOk(a.tag)
  }

  function InputOf(e: Event, a: Authentication): MacInput {
    MacInput(e.body.sequence, e.hash, a.keyId, a.keyVersion, a.previousTag)
  }

  predicate Authentic(c: AuditCrypto, ring: Keyring, previous: Option<Event>, e: Event) {
    && e.authentication.Some?
    && var a := e.authentication.value;
       && AuthenticationOk(a)
       && a.previousTag == TagOf(previous)
       && KeyFor(ring, a.keyId).Some?
       && var key := KeyFor(ring, a.keyId).value;
          && key.version == Some(a.keyVersion)
          && a.keyVersion >= VersionOf(previous)
          && (a.keyVersion == VersionOf(previous) ==> KeyIdOf(previous) == Some(a.keyId))
          && c.tagBytes(c.mac(key.secret, InputOf(e, a))) == c.tagBytes(a.tag)
  }

  predicate LinkOk(c: AuditCrypto, ring: Option<Keyring>, previous: Option<Event>, e: Event) {
    && e.body.previousHash == HashOf(previous)
    && c.digest(e.body) == e.hash
    && (if ring.Some? then Authentic(c, ring.value, previous, e) else e.authentication.None?)
  }

  /** Every event is linked to the one before it. */
  predicate Verified(c: AuditCrypto, ring: Option<Keyring>, events: seq<Event>) {
    forall i :: 0 <= i < |events| ==> LinkOk(c, ring, Tip(events[..i]), events[i])
  }

  datatype Anchor = Anchor(
    eventCount: int, tipHash: Text, tipTag: Text, tipKeyId: Option<Text>, tipKeyVersion: Option<int>,
    activeKeyId: Text, activeKeyVersion: int)

  /** The checkpoint over a list of events with a given active key. */
  function AnchorFor(events: seq<Event>, activeKeyId: Text, activeKeyVersion: int): Anchor {
    var tip := Tip(events);
    Anchor(|events|, HashOf(tip), TagOf(tip), KeyIdOf(tip),
           if tip.Some? && tip.value.authentication.Some? then Some(tip.value.authentication.value.keyVersion) else None,
           activeKeyId, activeKeyVersion)
  }

  datatype Log = Log(ring: Keyring, events: seq<Event>)

  function AnchorOf(log: Log): Anchor { AnchorFor(log.events, log.ring.activeKeyId, log.ring.latest) }

  predicate AnchorHolds(log: Log, anchor: Anchor) {
    0 <= anchor.eventCount <= MAX_SAFE_INTEGER && AnchorOf(log) == anchor
  }

  datatype Entry = Entry(
    eventId: Text, kind: Text, correlationId: Text, payload: Text, occurredAt: Text, causationId: Option<Text>)

  function Unsigned(c: AuditCrypto, events: seq<Event>, e: Entry): Event {
    var body := Body(|events| + 1, e.eventId, e.kind, e.correlationId, e.causationId, e.occurredAt, e.payload, HashOf(Tip(events)));
    Event(body, c.digest(body), None)
  }

  function Sign(c: AuditCrypto, e: Event, keyId: Text, version: int, secret: Secret, previousTag: Text): Event {
    e.(authentication := Some(Authentication(keyId, version, previousTag,
         c.mac(secret, MacInput(e.body.sequence, e.hash, keyId, version, previousTag)))))
  }

  function SignedEntry(c: AuditCrypto, log: Log, e: Entry): Event
    requires HasActive(log.ring)
  {
    var key := log.ring.keys[log.ring.activeKeyId];
    Sign(c, Unsigned(c, log.events, e), log.ring.activeKeyId, key.version.value, key.secret, TagOf(Tip(log.events)))
  }

  function AppendTo(c: AuditCrypto, log: Log, e: Entry): (Log, Outcome)
    requires HasActive(log.ring)
  {
    if !c.isDate(e.occurredAt) then (log, Threw(InvalidDate))
    else if !KeyOk(log.ring.activeKeyId, log.ring.keys[log.ring.activeKeyId].secret) then (log, Threw(InvalidKey))
    else (log.(events := log.events + [SignedEntry(c, log, e)]), Done)
  }

  /** An event that the keyring bears out: tagged under a key that has been active, at its version, over this
      event after that tag, with versions that never fall and belong to one key. */
  predicate BorneOut(c: AuditCrypto, ring: Keyring, previous: Option<Authentication>, e: Event) {
    && e.authentication.Some?
    && var a := e.authentication.value;
       && KeyIdOk(a.keyId) && 1 <= a.keyVersion <= MAX_SAFE_INTEGER && TagOk(a.tag)
       && a.previousTag == (if previous.Some? then previous.value.tag else "AUTH-GENESIS")
       && a.keyId in ring.keys && ring.keys[a.keyId].status in {Active, Retired} && ring.keys[a.keyId].version == Some(a.keyVersion)
       && (previous.Some? ==> a.keyVersion >= previous.value.keyVersion)
       && (previous.Some? && a.keyVersion == previous.value.keyVersion ==> a.keyId == previous.value.keyId)
       && c.tagBytes(c.mac(ring.keys[a.keyId].secret, MacInput(e.body.sequence, e.hash, a.keyId, a.keyVersion, a.previousTag)))
          == c.tagBytes(a.tag)
  }

  lemma AuthenticIff(c: AuditCrypto, ring: Keyring, previous: Option<Event>, e: Event)
    requires previous.Some? ==> previous.value.authentication.Some? && TagOk(previous.value.authentication.value.tag)
                                && 1 <= previous.value.authentication.value.keyVersion
    ensures Authentic(c, ring, previous, e)
       <==> BorneOut(c, ring, if previous.Some? then previous.value.authentication else None, e)
  {
    hide KeyIdOk, TagOk;
  }

  /** The event at i names the hash before it, hashes to its own, and is borne out after the one before. */
  predicate LinkedAt(c: AuditCrypto, ring: Keyring, events: seq<Event>, i: nat)
    requires i < |events|
  {
    && events[i].body.previousHash == (if i == 0 then "GENESIS" else events[i - 1].hash)
    && events[i].hash == c.digest(events[i].body)
    && BorneOut(c, ring, if i == 0 then None else events[i - 1].authentication, events[i])
  }

  lemma LinkIff(c: AuditCrypto, ring: Keyring, events: seq<Event>, i: nat)
    requires i < |events|
    requires i > 0 ==> events[i - 1].authentication.Some? && TagOk(events[i - 1].authentication.value.tag)
                       && 1 <= events[i - 1].authentication.value.keyVersion
    ensures LinkOk(c, Some(ring), Tip(events[..i]), events[i]) <==> LinkedAt(c, ring, events, i)
  {
    hide Authentic, BorneOut, TagOk;
    AuthenticIff(c, ring, Tip(events[..i]), events[i]);
  }

  /** A log with keys verifies exactly when each event is so linked. */
  lemma VerifiedIff(c: AuditCrypto, ring: Keyring, events: seq<Event>)
    ensures Verified(c, Some(ring), events) <==> forall i :: 0 <= i < |events| ==> LinkedAt(c, ring, events, i)
  {
    hide LinkOk, LinkedAt, TagOk;
    if Verified(c, Some(ring), events) {
      forall i | 0 <= i < |events| ensures LinkedAt(c, ring, events, i) {
        if i > 0 { LinkTag(c, ring, events, i - 1); }
        LinkIff(c, ring, events, i);
      }
    }
    if forall i :: 0 <= i < |events| ==> LinkedAt(c, ring, events, i) {
      forall i | 0 <= i < |events| ensures LinkOk(c, Some(ring), Tip(events[..i]), events[i]) {
        if i > 0 { LinkTag(c, ring, events, i - 1); }
        LinkIff(c, ring, events, i);
      }
    }
  }

  lemma LinkTag(c: AuditCrypto, ring: Keyring, events: seq<Event>, i: nat)
    requires i < |events| && (LinkOk(c, Some(ring), Tip(events[..i]), events[i]) || LinkedAt(c, ring, events, i))
    ensures events[i].authentication.Some? && TagOk(events[i].authentication.value.tag) && 1 <= events[i].authentication.value.keyVersion
  {
    hide Authentic, BorneOut, TagOk;
    if LinkedAt(c, ring, events, i) {
      BorneOutTag(c, ring, if i == 0 then None else events[i - 1].authentication, events[i]);
    } else {
      AuthenticTag(c, ring, Tip(events[..i]), events[i]);
    }
  }

  lemma AuthenticTag(c: AuditCrypto, ring: Keyring, previous: Option<Event>, e: Event)
    requires Authentic(c, ring, previous, e)
    ensures e.authentication.Some? && TagOk(e.authentication.value.tag) && 1 <= e.authentication.value.keyVersion
  {
    hide KeyIdOk, TagOk;
  }

  lemma BorneOutTag(c: AuditCrypto, ring: Keyring, previous: Option<Authentication>, e: Event)
    requires BorneOut(c, ring, previous, e)
    ensures e.authentication.Some? && TagOk(e.authentication.value.tag) && 1 <= e.authentication.value.keyVersion
  {
    hide KeyIdOk, TagOk;
  }

  /** An anchor is accepted exactly when it counts the events, names the hash, tag, key and version of the last
      one, and the active key and its version. */
  lemma AnchorHoldsIff(log: Log, anchor: Anchor)
    ensures AnchorHolds(log, anchor) <==>
              && anchor.eventCount == |log.events| <= MAX_SAFE_INTEGER
              && anchor.activeKeyId == log.ring.activeKeyId && anchor.activeKeyVersion == log.ring.latest
              && var last := if log.events == [] then None else log.events[|log.events| - 1].authentication;
                 && anchor.tipHash == (if log.events == [] then "GENESIS" else log.events[|log.events| - 1].hash)
                 && anchor.tipTag == (if last.Some? then last.value.tag else "AUTH-GENESIS")
                 && anchor.tipKeyId == (if last.Some? then Some(last.value.keyId) else None)
                 && anchor.tipKeyVersion == (if last.Some? then Some(last.value.keyVersion) else None)
  {
  }

  // ---------- one list of events for one anchor ----------

  lemma VerifiedPrefix(c: AuditCrypto, ring: Option<Keyring>, events: seq<Event>, n: nat)
    requires Verified(c, ring, events) && n <= |events|
    ensures Verified(c, ring, events[..n])
  {
    forall i | 0 <= i < n ensures LinkOk(c, ring, Tip(events[..n][..i]), events[..n][i]) {
      assert events[..n][..i] == events[..i];
    }
  }

  lemma {:induction false} VerifiedTip(c: AuditCrypto, ring: Option<Keyring>, events: seq<Event>)
    requires Verified(c, ring, events) && events != []
    ensures var n := |events| - 1;
            && Verified(c, ring, events[..n]) && LinkOk(c, ring, Tip(events[..n]), events[n])
            && events == events[..n] + [events[n]] && Tip(events) == Some(events[n])
  {
    hide Verified, LinkOk;
    VerifiedPrefix(c, ring, events, |events| - 1);
    LinkAt(c, ring, events, |events| - 1);
  }

  lemma LinkAt(c: AuditCrypto, ring: Option<Keyring>, events: seq<Event>, i: nat)
    requires Verified(c, ring, events) && i < |events|
    ensures LinkOk(c, ring, Tip(events[..i]), events[i])
  {
    hide LinkOk;
  }

  ghost predicate SameEvidence(a: seq<Event>, b: seq<Event>) {
    |a| == |b| && forall i :: 0 <= i < |a| ==> a[i].body == b[i].body && a[i].hash == b[i].hash
  }

  /** Two logs that verify, each under whatever keyring, and share a tip hash agree in length, bodies
      and hashes. */
  lemma {:induction false} SameTipHashSameEvidence(
    c: AuditCrypto, r: Option<Keyring>, a: seq<Event>, q: Option<Keyring>, b: seq<Event>)
    requires DigestCollisionFree(c) && Verified(c, r, a) && Verified(c, q, b)
    requires HashOf(Tip(a)) == HashOf(Tip(b))
    ensures SameEvidence(a, b)
    decreases |a|
  {
    hide Authentic, Verified;
    GenesisOnlyWhenEmpty(c, r, a);
    GenesisOnlyWhenEmpty(c, q, b);
    if a != [] {
      VerifiedTip(c, r, a);
      VerifiedTip(c, q, b);
      SameTipHashSameEvidence(c, r, a[..|a| - 1], q, b[..|b| - 1]);
    }
  }

  lemma GenesisOnlyWhenEmpty(c: AuditCrypto, ring: Option<Keyring>, events: seq<Event>)
    requires DigestCollisionFree(c) && Verified(c, ring, events)
    ensures HashOf(Tip(events)) == HASH_GENESIS <==> events == []
  {
    if events != [] {
      VerifiedTip(c, ring, events);
      hide Verified, Authentic;
    }
  }

  /** With the tip's tag pinned as well, the authentication of every event is fixed too: one anchor
      admits at most one list of events, whichever keyring it is verified under. */
  lemma {:induction false} SameTipSameEvents(c: AuditCrypto, r: Keyring, a: seq<Event>, q: Keyring, b: seq<Event>)
    requires DigestCollisionFree(c) && MacCollisionFree(c) && Verified(c, Some(r), a) && Verified(c, Some(q), b)
    requires HashOf(Tip(a)) == HashOf(Tip(b)) && TagOf(Tip(a)) == TagOf(Tip(b))
    ensures a == b
    decreases |a|
  {
    SameTipHashSameEvidence(c, Some(r), a, Some(q), b);
    if a != [] {
      VerifiedTip(c, Some(r), a);
      VerifiedTip(c, Some(q), b);
      var n := |a| - 1;
      SameTagSameAuthentication(c, r, Tip(a[..n]), a[n], q, Tip(b[..n]), b[n]);
      SameTipSameEvents(c, r, a[..n], q, b[..n]);
    }
  }

  lemma SameTagSameAuthentication(
    c: AuditCrypto, r: Keyring, before: Option<Event>, a: Event, q: Keyring, before': Option<Event>, b: Event)
    requires MacCollisionFree(c) && Authentic(c, r, before, a) && Authentic(c, q, before', b)
    requires a.authentication.value.tag == b.authentication.value.tag
    ensures a.authentication == b.authentication && TagOf(before) == TagOf(before')
  {
    var x, y := a.authentication.value, b.authentication.value;
    var key, key' := KeyFor(r, x.keyId).value, KeyFor(q, y.keyId).value;
    assert c.tagBytes(c.mac(key.secret, InputOf(a, x))) == c.tagBytes(c.mac(key'.secret, InputOf(b, y)));
  }

  /** The tip hash alone does not fix the authentication: the same first entry appended under any two
      keyrings gives two verifying logs with one tip hash, equal only if key id, version and tag agree. */
  lemma TipHashLeavesTagOpen(c: AuditCrypto, r: Keyring, q: Keyring, e: Entry)
    requires MacShaped(c) && c.isDate(e.occurredAt)
    requires RingOk(r) && RingOk(q) && r.latest <= MAX_SAFE_INTEGER && q.latest <= MAX_SAFE_INTEGER
    ensures var a, b := AppendTo(c, Log(r, []), e).0.events, AppendTo(c, Log(q, []), e).0.events;
            && Verified(c, Some(r), a) && Verified(c, Some(q), b) && HashOf(Tip(a)) == HashOf(Tip(b))
            && (a == b <==> r.activeKeyId == q.activeKeyId && r.latest == q.latest && TagOf(Tip(a)) == TagOf(Tip(b)))
  {
    AppendVerifies(c, Log(r, []), e);
    AppendVerifies(c, Log(q, []), e);
    FirstEntry(c, r, e);
    FirstEntry(c, q, e);
    hide Verified, AppendTo, MacShaped, RingOk;
  }

  lemma FirstEntry(c: AuditCrypto, ring: Keyring, e: Entry)
    requires RingOk(ring) && c.isDate(e.occurredAt)
    ensures var events, unsigned := AppendTo(c, Log(ring, []), e).0.events, Unsigned(c, [], e);
            && events == [Sign(c, unsigned, ring.activeKeyId, ring.latest, ring.keys[ring.activeKeyId].secret, AUTHENTICATION_GENESIS)]
            && HashOf(Tip(events)) == unsigned.hash
  {
    RingActiveOk(ring);
    hide KeyOk;
  }

  lemma RingActiveOk(ring: Keyring)
    requires RingOk(ring)
    ensures KeyOk(ring.activeKeyId, ring.keys[ring.activeKeyId].secret)
    ensures KeyFor(ring, ring.activeKeyId) == Some(ring.keys[ring.activeKeyId])
  {
    assert KeyRecordOk(ring, ring.activeKeyId, ring.keys[ring.activeKeyId]);
  }

  // ---------- appending and activating keep the log verifying ----------

  lemma GrowthKeepsLink(c: AuditCrypto, r: Keyring, r': Keyring, previous: Option<Event>, e: Event)
    requires LinkOk(c, Some(r), previous, e) && RingGrows(r, r') && RingOk(r) && RingOk(r')
    ensures LinkOk(c, Some(r'), previous, e)
  {
    var id := e.authentication.value.keyId;
    assert KeyRecordOk(r', id, r'.keys[id]);
    hide AuthenticationOk, TagOk, KeyIdOk;
  }

  lemma GrowthKeepsVerified(c: AuditCrypto, r: Keyring, r': Keyring, events: seq<Event>)
    requires Verified(c, Some(r), events) && RingGrows(r, r') && RingOk(r) && RingOk(r')
    ensures Verified(c, Some(r'), events)
  {
    hide RingGrows, RingOk, LinkOk;
    forall i | 0 <= i < |events| ensures LinkOk(c, Some(r'), Tip(events[..i]), events[i]) {
      GrowthKeepsLink(c, r, r', Tip(events[..i]), events[i]);
    }
  }

  lemma VerifiedSnoc(c: AuditCrypto, ring: Option<Keyring>, events: seq<Event>, e: Event)
    requires Verified(c, ring, events) && LinkOk(c, ring, Tip(events), e)
    ensures Verified(c, ring, events + [e])
  {
    hide LinkOk;
    var all := events + [e];
    forall i | 0 <= i < |all| ensures LinkOk(c, ring, Tip(all[..i]), all[i]) {
      assert all[..i] == if i == |events| then events else events[..i];
      assert i == |events| ==> events[..i] == events;
    }
  }

  /** The tip's version is at most the latest, and equal only for the active key. */
  lemma TipVersionBounded(c: AuditCrypto, ring: Keyring, events: seq<Event>)
    requires RingOk(ring) && Verified(c, Some(ring), events)
    ensures VersionOf(Tip(events)) <= ring.latest
    ensures VersionOf(Tip(events)) == ring.latest ==> KeyIdOf(Tip(events)) == Some(ring.activeKeyId)
    ensures TagOf(Tip(events)) == AUTHENTICATION_GENESIS || TagOk(TagOf(Tip(events)))
  {
    if events != [] {
      VerifiedTip(c, Some(ring), events);
      hide Verified, TagOk, KeyIdOk;
      var a := Tip(events).value.authentication.value;
      assert KeyRecordOk(ring, a.keyId, ring.keys[a.keyId]);
    } else {
      assert KeyRecordOk(ring, ring.activeKeyId, ring.keys[ring.activeKeyId]);
    }
  }

  lemma AppendVerifies(c: AuditCrypto, log: Log, e: Entry)
    requires MacShaped(c) && RingOk(log.ring) && log.ring.latest <= MAX_SAFE_INTEGER
    requires Verified(c, Some(log.ring), log.events)
    ensures Verified(c, Some(log.ring), AppendTo(c, log, e).0.events)
  {
    TipVersionBounded(c, log.ring, log.events);
    RingActiveOk(log.ring);
    if AppendTo(c, log, e).1 == Done {
      var event := SignedEntry(c, log, e);
      SignedLinks(c, log, e);
      VerifiedSnoc(c, Some(log.ring), log.events, event);
    }
    hide Verified, TagOk, KeyIdOk, LinkOk, RingOk;
  }

  lemma SignedLinks(c: AuditCrypto, log: Log, e: Entry)
    requires MacShaped(c) && RingOk(log.ring) && log.ring.latest <= MAX_SAFE_INTEGER
    requires Verified(c, Some(log.ring), log.events)
    ensures LinkOk(c, Some(log.ring), Tip(log.events), SignedEntry(c, log, e))
  {
    TipVersionBounded(c, log.ring, log.events);
    RingActiveOk(log.ring);
    hide Verified, TagOk, KeyIdOk;
    assert KeyRecordOk(log.ring, log.ring.activeKeyId, log.ring.keys[log.ring.activeKeyId]);
  }

  // ---------- runs ----------

  datatype Op = AddKey(keyId: Text, secret: Secret) | ActivateKey(keyId: Text) | Append(entry: Entry)

  function Perform(c: AuditCrypto, log: Log, op: Op): (Log, Outcome) {
    if !HasActive(log.ring) then (log, Threw(NoKeys))
    else
      match op
      case AddKey(keyId, secret) => var (ring, outcome) := RingAdd(log.ring, keyId, secret); (log.(ring := ring), outcome)
      case ActivateKey(keyId) => var (ring, outcome) := RingActivate(log.ring, keyId); (log.(ring := ring), outcome)
      case Append(entry) => AppendTo(c, log, entry)
  }

  function After(c: AuditCrypto, log: Log, ops: seq<Op>): Log
    decreases |ops|
  {
    if ops == [] then log else Perform(c, After(c, log, ops[..|ops| - 1]), ops[|ops| - 1]).0
  }

  predicate SequencesOk(c: AuditCrypto, events: seq<Event>) {
    forall i :: 0 <= i < |events| ==> events[i].body.sequence == i + 1 && c.isDate(events[i].body.occurredAt)
  }

  ghost predicate LogOk(c: AuditCrypto, log: Log) {
    RingOk(log.ring) && Verified(c, Some(log.ring), log.events) && SequencesOk(c, log.events)
  }

  /** What an operation leaves: the log longer, the key version higher, or both as they were. */
  ghost predicate Extends(before: Log, after: Log) {
    && before.events <= after.events && RingGrows(before.ring, after.ring)
  }

  lemma PerformKeepsLog(c: AuditCrypto, log: Log, op: Op)
    requires MacShaped(c) && LogOk(c, log) && log.ring.latest <= MAX_SAFE_INTEGER
    ensures var (log', outcome) := Perform(c, log, op);
            && LogOk(c, log') && Extends(log, log')
            && log.ring.latest <= log'.ring.latest
            && (AnchorOf(log') == AnchorOf(log) <==> op.AddKey? || outcome.Threw?)
  {
    hide RingGrows, RingOk, Verified, KeyOk, KeyIdOf, KeyFor;
    var (log', outcome) := Perform(c, log, op);
    assert RingGrows(log.ring, log.ring) by { RingGrowsReflexive(log.ring); }
    match op
    case AddKey(keyId, secret) =>
      AddKeepsRing(log.ring, keyId, secret);
      GrowthKeepsVerified(c, log.ring, log'.ring, log.events);
    case ActivateKey(keyId) =>
      ActivateKeepsRing(log.ring, keyId);
      GrowthKeepsVerified(c, log.ring, log'.ring, log.events);
    case Append(entry) =>
      AppendVerifies(c, log, entry);
  }

  lemma RingGrowsReflexive(ring: Keyring)
    ensures RingGrows(ring, ring)
  {
  }

  lemma RingGrowsTransitive(a: Keyring, b: Keyring, d: Keyring)
    requires RingGrows(a, b) && RingGrows(b, d)
    ensures RingGrows(a, d)
  {
  }

  lemma VersionsNeverFall(c: AuditCrypto, log: Log, op: Op)
    ensures log.ring.latest <= Perform(c, log, op).0.ring.latest
  {
  }

  /** Whatever operations run, in any order, refused ones included, the log verifies, it only grows,
      and its fresh anchor is accepted. */
  lemma {:induction false} RunKeepsLog(c: AuditCrypto, log: Log, ops: seq<Op>)
    requires MacShaped(c) && LogOk(c, log) && After(c, log, ops).ring.latest <= MAX_SAFE_INTEGER
    ensures var log' := After(c, log, ops);
            && LogOk(c, log') && Extends(log, log')
            && (|log'.events| <= MAX_SAFE_INTEGER ==> AnchorHolds(log', AnchorOf(log')))
    decreases |ops|
  {
    hide LogOk;
    if ops == [] {
      RingGrowsReflexive(log.ring);
    } else {
      var before := After(c, log, ops[..|ops| - 1]);
      VersionsNeverFall(c, before, ops[|ops| - 1]);
      RunKeepsLog(c, log, ops[..|ops| - 1]);
      PerformKeepsLog(c, before, ops[|ops| - 1]);
      RingGrowsTransitive(log.ring, before.ring, After(c, log, ops).ring);
      hide RingGrows, Perform;
    }
  }

  /** The operations of a run that change what the anchor pins. */
  ghost predicate Quiet(c: AuditCrypto, log: Log, ops: seq<Op>) {
    forall i :: 0 <= i < |ops| ==> ops[i].AddKey? || Perform(c, After(c, log, ops[..i]), ops[i]).1.Threw?
  }

  /** An anchor taken before a run is accepted after it exactly when nothing was appended and no key
      activated in between. */
  lemma {:induction false} AnchorHoldsIffQuiet(c: AuditCrypto, log: Log, ops: seq<Op>)
    requires MacShaped(c) && LogOk(c, log) && After(c, log, ops).ring.latest <= MAX_SAFE_INTEGER
    requires |log.events| <= MAX_SAFE_INTEGER
    ensures AnchorHolds(After(c, log, ops), AnchorOf(log)) <==> Quiet(c, log, ops)
    decreases |ops|
  {
    if ops != [] {
      var before, op := After(c, log, ops[..|ops| - 1]), ops[|ops| - 1];
      VersionsNeverFall(c, before, op);
      RunKeepsLog(c, log, ops[..|ops| - 1]);
      AnchorHoldsIffQuiet(c, log, ops[..|ops| - 1]);
      PerformKeepsLog(c, before, op);
      QuietSnoc(c, log, ops);
      AnchorsOnlyMoveOn(log, before, Perform(c, before, op).0);
      hide LogOk, Extends, Quiet, Perform;
    }
  }

  lemma QuietSnoc(c: AuditCrypto, log: Log, ops: seq<Op>)
    requires ops != []
    ensures Quiet(c, log, ops)
       <==> Quiet(c, log, ops[..|ops| - 1])
            && (ops[|ops| - 1].AddKey? || Perform(c, After(c, log, ops[..|ops| - 1]), ops[|ops| - 1]).1.Threw?)
  {
    hide Perform;
    var n := |ops| - 1;
    assert forall i :: 0 <= i < n ==> ops[..n][..i] == ops[..i] && ops[..n][i] == ops[i];
  }

  /** An anchor that has moved on never comes back. */
  lemma AnchorsOnlyMoveOn(a: Log, b: Log, d: Log)
    requires Extends(a, b) && Extends(b, d)
    ensures AnchorOf(d) == AnchorOf(a) ==> AnchorOf(b) == AnchorOf(a)
  {
  }

  // ---------- what an operation leaves ----------

  /** The event says what the entry says. */
  predicate Carries(e: Event, entry: Entry) {
    && e.body.eventId == entry.eventId && e.body.kind == entry.kind && e.body.correlationId == entry.correlationId
    && e.body.causationId == entry.causationId && e.body.occurredAt == entry.occurredAt && e.body.payload == entry.payload
  }

  /** The events with one more: numbered, linked to the old tip, hashed, and saying what the entry says. */
  ghost predicate OneMore(c: AuditCrypto, events: seq<Event>, events': seq<Event>, entry: Entry) {
    && |events'| == |events| + 1 && events'[..|events|] == events
    && var e := events'[|events|];
       && Carries(e, entry) && e.body.sequence == |events| + 1 && e.hash == c.digest(e.body)
       && e.body.previousHash == if events == [] then "GENESIS" else events[|events| - 1].hash
  }

  /** The tag of an event under this key, over its number, hash and key and the tag before it. */
  predicate TaggedBy(c: AuditCrypto, e: Event, keyId: Text, version: int, secret: Secret, previousTag: Text) {
    e.authentication == Some(Authentication(
      keyId, version, previousTag, c.mac(secret, MacInput(e.body.sequence, e.hash, keyId, version, previousTag))))
  }

  lemma UnsignedIsOneMore(c: AuditCrypto, events: seq<Event>, entry: Entry)
    ensures OneMore(c, events, events + [Unsigned(c, events, entry)], entry) && Unsigned(c, events, entry).authentication.None?
  {
  }

  lemma SignedIsOneMore(c: AuditCrypto, events: seq<Event>, entry: Entry, keyId: Text, version: int, secret: Secret, previousTag: Text)
    ensures var e := Sign(c, Unsigned(c, events, entry), keyId, version, secret, previousTag);
            OneMore(c, events, events + [e], entry) && TaggedBy(c, e, keyId, version, secret, previousTag)
  {
  }

  /** Appending succeeds exactly at a valid date, and adds one event that says what the entry says, tagged under
      the active key after the tag before it. */
  lemma AppendRecords(c: AuditCrypto, log: Log, entry: Entry)
    requires RingOk(log.ring)
    ensures var (log', outcome) := Perform(c, log, Append(entry));
            && (outcome == Done <==> c.isDate(entry.occurredAt)) && (outcome.Threw? ==> log' == log)
            && (outcome == Done ==>
                  && log'.ring == log.ring && OneMore(c, log.events, log'.events, entry)
                  && TaggedBy(c, log'.events[|log.events|], log.ring.activeKeyId, log.ring.latest, log.ring.keys[log.ring.activeKeyId].secret,
                              if log.events != [] && log.events[|log.events| - 1].authentication.Some? then
                                log.events[|log.events| - 1].authentication.value.tag
                              else "AUTH-GENESIS"))
  {
    hide KeyOk;
    assert KeyRecordOk(log.ring, log.ring.activeKeyId, log.ring.keys[log.ring.activeKeyId]);
    var key := log.ring.keys[log.ring.activeKeyId];
    SignedIsOneMore(c, log.events, entry, log.ring.activeKeyId, key.version.value, key.secret, TagOf(Tip(log.events)));
  }

  /** A key is added exactly when its id is valid and new and its secret long enough, and is then provisioned
      without a version; one is activated exactly when it is provisioned, and then takes the next version from
      the active one, which retires.  Neither touches the events. */
  lemma KeysChangeIff(c: AuditCrypto, log: Log, keyId: Text, secret: Secret)
    requires RingOk(log.ring)
    ensures var (log', outcome) := Perform(c, log, AddKey(keyId, secret));
            && (outcome == Done <==> KeyIdOk(keyId) && |secret| >= 32 && keyId !in log.ring.keys)
            && log' == (if outcome == Done then log.(ring := log.ring.(keys := log.ring.keys[keyId := KeyRecord(secret, Provisioned, None)]))
                        else log)
    ensures var (log', outcome) := Perform(c, log, ActivateKey(keyId));
            && (outcome == Done <==> keyId in log.ring.keys && log.ring.keys[keyId].status == Provisioned)
            && log'.events == log.events && (outcome.Threw? ==> log' == log)
            && (outcome == Done ==>
                  && log'.ring.activeKeyId == keyId && log'.ring.latest == log.ring.latest + 1
                  && log'.ring.keys.Keys == log.ring.keys.Keys
                  && log'.ring.keys[keyId] == KeyRecord(log.ring.keys[keyId].secret, Active, Some(log.ring.latest + 1))
                  && log'.ring.keys[log.ring.activeKeyId] == log.ring.keys[log.ring.activeKeyId].(status := Retired)
                  && forall k <- log.ring.keys :: k != keyId && k != log.ring.activeKeyId ==> log'.ring.keys[k] == log.ring.keys[k])
  {
    assert forall k <- log.ring.keys :: KeyRecordOk(log.ring, k, log.ring.keys[k]);
    hide KeyIdOk;
  }

  /** The entries of the appends of a run that succeeded, in order. */
  ghost function Appended(c: AuditCrypto, log: Log, ops: seq<Op>): seq<Entry>
    decreases |ops|
  {
    if ops == [] then []
    else
      var earlier, before, op := Appended(c, log, ops[..|ops| - 1]), After(c, log, ops[..|ops| - 1]), ops[|ops| - 1];
      if op.Append? && Perform(c, before, op).1 == Done then earlier + [op.entry] else earlier
  }

  /** Over any run the log gains exactly one event for each successful append, in order, that says what its
      entry says. */
  lemma {:induction false} RunRecordsEntries(c: AuditCrypto, log: Log, ops: seq<Op>)
    requires MacShaped(c) && LogOk(c, log) && After(c, log, ops).ring.latest <= MAX_SAFE_INTEGER
    ensures var events, entries := After(c, log, ops).events, Appended(c, log, ops);
            && |events| == |log.events| + |entries| && log.events <= events
            && forall i :: 0 <= i < |entries| ==> Carries(events[|log.events| + i], entries[i])
    decreases |ops|
  {
    hide Perform, LogOk, Extends, MacShaped;
    if ops != [] {
      var before, op := After(c, log, ops[..|ops| - 1]), ops[|ops| - 1];
      VersionsNeverFall(c, before, op);
      RunRecordsEntries(c, log, ops[..|ops| - 1]);
      RunKeepsLog(c, log, ops[..|ops| - 1]);
      RingOfLog(c, before);
      PerformEvents(c, before, op);
    }
  }

  lemma RingOfLog(c: AuditCrypto, log: Log)
    requires LogOk(c, log)
    ensures RingOk(log.ring)
  {
  }

  lemma PerformEvents(c: AuditCrypto, log: Log, op: Op)
    requires RingOk(log.ring)
    ensures var (log', outcome) := Perform(c, log, op);
            if op.Append? && outcome == Done then
              |log'.events| == |log.events| + 1 && log.events <= log'.events && Carries(log'.events[|log.events|], op.entry)
            else log'.events == log.events
  {
    match op
    case Append(entry) => AppendRecords(c, log, entry); hide Perform;
    case AddKey(keyId, secret) => KeysChangeIff(c, log, keyId, secret); hide Perform;
    case ActivateKey(keyId) => KeysChangeIff(c, log, keyId, []); hide Perform;
  }

  // ---------- restore ----------

  datatype Snapshot = Snapshot(schemaVersion: int, events: seq<Event>)

  predicate EventShapeOk(c: AuditCrypto, schemaVersion: int, index: nat, e: Event) {
    && e.body.sequence == index + 1 && c.isDate(e.body.occurredAt)
    && (schemaVersion == 1 ==> e.authentication.None?)
    && (schemaVersion == 2 ==> e.authentication.Some? && AuthenticationOk(e.authentication.value))
  }

  /** Restoring gives back the listed events or the reason of the refusal. */
  function Restored(c: AuditCrypto, s: Snapshot, ring: Option<Keyring>, expected: Anchor): Result<seq<Event>, AuditError> {
    if s.schemaVersion !in {1, 2} then Err(InvalidSnapshot)
    else if s.schemaVersion == 2 && ring.None? then Err(AnchorRequired)
    else if s.schemaVersion == 1 && ring.Some? then Err(NotAuthenticated)
    else if exists i :: 0 <= i < |s.events| && !EventShapeOk(c, s.schemaVersion, i, s.events[i]) then Err(InvalidEvent)
    else if !Verified(c, ring, s.events) then Err(ChainRejected)
    else if ring.Some? && !AnchorHolds(Log(ring.value, s.events), expected) then Err(AnchorMismatch)
    else Ok(s.events)
  }

  /** Restoring succeeds exactly for the schema that goes with having keys, events numbered and dated, with or
      without tags accordingly, that verify, and an anchor that holds; it gives the listed events. */
  lemma RestoresIff(c: AuditCrypto, s: Snapshot, ring: Option<Keyring>, expected: Anchor)
    ensures Restored(c, s, ring, expected).Ok? <==>
              && s.schemaVersion == (if ring.Some? then 2 else 1)
              && (forall i :: 0 <= i < |s.events| ==>
                    && s.events[i].body.sequence == i + 1 && c.isDate(s.events[i].body.occurredAt)
                    && (ring.None? ==> s.events[i].authentication.None?))
              && Verified(c, ring, s.events) && (ring.Some? ==> AnchorHolds(Log(ring.value, s.events), expected))
    ensures Restored(c, s, ring, expected).Ok? ==> Restored(c, s, ring, expected).value == s.events
  {
    hide AnchorHolds;
    if Verified(c, ring, s.events) && ring.Some? {
      forall i | 0 <= i < |s.events| ensures s.events[i].authentication.Some? && AuthenticationOk(s.events[i].authentication.value) {
        assert LinkOk(c, ring, Tip(s.events[..i]), s.events[i]);
      }
    }
    hide LinkOk, AuthenticationOk;
  }

  /** After any run, restoring the log's own snapshot against its fresh anchor gives the same events. */
  lemma RestoreRoundTrip(c: AuditCrypto, log: Log, ops: seq<Op>)
    requires MacShaped(c) && LogOk(c, log) && After(c, log, ops).ring.latest <= MAX_SAFE_INTEGER
    requires |After(c, log, ops).events| <= MAX_SAFE_INTEGER
    ensures var log' := After(c, log, ops);
            Restored(c, Snapshot(2, log'.events), Some(log'.ring), AnchorOf(log')) == Ok(log'.events)
  {
    RunKeepsLog(c, log, ops);
    var log' := After(c, log, ops);
    forall i | 0 <= i < |log'.events| ensures EventShapeOk(c, 2, i, log'.events[i]) {
      assert LinkOk(c, Some(log'.ring), Tip(log'.events[..i]), log'.events[i]);
    }
  }

  /** Against the anchor of a verifying log, restore accepts that log's events and no others, not a
      truncation, not a rewrite, whatever keyring is supplied. */
  lemma RestoreAdmitsOneList(c: AuditCrypto, log: Log, events: seq<Event>, ring: Keyring)
    requires DigestCollisionFree(c) && MacCollisionFree(c) && Verified(c, Some(log.ring), log.events)
    requires Restored(c, Snapshot(2, events), Some(ring), AnchorOf(log)).Ok?
    ensures events == log.events && ring.activeKeyId == log.ring.activeKeyId && ring.latest == log.ring.latest
  {
    hide Verified;
    SameTipSameEvents(c, log.ring, log.events, ring, events);
  }
}
