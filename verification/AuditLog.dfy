/** The keyring and the audit log as the classes of the package: fields updated in place, `verify` and
    `restore` as loops, each tied to its function in module AuditChain. */
module AuditLog {
  import opened Common
  import opened Wrappers
  import opened AuditChain

  class InMemoryAuditKeyring {
    var keys: map<Text, KeyRecord>
    var activeKeyId: Text
    var latestKeyVersion: int

    function Ring(): Keyring
      reads this
    {
      Keyring(keys, activeKeyId, latestKeyVersion)
    }

    constructor (ring: Keyring)
      ensures Ring() == ring
    {
      keys, activeKeyId, latestKeyVersion := ring.keys, ring.activeKeyId, ring.latest;
    }

    /** Adds the given keys one by one, then activates one of them as version 1. */
    static method Provision(supplied: seq<(Text, Secret)>, activeKeyId: Text)
      returns (r: Result<InMemoryAuditKeyring, AuditError>)
      ensures r.Ok? ==> fresh(r.value) && RingOk(r.value.Ring()) && r.value.latestKeyVersion == 1
                        && r.value.activeKeyId == activeKeyId
                        && r.value.keys.Keys == set i | 0 <= i < |supplied| :: supplied[i].0
      ensures r.Ok? <==> && (forall i :: 0 <= i < |supplied| ==> KeyOk(supplied[i].0, supplied[i].1))
                         && (forall i, j :: 0 <= i < j < |supplied| ==> supplied[i].0 != supplied[j].0)
                         && (exists i :: 0 <= i < |supplied| && supplied[i].0 == activeKeyId)
    {
      if |supplied| == 0 { return Err(NoKeys); }
      var ring := Keyring(map[], activeKeyId, 0);
      var i := 0;
      while i < |supplied|
        invariant 0 <= i <= |supplied|
        invariant ring.activeKeyId == activeKeyId && ring.latest == 0
        invariant ring.keys.Keys == set j | 0 <= j < i :: supplied[j].0
        invariant forall j :: 0 <= j < i ==> KeyOk(supplied[j].0, supplied[j].1)
        invariant forall j, k :: 0 <= j < k < i ==> supplied[j].0 != supplied[k].0
        invariant forall id <- ring.keys ::
                    KeyOk(id, ring.keys[id].secret) && ring.keys[id].status == Provisioned && ring.keys[id].version.None?
      {
        hide KeyOk;
        var (next, outcome) := RingAdd(ring, supplied[i].0, supplied[i].1);
        if outcome.Threw? { return Err(outcome.error); }
        ring, i := next, i + 1;
      }
      if activeKeyId !in ring.keys { return Err(NotProvisioned); }
      FirstActivation(ring, activeKeyId);
      hide KeyOk, RingOk;
      ring := Keyring(ring.keys[activeKeyId := ring.keys[activeKeyId].(status := Active, version := Some(1))], activeKeyId, 1);
      var keyring := new InMemoryAuditKeyring(ring);
      return Ok(keyring);
    }

    method Add(keyId: Text, secret: Secret) returns (outcome: Outcome)
      modifies this
      ensures (Ring(), outcome) == RingAdd(old(Ring()), keyId, secret)
    {
      if !KeyOk(keyId, secret) { return Threw(InvalidKey); }
      if keyId in keys { return Threw(DuplicateKeyId); }
      keys := keys[keyId := KeyRecord(secret, Provisioned, None)];
      return Done;
    }

    method Activate(keyId: Text) returns (outcome: Outcome)
      requires HasActive(Ring())
      modifies this
      ensures (Ring(), outcome) == RingActivate(old(Ring()), keyId)
    {
      if keyId !in keys { return Threw(NotProvisioned); }
      if keys[keyId].status == Retired { return Threw(RetiredKey); }
      if keys[keyId].status == Active { return Threw(AlreadyActive); }
      var next := keys[keyId];
      keys := keys[activeKeyId := keys[activeKeyId].(status := Retired)];
      latestKeyVersion := latestKeyVersion + 1;
      keys := keys[keyId := next.(status := Active, version := Some(latestKeyVersion))];
      activeKeyId := keyId;
      return Done;
    }
  }

  class AuditLog {
    const crypto: AuditCrypto
    const keyProvider: InMemoryAuditKeyring?
    var events: seq<Event>

    function ProvidedRing(): Option<Keyring>
      reads this, keyProvider
    {
      if keyProvider == null then None else Some(keyProvider.Ring())
    }

    constructor (crypto: AuditCrypto, keyProvider: InMemoryAuditKeyring?)
      ensures this.crypto == crypto && this.keyProvider == keyProvider && events == []
    {
      this.crypto, this.keyProvider, events := crypto, keyProvider, [];
    }

    method Append(e: Entry) returns (outcome: Outcome)
      requires keyProvider != null ==> HasActive(keyProvider.Ring())
      modifies this`events
      ensures keyProvider != null ==>
                (Log(keyProvider.Ring(), events), outcome) == AppendTo(crypto, Log(keyProvider.Ring(), old(events)), e)
      ensures keyProvider == null ==>
                if crypto.isDate(e.occurredAt) then outcome == Done && events == old(events) + [Unsigned(crypto, old(events), e)]
                else outcome == Threw(InvalidDate) && events == old(events)
      ensures outcome == Done ==> OneMore(crypto, old(events), events, e)
    {
      if !crypto.isDate(e.occurredAt) { return Threw(InvalidDate); }
      var body := Body(|events| + 1, e.eventId, e.kind, e.correlationId, e.causationId, e.occurredAt, e.payload,
                       if |events| > 0 then events[|events| - 1].hash else HASH_GENESIS);
      var event := Event(body, crypto.digest(body), None);
      if keyProvider != null {
        var active := keyProvider.keys[keyProvider.activeKeyId];
        if !KeyOk(keyProvider.activeKeyId, active.secret) { return Threw(InvalidKey); }
        var previousTag :=
          if |events| > 0 && events[|events| - 1].authentication.Some? then events[|events| - 1].authentication.value.tag
          else AUTHENTICATION_GENESIS;
        event := Sign(crypto, event, keyProvider.activeKeyId, active.version.value, active.secret, previousTag);
      }
      events := events + [event];
      return Done;
    }

    method TrustAnchor() returns (r: Result<Anchor, AuditError>)
      requires keyProvider != null ==> RingOk(keyProvider.Ring())
      ensures r == if keyProvider == null then Err(NotAuthenticated) else Ok(AnchorOf(Log(keyProvider.Ring(), events)))
    {
      if keyProvider == null { return Err(NotAuthenticated); }
      var tip := Tip(events);
      return Ok(Anchor(
        |events|,
        if tip.Some? then tip.value.hash else HASH_GENESIS,
        TagOf(tip), KeyIdOf(tip),
        if tip.Some? && tip.value.authentication.Some? then Some(tip.value.authentication.value.keyVersion) else None,
        keyProvider.activeKeyId, keyProvider.keys[keyProvider.activeKeyId].version.value));
    }

    /** The verification loop carries the hash, tag, version and key id of the event before. */
    method Verify() returns (ok: bool)
      ensures ok <==> Verified(crypto, ProvidedRing(), events)
    {
      var previousHash, previousTag, previousVersion := HASH_GENESIS, AUTHENTICATION_GENESIS, 0;
      var previousKeyId: Option<Text> := None;
      ghost var ring := ProvidedRing();
      var i := 0;
      while i < |events|
        invariant 0 <= i <= |events|
        invariant Verified(crypto, ring, events[..i])
        invariant var previous := Tip(events[..i]);
                  && previousHash == HashOf(previous)
                  && (keyProvider != null ==>
                        previousTag == TagOf(previous) && previousVersion == VersionOf(previous) && previousKeyId == KeyIdOf(previous))
        invariant ring == ProvidedRing()
      {
        hide Verified, AuthenticationOk, KeyFor, InputOf, Tip;
        VerifiedUpTo(crypto, ring, events, i);
        var event := events[i];
        assert ring.Some? ==> ring.value == keyProvider.Ring();
        if event.body.previousHash != previousHash || crypto.digest(event.body) != event.hash { return false; }
        previousHash := event.hash;
        if keyProvider != null {
          if event.authentication.None? { return false; }
          var a := event.authentication.value;
          if !AuthenticationOk(a) || a.previousTag != previousTag { return false; }
          var key := KeyFor(keyProvider.Ring(), a.keyId);
          if key.None? || key.value.version != Some(a.keyVersion) || a.keyVersion < previousVersion
             || (a.keyVersion == previousVersion && previousKeyId != Some(a.keyId)) {
            return false;
          }
          var expected := crypto.mac(key.value.secret, InputOf(event, a));
          if crypto.tagBytes(expected) != crypto.tagBytes(a.tag) { return false; }
          previousTag, previousVersion, previousKeyId := a.tag, a.keyVersion, Some(a.keyId);
        } else if event.authentication.Some? {
          return false;
        }
        i := i + 1;
      }
      assert events[..i] == events;
      return true;
    }

    method VerifyTrustAnchor(anchor: Anchor) returns (r: Result<bool, AuditError>)
      requires keyProvider != null ==> RingOk(keyProvider.Ring())
      ensures keyProvider != null ==> r == Ok(AnchorHolds(Log(keyProvider.Ring(), events), anchor))
    {
      if !(0 <= anchor.eventCount <= MAX_SAFE_INTEGER) { return Ok(false); }
      var current := TrustAnchor();
      if current.Err? { return Err(current.error); }
      return Ok(current.value == anchor);
    }

    static method Restore(crypto: AuditCrypto, s: Snapshot, keys: InMemoryAuditKeyring?, expected: Anchor)
      returns (r: Result<AuditLog, AuditError>)
      requires keys != null ==> RingOk(keys.Ring())
      ensures r.Ok? ==> fresh(r.value) && r.value.crypto == crypto && r.value.keyProvider == keys
      ensures (if r.Ok? then Ok(r.value.events) else Err(r.error))
           == Restored(crypto, s, if keys == null then None else Some(keys.Ring()), expected)
    {
      hide Verified;
      if s.schemaVersion != 1 && s.schemaVersion != 2 { return Err(InvalidSnapshot); }
      if s.schemaVersion == 2 && keys == null { return Err(AnchorRequired); }
      if s.schemaVersion == 1 && keys != null { return Err(NotAuthenticated); }
      var log := new AuditLog(crypto, keys);
      var i := 0;
      while i < |s.events|
        invariant 0 <= i <= |s.events| && log.events == s.events[..i]
        invariant forall j :: 0 <= j < i ==> EventShapeOk(crypto, s.schemaVersion, j, s.events[j])
      {
        if !EventShapeOk(crypto, s.schemaVersion, i, s.events[i]) { return Err(InvalidEvent); }
        log.events := log.events + [s.events[i]];
        i := i + 1;
      }
      assert s.events[..i] == s.events;
      var intact := log.Verify();
      if !intact { return Err(ChainRejected); }
      if keys != null {
        var anchored := log.VerifyTrustAnchor(expected);
        if anchored != Ok(true) { return Err(AnchorMismatch); }
      }
      return Ok(log);
    }
  }

  lemma FirstActivation(ring: Keyring, keyId: Text)
    requires keyId in ring.keys
    requires forall id <- ring.keys ::
               KeyOk(id, ring.keys[id].secret) && ring.keys[id].status == Provisioned && ring.keys[id].version.None?
    ensures RingOk(Keyring(ring.keys[keyId := ring.keys[keyId].(status := Active, version := Some(1))], keyId, 1))
  {
    hide KeyOk;
  }

  lemma VerifiedUpTo(c: AuditCrypto, ring: Option<Keyring>, events: seq<Event>, n: nat)
    requires n < |events|
    ensures Verified(c, ring, events[..n + 1]) <==> Verified(c, ring, events[..n]) && LinkOk(c, ring, Tip(events[..n]), events[n])
    ensures Verified(c, ring, events) ==> Verified(c, ring, events[..n + 1])
    ensures Tip(events[..n + 1]) == Some(events[n])
  {
    hide LinkOk;
    var longer := events[..n + 1];
    assert forall i :: 0 <= i <= n ==> longer[..i] == events[..i];
    assert longer[..n] == events[..n];
    if Verified(c, ring, events[..n]) && LinkOk(c, ring, Tip(events[..n]), events[n]) {
      VerifiedSnoc(c, ring, events[..n], events[n]);
      assert events[..n] + [events[n]] == longer;
    }
    if Verified(c, ring, longer) { VerifiedPrefix(c, ring, longer, n); }
    if Verified(c, ring, events) { VerifiedPrefix(c, ring, events, n + 1); }
  }
}
