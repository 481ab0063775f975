/** The remote audit log as the class of the package, over a state store and an anchor publisher that
    it updates through their calls.  Every awaited call takes a fault; each method is tied to the run of
    moves of module RemoteAudit that it makes. */
module RemoteAuditLog {
  import opened Wrappers
  import opened AuditChain
  import opened AuditLog
  import opened RemoteAudit

  datatype RemoteError = Refused

  class StateStore {
    var state: Journal

    constructor ()
      ensures state == Journal(0, [], None)
    {
      state := Journal(0, [], None);
    }

    method PrepareRecord(expected: int, pending: Pending, fault: Fault) returns (ok: bool)
      modifies this
      ensures var next := Prepare(old(state), expected, pending);
              && state == (if fault == BeforeEffect || next.None? then old(state) else next.value)
              && (ok <==> fault == NoFault && next.Some?)
    {
      if fault == BeforeEffect { return false; }
      if state.revision != expected || state.pending.Some? { return false; }
      state := state.(pending := Some(pending));
      return fault == NoFault;
    }

    method CommitRecord(commitId: Text, fault: Fault) returns (ok: bool)
      modifies this
      ensures var next := Commit(old(state), commitId);
              && state == (if fault == BeforeEffect || next.None? then old(state) else next.value)
              && (ok <==> fault == NoFault && next.Some?)
    {
      if state.pending.None? || state.pending.value.commitId != commitId { return false; }
      if fault == BeforeEffect { return false; }
      state := Journal(state.revision + 1, state.pending.value.snapshot, None);
      return fault == NoFault;
    }

    method AbortRecord(commitId: Text, fault: Fault) returns (ok: bool)
      modifies this
      ensures state == (if fault == BeforeEffect then old(state) else Abort(old(state), commitId))
      ensures ok <==> fault == NoFault
    {
      if fault == BeforeEffect { return false; }
      if state.pending.Some? && state.pending.value.commitId == commitId {
        state := state.(pending := None);
      }
      return fault == NoFault;
    }
  }

  class AnchorPublisher {
    var current: Option<Published>

    constructor ()
      ensures current.None?
    {
      current := None;
    }

    method PublishAnchor(expected: Option<int>, anchor: Anchor, fault: Fault) returns (r: Option<Published>)
      modifies this
      ensures var next := Publish(old(current), expected, anchor);
              && current == (if fault == BeforeEffect || next.None? then old(current) else next)
              && r == (if fault == NoFault then next else None)
    {
      if fault == BeforeEffect { return None; }
      var revision := if current.Some? then Some(current.value.revision) else None;
      if revision != expected { return None; }
      current := Some(Published(anchor, (if current.Some? then current.value.revision else 0) + 1));
      return if fault == NoFault then current else None;
    }
  }

  /** The verification of a snapshot, event by event. */
  method VerifySnapshot(c: AuditCrypto, keys: InMemoryAuditKeyring, events: seq<Event>) returns (ok: bool)
    ensures ok <==> RemoteVerified(c, keys.Ring(), events)
  {
    var previousHash, previousTag, previousVersion := HASH_GENESIS, AUTHENTICATION_GENESIS, 0;
    var previousKeyId: Option<Text> := None;
    ghost var ring := keys.Ring();
    var i := 0;
    while i < |events|
      invariant 0 <= i <= |events|
      invariant RemoteVerified(c, ring, events[..i])
      invariant var previous := Tip(events[..i]);
                && previousHash == HashOf(previous) && previousTag == TagOf(previous)
                && previousVersion == VersionOf(previous) && previousKeyId == KeyIdOf(previous)
    {
      hide RemoteVerified, AuthenticationOk, RemoteShapeOk, KeyFor, InputOf, Tip;
      RemoteVerifiedUpTo(c, ring, events, i);
      var event := events[i];
      if !RemoteShapeOk(c, i, event) || event.authentication.None? { return false; }
      var a := event.authentication.value;
      if !AuthenticationOk(a) { return false; }
      if event.body.previousHash != previousHash || c.digest(event.body) != event.hash { return false; }
      if a.previousTag != previousTag { return false; }
      var key := KeyFor(keys.Ring(), a.keyId);
      if key.None? || key.value.version != Some(a.keyVersion) || a.keyVersion < previousVersion
         || (a.keyVersion == previousVersion && previousKeyId != Some(a.keyId)) {
        return false;
      }
      if c.tagBytes(c.mac(key.value.secret, InputOf(event, a))) != c.tagBytes(a.tag) { return false; }
      previousHash, previousTag, previousVersion, previousKeyId := event.hash, a.tag, a.keyVersion, Some(a.keyId);
      i := i + 1;
    }
    assert events[..i] == events;
    return true;
  }

  lemma RemoteVerifiedUpTo(c: AuditCrypto, ring: Keyring, events: seq<Event>, n: nat)
    requires n < |events|
    ensures RemoteVerified(c, ring, events[..n + 1])
       <==> RemoteVerified(c, ring, events[..n]) && RemoteShapeOk(c, n, events[n]) && LinkOk(c, Some(ring), Tip(events[..n]), events[n])
    ensures RemoteVerified(c, ring, events) ==> RemoteVerified(c, ring, events[..n + 1])
    ensures Tip(events[..n + 1]) == Some(events[n])
  {
    hide LinkOk, RemoteShapeOk, Verified;
    VerifiedUpTo(c, Some(ring), events, n);
    var longer := events[..n + 1];
    assert forall i :: 0 <= i < n ==> longer[i] == events[..n][i];
    assert forall i :: 0 <= i <= n ==> longer[i] == events[i];
  }

  /** A process runs on, its k-th await ending as f(k) says. */
  function Run(c: AuditCrypto, w: World, pid: Pid, commitId: Text, f: nat -> Fault, k: nat): World
    decreases 7 - k
  {
    if k >= 7 then w else Run(c, Next(c, w, Advance(pid, f(k), commitId)), pid, commitId, f, k + 1)
  }

  predicate AtRest(w: World, pid: Pid) {
    pid in w.processes ==> w.processes[pid].Handle? && w.processes[pid].phase == Idle
  }

  lemma {:induction false} RestRuns(c: AuditCrypto, w: World, pid: Pid, commitId: Text, f: nat -> Fault, k: nat)
    requires AtRest(w, pid)
    ensures Run(c, w, pid, commitId, f, k) == w
    decreases 7 - k
  {
    if k < 7 { RestRuns(c, w, pid, commitId, f, k + 1); }
  }

  class AsyncRemoteAuditLog {
    const crypto: AuditCrypto
    const keys: InMemoryAuditKeyring
    const publisher: AnchorPublisher
    const store: StateStore
    var state: Journal
    var published: Published

    constructor (crypto: AuditCrypto, keys: InMemoryAuditKeyring, publisher: AnchorPublisher, store: StateStore,
                 state: Journal, published: Published)
      ensures this.crypto == crypto && this.keys == keys && this.publisher == publisher && this.store == store
      ensures this.state == state && this.published == published
    {
      this.crypto, this.keys, this.publisher, this.store := crypto, keys, publisher, store;
      this.state, this.published := state, published;
    }

    /** The world in which this handle is the only process. */
    ghost function Seen(pid: Pid, phase: Phase, history: seq<Event>): World
      reads this, keys, publisher, store
    {
      World(store.state, publisher.current, keys.Ring(), map[pid := Handle(View(state, published), phase)], history)
    }

    method AppendEntry(entry: Entry, commitId: Text, f: nat -> Fault, ghost pid: Pid, ghost history: seq<Event>)
      returns (r: Result<Event, RemoteError>, ghost after: seq<Event>)
      requires HasActive(keys.Ring()) && keys.keys[keys.activeKeyId].version == Some(keys.latestKeyVersion)
      modifies this, store, publisher
      ensures Seen(pid, Idle, after)
           == Run(crypto, Next(crypto, old(Seen(pid, Idle, history)), StartAppend(pid, entry)), pid, commitId, f, 0)
      ensures r.Ok? ==> after == history + [r.value] && state == store.state
      ensures r.Err? ==> state == old(state) && published == old(published)
    {
      hide Unsigned, Run;
      after := history;
      ghost var w := Next(crypto, Seen(pid, Idle, history), StartAppend(pid, entry));
      if !EntryOk(crypto, entry) || entry.eventId == "" {
        RestRuns(crypto, w, pid, commitId, f, 0);
        return Err(Refused), after;
      }
      var keyId, version := keys.activeKeyId, keys.keys[keys.activeKeyId].version.value;
      if !MetadataOk(keyId, version) || KeyRollback(state.snapshot, keyId, version) {
        RestRuns(crypto, w, pid, commitId, f, 0);
        return Err(Refused), after;
      }
      assert w == Seen(pid, Signing(entry, keyId, version), history);
      w := Advanced(w, pid, commitId, f, 0);
      var event := Signed(crypto, keys.Ring(), state.snapshot, entry, keyId, version);
      if f(0) != NoFault || !TagOk(event.authentication.value.tag) {
        RestRuns(crypto, w, pid, commitId, f, 1);
        return Err(Refused), after;
      }
      var snapshot := state.snapshot + [event];
      var pending := Pending(commitId, snapshot, AnchorFor(snapshot, keyId, version));
      assert w == Seen(pid, Preparing(event, pending), history);
      r, after := CommitPending(event, pending, f, pid, history);
    }

    /** From `prepare` on. */
    method CommitPending(event: Event, pending: Pending, f: nat -> Fault, ghost pid: Pid, ghost history: seq<Event>)
      returns (r: Result<Event, RemoteError>, ghost after: seq<Event>)
      modifies this, store, publisher
      ensures Seen(pid, Idle, after)
           == Run(crypto, old(Seen(pid, Preparing(event, pending), history)), pid, pending.commitId, f, 1)
      ensures r.Ok? ==> after == history + [event] && r.value == event && state == store.state
      ensures r.Err? ==> state == old(state) && published == old(published)
    {
      hide Run;
      after := history;
      ghost var id := pending.commitId;
      ghost var w := Advanced(Seen(pid, Preparing(event, pending), history), pid, id, f, 1);
      var prepared := store.PrepareRecord(state.revision, pending, f(1));
      if !prepared {
        RestRuns(crypto, w, pid, id, f, 2);
        return Err(Refused), after;
      }
      assert w == Seen(pid, Publishing(event, pending), history);
      r, after := PublishPending(event, pending, f, pid, history);
    }

    /** From `publish` on. */
    method PublishPending(event: Event, pending: Pending, f: nat -> Fault, ghost pid: Pid, ghost history: seq<Event>)
      returns (r: Result<Event, RemoteError>, ghost after: seq<Event>)
      modifies this, store, publisher
      ensures Seen(pid, Idle, after)
           == Run(crypto, old(Seen(pid, Publishing(event, pending), history)), pid, pending.commitId, f, 2)
      ensures r.Ok? ==> after == history + [event] && r.value == event && state == store.state
      ensures r.Err? ==> state == old(state) && published == old(published)
    {
      hide Run;
      ghost var id := pending.commitId;
      ghost var w := Advanced(Seen(pid, Publishing(event, pending), history), pid, id, f, 2);
      var outcome := publisher.PublishAnchor(Some(published.revision), pending.anchor, f(2));
      after := w.history;
      if outcome.None? {
        assert w == Seen(pid, Aborting(event, pending), after);
        w := Advanced(w, pid, id, f, 3);
        var _ := store.AbortRecord(pending.commitId, f(3));
        RestRuns(crypto, w, pid, id, f, 4);
        return Err(Refused), after;
      }
      assert w == Seen(pid, Committing(event, pending, outcome.value), after);
      r := FinishCommit(event, pending, outcome.value, f, pid, after);
    }

    /** From `commit` on. */
    method FinishCommit(event: Event, pending: Pending, outcome: Published, f: nat -> Fault, ghost pid: Pid, ghost history: seq<Event>)
      returns (r: Result<Event, RemoteError>)
      modifies this, store
      ensures Seen(pid, Idle, history)
           == Run(crypto, old(Seen(pid, Committing(event, pending, outcome), history)), pid, pending.commitId, f, 3)
      ensures r.Ok? ==> r.value == event && state == store.state
      ensures r.Err? ==> state == old(state) && published == old(published)
    {
      hide Run;
      ghost var id := pending.commitId;
      ghost var w := Advanced(Seen(pid, Committing(event, pending, outcome), history), pid, id, f, 3);
      var committed := store.CommitRecord(pending.commitId, f(3));
      if !committed {
        RestRuns(crypto, w, pid, id, f, 4);
        return Err(Refused);
      }
      assert w == Seen(pid, Loading(event, outcome), history);
      w := Advanced(w, pid, id, f, 4);
      if f(4) != NoFault {
        RestRuns(crypto, w, pid, id, f, 5);
        return Err(Refused);
      }
      state := store.state;
      published := outcome;
      RestRuns(crypto, w, pid, id, f, 5);
      return Ok(event);
    }

    /** One more await of a run. */
    ghost function Advanced(w: World, pid: Pid, commitId: Text, f: nat -> Fault, k: nat): (w': World)
      requires k < 7
      ensures w' == Next(crypto, w, Advance(pid, f(k), commitId))
      ensures Run(crypto, w, pid, commitId, f, k) == Run(crypto, w', pid, commitId, f, k + 1)
    {
      Next(crypto, w, Advance(pid, f(k), commitId))
    }
  }

  /** The stores as an opening process sees them. */
  ghost function Opening(
    keys: InMemoryAuditKeyring, publisher: AnchorPublisher, store: StateStore, processes: map<Pid, Process>, history: seq<Event>): World
    reads keys, publisher, store
  {
    World(store.state, publisher.current, keys.Ring(), processes, history)
  }

  ghost function OpenAdvanced(c: AuditCrypto, w: World, pid: Pid, f: nat -> Fault, k: nat): (w': World)
    requires k < 7
    ensures w' == Next(c, w, Advance(pid, f(k), ""))
    ensures Run(c, w, pid, "", f, k) == Run(c, w', pid, "", f, k + 1)
  {
    Next(c, w, Advance(pid, f(k), ""))
  }

  /** Opening: load both stores, resolve a pending record, load again, publish a first anchor, check. */
  method Open(
    crypto: AuditCrypto, keys: InMemoryAuditKeyring, publisher: AnchorPublisher, store: StateStore, f: nat -> Fault,
    ghost pid: Pid, ghost history: seq<Event>) returns (r: Result<AsyncRemoteAuditLog, RemoteError>)
    requires HasActive(keys.Ring()) && keys.keys[keys.activeKeyId].version == Some(keys.latestKeyVersion)
    modifies publisher, store
    ensures r.Ok? ==> && fresh(r.value) && r.value.crypto == crypto && r.value.keys == keys
                      && r.value.publisher == publisher && r.value.store == store
    ensures Opening(keys, publisher, store,
                    if r.Ok? then map[pid := Handle(View(r.value.state, r.value.published), Idle)] else map[], history)
         == Run(crypto, Next(crypto, old(Opening(keys, publisher, store, map[], history)), StartOpen(pid)), pid, "", f, 0)
  {
    hide Run, Accepted, AnchorFor;
    ghost var w := Next(crypto, Opening(keys, publisher, store, map[], history), StartOpen(pid));
    var state := store.state;
    w := OpenAdvanced(crypto, w, pid, f, 0);
    if f(0) != NoFault {
      RestRuns(crypto, w, pid, "", f, 1);
      return Err(Refused);
    }
    var known := publisher.current;
    if state.pending.Some? {
      assert w == Opening(keys, publisher, store, map[pid := Resolving(state, known)], history);
      r := ResolveThenOpen(crypto, keys, publisher, store, state, known, f, pid, history);
    } else {
      assert w == Opening(keys, publisher, store, map[pid := ReadingKey(state, known)], history);
      r := FinishOpen(crypto, keys, publisher, store, state, known, f, 1, pid, history);
    }
  }

  /** A pending record is rolled forward or back, and both stores are loaded again. */
  method ResolveThenOpen(
    crypto: AuditCrypto, keys: InMemoryAuditKeyring, publisher: AnchorPublisher, store: StateStore, state: Journal,
    known: Option<Published>, f: nat -> Fault, ghost pid: Pid, ghost history: seq<Event>)
    returns (r: Result<AsyncRemoteAuditLog, RemoteError>)
    requires HasActive(keys.Ring()) && keys.keys[keys.activeKeyId].version == Some(keys.latestKeyVersion) && state.pending.Some?
    modifies publisher, store
    ensures r.Ok? ==> && fresh(r.value) && r.value.crypto == crypto && r.value.keys == keys
                      && r.value.publisher == publisher && r.value.store == store
    ensures Opening(keys, publisher, store,
                    if r.Ok? then map[pid := Handle(View(r.value.state, r.value.published), Idle)] else map[], history)
         == Run(crypto, old(Opening(keys, publisher, store, map[pid := Resolving(state, known)], history)), pid, "", f, 1)
  {
    hide Run, Accepted, AnchorFor;
    ghost var w := OpenAdvanced(crypto, Opening(keys, publisher, store, map[pid := Resolving(state, known)], history), pid, f, 1);
    var pending := state.pending.value;
    var resolved;
    if known.Some? && known.value.anchor == pending.anchor {
      resolved := store.CommitRecord(pending.commitId, f(1));
    } else {
      resolved := store.AbortRecord(pending.commitId, f(1));
    }
    if !resolved {
      RestRuns(crypto, w, pid, "", f, 2);
      return Err(Refused);
    }
    assert w == Opening(keys, publisher, store, map[pid := ReloadingState], history);
    w := OpenAdvanced(crypto, w, pid, f, 2);
    if f(2) != NoFault {
      RestRuns(crypto, w, pid, "", f, 3);
      return Err(Refused);
    }
    var reloaded := store.state;
    w := OpenAdvanced(crypto, w, pid, f, 3);
    if f(3) != NoFault {
      RestRuns(crypto, w, pid, "", f, 4);
      return Err(Refused);
    }
    assert w == Opening(keys, publisher, store, map[pid := ReadingKey(reloaded, publisher.current)], history);
    r := FinishOpen(crypto, keys, publisher, store, reloaded, publisher.current, f, 4, pid, history);
  }

  /** From the active key on. */
  method FinishOpen(
    crypto: AuditCrypto, keys: InMemoryAuditKeyring, publisher: AnchorPublisher, store: StateStore, state: Journal,
    known: Option<Published>, f: nat -> Fault, k: nat, ghost pid: Pid, ghost history: seq<Event>)
    returns (r: Result<AsyncRemoteAuditLog, RemoteError>)
    requires HasActive(keys.Ring()) && keys.keys[keys.activeKeyId].version == Some(keys.latestKeyVersion) && k <= 4
    modifies publisher
    ensures r.Ok? ==> && fresh(r.value) && r.value.crypto == crypto && r.value.keys == keys
                      && r.value.publisher == publisher && r.value.store == store
    ensures Opening(keys, publisher, store,
                    if r.Ok? then map[pid := Handle(View(r.value.state, r.value.published), Idle)] else map[], history)
         == Run(crypto, old(Opening(keys, publisher, store, map[pid := ReadingKey(state, known)], history)), pid, "", f, k)
  {
    hide Run, RemoteVerified, AnchorFor, MetadataOk;
    ghost var w := OpenAdvanced(crypto, Opening(keys, publisher, store, map[pid := ReadingKey(state, known)], history), pid, f, k);
    var keyId, version := keys.activeKeyId, keys.keys[keys.activeKeyId].version.value;
    if f(k) != NoFault || !MetadataOk(keyId, version) || (known.None? && state.snapshot != []) {
      RestRuns(crypto, w, pid, "", f, k + 1);
      return Err(Refused);
    }
    var j := k + 1;
    var published := known;
    if known.None? {
      assert w == Opening(keys, publisher, store, map[pid := PublishingFirst(state, keyId, version)], history);
      w := OpenAdvanced(crypto, w, pid, f, j);
      published := publisher.PublishAnchor(None, AnchorFor(state.snapshot, keyId, version), f(j));
      j := k + 2;
      if published.None? {
        RestRuns(crypto, w, pid, "", f, j);
        return Err(Refused);
      }
    }
    assert w == Opening(keys, publisher, store, map[pid := Checking(state, published.value, keyId, version)], history);
    r := CheckOpened(crypto, keys, publisher, store, state, published.value, keyId, version, f, j, pid, history);
  }

  /** The check that ends an open. */
  method CheckOpened(
    crypto: AuditCrypto, keys: InMemoryAuditKeyring, publisher: AnchorPublisher, store: StateStore, state: Journal,
    published: Published, keyId: Text, version: int, f: nat -> Fault, k: nat, ghost pid: Pid, ghost history: seq<Event>)
    returns (r: Result<AsyncRemoteAuditLog, RemoteError>)
    requires k <= 6
    ensures r.Ok? ==> && fresh(r.value) && r.value.crypto == crypto && r.value.keys == keys
                      && r.value.publisher == publisher && r.value.store == store
                      && r.value.state == state && r.value.published == published
    ensures Opening(keys, publisher, store,
                    if r.Ok? then map[pid := Handle(View(r.value.state, r.value.published), Idle)] else map[], history)
         == Run(crypto, Opening(keys, publisher, store, map[pid := Checking(state, published, keyId, version)], history), pid, "", f, k)
  {
    hide Run, RemoteVerified, AnchorFor, MetadataOk;
    ghost var w := OpenAdvanced(
      crypto, Opening(keys, publisher, store, map[pid := Checking(state, published, keyId, version)], history), pid, f, k);
    var a := published.anchor;
    var intact := VerifySnapshot(crypto, keys, state.snapshot);
    RestRuns(crypto, w, pid, "", f, k + 1);
    if f(k) != NoFault || !MetadataOk(a.activeKeyId, a.activeKeyVersion)
       || a != AnchorFor(state.snapshot, a.activeKeyId, a.activeKeyVersion)
       || version < a.activeKeyVersion || (version == a.activeKeyVersion && keyId != a.activeKeyId) || !intact {
      return Err(Refused);
    }
    var log := new AsyncRemoteAuditLog(crypto, keys, publisher, store, state, published);
    return Ok(log);
  }
}
