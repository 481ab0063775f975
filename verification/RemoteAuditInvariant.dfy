/** The relation between journal, publisher and every process that each allowed move keeps, with a
    crash possible at every await. */
module RemoteAuditInvariant {
  import opened Common
  import opened Wrappers
  import opened AuditChain
  import opened RemoteAudit

  ghost predicate Shaped(c: AuditCrypto) { MacShaped(c) && DigestShaped(c) }

  /** A key id the ring has given this version. */
  predicate KeyBound(ring: Keyring, keyId: Text, version: int) {
    KeyFor(ring, keyId).Some? && KeyFor(ring, keyId).value.version == Some(version) && MetadataOk(keyId, version)
  }

  predicate AnchorBound(ring: Keyring, events: seq<Event>, a: Anchor) {
    a == AnchorFor(events, a.activeKeyId, a.activeKeyVersion) && KeyBound(ring, a.activeKeyId, a.activeKeyVersion)
  }

  /** A record one event ahead of `base`, as an append computes it. */
  predicate NextRecord(c: AuditCrypto, ring: Keyring, base: seq<Event>, e: Event, p: Pending) {
    && p.snapshot == base + [e]
    && RemoteShapeOk(c, |base|, e) && LinkOk(c, Some(ring), Tip(base), e)
    && AnchorBound(ring, p.snapshot, p.anchor)
  }

  /** The committed snapshot is the published history, and a pending record is one unpublished event
      ahead of it. */
  ghost predicate Settled(c: AuditCrypto, w: World) {
    && w.journal.snapshot == w.history
    && (w.journal.pending.Some? ==> exists e :: NextRecord(c, w.ring, w.history, e, w.journal.pending.value))
  }

  /** The pending record is the published history and waits to be committed. */
  predicate Ahead(w: World) {
    && w.journal.pending.Some? && w.published.Some?
    && w.journal.pending.value.snapshot == w.history
    && w.history != [] && w.journal.snapshot == w.history[..|w.history| - 1]
    && w.published.value.anchor == w.journal.pending.value.anchor
  }

  ghost predicate StoresOk(c: AuditCrypto, w: World) {
    && RingOk(w.ring) && w.ring.latest <= MAX_SAFE_INTEGER
    && RemoteVerified(c, w.ring, w.history)
    && (w.published.None? ==> w.history == [] && w.journal.pending.None?)
    && (w.published.Some? ==> AnchorBound(w.ring, w.history, w.published.value.anchor))
    && (Settled(c, w) || Ahead(w))
  }

  /** A view is behind the stores or up to date with them. */
  predicate ViewOk(c: AuditCrypto, w: World, view: View) {
    && w.published.Some?
    && view.state.revision <= w.journal.revision
    && (view.state.revision == w.journal.revision ==> view.state.snapshot == w.journal.snapshot)
    && RemoteVerified(c, w.ring, view.state.snapshot)
    && PublishedKnown(w, view.published)
  }

  predicate PublishedKnown(w: World, published: Published) {
    && w.published.Some? && published.revision <= w.published.value.revision
    && (published.revision == w.published.value.revision ==> published == w.published.value)
  }

  predicate Owns(p: Process) { p.Handle? && (p.phase.Publishing? || p.phase.Aborting? || p.phase.Committing?) }

  ghost predicate PhaseOk(c: AuditCrypto, w: World, view: View, ph: Phase) {
    match ph
    case Idle => true
    case Signing(entry, keyId, version) =>
      EntryOk(c, entry) && entry.eventId != "" && KeyBound(w.ring, keyId, version) && !KeyRollback(view.state.snapshot, keyId, version)
    case Preparing(e, p) => NextRecord(c, w.ring, view.state.snapshot, e, p)
    case Publishing(e, p) => Unpublished(c, w, view, e, p)
    case Aborting(e, p) => Unpublished(c, w, view, e, p)
    case Committing(e, p, published) =>
      w.journal.pending == Some(p) && p.snapshot == w.history && e in w.history && PublishedKnown(w, published)
    case Loading(e, published) => e in w.history && PublishedKnown(w, published)
  }

  /** The handle's own record is in the journal, one unpublished event ahead of the history, and the
      handle's view of the journal is current. */
  predicate Unpublished(c: AuditCrypto, w: World, view: View, e: Event, p: Pending) {
    && w.journal.pending == Some(p) && view.state.revision == w.journal.revision
    && w.journal.snapshot == w.history && NextRecord(c, w.ring, w.history, e, p)
  }

  predicate Loaded(w: World, state: Journal) {
    && (state == w.journal || (state.pending.Some? && w.journal.pending.None?))
    && (state.pending.Some? ==> w.published.Some?)
  }

  predicate Current(w: World, state: Journal, known: Option<Published>) {
    state == w.journal && state.pending.None? && (known.Some? ==> known == w.published)
  }

  ghost predicate ProcessOk(c: AuditCrypto, w: World, p: Process) {
    match p
    case LoadingPublished(state) => Loaded(w, state)
    case Resolving(state, known) => Loaded(w, state) && state.pending.Some? && known == w.published
    case ReloadingState => w.journal.pending.None?
    case ReloadingPublished(state) => Current(w, state, None)
    case ReadingKey(state, known) => Current(w, state, known)
    case PublishingFirst(state, keyId, version) =>
      Current(w, state, None) && state.snapshot == [] && KeyBound(w.ring, keyId, version)
    case Checking(state, published, keyId, version) =>
      && Current(w, state, Some(published)) && KeyBound(w.ring, keyId, version)
      && version >= published.anchor.activeKeyVersion
    case Handle(view, ph) => ViewOk(c, w, view) && PhaseOk(c, w, view, ph)
  }

  ghost predicate ProcessesOk(c: AuditCrypto, w: World) { forall q <- w.processes :: ProcessOk(c, w, w.processes[q]) }

  ghost predicate OneOwner(w: World) {
    forall q, r | q in w.processes && r in w.processes && Owns(w.processes[q]) && Owns(w.processes[r]) :: q == r
  }

  ghost predicate Exclusive(w: World) {
    forall q, r | q in w.processes && r in w.processes :: !(MidAppend(w, q) && MidOpen(w, r))
  }

  ghost predicate Inv(c: AuditCrypto, w: World) {
    StoresOk(c, w) && ProcessesOk(c, w) && OneOwner(w) && Exclusive(w)
  }

  // ---------- changes that leave the other processes in step ----------

  /** Only the mover's process entry changes between w and w'. */
  ghost predicate OthersKept(w: World, w': World, pid: Pid) {
    forall q <- w'.processes :: q != pid ==> q in w.processes && w'.processes[q] == w.processes[q]
  }

  /** The stores as the other processes see them: nothing moved. */
  predicate SameStores(w: World, w': World) {
    w'.journal == w.journal && w'.published == w.published && w'.ring == w.ring && w'.history == w.history
  }

  lemma SameStoresKeepProcess(c: AuditCrypto, w: World, w': World, p: Process)
    requires SameStores(w, w') && ProcessOk(c, w, p)
    ensures ProcessOk(c, w', p)
  {
    hide RemoteVerified, NextRecord, KeyBound, KeyRollback, EntryOk;
  }

  lemma SameStoresKeepStores(c: AuditCrypto, w: World, w': World)
    requires SameStores(w, w') && StoresOk(c, w)
    ensures StoresOk(c, w')
  {
    hide RemoteVerified, NextRecord, AnchorBound, RingOk;
  }

  /** Replacing or dropping one process. */
  lemma ProcessMoves(c: AuditCrypto, w: World, w': World, pid: Pid)
    requires ProcessesOk(c, w) && OthersKept(w, w', pid)
    requires forall q <- w.processes :: q != pid ==> ProcessOk(c, w', w.processes[q])
    requires pid in w'.processes ==> ProcessOk(c, w', w'.processes[pid])
    ensures ProcessesOk(c, w')
  {
    hide ProcessOk;
  }

  /** Owning the journal and being in the middle of a call are decided by process entries alone. */
  lemma RolesMove(w: World, w': World, pid: Pid)
    requires OneOwner(w) && Exclusive(w) && OthersKept(w, w', pid)
    requires pid in w'.processes && Owns(w'.processes[pid]) ==> forall q <- w.processes :: q != pid ==> !Owns(w.processes[q])
    requires MidAppend(w', pid) ==> forall q <- w.processes :: q != pid ==> !MidOpen(w, q)
    requires MidOpen(w', pid) ==> forall q <- w.processes :: q != pid ==> !MidAppend(w, q)
    ensures OneOwner(w') && Exclusive(w')
  {
  }

  /** A move that touches only the mover's own entry. */
  lemma LocalMove(c: AuditCrypto, w: World, w': World, pid: Pid)
    requires Inv(c, w) && SameStores(w, w') && OthersKept(w, w', pid)
    requires pid in w'.processes ==> ProcessOk(c, w', w'.processes[pid])
    requires pid in w'.processes && Owns(w'.processes[pid]) ==> pid in w.processes && Owns(w.processes[pid])
    requires MidAppend(w', pid) ==> MidAppend(w, pid) || forall q <- w.processes :: !MidOpen(w, q)
    requires MidOpen(w', pid) ==> MidOpen(w, pid) || forall q <- w.processes :: !MidAppend(w, q)
    ensures Inv(c, w')
  {
    hide StoresOk, ProcessOk, SameStores;
    SameStoresKeepStores(c, w, w');
    forall q | q in w.processes ensures ProcessOk(c, w', w.processes[q]) {
      SameStoresKeepProcess(c, w, w', w.processes[q]);
    }
    ProcessMoves(c, w, w', pid);
    RolesMove(w, w', pid);
  }

  /** A move that changes the stores: every process must fit the new ones. */
  lemma StoreMove(c: AuditCrypto, w: World, w': World, pid: Pid)
    requires Inv(c, w) && StoresOk(c, w') && OthersKept(w, w', pid)
    requires pid in w'.processes ==> ProcessOk(c, w', w'.processes[pid])
    requires forall q <- w.processes :: q != pid ==> ProcessOk(c, w', w.processes[q])
    requires pid in w'.processes && Owns(w'.processes[pid]) ==> forall q <- w.processes :: q != pid ==> !Owns(w.processes[q])
    requires MidAppend(w', pid) ==> MidAppend(w, pid)
    requires MidOpen(w', pid) ==> MidOpen(w, pid)
    ensures Inv(c, w')
  {
    hide StoresOk, ProcessOk;
    ProcessMoves(c, w, w', pid);
    RolesMove(w, w', pid);
  }

  /** The mover, a handle in the middle of an append, goes on to another phase or view. */
  lemma HandleMove(c: AuditCrypto, w: World, pid: Pid, p: Process)
    requires Inv(c, w) && MidAppend(w, pid) && p.Handle? && ProcessOk(c, w, p) && (Owns(p) ==> Owns(w.processes[pid]))
    ensures Inv(c, Set(w, pid, p))
  {
    hide StoresOk, ProcessOk, ProcessesOk, OneOwner, Exclusive;
    SameStoresKeepProcess(c, w, Set(w, pid, p), p);
    LocalMove(c, w, Set(w, pid, p), pid);
  }

  /** The same with new stores, which the mover and every other process must fit. */
  lemma HandleStoreMove(c: AuditCrypto, w: World, stored: World, pid: Pid, p: Process)
    requires Inv(c, w) && stored.processes == w.processes && StoresOk(c, stored)
    requires MidAppend(w, pid) && p.Handle? && ProcessOk(c, stored, p)
    requires forall q <- w.processes :: q != pid ==> ProcessOk(c, stored, w.processes[q])
    requires Owns(p) ==> forall q <- w.processes :: q != pid ==> !Owns(w.processes[q])
    ensures Inv(c, Set(stored, pid, p))
  {
    hide StoresOk, ProcessOk, ProcessesOk, OneOwner, Exclusive;
    var w' := Set(stored, pid, p);
    SameStoresKeepStores(c, stored, w');
    SameStoresKeepProcess(c, stored, w', p);
    forall q | q in w.processes && q != pid ensures ProcessOk(c, w', w.processes[q]) {
      SameStoresKeepProcess(c, stored, w', w.processes[q]);
    }
    StoreMove(c, w, w', pid);
  }

  lemma InvParts(c: AuditCrypto, w: World, pid: Pid)
    requires Inv(c, w) && pid in w.processes
    ensures StoresOk(c, w) && ProcessesOk(c, w) && OneOwner(w) && Exclusive(w)
    ensures ProcessOk(c, w, w.processes[pid]) && RingOk(w.ring)
  {
  }

  // ---------- key rotation ----------

  lemma GrowthKeepsKeyBound(r: Keyring, r': Keyring, keyId: Text, version: int)
    requires RingOk(r) && RingOk(r') && RingGrows(r, r') && KeyBound(r, keyId, version)
    ensures KeyBound(r', keyId, version)
  {
    assert KeyRecordOk(r', keyId, r'.keys[keyId]);
    hide KeyOk, MetadataOk;
  }

  lemma GrowthKeepsRemoteVerified(c: AuditCrypto, r: Keyring, r': Keyring, events: seq<Event>)
    requires RingOk(r) && RingOk(r') && RingGrows(r, r') && RemoteVerified(c, r, events)
    ensures RemoteVerified(c, r', events)
  {
    GrowthKeepsVerified(c, r, r', events);
    hide RingOk, RingGrows, Verified, RemoteShapeOk;
  }

  lemma GrowthKeepsNextRecord(c: AuditCrypto, r: Keyring, r': Keyring, base: seq<Event>, e: Event, p: Pending)
    requires RingOk(r) && RingOk(r') && RingGrows(r, r') && NextRecord(c, r, base, e, p)
    ensures NextRecord(c, r', base, e, p)
  {
    GrowthKeepsKeyBound(r, r', p.anchor.activeKeyId, p.anchor.activeKeyVersion);
    GrowthKeepsLink(c, r, r', Tip(base), e);
    hide RingOk, RingGrows, LinkOk, RemoteShapeOk, KeyBound;
  }

  lemma GrowthKeepsProcess(c: AuditCrypto, w: World, ring: Keyring, p: Process)
    requires RingOk(w.ring) && RingOk(ring) && RingGrows(w.ring, ring) && ProcessOk(c, w, p)
    ensures ProcessOk(c, w.(ring := ring), p)
  {
    hide RingOk, RingGrows, KeyBound, NextRecord, RemoteVerified, KeyRollback, EntryOk;
    match p
    case PublishingFirst(_, keyId, version) => GrowthKeepsKeyBound(w.ring, ring, keyId, version);
    case Checking(_, _, keyId, version) => GrowthKeepsKeyBound(w.ring, ring, keyId, version);
    case Handle(view, ph) =>
      GrowthKeepsRemoteVerified(c, w.ring, ring, view.state.snapshot);
      GrowthKeepsPhase(c, w, ring, view, ph);
    case _ =>
  }

  lemma GrowthKeepsPhase(c: AuditCrypto, w: World, ring: Keyring, view: View, ph: Phase)
    requires RingOk(w.ring) && RingOk(ring) && RingGrows(w.ring, ring) && PhaseOk(c, w, view, ph)
    ensures PhaseOk(c, w.(ring := ring), view, ph)
  {
    hide RingOk, RingGrows, KeyBound, NextRecord, RemoteVerified, KeyRollback, EntryOk;
    match ph
    case Signing(_, keyId, version) => GrowthKeepsKeyBound(w.ring, ring, keyId, version);
    case Preparing(e, p) => GrowthKeepsNextRecord(c, w.ring, ring, view.state.snapshot, e, p);
    case Publishing(e, p) => GrowthKeepsNextRecord(c, w.ring, ring, w.history, e, p);
    case Aborting(e, p) => GrowthKeepsNextRecord(c, w.ring, ring, w.history, e, p);
    case _ =>
  }

  lemma GrowthKeepsStores(c: AuditCrypto, w: World, ring: Keyring)
    requires StoresOk(c, w) && RingOk(ring) && RingGrows(w.ring, ring) && ring.latest <= MAX_SAFE_INTEGER
    ensures StoresOk(c, w.(ring := ring))
  {
    var w' := w.(ring := ring);
    GrowthKeepsRemoteVerified(c, w.ring, ring, w.history);
    if w.published.Some? {
      var a := w.published.value.anchor;
      GrowthKeepsKeyBound(w.ring, ring, a.activeKeyId, a.activeKeyVersion);
    }
    hide RingOk, RingGrows, KeyBound, NextRecord, RemoteVerified;
    if Settled(c, w) && w.journal.pending.Some? {
      var e :| NextRecord(c, w.ring, w.history, e, w.journal.pending.value);
      GrowthKeepsNextRecord(c, w.ring, ring, w.history, e, w.journal.pending.value);
    }
  }

  lemma RotateKeepsInv(c: AuditCrypto, w: World, keyId: Text)
    requires Inv(c, w) && Next(c, w, Rotate(keyId)).ring.latest <= MAX_SAFE_INTEGER
    ensures Inv(c, Next(c, w, Rotate(keyId)))
  {
    hide HasActive, ProcessOk, StoresOk;
    var w' := Next(c, w, Rotate(keyId));
    StoresRing(c, w);
    ActivateKeepsRing(w.ring, keyId);
    hide RingOk, RingGrows, RingActivate;
    GrowthKeepsStores(c, w, w'.ring);
    forall q | q in w.processes ensures ProcessOk(c, w', w'.processes[q]) {
      GrowthKeepsProcess(c, w, w'.ring, w.processes[q]);
    }
  }

  lemma StoresRing(c: AuditCrypto, w: World)
    requires StoresOk(c, w)
    ensures RingOk(w.ring) && HasActive(w.ring) && w.ring.latest <= MAX_SAFE_INTEGER
  {
  }

  lemma ActiveIsBound(ring: Keyring)
    requires RingOk(ring) && ring.latest <= MAX_SAFE_INTEGER
    ensures KeyBound(ring, ring.activeKeyId, ring.latest)
  {
    RingActiveOk(ring);
    assert KeyRecordOk(ring, ring.activeKeyId, ring.keys[ring.activeKeyId]);
  }

  lemma BoundAtMostLatest(ring: Keyring, keyId: Text, version: int)
    requires RingOk(ring) && KeyBound(ring, keyId, version)
    ensures version <= ring.latest
  {
    assert KeyRecordOk(ring, keyId, ring.keys[keyId]);
  }

  /** Two keys never share a version. */
  lemma BoundOnce(ring: Keyring, a: Text, b: Text, version: int)
    requires RingOk(ring) && KeyBound(ring, a, version) && KeyBound(ring, b, version)
    ensures a == b
  {
  }

  // ---------- the moves of an append ----------

  lemma ProcessAt(c: AuditCrypto, w: World, pid: Pid)
    requires ProcessesOk(c, w) && pid in w.processes
    ensures ProcessOk(c, w, w.processes[pid])
  {
  }

  lemma StartAppendKeepsInv(c: AuditCrypto, w: World, pid: Pid, entry: Entry)
    requires Inv(c, w) && Allowed(w, StartAppend(pid, entry))
    ensures Inv(c, Next(c, w, StartAppend(pid, entry)))
  {
    hide StoresOk, ProcessOk, ProcessesOk, RingOk, BeginAppend, OneOwner, Exclusive;
    var w' := Next(c, w, StartAppend(pid, entry));
    if w' != w {
      var view := w.processes[pid].view;
      InvParts(c, w, pid);
      StartedProcess(c, w, view, entry);
      SameStoresKeepProcess(c, w, w', Handle(view, BeginAppend(c, w, view, entry)));
      LocalMove(c, w, w', pid);
    }
  }

  lemma StartedProcess(c: AuditCrypto, w: World, view: View, entry: Entry)
    requires StoresOk(c, w) && ProcessOk(c, w, Handle(view, Idle))
    ensures var ph := BeginAppend(c, w, view, entry); (ph.Idle? || ph.Signing?) && ProcessOk(c, w, Handle(view, ph))
  {
    hide StoresOk, RingOk, HasActive, KeyBound, ViewOk, KeyRollback, EntryOk, MetadataOk;
    StoresRing(c, w);
    ActiveIsBound(w.ring);
  }

  /** What signing computes is one verified event ahead of the view it was computed from. */
  lemma SignedIsNextRecord(c: AuditCrypto, ring: Keyring, base: seq<Event>, entry: Entry, keyId: Text, version: int, commitId: Text)
    requires Shaped(c) && RingOk(ring) && RemoteVerified(c, ring, base)
    requires EntryOk(c, entry) && entry.eventId != "" && KeyBound(ring, keyId, version) && !KeyRollback(base, keyId, version)
    ensures keyId in ring.keys
    ensures var e := Signed(c, ring, base, entry, keyId, version);
            && TagOk(e.authentication.value.tag)
            && NextRecord(c, ring, base, e, Pending(commitId, base + [e], AnchorFor(base + [e], keyId, version)))
  {
    TipVersionBounded(c, ring, base);
    TipAuthenticated(c, ring, base);
    var e := Signed(c, ring, base, entry, keyId, version);
    assert HexHash(e.hash);
    hide Verified, KeyIdOk, TagOk, HexHash, RingOk;
    assert TagOk(c.mac(ring.keys[keyId].secret, InputOf(e, e.authentication.value)));
  }

  lemma TipAuthenticated(c: AuditCrypto, ring: Keyring, events: seq<Event>)
    requires Verified(c, Some(ring), events)
    ensures Tip(events).Some? ==> Tip(events).value.authentication.Some? && VersionOf(Tip(events)) > 0
  {
    if events != [] {
      VerifiedTip(c, Some(ring), events);
      hide Verified, TagOk, KeyIdOk;
    }
  }

  lemma SigningKeepsInv(c: AuditCrypto, w: World, pid: Pid, view: View, ph: Phase, fault: Fault, commitId: Text)
    requires Shaped(c) && Inv(c, w) && pid in w.processes && w.processes[pid] == Handle(view, ph) && ph.Signing?
    ensures Inv(c, SigningMove(c, w, pid, view, ph, fault, commitId))
  {
    hide Shaped, Inv, StoresOk, ProcessesOk, OneOwner, Exclusive, RingOk, ProcessOk, FinishSigning, Set;
    InvParts(c, w, pid);
    SigningProcess(c, w, view, ph, commitId);
    HandleMove(c, w, pid, Handle(view, if fault == NoFault then FinishSigning(c, w, view, ph, commitId) else Idle));
  }

  lemma SigningProcess(c: AuditCrypto, w: World, view: View, ph: Phase, commitId: Text)
    requires Shaped(c) && RingOk(w.ring) && ProcessOk(c, w, Handle(view, ph)) && ph.Signing?
    ensures ProcessOk(c, w, Handle(view, FinishSigning(c, w, view, ph, commitId))) && ProcessOk(c, w, Handle(view, Idle))
    ensures FinishSigning(c, w, view, ph, commitId).Idle? || FinishSigning(c, w, view, ph, commitId).Preparing?
  {
    SignedIsNextRecord(c, w.ring, view.state.snapshot, ph.entry, ph.keyId, ph.version, commitId);
    hide Shaped, RemoteVerified, KeyBound, RingOk, KeyRollback, EntryOk, NextRecord, TagOk, Signed;
  }

  /** A journal record appears: the other processes are idle, or appending without owning the journal. */
  lemma PreparedKeepsProcess(c: AuditCrypto, w: World, p: Pending, q: Process)
    requires ProcessOk(c, w, q) && w.journal.pending.None? && q.Handle? && !Owns(q)
    ensures ProcessOk(c, w.(journal := w.journal.(pending := Some(p))), q)
  {
    hide RemoteVerified, NextRecord, KeyBound, KeyRollback, EntryOk;
  }

  /** With no pending record nobody owns the journal. */
  lemma NobodyOwns(c: AuditCrypto, w: World)
    requires ProcessesOk(c, w) && w.journal.pending.None?
    ensures forall q <- w.processes :: !Owns(w.processes[q])
  {
    hide RemoteVerified, NextRecord, KeyBound, KeyRollback, EntryOk;
    forall q | q in w.processes ensures !Owns(w.processes[q]) { ProcessAt(c, w, q); }
  }

  lemma OpenersAway(w: World, pid: Pid)
    requires Exclusive(w) && MidAppend(w, pid)
    ensures forall q <- w.processes :: !MidOpen(w, q) && w.processes[q].Handle?
  {
  }

  lemma PreparedMover(c: AuditCrypto, w: World, view: View, e: Event, p: Pending)
    requires StoresOk(c, w) && ProcessOk(c, w, Handle(view, Preparing(e, p))) && Prepare(w.journal, view.state.revision, p).Some?
    ensures var w' := w.(journal := w.journal.(pending := Some(p)));
            && StoresOk(c, w') && ProcessOk(c, w', Handle(view, Publishing(e, p))) && ProcessOk(c, w', Handle(view, Idle))
  {
    hide RemoteVerified, KeyBound, RingOk, AnchorBound, NextRecord;
    assert NextRecord(c, w.ring, w.history, e, p);
  }

  lemma PreparingKeepsInv(c: AuditCrypto, w: World, pid: Pid, view: View, event: Event, p: Pending, fault: Fault)
    requires Inv(c, w) && pid in w.processes && w.processes[pid] == Handle(view, Preparing(event, p))
    ensures Inv(c, PreparingMove(w, pid, view, event, p, fault))
  {
    hide Inv, ProcessesOk, OneOwner, Exclusive, StoresOk, ProcessOk, RingOk, Set, MidOpen, Ahead, RemoteVerified;
    InvParts(c, w, pid);
    if fault == BeforeEffect || Prepare(w.journal, view.state.revision, p).None? {
      IdleAgain(c, w, view, Preparing(event, p));
      HandleMove(c, w, pid, Handle(view, Idle));
    } else {
      NobodyOwns(c, w);
      OpenersAway(w, pid);
      PreparedMover(c, w, view, event, p);
      var stored := w.(journal := w.journal.(pending := Some(p)));
      forall q | q in w.processes && q != pid ensures ProcessOk(c, stored, w.processes[q]) {
        ProcessAt(c, w, q);
        PreparedKeepsProcess(c, w, p, w.processes[q]);
      }
      HandleStoreMove(c, w, stored, pid, Handle(view, if fault == NoFault then Publishing(event, p) else Idle));
    }
  }

  /** A handle whose append ends in an error is as good as before. */
  lemma IdleAgain(c: AuditCrypto, w: World, view: View, ph: Phase)
    requires ProcessOk(c, w, Handle(view, ph))
    ensures ProcessOk(c, w, Handle(view, Idle))
    ensures ph.Publishing? ==> ProcessOk(c, w, Handle(view, Aborting(ph.event, ph.pending)))
  {
    hide RemoteVerified, NextRecord, KeyBound;
  }

  /** Publishing extends the history by the handle's own event. */
  lemma PublishedStores(c: AuditCrypto, w: World, view: View, e: Event, p: Pending, w': World)
    requires StoresOk(c, w) && Unpublished(c, w, view, e, p)
    requires w'.published == Publish(w.published, Some(view.published.revision), p.anchor) && w'.published.Some?
    requires w'.history == w.history + [e] && w'.journal == w.journal && w'.ring == w.ring
    ensures StoresOk(c, w') && Ahead(w')
  {
    hide Verified, LinkOk, RingOk, RemoteShapeOk, KeyBound;
    VerifiedSnoc(c, Some(w.ring), w.history, e);
  }

  lemma PublishedKeepsProcess(c: AuditCrypto, w: World, w': World, q: Process)
    requires ProcessOk(c, w, q) && q.Handle? && !Owns(q)
    requires w.published.Some? && w'.published.Some? && w'.published.value.revision > w.published.value.revision
    requires w'.journal == w.journal && w'.ring == w.ring && w.history <= w'.history
    ensures ProcessOk(c, w', q)
  {
    hide RemoteVerified, NextRecord, KeyBound, KeyRollback, EntryOk;
  }

  lemma PublishedMover(c: AuditCrypto, w: World, w': World, view: View, e: Event, p: Pending)
    requires ProcessOk(c, w, Handle(view, Publishing(e, p)))
    requires w'.published == Publish(w.published, Some(view.published.revision), p.anchor) && w'.published.Some?
    requires w'.history == w.history + [e] && w'.journal == w.journal && w'.ring == w.ring
    ensures ProcessOk(c, w', Handle(view, Committing(e, p, w'.published.value)))
  {
    NextRecordSnapshot(c, w, view, e, p);
    hide RemoteVerified, NextRecord, KeyBound;
  }

  lemma PublishingKeepsInv(c: AuditCrypto, w: World, pid: Pid, view: View, event: Event, p: Pending, fault: Fault)
    requires Inv(c, w) && pid in w.processes && w.processes[pid] == Handle(view, Publishing(event, p)) && fault != AfterEffect
    ensures Inv(c, PublishingMove(w, pid, view, event, p, fault))
  {
    hide Inv, ProcessesOk, OneOwner, Exclusive, StoresOk, ProcessOk, RingOk, Set, MidOpen, Ahead, RemoteVerified;
    InvParts(c, w, pid);
    OwnRecord(c, w, view, Publishing(event, p));
    var published := Publish(w.published, Some(view.published.revision), p.anchor);
    if fault == BeforeEffect || published.None? {
      IdleAgain(c, w, view, Publishing(event, p));
      HandleMove(c, w, pid, Handle(view, Aborting(event, p)));
    } else {
      OwnerAlone(w, pid);
      OpenersAway(w, pid);
      var stored := w.(published := published, history := w.history + [event]);
      PublishedStores(c, w, view, event, p, stored);
      PublishedMover(c, w, stored, view, event, p);
      forall q | q in w.processes && q != pid ensures ProcessOk(c, stored, w.processes[q]) {
        ProcessAt(c, w, q);
        PublishedKeepsProcess(c, w, stored, w.processes[q]);
      }
      HandleStoreMove(c, w, stored, pid, Handle(view, Committing(event, p, published.value)));
    }
  }

  lemma NextRecordSnapshot(c: AuditCrypto, w: World, view: View, e: Event, p: Pending)
    requires Unpublished(c, w, view, e, p)
    ensures p.snapshot == w.history + [e]
  {
  }

  lemma OwnerAlone(w: World, pid: Pid)
    requires OneOwner(w) && pid in w.processes && Owns(w.processes[pid])
    ensures forall q <- w.processes :: q != pid ==> !Owns(w.processes[q])
  {
  }

  /** The pending record goes away unpublished. */
  lemma AbortedStores(c: AuditCrypto, w: World, w': World)
    requires StoresOk(c, w) && w.journal.snapshot == w.history && w'.journal == w.journal.(pending := None)
    requires w'.published == w.published && w'.ring == w.ring && w'.history == w.history
    ensures StoresOk(c, w')
  {
    hide RemoteVerified, RingOk, AnchorBound, NextRecord;
  }

  lemma AbortedKeepsProcess(c: AuditCrypto, w: World, w': World, q: Process)
    requires ProcessOk(c, w, q) && !Owns(q) && w'.journal == w.journal.(pending := None)
    requires w'.published == w.published && w'.ring == w.ring && w'.history == w.history
    ensures ProcessOk(c, w', q)
  {
    hide RemoteVerified, NextRecord, KeyBound, KeyRollback, EntryOk;
  }

  lemma AbortingKeepsInv(c: AuditCrypto, w: World, pid: Pid, view: View, event: Event, p: Pending, fault: Fault)
    requires Inv(c, w) && pid in w.processes && w.processes[pid] == Handle(view, Aborting(event, p))
    ensures Inv(c, AbortingMove(w, pid, view, p, fault))
  {
    hide Inv, ProcessesOk, OneOwner, Exclusive, StoresOk, ProcessOk, RingOk, Set, MidOpen, Ahead, RemoteVerified;
    InvParts(c, w, pid);
    IdleAgain(c, w, view, Aborting(event, p));
    OwnRecord(c, w, view, Aborting(event, p));
    if fault == BeforeEffect {
      HandleMove(c, w, pid, Handle(view, Idle));
    } else {
      OwnerAlone(w, pid);
      var stored := w.(journal := w.journal.(pending := None));
      AbortedStores(c, w, stored);
      AbortedKeepsProcess(c, w, stored, Handle(view, Idle));
      forall q | q in w.processes && q != pid ensures ProcessOk(c, stored, w.processes[q]) {
        ProcessAt(c, w, q);
        AbortedKeepsProcess(c, w, stored, w.processes[q]);
      }
      HandleStoreMove(c, w, stored, pid, Handle(view, Idle));
    }
  }

  /** The record an owner carries is the one in the journal. */
  lemma OwnRecord(c: AuditCrypto, w: World, view: View, ph: Phase)
    requires ProcessOk(c, w, Handle(view, ph))
    ensures ph.Publishing? || ph.Aborting? ==> Unpublished(c, w, view, ph.event, ph.pending)
    ensures ph.Publishing? || ph.Aborting? ==> w.journal.pending == Some(ph.pending) && w.journal.snapshot == w.history
    ensures ph.Committing? ==>
              w.journal.pending == Some(ph.pending) && ph.pending.snapshot == w.history && w.published.Some?
              && ProcessOk(c, w, Handle(view, Loading(ph.event, ph.published)))
  {
    hide RemoteVerified, NextRecord, KeyBound;
  }

  /** The published record becomes the committed snapshot. */
  lemma CommittedStores(c: AuditCrypto, w: World, w': World)
    requires StoresOk(c, w) && w.journal.pending.Some? && w.journal.pending.value.snapshot == w.history && w.published.Some?
    requires w'.journal == Journal(w.journal.revision + 1, w.history, None)
    requires w'.published == w.published && w'.ring == w.ring && w'.history == w.history
    ensures StoresOk(c, w')
  {
    hide RemoteVerified, RingOk, AnchorBound, NextRecord;
  }

  lemma CommittedKeepsProcess(c: AuditCrypto, w: World, w': World, q: Process)
    requires ProcessOk(c, w, q) && !Owns(q) && w.journal.pending.Some?
    requires w'.journal.revision == w.journal.revision + 1 && w'.journal.pending.None?
    requires w'.published == w.published && w'.ring == w.ring && w'.history == w.history
    ensures ProcessOk(c, w', q)
  {
    hide RemoteVerified, NextRecord, KeyBound, KeyRollback, EntryOk;
  }

  lemma CommittingKeepsInv(
    c: AuditCrypto, w: World, pid: Pid, view: View, event: Event, p: Pending, published: Published, fault: Fault)
    requires Inv(c, w) && pid in w.processes && w.processes[pid] == Handle(view, Committing(event, p, published))
    ensures Inv(c, CommittingMove(w, pid, view, event, p, published, fault))
  {
    hide Inv, ProcessesOk, OneOwner, Exclusive, StoresOk, ProcessOk, RingOk, Set, MidOpen, Ahead, RemoteVerified;
    InvParts(c, w, pid);
    IdleAgain(c, w, view, Committing(event, p, published));
    OwnRecord(c, w, view, Committing(event, p, published));
    if fault == BeforeEffect {
      HandleMove(c, w, pid, Handle(view, Idle));
    } else {
      OwnerAlone(w, pid);
      OpenersAway(w, pid);
      var stored := w.(journal := Journal(w.journal.revision + 1, w.history, None));
      CommittedStores(c, w, stored);
      CommittedKeepsProcess(c, w, stored, Handle(view, Loading(event, published)));
      CommittedKeepsProcess(c, w, stored, Handle(view, Idle));
      forall q | q in w.processes && q != pid ensures ProcessOk(c, stored, w.processes[q]) {
        ProcessAt(c, w, q);
        CommittedKeepsProcess(c, w, stored, w.processes[q]);
      }
      if fault == NoFault {
        HandleStoreMove(c, w, stored, pid, Handle(view, Loading(event, published)));
      } else {
        HandleStoreMove(c, w, stored, pid, Handle(view, Idle));
      }
    }
  }

  /** The committed snapshot is the published history or the part of it before the last event. */
  lemma SnapshotVerified(c: AuditCrypto, w: World)
    requires StoresOk(c, w)
    ensures RemoteVerified(c, w.ring, w.journal.snapshot)
  {
    if !Settled(c, w) {
      VerifiedPrefix(c, Some(w.ring), w.history, |w.history| - 1);
    }
    hide Verified, RingOk, AnchorBound, NextRecord, RemoteShapeOk;
  }

  lemma LoadingKeepsInv(c: AuditCrypto, w: World, pid: Pid, view: View, event: Event, published: Published, fault: Fault)
    requires Inv(c, w) && pid in w.processes && w.processes[pid] == Handle(view, Loading(event, published))
    ensures Inv(c, LoadingMove(w, pid, view, published, fault))
  {
    hide Inv, ProcessesOk, StoresOk, OneOwner, Exclusive, ProcessOk, RingOk, Set;
    InvParts(c, w, pid);
    LoadedMover(c, w, view, event, published);
    HandleMove(c, w, pid, Handle(if fault == NoFault then View(w.journal, published) else view, Idle));
  }

  lemma LoadedMover(c: AuditCrypto, w: World, view: View, event: Event, published: Published)
    requires StoresOk(c, w) && ProcessOk(c, w, Handle(view, Loading(event, published)))
    ensures ProcessOk(c, w, Handle(View(w.journal, published), Idle)) && ProcessOk(c, w, Handle(view, Idle))
  {
    hide RemoteVerified, StoresOk, NextRecord, KeyBound, KeyRollback, EntryOk;
    SnapshotVerified(c, w);
  }

  lemma AppendKeepsInv(c: AuditCrypto, w: World, pid: Pid, fault: Fault, commitId: Text)
    requires Shaped(c) && Inv(c, w) && pid in w.processes && w.processes[pid].Handle?
    requires Allowed(w, Advance(pid, fault, commitId))
    ensures Inv(c, Next(c, w, Advance(pid, fault, commitId)))
  {
    hide Inv, SigningMove, PreparingMove, PublishingMove, AbortingMove, CommittingMove, LoadingMove;
    var view, ph := w.processes[pid].view, w.processes[pid].phase;
    match ph
    case Idle =>
    case Signing(_, _, _) => SigningKeepsInv(c, w, pid, view, ph, fault, commitId);
    case Preparing(e, p) => PreparingKeepsInv(c, w, pid, view, e, p, fault);
    case Publishing(e, p) => PublishingKeepsInv(c, w, pid, view, e, p, fault);
    case Aborting(e, p) => AbortingKeepsInv(c, w, pid, view, e, p, fault);
    case Committing(e, p, published) => CommittingKeepsInv(c, w, pid, view, e, p, published, fault);
    case Loading(e, published) => LoadingKeepsInv(c, w, pid, view, e, published, fault);
  }

  // ---------- the moves of an open ----------

  lemma StartOpenKeepsInv(c: AuditCrypto, w: World, pid: Pid)
    requires Inv(c, w) && Allowed(w, StartOpen(pid))
    ensures Inv(c, Next(c, w, StartOpen(pid)))
  {
    var w' := Next(c, w, StartOpen(pid));
    if w' != w {
      assert ProcessOk(c, w, LoadingPublished(w.journal)) by { hide AnchorBound, RemoteVerified, RingOk, NextRecord; }
      hide ProcessesOk, StoresOk, OneOwner, Exclusive, ProcessOk;
      SameStoresKeepProcess(c, w, w', LoadingPublished(w.journal));
      LocalMove(c, w, w', pid);
    }
  }

  lemma CrashKeepsInv(c: AuditCrypto, w: World, pid: Pid)
    requires Inv(c, w)
    ensures Inv(c, Drop(w, pid))
  {
    hide ProcessesOk, StoresOk, OneOwner, Exclusive, ProcessOk;
    LocalMove(c, w, Drop(w, pid), pid);
  }

  lemma MidOpenNobodyOwns(w: World, pid: Pid)
    requires Exclusive(w) && MidOpen(w, pid)
    ensures forall q <- w.processes :: !MidAppend(w, q) && !Owns(w.processes[q])
  {
    forall q | q in w.processes ensures !MidAppend(w, q) && !Owns(w.processes[q]) {
      assert !(MidAppend(w, q) && MidOpen(w, pid));
    }
  }

  /** Resolving decides rightly: it commits exactly a record that was published, and aborts exactly
      one that was not. */
  lemma ResolveStores(c: AuditCrypto, w: World, w': World, state: Journal)
    requires StoresOk(c, w) && Loaded(w, state) && state.pending.Some?
    requires Resolve(w.journal, state.pending.value, w.published) == Some(w'.journal)
    requires w'.published == w.published && w'.ring == w.ring && w'.history == w.history
    ensures StoresOk(c, w') && w'.journal.pending.None?
    ensures w'.journal == w.journal || (w.journal.pending.Some? &&
              if Ahead(w) then w'.journal == Journal(w.journal.revision + 1, w.history, None)
              else w'.journal == w.journal.(pending := None) && w.journal.snapshot == w.history)
  {
    hide RemoteVerified, RingOk, AnchorBound, NextRecord, StoresOk;
    if w.journal.pending.None? {
      SameStoresKeepStores(c, w, w');
    } else {
      PendingTellsApart(c, w);
      if Ahead(w) {
        CommittedStores(c, w, w');
      } else {
        AbortedStores(c, w, w');
      }
    }
  }

  lemma PendingTellsApart(c: AuditCrypto, w: World)
    requires StoresOk(c, w) && w.journal.pending.Some?
    ensures w.published.Some?
    ensures w.published.value.anchor == w.journal.pending.value.anchor <==> Ahead(w)
    ensures !Ahead(w) ==> w.journal.snapshot == w.history
  {
    hide RemoteVerified, RingOk, KeyBound, LinkOk, RemoteShapeOk;
  }

  /** The mover is an open: its entry goes on to another phase, and others fit the stores. */
  lemma OpenMove(c: AuditCrypto, w: World, stored: World, pid: Pid, p: Process)
    requires Inv(c, w) && stored.processes == w.processes && StoresOk(c, stored)
    requires MidOpen(w, pid) && ProcessOk(c, stored, p) && (p.Handle? ==> p.phase == Idle)
    requires forall q <- w.processes :: q != pid ==> ProcessOk(c, stored, w.processes[q])
    ensures Inv(c, Set(stored, pid, p)) && Inv(c, Drop(stored, pid))
  {
    hide StoresOk, ProcessOk, ProcessesOk, OneOwner, Exclusive;
    var w', dropped := Set(stored, pid, p), Drop(stored, pid);
    SameStoresKeepStores(c, stored, w');
    SameStoresKeepStores(c, stored, dropped);
    SameStoresKeepProcess(c, stored, w', p);
    forall q | q in w.processes && q != pid ensures ProcessOk(c, w', w.processes[q]) && ProcessOk(c, dropped, w.processes[q]) {
      SameStoresKeepProcess(c, stored, w', w.processes[q]);
      SameStoresKeepProcess(c, stored, dropped, w.processes[q]);
    }
    StoreMove(c, w, w', pid);
    StoreMove(c, w, dropped, pid);
  }

  /** The same when the stores stay. */
  lemma OpenLocalMove(c: AuditCrypto, w: World, pid: Pid, p: Process)
    requires Inv(c, w) && MidOpen(w, pid) && ProcessOk(c, w, p) && (p.Handle? ==> p.phase == Idle)
    ensures Inv(c, Set(w, pid, p)) && Inv(c, Drop(w, pid))
  {
    hide StoresOk, ProcessOk, OneOwner, Exclusive;
    OpenMove(c, w, w, pid, p);
  }

  lemma ResolvedKeepsProcess(c: AuditCrypto, w: World, w': World, state: Journal, q: Process)
    requires StoresOk(c, w) && ProcessOk(c, w, q) && !Owns(q) && Loaded(w, state) && state.pending.Some?
    requires Resolve(w.journal, state.pending.value, w.published) == Some(w'.journal)
    requires w'.published == w.published && w'.ring == w.ring && w'.history == w.history
    ensures ProcessOk(c, w', q)
  {
    hide StoresOk, ProcessOk, Loaded, Ahead;
    ResolveStores(c, w, w', state);
    if w'.journal == w.journal {
      SameStoresKeepProcess(c, w, w', q);
    } else if Ahead(w) {
      CommittedKeepsProcess(c, w, w', q);
    } else {
      AbortedKeepsProcess(c, w, w', q);
    }
  }

  lemma ResolvingKeepsInv(c: AuditCrypto, w: World, pid: Pid, state: Journal, known: Option<Published>, fault: Fault)
    requires Inv(c, w) && pid in w.processes && w.processes[pid] == Resolving(state, known)
    ensures Inv(c, AdvanceOpen(c, w, pid, Resolving(state, known), fault))
  {
    hide Inv, ProcessesOk, StoresOk, OneOwner, Exclusive, ProcessOk, RingOk, Set, Drop, Resolve, Loaded;
    InvParts(c, w, pid);
    ResolvingKnows(c, w, state, known);
    CrashKeepsInv(c, w, pid);
    var resolved := Resolve(w.journal, state.pending.value, known);
    if resolved.Some? {
      var stored := w.(journal := resolved.value);
      ResolveStores(c, w, stored, state);
      MidOpenNobodyOwns(w, pid);
      forall q | q in w.processes && q != pid ensures ProcessOk(c, stored, w.processes[q]) {
        ProcessAt(c, w, q);
        ResolvedKeepsProcess(c, w, stored, state, w.processes[q]);
      }
      ReloadingOk(c, stored);
      OpenMove(c, w, stored, pid, ReloadingState);
    }
  }

  lemma ReloadingOk(c: AuditCrypto, w: World)
    requires w.journal.pending.None?
    ensures ProcessOk(c, w, ReloadingState)
  {
  }

  lemma ResolvingKnows(c: AuditCrypto, w: World, state: Journal, known: Option<Published>)
    requires ProcessOk(c, w, Resolving(state, known))
    ensures Loaded(w, state) && state.pending.Some? && known == w.published
  {
  }

  /** Reading steps of an open: what is read is current. */
  lemma ReadingKeepsInv(c: AuditCrypto, w: World, pid: Pid, p: Process, fault: Fault)
    requires Inv(c, w) && pid in w.processes && w.processes[pid] == p
    requires p.LoadingPublished? || p.ReloadingState? || p.ReloadingPublished? || p.ReadingKey?
    ensures Inv(c, AdvanceOpen(c, w, pid, p, fault))
  {
    hide Inv, ProcessesOk, StoresOk, OneOwner, Exclusive, ProcessOk, RingOk, Set, Drop;
    InvParts(c, w, pid);
    CrashKeepsInv(c, w, pid);
    ReadProcess(c, w, p);
    match p
    case LoadingPublished(state) =>
      OpenLocalMove(c, w, pid, if state.pending.Some? then Resolving(state, w.published) else ReadingKey(state, w.published));
    case ReloadingState => OpenLocalMove(c, w, pid, ReloadingPublished(w.journal));
    case ReloadingPublished(state) => OpenLocalMove(c, w, pid, ReadingKey(state, w.published));
    case ReadingKey(state, known) =>
      if known.Some? || state.snapshot == [] {
        OpenLocalMove(c, w, pid, if known.None? then PublishingFirst(state, w.ring.activeKeyId, w.ring.latest)
                                 else Checking(state, known.value, w.ring.activeKeyId, w.ring.latest));
      }
  }

  lemma ReadProcess(c: AuditCrypto, w: World, p: Process)
    requires StoresOk(c, w) && ProcessOk(c, w, p)
    ensures p.LoadingPublished? ==>
              ProcessOk(c, w, if p.state.pending.Some? then Resolving(p.state, w.published) else ReadingKey(p.state, w.published))
    ensures p.ReloadingState? ==> ProcessOk(c, w, ReloadingPublished(w.journal))
    ensures p.ReloadingPublished? ==> ProcessOk(c, w, ReadingKey(p.state, w.published))
    ensures p.ReadingKey? && p.known.None? && p.state.snapshot == [] ==>
              ProcessOk(c, w, PublishingFirst(p.state, w.ring.activeKeyId, w.ring.latest))
    ensures p.ReadingKey? && p.known.Some? ==>
              ProcessOk(c, w, Checking(p.state, p.known.value, w.ring.activeKeyId, w.ring.latest))
  {
    hide StoresOk, RingOk, HasActive, KeyBound, ViewOk, PhaseOk;
    StoresRing(c, w);
    ActiveIsBound(w.ring);
    if p.ReadingKey? && p.known.Some? {
      PublishedBound(c, w);
      BoundAtMostLatest(w.ring, p.known.value.anchor.activeKeyId, p.known.value.anchor.activeKeyVersion);
    }
  }

  lemma PublishedBound(c: AuditCrypto, w: World)
    requires StoresOk(c, w) && w.published.Some?
    ensures AnchorBound(w.ring, w.history, w.published.value.anchor)
    ensures KeyBound(w.ring, w.published.value.anchor.activeKeyId, w.published.value.anchor.activeKeyVersion)
  {
  }

  lemma FirstPublished(c: AuditCrypto, w: World, state: Journal, keyId: Text, version: int)
    requires StoresOk(c, w) && ProcessOk(c, w, PublishingFirst(state, keyId, version)) && w.published.None?
    ensures var first := Published(AnchorFor(state.snapshot, keyId, version), 1);
            var stored := w.(published := Some(first));
            StoresOk(c, stored) && ProcessOk(c, stored, Checking(state, first, keyId, version))
  {
    hide RemoteVerified, RingOk, KeyBound, NextRecord;
  }

  lemma FirstPublishedKeepsProcess(c: AuditCrypto, w: World, first: Published, q: Process)
    requires StoresOk(c, w) && ProcessOk(c, w, q) && w.published.None? && (q.Handle? ==> q.phase == Idle)
    ensures ProcessOk(c, w.(published := Some(first)), q)
  {
    hide RemoteVerified, RingOk, KeyBound, NextRecord;
  }

  lemma FirstKeepsInv(c: AuditCrypto, w: World, pid: Pid, state: Journal, keyId: Text, version: int, fault: Fault)
    requires Inv(c, w) && pid in w.processes && w.processes[pid] == PublishingFirst(state, keyId, version)
    ensures Inv(c, AdvanceOpen(c, w, pid, PublishingFirst(state, keyId, version), fault))
  {
    hide Inv, ProcessesOk, StoresOk, OneOwner, Exclusive, ProcessOk, RingOk, Set, Drop, AnchorFor;
    InvParts(c, w, pid);
    CrashKeepsInv(c, w, pid);
    if w.published.None? {
      var first := Published(AnchorFor(state.snapshot, keyId, version), 1);
      var stored := w.(published := Some(first));
      FirstPublished(c, w, state, keyId, version);
      MidOpenNobodyOwns(w, pid);
      forall q | q in w.processes && q != pid ensures ProcessOk(c, stored, w.processes[q]) {
        ProcessAt(c, w, q);
        FirstPublishedKeepsProcess(c, w, first, w.processes[q]);
      }
      OpenMove(c, w, stored, pid, Checking(state, first, keyId, version));
    }
  }

  /** The final check of an open always passes, and the handle it gives shows exactly the history. */
  lemma CheckingAccepts(c: AuditCrypto, w: World, state: Journal, published: Published, keyId: Text, version: int)
    requires StoresOk(c, w) && ProcessOk(c, w, Checking(state, published, keyId, version))
    ensures Accepted(c, w, state, published, keyId, version) && state.snapshot == w.history
    ensures ProcessOk(c, w, Handle(View(state, published), Idle))
  {
    hide RemoteVerified, RingOk, NextRecord, KeyFor, KeyIdOk, StoresOk, KeyBound;
    PublishedBound(c, w);
    SnapshotVerified(c, w);
    QuietStores(c, w);
    StoresRing(c, w);
    BoundMetadata(w.ring, published.anchor.activeKeyId, published.anchor.activeKeyVersion);
    if version == published.anchor.activeKeyVersion {
      BoundOnce(w.ring, keyId, published.anchor.activeKeyId, version);
    }
  }

  lemma BoundMetadata(ring: Keyring, keyId: Text, version: int)
    requires KeyBound(ring, keyId, version)
    ensures MetadataOk(keyId, version)
  {
  }

  lemma QuietStores(c: AuditCrypto, w: World)
    requires StoresOk(c, w) && w.journal.pending.None?
    ensures w.journal.snapshot == w.history
  {
  }

  lemma CheckingKeepsInv(c: AuditCrypto, w: World, pid: Pid, p: Process, fault: Fault)
    requires Inv(c, w) && pid in w.processes && w.processes[pid] == p && p.Checking?
    ensures Inv(c, AdvanceOpen(c, w, pid, p, fault))
  {
    hide Inv, ProcessesOk, StoresOk, OneOwner, Exclusive, ProcessOk, RingOk, Set, Drop, Accepted;
    InvParts(c, w, pid);
    CrashKeepsInv(c, w, pid);
    CheckingAccepts(c, w, p.state, p.published, p.keyId, p.version);
    OpenLocalMove(c, w, pid, Handle(View(p.state, p.published), Idle));
  }

  lemma OpenKeepsInv(c: AuditCrypto, w: World, pid: Pid, fault: Fault, commitId: Text)
    requires Inv(c, w) && MidOpen(w, pid)
    ensures Inv(c, Next(c, w, Advance(pid, fault, commitId)))
  {
    hide Inv, AdvanceOpen;
    var p := w.processes[pid];
    match p
    case Resolving(state, known) => ResolvingKeepsInv(c, w, pid, state, known, fault);
    case PublishingFirst(state, keyId, version) => FirstKeepsInv(c, w, pid, state, keyId, version, fault);
    case Checking(_, _, _, _) => CheckingKeepsInv(c, w, pid, p, fault);
    case LoadingPublished(_) => ReadingKeepsInv(c, w, pid, p, fault);
    case ReloadingState => ReadingKeepsInv(c, w, pid, p, fault);
    case ReloadingPublished(_) => ReadingKeepsInv(c, w, pid, p, fault);
    case ReadingKey(_, _) => ReadingKeepsInv(c, w, pid, p, fault);
  }

  /** Every allowed move keeps the relation. */
  lemma NextKeepsInv(c: AuditCrypto, w: World, move: Move)
    requires Shaped(c) && Inv(c, w) && Allowed(w, move) && Next(c, w, move).ring.latest <= MAX_SAFE_INTEGER
    ensures Inv(c, Next(c, w, move))
  {
    hide Inv, AdvanceOpen, AdvanceAppend;
    match move
    case Rotate(keyId) => RotateKeepsInv(c, w, keyId);
    case StartOpen(pid) => StartOpenKeepsInv(c, w, pid);
    case StartAppend(pid, entry) => StartAppendKeepsInv(c, w, pid, entry);
    case Crash(pid) => CrashKeepsInv(c, w, pid);
    case Advance(pid, fault, commitId) =>
      if pid in w.processes {
        if w.processes[pid].Handle? {
          AppendKeepsInv(c, w, pid, fault, commitId);
        } else {
          OpenKeepsInv(c, w, pid, fault, commitId);
        }
      }
  }
}
