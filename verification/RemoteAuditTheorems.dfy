/** What the remote audit protocol guarantees over every run, crashes and throwing calls included. */
module RemoteAuditTheorems {
  import opened Common
  import opened Wrappers
  import opened AuditChain
  import opened RemoteAudit
  import opened RemoteAuditInvariant

  lemma VersionsNeverFall(c: AuditCrypto, w: World, move: Move)
    ensures w.ring.latest <= Next(c, w, move).ring.latest
  {
    hide FinishSigning, Accepted, KeyRollback, AnchorFor;
  }

  lemma {:induction false} RunInv(c: AuditCrypto, w: World, moves: seq<Move>)
    requires Shaped(c) && Inv(c, w) && AllAllowed(c, w, moves) && WorldAfter(c, w, moves).ring.latest <= MAX_SAFE_INTEGER
    ensures Inv(c, WorldAfter(c, w, moves))
    decreases |moves|
  {
    hide Inv, Next, Allowed;
    if moves != [] {
      var n := |moves| - 1;
      AllowedPrefix(c, w, moves, n);
      VersionsNeverFall(c, WorldAfter(c, w, moves[..n]), moves[n]);
      RunInv(c, w, moves[..n]);
      assert Allowed(WorldAfter(c, w, moves[..n]), moves[n]);
      NextKeepsInv(c, WorldAfter(c, w, moves[..n]), moves[n]);
    }
  }

  lemma AllowedPrefix(c: AuditCrypto, w: World, moves: seq<Move>, n: nat)
    requires AllAllowed(c, w, moves) && n <= |moves|
    ensures AllAllowed(c, w, moves[..n])
  {
    hide Allowed;
    forall i | 0 <= i < n ensures Allowed(WorldAfter(c, w, moves[..n][..i]), moves[..n][i]) {
      assert moves[..n][..i] == moves[..i];
    }
  }

  lemma EmptyInv(c: AuditCrypto, ring: Keyring)
    requires RingOk(ring) && ring.latest <= MAX_SAFE_INTEGER
    ensures Inv(c, Empty(ring))
  {
    hide RingOk;
  }

  /** In every reachable world the published anchor is the anchor of the committed snapshot or the
      anchor of the pending record, never both and never anything else. */
  lemma PublishedAnchorIsKnown(c: AuditCrypto, ring: Keyring, moves: seq<Move>)
    requires Shaped(c) && RingOk(ring) && AllAllowed(c, Empty(ring), moves)
    requires WorldAfter(c, Empty(ring), moves).ring.latest <= MAX_SAFE_INTEGER
    ensures var w := WorldAfter(c, Empty(ring), moves);
            w.published.Some? ==>
              var a := w.published.value.anchor;
              var ofSnapshot := a == AnchorFor(w.journal.snapshot, a.activeKeyId, a.activeKeyVersion);
              var ofPending := w.journal.pending.Some? && a == w.journal.pending.value.anchor;
              (ofSnapshot || ofPending) && !(ofSnapshot && ofPending)
  {
    hide Inv, AllAllowed, RingOk, Shaped;
    RunFromEmpty(c, ring, moves);
    var w := WorldAfter(c, Empty(ring), moves);
    if w.published.Some? { AnchorOfSnapshotOrPending(c, w); }
  }

  lemma RunFromEmpty(c: AuditCrypto, ring: Keyring, moves: seq<Move>)
    requires Shaped(c) && RingOk(ring) && AllAllowed(c, Empty(ring), moves)
    requires WorldAfter(c, Empty(ring), moves).ring.latest <= MAX_SAFE_INTEGER
    ensures Inv(c, WorldAfter(c, Empty(ring), moves))
  {
    hide Inv, AllAllowed, RingOk, Shaped, Empty;
    RingLatestRises(c, Empty(ring), moves);
    EmptyRing(ring);
    EmptyInv(c, ring);
    RunInv(c, Empty(ring), moves);
  }

  lemma EmptyRing(ring: Keyring)
    ensures Empty(ring).ring == ring
  {
  }

  lemma {:induction false} RingLatestRises(c: AuditCrypto, w: World, moves: seq<Move>)
    ensures w.ring.latest <= WorldAfter(c, w, moves).ring.latest
    decreases |moves|
  {
    hide Next;
    if moves != [] {
      RingLatestRises(c, w, moves[..|moves| - 1]);
      VersionsNeverFall(c, WorldAfter(c, w, moves[..|moves| - 1]), moves[|moves| - 1]);
    }
  }

  lemma AnchorOfSnapshotOrPending(c: AuditCrypto, w: World)
    requires Inv(c, w) && w.published.Some?
    ensures var a := w.published.value.anchor;
            var ofSnapshot := a == AnchorFor(w.journal.snapshot, a.activeKeyId, a.activeKeyVersion);
            var ofPending := w.journal.pending.Some? && a == w.journal.pending.value.anchor;
            (ofSnapshot || ofPending) && !(ofSnapshot && ofPending)
  {
    hide ProcessesOk, OneOwner, Exclusive, RemoteVerified, RingOk, KeyBound, NextRecord;
    if w.journal.pending.Some? { PendingTellsApart(c, w); }
  }

  /** One move adds at most one event to what is published.  Only an append adds one, and only a handle
      whose view of both stores is current: a stale handle never publishes. */
  lemma OnlyCurrentHandlesPublish(c: AuditCrypto, w: World, move: Move)
    requires Inv(c, w)
    ensures var w' := Next(c, w, move);
            w'.history == w.history
            || (move.Advance? && move.pid in w.processes && w.processes[move.pid].Handle?
                && var view, ph := w.processes[move.pid].view, w.processes[move.pid].phase;
                   && ph.Publishing? && w'.history == w.history + [ph.event]
                   && view.state.snapshot == w.history && view.state.revision == w.journal.revision
                   && Some(view.published) == w.published)
  {
    hide OneOwner, Exclusive, ProcessesOk, StoresOk, FinishSigning, Accepted, BeginAppend, RingActivate, ProcessOk;
    if move.Advance? && move.pid in w.processes && w.processes[move.pid].Handle? && w.processes[move.pid].phase.Publishing? {
      InvParts(c, w, move.pid);
      CurrentView(c, w, w.processes[move.pid].view, w.processes[move.pid].phase);
    }
  }

  lemma CurrentView(c: AuditCrypto, w: World, view: View, ph: Phase)
    requires ProcessOk(c, w, Handle(view, ph)) && ph.Publishing?
    ensures view.state.snapshot == w.history && view.state.revision == w.journal.revision && w.published.Some?
    ensures view.published.revision == w.published.value.revision ==> Some(view.published) == w.published
  {
    hide RemoteVerified, NextRecord, KeyBound;
  }

  lemma {:induction false} HistoryGrows(c: AuditCrypto, w: World, moves: seq<Move>, m: nat, n: nat)
    requires m <= n <= |moves|
    ensures WorldAfter(c, w, moves[..m]).history <= WorldAfter(c, w, moves[..n]).history
    decreases n
  {
    hide Next;
    if m < n {
      HistoryGrows(c, w, moves, m, n - 1);
      assert moves[..n][..n - 1] == moves[..n - 1];
      NextExtends(c, WorldAfter(c, w, moves[..n - 1]), moves[n - 1]);
    }
  }

  lemma NextExtends(c: AuditCrypto, w: World, move: Move)
    ensures w.history <= Next(c, w, move).history
  {
    hide FinishSigning, Accepted, BeginAppend, RingActivate;
  }

  /** Whenever an open succeeds, its handle shows exactly the published events, in order, and the
      journal holds nothing else. */
  lemma OpenShowsHistory(c: AuditCrypto, w: World, pid: Pid, fault: Fault, commitId: Text)
    requires Inv(c, w) && MidOpen(w, pid)
    ensures var w' := Next(c, w, Advance(pid, fault, commitId));
            pid in w'.processes && w'.processes[pid].Handle? ==>
              var view := w'.processes[pid].view;
              && view.state.snapshot == w'.history && Some(view.published) == w'.published
              && w'.journal.snapshot == w'.history && w'.journal.pending.None?
  {
    hide OneOwner, Exclusive, ProcessesOk, StoresOk, ProcessOk, RingOk, Accepted;
    InvParts(c, w, pid);
    if w.processes[pid].Checking? {
      var p := w.processes[pid];
      CheckingAccepts(c, w, p.state, p.published, p.keyId, p.version);
      CheckingCurrent(c, w, p);
    }
  }

  lemma CheckingCurrent(c: AuditCrypto, w: World, p: Process)
    requires ProcessOk(c, w, p) && p.Checking?
    ensures p.state == w.journal && Some(p.published) == w.published && w.journal.pending.None?
  {
  }

  // ---------- what callers see ----------

  /** The move at i ends an open successfully. */
  ghost predicate OpensAt(c: AuditCrypto, ring: Keyring, moves: seq<Move>, i: nat) {
    && i < |moves| && moves[i].Advance?
    && var w, w', pid := WorldAfter(c, Empty(ring), moves[..i]), WorldAfter(c, Empty(ring), moves[..i + 1]), moves[i].pid;
       MidOpen(w, pid) && pid in w'.processes && w'.processes[pid].Handle?
  }

  /** The events the opened log shows. */
  function Shown(c: AuditCrypto, ring: Keyring, moves: seq<Move>, i: nat): seq<Event>
    requires OpensAt(c, ring, moves, i)
  {
    WorldAfter(c, Empty(ring), moves[..i + 1]).processes[moves[i].pid].view.state.snapshot
  }

  /** The move at i ends an append, which returns this event. */
  ghost predicate ReturnsAt(c: AuditCrypto, ring: Keyring, moves: seq<Move>, i: nat, e: Event) {
    && i < |moves| && moves[i].Advance? && moves[i].fault == NoFault
    && var w, pid := WorldAfter(c, Empty(ring), moves[..i]), moves[i].pid;
       pid in w.processes && w.processes[pid].Handle? && w.processes[pid].phase.Loading? && w.processes[pid].phase.event == e
  }

  lemma PrefixInv(c: AuditCrypto, ring: Keyring, moves: seq<Move>, n: nat)
    requires Shaped(c) && RingOk(ring) && AllAllowed(c, Empty(ring), moves) && n <= |moves|
    requires WorldAfter(c, Empty(ring), moves).ring.latest <= MAX_SAFE_INTEGER
    ensures Inv(c, WorldAfter(c, Empty(ring), moves[..n]))
  {
    hide Shaped, RingOk, AllAllowed, Empty, Inv, WorldAfter;
    AllowedPrefix(c, Empty(ring), moves, n);
    LatestGrows(c, Empty(ring), moves, n);
    RunFromEmpty(c, ring, moves[..n]);
  }

  lemma {:induction false} LatestGrows(c: AuditCrypto, w: World, moves: seq<Move>, n: nat)
    requires n <= |moves|
    ensures WorldAfter(c, w, moves[..n]).ring.latest <= WorldAfter(c, w, moves).ring.latest
    decreases |moves|
  {
    hide Next;
    var m := |moves| - 1;
    if n == |moves| {
      assert moves[..n] == moves;
    } else {
      LatestGrows(c, w, moves[..m], n);
      assert moves[..m][..n] == moves[..n];
      VersionsNeverFall(c, WorldAfter(c, w, moves[..m]), moves[m]);
    }
  }

  lemma ShownIsHistory(c: AuditCrypto, ring: Keyring, moves: seq<Move>, i: nat)
    requires Shaped(c) && RingOk(ring) && AllAllowed(c, Empty(ring), moves) && OpensAt(c, ring, moves, i)
    requires WorldAfter(c, Empty(ring), moves).ring.latest <= MAX_SAFE_INTEGER
    ensures i < |moves| && Shown(c, ring, moves, i) == WorldAfter(c, Empty(ring), moves[..i + 1]).history
  {
    hide Shaped, RingOk, AllAllowed, Empty, Inv, Next;
    PrefixInv(c, ring, moves, i);
    assert moves[..i + 1][..i] == moves[..i];
    OpenShowsHistory(c, WorldAfter(c, Empty(ring), moves[..i]), moves[i].pid, moves[i].fault, moves[i].commitId);
  }

  /** Whatever happens between two opens that succeed, crashes and failed calls included, the later one
      shows all that the earlier one showed, in the same order, and no event twice. */
  lemma LaterOpensExtend(c: AuditCrypto, ring: Keyring, moves: seq<Move>, i: nat, j: nat)
    requires Shaped(c) && RingOk(ring) && AllAllowed(c, Empty(ring), moves)
    requires WorldAfter(c, Empty(ring), moves).ring.latest <= MAX_SAFE_INTEGER
    requires i <= j && OpensAt(c, ring, moves, i) && OpensAt(c, ring, moves, j)
    ensures Shown(c, ring, moves, i) <= Shown(c, ring, moves, j)
    ensures forall a, b :: 0 <= a < b < |Shown(c, ring, moves, j)| ==> Shown(c, ring, moves, j)[a] != Shown(c, ring, moves, j)[b]
  {
    hide Shaped, RingOk, AllAllowed, Empty, Inv, WorldAfter, OpensAt, Shown;
    ShownIsHistory(c, ring, moves, i);
    ShownIsHistory(c, ring, moves, j);
    HistoryGrows(c, Empty(ring), moves, i + 1, j + 1);
    PrefixInv(c, ring, moves, j + 1);
    EventsDiffer(c, WorldAfter(c, Empty(ring), moves[..j + 1]));
  }

  lemma EventsDiffer(c: AuditCrypto, w: World)
    requires Inv(c, w)
    ensures forall a, b :: 0 <= a < b < |w.history| ==> w.history[a] != w.history[b]
  {
    hide ProcessesOk, OneOwner, Exclusive, Settled, Ahead, AnchorBound, Verified, RingOk;
    assert forall a :: 0 <= a < |w.history| ==> RemoteShapeOk(c, a, w.history[a]);
  }

  /** An event that an append returned is shown by every later open that succeeds. */
  lemma ReturnedIsShown(c: AuditCrypto, ring: Keyring, moves: seq<Move>, i: nat, j: nat, e: Event)
    requires Shaped(c) && RingOk(ring) && AllAllowed(c, Empty(ring), moves)
    requires WorldAfter(c, Empty(ring), moves).ring.latest <= MAX_SAFE_INTEGER
    requires i < j && ReturnsAt(c, ring, moves, i, e) && OpensAt(c, ring, moves, j)
    ensures e in Shown(c, ring, moves, j)
  {
    hide Shaped, RingOk, AllAllowed, Empty, Inv, WorldAfter, OpensAt, Shown;
    PrefixInv(c, ring, moves, i);
    ReturnedWasPublished(c, WorldAfter(c, Empty(ring), moves[..i]), moves[i].pid);
    ShownIsHistory(c, ring, moves, j);
    HistoryGrows(c, Empty(ring), moves, i, j + 1);
  }

  lemma ReturnedWasPublished(c: AuditCrypto, w: World, pid: Pid)
    requires Inv(c, w) && pid in w.processes && w.processes[pid].Handle? && w.processes[pid].phase.Loading?
    ensures w.processes[pid].phase.event in w.history
  {
    hide Inv, StoresOk, ProcessesOk, OneOwner, Exclusive, RingOk, ViewOk;
    InvParts(c, w, pid);
  }

  // ---------- whose entry an event carries ----------

  /** The process is working on an append of this entry; the event it has built, if it has, says what the
      entry says. */
  predicate WorkingOn(w: World, pid: Pid, entry: Entry) {
    && MidAppend(w, pid)
    && match w.processes[pid].phase
       case Signing(e, _, _) => e == entry
       case Idle => false
       case Preparing(e, _) => Carries(e, entry)
       case Publishing(e, _) => Carries(e, entry)
       case Aborting(e, _) => Carries(e, entry)
       case Committing(e, _, _) => Carries(e, entry)
       case Loading(e, _) => Carries(e, entry)
  }

  lemma SignedCarries(c: AuditCrypto, w: World, view: View, ph: Phase, commitId: Text)
    requires ph.Signing?
    ensures var next := FinishSigning(c, w, view, ph, commitId);
            next.Idle? || (next.Preparing? && Carries(next.event, ph.entry))
  {
    hide TagOk, AnchorFor;
  }

  /** An await of an open or an append changes no other process. */
  lemma AdvanceLeavesOthers(c: AuditCrypto, w: World, move: Move, pid: Pid)
    requires move.Advance? && move.pid != pid && pid in w.processes
    ensures var w' := Next(c, w, move); pid in w'.processes && w'.processes[pid] == w.processes[pid]
  {
    hide FinishSigning, Accepted, AnchorFor, Prepare, Publish, Commit, Abort, Resolve;
  }

  lemma AdvanceWorksOn(c: AuditCrypto, w: World, move: Move, pid: Pid, entry: Entry)
    requires WorkingOn(w, pid, entry) && move.Advance? && move.pid == pid
    ensures var w' := Next(c, w, move); MidAppend(w', pid) ==> WorkingOn(w', pid, entry)
  {
    hide FinishSigning, Carries, Prepare, Publish, Commit, Abort;
    if w.processes[pid].phase.Signing? { SignedCarries(c, w, w.processes[pid].view, w.processes[pid].phase, move.commitId); }
  }

  /** A working process goes on working on its entry, or is idle again or gone. */
  lemma NextWorksOn(c: AuditCrypto, w: World, move: Move, pid: Pid, entry: Entry)
    requires WorkingOn(w, pid, entry)
    ensures var w' := Next(c, w, move); MidAppend(w', pid) ==> WorkingOn(w', pid, entry)
  {
    hide AdvanceAppend, AdvanceOpen, RingActivate, BeginAppend, Carries;
    if move.Advance? {
      if move.pid == pid { AdvanceWorksOn(c, w, move, pid, entry); } else { AdvanceLeavesOthers(c, w, move, pid); }
    }
  }

  /** A process that is not appending starts to only when it is asked to, and then works on that entry. */
  lemma StartsOnEntry(c: AuditCrypto, w: World, move: Move, pid: Pid)
    requires !MidAppend(w, pid) && MidAppend(Next(c, w, move), pid)
    ensures move.StartAppend? && move.pid == pid && WorkingOn(Next(c, w, move), pid, move.entry)
  {
    hide FinishSigning, RingActivate, Accepted, AnchorFor, KeyRollback, EntryOk, MetadataOk;
  }

  lemma NextPrefix(c: AuditCrypto, w: World, moves: seq<Move>, i: nat)
    requires i < |moves|
    ensures WorldAfter(c, w, moves[..i + 1]) == Next(c, WorldAfter(c, w, moves[..i]), moves[i])
  {
    hide Next;
    assert moves[..i + 1][..i] == moves[..i];
  }

  /** The append that a process is in the middle of after some moves began with one of them, and has been going
      on since. */
  lemma {:induction false} AppendBegan(c: AuditCrypto, ring: Keyring, moves: seq<Move>, i: nat, pid: Pid) returns (j: nat)
    requires i <= |moves| && MidAppend(WorldAfter(c, Empty(ring), moves[..i]), pid)
    ensures j < i && moves[j].StartAppend? && moves[j].pid == pid
    ensures WorkingOn(WorldAfter(c, Empty(ring), moves[..i]), pid, moves[j].entry)
    ensures !MidAppend(WorldAfter(c, Empty(ring), moves[..j]), pid)
    ensures forall k :: j < k <= i ==> MidAppend(WorldAfter(c, Empty(ring), moves[..k]), pid)
    decreases i
  {
    hide Next, MidAppend, WorkingOn, WorldAfter;
    assert i > 0 by { assert moves[..0] == []; NobodyAppends(c, ring, pid); }
    var w, m := WorldAfter(c, Empty(ring), moves[..i - 1]), moves[i - 1];
    NextPrefix(c, Empty(ring), moves, i - 1);
    if MidAppend(w, pid) {
      j := AppendBegan(c, ring, moves, i - 1, pid);
      NextWorksOn(c, w, m, pid, moves[j].entry);
    } else {
      j := i - 1;
      StartsOnEntry(c, w, m, pid);
    }
  }

  lemma NobodyAppends(c: AuditCrypto, ring: Keyring, pid: Pid)
    ensures !MidAppend(WorldAfter(c, Empty(ring), []), pid)
  {
  }

  /** An event that an append returns says what the entry says that this append was given. */
  lemma ReturnedCarriesEntry(c: AuditCrypto, ring: Keyring, moves: seq<Move>, i: nat, e: Event) returns (j: nat)
    requires ReturnsAt(c, ring, moves, i, e)
    ensures j < i && moves[j].StartAppend? && moves[j].pid == moves[i].pid && Carries(e, moves[j].entry)
    ensures forall k :: j < k <= i ==> MidAppend(WorldAfter(c, Empty(ring), moves[..k]), moves[i].pid)
    ensures !MidAppend(WorldAfter(c, Empty(ring), moves[..j]), moves[j].pid)
  {
    hide WorldAfter, Carries;
    j := AppendBegan(c, ring, moves, i, moves[i].pid);
  }

  /** Some append of the run was given the entry this event says. */
  ghost predicate Asked(moves: seq<Move>, e: Event) {
    exists j :: 0 <= j < |moves| && moves[j].StartAppend? && Carries(e, moves[j].entry)
  }

  /** Every published event, and so every event an opened log shows, says what the entry of some append of the
      run says: nothing else is ever published. */
  lemma {:induction false} PublishedWasAsked(c: AuditCrypto, ring: Keyring, moves: seq<Move>, i: nat)
    requires Shaped(c) && RingOk(ring) && AllAllowed(c, Empty(ring), moves) && i <= |moves|
    requires WorldAfter(c, Empty(ring), moves).ring.latest <= MAX_SAFE_INTEGER
    ensures forall e <- WorldAfter(c, Empty(ring), moves[..i]).history :: Asked(moves, e)
    decreases i
  {
    hide Shaped, RingOk, AllAllowed, Inv, Next, WorldAfter, Asked, WorkingOn, Carries;
    if i == 0 {
      assert moves[..0] == [];
      NothingPublished(c, ring);
    } else {
      PublishedWasAsked(c, ring, moves, i - 1);
      var w, m := WorldAfter(c, Empty(ring), moves[..i - 1]), moves[i - 1];
      NextPrefix(c, Empty(ring), moves, i - 1);
      PrefixInv(c, ring, moves, i - 1);
      OnlyCurrentHandlesPublish(c, w, m);
      if Next(c, w, m).history != w.history {
        var j := AppendBegan(c, ring, moves, i - 1, m.pid);
        PublishingWorks(w, m.pid, moves[j].entry);
        AskedAt(moves, w.processes[m.pid].phase.event, j);
      }
    }
  }

  lemma NothingPublished(c: AuditCrypto, ring: Keyring)
    ensures WorldAfter(c, Empty(ring), []).history == []
  {
  }

  lemma PublishingWorks(w: World, pid: Pid, entry: Entry)
    requires WorkingOn(w, pid, entry) && w.processes[pid].phase.Publishing?
    ensures Carries(w.processes[pid].phase.event, entry)
  {
  }

  lemma AskedAt(moves: seq<Move>, e: Event, j: nat)
    requires j < |moves| && moves[j].StartAppend? && Carries(e, moves[j].entry)
    ensures Asked(moves, e)
  {
  }

  // ---------- what an open and an append check ----------

  /** The last check of an open, on whatever it loaded: the anchor counts the events and names the last one's
      hash, tag, key and version, the provider's key is not older than the anchor's, and the events are
      numbered, well shaped and verify. */
  lemma OpenAcceptsIff(c: AuditCrypto, w: World, pid: Pid)
    requires pid in w.processes && w.processes[pid].Checking?
    ensures var p := w.processes[pid];
            var a, events := p.published.anchor, p.state.snapshot;
            var last := if events == [] then None else events[|events| - 1].authentication;
            var w' := Next(c, w, Advance(pid, NoFault, ""));
            (pid in w'.processes && w'.processes[pid] == Handle(View(p.state, p.published), Idle) <==>
              && KeyIdOk(a.activeKeyId) && 1 <= a.activeKeyVersion <= MAX_SAFE_INTEGER
              && a.eventCount == |events| && a.tipHash == (if events == [] then "GENESIS" else events[|events| - 1].hash)
              && a.tipTag == (if last.Some? then last.value.tag else "AUTH-GENESIS")
              && a.tipKeyId == (if last.Some? then Some(last.value.keyId) else None)
              && a.tipKeyVersion == (if last.Some? then Some(last.value.keyVersion) else None)
              && p.version >= a.activeKeyVersion && (p.version == a.activeKeyVersion ==> p.keyId == a.activeKeyId)
              && (forall i :: 0 <= i < |events| ==>
                    && events[i].body.sequence == i + 1 && events[i].body.eventId != "" && events[i].body.kind != ""
                    && events[i].body.correlationId != "" && c.isDate(events[i].body.occurredAt) && HexHash(events[i].hash))
              && Verified(c, Some(w.ring), events))
            && (pid in w'.processes ==> w'.processes[pid].Handle?) && SameStores(w, w')
  {
    hide Verified, HexHash, KeyIdOk;
  }

  /** An append starts signing exactly for an entry with an id, a kind, a correlation id and a valid date, under
      a well-formed active key that is not older than the last event's; otherwise its handle stays idle. */
  lemma AppendStartsIff(c: AuditCrypto, w: World, pid: Pid, entry: Entry)
    requires pid in w.processes && w.processes[pid].Handle? && w.processes[pid].phase == Idle
    ensures var view := w.processes[pid].view;
            var events := view.state.snapshot;
            var last := if events == [] then None else events[|events| - 1].authentication;
            var w' := Next(c, w, StartAppend(pid, entry));
            && SameStores(w, w') && pid in w'.processes && w'.processes == w.processes[pid := w'.processes[pid]]
            && w'.processes[pid].Handle? && w'.processes[pid].view == view
            && (w'.processes[pid].phase == Signing(entry, w.ring.activeKeyId, w.ring.latest) <==>
                  && entry.eventId != "" && entry.kind != "" && entry.correlationId != "" && c.isDate(entry.occurredAt)
                  && KeyIdOk(w.ring.activeKeyId) && 1 <= w.ring.latest <= MAX_SAFE_INTEGER
                  && (last.Some? ==> w.ring.latest >= last.value.keyVersion
                                     && (w.ring.latest == last.value.keyVersion ==> w.ring.activeKeyId == last.value.keyId)))
            && (w'.processes[pid].phase.Signing? || w'.processes[pid].phase == Idle)
  {
    hide KeyIdOk;
  }

  /** A call that throws ends an open; thrown before its effect it writes nothing.  An append it leaves idle under
      the view it had, except that an error of `publish` has it abort first. */
  lemma ErrorsEnd(c: AuditCrypto, w: World, pid: Pid, fault: Fault)
    requires pid in w.processes && fault != NoFault
    ensures var p := w.processes[pid];
            var w' := Next(c, w, Advance(pid, fault, ""));
            && (fault == BeforeEffect ==> SameStores(w, w'))
            && (!p.Handle? ==> w'.processes == w.processes - {pid})
            && (p.Handle? ==> w'.processes == w.processes[pid :=
                  Handle(p.view, if p.phase.Publishing? then Aborting(p.phase.event, p.phase.pending) else Idle)])
  {
    hide Accepted, MetadataOk, AnchorFor, FinishSigning;
  }

  // ---------- recovery ----------

  /** A process runs on through its next n awaits, undisturbed. */
  function Steps(c: AuditCrypto, w: World, pid: Pid, n: nat): World
    decreases n
  {
    if n == 0 then w else Steps(c, Next(c, w, Advance(pid, NoFault, "")), pid, n - 1)
  }

  /** Recovered: open, nothing pending, the same history, and the handle shows it. */
  predicate Recovered(w: World, w': World, pid: Pid) {
    && w'.history == w.history && w'.journal.pending.None? && w'.journal.snapshot == w.history
    && pid in w'.processes && w'.processes[pid].Handle? && w'.processes[pid].phase == Idle
    && w'.processes[pid].view.state.snapshot == w.history
  }

  lemma CheckingRecovers(c: AuditCrypto, w: World, pid: Pid)
    requires Inv(c, w) && MidOpen(w, pid) && w.processes[pid].Checking?
    ensures Inv(c, Next(c, w, Advance(pid, NoFault, ""))) && Recovered(w, Next(c, w, Advance(pid, NoFault, "")), pid)
  {
    hide OneOwner, Exclusive, ProcessesOk, StoresOk, ProcessOk, RingOk, Accepted;
    InvParts(c, w, pid);
    var p := w.processes[pid];
    CheckingAccepts(c, w, p.state, p.published, p.keyId, p.version);
    CheckingCurrent(c, w, p);
    CheckingKeepsInv(c, w, pid, p, NoFault);
  }

  lemma IdleStays(c: AuditCrypto, w: World, pid: Pid, n: nat)
    requires pid in w.processes && w.processes[pid].Handle? && w.processes[pid].phase == Idle
    ensures Steps(c, w, pid, n) == w
  {
  }

  /** From a process that knows the current state, at most three more calls finish the open. */
  lemma ReadingKeyRecovers(c: AuditCrypto, w: World, pid: Pid, n: nat)
    requires Inv(c, w) && MidOpen(w, pid) && w.processes[pid].ReadingKey? && n >= 3
    requires w.processes[pid].known == w.published
    ensures Recovered(w, Steps(c, w, pid, n), pid)
  {
    hide Inv, OneOwner, Exclusive, ProcessesOk, StoresOk, ProcessOk, RingOk, Accepted, AnchorFor, HasActive;
    InvParts(c, w, pid);
    KeyReadable(c, w, w.processes[pid]);
    var w1 := Next(c, w, Advance(pid, NoFault, ""));
    OpenKeepsInv(c, w, pid, NoFault, "");
    var w2 := Next(c, w1, Advance(pid, NoFault, ""));
    if w1.processes[pid].Checking? {
      CheckingRecovers(c, w1, pid);
      IdleStays(c, w2, pid, n - 2);
    } else {
      OpenKeepsInv(c, w1, pid, NoFault, "");
      CheckingRecovers(c, w2, pid);
      IdleStays(c, Next(c, w2, Advance(pid, NoFault, "")), pid, n - 3);
      assert Steps(c, w1, pid, n - 1) == Steps(c, w2, pid, n - 2);
    }
  }

  lemma KeyReadable(c: AuditCrypto, w: World, p: Process)
    requires StoresOk(c, w) && ProcessOk(c, w, p) && p.ReadingKey? && p.known == w.published
    ensures MetadataOk(w.ring.activeKeyId, w.ring.latest)
    ensures p.known.None? ==> p.state.snapshot == [] && w.published.None?
  {
    hide RingOk, RemoteVerified, NextRecord, KeyFor;
    StoresRing(c, w);
    ActiveIsBound(w.ring);
  }

  lemma ReloadRecovers(c: AuditCrypto, w: World, pid: Pid, n: nat)
    requires Inv(c, w) && MidOpen(w, pid) && w.processes[pid].ReloadingState? && n >= 5
    ensures Recovered(w, Steps(c, w, pid, n), pid)
  {
    hide Inv, Recovered;
    var w1 := Next(c, w, Advance(pid, NoFault, ""));
    OpenKeepsInv(c, w, pid, NoFault, "");
    var w2 := Next(c, w1, Advance(pid, NoFault, ""));
    OpenKeepsInv(c, w1, pid, NoFault, "");
    ReadingKeyRecovers(c, w2, pid, n - 2);
    SameHistoryRecovers(w, w2, Steps(c, w2, pid, n - 2), pid);
  }

  lemma SameHistoryRecovers(w: World, v: World, w': World, pid: Pid)
    requires Recovered(v, w', pid) && v.history == w.history
    ensures Recovered(w, w', pid)
  {
  }

  /** Recovery: in any reachable world in which nobody is appending, whatever crashed before, an open
      that runs alone and meets no fault succeeds, rolling a published record forward and an
      unpublished one back, and shows exactly the published events. */
  lemma OpenRecovers(c: AuditCrypto, w: World, pid: Pid)
    requires Inv(c, w) && pid !in w.processes && forall q <- w.processes :: !MidAppend(w, q)
    ensures Recovered(w, Steps(c, Next(c, w, StartOpen(pid)), pid, 7), pid)
  {
    hide Inv, Recovered, Exclusive, OneOwner, ProcessesOk, StoresOk, Resolve;
    StartOpenKeepsInv(c, w, pid);
    var w0 := Next(c, w, StartOpen(pid));
    OpenKeepsInv(c, w0, pid, NoFault, "");
    var w1 := Next(c, w0, Advance(pid, NoFault, ""));
    if w0.journal.pending.None? {
      ReadingKeyRecovers(c, w1, pid, 6);
      SameHistoryRecovers(w, w1, Steps(c, w1, pid, 6), pid);
    } else {
      OpenKeepsInv(c, w1, pid, NoFault, "");
      var w2 := Next(c, w1, Advance(pid, NoFault, ""));
      ResolveSucceeds(w1.journal, w1.published);
      ReloadRecovers(c, w2, pid, 5);
      SameHistoryRecovers(w, w2, Steps(c, w2, pid, 5), pid);
    }
  }

  lemma ResolveSucceeds(j: Journal, known: Option<Published>)
    requires j.pending.Some?
    ensures Resolve(j, j.pending.value, known).Some?
  {
  }

  // ---------- an undisturbed append ----------

  /** A handle whose view of both stores is current, with nothing pending. */
  predicate CurrentHandle(w: World, pid: Pid) {
    && pid in w.processes && w.processes[pid].Handle? && w.processes[pid].phase == Idle
    && w.processes[pid].view.state == w.journal && w.journal.pending.None?
    && Some(w.processes[pid].view.published) == w.published
  }

  lemma CurrentHandleFacts(c: AuditCrypto, w: World, pid: Pid, entry: Entry)
    requires Shaped(c) && Inv(c, w) && CurrentHandle(w, pid) && EntryOk(c, entry) && entry.eventId != ""
    ensures w.journal.snapshot == w.history
    ensures MetadataOk(w.ring.activeKeyId, w.ring.latest) && !KeyRollback(w.history, w.ring.activeKeyId, w.ring.latest)
    ensures w.ring.activeKeyId in w.ring.keys
    ensures TagOk(Signed(c, w.ring, w.history, entry, w.ring.activeKeyId, w.ring.latest).authentication.value.tag)
  {
    hide Inv, ProcessesOk, OneOwner, Exclusive, ProcessOk, RemoteVerified, RingOk, KeyBound, KeyRollback, NextRecord, StoresOk;
    InvParts(c, w, pid);
    StoresRing(c, w);
    QuietStores(c, w);
    ActiveIsBound(w.ring);
    BoundMetadata(w.ring, w.ring.activeKeyId, w.ring.latest);
    SnapshotVerified(c, w);
    ActiveIsNoRollback(c, w.ring, w.history);
    SignedIsNextRecord(c, w.ring, w.history, entry, w.ring.activeKeyId, w.ring.latest, "");
  }

  lemma ActiveIsNoRollback(c: AuditCrypto, ring: Keyring, events: seq<Event>)
    requires RingOk(ring) && RemoteVerified(c, ring, events)
    ensures !KeyRollback(events, ring.activeKeyId, ring.latest)
  {
    hide Verified, RingOk, TagOk;
    TipVersionBounded(c, ring, events);
  }

  /** An append on a current handle that meets no fault publishes and commits its event, and leaves the
      handle current again. */
  lemma AppendCompletes(c: AuditCrypto, w: World, pid: Pid, entry: Entry)
    requires Shaped(c) && Inv(c, w) && CurrentHandle(w, pid) && EntryOk(c, entry) && entry.eventId != ""
    ensures w.ring.activeKeyId in w.ring.keys
    ensures var w' := Steps(c, Next(c, w, StartAppend(pid, entry)), pid, 5);
            && w'.history == w.history + [Signed(c, w.ring, w.history, entry, w.ring.activeKeyId, w.ring.latest)]
            && w'.journal.snapshot == w'.history && CurrentHandle(w', pid)
  {
    hide Shaped, Inv, EntryOk, KeyRollback, MetadataOk, TagOk, Signed, AnchorFor;
    CurrentHandleFacts(c, w, pid, entry);
    var w0 := Next(c, w, StartAppend(pid, entry));
    hide Signed;
    var w1 := Next(c, w0, Advance(pid, NoFault, ""));
    var w2 := Next(c, w1, Advance(pid, NoFault, ""));
    var w3 := Next(c, w2, Advance(pid, NoFault, ""));
    var w4 := Next(c, w3, Advance(pid, NoFault, ""));
    var w5 := Next(c, w4, Advance(pid, NoFault, ""));
    assert Steps(c, w0, pid, 5) == w5 by { FiveSteps(c, w0, pid); }
  }

  lemma FiveSteps(c: AuditCrypto, w: World, pid: Pid)
    ensures var m := Advance(pid, NoFault, "");
            Steps(c, w, pid, 5) == Next(c, Next(c, Next(c, Next(c, Next(c, w, m), m), m), m), m)
  {
    hide Next;
    var m := Advance(pid, NoFault, "");
    var w3 := Next(c, Next(c, Next(c, w, m), m), m);
    assert Steps(c, w3, pid, 2) == Next(c, Next(c, w3, m), m);
    assert Steps(c, Next(c, w, m), pid, 4) == Steps(c, w3, pid, 2);
  }

  // ---------- the assumptions are needed ----------

  /** Nothing can be opened: the published anchor is not the anchor of the journal's only record. */
  ghost predicate Stuck(c: AuditCrypto, w: World) {
    && w.journal.pending.None? && w.published.Some?
    && forall keyId, version :: !Accepted(c, w, w.journal, w.published.value, keyId, version)
  }

  /** If a `publish` could throw after taking effect, the abort that follows would discard the record
      whose anchor is published, and no open could succeed any more. */
  lemma PublishMustNotThrowLate(c: AuditCrypto, w: World, pid: Pid)
    requires Inv(c, w) && MidAppend(w, pid) && w.processes[pid].phase.Publishing?
    requires Some(w.processes[pid].view.published) == w.published
    ensures var w' := Next(c, Next(c, w, Advance(pid, AfterEffect, "")), Advance(pid, NoFault, ""));
            Stuck(c, w') && |w'.history| == |w'.journal.snapshot| + 1
  {
    hide OneOwner, Exclusive, ProcessesOk, StoresOk, ProcessOk, RingOk, RemoteVerified, MetadataOk;
    InvParts(c, w, pid);
    OwnRecord(c, w, w.processes[pid].view, w.processes[pid].phase);
    CountAhead(c, w, w.processes[pid].view, w.processes[pid].phase.event, w.processes[pid].phase.pending);
  }

  lemma CountAhead(c: AuditCrypto, w: World, view: View, e: Event, p: Pending)
    requires Unpublished(c, w, view, e, p)
    ensures p.anchor.eventCount == |w.history| + 1
  {
    hide LinkOk, RemoteShapeOk, KeyBound;
  }

  /** If a log could be opened while a record is about to be published, the open would abort that
      record and the publish would strand the log in the same way. */
  lemma OpenMustWaitForAppends(c: AuditCrypto, w: World, pid: Pid, q: Pid)
    requires Inv(c, w) && MidAppend(w, pid) && w.processes[pid].phase.Publishing? && q !in w.processes
    requires Some(w.processes[pid].view.published) == w.published
    ensures var opening := Next(c, w, StartOpen(q));
            var resolved := Next(c, Next(c, opening, Advance(q, NoFault, "")), Advance(q, NoFault, ""));
            var w' := Next(c, resolved, Advance(pid, NoFault, ""));
            Stuck(c, w') && |w'.history| == |w'.journal.snapshot| + 1
  {
    hide Stuck, OneOwner, Exclusive, ProcessesOk, StoresOk, ProcessOk, RingOk, RemoteVerified, MetadataOk, Accepted;
    InvParts(c, w, pid);
    var view, e, p := w.processes[pid].view, w.processes[pid].phase.event, w.processes[pid].phase.pending;
    OwnRecord(c, w, view, w.processes[pid].phase);
    CountAhead(c, w, view, e, p);
    UnpublishedAnchorDiffers(c, w, view, e, p);
    var opening := Next(c, w, StartOpen(q));
    var loaded := Next(c, opening, Advance(q, NoFault, ""));
    var resolved := Next(c, loaded, Advance(q, NoFault, ""));
    assert resolved.journal == w.journal.(pending := None) && resolved.processes[pid] == w.processes[pid];
    StrandedIsStuck(c, Next(c, resolved, Advance(pid, NoFault, "")));
  }

  lemma UnpublishedAnchorDiffers(c: AuditCrypto, w: World, view: View, e: Event, p: Pending)
    requires StoresOk(c, w) && Unpublished(c, w, view, e, p)
    ensures w.published.Some? && w.published.value.anchor != p.anchor
  {
    hide RingOk, RemoteVerified, LinkOk, RemoteShapeOk, KeyBound;
  }

  lemma StrandedIsStuck(c: AuditCrypto, w: World)
    requires w.journal.pending.None? && w.published.Some?
    requires w.published.value.anchor.eventCount != |w.journal.snapshot|
    ensures Stuck(c, w)
  {
    hide RemoteVerified, MetadataOk;
  }
}
