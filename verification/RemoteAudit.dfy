/** The remote audit commit: a journal (prepare, commit, abort) and an independent publisher of trust
    anchors (compare-and-swap), driven by processes that open the log and append to it.  Each await is
    one move; a process may crash, and a call may throw, before or after its effect. */
module RemoteAudit {
  import opened Common
  import opened Wrappers
  import opened AuditChain

  type Pid = int

  datatype Pending = Pending(commitId: Text, snapshot: seq<Event>, anchor: Anchor)

  datatype Journal = Journal(revision: int, snapshot: seq<Event>, pending: Option<Pending>)

  datatype Published = Published(anchor: Anchor, revision: int)

  // ---------- the two stores ----------

  function Prepare(j: Journal, expected: int, p: Pending): Option<Journal> {
    if j.revision != expected || j.pending.Some? then None else Some(j.(pending := Some(p)))
  }

  function Commit(j: Journal, commitId: Text): Option<Journal> {
    if j.pending.None? || j.pending.value.commitId != commitId then None
    else Some(Journal(j.revision + 1, j.pending.value.snapshot, None))
  }

  function Abort(j: Journal, commitId: Text): Journal {
    if j.pending.Some? && j.pending.value.commitId == commitId then j.(pending := None) else j
  }

  function Publish(current: Option<Published>, expected: Option<int>, anchor: Anchor): Option<Published> {
    if (if current.Some? then Some(current.value.revision) else None) != expected then None
    else Some(Published(anchor, (if current.Some? then current.value.revision else 0) + 1))
  }

  // ---------- verifying a snapshot ----------

  ghost predicate DigestShaped(c: AuditCrypto) { forall b :: HexHash(c.digest(b)) }

  predicate EntryOk(c: AuditCrypto, e: Entry) {
    e.kind != "" && e.correlationId != "" && c.isDate(e.occurredAt)
  }

  predicate RemoteShapeOk(c: AuditCrypto, index: nat, e: Event) {
    && e.body.sequence == index + 1
    && e.body.eventId != "" && e.body.kind != "" && e.body.correlationId != "" && c.isDate(e.body.occurredAt)
    && HexHash(e.hash)
  }

  predicate RemoteVerified(c: AuditCrypto, ring: Keyring, events: seq<Event>) {
    (forall i :: 0 <= i < |events| ==> RemoteShapeOk(c, i, events[i])) && Verified(c, Some(ring), events)
  }

  // ---------- processes ----------

  /** The fields #state and #published of one open log. */
  datatype View = View(state: Journal, published: Published)

  /** Where an append is: the await it is suspended in, with what it has computed so far. */
  datatype Phase =
    | Idle
    | Signing(entry: Entry, keyId: Text, version: int)
    | Preparing(event: Event, pending: Pending)
    | Publishing(event: Event, pending: Pending)
    | Aborting(event: Event, pending: Pending)
    | Committing(event: Event, pending: Pending, published: Published)
    | Loading(event: Event, published: Published)

  datatype Process =
    | LoadingPublished(state: Journal)
    | Resolving(state: Journal, known: Option<Published>)
    | ReloadingState
    | ReloadingPublished(state: Journal)
    | ReadingKey(state: Journal, known: Option<Published>)
    | PublishingFirst(state: Journal, keyId: Text, version: int)
    | Checking(state: Journal, published: Published, keyId: Text, version: int)
    | Handle(view: View, phase: Phase)

  /** `history` lists the events whose anchor was published, in order; no code reads it. */
  datatype World = World(
    journal: Journal, published: Option<Published>, ring: Keyring, processes: map<Pid, Process>, history: seq<Event>)

  /** How an awaited call ends: normally, or throwing before or after its effect. */
  datatype Fault = NoFault | BeforeEffect | AfterEffect

  datatype Move =
    | Rotate(keyId: Text)
    | StartOpen(pid: Pid)
    | StartAppend(pid: Pid, entry: Entry)
    | Advance(pid: Pid, fault: Fault, commitId: Text)
    | Crash(pid: Pid)

  function Set(w: World, pid: Pid, p: Process): World { w.(processes := w.processes[pid := p]) }

  function Drop(w: World, pid: Pid): World { w.(processes := w.processes - {pid}) }

  predicate MetadataOk(keyId: Text, version: int) { KeyIdOk(keyId) && 1 <= version <= MAX_SAFE_INTEGER }

  predicate KeyRollback(events: seq<Event>, keyId: Text, version: int) {
    var previous := Tip(events);
    previous.Some? && previous.value.authentication.Some?
    && (version < VersionOf(previous) || (version == VersionOf(previous) && KeyIdOf(previous) != Some(keyId)))
  }

  function BeginAppend(c: AuditCrypto, w: World, view: View, entry: Entry): Phase {
    if !EntryOk(c, entry) || entry.eventId == "" || !MetadataOk(w.ring.activeKeyId, w.ring.latest)
       || KeyRollback(view.state.snapshot, w.ring.activeKeyId, w.ring.latest) then Idle
    else Signing(entry, w.ring.activeKeyId, w.ring.latest)
  }

  function Signed(c: AuditCrypto, ring: Keyring, events: seq<Event>, entry: Entry, keyId: Text, version: int): Event
    requires keyId in ring.keys
  {
    Sign(c, Unsigned(c, events, entry), keyId, version, ring.keys[keyId].secret, TagOf(Tip(events)))
  }

  function FinishSigning(c: AuditCrypto, w: World, view: View, ph: Phase, commitId: Text): Phase
    requires ph.Signing?
  {
    if ph.keyId !in w.ring.keys then Idle
    else
      var event := Signed(c, w.ring, view.state.snapshot, ph.entry, ph.keyId, ph.version);
      if !TagOk(event.authentication.value.tag) then Idle
      else
        var snapshot := view.state.snapshot + [event];
        Preparing(event, Pending(commitId, snapshot, AnchorFor(snapshot, ph.keyId, ph.version)))
  }

  function SigningMove(c: AuditCrypto, w: World, pid: Pid, view: View, ph: Phase, fault: Fault, commitId: Text): World
    requires ph.Signing?
  {
    Set(w, pid, Handle(view, if fault == NoFault then FinishSigning(c, w, view, ph, commitId) else Idle))
  }

  function PreparingMove(w: World, pid: Pid, view: View, event: Event, p: Pending, fault: Fault): World {
    var prepared := Prepare(w.journal, view.state.revision, p);
    if fault == BeforeEffect || prepared.None? then Set(w, pid, Handle(view, Idle))
    else Set(w.(journal := prepared.value), pid, Handle(view, if fault == NoFault then Publishing(event, p) else Idle))
  }

  function PublishingMove(w: World, pid: Pid, view: View, event: Event, p: Pending, fault: Fault): World {
    var published := Publish(w.published, Some(view.published.revision), p.anchor);
    if fault == BeforeEffect || published.None? then Set(w, pid, Handle(view, Aborting(event, p)))
    else
      Set(w.(published := published, history := w.history + [event]), pid,
          Handle(view, if fault == NoFault then Committing(event, p, published.value) else Aborting(event, p)))
  }

  function AbortingMove(w: World, pid: Pid, view: View, p: Pending, fault: Fault): World {
    Set(if fault == BeforeEffect then w else w.(journal := Abort(w.journal, p.commitId)), pid, Handle(view, Idle))
  }

  function CommittingMove(w: World, pid: Pid, view: View, event: Event, p: Pending, published: Published, fault: Fault): World {
    var committed := Commit(w.journal, p.commitId);
    if fault == BeforeEffect || committed.None? then Set(w, pid, Handle(view, Idle))
    else Set(w.(journal := committed.value), pid, Handle(view, if fault == NoFault then Loading(event, published) else Idle))
  }

  function LoadingMove(w: World, pid: Pid, view: View, published: Published, fault: Fault): World {
    Set(w, pid, Handle(if fault == NoFault then View(w.journal, published) else view, Idle))
  }

  /** One await of an append.  A thrown error leaves the handle idle with the view it had, except that
      an error of `publish` first aborts. */
  function AdvanceAppend(c: AuditCrypto, w: World, pid: Pid, view: View, ph: Phase, fault: Fault, commitId: Text): World {
    match ph
    case Idle => w
    case Signing(_, _, _) => SigningMove(c, w, pid, view, ph, fault, commitId)
    case Preparing(event, p) => PreparingMove(w, pid, view, event, p, fault)
    case Publishing(event, p) => PublishingMove(w, pid, view, event, p, fault)
    case Aborting(_, p) => AbortingMove(w, pid, view, p, fault)
    case Committing(event, p, published) => CommittingMove(w, pid, view, event, p, published, fault)
    case Loading(_, published) => LoadingMove(w, pid, view, published, fault)
  }

  /** The journal after `open` has resolved a pending record: rolled forward when its anchor is the
      published one, back otherwise; None when the commit is refused. */
  function Resolve(j: Journal, pending: Pending, known: Option<Published>): Option<Journal> {
    if known.Some? && known.value.anchor == pending.anchor then Commit(j, pending.commitId)
    else Some(Abort(j, pending.commitId))
  }

  predicate Accepted(c: AuditCrypto, w: World, state: Journal, published: Published, keyId: Text, version: int) {
    var a := published.anchor;
    && MetadataOk(a.activeKeyId, a.activeKeyVersion)
    && a == AnchorFor(state.snapshot, a.activeKeyId, a.activeKeyVersion)
    && version >= a.activeKeyVersion && (version == a.activeKeyVersion ==> keyId == a.activeKeyId)
    && RemoteVerified(c, w.ring, state.snapshot)
  }

  /** One await of an open.  A thrown error ends the open. */
  function AdvanceOpen(c: AuditCrypto, w: World, pid: Pid, p: Process, fault: Fault): World
    requires !p.Handle?
  {
    match p
    case LoadingPublished(state) =>
      if fault != NoFault then Drop(w, pid)
      else Set(w, pid, if state.pending.Some? then Resolving(state, w.published) else ReadingKey(state, w.published))
    case Resolving(state, known) =>
      if state.pending.None? then Drop(w, pid)
      else
        var resolved := Resolve(w.journal, state.pending.value, known);
        if fault == BeforeEffect || resolved.None? then Drop(w, pid)
        else if fault == AfterEffect then Drop(w.(journal := resolved.value), pid)
        else Set(w.(journal := resolved.value), pid, ReloadingState)
    case ReloadingState => if fault != NoFault then Drop(w, pid) else Set(w, pid, ReloadingPublished(w.journal))
    case ReloadingPublished(state) => if fault != NoFault then Drop(w, pid) else Set(w, pid, ReadingKey(state, w.published))
    case ReadingKey(state, known) =>
      if fault != NoFault || !MetadataOk(w.ring.activeKeyId, w.ring.latest) || (known.None? && state.snapshot != []) then Drop(w, pid)
      else
        Set(w, pid, if known.None? then PublishingFirst(state, w.ring.activeKeyId, w.ring.latest)
                    else Checking(state, known.value, w.ring.activeKeyId, w.ring.latest))
    case PublishingFirst(state, keyId, version) =>
      var first := Publish(w.published, None, AnchorFor(state.snapshot, keyId, version));
      if fault == BeforeEffect || first.None? then Drop(w, pid)
      else if fault == AfterEffect then Drop(w.(published := first), pid)
      else Set(w.(published := first), pid, Checking(state, first.value, keyId, version))
    case Checking(state, published, keyId, version) =>
      if fault != NoFault || !Accepted(c, w, state, published, keyId, version) then Drop(w, pid)
      else Set(w, pid, Handle(View(state, published), Idle))
  }

  function Next(c: AuditCrypto, w: World, move: Move): World {
    match move
    case Rotate(keyId) => if HasActive(w.ring) then w.(ring := RingActivate(w.ring, keyId).0) else w
    case StartOpen(pid) => if pid in w.processes then w else Set(w, pid, LoadingPublished(w.journal))
    case StartAppend(pid, entry) =>
      if pid in w.processes && w.processes[pid].Handle? && w.processes[pid].phase == Idle then
        Set(w, pid, Handle(w.processes[pid].view, BeginAppend(c, w, w.processes[pid].view, entry)))
      else w
    case Advance(pid, fault, commitId) =>
      if pid !in w.processes then w
      else if w.processes[pid].Handle? then
        AdvanceAppend(c, w, pid, w.processes[pid].view, w.processes[pid].phase, fault, commitId)
      else AdvanceOpen(c, w, pid, w.processes[pid], fault)
    case Crash(pid) => Drop(w, pid)
  }

  predicate MidAppend(w: World, pid: Pid) {
    pid in w.processes && w.processes[pid].Handle? && w.processes[pid].phase != Idle
  }

  predicate MidOpen(w: World, pid: Pid) { pid in w.processes && !w.processes[pid].Handle? }

  /** What the protocol assumes of its surroundings: a log is opened only while nobody appends, nobody
      starts to append while a log is being opened, and a `publish` of an append that throws had no effect. */
  predicate Allowed(w: World, move: Move) {
    match move
    case StartOpen(_) => forall q :: q in w.processes ==> !MidAppend(w, q)
    case StartAppend(_, _) => forall q :: q in w.processes ==> !MidOpen(w, q)
    case Advance(pid, fault, _) => MidAppend(w, pid) && w.processes[pid].phase.Publishing? ==> fault != AfterEffect
    case _ => true
  }

  function Empty(ring: Keyring): World { World(Journal(0, [], None), None, ring, map[], []) }

  function WorldAfter(c: AuditCrypto, w: World, moves: seq<Move>): World
    decreases |moves|
  {
    if moves == [] then w else Next(c, WorldAfter(c, w, moves[..|moves| - 1]), moves[|moves| - 1])
  }

  ghost predicate AllAllowed(c: AuditCrypto, w: World, moves: seq<Move>) {
    forall i :: 0 <= i < |moves| ==> Allowed(WorldAfter(c, w, moves[..i]), moves[i])
  }
}
