/** Lab servers sharing one database: each mutating request is looked up, run in memory on the server's
    own state, and committed with its reply in one transaction that compares versions.  A server's
    accesses to the database interleave with every other server's. */
module LabPersistence {
  import opened Wrappers

  type Text = string
  type Sid = int
  /** The whole simulator state, as its snapshot. */
  type Snapshot = string

  datatype Response = Response(status: int, body: Text)

  datatype Request = Request(key: Text, body: Text)

  /** What a handler does: reply with a new state, or throw with a reason code. */
  datatype Ran = Replied(state: Snapshot, response: Response) | Raised(code: Text)

  /** The application: handlers, the state and reply a refusal leaves on the rolled-back state, the hash
      of a request and the state a new database starts from. */
  datatype App = App(
    handle: (Snapshot, Text) -> Ran,
    blocked: (Snapshot, Text) -> (Snapshot, Response),
    hash: Text -> Text)

  const INTERNAL_ERROR: Text := "INTERNAL_ERROR"

  datatype Row = Row(version: nat, value: Snapshot)

  datatype Record = Record(requestHash: Text, response: Response)

  datatype Database = Database(row: Option<Row>, idempotency: map<Text, Record>)

  /** The state and reply one run of a request gives: the handler's, or those of its refusal. */
  function Run(app: App, state: Snapshot, body: Text): (Snapshot, Response) {
    match app.handle(state, body)
    case Replied(next, response) => (next, response)
    case Raised(code) => app.blocked(state, code)
  }

  /** Where a request is.  `rollback` is the state its handler started from; `last` marks work done in the error
      handler, where an unexpected error ends the process. */
  datatype Phase =
    | Idle
    | Creating
    | Committing(request: Request, rollback: Snapshot, next: Snapshot, response: Response, last: bool, refused: bool)
    | Replaying(request: Request, rollback: Snapshot, stored: Response, last: bool)
    | Refreshing(request: Request, rollback: Snapshot, status: int, last: bool)

  datatype Server = Server(state: Snapshot, version: nat, phase: Phase)

  /** One committed mutation; `refused` marks the refusal committed after a database access that failed. */
  datatype Link = Link(request: Request, before: Snapshot, next: Snapshot, response: Response, refused: bool)

  /** What a client gets: the reply stored with a link, or an error reply that is not stored. */
  datatype Reply = Stored(key: Text, response: Response) | Failed(status: int)

  /** `links` and `initial` record what was committed; no code reads them. */
  datatype World = World(database: Database, servers: map<Sid, Server>, initial: Snapshot, links: seq<Link>)

  datatype Move =
    | Start(sid: Sid, freshState: Snapshot)
    | Receive(sid: Sid, request: Request, fault: bool)
    | Advance(sid: Sid, fault: bool)
    | Crash(sid: Sid)

  function With(w: World, sid: Sid, s: Server): World { w.(servers := w.servers[sid := s]) }

  function Without(w: World, sid: Sid): World { w.(servers := w.servers - {sid}) }

  /** Opening the store: the stored state, or a new one to be created. */
  function Opened(w: World, freshState: Snapshot): Server {
    if w.database.row.Some? then Server(w.database.row.value.value, w.database.row.value.version, Idle)
    else Server(freshState, 0, Creating)
  }

  function Create(w: World, sid: Sid, s: Server, fault: bool): World {
    if fault || w.database.row.Some? then Without(w, sid)
    else
      With(w.(database := w.database.(row := Some(Row(0, s.state))), initial := s.state), sid, s.(phase := Idle))
  }

  /** The replay lookup, and on a miss the run of the handler.  When the lookup itself fails, no handler
      has run: the error handler marks the request refused on the state as it is and commits that. */
  function Accept(app: App, w: World, s: Server, request: Request, fault: bool): (Server, Option<Reply>) {
    if fault then (s.(phase := Refusing(app, request, s.state)), None)
    else if request.key in w.database.idempotency then
      var record := w.database.idempotency[request.key];
      (s, Some(if record.requestHash == app.hash(request.body) then Stored(request.key, record.response) else Failed(409)))
    else
      var (next, response) := Run(app, s.state, request.body);
      (s.(phase := Committing(request, s.state, next, response, app.handle(s.state, request.body).Raised?, false)), None)
  }

  /** Committing the refusal of a request on a state. */
  function Refusing(app: App, request: Request, rollback: Snapshot): Phase {
    var (next, response) := app.blocked(rollback, INTERNAL_ERROR);
    Committing(request, rollback, next, response, true, true)
  }

  /** The transaction: replay, conflict, or compare-and-swap of the version with the idempotency record. */
  function Commit(app: App, w: World, sid: Sid, s: Server, fault: bool): (World, Option<Reply>)
    requires s.phase.Committing?
  {
    var ph := s.phase;
    var key, requestHash := ph.request.key, app.hash(ph.request.body);
    if fault then (With(w, sid, s.(phase := Refreshing(ph.request, ph.rollback, 503, ph.last))), None)
    else if key in w.database.idempotency then
      var record := w.database.idempotency[key];
      if record.requestHash != requestHash then
        (With(w, sid, s.(phase := Refreshing(ph.request, ph.rollback, 409, ph.last))), None)
      else (With(w, sid, s.(phase := Replaying(ph.request, ph.rollback, record.response, ph.last))), None)
    else if w.database.row.None? || w.database.row.value.version != s.version then
      (With(w, sid, s.(phase := Refreshing(ph.request, ph.rollback, 409, ph.last))), None)
    else
      var database := Database(Some(Row(s.version + 1, ph.next)), w.database.idempotency[key := Record(requestHash, ph.response)]);
      var link := Link(ph.request, ph.rollback, ph.next, ph.response, ph.refused);
      (With(w.(database := database, links := w.links + [link]), sid, Server(ph.next, s.version + 1, Idle)),
       Some(Stored(key, ph.response)))
  }

  /** Loading the authoritative state after a replay or an error. */
  function Load(app: App, w: World, sid: Sid, s: Server, fault: bool): (World, Option<Reply>)
    requires s.phase.Replaying? || s.phase.Refreshing?
  {
    var ph := s.phase;
    if !fault && w.database.row.Some? then
      (With(w, sid, Server(w.database.row.value.value, w.database.row.value.version, Idle)),
       Some(if ph.Replaying? then Stored(ph.request.key, ph.stored) else Failed(ph.status)))
    else if ph.Replaying? then (With(w, sid, s.(phase := Refreshing(ph.request, ph.rollback, 503, ph.last))), None)
    else if ph.last then (Without(w, sid), None)
    else
      // The error handler rolls back, marks the request refused and commits that instead.
      (With(w, sid, Server(ph.rollback, s.version, Refusing(app, ph.request, ph.rollback))), None)
  }

  function Next(app: App, w: World, move: Move): (World, Option<Reply>) {
    match move
    case Start(sid, freshState) => if sid in w.servers then (w, None) else (With(w, sid, Opened(w, freshState)), None)
    case Receive(sid, request, fault) =>
      if sid in w.servers && w.servers[sid].phase.Idle? then
        var (s, reply) := Accept(app, w, w.servers[sid], request, fault);
        (With(w, sid, s), reply)
      else (w, None)
    case Advance(sid, fault) =>
      if sid !in w.servers || w.servers[sid].phase.Idle? then (w, None)
      else if w.servers[sid].phase.Creating? then (Create(w, sid, w.servers[sid], fault), None)
      else if w.servers[sid].phase.Committing? then Commit(app, w, sid, w.servers[sid], fault)
      else Load(app, w, sid, w.servers[sid], fault)
    case Crash(sid) => (Without(w, sid), None)
  }

  const EmptyWorld := World(Database(None, map[]), map[], "", [])

  function After(app: App, w: World, moves: seq<Move>): World
    decreases |moves|
  {
    if moves == [] then w else Next(app, After(app, w, moves[..|moves| - 1]), moves[|moves| - 1]).0
  }

  // ---------- the relation ----------

  /** The state of a version: the initial one, or what the link before it left. */
  function StateAt(w: World, version: nat): Snapshot
    requires version <= |w.links|
  {
    if version == 0 then w.initial else w.links[version - 1].next
  }

  /** Version v + 1 is one run on exactly version v's state. */
  predicate LinkOk(app: App, w: World, v: nat)
    requires v < |w.links|
  {
    var l := w.links[v];
    && l.before == StateAt(w, v)
    && (l.next, l.response) == (if l.refused then app.blocked(l.before, INTERNAL_ERROR) else Run(app, l.before, l.request.body))
  }

  ghost predicate DatabaseOk(app: App, w: World) {
    && (w.database.row.None? ==> w.links == [] && w.database.idempotency == map[])
    && (w.database.row.Some? ==> w.database.row.value == Row(|w.links|, StateAt(w, |w.links|)))
    && (forall v :: 0 <= v < |w.links| ==> LinkOk(app, w, v))
    && (forall v :: 0 <= v < |w.links| ==> Recorded(app, w, v))
    && (forall key <- w.database.idempotency :: exists v :: 0 <= v < |w.links| && w.links[v].request.key == key)
    && (forall u, v :: 0 <= u < v < |w.links| ==> w.links[u].request.key != w.links[v].request.key)
  }

  predicate Recorded(app: App, w: World, v: nat)
    requires v < |w.links|
  {
    var l := w.links[v];
    l.request.key in w.database.idempotency
    && w.database.idempotency[l.request.key] == Record(app.hash(l.request.body), l.response)
  }

  predicate ServerOk(app: App, w: World, s: Server) {
    if s.phase.Creating? then s.version == 0
    else
      && w.database.row.Some? && s.version <= |w.links| && s.state == StateAt(w, s.version)
      && PhaseOk(app, w, s.state, s.phase)
  }

  predicate PhaseOk(app: App, w: World, state: Snapshot, ph: Phase) {
    match ph
    case Idle => true
    case Creating => true
    case Committing(request, rollback, next, response, _, refused) =>
      rollback == state
      && (next, response) == (if refused then app.blocked(rollback, INTERNAL_ERROR) else Run(app, rollback, request.body))
    case Replaying(request, rollback, stored, _) => rollback == state && Committed(app, w, request, stored)
    case Refreshing(_, rollback, _, _) => rollback == state
  }

  /** The reply stored with the one link of this key, whose request has the same hash. */
  predicate Committed(app: App, w: World, request: Request, response: Response) {
    exists v :: 0 <= v < |w.links| && w.links[v].request.key == request.key
                && app.hash(w.links[v].request.body) == app.hash(request.body) && w.links[v].response == response
  }

  ghost predicate Inv(app: App, w: World) {
    DatabaseOk(app, w) && forall sid <- w.servers :: ServerOk(app, w, w.servers[sid])
  }

  /** The links of w' extend those of w. */
  predicate Extends(w: World, w': World) {
    && w.links <= w'.links
    && (w.database.row.Some? ==> w'.database.row.Some? && w'.initial == w.initial)
  }

  lemma StateStays(w: World, w': World, version: nat)
    requires Extends(w, w') && w.database.row.Some? && version <= |w.links|
    ensures StateAt(w', version) == StateAt(w, version)
  {
  }

  lemma ServerStays(app: App, w: World, w': World, s: Server)
    requires Extends(w, w') && ServerOk(app, w, s)
    ensures ServerOk(app, w', s)
  {
    hide Run;
    if !s.phase.Creating? {
      StateStays(w, w', s.version);
      if s.phase.Replaying? {
        var v :| 0 <= v < |w.links| && w.links[v].request.key == s.phase.request.key
                 && app.hash(w.links[v].request.body) == app.hash(s.phase.request.body) && w.links[v].response == s.phase.stored;
        assert w'.links[v] == w.links[v];
      }
    }
  }

  lemma SameDatabaseOk(app: App, w: World, w': World)
    requires DatabaseOk(app, w) && w'.database == w.database && w'.links == w.links && w'.initial == w.initial
    ensures DatabaseOk(app, w')
  {
    hide Run;
    forall v | 0 <= v < |w'.links| ensures LinkOk(app, w', v) && Recorded(app, w', v) {
      assert LinkOk(app, w, v) && Recorded(app, w, v);
    }
  }

  /** One server moves on; the database may have grown. */
  lemma ServerMoves(app: App, w: World, w': World, sid: Sid)
    requires Inv(app, w) && DatabaseOk(app, w') && Extends(w, w')
    requires w'.servers.Keys <= w.servers.Keys + {sid}
    requires forall q <- w'.servers :: q != sid ==> w'.servers[q] == w.servers[q]
    requires sid in w'.servers ==> ServerOk(app, w', w'.servers[sid])
    ensures Inv(app, w')
  {
    hide DatabaseOk, ServerOk;
    forall q | q in w'.servers ensures ServerOk(app, w', w'.servers[q]) {
      if q != sid { ServerStays(app, w, w', w.servers[q]); }
    }
  }

  /** A committed link extends the chain by one run on the latest version's state. */
  lemma LinkedOk(app: App, w: World, s: Server, w': World)
    requires DatabaseOk(app, w) && ServerOk(app, w, s) && s.phase.Committing?
    requires var ph := s.phase;
             && ph.request.key !in w.database.idempotency && w.database.row.Some? && w.database.row.value.version == s.version
             && w'.links == w.links + [Link(ph.request, ph.rollback, ph.next, ph.response, ph.refused)] && w'.initial == w.initial
             && w'.database == Database(Some(Row(s.version + 1, ph.next)),
                                        w.database.idempotency[ph.request.key := Record(app.hash(ph.request.body), ph.response)])
    ensures DatabaseOk(app, w') && Extends(w, w') && ServerOk(app, w', Server(s.phase.next, s.version + 1, Idle))
  {
    hide Run;
    var n := |w.links|;
    forall v | 0 <= v < |w'.links| ensures LinkOk(app, w', v) && Recorded(app, w', v) {
      if v < n {
        assert LinkOk(app, w, v) && Recorded(app, w, v);
        StateStays(w, w', v);
      } else {
        StateStays(w, w', n);
      }
    }
    forall key | key in w'.database.idempotency ensures exists v :: 0 <= v < |w'.links| && w'.links[v].request.key == key {
      if key in w.database.idempotency {
        var v :| 0 <= v < |w.links| && w.links[v].request.key == key;
        assert w'.links[v].request.key == key;
      } else {
        assert w'.links[n].request.key == key;
      }
    }
    forall v | 0 <= v < n ensures w'.links[v].request.key != w'.links[n].request.key { assert Recorded(app, w, v); }
  }

  lemma CommitKeepsInv(app: App, w: World, sid: Sid, fault: bool)
    requires Inv(app, w) && sid in w.servers && w.servers[sid].phase.Committing?
    ensures Inv(app, Commit(app, w, sid, w.servers[sid], fault).0)
    ensures Extends(w, Commit(app, w, sid, w.servers[sid], fault).0)
  {
    hide DatabaseOk, Run, StateAt;
    var s := w.servers[sid];
    var w' := Commit(app, w, sid, s, fault).0;
    if w'.database != w.database || w'.links != w.links {
      hide ServerOk;
      LinkedOk(app, w, s, w');
    } else {
      SameDatabaseOk(app, w, w');
      StateStays(w, w', s.version);
      if w'.servers[sid].phase.Replaying? {
        RecordedIsCommitted(app, w, s.phase.request);
        SameLinksCommitted(app, w, w', s.phase.request, w'.servers[sid].phase.stored);
      }
    }
    ServerMoves(app, w, w', sid);
  }

  lemma RecordedIsCommitted(app: App, w: World, request: Request)
    requires DatabaseOk(app, w) && request.key in w.database.idempotency
    requires w.database.idempotency[request.key].requestHash == app.hash(request.body)
    ensures Committed(app, w, request, w.database.idempotency[request.key].response)
  {
    hide Run;
    var v :| 0 <= v < |w.links| && w.links[v].request.key == request.key;
    assert Recorded(app, w, v);
  }

  lemma LoadKeepsInv(app: App, w: World, sid: Sid, fault: bool)
    requires Inv(app, w) && sid in w.servers && (w.servers[sid].phase.Replaying? || w.servers[sid].phase.Refreshing?)
    ensures Inv(app, Load(app, w, sid, w.servers[sid], fault).0)
    ensures Extends(w, Load(app, w, sid, w.servers[sid], fault).0)
  {
    hide DatabaseOk, Run, Committed;
    var w' := Load(app, w, sid, w.servers[sid], fault).0;
    SameDatabaseOk(app, w, w');
    RowIsLatest(app, w);
    ServerMoves(app, w, w', sid);
  }

  lemma RowIsLatest(app: App, w: World)
    requires DatabaseOk(app, w)
    ensures w.database.row.Some? ==> w.database.row.value == Row(|w.links|, StateAt(w, |w.links|))
  {
    hide Run;
  }

  lemma CreateKeepsInv(app: App, w: World, sid: Sid, fault: bool)
    requires Inv(app, w) && sid in w.servers && w.servers[sid].phase.Creating?
    ensures Inv(app, Create(w, sid, w.servers[sid], fault)) && Extends(w, Create(w, sid, w.servers[sid], fault))
  {
    hide Run;
    var w' := Create(w, sid, w.servers[sid], fault);
    if w'.database == w.database { SameDatabaseOk(app, w, w'); }
    ServerMoves(app, w, w', sid);
  }

  /** Every move keeps the relation, and what is committed is never rewritten. */
  lemma NextKeepsInv(app: App, w: World, move: Move)
    requires Inv(app, w)
    ensures Inv(app, Next(app, w, move).0) && Extends(w, Next(app, w, move).0)
  {
    hide DatabaseOk, Run, Commit, Load, Create, Committed;
    match move
    case Start(sid, freshState) =>
      var w' := Next(app, w, move).0;
      RowIsLatest(app, w);
      SameDatabaseOk(app, w, w');
      ServerMoves(app, w, w', sid);
    case Receive(sid, request, _) =>
      var w' := Next(app, w, move).0;
      SameDatabaseOk(app, w, w');
      ServerMoves(app, w, w', sid);
    case Crash(sid) =>
      SameDatabaseOk(app, w, Without(w, sid));
      ServerMoves(app, w, Without(w, sid), sid);
    case Advance(sid, fault) =>
      if sid in w.servers {
        match w.servers[sid].phase
        case Idle =>
        case Creating => CreateKeepsInv(app, w, sid, fault);
        case Committing(_, _, _, _, _, _) => CommitKeepsInv(app, w, sid, fault);
        case Replaying(_, _, _, _) => LoadKeepsInv(app, w, sid, fault);
        case Refreshing(_, _, _, _) => LoadKeepsInv(app, w, sid, fault);
      }
  }

  lemma {:induction false} RunKeepsInv(app: App, w: World, moves: seq<Move>)
    requires Inv(app, w)
    ensures Inv(app, After(app, w, moves)) && w.links <= After(app, w, moves).links
    decreases |moves|
  {
    hide Inv, Next;
    if moves != [] {
      RunKeepsInv(app, w, moves[..|moves| - 1]);
      NextKeepsInv(app, After(app, w, moves[..|moves| - 1]), moves[|moves| - 1]);
    }
  }

  // ---------- what every run guarantees ----------

  lemma EmptyInv(app: App)
    ensures Inv(app, EmptyWorld)
  {
  }

  /** For any number of servers and any interleaving, crash or database error, the committed snapshots
      form one chain: version v + 1 is one run on exactly version v's state, the database holds the end
      of the chain, and each idempotency key contributes at most one link. */
  lemma CommittedVersionsFormOneChain(app: App, moves: seq<Move>)
    ensures var w := After(app, EmptyWorld, moves);
            && (w.database.row.Some? ==> w.database.row.value == Row(|w.links|, StateAt(w, |w.links|)))
            && (forall v :: 0 <= v < |w.links| ==> LinkOk(app, w, v))
            && (forall u, v :: 0 <= u < v < |w.links| ==> w.links[u].request.key != w.links[v].request.key)
  {
    hide Run, ServerOk, Next;
    EmptyInv(app);
    RunKeepsInv(app, EmptyWorld, moves);
  }

  /** Every stored reply a client gets, first time or replay, is the one stored with the single link of
      its key, for a request of the same hash. */
  lemma RepliesAreTheStoredOnes(app: App, w: World, move: Move)
    requires Inv(app, w)
    ensures var (w', reply) := Next(app, w, move);
            reply.Some? && reply.value.Stored? ==>
              exists body :: Committed(app, w', Request(reply.value.key, body), reply.value.response)
                             && AskedBy(w, move, Request(reply.value.key, body))
  {
    hide Run, LinkOk, Committed;
    var (w', reply) := Next(app, w, move);
    if reply.Some? && reply.value.Stored? {
      match move
      case Receive(sid, request, _) =>
        RecordedIsCommitted(app, w, request);
        SameLinksCommitted(app, w, w', request, reply.value.response);
        assert AskedBy(w, move, Request(reply.value.key, request.body));
      case Advance(sid, fault) =>
        var request := w.servers[sid].phase.request;
        StoredByServer(app, w, sid, fault);
        assert AskedBy(w, move, Request(reply.value.key, request.body));
    }
  }

  /** The request a move works on. */
  predicate AskedBy(w: World, move: Move, request: Request) {
    match move
    case Receive(_, r, _) => r == request
    case Advance(sid, _) =>
      sid in w.servers && (match w.servers[sid].phase
                           case Committing(r, _, _, _, _, _) => r == request
                           case Replaying(r, _, _, _) => r == request
                           case _ => false)
    case _ => false
  }

  lemma SameLinksCommitted(app: App, w: World, w': World, request: Request, response: Response)
    requires Committed(app, w, request, response) && w'.links == w.links
    ensures Committed(app, w', request, response)
  {
  }

  lemma StoredByServer(app: App, w: World, sid: Sid, fault: bool)
    requires Inv(app, w) && sid in w.servers && !w.servers[sid].phase.Idle? && !w.servers[sid].phase.Creating?
    requires Next(app, w, Advance(sid, fault)).1.Some? && Next(app, w, Advance(sid, fault)).1.value.Stored?
    ensures var (w', reply) := Next(app, w, Advance(sid, fault));
            && reply.value.key == w.servers[sid].phase.request.key
            && Committed(app, w', w.servers[sid].phase.request, reply.value.response)
  {
    hide Run, DatabaseOk, StateAt;
    var s := w.servers[sid];
    assert ServerOk(app, w, s);
    var (w', reply) := Next(app, w, Advance(sid, fault));
    if s.phase.Committing? {
      assert w'.links[|w.links|].request == s.phase.request;
    } else {
      SameLinksCommitted(app, w, w', s.phase.request, reply.value.response);
    }
  }

  // ---------- what a request is answered with ----------

  /** A request that repeats a committed one on an idle server is answered with the stored reply when its hash
      is the same, and with a conflict when it is not, and changes nothing. */
  lemma RepeatIsAnswered(app: App, w: World, sid: Sid, request: Request, v: nat)
    requires Inv(app, w) && sid in w.servers && w.servers[sid].phase.Idle?
    requires v < |w.links| && w.links[v].request.key == request.key
    ensures Next(app, w, Receive(sid, request, false))
         == (w, Some(if app.hash(request.body) == app.hash(w.links[v].request.body) then Stored(request.key, w.links[v].response)
                     else Failed(409)))
  {
    hide Run, ServerOk, StateAt;
    assert Recorded(app, w, v);
    assert w.servers[sid := w.servers[sid]] == w.servers;
  }

  /** The three moves of a request that nobody disturbs: the lookup, the transaction and, if that did not
      commit, the reload. */
  function Undisturbed(app: App, w: World, sid: Sid, request: Request): (World, Option<Reply>) {
    var (w1, first) := Next(app, w, Receive(sid, request, false));
    if first.Some? then (w1, first)
    else
      var (w2, second) := Next(app, w1, Advance(sid, false));
      if second.Some? then (w2, second) else Next(app, w2, Advance(sid, false))
  }

  /** A new request on a server at the latest version, undisturbed, runs its handler on that version's state,
      commits one link and is answered with the reply stored with it. */
  lemma FirstRequestCommits(app: App, w: World, sid: Sid, request: Request)
    requires Inv(app, w) && sid in w.servers && w.servers[sid].phase.Idle? && w.servers[sid].version == |w.links|
    requires forall v :: 0 <= v < |w.links| ==> w.links[v].request.key != request.key
    ensures var (w', reply) := Undisturbed(app, w, sid, request);
            var before := StateAt(w, |w.links|);
            var (next, response) := match app.handle(before, request.body)
                                    case Replied(state, r) => (state, r)
                                    case Raised(code) => app.blocked(before, code);
            && reply == Some(Stored(request.key, response))
            && w'.links == w.links + [Link(request, before, next, response, false)]
            && w'.database.row == Some(Row(|w.links| + 1, next))
            && w'.database.idempotency == w.database.idempotency[request.key := Record(app.hash(request.body), response)]
            && w'.servers == w.servers[sid := Server(next, |w.links| + 1, Idle)]
  {
    hide LinkOk, Recorded;
    var s := w.servers[sid];
    assert ServerOk(app, w, s);
    UnusedKey(app, w, request.key);
    var w1 := Next(app, w, Receive(sid, request, false)).0;
    assert w1.servers[sid := s] == w.servers[sid := s];
  }

  lemma UnusedKey(app: App, w: World, key: Text)
    requires DatabaseOk(app, w) && forall v :: 0 <= v < |w.links| ==> w.links[v].request.key != key
    ensures key !in w.database.idempotency
  {
    hide LinkOk, Recorded;
  }

  /** A new request on a server behind the latest version, undisturbed, commits nothing: it is answered with a
      conflict, and its server is then at the latest version. */
  lemma StaleRequestRefreshes(app: App, w: World, sid: Sid, request: Request)
    requires Inv(app, w) && sid in w.servers && w.servers[sid].phase.Idle? && w.servers[sid].version < |w.links|
    requires forall v :: 0 <= v < |w.links| ==> w.links[v].request.key != request.key
    ensures var (w', reply) := Undisturbed(app, w, sid, request);
            && reply == Some(Failed(409)) && w'.links == w.links && w'.database == w.database
            && w'.servers == w.servers[sid := Server(StateAt(w, |w.links|), |w.links|, Idle)]
  {
    hide LinkOk, Recorded, Run;
    UnusedKey(app, w, request.key);
    RowIsLatest(app, w);
  }

  /** A transaction that fails for another reason is answered as unavailable once the reload succeeds, with
      nothing committed and the server at the latest version. */
  lemma FailedCommitRefreshes(app: App, w: World, sid: Sid)
    requires Inv(app, w) && sid in w.servers && w.servers[sid].phase.Committing?
    ensures var (w1, first) := Next(app, w, Advance(sid, true));
            var (w2, second) := Next(app, w1, Advance(sid, false));
            && first.None? && second == Some(Failed(503)) && w2.links == w.links && w2.database == w.database
            && w2.servers == w.servers[sid := Server(StateAt(w, |w.links|), |w.links|, Idle)]
  {
    hide LinkOk, Recorded, Run;
    RowIsLatest(app, w);
    assert ServerOk(app, w, w.servers[sid]);
  }

  /** A request whose key was committed between its lookup and its transaction is answered with that reply, or
      with a conflict, once the reload succeeds. */
  lemma OvertakenIsReplayed(app: App, w: World, sid: Sid, v: nat)
    requires Inv(app, w) && sid in w.servers && w.servers[sid].phase.Committing?
    requires v < |w.links| && w.links[v].request.key == w.servers[sid].phase.request.key
    ensures var request := w.servers[sid].phase.request;
            var (w1, first) := Next(app, w, Advance(sid, false));
            var (w2, second) := Next(app, w1, Advance(sid, false));
            && first.None? && w2.links == w.links && w2.database == w.database
            && second == Some(if app.hash(request.body) == app.hash(w.links[v].request.body) then Stored(request.key, w.links[v].response)
                              else Failed(409))
            && w2.servers == w.servers[sid := Server(StateAt(w, |w.links|), |w.links|, Idle)]
  {
    hide LinkOk, Run;
    assert Recorded(app, w, v);
    RowIsLatest(app, w);
    hide Recorded;
  }

  /** When the lookup fails, or the transaction and the reload both do, the refusal of the request is what the
      next transaction commits; when that fails twice as well the server ends. */
  lemma DoubleFaultRefuses(app: App, w: World, sid: Sid, request: Request)
    requires Inv(app, w) && sid in w.servers
    ensures w.servers[sid].phase.Idle? ==>
              var (w', reply) := Next(app, w, Receive(sid, request, true));
              var (next, response) := app.blocked(w.servers[sid].state, "INTERNAL_ERROR");
              reply.None? && w'.database == w.database
              && w'.servers == w.servers[sid := w.servers[sid].(
                   phase := Committing(request, w.servers[sid].state, next, response, true, true))]
    ensures w.servers[sid].phase.Committing? ==>
              var ph := w.servers[sid].phase;
              var w1 := Next(app, w, Advance(sid, true)).0;
              var (w2, reply) := Next(app, w1, Advance(sid, true));
              var (next, response) := app.blocked(ph.rollback, "INTERNAL_ERROR");
              && reply.None? && w2.database == w.database
              && (if ph.last then w2.servers == w.servers - {sid}
                  else w2.servers == w.servers[sid := w.servers[sid].(
                         phase := Committing(ph.request, ph.rollback, next, response, true, true))])
  {
    hide LinkOk, Recorded, Run, DatabaseOk;
    assert ServerOk(app, w, w.servers[sid]);
  }

  /** A reload that fails answers nobody and writes nothing.  After a replay it is tried once more, to answer as
      unavailable; otherwise the server rolls back and commits the refusal, or ends if that was its last try. */
  lemma FailedReload(app: App, w: World, sid: Sid)
    requires Inv(app, w) && sid in w.servers && (w.servers[sid].phase.Replaying? || w.servers[sid].phase.Refreshing?)
    ensures var s := w.servers[sid];
            var ph := s.phase;
            var (w', reply) := Next(app, w, Advance(sid, true));
            var (next, response) := app.blocked(ph.rollback, "INTERNAL_ERROR");
            && reply.None? && w'.database == w.database && w'.links == w.links
            && w'.servers == (if ph.Replaying? then w.servers[sid := s.(phase := Refreshing(ph.request, ph.rollback, 503, ph.last))]
                              else if ph.last then w.servers - {sid}
                              else w.servers[sid := Server(ph.rollback, s.version, Committing(ph.request, ph.rollback, next, response, true, true))])
  {
    hide LinkOk, Recorded, Run, DatabaseOk, PhaseOk;
  }

  /** A server that starts on a new database creates version 0 from its own state; one that starts later holds
      the latest version at once. */
  lemma StartingHolds(app: App, w: World, sid: Sid, freshState: Snapshot)
    requires Inv(app, w) && sid !in w.servers
    ensures var w1 := Next(app, w, Start(sid, freshState)).0;
            && (w.database.row.Some? ==>
                  w1.database == w.database && w1.servers == w.servers[sid := Server(StateAt(w, |w.links|), |w.links|, Idle)])
            && (w.database.row.None? ==>
                  var w2 := Next(app, w1, Advance(sid, false)).0;
                  w2.database.row == Some(Row(0, freshState)) && w2.initial == freshState && w2.links == []
                  && w2.servers == w.servers[sid := Server(freshState, 0, Idle)])
  {
    hide LinkOk, Recorded, Run;
    RowIsLatest(app, w);
  }

  /** Only a server whose state is the latest version commits: a stale server is refused. */
  lemma StaleServersNeverCommit(app: App, w: World, move: Move)
    requires Inv(app, w)
    ensures var w' := Next(app, w, move).0;
            w'.links == w.links
            || (move.Advance? && move.sid in w.servers && w.servers[move.sid].version == |w.links|
                && w.servers[move.sid].state == StateAt(w, |w.links|) && |w'.links| == |w.links| + 1)
  {
    hide Run, LinkOk, Recorded, PhaseOk;
  }

  /** After a request is answered, its server is up to date with what it answered from: it holds the
      state of some committed version, the one it will compare against next. */
  lemma IdleServersHoldAVersion(app: App, moves: seq<Move>, sid: Sid)
    ensures var w := After(app, EmptyWorld, moves);
            sid in w.servers && w.servers[sid].phase.Idle? ==>
              w.servers[sid].version <= |w.links| && w.servers[sid].state == StateAt(w, w.servers[sid].version)
  {
    hide Run, DatabaseOk, Next;
    EmptyInv(app);
    RunKeepsInv(app, EmptyWorld, moves);
  }
}
