/** The persistence core of one lab server as the class it runs: it reassigns its state and version,
    runs handlers, commits through the durable store and recovers from errors.  Each method is tied to
    the moves of module LabPersistence it makes on the shared database. */
module LabServer {
  import opened Wrappers
  import DurableStore
  import opened LabPersistence

  const LAB_SNAPSHOT_ID := "realtime-lab:simulator-state"
  const LAB_SNAPSHOT_STATUS := "active"
  const IDEMPOTENCY_SCOPE := "realtime-lab:http:v1"

  type LabStore = DurableStore.Store<Response>

  /** The lab's part of the store's tables. */
  ghost function DatabaseOf(t: DurableStore.Tables<Response>): Database {
    Database(
      if LAB_SNAPSHOT_ID in t.challenges && t.challenges[LAB_SNAPSHOT_ID].status == LAB_SNAPSHOT_STATUS then
        Some(Row(t.challenges[LAB_SNAPSHOT_ID].version, t.challenges[LAB_SNAPSHOT_ID].value))
      else None,
      map key | key in (set k | k in t.idempotency && k.0 == IDEMPOTENCY_SCOPE :: k.1)
        :: Record(t.idempotency[(IDEMPOTENCY_SCOPE, key)].requestHash, t.idempotency[(IDEMPOTENCY_SCOPE, key)].response))
  }

  /** The snapshot row, once there, keeps its status. */
  predicate StatusOk(t: DurableStore.Tables<Response>) {
    LAB_SNAPSHOT_ID in t.challenges ==> t.challenges[LAB_SNAPSHOT_ID].status == LAB_SNAPSHOT_STATUS
  }

  lemma RecordsSeen(t: DurableStore.Tables<Response>, key: Text)
    ensures key in DatabaseOf(t).idempotency <==> (IDEMPOTENCY_SCOPE, key) in t.idempotency
    ensures (IDEMPOTENCY_SCOPE, key) in t.idempotency ==>
              DatabaseOf(t).idempotency[key]
                == Record(t.idempotency[(IDEMPOTENCY_SCOPE, key)].requestHash, t.idempotency[(IDEMPOTENCY_SCOPE, key)].response)
  {
    if (IDEMPOTENCY_SCOPE, key) in t.idempotency {
      assert (IDEMPOTENCY_SCOPE, key) in t.idempotency && (IDEMPOTENCY_SCOPE, key).0 == IDEMPOTENCY_SCOPE;
    }
  }

  /** The swap the lab commits inside the idempotent transaction. */
  function SwapOperation(version: nat, next: Snapshot, response: Response, now: int): DurableStore.Operation<Response> {
    (t: DurableStore.Tables<Response>) =>
      var swapped := DurableStore.Swapped(t, LAB_SNAPSHOT_ID, version, LAB_SNAPSHOT_STATUS, LAB_SNAPSHOT_STATUS, next, now);
      if swapped.Ok? then (swapped.value, Ok(response)) else (t, Err(swapped.error))
  }

  /** What the transaction leaves in the lab's part of the tables. */
  lemma SwapSeen(t: DurableStore.Tables<Response>, key: Text, requestHash: Text, version: nat, next: Snapshot, response: Response, now: int)
    requires StatusOk(t)
    ensures var (t', r) := DurableStore.RanOnce(t, IDEMPOTENCY_SCOPE, key, requestHash, SwapOperation(version, next, response, now));
            var d, d' := DatabaseOf(t), DatabaseOf(t');
            && StatusOk(t')
            && (if key in d.idempotency then
                  t' == t && r == (if d.idempotency[key].requestHash != requestHash then Err(DurableStore.KeyReused)
                                   else Ok((true, d.idempotency[key].response)))
                else if d.row.None? || d.row.value.version != version then t' == t && r == Err(DurableStore.SwapConflict)
                else r == Ok((false, response))
                     && d' == Database(Some(Row(version + 1, next)), d.idempotency[key := Record(requestHash, response)]))
  {
    RecordsSeen(t, key);
    var (t', r) := DurableStore.RanOnce(t, IDEMPOTENCY_SCOPE, key, requestHash, SwapOperation(version, next, response, now));
    if r == Ok((false, response)) && (IDEMPOTENCY_SCOPE, key) !in t.idempotency {
      forall k ensures (k in DatabaseOf(t').idempotency <==> k in DatabaseOf(t).idempotency || k == key)
                    && (k in DatabaseOf(t').idempotency ==>
                          DatabaseOf(t').idempotency[k] == if k == key then Record(requestHash, response) else DatabaseOf(t).idempotency[k])
      {
        RecordsSeen(t, k);
        RecordsSeen(t', k);
      }
      assert DatabaseOf(t').idempotency == DatabaseOf(t).idempotency[key := Record(requestHash, response)];
    }
  }

  /** A request's remaining database accesses, the k-th failing as f(k) says. */
  function Proceed(app: App, w: World, sid: Sid, f: nat -> bool, k: nat): (World, Option<Reply>)
    decreases 6 - k
  {
    if k >= 6 || sid !in w.servers || w.servers[sid].phase.Idle? then (w, None)
    else
      var (w1, reply) := Next(app, w, Advance(sid, f(k)));
      if reply.Some? then (w1, reply) else Proceed(app, w1, sid, f, k + 1)
  }

  /** How persisting a response ends: a reply for the client, or an error the handler has to deal with. */
  datatype Saved = Answered(reply: Reply) | RawError

  class Server {
    const app: App
    const store: LabStore
    var state: Snapshot
    var persistedVersion: nat

    constructor (app: App, store: LabStore, state: Snapshot, version: nat)
      ensures this.app == app && this.store == store && this.state == state && persistedVersion == version
    {
      this.app, this.store, this.state, persistedVersion := app, store, state, version;
    }

    /** The world with this server in the given phase. */
    ghost function Seen(sid: Sid, phase: Phase, w: World): World
      reads this, store
    {
      World(DatabaseOf(store.Abs()), w.servers[sid := LabPersistence.Server(state, persistedVersion, phase)], w.initial, w.links)
    }

    ghost predicate Ready()
      reads store
    {
      StatusOk(store.Abs()) && !store.inTransaction
    }

    /** Loads the authoritative state; a fault leaves everything as it was. */
    method Reload(fault: bool) returns (ok: bool)
      modifies this
      ensures var row := DatabaseOf(store.Abs()).row;
              if !fault && row.Some? then ok && state == row.value.value && persistedVersion == row.value.version
              else !ok && state == old(state) && persistedVersion == old(persistedVersion)
      requires Ready()
    {
      if fault { return false; }
      var current := store.Get(LAB_SNAPSHOT_ID);
      if current.None? { return false; }
      state := current.value.value;
      persistedVersion := current.value.version;
      return true;
    }

    /** The refresh after an error, with the status to report. */
    method Refresh(request: Request, rollback: Snapshot, status: int, last: bool, fault: bool, ghost sid: Sid, ghost w: World)
      returns (saved: Saved, ghost w': World)
      requires Ready() && state == rollback && Seen(sid, Refreshing(request, rollback, status, last), w) == w
      modifies this
      ensures Ready()
      ensures var (next, reply) := Next(app, w, Advance(sid, fault));
              && w' == next
              && (saved.Answered? ==> reply == Some(saved.reply) && w' == Seen(sid, Idle, w))
              && (saved.RawError? ==> reply == None && state == rollback && persistedVersion == old(persistedVersion))
    {
      w' := Next(app, w, Advance(sid, fault)).0;
      var ok := Reload(fault);
      return if ok then Answered(Failed(status)) else RawError, w';
    }

    /** What an error nobody answered leaves: the first time the refusal to commit, the last time nothing. */
    ghost predicate Unanswered(w': World, w: World, rollback: Snapshot, last: bool, request: Request, sid: Sid)
      reads this, store
    {
      var refused := app.blocked(rollback, INTERNAL_ERROR);
      && state == rollback
      && w'.database == DatabaseOf(store.Abs()) && w'.initial == w.initial && w'.links == w.links
      && w'.servers == (if last then w.servers - {sid}
                        else (w.servers - {sid})[sid := LabPersistence.Server(rollback, persistedVersion,
                               Committing(request, rollback, refused.0, refused.1, true, true))])
    }

    /** The refresh as the next access of a request. */
    method RefreshAt(
      request: Request, rollback: Snapshot, status: int, last: bool, f: nat -> bool, k: nat, ghost sid: Sid, ghost w: World)
      returns (saved: Saved, ghost w': World)
      requires Ready() && state == rollback && k < 6 && Seen(sid, Refreshing(request, rollback, status, last), w) == w
      modifies this
      ensures Ready()
      ensures saved.Answered? ==> Proceed(app, w, sid, f, k) == (w', Some(saved.reply)) && w' == Seen(sid, Idle, w')
      ensures saved.RawError? ==>
                && Proceed(app, w, sid, f, k) == Proceed(app, w', sid, f, k + 1)
                && Unanswered(w', w, rollback, last, request, sid) && persistedVersion == old(persistedVersion)
    {
      hide DatabaseOf, Proceed;
      ghost var w1 := Stepped(w, sid, f, k);
      saved, w' := Refresh(request, rollback, status, last, f(k), sid, w);
    }

    /** After a replay: load the state it was committed with, or a later one. */
    method FinishReplay(
      request: Request, rollback: Snapshot, stored: Response, last: bool, f: nat -> bool, k: nat, ghost sid: Sid, ghost w: World)
      returns (saved: Saved, used: nat, ghost w': World)
      requires Ready() && state == rollback && k < 5 && Seen(sid, Replaying(request, rollback, stored, last), w) == w
      modifies this
      ensures Ready() && 1 <= used <= 2
      ensures saved.Answered? ==> Proceed(app, w, sid, f, k) == (w', Some(saved.reply)) && w' == Seen(sid, Idle, w')
      ensures saved.RawError? ==>
                && Proceed(app, w, sid, f, k) == Proceed(app, w', sid, f, k + used)
                && Unanswered(w', w, rollback, last, request, sid) && persistedVersion == old(persistedVersion)
    {
      hide DatabaseOf, Proceed;
      w' := Stepped(w, sid, f, k);
      var ok := Reload(f(k));
      used := 1;
      if ok {
        saved := Answered(Stored(request.key, stored));
      } else {
        ghost var w1 := w';
        saved, w' := RefreshAt(request, rollback, 503, last, f, k + 1, sid, w');
        used := 2;
        SameUnanswered(w', w1, w, rollback, last, request, sid);
      }
    }

    /** The transaction and what follows it. */
    method PersistResponse(
      request: Request, rollback: Snapshot, next: Snapshot, response: Response, last: bool, refused: bool, now: int, f: nat -> bool, k: nat,
      ghost sid: Sid, ghost w: World) returns (saved: Saved, used: nat, ghost w': World)
      requires Ready() && state == rollback && k <= 3
      requires Seen(sid, Committing(request, rollback, next, response, last, refused), w) == w
      modifies this, store
      ensures Ready() && 1 <= used <= 3
      ensures saved.Answered? ==> Proceed(app, w, sid, f, k) == (w', Some(saved.reply)) && w' == Seen(sid, Idle, w')
      ensures saved.RawError? ==>
                && Proceed(app, w, sid, f, k) == Proceed(app, w', sid, f, k + used)
                && Unanswered(w', w, rollback, last, request, sid) && persistedVersion == old(persistedVersion)
    {
      hide DatabaseOf, DurableStore.RanOnce, SwapOperation, Proceed, Unanswered;
      w' := Stepped(w, sid, f, k);
      ghost var w1 := w';
      var requestHash := app.hash(request.body);
      SwapSeen(store.Abs(), request.key, requestHash, persistedVersion, next, response, now);
      if f(k) {
        saved, w' := RefreshAt(request, rollback, 503, last, f, k + 1, sid, w');
        used := 2;
        SameUnanswered(w', w1, w, rollback, last, request, sid);
        return;
      }
      var result := store.RunIdempotent(
        IDEMPOTENCY_SCOPE, request.key, requestHash, SwapOperation(persistedVersion, next, response, now));
      if result.Err? {
        saved, w' := RefreshAt(request, rollback, 409, last, f, k + 1, sid, w');
        used := 2;
        SameUnanswered(w', w1, w, rollback, last, request, sid);
      } else if result.value.0 {
        saved, used, w' := FinishReplay(request, rollback, result.value.1, last, f, k + 1, sid, w');
        used := used + 1;
        SameUnanswered(w', w1, w, rollback, last, request, sid);
      } else {
        state := next;
        persistedVersion := persistedVersion + 1;
        used := 1;
        saved := Answered(Stored(request.key, response));
      }
    }

    /** The mover's own entry is all that differs between the worlds it goes through. */
    lemma SameUnanswered(w': World, w1: World, w: World, rollback: Snapshot, last: bool, request: Request, sid: Sid)
      requires w1.servers - {sid} == w.servers - {sid} && w1.initial == w.initial && w1.links == w.links
      ensures Unanswered(w', w1, rollback, last, request, sid) ==> Unanswered(w', w, rollback, last, request, sid)
    {
      hide DatabaseOf;
    }

    /** One more database access of a request. */
    ghost function Stepped(w: World, sid: Sid, f: nat -> bool, k: nat): (w': World)
      requires k < 6 && sid in w.servers && !w.servers[sid].phase.Idle?
      ensures w' == Next(app, w, Advance(sid, f(k))).0
      ensures Proceed(app, w, sid, f, k)
           == var reply := Next(app, w, Advance(sid, f(k))).1;
              if reply.Some? then (w', reply) else Proceed(app, w', sid, f, k + 1)
    {
      Next(app, w, Advance(sid, f(k))).0
    }

    /** A mutating request: replay lookup, which may fail, handler, commit; on an unexpected error the rollback, the
        refusal and its commit.  None when the error handler's own commit fails unexpectedly: the process ends. */
    method HandlePost(request: Request, now: int, lookupFails: bool, f: nat -> bool, ghost sid: Sid, ghost w: World)
      returns (reply: Option<Reply>, ghost w': World)
      requires Ready() && Seen(sid, Idle, w) == w
      modifies this, store
      ensures Ready()
      ensures reply.Some? ==> w' == Seen(sid, Idle, w')
      ensures reply.None? ==> sid !in w'.servers && w'.database == DatabaseOf(store.Abs())
      ensures var (received, found) := Next(app, w, Receive(sid, request, lookupFails));
              (w', reply) == if found.Some? then (received, found) else Proceed(app, received, sid, f, 0)
    {
      hide DatabaseOf, Proceed, Run;
      RecordsSeen(store.Abs(), request.key);
      w' := Next(app, w, Receive(sid, request, lookupFails)).0;
      if lookupFails {
        reply, w' := Refuse(request, state, now, f, 0, sid, w');
        return;
      }
      var requestHash := app.hash(request.body);
      var replay := store.GetIdempotent(IDEMPOTENCY_SCOPE, request.key, requestHash);
      if replay.Err? { return Some(Failed(409)), w'; }
      if replay.value.Some? { return Some(Stored(request.key, replay.value.value)), w'; }
      var rollback := state;
      var next, response, raised := RunHandler(rollback, request.body);
      var saved, used;
      saved, used, w' := PersistResponse(request, rollback, next, response, raised, false, now, f, 0, sid, w');
      if saved.Answered? { return Some(saved.reply), w'; }
      if raised {
        GoneProceeds(app, w', sid, f, 6);
        return None, w';
      }
      reply, w' := Refuse(request, rollback, now, f, used, sid, w');
    }

    /** The error handler: roll back, mark the request refused and commit that. */
    method Refuse(request: Request, rollback: Snapshot, now: int, f: nat -> bool, k: nat, ghost sid: Sid, ghost w: World)
      returns (reply: Option<Reply>, ghost w': World)
      requires Ready() && state == rollback && k <= 3 && Seen(sid, Refusing(app, request, rollback), w) == w
      modifies this, store
      ensures Ready()
      ensures reply.Some? ==> w' == Seen(sid, Idle, w')
      ensures reply.None? ==> sid !in w'.servers && w'.database == DatabaseOf(store.Abs())
      ensures (w', reply) == Proceed(app, w, sid, f, k)
    {
      hide DatabaseOf, Proceed, Run;
      var blocked := app.blocked(rollback, INTERNAL_ERROR);
      var saved, used;
      saved, used, w' := PersistResponse(request, rollback, blocked.0, blocked.1, true, true, now, f, k, sid, w);
      if saved.Answered? { return Some(saved.reply), w'; }
      GoneProceeds(app, w', sid, f, 6);
      return None, w';
    }

    /** The handler's own state and reply, or those of its refusal after a rollback. */
    method RunHandler(rollback: Snapshot, body: Text) returns (next: Snapshot, response: Response, raised: bool)
      ensures (next, response) == Run(app, rollback, body) && raised == app.handle(rollback, body).Raised?
    {
      match app.handle(rollback, body) {
        case Replied(s, r) => return s, r, false;
        case Raised(code) =>
          var refused := app.blocked(rollback, code);
          return refused.0, refused.1, true;
      }
    }
  }

  lemma GoneProceeds(app: App, w: World, sid: Sid, f: nat -> bool, k: nat)
    requires sid !in w.servers
    ensures forall j: nat :: Proceed(app, w, sid, f, j) == (w, None)
  {
  }
}
