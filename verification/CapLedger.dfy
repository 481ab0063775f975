/** The Postgres cap ledger: daily caps and reservations, each call one committed transaction. */
module CapLedger {
  import opened Common
  import opened Wrappers
  import opened MapSums

  type Text = string
  type Id = string

  /** Tenant, token and spend date. */
  datatype CapKey = CapKey(tenantId: Id, tokenId: Id, spendDate: Text)

  datatype Cap = Cap(capMinor: int, reservedMinor: int)

  datatype Status = Active | Released

  datatype Reservation = Reservation(key: CapKey, amountMinor: int, status: Status)

  /** Reservations are keyed by tenant and reservation id. */
  datatype Ledger = Ledger(caps: map<CapKey, Cap>, reservations: map<(Id, Id), Reservation>)

  datatype CapError = InvalidIdentifier | InvalidDate | InvalidAmount | IdReused | ExceedsCap | UnknownReservation

  datatype CapResult = CapResult(replayed: bool, reservedMinor: int, capMinor: int, status: Status)

  /** Four digits, two and two, with dashes. */
  predicate DateShape(s: Text) {
    |s| == 10 && s[4] == '-' && s[7] == '-' && forall i :: 0 <= i < 10 && i != 4 && i != 7 ==> Digit(s[i])
  }

  /** Which identifiers are accepted and which texts the database takes for calendar dates. */
  datatype Checks = Checks(identifier: Text -> bool, date: Text -> bool)

  predicate AmountOk(amountMinor: int, capMinor: int) { 0 < amountMinor <= capMinor <= MAX_SAFE_INTEGER }

  /** The upsert: None when no row is written. */
  function Upserted(caps: map<CapKey, Cap>, key: CapKey, amountMinor: int, capMinor: int): Option<Cap> {
    if key !in caps then Some(Cap(capMinor, amountMinor))
    else if caps[key].capMinor == capMinor && caps[key].reservedMinor + amountMinor <= caps[key].capMinor then
      Some(Cap(capMinor, caps[key].reservedMinor + amountMinor))
    else None
  }

  function Usage(l: Ledger, key: CapKey): Cap { if key in l.caps then l.caps[key] else Cap(0, 0) }

  function Reserve(
    c: Checks, l: Ledger, tenantId: Id, reservationId: Id, tokenId: Id, spendDate: Text, amountMinor: int, capMinor: int):
    (Ledger, Result<CapResult, CapError>)
  {
    var key, rid := CapKey(tenantId, tokenId, spendDate), (tenantId, reservationId);
    if !c.identifier(tenantId) || !c.identifier(reservationId) || !c.identifier(tokenId) then (l, Err(InvalidIdentifier))
    else if !DateShape(spendDate) then (l, Err(InvalidDate))
    else if !AmountOk(amountMinor, capMinor) then (l, Err(InvalidAmount))
    else if rid in l.reservations then
      var r := l.reservations[rid];
      if r.key != key || r.amountMinor != amountMinor then (l, Err(IdReused))
      else (l, Ok(CapResult(true, Usage(l, key).reservedMinor, Usage(l, key).capMinor, r.status)))
    else if !c.date(spendDate) then (l, Err(InvalidDate))
    else
      var cap := Upserted(l.caps, key, amountMinor, capMinor);
      if cap.None? then (l, Err(ExceedsCap))
      else
        (Ledger(l.caps[key := cap.value], l.reservations[rid := Reservation(key, amountMinor, Active)]),
         Ok(CapResult(false, cap.value.reservedMinor, cap.value.capMinor, Active)))
  }

  function Release(c: Checks, l: Ledger, tenantId: Id, reservationId: Id): (Ledger, Result<CapResult, CapError>) {
    var rid := (tenantId, reservationId);
    if !c.identifier(tenantId) || !c.identifier(reservationId) then (l, Err(InvalidIdentifier))
    else if rid !in l.reservations then (l, Err(UnknownReservation))
    else
      var r := l.reservations[rid];
      var cap := Usage(l, r.key);
      if r.status == Released then (l, Ok(CapResult(true, cap.reservedMinor, cap.capMinor, Released)))
      else
        var reduced := Cap(cap.capMinor, cap.reservedMinor - r.amountMinor);
        (Ledger(if r.key in l.caps then l.caps[r.key := reduced] else l.caps, l.reservations[rid := r.(status := Released)]),
         Ok(CapResult(false, reduced.reservedMinor, cap.capMinor, Released)))
  }

  datatype Call =
    | ReserveCall(tenantId: Id, reservationId: Id, tokenId: Id, spendDate: Text, amountMinor: int, capMinor: int)
    | ReleaseCall(tenantId: Id, reservationId: Id)

  function Step(c: Checks, l: Ledger, call: Call): (Ledger, Result<CapResult, CapError>) {
    match call
    case ReserveCall(tenantId, reservationId, tokenId, spendDate, amountMinor, capMinor) =>
      Reserve(c, l, tenantId, reservationId, tokenId, spendDate, amountMinor, capMinor)
    case ReleaseCall(tenantId, reservationId) => Release(c, l, tenantId, reservationId)
  }

  function After(c: Checks, l: Ledger, calls: seq<Call>): Ledger
    decreases |calls|
  {
    if calls == [] then l else Step(c, After(c, l, calls[..|calls| - 1]), calls[|calls| - 1]).0
  }

  // ---------- the ledger and the reservations ----------

  function Weight(key: CapKey): Reservation -> int {
    (r: Reservation) => if r.status == Active && r.key == key then r.amountMinor else 0
  }

  /** What the active reservations of a tenant, token and day add up to. */
  ghost function ActiveTotal(reservations: map<(Id, Id), Reservation>, key: CapKey): int { Sum(reservations, Weight(key)) }

  ghost predicate CapOk(l: Ledger, key: CapKey, cap: Cap) {
    0 <= cap.reservedMinor <= cap.capMinor && cap.reservedMinor == ActiveTotal(l.reservations, key)
  }

  ghost predicate LedgerOk(l: Ledger) {
    && (forall key <- l.caps :: CapOk(l, key, l.caps[key]))
    && (forall rid <- l.reservations :: l.reservations[rid].amountMinor > 0 && l.reservations[rid].key in l.caps)
  }

  lemma {:induction false} NoReservations(reservations: map<(Id, Id), Reservation>, key: CapKey)
    requires forall rid <- reservations :: reservations[rid].key != key
    ensures ActiveTotal(reservations, key) == 0
    decreases |reservations|
  {
    if reservations != map[] {
      var rid :| rid in reservations && Sum(reservations, Weight(key)) == Weight(key)(reservations[rid]) + Sum(reservations - {rid}, Weight(key));
      NoReservations(reservations - {rid}, key);
    }
  }

  /** Setting one reservation moves the total of its key by the difference of its weights. */
  lemma TotalUpdate(reservations: map<(Id, Id), Reservation>, rid: (Id, Id), r: Reservation, key: CapKey)
    ensures ActiveTotal(reservations[rid := r], key)
         == ActiveTotal(reservations, key) - (if rid in reservations then Weight(key)(reservations[rid]) else 0) + Weight(key)(r)
  {
    SumUpdate(reservations, Weight(key), rid, r);
  }

  lemma TotalCovers(l: Ledger, rid: (Id, Id), key: CapKey)
    requires LedgerOk(l) && rid in l.reservations
    ensures ActiveTotal(l.reservations, key) >= Weight(key)(l.reservations[rid])
  {
    SumCovers(l.reservations, Weight(key), rid);
  }

  lemma ReserveKeepsLedger(
    c: Checks, l: Ledger, tenantId: Id, reservationId: Id, tokenId: Id, spendDate: Text, amountMinor: int, capMinor: int)
    requires LedgerOk(l)
    ensures LedgerOk(Reserve(c, l, tenantId, reservationId, tokenId, spendDate, amountMinor, capMinor).0)
  {
    var (l', r) := Reserve(c, l, tenantId, reservationId, tokenId, spendDate, amountMinor, capMinor);
    if r.Ok? && !r.value.replayed {
      var key, rid := CapKey(tenantId, tokenId, spendDate), (tenantId, reservationId);
      if key !in l.caps { NoReservations(l.reservations, key); }
      hide ActiveTotal;
      forall k | k in l'.caps ensures CapOk(l', k, l'.caps[k]) {
        TotalUpdate(l.reservations, rid, Reservation(key, amountMinor, Active), k);
        if k in l.caps { assert CapOk(l, k, l.caps[k]); }
      }
    }
  }

  lemma ReleaseKeepsLedger(c: Checks, l: Ledger, tenantId: Id, reservationId: Id)
    requires LedgerOk(l)
    ensures LedgerOk(Release(c, l, tenantId, reservationId).0)
  {
    var (l', r) := Release(c, l, tenantId, reservationId);
    if r.Ok? && !r.value.replayed {
      var rid := (tenantId, reservationId);
      var before := l.reservations[rid];
      TotalCovers(l, rid, before.key);
      hide ActiveTotal;
      forall k | k in l'.caps ensures CapOk(l', k, l'.caps[k]) {
        TotalUpdate(l.reservations, rid, before.(status := Released), k);
        assert CapOk(l, k, l.caps[k]);
      }
    }
  }

  /** After any sequence of calls, every daily row equals the sum of the active reservations of its
      tenant, token and day, and lies between zero and the cap. */
  lemma {:induction false} RunKeepsLedger(c: Checks, calls: seq<Call>)
    ensures LedgerOk(After(c, Ledger(map[], map[]), calls))
    decreases |calls|
  {
    hide LedgerOk, Reserve, Release;
    if calls == [] {
      EmptyLedgerOk();
    } else {
      var l := After(c, Ledger(map[], map[]), calls[..|calls| - 1]);
      RunKeepsLedger(c, calls[..|calls| - 1]);
      match calls[|calls| - 1]
      case ReserveCall(tenantId, reservationId, tokenId, spendDate, amountMinor, capMinor) =>
        ReserveKeepsLedger(c, l, tenantId, reservationId, tokenId, spendDate, amountMinor, capMinor);
      case ReleaseCall(tenantId, reservationId) => ReleaseKeepsLedger(c, l, tenantId, reservationId);
    }
  }

  lemma EmptyLedgerOk()
    ensures LedgerOk(Ledger(map[], map[]))
  {
  }

  /** A well-formed reservation under a new id is admitted exactly when the cap is the one already set
      and the active total leaves room for it. */
  lemma AdmittedIffRoom(
    c: Checks, l: Ledger, tenantId: Id, reservationId: Id, tokenId: Id, spendDate: Text, amountMinor: int, capMinor: int)
    requires LedgerOk(l) && (tenantId, reservationId) !in l.reservations && AmountOk(amountMinor, capMinor)
    requires c.identifier(tenantId) && c.identifier(reservationId) && c.identifier(tokenId) && DateShape(spendDate) && c.date(spendDate)
    ensures var key := CapKey(tenantId, tokenId, spendDate);
            var admitted := Reserve(c, l, tenantId, reservationId, tokenId, spendDate, amountMinor, capMinor).1.Ok?;
            admitted <==> (key in l.caps ==> l.caps[key].capMinor == capMinor) && ActiveTotal(l.reservations, key) + amountMinor <= capMinor
  {
    var key := CapKey(tenantId, tokenId, spendDate);
    if key !in l.caps { NoReservations(l.reservations, key); } else { assert CapOk(l, key, l.caps[key]); }
    hide ActiveTotal;
  }

  /** An admitted reservation is recorded as asked and raises the total of its row by its amount, and no
      other row or reservation changes. */
  lemma ReserveRecords(
    c: Checks, l: Ledger, tenantId: Id, reservationId: Id, tokenId: Id, spendDate: Text, amountMinor: int, capMinor: int)
    requires LedgerOk(l)
    ensures var (l', r) := Reserve(c, l, tenantId, reservationId, tokenId, spendDate, amountMinor, capMinor);
            var key, rid := CapKey(tenantId, tokenId, spendDate), (tenantId, reservationId);
            && (r.Err? || r.value.replayed ==> l' == l)
            && (r.Ok? && !r.value.replayed ==>
                  && rid !in l.reservations && l'.reservations == l.reservations[rid := Reservation(key, amountMinor, Active)]
                  && key in l'.caps && l'.caps == l.caps[key := l'.caps[key]]
                  && l'.caps[key] == Cap(capMinor, ActiveTotal(l.reservations, key) + amountMinor)
                  && r.value == CapResult(false, ActiveTotal(l.reservations, key) + amountMinor, capMinor, Active))
  {
    var key := CapKey(tenantId, tokenId, spendDate);
    if key !in l.caps { NoReservations(l.reservations, key); } else { assert CapOk(l, key, l.caps[key]); }
    hide ActiveTotal;
  }

  /** A reserve is answered under a used id exactly when it asks for the same row and amount, and is refused
      for malformed input whatever the ledger holds. */
  lemma ReserveRefuses(
    c: Checks, l: Ledger, tenantId: Id, reservationId: Id, tokenId: Id, spendDate: Text, amountMinor: int, capMinor: int)
    ensures var r := Reserve(c, l, tenantId, reservationId, tokenId, spendDate, amountMinor, capMinor).1;
            var rid, key := (tenantId, reservationId), CapKey(tenantId, tokenId, spendDate);
            && (r.Ok? ==> c.identifier(tenantId) && c.identifier(reservationId) && c.identifier(tokenId) && DateShape(spendDate)
                          && 0 < amountMinor <= capMinor <= MAX_SAFE_INTEGER && (rid !in l.reservations ==> c.date(spendDate)))
            && (c.identifier(tenantId) && c.identifier(reservationId) && c.identifier(tokenId) && DateShape(spendDate)
                && 0 < amountMinor <= capMinor <= MAX_SAFE_INTEGER && rid in l.reservations ==>
                  (r.Ok? <==> l.reservations[rid].key == key && l.reservations[rid].amountMinor == amountMinor))
  {
    hide DateShape;
  }

  /** The error of a reserve names the first thing wrong with it. */
  lemma ReserveError(
    c: Checks, l: Ledger, tenantId: Id, reservationId: Id, tokenId: Id, spendDate: Text, amountMinor: int, capMinor: int)
    requires LedgerOk(l) && Reserve(c, l, tenantId, reservationId, tokenId, spendDate, amountMinor, capMinor).1.Err?
    ensures Reserve(c, l, tenantId, reservationId, tokenId, spendDate, amountMinor, capMinor).1.error ==
              if !c.identifier(tenantId) || !c.identifier(reservationId) || !c.identifier(tokenId) then InvalidIdentifier
              else if !DateShape(spendDate) then InvalidDate
              else if amountMinor < 1 || capMinor < amountMinor || capMinor > 9_007_199_254_740_991 then InvalidAmount
              else if (tenantId, reservationId) in l.reservations then IdReused
              else if !c.date(spendDate) then InvalidDate
              else ExceedsCap
  {
    hide DateShape, Usage;
  }

  predicate IsDate(s: Text, year: Text, month: Text, day: Text) {
    && s == year + "-" + month + "-" + day && |year| == 4 && |month| == 2 && |day| == 2
    && forall ch :: ch in year + month + day ==> '0' <= ch <= '9'
  }

  /** The date shape is a year of four digits, a month and a day of two, with dashes between them. */
  lemma DateShapeIff(s: Text)
    ensures DateShape(s) <==> exists year: Text, month: Text, day: Text :: IsDate(s, year, month, day)
  {
    if DateShape(s) {
      assert forall ch :: ch in s[..4] + s[5..7] + s[8..] ==> Digit(ch);
      assert s == s[..4] + "-" + s[5..7] + "-" + s[8..];
      assert IsDate(s, s[..4], s[5..7], s[8..]);
    }
    if year: Text, month: Text, day: Text :| IsDate(s, year, month, day) {
      forall i | 0 <= i < 10 && i != 4 && i != 7 ensures Digit(s[i]) { assert s[i] in year + month + day; }
    }
  }

  /** A release is refused exactly for a malformed identifier or an unknown reservation, and then changes nothing. */
  lemma ReleaseError(c: Checks, l: Ledger, tenantId: Id, reservationId: Id)
    ensures var (l', r) := Release(c, l, tenantId, reservationId);
            && (r == Err(InvalidIdentifier) <==> !c.identifier(tenantId) || !c.identifier(reservationId))
            && (r == Err(UnknownReservation) <==>
                  c.identifier(tenantId) && c.identifier(reservationId) && (tenantId, reservationId) !in l.reservations)
            && (r.Err? ==> l' == l && r.error in {InvalidIdentifier, UnknownReservation})
  {
    hide Usage;
  }

  /** Releasing an active reservation succeeds, reports the row's total less its amount, lowers the row by
      that amount and marks the reservation released, and changes nothing else; releasing it again reports
      a replay and changes nothing; an unknown one is refused. */
  lemma ReleaseFrees(c: Checks, l: Ledger, tenantId: Id, reservationId: Id)
    requires LedgerOk(l) && c.identifier(tenantId) && c.identifier(reservationId)
    ensures var (l', r) := Release(c, l, tenantId, reservationId);
            var rid := (tenantId, reservationId);
            && (rid !in l.reservations ==> l' == l && r == Err(UnknownReservation))
            && (rid in l.reservations && l.reservations[rid].status == Released ==>
                  var key := l.reservations[rid].key;
                  l' == l && r == Ok(CapResult(true, ActiveTotal(l.reservations, key), l.caps[key].capMinor, Released)))
            && (rid in l.reservations && l.reservations[rid].status == Active ==>
                  var was := l.reservations[rid];
                  var rest := ActiveTotal(l.reservations, was.key) - was.amountMinor;
                  && 0 <= rest && r == Ok(CapResult(false, rest, l.caps[was.key].capMinor, Released))
                  && l'.caps == l.caps[was.key := Cap(l.caps[was.key].capMinor, rest)]
                  && l'.reservations == l.reservations[rid := Reservation(was.key, was.amountMinor, Released)])
  {
    var rid := (tenantId, reservationId);
    if rid in l.reservations {
      var was := l.reservations[rid];
      assert CapOk(l, was.key, l.caps[was.key]);
      if was.status == Active { TotalCovers(l, rid, was.key); }
    }
    hide ActiveTotal;
  }

  /** What later calls may do to a reservation: release it, once, and nothing else. */
  predicate Keeps(l: Ledger, l': Ledger) {
    forall rid <- l.reservations ::
      && rid in l'.reservations && l'.reservations[rid].key == l.reservations[rid].key
      && l'.reservations[rid].amountMinor == l.reservations[rid].amountMinor
      && (l.reservations[rid].status == Released ==> l'.reservations[rid].status == Released)
  }

  lemma {:induction false} RunKeepsReservations(c: Checks, l: Ledger, calls: seq<Call>)
    ensures Keeps(l, After(c, l, calls))
    decreases |calls|
  {
    hide Upserted, AmountOk, Usage, DateShape;
    if calls != [] { RunKeepsReservations(c, l, calls[..|calls| - 1]); }
  }

  /** Repeating a reserve that was admitted, whatever ran in between, changes nothing and reports a
      replay with the status the reservation has by then. */
  lemma ReserveRepeatsToNothing(c: Checks, l: Ledger, call: Call, between: seq<Call>)
    requires call.ReserveCall? && Step(c, l, call).1.Ok?
    ensures var later := After(c, Step(c, l, call).0, between);
            var (l', r) := Step(c, later, call);
            && (call.tenantId, call.reservationId) in later.reservations
            && l' == later && r.Ok? && r.value.replayed
            && r.value.status == later.reservations[(call.tenantId, call.reservationId)].status
  {
    RunKeepsReservations(c, Step(c, l, call).0, between);
    hide After;
  }

  /** Once released, an id stays released: no later call reserves it again, and releasing it again
      changes nothing. */
  lemma ReleasedStaysReleased(c: Checks, l: Ledger, tenantId: Id, reservationId: Id, between: seq<Call>, call: Call)
    requires Release(c, l, tenantId, reservationId).1.Ok?
    requires call.tenantId == tenantId && call.reservationId == reservationId
    ensures var later := After(c, Release(c, l, tenantId, reservationId).0, between);
            && (tenantId, reservationId) in later.reservations
            && later.reservations[(tenantId, reservationId)].status == Released
            && Step(c, later, call).0 == later
            && (Step(c, later, call).1.Ok? ==> Step(c, later, call).1.value.replayed && Step(c, later, call).1.value.status == Released)
  {
    RunKeepsReservations(c, Release(c, l, tenantId, reservationId).0, between);
    hide After;
  }

  // ---------- the store ----------

  class PostgresCapStore {
    const checks: Checks
    var caps: map<CapKey, Cap>
    var reservations: map<(Id, Id), Reservation>

    function Abs(): Ledger
      reads this
    {
      Ledger(caps, reservations)
    }

    constructor (checks: Checks)
      ensures this.checks == checks && Abs() == Ledger(map[], map[])
    {
      this.checks, caps, reservations := checks, map[], map[];
    }

    method ReserveCap(tenantId: Id, reservationId: Id, tokenId: Id, spendDate: Text, amountMinor: int, capMinor: int)
      returns (r: Result<CapResult, CapError>)
      modifies this
      ensures (Abs(), r) == Reserve(checks, old(Abs()), tenantId, reservationId, tokenId, spendDate, amountMinor, capMinor)
    {
      if !checks.identifier(tenantId) || !checks.identifier(reservationId) || !checks.identifier(tokenId) {
        return Err(InvalidIdentifier);
      }
      if !DateShape(spendDate) { return Err(InvalidDate); }
      if !AmountOk(amountMinor, capMinor) { return Err(InvalidAmount); }
      var key, rid := CapKey(tenantId, tokenId, spendDate), (tenantId, reservationId);
      if rid in reservations {
        var row := reservations[rid];
        if row.key != key || row.amountMinor != amountMinor { return Err(IdReused); }
        var usage := Usage(Abs(), key);
        return Ok(CapResult(true, usage.reservedMinor, usage.capMinor, row.status));
      }
      if !checks.date(spendDate) { return Err(InvalidDate); }
      if key !in caps {
        caps := caps[key := Cap(capMinor, amountMinor)];
      } else if caps[key].capMinor == capMinor && caps[key].reservedMinor + amountMinor <= caps[key].capMinor {
        caps := caps[key := Cap(capMinor, caps[key].reservedMinor + amountMinor)];
      } else {
        return Err(ExceedsCap);
      }
      reservations := reservations[rid := Reservation(key, amountMinor, Active)];
      return Ok(CapResult(false, caps[key].reservedMinor, caps[key].capMinor, Active));
    }

    method ReleaseCap(tenantId: Id, reservationId: Id) returns (r: Result<CapResult, CapError>)
      modifies this
      ensures (Abs(), r) == Release(checks, old(Abs()), tenantId, reservationId)
    {
      if !checks.identifier(tenantId) || !checks.identifier(reservationId) { return Err(InvalidIdentifier); }
      var rid := (tenantId, reservationId);
      if rid !in reservations { return Err(UnknownReservation); }
      var row := reservations[rid];
      var cap := Usage(Abs(), row.key);
      if row.status == Released { return Ok(CapResult(true, cap.reservedMinor, cap.capMinor, Released)); }
      if row.key in caps { caps := caps[row.key := Cap(cap.capMinor, cap.reservedMinor - row.amountMinor)]; }
      reservations := reservations[rid := row.(status := Released)];
      return Ok(CapResult(false, cap.reservedMinor - row.amountMinor, cap.capMinor, Released));
    }
  }
}
