/**
 The trip database of trips.repository.ts: the `rides` table, the append-only `trip_events`
 audit trail (grouped by ride, in insertion order) and the `processed_events` ledger.
 `Db` is the value the specifications speak about; the class updates the three tables in place.
 */
module TripStore {
  import opened Options
  import opened EventSchema
  import opened RideStateMachine

  /** The default parameter replaces only an absent reason; a falsy one is simply not written. */
  function EffectiveReason(field: ReasonField): Option<Reason> {
    match field
    case Undefined => Some(RiderCancelled)
    case Falsy => None
    case Given(reason) => Some(reason)
  }

  datatype RideInput = RideInput(id: string, riderId: string, route: Route)

  datatype Row = Row(
    riderId: string,
    route: Route,
    status: RideStatus,
    driverId: Option<string>,
    reason: Option<Reason>,
    otp: Option<string>,
    fare: Option<int>,
    km: Option<real>
  )

  /** One `trip_events` row; its `event_type` column holds `EventTypeForStatus(to)`. */
  datatype Entry = Entry(to: RideStatus, reason: Option<Reason>)

  datatype Db = Db(rides: map<string, Row>, audit: map<string, seq<Entry>>, ledger: set<string>)

  const EMPTY_DB := Db(map[], map[], {})

  /** The `options` argument of `transition`. */
  datatype Patch = Patch(
    reason: Option<Reason>,
    driverId: Option<string>,
    fare: Option<int>,
    km: Option<real>,
    otp: Option<string>,
    clearOtp: bool
  )

  const NO_PATCH := Patch(None, None, None, None, None, false)

  /** The two shapes of work the service runs inside a transaction. */
  datatype Work =
    | CreateAndMatch(input: RideInput)
    | Move(id: string, to: RideStatus, patch: Patch)

  datatype Outcome = Processed | Duplicate | Failed

  function EventTypeForStatus(status: RideStatus): string {
    match status
    case Requested => "ride.requested"
    case Matching => "ride.matching"
    case Matched => "ride.matched"
    case DriverArriving => "driver.arriving"
    case DriverArrived => "driver.arrived"
    case InProgress => "trip.started"
    case Completed => "trip.completed"
    case Cancelled => "ride.cancelled"
  }

  function StatusForEventType(eventType: string): Option<RideStatus> {
    if eventType == "ride.requested" then Some(Requested)
    else if eventType == "ride.matching" then Some(Matching)
    else if eventType == "ride.matched" then Some(Matched)
    else if eventType == "driver.arriving" then Some(DriverArriving)
    else if eventType == "driver.arrived" then Some(DriverArrived)
    else if eventType == "trip.started" then Some(InProgress)
    else if eventType == "trip.completed" then Some(Completed)
    else if eventType == "ride.cancelled" then Some(Cancelled)
    else None
  }

  /** The audit label of a status can be read back, so `Entry` may hold the status itself. */
  lemma EventTypeRoundTrip(status: RideStatus)
    ensures StatusForEventType(EventTypeForStatus(status)) == Some(status)
    ensures EventTypeForStatus(status) == "ride.requested" <==> status == Requested
    ensures EventTypeForStatus(status) == "ride.matching" <==> status == Matching
    ensures EventTypeForStatus(status) == "ride.matched" <==> status == Matched
    ensures EventTypeForStatus(status) == "driver.arriving" <==> status == DriverArriving
    ensures EventTypeForStatus(status) == "driver.arrived" <==> status == DriverArrived
    ensures EventTypeForStatus(status) == "trip.started" <==> status == InProgress
    ensures EventTypeForStatus(status) == "trip.completed" <==> status == Completed
    ensures EventTypeForStatus(status) == "ride.cancelled" <==> status == Cancelled
  {
    assert "ride.matching"[5] != "ride.requested"[5];
    assert "ride.cancelled"[5] != "ride.requested"[5];
    assert "ride.cancelled"[0] != "trip.completed"[0];
    assert "driver.arrived"[0] != "ride.requested"[0];
  }

  // ---------------------------------------------------------------- the tables as a value

  function NewRow(input: RideInput): Row {
    Row(input.riderId, input.route, Requested, None, None, None, None, None)
  }

  /** The column update of `transition`: an empty driver id is skipped, `clearOtp` wins over `otp`. */
  function Patched(row: Row, to: RideStatus, patch: Patch): Row {
    row.(
      status := to,
      reason := if patch.reason.Some? then patch.reason else row.reason,
      driverId := if patch.driverId.Some? && patch.driverId.value != "" then patch.driverId else row.driverId,
      fare := if patch.fare.Some? then patch.fare else row.fare,
      km := if patch.km.Some? then patch.km else row.km,
      otp := if patch.clearOtp then None else if patch.otp.Some? then patch.otp else row.otp
    )
  }

  function AuditOf(db: Db, id: string): seq<Entry> {
    if id in db.audit then db.audit[id] else []
  }

  function Created(db: Db, input: RideInput): Db {
    db.(
      rides := db.rides[input.id := NewRow(input)],
      audit := db.audit[input.id := AuditOf(db, input.id) + [Entry(Requested, None)]]
    )
  }

  function Moved(db: Db, id: string, to: RideStatus, patch: Patch): Db
    requires id in db.rides
  {
    db.(
      rides := db.rides[id := Patched(db.rides[id], to, patch)],
      audit := db.audit[id := AuditOf(db, id) + [Entry(to, patch.reason)]]
    )
  }

  /** Can the work run to its end: a new id for a creation, an existing ride for a move. */
  predicate Applicable(db: Db, work: Work) {
    match work
    case CreateAndMatch(input) => input.id !in db.rides
    case Move(id, _, _) => id in db.rides
  }

  function Applied(db: Db, work: Work): Db {
    match work
    case CreateAndMatch(input) => Moved(Created(db, input), input.id, Matching, NO_PATCH)
    case Move(id, to, patch) => if id in db.rides then Moved(db, id, to, patch) else db
  }

  function Recorded(db: Db, eventId: Option<string>): Db {
    if eventId.Some? then db.(ledger := db.ledger + {eventId.value}) else db
  }

  /**
   What one transaction does, with the ledger guard when there is an event id. A unique
   violation on the ledger and one on the rides table are both reported as a duplicate.
   */
  function OutcomeOf(db: Db, eventId: Option<string>, work: Work): Outcome {
    if eventId.Some? && eventId.value in db.ledger then Duplicate
    else if Applicable(db, work) then Processed
    else if work.CreateAndMatch? then Duplicate
    else Failed
  }

  function AfterTransaction(db: Db, eventId: Option<string>, work: Work): Db {
    if OutcomeOf(db, eventId, work).Processed? then Applied(Recorded(db, eventId), work) else db
  }

  // ---------------------------------------------------------------- row and history

  ghost predicate Occurs(log: seq<Entry>, status: RideStatus) {
    exists i :: 0 <= i < |log| && log[i].to == status
  }

  /** Of driver.arriving and trip.started, the later one in the log is driver.arriving. */
  ghost predicate OtpOutstanding(log: seq<Entry>) {
    exists i :: 0 <= i < |log| && log[i].to == DriverArriving
                && forall j :: i < j < |log| ==> log[j].to != InProgress
  }

  function LatestReason(log: seq<Entry>): Option<Reason> {
    if |log| == 0 then None
    else if log[|log| - 1].reason.Some? then log[|log| - 1].reason
    else LatestReason(log[..|log| - 1])
  }

  /** Math.round of the flat-rate formula: 40 plus 12 per kilometre. */
  function FareFor(km: real): int {
    (40.0 + 12.0 * km + 0.5).Floor
  }

  /** Everything in a row that its audit log determines. */
  ghost predicate RowFollows(row: Row, log: seq<Entry>) {
    && |log| > 0
    && row.status == log[|log| - 1].to
    && row.reason == LatestReason(log)
    && (row.otp.Some? <==> OtpOutstanding(log))
    && (row.fare.Some? <==> Occurs(log, Completed))
    && (row.km.Some? <==> Occurs(log, Completed))
    && (row.fare.Some? ==> row.fare == Some(FareFor(row.route.km)))
    && (row.km.Some? ==> row.km == Some(row.route.km))
    && (row.driverId.Some? ==> Occurs(log, Matched))
  }

  ghost predicate Consistent(db: Db) {
    && db.rides.Keys == db.audit.Keys
    && forall id :: id in db.rides ==> RowFollows(db.rides[id], db.audit[id])
  }

  /** The option shapes the trip service ever passes, for a ride with this route. */
  predicate ServiceShaped(to: RideStatus, patch: Patch, route: Route) {
    && (patch.otp.Some? <==> to == DriverArriving)
    && (patch.clearOtp <==> to == InProgress)
    && (patch.driverId.Some? ==> to == Matched)
    && patch.fare == (if to == Completed then Some(FareFor(route.km)) else None)
    && patch.km == (if to == Completed then Some(route.km) else None)
  }

  lemma OccursAppend(log: seq<Entry>, e: Entry, status: RideStatus)
    ensures Occurs(log + [e], status) <==> Occurs(log, status) || e.to == status
  {
    if Occurs(log, status) {
      var i :| 0 <= i < |log| && log[i].to == status;
      assert (log + [e])[i].to == status;
    }
    if e.to == status {
      assert (log + [e])[|log|].to == status;
    }
  }

  lemma OtpOutstandingAppend(log: seq<Entry>, e: Entry)
    ensures OtpOutstanding(log + [e]) <==> e.to == DriverArriving || (OtpOutstanding(log) && e.to != InProgress)
  {
    var ext := log + [e];
    if e.to == DriverArriving {
      assert ext[|log|].to == DriverArriving;
    } else if OtpOutstanding(log) && e.to != InProgress {
      var i :| 0 <= i < |log| && log[i].to == DriverArriving && forall j :: i < j < |log| ==> log[j].to != InProgress;
      assert ext[i].to == DriverArriving;
    }
    if OtpOutstanding(ext) && e.to != DriverArriving {
      var i :| 0 <= i < |ext| && ext[i].to == DriverArriving && forall j :: i < j < |ext| ==> ext[j].to != InProgress;
      assert i < |log| && ext[|log|] == e;
      forall j | i < j < |log|
        ensures log[j].to != InProgress
      {
        assert ext[j] == log[j];
      }
    }
  }

  /** One transition keeps the row a function of the log, whatever status the row was in before. */
  lemma {:induction false} MoveKeepsRow(row: Row, log: seq<Entry>, to: RideStatus, patch: Patch)
    requires RowFollows(row, log)
    requires ServiceShaped(to, patch, row.route)
    ensures RowFollows(Patched(row, to, patch), log + [Entry(to, patch.reason)])
  {
    var e := Entry(to, patch.reason);
    assert (log + [e])[..|log|] == log;
    OtpOutstandingAppend(log, e);
    OccursAppend(log, e, Completed);
    OccursAppend(log, e, Matched);
  }

  lemma {:induction false} CreateStartsRow(input: RideInput)
    ensures RowFollows(NewRow(input), [Entry(Requested, None)])
  {
    assert [Entry(Requested, None)][..0] == [];
  }

  ghost predicate ServiceWork(db: Db, work: Work) {
    work.Move? && work.id in db.rides ==> ServiceShaped(work.to, work.patch, db.rides[work.id].route)
  }

  /** A committed transaction of the service keeps every row a function of its own log. */
  lemma {:induction false} AppliedConsistent(db: Db, work: Work)
    requires Consistent(db) && Applicable(db, work) && ServiceWork(db, work)
    ensures Consistent(Applied(db, work))
  {
    match work {
      case CreateAndMatch(input) =>
        var log := [Entry(Requested, None)];
        assert AuditOf(db, input.id) + log == log;
        CreateStartsRow(input);
        MoveKeepsRow(NewRow(input), log, Matching, NO_PATCH);
      case Move(id, to, patch) =>
        MoveKeepsRow(db.rides[id], db.audit[id], to, patch);
    }
  }

  // ---------------------------------------------------------------- the repository

  class TripsRepository {
    var rides: map<string, Row>
    var audit: map<string, seq<Entry>>
    var ledger: set<string>

    function View(): Db
      reads this
    {
      Db(rides, audit, ledger)
    }

    constructor ()
      ensures View() == EMPTY_DB
    {
      rides, audit, ledger := map[], map[], {};
    }

    method AppendEvent(id: string, to: RideStatus, reason: Option<Reason>)
      modifies this`audit
      ensures audit == old(audit)[id := AuditOf(old(View()), id) + [Entry(to, reason)]]
    {
      var log := if id in audit then audit[id] else [];
      audit := audit[id := log + [Entry(to, reason)]];
    }

    /** False is the unique violation on the ride id. */
    method Create(input: RideInput) returns (ok: bool)
      modifies this
      ensures ok <==> input.id !in old(rides)
      ensures View() == if ok then Created(old(View()), input) else old(View())
    {
      if input.id in rides {
        return false;
      }
      rides := rides[input.id := NewRow(input)];
      AppendEvent(input.id, Requested, None);
      return true;
    }

    /** Writes the new status unconditionally; false is "record to update not found". */
    method Transition(id: string, to: RideStatus, patch: Patch) returns (ok: bool)
      modifies this
      ensures ok <==> id in old(rides)
      ensures View() == if ok then Moved(old(View()), id, to, patch) else old(View())
    {
      if id !in rides {
        return false;
      }
      rides := rides[id := Patched(rides[id], to, patch)];
      AppendEvent(id, to, patch.reason);
      return true;
    }

    /**
     The ledger row goes in first, then the work runs step by step; any failure restores the
     three tables, so the guard and the effect commit together or not at all.
     */
    method RunIdempotent(eventId: string, work: Work) returns (outcome: Outcome)
      modifies this
      ensures outcome == OutcomeOf(old(View()), Some(eventId), work)
      ensures View() == AfterTransaction(old(View()), Some(eventId), work)
      ensures !outcome.Processed? ==> View() == old(View())
      ensures outcome.Processed? ==> old(eventId !in ledger) && ledger == old(ledger) + {eventId}
    {
      if eventId in ledger {
        return Duplicate;
      }
      var savedRides, savedAudit, savedLedger := rides, audit, ledger;
      ledger := ledger + {eventId};
      var ok: bool;
      match work {
        case CreateAndMatch(input) =>
          ok := Create(input);
          if ok {
            ok := Transition(input.id, Matching, NO_PATCH);
          }
        case Move(id, to, patch) =>
          ok := Transition(id, to, patch);
      }
      if ok {
        return Processed;
      }
      rides, audit, ledger := savedRides, savedAudit, savedLedger;
      return if work.CreateAndMatch? then Duplicate else Failed;
    }
  }
}
