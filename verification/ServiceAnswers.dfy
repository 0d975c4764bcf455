/**
 What each call of the trip service answers and does, in the columns of the ride's row: exactly when
 it is carried out, what it then writes and whom it tells, and otherwise which check stops it.
 */
module ServiceAnswers {
  import opened EventSchema
  import opened Options
  import opened RideStateMachine
  import opened TripHandlers
  import opened TripService
  import opened TripStore
  import D = DriverStateMachine

  /** The tables with this row and one more audit entry for its ride. */
  function WithRow(db: Db, id: string, row: Row, entry: Entry): Db {
    Db(db.rides[id := row], db.audit[id := (if id in db.audit then db.audit[id] else []) + [entry]], db.ledger)
  }

  /** The call changes no table and sends no PATCH. */
  predicate Refused(db: Db, h: Handled, reply: Reply) {
    h.db == db && h.syncs == [] && h.reply == reply
  }

  predicate Tells(row: Row, h: Handled, status: D.DriverStatus) {
    h.syncs == if row.driverId.Some? then [Sync(row.driverId.value, status)] else []
  }

  // ---------------------------------------------------------------- ride.requested

  lemma RequestAnswers(db: Db, input: RideInput, eventId: string)
    ensures var h := Handle(db, Call(RequestRide(input), Some(eventId)));
            && (h.reply == Done <==> eventId !in db.ledger && input.id !in db.rides)
            && (h.reply == Done ==>
                  && h.syncs == []
                  && h.db.ledger == db.ledger + {eventId}
                  && h.db.rides == db.rides[input.id := Row(input.riderId, input.route, Matching, None, None, None, None, None)]
                  && input.id in h.db.audit && (forall id :: id in db.audit && id != input.id ==> id in h.db.audit && h.db.audit[id] == db.audit[id])
                  && h.db.audit[input.id] == AuditOf(db, input.id) + [Entry(Requested, None), Entry(Matching, None)])
            && (h.reply != Done ==> Refused(db, h, Skipped))
  {
    var log := AuditOf(db, input.id);
    assert log + [Entry(Requested, None)] + [Entry(Matching, None)] == log + [Entry(Requested, None), Entry(Matching, None)];
  }

  // ---------------------------------------------------------------- driver.reserved

  /** The status comes before the ledger: an applied event whose ride has moved on is a conflict. */
  lemma ReserveAnswers(db: Db, id: string, driver: string, eventId: string)
    ensures var h := Handle(db, Call(ReserveDriver(id, driver), Some(eventId)));
            && (h.reply == Done <==> id in db.rides && db.rides[id].status == Matching && eventId !in db.ledger)
            && (h.reply == Done ==>
                  var row := db.rides[id].(status := Matched,
                                           driverId := if driver == "" then db.rides[id].driverId else Some(driver));
                  h.db == WithRow(db, id, row, Entry(Matched, None)).(ledger := db.ledger + {eventId}) && h.syncs == [])
            && (h.reply != Done ==>
                  Refused(db, h, if id !in db.rides then NotFound
                                 else if db.rides[id].status != Matching then Conflict else Skipped))
  {
  }

  // ---------------------------------------------------------------- cancellations

  predicate MayBeCancelled(status: RideStatus) {
    status == Matching || status == Matched || status == DriverArriving || status == DriverArrived
  }

  /** What a cancellation with this `reason` field leaves in the reason column. */
  function ReasonAfter(row: Row, field: ReasonField): Option<Reason> {
    match field
    case Undefined => Some(RiderCancelled)
    case Falsy => row.reason
    case Given(reason) => Some(reason)
  }

  predicate Cancelled(db: Db, h: Handled, id: string, field: ReasonField, ledger: set<string>)
    requires id in db.rides
  {
    var row := db.rides[id].(status := RideStateMachine.Cancelled, reason := ReasonAfter(db.rides[id], field));
    var noted := if field == Falsy then None else row.reason;
    && h.db == WithRow(db, id, row, Entry(RideStateMachine.Cancelled, noted)).(ledger := ledger)
    && Tells(db.rides[id], h, D.Available)
  }

  /** A cancellation over HTTP, by the rider, the driver or the system. */
  lemma CancelAnswers(db: Db, id: string, field: ReasonField)
    ensures var h := Handle(db, Call(CancelRide(id, EffectiveReason(field)), None));
            && (h.reply == Done <==> id in db.rides && MayBeCancelled(db.rides[id].status))
            && (h.reply == Done ==> Cancelled(db, h, id, field, db.ledger))
            && (h.reply != Done ==> Refused(db, h, if id !in db.rides then NotFound else Conflict))
  {
  }

  /** ride.cancelled and driver.rejected: here the ledger comes first. */
  lemma CancelEventAnswers(db: Db, id: string, field: ReasonField, eventId: string)
    ensures var h := Handle(db, Call(CancelRide(id, EffectiveReason(field)), Some(eventId)));
            && (h.reply == Done <==> eventId !in db.ledger && id in db.rides && MayBeCancelled(db.rides[id].status))
            && (h.reply == Done ==> Cancelled(db, h, id, field, db.ledger + {eventId}))
            && (h.reply != Done ==>
                  Refused(db, h, if eventId in db.ledger then Skipped else if id !in db.rides then NotFound else Conflict))
  {
  }

  // ---------------------------------------------------------------- the driver's actions

  /** The code is stored as four decimal digits that read back as the number drawn. */
  lemma AcceptAnswers(db: Db, id: string, draw: nat)
    requires draw < 10000
    ensures var h := Handle(db, Call(Accept(id, draw), None));
            && (h.reply == Done <==> id in db.rides && db.rides[id].status == Matched)
            && (h.reply == Done ==>
                  && h.syncs == [] && id in h.db.rides && h.db.rides[id].otp.Some?
                  && ReadsAs(h.db.rides[id].otp.value, draw)
                  && h.db == WithRow(db, id, db.rides[id].(status := DriverArriving, otp := h.db.rides[id].otp), Entry(DriverArriving, None)))
            && (h.reply != Done ==> Refused(db, h, if id !in db.rides then NotFound else Conflict))
  {
    MintReadsBack(draw);
  }

  /** These are the four decimal digits of this number, leading zeros included. */
  predicate ReadsAs(code: string, n: nat) {
    && |code| == 4
    && (forall i :: 0 <= i < 4 ==> '0' <= code[i] <= '9')
    && n == 1000 * Value(code[0]) + 100 * Value(code[1]) + 10 * Value(code[2]) + Value(code[3])
  }

  function Value(c: char): int {
    c as int - '0' as int
  }

  lemma DigitValue(d: nat)
    requires d < 10
    ensures '0' <= Digit(d) <= '9' && Value(Digit(d)) == d
  {
    assert "0123456789"[0] == '0' && "0123456789"[1] == '1' && "0123456789"[2] == '2' && "0123456789"[3] == '3'
        && "0123456789"[4] == '4' && "0123456789"[5] == '5' && "0123456789"[6] == '6' && "0123456789"[7] == '7'
        && "0123456789"[8] == '8' && "0123456789"[9] == '9';
  }

  lemma MintReadsBack(draw: nat)
    requires draw < 10000
    ensures ReadsAs(MintOtp(draw), draw)
  {
    assert draw % 10000 == draw;
    var a := draw / 10;
    var b := a / 10;
    assert draw == 10 * a + draw % 10 && a == 10 * b + a % 10 && b == 10 * (b / 10) + b % 10;
    DigitValue(b / 10);
    DigitValue(b % 10);
    DigitValue(a % 10);
    DigitValue(draw % 10);
  }

  lemma ArrivedAnswers(db: Db, id: string)
    ensures var h := Handle(db, Call(MarkArrived(id), None));
            && (h.reply == Done <==> id in db.rides && db.rides[id].status == DriverArriving)
            && (h.reply == Done ==>
                  h.db == WithRow(db, id, db.rides[id].(status := DriverArrived), Entry(DriverArrived, None)) && h.syncs == [])
            && (h.reply != Done ==> Refused(db, h, if id !in db.rides then NotFound else Conflict))
  {
  }

  /** The caller is not known, or is the ride's driver. */
  predicate MayStart(row: Row, caller: Option<string>) {
    caller == None || caller == Some("") || caller == row.driverId
  }

  /** start: the ride, its status, the caller and the code are checked in this order. */
  lemma StartAnswers(db: Db, id: string, otp: string, caller: Option<string>)
    ensures var h := Handle(db, Call(Start(id, otp, caller), None));
            && (h.reply == Done <==>
                  && id in db.rides && db.rides[id].status == DriverArrived && MayStart(db.rides[id], caller)
                  && otp != "" && db.rides[id].otp == Some(otp))
            && (h.reply == Done ==>
                  && h.db == WithRow(db, id, db.rides[id].(status := InProgress, otp := None), Entry(InProgress, None))
                  && Tells(db.rides[id], h, D.OnTrip))
            && (h.reply != Done ==>
                  Refused(db, h, if id !in db.rides then NotFound
                                 else if db.rides[id].status != DriverArrived then Conflict
                                 else if !MayStart(db.rides[id], caller) then Forbidden
                                 else IncorrectOtp))
  {
  }

  /** The fare is the whole number nearest to 40 plus 12 per kilometre, halves rounded up. */
  lemma CompleteAnswers(db: Db, id: string)
    ensures var h := Handle(db, Call(Complete(id), None));
            && (h.reply == Done <==> id in db.rides && db.rides[id].status == InProgress)
            && (h.reply == Done ==>
                  && id in h.db.rides && h.db.rides[id].fare.Some?
                  && var km, fare := db.rides[id].route.km, h.db.rides[id].fare.value;
                     && fare as real - 0.5 <= 40.0 + 12.0 * km < fare as real + 0.5
                     && h.db == WithRow(db, id, db.rides[id].(status := Completed, fare := Some(fare), km := Some(km)), Entry(Completed, None))
                     && Tells(db.rides[id], h, D.Available))
            && (h.reply != Done ==> Refused(db, h, if id !in db.rides then NotFound else Conflict))
  {
  }
}
