/**
 The methods of TripsService as one caller sees them when nothing else runs, over the repository
 they update in place. `Handle` specifies them all; `UninterruptedHandler` shows that it is also
 what the interleaved processes of `TripHandlers` do when nobody gets between their steps.
 */
module TripService {
  import opened Options
  import opened EventSchema
  import opened RideStateMachine
  import opened TripStore
  import opened TripHandlers
  import opened TripGuarantees
  import D = DriverStateMachine

  datatype Reply = Done | Skipped | NotFound | Conflict | Forbidden | IncorrectOtp

  datatype Handled = Handled(db: Db, syncs: seq<Sync>, reply: Reply)

  function EndSyncs(db: Db, call: Call): seq<Sync> {
    var patch := DriverPatch(db, call.action);
    if patch.Some? then [patch.value] else []
  }

  predicate Seen(db: Db, call: Call) {
    call.eventId.Some? && call.eventId.value in db.ledger
  }

  /** One call from start to end: the error it answers with, or its effect and the PATCHes it sends. */
  function Handle(db: Db, call: Call): Handled {
    var id := RideOf(call.action);
    if call.action.RequestRide? then
      if Seen(db, call) || id in db.rides then Handled(db, [], Skipped)
      else Handled(Applied(Recorded(db, call.eventId), WorkOf(call.action, 0.0)), [], Done)
    else if LedgerFirst(call) && Seen(db, call) then Handled(db, [], Skipped)
    else if id !in db.rides then Handled(db, [], NotFound)
    else if !CanTransition(db.rides[id].status, Target(call.action)) then Handled(db, [], Conflict)
    else if call.action.Start? && WrongCaller(call.action, db.rides[id]) then Handled(db, [], Forbidden)
    else if call.action.Start? && !OtpMatches(db, call.action) then Handled(db, [], IncorrectOtp)
    else if Seen(db, call) then Handled(db, [], Skipped)
    else
      Handled(Applied(Recorded(db, call.eventId), WorkOf(call.action, db.rides[id].route.km)), EndSyncs(db, call), Done)
  }

  // ---------------------------------------------------------------- agreement with the processes

  /** These PATCHes, as sent by process `pid`. */
  function SentBy(pid: nat, syncs: seq<Sync>): seq<Sent> {
    seq(|syncs|, i requires 0 <= i < |syncs| => Sent(pid, syncs[i]))
  }

  function AdvanceBy(s: State, pid: nat, n: nat): State
    decreases n
  {
    if n == 0 then s else AdvanceBy(Exec(s, Advance(pid)), pid, n - 1)
  }

  lemma UninterruptedRequest(s: State, pid: nat)
    requires pid in s.procs && s.procs[pid].phase.Ready? && WellFormed(s.procs[pid].call)
    requires s.procs[pid].call.action.RequestRide?
    ensures var t := Exec(s, Advance(pid));
            var h := Handle(s.db, s.procs[pid].call);
            t.db == h.db && t.syncs == s.syncs && t.procs[pid].phase.Returned?
  {
  }

  /** The read-and-guard step answers exactly the errors `Handle` answers before its write. */
  lemma UninterruptedGuard(s: State, pid: nat)
    requires pid in s.procs && s.procs[pid].phase.Ready? && !s.procs[pid].call.action.RequestRide?
    ensures var call := s.procs[pid].call;
            var t := Exec(s, Advance(pid));
            var h := Handle(s.db, call);
            && t.db == s.db && t.syncs == s.syncs && t.procs[pid].call == call
            && (LedgerFirst(call) && Seen(s.db, call) ==> t.procs[pid].phase.Returned? && h == Handled(s.db, [], Skipped))
            && (!(LedgerFirst(call) && Seen(s.db, call)) ==> t.procs[pid].phase == Guard(s.db, call))
            && (t.procs[pid].phase.Threw? ==> h.db == s.db && h.syncs == [] && h.reply in {NotFound, Conflict, Forbidden})
            && (t.procs[pid].phase.Guarded? ==>
                  && RideOf(call.action) in s.db.rides && t.procs[pid].phase.row == s.db.rides[RideOf(call.action)]
                  && (LedgerFirst(call) ==> !Seen(s.db, call))
                  && h.reply !in {NotFound, Conflict, Forbidden})
  {
  }

  /** The commit of a process whose snapshot is current. */
  lemma UninterruptedCommit(s: State, pid: nat)
    requires pid in s.procs && WellFormed(s.procs[pid].call) && AtCommit(s.procs[pid]) && !s.procs[pid].phase.Ready?
    requires var id := RideOf(s.procs[pid].call.action); id in s.db.rides && s.procs[pid].phase.row == s.db.rides[id]
    requires !s.procs[pid].call.action.RequestRide?
    ensures var call := s.procs[pid].call;
            var id := RideOf(call.action);
            var t := Exec(s, Advance(pid));
            && t.syncs == s.syncs
            && (Seen(s.db, call) ==> t.db == s.db && t.procs[pid].phase.Returned?)
            && (!Seen(s.db, call) ==>
                  && t.db == Applied(Recorded(s.db, call.eventId), WorkOf(call.action, s.db.rides[id].route.km))
                  && (call.eventId.Some? || EndSyncs(s.db, call) == [] ==> t.procs[pid].phase.Returned?)
                  && (call.eventId.None? && EndSyncs(s.db, call) != [] ==>
                        t.procs[pid].phase.Syncing? && [t.procs[pid].phase.sync] == EndSyncs(s.db, call)))
  {
  }

  lemma FinishedStays(s: State, pid: nat, n: nat)
    requires pid in s.procs && Finished(s.procs[pid])
    ensures AdvanceBy(s, pid, n) == s
  {
    if n > 0 {
      assert !AtCommit(s.procs[pid]);
      FinishedStays(s, pid, n - 1);
    }
  }

  lemma AfterGuard(s: State, pid: nat)
    requires pid in s.procs && WellFormed(s.procs[pid].call) && s.procs[pid].phase.Guarded?
    requires var id := RideOf(s.procs[pid].call.action); id in s.db.rides && s.procs[pid].phase.row == s.db.rides[id]
    requires !s.procs[pid].call.action.RequestRide?
    requires LedgerFirst(s.procs[pid].call) ==> !Seen(s.db, s.procs[pid].call)
    requires Handle(s.db, s.procs[pid].call).reply !in {NotFound, Conflict, Forbidden}
    ensures var h := Handle(s.db, s.procs[pid].call);
            var t := AdvanceBy(s, pid, 3);
            && t.db == h.db && t.syncs == s.syncs + SentBy(pid, h.syncs) && pid in t.procs
            && (t.procs[pid].phase.Returned? <==> h.reply in {Done, Skipped})
            && (t.procs[pid].phase.Threw? <==> h.reply == IncorrectOtp)
  {
    var call := s.procs[pid].call;
    var h := Handle(s.db, call);
    var s1 := Exec(s, Advance(pid));
    var s2 := Exec(s1, Advance(pid));
    if AtCommit(s.procs[pid]) {
      UninterruptedCommit(s, pid);
      if s1.procs[pid].phase.Returned? {
        FinishedStays(s1, pid, 2);
      } else {
        FinishedStays(s2, pid, 1);
      }
    } else if call.action.Start? && !OtpMatches(s.db, call.action) {
      FinishedStays(s1, pid, 2);
    } else {
      assert s1.db == s.db && s1.procs[pid] == s.procs[pid].(phase := Staged(s.db.rides[RideOf(call.action)]));
      UninterruptedCommit(s1, pid);
      if s2.procs[pid].phase.Returned? {
        FinishedStays(s2, pid, 1);
      }
      assert AdvanceBy(s, pid, 3) == AdvanceBy(s1, pid, 2) == AdvanceBy(s2, pid, 1) == Exec(s2, Advance(pid));
    }
  }

  /** From `s` to `t` the process did what `h` says, and ended as its reply says. */
  ghost predicate Agrees(s: State, t: State, pid: nat, h: Handled) {
    && t.db == h.db && t.syncs == s.syncs + SentBy(pid, h.syncs) && pid in t.procs
    && (t.procs[pid].phase.Returned? <==> h.reply in {Done, Skipped})
    && (t.procs[pid].phase.Threw? <==> h.reply !in {Done, Skipped})
  }

  /** A process that is never interrupted does to the tables and the driver mirror what `Handle` says. */
  lemma {:induction false} UninterruptedHandler(s: State, pid: nat)
    requires pid in s.procs && s.procs[pid].phase.Ready? && WellFormed(s.procs[pid].call)
    ensures Agrees(s, AdvanceBy(s, pid, 4), pid, Handle(s.db, s.procs[pid].call))
  {
    var call := s.procs[pid].call;
    var s1 := Exec(s, Advance(pid));
    assert AdvanceBy(s, pid, 4) == AdvanceBy(s1, pid, 3);
    if call.action.RequestRide? {
      UninterruptedRequest(s, pid);
      FinishedStays(s1, pid, 3);
    } else {
      UninterruptedGuard(s, pid);
      if s1.procs[pid].phase.Guarded? {
        AfterGuard(s1, pid);
      } else {
        FinishedStays(s1, pid, 3);
      }
    }
  }

  lemma MovedRideConflicts(db: Db, call: Call)
    requires call.action.ReserveDriver? && call.action.ride in db.rides
    requires db.rides[call.action.ride].status != Requested && db.rides[call.action.ride].status != Matching
    ensures Handle(db, call) == Handled(db, [], Conflict)
  {
  }

  /** The ride of an applied reservation has been moved, and its event is in the ledger. */
  lemma AppliedReservation(s: State, first: nat, id: string)
    requires TablesOk(s) && RideHistoryOk(s, id)
    requires first < |s.commits| && s.commits[first].work.Move? && s.commits[first].work.id == id
    ensures id in s.db.rides && s.db.rides[id].status != Requested && s.db.rides[id].status != Matching
    ensures s.commits[first].eventId.Some? ==> s.commits[first].eventId.value in s.db.ledger
  {
    assert HasMoved(s.commits, id);
    assert s.commits[first].eventId.Some? ==> Committed(s.commits, s.commits[first].eventId.value);
  }

  /**
   A delivery of a driver.reserved that has been applied, begun afterwards and left to itself, is
   not skipped: whatever has happened to the ride since, the guard, which comes before the ledger,
   makes the handler throw.
   */
  lemma {:induction false} DuplicateReservationThrows(steps: seq<Step>, first: nat, pid: nat)
    requires var s := Run(steps);
             && first < |s.commits| && s.commits[first].eventId.Some?
             && pid in s.procs && s.procs[pid].phase.Ready? && s.procs[pid].call.action.ReserveDriver?
             && s.procs[pid].call.eventId == s.commits[first].eventId
             && s.commits[first].work.Move? && s.commits[first].work.id == s.procs[pid].call.action.ride
    ensures var s := Run(steps);
            var t := AdvanceBy(s, pid, 4);
            && s.procs[pid].call.eventId.value in s.db.ledger
            && t.db == s.db && t.syncs == s.syncs && pid in t.procs && t.procs[pid].phase.Threw?
  {
    var s := Run(steps);
    RunInv(steps);
    RunHistory(steps);
    assert ProcOk(s, pid, s.procs[pid]);
    AppliedReservation(s, first, s.procs[pid].call.action.ride);
    MovedRideConflicts(s.db, s.procs[pid].call);
    UninterruptedHandler(s, pid);
  }

  // ---------------------------------------------------------------- the service

  class TripsService {
    const repository: TripsRepository
    var syncs: seq<Sync>

    constructor (repository: TripsRepository)
      ensures this.repository == repository && syncs == []
    {
      this.repository := repository;
      syncs := [];
    }

    twostate predicate Handles(call: Call, reply: Reply)
      reads this, repository
    {
      Handled(repository.View(), syncs, reply)
      == var h := Handle(old(repository.View()), call); Handled(h.db, old(syncs) + h.syncs, h.reply)
    }

    method SyncDriver(driver: Option<string>, status: D.DriverStatus)
      modifies this`syncs
      ensures syncs == old(syncs) + (if driver.Some? then [Sync(driver.value, status)] else [])
    {
      if driver.Some? {
        syncs := syncs + [Sync(driver.value, status)];
      }
    }

    /** findById and guardTransition. */
    method FindAndGuard(id: string, to: RideStatus) returns (reply: Reply)
      ensures reply == if id !in repository.rides then NotFound
                       else if !CanTransition(repository.rides[id].status, to) then Conflict
                       else Done
    {
      if id !in repository.rides {
        return NotFound;
      }
      return if CanTransition(repository.rides[id].status, to) then Done else Conflict;
    }

    method HandleRideRequested(input: RideInput, eventId: string) returns (reply: Reply)
      modifies this, repository
      ensures Handles(Call(RequestRide(input), Some(eventId)), reply)
    {
      var outcome := repository.RunIdempotent(eventId, CreateAndMatch(input));
      return if outcome.Processed? then Done else Skipped;
    }

    method HandleDriverReserved(id: string, driver: string, eventId: string) returns (reply: Reply)
      modifies this, repository
      ensures Handles(Call(ReserveDriver(id, driver), Some(eventId)), reply)
    {
      reply := FindAndGuard(id, Matched);
      if reply.Done? {
        var outcome := repository.RunIdempotent(eventId, Move(id, Matched, NO_PATCH.(driverId := Some(driver))));
        reply := if outcome.Processed? then Done else Skipped;
      }
    }

    /** cancel(), alone or, given an event id, as the work inside runIdempotent. */
    method CancelWith(id: string, reason: Option<Reason>, eventId: Option<string>) returns (reply: Reply)
      modifies this, repository
      ensures Handles(Call(CancelRide(id, reason), eventId), reply)
    {
      if eventId.Some? && eventId.value in repository.ledger {
        return Skipped;
      }
      reply := FindAndGuard(id, Cancelled);
      if reply.Done? {
        var driver := repository.rides[id].driverId;
        var patch := NO_PATCH.(reason := reason);
        if eventId.Some? {
          var outcome := repository.RunIdempotent(eventId.value, Move(id, Cancelled, patch));
        } else {
          var ok := repository.Transition(id, Cancelled, patch);
        }
        SyncDriver(driver, D.Available);
      }
    }

    method HandleRideCancelled(id: string, reason: ReasonField, eventId: string) returns (reply: Reply)
      modifies this, repository
      ensures Handles(Call(CancelRide(id, EffectiveReason(reason)), Some(eventId)), reply)
    {
      reply := CancelWith(id, EffectiveReason(reason), Some(eventId));
    }

    method HandleDriverRejected(id: string, eventId: string) returns (reply: Reply)
      modifies this, repository
      ensures Handles(Call(CancelRide(id, Some(NoDriversAvailable)), Some(eventId)), reply)
    {
      reply := CancelWith(id, Some(NoDriversAvailable), Some(eventId));
    }

    method Cancel(id: string, reason: ReasonField) returns (reply: Reply)
      modifies this, repository
      ensures Handles(Call(CancelRide(id, EffectiveReason(reason)), None), reply)
    {
      reply := CancelWith(id, EffectiveReason(reason), None);
    }

    method Decline(id: string) returns (reply: Reply)
      modifies this, repository
      ensures Handles(Call(CancelRide(id, Some(DriverCancelled)), None), reply)
    {
      reply := CancelWith(id, Some(DriverCancelled), None);
    }

    /** `draw` is the number randomInt(0, 10000) returned. */
    method Accept(id: string, draw: nat) returns (reply: Reply)
      requires draw < 10000
      modifies this, repository
      ensures Handles(Call(TripHandlers.Accept(id, draw), None), reply)
    {
      reply := FindAndGuard(id, DriverArriving);
      if reply.Done? {
        var ok := repository.Transition(id, DriverArriving, NO_PATCH.(otp := Some(MintOtp(draw))));
      }
    }

    method MarkDriverArrived(id: string) returns (reply: Reply)
      modifies this, repository
      ensures Handles(Call(MarkArrived(id), None), reply)
    {
      reply := FindAndGuard(id, DriverArrived);
      if reply.Done? {
        var ok := repository.Transition(id, DriverArrived, NO_PATCH);
      }
    }

    method Start(id: string, otp: string, caller: Option<string>) returns (reply: Reply)
      modifies this, repository
      ensures Handles(Call(TripHandlers.Start(id, otp, caller), None), reply)
    {
      reply := FindAndGuard(id, InProgress);
      if reply.Done? {
        var row := repository.rides[id];
        if caller.Some? && caller.value != "" && row.driverId != caller {
          return Forbidden;
        }
        if row.otp.None? || row.otp.value == "" || row.otp.value != otp {
          return IncorrectOtp;
        }
        var ok := repository.Transition(id, InProgress, NO_PATCH.(clearOtp := true));
        SyncDriver(row.driverId, D.OnTrip);
      }
    }

    method Complete(id: string) returns (reply: Reply)
      modifies this, repository
      ensures Handles(Call(TripHandlers.Complete(id), None), reply)
    {
      reply := FindAndGuard(id, Completed);
      if reply.Done? {
        var row := repository.rides[id];
        var km := row.route.km;
        var ok := repository.Transition(id, Completed, NO_PATCH.(fare := Some(FareFor(km)), km := Some(km)));
        SyncDriver(row.driverId, D.Available);
      }
    }
  }
}
