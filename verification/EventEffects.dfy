/**
 What the messages of the trip service's partition do to its tables, in the fields of the message
 itself, from the envelope on the topic to the commit and the row.
 */
module EventEffects {
  import opened EventConsumer
  import opened EventSchema
  import opened Options
  import opened RideStateMachine
  import opened TripPipeline
  import opened TripStore
  import F = Partition
  import G = TripGuarantees
  import S = TripService
  import T = TripHandlers

  // ---------------------------------------------------------------- rejected and ignored

  /** The payload guards let this envelope through. */
  predicate WellFormed(e: Envelope) {
    if e.eventType == "ride.requested" then e.payload.rideId.Some? && e.payload.riderId.Some? && e.payload.route.Some?
    else if e.eventType == "driver.reserved" then e.payload.rideId.Some? && e.payload.driverId.Some?
    else e.payload.rideId.Some?
  }

  predicate Known(eventType: string) {
    eventType in {"ride.requested", "ride.cancelled", "driver.reserved", "driver.rejected"}
  }

  /** A handler throws at once on null and on a known event without its fields, and ignores unknown events. */
  lemma JobIff(value: Value)
    ensures JobOf(value).Reject? <==> !value.Json? || (Known(value.envelope.eventType) && !WellFormed(value.envelope))
    ensures JobOf(value).Ignore? <==> value.Json? && !Known(value.envelope.eventType)
  {
  }

  /** A message its handler rejects, or cannot be given, is never passed: it is parked. */
  lemma {:induction false} RejectedIsParked(c: F.Config, steps: seq<Step>, o: nat)
    requires c.maxAttempts >= 1
    requires var f := RunAll(c, steps).feed; f.committed.Some? && f.base <= o < f.committed.value
    ensures o < |RunAll(c, steps).feed.log|
    ensures var s := RunAll(c, steps);
            var value := s.feed.log[o].value;
            && (value.Malformed? || value.JsonNull? ==> F.Parked(c, s.feed, o))
            && (value.Json? && Known(value.envelope.eventType) && !WellFormed(value.envelope) ==> F.Parked(c, s.feed, o))
  {
    RunSettles(c, steps);
    assert Settled(c, RunAll(c, steps), o);
    JobIff(RunAll(c, steps).feed.log[o].value);
  }

  /** An unknown event is passed at the first attempt: no call, no record, no change to any table. */
  lemma IgnoredIsPassed(c: F.Config, s: State)
    requires c.maxAttempts >= 1 && s.feed.worker.Idle? && s.feed.position < |s.feed.log|
    requires s.feed.log[s.feed.position].value.Json? && !Known(s.feed.log[s.feed.position].value.envelope.eventType)
    ensures Exec(c, s, Feed(F.Fetch)) == s.(feed := s.feed.(position := s.feed.position + 1))
  {
    JobIff(s.feed.log[s.feed.position].value);
  }

  // ---------------------------------------------------------------- effects

  /** All calls that carry this event id are one and the same, however often it was made. */
  ghost predicate OneCall(t: T.State, eventId: string) {
    forall j, k :: 0 <= j < |t.calls| && 0 <= k < |t.calls| && t.calls[j].eventId == Some(eventId) == t.calls[k].eventId
                   ==> t.calls[j] == t.calls[k]
  }

  /** Commit number `i` is the only one with this event id. */
  ghost predicate Sole(t: T.State, eventId: string, i: nat) {
    && i < |t.commits| && t.commits[i].eventId == Some(eventId)
    && forall j :: 0 <= j < |t.commits| && t.commits[j].eventId == Some(eventId) ==> j == i
  }

  predicate MovesRide(work: Work, id: string, to: RideStatus, reason: Option<Reason>, driver: Option<string>) {
    work == Move(id, to, Patch(reason, driver, None, None, None, false))
  }

  /** The commit does what the envelope says, field by field. */
  predicate DoesWhatItSays(e: Envelope, work: Work) {
    var p := e.payload;
    && WellFormed(e) && Known(e.eventType)
    && (e.eventType == "ride.requested" ==>
          work.CreateAndMatch? && Some(work.input.id) == p.rideId && Some(work.input.riderId) == p.riderId && Some(work.input.route) == p.route)
    && (e.eventType == "ride.cancelled" ==>
          MovesRide(work, p.rideId.value, Cancelled,
                    if p.reason.Undefined? then Some(RiderCancelled) else if p.reason.Falsy? then None else Some(p.reason.reason), None))
    && (e.eventType == "driver.reserved" ==> MovesRide(work, p.rideId.value, Matched, None, p.driverId))
    && (e.eventType == "driver.rejected" ==> MovesRide(work, p.rideId.value, Cancelled, Some(NoDriversAvailable), None))
  }

  /** The ride of the request is in the table, with its rider and route. */
  predicate RideStands(db: Db, p: Payload) {
    && p.rideId.Some? && p.rideId.value in db.rides
    && Some(db.rides[p.rideId.value].riderId) == p.riderId && Some(db.rides[p.rideId.value].route) == p.route
  }

  ghost predicate HadItsEffect(t: T.State, e: Envelope) {
    exists i: nat :: Sole(t, e.eventId, i) && DoesWhatItSays(e, t.commits[i].work)
                     && (e.eventType == "ride.requested" ==> RideStands(t.db, e.payload))
  }

  /** The work its call asks for is what the envelope says. */
  lemma CallSays(e: Envelope, work: Work)
    requires Decode(e).Run? && T.Implements(work, Decode(e).call.action)
    ensures DoesWhatItSays(e, work)
  {
  }

  lemma SoleEffectSays(t: T.State, e: Envelope, i: nat)
    requires Decode(e).Run? && SoleEffect(t, Decode(e).call, i) && OneCall(t, e.eventId) && Decode(e).call in t.calls
    requires G.CreationsStand(t)
    ensures HadItsEffect(t, e)
  {
    DecodedCallHasId(e);
    CallSays(e, t.commits[i].work);
    assert Sole(t, e.eventId, i);
    if e.eventType == "ride.requested" {
      assert G.CreationStands(t.db, t.commits[i].work.input);
    }
  }

  lemma HandledHadEffect(t: T.State, e: Envelope)
    requires T.TablesOk(t) && T.OriginsOk(t) && G.CreationsStand(t)
    requires HandledBy(t, Json(e)) && Known(e.eventType) && OneCall(t, e.eventId)
    ensures HadItsEffect(t, e)
            || (e.eventType == "ride.requested" && e.payload.rideId.Some? && e.payload.rideId.value in t.db.rides
                && !T.Committed(t.commits, e.eventId))
  {
    JobIff(Json(e));
    DecodedCallHasId(e);
    var call := Decode(e).call;
    if e.eventId in t.db.ledger {
      LedgerMeansSoleEffect(t, call);
      var i: nat :| SoleEffect(t, call, i);
      SoleEffectSays(t, e, i);
    }
  }

  /**
   Effect of a message: one the partition has committed past and not parked, with an event id no other
   call shares, has done in the trip tables exactly once what its own fields say. ride.requested: ride
   rideId is there, with rider riderId and its route. ride.cancelled: rideId moved to CANCELLED for the
   given reason, RIDER_CANCELLED if there was none, no reason if it was falsy. driver.reserved: rideId
   moved to MATCHED with driverId. driver.rejected: rideId moved to CANCELLED for NO_DRIVERS_AVAILABLE.
   Only a request for a ride that was in the table already has done nothing.
   */
  lemma {:induction false} MessageHadItsEffect(c: F.Config, steps: seq<Step>, o: nat)
    requires c.maxAttempts >= 1
    requires var f := RunAll(c, steps).feed; f.committed.Some? && f.base <= o < f.committed.value <= |f.log|
    requires var s := RunAll(c, steps);
             && s.feed.log[o].value.Json? && !F.Parked(c, s.feed, o)
             && Known(s.feed.log[o].value.envelope.eventType) && OneCall(s.trip, s.feed.log[o].value.envelope.eventId)
    ensures var t, e := RunAll(c, steps).trip, RunAll(c, steps).feed.log[o].value.envelope;
            || HadItsEffect(t, e)
            || (e.eventType == "ride.requested" && e.payload.rideId.Some? && e.payload.rideId.value in t.db.rides
                && !T.Committed(t.commits, e.eventId))
  {
    var s := RunAll(c, steps);
    RunSettles(c, steps);
    PipelineRefinesTrips(c, steps);
    G.RunKeepsCreations(Trace(c, steps));
    assert Settled(c, s, o);
    HandledHadEffect(s.trip, s.feed.log[o].value.envelope);
  }

  /** A crash ends the handler at hand, whatever it was about to do, and changes no table. */
  lemma CrashEndsHandler(c: F.Config, s: State)
    requires s.feed.worker.Busy? && s.feed.worker.pid.Some?
    ensures var t := Exec(c, s, Feed(F.Crash));
            && t.trip == s.trip.(procs := s.trip.procs - {s.feed.worker.pid.value}) && t.feed.worker.Idle?
            && t.feed.position == if s.feed.committed.Some? then s.feed.committed.value else |s.feed.log|
  {
  }

  // ---------------------------------------------------------------- records and replays

  /** In every run each dead-letter record is of the message at its offset, which a replay brings back. */
  lemma {:induction false} RunRecords(c: F.Config, steps: seq<Step>)
    requires c.maxAttempts >= 1
    ensures F.RecordsOk(c, RunAll(c, steps).feed)
  {
    if |steps| > 0 {
      var prev, step := steps[..|steps| - 1], steps[|steps| - 1];
      var s := RunAll(c, prev);
      RunRecords(c, prev);
      RunSettles(c, prev);
      if step.Feed? {
        F.ExecKeepsRecords(c, s.feed, step.step, OpeningOf(s), AttemptOf(s));
      }
    }
  }

  // ---------------------------------------------------------------- a message left alone

  function RunFrom(c: F.Config, s: State, steps: seq<Step>): State
    decreases |steps|
  {
    if |steps| == 0 then s else RunFrom(c, Exec(c, s, steps[0]), steps[1..])
  }

  lemma RunFromCons(c: F.Config, s: State, step: Step, rest: seq<Step>)
    ensures RunFrom(c, s, [step] + rest) == RunFrom(c, Exec(c, s, step), rest)
  {
    assert ([step] + rest)[1..] == rest;
  }

  lemma {:induction false} RunFromAppend(c: F.Config, s: State, steps: seq<Step>, more: seq<Step>)
    ensures RunFrom(c, s, steps + more) == RunFrom(c, RunFrom(c, s, steps), more)
    decreases |steps|
  {
    if |steps| == 0 {
      assert steps + more == more;
    } else {
      assert steps + more == [steps[0]] + (steps[1..] + more);
      RunFromCons(c, s, steps[0], steps[1..] + more);
      RunFromAppend(c, Exec(c, s, steps[0]), steps[1..], more);
    }
  }

  /** The message at hand has been passed, with no record of it. */
  ghost predicate PassedBy(s: State, t: State) {
    t.feed == s.feed.(position := s.feed.position + 1)
  }

  /** It has been passed with a record of it, and no table has changed. */
  ghost predicate ParkedBy(c: F.Config, s: State, t: State) {
    && s.feed.position < |s.feed.log| && |t.feed.dlq| > 0
    && var r := t.feed.dlq[|t.feed.dlq| - 1];
       && F.Describes(c, r, s.feed.position, s.feed.log[s.feed.position])
       && t.feed == s.feed.(position := s.feed.position + 1, dlq := s.feed.dlq + [r])
       && t.trip.db == s.trip.db && t.trip.syncs == s.trip.syncs
  }

  /** Attempt number `n` at the message is about to begin its handler, as the latest call. */
  ghost predicate Attempting(c: F.Config, s: State, call: T.Call, n: nat, phase: T.Phase) {
    && s.feed.position < |s.feed.log| && JobOf(s.feed.log[s.feed.position].value) == Run(call)
    && |s.trip.calls| > 0 && s.feed.worker == F.Busy(n, Some(|s.trip.calls| - 1)) && 1 <= n <= c.maxAttempts
    && |s.trip.calls| - 1 in s.trip.procs
    && s.trip.procs[|s.trip.calls| - 1].call == call && s.trip.procs[|s.trip.calls| - 1].phase == phase
  }

  lemma AdvanceKeepsCalls(s: T.State, pid: nat)
    requires pid in s.procs && pid < |s.calls|
    ensures var t := T.Exec(s, T.Advance(pid)); t.calls == s.calls && pid in t.procs && t.procs[pid].call == s.procs[pid].call
  {
    TripKeepsCall(s, T.Advance(pid), pid);
  }

  /** The handler takes `n` steps and nothing else happens. */
  lemma {:induction false} HandlerSteps(c: F.Config, s: State, pid: nat, n: nat) returns (steps: seq<Step>)
    requires pid in s.trip.procs && pid < |s.trip.calls|
    ensures var t := RunFrom(c, s, steps);
            && t.feed == s.feed && t.trip == S.AdvanceBy(s.trip, pid, n) && t.trip.calls == s.trip.calls
            && pid in t.trip.procs && t.trip.procs[pid].call == s.trip.procs[pid].call
    decreases n
  {
    if n == 0 {
      steps := [];
    } else {
      var step := Trip(T.Advance(pid));
      AdvanceKeepsCalls(s.trip, pid);
      var rest := HandlerSteps(c, Exec(c, s, step), pid, n - 1);
      RunFromCons(c, s, step, rest);
      steps := [step] + rest;
    }
  }

  /** One attempt: the handler does what `Handle` says and ends as its reply says. */
  lemma AttemptRuns(c: F.Config, s: State, call: T.Call, n: nat) returns (steps: seq<Step>)
    requires Attempting(c, s, call, n, T.Ready)
    ensures var t, h := RunFrom(c, s, steps), S.Handle(s.trip.db, call);
            && t.feed == s.feed && t.trip.db == h.db && t.trip.syncs == s.trip.syncs + S.SentBy(|s.trip.calls| - 1, h.syncs)
            && Attempting(c, t, call, n, if h.reply in {S.Done, S.Skipped} then T.Returned else T.Threw)
  {
    JobsWellFormed(s.feed.log[s.feed.position].value);
    steps := HandlerSteps(c, s, |s.trip.calls| - 1, 4);
    S.UninterruptedHandler(s.trip, |s.trip.calls| - 1);
  }

  lemma ErrorsChangeNothing(db: Db, call: T.Call)
    ensures S.Handle(db, call).reply !in {S.Done, S.Skipped} ==> S.Handle(db, call).db == db && S.Handle(db, call).syncs == []
  {
  }

  lemma RetryBegins(c: F.Config, s: State, call: T.Call, n: nat)
    requires Attempting(c, s, call, n, T.Threw) && n < c.maxAttempts
    ensures var t := Exec(c, s, Feed(F.Finish));
            && Attempting(c, t, call, n + 1, T.Ready)
            && t.trip.db == s.trip.db && t.trip.syncs == s.trip.syncs && t.feed == s.feed.(worker := t.feed.worker)
  {
    JobsWellFormed(s.feed.log[s.feed.position].value);
    assert Spawns(c, s, Feed(F.Finish));
  }

  lemma LastAttemptParks(c: F.Config, s: State, call: T.Call)
    requires c.maxAttempts >= 1 && Attempting(c, s, call, c.maxAttempts, T.Threw)
    ensures ParkedBy(c, s.(feed := s.feed.(worker := F.Idle)), Exec(c, Exec(c, s, Feed(F.Finish)), Feed(F.Park(Acked))))
  {
    assert TripStepOf(c, s, Feed(F.Finish)).None?;
  }

  lemma ReturnPasses(c: F.Config, s: State, call: T.Call, n: nat)
    requires Attempting(c, s, call, n, T.Returned)
    ensures var t := Exec(c, s, Feed(F.Finish));
            t.trip == s.trip && t.feed == s.feed.(position := s.feed.position + 1, worker := F.Idle)
  {
    assert TripStepOf(c, s, Feed(F.Finish)).None?;
  }

  /** From the start of attempt number `n`, with nothing else going on. */
  lemma {:induction false} AttemptsDecide(c: F.Config, s: State, call: T.Call, n: nat) returns (steps: seq<Step>)
    requires Attempting(c, s, call, n, T.Ready)
    ensures var t, h, idle := RunFrom(c, s, steps), S.Handle(s.trip.db, call), s.(feed := s.feed.(worker := F.Idle));
            && (h.reply in {S.Done, S.Skipped} ==> t.trip.db == h.db && PassedBy(idle, t))
            && (h.reply !in {S.Done, S.Skipped} ==> ParkedBy(c, idle, t))
    decreases c.maxAttempts - n
  {
    var handler := AttemptRuns(c, s, call, n);
    var s1 := RunFrom(c, s, handler);
    var s2 := Exec(c, s1, Feed(F.Finish));
    ErrorsChangeNothing(s.trip.db, call);
    var rest: seq<Step>;
    if S.Handle(s.trip.db, call).reply in {S.Done, S.Skipped} {
      ReturnPasses(c, s1, call, n);
      rest := [];
    } else if n < c.maxAttempts {
      RetryBegins(c, s1, call, n);
      rest := AttemptsDecide(c, s2, call, n + 1);
    } else {
      LastAttemptParks(c, s1, call);
      rest := [Feed(F.Park(Acked))] + [];
      RunFromCons(c, s2, Feed(F.Park(Acked)), []);
    }
    RunFromCons(c, s1, Feed(F.Finish), rest);
    RunFromAppend(c, s, handler, [Feed(F.Finish)] + rest);
    steps := handler + ([Feed(F.Finish)] + rest);
  }

  /**
   A message left alone: its handler answers as `Handle` does, and if that is no error the message is
   passed with that effect and no record of it; if it is one, every attempt meets it, nothing changes,
   and the message is parked. So it gets its effect exactly when its handler answers no error.
   */
  lemma {:induction false} LeftAlone(c: F.Config, s: State, call: T.Call) returns (steps: seq<Step>)
    requires c.maxAttempts >= 1 && s.feed.worker.Idle? && s.feed.position < |s.feed.log|
    requires JobOf(s.feed.log[s.feed.position].value) == Run(call)
    ensures var t, h := RunFrom(c, s, steps), S.Handle(s.trip.db, call);
            && (h.reply in {S.Done, S.Skipped} ==> t.trip.db == h.db && PassedBy(s, t))
            && (h.reply !in {S.Done, S.Skipped} ==> ParkedBy(c, s, t))
  {
    var s1 := Exec(c, s, Feed(F.Fetch));
    JobsWellFormed(s.feed.log[s.feed.position].value);
    assert Spawns(c, s, Feed(F.Fetch));
    assert Attempting(c, s1, call, 1, T.Ready) && s1.trip.db == s.trip.db && s1.trip.syncs == s.trip.syncs;
    var rest := AttemptsDecide(c, s1, call, 1);
    RunFromCons(c, s, Feed(F.Fetch), rest);
    steps := [Feed(F.Fetch)] + rest;
  }
}
