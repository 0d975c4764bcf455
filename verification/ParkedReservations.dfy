/**
 A driver.reserved message that comes too late, in particular one whose event has been applied
 already: on no schedule does the partition get past it without parking it.
 */
module ParkedReservations {
  import opened EventConsumer
  import opened TripPipeline
  import E = EventEffects
  import T = TripHandlers
  import F = Partition
  import G = TripGuarantees
  import R = DuplicateReservations

  /** The message at this offset asks to attach a driver to this ride. */
  predicate ReservationAt(log: seq<Message>, o: nat, id: string) {
    && o < |log|
    && var job := JobOf(log[o].value);
       job.Run? && job.call.action.ReserveDriver? && job.call.action.ride == id
  }

  /** A record for the message at this offset has been parked since `before`. */
  ghost predicate ParkedSince(c: F.Config, before: State, s: State, o: nat)
    requires o < |s.feed.log|
  {
    exists k :: |before.feed.dlq| <= k < |s.feed.dlq| && F.RecordFor(c, s.feed.dlq[k], o, s.feed.log[o])
  }

  /** An attempt at this offset has not returned. */
  ghost predicate AttemptLate(s: State, o: nat) {
    s.feed.position == o && s.feed.worker.Busy? && s.feed.worker.pid.Some? ==> R.NeverReturned(s.trip, s.feed.worker.pid.value)
  }

  ghost predicate Blocked(c: F.Config, before: State, s: State, o: nat, id: string) {
    && ReservationAt(s.feed.log, o, id)
    && G.HasMoved(s.trip.commits, id)
    && AttemptLate(s, o)
    && (s.feed.position <= o || s.feed.base > o || ParkedSince(c, before, s, o))
  }

  ghost predicate ReachableOk(c: F.Config, s: State) {
    PipelineOk(c, s) && G.HistoryOk(s.trip)
  }

  lemma {:induction false} RunOk(c: F.Config, steps: seq<Step>)
    requires c.maxAttempts >= 1
    ensures ReachableOk(c, RunAll(c, steps))
  {
    RunSettles(c, steps);
    PipelineRefinesTrips(c, steps);
    G.RunHistory(Trace(c, steps));
  }

  /** The attempt at hand after a step: the one that was there, or one that has just been spawned. */
  lemma AttemptAfter(c: F.Config, s: State, step: Step)
    requires F.WorkerOk(c, s.feed)
    ensures var t := Exec(c, s, step);
            t.feed.worker.Busy? && t.feed.worker.pid.Some? ==>
              || (t.feed.worker == s.feed.worker && t.feed.position == s.feed.position && (step.Trip? || t.trip == s.trip))
              || (Spawns(c, s, step) && t.feed.worker.pid.value == |s.trip.calls|
                  && t.trip == T.Exec(s.trip, T.Spawn(JobOf(s.feed.log[s.feed.position].value).call)))
  {
  }

  lemma SpawnedIsReady(s: T.State, call: T.Call)
    requires T.WellFormed(call)
    ensures R.NeverReturned(T.Exec(s, T.Spawn(call)), |s.calls|)
  {
  }

  lemma TripStepKeepsLate(c: F.Config, s: State, step: T.Step, o: nat, id: string)
    requires ReachableOk(c, s) && ReservationAt(s.feed.log, o, id) && G.HasMoved(s.trip.commits, id) && AttemptLate(s, o)
    requires s.feed.position == o && s.feed.worker.Busy? && s.feed.worker.pid.Some?
    ensures R.NeverReturned(T.Exec(s.trip, step), s.feed.worker.pid.value)
  {
    var pid := s.feed.worker.pid.value;
    assert T.ProcOk(s.trip, pid, s.trip.procs[pid]);
    R.LatePhase(s.trip, step, pid, id);
  }

  lemma StepKeepsLate(c: F.Config, s: State, step: Step, o: nat, id: string)
    requires ReachableOk(c, s) && ReservationAt(s.feed.log, o, id) && G.HasMoved(s.trip.commits, id) && AttemptLate(s, o)
    ensures AttemptLate(Exec(c, s, step), o)
  {
    var t := Exec(c, s, step);
    AttemptAfter(c, s, step);
    if t.feed.position == o && t.feed.worker.Busy? && t.feed.worker.pid.Some? {
      if Spawns(c, s, step) && t.feed.worker.pid.value == |s.trip.calls| {
        JobsWellFormed(s.feed.log[s.feed.position].value);
        SpawnedIsReady(s.trip, JobOf(s.feed.log[s.feed.position].value).call);
      } else if step.Trip? {
        TripStepKeepsLate(c, s, step.tripStep, o, id);
      }
    }
  }

  /** The partition leaves such a message behind only by parking it. */
  lemma PassesByParking(c: F.Config, before: State, s: State, step: Step, o: nat, id: string)
    requires c.maxAttempts >= 1 && ReachableOk(c, s) && ReservationAt(s.feed.log, o, id) && AttemptLate(s, o)
    requires |before.feed.dlq| <= |s.feed.dlq|
    requires s.feed.position == o && Exec(c, s, step).feed.position == o + 1 && Exec(c, s, step).feed.base <= o
    ensures |Exec(c, s, step).feed.log| > o && ParkedSince(c, before, Exec(c, s, step), o)
  {
    var t := Exec(c, s, step);
    if step.Feed? && step.step.Park? {
      assert t.feed.dlq[|s.feed.dlq|] == s.feed.worker.record;
      assert F.RecordFor(c, t.feed.dlq[|s.feed.dlq|], o, t.feed.log[o]);
    }
  }

  lemma ParkedSinceStays(c: F.Config, before: State, s: State, t: State, o: nat)
    requires o < |s.feed.log| && ParkedSince(c, before, s, o) && s.feed.dlq <= t.feed.dlq && s.feed.log <= t.feed.log
    ensures ParkedSince(c, before, t, o)
  {
    var k :| |before.feed.dlq| <= k < |s.feed.dlq| && F.RecordFor(c, s.feed.dlq[k], o, s.feed.log[o]);
    assert t.feed.dlq[k] == s.feed.dlq[k] && t.feed.log[o] == s.feed.log[o];
  }

  lemma StepKeepsBlocked(c: F.Config, before: State, s: State, step: Step, o: nat, id: string)
    requires c.maxAttempts >= 1 && ReachableOk(c, s) && Blocked(c, before, s, o, id) && before.feed.dlq <= s.feed.dlq
    ensures Blocked(c, before, Exec(c, s, step), o, id) && before.feed.dlq <= Exec(c, s, step).feed.dlq
  {
    var t := Exec(c, s, step);
    TripGrows(c, s, step);
    FeedMoves(c, s, step);
    StepKeepsLate(c, s, step, o, id);
    R.HasMovedStays(s.trip.commits, t.trip.commits, id);
    assert t.feed.log[o] == s.feed.log[o];
    if ParkedSince(c, before, s, o) {
      ParkedSinceStays(c, before, s, t, o);
    } else if s.feed.position == o && t.feed.position == o + 1 && t.feed.base <= o {
      PassesByParking(c, before, s, step, o, id);
    }
  }

  /**
   A driver.reserved message at hand for a ride that some transition has already committed on is
   never skipped: in every continuation, the partition is past it only with a record of it parked
   since, unless a restart without a committed offset took the group past it altogether.
   */
  lemma {:induction false} LateReservationIsParked(c: F.Config, steps: seq<Step>, more: seq<Step>, o: nat, id: string)
    requires c.maxAttempts >= 1
    requires var s := RunAll(c, steps);
             s.feed.position == o && s.feed.worker.Idle? && ReservationAt(s.feed.log, o, id) && G.HasMoved(s.trip.commits, id)
    ensures var s, t := RunAll(c, steps), RunAll(c, steps + more);
            && s.feed.dlq <= t.feed.dlq && Blocked(c, s, t, o, id)
            && (s.feed.committed.Some? ==> t.feed.committed.Some? && t.feed.base == s.feed.base)
            && (t.feed.position > o && s.feed.committed.Some? ==> ParkedSince(c, s, t, o))
    decreases |more|
  {
    var s := RunAll(c, steps);
    RunOk(c, steps);
    if |more| > 0 {
      var prev := more[..|more| - 1];
      var step := more[|more| - 1];
      assert steps + more == steps + prev + [step];
      RunAllSnoc(c, steps + prev, step);
      LateReservationIsParked(c, steps, prev, o, id);
      RunOk(c, steps + prev);
      StepKeepsBlocked(c, s, RunAll(c, steps + prev), step, o, id);
      FeedMoves(c, RunAll(c, steps + prev), step);
    } else {
      assert steps + more == steps;
    }
  }

  lemma AppliedReservationMoved(t: T.State, call: T.Call)
    requires T.TablesOk(t) && T.OriginsOk(t) && call.action.ReserveDriver? && call.eventId.Some?
    requires call.eventId.value in t.db.ledger && OnlyCallWithItsId(t, call)
    ensures G.HasMoved(t.commits, call.action.ride)
  {
    LedgerMeansSoleEffect(t, call);
    var i: nat :| SoleEffect(t, call, i);
    assert t.commits[i].work.Move? && t.commits[i].work.id == call.action.ride;
  }

  /**
   So a redelivered driver.reserved whose event is already in the ledger is not skipped as a
   duplicate: from then on the partition gets past it only by parking it on the dead-letter topic.
   */
  lemma {:induction false} DuplicateReservationIsParked(c: F.Config, steps: seq<Step>, more: seq<Step>, o: nat, id: string)
    requires c.maxAttempts >= 1
    requires var s := RunAll(c, steps);
             && s.feed.position == o && s.feed.worker.Idle? && s.feed.committed.Some? && ReservationAt(s.feed.log, o, id)
             && JobOf(s.feed.log[o].value).call.eventId.value in s.trip.db.ledger
             && OnlyCallWithItsId(s.trip, JobOf(s.feed.log[o].value).call)
    ensures var s, t := RunAll(c, steps), RunAll(c, steps + more);
            o < |t.feed.log| && (t.feed.position > o ==> ParkedSince(c, s, t, o))
  {
    RunOk(c, steps);
    AppliedReservationMoved(RunAll(c, steps).trip, JobOf(RunAll(c, steps).feed.log[o].value).call);
    LateReservationIsParked(c, steps, more, o, id);
  }

  // ---------------------------------------------------------------- and it can be parked

  /** Left to itself, it uses up its attempts and is parked, with the tables unchanged. */
  lemma {:induction false} StaleReservationIsParked(c: F.Config, s: State, id: string) returns (steps: seq<Step>)
    requires c.maxAttempts >= 1 && s.feed.worker.Idle? && G.HistoryOk(s.trip)
    requires ReservationAt(s.feed.log, s.feed.position, id) && G.HasMoved(s.trip.commits, id)
    ensures E.ParkedBy(c, s, E.RunFrom(c, s, steps))
  {
    assert G.RideHistoryOk(s.trip, id);
    steps := E.LeftAlone(c, s, JobOf(s.feed.log[s.feed.position].value).call);
  }
}
