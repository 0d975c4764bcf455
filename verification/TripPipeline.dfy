/**
 The partition of `Partition` with the trip service behind it: the handlers of `TripHandlers` are the
 work of its attempts, and any other trip activity is interleaved.
 */
module TripPipeline {
  import opened EventConsumer
  import opened EventSchema
  import opened Options
  import opened TripStore
  import F = Partition
  import G = TripGuarantees
  import T = TripHandlers

  datatype Job = Run(call: T.Call) | Ignore | Reject

  /** The event-type branches and payload guards of ride-events.consumer.ts. */
  function Decode(envelope: Envelope): Job {
    var p := envelope.payload;
    if envelope.eventType == "ride.requested" then
      if p.rideId.Some? && p.riderId.Some? && p.route.Some? then
        Run(T.Call(T.RequestRide(RideInput(p.rideId.value, p.riderId.value, p.route.value)), Some(envelope.eventId)))
      else Reject
    else if envelope.eventType == "ride.cancelled" then
      if p.rideId.Some? then
        Run(T.Call(T.CancelRide(p.rideId.value, EffectiveReason(p.reason)), Some(envelope.eventId)))
      else Reject
    else if envelope.eventType == "driver.reserved" then
      if p.rideId.Some? && p.driverId.Some? then
        Run(T.Call(T.ReserveDriver(p.rideId.value, p.driverId.value), Some(envelope.eventId)))
      else Reject
    else if envelope.eventType == "driver.rejected" then
      if p.rideId.Some? then
        Run(T.Call(T.CancelRide(p.rideId.value, Some(NoDriversAvailable)), Some(envelope.eventId)))
      else Reject
    else Ignore
  }

  /** A null envelope makes the handler throw on its first property access. */
  function JobOf(value: Value): Job {
    if value.Json? then Decode(value.envelope) else Reject
  }

  datatype State = State(trip: T.State, feed: F.State)

  datatype Step = Feed(step: F.Step) | Trip(tripStep: T.Step)

  function Init(c: F.Config): State {
    State(T.INIT, F.Init(c))
  }

  /** A process started by an attempt is number |calls|, the next one of the trip service. */
  function OpeningOf(s: State): F.Opening {
    if s.feed.position >= |s.feed.log| then F.Throws
    else
      match JobOf(s.feed.log[s.feed.position].value)
      case Ignore => F.Passes
      case Reject => F.Throws
      case Run(_) => F.Runs(|s.trip.calls|)
  }

  function AttemptOf(s: State): F.Attempt {
    if !s.feed.worker.Busy? then F.Underway
    else if s.feed.worker.pid.None? then F.Threw
    else if s.feed.worker.pid.value !in s.trip.procs then F.Underway
    else
      match s.trip.procs[s.feed.worker.pid.value].phase
      case Returned => F.Returned
      case Threw => F.Threw
      case _ => F.Underway
  }

  predicate Spawns(c: F.Config, s: State, step: Step) {
    && step.Feed? && F.Starts(c, s.feed, step.step, AttemptOf(s))
    && s.feed.position < |s.feed.log| && JobOf(s.feed.log[s.feed.position].value).Run?
  }

  /** The trip-service step contained in this pipeline step, if any. */
  function TripStepOf(c: F.Config, s: State, step: Step): Option<T.Step> {
    if Spawns(c, s, step) then Some(T.Spawn(JobOf(s.feed.log[s.feed.position].value).call))
    else
      match step
      case Feed(f) =>
        if f.Crash? && s.feed.worker.Busy? && s.feed.worker.pid.Some? then Some(T.Kill(s.feed.worker.pid.value)) else None
      case Trip(t) => if t.Kill? && s.feed.worker.Busy? && s.feed.worker.pid == Some(t.pid) then None else Some(t)
  }

  function Exec(c: F.Config, s: State, step: Step): State {
    var t := TripStepOf(c, s, step);
    State(if t.Some? then T.Exec(s.trip, t.value) else s.trip,
          if step.Feed? then F.Exec(c, s.feed, step.step, OpeningOf(s), AttemptOf(s)) else s.feed)
  }

  function RunAll(c: F.Config, steps: seq<Step>): State {
    if |steps| == 0 then Init(c) else Exec(c, RunAll(c, steps[..|steps| - 1]), steps[|steps| - 1])
  }

  // ---------------------------------------------------------------- projection onto the trip service

  function Trace(c: F.Config, steps: seq<Step>): seq<T.Step> {
    if |steps| == 0 then []
    else
      var prev := steps[..|steps| - 1];
      var t := TripStepOf(c, RunAll(c, prev), steps[|steps| - 1]);
      if t.Some? then Trace(c, prev) + [t.value] else Trace(c, prev)
  }

  /** Seen from the trip service, a pipeline run is one of the runs of `TripHandlers`. */
  lemma {:induction false} PipelineRefinesTrips(c: F.Config, steps: seq<Step>)
    ensures RunAll(c, steps).trip == T.Run(Trace(c, steps))
  {
    if |steps| > 0 {
      var prev := steps[..|steps| - 1];
      PipelineRefinesTrips(c, prev);
      var t := TripStepOf(c, RunAll(c, prev), steps[|steps| - 1]);
      if t.Some? {
        T.RunSnoc(Trace(c, prev), t.value);
      }
    }
  }

  // ---------------------------------------------------------------- no lost message

  /** The handler has nothing to do for it, or has been called and its effect is in the database. */
  predicate HandledBy(trip: T.State, value: Value) {
    value.Json? && match Decode(value.envelope)
                   case Ignore => true
                   case Reject => false
                   case Run(call) => call in trip.calls && T.Absorbed(trip.db, call)
  }

  /** The process of the worker is the one its message asked for. */
  predicate WorkerFits(s: State) {
    s.feed.worker.Busy? && s.feed.position < |s.feed.log| ==>
      var job, pid := JobOf(s.feed.log[s.feed.position].value), s.feed.worker.pid;
      && (pid.None? ==> job.Reject?)
      && (pid.Some? ==> pid.value in s.trip.procs && job == Run(s.trip.procs[pid.value].call))
  }

  ghost predicate Settled(c: F.Config, s: State, o: nat)
    requires o < |s.feed.log|
  {
    F.Settled(c, s.feed, o, v => HandledBy(s.trip, v))
  }

  ghost predicate PipelineOk(c: F.Config, s: State) {
    && T.Inv(s.trip) && F.WorkerOk(c, s.feed) && WorkerFits(s)
    && F.AllSettled(c, s.feed, v => HandledBy(s.trip, v)) && F.JoinedOk(c, s.feed)
  }

  lemma TripGrows(c: F.Config, s: State, step: Step)
    requires T.Inv(s.trip)
    ensures T.Grows(s.trip, Exec(c, s, step).trip) && T.Inv(Exec(c, s, step).trip)
  {
    var t := TripStepOf(c, s, step);
    if t.Some? {
      T.ExecKeepsInv(s.trip, t.value);
    }
  }

  lemma HandledStays(s: T.State, t: T.State, value: Value)
    requires T.Grows(s, t) && HandledBy(s, value)
    ensures HandledBy(t, value)
  {
  }

  /** A handler that returned has absorbed its message. */
  lemma TripVouches(c: F.Config, s: State, step: F.Step)
    requires T.Inv(s.trip) && F.WorkerOk(c, s.feed) && WorkerFits(s)
    ensures F.Vouches(c, s.feed, step, OpeningOf(s), AttemptOf(s), v => HandledBy(s.trip, v))
  {
    if s.feed.position < |s.feed.log| && s.feed.worker.Busy? && AttemptOf(s).Returned? {
      assert T.ProcOk(s.trip, s.feed.worker.pid.value, s.trip.procs[s.feed.worker.pid.value]);
    }
  }

  lemma ExecSettles(c: F.Config, s: State, step: Step)
    requires c.maxAttempts >= 1 && PipelineOk(c, s)
    ensures var t := Exec(c, s, step);
            F.WorkerOk(c, t.feed) && F.AllSettled(c, t.feed, v => HandledBy(t.trip, v)) && F.JoinedOk(c, t.feed)
  {
    var t := Exec(c, s, step);
    if step.Feed? {
      TripVouches(c, s, step.step);
      F.ExecSettles(c, s.feed, step.step, OpeningOf(s), AttemptOf(s), v => HandledBy(s.trip, v));
      F.ExecKeepsJoined(c, s.feed, step.step, OpeningOf(s), AttemptOf(s));
    }
    TripGrows(c, s, step);
    forall v | HandledBy(s.trip, v)
      ensures HandledBy(t.trip, v)
    {
      HandledStays(s.trip, t.trip, v);
    }
    F.SettledWeakens(c, t.feed, v => HandledBy(s.trip, v), v => HandledBy(t.trip, v));
  }

  lemma TripKeepsCall(s: T.State, step: T.Step, pid: nat)
    requires pid in s.procs && pid < |s.calls| && !(step.Kill? && step.pid == pid)
    ensures pid in T.Exec(s, step).procs && T.Exec(s, step).procs[pid].call == s.procs[pid].call
  {
  }

  lemma JobsWellFormed(value: Value)
    ensures JobOf(value).Run? ==> T.WellFormed(JobOf(value).call)
  {
  }

  lemma TripKeepsWorker(c: F.Config, s: State, step: Step)
    requires step.Trip? && T.Inv(s.trip) && WorkerFits(s)
    ensures WorkerFits(Exec(c, s, step))
  {
    if s.feed.worker.Busy? && s.feed.worker.pid.Some? && s.feed.position < |s.feed.log| && TripStepOf(c, s, step).Some? {
      assert T.ProcOk(s.trip, s.feed.worker.pid.value, s.trip.procs[s.feed.worker.pid.value]);
      TripKeepsCall(s.trip, step.tripStep, s.feed.worker.pid.value);
    }
  }

  lemma FeedKeepsWorker(c: F.Config, s: State, trip: T.State, f: F.Step)
    requires F.WorkerOk(c, s.feed) && WorkerFits(s)
    requires Spawns(c, s, Feed(f)) ==>
               |s.trip.calls| in trip.procs && trip.procs[|s.trip.calls|].call == JobOf(s.feed.log[s.feed.position].value).call
    requires !f.Crash? ==>
               forall pid :: pid in s.trip.procs && pid < |s.trip.calls| ==> pid in trip.procs && trip.procs[pid].call == s.trip.procs[pid].call
    requires forall pid :: pid in s.trip.procs ==> pid < |s.trip.calls|
    ensures WorkerFits(State(trip, F.Exec(c, s.feed, f, OpeningOf(s), AttemptOf(s))))
  {
  }

  lemma SpawnRecords(s: T.State, call: T.Call)
    requires T.WellFormed(call)
    ensures var t := T.Exec(s, T.Spawn(call));
            && |s.calls| in t.procs && t.procs[|s.calls|].call == call
            && forall pid :: pid in s.procs && pid < |s.calls| ==> pid in t.procs && t.procs[pid] == s.procs[pid]
  {
  }

  lemma ExecKeepsWorker(c: F.Config, s: State, step: Step)
    requires T.Inv(s.trip) && F.WorkerOk(c, s.feed) && WorkerFits(s)
    ensures WorkerFits(Exec(c, s, step))
  {
    match step {
      case Trip(_) => TripKeepsWorker(c, s, step);
      case Feed(f) =>
        if Spawns(c, s, step) {
          JobsWellFormed(s.feed.log[s.feed.position].value);
          SpawnRecords(s.trip, JobOf(s.feed.log[s.feed.position].value).call);
        }
        ProcessesAreCalls(s.trip);
        FeedKeepsWorker(c, s, Exec(c, s, step).trip, f);
    }
  }

  lemma ProcessesAreCalls(s: T.State)
    requires T.ProcsOk(s)
    ensures forall pid :: pid in s.procs ==> pid < |s.calls|
  {
    forall pid | pid in s.procs
      ensures pid < |s.calls|
    {
      assert T.ProcOk(s, pid, s.procs[pid]);
    }
  }

  /** The feed only grows, and its reader stays, moves on by one, or goes where a restart takes it. */
  lemma FeedMoves(c: F.Config, s: State, step: Step)
    requires F.WorkerOk(c, s.feed) && s.feed.base <= F.LowestOffset(s.feed) <= s.feed.position <= |s.feed.log|
    ensures var f, g := s.feed, Exec(c, s, step).feed;
            && f.log <= g.log && f.dlq <= g.dlq
            && (g.position <= f.position || g.position == f.position + 1 || g.base == g.position)
            && (g.base == f.base || g.base == g.position)
            && (f.committed.Some? ==> g.committed.Some? && g.base == f.base)
  {
    if step.Feed? {
      F.ExecGrows(c, s.feed, step.step, OpeningOf(s), AttemptOf(s));
      F.PositionAfter(c, s.feed, step.step, OpeningOf(s), AttemptOf(s));
    }
  }

  lemma {:induction false} RunSettles(c: F.Config, steps: seq<Step>)
    requires c.maxAttempts >= 1
    ensures PipelineOk(c, RunAll(c, steps))
  {
    if |steps| > 0 {
      var prev := steps[..|steps| - 1];
      RunSettles(c, prev);
      TripGrows(c, RunAll(c, prev), steps[|steps| - 1]);
      ExecSettles(c, RunAll(c, prev), steps[|steps| - 1]);
      ExecKeepsWorker(c, RunAll(c, prev), steps[|steps| - 1]);
    }
  }

  lemma RunAllSnoc(c: F.Config, steps: seq<Step>, step: Step)
    ensures RunAll(c, steps + [step]) == Exec(c, RunAll(c, steps), step)
  {
    assert (steps + [step])[..|steps|] == steps;
  }

  lemma FeedSnoc(c: F.Config, steps: seq<Step>, f: F.Step)
    ensures var s := RunAll(c, steps);
            RunAll(c, steps + [Feed(f)]).feed == F.Exec(c, s.feed, f, OpeningOf(s), AttemptOf(s))
  {
    RunAllSnoc(c, steps, Feed(f));
  }

  /** With no attempt to make, the first message is fetched, passed and committed past. */
  lemma ZeroAttemptsLose(c: F.Config) returns (steps: seq<Step>)
    requires c.maxAttempts < 1
    ensures F.HasLost(c, RunAll(c, steps).feed)
  {
    FeedSnoc(c, [], F.Produce(Message(None, JsonNull)));
    steps := [] + [Feed(F.Produce(Message(None, JsonNull)))];
    F.NoAttemptSkips(c, RunAll(c, steps).feed, OpeningOf(RunAll(c, steps)), AttemptOf(RunAll(c, steps)));
    FeedSnoc(c, steps, F.Fetch);
    steps := steps + [Feed(F.Fetch)];
    F.CommitMoves(c, RunAll(c, steps).feed, OpeningOf(RunAll(c, steps)), AttemptOf(RunAll(c, steps)));
    FeedSnoc(c, steps, F.CommitOffset(|c.seed| + 1));
    steps := steps + [Feed(F.CommitOffset(|c.seed| + 1))];
  }

  /** A crash before the first commit takes the group past the message it was working on. */
  lemma UnjoinedGroupLoses(c: F.Config) returns (steps: seq<Step>)
    requires c.maxAttempts >= 1 && !c.joined
    ensures F.HasLost(c, RunAll(c, steps).feed)
  {
    FeedSnoc(c, [], F.Produce(Message(None, JsonNull)));
    steps := [] + [Feed(F.Produce(Message(None, JsonNull)))];
    var s := RunAll(c, steps);
    FeedSnoc(c, steps, F.Fetch);
    steps := steps + [Feed(F.Fetch)];
    var t := RunAll(c, steps);
    F.AttemptThenCrash(c, s.feed, OpeningOf(s), AttemptOf(s), OpeningOf(t), AttemptOf(t));
    FeedSnoc(c, steps, F.Crash);
    steps := steps + [Feed(F.Crash)];
    steps := EmptyThenCommit(c, steps);
  }

  lemma EmptyThenCommit(c: F.Config, steps: seq<Step>) returns (more: seq<Step>)
    requires var f := RunAll(c, steps).feed;
             && f.position == f.base == |f.log| == |c.seed| + 1 && f.log[|c.seed|].value.JsonNull? && f.dlq == []
             && f.committed.None? && f.worker.Idle?
    ensures F.HasLost(c, RunAll(c, more).feed)
  {
    FeedSnoc(c, steps, F.Produce(Message(None, Missing)));
    more := steps + [Feed(F.Produce(Message(None, Missing)))];
    F.EmptyIsPassed(c, RunAll(c, more).feed, OpeningOf(RunAll(c, more)), AttemptOf(RunAll(c, more)));
    FeedSnoc(c, more, F.Fetch);
    more := more + [Feed(F.Fetch)];
    F.CommitMoves(c, RunAll(c, more).feed, OpeningOf(RunAll(c, more)), AttemptOf(RunAll(c, more)));
    FeedSnoc(c, more, F.CommitOffset(|c.seed| + 2));
    more := more + [Feed(F.CommitOffset(|c.seed| + 2))];
  }

  ghost predicate NothingLost(c: F.Config, s: State) {
    F.NothingLost(c, s.feed, v => HandledBy(s.trip, v))
  }

  /**
   From where the group began reading up to its committed offset every message is empty, handled or
   on the dead-letter topic, whatever crashes, failed parks and lost replies happen.
   */
  lemma {:induction false} NothingLostSinceBase(c: F.Config, steps: seq<Step>)
    requires c.maxAttempts >= 1
    ensures var s := RunAll(c, steps);
            && |c.seed| <= s.feed.base
            && (c.joined ==> s.feed.base == |c.seed| && s.feed.committed.Some?)
            && (s.feed.committed.Some? ==>
                  && s.feed.base <= s.feed.committed.value <= |s.feed.log|
                  && forall o :: s.feed.base <= o < s.feed.committed.value ==> Settled(c, s, o))
  {
    RunSettles(c, steps);
  }

  /**
   No lost message: in every run, every offset since the group first subscribed and below the
   committed one is empty, handled, or on the dead-letter topic. The code keeps this exactly when
   it makes at least one attempt and the broker held an offset of the group to begin with: without
   one, a crash or a failed park before the first commit resumes at the end of the log.
   */
  lemma {:induction false} NoMessageLostIff(c: F.Config)
    ensures (forall steps: seq<Step> :: NothingLost(c, RunAll(c, steps))) <==> c.maxAttempts >= 1 && c.joined
  {
    if c.maxAttempts >= 1 && c.joined {
      forall steps: seq<Step>
        ensures NothingLost(c, RunAll(c, steps))
      {
        RunSettles(c, steps);
        F.JoinedLosesNothing(c, RunAll(c, steps).feed, v => HandledBy(RunAll(c, steps).trip, v));
      }
    } else {
      var steps: seq<Step>;
      if c.maxAttempts < 1 {
        steps := ZeroAttemptsLose(c);
      } else {
        steps := UnjoinedGroupLoses(c);
      }
      F.LostIsLost(c, RunAll(c, steps).feed, v => HandledBy(RunAll(c, steps).trip, v));
      assert !NothingLost(c, RunAll(c, steps));
    }
  }

  /** Every call so far that carried this call's event id was this very call. */
  ghost predicate OnlyCallWithItsId(t: T.State, call: T.Call) {
    forall k :: 0 <= k < |t.calls| && t.calls[k].eventId == call.eventId ==> t.calls[k] == call
  }

  /** Commit number `i` is the only one with this call's event id, and is the work of a call that had it. */
  ghost predicate SoleEffect(t: T.State, call: T.Call, i: nat) {
    && i < |t.commits| && t.commits[i].eventId == call.eventId && T.FromCall(t, t.commits[i])
    && (forall j :: 0 <= j < |t.commits| && t.commits[j].eventId == call.eventId ==> j == i)
    && (OnlyCallWithItsId(t, call) ==> T.Implements(t.commits[i].work, call.action))
  }

  /** The three ways a message that is neither empty nor parked can have been dealt with. */
  ghost predicate DealtWith(t: T.State, value: Value) {
    && value.Json?
    && match Decode(value.envelope)
       case Ignore => true
       case Reject => false
       case Run(call) =>
         || (exists i: nat :: SoleEffect(t, call, i))
         || (call.action.RequestRide? && call.action.input.id in t.db.rides)
  }

  lemma LedgerMeansSoleEffect(t: T.State, call: T.Call)
    requires T.TablesOk(t) && T.OriginsOk(t) && call.eventId.Some? && call.eventId.value in t.db.ledger
    ensures exists i: nat :: SoleEffect(t, call, i)
  {
    assert T.Committed(t.commits, call.eventId.value);
    var i :| 0 <= i < |t.commits| && t.commits[i].eventId == call.eventId;
    assert T.FromCall(t, t.commits[i]);
    forall j | 0 <= j < |t.commits| && t.commits[j].eventId == call.eventId
      ensures j == i
    {
    }
    assert SoleEffect(t, call, i);
  }

  lemma DecodedCallHasId(envelope: Envelope)
    ensures Decode(envelope).Run? ==> Decode(envelope).call.eventId == Some(envelope.eventId)
  {
  }

  lemma HandledIsDealtWith(t: T.State, value: Value)
    requires T.TablesOk(t) && T.OriginsOk(t) && HandledBy(t, value)
    ensures DealtWith(t, value)
  {
    var job := Decode(value.envelope);
    DecodedCallHasId(value.envelope);
    if job.Run? && job.call.eventId.value in t.db.ledger {
      LedgerMeansSoleEffect(t, job.call);
    }
  }

  /**
   End to end: a message the partition has committed past and that was not parked has had its effect
   in the trip database exactly once, however often it was delivered, retried or replayed: one
   commit carries its event id, and if no other event shares that id it is this message's own work.
   The one other way out is a ride request whose ride was already in the table.
   */
  lemma {:induction false} DeliveredExactlyOnce(c: F.Config, steps: seq<Step>, o: nat)
    requires c.maxAttempts >= 1
    requires RunAll(c, steps).feed.committed.Some? && RunAll(c, steps).feed.base <= o < RunAll(c, steps).feed.committed.value
    ensures o < |RunAll(c, steps).feed.log|
    ensures var s := RunAll(c, steps);
            !s.feed.log[o].value.Missing? && !F.Parked(c, s.feed, o) ==> DealtWith(s.trip, s.feed.log[o].value)
  {
    RunSettles(c, steps);
    var s := RunAll(c, steps);
    assert Settled(c, s, o);
    if !s.feed.log[o].value.Missing? && !F.Parked(c, s.feed, o) {
      HandledIsDealtWith(s.trip, s.feed.log[o].value);
    }
  }

  /** The trip tables behind the pipeline are the fold of their commits, each event id once. */
  lemma {:induction false} PipelineExactlyOnce(c: F.Config, steps: seq<Step>)
    ensures var s := RunAll(c, steps).trip;
            && s.db == T.Replayed(s.commits)
            && T.DistinctEventIds(s.commits)
            && forall e :: e in s.db.ledger <==> T.Committed(s.commits, e)
  {
    PipelineRefinesTrips(c, steps);
    G.ExactlyOnceEffect(Trace(c, steps));
  }
}
