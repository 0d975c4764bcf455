/**
 The partition of `Partition` with dispatch behind it: each attempt at a ride.requested message checks
 the ledger of `DispatchLedger` and, if the event is not in it, begins a matching run and marks the
 event when that has returned. Other deliveries, of the same events too, are interleaved.
 */
module DispatchPipeline {
  import opened EventConsumer
  import opened Options
  import F = Partition
  import D = Dispatch
  import L = DispatchLedger

  datatype State = State(ledger: L.State, feed: F.State)

  /**
   `pid` is the number of the matching run the step may begin, `checkFails` whether Redis fails the
   ledger check, and `replyLost` whether the reply to the mark of the attempt at hand was lost.
   */
  datatype Step =
    | Feed(step: F.Step, pid: nat, checkFails: bool, replyLost: bool)
    | Dispatching(ledgerStep: L.Step)

  function Init(c: F.Config): State {
    State(L.INIT, F.Init(c))
  }

  /** The payload guard of ride-requested.consumer.ts: the ride to match, or None if it throws. */
  function RideOf(value: Value): Option<string> {
    if value.Json? && value.envelope.payload.route.Some? then value.envelope.payload.rideId else None
  }

  function OpeningOf(s: State, step: Step): F.Opening
    requires step.Feed?
  {
    if s.feed.position >= |s.feed.log| then F.Throws
    else
      var value := s.feed.log[s.feed.position].value;
      if RideOf(value).None? || step.checkFails then F.Throws
      else if L.Seen(s.ledger.ledger, value.envelope.eventId, s.ledger.dispatch.now) then F.Passes
      else F.Runs(step.pid)
  }

  function AttemptOf(s: State, step: Step): F.Attempt
    requires step.Feed?
  {
    if !s.feed.worker.Busy? then F.Underway
    else if s.feed.worker.pid.None? then F.Threw
    else
      var pid := s.feed.worker.pid.value;
      if pid in s.ledger.runs && s.ledger.runs[pid].stage.Marked? then (if step.replyLost then F.Threw else F.Returned)
      else if pid in s.ledger.runs && s.ledger.runs[pid].stage.Unmarked? then F.Threw
      else if pid in s.ledger.dispatch.procs && s.ledger.dispatch.procs[pid].phase.Failed? then F.Threw
      else F.Underway
  }

  predicate Begins(c: F.Config, s: State, step: Step) {
    step.Feed? && F.Starts(c, s.feed, step.step, AttemptOf(s, step)) && OpeningOf(s, step).Runs?
  }

  /** The step of the ledger contained in this one, if any. */
  function LedgerStepOf(c: F.Config, s: State, step: Step): Option<L.Step> {
    if Begins(c, s, step) then
      var value := s.feed.log[s.feed.position].value;
      Some(L.Deliver(step.pid, value.envelope.eventId, RideOf(value).value))
    else if step.Dispatching? then Some(step.ledgerStep)
    else None
  }

  /** A step that would begin a matching run under a number already given does nothing. */
  function Exec(c: F.Config, l: L.Config, s: State, step: Step): State {
    if Begins(c, s, step) && step.pid in s.ledger.dispatch.procs then s
    else
      var d := LedgerStepOf(c, s, step);
      State(if d.Some? then L.Exec(l, s.ledger, d.value) else s.ledger,
            if step.Feed? then F.Exec(c, s.feed, step.step, OpeningOf(s, step), AttemptOf(s, step)) else s.feed)
  }

  function Run(c: F.Config, l: L.Config, steps: seq<Step>): State {
    if |steps| == 0 then Init(c) else Exec(c, l, Run(c, l, steps[..|steps| - 1]), steps[|steps| - 1])
  }

  // ---------------------------------------------------------------- projection onto the ledger

  function Trace(c: F.Config, l: L.Config, steps: seq<Step>): seq<L.Step> {
    if |steps| == 0 then []
    else
      var prev, step := steps[..|steps| - 1], steps[|steps| - 1];
      var s := Run(c, l, prev);
      var d := LedgerStepOf(c, s, step);
      if d.Some? then Trace(c, l, prev) + [d.value] else Trace(c, l, prev)
  }

  /** Seen from dispatch, a run with the partition is one of the runs of `DispatchLedger`. */
  lemma {:induction false} PipelineRefinesLedger(c: F.Config, l: L.Config, steps: seq<Step>)
    ensures Run(c, l, steps).ledger == L.Run(l, Trace(c, l, steps))
  {
    if |steps| > 0 {
      var prev, step := steps[..|steps| - 1], steps[|steps| - 1];
      PipelineRefinesLedger(c, l, prev);
      var d := LedgerStepOf(c, Run(c, l, prev), step);
      if d.Some? {
        L.RunSnoc(l, Trace(c, l, prev), d.value);
      }
    }
  }

  // ---------------------------------------------------------------- every request is dealt with

  /** The message carries what the handler needs: an envelope with a ride id and a route. */
  predicate Workable(value: Value) {
    value.Json? && value.envelope.payload.rideId.Some? && value.envelope.payload.route.Some?
  }

  /** Such a message, and its event has been marked. */
  ghost predicate HasMark(ledger: L.State, value: Value) {
    Workable(value) && L.MarkedRuns(ledger, value.envelope.eventId) != {}
  }

  /** Such a message, and an outcome has been published on behalf of its event. */
  predicate HasOutcome(ledger: L.State, value: Value) {
    Workable(value) && L.EventOutcomes(ledger, value.envelope.eventId) >= 1
  }

  lemma MarkHasOutcome(l: L.Config, ledger: L.State, value: Value)
    requires L.Inv(l, ledger) && HasMark(ledger, value)
    ensures HasOutcome(ledger, value)
  {
    L.AccountsOf(l, ledger, value.envelope.eventId);
    var pid :| pid in L.MarkedRuns(ledger, value.envelope.eventId);
    assert |L.MarkedRuns(ledger, value.envelope.eventId)| >= 1;
  }

  /** The matching run of the worker is on behalf of the event of its message. */
  predicate WorkerFits(s: State) {
    s.feed.worker.Busy? && s.feed.worker.pid.Some? && s.feed.position < |s.feed.log| ==>
      var value, pid := s.feed.log[s.feed.position].value, s.feed.worker.pid.value;
      Workable(value) && pid in s.ledger.runs && s.ledger.runs[pid].eventId == value.envelope.eventId
  }

  ghost predicate PipelineOk(c: F.Config, l: L.Config, s: State) {
    && L.Inv(l, s.ledger) && L.KeysMarked(s.ledger) && F.WorkerOk(c, s.feed) && WorkerFits(s)
    && F.AllSettled(c, s.feed, v => HasMark(s.ledger, v)) && F.JoinedOk(c, s.feed)
  }

  /** A message is passed over, and an attempt returns, only for an event that has been marked. */
  lemma DispatchVouches(c: F.Config, l: L.Config, s: State, step: Step)
    requires step.Feed? && L.KeysMarked(s.ledger) && F.WorkerOk(c, s.feed) && WorkerFits(s)
    ensures F.Vouches(c, s.feed, step.step, OpeningOf(s, step), AttemptOf(s, step), v => HasMark(s.ledger, v))
  {
    if s.feed.position < |s.feed.log| && s.feed.worker.Busy? && AttemptOf(s, step).Returned? {
      var pid := s.feed.worker.pid.value;
      assert pid in L.MarkedRuns(s.ledger, s.ledger.runs[pid].eventId);
    }
  }

  lemma LedgerExtends(c: F.Config, l: L.Config, s: State, step: Step)
    requires L.Inv(l, s.ledger)
    ensures L.Extends(s.ledger, Exec(c, l, s, step).ledger)
  {
    var d := LedgerStepOf(c, s, step);
    if d.Some? {
      L.StepIsByOpen(l, s.ledger, d.value);
    }
  }

  lemma ExecSettles(c: F.Config, l: L.Config, s: State, step: Step)
    requires c.maxAttempts >= 1 && PipelineOk(c, l, s)
    ensures var t := Exec(c, l, s, step);
            F.WorkerOk(c, t.feed) && F.AllSettled(c, t.feed, v => HasMark(t.ledger, v)) && F.JoinedOk(c, t.feed)
  {
    var t := Exec(c, l, s, step);
    if step.Feed? && t != s {
      DispatchVouches(c, l, s, step);
      F.ExecSettles(c, s.feed, step.step, OpeningOf(s, step), AttemptOf(s, step), v => HasMark(s.ledger, v));
      F.ExecKeepsJoined(c, s.feed, step.step, OpeningOf(s, step), AttemptOf(s, step));
    }
    LedgerExtends(c, l, s, step);
    forall v | HasMark(s.ledger, v)
      ensures HasMark(t.ledger, v)
    {
      L.MarkedStays(s.ledger, t.ledger, v.envelope.eventId);
    }
    F.SettledWeakens(c, t.feed, v => HasMark(s.ledger, v), v => HasMark(t.ledger, v));
  }

  lemma FeedKeepsWorker(c: F.Config, s: State, ledger: L.State, step: Step)
    requires step.Feed? && F.WorkerOk(c, s.feed) && WorkerFits(s) && L.Extends(s.ledger, ledger)
    requires Begins(c, s, step) ==>
               step.pid in ledger.runs && ledger.runs[step.pid].eventId == s.feed.log[s.feed.position].value.envelope.eventId
    ensures WorkerFits(State(ledger, F.Exec(c, s.feed, step.step, OpeningOf(s, step), AttemptOf(s, step))))
  {
  }

  lemma DeliveryIsRecorded(l: L.Config, ledger: L.State, pid: nat, eventId: string, ride: string)
    requires pid !in ledger.dispatch.procs && !L.Seen(ledger.ledger, eventId, ledger.dispatch.now)
    ensures var t := L.Exec(l, ledger, L.Deliver(pid, eventId, ride)); pid in t.runs && t.runs[pid].eventId == eventId
  {
  }

  lemma ExecKeepsWorker(c: F.Config, l: L.Config, s: State, step: Step)
    requires L.Inv(l, s.ledger) && F.WorkerOk(c, s.feed) && WorkerFits(s)
    ensures WorkerFits(Exec(c, l, s, step))
  {
    LedgerExtends(c, l, s, step);
    if Begins(c, s, step) {
      if step.pid !in s.ledger.dispatch.procs {
        var value := s.feed.log[s.feed.position].value;
        DeliveryIsRecorded(l, s.ledger, step.pid, value.envelope.eventId, RideOf(value).value);
        FeedKeepsWorker(c, s, Exec(c, l, s, step).ledger, step);
      }
    } else if step.Feed? {
      FeedKeepsWorker(c, s, Exec(c, l, s, step).ledger, step);
    }
  }

  lemma {:induction false} RunSettles(c: F.Config, l: L.Config, steps: seq<Step>)
    requires c.maxAttempts >= 1
    ensures PipelineOk(c, l, Run(c, l, steps))
  {
    PipelineRefinesLedger(c, l, steps);
    L.RunInv(l, Trace(c, l, steps));
    L.RunKeysMarked(l, Trace(c, l, steps));
    if |steps| > 0 {
      var prev := steps[..|steps| - 1];
      RunSettles(c, l, prev);
      ExecSettles(c, l, Run(c, l, prev), steps[|steps| - 1]);
      ExecKeepsWorker(c, l, Run(c, l, prev), steps[|steps| - 1]);
    }
  }

  // ---------------------------------------------------------------- how a request is lost

  lemma FeedSnoc(c: F.Config, l: L.Config, steps: seq<Step>, f: F.Step) returns (more: seq<Step>, opening: F.Opening, attempt: F.Attempt)
    ensures Run(c, l, more).feed == F.Exec(c, Run(c, l, steps).feed, f, opening, attempt)
    ensures !opening.Passes?
  {
    var step := Feed(f, 0, true, false);
    assert (steps + [step])[..|steps|] == steps;
    more, opening, attempt := steps + [step], OpeningOf(Run(c, l, steps), step), AttemptOf(Run(c, l, steps), step);
  }

  /** With no attempt to make, or no offset to come back to, the first message can be lost. */
  lemma CanLose(c: F.Config, l: L.Config) returns (steps: seq<Step>)
    requires c.maxAttempts < 1 || !c.joined
    ensures F.HasLost(c, Run(c, l, steps).feed)
  {
    var opening: F.Opening, attempt: F.Attempt;
    steps, opening, attempt := FeedSnoc(c, l, [], F.Produce(Message(None, JsonNull)));
    var f := Run(c, l, steps).feed;
    steps, opening, attempt := FeedSnoc(c, l, steps, F.Fetch);
    if c.maxAttempts < 1 {
      F.NoAttemptSkips(c, f, opening, attempt);
    } else {
      var next: F.Opening, later: F.Attempt;
      steps, next, later := FeedSnoc(c, l, steps, F.Crash);
      F.AttemptThenCrash(c, f, opening, attempt, next, later);
      steps, opening, attempt := FeedSnoc(c, l, steps, F.Produce(Message(None, Missing)));
      f := Run(c, l, steps).feed;
      steps, opening, attempt := FeedSnoc(c, l, steps, F.Fetch);
      F.EmptyIsPassed(c, f, opening, attempt);
    }
    f := Run(c, l, steps).feed;
    steps, opening, attempt := FeedSnoc(c, l, steps, F.CommitOffset(f.position));
    F.CommitMoves(c, f, opening, attempt);
  }

  ghost predicate NothingLost(c: F.Config, s: State) {
    F.NothingLost(c, s.feed, v => HasOutcome(s.ledger, v))
  }

  /**
   No lost request: in every run, every offset since the group first subscribed and below dispatch's
   committed one is empty, parked on its dead-letter topic, or names a ride and a route and has an
   outcome published for its event, exactly when at least one attempt is made and the broker held an offset of the group to begin with.
   */
  lemma {:induction false} NoRequestLostIff(c: F.Config, l: L.Config)
    ensures (forall steps: seq<Step> :: NothingLost(c, Run(c, l, steps))) <==> c.maxAttempts >= 1 && c.joined
  {
    if c.maxAttempts >= 1 && c.joined {
      forall steps: seq<Step>
        ensures NothingLost(c, Run(c, l, steps))
      {
        RequestsSettled(c, l, steps);
        F.JoinedLosesNothing(c, Run(c, l, steps).feed, v => HasOutcome(Run(c, l, steps).ledger, v));
      }
    } else {
      var steps := CanLose(c, l);
      F.LostIsLost(c, Run(c, l, steps).feed, v => HasOutcome(Run(c, l, steps).ledger, v));
      assert !NothingLost(c, Run(c, l, steps));
    }
  }

  /** Whatever the group, nothing is lost from where it last began reading without an offset. */
  lemma {:induction false} RequestsSettled(c: F.Config, l: L.Config, steps: seq<Step>)
    requires c.maxAttempts >= 1
    ensures var s := Run(c, l, steps); F.AllSettled(c, s.feed, v => HasOutcome(s.ledger, v)) && F.JoinedOk(c, s.feed)
  {
    var s := Run(c, l, steps);
    RunSettles(c, l, steps);
    forall v | HasMark(s.ledger, v)
      ensures HasOutcome(s.ledger, v)
    {
      MarkHasOutcome(l, s.ledger, v);
    }
    F.SettledWeakens(c, s.feed, v => HasMark(s.ledger, v), v => HasOutcome(s.ledger, v));
  }

  // ---------------------------------------------------------------- how an attempt ends

  /** The delivery behind this attempt threw: its matching failed, its mark failed, or its mark's reply is lost. */
  predicate HasThrown(s: State, pid: nat, replyLost: bool) {
    && pid in s.ledger.runs && pid in s.ledger.dispatch.procs
    && (s.ledger.dispatch.procs[pid].phase.Failed? || s.ledger.runs[pid].stage.Unmarked?
        || (s.ledger.runs[pid].stage.Marked? && replyLost))
  }

  /** This worker is on attempt number `n`, whose matching run is `pid`, and looks whether it has ended. */
  predicate Looks(s: State, step: Step, n: nat, pid: nat) {
    s.feed.position < |s.feed.log| && s.feed.worker == F.Busy(n, Some(pid)) && step.Feed? && step.step.Finish?
  }

  /** A request is passed, with no record of it, once its event is marked and the reply is in. */
  lemma AttemptReturns(c: F.Config, l: L.Config, s: State, step: Step, n: nat, pid: nat)
    requires Looks(s, step, n, pid) && pid in s.ledger.runs && s.ledger.runs[pid].stage.Marked? && !step.replyLost
    ensures Exec(c, l, s, step) == s.(feed := s.feed.(position := s.feed.position + 1, worker := F.Idle))
  {
  }

  /**
   If the delivery threw, it is tried again on a matching run of its own while attempts are left, or
   passed because its event has been marked meanwhile; after the last one it waits to be parked.
   */
  lemma AttemptThrows(c: F.Config, l: L.Config, s: State, step: Step, n: nat, pid: nat)
    requires Looks(s, step, n, pid) && HasThrown(s, pid, step.replyLost) && L.Inv(l, s.ledger)
    requires step.pid !in s.ledger.dispatch.procs
    ensures var t := Exec(c, l, s, step);
            && (n >= c.maxAttempts ==> t.feed.worker.Parking? && t == s.(feed := s.feed.(worker := t.feed.worker)))
            && (n < c.maxAttempts ==>
                  || t.feed == s.feed.(worker := F.Busy(n + 1, None))
                  || (t.feed == s.feed.(worker := F.Busy(n + 1, Some(step.pid)))
                      && step.pid in t.ledger.runs && t.ledger.runs[step.pid].stage.Underway?)
                  || (t == s.(feed := s.feed.(position := s.feed.position + 1, worker := F.Idle))
                      && Workable(s.feed.log[s.feed.position].value)
                      && s.feed.log[s.feed.position].value.envelope.eventId in s.ledger.ledger))
  {
  }

  /** Until then the worker waits. */
  lemma AttemptGoesOn(c: F.Config, l: L.Config, s: State, step: Step, n: nat, pid: nat)
    requires Looks(s, step, n, pid) && L.Inv(l, s.ledger) && !HasThrown(s, pid, step.replyLost)
    requires !(pid in s.ledger.runs && s.ledger.runs[pid].stage.Marked?)
    ensures Exec(c, l, s, step) == s
  {
  }

  // ---------------------------------------------------------------- the ride of a request

  /** The handler throws at once exactly when it has no ride id or no route to work with, or its check fails. */
  lemma ThrowsIff(s: State, step: Step)
    requires step.Feed? && s.feed.position < |s.feed.log|
    ensures var value := s.feed.log[s.feed.position].value;
            OpeningOf(s, step).Throws? <==> step.checkFails || !Workable(value)
  {
  }

  /** A matching run the partition begins is for the ride its message names, on behalf of its event. */
  lemma {:induction false} BegunForItsRide(c: F.Config, l: L.Config, steps: seq<Step>, step: Step, pid: nat)
    requires pid in Run(c, l, steps + [step]).ledger.runs && pid !in Run(c, l, steps).ledger.runs && step.Feed?
    ensures var s, t := Run(c, l, steps), Run(c, l, steps + [step]);
            && s.feed.position < |s.feed.log| && s.feed.log[s.feed.position].value.Json?
            && var e := s.feed.log[s.feed.position].value.envelope;
               && t.ledger.runs[pid].eventId == e.eventId
               && pid in t.ledger.dispatch.procs && Some(t.ledger.dispatch.procs[pid].ride) == e.payload.rideId
  {
    assert (steps + [step])[..|steps|] == steps;
  }

  /** Some other route delivers this event for a ride. */
  predicate DeliversFor(step: Step, eventId: string, ride: string) {
    step.Dispatching? && step.ledgerStep.Deliver? && step.ledgerStep.eventId == eventId && step.ledgerStep.ride == ride
  }

  predicate NamesFor(message: Message, eventId: string, ride: string) {
    message.value.Json? && message.value.envelope.eventId == eventId && message.value.envelope.payload.rideId == Some(ride)
  }

  /** Every delivery of this event made elsewhere, and every message that carries it, is for this ride. */
  ghost predicate OnlyForRide(steps: seq<Step>, log: seq<Message>, eventId: string, ride: string) {
    && (forall k, r :: 0 <= k < |steps| && DeliversFor(steps[k], eventId, r) ==> r == ride)
    && (forall o, r :: 0 <= o < |log| && NamesFor(log[o], eventId, r) ==> r == ride)
  }

  /** All matching runs of the event are for this ride. */
  ghost predicate RunsForRide(ledger: L.State, eventId: string, ride: string) {
    forall pid :: pid in L.RunsOf(ledger, eventId) ==> pid in ledger.dispatch.procs && ledger.dispatch.procs[pid].ride == ride
  }

  lemma RidesStay(l: L.Config, ledger: L.State, step: L.Step, eventId: string, ride: string)
    requires RunsForRide(ledger, eventId, ride)
    requires step.Deliver? && step.eventId == eventId ==> step.ride == ride
    ensures RunsForRide(L.Exec(l, ledger, step), eventId, ride)
  {
  }

  lemma StepForRide(c: F.Config, l: L.Config, s: State, step: Step, eventId: string, ride: string)
    requires RunsForRide(s.ledger, eventId, ride) && OnlyForRide([step], s.feed.log, eventId, ride)
    ensures RunsForRide(Exec(c, l, s, step).ledger, eventId, ride)
  {
    var d := LedgerStepOf(c, s, step);
    if d.Some? {
      if d.value.Deliver? && d.value.eventId == eventId {
        assert DeliversFor([step][0], eventId, d.value.ride) || NamesFor(s.feed.log[s.feed.position], eventId, d.value.ride);
      }
      RidesStay(l, s.ledger, d.value, eventId, ride);
    }
  }

  lemma LogGrows(c: F.Config, l: L.Config, s: State, step: Step)
    ensures s.feed.log <= Exec(c, l, s, step).feed.log
  {
    if step.Feed? {
      F.ExecGrows(c, s.feed, step.step, OpeningOf(s, step), AttemptOf(s, step));
    }
  }

  lemma {:induction false} RunForRide(c: F.Config, l: L.Config, steps: seq<Step>, log: seq<Message>, eventId: string, ride: string)
    requires Run(c, l, steps).feed.log <= log && OnlyForRide(steps, log, eventId, ride)
    ensures RunsForRide(Run(c, l, steps).ledger, eventId, ride)
  {
    if |steps| > 0 {
      var prev, step := steps[..|steps| - 1], steps[|steps| - 1];
      var s := Run(c, l, prev);
      LogGrows(c, l, s, step);
      assert forall o :: 0 <= o < |s.feed.log| ==> s.feed.log[o] == log[o];
      RunForRide(c, l, prev, log, eventId, ride);
      StepForRide(c, l, s, step, eventId, ride);
    }
  }

  /** An outcome of a run on behalf of this event, published for this ride. */
  ghost predicate PublishedFor(ledger: L.State, eventId: string, ride: string) {
    exists i :: 0 <= i < |ledger.dispatch.published|
                && ledger.dispatch.published[i].pid in L.RunsOf(ledger, eventId) && ledger.dispatch.published[i].ride == ride
  }

  /** A marked run has published an outcome for its own ride. */
  lemma MarkedHasPublished(l: L.Config, ledger: L.State, eventId: string, ride: string)
    requires L.Inv(l, ledger) && L.MarkedRuns(ledger, eventId) != {} && RunsForRide(ledger, eventId, ride)
    ensures PublishedFor(ledger, eventId, ride)
  {
    var pid :| pid in L.MarkedRuns(ledger, eventId);
    assert D.ProcOk(l.reservationTtl, ledger.dispatch, pid);
    var p := ledger.dispatch.procs[pid];
    var i :| 0 <= i < |ledger.dispatch.published| && ledger.dispatch.published[i].pid == pid
             && ledger.dispatch.published[i].ride == p.ride && ledger.dispatch.published[i].outcome == p.phase.outcome;
  }

  /**
   A request gets its outcome: a message dispatch has committed past, neither empty nor parked, names a
   ride and a route, and if its event is delivered for no other ride, an outcome has been published for
   the ride in its payload.
   */
  lemma {:induction false} RequestGetsItsOutcome(c: F.Config, l: L.Config, steps: seq<Step>, o: nat)
    requires c.maxAttempts >= 1
    requires var f := Run(c, l, steps).feed; f.committed.Some? && f.base <= o < f.committed.value <= |f.log|
    requires var f := Run(c, l, steps).feed; !f.log[o].value.Missing? && !F.Parked(c, f, o)
    ensures Workable(Run(c, l, steps).feed.log[o].value)
    ensures var s := Run(c, l, steps);
            var e := s.feed.log[o].value.envelope;
            OnlyForRide(steps, s.feed.log, e.eventId, e.payload.rideId.value) ==> PublishedFor(s.ledger, e.eventId, e.payload.rideId.value)
  {
    var s := Run(c, l, steps);
    RunSettles(c, l, steps);
    assert F.Settled(c, s.feed, o, v => HasMark(s.ledger, v));
    var e := s.feed.log[o].value.envelope;
    if OnlyForRide(steps, s.feed.log, e.eventId, e.payload.rideId.value) {
      RunForRide(c, l, steps, s.feed.log, e.eventId, e.payload.rideId.value);
      MarkedHasPublished(l, s.ledger, e.eventId, e.payload.rideId.value);
    }
  }
}
