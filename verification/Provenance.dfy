/**
 Dispatch and trip service together: matching runs publish driver.reserved events onto the
 partition the trip service consumes, which delivers, retries, parks, crashes and replays them
 while any other trip activity goes on. Only dispatch produces driver.reserved.
 */
module Provenance {
  import opened Options
  import opened EventSchema
  import opened EventConsumer
  import T = TripHandlers
  import P = TripPipeline
  import D = Dispatch
  import F = Partition

  datatype State = State(dispatch: D.State, pipeline: P.State)

  /** `eventId` is the random id the publisher gives the event, if the step publishes one. */
  datatype Step = Dispatching(dispatchStep: D.Step, eventId: string) | Consuming(pipelineStep: P.Step)

  function ReservedMessage(p: D.Publication, eventId: string): Message
    requires p.outcome.Matched?
  {
    Message(
      Some(p.ride),
      Json(Envelope(eventId, "driver.reserved", Payload(Some(p.ride), None, None, Some(p.outcome.driver), Undefined))))
  }

  predicate IsReservation(job: P.Job) {
    job.Run? && job.call.action.ReserveDriver?
  }

  /** The rest of the world neither produces driver.reserved events nor calls its handler directly. */
  predicate Allowed(step: P.Step) {
    match step
    case Feed(f) => f.Produce? ==> !IsReservation(P.JobOf(f.message.value))
    case Trip(t) => t.Spawn? ==> !t.call.action.ReserveDriver?
  }

  function Deliver(c: F.Config, before: D.State, after: D.State, eventId: string, pipeline: P.State): P.State {
    if |after.published| > |before.published| && after.published[|before.published|].outcome.Matched? then
      P.Exec(c, pipeline, P.Feed(F.Produce(ReservedMessage(after.published[|before.published|], eventId))))
    else
      pipeline
  }

  function Exec(c: F.Config, ttl: nat, s: State, step: Step): State {
    match step
    case Dispatching(d, eventId) =>
      var after := D.Exec(ttl, s.dispatch, d);
      State(after, Deliver(c, s.dispatch, after, eventId, s.pipeline))
    case Consuming(p) => if Allowed(p) then s.(pipeline := P.Exec(c, s.pipeline, p)) else s
  }

  function Run(c: F.Config, ttl: nat, steps: seq<Step>): State {
    if |steps| == 0 then State(D.INIT, P.Init(c))
    else Exec(c, ttl, Run(c, ttl, steps[..|steps| - 1]), steps[|steps| - 1])
  }

  // ---------------------------------------------------------------- every reservation has a grant

  ghost predicate Granted(grants: seq<D.Grant>, driver: string, ride: string) {
    exists i :: 0 <= i < |grants| && grants[i].driver == driver && grants[i].ride == ride
  }

  ghost predicate ActionBacked(grants: seq<D.Grant>, action: T.Action) {
    action.ReserveDriver? ==> Granted(grants, action.driver, action.ride)
  }

  ghost predicate JobBacked(grants: seq<D.Grant>, job: P.Job) {
    job.Run? ==> ActionBacked(grants, job.call.action)
  }

  ghost predicate RecordBacked(grants: seq<D.Grant>, r: DlqRecord) {
    r.envelope.Some? ==> JobBacked(grants, P.Decode(r.envelope.value))
  }

  ghost predicate FeedBacked(grants: seq<D.Grant>, f: F.State) {
    && (forall o :: 0 <= o < |f.log| ==> JobBacked(grants, P.JobOf(f.log[o].value)))
    && (forall k :: 0 <= k < |f.dlq| ==> RecordBacked(grants, f.dlq[k]))
    && (f.worker.Parking? ==> RecordBacked(grants, f.worker.record))
  }

  ghost predicate PipelineBacked(grants: seq<D.Grant>, p: P.State) {
    && FeedBacked(grants, p.feed)
    && (forall k :: 0 <= k < |p.trip.calls| ==> ActionBacked(grants, p.trip.calls[k].action))
    && T.Inv(p.trip)
  }

  lemma MoreGrants(grants: seq<D.Grant>, more: seq<D.Grant>, p: P.State)
    requires PipelineBacked(grants, p) && grants <= more
    ensures PipelineBacked(more, p)
  {
    forall d, r | Granted(grants, d, r)
      ensures Granted(more, d, r)
    {
      var i :| 0 <= i < |grants| && grants[i].driver == d && grants[i].ride == r;
      assert more[i] == grants[i];
    }
    forall o | 0 <= o < |p.feed.log|
      ensures JobBacked(more, P.JobOf(p.feed.log[o].value))
    {
      assert JobBacked(grants, P.JobOf(p.feed.log[o].value));
    }
    forall k | 0 <= k < |p.feed.dlq|
      ensures RecordBacked(more, p.feed.dlq[k])
    {
      assert RecordBacked(grants, p.feed.dlq[k]);
    }
  }

  lemma TripCallsBacked(grants: seq<D.Grant>, c: F.Config, p: P.State, step: P.Step)
    requires PipelineBacked(grants, p) && Allowed(step)
    ensures var t := P.Exec(c, p, step).trip;
            T.Inv(t) && forall k :: 0 <= k < |t.calls| ==> ActionBacked(grants, t.calls[k].action)
  {
    var t := P.TripStepOf(c, p, step);
    if t.Some? {
      T.ExecKeepsInv(p.trip, t.value);
      CallsAfter(p.trip, t.value);
      if t.value.Spawn? && !step.Trip? {
        assert JobBacked(grants, P.JobOf(p.feed.log[p.feed.position].value));
      }
    }
  }

  lemma CallsAfter(s: T.State, step: T.Step)
    ensures T.Exec(s, step).calls == s.calls || (step.Spawn? && T.Exec(s, step).calls == s.calls + [step.call])
  {
  }

  lemma RestartBacked(grants: seq<D.Grant>, f: F.State)
    requires FeedBacked(grants, f)
    ensures FeedBacked(grants, F.Restart(f)) && FeedBacked(grants, F.Settle(f))
  {
  }

  lemma ParkBacked(grants: seq<D.Grant>, f: F.State)
    requires FeedBacked(grants, f) && f.worker.Parking?
    ensures FeedBacked(grants, f.(dlq := f.dlq + [f.worker.record]))
  {
  }

  lemma ReplayBacked(grants: seq<D.Grant>, f: F.State, k: nat)
    requires FeedBacked(grants, f) && k < |f.dlq| && f.dlq[k].envelope.Some?
    ensures FeedBacked(grants, f.(log := f.log + [Message(f.dlq[k].originalKey, Json(f.dlq[k].envelope.value))]))
  {
    assert RecordBacked(grants, f.dlq[k]);
  }

  /** A record of the message at hand repeats its envelope. */
  lemma FailureBacked(grants: seq<D.Grant>, c: F.Config, f: F.State, attempts: int)
    requires FeedBacked(grants, f) && f.position < |f.log|
    ensures RecordBacked(grants, ParkFailed(c.group, c.topic, f.position, f.log[f.position], attempts))
  {
    assert JobBacked(grants, P.JobOf(f.log[f.position].value));
  }

  /** Logs and records of the partition only ever repeat envelopes that were already there. */
  lemma FeedStepBacked(grants: seq<D.Grant>, c: F.Config, f: F.State, step: F.Step, opening: F.Opening, attempt: F.Attempt)
    requires FeedBacked(grants, f) && (step.Produce? ==> JobBacked(grants, P.JobOf(step.message.value)))
    ensures FeedBacked(grants, F.Exec(c, f, step, opening, attempt))
  {
    match step {
      case Produce(_) =>
      case Replay(k) =>
        if k < |f.dlq| && f.dlq[k].envelope.Some? {
          ReplayBacked(grants, f, k);
        }
      case Park(_) =>
        if f.worker.Parking? {
          ParkBacked(grants, f);
          RestartBacked(grants, f.(dlq := f.dlq + [f.worker.record]));
          RestartBacked(grants, f);
        }
      case Finish =>
        if f.position < |f.log| && f.worker.Busy? {
          FailureBacked(grants, c, f, f.worker.attempt);
        }
      case _ =>
    }
  }

  lemma PipelineStepBacked(grants: seq<D.Grant>, c: F.Config, p: P.State, step: P.Step)
    requires PipelineBacked(grants, p) && Allowed(step)
    ensures PipelineBacked(grants, P.Exec(c, p, step))
  {
    if step.Feed? {
      FeedStepBacked(grants, c, p.feed, step.step, P.OpeningOf(p), P.AttemptOf(p));
    }
    TripCallsBacked(grants, c, p, step);
  }

  lemma PublicationBacked(grants: seq<D.Grant>, c: F.Config, p: P.State, m: Message)
    requires PipelineBacked(grants, p) && JobBacked(grants, P.JobOf(m.value))
    ensures PipelineBacked(grants, P.Exec(c, p, P.Feed(F.Produce(m))))
  {
    FeedStepBacked(grants, c, p.feed, F.Produce(m), P.OpeningOf(p), P.AttemptOf(p));
  }

  lemma ReservedMessageJob(p: D.Publication, eventId: string)
    requires p.outcome.Matched?
    ensures P.JobOf(ReservedMessage(p, eventId).value)
            == P.Run(T.Call(T.ReserveDriver(p.ride, p.outcome.driver), Some(eventId)))
  {
  }

  lemma DispatchStepBacked(c: F.Config, ttl: nat, s: State, step: D.Step, eventId: string)
    requires D.Inv(ttl, s.dispatch) && PipelineBacked(s.dispatch.grants, s.pipeline)
    ensures var t := Exec(c, ttl, s, Dispatching(step, eventId)); PipelineBacked(t.dispatch.grants, t.pipeline)
  {
    var after := D.Exec(ttl, s.dispatch, step);
    D.LogsGrow(ttl, s.dispatch, step);
    MoreGrants(s.dispatch.grants, after.grants, s.pipeline);
    if |after.published| > |s.dispatch.published| && after.published[|s.dispatch.published|].outcome.Matched? {
      var p := after.published[|s.dispatch.published|];
      assert D.ProcOk(ttl, s.dispatch, step.pid);
      var i :| 0 <= i < |s.dispatch.grants| && s.dispatch.grants[i].driver == p.outcome.driver
               && s.dispatch.grants[i].ride == p.ride && s.dispatch.grants[i].pid == p.pid;
      assert after.grants[i] == s.dispatch.grants[i];
      ReservedMessageJob(p, eventId);
      PublicationBacked(after.grants, c, s.pipeline, ReservedMessage(p, eventId));
    }
  }

  ghost predicate SeedBacked(c: F.Config) {
    forall o :: 0 <= o < |c.seed| ==> !IsReservation(P.JobOf(c.seed[o].value))
  }

  function DispatchSteps(steps: seq<Step>): seq<D.Step> {
    if |steps| == 0 then []
    else
      var prev := DispatchSteps(steps[..|steps| - 1]);
      if steps[|steps| - 1].Dispatching? then prev + [steps[|steps| - 1].dispatchStep] else prev
  }

  /** Seen from dispatch, a run of the whole is one of the runs of `Dispatch`. */
  lemma {:induction false} RunProjects(c: F.Config, ttl: nat, steps: seq<Step>)
    ensures Run(c, ttl, steps).dispatch == D.Run(ttl, DispatchSteps(steps))
  {
    if |steps| > 0 {
      var prev := steps[..|steps| - 1];
      RunProjects(c, ttl, prev);
      if steps[|steps| - 1].Dispatching? {
        D.RunSnoc(ttl, DispatchSteps(prev), steps[|steps| - 1].dispatchStep);
      }
    }
  }

  lemma {:induction false} RunBacked(c: F.Config, ttl: nat, steps: seq<Step>)
    requires SeedBacked(c)
    ensures var s := Run(c, ttl, steps); PipelineBacked(s.dispatch.grants, s.pipeline)
  {
    if |steps| > 0 {
      var prev := steps[..|steps| - 1];
      var s := Run(c, ttl, prev);
      RunBacked(c, ttl, prev);
      match steps[|steps| - 1] {
        case Dispatching(d, eventId) =>
          RunProjects(c, ttl, prev);
          D.RunInv(ttl, DispatchSteps(prev));
          DispatchStepBacked(c, ttl, s, d, eventId);
        case Consuming(p) =>
          if Allowed(p) {
            PipelineStepBacked(s.dispatch.grants, c, s.pipeline, p);
          }
      }
    }
  }

  /** The driver of a row was named by an invocation of the driver.reserved handler. */
  lemma {:induction false} DriverWasReserved(s: T.State, commits: seq<T.Commit>, id: string)
    requires commits <= s.commits && T.OriginsOk(s) && T.LastDriver(commits, id).Some?
    ensures exists k :: 0 <= k < |s.calls| && s.calls[k].action == T.ReserveDriver(id, T.LastDriver(commits, id).value)
    decreases |commits|
  {
    var last := |commits| - 1;
    var w := commits[last].work;
    if w.Move? && w.id == id && w.patch.driverId.Some? && w.patch.driverId.value != "" {
      assert T.FromCall(s, s.commits[last]);
      assert s.calls[s.commits[last].pid].action == T.ReserveDriver(id, w.patch.driverId.value);
    } else {
      DriverWasReserved(s, commits[..last], id);
    }
  }

  /**
   Provenance: a ride row that carries a driver has behind it a reservation dispatch won for that
   driver and that ride, through publishing, delivery, retries, parking, replays and crashes.
   */
  lemma {:induction false} DriverWasGranted(c: F.Config, ttl: nat, steps: seq<Step>, id: string)
    requires SeedBacked(c)
    requires var rides := Run(c, ttl, steps).pipeline.trip.db.rides; id in rides && rides[id].driverId.Some?
    ensures var s := Run(c, ttl, steps);
            Granted(s.dispatch.grants, s.pipeline.trip.db.rides[id].driverId.value, id)
  {
    RunBacked(c, ttl, steps);
    var s := Run(c, ttl, steps);
    var t := s.pipeline.trip;
    assert T.DriversOk(t) && T.OriginsOk(t);
    assert T.LastDriver(t.commits, id) == t.db.rides[id].driverId;
    DriverWasReserved(t, t.commits, id);
    var k :| 0 <= k < |t.calls| && t.calls[k].action == T.ReserveDriver(id, t.db.rides[id].driverId.value);
    assert ActionBacked(s.dispatch.grants, t.calls[k].action);
  }

  /** Two different rides that carry the same driver got him from grants at least a TTL apart. */
  lemma {:induction false} SharedDriverGrantsApart(c: F.Config, ttl: nat, steps: seq<Step>, a: string, b: string)
    requires SeedBacked(c) && a != b
    requires var rides := Run(c, ttl, steps).pipeline.trip.db.rides;
             a in rides && b in rides && rides[a].driverId.Some? && rides[a].driverId == rides[b].driverId
    ensures var s := Run(c, ttl, steps);
            var driver := s.pipeline.trip.db.rides[a].driverId.value;
            exists i, j :: 0 <= i < |s.dispatch.grants| && 0 <= j < |s.dispatch.grants|
                           && s.dispatch.grants[i].driver == driver && s.dispatch.grants[i].ride == a
                           && s.dispatch.grants[j].driver == driver && s.dispatch.grants[j].ride == b
                           && (s.dispatch.grants[i].at + ttl <= s.dispatch.grants[j].at
                               || s.dispatch.grants[j].at + ttl <= s.dispatch.grants[i].at)
  {
    DriverWasGranted(c, ttl, steps, a);
    DriverWasGranted(c, ttl, steps, b);
    var s := Run(c, ttl, steps);
    var driver := s.pipeline.trip.db.rides[a].driverId.value;
    var grants := s.dispatch.grants;
    var i :| 0 <= i < |grants| && grants[i].driver == driver && grants[i].ride == a;
    var j :| 0 <= j < |grants| && grants[j].driver == driver && grants[j].ride == b;
    RunProjects(c, ttl, steps);
    D.RunKeepsStore(ttl, DispatchSteps(steps));
    assert D.Separated(ttl, grants);
    assert i != j;
  }

  // ---------------------------------------------------------------- every match reaches the topic

  /** This match is on the trip service's partition, keyed by its ride, with its ride and driver. */
  ghost predicate OnTopic(log: seq<Message>, p: D.Publication) {
    exists o :: 0 <= o < |log| && log[o].key == Some(p.ride) && log[o].value.Json?
                && log[o].value.envelope.eventType == "driver.reserved"
                && log[o].value.envelope.payload.rideId == Some(p.ride)
                && p.outcome.Matched? && log[o].value.envelope.payload.driverId == Some(p.outcome.driver)
  }

  ghost predicate AllOnTopic(published: seq<D.Publication>, log: seq<Message>) {
    forall i :: 0 <= i < |published| && published[i].outcome.Matched? ==> OnTopic(log, published[i])
  }

  lemma OnTopicStays(log: seq<Message>, more: seq<Message>, p: D.Publication)
    requires OnTopic(log, p) && log <= more
    ensures OnTopic(more, p)
  {
    var o :| 0 <= o < |log| && log[o].key == Some(p.ride) && log[o].value.Json?
             && log[o].value.envelope.eventType == "driver.reserved"
             && log[o].value.envelope.payload.rideId == Some(p.ride)
             && log[o].value.envelope.payload.driverId == Some(p.outcome.driver);
    assert more[o] == log[o];
  }

  lemma PipelineLogGrows(c: F.Config, p: P.State, step: P.Step)
    ensures p.feed.log <= P.Exec(c, p, step).feed.log
  {
    if step.Feed? {
      F.ExecGrows(c, p.feed, step.step, P.OpeningOf(p), P.AttemptOf(p));
    }
  }

  lemma PublishingAppends(c: F.Config, ttl: nat, s: State, step: D.Step, eventId: string)
    requires AllOnTopic(s.dispatch.published, s.pipeline.feed.log)
    ensures var t := Exec(c, ttl, s, Dispatching(step, eventId)); AllOnTopic(t.dispatch.published, t.pipeline.feed.log)
  {
    var t := Exec(c, ttl, s, Dispatching(step, eventId));
    var n := |s.dispatch.published|;
    assert s.dispatch.published <= t.dispatch.published && |t.dispatch.published| <= n + 1;
    if |t.dispatch.published| > n && t.dispatch.published[n].outcome.Matched? {
      assert t.pipeline.feed.log == s.pipeline.feed.log + [ReservedMessage(t.dispatch.published[n], eventId)];
      assert t.pipeline.feed.log[|s.pipeline.feed.log|] == ReservedMessage(t.dispatch.published[n], eventId);
    }
    forall i | 0 <= i < n && s.dispatch.published[i].outcome.Matched?
      ensures OnTopic(t.pipeline.feed.log, t.dispatch.published[i])
    {
      OnTopicStays(s.pipeline.feed.log, t.pipeline.feed.log, s.dispatch.published[i]);
    }
  }

  /** In every run each match dispatch has published is on the trip service's partition. */
  lemma {:induction false} MatchesReachTheTopic(c: F.Config, ttl: nat, steps: seq<Step>)
    ensures var s := Run(c, ttl, steps); AllOnTopic(s.dispatch.published, s.pipeline.feed.log)
  {
    if |steps| > 0 {
      var prev := steps[..|steps| - 1];
      var s, t := Run(c, ttl, prev), Run(c, ttl, steps);
      MatchesReachTheTopic(c, ttl, prev);
      match steps[|steps| - 1] {
        case Dispatching(d, eventId) => PublishingAppends(c, ttl, s, d, eventId);
        case Consuming(p) =>
          PipelineLogGrows(c, s.pipeline, p);
          forall i | 0 <= i < |s.dispatch.published| && s.dispatch.published[i].outcome.Matched?
            ensures OnTopic(t.pipeline.feed.log, s.dispatch.published[i])
          {
            assert s.pipeline.feed.log <= t.pipeline.feed.log;
            OnTopicStays(s.pipeline.feed.log, t.pipeline.feed.log, s.dispatch.published[i]);
          }
      }
    }
  }
}
