/**
 The PATCHes the trip service sends to the driver service. An HTTP action sends its PATCH after its
 transaction has committed; the cancelling event handlers send theirs inside it.
 */
module DriverSyncs {
  import opened Options
  import opened EventSchema
  import opened RideStateMachine
  import opened TripStore
  import opened TripHandlers
  import opened TripGuarantees
  import D = DriverStateMachine

  predicate EventCancel(call: Call) {
    call.action.CancelRide? && call.eventId.Some?
  }

  /** The sender of this PATCH has committed the end of its ride, with the driver it names in the column. */
  ghost predicate EndedItsRide(s: State, sent: Sent) {
    sent.pid < |s.calls| &&
    exists i :: 0 <= i < |s.commits| && EndsRide(s.commits, i, sent.pid, RideOf(s.calls[sent.pid].action), sent.sync.driver)
  }

  /** Commit number `i` is this process's, ends this ride and leaves this driver in its column. */
  ghost predicate EndsRide(commits: seq<Commit>, i: nat, pid: nat, ride: string, driver: string)
    requires i < |commits|
  {
    && commits[i].pid == pid
    && (MovesTo(commits[i].work, ride, Cancelled) || MovesTo(commits[i].work, ride, Completed))
    && LastDriver(commits[..i + 1], ride) == Some(driver)
  }

  /** What is known of a PATCH: its sender, and that an HTTP action had committed, with its driver, before. */
  ghost predicate SentOk(s: State, sent: Sent) {
    && sent.pid < |s.calls|
    && var call := s.calls[sent.pid];
       && SyncFits(call.action, sent.sync.status)
       && (call.eventId.None? ==> CommittedWith(s.commits, sent.pid, RideOf(call.action), sent.sync.driver))
       && (call.eventId.Some? ==> EventCancel(call))
  }

  ghost predicate SyncsOk(s: State) {
    forall i :: 0 <= i < |s.syncs| ==> SentOk(s, s.syncs[i])
  }

  lemma SentStays(s: State, t: State, sent: Sent)
    requires SentOk(s, sent) && s.calls <= t.calls && s.commits <= t.commits
    ensures SentOk(t, sent)
  {
    var ride := RideOf(s.calls[sent.pid].action);
    if CommittedWith(s.commits, sent.pid, ride, sent.sync.driver) {
      CommittedWithStays(s.commits, t.commits, sent.pid, ride, sent.sync.driver);
    }
  }

  /** At most one PATCH per step, by a process that may send it. */
  lemma SyncsAfter(s: State, step: Step)
    requires ProcsOk(s)
    ensures var t := Exec(s, step);
            t.syncs == s.syncs || (t.syncs == s.syncs + [t.syncs[|s.syncs|]] && SentOk(s, t.syncs[|s.syncs|]))
  {
    if step.Advance? && step.pid in s.procs {
      assert ProcOk(s, step.pid, s.procs[step.pid]);
    }
  }

  lemma {:induction false} RunSyncsOk(steps: seq<Step>)
    ensures SyncsOk(Run(steps))
  {
    if |steps| > 0 {
      var prev := steps[..|steps| - 1];
      var s, t := Run(prev), Run(steps);
      RunSyncsOk(prev);
      RunInv(prev);
      ExecKeepsInv(s, steps[|steps| - 1]);
      SyncsAfter(s, steps[|steps| - 1]);
      forall i | 0 <= i < |t.syncs|
        ensures SentOk(t, t.syncs[i])
      {
        if i < |s.syncs| {
          assert SentOk(s, s.syncs[i]);
        }
        SentStays(s, t, t.syncs[i]);
      }
    }
  }

  lemma CommitEndsRide(s: State, sent: Sent)
    requires OriginsOk(s) && SentOk(s, sent) && s.calls[sent.pid].eventId.None? && sent.sync.status == D.Available
    ensures EndedItsRide(s, sent)
  {
    var ride := RideOf(s.calls[sent.pid].action);
    var i :| 0 <= i < |s.commits| && s.commits[i].pid == sent.pid && LastDriver(s.commits[..i + 1], ride) == Some(sent.sync.driver);
    assert FromCall(s, s.commits[i]);
    assert EndsRide(s.commits, i, sent.pid, ride, sent.sync.driver);
  }

  /**
   Whatever interleaves or fails, a PATCH of a call without an event id follows a commit of that very
   call that left the driver it names in the ride's column, and one that frees the driver follows
   the commit that cancelled or completed his ride.
   */
  lemma {:induction false} HttpSyncsFollowCommits(steps: seq<Step>, k: nat)
    requires k < |Run(steps).syncs|
    ensures var s := Run(steps);
            var sent := s.syncs[k];
            && sent.pid < |s.calls|
            && (s.calls[sent.pid].eventId.None? ==>
                  && CommittedWith(s.commits, sent.pid, RideOf(s.calls[sent.pid].action), sent.sync.driver)
                  && (sent.sync.status == D.Available ==> EndedItsRide(s, sent)))
  {
    RunSyncsOk(steps);
    RunInv(steps);
    var s := Run(steps);
    assert SentOk(s, s.syncs[k]);
    if s.calls[s.syncs[k].pid].eventId.None? && s.syncs[k].sync.status == D.Available {
      CommitEndsRide(s, s.syncs[k]);
    }
  }

  // ---------------------------------------------------------------- one PATCH per call

  /** Who has sent its PATCH is past the place where it could send one. */
  ghost predicate SentOnce(s: State) {
    && (forall j, k :: 0 <= j < k < |s.syncs| ==> s.syncs[j].pid != s.syncs[k].pid)
    && (forall k :: 0 <= k < |s.syncs| && s.syncs[k].pid in s.procs ==> PastSending(s.procs[s.syncs[k].pid]))
  }

  predicate PastSending(p: Proc) {
    Finished(p) || (p.phase.Staged? && LedgerFirst(p.call))
  }

  lemma PastSendingStays(s: State, step: Step, pid: nat)
    requires pid in s.procs && pid < |s.calls| && PastSending(s.procs[pid]) && pid in Exec(s, step).procs
    ensures PastSending(Exec(s, step).procs[pid])
  {
  }

  lemma SenderMovesPast(s: State, step: Step)
    ensures var t := Exec(s, step);
            t.syncs == s.syncs
            || (t.syncs == s.syncs + [t.syncs[|s.syncs|]] && t.syncs[|s.syncs|].pid in s.procs
                && !PastSending(s.procs[t.syncs[|s.syncs|].pid])
                && t.syncs[|s.syncs|].pid in t.procs && PastSending(t.procs[t.syncs[|s.syncs|].pid]))
  {
  }

  lemma StepKeepsSentOnce(s: State, step: Step)
    requires Inv(s) && SyncsOk(s) && SentOnce(s)
    ensures SentOnce(Exec(s, step))
  {
    var t := Exec(s, step);
    SenderMovesPast(s, step);
    forall k | 0 <= k < |t.syncs| && t.syncs[k].pid in t.procs
      ensures PastSending(t.procs[t.syncs[k].pid])
    {
      if k < |s.syncs| {
        assert SentOk(s, s.syncs[k]);
        if s.syncs[k].pid in s.procs {
          PastSendingStays(s, step, s.syncs[k].pid);
        } else {
          GoneStaysGone(s, step, s.syncs[k].pid);
        }
      }
    }
  }

  lemma GoneStaysGone(s: State, step: Step, pid: nat)
    requires pid !in s.procs && pid < |s.calls|
    ensures pid !in Exec(s, step).procs
  {
  }

  /** A call sends at most one PATCH, in every run. */
  lemma {:induction false} RunSentOnce(steps: seq<Step>)
    ensures SentOnce(Run(steps))
  {
    if |steps| > 0 {
      var prev := steps[..|steps| - 1];
      RunSentOnce(prev);
      RunInv(prev);
      RunSyncsOk(prev);
      StepKeepsSentOnce(Run(prev), steps[|steps| - 1]);
    }
  }

  // ---------------------------------------------------------------- cancellations by event

  /** Every PATCH that freed a driver is backed by its sender's commit, which ended that driver's ride. */
  ghost predicate FreedRidesEnded(s: State) {
    forall i :: 0 <= i < |s.syncs| && s.syncs[i].sync.status == D.Available ==> EndedItsRide(s, s.syncs[i])
  }

  /** The cancelling calls made so far that carry an event id carry one of these. */
  predicate CancelEventsIn(calls: seq<Call>, ids: set<string>) {
    forall k :: 0 <= k < |calls| && EventCancel(calls[k]) ==> calls[k].eventId.value in ids
  }

  lemma NoEventCancelsNoDebt(steps: seq<Step>)
    requires CancelEventsIn(Run(steps).calls, {})
    ensures FreedRidesEnded(Run(steps))
  {
    var s := Run(steps);
    RunSyncsOk(steps);
    forall i | 0 <= i < |s.syncs| && s.syncs[i].sync.status == D.Available
      ensures EndedItsRide(s, s.syncs[i])
    {
      HttpSyncsFollowCommits(steps, i);
      assert SentOk(s, s.syncs[i]);
    }
  }

  lemma SyncThenRollBack(steps: seq<Step>, pid: nat) returns (more: seq<Step>)
    requires pid in Run(steps).procs && EventCancel(Run(steps).procs[pid].call) && Run(steps).procs[pid].phase.Guarded?
    requires DriverColumn(Run(steps).db, RideOf(Run(steps).procs[pid].call.action)).Some?
    ensures var s, t := Run(steps), Run(more);
            && t.db == s.db && t.commits == s.commits && t.calls == s.calls
            && t.syncs == s.syncs + [Sent(pid, Sync(DriverColumn(s.db, RideOf(s.procs[pid].call.action)).value, D.Available))]
  {
    RunAppend(steps, Advance(pid), Abort(pid));
    more := steps + [Advance(pid), Abort(pid)];
  }

  /** One more call cancels a matched ride by event, frees its driver, and is rolled back. */
  lemma CancelRolledBack(steps: seq<Step>, call: Call) returns (more: seq<Step>)
    requires EventCancel(call) && call.eventId.value !in Run(steps).db.ledger
    requires var id := RideOf(call.action);
             id in Run(steps).db.rides && Run(steps).db.rides[id].status == Matched && Run(steps).db.rides[id].driverId.Some?
    ensures var s, t := Run(steps), Run(more);
            && t.db == s.db && t.commits == s.commits && t.calls == s.calls + [call]
            && t.syncs == s.syncs + [Sent(|s.calls|, Sync(s.db.rides[RideOf(call.action)].driverId.value, D.Available))]
  {
    more := SpawnAndGuard(steps, call);
    more := SyncThenRollBack(more, |Run(steps).calls|);
  }

  lemma NextCallUncommitted(steps: seq<Step>)
    ensures !CommittedBy(Run(steps).commits, |Run(steps).calls|)
  {
    RunInv(steps);
    var s := Run(steps);
    forall i | 0 <= i < |s.commits|
      ensures s.commits[i].pid != |s.calls|
    {
      assert FromCall(s, s.commits[i]);
    }
  }

  /** A matched ride, reached without this event. */
  lemma ReachMatchedWithout(input: RideInput, eventId: string) returns (steps: seq<Step>)
    ensures var s := Run(steps);
            && s.syncs == [] && |s.calls| == 2 && CancelEventsIn(s.calls, {}) && !CommittedBy(s.commits, 2)
            && input.id in s.db.rides && s.db.rides[input.id].status == Matched
            && s.db.rides[input.id].driverId == Some("d") && eventId !in s.db.ledger
  {
    var first, second := eventId + "1", eventId + "2";
    assert first[|eventId|] != second[|eventId|];
    steps := ReachMatched(input, "d", first, second);
    NextCallUncommitted(steps);
    assert |first| != |eventId| && |second| != |eventId|;
  }

  /**
   The cancelling event handlers send the driver's AVAILABLE PATCH inside the transaction. If that
   transaction is then rolled back, the driver has been freed and the ride still carries him.
   */
  lemma {:induction false} DriverFreedByRolledBackCancel(input: RideInput, reason: Option<Reason>, eventId: string)
      returns (steps: seq<Step>)
    ensures CancelEventsIn(Run(steps).calls, {eventId})
    ensures var s := Run(steps);
            && s.syncs == [Sent(2, Sync("d", D.Available))] && !CommittedBy(s.commits, 2)
            && |s.calls| == 3 && s.calls[2] == Call(CancelRide(input.id, reason), Some(eventId))
            && input.id in s.db.rides && s.db.rides[input.id].status == Matched
            && s.db.rides[input.id].driverId == Some("d")
            && eventId !in s.db.ledger
  {
    steps := ReachMatchedWithout(input, eventId);
    steps := CancelRolledBack(steps, Call(CancelRide(input.id, reason), Some(eventId)));
  }

  /**
   In every run each freed driver's ride has been ended by the call that freed him, exactly when no
   cancelling call carries an event id: for any set of event ids such calls may carry, all runs are
   in order if and only if that set is empty.
   */
  lemma {:induction false} FreedRidesEndedIff(ids: set<string>)
    ensures (forall steps | CancelEventsIn(Run(steps).calls, ids) :: FreedRidesEnded(Run(steps))) <==> ids == {}
  {
    if ids == {} {
      forall steps | CancelEventsIn(Run(steps).calls, ids)
        ensures FreedRidesEnded(Run(steps))
      {
        NoEventCancelsNoDebt(steps);
      }
    } else {
      var e :| e in ids;
      var route := Route(GeoPoint(0.0, 0.0), GeoPoint(0.0, 0.0), 0.0);
      var steps := DriverFreedByRolledBackCancel(RideInput("r", "rider", route), None, e);
      assert CancelEventsIn(Run(steps).calls, ids);
      assert Run(steps).syncs[0].sync.status == D.Available;
      assert !FreedRidesEnded(Run(steps));
    }
  }
}
