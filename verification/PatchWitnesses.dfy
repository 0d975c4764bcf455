/**
 Two runs in which no PATCH is lost and one of them is refused all the same: a cancellation rolled
 back after it has freed the driver, and a completion whose PATCH overtakes that of the start.
 */
module PatchWitnesses {
  import opened Options
  import opened RideStateMachine
  import opened TripStore
  import opened TripHandlers
  import opened TripGuarantees
  import opened TripLifecycle
  import opened DriverSyncs
  import opened RidePatches
  import opened DriverMirror
  import D = DriverStateMachine

  /**
   The driver freed by a rolled-back cancellation: his ride stands at MATCHED and his mirror at
   AVAILABLE, from which the ON_TRIP PATCH of its start will be refused.
   */
  lemma {:induction false} RolledBackCancelUncouples(input: RideInput, eventId: string) returns (steps: seq<Step>)
    ensures var s := Run(steps);
            && Names(s, input.id, "d") && s.db.rides[input.id].status == Matched && !AllBacked(s, input.id)
            && var mirror := MirrorAfter(D.Reserved, s.calls, s.syncs, input.id, "d", {});
               mirror == D.Available && mirror != Expected(Matched) && !D.CanTransition(mirror, D.OnTrip)
  {
    steps := DriverFreedByRolledBackCancel(input, None, eventId);
    var s := Run(steps);
    assert Concerns(s.calls, s.syncs[0], input.id, "d");
    MirrorIsPatchesApplied(steps, input.id, "d", D.Reserved, {});
  }

  // ---------------------------------------------------------------- one call after the other

  ghost predicate NobodyInFlight(s: State, id: string) {
    forall pid :: pid in s.procs ==> !InFlight(s.procs[pid], id)
  }

  ghost predicate OnlyInFlight(s: State, id: string, pid: nat) {
    forall q :: q in s.procs && q != pid ==> !InFlight(s.procs[q], id)
  }

  lemma ExclusiveSnoc(steps: seq<Step>, step: Step, id: string, pid: nat)
    requires ExclusiveRun(steps, id) && OnlyInFlight(Run(steps + [step]), id, pid)
    ensures ExclusiveRun(steps + [step], id)
  {
    var more := steps + [step];
    forall k | 0 <= k <= |more|
      ensures Exclusive(Run(more[..k]), id)
    {
      if k <= |steps| {
        assert more[..k] == steps[..k];
      } else {
        assert more[..k] == more;
      }
    }
  }

  /** A process that has passed its guard with the row as it stands, nobody else being in flight. */
  ghost predicate InCharge(steps: seq<Step>, id: string, pid: nat, call: Call, row: Row) {
    var s := Run(steps);
    && ExclusiveRun(steps, id) && OnlyInFlight(s, id, pid) && pid in s.procs && s.procs[pid].call == call
    && RideOf(call.action) == id && call.eventId.None? && !call.action.RequestRide?
    && id in s.db.rides && s.db.rides[id] == row
    && (s.procs[pid].phase == Guarded(row) || s.procs[pid].phase == Staged(row))
  }

  /** What a later state shares with an earlier one when process `pid` alone has moved. */
  ghost predicate Beside(s: State, t: State, pid: nat) {
    t.syncs == s.syncs && s.commits <= t.commits && forall q :: q in s.procs && q != pid ==> q in t.procs && t.procs[q] == s.procs[q]
  }

  lemma PassGuard(steps: seq<Step>, call: Call, id: string) returns (more: seq<Step>)
    requires ExclusiveRun(steps, id) && NobodyInFlight(Run(steps), id)
    requires WellFormed(call) && call.eventId.None? && !call.action.RequestRide? && RideOf(call.action) == id
    requires Guard(Run(steps).db, call).Guarded?
    ensures InCharge(more, id, |Run(steps).calls|, call, Run(steps).db.rides[id])
    ensures Run(more).procs[|Run(steps).calls|].phase.Guarded?
    ensures Beside(Run(steps), Run(more), |Run(steps).calls|) && Run(more).calls == Run(steps).calls + [call]
  {
    var pid := |Run(steps).calls|;
    RunInv(steps);
    NoneThereYet(Run(steps));
    RunSnoc(steps, Spawn(call));
    ExclusiveSnoc(steps, Spawn(call), id, pid);
    more := steps + [Spawn(call)];
    RunSnoc(more, Advance(pid));
    ExclusiveSnoc(more, Advance(pid), id, pid);
    more := more + [Advance(pid)];
  }

  lemma NoneThereYet(s: State)
    requires ProcsOk(s)
    ensures |s.calls| !in s.procs
  {
    forall pid | pid in s.procs
      ensures pid != |s.calls|
    {
      assert ProcOk(s, pid, s.procs[pid]);
    }
  }

  lemma PassOtp(steps: seq<Step>, id: string, pid: nat, call: Call, row: Row) returns (more: seq<Step>)
    requires InCharge(steps, id, pid, call, row) && Run(steps).procs[pid].phase.Guarded?
    requires call.action.Start? && OtpMatches(Run(steps).db, call.action)
    ensures InCharge(more, id, pid, call, row) && Run(more).procs[pid].phase.Staged?
    ensures Beside(Run(steps), Run(more), pid) && Run(more).calls == Run(steps).calls
  {
    RunSnoc(steps, Advance(pid));
    ExclusiveSnoc(steps, Advance(pid), id, pid);
    more := steps + [Advance(pid)];
  }

  /** The row after the transition this action makes. */
  function MovedRow(row: Row, action: Action): Row
    requires !action.RequestRide?
  {
    Patched(row, Target(action), WorkOf(action, row.route.km).patch)
  }

  /** Its call has committed: the row has moved, and it goes on to its PATCH if it has one to send. */
  ghost predicate Done(s: State, t: State, id: string, pid: nat, call: Call, row: Row)
    requires !call.action.RequestRide?
  {
    && id in t.db.rides && t.db.rides[id] == MovedRow(row, call.action)
    && pid in t.procs && t.procs[pid].call == call && t.procs[pid].phase == AfterCommit(t.db, call)
    && Beside(s, t, pid) && CommittedBy(t.commits, pid) && t.calls == s.calls
  }

  lemma CommitStep(s: State, id: string, pid: nat, call: Call, row: Row)
    requires pid in s.procs && s.procs[pid].call == call && AtCommit(s.procs[pid])
    requires RideOf(call.action) == id && call.eventId.None? && !call.action.RequestRide?
    requires id in s.db.rides && s.db.rides[id] == row
    requires s.procs[pid].phase == Guarded(row) || s.procs[pid].phase == Staged(row)
    ensures Done(s, Exec(s, Advance(pid)), id, pid, call, row)
    ensures !InFlight(Exec(s, Advance(pid)).procs[pid], id)
  {
    var t := Exec(s, Advance(pid));
    assert t.commits == s.commits + [NextCommit(pid, s.procs[pid])];
    assert t.commits[|s.commits|].pid == pid;
  }

  lemma CommitNow(steps: seq<Step>, id: string, pid: nat, call: Call, row: Row) returns (more: seq<Step>)
    requires InCharge(steps, id, pid, call, row) && AtCommit(Run(steps).procs[pid])
    ensures Done(Run(steps), Run(more), id, pid, call, row)
    ensures ExclusiveRun(more, id) && NobodyInFlight(Run(more), id)
  {
    CommitStep(Run(steps), id, pid, call, row);
    RunSnoc(steps, Advance(pid));
    CommitLands(Run(steps), pid, false);
    ExclusiveSnoc(steps, Advance(pid), id, pid);
    more := steps + [Advance(pid)];
  }

  /** The whole of an HTTP call up to its commit, with nothing in between. */
  lemma Perform(steps: seq<Step>, call: Call, id: string) returns (more: seq<Step>)
    requires ExclusiveRun(steps, id) && NobodyInFlight(Run(steps), id)
    requires WellFormed(call) && call.eventId.None? && !call.action.RequestRide? && RideOf(call.action) == id
    requires Guard(Run(steps).db, call).Guarded?
    requires call.action.Start? ==> OtpMatches(Run(steps).db, call.action)
    ensures var s, t := Run(steps), Run(more);
            && id in s.db.rides && id in t.db.rides && t.db.rides[id] == MovedRow(s.db.rides[id], call.action)
            && |s.calls| in t.procs && t.procs[|s.calls|].call == call && t.procs[|s.calls|].phase == AfterCommit(t.db, call)
            && Beside(s, t, |s.calls|) && CommittedBy(t.commits, |s.calls|) && s.commits <= t.commits && t.calls == s.calls + [call]
    ensures ExclusiveRun(more, id) && NobodyInFlight(Run(more), id)
  {
    var pid, row := |Run(steps).calls|, Run(steps).db.rides[id];
    more := PassGuard(steps, call, id);
    if call.action.Start? {
      OtpStillMatches(Run(steps), Run(more), call, id);
      more := PassOtp(more, id, pid, call, row);
    }
    more := CommitNow(more, id, pid, call, row);
  }

  lemma OtpStillMatches(s: State, t: State, call: Call, id: string)
    requires call.action.Start? && RideOf(call.action) == id && OtpMatches(s.db, call.action)
    requires id in t.db.rides && t.db.rides[id] == s.db.rides[id]
    ensures OtpMatches(t.db, call.action)
  {
  }

  lemma SendNow(steps: seq<Step>, pid: nat, id: string) returns (more: seq<Step>)
    requires ExclusiveRun(steps, id) && NobodyInFlight(Run(steps), id)
    requires pid in Run(steps).procs && Run(steps).procs[pid].phase.Syncing?
    ensures var s, t := Run(steps), Run(more);
            && t.syncs == s.syncs + [Sent(pid, s.procs[pid].phase.sync)] && t.db == s.db && t.calls == s.calls && t.commits == s.commits
            && forall q :: q in s.procs && q != pid ==> q in t.procs && t.procs[q] == s.procs[q]
    ensures ExclusiveRun(more, id) && NobodyInFlight(Run(more), id)
  {
    RunSnoc(steps, Advance(pid));
    ExclusiveSnoc(steps, Advance(pid), id, pid);
    more := steps + [Advance(pid)];
  }

  // ---------------------------------------------------------------- the overtaken PATCH

  /** With at most two calls, the first a ride request, no two handlers can be in flight together. */
  lemma {:induction false} TwoCallsExclusive(steps: seq<Step>, id: string)
    requires |Run(steps).calls| <= 2 && (|Run(steps).calls| >= 1 ==> Run(steps).calls[0].action.RequestRide?)
    ensures ExclusiveRun(steps, id)
  {
    forall k | 0 <= k <= |steps|
      ensures Exclusive(Run(steps[..k]), id)
    {
      CallsOfPrefix(steps, k);
      RunInv(steps[..k]);
      TwoProcsExclusive(Run(steps[..k]), id);
    }
  }

  lemma TwoProcsExclusive(s: State, id: string)
    requires ProcsOk(s) && |s.calls| <= 2 && (|s.calls| >= 1 ==> s.calls[0].action.RequestRide?)
    ensures Exclusive(s, id)
  {
    forall pid | pid in s.procs && InFlight(s.procs[pid], id)
      ensures pid == 1
    {
      assert ProcOk(s, pid, s.procs[pid]);
    }
  }

  lemma {:induction false} CallsOfPrefix(steps: seq<Step>, k: nat)
    requires k <= |steps|
    ensures Run(steps[..k]).calls <= Run(steps).calls
    decreases |steps|
  {
    if k < |steps| {
      var prev := steps[..|steps| - 1];
      assert prev[..k] == steps[..k];
      CallsOfPrefix(prev, k);
      RunInv(prev);
      ExecKeepsInv(Run(prev), steps[|steps| - 1]);
    } else {
      assert steps[..k] == steps;
    }
  }

  /** A matched ride, reached without overlap, all its handlers at rest. */
  lemma ReachMatchedAlone(input: RideInput) returns (steps: seq<Step>)
    ensures var s := Run(steps);
            && Names(s, input.id, "d") && s.db.rides[input.id].status == Matched && s.syncs == [] && |s.calls| == 2
    ensures ExclusiveRun(steps, input.id) && NobodyInFlight(Run(steps), input.id)
  {
    steps := ReachMatched(input, "d", "e1", "e2");
    TwoCallsExclusive(steps, input.id);
  }

  /** The driver has arrived, and the code is the one drawn as 0. */
  lemma ReachArrived(input: RideInput) returns (steps: seq<Step>)
    ensures var s := Run(steps);
            && Names(s, input.id, "d") && s.db.rides[input.id].status == DriverArrived
            && s.db.rides[input.id].otp == Some(MintOtp(0)) && s.syncs == [] && |s.calls| == 4
    ensures ExclusiveRun(steps, input.id) && NobodyInFlight(Run(steps), input.id)
  {
    var id := input.id;
    steps := ReachMatchedAlone(input);
    steps := Perform(steps, Call(Accept(id, 0), None), id);
    steps := Perform(steps, Call(MarkArrived(id), None), id);
  }

  /** The trip has started, and its start has not told the driver service yet. */
  lemma ReachStartOwing(input: RideInput) returns (steps: seq<Step>)
    ensures var s := Run(steps);
            && Names(s, input.id, "d") && s.db.rides[input.id].status == InProgress && s.syncs == [] && |s.calls| == 5
            && 4 in s.procs && s.procs[4].phase == Syncing(Sync("d", D.OnTrip))
            && RideOf(s.calls[4].action) == input.id && CommittedBy(s.commits, 4)
    ensures ExclusiveRun(steps, input.id) && NobodyInFlight(Run(steps), input.id)
  {
    var id := input.id;
    steps := ReachArrived(input);
    assert |MintOtp(0)| == 4;
    steps := Perform(steps, Call(Start(id, MintOtp(0), None), None), id);
  }

  /** The trip is over as well, and neither its start nor its completion has told the driver service. */
  lemma ReachBothOwing(input: RideInput) returns (steps: seq<Step>)
    ensures var s := Run(steps);
            && Names(s, input.id, "d") && s.db.rides[input.id].status == Completed && s.syncs == []
            && 4 in s.procs && s.procs[4].phase == Syncing(Sync("d", D.OnTrip))
            && 5 in s.procs && s.procs[5].phase == Syncing(Sync("d", D.Available))
            && |s.calls| == 6 && RideOf(s.calls[4].action) == input.id && RideOf(s.calls[5].action) == input.id
            && CommittedBy(s.commits, 4) && CommittedBy(s.commits, 5)
    ensures ExclusiveRun(steps, input.id) && NobodyInFlight(Run(steps), input.id)
  {
    steps := ReachStartOwing(input);
    var before := Run(steps).commits;
    steps := Perform(steps, Call(Complete(input.id), None), input.id);
    CommittedByStays(before, Run(steps).commits, 4);
  }

  /**
   In a run without overlap between guard and write, with no PATCH lost and none rolled back, the
   completion sends its PATCH before the start has sent its own, which is then refused. The mirror
   still ends where the ride has.
   */
  lemma {:induction false} OvertakenPatchIsRefused(input: RideInput) returns (steps: seq<Step>)
    ensures ExclusiveRun(steps, input.id)
    ensures var s := Run(steps);
            && s.syncs == [Sent(5, Sync("d", D.Available)), Sent(4, Sync("d", D.OnTrip))] && AllBacked(s, input.id)
            && Names(s, input.id, "d") && OnRide(s.calls, s.syncs[1], input.id)
            && !PatchLegal(s, input.id, "d", 1) && Overtaken(s, input.id, 1)
            && MirrorAfter(D.Reserved, s.calls, s.syncs, input.id, "d", {}) == Expected(s.db.rides[input.id].status) == D.Available
  {
    steps := ReachBothOwing(input);
    steps := SendNow(steps, 5, input.id);
    steps := SendNow(steps, 4, input.id);
    var s := Run(steps);
    assert Concerns(s.calls, s.syncs[0], input.id, "d");
    PatchLegalIff(steps, input.id, "d", 1);
    SerialPatchLegalIff(steps, input.id, "d", 1);
    MirrorIsPatchesApplied(steps, input.id, "d", D.Reserved, {});
  }
}
