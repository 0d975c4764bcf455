/**
 The ride lifecycle. While at most one handler at a time sits between its guard and its write on
 a ride, the ride's history walks the status table. When two do, it can leave the table: `WriteLegalIff`
 says exactly which writes keep to it, and `LifecycleIff` which runs.
 */
module TripLifecycle {
  import opened Options
  import opened EventSchema
  import opened RideStateMachine
  import opened TripStore
  import opened TripHandlers
  import opened TripGuarantees

  ghost function Statuses(log: seq<Entry>): seq<RideStatus> {
    seq(|log|, i requires 0 <= i < |log| => log[i].to)
  }

  /** No two handlers are between guard and write on this ride. */
  ghost predicate Exclusive(s: State, id: string) {
    forall p, q :: p in s.procs && q in s.procs && p != q ==> !(InFlight(s.procs[p], id) && InFlight(s.procs[q], id))
  }

  ghost predicate ExclusiveRun(steps: seq<Step>, id: string) {
    forall k :: 0 <= k <= |steps| ==> Exclusive(Run(steps[..k]), id)
  }

  /** What a handler in flight has seen is still what the row says. */
  ghost predicate Fresh(s: State, p: Proc, id: string) {
    InFlight(p, id) ==>
      && id in s.db.rides
      && p.phase.row == s.db.rides[id]
      && (p.call.action.Start? && p.phase.Staged? ==> s.db.rides[id].otp == Some(p.call.action.otp))
  }

  ghost predicate Legal(s: State, id: string) {
    && (id in s.db.rides ==> id in s.db.audit && IsPath(Statuses(s.db.audit[id])))
    && (forall pid :: pid in s.procs ==> Fresh(s, s.procs[pid], id))
  }

  lemma PathAppend(log: seq<Entry>, e: Entry)
    requires IsPath(Statuses(log)) && CanTransition(log[|log| - 1].to, e.to)
    ensures IsPath(Statuses(log + [e]))
  {
    var before, after := Statuses(log), Statuses(log + [e]);
    forall i | 0 < i < |after|
      ensures CanTransition(after[i - 1], after[i])
    {
      if i < |log| {
        assert CanTransition(before[i - 1], before[i]);
      }
    }
  }

  lemma CreationIsPath()
    ensures IsPath(Statuses([Entry(Requested, None), Entry(Matching, None)]))
  {
  }

  lemma CommitElsewhere(s: State, pid: nat, replyLost: bool, id: string)
    requires Inv(s) && pid in s.procs && AtCommit(s.procs[pid])
    requires RideOf(s.procs[pid].call.action) != id
    ensures var t := CommitProc(s, pid, replyLost);
            && (id in t.db.rides <==> id in s.db.rides)
            && (id in s.db.rides ==> t.db.rides[id] == s.db.rides[id] && t.db.audit[id] == s.db.audit[id])
  {
    assert ProcOk(s, pid, s.procs[pid]);
  }

  /** A commit on the ride itself, seen from the ride: its creation, or one fresh legal move. */
  lemma CommitHere(s: State, pid: nat, replyLost: bool, id: string)
    requires Inv(s) && Legal(s, id) && pid in s.procs && AtCommit(s.procs[pid])
    requires RideOf(s.procs[pid].call.action) == id
    requires OutcomeOf(s.db, s.procs[pid].call.eventId, NextWork(s.procs[pid])).Processed?
    ensures var t := CommitProc(s, pid, replyLost);
            var work := NextWork(s.procs[pid]);
            && id in t.db.rides
            && (id !in s.db.rides ==> work.CreateAndMatch? && t.db.audit[id] == [Entry(Requested, None), Entry(Matching, None)])
            && (id in s.db.rides ==>
                  && work.Move? && work.id == id && work.to == Target(s.procs[pid].call.action)
                  && InFlight(s.procs[pid], id)
                  && CanTransition(s.db.rides[id].status, work.to)
                  && t.db.rides[id] == Patched(s.db.rides[id], work.to, work.patch)
                  && t.db.audit[id] == s.db.audit[id] + [Entry(work.to, work.patch.reason)])
  {
    var p := s.procs[pid];
    assert ProcOk(s, pid, p) && Fresh(s, p, id);
    if id !in s.db.rides {
      var log := [Entry(Requested, None)];
      assert [] + log == log;
      assert log + [Entry(Matching, None)] == [Entry(Requested, None), Entry(Matching, None)];
    }
  }

  /** Process `pid` has left flight and every other process is as it was. */
  ghost predicate Landed(s: State, t: State, pid: nat) {
    && pid in s.procs && t.procs.Keys == s.procs.Keys
    && !t.procs[pid].phase.Guarded? && !t.procs[pid].phase.Staged?
    && forall q :: q in s.procs && q != pid ==> t.procs[q] == s.procs[q]
  }

  lemma CommitLands(s: State, pid: nat, replyLost: bool)
    requires pid in s.procs
    ensures Landed(s, CommitProc(s, pid, replyLost), pid)
    ensures !OutcomeOf(s.db, s.procs[pid].call.eventId, NextWork(s.procs[pid])).Processed?
            ==> CommitProc(s, pid, replyLost).db == s.db
  {
  }

  lemma LegalWhenUntouched(s: State, t: State, pid: nat, id: string)
    requires Legal(s, id) && Landed(s, t, pid)
    requires id in t.db.rides <==> id in s.db.rides
    requires id in s.db.rides ==> t.db.rides[id] == s.db.rides[id] && id in t.db.audit && t.db.audit[id] == s.db.audit[id]
    ensures Legal(t, id)
  {
    forall q | q in t.procs
      ensures Fresh(t, t.procs[q], id)
    {
      assert Fresh(s, s.procs[q], id);
    }
  }

  lemma LegalWhenMoved(s: State, t: State, pid: nat, id: string)
    requires Exclusive(s, id) && Legal(s, id) && Landed(s, t, pid)
    requires id in s.db.rides ==> InFlight(s.procs[pid], id)
    requires id in t.db.rides && id in t.db.audit && IsPath(Statuses(t.db.audit[id]))
    ensures Legal(t, id)
  {
    forall q | q in t.procs
      ensures Fresh(t, t.procs[q], id)
    {
      assert Fresh(s, s.procs[q], id);
      assert q != pid && InFlight(s.procs[pid], id) ==> !InFlight(s.procs[q], id);
    }
  }

  lemma CommittedPath(s: State, pid: nat, replyLost: bool, id: string)
    requires Inv(s) && Legal(s, id) && pid in s.procs && AtCommit(s.procs[pid])
    requires RideOf(s.procs[pid].call.action) == id
    requires OutcomeOf(s.db, s.procs[pid].call.eventId, NextWork(s.procs[pid])).Processed?
    ensures var t := CommitProc(s, pid, replyLost);
            && id in t.db.rides && id in t.db.audit && IsPath(Statuses(t.db.audit[id]))
            && (id in s.db.rides ==> InFlight(s.procs[pid], id))
  {
    CommitHere(s, pid, replyLost, id);
    if id in s.db.rides {
      assert RowFollows(s.db.rides[id], s.db.audit[id]);
      var work := NextWork(s.procs[pid]);
      PathAppend(s.db.audit[id], Entry(work.to, work.patch.reason));
    } else {
      CreationIsPath();
    }
  }

  lemma CommitKeepsLegal(s: State, pid: nat, replyLost: bool, id: string)
    requires Inv(s) && Exclusive(s, id) && Legal(s, id) && pid in s.procs && AtCommit(s.procs[pid])
    ensures Legal(CommitProc(s, pid, replyLost), id)
  {
    var t := CommitProc(s, pid, replyLost);
    CommitLands(s, pid, replyLost);
    if RideOf(s.procs[pid].call.action) != id {
      CommitElsewhere(s, pid, replyLost, id);
      LegalWhenUntouched(s, t, pid, id);
    } else if OutcomeOf(s.db, s.procs[pid].call.eventId, NextWork(s.procs[pid])).Processed? {
      CommittedPath(s, pid, replyLost, id);
      LegalWhenMoved(s, t, pid, id);
    } else {
      LegalWhenUntouched(s, t, pid, id);
    }
  }

  /** A process that is not committing enters flight only with the row as it stands. */
  lemma QuietStepFresh(s: State, step: Step, id: string, q: nat)
    requires Legal(s, id) && !Commits(s, step) && q in Exec(s, step).procs
    ensures Fresh(Exec(s, step), Exec(s, step).procs[q], id)
  {
    QuietStep(s, step);
    if q in s.procs {
      assert Fresh(s, s.procs[q], id);
    }
  }

  lemma StepKeepsLegal(s: State, step: Step, id: string)
    requires Inv(s) && Exclusive(s, id) && Legal(s, id)
    ensures Legal(Exec(s, step), id)
  {
    if Commits(s, step) {
      CommitKeepsLegal(s, step.pid, step.CommitThenThrow?, id);
    } else {
      QuietStep(s, step);
      forall q | q in Exec(s, step).procs
        ensures Fresh(Exec(s, step), Exec(s, step).procs[q], id)
      {
        QuietStepFresh(s, step, id, q);
      }
    }
  }

  lemma {:induction false} RunLegal(steps: seq<Step>, id: string)
    requires ExclusiveRun(steps, id)
    ensures Legal(Run(steps), id)
  {
    if |steps| > 0 {
      var prev := steps[..|steps| - 1];
      ExclusivePrefix(steps, id, |steps| - 1);
      RunLegal(prev, id);
      RunInv(prev);
      assert Exclusive(Run(steps[..|steps| - 1]), id);
      StepKeepsLegal(Run(prev), steps[|steps| - 1], id);
    }
  }

  lemma ExclusivePrefix(steps: seq<Step>, id: string, n: nat)
    requires ExclusiveRun(steps, id) && n <= |steps|
    ensures ExclusiveRun(steps[..n], id)
  {
    forall k | 0 <= k <= n
      ensures Exclusive(Run(steps[..n][..k]), id)
    {
      assert steps[..n][..k] == steps[..k];
    }
  }

  /**
   Serial lifecycle: the audit log of the ride is a walk of the status table from REQUESTED, ends
   in the ride's status, visits no status twice and has at most seven entries.
   */
  lemma {:induction false} SerialLifecycle(steps: seq<Step>, id: string)
    requires ExclusiveRun(steps, id)
    ensures id in Run(steps).db.rides ==>
              && id in Run(steps).db.audit
              && var log := Statuses(Run(steps).db.audit[id]);
                 && IsPath(log)
                 && log[|log| - 1] == Run(steps).db.rides[id].status
                 && |log| <= 7
                 && forall i, j :: 0 <= i < j < |log| ==> log[i] != log[j]
  {
    RunLegal(steps, id);
    RunInv(steps);
    var s := Run(steps);
    if id in s.db.rides {
      assert RowFollows(s.db.rides[id], s.db.audit[id]);
      PathFacts(Statuses(s.db.audit[id]));
    }
  }

  /**
   This step is the commit of a start of this ride that gave the stored code, by a caller who is the
   ride's driver or has not said who he is.
   */
  predicate StartsRide(s: State, step: Step, id: string)
    requires id in s.db.rides
  {
    && Commits(s, step)
    && var action := s.procs[step.pid].call.action;
       && action.Start? && action.ride == id
       && s.db.rides[id].otp == Some(action.otp)
       && (action.caller.None? || action.caller.value == "" || s.db.rides[id].driverId == action.caller)
  }

  /** One more step of a serial run: what it may do to the ride. */
  ghost predicate LawfulChange(s: State, step: Step, t: State, id: string) {
    && id in s.db.rides && id in s.db.audit && id in t.db.rides && id in t.db.audit
    && (Terminal(s.db.rides[id].status) ==> t.db.rides[id] == s.db.rides[id] && t.db.audit[id] == s.db.audit[id])
    && (s.db.rides[id].driverId.Some? ==> t.db.rides[id].driverId == s.db.rides[id].driverId)
    && (t.db.rides[id].status == InProgress && s.db.rides[id].status != InProgress ==>
          Occurs(s.db.audit[id], Matched) && StartsRide(s, step, id))
  }

  /** A ride on a legal path that is not yet matched has no driver. */
  lemma UnmatchedHasNoDriver(row: Row, log: seq<Entry>)
    requires RowFollows(row, log) && IsPath(Statuses(log)) && CanTransition(row.status, Matched)
    ensures row.driverId.None?
  {
    var e := Entry(Matched, None);
    PathAppend(log, e);
    PathFacts(Statuses(log + [e]));
    assert Statuses(log + [e])[|log|] == Matched;
    forall i | 0 <= i < |log|
      ensures log[i].to != Matched
    {
      assert Statuses(log + [e])[i] == log[i].to;
    }
  }

  lemma ArrivedWasMatched(row: Row, log: seq<Entry>)
    requires RowFollows(row, log) && IsPath(Statuses(log)) && CanTransition(row.status, InProgress)
    ensures Occurs(log, Matched)
  {
    assert Statuses(log)[|log| - 1] == row.status;
    PathPassesMatch(Statuses(log));
    var i :| 0 <= i < |log| && Statuses(log)[i] == Matched;
    assert log[i].to == Matched;
  }

  lemma MoveIsLawful(s: State, step: Step, t: State, id: string)
    requires Inv(s) && Legal(s, id) && id in s.db.rides && Commits(s, step)
    requires InFlight(s.procs[step.pid], id)
    requires id in t.db.rides && id in t.db.audit
    requires CanTransition(s.db.rides[id].status, Target(s.procs[step.pid].call.action))
    requires var work := NextWork(s.procs[step.pid]);
             work.Move? && t.db.rides[id] == Patched(s.db.rides[id], Target(s.procs[step.pid].call.action), work.patch)
    ensures LawfulChange(s, step, t, id)
  {
    var p := s.procs[step.pid];
    assert ProcOk(s, step.pid, p);
    assert RowFollows(s.db.rides[id], s.db.audit[id]);
    if p.call.action.ReserveDriver? {
      UnmatchedHasNoDriver(s.db.rides[id], s.db.audit[id]);
    } else if p.call.action.Start? {
      ArrivedWasMatched(s.db.rides[id], s.db.audit[id]);
      assert Fresh(s, p, id);
    }
  }

  lemma SameIsLawful(s: State, step: Step, t: State, id: string)
    requires id in s.db.rides && id in s.db.audit && id in t.db.rides && id in t.db.audit
    requires t.db.rides[id] == s.db.rides[id] && t.db.audit[id] == s.db.audit[id]
    ensures LawfulChange(s, step, t, id)
  {
  }

  lemma CommitIsLawful(s: State, step: Step, id: string)
    requires Inv(s) && Legal(s, id) && id in s.db.rides && Commits(s, step)
    ensures LawfulChange(s, step, Exec(s, step), id)
  {
    var p := s.procs[step.pid];
    var replyLost := step.CommitThenThrow?;
    CommitLands(s, step.pid, replyLost);
    if RideOf(p.call.action) != id {
      CommitElsewhere(s, step.pid, replyLost, id);
      SameIsLawful(s, step, CommitProc(s, step.pid, replyLost), id);
    } else if OutcomeOf(s.db, p.call.eventId, NextWork(p)).Processed? {
      CommitHere(s, step.pid, replyLost, id);
      MoveIsLawful(s, step, CommitProc(s, step.pid, replyLost), id);
    } else {
      SameIsLawful(s, step, CommitProc(s, step.pid, replyLost), id);
    }
  }

  lemma StepIsLawful(s: State, step: Step, id: string)
    requires Inv(s) && Legal(s, id) && id in s.db.rides
    ensures LawfulChange(s, step, Exec(s, step), id)
  {
    if Commits(s, step) {
      CommitIsLawful(s, step, id);
    } else {
      QuietStep(s, step);
      SameIsLawful(s, step, Exec(s, step), id);
    }
  }

  /**
   In a serial run every step is lawful: nothing changes after COMPLETED or CANCELLED, a driver
   once set stays, and a trip starts only after a match and by a start call that itself carries the
   stored pickup code and does not come from somebody else than the driver.
   */
  lemma {:induction false} SerialStepsLawful(steps: seq<Step>, id: string, k: nat)
    requires ExclusiveRun(steps, id)
    requires k < |steps| && id in Run(steps[..k]).db.rides
    ensures LawfulChange(Run(steps[..k]), steps[k], Run(steps[..k + 1]), id)
  {
    ExclusivePrefix(steps, id, k);
    RunLegal(steps[..k], id);
    RunInv(steps[..k]);
    assert steps[..k + 1][..k] == steps[..k];
    StepIsLawful(Run(steps[..k]), steps[k], id);
  }

  /** What is final about a ride from one state to a later one. */
  ghost predicate KeepsOutcome(s: State, t: State, id: string) {
    id in s.db.rides ==>
      && id in t.db.rides
      && (Terminal(s.db.rides[id].status) ==> t.db.rides[id] == s.db.rides[id])
      && (s.db.rides[id].driverId.Some? ==> t.db.rides[id].driverId == s.db.rides[id].driverId)
  }

  lemma OutcomeChains(r: State, s: State, step: Step, t: State, id: string)
    requires KeepsOutcome(r, s, id) && (id in s.db.rides ==> LawfulChange(s, step, t, id))
    ensures KeepsOutcome(r, t, id)
  {
  }

  lemma {:induction false} RunKeepsOutcome(steps: seq<Step>, id: string, k: nat)
    requires ExclusiveRun(steps, id) && k <= |steps|
    ensures KeepsOutcome(Run(steps[..k]), Run(steps), id)
    decreases |steps|
  {
    if k < |steps| {
      var last := |steps| - 1;
      ExclusivePrefix(steps, id, last);
      assert steps[..last][..k] == steps[..k] && steps[..last + 1] == steps;
      RunKeepsOutcome(steps[..last], id, k);
      if id in Run(steps[..last]).db.rides {
        SerialStepsLawful(steps, id, last);
      }
      OutcomeChains(Run(steps[..k]), Run(steps[..last]), steps[last], Run(steps), id);
    } else {
      assert steps[..k] == steps;
    }
  }

  /** A finished ride and an attached driver are final for the rest of a serial run. */
  lemma {:induction false} SerialOutcomeFinal(steps: seq<Step>, id: string, k: nat)
    requires ExclusiveRun(steps, id)
    requires k <= |steps| && id in Run(steps[..k]).db.rides
    ensures id in Run(steps).db.rides
    ensures Terminal(Run(steps[..k]).db.rides[id].status) ==> Run(steps).db.rides[id] == Run(steps[..k]).db.rides[id]
    ensures Run(steps[..k]).db.rides[id].driverId.Some?
            ==> Run(steps).db.rides[id].driverId == Run(steps[..k]).db.rides[id].driverId
  {
    RunKeepsOutcome(steps, id, k);
  }

  // ---------------------------------------------------------------- overlapping handlers

  predicate Cancellable(status: RideStatus) {
    status in {Matching, Matched, DriverArriving, DriverArrived}
  }

  /** The status a handler read still stands, or it cancels and the ride can still be cancelled. */
  predicate StillFits(seen: RideStatus, now: RideStatus, to: RideStatus) {
    seen == now || (to == Cancelled && Cancellable(now))
  }

  lemma FitsIffLegal(seen: RideStatus, now: RideStatus, to: RideStatus)
    requires CanTransition(seen, to) && to != Requested
    ensures CanTransition(now, to) <==> StillFits(seen, now, to)
  {
  }

  /** A handler in flight on an existing ride commits its target status, whatever the row says now. */
  lemma InFlightCommits(s: State, pid: nat, id: string)
    requires pid in s.procs && ProcOk(s, pid, s.procs[pid]) && InFlight(s.procs[pid], id) && AtCommit(s.procs[pid])
    requires s.procs[pid].call.eventId.Some? ==> s.procs[pid].call.eventId.value !in s.db.ledger
    ensures var t := Exec(s, Advance(pid));
            && id in s.db.rides && id in t.db.rides && t.db.rides[id].status == Target(s.procs[pid].call.action)
            && |t.commits| == |s.commits| + 1
  {
  }

  /**
   A handler past its guard writes, whatever has been committed since it read the row. The write is
   a legal transition exactly when the ride still has the status the handler read, or the handler
   cancels and the ride is in a status that can be cancelled.
   */
  lemma {:induction false} WriteLegalIff(s: State, pid: nat, id: string)
    requires Inv(s) && pid in s.procs && InFlight(s.procs[pid], id) && AtCommit(s.procs[pid])
    requires s.procs[pid].call.eventId.Some? ==> s.procs[pid].call.eventId.value !in s.db.ledger
    ensures var t := Exec(s, Advance(pid));
            && id in s.db.rides && id in t.db.rides
            && |t.commits| == |s.commits| + 1
            && t.db.rides[id].status == Target(s.procs[pid].call.action)
            && (CanTransition(s.db.rides[id].status, t.db.rides[id].status) <==>
                  || s.db.rides[id].status == s.procs[pid].phase.row.status
                  || (s.procs[pid].call.action.CancelRide?
                      && s.db.rides[id].status in {Matching, Matched, DriverArriving, DriverArrived}))
  {
    assert ProcOk(s, pid, s.procs[pid]);
    InFlightCommits(s, pid, id);
    FitsIffLegal(s.procs[pid].phase.row.status, s.db.rides[id].status, Target(s.procs[pid].call.action));
  }

  /** When commit number `i` went in, did what its handler had seen still fit the ride? */
  ghost predicate CommitFits(commits: seq<Commit>, i: nat)
    requires i < |commits|
  {
    var c, before := commits[i], Replayed(commits[..i]);
    c.work.Move? ==>
      && c.seen.Some? && c.work.id in before.rides
      && StillFits(c.seen.value, before.rides[c.work.id].status, c.work.to)
  }

  ghost predicate AllFit(commits: seq<Commit>, id: string) {
    forall i :: 0 <= i < |commits| && commits[i].work.Move? && commits[i].work.id == id ==> CommitFits(commits, i)
  }

  ghost predicate PathIff(s: State, id: string) {
    id in s.db.rides ==> id in s.db.audit && (IsPath(Statuses(s.db.audit[id])) <==> AllFit(s.commits, id))
  }

  lemma PathAppendIff(log: seq<Entry>, e: Entry)
    requires |log| > 0
    ensures IsPath(Statuses(log + [e])) <==> IsPath(Statuses(log)) && CanTransition(log[|log| - 1].to, e.to)
  {
    var before, after := Statuses(log), Statuses(log + [e]);
    if IsPath(before) && CanTransition(log[|log| - 1].to, e.to) {
      PathAppend(log, e);
    }
    if IsPath(after) {
      assert CanTransition(after[|log| - 1], after[|log|]);
      forall i | 0 < i < |before|
        ensures CanTransition(before[i - 1], before[i])
      {
        assert CanTransition(after[i - 1], after[i]);
      }
    }
  }

  lemma AllFitSnoc(commits: seq<Commit>, c: Commit, id: string)
    ensures AllFit(commits + [c], id) <==>
            AllFit(commits, id) && (c.work.Move? && c.work.id == id ==> CommitFits(commits + [c], |commits|))
  {
    var more := commits + [c];
    forall i | 0 <= i < |commits|
      ensures more[i] == commits[i] && (CommitFits(more, i) <==> CommitFits(commits, i))
    {
      assert more[..i] == commits[..i];
    }
  }

  lemma UnmovedAllFit(commits: seq<Commit>, id: string)
    requires !HasMoved(commits, id)
    ensures AllFit(commits, id)
  {
  }

  /** A commit on the ride, in full, from any state: its creation, or a move from what it is now. */
  lemma WriteHere(s: State, pid: nat, replyLost: bool, id: string)
    requires Inv(s) && pid in s.procs && AtCommit(s.procs[pid])
    requires RideOf(s.procs[pid].call.action) == id
    requires OutcomeOf(s.db, s.procs[pid].call.eventId, NextWork(s.procs[pid])).Processed?
    ensures var t := CommitProc(s, pid, replyLost);
            var c := NextCommit(pid, s.procs[pid]);
            && t.commits == s.commits + [c] && id in t.db.rides && id in t.db.audit
            && (id !in s.db.rides ==> c.work.CreateAndMatch? && t.db.audit[id] == [Entry(Requested, None), Entry(Matching, None)])
            && (id in s.db.rides ==>
                  && id in s.db.audit && c.work.Move? && c.work.id == id && c.seen.Some?
                  && c.work.to != Requested && CanTransition(c.seen.value, c.work.to)
                  && t.db.audit[id] == s.db.audit[id] + [Entry(c.work.to, c.work.patch.reason)])
  {
    assert ProcOk(s, pid, s.procs[pid]);
    if id !in s.db.rides {
      var log := [Entry(Requested, None)];
      assert [] + log == log;
      assert log + [Entry(Matching, None)] == [Entry(Requested, None), Entry(Matching, None)];
    }
  }

  lemma WriteKeepsPathIff(s: State, pid: nat, replyLost: bool, id: string)
    requires Inv(s) && HistoryOk(s) && PathIff(s, id) && pid in s.procs && AtCommit(s.procs[pid])
    requires RideOf(s.procs[pid].call.action) == id
    requires OutcomeOf(s.db, s.procs[pid].call.eventId, NextWork(s.procs[pid])).Processed?
    ensures PathIff(CommitProc(s, pid, replyLost), id)
  {
    var c := NextCommit(pid, s.procs[pid]);
    WriteHere(s, pid, replyLost, id);
    AllFitSnoc(s.commits, c, id);
    if id in s.db.rides {
      assert RowFollows(s.db.rides[id], s.db.audit[id]);
      PathAppendIff(s.db.audit[id], Entry(c.work.to, c.work.patch.reason));
      assert (s.commits + [c])[..|s.commits|] == s.commits;
      FitsIffLegal(c.seen.value, s.db.rides[id].status, c.work.to);
    } else {
      assert RideHistoryOk(s, id);
      UnmovedAllFit(s.commits, id);
      CreationIsPath();
    }
  }

  lemma CommitKeepsPathIff(s: State, pid: nat, replyLost: bool, id: string)
    requires Inv(s) && HistoryOk(s) && PathIff(s, id) && pid in s.procs && AtCommit(s.procs[pid])
    ensures PathIff(CommitProc(s, pid, replyLost), id)
  {
    if !OutcomeOf(s.db, s.procs[pid].call.eventId, NextWork(s.procs[pid])).Processed? {
    } else if RideOf(s.procs[pid].call.action) == id {
      WriteKeepsPathIff(s, pid, replyLost, id);
    } else {
      CommitElsewhere(s, pid, replyLost, id);
      AllFitSnoc(s.commits, NextCommit(pid, s.procs[pid]), id);
      assert ProcOk(s, pid, s.procs[pid]);
    }
  }

  lemma {:induction false} RunPathIff(steps: seq<Step>, id: string)
    ensures PathIff(Run(steps), id)
  {
    if |steps| > 0 {
      var prev := steps[..|steps| - 1];
      var s, step := Run(prev), steps[|steps| - 1];
      RunPathIff(prev, id);
      RunInv(prev);
      RunHistory(prev);
      if Commits(s, step) {
        CommitKeepsPathIff(s, step.pid, step.CommitThenThrow?, id);
      } else {
        QuietStep(s, step);
      }
    }
  }

  /**
   Over every run, however its handlers overlap: the audit log of a ride is a walk of the status
   table exactly when every transition that committed on it still fitted at that moment, that is,
   the ride had the status its handler read, or it was a cancellation of a cancellable ride.
   */
  lemma {:induction false} LifecycleIff(steps: seq<Step>, id: string)
    requires id in Run(steps).db.rides
    ensures id in Run(steps).db.audit
    ensures IsPath(Statuses(Run(steps).db.audit[id])) <==> AllFit(Run(steps).commits, id)
  {
    RunPathIff(steps, id);
  }

  /** Both handlers read the MATCHED row before either writes. */
  lemma ReachBothGuarded(input: RideInput) returns (steps: seq<Step>)
    ensures var s := Run(steps);
            && input.id in s.db.rides && 2 in s.procs && 3 in s.procs
            && s.procs[2].call == Call(Accept(input.id, 0), None) && s.procs[2].phase == Guarded(s.db.rides[input.id])
            && s.procs[3].call == Call(CancelRide(input.id, Some(RiderCancelled)), None)
            && s.procs[3].phase == Guarded(s.db.rides[input.id])
            && s.db.rides[input.id].status == Matched
  {
    steps := ReachMatched(input, "d", "e1", "e2");
    steps := SpawnAndGuard(steps, Call(Accept(input.id, 0), None));
    steps := SpawnAndGuard(steps, Call(CancelRide(input.id, Some(RiderCancelled)), None));
  }

  /** The overlap is reachable: a cancelled ride revived by an accept that was past its guard. */
  lemma {:induction false} CancelledRideCanBeRevived(input: RideInput) returns (steps: seq<Step>)
    ensures var s := Run(steps);
            && input.id in s.db.rides && s.db.rides[input.id].status == Cancelled
            && input.id in Exec(s, Advance(2)).db.rides
            && Exec(s, Advance(2)).db.rides[input.id].status == DriverArriving
  {
    steps := ReachBothGuarded(input);
    var s := Run(steps);
    RunInv(steps);
    assert ProcOk(s, 2, s.procs[2]) && ProcOk(s, 3, s.procs[3]);
    InFlightCommits(s, 3, input.id);
    CommitLands(s, 3, false);
    CommitKeepsInv(s, 3, false);
    RunSnoc(steps, Advance(3));
    steps := steps + [Advance(3)];
    assert ProcOk(Run(steps), 2, Run(steps).procs[2]);
    InFlightCommits(Run(steps), 2, input.id);
  }
}
