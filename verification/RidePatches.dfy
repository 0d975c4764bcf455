/**
 The PATCHes one ride causes while its handlers do not overlap between guard and write: whom they
 name, which commits they stand for, and that every commit that owes one has sent it or is about to.
 Sending is a step of its own, so other calls on the ride may run, and send, in between.
 */
module RidePatches {
  import opened Options
  import opened RideStateMachine
  import opened TripStore
  import opened TripHandlers
  import opened TripGuarantees
  import opened TripLifecycle
  import opened DriverSyncs
  import D = DriverStateMachine

  // ---------------------------------------------------------------- the commits of a serial ride

  predicate MovesOn(c: Commit, id: string) {
    c.work.Move? && c.work.id == id
  }

  /** The transitions committed on a ride climb, and the ride stands where the last one took it. */
  ghost predicate CommitsClimb(s: State, id: string) {
    id in s.db.rides ==>
      && (forall i :: 0 <= i < |s.commits| && MovesOn(s.commits[i], id) ==>
            Rank(s.commits[i].work.to) <= Rank(s.db.rides[id].status))
      && (forall i, j :: 0 <= i < j < |s.commits| && MovesOn(s.commits[i], id) && MovesOn(s.commits[j], id) ==>
            Rank(s.commits[i].work.to) < Rank(s.commits[j].work.to))
      && (MovedTo(s.commits, id, InProgress) ==> s.db.rides[id].status in {InProgress, Completed})
      && (s.db.rides[id].status !in {Requested, Matching} ==> MovedTo(s.commits, id, s.db.rides[id].status))
  }

  lemma MovedToSnoc(commits: seq<Commit>, c: Commit, id: string, to: RideStatus)
    ensures MovedTo(commits + [c], id, to) <==> MovedTo(commits, id, to) || MovesTo(c.work, id, to)
  {
    var more := commits + [c];
    if MovedTo(commits, id, to) {
      var i :| 0 <= i < |commits| && MovesTo(commits[i].work, id, to);
      assert more[i] == commits[i];
    }
    if MovesTo(c.work, id, to) {
      assert more[|commits|] == c;
    }
  }

  lemma ClimbsOn(s: State, t: State, c: Commit, id: string)
    requires CommitsClimb(s, id) && t.commits == s.commits + [c] && MovesOn(c, id)
    requires id in s.db.rides && CanTransition(s.db.rides[id].status, c.work.to)
    requires id in t.db.rides && t.db.rides[id].status == c.work.to
    ensures CommitsClimb(t, id)
  {
    MovedToSnoc(s.commits, c, id, InProgress);
    MovedToSnoc(s.commits, c, id, c.work.to);
  }

  lemma ClimbsElsewhere(s: State, t: State, id: string)
    requires CommitsClimb(s, id) && s.commits <= t.commits && |t.commits| <= |s.commits| + 1
    requires |t.commits| > |s.commits| ==> !MovesOn(t.commits[|s.commits|], id)
    requires id in s.db.rides && id in t.db.rides && t.db.rides[id].status == s.db.rides[id].status
    ensures CommitsClimb(t, id)
  {
    if |t.commits| > |s.commits| {
      var c := t.commits[|s.commits|];
      assert t.commits == s.commits + [c];
      MovedToSnoc(s.commits, c, id, InProgress);
      MovedToSnoc(s.commits, c, id, s.db.rides[id].status);
    }
  }

  lemma ClimbsFromCreation(s: State, t: State, id: string)
    requires RideHistoryOk(t, id) && id in t.db.rides && t.db.rides[id].status == Matching
    ensures CommitsClimb(t, id)
  {
    forall i | 0 <= i < |t.commits|
      ensures !MovesOn(t.commits[i], id)
    {
    }
  }

  /** What a commit does to one ride and its place in the record: a move, its creation, or nothing. */
  ghost predicate CommitEffect(s: State, t: State, pid: nat, id: string)
    requires pid in s.procs
  {
    var c := NextCommit(pid, s.procs[pid]);
    || (&& id in s.db.rides && id in t.db.rides && t.db.rides[id] == s.db.rides[id]
        && (t.commits == s.commits || (t.commits == s.commits + [c] && !MovesOn(c, id))))
    || (&& id !in s.db.rides && id in t.db.rides && t.db.rides[id].status == Matching && t.db.rides[id].driverId.None?
        && t.commits == s.commits + [c])
    || (&& id !in s.db.rides && id !in t.db.rides)
    || (&& id in s.db.rides && id in t.db.rides && t.commits == s.commits + [c] && MovesOn(c, id)
        && InFlight(s.procs[pid], id) && CanTransition(s.db.rides[id].status, c.work.to)
        && c.work.to == Target(s.procs[pid].call.action)
        && t.db.rides[id] == Patched(s.db.rides[id], c.work.to, c.work.patch))
  }

  lemma CommitHasEffect(s: State, pid: nat, replyLost: bool, id: string)
    requires Inv(s) && Legal(s, id) && pid in s.procs && AtCommit(s.procs[pid])
    ensures CommitEffect(s, CommitProc(s, pid, replyLost), pid, id)
  {
    var p := s.procs[pid];
    var t := CommitProc(s, pid, replyLost);
    if !OutcomeOf(s.db, p.call.eventId, NextWork(p)).Processed? {
    } else if RideOf(p.call.action) == id {
      CommitHere(s, pid, replyLost, id);
      if id !in s.db.rides {
        CommitCreates(s, pid, replyLost, id);
      }
    } else {
      CommitElsewhere(s, pid, replyLost, id);
      assert ProcOk(s, pid, p);
    }
  }

  lemma CommitCreates(s: State, pid: nat, replyLost: bool, id: string)
    requires Inv(s) && pid in s.procs && AtCommit(s.procs[pid]) && id !in s.db.rides
    requires RideOf(s.procs[pid].call.action) == id
    requires OutcomeOf(s.db, s.procs[pid].call.eventId, NextWork(s.procs[pid])).Processed?
    ensures var t := CommitProc(s, pid, replyLost);
            id in t.db.rides && t.db.rides[id].status == Matching && t.db.rides[id].driverId.None?
  {
    assert ProcOk(s, pid, s.procs[pid]);
  }

  lemma CommitKeepsClimb(s: State, t: State, pid: nat, id: string)
    requires CommitsClimb(s, id) && pid in s.procs && CommitEffect(s, t, pid, id) && RideHistoryOk(t, id)
    ensures CommitsClimb(t, id)
  {
    if id in s.db.rides {
      var c := NextCommit(pid, s.procs[pid]);
      if t.commits == s.commits + [c] && MovesOn(c, id) {
        ClimbsOn(s, t, c, id);
      } else {
        ClimbsElsewhere(s, t, id);
      }
    } else if id in t.db.rides {
      ClimbsFromCreation(s, t, id);
    }
  }

  // ---------------------------------------------------------------- who is told, and who owes

  predicate OnRide(calls: seq<Call>, sent: Sent, id: string) {
    sent.pid < |calls| && RideOf(calls[sent.pid].action) == id
  }

  predicate Names(s: State, id: string, driver: string) {
    id in s.db.rides && s.db.rides[id].driverId == Some(driver)
  }

  ghost predicate HasSent(syncs: seq<Sent>, pid: nat, status: D.DriverStatus) {
    exists k :: 0 <= k < |syncs| && syncs[k].pid == pid && syncs[k].sync.status == status
  }

  /** The driver status that goes with a ride status. */
  function Expected(status: RideStatus): D.DriverStatus {
    match status
    case InProgress => D.OnTrip
    case Completed => D.Available
    case Cancelled => D.Available
    case _ => D.Reserved
  }

  /** Every PATCH sent for the ride, or about to be, names the driver in its column. */
  ghost predicate NamesItsDriver(s: State, id: string) {
    && (forall k :: 0 <= k < |s.syncs| && OnRide(s.calls, s.syncs[k], id) ==> Names(s, id, s.syncs[k].sync.driver))
    && (forall pid :: pid in s.procs && s.procs[pid].phase.Syncing? && RideOf(s.procs[pid].call.action) == id ==>
          Names(s, id, s.procs[pid].phase.sync.driver))
  }

  predicate StagedCancel(p: Proc, id: string) {
    p.phase.Staged? && LedgerFirst(p.call) && RideOf(p.call.action) == id
  }

  /** A cancelling event handler at its commit has told the driver, if there is one. */
  ghost predicate CancelsHaveTold(s: State, id: string) {
    id in s.db.rides && s.db.rides[id].driverId.Some? ==>
      forall pid :: pid in s.procs && StagedCancel(s.procs[pid], id) ==> HasSent(s.syncs, pid, D.Available)
  }

  predicate AboutToSend(s: State, pid: nat, status: D.DriverStatus) {
    pid in s.procs && s.procs[pid].phase.Syncing? && s.procs[pid].phase.sync.status == status
  }

  /** The transition committed here has been, or is about to be, reported to the driver service. */
  ghost predicate Reported(s: State, c: Commit) {
    c.work.Move? && c.work.to in {InProgress, Completed, Cancelled} ==>
      HasSent(s.syncs, c.pid, Expected(c.work.to)) || AboutToSend(s, c.pid, Expected(c.work.to))
  }

  ghost predicate AllReported(s: State, id: string) {
    id in s.db.rides && s.db.rides[id].driverId.Some? ==>
      forall i :: 0 <= i < |s.commits| && MovesOn(s.commits[i], id) ==> Reported(s, s.commits[i])
  }

  /** Does this step keep a PATCH of the ride from being sent: a lost commit reply, or a death just before it? */
  predicate Loses(s: State, step: Step, id: string) {
    && (step.CommitThenThrow? || step.Abort? || step.Kill?)
    && step.pid in s.procs
    && var p := s.procs[step.pid];
       && RideOf(p.call.action) == id
       && (if step.CommitThenThrow? then p.call.eventId.None? && (p.call.action.Start? || p.call.action.Complete? || p.call.action.CancelRide?)
           else p.phase.Syncing?)
  }

  ghost predicate LosesNothing(steps: seq<Step>, id: string) {
    forall k :: 0 <= k < |steps| ==> !Loses(Run(steps[..k]), steps[k], id)
  }

  lemma HasSentStays(syncs: seq<Sent>, more: seq<Sent>, pid: nat, status: D.DriverStatus)
    requires HasSent(syncs, pid, status) && syncs <= more
    ensures HasSent(more, pid, status)
  {
    var k :| 0 <= k < |syncs| && syncs[k].pid == pid && syncs[k].sync.status == status;
    assert more[k] == syncs[k];
  }

  // ---------------------------------------------------------------- commits keep it

  lemma CommitKeepsNames(s: State, t: State, pid: nat, id: string)
    requires ProcsOk(s) && NamesItsDriver(s, id) && Landed(s, t, pid) && t.syncs == s.syncs && t.calls == s.calls
    requires KeepsOutcome(s, t, id) || id !in s.db.rides
    requires t.procs[pid].phase.Syncing? && RideOf(s.procs[pid].call.action) == id ==>
               t.procs[pid].call == s.procs[pid].call && Names(t, id, t.procs[pid].phase.sync.driver)
    requires t.procs[pid].call == s.procs[pid].call
    ensures NamesItsDriver(t, id)
  {
  }

  lemma CommitKeepsTold(s: State, t: State, pid: nat, id: string)
    requires CancelsHaveTold(s, id) && Exclusive(s, id) && Landed(s, t, pid) && t.syncs == s.syncs
    requires CommitEffect(s, t, pid, id)
    ensures CancelsHaveTold(t, id)
  {
    if id in t.db.rides && t.db.rides[id].driverId.Some? {
      forall q | q in t.procs && StagedCancel(t.procs[q], id)
        ensures HasSent(t.syncs, q, D.Available)
      {
        assert InFlight(s.procs[q], id);
        assert q != pid;
      }
    }
  }

  /** A driver is attached only as the ride leaves MATCHING. */
  lemma AttachedAtMatch(s: State, t: State, pid: nat, id: string)
    requires pid in s.procs && CommitEffect(s, t, pid, id) && id in t.db.rides
    requires (id in s.db.rides ==> s.db.rides[id].driverId.None?) && t.db.rides[id].driverId.Some?
    ensures id in s.db.rides && s.db.rides[id].status == Matching
    ensures t.commits == s.commits + [NextCommit(pid, s.procs[pid])]
    ensures NextCommit(pid, s.procs[pid]).work.Move? && NextCommit(pid, s.procs[pid]).work.to == Matched
  {
  }

  lemma OldCommitReported(s: State, t: State, pid: nat, c: Commit)
    requires Reported(s, c) && Landed(s, t, pid) && t.syncs == s.syncs && AtCommit(s.procs[pid])
    ensures Reported(t, c)
  {
  }

  lemma CommitKeepsReported(s: State, t: State, pid: nat, id: string)
    requires RideHistoryOk(s, id) && AllReported(s, id) && Landed(s, t, pid) && t.syncs == s.syncs
    requires AtCommit(s.procs[pid]) && CommitEffect(s, t, pid, id) && s.commits <= t.commits
    requires id in s.db.rides || !HasMoved(t.commits, id)
    requires |t.commits| > |s.commits| && MovesOn(t.commits[|s.commits|], id)
               && id in s.db.rides && s.db.rides[id].driverId.Some?
             ==> Reported(t, t.commits[|s.commits|])
    ensures AllReported(t, id)
  {
    if id in t.db.rides && t.db.rides[id].driverId.Some? && id in s.db.rides {
      forall i | 0 <= i < |t.commits| && MovesOn(t.commits[i], id)
        ensures Reported(t, t.commits[i])
      {
        if s.db.rides[id].driverId.None? {
          AttachedAtMatch(s, t, pid, id);
          assert i < |s.commits| ==> HasMoved(s.commits, id);
        } else if i < |s.commits| {
          OldCommitReported(s, t, pid, s.commits[i]);
        }
      }
    }
  }

  /** What a ride's PATCHes keep to in a serial run. */
  ghost predicate PatchesOk(s: State, id: string) {
    CommitsClimb(s, id) && NamesItsDriver(s, id) && CancelsHaveTold(s, id)
  }

  lemma CommitRecord(s: State, pid: nat, replyLost: bool)
    requires pid in s.procs
    ensures var t := CommitProc(s, pid, replyLost);
            && t.syncs == s.syncs && t.calls == s.calls && pid in t.procs && t.procs[pid].call == s.procs[pid].call
            && (t.procs[pid].phase.Syncing? ==> t.procs[pid].phase == AfterCommit(t.db, s.procs[pid].call))
            && (t.commits == s.commits
                || (t.commits == s.commits + [NextCommit(pid, s.procs[pid])]
                    && (!replyLost ==> t.procs[pid].phase == AfterCommit(t.db, s.procs[pid].call))))
  {
  }

  lemma AfterCommitNames(s: State, call: Call)
    ensures AfterCommit(s.db, call).Syncing? ==> Names(s, RideOf(call.action), AfterCommit(s.db, call).sync.driver)
  {
  }

  lemma LawfulKeepsOutcome(s: State, step: Step, id: string)
    requires Inv(s) && Legal(s, id)
    ensures KeepsOutcome(s, Exec(s, step), id)
  {
    if id in s.db.rides {
      StepIsLawful(s, step, id);
    }
  }

  lemma CommitKeepsPatches(s: State, step: Step, id: string)
    requires Inv(s) && HistoryOk(s) && Legal(s, id) && Exclusive(s, id) && PatchesOk(s, id) && Commits(s, step)
    ensures PatchesOk(Exec(s, step), id)
  {
    var t := Exec(s, step);
    var replyLost := step.CommitThenThrow?;
    StepKeepsHistory(s, step);
    CommitHasEffect(s, step.pid, replyLost, id);
    CommitKeepsClimb(s, t, step.pid, id);
    CommitLands(s, step.pid, replyLost);
    CommitRecord(s, step.pid, replyLost);
    LawfulKeepsOutcome(s, step, id);
    AfterCommitNames(t, s.procs[step.pid].call);
    CommitKeepsNames(s, t, step.pid, id);
    CommitKeepsTold(s, t, step.pid, id);
  }

  lemma CommitKeepsAllReported(s: State, step: Step, id: string)
    requires Inv(s) && HistoryOk(s) && Legal(s, id) && PatchesOk(s, id) && AllReported(s, id) && Commits(s, step)
    requires !Loses(s, step, id)
    ensures AllReported(Exec(s, step), id)
  {
    var t := Exec(s, step);
    var replyLost := step.CommitThenThrow?;
    StepKeepsHistory(s, step);
    assert RideHistoryOk(s, id) && RideHistoryOk(t, id);
    CommitHasEffect(s, step.pid, replyLost, id);
    CommitLands(s, step.pid, replyLost);
    CommitRecord(s, step.pid, replyLost);
    var c := NextCommit(step.pid, s.procs[step.pid]);
    if t.commits == s.commits + [c] && MovesOn(c, id) && id in s.db.rides && s.db.rides[id].driverId.Some? {
      EndingCommitReported(s, t, step, id);
    }
    CreationMovesNothing(s, t, step.pid, id);
    CommitKeepsReported(s, t, step.pid, id);
  }

  /** The commit that creates a ride is its first. */
  lemma CreationMovesNothing(s: State, t: State, pid: nat, id: string)
    requires RideHistoryOk(s, id) && RideHistoryOk(t, id) && pid in s.procs && CommitEffect(s, t, pid, id)
    ensures id in s.db.rides || !HasMoved(t.commits, id)
  {
  }

  lemma EndingCommitReported(s: State, t: State, step: Step, id: string)
    requires Inv(s) && CancelsHaveTold(s, id) && Commits(s, step) && !Loses(s, step, id)
    requires CommitEffect(s, t, step.pid, id) && t.syncs == s.syncs && step.pid in t.procs
    requires var c := NextCommit(step.pid, s.procs[step.pid]);
             t.commits == s.commits + [c] && MovesOn(c, id) && id in s.db.rides && s.db.rides[id].driverId.Some?
    requires !step.CommitThenThrow? ==> t.procs[step.pid].phase == AfterCommit(t.db, s.procs[step.pid].call)
    ensures Reported(t, NextCommit(step.pid, s.procs[step.pid]))
  {
    var p := s.procs[step.pid];
    assert ProcOk(s, step.pid, p);
    assert RideOf(p.call.action) == id && NextCommit(step.pid, p).work.to == Target(p.call.action);
    if NextCommit(step.pid, p).work.to in {InProgress, Completed, Cancelled} {
      EndingKeepsDriver(s, t, step.pid, id);
      if p.call.eventId.Some? {
        assert StagedCancel(p, id);
      }
    }
  }

  lemma EndingKeepsDriver(s: State, t: State, pid: nat, id: string)
    requires pid in s.procs && CommitEffect(s, t, pid, id) && id in s.db.rides
    requires NextCommit(pid, s.procs[pid]).work.Move? && NextCommit(pid, s.procs[pid]).work.to in {InProgress, Completed, Cancelled}
    ensures id in t.db.rides && t.db.rides[id].driverId == s.db.rides[id].driverId
  {
  }

  // ---------------------------------------------------------------- other steps keep it

  /** No process has come to its sync or to its in-transaction PATCH, and none has gone from it. */
  ghost predicate NoPatchStep(s: State, t: State) {
    && t.syncs == s.syncs
    && forall pid :: pid in t.procs ==>
         (pid in s.procs && t.procs[pid] == s.procs[pid])
         || (!t.procs[pid].phase.Syncing? && !(t.procs[pid].phase.Staged? && LedgerFirst(t.procs[pid].call)))
  }

  ghost predicate OnlyChanges(s: State, t: State, pid: nat) {
    && pid in s.procs && t.procs.Keys == s.procs.Keys && t.procs[pid].call == s.procs[pid].call
    && forall q :: q in s.procs && q != pid ==> t.procs[q] == s.procs[q]
  }

  /** The process sends the PATCH it owes. */
  ghost predicate SendStep(s: State, t: State, pid: nat) {
    && OnlyChanges(s, t, pid) && s.procs[pid].phase.Syncing? && t.procs[pid].phase.Returned?
    && t.syncs == s.syncs + [Sent(pid, s.procs[pid].phase.sync)]
  }

  /** The cancelling event handler writes, and tells the driver if there is one. */
  ghost predicate StageStep(s: State, t: State, pid: nat) {
    && OnlyChanges(s, t, pid) && s.procs[pid].phase.Guarded? && t.procs[pid].phase.Staged? && LedgerFirst(s.procs[pid].call)
    && t.syncs == s.syncs + InTransactionSync(s.db, pid, s.procs[pid].call)
  }

  lemma QuietKinds(s: State, step: Step)
    requires !Commits(s, step)
    ensures var t := Exec(s, step);
            || NoPatchStep(s, t)
            || (step.Advance? && (SendStep(s, t, step.pid) || StageStep(s, t, step.pid)))
  {
  }

  /** Calls made before are still the same calls. */
  lemma NoPatchKeeps(s: State, t: State, id: string)
    requires NamesItsDriver(s, id) && CancelsHaveTold(s, id) && NoPatchStep(s, t) && t.db == s.db && s.calls <= t.calls
    requires forall k :: 0 <= k < |s.syncs| ==> s.syncs[k].pid < |s.calls|
    ensures NamesItsDriver(t, id) && CancelsHaveTold(t, id)
  {
    forall k | 0 <= k < |t.syncs| && OnRide(t.calls, t.syncs[k], id)
      ensures Names(t, id, t.syncs[k].sync.driver)
    {
      assert OnRide(s.calls, s.syncs[k], id);
    }
  }

  lemma SendKeeps(s: State, t: State, pid: nat, id: string)
    requires NamesItsDriver(s, id) && CancelsHaveTold(s, id) && SendStep(s, t, pid) && t.db == s.db && t.calls == s.calls
    requires pid < |s.calls| && s.calls[pid] == s.procs[pid].call
    ensures NamesItsDriver(t, id) && CancelsHaveTold(t, id)
  {
    forall k | 0 <= k < |t.syncs| && OnRide(t.calls, t.syncs[k], id)
      ensures Names(t, id, t.syncs[k].sync.driver)
    {
      if k < |s.syncs| {
        assert OnRide(s.calls, s.syncs[k], id);
      }
    }
    ToldStays(s, t, pid, id);
  }

  lemma ToldStays(s: State, t: State, pid: nat, id: string)
    requires CancelsHaveTold(s, id) && OnlyChanges(s, t, pid) && t.db == s.db && s.syncs <= t.syncs
    requires StagedCancel(t.procs[pid], id) && id in s.db.rides && s.db.rides[id].driverId.Some? ==>
               HasSent(t.syncs, pid, D.Available)
    ensures CancelsHaveTold(t, id)
  {
    if id in s.db.rides && s.db.rides[id].driverId.Some? {
      forall q | q in t.procs && StagedCancel(t.procs[q], id)
        ensures HasSent(t.syncs, q, D.Available)
      {
        if q != pid {
          HasSentStays(s.syncs, t.syncs, q, D.Available);
        }
      }
    }
  }

  lemma StageKeeps(s: State, t: State, pid: nat, id: string)
    requires NamesItsDriver(s, id) && CancelsHaveTold(s, id) && StageStep(s, t, pid) && t.db == s.db && t.calls == s.calls
    requires pid < |s.calls| && s.calls[pid] == s.procs[pid].call
    ensures NamesItsDriver(t, id) && CancelsHaveTold(t, id)
  {
    forall k | 0 <= k < |t.syncs| && OnRide(t.calls, t.syncs[k], id)
      ensures Names(t, id, t.syncs[k].sync.driver)
    {
      if k < |s.syncs| {
        assert OnRide(s.calls, s.syncs[k], id);
      }
    }
    if StagedCancel(t.procs[pid], id) && id in s.db.rides && s.db.rides[id].driverId.Some? {
      assert t.syncs[|s.syncs|] == Sent(pid, Sync(s.db.rides[id].driverId.value, D.Available));
    }
    ToldStays(s, t, pid, id);
  }

  lemma QuietKeepsPatches(s: State, step: Step, id: string)
    requires Inv(s) && SyncsOk(s) && PatchesOk(s, id) && !Commits(s, step)
    ensures PatchesOk(Exec(s, step), id)
  {
    var t := Exec(s, step);
    QuietStep(s, step);
    QuietKinds(s, step);
    if NoPatchStep(s, t) {
      forall k | 0 <= k < |s.syncs|
        ensures s.syncs[k].pid < |s.calls|
      {
        assert SentOk(s, s.syncs[k]);
      }
      NoPatchKeeps(s, t, id);
    } else {
      assert ProcOk(s, step.pid, s.procs[step.pid]);
      if SendStep(s, t, step.pid) {
        SendKeeps(s, t, step.pid, id);
      } else {
        StageKeeps(s, t, step.pid, id);
      }
    }
  }

  /** Short of a loss, who was about to send still is, or has. */
  lemma SendersProceed(s: State, step: Step, pid: nat, status: D.DriverStatus)
    requires !Commits(s, step) && AboutToSend(s, pid, status) && pid < |s.calls|
    requires !((step.Abort? || step.Kill?) && step.pid == pid)
    ensures AboutToSend(Exec(s, step), pid, status) || HasSent(Exec(s, step).syncs, pid, status)
  {
    var t := Exec(s, step);
    if step == Advance(pid) {
      assert t.syncs[|s.syncs|] == Sent(pid, s.procs[pid].phase.sync);
    }
  }

  lemma SyncsGrow(s: State, step: Step)
    ensures s.syncs <= Exec(s, step).syncs
  {
  }

  lemma QuietKeepsReported(s: State, step: Step, id: string)
    requires Inv(s) && AllReported(s, id) && !Commits(s, step) && !Loses(s, step, id)
    ensures AllReported(Exec(s, step), id)
  {
    var t := Exec(s, step);
    QuietStep(s, step);
    SyncsGrow(s, step);
    if id in s.db.rides && s.db.rides[id].driverId.Some? {
      forall i | 0 <= i < |s.commits| && MovesOn(s.commits[i], id) && s.commits[i].work.to in {InProgress, Completed, Cancelled}
        ensures Reported(t, s.commits[i])
      {
        QuietKeepsReport(s, step, id, i);
      }
    }
  }

  lemma QuietKeepsReport(s: State, step: Step, id: string, i: nat)
    requires Inv(s) && !Commits(s, step) && !Loses(s, step, id) && s.syncs <= Exec(s, step).syncs
    requires i < |s.commits| && MovesOn(s.commits[i], id) && s.commits[i].work.to in {InProgress, Completed, Cancelled}
    requires Reported(s, s.commits[i])
    ensures Reported(Exec(s, step), s.commits[i])
  {
    var c := s.commits[i];
    var status := Expected(c.work.to);
    assert FromCall(s, c);
    if HasSent(s.syncs, c.pid, status) {
      HasSentStays(s.syncs, Exec(s, step).syncs, c.pid, status);
    } else {
      assert ProcOk(s, c.pid, s.procs[c.pid]);
      SendersProceed(s, step, c.pid, status);
    }
  }

  // ---------------------------------------------------------------- runs

  lemma StartsPatchesOk(id: string)
    ensures PatchesOk(INIT, id) && AllReported(INIT, id)
  {
  }

  lemma {:induction false} RunPatchesOk(steps: seq<Step>, id: string)
    requires ExclusiveRun(steps, id)
    ensures PatchesOk(Run(steps), id)
    ensures LosesNothing(steps, id) ==> AllReported(Run(steps), id)
  {
    StartsPatchesOk(id);
    if |steps| > 0 {
      var last := |steps| - 1;
      var prev, s, step := steps[..last], Run(steps[..last]), steps[last];
      ExclusivePrefix(steps, id, last);
      LosesNothingPrefix(steps, id, last);
      RunPatchesOk(prev, id);
      RunLegal(prev, id);
      RunInv(prev);
      RunHistory(prev);
      RunSyncsOk(prev);
      assert Exclusive(Run(steps[..last]), id);
      StepKeepsPatches(s, step, id);
      if LosesNothing(steps, id) {
        assert !Loses(Run(steps[..last]), steps[last], id);
        StepKeepsReported(s, step, id);
      }
    }
  }

  lemma LosesNothingPrefix(steps: seq<Step>, id: string, n: nat)
    requires n <= |steps|
    ensures LosesNothing(steps, id) ==> LosesNothing(steps[..n], id)
  {
    if LosesNothing(steps, id) {
      forall k | 0 <= k < n
        ensures !Loses(Run(steps[..n][..k]), steps[..n][k], id)
      {
        assert steps[..n][..k] == steps[..k];
      }
    }
  }

  lemma StepKeepsPatches(s: State, step: Step, id: string)
    requires Inv(s) && HistoryOk(s) && SyncsOk(s) && Legal(s, id) && Exclusive(s, id) && PatchesOk(s, id)
    ensures PatchesOk(Exec(s, step), id)
  {
    if Commits(s, step) {
      CommitKeepsPatches(s, step, id);
    } else {
      QuietKeepsPatches(s, step, id);
    }
  }

  lemma StepKeepsReported(s: State, step: Step, id: string)
    requires Inv(s) && HistoryOk(s) && Legal(s, id) && PatchesOk(s, id) && AllReported(s, id) && !Loses(s, step, id)
    ensures AllReported(Exec(s, step), id)
  {
    if Commits(s, step) {
      CommitKeepsAllReported(s, step, id);
    } else {
      QuietKeepsReported(s, step, id);
    }
  }
}
