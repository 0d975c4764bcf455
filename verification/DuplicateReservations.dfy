/**
 What becomes of a driver.reserved event that arrives again. Its handler guards on the ride's
 status before it consults the ledger, so whether the duplicate is skipped depends on when that
 guard read the row.
 */
module DuplicateReservations {
  import opened Options
  import opened TripHandlers
  import opened TripGuarantees

  /** After the first `n` commits the ride exists and nobody has moved it yet. */
  ghost predicate AwaitsDriver(commits: seq<Commit>, n: nat, id: string) {
    n <= |commits| && id in Replayed(commits[..n]).rides && !HasMoved(commits[..n], id)
  }

  predicate Reserves(call: Call) {
    call.action.ReserveDriver?
  }

  ghost predicate ReadBeforeMove(s: State, p: Proc) {
    p.readAt.Some? && AwaitsDriver(s.commits, p.readAt.value, RideOf(p.call.action))
  }

  /** Where a driver.reserved process can be, by what its guard read. */
  ghost predicate ReserverOk(s: State, pid: nat) {
    pid in s.procs && Reserves(s.procs[pid].call) ==>
      var p := s.procs[pid];
      && !p.phase.Staged? && !p.phase.Syncing?
      && (p.phase.Guarded? || p.phase.Returned? ==> ReadBeforeMove(s, p))
  }

  /** Short of an infrastructure failure, it throws only because its guard came too late. */
  ghost predicate ThrewLate(s: State, pid: nat) {
    pid in s.procs && Reserves(s.procs[pid].call) && s.procs[pid].phase.Threw? && !CommittedBy(s.commits, pid)
    ==> s.procs[pid].readAt.Some? && !ReadBeforeMove(s, s.procs[pid])
  }

  lemma ReadStays(s: State, t: State, p: Proc)
    requires s.commits <= t.commits && (p.readAt.Some? ==> p.readAt.value <= |s.commits|)
    ensures ReadBeforeMove(s, p) <==> ReadBeforeMove(t, p)
  {
    if p.readAt.Some? {
      assert s.commits[..p.readAt.value] == t.commits[..p.readAt.value];
    }
  }

  /** The guard of a reservation passes exactly while the ride awaits its driver. */
  lemma GuardReadsHistory(s: State, call: Call)
    requires TablesOk(s) && HistoryOk(s) && Reserves(call)
    ensures Guard(s.db, call).Guarded? <==> AwaitsDriver(s.commits, |s.commits|, RideOf(call.action))
    ensures !Guard(s.db, call).Guarded? ==> Guard(s.db, call).Threw?
  {
    assert s.commits[..|s.commits|] == s.commits;
    assert RideHistoryOk(s, RideOf(call.action));
  }

  /** What one step can do to a process that reserves. */
  ghost predicate ReserverStep(s: State, t: State, step: Step, pid: nat)
    requires pid in s.procs && pid in t.procs
  {
    var p, q := s.procs[pid], t.procs[pid];
    || q == p
    || (step == Abort(pid) && q == p.(phase := Threw))
    || (p.phase.Ready? && q == Proc(p.call, Guard(s.db, p.call), Some(|s.commits|)))
    || (p.phase.Guarded? && q.phase.Returned? && q.readAt == p.readAt && q.call == p.call)
    || (p.phase.Guarded? && q.phase.Threw? && q.readAt == p.readAt && q.call == p.call && CommittedBy(t.commits, pid))
  }

  lemma ReserverMoves(s: State, step: Step, pid: nat)
    requires ProcsOk(s) && pid in s.procs && Reserves(s.procs[pid].call) && ReserverOk(s, pid)
    requires pid in Exec(s, step).procs
    ensures ReserverStep(s, Exec(s, step), step, pid)
  {
    var t := Exec(s, step);
    var p := s.procs[pid];
    assert ProcOk(s, pid, p);
    if Commits(s, step) && step.pid == pid {
      if |t.commits| > |s.commits| {
        assert t.commits[|s.commits|].pid == pid;
      }
    }
  }

  lemma NewProcessIsReady(s: State, step: Step, pid: nat)
    requires pid !in s.procs && pid in Exec(s, step).procs
    ensures Exec(s, step).procs[pid].phase.Ready? && pid == |s.calls|
  {
  }

  lemma ReserverAfter(s: State, t: State, step: Step, pid: nat)
    requires TablesOk(s) && HistoryOk(s) && ReserverOk(s, pid) && s.commits <= t.commits
    requires pid in s.procs && pid in t.procs && Reserves(s.procs[pid].call) && ProcOk(s, pid, s.procs[pid])
    requires ReserverStep(s, t, step, pid)
    ensures ReserverOk(t, pid)
    ensures ThrewLate(s, pid) && step != Abort(pid) ==> ThrewLate(t, pid)
  {
    var p := s.procs[pid];
    ReadStays(s, t, p);
    if p.phase.Ready? {
      GuardReadsHistory(s, p.call);
      ReadStays(s, t, Proc(p.call, Guard(s.db, p.call), Some(|s.commits|)));
    }
    if CommittedBy(s.commits, pid) {
      CommittedByStays(s.commits, t.commits, pid);
    }
  }

  lemma CallStays(s: State, step: Step, pid: nat)
    requires pid in s.procs && pid in Exec(s, step).procs && pid < |s.calls|
    ensures Exec(s, step).procs[pid].call == s.procs[pid].call
  {
  }

  lemma StepKeepsReserver(s: State, step: Step, pid: nat)
    requires Inv(s) && HistoryOk(s) && ReserverOk(s, pid)
    ensures ReserverOk(Exec(s, step), pid)
    ensures ThrewLate(s, pid) && step != Abort(pid) ==> ThrewLate(Exec(s, step), pid)
  {
    var t := Exec(s, step);
    if pid in t.procs {
      if pid in s.procs {
        assert ProcOk(s, pid, s.procs[pid]);
        CallStays(s, step, pid);
        if Reserves(s.procs[pid].call) {
          ReserverMoves(s, step, pid);
          ExecKeepsInv(s, step);
          ReserverAfter(s, t, step, pid);
        }
      } else {
        NewProcessIsReady(s, step, pid);
      }
    }
  }

  lemma {:induction false} RunReserver(steps: seq<Step>, pid: nat)
    ensures ReserverOk(Run(steps), pid)
    ensures (forall i :: 0 <= i < |steps| ==> steps[i] != Abort(pid)) ==> ThrewLate(Run(steps), pid)
  {
    if |steps| > 0 {
      var prev := steps[..|steps| - 1];
      RunReserver(prev, pid);
      RunInv(prev);
      RunHistory(prev);
      StepKeepsReserver(Run(prev), steps[|steps| - 1], pid);
    }
  }

  /**
   A driver.reserved process that committed nothing and met no infrastructure failure, say because
   another delivery of its event has been applied, is skipped exactly when its guard read the ride
   before the first transition of that ride committed. Otherwise it throws.
   */
  lemma {:induction false} DuplicateSkippedIff(steps: seq<Step>, pid: nat)
    requires pid in Run(steps).procs && Finished(Run(steps).procs[pid]) && Reserves(Run(steps).procs[pid].call)
    requires !CommittedBy(Run(steps).commits, pid)
    requires forall i :: 0 <= i < |steps| ==> steps[i] != Abort(pid)
    ensures var s := Run(steps);
            var p := s.procs[pid];
            p.readAt.Some? && (p.phase.Returned? <==> AwaitsDriver(s.commits, p.readAt.value, RideOf(p.call.action)))
  {
    RunReserver(steps, pid);
  }

  // ---------------------------------------------------------------- after the ride has moved

  /** A process that has not read its row yet, or has thrown. */
  predicate NeverReturned(s: State, pid: nat) {
    pid in s.procs ==> s.procs[pid].phase.Ready? || s.procs[pid].phase.Threw?
  }

  lemma CommitsName(s: State, step: Step)
    ensures var t := Exec(s, step);
            || t.commits == s.commits
            || (Commits(s, step) && t.commits == s.commits + [NextCommit(step.pid, s.procs[step.pid])])
  {
  }

  /** Only a process in flight, or a creation, commits. */
  lemma CommitterIsThere(s: State, t: State, step: Step, pid: nat)
    requires t.commits == s.commits || (Commits(s, step) && t.commits == s.commits + [NextCommit(step.pid, s.procs[step.pid])])
    requires !CommittedBy(s.commits, pid) && CommittedBy(t.commits, pid)
    ensures pid in s.procs && AtCommit(s.procs[pid])
  {
    var i :| 0 <= i < |t.commits| && t.commits[i].pid == pid;
    assert i < |s.commits| ==> s.commits[i].pid == pid;
  }

  lemma HasMovedStays(commits: seq<Commit>, more: seq<Commit>, id: string)
    requires HasMoved(commits, id) && commits <= more
    ensures HasMoved(more, id)
  {
    var i :| 0 <= i < |commits| && commits[i].work.Move? && commits[i].work.id == id;
    assert more[i] == commits[i];
  }

  predicate ReservesFor(s: State, pid: nat, id: string) {
    pid in s.procs ==> Reserves(s.procs[pid].call) && RideOf(s.procs[pid].call.action) == id
  }

  lemma LatePhase(s: State, step: Step, pid: nat, id: string)
    requires Inv(s) && HistoryOk(s) && HasMoved(s.commits, id) && NeverReturned(s, pid)
    requires ReservesFor(s, pid, id)
    ensures NeverReturned(Exec(s, step), pid)
  {
    var t := Exec(s, step);
    if pid in t.procs {
      if pid in s.procs {
        assert ProcOk(s, pid, s.procs[pid]);
        ReserverMoves(s, step, pid);
        GuardReadsHistory(s, s.procs[pid].call);
        assert s.commits[..|s.commits|] == s.commits;
      } else {
        NewProcessIsReady(s, step, pid);
      }
    }
  }

  lemma LateStep(s: State, step: Step, pid: nat, id: string)
    requires Inv(s) && HistoryOk(s) && HasMoved(s.commits, id) && NeverReturned(s, pid) && !CommittedBy(s.commits, pid)
    requires ReservesFor(s, pid, id)
    ensures NeverReturned(Exec(s, step), pid) && !CommittedBy(Exec(s, step).commits, pid)
    ensures HasMoved(Exec(s, step).commits, id)
  {
    var t := Exec(s, step);
    LatePhase(s, step, pid, id);
    CommitsName(s, step);
    HasMovedStays(s.commits, t.commits, id);
    if CommittedBy(t.commits, pid) {
      CommitterIsThere(s, t, step, pid);
      assert false;
    }
  }

  /** A process that is not there yet, or has not read its row, has committed nothing. */
  ghost predicate ReadyUncommitted(s: State, pid: nat) {
    (pid in s.procs && s.procs[pid].phase.Ready?) || pid >= |s.calls| ==> !CommittedBy(s.commits, pid)
  }

  lemma CommitterMovesOn(s: State, step: Step)
    requires Commits(s, step)
    ensures step.pid in Exec(s, step).procs && !Exec(s, step).procs[step.pid].phase.Ready?
    ensures Exec(s, step).calls == s.calls
  {
  }

  lemma ReadyWasReady(s: State, step: Step, pid: nat)
    requires pid in s.procs && pid in Exec(s, step).procs && Exec(s, step).procs[pid].phase.Ready? && pid < |s.calls|
    ensures s.procs[pid].phase.Ready?
  {
  }

  lemma StepUncommitted(s: State, step: Step, pid: nat)
    requires Inv(s) && ReadyUncommitted(s, pid)
    ensures ReadyUncommitted(Exec(s, step), pid)
  {
    var t := Exec(s, step);
    CommitsName(s, step);
    CallsOnlyGrow(s, step);
    if pid in s.procs {
      assert ProcOk(s, pid, s.procs[pid]);
    }
    if ((pid in t.procs && t.procs[pid].phase.Ready?) || pid >= |t.calls|) && CommittedBy(t.commits, pid) {
      if pid in s.procs && pid in t.procs {
        ReadyWasReady(s, step, pid);
      } else if pid in t.procs {
        NewProcessIsReady(s, step, pid);
      }
      CommitterIsThere(s, t, step, pid);
      if t.commits != s.commits {
        CommitterMovesOn(s, step);
      }
      assert false;
    }
  }

  lemma CallsOnlyGrow(s: State, step: Step)
    ensures |s.calls| <= |Exec(s, step).calls|
  {
  }

  lemma {:induction false} RunUncommitted(steps: seq<Step>, pid: nat)
    ensures ReadyUncommitted(Run(steps), pid)
  {
    if |steps| > 0 {
      var prev := steps[..|steps| - 1];
      RunUncommitted(prev, pid);
      RunInv(prev);
      StepUncommitted(Run(prev), steps[|steps| - 1], pid);
    }
  }

  /**
   Once any transition of a ride has committed, a driver.reserved delivery for it that has yet to
   read the row never returns and never commits, in any continuation: it is retried and parked.
   */
  lemma {:induction false} LateReservationNeverReturns(steps: seq<Step>, more: seq<Step>, pid: nat, id: string)
    requires HasMoved(Run(steps).commits, id)
    requires pid < |Run(steps).calls| ==> pid in Run(steps).procs && Run(steps).procs[pid].phase.Ready?
    requires var calls := Run(steps + more).calls; pid < |calls| ==> Reserves(calls[pid]) && RideOf(calls[pid].action) == id
    ensures NeverReturned(Run(steps + more), pid) && !CommittedBy(Run(steps + more).commits, pid)
    ensures HasMoved(Run(steps + more).commits, id)
    decreases |more|
  {
    if |more| > 0 {
      var prev := more[..|more| - 1];
      var all := steps + prev;
      assert steps + more == all + [more[|more| - 1]];
      RunSnoc(all, more[|more| - 1]);
      RunInv(all);
      RunHistory(all);
      ExecKeepsInv(Run(all), more[|more| - 1]);
      LateReservationNeverReturns(steps, prev, pid, id);
      CallKnown(all, pid);
      LateStep(Run(all), more[|more| - 1], pid, id);
    } else {
      assert steps + more == steps;
      RunUncommitted(steps, pid);
      CallKnown(steps, pid);
    }
  }

  lemma CallKnown(steps: seq<Step>, pid: nat)
    ensures pid in Run(steps).procs ==> pid < |Run(steps).calls| && Run(steps).calls[pid] == Run(steps).procs[pid].call
  {
    RunInv(steps);
    if pid in Run(steps).procs {
      assert ProcOk(Run(steps), pid, Run(steps).procs[pid]);
    }
  }
}
