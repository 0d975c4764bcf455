/**
 What holds of the trip database over every run: any interleaving of handlers, duplicate and
 retried deliveries, lost commit acknowledgements, rolled-back transactions and dead hosts.
 */
module TripGuarantees {
  import opened Options
  import opened RideStateMachine
  import opened TripStore
  import opened TripHandlers

  /**
   Exactly-once effect: the tables are the fold of the committed works, every event id occurs in
   at most one commit, the ledger is exactly the set of those ids, and each commit is the work of
   some invocation that carried that id.
   */
  lemma {:induction false} ExactlyOnceEffect(steps: seq<Step>)
    ensures var s := Run(steps);
            && s.db == Replayed(s.commits)
            && DistinctEventIds(s.commits)
            && (forall e :: e in s.db.ledger <==> Committed(s.commits, e))
            && forall i :: 0 <= i < |s.commits| ==> FromCall(s, s.commits[i])
  {
    RunInv(steps);
  }

  predicate OnlyKnownEvents(ledger: set<string>, steps: seq<Step>) {
    forall i :: 0 <= i < |steps| ==>
      (steps[i].Spawn? ==> steps[i].call.eventId.Some? && steps[i].call.eventId.value in ledger)
  }

  ghost predicate OnlyKnownInFlight(s: State) {
    forall pid :: pid in s.procs ==>
      Finished(s.procs[pid]) || (s.procs[pid].call.eventId.Some? && s.procs[pid].call.eventId.value in s.db.ledger)
  }

  lemma KnownEventStep(s: State, step: Step)
    requires OnlyKnownInFlight(s)
    requires step.Spawn? ==> step.call.eventId.Some? && step.call.eventId.value in s.db.ledger
    ensures Exec(s, step).db == s.db && Exec(s, step).commits == s.commits
    ensures OnlyKnownInFlight(Exec(s, step))
  {
  }

  function RunFrom(s: State, steps: seq<Step>): State
    decreases |steps|
  {
    if |steps| == 0 then s else RunFrom(Exec(s, steps[0]), steps[1..])
  }

  /** start reads the code after its guard: what counts is the code stored by then, not the one in the row it guarded. */
  lemma CodeIsReadAgain(s: State, pid: nat)
    requires pid in s.procs && s.procs[pid].phase.Guarded? && s.procs[pid].call.action.Start?
    ensures var t, a := Exec(s, Advance(pid)), s.procs[pid].call.action;
            && t.db == s.db && t.commits == s.commits && pid in t.procs
            && (t.procs[pid].phase.Staged? <==> a.otp != "" && a.ride in s.db.rides && s.db.rides[a.ride].otp == Some(a.otp))
            && (t.procs[pid].phase.Threw? <==> !t.procs[pid].phase.Staged?)
  {
  }

  /** A lost reply loses no commit: the tables are as if it had come, but the call throws and sends no PATCH. */
  lemma LostReplyCommits(s: State, pid: nat)
    requires pid in s.procs && AtCommit(s.procs[pid])
    ensures var t, u := Exec(s, CommitThenThrow(pid)), Exec(s, Advance(pid));
            && t.db == u.db && t.commits == u.commits && t.syncs == u.syncs == s.syncs
            && (|t.commits| > |s.commits| ==> t.procs[pid].phase.Threw? && u.procs[pid].phase != Threw)
  {
  }

  /**
   Redelivering events that are already in the ledger, any number of times, in any order and with
   any failures, changes neither a row nor an audit entry nor the ledger.
   */
  lemma {:induction false} RedeliveryChangesNothing(s: State, steps: seq<Step>)
    requires OnlyKnownInFlight(s)
    requires OnlyKnownEvents(s.db.ledger, steps)
    ensures RunFrom(s, steps).db == s.db
    decreases |steps|
  {
    if |steps| > 0 {
      assert OnlyKnownEvents(s.db.ledger, [steps[0]] + steps[1..]) by { assert [steps[0]] + steps[1..] == steps; }
      assert steps[0].Spawn? ==> steps[0].call.eventId.Some? && steps[0].call.eventId.value in s.db.ledger;
      KnownEventStep(s, steps[0]);
      assert OnlyKnownEvents(s.db.ledger, steps[1..]) by {
        forall i | 0 <= i < |steps[1..]|
          ensures steps[1..][i] == steps[i + 1]
        {
        }
      }
      RedeliveryChangesNothing(Exec(s, steps[0]), steps[1..]);
    }
  }

  /**
   Every row is a function of its own history even when the reads and writes of different handlers
   interleave, and its driver is the one of the latest match that named one.
   */
  lemma {:induction false} RowFollowsHistory(steps: seq<Step>, id: string)
    ensures var s := Run(steps);
            && (id in s.db.rides <==> id in s.db.audit)
            && (id in s.db.rides ==>
                  && RowFollows(s.db.rides[id], s.db.audit[id])
                  && s.db.rides[id].driverId == LastDriver(s.commits, id))
  {
    RunInv(steps);
    assert DriversOk(Run(steps));
  }

  predicate NamesDriver(work: Work, id: string) {
    work.Move? && work.id == id && work.to == Matched && work.patch.driverId.Some? && work.patch.driverId.value != ""
  }

  lemma {:induction false} LastDriverIff(commits: seq<Commit>, id: string)
    requires forall i :: 0 <= i < |commits| && commits[i].work.Move? && commits[i].work.patch.driverId.Some?
                         ==> commits[i].work.to == Matched
    ensures LastDriver(commits, id).Some? <==> exists i :: 0 <= i < |commits| && NamesDriver(commits[i].work, id)
  {
    if |commits| > 0 {
      var last := |commits| - 1;
      LastDriverIff(commits[..last], id);
      if NamesDriver(commits[last].work, id) {
      } else {
        forall i | 0 <= i < last
          ensures commits[..last][i] == commits[i]
        {
        }
        if exists i :: 0 <= i < |commits| && NamesDriver(commits[i].work, id) {
          var i :| 0 <= i < |commits| && NamesDriver(commits[i].work, id);
          assert NamesDriver(commits[..last][i].work, id);
        }
        if LastDriver(commits, id).Some? {
          var i :| 0 <= i < last && NamesDriver(commits[..last][i].work, id);
          assert NamesDriver(commits[i].work, id);
        }
      }
    }
  }

  lemma OnlyMatchesNameDrivers(s: State, i: nat)
    requires OriginsOk(s) && i < |s.commits|
    ensures s.commits[i].work.Move? && s.commits[i].work.patch.driverId.Some? ==> s.commits[i].work.to == Matched
  {
    assert FromCall(s, s.commits[i]);
  }

  /**
   The driver column is set exactly when some committed ride.matched carried a non-empty driver
   id. An empty one passes the payload guard and matches the ride without attaching anybody.
   */
  lemma {:induction false} DriverSetIff(steps: seq<Step>, id: string)
    requires id in Run(steps).db.rides
    ensures Run(steps).db.rides[id].driverId.Some? <==>
            exists i :: 0 <= i < |Run(steps).commits| && NamesDriver(Run(steps).commits[i].work, id)
  {
    RunInv(steps);
    var s := Run(steps);
    assert DriversOk(s);
    forall i | 0 <= i < |s.commits| && s.commits[i].work.Move? && s.commits[i].work.patch.driverId.Some?
      ensures s.commits[i].work.to == Matched
    {
      OnlyMatchesNameDrivers(s, i);
    }
    LastDriverIff(s.commits, id);
  }

  // ---------------------------------------------------------------- commits and the audit log

  predicate MovesTo(work: Work, id: string, to: RideStatus) {
    work.Move? && work.id == id && work.to == to
  }

  ghost predicate MovedTo(commits: seq<Commit>, id: string, to: RideStatus) {
    exists i :: 0 <= i < |commits| && MovesTo(commits[i].work, id, to)
  }

  /** Some handler past the creation has committed on this ride. */
  ghost predicate HasMoved(commits: seq<Commit>, id: string) {
    exists i :: 0 <= i < |commits| && commits[i].work.Move? && commits[i].work.id == id
  }

  ghost predicate RideHistoryOk(s: State, id: string) {
    && (HasMoved(s.commits, id) ==> id in s.db.rides)
    && (id in s.db.rides ==>
          s.db.rides[id].status != Requested && (s.db.rides[id].status == Matching <==> !HasMoved(s.commits, id)))
    && (Occurs(AuditOf(s.db, id), Matched) <==> MovedTo(s.commits, id, Matched))
  }

  ghost predicate HistoryOk(s: State) {
    forall id :: RideHistoryOk(s, id)
  }

  lemma MovedSnoc(commits: seq<Commit>, c: Commit, id: string)
    ensures HasMoved(commits + [c], id) <==> HasMoved(commits, id) || (c.work.Move? && c.work.id == id)
    ensures MovedTo(commits + [c], id, Matched) <==> MovedTo(commits, id, Matched) || MovesTo(c.work, id, Matched)
  {
    var more := commits + [c];
    assert more[|commits|] == c && more[..|commits|] == commits;
    if HasMoved(commits, id) {
      var i :| 0 <= i < |commits| && commits[i].work.Move? && commits[i].work.id == id;
      assert more[i] == commits[i];
    }
    if MovedTo(commits, id, Matched) {
      var i :| 0 <= i < |commits| && MovesTo(commits[i].work, id, Matched);
      assert more[i] == commits[i];
    }
  }

  lemma AppliedOccurs(db: Db, eventId: Option<string>, work: Work, id: string)
    requires Applicable(db, work)
    ensures Occurs(AuditOf(Applied(Recorded(db, eventId), work), id), Matched)
            <==> Occurs(AuditOf(db, id), Matched) || MovesTo(work, id, Matched)
  {
    var log := AuditOf(db, id);
    match work {
      case CreateAndMatch(input) =>
        OccursAppend(log, Entry(Requested, None), Matched);
        OccursAppend(log + [Entry(Requested, None)], Entry(Matching, None), Matched);
      case Move(_, to, patch) =>
        OccursAppend(log, Entry(to, patch.reason), Matched);
    }
  }

  lemma CommitKeepsHistory(s: State, pid: nat, replyLost: bool, id: string)
    requires ProcsOk(s) && RideHistoryOk(s, id) && pid in s.procs && AtCommit(s.procs[pid])
    ensures RideHistoryOk(CommitProc(s, pid, replyLost), id)
  {
    var p := s.procs[pid];
    var work := NextWork(p);
    if OutcomeOf(s.db, p.call.eventId, work).Processed? {
      assert ProcOk(s, pid, p);
      AppliedOccurs(s.db, p.call.eventId, work, id);
      MovedSnoc(s.commits, NextCommit(pid, p), id);
    }
  }

  lemma StepKeepsHistory(s: State, step: Step)
    requires ProcsOk(s) && HistoryOk(s)
    ensures HistoryOk(Exec(s, step))
  {
    if Commits(s, step) {
      forall id
        ensures RideHistoryOk(Exec(s, step), id)
      {
        CommitKeepsHistory(s, step.pid, step.CommitThenThrow?, id);
      }
    } else {
      QuietStep(s, step);
      forall id
        ensures RideHistoryOk(Exec(s, step), id)
      {
        assert RideHistoryOk(s, id);
      }
    }
  }

  lemma {:induction false} RunHistory(steps: seq<Step>)
    ensures HistoryOk(Run(steps))
  {
    if |steps| > 0 {
      RunHistory(steps[..|steps| - 1]);
      RunInv(steps[..|steps| - 1]);
      StepKeepsHistory(Run(steps[..|steps| - 1]), steps[|steps| - 1]);
    }
  }

  /**
   Against the audit log: ride.matched occurs in it exactly when some commit moved the ride to
   MATCHED, and the driver column is set exactly when ride.matched occurs, as long as no
   driver.reserved call on the ride carries an empty driver id.
   */
  lemma {:induction false} DriverSetIffMatched(steps: seq<Step>, id: string)
    requires id in Run(steps).db.rides
    ensures var s := Run(steps);
            && (Occurs(AuditOf(s.db, id), Matched) <==> MovedTo(s.commits, id, Matched))
            && ((forall k :: 0 <= k < |s.calls| ==> s.calls[k].action != ReserveDriver(id, "")) ==>
                  (s.db.rides[id].driverId.Some? <==> Occurs(AuditOf(s.db, id), Matched)))
  {
    RunInv(steps);
    RunHistory(steps);
    DriverSetIff(steps, id);
    var s := Run(steps);
    assert RideHistoryOk(s, id);
    forall i | 0 <= i < |s.commits| && MovesTo(s.commits[i].work, id, Matched) && !NamesDriver(s.commits[i].work, id)
      ensures s.calls[s.commits[i].pid].action == ReserveDriver(id, "") && s.commits[i].pid < |s.calls|
    {
      assert FromCall(s, s.commits[i]);
    }
  }

  // ---------------------------------------------------------------- created rides

  /** The ride a committed creation asked for is in the table, with its rider and route. */
  ghost predicate CreationsStand(s: State) {
    forall i :: 0 <= i < |s.commits| && s.commits[i].work.CreateAndMatch? ==> CreationStands(s.db, s.commits[i].work.input)
  }

  predicate CreationStands(db: Db, input: RideInput) {
    input.id in db.rides && db.rides[input.id].riderId == input.riderId && db.rides[input.id].route == input.route
  }

  lemma CommitKeepsCreations(s: State, pid: nat, replyLost: bool)
    requires CreationsStand(s) && pid in s.procs
    ensures CreationsStand(CommitProc(s, pid, replyLost))
  {
    var t := CommitProc(s, pid, replyLost);
    CommitGrows(s, pid, replyLost);
    forall i | 0 <= i < |t.commits| && t.commits[i].work.CreateAndMatch?
      ensures CreationStands(t.db, t.commits[i].work.input)
    {
      if i < |s.commits| {
        assert CreationStands(s.db, s.commits[i].work.input);
      }
    }
  }

  lemma {:induction false} RunKeepsCreations(steps: seq<Step>)
    ensures CreationsStand(Run(steps))
  {
    if |steps| > 0 {
      var prev, step := steps[..|steps| - 1], steps[|steps| - 1];
      RunKeepsCreations(prev);
      if Commits(Run(prev), step) {
        CommitKeepsCreations(Run(prev), step.pid, step.CommitThenThrow?);
      } else {
        QuietStep(Run(prev), step);
      }
    }
  }

  // ---------------------------------------------------------------- witnesses

  lemma RunAppend(steps: seq<Step>, a: Step, b: Step)
    ensures Run(steps + [a, b]) == Exec(Exec(Run(steps), a), b)
  {
    RunSnoc(steps, a);
    RunSnoc(steps + [a], b);
    assert steps + [a] + [b] == steps + [a, b];
  }

  /** One more call is made and its guard is run; nothing else changes. */
  lemma SpawnAndGuard(steps: seq<Step>, call: Call) returns (more: seq<Step>)
    requires WellFormed(call) && !call.action.RequestRide?
    requires LedgerFirst(call) ==> call.eventId.value !in Run(steps).db.ledger
    ensures var s, t := Run(steps), Run(more);
            && t.db == s.db && t.syncs == s.syncs && t.commits == s.commits && t.calls == s.calls + [call]
            && |s.calls| in t.procs && t.procs[|s.calls|].call == call && t.procs[|s.calls|].phase == Guard(s.db, call)
            && forall q :: q in s.procs && q != |s.calls| ==> q in t.procs && t.procs[q] == s.procs[q]
  {
    RunAppend(steps, Spawn(call), Advance(|Run(steps).calls|));
    more := steps + [Spawn(call), Advance(|Run(steps).calls|)];
  }

  /** A first ride request, handled without trouble. */
  lemma ReachMatching(input: RideInput, first: string) returns (steps: seq<Step>)
    ensures var s := Run(steps);
            && s.calls == [Call(RequestRide(input), Some(first))] && s.procs.Keys == {0}
            && Finished(s.procs[0]) && s.db.ledger == {first} && s.syncs == []
            && input.id in s.db.rides && s.db.rides[input.id] == NewRow(input).(status := Matching)
  {
    var call := Call(RequestRide(input), Some(first));
    RunAppend([], Spawn(call), Advance(0));
    steps := [] + [Spawn(call), Advance(0)];
    var s := Exec(INIT, Spawn(call));
    assert s == State(EMPTY_DB, map[0 := Proc(call, Ready, None)], [call], [], []) by {
      assert [] + [call] == [call];
    }
    assert NextWork(s.procs[0]) == CreateAndMatch(input);
  }

  /** Then a driver.reserved for it, naming `driver`. */
  lemma ReachMatched(input: RideInput, driver: string, first: string, second: string) returns (steps: seq<Step>)
    requires first != second
    ensures var s := Run(steps);
            && s.calls == [Call(RequestRide(input), Some(first)), Call(ReserveDriver(input.id, driver), Some(second))]
            && s.procs.Keys == {0, 1} && Finished(s.procs[0]) && Finished(s.procs[1])
            && s.db.ledger == {first, second} && s.syncs == []
            && input.id in s.db.rides && s.db.rides[input.id].status == Matched
            && s.db.rides[input.id].driverId == if driver == "" then None else Some(driver)
  {
    steps := ReachMatching(input, first);
    var s := Run(steps);
    var call := Call(ReserveDriver(input.id, driver), Some(second));
    RunAppend(steps, Spawn(call), Advance(1));
    steps := steps + [Spawn(call), Advance(1)];
    var t := Run(steps);
    assert t.procs[1].call == call && t.procs[1].phase == Guarded(s.db.rides[input.id]) && t.db == s.db && t.syncs == s.syncs;
    RunSnoc(steps, Advance(1));
    assert NextWork(t.procs[1]) == Move(input.id, Matched, NO_PATCH.(driverId := Some(driver)));
    steps := steps + [Advance(1)];
  }

  /** The witness for the empty id: a matched ride whose driver column is null. */
  lemma {:induction false} EmptyDriverIdMatchesNobody(input: RideInput) returns (steps: seq<Step>)
    ensures var s := Run(steps);
            && input.id in s.db.rides
            && s.db.rides[input.id].status == Matched
            && s.db.rides[input.id].driverId.None?
  {
    steps := ReachMatched(input, "", "e1", "e2");
  }

  predicate Mints(work: Work, id: string, otp: Option<string>) {
    work.Move? && work.id == id && work.to == DriverArriving && work.patch.otp == otp
  }

  ghost predicate OtpsMinted(s: State) {
    forall id :: id in s.db.rides && s.db.rides[id].otp.Some? ==>
      exists i :: 0 <= i < |s.commits| && Mints(s.commits[i].work, id, s.db.rides[id].otp)
  }

  lemma AppliedOtp(db: Db, eventId: Option<string>, work: Work, id: string)
    requires Applicable(db, work) && ServiceWork(db, work)
    requires var after := Applied(Recorded(db, eventId), work); id in after.rides && after.rides[id].otp.Some?
    ensures var after := Applied(Recorded(db, eventId), work);
            Mints(work, id, after.rides[id].otp) || (id in db.rides && db.rides[id].otp == after.rides[id].otp)
  {
  }

  lemma CommitMints(s: State, pid: nat, replyLost: bool)
    requires ProcsOk(s) && OtpsMinted(s) && pid in s.procs && AtCommit(s.procs[pid])
    ensures OtpsMinted(CommitProc(s, pid, replyLost))
  {
    var t := CommitProc(s, pid, replyLost);
    var p := s.procs[pid];
    var work := NextWork(p);
    if OutcomeOf(s.db, p.call.eventId, work).Processed? {
      assert ProcOk(s, pid, p);
      ProcWorkShaped(s, pid, p);
      assert t.commits[|s.commits|] == NextCommit(pid, p);
      forall id | id in t.db.rides && t.db.rides[id].otp.Some?
        ensures exists i :: 0 <= i < |t.commits| && Mints(t.commits[i].work, id, t.db.rides[id].otp)
      {
        AppliedOtp(s.db, p.call.eventId, work, id);
        if !Mints(work, id, t.db.rides[id].otp) {
          var i :| 0 <= i < |s.commits| && Mints(s.commits[i].work, id, s.db.rides[id].otp);
          assert t.commits[i] == s.commits[i];
        }
      }
    }
  }

  lemma OtpsMintedStep(s: State, step: Step)
    requires ProcsOk(s) && OtpsMinted(s)
    ensures OtpsMinted(Exec(s, step))
  {
    if Commits(s, step) {
      CommitMints(s, step.pid, step.CommitThenThrow?);
    } else {
      QuietStep(s, step);
    }
  }

  lemma {:induction false} RunMintsOtps(steps: seq<Step>)
    ensures OtpsMinted(Run(steps))
  {
    if |steps| > 0 {
      RunMintsOtps(steps[..|steps| - 1]);
      RunInv(steps[..|steps| - 1]);
      OtpsMintedStep(Run(steps[..|steps| - 1]), steps[|steps| - 1]);
    }
  }

  lemma MintedByAccept(s: State, i: nat, id: string, otp: string)
    requires OriginsOk(s) && i < |s.commits| && Mints(s.commits[i].work, id, Some(otp))
    ensures s.commits[i].pid < |s.calls|
    ensures var action := s.calls[s.commits[i].pid].action;
            action.Accept? && action.ride == id && otp == MintOtp(action.code)
  {
    assert FromCall(s, s.commits[i]);
  }

  /** A stored pickup code is one some accept of this very ride drew: four digits, never invented. */
  lemma {:induction false} OtpComesFromAccept(steps: seq<Step>, id: string)
    requires id in Run(steps).db.rides && Run(steps).db.rides[id].otp.Some?
    ensures exists code :: Call(Accept(id, code), None) in Run(steps).calls
                           && Run(steps).db.rides[id].otp == Some(MintOtp(code))
  {
    RunMintsOtps(steps);
    RunInv(steps);
    var s := Run(steps);
    assert OtpsMinted(s);
    var i :| 0 <= i < |s.commits| && Mints(s.commits[i].work, id, s.db.rides[id].otp);
    MintedByAccept(s, i, id, s.db.rides[id].otp.value);
    var k := s.commits[i].pid;
    AllCallsWellFormed(steps, k);
    assert s.calls[k] == Call(Accept(id, s.calls[k].action.code), None);
  }

  lemma {:induction false} AllCallsWellFormed(steps: seq<Step>, k: nat)
    requires k < |Run(steps).calls|
    ensures WellFormed(Run(steps).calls[k])
  {
    var prev := Run(steps[..|steps| - 1]);
    if k < |prev.calls| {
      AllCallsWellFormed(steps[..|steps| - 1], k);
    }
  }

  lemma DigitsOf(n: nat)
    ensures n == 1000 * (n / 10 / 10 / 10) + 100 * (n / 10 / 10 % 10) + 10 * (n / 10 % 10) + n % 10
  {
    var a := n / 10;
    var b := a / 10;
    assert n == 10 * a + n % 10 && a == 10 * b + a % 10 && b == 10 * (b / 10) + b % 10;
  }

  lemma DigitInjective(c: nat, d: nat)
    requires c < 10 && d < 10
    ensures Digit(c) == Digit(d) ==> c == d
  {
    assert forall i, j :: 0 <= i < j < 10 ==> "0123456789"[i] != "0123456789"[j];
  }

  /** Distinct draws below 10000 give distinct codes, each four characters long. */
  lemma MintOtpInjective(a: nat, b: nat)
    requires a < 10000 && b < 10000
    requires MintOtp(a) == MintOtp(b)
    ensures a == b
  {
    assert a % 10000 == a && b % 10000 == b;
    var s, t := MintOtp(a), MintOtp(b);
    assert s[0] == t[0] && s[1] == t[1] && s[2] == t[2] && s[3] == t[3];
    DigitInjective(a / 10 / 10 / 10, b / 10 / 10 / 10);
    DigitInjective(a / 10 / 10 % 10, b / 10 / 10 % 10);
    DigitInjective(a / 10 % 10, b / 10 % 10);
    DigitInjective(a % 10, b % 10);
    DigitsOf(a);
    DigitsOf(b);
  }
}
