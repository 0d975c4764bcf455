/**
 The handlers and actions of trips.service.ts as processes over the trip database. A handler
 reads and guards in one step and writes in a later one, so any number of them may interleave
 between those steps, fail, lose the acknowledgement of a commit, or vanish with their host.
 A step that is not enabled leaves the state alone, so every step list is a run.
 */
module TripHandlers {
  import opened Options
  import opened EventSchema
  import opened RideStateMachine
  import opened TripStore
  import D = DriverStateMachine

  /** `caller` and `otp` are the HTTP inputs of `start`; `code` is the number drawn by `accept`. */
  datatype Action =
    | RequestRide(input: RideInput)
    | ReserveDriver(ride: string, driver: string)
    | CancelRide(ride: string, reason: Option<Reason>)
    | Accept(ride: string, code: nat)
    | MarkArrived(ride: string)
    | Start(ride: string, otp: string, caller: Option<string>)
    | Complete(ride: string)

  /** A call with an event id comes from the Kafka consumer, one without from the HTTP API. */
  datatype Call = Call(action: Action, eventId: Option<string>)

  datatype Sync = Sync(driver: string, status: D.DriverStatus)

  datatype Phase =
    | Ready
    | Guarded(row: Row)
    | Staged(row: Row)
    | Syncing(sync: Sync)
    | Returned
    | Threw

  /** `readAt` is how many commits there were when the guard read the row. */
  datatype Proc = Proc(call: Call, phase: Phase, readAt: Option<nat>)

  /** `seen` is the status the guard of process `pid` had read; a creation reads none. */
  datatype Commit = Commit(pid: nat, eventId: Option<string>, seen: Option<RideStatus>, work: Work)

  /** A PATCH to the driver service and the process that sent it. */
  datatype Sent = Sent(pid: nat, sync: Sync)

  /**
   `calls`, `commits` and `syncs` record what has been invoked, committed and sent so far. The
   process of call number n is process n, so a process number is never used twice.
   */
  datatype State = State(
    db: Db,
    procs: map<nat, Proc>,
    calls: seq<Call>,
    commits: seq<Commit>,
    syncs: seq<Sent>
  )

  const INIT := State(EMPTY_DB, map[], [], [], [])

  /**
   `Abort` is an infrastructure failure that rolls back, `CommitThenThrow` a commit whose
   acknowledgement is lost, and `Kill` the death of the host process.
   */
  datatype Step =
    | Spawn(call: Call)
    | Advance(pid: nat)
    | Abort(pid: nat)
    | CommitThenThrow(pid: nat)
    | Kill(pid: nat)

  // ---------------------------------------------------------------- one handler

  function RideOf(action: Action): string {
    if action.RequestRide? then action.input.id else action.ride
  }

  function Target(action: Action): RideStatus {
    match action
    case RequestRide(_) => Matching
    case ReserveDriver(_, _) => Matched
    case CancelRide(_, _) => Cancelled
    case Accept(_, _) => DriverArriving
    case MarkArrived(_) => DriverArrived
    case Start(_, _, _) => InProgress
    case Complete(_) => Completed
  }

  predicate WellFormed(call: Call) {
    match call.action
    case RequestRide(_) => call.eventId.Some?
    case ReserveDriver(_, _) => call.eventId.Some?
    case CancelRide(_, _) => true
    case _ => call.eventId.None?
  }

  /** The four digits of String(n).padStart(4, '0') for n below 10000. */
  function MintOtp(code: nat): string {
    var n := code % 10000;
    [Digit(n / 10 / 10 / 10), Digit(n / 10 / 10 % 10), Digit(n / 10 % 10), Digit(n % 10)]
  }

  function Digit(d: nat): char
    requires d < 10
  {
    "0123456789"[d]
  }

  function WorkOf(action: Action, km: real): Work {
    match action
    case RequestRide(input) => CreateAndMatch(input)
    case ReserveDriver(ride, driver) => Move(ride, Matched, NO_PATCH.(driverId := Some(driver)))
    case CancelRide(ride, reason) => Move(ride, Cancelled, NO_PATCH.(reason := reason))
    case Accept(ride, code) => Move(ride, DriverArriving, NO_PATCH.(otp := Some(MintOtp(code))))
    case MarkArrived(ride) => Move(ride, DriverArrived, NO_PATCH)
    case Start(ride, _, _) => Move(ride, InProgress, NO_PATCH.(clearOtp := true))
    case Complete(ride) => Move(ride, Completed, NO_PATCH.(fare := Some(FareFor(km)), km := Some(km)))
  }

  /** The cancelling event handlers insert their ledger row before they read and guard. */
  predicate LedgerFirst(call: Call) {
    call.action.CancelRide? && call.eventId.Some?
  }

  predicate WrongCaller(action: Action, row: Row)
    requires action.Start?
  {
    action.caller.Some? && action.caller.value != "" && row.driverId != action.caller
  }

  /** The read, the transition guard, and for `start` the ownership check. */
  function Guard(db: Db, call: Call): Phase {
    var id := RideOf(call.action);
    if id !in db.rides then Threw
    else if !CanTransition(db.rides[id].status, Target(call.action)) then Threw
    else if call.action.Start? && WrongCaller(call.action, db.rides[id]) then Threw
    else Guarded(db.rides[id])
  }

  predicate OtpMatches(db: Db, action: Action)
    requires action.Start?
  {
    action.ride in db.rides && db.rides[action.ride].otp == Some(action.otp) && action.otp != ""
  }

  /** Is the next step of this process its transaction commit? */
  predicate AtCommit(p: Proc) {
    match p.phase
    case Ready => p.call.action.RequestRide?
    case Guarded(_) => !p.call.action.Start? && !LedgerFirst(p.call)
    case Staged(_) => true
    case _ => false
  }

  function KmSeen(p: Proc): real {
    if p.phase.Guarded? || p.phase.Staged? then p.phase.row.route.km else 0.0
  }

  function NextWork(p: Proc): Work {
    WorkOf(p.call.action, KmSeen(p))
  }

  function NextCommit(pid: nat, p: Proc): Commit {
    Commit(pid, p.call.eventId,
           if p.phase.Guarded? || p.phase.Staged? then Some(p.phase.row.status) else None, NextWork(p))
  }

  /** The PATCH with which a call tells the driver service of its transition, if a driver is attached. */
  function DriverPatch(db: Db, action: Action): Option<Sync> {
    var id := RideOf(action);
    if id in db.rides && db.rides[id].driverId.Some? then
      var d := db.rides[id].driverId.value;
      match action
      case Start(_, _, _) => Some(Sync(d, D.OnTrip))
      case Complete(_) => Some(Sync(d, D.Available))
      case CancelRide(_, _) => Some(Sync(d, D.Available))
      case _ => None
    else
      None
  }

  /** An HTTP action sends its PATCH after its commit. */
  function AfterCommit(db: Db, call: Call): Phase {
    var patch := DriverPatch(db, call.action);
    if call.eventId.None? && patch.Some? then Syncing(patch.value) else Returned
  }

  /** A cancelling event handler sends its PATCH inside the transaction. */
  function InTransactionSync(db: Db, pid: nat, call: Call): seq<Sent> {
    var patch := DriverPatch(db, call.action);
    if patch.Some? then [Sent(pid, patch.value)] else []
  }

  // ---------------------------------------------------------------- steps and runs

  function SetPhase(s: State, pid: nat, phase: Phase): State
    requires pid in s.procs
  {
    s.(procs := s.procs[pid := s.procs[pid].(phase := phase)])
  }

  /** The commit of process `pid`, which then goes to its sync, or to Threw if the reply is lost. */
  function CommitProc(s: State, pid: nat, replyLost: bool): State
    requires pid in s.procs
  {
    var p := s.procs[pid];
    var work := NextWork(p);
    match OutcomeOf(s.db, p.call.eventId, work)
    case Duplicate => SetPhase(s, pid, Returned)
    case Failed => SetPhase(s, pid, Threw)
    case Processed =>
      var db := AfterTransaction(s.db, p.call.eventId, work);
      SetPhase(s, pid, if replyLost then Threw else AfterCommit(db, p.call))
        .(db := db, commits := s.commits + [NextCommit(pid, p)])
  }

  function AdvanceProc(s: State, pid: nat): State
    requires pid in s.procs
  {
    var p := s.procs[pid];
    if AtCommit(p) then CommitProc(s, pid, false)
    else
      match p.phase
      case Ready =>
        if LedgerFirst(p.call) && p.call.eventId.value in s.db.ledger then SetPhase(s, pid, Returned)
        else s.(procs := s.procs[pid := Proc(p.call, Guard(s.db, p.call), Some(|s.commits|))])
      case Guarded(row) =>
        if p.call.action.Start? then
          SetPhase(s, pid, if OtpMatches(s.db, p.call.action) then Staged(row) else Threw)
        else
          SetPhase(s, pid, Staged(row)).(syncs := s.syncs + InTransactionSync(s.db, pid, p.call))
      case Syncing(sync) => SetPhase(s, pid, Returned).(syncs := s.syncs + [Sent(pid, sync)])
      case _ => s
  }

  predicate Finished(p: Proc) {
    p.phase.Returned? || p.phase.Threw?
  }

  function Exec(s: State, step: Step): State {
    match step
    case Spawn(call) =>
      if !WellFormed(call) then s
      else s.(procs := s.procs[|s.calls| := Proc(call, Ready, None)], calls := s.calls + [call])
    case Advance(pid) => if pid in s.procs then AdvanceProc(s, pid) else s
    case Abort(pid) => if pid in s.procs && !Finished(s.procs[pid]) then SetPhase(s, pid, Threw) else s
    case CommitThenThrow(pid) => if pid in s.procs && AtCommit(s.procs[pid]) then CommitProc(s, pid, true) else s
    case Kill(pid) => s.(procs := s.procs - {pid})
  }

  function Run(steps: seq<Step>): State {
    if |steps| == 0 then INIT else Exec(Run(steps[..|steps| - 1]), steps[|steps| - 1])
  }

  lemma RunSnoc(steps: seq<Step>, step: Step)
    ensures Run(steps + [step]) == Exec(Run(steps), step)
  {
    assert (steps + [step])[..|steps|] == steps;
  }

  // ---------------------------------------------------------------- what every step keeps

  /** The tables obtained by applying committed works one after another to an empty database. */
  function Replayed(commits: seq<Commit>): Db {
    if |commits| == 0 then EMPTY_DB
    else
      var c := commits[|commits| - 1];
      Applied(Recorded(Replayed(commits[..|commits| - 1]), c.eventId), c.work)
  }

  ghost predicate DistinctEventIds(commits: seq<Commit>) {
    forall i, j :: 0 <= i < j < |commits| && commits[i].eventId.Some? ==> commits[i].eventId != commits[j].eventId
  }

  ghost predicate Committed(commits: seq<Commit>, eventId: string) {
    exists i :: 0 <= i < |commits| && commits[i].eventId == Some(eventId)
  }

  /** The driver of the latest ride.matched commit of a ride that carried a driver id. */
  function LastDriver(commits: seq<Commit>, id: string): Option<string> {
    if |commits| == 0 then None
    else
      var w := commits[|commits| - 1].work;
      if w.Move? && w.id == id && w.patch.driverId.Some? && w.patch.driverId.value != "" then w.patch.driverId
      else LastDriver(commits[..|commits| - 1], id)
  }

  function KmOf(work: Work): real {
    if work.Move? && work.patch.km.Some? then work.patch.km.value else 0.0
  }

  predicate Implements(work: Work, action: Action) {
    work == WorkOf(action, KmOf(work))
  }

  /** The invocation that made this commit carried its event id and asked for exactly this work. */
  ghost predicate FromCall(s: State, c: Commit) {
    c.pid < |s.calls| && s.calls[c.pid].eventId == c.eventId && Implements(c.work, s.calls[c.pid].action)
  }

  ghost predicate CommittedBy(commits: seq<Commit>, pid: nat) {
    exists i :: 0 <= i < |commits| && commits[i].pid == pid
  }

  /** A commit of this process has left this driver in the column of this ride. */
  ghost predicate CommittedWith(commits: seq<Commit>, pid: nat, id: string, driver: string) {
    exists i :: 0 <= i < |commits| && commits[i].pid == pid && LastDriver(commits[..i + 1], id) == Some(driver)
  }

  /** The effect of this event is in the database, or its ride was already there. */
  predicate Absorbed(db: Db, call: Call) {
    call.eventId.Some? ==>
      call.eventId.value in db.ledger || (call.action.RequestRide? && call.action.input.id in db.rides)
  }

  predicate InFlight(p: Proc, id: string) {
    (p.phase.Guarded? || p.phase.Staged?) && RideOf(p.call.action) == id
  }

  predicate SyncFits(action: Action, status: D.DriverStatus) {
    match action
    case Start(_, _, _) => status == D.OnTrip
    case Complete(_) => status == D.Available
    case CancelRide(_, _) => status == D.Available
    case _ => false
  }

  ghost predicate ProcOk(s: State, pid: nat, p: Proc) {
    && WellFormed(p.call)
    && pid < |s.calls| && s.calls[pid] == p.call
    && (p.phase.Ready? ==> p.readAt.None?)
    && (p.readAt.Some? ==> p.readAt.value <= |s.commits|)
    && (p.phase.Guarded? || p.phase.Staged? ==>
          && !p.call.action.RequestRide?
          && CanTransition(p.phase.row.status, Target(p.call.action))
          && RideOf(p.call.action) in s.db.rides
          && s.db.rides[RideOf(p.call.action)].route == p.phase.row.route
          && (p.call.action.Start? ==> !WrongCaller(p.call.action, p.phase.row)))
    && (p.phase.Returned? || p.phase.Syncing? ==> Absorbed(s.db, p.call))
    && (p.phase.Syncing? ==>
          && p.call.eventId.None? && SyncFits(p.call.action, p.phase.sync.status)
          && CommittedWith(s.commits, pid, RideOf(p.call.action), p.phase.sync.driver))
  }

  ghost predicate TablesOk(s: State) {
    && s.db == Replayed(s.commits)
    && Consistent(s.db)
    && DistinctEventIds(s.commits)
    && forall e :: e in s.db.ledger <==> Committed(s.commits, e)
  }

  ghost predicate DriversOk(s: State) {
    forall id :: LastDriver(s.commits, id) == DriverColumn(s.db, id)
  }

  ghost predicate OriginsOk(s: State) {
    forall i :: 0 <= i < |s.commits| ==> FromCall(s, s.commits[i])
  }

  ghost predicate ProcsOk(s: State) {
    forall pid :: pid in s.procs ==> ProcOk(s, pid, s.procs[pid])
  }

  ghost predicate Inv(s: State) {
    TablesOk(s) && DriversOk(s) && OriginsOk(s) && ProcsOk(s)
  }

  /** Rides and ledger rows are never removed, riders and routes never change, the records only grow. */
  ghost predicate Grows(s: State, t: State) {
    && s.db.ledger <= t.db.ledger
    && (forall id :: id in s.db.rides ==>
          id in t.db.rides && t.db.rides[id].route == s.db.rides[id].route && t.db.rides[id].riderId == s.db.rides[id].riderId)
    && s.calls <= t.calls
    && s.commits <= t.commits
  }

  lemma CommittedAppend(commits: seq<Commit>, c: Commit, e: string)
    ensures Committed(commits + [c], e) <==> Committed(commits, e) || c.eventId == Some(e)
  {
    var ext := commits + [c];
    if Committed(commits, e) {
      var i :| 0 <= i < |commits| && commits[i].eventId == Some(e);
      assert ext[i].eventId == Some(e);
    }
    if c.eventId == Some(e) {
      assert ext[|commits|].eventId == Some(e);
    }
  }

  lemma CommitGrows(s: State, pid: nat, replyLost: bool)
    requires pid in s.procs
    ensures Grows(s, CommitProc(s, pid, replyLost))
  {
  }

  /** Guarded processes hand the repository patches of the service's own shape. */
  lemma ProcWorkShaped(s: State, pid: nat, p: Proc)
    requires ProcOk(s, pid, p) && AtCommit(p)
    ensures ServiceWork(s.db, NextWork(p))
  {
  }

  lemma CommitKeepsTables(s: State, pid: nat, replyLost: bool)
    requires Inv(s) && pid in s.procs && AtCommit(s.procs[pid])
    ensures TablesOk(CommitProc(s, pid, replyLost))
  {
    var t := CommitProc(s, pid, replyLost);
    var p := s.procs[pid];
    var work := NextWork(p);
    if OutcomeOf(s.db, p.call.eventId, work).Processed? {
      var c := NextCommit(pid, p);
      assert t.commits[..|s.commits|] == s.commits;
      ProcWorkShaped(s, pid, p);
      AppliedConsistent(Recorded(s.db, p.call.eventId), work);
      forall e
        ensures e in t.db.ledger <==> Committed(t.commits, e)
      {
        CommittedAppend(s.commits, c, e);
      }
      forall i, j | 0 <= i < j < |t.commits| && t.commits[i].eventId.Some?
        ensures t.commits[i].eventId != t.commits[j].eventId
      {
        if j == |s.commits| {
          assert Committed(s.commits, t.commits[i].eventId.value);
        }
      }
    }
  }

  function DriverColumn(db: Db, id: string): Option<string> {
    if id in db.rides then db.rides[id].driverId else None
  }

  lemma AppliedDriver(db: Db, eventId: Option<string>, work: Work, id: string)
    requires Applicable(db, work)
    ensures DriverColumn(Applied(Recorded(db, eventId), work), id)
            == if work.Move? && work.id == id && work.patch.driverId.Some? && work.patch.driverId.value != ""
               then work.patch.driverId else DriverColumn(db, id)
  {
  }

  lemma LastDriverSnoc(commits: seq<Commit>, c: Commit, id: string)
    ensures LastDriver(commits + [c], id)
            == if c.work.Move? && c.work.id == id && c.work.patch.driverId.Some? && c.work.patch.driverId.value != ""
               then c.work.patch.driverId else LastDriver(commits, id)
  {
    assert (commits + [c])[..|commits|] == commits;
  }

  lemma CommitKeepsDrivers(s: State, pid: nat, replyLost: bool)
    requires DriversOk(s) && pid in s.procs
    ensures DriversOk(CommitProc(s, pid, replyLost))
  {
    var t := CommitProc(s, pid, replyLost);
    var p := s.procs[pid];
    var work := NextWork(p);
    forall id
      ensures LastDriver(t.commits, id) == DriverColumn(t.db, id)
    {
      assert LastDriver(s.commits, id) == DriverColumn(s.db, id);
      if OutcomeOf(s.db, p.call.eventId, work).Processed? {
        AppliedDriver(s.db, p.call.eventId, work, id);
        LastDriverSnoc(s.commits, NextCommit(pid, p), id);
      }
    }
  }

  lemma CommittedByStays(commits: seq<Commit>, more: seq<Commit>, pid: nat)
    requires CommittedBy(commits, pid) && commits <= more
    ensures CommittedBy(more, pid)
  {
    var i :| 0 <= i < |commits| && commits[i].pid == pid;
    assert more[i] == commits[i];
  }

  lemma CommittedWithStays(commits: seq<Commit>, more: seq<Commit>, pid: nat, id: string, driver: string)
    requires CommittedWith(commits, pid, id, driver) && commits <= more
    ensures CommittedWith(more, pid, id, driver)
  {
    var i :| 0 <= i < |commits| && commits[i].pid == pid && LastDriver(commits[..i + 1], id) == Some(driver);
    assert more[i] == commits[i] && more[..i + 1] == commits[..i + 1];
  }

  lemma GrowsKeepsProc(s: State, t: State, pid: nat, p: Proc)
    requires ProcOk(s, pid, p) && Grows(s, t)
    ensures ProcOk(t, pid, p)
  {
    if p.phase.Syncing? {
      CommittedWithStays(s.commits, t.commits, pid, RideOf(p.call.action), p.phase.sync.driver);
    }
  }

  lemma GrowsKeepsOrigins(s: State, t: State)
    requires OriginsOk(s) && Grows(s, t)
    ensures forall i :: 0 <= i < |s.commits| ==> FromCall(t, t.commits[i])
  {
    forall i | 0 <= i < |s.commits|
      ensures FromCall(t, t.commits[i])
    {
      assert FromCall(s, s.commits[i]);
    }
  }

  lemma NextWorkImplements(p: Proc)
    ensures Implements(NextWork(p), p.call.action)
  {
  }

  lemma CommitKeepsOrigins(s: State, pid: nat, replyLost: bool)
    requires OriginsOk(s) && ProcsOk(s) && pid in s.procs
    ensures OriginsOk(CommitProc(s, pid, replyLost))
  {
    var t := CommitProc(s, pid, replyLost);
    CommitGrows(s, pid, replyLost);
    GrowsKeepsOrigins(s, t);
    assert ProcOk(s, pid, s.procs[pid]);
    NextWorkImplements(s.procs[pid]);
  }

  /** Whatever phase a process is put into, it must be one its own tables vouch for. */
  lemma SetPhaseOk(s: State, t: State, pid: nat, p: Proc, phase: Phase, readAt: Option<nat>)
    requires ProcOk(s, pid, p) && Grows(s, t)
    requires phase.Guarded? ==> phase == Guard(t.db, p.call) && !p.call.action.RequestRide?
    requires phase.Staged? ==> p.phase.Guarded? && phase.row == p.phase.row
    requires phase.Returned? || phase.Syncing? ==> Absorbed(t.db, p.call)
    requires phase.Syncing? ==>
               && p.call.eventId.None? && SyncFits(p.call.action, phase.sync.status)
               && CommittedWith(t.commits, pid, RideOf(p.call.action), phase.sync.driver)
    requires !phase.Ready?
    requires readAt == p.readAt || readAt == Some(|s.commits|)
    ensures ProcOk(t, pid, Proc(p.call, phase, readAt))
  {
    GrowsKeepsProc(s, t, pid, p);
  }

  lemma CommitAbsorbs(s: State, pid: nat)
    requires pid in s.procs && ProcOk(s, pid, s.procs[pid])
    ensures var p := s.procs[pid];
            !OutcomeOf(s.db, p.call.eventId, NextWork(p)).Failed?
            ==> Absorbed(CommitProc(s, pid, false).db, p.call) && Absorbed(CommitProc(s, pid, true).db, p.call)
  {
    var p := s.procs[pid];
    if p.call.action.RequestRide? {
      assert NextWork(p) == CreateAndMatch(p.call.action.input);
    } else {
      assert NextWork(p).Move?;
    }
  }

  /** The PATCH a committed action goes on to send names the driver its commit left in the column. */
  lemma CommitNamesDriver(s: State, pid: nat, replyLost: bool)
    requires DriversOk(s) && pid in s.procs && !s.procs[pid].phase.Syncing?
    ensures var t := CommitProc(s, pid, replyLost);
            t.procs[pid].phase.Syncing? ==>
              CommittedWith(t.commits, pid, RideOf(s.procs[pid].call.action), t.procs[pid].phase.sync.driver)
  {
    var t := CommitProc(s, pid, replyLost);
    CommitKeepsDrivers(s, pid, replyLost);
    if t.procs[pid].phase.Syncing? {
      assert t.commits[|s.commits|].pid == pid && t.commits[..|s.commits| + 1] == t.commits;
    }
  }

  lemma CommitKeepsProcs(s: State, pid: nat, replyLost: bool)
    requires ProcsOk(s) && DriversOk(s) && pid in s.procs && !s.procs[pid].phase.Syncing?
    ensures ProcsOk(CommitProc(s, pid, replyLost))
  {
    var t := CommitProc(s, pid, replyLost);
    CommitGrows(s, pid, replyLost);
    assert ProcOk(s, pid, s.procs[pid]);
    CommitAbsorbs(s, pid);
    CommitNamesDriver(s, pid, replyLost);
    forall q | q in t.procs
      ensures ProcOk(t, q, t.procs[q])
    {
      if q == pid {
        SetPhaseOk(s, t, pid, s.procs[pid], t.procs[pid].phase, s.procs[pid].readAt);
      } else {
        GrowsKeepsProc(s, t, q, s.procs[q]);
      }
    }
  }

  lemma CommitKeepsInv(s: State, pid: nat, replyLost: bool)
    requires Inv(s) && pid in s.procs && AtCommit(s.procs[pid])
    ensures Inv(CommitProc(s, pid, replyLost))
  {
    CommitKeepsTables(s, pid, replyLost);
    CommitKeepsOrigins(s, pid, replyLost);
    CommitKeepsProcs(s, pid, replyLost);
    CommitKeepsDrivers(s, pid, replyLost);
  }

  /** Is this step the commit of a process? Every other step leaves the tables alone. */
  predicate Commits(s: State, step: Step) {
    (step.Advance? || step.CommitThenThrow?) && step.pid in s.procs && AtCommit(s.procs[step.pid])
  }

  lemma QuietStep(s: State, step: Step)
    requires !Commits(s, step)
    ensures Exec(s, step).db == s.db && Exec(s, step).commits == s.commits && s.calls <= Exec(s, step).calls
  {
  }

  lemma QuietStepKeepsProcs(s: State, step: Step)
    requires ProcsOk(s) && !Commits(s, step)
    ensures ProcsOk(Exec(s, step))
  {
    var t := Exec(s, step);
    QuietStep(s, step);
    forall q | q in t.procs
      ensures ProcOk(t, q, t.procs[q])
    {
      if q in s.procs && t.procs[q] == s.procs[q] {
        GrowsKeepsProc(s, t, q, s.procs[q]);
      } else if step.Spawn? {
        assert t.procs[q] == Proc(step.call, Ready, None);
      } else {
        SetPhaseOk(s, t, q, s.procs[q], t.procs[q].phase, t.procs[q].readAt);
      }
    }
  }

  lemma ExecKeepsInv(s: State, step: Step)
    requires Inv(s)
    ensures Inv(Exec(s, step)) && Grows(s, Exec(s, step))
  {
    if Commits(s, step) {
      CommitKeepsInv(s, step.pid, step.CommitThenThrow?);
      CommitGrows(s, step.pid, step.CommitThenThrow?);
    } else {
      QuietStep(s, step);
      QuietStepKeepsProcs(s, step);
      GrowsKeepsOrigins(s, Exec(s, step));
    }
  }

  lemma {:induction false} RunInv(steps: seq<Step>)
    ensures Inv(Run(steps))
  {
    if |steps| > 0 {
      RunInv(steps[..|steps| - 1]);
      ExecKeepsInv(Run(steps[..|steps| - 1]), steps[|steps| - 1]);
    }
  }
}
