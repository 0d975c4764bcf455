/**
 The driver status mirror: drivers.service.ts guards every PATCH by the driver table, dispatch
 sends RESERVED, and the trip service sends ON_TRIP and AVAILABLE as a ride moves on. The PATCHes
 are those of the runs of `TripHandlers`, in the order in which they were sent, and are best effort,
 so any of them may be lost.
 */
module DriverMirror {
  import opened Options
  import opened RideStateMachine
  import opened TripStore
  import opened TripHandlers
  import opened TripGuarantees
  import opened TripLifecycle
  import opened DriverSyncs
  import opened RidePatches
  import S = TripService
  import D = DriverStateMachine

  /** updateStatus as a value: an illegal target is refused and leaves the status alone. */
  function Updated(status: D.DriverStatus, target: D.DriverStatus): D.DriverStatus {
    if D.CanTransition(status, target) then target else status
  }

  datatype Reply = Ok | NotFound | Conflict

  class DriversService {
    var drivers: map<string, D.DriverStatus>

    constructor (drivers: map<string, D.DriverStatus>)
      ensures this.drivers == drivers
    {
      this.drivers := drivers;
    }

    method UpdateStatus(id: string, target: D.DriverStatus) returns (reply: Reply)
      modifies this
      ensures reply == if id !in old(drivers) then NotFound
                       else if D.CanTransition(old(drivers)[id], target) then Ok else Conflict
      ensures drivers == if reply.Ok? then old(drivers)[id := target] else old(drivers)
    {
      if id !in drivers {
        return NotFound;
      }
      if !D.CanTransition(drivers[id], target) {
        return Conflict;
      }
      drivers := drivers[id := target];
      return Ok;
    }
  }

  // ---------------------------------------------------------------- the PATCHes of one ride

  /** A PATCH a call on this ride sent to this driver. */
  predicate Concerns(calls: seq<Call>, sent: Sent, id: string, driver: string) {
    OnRide(calls, sent, id) && sent.sync.driver == driver
  }

  /** The mirror of the driver after the PATCHes of the ride, save the lost ones, in sending order. */
  function MirrorAfter(start: D.DriverStatus, calls: seq<Call>, syncs: seq<Sent>, id: string, driver: string, lost: set<nat>): D.DriverStatus
  {
    if |syncs| == 0 then start
    else
      var last := |syncs| - 1;
      var before := MirrorAfter(start, calls, syncs[..last], id, driver, lost);
      if Concerns(calls, syncs[last], id, driver) && last !in lost then Updated(before, syncs[last].sync.status) else before
  }

  /** Has a PATCH with this status got through? */
  ghost predicate Arrived(calls: seq<Call>, syncs: seq<Sent>, id: string, driver: string, lost: set<nat>, status: D.DriverStatus) {
    exists k :: 0 <= k < |syncs| && k !in lost && Concerns(calls, syncs[k], id, driver) && syncs[k].sync.status == status
  }

  /** The mirror after the PATCHes of a trip's start and end, as far as they arrived, in whatever order. */
  function AfterTrip(mirror: D.DriverStatus, started: bool, ended: bool): D.DriverStatus {
    var underway := if started then Updated(mirror, D.OnTrip) else mirror;
    if ended then Updated(underway, D.Available) else underway
  }

  ghost predicate TripPatches(syncs: seq<Sent>) {
    forall k :: 0 <= k < |syncs| ==> syncs[k].sync.status in {D.OnTrip, D.Available}
  }

  lemma RunSendsTripPatches(steps: seq<Step>)
    ensures TripPatches(Run(steps).syncs)
  {
    RunSyncsOk(steps);
    var s := Run(steps);
    forall k | 0 <= k < |s.syncs|
      ensures s.syncs[k].sync.status in {D.OnTrip, D.Available}
    {
      assert SentOk(s, s.syncs[k]);
    }
  }

  lemma ArrivedSnoc(calls: seq<Call>, syncs: seq<Sent>, id: string, driver: string, lost: set<nat>, status: D.DriverStatus)
    requires |syncs| > 0
    ensures var last := |syncs| - 1;
            Arrived(calls, syncs, id, driver, lost, status) <==>
            || Arrived(calls, syncs[..last], id, driver, lost, status)
            || (last !in lost && Concerns(calls, syncs[last], id, driver) && syncs[last].sync.status == status)
  {
    var last := |syncs| - 1;
    var prev := syncs[..last];
    if Arrived(calls, prev, id, driver, lost, status) {
      var k :| 0 <= k < |prev| && k !in lost && Concerns(calls, prev[k], id, driver) && prev[k].sync.status == status;
      assert syncs[k] == prev[k];
    }
    if Arrived(calls, syncs, id, driver, lost, status) {
      var k :| 0 <= k < |syncs| && k !in lost && Concerns(calls, syncs[k], id, driver) && syncs[k].sync.status == status;
      assert k < last ==> prev[k] == syncs[k];
    }
  }

  lemma {:induction false} OrderDoesNotMatter(start: D.DriverStatus, calls: seq<Call>, syncs: seq<Sent>, id: string, driver: string, lost: set<nat>)
    requires TripPatches(syncs)
    ensures MirrorAfter(start, calls, syncs, id, driver, lost)
            == AfterTrip(start, Arrived(calls, syncs, id, driver, lost, D.OnTrip), Arrived(calls, syncs, id, driver, lost, D.Available))
  {
    if |syncs| > 0 {
      OrderDoesNotMatter(start, calls, syncs[..|syncs| - 1], id, driver, lost);
      ArrivedSnoc(calls, syncs, id, driver, lost, D.OnTrip);
      ArrivedSnoc(calls, syncs, id, driver, lost, D.Available);
    }
  }

  lemma {:induction false} MovesAlongTable(start: D.DriverStatus, calls: seq<Call>, syncs: seq<Sent>, id: string, driver: string,
                                           lost: set<nat>, n: nat)
    requires n < |syncs|
    ensures var before := MirrorAfter(start, calls, syncs[..n], id, driver, lost);
            var after := MirrorAfter(start, calls, syncs[..n + 1], id, driver, lost);
            after == before || D.CanTransition(before, after)
  {
    assert syncs[..n + 1][..n] == syncs[..n];
  }

  /**
   In every run, with its calls overlapping in any way and any of its PATCHes lost, and whatever the
   mirror was to begin with: it moves only along the driver table, and ends as the start and end
   PATCHes that arrived leave it, in whatever order they were sent.
   */
  lemma {:induction false} MirrorIsPatchesApplied(steps: seq<Step>, id: string, driver: string, start: D.DriverStatus, lost: set<nat>)
    ensures var s := Run(steps);
            && MirrorAfter(start, s.calls, s.syncs, id, driver, lost)
               == AfterTrip(start, Arrived(s.calls, s.syncs, id, driver, lost, D.OnTrip),
                            Arrived(s.calls, s.syncs, id, driver, lost, D.Available))
            && forall n :: 0 <= n < |s.syncs| ==>
                 var before := MirrorAfter(start, s.calls, s.syncs[..n], id, driver, lost);
                 var after := MirrorAfter(start, s.calls, s.syncs[..n + 1], id, driver, lost);
                 after == before || D.CanTransition(before, after)
  {
    var s := Run(steps);
    RunSendsTripPatches(steps);
    OrderDoesNotMatter(start, s.calls, s.syncs, id, driver, lost);
    forall n | 0 <= n < |s.syncs|
      ensures var before := MirrorAfter(start, s.calls, s.syncs[..n], id, driver, lost);
              var after := MirrorAfter(start, s.calls, s.syncs[..n + 1], id, driver, lost);
              after == before || D.CanTransition(before, after)
    {
      MovesAlongTable(start, s.calls, s.syncs, id, driver, lost, n);
    }
  }

  // ---------------------------------------------------------------- dispatch's own PATCH

  /** Dispatch's own RESERVED PATCH, sent before it publishes driver.reserved, may be lost as well. */
  function AfterReservation(mirror: D.DriverStatus, delivered: bool): D.DriverStatus {
    if delivered then Updated(mirror, D.Reserved) else mirror
  }

  /**
   Consuming driver.reserved attaches the driver without a PATCH of its own, and the mirror is then
   at the status of a matched driver exactly when dispatch's PATCH arrived and found him AVAILABLE,
   or he was RESERVED already.
   */
  lemma ReservationCouples(db: Db, ride: string, driver: string, eventId: string, mirror: D.DriverStatus, delivered: bool)
    requires ride in db.rides && db.rides[ride].status == Matching && eventId !in db.ledger && driver != ""
    ensures var h := S.Handle(db, Call(ReserveDriver(ride, driver), Some(eventId)));
            && ride in h.db.rides && h.db.rides[ride].driverId == Some(driver)
            && h.db.rides[ride].status == Matched && h.syncs == []
            && (AfterReservation(mirror, delivered) == Expected(h.db.rides[ride].status)
                <==> mirror == D.Reserved || (delivered && mirror == D.Available))
  {
  }

  /**
   From an AVAILABLE driver, in every run: if dispatch's RESERVED PATCH arrived, the mirror is
   AVAILABLE again exactly when a PATCH that frees him arrived, and otherwise ON_TRIP exactly when
   that of the trip's start did; if it was lost, the mirror stays AVAILABLE all through the trip.
   */
  lemma {:induction false} LostPatches(steps: seq<Step>, id: string, driver: string, reserved: bool, lost: set<nat>)
    ensures var s := Run(steps);
            MirrorAfter(AfterReservation(D.Available, reserved), s.calls, s.syncs, id, driver, lost)
            == if !reserved || Arrived(s.calls, s.syncs, id, driver, lost, D.Available) then D.Available
               else if Arrived(s.calls, s.syncs, id, driver, lost, D.OnTrip) then D.OnTrip
               else D.Reserved
  {
    MirrorIsPatchesApplied(steps, id, driver, AfterReservation(D.Available, reserved), lost);
  }

  /** While it is anything else the driver stays unreservable: dispatch's RESERVED PATCH is accepted only from AVAILABLE. */
  lemma ReservableIffAvailable(mirror: D.DriverStatus)
    ensures D.CanTransition(mirror, D.Reserved) <==> mirror == D.Available
  {
  }

  // ---------------------------------------------------------------- serial rides

  /** Every PATCH sent for the ride is one of a call that has committed, so none was rolled back. */
  ghost predicate AllBacked(s: State, id: string) {
    forall k :: 0 <= k < |s.syncs| && OnRide(s.calls, s.syncs[k], id) ==> CommittedBy(s.commits, s.syncs[k].pid)
  }

  /** No call on the ride is about to send its PATCH. */
  predicate NonePending(s: State, id: string) {
    forall pid :: pid in s.procs && RideOf(s.procs[pid].call.action) == id ==> !s.procs[pid].phase.Syncing?
  }

  /** What the sender of a PATCH has committed is the transition the PATCH reports. */
  lemma SenderCommit(s: State, k: nat, i: nat)
    requires OriginsOk(s) && SyncsOk(s) && k < |s.syncs| && i < |s.commits| && s.commits[i].pid == s.syncs[k].pid
    ensures s.syncs[k].pid < |s.calls| && MovesOn(s.commits[i], RideOf(s.calls[s.syncs[k].pid].action))
    ensures s.commits[i].work.to in {InProgress, Completed, Cancelled} && Expected(s.commits[i].work.to) == s.syncs[k].sync.status
  {
    assert FromCall(s, s.commits[i]) && SentOk(s, s.syncs[k]);
  }

  lemma SenderMoved(s: State, k: nat, id: string) returns (i: nat)
    requires OriginsOk(s) && SyncsOk(s) && k < |s.syncs| && OnRide(s.calls, s.syncs[k], id) && CommittedBy(s.commits, s.syncs[k].pid)
    ensures i < |s.commits| && s.commits[i].pid == s.syncs[k].pid && MovesOn(s.commits[i], id)
    ensures s.commits[i].work.to in {InProgress, Completed, Cancelled} && Expected(s.commits[i].work.to) == s.syncs[k].sync.status
  {
    i :| 0 <= i < |s.commits| && s.commits[i].pid == s.syncs[k].pid;
    SenderCommit(s, k, i);
  }

  /**
   In a serial run, an AVAILABLE PATCH whose sender has committed means the ride has ended, and such an
   ON_TRIP one that its trip has started.
   */
  lemma PatchFits(s: State, id: string, k: nat)
    requires Inv(s) && SyncsOk(s) && CommitsClimb(s, id) && HistoryOk(s)
    requires k < |s.syncs| && OnRide(s.calls, s.syncs[k], id) && CommittedBy(s.commits, s.syncs[k].pid)
    ensures id in s.db.rides
    ensures s.syncs[k].sync.status == D.Available ==> Terminal(s.db.rides[id].status)
    ensures s.syncs[k].sync.status == D.OnTrip ==> s.db.rides[id].status in {InProgress, Completed}
  {
    var i := SenderMoved(s, k, id);
    assert HasMoved(s.commits, id) && RideHistoryOk(s, id);
    assert MovesTo(s.commits[i].work, id, s.commits[i].work.to);
  }

  lemma NothingOwed(s: State, id: string, i: nat)
    requires ProcsOk(s) && OriginsOk(s) && NonePending(s, id) && i < |s.commits| && MovesOn(s.commits[i], id)
    requires Reported(s, s.commits[i]) && s.commits[i].work.to in {InProgress, Completed, Cancelled}
    ensures HasSent(s.syncs, s.commits[i].pid, Expected(s.commits[i].work.to))
  {
    assert FromCall(s, s.commits[i]);
    if s.commits[i].pid in s.procs {
      assert ProcOk(s, s.commits[i].pid, s.procs[s.commits[i].pid]);
    }
  }

  /** The transition the ride stands at has been reported to its driver. */
  lemma StandingReported(s: State, id: string, driver: string)
    requires OriginsOk(s) && ProcsOk(s) && CommitsClimb(s, id) && NamesItsDriver(s, id) && AllReported(s, id) && NonePending(s, id)
    requires Names(s, id, driver) && s.db.rides[id].status in {InProgress, Completed, Cancelled}
    ensures Arrived(s.calls, s.syncs, id, driver, {}, Expected(s.db.rides[id].status))
  {
    var status := s.db.rides[id].status;
    assert MovedTo(s.commits, id, status);
    var i :| 0 <= i < |s.commits| && MovesTo(s.commits[i].work, id, status);
    NothingOwed(s, id, i);
    SentIsArrived(s, id, driver, i, Expected(status));
  }

  lemma SentIsArrived(s: State, id: string, driver: string, i: nat, status: D.DriverStatus)
    requires OriginsOk(s) && NamesItsDriver(s, id) && Names(s, id, driver)
    requires i < |s.commits| && MovesOn(s.commits[i], id) && HasSent(s.syncs, s.commits[i].pid, status)
    ensures Arrived(s.calls, s.syncs, id, driver, {}, status)
  {
    assert FromCall(s, s.commits[i]);
    var k :| 0 <= k < |s.syncs| && s.syncs[k].pid == s.commits[i].pid && s.syncs[k].sync.status == status;
    assert OnRide(s.calls, s.syncs[k], id);
    assert Concerns(s.calls, s.syncs[k], id, driver);
  }

  /** Everything known of a state that a serial run has reached. */
  ghost predicate SerialOk(s: State, id: string) {
    Inv(s) && HistoryOk(s) && SyncsOk(s) && SentOnce(s) && PatchesOk(s, id)
  }

  lemma RunSerialOk(steps: seq<Step>, id: string)
    requires ExclusiveRun(steps, id)
    ensures SerialOk(Run(steps), id)
    ensures LosesNothing(steps, id) ==> AllReported(Run(steps), id)
  {
    RunInv(steps);
    RunHistory(steps);
    RunSyncsOk(steps);
    RunSentOnce(steps);
    RunPatchesOk(steps, id);
  }

  /** An AVAILABLE PATCH that arrived means the ride has ended, if none was rolled back. */
  lemma AvailableFits(s: State, id: string, driver: string, lost: set<nat>)
    requires SerialOk(s, id) && AllBacked(s, id) && id in s.db.rides
    ensures Arrived(s.calls, s.syncs, id, driver, lost, D.Available) ==> Terminal(s.db.rides[id].status)
  {
    forall k | 0 <= k < |s.syncs| && Concerns(s.calls, s.syncs[k], id, driver) && s.syncs[k].sync.status == D.Available
      ensures Terminal(s.db.rides[id].status)
    {
      PatchFits(s, id, k);
    }
  }

  /** An ON_TRIP PATCH that arrived means the trip has started, whatever was rolled back. */
  lemma OnTripFits(s: State, id: string, driver: string, lost: set<nat>)
    requires SerialOk(s, id) && id in s.db.rides
    ensures Arrived(s.calls, s.syncs, id, driver, lost, D.OnTrip) ==> s.db.rides[id].status in {InProgress, Completed}
  {
    forall k | 0 <= k < |s.syncs| && Concerns(s.calls, s.syncs[k], id, driver) && s.syncs[k].sync.status == D.OnTrip
      ensures s.db.rides[id].status in {InProgress, Completed}
    {
      StartIsHttp(s, k);
      PatchFits(s, id, k);
    }
  }

  lemma StartIsHttp(s: State, k: nat)
    requires SyncsOk(s) && k < |s.syncs| && s.syncs[k].sync.status == D.OnTrip
    ensures CommittedBy(s.commits, s.syncs[k].pid)
  {
    assert SentOk(s, s.syncs[k]);
  }

  lemma CoupledState(s: State, id: string, driver: string)
    requires SerialOk(s, id) && AllReported(s, id) && NonePending(s, id) && Names(s, id, driver)
    ensures var status := s.db.rides[id].status;
            var started := Arrived(s.calls, s.syncs, id, driver, {}, D.OnTrip);
            var freed := Arrived(s.calls, s.syncs, id, driver, {}, D.Available);
            AfterTrip(D.Reserved, started, freed) == Expected(status) <==> Terminal(status) || !freed
  {
    if s.db.rides[id].status in {InProgress, Completed, Cancelled} {
      StandingReported(s, id, driver);
    }
    OnTripFits(s, id, driver, {});
  }

  /**
   Mirror coupling, exactly: in a run whose handlers on the ride do not overlap between guard and
   write, and none of whose PATCHes for it is lost, the mirror of its driver, RESERVED to begin with,
   is RESERVED up to DRIVER_ARRIVED, ON_TRIP in IN_PROGRESS and AVAILABLE once the ride is COMPLETED
   or CANCELLED, whenever no call on the ride is about to send its PATCH, if and only if no PATCH has
   freed him before the ride's end. The calls may overlap otherwise, and their PATCHes overtake each
   other.
   */
  lemma {:induction false} MirrorFollowsRideIff(steps: seq<Step>, id: string, driver: string)
    requires ExclusiveRun(steps, id) && LosesNothing(steps, id)
    requires NonePending(Run(steps), id) && Names(Run(steps), id, driver)
    ensures var s := Run(steps);
            var status := s.db.rides[id].status;
            MirrorAfter(D.Reserved, s.calls, s.syncs, id, driver, {}) == Expected(status) <==>
            Terminal(status) || !Arrived(s.calls, s.syncs, id, driver, {}, D.Available)
  {
    var s := Run(steps);
    RunSerialOk(steps, id);
    CoupledState(s, id, driver);
    RunSendsTripPatches(steps);
    OrderDoesNotMatter(D.Reserved, s.calls, s.syncs, id, driver, {});
  }

  /** So the mirror follows the ride as long as no cancellation is rolled back after its PATCH. */
  lemma {:induction false} MirrorFollowsRide(steps: seq<Step>, id: string, driver: string)
    requires ExclusiveRun(steps, id) && LosesNothing(steps, id)
    requires AllBacked(Run(steps), id) && NonePending(Run(steps), id) && Names(Run(steps), id, driver)
    ensures var s := Run(steps);
            MirrorAfter(D.Reserved, s.calls, s.syncs, id, driver, {}) == Expected(s.db.rides[id].status)
  {
    RunSerialOk(steps, id);
    AvailableFits(Run(steps), id, driver, {});
    MirrorFollowsRideIff(steps, id, driver);
  }

  /** In such a run the freed driver's ride is over and a driver on a trip has one, whatever is lost. */
  lemma {:induction false} MirrorNeverAhead(steps: seq<Step>, id: string, driver: string, lost: set<nat>)
    requires ExclusiveRun(steps, id) && AllBacked(Run(steps), id) && Names(Run(steps), id, driver)
    ensures var s := Run(steps);
            var mirror := MirrorAfter(D.Reserved, s.calls, s.syncs, id, driver, lost);
            && mirror in {D.Reserved, D.OnTrip, D.Available}
            && (mirror == D.Available ==> Terminal(s.db.rides[id].status))
            && (mirror == D.OnTrip ==> s.db.rides[id].status in {InProgress, Completed})
  {
    var s := Run(steps);
    RunSerialOk(steps, id);
    AvailableFits(s, id, driver, lost);
    OnTripFits(s, id, driver, lost);
    RunSendsTripPatches(steps);
    OrderDoesNotMatter(D.Reserved, s.calls, s.syncs, id, driver, lost);
  }

  // ---------------------------------------------------------------- when a PATCH is legal

  /** With none lost, the mirror from RESERVED is in a status this PATCH may change. */
  predicate PatchLegal(s: State, id: string, driver: string, k: nat)
    requires k < |s.syncs|
  {
    D.CanTransition(MirrorAfter(D.Reserved, s.calls, s.syncs[..k], id, driver, {}), s.syncs[k].sync.status)
  }

  /** A PATCH of the ride to the driver, with this status, went out before number `k`. */
  ghost predicate SentBefore(s: State, id: string, driver: string, k: nat, status: D.DriverStatus)
    requires k < |s.syncs|
  {
    exists j :: 0 <= j < k && Concerns(s.calls, s.syncs[j], id, driver) && s.syncs[j].sync.status == status
  }

  /** In every run: a PATCH is legal exactly when none that frees the driver, and no second start, went before it. */
  lemma {:induction false} PatchLegalIff(steps: seq<Step>, id: string, driver: string, k: nat)
    requires k < |Run(steps).syncs|
    ensures var s := Run(steps);
            PatchLegal(s, id, driver, k) <==>
            && !SentBefore(s, id, driver, k, D.Available)
            && (s.syncs[k].sync.status == D.OnTrip ==> !SentBefore(s, id, driver, k, D.OnTrip))
  {
    var s := Run(steps);
    RunSendsTripPatches(steps);
    OrderDoesNotMatter(D.Reserved, s.calls, s.syncs[..k], id, driver, {});
    ArrivedIsSentBefore(s, id, driver, k, D.Available);
    ArrivedIsSentBefore(s, id, driver, k, D.OnTrip);
  }

  lemma ArrivedIsSentBefore(s: State, id: string, driver: string, k: nat, status: D.DriverStatus)
    requires k < |s.syncs|
    ensures Arrived(s.calls, s.syncs[..k], id, driver, {}, status) <==> SentBefore(s, id, driver, k, status)
  {
    if SentBefore(s, id, driver, k, status) {
      var j :| 0 <= j < k && Concerns(s.calls, s.syncs[j], id, driver) && s.syncs[j].sync.status == status;
      assert s.syncs[..k][j] == s.syncs[j];
    }
  }

  /** A call that committed on the ride after the sender of PATCH `k` had sent its own before it. */
  ghost predicate Overtaken(s: State, id: string, k: nat)
    requires k < |s.syncs|
  {
    exists j, a, b :: 0 <= j < k && CommittedAfter(s, id, k, j, a, b)
  }

  /** Commit `a` is of the sender of PATCH `k`, the later commit `b` of the sender of PATCH `j`, both on the ride. */
  predicate CommittedAfter(s: State, id: string, k: nat, j: nat, a: nat, b: nat)
    requires k < |s.syncs| && j < |s.syncs|
  {
    && a < b < |s.commits| && MovesOn(s.commits[a], id) && MovesOn(s.commits[b], id)
    && s.commits[a].pid == s.syncs[k].pid && s.commits[b].pid == s.syncs[j].pid
  }

  /** Of two transitions that are reported, the earlier one is the start of the trip and the later one its end. */
  lemma StartBeforeEnd(s: State, id: string, a: nat, b: nat)
    requires CommitsClimb(s, id) && id in s.db.rides && a < b < |s.commits|
    requires MovesOn(s.commits[a], id) && MovesOn(s.commits[b], id)
    requires s.commits[a].work.to in {InProgress, Completed, Cancelled} && s.commits[b].work.to in {InProgress, Completed, Cancelled}
    ensures s.commits[a].work.to == InProgress && Expected(s.commits[b].work.to) == D.Available
  {
  }

  lemma OvertakenIsIllegal(s: State, id: string, driver: string, k: nat, j: nat, a: nat, b: nat)
    requires OriginsOk(s) && SyncsOk(s) && CommitsClimb(s, id) && NamesItsDriver(s, id) && Names(s, id, driver)
    requires j < k < |s.syncs| && CommittedAfter(s, id, k, j, a, b)
    ensures SentBefore(s, id, driver, k, D.Available)
  {
    SenderCommit(s, k, a);
    SenderCommit(s, j, b);
    StartBeforeEnd(s, id, a, b);
    assert OnRide(s.calls, s.syncs[j], id);
    assert Concerns(s.calls, s.syncs[j], id, driver);
  }

  lemma LaterSenderOvertakes(s: State, id: string, k: nat, j: nat, a: nat, b: nat)
    requires CommitsClimb(s, id) && id in s.db.rides && j < k < |s.syncs| && s.syncs[j].pid != s.syncs[k].pid
    requires a < |s.commits| && MovesOn(s.commits[a], id) && s.commits[a].pid == s.syncs[k].pid
    requires b < |s.commits| && MovesOn(s.commits[b], id) && s.commits[b].pid == s.syncs[j].pid
    requires s.commits[a].work.to in {InProgress, Completed, Cancelled} && s.commits[b].work.to in {InProgress, Completed, Cancelled}
    requires Expected(s.commits[b].work.to) == D.Available || s.commits[a].work.to == s.commits[b].work.to == InProgress
    ensures Overtaken(s, id, k)
  {
    if b < a {
      StartBeforeEnd(s, id, b, a);
    }
    assert CommittedAfter(s, id, k, j, a, b);
  }

  lemma EarlierIsLater(s: State, id: string, k: nat, j: nat)
    requires OriginsOk(s) && SyncsOk(s) && SentOnce(s) && CommitsClimb(s, id) && id in s.db.rides && AllBacked(s, id)
    requires j < k < |s.syncs| && OnRide(s.calls, s.syncs[k], id) && OnRide(s.calls, s.syncs[j], id)
    requires s.syncs[j].sync.status == D.Available || s.syncs[k].sync.status == s.syncs[j].sync.status == D.OnTrip
    ensures Overtaken(s, id, k)
  {
    var a := SenderMoved(s, k, id);
    var b := SenderMoved(s, j, id);
    LaterSenderOvertakes(s, id, k, j, a, b);
  }

  /**
   In a serial run none of whose PATCHes was rolled back, a PATCH of the ride is legal exactly when no
   call that committed on the ride later has sent its own before it.
   */
  lemma {:induction false} SerialPatchLegalIff(steps: seq<Step>, id: string, driver: string, k: nat)
    requires ExclusiveRun(steps, id) && AllBacked(Run(steps), id) && Names(Run(steps), id, driver)
    requires k < |Run(steps).syncs| && OnRide(Run(steps).calls, Run(steps).syncs[k], id)
    ensures PatchLegal(Run(steps), id, driver, k) <==> !Overtaken(Run(steps), id, k)
  {
    var s := Run(steps);
    RunSerialOk(steps, id);
    PatchLegalIff(steps, id, driver, k);
    if Overtaken(s, id, k) {
      var j, a, b :| 0 <= j < k && CommittedAfter(s, id, k, j, a, b);
      OvertakenIsIllegal(s, id, driver, k, j, a, b);
    }
    forall j | 0 <= j < k && Concerns(s.calls, s.syncs[j], id, driver)
               && (s.syncs[j].sync.status == D.Available || s.syncs[k].sync.status == s.syncs[j].sync.status == D.OnTrip)
      ensures Overtaken(s, id, k)
    {
      EarlierIsLater(s, id, k, j);
    }
  }
}
