/** The ride status table of ride-state-machine.ts, and what a legal history looks like. */
module RideStateMachine {

  datatype RideStatus =
    | Requested
    | Matching
    | Matched
    | DriverArriving
    | DriverArrived
    | InProgress
    | Completed
    | Cancelled

  function AllowedTransitions(from: RideStatus): set<RideStatus> {
    match from
    case Requested => {Matching}
    case Matching => {Matched, Cancelled}
    case Matched => {DriverArriving, Cancelled}
    case DriverArriving => {DriverArrived, Cancelled}
    case DriverArrived => {InProgress, Cancelled}
    case InProgress => {Completed}
    case Completed => {}
    case Cancelled => {}
  }

  predicate CanTransition(from: RideStatus, to: RideStatus) {
    to in AllowedTransitions(from)
  }

  /** The table read by targets: every status but CANCELLED is entered from exactly one, and none from a finished ride. */
  lemma SourcesOf(from: RideStatus, to: RideStatus)
    ensures CanTransition(from, to) <==>
            match to
            case Requested => false
            case Matching => from == Requested
            case Matched => from == Matching
            case DriverArriving => from == Matched
            case DriverArrived => from == DriverArriving
            case InProgress => from == DriverArrived
            case Completed => from == InProgress
            case Cancelled => from == Matching || from == Matched || from == DriverArriving || from == DriverArrived
  {
  }

  predicate Terminal(status: RideStatus) {
    status == Completed || status == Cancelled
  }

  /** How far along its life a status is; every legal transition climbs. */
  function Rank(status: RideStatus): nat {
    match status
    case Requested => 0
    case Matching => 1
    case Matched => 2
    case DriverArriving => 3
    case DriverArrived => 4
    case InProgress => 5
    case Completed => 6
    case Cancelled => 6
  }

  /** A walk through the table that starts where every ride starts. */
  ghost predicate IsPath(log: seq<RideStatus>) {
    && |log| > 0
    && log[0] == Requested
    && forall i :: 0 < i < |log| ==> CanTransition(log[i - 1], log[i])
  }

  lemma {:induction false} PathClimbs(log: seq<RideStatus>, i: nat, j: nat)
    requires IsPath(log)
    requires i <= j < |log|
    ensures Rank(log[i]) + (j - i) <= Rank(log[j])
    decreases j
  {
    if i < j {
      PathClimbs(log, i, j - 1);
      assert CanTransition(log[j - 1], log[j]);
    }
  }

  /** A legal history has at most seven entries, repeats none, and stops at its first terminal one. */
  lemma {:induction false} PathFacts(log: seq<RideStatus>)
    requires IsPath(log)
    ensures |log| <= 7
    ensures forall i, j :: 0 <= i < j < |log| ==> log[i] != log[j]
    ensures forall i :: 0 <= i < |log| - 1 ==> !Terminal(log[i])
  {
    PathClimbs(log, 0, |log| - 1);
    forall i, j | 0 <= i < j < |log|
      ensures log[i] != log[j]
    {
      PathClimbs(log, i, j);
    }
    forall i | 0 <= i < |log| - 1
      ensures !Terminal(log[i])
    {
      assert CanTransition(log[i + 1 - 1], log[i + 1]);
    }
  }

  /** A legal history that has reached pickup-code time or later went through a match. */
  lemma {:induction false} PathPassesMatch(log: seq<RideStatus>)
    requires IsPath(log)
    requires log[|log| - 1] in {Matched, DriverArriving, DriverArrived, InProgress, Completed}
    ensures exists i :: 0 <= i < |log| && log[i] == Matched
    decreases |log|
  {
    var last := |log| - 1;
    if log[last] != Matched {
      assert CanTransition(log[last - 1], log[last]);
      PathPassesMatch(log[..last]);
      var i :| 0 <= i < last && log[..last][i] == Matched;
      assert log[i] == Matched;
    }
  }
}
