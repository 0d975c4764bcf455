/** The driver status table of driver-state-machine.ts. */
module DriverStateMachine {

  datatype DriverStatus = Offline | Available | Reserved | OnTrip | Suspended

  function AllowedTransitions(from: DriverStatus): set<DriverStatus> {
    match from
    case Offline => {Available, Suspended}
    case Available => {Offline, Reserved, Suspended}
    case Reserved => {Available, OnTrip}
    case OnTrip => {Available}
    case Suspended => {Offline}
  }

  predicate CanTransition(from: DriverStatus, to: DriverStatus) {
    to in AllowedTransitions(from)
  }

  /**
   The table read by targets: a driver is reserved only when AVAILABLE and goes on a trip only when
   RESERVED, while neither can be suspended or go offline.
   */
  lemma SourcesOf(from: DriverStatus, to: DriverStatus)
    ensures CanTransition(from, to) <==>
            match to
            case Offline => from == Available || from == Suspended
            case Available => from == Offline || from == Reserved || from == OnTrip
            case Reserved => from == Available
            case OnTrip => from == Reserved
            case Suspended => from == Offline || from == Available
  {
  }
}
