/** The reservation keys of driver-reservation-store.ts: SET key value EX ttl NX on shared Redis. */
module Reservations {
  import opened Options

  datatype Key = Key(ride: string, expiresAt: int)

  /** A key that has run out is as good as absent, whether or not Redis has removed it yet. */
  predicate Free(keys: map<string, Key>, driver: string, now: int) {
    driver !in keys || keys[driver].expiresAt <= now
  }

  class DriverReservationStore {
    var keys: map<string, Key>

    constructor ()
      ensures keys == map[]
    {
      keys := map[];
    }

    /** Other hosts, and expiry, leave the shared keys in this state. */
    method OthersWrite(keys: map<string, Key>)
      modifies this
      ensures this.keys == keys
    {
      this.keys := keys;
    }

    /** One atomic command: it writes only if the driver's key is free, and says whether it did. */
    method TryReserve(driver: string, ride: string, ttl: nat, now: int) returns (won: bool)
      modifies this
      ensures won <==> Free(old(keys), driver, now)
      ensures keys == if won then old(keys)[driver := Key(ride, now + ttl)] else old(keys)
    {
      if driver in keys && keys[driver].expiresAt > now {
        return false;
      }
      keys := keys[driver := Key(ride, now + ttl)];
      return true;
    }

    method GetReservation(driver: string, now: int) returns (ride: Option<string>)
      ensures ride == if Free(keys, driver, now) then None else Some(keys[driver].ride)
    {
      if driver in keys && keys[driver].expiresAt > now {
        return Some(keys[driver].ride);
      }
      return None;
    }

    method Release(driver: string)
      modifies this
      ensures keys == old(keys) - {driver}
    {
      keys := keys - {driver};
    }
  }
}
