/** The event vocabulary the services share, after the event-schema library. */
module EventSchema {
  import opened Options

  datatype Reason = RiderCancelled | DriverCancelled | NoDriversAvailable | RiderNoShow | SystemCancelled

  /** The `reason` field of a cancellation: absent, present but falsy, or a reason. */
  datatype ReasonField = Undefined | Falsy | Given(reason: Reason)

  datatype GeoPoint = GeoPoint(lat: real, lng: real)

  /** `km` stands for the rounded great-circle distance between the two points. */
  datatype Route = Route(pickup: GeoPoint, destination: GeoPoint, km: real)

  /** JSON payload fields as the type guards see them: None is absent or of another type. */
  datatype Payload = Payload(
    rideId: Option<string>,
    riderId: Option<string>,
    route: Option<Route>,
    driverId: Option<string>,
    reason: ReasonField
  )

  datatype Envelope = Envelope(eventId: string, eventType: string, payload: Payload)

  /** What becomes of a record sent to Kafka; one whose acknowledgement is lost is on the topic. */
  datatype SendReply = Acked | AckLost | NotSent
}
