/** The Ride document (Backend/models/Ride.js): its fields, the status enum
    and its default, and the validation that `create` and `save` run. */
module RideSchema {
  import opened Basics

  const REQUESTED := "requested"
  const ACCEPTED := "accepted"
  const IN_PROGRESS := "in-progress"
  const COMPLETED := "completed"
  const CANCELLED := "cancelled"
  /** The status the ride controller writes when a trip starts. The enum does
      not list it. */
  const ON_TRIP := "onTrip"

  /** The values the schema's enum allows for `status`, in declaration order. */
  const STATUS_ENUM: seq<string> := [REQUESTED, ACCEPTED, IN_PROGRESS, COMPLETED, CANCELLED]

  /** A stored ride. `rider`, `pickup` and `dropoff` are required, so they are
      always present; `driver`, `fare` and `driverLocation` are optional.
      `status` is a plain string because an unvalidated update can store any. */
  datatype Ride = Ride(
    rider: UserId,
    driver: Option<DriverId>,
    pickup: Point,
    dropoff: Point,
    status: string,
    fare: Option<int>,
    driverLocation: Option<Point>)

  /** The fields handed to `Ride.create`; an absent field is `None`. */
  datatype RideInput = RideInput(
    rider: Option<UserId>,
    driver: Option<DriverId>,
    pickupLat: Option<int>,
    pickupLng: Option<int>,
    dropoffLat: Option<int>,
    dropoffLng: Option<int>,
    status: Option<string>,
    fare: Option<int>)

  predicate StatusAllowed(s: string)
  {
    s in STATUS_ENUM
  }

  /** A status a ride cannot be cancelled from. */
  predicate Terminal(s: string)
  {
    s == COMPLETED || s == CANCELLED
  }

  /** Document validation as `save` runs it. Every other path of `Ride` is
      present by construction, so only the enum can fail. */
  predicate Valid(r: Ride)
  {
    StatusAllowed(r.status)
  }

  /** All required paths are given (a `Number` path that is required accepts
      0, unlike the controllers' truthiness checks). */
  predicate HasRequired(input: RideInput)
  {
    && input.rider.Some?
    && input.pickupLat.Some? && input.pickupLng.Some?
    && input.dropoffLat.Some? && input.dropoffLng.Some?
  }

  /** `Ride.create`: apply the `status` default, then validate. */
  function Create(input: RideInput): (r: Result<Ride>)
    ensures r.Success? <==> HasRequired(input) && (input.status.None? || StatusAllowed(input.status.value))
    ensures r.Success? ==> Valid(r.value) && r.value.driverLocation.None?
    ensures r.Success? ==> r.value.rider == input.rider.value && r.value.driver == input.driver
    ensures r.Success? ==> r.value.pickup == Point(input.pickupLat.value, input.pickupLng.value)
    ensures r.Success? ==> r.value.dropoff == Point(input.dropoffLat.value, input.dropoffLng.value)
    ensures r.Success? && input.status.None? ==> r.value.status == REQUESTED
    ensures r.Success? && input.status.Some? ==> r.value.status == input.status.value
    ensures r.Success? ==> r.value.fare == input.fare
  {
    if !HasRequired(input) then
      Failure("Ride validation failed: required path missing")
    else
      var status := if input.status.Some? then input.status.value else REQUESTED;
      if !StatusAllowed(status) then
        Failure("Ride validation failed: status is not a valid enum value")
      else
        Success(Ride(
          input.rider.value,
          input.driver,
          Point(input.pickupLat.value, input.pickupLng.value),
          Point(input.dropoffLat.value, input.dropoffLng.value),
          status,
          input.fare,
          None))
  }

  /** The enum and the controller disagree: `onTrip` is refused by validation,
      and the enum's `in-progress` is never written by any handler. */
  lemma OnTripOutsideEnum()
    ensures !StatusAllowed(ON_TRIP)
    ensures StatusAllowed(IN_PROGRESS)
    ensures forall s :: Terminal(s) ==> StatusAllowed(s)
  {
  }
}
