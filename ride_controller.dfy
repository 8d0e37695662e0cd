/** The ride REST handlers (Backend/controllers/rideController.js): request,
    accept or reject, the manual status update, cancel, start and complete.
    Each handler is a method on the stores and the socket server; each is
    specified by an effect function on the rides collection, and the
    lifecycle properties are lemmas about those functions. */
module RideController {
  import opened Basics
  import opened RideSchema
  import opened GeoIndex
  import opened Realtime
  import opened Stores

  /** `GEOSEARCH ... BYRADIUS 5000 m ASC COUNT 5`. */
  const SEARCH_RADIUS: nat := 5000
  const MAX_CANDIDATES: nat := 5

  /** The rooms this controller emits to. They use an underscore, unlike the
      rooms the socket server joins. */
  function DriverRoom(id: string): string
  {
    "driver_" + id
  }

  function RiderRoom(id: string): string
  {
    "rider_" + id
  }

  /** The body of `POST /ride/request`; an absent field is `None`. */
  datatype RequestBody = RequestBody(
    pickupLat: Option<int>,
    pickupLng: Option<int>,
    dropoffLat: Option<int>,
    dropoffLng: Option<int>)

  /** The guard of the request handler: all four coordinates truthy. */
  predicate CoordsGiven(b: RequestBody)
  {
    Truthy(b.pickupLat) && Truthy(b.pickupLng) && Truthy(b.dropoffLat) && Truthy(b.dropoffLng)
  }

  function PickupOf(b: RequestBody): Point
    requires CoordsGiven(b)
  {
    Point(b.pickupLat.value, b.pickupLng.value)
  }

  function DropoffOf(b: RequestBody): Point
    requires CoordsGiven(b)
  {
    Point(b.dropoffLat.value, b.dropoffLng.value)
  }

  /** What one handler call does: the rides collection afterwards, the
      emissions it appends to the socket log, and its reply. */
  datatype Effect = Effect(rides: map<RideId, Ride>, emitted: seq<Emission>, reply: Reply)

  /** The offer sent to one candidate driver. */
  function Offer(rideId: RideId, pickup: Point, dropoff: Point, rider: UserId, d: DriverId): Emission
  {
    Emission(ToRoom(DriverRoom(d)), NewRideRequest(rideId, pickup, dropoff, rider))
  }

  /** One offer per candidate, in candidate order. */
  function Offers(rideId: RideId, pickup: Point, dropoff: Point, rider: UserId, candidates: seq<DriverId>): (r: seq<Emission>)
    ensures |r| == |candidates|
    ensures forall i :: 0 <= i < |r| ==> r[i] == Offer(rideId, pickup, dropoff, rider, candidates[i])
  {
    seq(|candidates|, i requires 0 <= i < |candidates| => Offer(rideId, pickup, dropoff, rider, candidates[i]))
  }

  /** The ride the request handler creates: the nearest candidate is written
      as its driver although nobody has accepted yet. */
  function PlaceholderRide(rider: UserId, pickup: Point, dropoff: Point, nearest: DriverId): Ride
  {
    Ride(rider, Some(nearest), pickup, dropoff, REQUESTED, None, None)
  }

  /** `requestRide`, given the candidates the geo search returned. */
  function RequestEffect(rides: map<RideId, Ride>, rider: UserId, body: RequestBody, newId: RideId, candidates: seq<DriverId>): Effect
  {
    if !CoordsGiven(body) then
      Effect(rides, [], Fail(400, "Pickup & dropoff coordinates required"))
    else if !ValidLonLat(PickupOf(body)) then
      Effect(rides, [], Fail(500, SERVER_ERROR))
    else if candidates == [] then
      Effect(rides, [], Fail(404, "No nearby drivers available"))
    else
      var pickup, dropoff := PickupOf(body), DropoffOf(body);
      Effect(
        rides[newId := PlaceholderRide(rider, pickup, dropoff, candidates[0])],
        Offers(newId, pickup, dropoff, rider, candidates),
        Ok)
  }

  /** `driverRespondRide`. The accept branch is the compare-and-set. */
  function RespondEffect(rides: map<RideId, Ride>, rideId: RideId, caller: DriverId, response: string): Effect
  {
    if rideId !in rides then
      Effect(rides, [], Fail(404, "Ride not found"))
    else if response == "accept" then
      if rides[rideId].status == REQUESTED then
        var updated := rides[rideId].(status := ACCEPTED, driver := Some(caller));
        Effect(
          rides[rideId := updated],
          [Emission(ToRoom(RiderRoom(updated.rider)), RideAccepted(rideId, caller)),
           Emission(ToAll, RideRemoved(rideId))],
          Ok)
      else
        Effect(rides, [], Fail(400, "Ride already taken"))
    else if response == "reject" then
      Effect(rides, [Emission(ToRoom(RiderRoom(rides[rideId].rider)), RideRejected(rideId, caller))], Ok)
    else
      Effect(rides, [], Fail(400, "Invalid response"))
  }

  /** `updateRideStatus`: an unguarded, unvalidated write. */
  function UpdateStatusEffect(rides: map<RideId, Ride>, rideId: RideId, status: string): Effect
  {
    if rideId in rides then
      Effect(rides[rideId := rides[rideId].(status := status)], [], Ok)
    else
      Effect(rides, [], Ok)
  }

  /** `cancelRide`: refused from a terminal status, otherwise saved. */
  function CancelEffect(rides: map<RideId, Ride>, rideId: RideId): Effect
  {
    if rideId !in rides then
      Effect(rides, [], Fail(404, "Ride not found"))
    else if Terminal(rides[rideId].status) then
      Effect(rides, [], Fail(400, "Cannot cancel this ride"))
    else
      var cancelled := rides[rideId].(status := CANCELLED);
      if Valid(cancelled) then
        Effect(
          rides[rideId := cancelled],
          [Emission(ToRoom(DriverRoom(Render(cancelled.driver))), RideCancelled(rideId)),
           Emission(ToAll, RideRemoved(rideId))],
          Ok)
      else
        Effect(rides, [], Fail(500, SERVER_ERROR))
  }

  /** `startRide`: only from `accepted`; the `onTrip` document then goes to
      `save`, whose validation decides. */
  function StartEffect(rides: map<RideId, Ride>, rideId: RideId): Effect
  {
    if rideId !in rides then
      Effect(rides, [], Fail(404, "Ride not found"))
    else if rides[rideId].status != ACCEPTED then
      Effect(rides, [], Fail(400, "Ride cannot be started"))
    else
      var started := rides[rideId].(status := ON_TRIP);
      if Valid(started) then
        Effect(rides[rideId := started], [Emission(ToRoom(RiderRoom(started.rider)), RideStarted(rideId))], Ok)
      else
        Effect(rides, [], Fail(500, SERVER_ERROR))
  }

  /** `completeRide`: only from `onTrip`. */
  function CompleteEffect(rides: map<RideId, Ride>, rideId: RideId): Effect
  {
    if rideId !in rides then
      Effect(rides, [], Fail(404, "Ride not found"))
    else if rides[rideId].status != ON_TRIP then
      Effect(rides, [], Fail(400, "Ride cannot be completed"))
    else
      var completed := rides[rideId].(status := COMPLETED);
      if Valid(completed) then
        Effect(rides[rideId := completed], [Emission(ToRoom(RiderRoom(completed.rider)), RideCompleted(rideId))], Ok)
      else
        Effect(rides, [], Fail(500, SERVER_ERROR))
  }

  // ---------------------------------------------------------------------
  // The handlers
  // ---------------------------------------------------------------------

  method RequestRide(db: Db, io: Io, rider: UserId, body: RequestBody, newId: RideId)
      returns (reply: Reply, candidates: seq<DriverId>)
    requires newId !in db.rides
    modifies db`rides, io`log
    ensures CoordsGiven(body) && ValidLonLat(PickupOf(body)) ==>
      IsNearestResult(db.geo, PickupOf(body), SEARCH_RADIUS, MAX_CANDIDATES, db.dist, candidates)
    ensures !(CoordsGiven(body) && ValidLonLat(PickupOf(body))) ==> candidates == []
    ensures var e := RequestEffect(old(db.rides), rider, body, newId, candidates);
      db.rides == e.rides && io.log == old(io.log) + e.emitted && reply == e.reply
  {
    candidates := [];
    if !CoordsGiven(body) {
      reply := Fail(400, "Pickup & dropoff coordinates required");
      return;
    }
    var pickup, dropoff := PickupOf(body), DropoffOf(body);
    if !ValidLonLat(pickup) {
      reply := Fail(500, SERVER_ERROR);
      return;
    }
    candidates := SearchNearest(db.geo, pickup, SEARCH_RADIUS, MAX_CANDIDATES, db.dist);
    if |candidates| == 0 {
      reply := Fail(404, "No nearby drivers available");
      return;
    }
    var nearest := candidates[0];
    var created := Create(RideInput(Some(rider), Some(nearest), body.pickupLat, body.pickupLng,
                                    body.dropoffLat, body.dropoffLng, Some(REQUESTED), None));
    assert created.value == PlaceholderRide(rider, pickup, dropoff, nearest);
    db.InsertRide(newId, created.value);
    NotifyCandidates(io, newId, pickup, dropoff, rider, candidates);
    reply := Ok;
  }

  /** The `forEach` over the candidates: one `new-ride-request` per driver. */
  method NotifyCandidates(io: Io, rideId: RideId, pickup: Point, dropoff: Point, rider: UserId, candidates: seq<DriverId>)
    modifies io`log
    ensures io.log == old(io.log) + Offers(rideId, pickup, dropoff, rider, candidates)
  {
    var i := 0;
    while i < |candidates|
      invariant 0 <= i <= |candidates|
      invariant io.log == old(io.log) + Offers(rideId, pickup, dropoff, rider, candidates[..i])
    {
      assert Offers(rideId, pickup, dropoff, rider, candidates[..i + 1])
        == Offers(rideId, pickup, dropoff, rider, candidates[..i]) + [Offer(rideId, pickup, dropoff, rider, candidates[i])];
      io.Emit(ToRoom(DriverRoom(candidates[i])), NewRideRequest(rideId, pickup, dropoff, rider));
      i := i + 1;
    }
    assert candidates[..i] == candidates;
  }

  method DriverRespondRide(db: Db, io: Io, caller: DriverId, rideId: RideId, response: string) returns (reply: Reply)
    modifies db`rides, io`log
    ensures var e := RespondEffect(old(db.rides), rideId, caller, response);
      db.rides == e.rides && io.log == old(io.log) + e.emitted && reply == e.reply
  {
    if rideId !in db.rides {
      reply := Fail(404, "Ride not found");
      return;
    }
    var ride := db.rides[rideId];
    if response == "accept" {
      var updated := db.AcceptIfRequested(rideId, caller);
      if updated.None? {
        reply := Fail(400, "Ride already taken");
        return;
      }
      io.Emit(ToRoom(RiderRoom(updated.value.rider)), RideAccepted(rideId, caller));
      io.Emit(ToAll, RideRemoved(rideId));
      reply := Ok;
      return;
    }
    if response == "reject" {
      io.Emit(ToRoom(RiderRoom(ride.rider)), RideRejected(rideId, caller));
      reply := Ok;
      return;
    }
    reply := Fail(400, "Invalid response");
  }

  method UpdateRideStatus(db: Db, rideId: RideId, status: string) returns (reply: Reply)
    modifies db`rides
    ensures var e := UpdateStatusEffect(old(db.rides), rideId, status);
      db.rides == e.rides && reply == e.reply
  {
    var _ := db.SetRideStatus(rideId, status);
    reply := Ok;
  }

  method CancelRide(db: Db, io: Io, rideId: RideId) returns (reply: Reply)
    modifies db`rides, io`log
    ensures var e := CancelEffect(old(db.rides), rideId);
      db.rides == e.rides && io.log == old(io.log) + e.emitted && reply == e.reply
  {
    if rideId !in db.rides {
      reply := Fail(404, "Ride not found");
      return;
    }
    var ride := db.rides[rideId];
    if ride.status == COMPLETED || ride.status == CANCELLED {
      reply := Fail(400, "Cannot cancel this ride");
      return;
    }
    ride := ride.(status := CANCELLED);
    var saved := db.SaveRide(rideId, ride);
    assert saved;
    io.Emit(ToRoom(DriverRoom(Render(ride.driver))), RideCancelled(rideId));
    io.Emit(ToAll, RideRemoved(rideId));
    reply := Ok;
  }

  method StartRide(db: Db, io: Io, rideId: RideId) returns (reply: Reply)
    modifies db`rides, io`log
    ensures var e := StartEffect(old(db.rides), rideId);
      db.rides == e.rides && io.log == old(io.log) + e.emitted && reply == e.reply
  {
    if rideId !in db.rides {
      reply := Fail(404, "Ride not found");
      return;
    }
    var ride := db.rides[rideId];
    if ride.status != ACCEPTED {
      reply := Fail(400, "Ride cannot be started");
      return;
    }
    ride := ride.(status := ON_TRIP);
    var saved := db.SaveRide(rideId, ride);
    // validation refuses `onTrip`; the rejection lands in the catch block
    assert !saved;
    reply := Fail(500, SERVER_ERROR);
  }

  method CompleteRide(db: Db, io: Io, rideId: RideId) returns (reply: Reply)
    modifies db`rides, io`log
    ensures var e := CompleteEffect(old(db.rides), rideId);
      db.rides == e.rides && io.log == old(io.log) + e.emitted && reply == e.reply
  {
    if rideId !in db.rides {
      reply := Fail(404, "Ride not found");
      return;
    }
    var ride := db.rides[rideId];
    if ride.status != ON_TRIP {
      reply := Fail(400, "Ride cannot be completed");
      return;
    }
    ride := ride.(status := COMPLETED);
    var saved := db.SaveRide(rideId, ride);
    assert saved;
    io.Emit(ToRoom(RiderRoom(ride.rider)), RideCompleted(rideId));
    reply := Ok;
  }
}
