/** How the pieces fit together: where the REST handlers' events can be
    delivered, given the rooms the socket server lets clients join, and how
    the two driver searches disagree about an offline driver. */
module Dispatch {
  import opened Basics
  import opened RideSchema
  import opened DriverSchema
  import opened GeoIndex
  import opened Realtime
  import opened RideController
  import opened RideLifecycle
  import opened DriverController
  import opened Server

  /** The REST handlers' rooms (`driver_<id>`, `rider_<id>`) are never
      joinable: an underscore where the join events put a hyphen. */
  lemma ControllerRoomsUnjoinable(id: string)
    ensures !JoinableRoom(DriverRoom(id))
    ensures !JoinableRoom(RiderRoom(id))
  {
    assert DriverRoom(id)[..7][6] == '_';
    assert DriverRoom(id)[..6][0] == 'd';
    assert RiderRoom(id)[..6][5] == '_';
    assert |RiderRoom(id)| >= 7 ==> RiderRoom(id)[..7][0] == 'r';
  }

  /** A room nobody can join has no recipients. */
  lemma UnjoinableReachesNobody(rooms: map<ConnId, set<string>>, room: string)
    requires AllJoinable(rooms) && !JoinableRoom(room)
    ensures Recipients(rooms, ToRoom(room)) == {}
  {
    forall c | c in rooms
      ensures room !in rooms[c]
    {
    }
  }

  /** An emission is delivered to someone only when it is global. */
  predicate OnlyGlobalDelivered(rooms: map<ConnId, set<string>>, emitted: seq<Emission>)
  {
    forall i :: 0 <= i < |emitted| ==> emitted[i].target.ToAll? || Recipients(rooms, emitted[i].target) == {}
  }

  /** Of everything the ride handlers emit, only `ride-removed` reaches a
      client: `ride-accepted`, `ride-rejected`, `ride-cancelled` and
      `ride-completed` go to rooms no client is in. */
  lemma RideEventsUndelivered(rooms: map<ConnId, set<string>>, rides: map<RideId, Ride>, op: Op)
    requires AllJoinable(rooms)
    ensures OnlyGlobalDelivered(rooms, Apply(rides, op).emitted)
    ensures forall i :: 0 <= i < |Apply(rides, op).emitted| && Apply(rides, op).emitted[i].target.ToAll? ==>
      EventName(Apply(rides, op).emitted[i].event) == "ride-removed"
  {
    var e := Apply(rides, op);
    if op.rideId in rides {
      var r := rides[op.rideId];
      ControllerRoomsUnjoinable(r.rider);
      UnjoinableReachesNobody(rooms, RiderRoom(r.rider));
      ControllerRoomsUnjoinable(Render(r.driver));
      UnjoinableReachesNobody(rooms, DriverRoom(Render(r.driver)));
    }
  }

  /** No driver receives a ride offer from `requestRide`. */
  lemma OffersUndelivered(rooms: map<ConnId, set<string>>, rides: map<RideId, Ride>, rider: UserId, body: RequestBody, newId: RideId, candidates: seq<DriverId>)
    requires AllJoinable(rooms)
    ensures forall i :: 0 <= i < |RequestEffect(rides, rider, body, newId, candidates).emitted| ==>
      Recipients(rooms, RequestEffect(rides, rider, body, newId, candidates).emitted[i].target) == {}
  {
    var e := RequestEffect(rides, rider, body, newId, candidates);
    forall i | 0 <= i < |e.emitted|
      ensures Recipients(rooms, e.emitted[i].target) == {}
    {
      ControllerRoomsUnjoinable(candidates[i]);
      UnjoinableReachesNobody(rooms, DriverRoom(candidates[i]));
    }
  }

  /** No rider receives a live location. */
  lemma LiveLocationUndelivered(rooms: map<ConnId, set<string>>, geo: map<DriverId, Point>, redisReady: bool, driverId: DriverId, rideId: Option<string>, lat: Option<int>, lng: Option<int>)
    requires AllJoinable(rooms)
    ensures forall i :: 0 <= i < |LocationUpdateEffect(geo, redisReady, driverId, rideId, lat, lng).emitted| ==>
      Recipients(rooms, LocationUpdateEffect(geo, redisReady, driverId, rideId, lat, lng).emitted[i].target) == {}
  {
    ControllerRoomsUnjoinable(Render(rideId));
    UnjoinableReachesNobody(rooms, RiderRoom(Render(rideId)));
  }

  // ---------------------------------------------------------------------
  // The REST handlers as mounted
  // ---------------------------------------------------------------------

  /** What a ride handler does as the application wires it. The routers are
      mounted before the middleware that attaches the socket server to the
      request, so a handler that emits throws at its first emit. Every
      handler writes before it emits, so its writes stand, nothing is
      emitted, and the catch answers 500. A handler that emits nothing is
      unaffected. */
  function Unwired(e: Effect): Effect
  {
    if e.emitted == [] then e else Effect(e.rides, [], Fail(500, SERVER_ERROR))
  }

  /** As wired, every call on an existing ride keeps its store writes and
      emits nothing, and only the unguarded status update answers success:
      a winning accept binds its caller and yet answers 500, and a reject,
      a cancel and a complete answer 500 too. */
  lemma UnwiredRideCalls(rides: map<RideId, Ride>, op: Op)
    ensures var w := Apply(rides, op);
      var u := Unwired(w);
      && u.rides == w.rides && u.emitted == []
      && (u.reply == Ok <==> op.UpdateStatus?)
      && (!op.UpdateStatus? && w.reply == Ok ==> u.reply == Fail(500, SERVER_ERROR))
      && (op.Respond? && op.response == "accept" && op.rideId in rides && rides[op.rideId].status == REQUESTED ==>
            && u.rides == rides[op.rideId := rides[op.rideId].(status := ACCEPTED, driver := Some(op.caller))]
            && u.reply == Fail(500, SERVER_ERROR))
  {
  }

  /** As wired, a request that finds a driver still creates its ride, offers
      it to nobody and answers 500; its refusals are unchanged. */
  lemma UnwiredRequest(rides: map<RideId, Ride>, rider: UserId, body: RequestBody, newId: RideId, candidates: seq<DriverId>)
    ensures var w := RequestEffect(rides, rider, body, newId, candidates);
      var u := Unwired(w);
      && u.rides == w.rides && u.emitted == []
      && u.reply != Ok
      && (w.reply == Ok ==>
            && u.reply == Fail(500, SERVER_ERROR)
            && newId in u.rides && u.rides[newId].status == REQUESTED && u.rides[newId].driver == Some(candidates[0]))
      && (w.reply != Ok ==> u == w)
  {
  }

  /** A driver goes offline, then reports a location. */
  function OfflineThenReport(drivers: map<DriverId, Driver>, geo: map<DriverId, Point>, driverId: DriverId, lat: Option<int>, lng: Option<int>): DriverEffect
  {
    var t := ToggleEffect(drivers, geo, driverId, Some(false));
    LocationEffect(t.drivers, t.geo, driverId, lat, lng)
  }

  /** The request search ignores availability while the rider-side listing
      honours it: a driver who went offline and then reported a location is
      back in the index, is left out of every nearby listing, and yet, alone
      near a pickup, is written as the new ride's driver and sent the offer. */
  lemma OfflineDriverStillOffered(
    drivers: map<DriverId, Driver>, geo: map<DriverId, Point>, dist: Metric, driverId: DriverId,
    lat: Option<int>, lng: Option<int>,
    rides: map<RideId, Ride>, rider: UserId, body: RequestBody, newId: RideId, candidates: seq<DriverId>)
    requires driverId in drivers
    requires Truthy(lat) && Truthy(lng) && ValidLonLat(Point(lat.value, lng.value))
    requires CoordsGiven(body) && ValidLonLat(PickupOf(body)) && newId !in rides
    requires dist(Point(lat.value, lng.value), PickupOf(body)) <= SEARCH_RADIUS
    requires forall e :: InRadius(OfflineThenReport(drivers, geo, driverId, lat, lng).geo, PickupOf(body), SEARCH_RADIUS, dist, e) ==> e == driverId
    requires IsNearestResult(OfflineThenReport(drivers, geo, driverId, lat, lng).geo, PickupOf(body), SEARCH_RADIUS, MAX_CANDIDATES, dist, candidates)
    ensures var after := OfflineThenReport(drivers, geo, driverId, lat, lng);
      && after.reply == Ok
      && driverId in after.drivers && !after.drivers[driverId].isAvailable
      && driverId in after.geo
      && (forall result :: IsNearbyResult(after.drivers, after.geo, PickupOf(body), SEARCH_RADIUS, dist, result) ==> driverId !in NearbyIds(result))
    ensures var req := RequestEffect(rides, rider, body, newId, candidates);
      && req.reply == Ok
      && req.rides[newId].driver == Some(driverId)
      && Offer(newId, PickupOf(body), DropoffOf(body), rider, driverId) in req.emitted
  {
    var after := OfflineThenReport(drivers, geo, driverId, lat, lng);
    forall result | IsNearbyResult(after.drivers, after.geo, PickupOf(body), SEARCH_RADIUS, dist, result)
      ensures driverId !in NearbyIds(result)
    {
      assert !after.drivers[driverId].isAvailable;
      assert forall k :: 0 <= k < |result| ==> NearbyIds(result)[k] != driverId;
    }
    LoneMemberIsFound(after.geo, PickupOf(body), SEARCH_RADIUS, MAX_CANDIDATES, dist, driverId, candidates);
    var req := RequestEffect(rides, rider, body, newId, candidates);
    assert req.emitted[0] == Offer(newId, PickupOf(body), DropoffOf(body), rider, driverId);
  }
}
