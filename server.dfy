/** The socket.io event handlers of Backend/server.js: joining rooms, the
    driver's live location, the ride-request relay and the status relay. */
module Server {
  import opened Basics
  import opened GeoIndex
  import opened Realtime
  import opened Stores
  import opened RideController

  /** The common room of `join-driver-room`. */
  const DRIVER_ROOM := "driver-room"
  /** `GEORADIUS drivers lng lat 5000 m`. */
  const RELAY_RADIUS: nat := 5000

  /** The rooms the join events put a socket in. They use a hyphen. */
  function DriverJoinRoom(id: string): string
  {
    "driver-" + id
  }

  function RiderJoinRoom(id: string): string
  {
    "rider-" + id
  }

  /** A room some join event can produce. */
  predicate JoinableRoom(room: string)
  {
    || (|room| >= 7 && room[..7] == "driver-")
    || (|room| >= 6 && room[..6] == "rider-")
  }

  /** Every socket is only in rooms the join events produce. */
  predicate AllJoinable(rooms: map<ConnId, set<string>>)
  {
    forall c, r :: c in rooms && r in rooms[c] ==> JoinableRoom(r)
  }

  /** The join events produce joinable rooms; the common driver room is the
      personal room of a driver whose id is `room`. */
  lemma JoinRoomsJoinable(id: string)
    ensures JoinableRoom(DriverJoinRoom(id)) && JoinableRoom(RiderJoinRoom(id))
    ensures JoinableRoom(DRIVER_ROOM) && DRIVER_ROOM == DriverJoinRoom("room")
  {
    assert DriverJoinRoom(id)[..7] == "driver-";
    assert RiderJoinRoom(id)[..6] == "rider-";
  }

  method Connection(io: Io, conn: ConnId)
    requires conn !in io.rooms
    modifies io`rooms
    ensures io.rooms == old(io.rooms)[conn := {}]
    ensures AllJoinable(old(io.rooms)) ==> AllJoinable(io.rooms)
  {
    io.Connect(conn);
  }

  /** `join-driver`. */
  method JoinDriver(io: Io, conn: ConnId, driverId: string)
    requires conn in io.rooms
    modifies io`rooms
    ensures io.rooms == old(io.rooms)[conn := old(io.rooms)[conn] + {DriverJoinRoom(driverId)}]
    ensures AllJoinable(old(io.rooms)) ==> AllJoinable(io.rooms)
  {
    JoinRoomsJoinable(driverId);
    io.Join(conn, DriverJoinRoom(driverId));
  }

  /** `join-driver-room`. */
  method JoinDriverRoom(io: Io, conn: ConnId)
    requires conn in io.rooms
    modifies io`rooms
    ensures io.rooms == old(io.rooms)[conn := old(io.rooms)[conn] + {DRIVER_ROOM}]
    ensures AllJoinable(old(io.rooms)) ==> AllJoinable(io.rooms)
  {
    JoinRoomsJoinable("room");
    io.Join(conn, DRIVER_ROOM);
  }

  /** `join-rider`. */
  method JoinRider(io: Io, conn: ConnId, riderId: string)
    requires conn in io.rooms
    modifies io`rooms
    ensures io.rooms == old(io.rooms)[conn := old(io.rooms)[conn] + {RiderJoinRoom(riderId)}]
    ensures AllJoinable(old(io.rooms)) ==> AllJoinable(io.rooms)
  {
    JoinRoomsJoinable(riderId);
    io.Join(conn, RiderJoinRoom(riderId));
  }

  method Disconnect(io: Io, conn: ConnId)
    modifies io`rooms
    ensures io.rooms == old(io.rooms) - {conn}
    ensures AllJoinable(old(io.rooms)) ==> AllJoinable(io.rooms)
  {
    io.Disconnect(conn);
  }

  // ---------------------------------------------------------------------
  // driver-location-update
  // ---------------------------------------------------------------------

  /** How an async listener ends: normally, by its early `return`, or with a
      rejected promise carrying the named error. */
  datatype Exit = Completed | ReturnedEarly | Threw(error: string)

  /** JavaScript truthiness of a string field: absent and empty are falsy. */
  predicate Present(v: Option<string>)
  {
    v.Some? && v.value != ""
  }

  datatype LiveEffect = LiveEffect(geo: map<DriverId, Point>, emitted: seq<Emission>, exit: Exit)

  /** The listener in order: a truthy `rideId` reaches `Ride`, which this
      file never imports, and throws before anything is written; without a
      Redis client it returns; a missing coordinate fails on `toString`
      (unlike the REST handler, 0 is accepted); Redis refuses an
      out-of-range point; otherwise the point is indexed and relayed to the
      rider room of the falsy `rideId`. */
  function LocationUpdateEffect(geo: map<DriverId, Point>, redisReady: bool, driverId: DriverId, rideId: Option<string>, lat: Option<int>, lng: Option<int>): LiveEffect
  {
    if Present(rideId) then
      LiveEffect(geo, [], Threw("ReferenceError"))
    else if !redisReady then
      LiveEffect(geo, [], ReturnedEarly)
    else if lat.None? || lng.None? then
      LiveEffect(geo, [], Threw("TypeError"))
    else if !ValidLonLat(Point(lat.value, lng.value)) then
      LiveEffect(geo, [], Threw("ReplyError"))
    else
      LiveEffect(
        Add(geo, driverId, Point(lat.value, lng.value)),
        [Emission(ToRoom(RiderRoom(Render(rideId))), DriverLiveLocation(driverId, lat.value, lng.value))],
        Completed)
  }

  /** A driver on a ride is never indexed and never relayed; the relay only
      happens without a ride, to `rider_undefined` or `rider_`. */
  lemma LiveLocationNeedsNoRide(geo: map<DriverId, Point>, redisReady: bool, driverId: DriverId, rideId: Option<string>, lat: Option<int>, lng: Option<int>)
    ensures var e := LocationUpdateEffect(geo, redisReady, driverId, rideId, lat, lng);
      && (e.exit == Completed <==> !Present(rideId) && redisReady && lat.Some? && lng.Some? && ValidLonLat(Point(lat.value, lng.value)))
      && (e.exit != Completed ==> e.geo == geo && e.emitted == [])
      && (Present(rideId) ==> e.exit == Threw("ReferenceError"))
      && (e.exit == Completed ==>
            && e.geo == Add(geo, driverId, Point(lat.value, lng.value))
            && |e.emitted| == 1
            && (e.emitted[0].target == ToRoom("rider_undefined") || e.emitted[0].target == ToRoom("rider_")))
  {
  }

  method DriverLocationUpdate(db: Db, io: Io, redisReady: bool, driverId: DriverId, rideId: Option<string>, lat: Option<int>, lng: Option<int>) returns (exit: Exit)
    modifies db`geo, io`log
    ensures var e := LocationUpdateEffect(old(db.geo), redisReady, driverId, rideId, lat, lng);
      db.geo == e.geo && io.log == old(io.log) + e.emitted && exit == e.exit
  {
    if Present(rideId) {
      return Threw("ReferenceError");
    }
    if !redisReady {
      return ReturnedEarly;
    }
    if lat.None? || lng.None? {
      return Threw("TypeError");
    }
    var ok := db.GeoAdd(driverId, Point(lat.value, lng.value));
    if !ok {
      return Threw("ReplyError");
    }
    io.Emit(ToRoom(RiderRoom(Render(rideId))), DriverLiveLocation(driverId, lat.value, lng.value));
    exit := Completed;
  }

  // ---------------------------------------------------------------------
  // ride-request and ride-status-update
  // ---------------------------------------------------------------------

  /** One relayed request per driver found, in search order. */
  function Notices(data: RideRequestData, ids: seq<DriverId>): (r: seq<Emission>)
    ensures |r| == |ids|
    ensures forall i :: 0 <= i < |ids| ==> r[i] == Emission(ToRoom(DriverJoinRoom(ids[i])), RelayedRideRequest(data))
  {
    seq(|ids|, i requires 0 <= i < |ids| => Emission(ToRoom(DriverJoinRoom(ids[i])), RelayedRideRequest(data)))
  }

  /** Both `ride-request` listeners. The first suspends at its search (or
      ends, when there is no client or no pickup, before the second runs), so
      the broadcast to the driver room always goes out first; the per-driver
      notices follow, one for every indexed driver within 5 km. */
  method RideRequest(db: Db, io: Io, redisReady: bool, data: RideRequestData) returns (notified: seq<DriverId>)
    modifies io`log
    ensures io.log == old(io.log) + [Emission(ToRoom(DRIVER_ROOM), RelayedRideRequest(data))] + Notices(data, notified)
    ensures !(redisReady && data.pickup.Some? && ValidLonLat(data.pickup.value)) ==> notified == []
    ensures redisReady && data.pickup.Some? && ValidLonLat(data.pickup.value) ==>
      && Distinct(notified)
      && forall d :: d in notified <==> InRadius(db.geo, data.pickup.value, RELAY_RADIUS, db.dist, d)
  {
    io.Emit(ToRoom(DRIVER_ROOM), RelayedRideRequest(data));
    if !redisReady || data.pickup.None? || !ValidLonLat(data.pickup.value) {
      return [];
    }
    var hits := SearchRadius(db.geo, data.pickup.value, RELAY_RADIUS, db.dist);
    notified := Drivers(hits);
    var i := 0;
    while i < |notified|
      invariant 0 <= i <= |notified|
      invariant io.log == old(io.log) + [Emission(ToRoom(DRIVER_ROOM), RelayedRideRequest(data))] + Notices(data, notified[..i])
    {
      io.Emit(ToRoom(DriverJoinRoom(notified[i])), RelayedRideRequest(data));
      assert Notices(data, notified[..i + 1]) == Notices(data, notified[..i]) + [Emission(ToRoom(DriverJoinRoom(notified[i])), RelayedRideRequest(data))];
      i := i + 1;
    }
    assert notified[..|notified|] == notified;
  }

  /** `ride-status-update`: relayed to the rider's and the driver's joined
      rooms, rider first. */
  method RideStatusUpdate(io: Io, rideId: string, status: string, riderId: string, driverId: string)
    modifies io`log
    ensures io.log == old(io.log) + [Emission(ToRoom(RiderJoinRoom(riderId)), RideStatus(rideId, status)),
                                     Emission(ToRoom(DriverJoinRoom(driverId)), RideStatus(rideId, status))]
  {
    io.Emit(ToRoom(RiderJoinRoom(riderId)), RideStatus(rideId, status));
    io.Emit(ToRoom(DriverJoinRoom(driverId)), RideStatus(rideId, status));
  }
}
