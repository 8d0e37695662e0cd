/** The socket.io server as the backend uses it: which connection is in which
    room, and the log of every event emitted, in emission order. */
module Realtime {
  import opened Basics

  /** `io.to(room).emit(...)` or the global `io.emit(...)`. */
  datatype Target = ToRoom(room: string) | ToAll

  /** The payload a client sends with its `ride-request` socket event; the
      pickup may be missing. */
  datatype RideRequestData = RideRequestData(rideId: string, riderId: string, pickup: Option<Point>)

  /** Every event the backend emits, with its payload. */
  datatype Event =
    | NewRideRequest(rideId: RideId, pickup: Point, dropoff: Point, riderId: UserId)
    | RelayedRideRequest(data: RideRequestData)
    | RideAccepted(rideId: RideId, driverId: DriverId)
    | RideRemoved(rideId: RideId)
    | RideRejected(rideId: RideId, driverId: DriverId)
    | RideCancelled(rideId: RideId)
    | RideStarted(rideId: RideId)
    | RideCompleted(rideId: RideId)
    | DriverLiveLocation(driverId: DriverId, lat: int, lng: int)
    | RideStatus(rideId: string, status: string)

  /** The event name on the wire. */
  function EventName(e: Event): string
  {
    match e
    case NewRideRequest(_, _, _, _) => "new-ride-request"
    case RelayedRideRequest(_) => "new-ride-request"
    case RideAccepted(_, _) => "ride-accepted"
    case RideRemoved(_) => "ride-removed"
    case RideRejected(_, _) => "ride-rejected"
    case RideCancelled(_) => "ride-cancelled"
    case RideStarted(_) => "ride-started"
    case RideCompleted(_) => "ride-completed"
    case DriverLiveLocation(_, _, _) => "driver-live-location"
    case RideStatus(_, _) => "ride-status"
  }

  datatype Emission = Emission(target: Target, event: Event)

  /** The connections an emission reaches: every connected socket for a
      global emit, the members of the room otherwise. */
  function Recipients(rooms: map<ConnId, set<string>>, target: Target): (r: set<ConnId>)
    ensures forall c :: c in r <==> c in rooms && (target.ToAll? || target.room in rooms[c])
  {
    set c | c in rooms && (target.ToAll? || target.room in rooms[c])
  }

  class Io {
    /** Connected sockets and the rooms each has joined. */
    var rooms: map<ConnId, set<string>>
    /** Every emission so far, oldest first. */
    var log: seq<Emission>

    constructor ()
      ensures rooms == map[] && log == []
    {
      rooms := map[];
      log := [];
    }

    /** A socket connects, in no room yet. */
    method Connect(conn: ConnId)
      requires conn !in rooms
      modifies this`rooms
      ensures rooms == old(rooms)[conn := {}]
    {
      rooms := rooms[conn := {}];
    }

    /** `socket.join(room)`: memberships only grow. */
    method Join(conn: ConnId, room: string)
      requires conn in rooms
      modifies this`rooms
      ensures rooms == old(rooms)[conn := old(rooms)[conn] + {room}]
    {
      rooms := rooms[conn := rooms[conn] + {room}];
    }

    /** A socket that disconnects leaves every room it was in. */
    method Disconnect(conn: ConnId)
      modifies this`rooms
      ensures rooms == old(rooms) - {conn}
      ensures forall room :: conn !in Recipients(rooms, ToRoom(room))
    {
      rooms := rooms - {conn};
    }

    method Emit(target: Target, event: Event)
      modifies this`log
      ensures log == old(log) + [Emission(target, event)]
    {
      log := log + [Emission(target, event)];
    }
  }
}
