# Ride dispatch backend, modelled in Dafny

This project models the dispatch core of a ride-hailing backend (an Express
and socket.io server over MongoDB and a Redis geo set) together with the
directions URL helper of its web client:

- **Ride lifecycle** (`ride_controller.dfy`, `ride_lifecycle.dfy`). A rider
  requests a ride. The five nearest indexed drivers within 5 km are offered
  it (when the socket server is attached; see below), and the nearest is
  written into the ride as a placeholder driver. Drivers accept or reject.
  The accept is a compare-and-set on status `requested`. Cancel, start and
  complete are guarded transitions, and an unguarded status update writes
  any value.
- **Driver index** (`driver_controller.dfy`, `geo_index.dfy`). Drivers report
  locations into the geo set and go online or offline. Riders list the
  available drivers near a point.
- **Socket server** (`server.dfy`, `realtime.dfy`). Clients join personal rooms
  and a common driver room. The server relays live locations, ride requests
  and status changes.
- **Records** (`ride_schema.dfy`, `driver_schema.dfy`). These hold the Ride and
  Driver documents with their validation: the status enum and its default,
  required fields, the vehicle-type enum, the availability default and
  unique phones.
- **Directions URL** (`maptiler.dfy`). Coordinates become `lng,lat` segments,
  joined by `;`, inside the MapTiler routing URL.

How the stores are modelled:

- MongoDB collections and the Redis geo set are maps held by the `Stores.Db`
  class. Each database command is one method that updates them in place.
- The socket server is the `Realtime.Io` class. It holds room memberships and
  a log of every emission in order.
- Each handler is a method over these objects. Each method is specified by
  an effect function: the new state, the emissions appended and the reply.
  The lifecycle properties are lemmas about those functions.
- Coordinates are integers in millionths of a degree.
- The distance Redis computes is a parameter (`Metric`).
- Record ids are strings. The id of a newly created ride is passed in, as is
  whether the Redis client exists yet.

The model follows the code, not the intended design, wherever the two part:

- `startRide` writes the status `onTrip`, but the schema enum
  (`Backend/models/Ride.js:17`) does not list it. Validation refuses the save,
  so starting a ride always answers 500 and changes nothing. No guarded call
  ever reaches `onTrip`, so `completeRide` only succeeds after the unguarded
  `updateRideStatus` has written `onTrip`.
- Start and complete take no caller, because the handlers never check who
  calls them.
- `updateRideStatus` can move a ride out of `completed` or `cancelled`. Back
  in `requested`, the ride can be accepted again by another driver, so the
  bound driver can be replaced (`RideLifecycle.StatusResetRebinds`).
- `Backend/server.js` uses `Ride` without importing it. A location update that
  carries a ride id therefore throws before it writes or emits anything.
  Such an update never sets a ride's `driverLocation`, and never indexes the
  driver either. Only updates without a ride id reach the geo set. Their
  relay goes to `rider_undefined` (or `rider_` when the ride id is empty).
- `Backend/app.js:18-22` mounts the routers when `Backend/server.js` imports
  it. That is before `Backend/server.js:29-32` adds the middleware that sets
  `req.io`, and a route that matches never reaches it. So `req.io` is
  undefined in the ride handlers. Each of them writes first and emits
  afterwards, so a handler that emits throws at its first emit after its
  writes, and the catch answers 500. A winning accept binds its caller and
  answers 500. Request, reject, cancel and complete answer 500 too, and
  nothing is emitted (`Dispatch.Unwired`, `Dispatch.UnwiredRideCalls`,
  `Dispatch.UnwiredRequest`). This assumes the authentication middleware
  does not set `req.io`. That middleware is not part of this model.
- The handler methods and effect functions take the socket server as a
  parameter, as if `req.io` were attached. Their `Ok` replies and their
  emissions, including those in `RideLifecycle.AcceptRace` and
  `RideLifecycle.RequestCreatesOneRide`, hold under that assumption. The
  `Dispatch.Unwired*` lemmas give the handlers as wired.
- Even with `req.io` attached, the REST handlers emit to `driver_<id>` and
  `rider_<id>`, but clients can only join `driver-<id>`, `rider-<id>` and
  `driver-room`. So every room-addressed event of the REST handlers would
  reach nobody, and only the global `ride-removed` would be delivered
  (`Dispatch.RideEventsUndelivered`, `Dispatch.OffersUndelivered`).
- `updateLocation` also tries to store `lastLocation` on the driver record.
  The Driver schema has no such path, so strict mode drops it and no driver
  record ever changes.
- The request search ignores availability, while the nearby listing honours
  it. A driver who went offline and later reported a location is offered
  rides but never listed (`Dispatch.OfflineDriverStillOffered`).

## Model

| member | source | states |
|---|---|---|
| `RideSchema.Create` | Backend/models/Ride.js:3-24 | creation succeeds exactly when rider, pickup and dropoff are all given and any given status is in the enum; the status defaults to `requested`, every given field is kept, and there is no driver location yet |
| `RideSchema.OnTripOutsideEnum` | Backend/models/Ride.js:15-19 | `onTrip` is not an allowed status, `in-progress` is, and both terminal statuses are |
| `DriverSchema.ParseVehicleType` | Backend/models/Driver.js:10 | exactly `bike`, `auto` and `car` parse, each back to its own name |
| `DriverSchema.Create` | Backend/models/Driver.js:3-15 | a driver is created exactly when name, phone, password and vehicle number are non-empty and the vehicle type is in the enum; fields are kept and availability defaults to true |
| `DriverSchema.Insert` | Backend/models/Driver.js:6 | an insert is refused exactly when the id or the phone is already taken; otherwise the collection gains that one record, and phone uniqueness is preserved |
| `DriverSchema.DefaultAvailable` | Backend/models/Driver.js:12 | a driver created without an availability flag is available |
| `GeoIndex.Add` | Backend/controllers/driverController.js:29-35 | adding sets the member's point and leaves every other member as it was |
| `GeoIndex.Remove` | Backend/controllers/driverController.js:69 | removing drops the member and leaves every other member as it was |
| `GeoIndex.RemoveIdempotent` | Backend/controllers/driverController.js:67-70 | removing twice is removing once, and removing an absent driver changes nothing |
| `GeoIndex.SearchRadius` | Backend/controllers/driverController.js:95-105 | the radius search answers every member within the radius exactly once, with its true distance, and nothing else |
| `GeoIndex.SearchNearest` | Backend/controllers/rideController.js:27-39 | the limited search answers distinct in-radius members, nearest first, at most `count`, with no omitted member nearer than a returned one, and all of them when fewer than `count` are returned |
| `GeoIndex.LoneMemberIsFound` | Backend/controllers/rideController.js:41-46 | when one driver alone is in range, the search returns that driver first and only that driver |
| `Realtime.Recipients` | Backend/server.js:38-58 | an emission reaches every connected socket when global, otherwise exactly the sockets that joined its room |
| `Realtime.Io.Connect` | Backend/server.js:38-39 | a new socket is connected in no room |
| `Realtime.Io.Join` | Backend/server.js:43 | joining adds one room to the socket's memberships and removes none |
| `Realtime.Io.Disconnect` | Backend/server.js:121-123 | a disconnected socket leaves all its rooms and receives no room emission afterwards |
| `Realtime.Io.Emit` | Backend/server.js:110 | an emission is appended to the log, after every earlier one |
| `Stores.Db.InsertRide` | Backend/controllers/rideController.js:49-55 | a created ride is stored under its new id and no other ride changes |
| `Stores.Db.AcceptIfRequested` | Backend/controllers/rideController.js:88-92 | the accept writes `accepted` and the caller only when the ride exists and is `requested`, answering the updated ride, and otherwise changes nothing |
| `Stores.Db.SaveRide` | Backend/controllers/rideController.js:149-150 | a save succeeds exactly when the status is in the enum, and a refused save writes nothing |
| `Stores.Db.SetRideStatus` | Backend/controllers/rideController.js:126 | the status update writes any string to an existing ride and ignores an unknown id |
| `Stores.Db.SetAvailability` | Backend/controllers/driverController.js:57-61 | the flag is written when given; an absent flag is stripped, an unknown driver is not found, and nothing else changes |
| `Stores.Db.GeoAdd` | Backend/controllers/driverController.js:29-35 | Redis stores the point exactly when it is within the latitude and longitude limits |
| `Stores.Db.GeoRemove` | Backend/controllers/driverController.js:69 | the driver leaves the geo set |
| `RideController.Offers` | Backend/controllers/rideController.js:58-65 | one `new-ride-request` per candidate, in candidate order, each to that candidate's `driver_` room |
| `RideController.RequestRide` | Backend/controllers/rideController.js:16-73 | the handler's store, log and reply are those of the request effect, and the candidates are the limited nearest search around the pickup |
| `RideController.NotifyCandidates` | Backend/controllers/rideController.js:58-65 | the loop appends exactly the offers, one per candidate, in order |
| `RideController.DriverRespondRide` | Backend/controllers/rideController.js:78-119 | the handler's store, log and reply are those of the response effect |
| `RideController.UpdateRideStatus` | Backend/controllers/rideController.js:123-132 | the handler writes the status unconditionally and always answers success |
| `RideController.CancelRide` | Backend/controllers/rideController.js:138-164 | the handler's store, log and reply are those of the cancel effect |
| `RideController.StartRide` | Backend/controllers/rideController.js:169-191 | the handler's store, log and reply are those of the start effect |
| `RideController.CompleteRide` | Backend/controllers/rideController.js:196-218 | the handler's store, log and reply are those of the complete effect |
| `RideLifecycle.ApplyFollows` | Backend/controllers/rideController.js:78-218 | one guarded call removes no ride and moves each ride only along the lifecycle table |
| `RideLifecycle.RunFollows` | Backend/controllers/rideController.js:78-218 | any sequence of guarded calls removes no ride and moves each ride only along the lifecycle table |
| `RideLifecycle.TerminalIsFinal` | Backend/controllers/rideController.js:145-147 | no sequence of guarded calls changes a completed or cancelled ride |
| `RideLifecycle.DriverStaysBound` | Backend/controllers/rideController.js:86-93 | once a ride has left `requested`, guarded calls never replace its driver and never return it to `requested` |
| `RideLifecycle.OnTripNeverEntered` | Backend/controllers/rideController.js:175-180 | no sequence of guarded calls puts a ride into `onTrip` |
| `RideLifecycle.StartNeverCommits` | Backend/controllers/rideController.js:175-180 | starting a ride never succeeds, never changes the store and never emits, and an accepted ride answers 500 |
| `RideLifecycle.OnlyUpdateStatusLeavesTerminal` | Backend/controllers/rideController.js:123-127 | a call that changes a completed or cancelled ride is a status update of that ride |
| `RideLifecycle.RespondOutcomes` | Backend/controllers/rideController.js:83-113 | an unknown ride is 404; only a winning accept changes the store, and an accept wins exactly when the ride is `requested`, else "Ride already taken"; a reject sends `ride-rejected` and changes nothing; other answers are 400 with no change |
| `RideLifecycle.RefusedChangesNothing` | Backend/controllers/rideController.js:138-218 | a refused guarded call changes no ride and emits nothing; a successful cancel was from a non-terminal status and sets `cancelled`, a successful complete was from `onTrip` and sets `completed`, and start never succeeds |
| `RideLifecycle.LateAcceptsLose` | Backend/controllers/rideController.js:88-93 | once a ride is not `requested`, every further accept is told the ride is taken, changes nothing and emits nothing |
| `RideLifecycle.AcceptRace` | Backend/controllers/rideController.js:86-104 | with the socket server attached: of several accepts on a requested ride the first wins and binds its caller, every later one is told the ride is taken, and the only emissions are the winner's `ride-accepted` and `ride-removed` |
| `RideLifecycle.StatusResetRebinds` | Backend/controllers/rideController.js:123-127 | accept, reset to `requested`, accept by another driver: all three succeed and the second driver is bound |
| `RideLifecycle.RequestCreatesOneRide` | Backend/controllers/rideController.js:18-55 | with the socket server attached, a request succeeds exactly when all four coordinates are truthy, the pickup is valid and a candidate exists; it then adds one `requested` ride with the nearest candidate and the given points, and otherwise changes nothing and emits nothing (400 for missing coordinates, 404 for no drivers) |
| `RideLifecycle.OneOfferPerCandidate` | Backend/controllers/rideController.js:58-65 | a successful request sends exactly one `new-ride-request` for the new ride to each candidate's room, and no room twice |
| `DriverController.LocationTouchesOnlyReporter` | Backend/controllers/driverController.js:19-47 | a report succeeds exactly when both coordinates are truthy and in range, then sets only the reporter's point; a falsy coordinate is 400 and an out-of-range one 500; driver records never change, a refused report changes nothing, and every other driver keeps its point |
| `DriverController.ToggleTouchesOnlyCaller` | Backend/controllers/driverController.js:52-81 | an unknown driver gets 404 "Driver not found" with the collection and the geo set unchanged; going offline removes the caller from the geo set, going online never changes it, only the caller's flag changes, and every other driver keeps its point |
| `DriverController.UpdateLocation` | Backend/controllers/driverController.js:19-47 | the handler's drivers, geo set and reply are those of the location effect |
| `DriverController.ToggleAvailability` | Backend/controllers/driverController.js:52-81 | the handler's drivers, geo set and reply are those of the toggle effect, and it answers the updated record exactly when it succeeds |
| `DriverController.AvailableHits` | Backend/controllers/driverController.js:108-123 | the filter gives no more entries than there are hits; every entry shows an existing, available driver with the id and distance of some hit |
| `DriverController.AvailableHitsExact` | Backend/controllers/driverController.js:110-123 | the filter keeps exactly the hits whose driver exists and is available, with the record's fields, and keeps distinct ids distinct |
| `DriverController.AvailableHitsAreNearby` | Backend/controllers/driverController.js:95-123 | filtering a complete radius answer yields every available in-radius driver exactly once, with its distance and name, and no one else |
| `DriverController.GetNearbyDrivers` | Backend/controllers/driverController.js:86-134 | a missing coordinate is 400 and an out-of-range one 500; otherwise the answer is the filter applied to the radius search in search order, which is every available indexed driver within the radius (3000 m by default) exactly once, and no one else |
| `Server.JoinRoomsJoinable` | Backend/server.js:42-58 | the join events produce `driver-` and `rider-` rooms, and the common driver room is the personal room of a driver with id `room` |
| `Server.Connection` | Backend/server.js:38 | a new socket is in no room, and only joinable rooms are held |
| `Server.JoinDriver` | Backend/server.js:42-45 | `join-driver` adds `driver-<id>`, and only joinable rooms are held |
| `Server.JoinDriverRoom` | Backend/server.js:48-51 | `join-driver-room` adds `driver-room`, and only joinable rooms are held |
| `Server.JoinRider` | Backend/server.js:55-58 | `join-rider` adds `rider-<id>`, and only joinable rooms are held |
| `Server.Disconnect` | Backend/server.js:121-123 | a disconnecting socket leaves every room |
| `Server.LiveLocationNeedsNoRide` | Backend/server.js:61-84 | a location update completes exactly when it carries no ride id, the client exists and both coordinates are given and in range; a ride id makes it throw; only a completed update indexes the point and relays it, to `rider_undefined` or `rider_` |
| `Server.DriverLocationUpdate` | Backend/server.js:61-84 | the listener's geo set, log and exit are those of the location-update effect |
| `Server.Notices` | Backend/server.js:103-105 | one `new-ride-request` per driver found, in order, to that driver's `driver-` room |
| `Server.RideRequest` | Backend/server.js:89-111 | the driver-room broadcast always goes out first; then, when the client exists and the pickup is given and valid, every indexed driver within 5000 m is notified exactly once and no one else |
| `Server.RideStatusUpdate` | Backend/server.js:114-118 | `ride-status` goes to `rider-<riderId>` and then `driver-<driverId>` |
| `Dispatch.ControllerRoomsUnjoinable` | Backend/controllers/rideController.js:59-153 | no join event can produce a `driver_` or `rider_` room |
| `Dispatch.UnjoinableReachesNobody` | Backend/server.js:42-58 | while sockets only hold joinable rooms, an unjoinable room has no recipients |
| `Dispatch.RideEventsUndelivered` | Backend/controllers/rideController.js:96-210 | even with the socket server attached, every room-addressed event of the ride handlers reaches nobody, and their only global event is `ride-removed` |
| `Dispatch.UnwiredRideCalls` | Backend/controllers/rideController.js:78-218 | with `req.io` undefined, as the application mounts the routes, a call on an existing ride keeps its writes and emits nothing, and only the status update answers success; a winning accept binds its caller and answers 500 |
| `Dispatch.UnwiredRequest` | Backend/controllers/rideController.js:16-73 | with `req.io` undefined, a request that finds a driver still creates its `requested` ride with the nearest driver, emits nothing and answers 500; refusals are unchanged |
| `Dispatch.OffersUndelivered` | Backend/controllers/rideController.js:58-65 | no ride offer from a request reaches any socket |
| `Dispatch.LiveLocationUndelivered` | Backend/server.js:83 | no relayed live location reaches any socket |
| `Dispatch.OfflineDriverStillOffered` | Backend/controllers/rideController.js:27-65 | a driver who went offline and then reported a location is back in the index and absent from every nearby listing, yet is written as the new ride's driver and sent the offer when alone near the pickup |
| `MapTiler.DirectionsUrl` | Frontend/src/utils/maptiler.js:10-14 | the URL is the routing prefix, the profile, a slash, the pairs and the key-and-options suffix: it starts with the prefix, ends with the suffix and has exactly their combined length |
| `MapTiler.SplitJoin` | Frontend/src/utils/maptiler.js:13 | splitting a join at its separator gives back the parts, when no part contains the separator |
| `MapTiler.CountJoin` | Frontend/src/utils/maptiler.js:13 | n parts joined give n - 1 separators |
| `MapTiler.PairsRoundTrip` | Frontend/src/utils/maptiler.js:13 | the pairs split back into one segment per coordinate, in input order, each reading as longitude then latitude, with n - 1 separators |
| `MapTiler.UrlLayout` | Frontend/src/utils/maptiler.js:10-14 | the URL starts with the routing prefix and the profile (`driving` by default) and ends with the key and options, and the pairs can be read back from between them |

## Left out

- The model assumes the socket server is attached to each REST request.
  As wired, `req.io` is undefined in the ride handlers, so each handler that
  emits writes, then throws, and answers 500. The `Dispatch.Unwired*` lemmas
  state this case; the other lemmas assume `io` is attached.
- Database and Redis connection setup, lazy Redis initialisation and the
  Express and socket.io wiring are left out. The controllers are modelled
  with their Redis client present. The socket server's client is the
  `redisReady` parameter.
- Timestamps (`createdAt`, `updatedAt`) are not modelled. Neither is the
  room each socket holds under its own id.
- Response bodies beyond the status and error text are not modelled: the
  returned ride, the candidate list and the success messages. The exception
  is the driver record the toggle answers.
- ObjectId casting is left out. Ids are plain strings, so the CastError 500
  of a malformed id is not modelled. A new ride's id is a parameter.
- Real concurrency is left out. Every database command is one atomic step,
  and the accept race is the order in which the compare-and-set runs.
- Distances are an abstract metric over integer coordinates. Redis's
  floating-point haversine and geohash precision are out of scope.
- In `ride-request`, a missing pickup makes the first listener throw before
  the second one broadcasts. The model keeps the broadcast and sends no
  notices. The rejection is unhandled, and whether it ends the Node process
  is runtime policy, which is left out. The same holds for the
  `ReferenceError` a `driver-location-update` with a ride id throws: the
  model records the throw, not what the process does with the unhandled
  rejection.
- Payloads are typed. A string, `null` or object where the handlers expect
  a number is not modelled, nor are extra fields in a relayed request.
- `RideController.UpdateRideStatus`: the status is always given. An absent
  status would be stripped from the update.
- `DriverController.GetNearbyDrivers`: query values are numbers or absent,
  and the radius is a non-negative whole number of metres. A non-numeric
  value, which Redis rejects with 500, is not modelled.
- `Server.DriverLocationUpdate`: the write of the ride's `driverLocation` is
  not modelled. It cannot run, because `Ride` is undefined in that file.
- History queries, authentication, payments, geocoding, the map style URL
  and the React UI are not part of this model.
