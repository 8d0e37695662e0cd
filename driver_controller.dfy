/** The driver REST handlers (Backend/controllers/driverController.js):
    reporting a live location, going online or offline, and the rider-side
    search for available drivers nearby. */
module DriverController {
  import opened Basics
  import opened DriverSchema
  import opened GeoIndex
  import opened Stores

  /** The radius `getNearbyDrivers` searches when the query gives none, in
      metres. */
  const DEFAULT_RADIUS: nat := 3000

  /** What one driver-side handler call does to the drivers collection and
      the geo set, and its reply. */
  datatype DriverEffect = DriverEffect(drivers: map<DriverId, Driver>, geo: map<DriverId, Point>, reply: Reply)

  /** `updateLocation`. Both coordinates must be truthy numbers, so a
      coordinate of exactly 0 is refused. The driver record is never changed:
      the handler's `lastLocation` is not a path of the Driver schema and the
      update is stripped to nothing. Nor is the driver looked up, so an
      unknown id is indexed too. */
  function LocationEffect(drivers: map<DriverId, Driver>, geo: map<DriverId, Point>, driverId: DriverId, lat: Option<int>, lng: Option<int>): DriverEffect
  {
    if !Truthy(lat) || !Truthy(lng) then
      DriverEffect(drivers, geo, Fail(400, "Latitude & Longitude are required"))
    else if !ValidLonLat(Point(lat.value, lng.value)) then
      DriverEffect(drivers, geo, Fail(500, SERVER_ERROR))
    else
      DriverEffect(drivers, Add(geo, driverId, Point(lat.value, lng.value)), Ok)
  }

  /** Whether the toggle handler takes a driver off the geo set: an absent or
      false flag does. */
  predicate GoesOffline(isAvailable: Option<bool>)
  {
    isAvailable.None? || !isAvailable.value
  }

  /** `toggleAvailability`. An absent flag is stripped from the update but
      still counts as offline. Going online never puts the driver back in
      the geo set; only the next location report does. */
  function ToggleEffect(drivers: map<DriverId, Driver>, geo: map<DriverId, Point>, driverId: DriverId, isAvailable: Option<bool>): DriverEffect
  {
    if driverId !in drivers then
      DriverEffect(drivers, geo, Fail(404, "Driver not found"))
    else
      var updated := if isAvailable.Some? then drivers[driverId := drivers[driverId].(isAvailable := isAvailable.value)] else drivers;
      DriverEffect(updated, if GoesOffline(isAvailable) then Remove(geo, driverId) else geo, Ok)
  }

  /** A location report changes only the reporter's own geo entry, and
      leaves every driver record alone. */
  lemma LocationTouchesOnlyReporter(drivers: map<DriverId, Driver>, geo: map<DriverId, Point>, driverId: DriverId, lat: Option<int>, lng: Option<int>)
    ensures var e := LocationEffect(drivers, geo, driverId, lat, lng);
      && e.drivers == drivers
      && (e.reply == Ok <==> Truthy(lat) && Truthy(lng) && ValidLonLat(Point(lat.value, lng.value)))
      && (!Truthy(lat) || !Truthy(lng) ==> e.reply == Fail(400, "Latitude & Longitude are required"))
      && (Truthy(lat) && Truthy(lng) && !ValidLonLat(Point(lat.value, lng.value)) ==> e.reply == Fail(500, SERVER_ERROR))
      && (e.reply == Ok ==> driverId in e.geo && e.geo[driverId] == Point(lat.value, lng.value))
      && (e.reply != Ok ==> e.geo == geo)
      && (forall d :: d != driverId ==> (d in e.geo <==> d in geo) && (d in geo ==> e.geo[d] == geo[d]))
  {
  }

  /** Toggling changes only the caller's flag and the caller's geo entry: an
      offline driver leaves the index, an online one keeps whatever entry it
      had, and an unknown driver is refused before the index is touched. */
  lemma ToggleTouchesOnlyCaller(drivers: map<DriverId, Driver>, geo: map<DriverId, Point>, driverId: DriverId, isAvailable: Option<bool>)
    ensures var e := ToggleEffect(drivers, geo, driverId, isAvailable);
      && (e.reply == Ok <==> driverId in drivers)
      && (driverId !in drivers ==> e == DriverEffect(drivers, geo, Fail(404, "Driver not found")))
      && e.drivers.Keys == drivers.Keys
      && (e.reply == Ok && GoesOffline(isAvailable) ==> driverId !in e.geo)
      && (!GoesOffline(isAvailable) ==> e.geo == geo)
      && (e.reply == Ok && isAvailable.Some? ==> e.drivers[driverId] == drivers[driverId].(isAvailable := isAvailable.value))
      && (isAvailable.None? ==> e.drivers == drivers)
      && (forall d :: d != driverId && d in drivers ==> e.drivers[d] == drivers[d])
      && (forall d :: d != driverId ==> (d in e.geo <==> d in geo) && (d in geo ==> e.geo[d] == geo[d]))
  {
  }

  method UpdateLocation(db: Db, driverId: DriverId, lat: Option<int>, lng: Option<int>) returns (reply: Reply)
    modifies db`geo
    ensures var e := LocationEffect(old(db.drivers), old(db.geo), driverId, lat, lng);
      db.drivers == e.drivers && db.geo == e.geo && reply == e.reply
  {
    if !Truthy(lat) || !Truthy(lng) {
      return Fail(400, "Latitude & Longitude are required");
    }
    var ok := db.GeoAdd(driverId, Point(lat.value, lng.value));
    if !ok {
      return Fail(500, SERVER_ERROR);
    }
    // The `lastLocation` update that follows names no schema path and
    // writes nothing.
    reply := Ok;
  }

  /** Also answers the updated driver record, as the handler does. */
  method ToggleAvailability(db: Db, driverId: DriverId, isAvailable: Option<bool>) returns (reply: Reply, shown: Option<Driver>)
    modifies db`drivers, db`geo
    ensures var e := ToggleEffect(old(db.drivers), old(db.geo), driverId, isAvailable);
      db.drivers == e.drivers && db.geo == e.geo && reply == e.reply
    ensures reply == Ok <==> shown.Some?
    ensures shown.Some? ==> driverId in db.drivers && shown.value == db.drivers[driverId]
  {
    shown := db.SetAvailability(driverId, isAvailable);
    if shown.None? {
      return Fail(404, "Driver not found"), None;
    }
    if GoesOffline(isAvailable) {
      db.GeoRemove(driverId);
    }
    reply := Ok;
  }

  // ---------------------------------------------------------------------
  // Nearby drivers
  // ---------------------------------------------------------------------

  /** One entry of the `getNearbyDrivers` answer: the id and distance from
      the geo search and the selected fields of the driver record. */
  datatype NearbyDriver = NearbyDriver(driverId: DriverId, distance: nat, name: string, isAvailable: bool)

  /** A search hit the handler keeps: its driver record exists and is
      available. */
  predicate Listed(h: Hit, drivers: map<DriverId, Driver>)
  {
    h.driver in drivers && drivers[h.driver].isAvailable
  }

  function Entry(h: Hit, d: Driver): NearbyDriver
  {
    NearbyDriver(h.driver, h.distance, d.name, d.isAvailable)
  }

  /** The handler's filter over the search hits, in hit order: every entry
      it keeps shows an available driver at a distance the search gave. */
  function AvailableHits(hits: seq<Hit>, drivers: map<DriverId, Driver>): (r: seq<NearbyDriver>)
    ensures |r| <= |hits|
    ensures forall k :: 0 <= k < |r| ==> r[k].isAvailable && r[k].driverId in drivers
    ensures forall k :: 0 <= k < |r| ==> exists j :: 0 <= j < |hits| && r[k].driverId == hits[j].driver && r[k].distance == hits[j].distance
    decreases |hits|
  {
    if hits == [] then
      []
    else
      var last := hits[|hits| - 1];
      AvailableHits(hits[..|hits| - 1], drivers)
        + (if Listed(last, drivers) then [Entry(last, drivers[last.driver])] else [])
  }

  function NearbyIds(r: seq<NearbyDriver>): (ids: seq<DriverId>)
    ensures |ids| == |r| && forall k :: 0 <= k < |r| ==> ids[k] == r[k].driverId
  {
    seq(|r|, k requires 0 <= k < |r| => r[k].driverId)
  }

  /** What the handler promises a rider: every available, indexed driver
      within the radius exactly once, with its distance and name, and no
      one else. */
  ghost predicate IsNearbyResult(drivers: map<DriverId, Driver>, geo: map<DriverId, Point>, center: Point, radius: nat, dist: Metric, result: seq<NearbyDriver>)
  {
    && Distinct(NearbyIds(result))
    && (forall k :: 0 <= k < |result| ==>
          && InRadius(geo, center, radius, dist, result[k].driverId)
          && result[k].driverId in drivers
          && drivers[result[k].driverId].isAvailable
          && result[k] == NearbyDriver(result[k].driverId, DistanceOf(geo, center, dist, result[k].driverId), drivers[result[k].driverId].name, true))
    && (forall d :: InRadius(geo, center, radius, dist, d) && d in drivers && drivers[d].isAvailable ==> d in NearbyIds(result))
  }

  /** The filter keeps exactly the listed hits, and keeps distinct ids
      distinct. */
  lemma {:induction false} AvailableHitsExact(hits: seq<Hit>, drivers: map<DriverId, Driver>)
    ensures forall x :: x in AvailableHits(hits, drivers) <==>
      exists h :: h in hits && Listed(h, drivers) && x == Entry(h, drivers[h.driver])
    ensures Distinct(Drivers(hits)) ==> Distinct(NearbyIds(AvailableHits(hits, drivers)))
    decreases |hits|
  {
    if hits != [] {
      var init := hits[..|hits| - 1];
      var last := hits[|hits| - 1];
      assert hits == init + [last];
      AvailableHitsExact(init, drivers);
      var r0 := AvailableHits(init, drivers);
      var r := AvailableHits(hits, drivers);
      assert r == r0 + (if Listed(last, drivers) then [Entry(last, drivers[last.driver])] else []);
      if Distinct(Drivers(hits)) {
        assert Distinct(Drivers(init)) by {
          assert forall i :: 0 <= i < |init| ==> Drivers(init)[i] == Drivers(hits)[i];
        }
        forall k | 0 <= k < |r0|
          ensures r0[k].driverId != last.driver
        {
          assert r0[k] in r0;
          var h :| h in init && Listed(h, drivers) && r0[k] == Entry(h, drivers[h.driver]);
          var i :| 0 <= i < |init| && init[i] == h;
          assert Drivers(hits)[i] != Drivers(hits)[|hits| - 1];
        }
        assert forall k :: 0 <= k < |r0| ==> NearbyIds(r)[k] == NearbyIds(r0)[k];
      }
    }
  }

  /** Filtering a complete radius answer gives exactly what the rider is
      promised. */
  lemma AvailableHitsAreNearby(drivers: map<DriverId, Driver>, geo: map<DriverId, Point>, center: Point, radius: nat, dist: Metric, hits: seq<Hit>)
    requires IsRadiusResult(geo, center, radius, dist, hits)
    ensures IsNearbyResult(drivers, geo, center, radius, dist, AvailableHits(hits, drivers))
  {
    AvailableHitsExact(hits, drivers);
    var r := AvailableHits(hits, drivers);
    forall k | 0 <= k < |r|
      ensures InRadius(geo, center, radius, dist, r[k].driverId)
      ensures r[k].driverId in drivers && drivers[r[k].driverId].isAvailable
      ensures r[k] == NearbyDriver(r[k].driverId, DistanceOf(geo, center, dist, r[k].driverId), drivers[r[k].driverId].name, true)
    {
      assert r[k] in r;
      var h :| h in hits && Listed(h, drivers) && r[k] == Entry(h, drivers[h.driver]);
      var i :| 0 <= i < |hits| && hits[i] == h;
    }
    forall d | InRadius(geo, center, radius, dist, d) && d in drivers && drivers[d].isAvailable
      ensures d in NearbyIds(r)
    {
      var i :| 0 <= i < |hits| && Drivers(hits)[i] == d;
      assert hits[i] in hits;
      assert Entry(hits[i], drivers[d]) in r;
      var k :| 0 <= k < |r| && r[k] == Entry(hits[i], drivers[d]);
      assert NearbyIds(r)[k] == d;
    }
  }

  /** `getNearbyDrivers`. Query values are strings, so `"0"` passes the
      guard and only an absent coordinate is refused; a given radius, even
      0, replaces the default. */
  method GetNearbyDrivers(db: Db, lat: Option<int>, lng: Option<int>, radius: Option<nat>) returns (reply: Reply, result: seq<NearbyDriver>, hits: seq<Hit>)
    ensures lat.None? || lng.None? ==> reply == Fail(400, "Latitude & Longitude required") && result == [] && hits == []
    ensures lat.Some? && lng.Some? && !ValidLonLat(Point(lat.value, lng.value)) ==> reply == Fail(500, SERVER_ERROR) && result == [] && hits == []
    ensures lat.Some? && lng.Some? && ValidLonLat(Point(lat.value, lng.value)) ==>
      && reply == Ok
      && IsRadiusResult(db.geo, Point(lat.value, lng.value), if radius.Some? then radius.value else DEFAULT_RADIUS, db.dist, hits)
      && result == AvailableHits(hits, db.drivers)
      && IsNearbyResult(db.drivers, db.geo, Point(lat.value, lng.value),
                        if radius.Some? then radius.value else DEFAULT_RADIUS, db.dist, result)
  {
    if lat.None? || lng.None? {
      return Fail(400, "Latitude & Longitude required"), [], [];
    }
    var center := Point(lat.value, lng.value);
    if !ValidLonLat(center) {
      return Fail(500, SERVER_ERROR), [], [];
    }
    var r := if radius.Some? then radius.value else DEFAULT_RADIUS;
    hits := SearchRadius(db.geo, center, r, db.dist);
    result := [];
    var i := 0;
    while i < |hits|
      invariant 0 <= i <= |hits|
      invariant result == AvailableHits(hits[..i], db.drivers)
    {
      // `Driver.findById` on the hit, then the availability test.
      var h := hits[i];
      if h.driver in db.drivers && db.drivers[h.driver].isAvailable {
        result := result + [Entry(h, db.drivers[h.driver])];
      }
      assert hits[..i + 1][..i] == hits[..i];
      i := i + 1;
    }
    assert hits[..|hits|] == hits;
    AvailableHitsAreNearby(db.drivers, db.geo, center, r, db.dist, hits);
    reply := Ok;
  }
}
