/** The MongoDB collections and the Redis geo set, as in-memory maps, with the
    store operations the handlers issue. Each operation is one atomic step. */
module Stores {
  import opened Basics
  import opened RideSchema
  import opened DriverSchema
  import opened GeoIndex

  class Db {
    /** The `rides` collection. */
    var rides: map<RideId, Ride>
    /** The `drivers` collection. */
    var drivers: map<DriverId, Driver>
    /** The Redis `drivers` geo set. */
    var geo: map<DriverId, Point>
    /** The distance Redis computes between two points. */
    const dist: Metric

    constructor (dist: Metric)
      ensures rides == map[] && drivers == map[] && geo == map[] && this.dist == dist
    {
      rides := map[];
      drivers := map[];
      geo := map[];
      this.dist := dist;
    }

    /** `Ride.create` for an input that passed validation, under a freshly
        generated id. */
    method InsertRide(id: RideId, ride: Ride)
      requires id !in rides
      modifies this`rides
      ensures rides == old(rides)[id := ride]
    {
      rides := rides[id := ride];
    }

    /** `Ride.findOneAndUpdate({_id, status: "requested"}, {status: "accepted",
        driver})`: the filter and the write form one compare-and-set. */
    method AcceptIfRequested(id: RideId, driver: DriverId) returns (updated: Option<Ride>)
      modifies this`rides
      ensures id in old(rides) && old(rides)[id].status == REQUESTED ==>
        && updated == Some(old(rides)[id].(status := ACCEPTED, driver := Some(driver)))
        && rides == old(rides)[id := updated.value]
      ensures !(id in old(rides) && old(rides)[id].status == REQUESTED) ==>
        updated == None && rides == old(rides)
    {
      if id in rides && rides[id].status == REQUESTED {
        var r := rides[id].(status := ACCEPTED, driver := Some(driver));
        rides := rides[id := r];
        updated := Some(r);
      } else {
        updated := None;
      }
    }

    /** `ride.save()`: document validation runs first, and a refused document
        is not written. */
    method SaveRide(id: RideId, ride: Ride) returns (saved: bool)
      modifies this`rides
      ensures saved == Valid(ride)
      ensures rides == if saved then old(rides)[id := ride] else old(rides)
    {
      saved := Valid(ride);
      if saved {
        rides := rides[id := ride];
      }
    }

    /** `Ride.findByIdAndUpdate(id, {status})`: update validators are off, so
        any string is written; an unknown id changes nothing. */
    method SetRideStatus(id: RideId, status: string) returns (updated: Option<Ride>)
      modifies this`rides
      ensures id in old(rides) ==>
        updated == Some(old(rides)[id].(status := status)) && rides == old(rides)[id := updated.value]
      ensures id !in old(rides) ==> updated == None && rides == old(rides)
    {
      if id in rides {
        var r := rides[id].(status := status);
        rides := rides[id := r];
        updated := Some(r);
      } else {
        updated := None;
      }
    }

    /** `Driver.findByIdAndUpdate(id, {isAvailable})`: an undefined value is
        stripped from the update; an unknown id changes nothing. */
    method SetAvailability(id: DriverId, isAvailable: Option<bool>) returns (updated: Option<Driver>)
      modifies this`drivers
      ensures id in old(drivers) && isAvailable.Some? ==>
        updated == Some(old(drivers)[id].(isAvailable := isAvailable.value)) && drivers == old(drivers)[id := updated.value]
      ensures id in old(drivers) && isAvailable.None? ==>
        updated == Some(old(drivers)[id]) && drivers == old(drivers)
      ensures id !in old(drivers) ==> updated == None && drivers == old(drivers)
    {
      if id !in drivers {
        updated := None;
      } else if isAvailable.Some? {
        var d := drivers[id].(isAvailable := isAvailable.value);
        drivers := drivers[id := d];
        updated := Some(d);
      } else {
        updated := Some(drivers[id]);
      }
    }

    /** `GEOADD drivers lng lat id`: Redis answers an error for a point out of
        range and stores nothing. */
    method GeoAdd(id: DriverId, p: Point) returns (ok: bool)
      modifies this`geo
      ensures ok == ValidLonLat(p)
      ensures geo == if ok then Add(old(geo), id, p) else old(geo)
    {
      ok := ValidLonLat(p);
      if ok {
        geo := geo[id := p];
      }
    }

    /** `ZREM drivers id`. */
    method GeoRemove(id: DriverId)
      modifies this`geo
      ensures geo == Remove(old(geo), id)
    {
      geo := geo - {id};
    }
  }
}
