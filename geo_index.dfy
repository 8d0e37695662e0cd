/** The Redis `drivers` geo set: driver id to last reported point, with the
    add, remove and radius-search commands the controllers and the socket
    server send to it. The metric is a parameter (Redis computes haversine
    metres in floating point). */
module GeoIndex {
  import opened Basics

  /** Redis refuses points beyond these bounds (85.05112878 degrees of
      latitude, 180 degrees of longitude), in millionths of a degree. */
  const LAT_LIMIT := 85051128
  const LNG_LIMIT := 180000000

  predicate ValidLonLat(p: Point)
  {
    -LAT_LIMIT <= p.lat <= LAT_LIMIT && -LNG_LIMIT <= p.lng <= LNG_LIMIT
  }

  /** One `WITHDIST` reply entry: a member and its distance from the centre. */
  datatype Hit = Hit(driver: DriverId, distance: nat)

  function DistanceOf(geo: map<DriverId, Point>, center: Point, dist: Metric, d: DriverId): nat
    requires d in geo
  {
    dist(geo[d], center)
  }

  predicate InRadius(geo: map<DriverId, Point>, center: Point, radius: nat, dist: Metric, d: DriverId)
  {
    d in geo && dist(geo[d], center) <= radius
  }

  /** `GEOADD`: insert or overwrite one member. */
  function Add(geo: map<DriverId, Point>, d: DriverId, p: Point): (r: map<DriverId, Point>)
    ensures d in r && r[d] == p
    ensures forall e :: e != d ==> (e in r <==> e in geo) && (e in geo ==> r[e] == geo[e])
  {
    geo[d := p]
  }

  /** `ZREM`: drop one member; an absent member is no error. */
  function Remove(geo: map<DriverId, Point>, d: DriverId): (r: map<DriverId, Point>)
    ensures d !in r
    ensures forall e :: e != d ==> (e in r <==> e in geo) && (e in geo ==> r[e] == geo[e])
  {
    geo - {d}
  }

  /** Removing twice is removing once, and removing an absent member changes
      nothing. */
  lemma RemoveIdempotent(geo: map<DriverId, Point>, d: DriverId)
    ensures Remove(Remove(geo, d), d) == Remove(geo, d)
    ensures d !in geo ==> Remove(geo, d) == geo
  {
  }

  function Drivers(hits: seq<Hit>): (ids: seq<DriverId>)
    ensures |ids| == |hits| && forall i :: 0 <= i < |hits| ==> ids[i] == hits[i].driver
  {
    seq(|hits|, i requires 0 <= i < |hits| => hits[i].driver)
  }

  /** What an unordered radius search (`GEOSEARCH ... BYRADIUS r m WITHDIST`,
      `GEORADIUS`) answers: every member within the radius exactly once, with
      its distance, in no particular order. */
  ghost predicate IsRadiusResult(geo: map<DriverId, Point>, center: Point, radius: nat, dist: Metric, hits: seq<Hit>)
  {
    && Distinct(Drivers(hits))
    && (forall i :: 0 <= i < |hits| ==>
          hits[i].driver in geo && hits[i].distance == dist(geo[hits[i].driver], center) && hits[i].distance <= radius)
    && (forall d :: InRadius(geo, center, radius, dist, d) ==> d in Drivers(hits))
  }

  method SearchRadius(geo: map<DriverId, Point>, center: Point, radius: nat, dist: Metric) returns (hits: seq<Hit>)
    ensures IsRadiusResult(geo, center, radius, dist, hits)
  {
    hits := [];
    var todo := geo.Keys;
    while todo != {}
      invariant todo <= geo.Keys
      invariant Distinct(Drivers(hits))
      invariant forall i :: 0 <= i < |hits| ==>
        hits[i].driver in geo && hits[i].driver !in todo
        && hits[i].distance == dist(geo[hits[i].driver], center) && hits[i].distance <= radius
      invariant forall d :: InRadius(geo, center, radius, dist, d) && d !in todo ==> d in Drivers(hits)
      decreases todo
    {
      var d :| d in todo;
      todo := todo - {d};
      var k := dist(geo[d], center);
      if k <= radius {
        assert Drivers(hits + [Hit(d, k)]) == Drivers(hits) + [d];
        hits := hits + [Hit(d, k)];
      }
    }
  }

  /** What `GEOSEARCH ... BYRADIUS r m ASC COUNT n` answers: distinct members
      within the radius, nearest first, as many as `count` allows, and no
      member left out is nearer than one returned. */
  ghost predicate IsNearestResult(geo: map<DriverId, Point>, center: Point, radius: nat, count: nat, dist: Metric, ids: seq<DriverId>)
  {
    && Distinct(ids)
    && |ids| <= count
    && (forall i :: 0 <= i < |ids| ==> InRadius(geo, center, radius, dist, ids[i]))
    && (forall i, j :: 0 <= i < j < |ids| ==> dist(geo[ids[i]], center) <= dist(geo[ids[j]], center))
    && (forall d, i :: InRadius(geo, center, radius, dist, d) && d !in ids && 0 <= i < |ids| ==>
          dist(geo[ids[i]], center) <= dist(geo[d], center))
    && (|ids| < count ==> forall d :: InRadius(geo, center, radius, dist, d) ==> d in ids)
  }

  /** A nonempty finite set of indexed drivers has one nearest the centre. */
  lemma {:induction false} NearestExists(s: set<DriverId>, geo: map<DriverId, Point>, center: Point, dist: Metric)
    requires s != {} && s <= geo.Keys
    ensures exists d :: d in s && forall e :: e in s ==> dist(geo[d], center) <= dist(geo[e], center)
  {
    var x :| x in s;
    if s != {x} {
      NearestExists(s - {x}, geo, center, dist);
      var m :| m in s - {x} && forall e :: e in s - {x} ==> dist(geo[m], center) <= dist(geo[e], center);
      if dist(geo[x], center) <= dist(geo[m], center) {
        assert forall e :: e in s ==> dist(geo[x], center) <= dist(geo[e], center);
      } else {
        assert forall e :: e in s ==> dist(geo[m], center) <= dist(geo[e], center);
      }
    } else {
      assert forall e :: e in s ==> e == x;
    }
  }

  /** The sorted, limited search, by repeatedly taking the nearest member not
      yet returned. */
  method SearchNearest(geo: map<DriverId, Point>, center: Point, radius: nat, count: nat, dist: Metric) returns (ids: seq<DriverId>)
    ensures IsNearestResult(geo, center, radius, count, dist, ids)
  {
    var remaining := set d | d in geo && dist(geo[d], center) <= radius;
    ids := [];
    while |ids| < count && remaining != {}
      invariant remaining <= geo.Keys
      invariant forall d :: d in remaining <==> InRadius(geo, center, radius, dist, d) && d !in ids
      invariant Distinct(ids) && |ids| <= count
      invariant forall i :: 0 <= i < |ids| ==> InRadius(geo, center, radius, dist, ids[i])
      invariant forall i, j :: 0 <= i < j < |ids| ==> dist(geo[ids[i]], center) <= dist(geo[ids[j]], center)
      invariant forall d, i :: d in remaining && 0 <= i < |ids| ==> dist(geo[ids[i]], center) <= dist(geo[d], center)
      decreases remaining
    {
      NearestExists(remaining, geo, center, dist);
      var d :| d in remaining && forall e :: e in remaining ==> dist(geo[d], center) <= dist(geo[e], center);
      ids := ids + [d];
      remaining := remaining - {d};
    }
  }

  /** With a single member in range, a search that may return one result
      returns that member, whatever the member's other records say. */
  lemma {:induction false} LoneMemberIsFound(geo: map<DriverId, Point>, center: Point, radius: nat, count: nat, dist: Metric, d: DriverId, ids: seq<DriverId>)
    requires InRadius(geo, center, radius, dist, d)
    requires forall e :: InRadius(geo, center, radius, dist, e) ==> e == d
    requires count >= 1 && IsNearestResult(geo, center, radius, count, dist, ids)
    ensures |ids| >= 1 && ids[0] == d
    ensures forall i :: 0 <= i < |ids| ==> ids[i] == d
  {
    if |ids| < count {
      assert d in ids;
    } else {
      assert ids[0] == d;
    }
  }
}
