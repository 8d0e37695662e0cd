/** Values shared by every part of the dispatch backend: optional values,
    identifiers, points and the HTTP-style replies of the REST handlers. */
module Basics {

  datatype Option<+T> = None | Some(value: T)

  /** The outcome of a store operation that can be refused (schema validation,
      a unique index). */
  datatype Result<+T> = Success(value: T) | Failure(error: string)

  /** Identifiers are the string forms of database ids (MongoDB ObjectIds). */
  type RideId = string
  type DriverId = string
  type UserId = string
  type ConnId = string

  /** A geographic point. Coordinates are fixed-point integers (millionths of a
      degree) so that no floating point is involved. */
  datatype Point = Point(lat: int, lng: int)

  /** The metric the geo store uses, in metres. It is injected, not computed. */
  type Metric = (Point, Point) -> nat

  /** What a REST handler sends back: success (HTTP 200) or an error status
      with the error text of the JSON body. */
  datatype Reply = Ok | Fail(status: nat, error: string)

  /** The text every handler's catch block answers with (HTTP 500). */
  const SERVER_ERROR := "Server error"

  /** JavaScript truthiness of a numeric body field: `undefined` and `0` are
      falsy. */
  predicate Truthy(v: Option<int>)
  {
    v.Some? && v.value != 0
  }

  /** How a template literal renders an optional string: `undefined` when it
      is absent. */
  function Render(v: Option<string>): string
  {
    if v.Some? then v.value else "undefined"
  }

  /** No element occurs twice. */
  predicate Distinct<T(==)>(s: seq<T>)
  {
    forall i, j :: 0 <= i < j < |s| ==> s[i] != s[j]
  }

  /** Prepending the same prefix is injective: two rooms built from one prefix
      are equal only when their ids are. */
  lemma PrefixInjective(p: string, a: string, b: string)
    ensures p + a == p + b <==> a == b
  {
    assert a == (p + a)[|p|..];
    assert b == (p + b)[|p|..];
  }
}
