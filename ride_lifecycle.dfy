/** What the ride handlers guarantee over many calls: the accept race has one
    winner, statuses only move along the lifecycle table, terminal rides stay
    put and a bound driver is never replaced, except through the unguarded
    status update, which undoes all of it. */
module RideLifecycle {
  import opened Basics
  import opened RideSchema
  import opened Realtime
  import opened GeoIndex
  import opened RideController

  /** One REST call on an existing ride. */
  datatype Op =
    | Respond(rideId: RideId, caller: DriverId, response: string)
    | Cancel(rideId: RideId)
    | Start(rideId: RideId)
    | Complete(rideId: RideId)
    | UpdateStatus(rideId: RideId, status: string)

  function Apply(rides: map<RideId, Ride>, op: Op): Effect
  {
    match op
    case Respond(id, caller, response) => RespondEffect(rides, id, caller, response)
    case Cancel(id) => CancelEffect(rides, id)
    case Start(id) => StartEffect(rides, id)
    case Complete(id) => CompleteEffect(rides, id)
    case UpdateStatus(id, status) => UpdateStatusEffect(rides, id, status)
  }

  /** The state after a sequence of calls, everything they emitted, and one
      reply per call. */
  datatype Trace = Trace(rides: map<RideId, Ride>, emitted: seq<Emission>, replies: seq<Reply>)

  function Run(rides: map<RideId, Ride>, ops: seq<Op>): (t: Trace)
    ensures |t.replies| == |ops|
    decreases |ops|
  {
    if ops == [] then
      Trace(rides, [], [])
    else
      var e := Apply(rides, ops[0]);
      var rest := Run(e.rides, ops[1..]);
      Trace(rest.rides, e.emitted + rest.emitted, [e.reply] + rest.replies)
  }

  /** Calls that go through the guarded handlers only. */
  predicate Guarded(ops: seq<Op>)
  {
    forall i :: 0 <= i < |ops| ==> !ops[i].UpdateStatus?
  }

  /** The lifecycle table, closed under composition: accept binds a driver to
      a requested ride, cancel ends any ride not yet terminal, and complete
      ends a trip. There is no edge into `onTrip`: the one handler that
      writes it has the write refused by validation. */
  predicate Follows(a: Ride, b: Ride)
  {
    || b == a
    || (a.status == REQUESTED && b == a.(status := ACCEPTED, driver := b.driver))
    || (a.status == REQUESTED && b == a.(status := CANCELLED, driver := b.driver))
    || (!Terminal(a.status) && b == a.(status := CANCELLED))
    || (a.status == ON_TRIP && b == a.(status := COMPLETED))
  }

  lemma FollowsTransitive(a: Ride, b: Ride, c: Ride)
    requires Follows(a, b) && Follows(b, c)
    ensures Follows(a, c)
  {
  }

  /** One guarded call keeps every ride and moves each along the table. */
  lemma ApplyFollows(rides: map<RideId, Ride>, op: Op)
    requires !op.UpdateStatus?
    ensures Apply(rides, op).rides.Keys == rides.Keys
    ensures forall id :: id in rides ==> Follows(rides[id], Apply(rides, op).rides[id])
  {
    OnTripOutsideEnum();
  }

  /** Any sequence of guarded calls moves each ride along the table. */
  lemma {:induction false} RunFollows(rides: map<RideId, Ride>, ops: seq<Op>)
    requires Guarded(ops)
    ensures Run(rides, ops).rides.Keys == rides.Keys
    ensures forall id :: id in rides ==> Follows(rides[id], Run(rides, ops).rides[id])
  {
    if ops != [] {
      var e := Apply(rides, ops[0]);
      ApplyFollows(rides, ops[0]);
      assert Guarded(ops[1..]) by {
        assert forall i :: 0 <= i < |ops[1..]| ==> ops[1..][i] == ops[i + 1];
      }
      RunFollows(e.rides, ops[1..]);
      forall id | id in rides
        ensures Follows(rides[id], Run(rides, ops).rides[id])
      {
        FollowsTransitive(rides[id], e.rides[id], Run(e.rides, ops[1..]).rides[id]);
      }
    }
  }

  /** Transition closure: once completed or cancelled, no guarded call
      changes a ride. */
  lemma TerminalIsFinal(rides: map<RideId, Ride>, ops: seq<Op>, id: RideId)
    requires Guarded(ops) && id in rides && Terminal(rides[id].status)
    ensures id in Run(rides, ops).rides && Run(rides, ops).rides[id] == rides[id]
  {
    RunFollows(rides, ops);
  }

  /** Once a ride has left `requested`, its driver is never replaced and it
      never returns to `requested`. */
  lemma DriverStaysBound(rides: map<RideId, Ride>, ops: seq<Op>, id: RideId)
    requires Guarded(ops) && id in rides && rides[id].status != REQUESTED
    ensures id in Run(rides, ops).rides
    ensures Run(rides, ops).rides[id].driver == rides[id].driver
    ensures Run(rides, ops).rides[id].status != REQUESTED
  {
    RunFollows(rides, ops);
  }

  /** No guarded call puts a ride into `onTrip`; so `completeRide` only
      succeeds on a ride whose status was written by `updateRideStatus`. */
  lemma OnTripNeverEntered(rides: map<RideId, Ride>, ops: seq<Op>, id: RideId)
    requires Guarded(ops) && id in rides && rides[id].status != ON_TRIP
    ensures id in Run(rides, ops).rides && Run(rides, ops).rides[id].status != ON_TRIP
  {
    RunFollows(rides, ops);
  }

  /** A driver's response: an unknown ride is 404; only a winning accept
      changes the store; a reject is relayed to the rider and changes
      nothing; any other answer is refused. */
  lemma RespondOutcomes(rides: map<RideId, Ride>, rideId: RideId, caller: DriverId, response: string)
    ensures var e := RespondEffect(rides, rideId, caller, response);
      && (rideId !in rides ==> e.reply == Fail(404, "Ride not found") && e.rides == rides && e.emitted == [])
      && (e.rides != rides ==> response == "accept" && e.reply == Ok)
      && (rideId in rides && response == "accept" ==>
            (e.reply == Ok <==> rides[rideId].status == REQUESTED)
            && (e.reply != Ok ==> e.reply == Fail(400, "Ride already taken") && e.rides == rides && e.emitted == []))
      && (rideId in rides && response == "reject" ==>
            e.reply == Ok && e.rides == rides && |e.emitted| == 1 && EventName(e.emitted[0].event) == "ride-rejected")
      && (rideId in rides && response != "accept" && response != "reject" ==>
            e.reply == Fail(400, "Invalid response") && e.rides == rides && e.emitted == [])
  {
  }

  /** A refused guarded call leaves the store and the log alone; an accepted
      cancel or complete performs exactly its transition. */
  lemma RefusedChangesNothing(rides: map<RideId, Ride>, op: Op)
    requires !op.UpdateStatus?
    ensures Apply(rides, op).reply != Ok ==> Apply(rides, op).rides == rides && Apply(rides, op).emitted == []
    ensures Apply(rides, op).reply == Ok && op.Cancel? ==>
      && op.rideId in rides && !Terminal(rides[op.rideId].status)
      && Apply(rides, op).rides == rides[op.rideId := rides[op.rideId].(status := CANCELLED)]
    ensures Apply(rides, op).reply == Ok && op.Complete? ==>
      && op.rideId in rides && rides[op.rideId].status == ON_TRIP
      && Apply(rides, op).rides == rides[op.rideId := rides[op.rideId].(status := COMPLETED)]
    ensures Apply(rides, op).reply == Ok ==> !op.Start?
  {
    OnTripOutsideEnum();
  }

  /** `startRide` never succeeds and never changes anything. */
  lemma StartNeverCommits(rides: map<RideId, Ride>, id: RideId)
    ensures StartEffect(rides, id).rides == rides
    ensures StartEffect(rides, id).emitted == []
    ensures StartEffect(rides, id).reply != Ok
    ensures id in rides && rides[id].status == ACCEPTED ==> StartEffect(rides, id).reply == Fail(500, SERVER_ERROR)
  {
    OnTripOutsideEnum();
  }

  /** The unguarded update is the only call that changes a terminal ride. */
  lemma OnlyUpdateStatusLeavesTerminal(rides: map<RideId, Ride>, op: Op, id: RideId)
    requires id in rides && Terminal(rides[id].status)
    requires id !in Apply(rides, op).rides || Apply(rides, op).rides[id] != rides[id]
    ensures op.UpdateStatus? && op.rideId == id
  {
    if !op.UpdateStatus? {
      ApplyFollows(rides, op);
    }
  }

  // ---------------------------------------------------------------------
  // The accept race
  // ---------------------------------------------------------------------

  /** Every caller answers "accept" on the same ride, in the order the
      compare-and-set serialises them. */
  function Accepts(rideId: RideId, callers: seq<DriverId>): (ops: seq<Op>)
    ensures |ops| == |callers|
    ensures forall i :: 0 <= i < |ops| ==> ops[i] == Respond(rideId, callers[i], "accept")
  {
    seq(|callers|, i requires 0 <= i < |callers| => Respond(rideId, callers[i], "accept"))
  }

  /** On a ride no longer `requested`, every accept loses, changes nothing
      and emits nothing. */
  lemma {:induction false} LateAcceptsLose(rides: map<RideId, Ride>, rideId: RideId, callers: seq<DriverId>)
    requires rideId in rides && rides[rideId].status != REQUESTED
    ensures Run(rides, Accepts(rideId, callers)).rides == rides
    ensures Run(rides, Accepts(rideId, callers)).emitted == []
    ensures forall i :: 0 <= i < |callers| ==> Run(rides, Accepts(rideId, callers)).replies[i] == Fail(400, "Ride already taken")
    decreases |callers|
  {
    if callers != [] {
      assert Accepts(rideId, callers)[1..] == Accepts(rideId, callers[1..]);
      LateAcceptsLose(rides, rideId, callers[1..]);
      var t := Run(rides, Accepts(rideId, callers));
      assert forall i :: 1 <= i < |callers| ==> t.replies[i] == Run(rides, Accepts(rideId, callers[1..])).replies[i - 1];
    }
  }

  /** At most one winner: of any number of accepts on a requested ride, the
      first binds its caller and is announced to the rider and to everyone;
      every later one is told the ride is taken. */
  lemma AcceptRace(rides: map<RideId, Ride>, rideId: RideId, callers: seq<DriverId>)
    requires rideId in rides && rides[rideId].status == REQUESTED && |callers| >= 1
    ensures var t := Run(rides, Accepts(rideId, callers));
      && t.replies[0] == Ok
      && (forall i :: 1 <= i < |callers| ==> t.replies[i] == Fail(400, "Ride already taken"))
      && t.rides == rides[rideId := rides[rideId].(status := ACCEPTED, driver := Some(callers[0]))]
      && t.emitted == [Emission(ToRoom(RiderRoom(rides[rideId].rider)), RideAccepted(rideId, callers[0])),
                       Emission(ToAll, RideRemoved(rideId))]
  {
    var ops := Accepts(rideId, callers);
    var e := Apply(rides, ops[0]);
    assert ops[1..] == Accepts(rideId, callers[1..]);
    LateAcceptsLose(e.rides, rideId, callers[1..]);
    var t := Run(rides, ops);
    assert forall i :: 1 <= i < |callers| ==> t.replies[i] == Run(e.rides, ops[1..]).replies[i - 1];
  }

  /** The unguarded update reopens the race: after a reset to `requested`, a
      second driver's accept succeeds and replaces the bound driver. */
  lemma StatusResetRebinds(rides: map<RideId, Ride>, rideId: RideId, first: DriverId, second: DriverId)
    requires rideId in rides && rides[rideId].status == REQUESTED
    ensures var t := Run(rides, [Respond(rideId, first, "accept"), UpdateStatus(rideId, REQUESTED), Respond(rideId, second, "accept")]);
      && t.replies == [Ok, Ok, Ok]
      && rideId in t.rides
      && t.rides[rideId].status == ACCEPTED
      && t.rides[rideId].driver == Some(second)
  {
    var ops := [Respond(rideId, first, "accept"), UpdateStatus(rideId, REQUESTED), Respond(rideId, second, "accept")];
    var r1 := Apply(rides, ops[0]).rides;
    var r2 := Apply(r1, ops[1]).rides;
    assert ops[1..][1..] == [ops[2]];
    assert Run(r2, [ops[2]]).replies == [Ok];
    assert Run(r1, ops[1..]).replies == [Ok, Ok];
  }

  // ---------------------------------------------------------------------
  // Requesting a ride
  // ---------------------------------------------------------------------

  function Targets(emitted: seq<Emission>): (r: seq<Target>)
    ensures |r| == |emitted| && forall i :: 0 <= i < |r| ==> r[i] == emitted[i].target
  {
    seq(|emitted|, i requires 0 <= i < |emitted| => emitted[i].target)
  }

  /** A request either creates exactly one ride, `requested`, with the
      nearest candidate as placeholder driver and the given points, or
      creates nothing and emits nothing. */
  lemma RequestCreatesOneRide(rides: map<RideId, Ride>, rider: UserId, body: RequestBody, newId: RideId, candidates: seq<DriverId>)
    requires newId !in rides
    ensures var e := RequestEffect(rides, rider, body, newId, candidates);
      && (e.reply == Ok <==> CoordsGiven(body) && ValidLonLat(PickupOf(body)) && candidates != [])
      && (e.reply != Ok ==> e.rides == rides && e.emitted == [])
      && (!CoordsGiven(body) ==> e.reply == Fail(400, "Pickup & dropoff coordinates required"))
      && (CoordsGiven(body) && ValidLonLat(PickupOf(body)) && candidates == [] ==> e.reply == Fail(404, "No nearby drivers available"))
      && (e.reply == Ok ==>
            && e.rides.Keys == rides.Keys + {newId}
            && (forall id :: id in rides ==> e.rides[id] == rides[id])
            && e.rides[newId].status == REQUESTED
            && e.rides[newId].rider == rider
            && e.rides[newId].driver == Some(candidates[0])
            && e.rides[newId].pickup == PickupOf(body)
            && e.rides[newId].dropoff == DropoffOf(body))
  {
  }

  /** Exactly one `new-ride-request` goes to each candidate: one emission per
      candidate, to that candidate's room, and no two to the same room. */
  lemma {:induction false} OneOfferPerCandidate(rides: map<RideId, Ride>, rider: UserId, body: RequestBody, newId: RideId, candidates: seq<DriverId>)
    requires Distinct(candidates)
    ensures var e := RequestEffect(rides, rider, body, newId, candidates);
      e.reply == Ok ==>
        && |e.emitted| == |candidates|
        && Distinct(Targets(e.emitted))
        && (forall i :: 0 <= i < |candidates| ==>
              e.emitted[i].target == ToRoom(DriverRoom(candidates[i]))
              && EventName(e.emitted[i].event) == "new-ride-request"
              && e.emitted[i].event.rideId == newId)
  {
    var e := RequestEffect(rides, rider, body, newId, candidates);
    if e.reply == Ok {
      forall i, j | 0 <= i < j < |candidates|
        ensures Targets(e.emitted)[i] != Targets(e.emitted)[j]
      {
        PrefixInjective("driver_", candidates[i], candidates[j]);
      }
    }
  }
}
