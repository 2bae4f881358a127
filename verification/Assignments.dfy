/** The decisions behind assignments: may this route take this package, may this truck serve this route. */
module Assignments {
  import opened Common
  import opened CityMap
  import opened RoutePaths
  import opened RouteSchedules
  import opened Fleet
  import opened Reconciliation
  import opened RepeatLaws

  datatype PackageRejection =
    | LOCATIONS_NOT_ON_ROUTE
    | LOCATIONS_OUT_OF_ORDER
    | PICKUP_ALREADY_PASSED
    | TRUCK_CAPACITY_EXCEEDED
    | TRUCK_RANGE_EXCEEDED

  datatype TruckRejection =
    | TRUCK_RANGE_INSUFFICIENT
    | TRUCK_CAPACITY_INSUFFICIENT
    | TRUCK_AT_WRONG_LOCATION
    | TARGET_ROUTE_UNSCHEDULED
    | CURRENT_ROUTE_AVAILABILITY_UNKNOWN
    | AVAILABILITY_WINDOW_OVERLAP

  // ----- packages

  function CompatibilityRejection(path: seq<LocationCode>, start: LocationCode, end: LocationCode): Option<PackageRejection> {
    if start !in path || end !in path then Some(LOCATIONS_NOT_ON_ROUTE)
    else if !IncludesInOrder(path, start, end) then Some(LOCATIONS_OUT_OF_ORDER)
    else None
  }

  lemma PositionOnPath(r: RouteState, now: Time)
    requires Sound(r) && Shaped(r)
    ensures PositionOf(r, now).stopCity.Some? ==> PositionOf(r, now).stopCity.value in r.path
    ensures PositionOf(r, now).fromCity.Some? ==> PositionOf(r, now).fromCity.value in r.path
  {
    if r.schedule.Some? {
      assert forall k :: 0 <= k < |r.path| ==> r.schedule.value.stops[k].location == r.path[k];
    }
  }

  /** Rejects a pickup the route has already passed, judged from its position. */
  function PickupRejection(r: RouteState, start: LocationCode, now: Time): Option<PackageRejection>
    requires Sound(r) && Shaped(r) && start in r.path
  {
    if r.schedule.None? then None
    else
      PositionOnPath(r, now);
      var pickup := IndexOf(r.path, start);
      var position := PositionOf(r, now);
      match position.kind
      case UNSCHEDULED => None
      case BEFORE_START => None
      case AT_STOP =>
        if position.stopCity.Some? && IndexOf(r.path, position.stopCity.value) > pickup
        then Some(PICKUP_ALREADY_PASSED) else None
      case IN_TRANSIT =>
        if position.fromCity.Some? && IndexOf(r.path, position.fromCity.value) >= pickup
        then Some(PICKUP_ALREADY_PASSED) else None
      case AFTER_END => Some(PICKUP_ALREADY_PASSED)
  }

  /** Checks the load, candidate included, and the distance against the assigned truck. */
  function LimitRejection(truck: Option<TruckState>, load: real, km: int): Option<PackageRejection> {
    if truck.None? then None
    else if load > truck.value.capacity as real then Some(TRUCK_CAPACITY_EXCEEDED)
    else if truck.value.maxRange < km then Some(TRUCK_RANGE_EXCEEDED)
    else None
  }

  /** The first rejection, or `None` when the route may take the package. */
  function EvaluatePackage(r: RouteState, truck: Option<TruckState>, load: real, p: PackageState, now: Time): Option<PackageRejection>
    requires Sound(r) && Shaped(r)
  {
    var compatible := CompatibilityRejection(r.path, p.start, p.end);
    if compatible.Some? then compatible
    else
      var pickup := PickupRejection(r, p.start, now);
      if pickup.Some? then pickup else LimitRejection(truck, load, DistanceKm(r.path))
  }

  lemma LastReachedIs(r: RouteState, now: Time, i: nat)
    requires Sound(r) && Shaped(r) && r.schedule.Some? && i < |r.path|
    ensures var s := r.schedule.value; var k := LastReached(s, now);
      && (s.departure <= now ==> s.stops[0].arrivalAt <= s.stops[k].arrivalAt <= now)
      && (i <= k && s.departure <= now ==> s.stops[i].arrivalAt <= s.stops[k].arrivalAt)
      && (i < k && s.departure <= now ==> s.stops[i].arrivalAt < s.stops[k].arrivalAt)
      && (k < i ==> now < s.stops[i].arrivalAt)
  {
    var s := r.schedule.value;
    var k := LastReached(s, now);
    assert s.stops[0].arrivalAt == s.departure;
  }

  lemma PositionIndex(r: RouteState, now: Time)
    requires Sound(r) && Shaped(r) && r.schedule.Some?
    ensures var s := r.schedule.value; var k := LastReached(s, now); var position := PositionOf(r, now);
      && k < |r.path|
      && (position.stopCity.Some? && s.departure <= now ==> position.stopCity == Some(r.path[k]))
      && (position.fromCity.Some? ==> position.fromCity == Some(r.path[k]))
  {
    var s := r.schedule.value;
    assert s.stops[LastReached(s, now)].location == r.path[LastReached(s, now)];
  }

  /** On a scheduled route a pickup is accepted exactly before departure, or at a later stop until the route's
      arrival there. */
  lemma PickupAcceptedIff(r: RouteState, start: LocationCode, now: Time)
    requires Sound(r) && Shaped(r) && r.schedule.Some? && start in r.path
    ensures PickupRejection(r, start, now).None?
       <==> now < r.schedule.value.departure || (IndexOf(r.path, start) >= 1 && now <= StopTime(r, start))
  {
    var s := r.schedule.value;
    var i := IndexOf(r.path, start);
    var k := LastReached(s, now);
    PositionOnPath(r, now);
    PositionIndex(r, now);
    LastReachedIs(r, now, i);
    IndexOfIsUnique(r.path, k);
  }

  /** A waiting package accepted at an instant and reconciled at that instant is still at its own start: waiting
      or just picked up, never moved on or delivered. */
  lemma AcceptedPackageStaysAtStart(r: RouteState, p: PackageState, now: Time)
    requires Sound(r) && Shaped(r) && IncludesInOrder(r.path, p.start, p.end)
    requires PickupRejection(r, p.start, now).None?
    ensures ProgressAt(r, p, now).status != DONE && ProgressAt(r, p, now).location == p.start
  {
    if r.schedule.Some? {
      var i, j := IndexOf(r.path, p.start), IndexOf(r.path, p.end);
      PickupAcceptedIff(r, p.start, now);
      StopsInOrder(r, 0, i);
      assert StopTime(r, p.start) < StopTime(r, p.end);
      LastReachedIs(r, now, i);
    }
  }

  // ----- trucks

  /** Suitability of a truck for a route: range, capacity, then where and when the truck is available.
      `current` is the route the truck serves now. */
  function EvaluateTruck(t: TruckState, current: Option<RouteState>, km: int, load: real, start: LocationCode,
                         departure: Option<Time>): Option<TruckRejection>
    requires current.Some? ==> Shaped(current.value)
  {
    if t.maxRange < km then Some(TRUCK_RANGE_INSUFFICIENT)
    else if (t.capacity as real) < load then Some(TRUCK_CAPACITY_INSUFFICIENT)
    else if current.None? then
      if t.location != Some(start) then Some(TRUCK_AT_WRONG_LOCATION) else None
    else if departure.None? then Some(TARGET_ROUTE_UNSCHEDULED)
    else if Eta(current.value).None? then Some(CURRENT_ROUTE_AVAILABILITY_UNKNOWN)
    else if Eta(current.value).value >= departure.value then Some(AVAILABILITY_WINDOW_OVERLAP)
    else if current.value.path[|current.value.path| - 1] != start then Some(TRUCK_AT_WRONG_LOCATION)
    else None
  }
}
