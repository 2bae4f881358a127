/** The reconciliation service: brings one route, its truck and its packages to the schedule, step by step. */
module Reconciler {
  import opened Common
  import opened CityMap
  import opened RouteSchedules
  import opened Fleet
  import opened Reconciliation
  import opened UseCaseSteps
  import opened Entities

  // ----- route status

  /** Brings the status to the one the schedule gives, by a lifecycle step where there is one. */
  method ApplyStatus(route: DeliveryRoute, now: Time) returns (ok: bool, changed: bool, corrections: seq<Correction>)
    requires route.Valid()
    modifies route`status, route`events
    ensures ok <==> !StatusBlocked(old(route.State()), now)
    ensures ok ==> route.status == StatusAt(old(route.State()), now)
    ensures ok ==> route.events == old(route.events) + StatusEvents(route.routeId, old(route.State()), now)
    ensures ok ==> corrections == StatusCorrections(route.routeId, old(route.State()), now)
    ensures ok ==> (changed <==> old(route.status) != StatusAt(old(route.State()), now))
    ensures !ok ==> route.events == old(route.events)
  {
    ok, changed, corrections := true, false, [];
    var target :=
      if route.schedule.None? then PLANNED
      else if now < route.schedule.value.departure then SCHEDULED
      else if now >= EtaFinal(route.schedule.value) then COMPLETED
      else IN_PROGRESS;
    if route.status == target {
      return;
    }
    changed := true;
    match target {
      case IN_PROGRESS =>
        ok := route.MarkStarted(route.schedule.value.departure);
      case COMPLETED =>
        ok := route.MarkCompleted(EtaFinal(route.schedule.value));
      case _ =>
        var previous := route.status;
        route.status := target;
        corrections := [RouteStateReconciled(route.routeId, previous, target, route.DepartureTime(), route.EtaFinalTime(),
                                             if target == PLANNED then MISSING_DEPARTURE_TIME else BEFORE_SCHEDULED_DEPARTURE,
                                             now)];
    }
  }

  // ----- truck

  /** Clears stale transit state of a truck on an unscheduled route. */
  method SetTruckUnscheduled(truck: Truck) returns (moved: bool)
    modifies truck`inTransitTo
    ensures truck.inTransitTo == None && (moved <==> old(truck.inTransitTo).Some?)
  {
    if truck.inTransitTo.None? {
      return false;
    }
    truck.inTransitTo := None;
    return true;
  }

  /** Places the truck at the origin before departure. */
  method SetTruckBeforeStart(truck: Truck, route: DeliveryRoute) returns (moved: bool)
    modifies truck`location, truck`inTransitTo, truck`route
    ensures truck.location == Some(route.path[0]) && truck.inTransitTo == None && truck.route == route
    ensures moved <==> old(truck.location) != truck.location || old(truck.inTransitTo) != None
  {
    moved := truck.location != Some(route.StartLocation()) || truck.inTransitTo.Some?;
    truck.location, truck.inTransitTo, truck.route := Some(route.StartLocation()), None, route;
  }

  /** Sets the truck on its current segment. */
  method SetTruckInTransit(truck: Truck, route: DeliveryRoute, position: RoutePosition) returns (moved: bool)
    requires position.fromCity.Some?
    modifies truck`location, truck`inTransitTo, truck`route
    ensures truck.location == position.fromCity && truck.inTransitTo == position.toCity && truck.route == route
    ensures moved <==> old(truck.location) != truck.location || old(truck.inTransitTo) != truck.inTransitTo
  {
    moved := false;
    if position.fromCity.Some? && truck.location != position.fromCity {
      truck.location := position.fromCity;
      moved := true;
    }
    if truck.inTransitTo != position.toCity {
      moved := true;
    }
    truck.inTransitTo, truck.route := position.toCity, route;
  }

  /** Places the truck at the reached stop, and releases it there when that ends the route. */
  method SetTruckAtStop(truck: Truck, route: DeliveryRoute, city: LocationCode, now: Time)
    returns (moved: bool, released: bool)
    requires route.Valid() && route.truck == truck && truck.route == route
    modifies route`truck, route`events, truck
    ensures route.Valid()
    ensures moved <==> old(truck.location) != Some(city) || old(truck.inTransitTo) != None
    ensures released <==> city == route.EndLocation() && route.schedule.Some? && now >= EtaFinal(route.schedule.value)
    ensures route.truck == (if released then null else truck) && truck.route == (if released then null else route)
    ensures released ==> truck.State() == FreedTruck(old(truck.State()), city)
    ensures released ==> route.events == old(route.events) + [
      TruckReleased(truck.vehicleId, To(route.routeId), old(truck.status), FREE, city, city,
                    old(truck.busyFrom), old(truck.busyUntil), ROUTE_COMPLETED, EtaFinal(route.schedule.value))]
    ensures !released ==> route.events == old(route.events)
    ensures !released ==> truck.State() == old(truck.State()).(location := Some(city), inTransitTo := None)
  {
    moved := truck.location != Some(city) || truck.inTransitTo.Some?;
    truck.location, truck.inTransitTo, truck.route := Some(city), None, route;
    released := false;
    if city == route.EndLocation() && route.schedule.Some? && now >= EtaFinal(route.schedule.value) {
      var outcome := route.ReleaseTruck(now, false, ROUTE_COMPLETED, EtaFinal(route.schedule.value));
      released := outcome == ReleasedTruck;
    }
  }

  /** The scheduled truck state told case by case from the route's position. */
  lemma TruckByPosition(rid: int, r: RouteState, t: TruckState, now: Time)
    requires Sound(r) && Shaped(r) && t.route == To(rid)
    ensures var position := PositionOf(r, now); var end := r.path[|r.path| - 1];
      match position.kind
      case UNSCHEDULED => r.schedule.None? && TruckAt(rid, r, t, now) == t.(inTransitTo := None)
      case BEFORE_START => r.schedule.Some? && !ReleaseDue(r, now)
        && TruckAt(rid, r, t, now) == t.(location := Some(r.path[0]), inTransitTo := None)
      case AT_STOP => r.schedule.Some? && position.stopCity.Some? && now <= EtaFinal(r.schedule.value)
        && (ReleaseDue(r, now) <==> position.stopCity == Some(end))
        && (ReleaseDue(r, now) <==> now >= EtaFinal(r.schedule.value))
        && TruckAt(rid, r, t, now) == (if ReleaseDue(r, now) then FreedTruck(t, end)
                                       else t.(location := position.stopCity, inTransitTo := None))
      case IN_TRANSIT => r.schedule.Some? && position.fromCity.Some? && now < EtaFinal(r.schedule.value) && !ReleaseDue(r, now)
        && TruckAt(rid, r, t, now) == t.(location := position.fromCity, inTransitTo := position.toCity)
      case AFTER_END =>
        ReleaseDue(r, now) && now > EtaFinal(r.schedule.value) && TruckAt(rid, r, t, now) == FreedTruck(t, end)
  {
    if r.schedule.Some? && r.schedule.value.departure <= now {
      LastStopIsEnd(r, now);
    }
  }

  lemma LastStopIsEnd(r: RouteState, now: Time)
    requires Sound(r) && Shaped(r) && r.schedule.Some? && r.schedule.value.departure <= now
    ensures var s := r.schedule.value; var k := LastReached(s, now);
      && s.stops[k].location == r.path[k] && s.stops[k].arrivalAt <= now
      && (k + 1 < |r.path| ==> s.stops[k + 1].location == r.path[k + 1] && now < EtaFinal(s))
      && (r.path[k] == r.path[|r.path| - 1] <==> k + 1 == |r.path|)
      && (k + 1 == |r.path| <==> now >= EtaFinal(s))
  {
    var s := r.schedule.value;
    var k := LastReached(s, now);
    assert s.stops[0].arrivalAt == s.departure;
    if k + 1 < |r.path| {
      assert now < s.stops[|r.path| - 1].arrivalAt;
      assert r.path[k] != r.path[|r.path| - 1];
    }
  }

  /** The truck and its route are as the schedule wants them. */
  ghost predicate Placed(rid: int, r: RouteState, tid: int, t: TruckState, now: Time,
                         r': RouteState, t': TruckState, moved: bool, released: bool)
    requires Shaped(r)
  {
    && !TruckBlocked(rid, r, t, now)
    && t' == TruckAt(rid, r, t, now)
    && r' == r.(truck := if ReleaseDue(r, now) then Unlinked else r.truck,
                events := r.events + ReleaseEvents(rid, r, tid, t, now))
    && (moved ==> TruckMoves(rid, r, t, now))
    && released == ReleaseDue(r, now)
  }

  lemma PlacedWithoutRelease(rid: int, r: RouteState, tid: int, t: TruckState, now: Time, t': TruckState, moved: bool)
    requires Sound(r) && Shaped(r) && t.route == To(rid) && !ReleaseDue(r, now)
    requires t' == TruckAt(rid, r, t, now)
    requires moved ==> t'.location != t.location || t'.inTransitTo != t.inTransitTo
    ensures Placed(rid, r, tid, t, now, r, t', moved, false)
  {
    TruckByPosition(rid, r, t, now);
    assert r.events + [] == r.events;
  }

  method PlaceAtStop(route: DeliveryRoute, truck: Truck, city: LocationCode, now: Time)
    returns (moved: bool, released: bool)
    requires route.Valid() && route.truck == truck && truck.route == route
    requires route.CurrentPosition(now).kind == AT_STOP && route.CurrentPosition(now).stopCity == Some(city)
    modifies route`truck, route`events, truck
    ensures route.Valid()
    ensures Placed(route.routeId, old(route.State()), truck.vehicleId, old(truck.State()), now,
                   route.State(), truck.State(), moved, released)
    ensures route.truck == (if released then null else truck) && truck.route == (if released then null else route)
  {
    TruckByPosition(route.routeId, route.State(), truck.State(), now);
    moved, released := SetTruckAtStop(truck, route, city, now);
    if !released {
      PlacedWithoutRelease(route.routeId, old(route.State()), truck.vehicleId, old(truck.State()), now, truck.State(), moved);
    }
  }

  method PlaceAfterEnd(route: DeliveryRoute, truck: Truck, now: Time) returns (ok: bool)
    requires route.Valid() && route.truck == truck && truck.route == route
    requires route.CurrentPosition(now).kind == AFTER_END
    modifies route`truck, route`events, truck
    ensures route.Valid()
    ensures ok <==> old(truck.location).Some?
    ensures ok ==> Placed(route.routeId, old(route.State()), truck.vehicleId, old(truck.State()), now,
                          route.State(), truck.State(), false, true)
    ensures ok ==> route.truck == null && truck.route == null
    ensures !ok ==> route.truck == old(route.truck) && route.events == old(route.events)
  {
    TruckByPosition(route.routeId, route.State(), truck.State(), now);
    var outcome := route.ReleaseTruck(now, false, ROUTE_COMPLETED, EtaFinal(route.schedule.value));
    ok := outcome == ReleasedTruck;
  }

  /** Moves the truck of a route to where the position puts it. */
  method PlaceTruck(route: DeliveryRoute, truck: Truck, now: Time) returns (ok: bool, moved: bool, released: bool)
    requires route.Valid() && route.truck == truck && truck.route == route
    modifies route`truck, route`events, truck
    ensures route.Valid()
    ensures ok <==> !TruckBlocked(route.routeId, old(route.State()), old(truck.State()), now)
    ensures ok ==> Placed(route.routeId, old(route.State()), truck.vehicleId, old(truck.State()), now,
                          route.State(), truck.State(), moved, released)
    ensures ok ==> route.truck == (if released then null else truck) && truck.route == (if released then null else route)
    ensures !ok ==> route.truck == old(route.truck) && route.events == old(route.events)
  {
    ok, moved, released := true, false, false;
    ghost var rid, r, t := route.routeId, route.State(), truck.State();
    var position := route.CurrentPosition(now);
    TruckByPosition(rid, r, t, now);
    match position.kind {
      case UNSCHEDULED =>
        moved := SetTruckUnscheduled(truck);
        PlacedWithoutRelease(rid, r, truck.vehicleId, t, now, truck.State(), moved);
      case BEFORE_START =>
        moved := SetTruckBeforeStart(truck, route);
        PlacedWithoutRelease(rid, r, truck.vehicleId, t, now, truck.State(), moved);
      case AT_STOP =>
        moved, released := PlaceAtStop(route, truck, position.stopCity.value, now);
      case IN_TRANSIT =>
        moved := SetTruckInTransit(truck, route, position);
        PlacedWithoutRelease(rid, r, truck.vehicleId, t, now, truck.State(), moved);
      case AFTER_END =>
        released := PlaceAfterEnd(route, truck, now);
        ok := released;
    }
  }

  /** Reconciles the truck of a route: its reference to the route, its place, and its release. */
  method ReconcileTruck(route: DeliveryRoute, now: Time) returns (ok: bool, report: TruckReport)
    requires route.Valid() && route.truck != null
    requires route.truck.route != null && route.truck.route.routeId == route.routeId ==> route.truck.route == route
    modifies route`truck, route`events, route.truck
    ensures var truck := old(route.truck); var rid, r, t := route.routeId, old(route.State()), old(route.truck.State());
      && route.Valid()
      && (ok <==> !TruckBlocked(rid, r, t, now))
      && (ok ==> truck.State() == TruckAt(rid, r, t, now))
      && (ok ==> route.truck == (if ReleaseDue(r, now) then null else truck))
      && (ok ==> truck.route == (if ReleaseDue(r, now) then null else route))
      && (ok ==> route.events == old(route.events) + ReleaseEvents(rid, r, truck.vehicleId, t, now))
      && (ok ==> report == TruckReport(TruckMoves(rid, r, t, now), ReleaseDue(r, now), t.route.Unlinked?,
                                       TruckCorrections(rid, r, truck.vehicleId, t, now)))
    ensures !ok ==> route.truck == old(route.truck) && route.events == old(route.events)
  {
    var truck := route.truck;
    var corrections: seq<Correction> := [];
    var reconciled, moved, released := false, false, false;
    report := TruckReport(false, false, false, []);
    if truck.route == null {
      truck.route := route;
      corrections := [TruckRouteReferenceReconciled(truck.vehicleId, route.routeId, now)];
      reconciled := true;
    } else if truck.route != route {
      return false, report;
    }

    var kind := route.CurrentPosition(now).kind;
    var beforeLocation, beforeTransit := truck.location, truck.inTransitTo;
    ok, moved, released := PlaceTruck(route, truck, now);
    if !ok {
      return;
    }
    if truck.location != beforeLocation || truck.inTransitTo != beforeTransit {
      moved := true;
      corrections := corrections + [TruckPositionReconciled(truck.vehicleId, route.routeId, beforeLocation, truck.location,
                                                            beforeTransit, truck.inTransitTo, kind, now)];
    }
    report := TruckReport(moved, released, reconciled, corrections);
  }
}
