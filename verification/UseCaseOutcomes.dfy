/** What the use cases do to a linked world, told field by field: which requests are taken, and every entity afterwards. */
module UseCaseOutcomes {
  import opened Common
  import opened RouteSchedules
  import opened RouteScheduling
  import opened RouteLoads
  import opened Fleet
  import opened Reconciliation
  import opened ReconciliationLaws
  import opened Assignments
  import opened PassOutcomes
  import opened UseCaseSteps
  import opened UseCaseSafety

  // ----- which packages a route takes

  /** The pickup is still ahead: the route has not left, or it will leave the pickup's stop later. */
  predicate PickupAhead(r: RouteState, p: PackageState, now: Time)
    requires Shaped(r) && OnPath(r, p)
  {
    || r.schedule.None?
    || now < r.schedule.value.departure
    || (IndexOf(r.path, p.start) >= 1 && now <= ArrivalAt(r, p.start))
  }

  /** The route's truck, if it has one, carries the heaviest load once the package is aboard. */
  predicate LoadFits(w: World, rid: int, p: PackageState)
    requires Closed(w) && rid in w.routes
  {
    var r := w.routes[rid];
    r.truck.To? ==>
      MaximumLoad(r.path, LoadsOn(w, rid) + [PackageLoad(p.start, p.end, p.weight)]) <= w.trucks[r.truck.id].capacity as real
  }

  predicate RangeFits(w: World, rid: int)
    requires Closed(w) && rid in w.routes
  {
    w.routes[rid].truck.To? ==> DistanceKm(w.routes[rid].path) <= w.trucks[w.routes[rid].truck.id].maxRange
  }

  /** The policy is asked: the package exists and has no route. */
  predicate Asked(w: World, pid: int) {
    pid in w.packages && w.packages[pid].route.Unlinked?
  }

  /** In a linked world a route takes exactly a package that has no route, rides forwards on the path, can still be
      picked up, and fits its truck; each refusal has its one reason. */
  lemma RouteTakesPackageIff(w: World, rid: int, pid: int, now: Time)
    requires Linked(w) && rid in w.routes
    ensures Ready(w)
    ensures AssignOutcomeOf(w, rid, pid, now) == Assigned
       <==> Asked(w, pid) && var r, p := w.routes[rid], w.packages[pid];
            OnPath(r, p) && Forwards(r, p) && PickupAhead(r, p, now) && LoadFits(w, rid, p) && RangeFits(w, rid)
    ensures AssignOutcomeOf(w, rid, pid, now) == PackageMissing <==> pid !in w.packages
    ensures AssignOutcomeOf(w, rid, pid, now) == AlreadyOnRoute <==> pid in w.packages && w.packages[pid].route.To?
    ensures AssignOutcomeOf(w, rid, pid, now) == Refused(LOCATIONS_NOT_ON_ROUTE)
       <==> Asked(w, pid) && !OnPath(w.routes[rid], w.packages[pid])
    ensures AssignOutcomeOf(w, rid, pid, now) == Refused(LOCATIONS_OUT_OF_ORDER)
       <==> Asked(w, pid) && var r, p := w.routes[rid], w.packages[pid]; OnPath(r, p) && !Forwards(r, p)
    ensures AssignOutcomeOf(w, rid, pid, now) == Refused(PICKUP_ALREADY_PASSED)
       <==> Asked(w, pid) && var r, p := w.routes[rid], w.packages[pid]; OnPath(r, p) && Forwards(r, p) && !PickupAhead(r, p, now)
    ensures AssignOutcomeOf(w, rid, pid, now) == Refused(TRUCK_CAPACITY_EXCEEDED)
       <==> Asked(w, pid) && var r, p := w.routes[rid], w.packages[pid];
            OnPath(r, p) && Forwards(r, p) && PickupAhead(r, p, now) && !LoadFits(w, rid, p)
    ensures AssignOutcomeOf(w, rid, pid, now) == Refused(TRUCK_RANGE_EXCEEDED)
       <==> Asked(w, pid) && var r, p := w.routes[rid], w.packages[pid];
            OnPath(r, p) && Forwards(r, p) && PickupAhead(r, p, now) && LoadFits(w, rid, p) && !RangeFits(w, rid)
  {
    hide MaximumLoad, DistanceKm, PickupRejection;
    LinkedReady(w);
    if pid in w.packages {
      assert PackageLinked(w, pid) && RouteLinked(w, rid);
      PackageRoute(w, rid, pid);
      var r, p := w.routes[rid], w.packages[pid];
      if OnPath(r, p) {
        PickupTakenIff(r, p, now);
      }
    }
  }

  lemma PickupTakenIff(r: RouteState, p: PackageState, now: Time)
    requires Sound(r) && Shaped(r) && OnPath(r, p)
    ensures PickupRejection(r, p.start, now).None? <==> PickupAhead(r, p, now)
    ensures PickupRejection(r, p.start, now).Some? ==> PickupRejection(r, p.start, now).value == PICKUP_ALREADY_PASSED
  {
    if r.schedule.Some? {
      PickupAcceptedIff(r, p.start, now);
    }
  }

  // ----- the world with a package assigned

  /** What the schedule looks up for a stop, and what reconciliation wants a package of the route to show. */
  lemma ArrivalIsLookedUp(r: RouteState, p: PackageState, now: Time)
    requires Sound(r) && Shaped(r) && r.schedule.Some? && OnPath(r, p) && Forwards(r, p)
    ensures ArrivalTimeAt(r.schedule.value, p.end) == Some(ArrivalAt(r, p.end))
    ensures ProgressAt(r, p, now).arrival == Some(ArrivalAt(r, p.end))
  {
    ArrivalAtStop(r.schedule.value, IndexOf(r.path, p.end));
  }

  /** A package that is assigned is linked both ways and shows the scheduled arrival at its own end, so that no later
      pass has to recalculate it; nothing else changes. */
  lemma PackageTaken(w: World, rid: int, pid: int, now: Time)
    requires Linked(w) && rid in w.routes
    ensures Ready(w)
    ensures AssignOutcomeOf(w, rid, pid, now) != Assigned ==> AssignOne(w, rid, pid, now) == w
    ensures AssignOutcomeOf(w, rid, pid, now) == Assigned ==>
      pid in w.packages && OnPath(w.routes[rid], w.packages[pid]) && Shaped(w.routes[rid])
      && var r, p, v := w.routes[rid], w.packages[pid], AssignOne(w, rid, pid, now);
         var arrival := if r.schedule.None? then None else Some(ArrivalAt(r, p.end));
         v == World(w.customers,
                    w.packages[pid := PackageState(p.start, p.end, p.weight, p.customer, To(rid), To(rid), TODO, p.start, arrival,
                                                   p.events)],
                    w.routes[rid := RouteState(r.path, r.schedule, r.status, r.truck, r.packages + [pid],
                                               r.events + [PackageAssigned(pid, Unlinked, rid, None, arrival, now)])],
                    w.trucks)
  {
    hide MaximumLoad, DistanceKm, PickupRejection;
    RouteTakesPackageIff(w, rid, pid, now);
    if pid in w.packages {
      assert PackageLinked(w, pid) && RouteLinked(w, rid);
      PackageRoute(w, rid, pid);
    }
  }

  /** A pass never has to recalculate the arrival of a package that shows it. */
  lemma ArrivalStands(r: RouteState, p: PackageState, now: Time)
    requires Sound(r) && Shaped(r) && r.schedule.Some? && OnPath(r, p) && Forwards(r, p)
    ensures p.arrival == Some(ArrivalAt(r, p.end)) <==> EXPECTED_ARRIVAL_RECALCULATED !in Reasons(r, p, now)
  {
    ArrivalIsLookedUp(r, p, now);
  }

  /** No pass, at the instant of the assignment or later, has to recalculate the arrival of a package that was assigned. */
  lemma AssignedArrivalStands(w: World, rid: int, pid: int, now: Time, later: Time)
    requires Linked(w) && Ready(w) && rid in w.routes && AssignOutcomeOf(w, rid, pid, now) == Assigned
    ensures var v := AssignOne(w, rid, pid, now);
      && rid in v.routes && pid in v.packages && Shaped(v.routes[rid])
      && EXPECTED_ARRIVAL_RECALCULATED !in Reasons(v.routes[rid], v.packages[pid], later)
  {
    hide AssignOne, AssignOutcomeOf, Reasons, Linked, Ready;
    PackageTaken(w, rid, pid, now);
    var v := AssignOne(w, rid, pid, now);
    AcceptedRides(w, rid, pid, now);
    if w.routes[rid].schedule.Some? {
      ArrivalStands(v.routes[rid], v.packages[pid], later);
    } else {
      NothingToRecalculate(v.routes[rid], v.packages[pid], later);
    }
  }

  lemma AcceptedRides(w: World, rid: int, pid: int, now: Time)
    requires Linked(w) && Ready(w) && rid in w.routes && AssignOutcomeOf(w, rid, pid, now) == Assigned
    ensures pid in w.packages && Sound(w.routes[rid]) && Shaped(w.routes[rid])
    ensures OnPath(w.routes[rid], w.packages[pid]) && Forwards(w.routes[rid], w.packages[pid])
    ensures rid in AssignOne(w, rid, pid, now).routes && Sound(AssignOne(w, rid, pid, now).routes[rid])
  {
    RouteTakesPackageIff(w, rid, pid, now);
    AssignOneReady(w, rid, pid, now);
    hide AssignOutcomeOf, AssignOne, Linked;
  }

  lemma NothingToRecalculate(r: RouteState, p: PackageState, now: Time)
    requires Shaped(r) && r.schedule.None? && p.arrival.None?
    ensures EXPECTED_ARRIVAL_RECALCULATED !in Reasons(r, p, now)
  {
  }

  // ----- which trucks a route refuses

  /** The policy is asked: route and truck exist, and the route has no truck. */
  predicate TruckAsked(w: World, rid: int, tid: int) {
    rid in w.routes && tid in w.trucks && w.routes[rid].truck.Unlinked?
  }

  predicate RangeReaches(w: World, rid: int, tid: int)
    requires Closed(w) && TruckAsked(w, rid, tid)
  {
    DistanceKm(w.routes[rid].path) <= w.trucks[tid].maxRange
  }

  predicate CanCarry(w: World, rid: int, tid: int)
    requires Closed(w) && TruckAsked(w, rid, tid)
  {
    RangeReaches(w, rid, tid) && MaximumLoad(w.routes[rid].path, LoadsOn(w, rid)) <= w.trucks[tid].capacity as real
  }

  /** The truck ends the route it serves after this one leaves, or as it leaves. */
  predicate StillBusy(w: World, rid: int, tid: int, now: Time)
    requires Linked(w) && TruckAsked(w, rid, tid)
  {
    w.trucks[tid].route.To? &&
    (TruckRoutes(w, rid, tid);
     var r, current := w.routes[rid], w.routes[w.trucks[tid].route.id];
     (if r.schedule.None? then now else At(r, 0)) <= FinalArrival(current))
  }

  /** The truck is where the route starts, or will end there the route it serves. */
  predicate AtStart(w: World, rid: int, tid: int)
    requires Linked(w) && TruckAsked(w, rid, tid)
  {
    TruckRoutes(w, rid, tid);
    var t, start := w.trucks[tid], w.routes[rid].path[0];
    if t.route.Unlinked? then t.location == Some(start)
    else
      var path := w.routes[t.route.id].path;
      path[|path| - 1] == start
  }

  lemma TruckRoutes(w: World, rid: int, tid: int)
    requires Linked(w) && TruckAsked(w, rid, tid)
    ensures Sound(w.routes[rid]) && Shaped(w.routes[rid])
    ensures w.trucks[tid].route.To? ==>
      && w.trucks[tid].route.id in w.routes && Shaped(w.routes[w.trucks[tid].route.id])
      && w.routes[w.trucks[tid].route.id].schedule.Some?
  {
    assert RouteLinked(w, rid) && TruckLinked(w, tid);
    if w.trucks[tid].route.To? {
      assert RouteLinked(w, w.trucks[tid].route.id);
    }
  }

  /** In a linked world each refusal of a truck has its one reason; a missing schedule, an unknown availability or a
      missing place is never one. */
  lemma TruckRefusedIff(w: World, rid: int, tid: int, now: Time, commits: bool)
    requires Linked(w)
    ensures var outcome := AssignTruckOutcome(w, rid, tid, now, commits);
      && (outcome == RouteUnknown <==> rid !in w.routes)
      && (outcome == TruckUnknown <==> rid in w.routes && tid !in w.trucks)
      && (outcome == RouteTaken <==> rid in w.routes && tid in w.trucks && w.routes[rid].truck.To?)
      && (outcome == Unsuitable(TRUCK_RANGE_INSUFFICIENT) <==> TruckAsked(w, rid, tid) && !RangeReaches(w, rid, tid))
      && (outcome == Unsuitable(TRUCK_CAPACITY_INSUFFICIENT)
          <==> TruckAsked(w, rid, tid) && RangeReaches(w, rid, tid) && !CanCarry(w, rid, tid))
      && (outcome == Unsuitable(AVAILABILITY_WINDOW_OVERLAP)
          <==> TruckAsked(w, rid, tid) && CanCarry(w, rid, tid) && StillBusy(w, rid, tid, now))
      && (outcome == Unsuitable(TRUCK_AT_WRONG_LOCATION)
          <==> TruckAsked(w, rid, tid) && CanCarry(w, rid, tid) && !StillBusy(w, rid, tid, now) && !AtStart(w, rid, tid))
      && (outcome == TruckBusy
          <==> TruckAsked(w, rid, tid) && CanCarry(w, rid, tid) && !StillBusy(w, rid, tid, now) && AtStart(w, rid, tid)
               && w.trucks[tid].route.To?)
      && (outcome == TruckNotSaved || outcome == TruckOnRoute
          <==> TruckAsked(w, rid, tid) && CanCarry(w, rid, tid) && AtStart(w, rid, tid) && w.trucks[tid].route.Unlinked?)
      && (outcome == TruckNotSaved ==> !commits) && (outcome == TruckOnRoute ==> commits) && outcome != TruckNowhere
      && outcome != Unsuitable(TARGET_ROUTE_UNSCHEDULED) && outcome != Unsuitable(CURRENT_ROUTE_AVAILABILITY_UNKNOWN)
  {
    hide MaximumLoad, DistanceKm;
    if TruckAsked(w, rid, tid) {
      TruckRoutes(w, rid, tid);
      assert TruckLinked(w, tid);
      assert w.routes[rid].schedule.Some? ==> w.routes[rid].schedule.value.departure == At(w.routes[rid], 0);
    }
  }

  // ----- the world with a truck assigned

  /** A truck that is assigned serves the route and the route names it. A planned route is scheduled to leave now; a
      scheduled one keeps its schedule. The truck is busy from departure to final arrival, and stays where it is. */
  lemma TruckTaken(w: World, rid: int, tid: int, now: Time)
    requires Linked(w) && AssignTruckOutcome(w, rid, tid, now, true) == TruckOnRoute
    ensures rid in w.routes && tid in w.trucks && w.trucks[tid].location.Some? && |w.routes[rid].path| >= 2
    ensures var r, t, v := w.routes[rid], w.trucks[tid], AssignTruck(w, rid, tid, now, true);
      var s := if r.schedule.None? then ScheduleOf(r.path, now, SPEED_KMPH) else r.schedule.value;
      && |s.stops| == |r.path| && (r.schedule.None? ==> s.departure == now && s.stops[0].arrivalAt == now && r.status == PLANNED)
      && var eta := s.stops[|r.path| - 1].arrivalAt;
         v == World(w.customers, w.packages,
                    w.routes[rid := RouteState(
                      r.path, Some(s), if r.schedule.None? then SCHEDULED else r.status, To(tid), r.packages,
                      r.events
                      + (if r.schedule.None? then [RouteScheduled(rid, PLANNED, SCHEDULED, None, now, None, eta, now)] else [])
                      + [TruckAssigned(tid, rid, FREE, ON_THE_WAY, t.location.value, t.location.value, None, Some(s.departure),
                                       None, Some(eta), now)])],
                    w.trucks[tid := TruckState(t.capacity, t.maxRange, ON_THE_WAY, t.location, To(rid), Some(s.departure),
                                               Some(eta), None)])
  {
    hide MaximumLoad, DistanceKm;
    TruckTakesRouteIff(w, rid, tid, now, true);
    assert RouteLinked(w, rid) && TruckLinked(w, tid);
    var r := w.routes[rid];
    if r.schedule.None? {
      SchedulingIsTotal(r.path, now);
    } else {
      assert r.events + [] == r.events;
    }
  }

  // ----- the world without a route

  lemma RouteMayLeave(w: World, rid: int)
    requires Linked(w) && rid in w.routes
    ensures |w.routes[rid].path| >= 2 && !SomeUnlinkedPackage(w, w.routes[rid].packages)
    ensures w.routes[rid].truck.To? ==>
      w.routes[rid].truck.id in w.trucks
      && w.trucks[w.routes[rid].truck.id].route == To(rid) && w.trucks[w.routes[rid].truck.id].location.Some?
  {
    assert RouteLinked(w, rid);
  }

  /** A route that is removed takes nothing along: its packages are back at their start, its truck is free at the end of
      its path, and each of them is recorded. A removal that cannot be saved changes nothing. */
  lemma RouteTakenOut(w: World, rid: int, now: Time)
    requires Linked(w) && rid in w.routes
    ensures RemoveRoute(w, rid, now, false) == w && RemoveRouteOutcomeOf(w, rid, now, false) == RemovalNotSaved
    ensures RemoveRouteOutcomeOf(w, rid, now, true).RouteGone?
    ensures var r, v := w.routes[rid], RemoveRoute(w, rid, now, true);
      && |r.path| >= 2 && (r.truck.To? ==> r.truck.id in w.trucks)
      && v.customers == w.customers && v.routes == w.routes - {rid} && v.packages.Keys == w.packages.Keys
      && (forall pid <- w.packages :: v.packages[pid] ==
            var p := w.packages[pid];
            if p.route == To(rid)
            then PackageState(p.start, p.end, p.weight, p.customer, Unlinked, Unlinked, TODO, p.start, None, p.events) else p)
      && v.trucks ==
           if r.truck.Unlinked? then w.trucks
           else
             var t := w.trucks[r.truck.id];
             w.trucks[r.truck.id :=
               TruckState(t.capacity, t.maxRange, FREE, Some(r.path[|r.path| - 1]), Unlinked, None, None, None)]
  {
    hide StrippedRoute, RouteLinked;
    RouteMayLeave(w, rid);
    forall pid <- w.packages ensures pid in w.routes[rid].packages <==> w.packages[pid].route == To(rid) {
      PackageRoute(w, rid, pid);
    }
  }

  /** What a removal records, in order: each package that left, the truck if there was one, and the route itself. */
  lemma RouteRemovalRecorded(w: World, rid: int, now: Time) returns (left: seq<DomainEvent>)
    requires Linked(w) && rid in w.routes
    ensures Shaped(w.routes[rid]) && RemoveRouteOutcomeOf(w, rid, now, true).RouteGone?
    ensures w.routes[rid].truck.To? ==>
      w.routes[rid].truck.id in w.trucks && w.trucks[w.routes[rid].truck.id].location.Some?
    ensures var r := w.routes[rid];
      && |left| == |r.packages|
      && (forall k :: 0 <= k < |left| ==>
            && r.packages[k] in w.packages
            && var p := w.packages[r.packages[k]];
               left[k]
               == PackageDetached(r.packages[k], To(rid), p.status, TODO, p.location, p.start, p.arrival, None,
                                  REMOVED_WITH_ROUTE, now))
      && RemoveRouteOutcomeOf(w, rid, now, true).route.events
         == r.events + left
            + (if r.truck.Unlinked? then []
               else
                 var t := w.trucks[r.truck.id];
                 [TruckReleased(r.truck.id, To(rid), t.status, FREE, t.location.value, r.path[|r.path| - 1],
                                t.busyFrom, t.busyUntil, ROUTE_REMOVED, now)])
            + [RouteRemoved(rid, r.status, r.path, if r.schedule.None? then None else Some(r.schedule.value.departure),
                            if r.schedule.None? then None else Some(r.schedule.value.stops[|r.path| - 1].arrivalAt),
                            r.packages, r.truck, now)]
  {
    RouteTakenOut(w, rid, now);
    assert RouteLinked(w, rid);
    forall k | 0 <= k < |w.routes[rid].packages| ensures w.packages[w.routes[rid].packages[k]].route == To(rid) {
      PackageRoute(w, rid, w.routes[rid].packages[k]);
    }
    var states := PackagesOf(w, rid);
    left := DetachedEvents(w.routes[rid].packages, states, |states|, now);
  }

  // ----- the world without a package

  /** A list without its element at the position where `id` first occurs. */
  function Cut(ids: seq<int>, id: int): seq<int>
    requires id in ids
  {
    ids[..IndexOf(ids, id)] + ids[IndexOf(ids, id) + 1..]
  }

  /** A package that is removed leaves its customer's list and its route's list, and nothing else changes. */
  lemma PackageTakenOut(w: World, pid: int, now: Time)
    requires Linked(w) && pid in w.packages
    ensures var p := w.packages[pid];
      && pid in w.customers[p.customer].packages && (p.route.To? ==> pid in w.routes[p.route.id].packages)
      && var c, v := w.customers[p.customer], RemovePackage(w, pid, now, true);
         v == World(w.customers[p.customer := CustomerState(c.contact, Cut(c.packages, pid))],
                    w.packages - {pid},
                    if p.route.Unlinked? then w.routes
                    else
                      var r := w.routes[p.route.id];
                      w.routes[p.route.id := RouteState(
                        r.path, r.schedule, r.status, r.truck, Cut(r.packages, pid),
                        r.events + [PackageDetached(pid, p.route, p.status, TODO, p.location, p.start, p.arrival, None,
                                                    PACKAGE_REMOVED, now)])],
                    w.trucks)
  {
    RemovalOutcomes(w, pid, now, true);
  }

  /** The package itself takes along its baseline and a record of what it was. */
  lemma PackageRemovalRecorded(w: World, pid: int, now: Time)
    requires Linked(w) && pid in w.packages
    ensures var p := w.packages[pid];
      RemovePackageOutcomeOf(w, pid, now, true)
      == PackageGone(PackageState(p.start, p.end, p.weight, p.customer, Unlinked, Unlinked, TODO, p.start, None,
                       p.events + [PackageRemoved(pid, p.customer, p.route, p.status, p.location, p.start, p.end, p.weight,
                                                  p.arrival, now)]))
  {
    RemovalOutcomes(w, pid, now, true);
    assert PackageLinked(w, pid);
  }

  /** A removal that cannot be saved puts the package back at the end of both lists, with the scheduled arrival at its
      end when it was on a scheduled route; nothing else changes. */
  lemma PackagePutBack(w: World, pid: int, now: Time)
    requires Linked(w) && pid in w.packages
    ensures RemovePackageOutcomeOf(w, pid, now, false) == PackageNotSaved
    ensures var p := w.packages[pid];
      && pid in w.customers[p.customer].packages
      && (p.route.To? ==> pid in w.routes[p.route.id].packages && Shaped(w.routes[p.route.id]) && OnPath(w.routes[p.route.id], p))
      && var c, v := w.customers[p.customer], RemovePackage(w, pid, now, false);
         v == World(w.customers[p.customer := CustomerState(c.contact, Cut(c.packages, pid) + [pid])],
                    if p.route.To? && w.routes[p.route.id].schedule.Some?
                    then w.packages[pid := p.(arrival := Some(ArrivalAt(w.routes[p.route.id], p.end)))] else w.packages,
                    if p.route.Unlinked? then w.routes
                    else
                      var r := w.routes[p.route.id];
                      w.routes[p.route.id := RouteState(r.path, r.schedule, r.status, r.truck, Cut(r.packages, pid) + [pid],
                                                        r.events)],
                    w.trucks)
  {
    RemovalOutcomes(w, pid, now, false);
    var p := w.packages[pid];
    if p.route.To? {
      OnItsRoute(w, pid);
      assert RouteLinked(w, p.route.id) && PackageLinked(w, pid);
      var r := w.routes[p.route.id];
      assert w.packages[r.packages[IndexOf(r.packages, pid)]] == p;
      if r.schedule.None? {
        assert w.packages[pid := p] == w.packages;
      }
    }
  }
}
