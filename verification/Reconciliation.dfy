/** Reconciliation told from the schedule: the state every route, truck and package should have at an instant,
    when a route cannot be brought there, and what a pass over the routes records. */
module Reconciliation {
  import opened Common
  import opened CityMap
  import opened RouteSchedules
  import opened Fleet

  datatype RouteReason = MISSING_DEPARTURE_TIME | BEFORE_SCHEDULED_DEPARTURE

  datatype PackageReason =
    | ROUTE_UNSCHEDULED
    | ROUTE_PATH_INVALID
    | BEFORE_SCHEDULED_PICKUP
    | LIFECYCLE_STATE_INCONSISTENT
    | ROUTE_PROGRESS_ADVANCED
    | EXPECTED_ARRIVAL_RECALCULATED

  /** Direct corrections, not represented by domain events. */
  datatype Correction =
    | RouteStateReconciled(routeId: int, previousStatus: RouteStatus, newStatus: RouteStatus,
                           departure: Option<Time>, eta: Option<Time>, reason: RouteReason, occurredAt: Time)
    | TruckRouteReferenceReconciled(truckId: int, newRouteId: int, occurredAt: Time)
    | TruckPositionReconciled(truckId: int, routeId: int,
                              previousLocation: Option<LocationCode>, newLocation: Option<LocationCode>,
                              previousInTransitTo: Option<LocationCode>, newInTransitTo: Option<LocationCode>,
                              kind: RoutePositionKind, occurredAt: Time)
    | PackageStateReconciled(packageId: int, routeId: int, previousItemStatus: ItemStatus, newItemStatus: ItemStatus,
                             previousPlace: LocationCode, newPlace: LocationCode,
                             previousArrival: Option<Time>, newArrival: Option<Time>,
                             pickupTime: Option<Time>, deliveryTime: Option<Time>,
                             reasons: seq<PackageReason>, occurredAt: Time)

  /** What a pass reports: the entities it changed and the corrections it made. */
  datatype Summary = Summary(
    routes: seq<int>,
    packages: seq<int>,
    trucksMoved: seq<int>,
    trucksReleased: seq<int>,
    trucksReconciled: seq<int>,
    corrections: seq<Correction>)

  const NOTHING := Summary([], [], [], [], [], [])

  function Join(a: Summary, b: Summary): Summary {
    Summary(a.routes + b.routes, a.packages + b.packages, a.trucksMoved + b.trucksMoved,
            a.trucksReleased + b.trucksReleased, a.trucksReconciled + b.trucksReconciled,
            a.corrections + b.corrections)
  }

  predicate StateChanged(s: Summary) {
    s.routes != [] || s.packages != [] || s.trucksMoved != [] || s.trucksReleased != [] || s.trucksReconciled != []
  }

  // ----- route

  /** The status the schedule gives a route. */
  function StatusAt(r: RouteState, now: Time): RouteStatus
    requires Shaped(r)
  {
    if r.schedule.None? then PLANNED
    else if now < r.schedule.value.departure then SCHEDULED
    else if now >= EtaFinal(r.schedule.value) then COMPLETED
    else IN_PROGRESS
  }

  /** No lifecycle step leads from the route's status to the one the schedule gives. */
  predicate StatusBlocked(r: RouteState, now: Time)
    requires Shaped(r)
  {
    || (StatusAt(r, now) == IN_PROGRESS && (r.status == PLANNED || r.status == COMPLETED))
    || (StatusAt(r, now) == COMPLETED && r.status == PLANNED)
  }

  function StatusEvents(rid: int, r: RouteState, now: Time): seq<DomainEvent>
    requires Shaped(r)
  {
    var target := StatusAt(r, now);
    if r.status == target || r.schedule.None? then []
    else
      var s := r.schedule.value;
      if target == IN_PROGRESS then [RouteStarted(rid, r.status, IN_PROGRESS, s.departure)]
      else if target == COMPLETED then [RouteCompleted(rid, r.status, COMPLETED, s.departure, EtaFinal(s), EtaFinal(s))]
      else []
  }

  function StatusCorrections(rid: int, r: RouteState, now: Time): seq<Correction>
    requires Shaped(r)
  {
    var target := StatusAt(r, now);
    if r.status == target || target == IN_PROGRESS || target == COMPLETED then []
    else [RouteStateReconciled(rid, r.status, target, Departure(r), Eta(r),
                               if target == PLANNED then MISSING_DEPARTURE_TIME else BEFORE_SCHEDULED_DEPARTURE, now)]
  }

  // ----- truck

  predicate ReleaseDue(r: RouteState, now: Time)
    requires Shaped(r)
  {
    StatusAt(r, now) == COMPLETED
  }

  /** The truck serves another route, or must be released from an unknown place. */
  predicate TruckBlocked(rid: int, r: RouteState, t: TruckState, now: Time)
    requires Shaped(r)
  {
    || (t.route.To? && t.route != To(rid))
    || (r.schedule.Some? && now > EtaFinal(r.schedule.value) && t.location.None?)
  }

  /** The truck of a route at an instant: at the origin before departure, at the last stop reached while the
      route is under way, free at the destination from the final arrival on. */
  function TruckAt(rid: int, r: RouteState, t: TruckState, now: Time): TruckState
    requires Shaped(r)
  {
    if r.schedule.None? then t.(route := To(rid), inTransitTo := None)
    else
      var s := r.schedule.value;
      if now < s.departure then t.(route := To(rid), location := Some(r.path[0]), inTransitTo := None)
      else if now >= EtaFinal(s) then
        t.(route := Unlinked, status := FREE, location := Some(r.path[|r.path| - 1]),
           inTransitTo := None, busyFrom := None, busyUntil := None)
      else
        var k := LastReached(s, now);
        t.(route := To(rid), location := Some(r.path[k]),
           inTransitTo := if k > 0 && now == s.stops[k].arrivalAt then None else Some(r.path[k + 1]))
  }

  function ReleaseEvents(rid: int, r: RouteState, tid: int, t: TruckState, now: Time): seq<DomainEvent>
    requires Shaped(r) && !TruckBlocked(rid, r, t, now)
  {
    if !ReleaseDue(r, now) then []
    else
      var end := r.path[|r.path| - 1];
      var eta := EtaFinal(r.schedule.value);
      [TruckReleased(tid, To(rid), t.status, FREE, if now == eta then end else t.location.value, end,
                     t.busyFrom, t.busyUntil, ROUTE_COMPLETED, eta)]
  }

  predicate TruckMoves(rid: int, r: RouteState, t: TruckState, now: Time)
    requires Shaped(r)
  {
    var t' := TruckAt(rid, r, t, now);
    t'.location != t.location || t'.inTransitTo != t.inTransitTo
  }

  function PositionOf(r: RouteState, now: Time): RoutePosition
    requires Shaped(r)
  {
    if r.schedule.None? then RoutePosition(UNSCHEDULED, None, None, Some(r.path[0]), None)
    else PositionByLastStop(r.schedule.value, now)
  }

  function TruckCorrections(rid: int, r: RouteState, tid: int, t: TruckState, now: Time): seq<Correction>
    requires Shaped(r)
  {
    var t' := TruckAt(rid, r, t, now);
    (if t.route.Unlinked? then [TruckRouteReferenceReconciled(tid, rid, now)] else [])
    + (if TruckMoves(rid, r, t, now)
       then [TruckPositionReconciled(tid, rid, t.location, t'.location, t.inTransitTo, t'.inTransitTo,
                                     PositionOf(r, now).kind, now)]
       else [])
  }

  // ----- packages

  predicate Travels(r: RouteState, p: PackageState)
    requires Shaped(r)
  {
    && r.schedule.Some? && p.start in r.path && p.end in r.path
    && IndexOf(r.path, p.start) <= IndexOf(r.path, p.end)
  }

  datatype Progress = Progress(status: ItemStatus, location: LocationCode, arrival: Option<Time>)

  function ProgressOf(p: PackageState): Progress {
    Progress(p.status, p.location, p.arrival)
  }

  /** A package of a route at an instant: waiting at its start before pickup, delivered at its end from the
      scheduled delivery on, otherwise at the last stop the route has reached. */
  function ProgressAt(r: RouteState, p: PackageState, now: Time): Progress
    requires Shaped(r)
  {
    if !Travels(r, p) then Progress(TODO, p.start, None)
    else if now < StopTime(r, p.start) then Progress(TODO, p.start, Some(StopTime(r, p.end)))
    else if now >= StopTime(r, p.end) then Progress(DONE, p.end, Some(StopTime(r, p.end)))
    else
      Progress(MOVING, r.path[LastReached(r.schedule.value, now)], Some(StopTime(r, p.end)))
  }

  /** A lifecycle step is due but the package does not know its route. */
  predicate PackageBlocked(r: RouteState, p: PackageState, now: Time)
    requires Shaped(r)
  {
    Travels(r, p) && p.routeId.Unlinked?
    && ((p.status == TODO && now >= StopTime(r, p.start)) || (p.status == MOVING && now >= StopTime(r, p.end)))
  }

  function PickupOf(r: RouteState, pid: int, p: PackageState, now: Time): seq<DomainEvent>
    requires Shaped(r) && !PackageBlocked(r, p, now)
  {
    if Travels(r, p) && now >= StopTime(r, p.start) && p.status == TODO
    then [PackagePickedUp(pid, p.routeId.id, TODO, MOVING, p.location, p.start, p.arrival, StopTime(r, p.start))]
    else []
  }

  function DeliveryOf(r: RouteState, pid: int, p: PackageState, now: Time): seq<DomainEvent>
    requires Shaped(r) && !PackageBlocked(r, p, now)
  {
    if Travels(r, p) && now >= StopTime(r, p.start) && now >= StopTime(r, p.end) && p.status != DONE
    then [PackageDelivered(pid, p.routeId.id, MOVING, DONE, if p.status == TODO then p.start else p.location,
                           p.end, p.arrival, StopTime(r, p.end))]
    else []
  }

  function LifecycleEvents(r: RouteState, pid: int, p: PackageState, now: Time): seq<DomainEvent>
    requires Shaped(r) && !PackageBlocked(r, p, now)
  {
    PickupOf(r, pid, p, now) + DeliveryOf(r, pid, p, now)
  }

  function PackageAfter(r: RouteState, pid: int, p: PackageState, now: Time): PackageState
    requires Shaped(r) && !PackageBlocked(r, p, now)
  {
    var q := ProgressAt(r, p, now);
    p.(status := q.status, location := q.location, arrival := q.arrival,
       events := p.events + LifecycleEvents(r, pid, p, now))
  }

  /** Corrections of status and location on a travelling package, not covered by lifecycle steps. */
  function StepReasons(r: RouteState, p: PackageState, now: Time): seq<PackageReason>
    requires Shaped(r) && Travels(r, p)
  {
    if now < StopTime(r, p.start) then
      if p.status != TODO || p.location != p.start then [BEFORE_SCHEDULED_PICKUP] else []
    else if now >= StopTime(r, p.end) then
      if p.status == DONE && p.location != p.end then [LIFECYCLE_STATE_INCONSISTENT] else []
    else
      (if p.status == DONE then [LIFECYCLE_STATE_INCONSISTENT] else [])
      + (if (if p.status == TODO then p.start else p.location) != ProgressAt(r, p, now).location
         then [ROUTE_PROGRESS_ADVANCED] else [])
  }

  /** Why a package was corrected directly; empty when only lifecycle steps were taken. */
  function Reasons(r: RouteState, p: PackageState, now: Time): (reasons: seq<PackageReason>)
    requires Shaped(r)
    ensures NoDup(reasons)
  {
    var q := ProgressAt(r, p, now);
    if Travels(r, p) then
      StepReasons(r, p, now) + (if p.arrival != q.arrival then [EXPECTED_ARRIVAL_RECALCULATED] else [])
    else
      (if p.arrival.Some? then [EXPECTED_ARRIVAL_RECALCULATED] else [])
      + (if ProgressOf(p) != q then [if r.schedule.None? then ROUTE_UNSCHEDULED else ROUTE_PATH_INVALID] else [])
  }

  function PackageCorrections(rid: int, r: RouteState, pid: int, p: PackageState, now: Time): seq<Correction>
    requires Shaped(r)
  {
    var q := ProgressAt(r, p, now);
    var reasons := Reasons(r, p, now);
    if reasons == [] then []
    else [PackageStateReconciled(pid, rid, p.status, q.status, p.location, q.location, p.arrival, q.arrival,
                                 if Travels(r, p) then Some(StopTime(r, p.start)) else None,
                                 if Travels(r, p) then Some(StopTime(r, p.end)) else None,
                                 reasons, now)]
  }

  // ----- one route, with its truck and its packages

  predicate AnyPackageBlocked(w: World, rid: int, now: Time)
    requires Closed(w) && rid in w.routes
  {
    exists k :: 0 <= k < |w.routes[rid].packages|
      && PackageBlocked(w.routes[rid], w.packages[w.routes[rid].packages[k]], now)
  }

  /** The pass over this route fails at some stage. */
  predicate Blocked(w: World, rid: int, now: Time)
    requires Closed(w) && rid in w.routes
  {
    var r := w.routes[rid];
    || StatusBlocked(r, now)
    || (r.truck.To? && TruckBlocked(rid, r, w.trucks[r.truck.id], now))
    || AnyPackageBlocked(w, rid, now)
  }

  /** The truck that serves a route, with its id. */
  function TruckIn(w: World, rid: int): Option<(int, TruckState)>
    requires Closed(w) && rid in w.routes
  {
    if w.routes[rid].truck.Unlinked? then None else Some((w.routes[rid].truck.id, w.trucks[w.routes[rid].truck.id]))
  }

  /** What a successful pass makes of the route. */
  function RouteTo(rid: int, r: RouteState, truck: Option<(int, TruckState)>, now: Time): RouteState
    requires Shaped(r) && (truck.Some? ==> !TruckBlocked(rid, r, truck.value.1, now))
  {
    r.(status := StatusAt(r, now),
       truck := if ReleaseDue(r, now) then Unlinked else r.truck,
       events := r.events + StatusEvents(rid, r, now)
                 + (if truck.Some? then ReleaseEvents(rid, r, truck.value.0, truck.value.1, now) else []))
  }

  function RouteAfter(w: World, rid: int, now: Time): RouteState
    requires Closed(w) && rid in w.routes && !Blocked(w, rid, now)
  {
    RouteTo(rid, w.routes[rid], TruckIn(w, rid), now)
  }

  function PackagesAfter(w: World, rid: int, now: Time): (ps: map<int, PackageState>)
    requires Closed(w) && rid in w.routes && !Blocked(w, rid, now)
    ensures ps.Keys == w.packages.Keys
  {
    var r := w.routes[rid];
    map pid <- w.packages :: if pid in r.packages then PackageAfter(r, pid, w.packages[pid], now) else w.packages[pid]
  }

  function TrucksAfter(w: World, rid: int, now: Time): (ts: map<int, TruckState>)
    requires Closed(w) && rid in w.routes
    ensures ts.Keys == w.trucks.Keys
  {
    var r := w.routes[rid];
    if r.truck.Unlinked? then w.trucks
    else w.trucks[r.truck.id := TruckAt(rid, r, w.trucks[r.truck.id], now)]
  }

  /** The world after the pass over one route: unchanged when the pass fails. */
  function WorldAfter(w: World, rid: int, now: Time): (w': World)
    requires Closed(w) && rid in w.routes
    ensures Closed(w') && w'.routes.Keys == w.routes.Keys
  {
    if Blocked(w, rid, now) then w
    else
      var w' := w.(routes := w.routes[rid := RouteAfter(w, rid, now)],
                   packages := PackagesAfter(w, rid, now),
                   trucks := TrucksAfter(w, rid, now));
      assert Closed(w');
      w'
  }

  /** For each package, its id when its progress changes. */
  function ChangedIds(r: RouteState, ids: seq<int>, states: seq<PackageState>, now: Time): (parts: seq<seq<int>>)
    requires Shaped(r) && |states| == |ids|
    ensures |parts| == |ids|
    ensures forall k :: 0 <= k < |ids| ==> parts[k] == if ProgressOf(states[k]) != ProgressAt(r, states[k], now) then [ids[k]] else []
  {
    seq(|ids|, k requires 0 <= k < |ids| => if ProgressOf(states[k]) != ProgressAt(r, states[k], now) then [ids[k]] else [])
  }

  /** For each package, its correction if it has one. */
  function CorrectionsByPackage(rid: int, r: RouteState, ids: seq<int>, states: seq<PackageState>, now: Time): (parts: seq<seq<Correction>>)
    requires Shaped(r) && |states| == |ids|
    ensures |parts| == |ids|
    ensures forall k :: 0 <= k < |ids| ==> parts[k] == PackageCorrections(rid, r, ids[k], states[k], now)
  {
    seq(|ids|, k requires 0 <= k < |ids| => PackageCorrections(rid, r, ids[k], states[k], now))
  }

  /** The states of a route's packages, in list order. */
  function PackagesOf(w: World, rid: int): (states: seq<PackageState>)
    requires Closed(w) && rid in w.routes
    ensures |states| == |w.routes[rid].packages|
    ensures forall k :: 0 <= k < |states| ==> states[k] == w.packages[w.routes[rid].packages[k]]
  {
    seq(|w.routes[rid].packages|, k requires 0 <= k < |w.routes[rid].packages| => w.packages[w.routes[rid].packages[k]])
  }

  /** What the stage of the truck reports. */
  datatype TruckReport = TruckReport(moved: bool, released: bool, reconciled: bool, corrections: seq<Correction>)

  /** What the stages before the packages report. */
  datatype Stages = Stages(changed: bool, statusCorrections: seq<Correction>, truck: TruckReport)

  const NO_TRUCK := TruckReport(false, false, false, [])

  function StagesOf(rid: int, r: RouteState, truck: Option<(int, TruckState)>, now: Time): Stages
    requires Shaped(r)
  {
    Stages(r.status != StatusAt(r, now), StatusCorrections(rid, r, now),
           if truck.None? then NO_TRUCK
           else
             var (tid, t) := truck.value;
             TruckReport(TruckMoves(rid, r, t, now), ReleaseDue(r, now), t.route.Unlinked?, TruckCorrections(rid, r, tid, t, now)))
  }

  function SummaryFor(rid: int, r: RouteState, truck: Option<(int, TruckState)>, ids: seq<int>,
                            states: seq<PackageState>, now: Time): Summary
    requires Shaped(r) && |ids| == |states|
  {
    var stages := StagesOf(rid, r, truck, now);
    SummaryFrom(rid, stages, if truck.None? then 0 else truck.value.0, Concat(ChangedIds(r, ids, states, now)),
                Concat(CorrectionsByPackage(rid, r, ids, states, now)))
  }

  function SummaryFrom(rid: int, stages: Stages, tid: int, changed: seq<int>, corrections: seq<Correction>): Summary {
    Summary(if stages.changed then [rid] else [], changed,
            if stages.truck.moved then [tid] else [],
            if stages.truck.released then [tid] else [],
            if stages.truck.reconciled then [tid] else [],
            stages.statusCorrections + stages.truck.corrections + corrections)
  }

  /** What the pass over one route reports. */
  function SummaryOf(w: World, rid: int, now: Time): Summary
    requires Closed(w) && rid in w.routes
  {
    if Blocked(w, rid, now) then NOTHING
    else SummaryFor(rid, w.routes[rid], TruckIn(w, rid), w.routes[rid].packages, PackagesOf(w, rid), now)
  }

  // ----- a pass over routes, one after another

  function Pass(w: World, ids: seq<int>, now: Time): (out: (World, Summary))
    requires Closed(w) && forall k :: 0 <= k < |ids| ==> ids[k] in w.routes
    ensures Closed(out.0) && out.0.routes.Keys == w.routes.Keys
  {
    if ids == [] then (w, NOTHING)
    else
      var n := |ids| - 1;
      var (w1, s1) := Pass(w, ids[..n], now);
      (WorldAfter(w1, ids[n], now), Join(s1, SummaryOf(w1, ids[n], now)))
  }
}
