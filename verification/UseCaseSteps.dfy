/** What each use case does to the world, commit or rollback included. */
module UseCaseSteps {
  import opened Common
  import opened CityMap
  import opened RouteSchedules
  import opened RouteScheduling
  import opened RouteLoads
  import opened Fleet
  import opened Reconciliation
  import opened Assignments

  // ----- assign packages to a route

  datatype AssignOutcome =
    | Assigned
    | PackageMissing
    | AlreadyOnRoute
    | RouteNotHydrated
    | Refused(reason: PackageRejection)

  function TruckOf(w: World, rid: int): Option<TruckState>
    requires Closed(w) && rid in w.routes
  {
    if w.routes[rid].truck.To? then Some(w.trucks[w.routes[rid].truck.id]) else None
  }

  function AssignmentRejection(w: World, rid: int, pid: int, now: Time): Option<PackageRejection>
    requires Ready(w) && rid in w.routes && pid in w.packages
  {
    assert Sound(w.routes[rid]);
    EvaluatePackage(w.routes[rid], TruckOf(w, rid),
                    MaximumLoad(w.routes[rid].path, LoadsOn(w, rid) + [LoadOf(w.packages[pid])]),
                    w.packages[pid], now)
  }

  function AssignOutcomeOf(w: World, rid: int, pid: int, now: Time): AssignOutcome
    requires Ready(w) && rid in w.routes
  {
    if pid !in w.packages then PackageMissing
    else if w.packages[pid].routeId.To? then
      if w.packages[pid].route.To? then AlreadyOnRoute else RouteNotHydrated
    else if pid in w.routes[rid].packages then Assigned
    else
      var rejection := AssignmentRejection(w, rid, pid, now);
      if rejection.Some? then Refused(rejection.value) else Assigned
  }

  function AssignedPackage(r: RouteState, rid: int, p: PackageState): PackageState
    requires Shaped(r)
  {
    p.(route := To(rid), routeId := To(rid),
       arrival := if ArrivalFor(r, p).Some? then ArrivalFor(r, p) else p.arrival)
  }

  function AssigningRoute(r: RouteState, rid: int, pid: int, p: PackageState, now: Time): RouteState
    requires Shaped(r)
  {
    r.(packages := r.packages + [pid],
       events := r.events + [PackageAssigned(pid, p.route, rid, p.arrival, AssignedPackage(r, rid, p).arrival, now)])
  }

  /** One package of the batch; a package already in the route's list is left alone. */
  function AssignOne(w: World, rid: int, pid: int, now: Time): World
    requires Ready(w) && rid in w.routes
  {
    if AssignOutcomeOf(w, rid, pid, now) != Assigned || pid in w.routes[rid].packages then w
    else
      var r, p := w.routes[rid], w.packages[pid];
      w.(routes := w.routes[rid := AssigningRoute(r, rid, pid, p, now)],
         packages := w.packages[pid := AssignedPackage(r, rid, p)])
  }

  lemma AssignOneReady(w: World, rid: int, pid: int, now: Time)
    requires Ready(w) && rid in w.routes
    ensures Ready(AssignOne(w, rid, pid, now)) && AssignOne(w, rid, pid, now).routes.Keys == w.routes.Keys
  {
    var v := AssignOne(w, rid, pid, now);
    forall other | other in v.routes ensures Sound(v.routes[other]) {
      assert Sound(w.routes[other]);
    }
  }

  /** Each id once, at its first occurrence. */
  function Unique(ids: seq<int>): (r: seq<int>)
    ensures NoDup(r)
    ensures forall id :: id in r <==> id in ids
  {
    if ids == [] then []
    else
      var n := |ids| - 1;
      assert forall id :: id in ids <==> id in ids[..n] || id == ids[n];
      if ids[n] in ids[..n] then Unique(ids[..n]) else Unique(ids[..n]) + [ids[n]]
  }

  /** The batch so far: the world, an outcome for each package tried, and whether a package update failed. */
  datatype Batch = Batch(world: World, outcomes: seq<AssignOutcome>, failed: bool)

  /** Packages are tried in order; the batch stops at the first one whose update fails (`failing`), that package
      rolled back and the earlier ones kept. */
  ghost function AssignAll(w: World, rid: int, ids: seq<int>, now: Time, failing: set<int>): (b: Batch)
    requires Ready(w) && rid in w.routes
    ensures Ready(b.world) && b.world.routes.Keys == w.routes.Keys
  {
    if ids == [] then Batch(w, [], false)
    else
      var n := |ids| - 1;
      var before := AssignAll(w, rid, ids[..n], now, failing);
      if before.failed then before
      else
        var outcome := AssignOutcomeOf(before.world, rid, ids[n], now);
        if outcome == Assigned && ids[n] in failing then before.(failed := true)
        else
          AssignOneReady(before.world, rid, ids[n], now);
          Batch(AssignOne(before.world, rid, ids[n], now), before.outcomes + [outcome], false)
  }

  lemma AssignAllNext(w: World, rid: int, ids: seq<int>, i: nat, now: Time, failing: set<int>)
    requires Ready(w) && rid in w.routes && i < |ids|
    requires !AssignAll(w, rid, ids[..i], now, failing).failed
    ensures var b := AssignAll(w, rid, ids[..i], now, failing);
      var outcome := AssignOutcomeOf(b.world, rid, ids[i], now);
      && (outcome == Assigned && ids[i] in failing ==> AssignAll(w, rid, ids, now, failing) == b.(failed := true))
      && (!(outcome == Assigned && ids[i] in failing) ==>
            AssignAll(w, rid, ids[..i + 1], now, failing)
            == Batch(AssignOne(b.world, rid, ids[i], now), b.outcomes + [outcome], false))
  {
    assert ids[..i + 1][..i] == ids[..i];
    if AssignAll(w, rid, ids[..i + 1], now, failing).failed {
      FailureEndsBatch(w, rid, ids, i + 1, now, failing);
    }
  }

  lemma {:induction false} FailureEndsBatch(w: World, rid: int, ids: seq<int>, i: nat, now: Time, failing: set<int>)
    requires Ready(w) && rid in w.routes && i <= |ids| && AssignAll(w, rid, ids[..i], now, failing).failed
    ensures AssignAll(w, rid, ids, now, failing) == AssignAll(w, rid, ids[..i], now, failing)
  {
    if i == |ids| {
      WholeSlice(ids);
    } else {
      assert ids[..|ids| - 1][..i] == ids[..i];
      FailureEndsBatch(w, rid, ids[..|ids| - 1], i, now, failing);
    }
  }

  // ----- assign a truck to a route

  datatype TruckOutcome =
    | TruckOnRoute
    | RouteUnknown
    | TruckUnknown
    | RouteTaken
    | Unsuitable(reason: TruckRejection)
    | TruckBusy
    | TruckNowhere
    | TruckNotSaved

  /** Schedules a planned route to leave now. */
  function ScheduledNow(r: RouteState, rid: int, now: Time): RouteState
    requires Shaped(r)
  {
    if r.schedule.Some? then r
    else
      var s := ScheduleOf(r.path, now, SPEED_KMPH);
      r.(schedule := Some(s), status := SCHEDULED,
         events := r.events + [RouteScheduled(rid, r.status, SCHEDULED, None, now, None, EtaFinal(s), now)])
  }

  function TruckServing(t: TruckState, rid: int, r: RouteState): TruckState
    requires Shaped(r)
  {
    t.(route := To(rid), status := ON_THE_WAY, busyFrom := Departure(r), busyUntil := Eta(r), inTransitTo := None)
  }

  function RouteServedBy(r: RouteState, rid: int, tid: int, t: TruckState, now: Time): RouteState
    requires Shaped(r) && t.location.Some?
  {
    var t' := TruckServing(t, rid, r);
    r.(truck := To(tid),
       events := r.events + [TruckAssigned(tid, rid, t.status, t'.status, t.location.value, t.location.value,
                                           t.busyFrom, t'.busyFrom, t.busyUntil, t'.busyUntil, now)])
  }

  function Suitability(w: World, rid: int, tid: int, now: Time): Option<TruckRejection>
    requires Closed(w) && rid in w.routes && tid in w.trucks
  {
    var r, t := w.routes[rid], w.trucks[tid];
    EvaluateTruck(t, if t.route.To? then Some(w.routes[t.route.id]) else None,
                  DistanceKm(r.path), MaximumLoad(r.path, LoadsOn(w, rid)), r.path[0],
                  if r.schedule.Some? then Departure(r) else Some(now))
  }

  function AssignTruckOutcome(w: World, rid: int, tid: int, now: Time, commits: bool): TruckOutcome
    requires Closed(w)
  {
    if rid !in w.routes then RouteUnknown
    else if tid !in w.trucks then TruckUnknown
    else if w.routes[rid].truck.To? then RouteTaken
    else if Suitability(w, rid, tid, now).Some? then Unsuitable(Suitability(w, rid, tid, now).value)
    else if w.trucks[tid].status != FREE || w.trucks[tid].route.To? then TruckBusy
    else if w.trucks[tid].location.None? then TruckNowhere
    else if !commits then TruckNotSaved
    else TruckOnRoute
  }

  /** Truck `tid` takes route `rid`, whose state is now `r`. */
  function Serve(w: World, rid: int, r: RouteState, tid: int, now: Time): World
    requires Shaped(r) && tid in w.trucks && w.trucks[tid].location.Some?
  {
    w.(routes := w.routes[rid := RouteServedBy(r, rid, tid, w.trucks[tid], now)],
       trucks := w.trucks[tid := TruckServing(w.trucks[tid], rid, r)])
  }

  function AssignTruck(w: World, rid: int, tid: int, now: Time, commits: bool): World
    requires Closed(w)
  {
    if AssignTruckOutcome(w, rid, tid, now, commits) != TruckOnRoute then w
    else Serve(w, rid, ScheduledNow(w.routes[rid], rid, now), tid, now)
  }

  // ----- remove a route

  function Baseline(p: PackageState): PackageState {
    p.(route := Unlinked, routeId := Unlinked, status := TODO, location := p.start, arrival := None)
  }

  function Detachment(pid: int, p: PackageState, reason: DetachmentReason, now: Time): DomainEvent {
    PackageDetached(pid, p.route, p.status, TODO, p.location, p.start, p.arrival, None, reason, now)
  }

  datatype RemoveRouteOutcome =
    | RouteGone(route: RouteState)
    | RouteNotFound
    | PackageUnlinked
    | TruckUnlinked
    | TruckLost
    | RemovalNotSaved

  function FreedTruck(t: TruckState, end: LocationCode): TruckState {
    t.(route := Unlinked, status := FREE, location := Some(end), inTransitTo := None, busyFrom := None, busyUntil := None)
  }

  /** What the detachments record. */
  function DetachedEvents(ids: seq<int>, states: seq<PackageState>, n: nat, now: Time): (r: seq<DomainEvent>)
    requires n <= |ids| == |states|
    ensures |r| == n && forall k :: 0 <= k < n ==> r[k] == Detachment(ids[k], states[k], REMOVED_WITH_ROUTE, now)
  {
    seq(n, k requires 0 <= k < n => Detachment(ids[k], states[k], REMOVED_WITH_ROUTE, now))
  }

  /** The truck of a route with the route it believes to serve. */
  datatype Service = Service(truckId: int, truck: TruckState, path: seq<LocationCode>)

  function ServiceIn(w: World, rid: int): Option<Service>
    requires Closed(w) && rid in w.routes
  {
    var r := w.routes[rid];
    if r.truck.Unlinked? then None
    else
      var t := w.trucks[r.truck.id];
      Some(Service(r.truck.id, t, if t.route.Unlinked? then [] else w.routes[t.route.id].path))
  }

  /** The release a removal forces. */
  function ForcedRelease(served: Option<Service>, now: Time): seq<DomainEvent>
    requires served.Some? ==> served.value.truck.location.Some? && |served.value.path| > 0
  {
    if served.None? then []
    else
      var t, end := served.value.truck, served.value.path[|served.value.path| - 1];
      [TruckReleased(served.value.truckId, t.route, t.status, FREE, t.location.value, end, t.busyFrom, t.busyUntil, ROUTE_REMOVED, now)]
  }

  /** A route stripped of packages and truck, with all that is recorded about it. */
  function RouteStripped(r: RouteState, rid: int, states: seq<PackageState>, served: Option<Service>, now: Time): RouteState
    requires Shaped(r) && |states| == |r.packages|
    requires served.Some? ==> served.value.truck.location.Some? && |served.value.path| > 0
  {
    r.(packages := [], truck := Unlinked,
       events := r.events + DetachedEvents(r.packages, states, |states|, now) + ForcedRelease(served, now)
                 + [RouteRemoved(rid, r.status, r.path, Departure(r), Eta(r), r.packages, r.truck, now)])
  }

  /** The removed route: no package, no truck, and an event for everything that left it. */
  function StrippedRoute(w: World, rid: int, now: Time): RouteState
    requires Closed(w) && rid in w.routes
    requires ServiceIn(w, rid).Some? ==>
      ServiceIn(w, rid).value.truck.location.Some? && ServiceIn(w, rid).value.truck.route.To?
  {
    RouteStripped(w.routes[rid], rid, PackagesOf(w, rid), ServiceIn(w, rid), now)
  }

  predicate SomeUnlinkedPackage(w: World, ids: seq<int>)
    requires forall k :: 0 <= k < |ids| ==> ids[k] in w.packages
  {
    exists k :: 0 <= k < |ids| && w.packages[ids[k]].route.Unlinked?
  }

  function RemoveRouteOutcomeOf(w: World, rid: int, now: Time, commits: bool): RemoveRouteOutcome
    requires Closed(w)
  {
    if rid !in w.routes then RouteNotFound
    else
      var r := w.routes[rid];
      if SomeUnlinkedPackage(w, r.packages) then PackageUnlinked
      else if r.truck.To? && w.trucks[r.truck.id].route.Unlinked? then TruckUnlinked
      else if r.truck.To? && w.trucks[r.truck.id].location.None? then TruckLost
      else if !commits then RemovalNotSaved
      else RouteGone(StrippedRoute(w, rid, now))
  }

  function RemoveRoute(w: World, rid: int, now: Time, commits: bool): World
    requires Closed(w)
  {
    if !RemoveRouteOutcomeOf(w, rid, now, commits).RouteGone? then w
    else
      var r := w.routes[rid];
      World(w.customers,
            map pid <- w.packages :: if pid in r.packages then Baseline(w.packages[pid]) else w.packages[pid],
            w.routes - {rid},
            if r.truck.Unlinked? then w.trucks
            else
              var t := w.trucks[r.truck.id];
              var served := w.routes[t.route.id].path;
              w.trucks[r.truck.id := FreedTruck(t, served[|served| - 1])])
  }

  // ----- remove a package

  datatype RemovePackageOutcome =
    | PackageGone(package: PackageState)
    | PackageNotFound
    | NotHydrated
    | NotOnItsRoute
    | NotOfItsCustomer
    | PackageNotSaved
    | PutBackRaised

  function Without(ids: seq<int>, id: int): seq<int> {
    if id in ids then RemoveAt(ids, IndexOf(ids, id)) else ids
  }

  /** How far taking a package out of its lists went. */
  datatype TakeOutStep = TakenOut | WasNotHydrated | WasNotOnRoute | WasNotListed

  /** The package had left its route when the step was reached. */
  predicate LeftRoute(step: TakeOutStep, routeId: Link) {
    routeId.To? && (step == WasNotListed || step == TakenOut)
  }

  function StepOf(w: World, pid: int): TakeOutStep
    requires Closed(w) && pid in w.packages
  {
    var p := w.packages[pid];
    if p.routeId.To? && p.route.Unlinked? then WasNotHydrated
    else if p.routeId.To? && pid !in w.routes[p.route.id].packages then WasNotOnRoute
    else if pid !in w.customers[p.customer].packages then WasNotListed else TakenOut
  }

  /** Putting a package back fails: it has to go back on the route, and the route's schedule does not know its end. */
  predicate PutBackFails(r: RouteState, pid: int, p: PackageState, left: bool) {
    (left || pid !in r.packages) && ArrivalMissing(r, p)
  }

  /** The step before which a removal fails, and what the caller is told. */
  function OutcomeOfStep(step: TakeOutStep, commits: bool, restored: bool, p: PackageState): RemovePackageOutcome {
    if step == TakenOut && commits then PackageGone(p)
    else if !restored then PutBackRaised
    else
      match step
      case WasNotHydrated => NotHydrated
      case WasNotOnRoute => NotOnItsRoute
      case WasNotListed => NotOfItsCustomer
      case TakenOut => PackageNotSaved
  }

  /** The package that has left the world. */
  function PackageRemovedAt(pid: int, p: PackageState, now: Time): PackageState {
    (if p.routeId.To? then Baseline(p) else p).(
      events := p.events + [PackageRemoved(pid, p.customer, p.routeId, p.status, p.location, p.start, p.end, p.weight, p.arrival, now)])
  }

  predicate Restores(w: World, pid: int)
    requires Closed(w) && pid in w.packages
  {
    var p := w.packages[pid];
    p.route.To? ==> !PutBackFails(w.routes[p.route.id], pid, p, LeftRoute(StepOf(w, pid), p.routeId))
  }

  function RemovePackageOutcomeOf(w: World, pid: int, now: Time, commits: bool): RemovePackageOutcome
    requires Closed(w)
  {
    if pid !in w.packages then PackageNotFound
    else OutcomeOfStep(StepOf(w, pid), commits, Restores(w, pid), PackageRemovedAt(pid, w.packages[pid], now))
  }

  /** A list restored by appending: an element that was taken out comes back at the end. */
  function Relisted(ids: seq<int>, id: int): (r: seq<int>)
    ensures id in r
  {
    Without(ids, id) + [id]
  }

  function Present(ids: seq<int>, id: int): seq<int> {
    if id in ids then ids else ids + [id]
  }

  /** A list of ids after a failed removal. */
  function ListRolledBack(ids: seq<int>, pid: int, left: bool): seq<int> {
    if left then Relisted(ids, pid) else Present(ids, pid)
  }

  /** The customer's list after a failed removal; a rollback that fails does not reach it. */
  function CustomerListAfter(ids: seq<int>, pid: int, step: TakeOutStep, restored: bool): seq<int> {
    if restored then ListRolledBack(ids, pid, step == TakenOut)
    else if step == TakenOut then Without(ids, pid) else ids
  }

  /** The arrival a package shows once it is back on the route. */
  function RefreshedArrival(r: RouteState, p: PackageState): Option<Time>
    requires Shaped(r)
  {
    if ArrivalFor(r, p).Some? then ArrivalFor(r, p) else p.arrival
  }

  /** A package after a failed removal: as it was, but linked to the route it had to be put back on. */
  function PackageRolledBack(r: RouteState, pid: int, p: PackageState, left: bool): PackageState
    requires Shaped(r)
  {
    if !left && pid in r.packages then p else p.(routeId := p.route, arrival := RefreshedArrival(r, p))
  }

  /** The route after a failed removal. A rollback that fails does not reach its events. */
  function RouteRolledBack(r: RouteState, pid: int, p: PackageState, left: bool, restored: bool, now: Time): RouteState {
    r.(packages := ListRolledBack(r.packages, pid, left),
       events := if left && !restored then r.events + [Detachment(pid, p, PACKAGE_REMOVED, now)] else r.events)
  }

  /** What a failed removal leaves: the package back in its lists, at the end of those it had been taken out of,
      and its arrival refreshed from the route's schedule when it had to be put back on the route. When that schedule
      does not know the package's end, the rollback stops there. */
  function RemovalRolledBack(w: World, pid: int, now: Time): World
    requires Closed(w) && pid in w.packages
  {
    var p, step, restored := w.packages[pid], StepOf(w, pid), Restores(w, pid);
    var left := LeftRoute(step, p.routeId);
    w.(customers := w.customers[p.customer := w.customers[p.customer].(
         packages := CustomerListAfter(w.customers[p.customer].packages, pid, step, restored))],
       packages := if p.route.Unlinked? then w.packages else w.packages[pid := PackageRolledBack(w.routes[p.route.id], pid, p, left)],
       routes := if p.route.Unlinked? then w.routes
                 else w.routes[p.route.id := RouteRolledBack(w.routes[p.route.id], pid, p, left, restored, now)])
  }

  function RemovePackage(w: World, pid: int, now: Time, commits: bool): World
    requires Closed(w)
  {
    match RemovePackageOutcomeOf(w, pid, now, commits)
    case PackageNotFound => w
    case PackageGone(_) =>
      var p := w.packages[pid];
      World(w.customers[p.customer := w.customers[p.customer].(packages := Without(w.customers[p.customer].packages, pid))],
            w.packages - {pid},
            if p.routeId.Unlinked? then w.routes
            else
              var r := w.routes[p.route.id];
              w.routes[p.route.id := r.(packages := Without(r.packages, pid),
                                        events := r.events + [Detachment(pid, p, PACKAGE_REMOVED, now)])],
            w.trucks)
    case _ => RemovalRolledBack(w, pid, now)
  }

  // ----- heartbeat

  /** A heartbeat keeps the pass when it reported no change or could be saved, and undoes it otherwise. */
  function Heartbeat(w: World, ids: seq<int>, now: Time, commits: bool): World
    requires Closed(w) && forall k :: 0 <= k < |ids| ==> ids[k] in w.routes
  {
    var (v, summary) := Pass(w, ids, now);
    if StateChanged(summary) && !commits then w else v
  }
}
