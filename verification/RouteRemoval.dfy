/** Removing a route: what leaves the world, and what a failed removal puts back. */
module RouteRemoval {
  import opened Common
  import opened RouteSchedules
  import opened RouteScheduling
  import opened Fleet
  import opened Reconciliation
  import opened Entities
  import opened Stores
  import opened StoreFrames
  import opened PackageReconciler
  import opened Undo
  import opened UseCaseSteps
  import opened UseCaseSafety

  // ----- detaching the packages

  /** Each package reset. */
  function Baselines(states: seq<PackageState>): (r: seq<PackageState>)
    ensures |r| == |states| && forall k :: 0 <= k < |r| ==> r[k] == Baseline(states[k])
  {
    seq(|states|, k requires 0 <= k < |states| => Baseline(states[k]))
  }

  /** Detaches the first package of a route. */
  method DetachFirst(route: DeliveryRoute, package: DeliveryPackage, now: Time, ghost p: PackageState)
    returns (ok: bool)
    requires route.Valid() && |route.packages| > 0 && package == route.packages[0] && package.State() == p
    modifies route`packages, route`events
    modifies package`route, package`routeId, package`status, package`location, package`arrival
    ensures route.Valid() && (old(route.Built()) ==> route.Built())
    ensures ok <==> p.route.To?
    ensures old(route.events) <= route.events
    ensures ok ==>
      && route.packages == old(route.packages)[1..]
      && route.events == old(route.events) + [Detachment(package.packageId, p, REMOVED_WITH_ROUTE, now)]
      && package.State() == Baseline(p) && package.route == null
  {
    assert PackageIds(route.packages)[0] == package.packageId;
    assert route.Matching(package) == {package} && route.PackageIndex(package) == 0;
    assert RemoveAt(route.packages, 0) == route.packages[1..];
    var outcome := route.DetachPackage(package, REMOVED_WITH_ROUTE, now);
    ok := outcome == Detached;
  }

  /** The first `n` packages are reset, the others as they were. */
  ghost predicate ResetUpTo(list: seq<DeliveryPackage>, states: seq<PackageState>, n: nat)
    reads list
  {
    && |states| == |list| && n <= |list|
    && (forall k {:trigger list[k]} :: 0 <= k < n ==> list[k].State() == Baseline(states[k]) && list[k].route == null)
    && (forall k {:trigger list[k]} :: n <= k < |list| ==> list[k].State() == states[k])
  }

  lemma DetachedNext(events: seq<DomainEvent>, ids: seq<int>, states: seq<PackageState>, i: nat, now: Time)
    requires i < |ids| == |states|
    ensures events + DetachedEvents(ids, states, 0, now) == events
    ensures events + DetachedEvents(ids, states, i, now) + [Detachment(ids[i], states[i], REMOVED_WITH_ROUTE, now)]
         == events + DetachedEvents(ids, states, i + 1, now)
  {
    hide Detachment;
    assert DetachedEvents(ids, states, i + 1, now) == DetachedEvents(ids, states, i, now) + [Detachment(ids[i], states[i], REMOVED_WITH_ROUTE, now)];
  }

  lemma ResetNone(list: seq<DeliveryPackage>, states: seq<PackageState>)
    requires InStates(list, states)
    ensures ResetUpTo(list, states, 0)
  {
  }

  lemma ResetAll(list: seq<DeliveryPackage>, states: seq<PackageState>)
    requires ResetUpTo(list, states, |list|)
    ensures InStates(list, Baselines(states)) && forall p <- list :: p.route == null
  {
  }

  /** Detaches the package at position `i` of the list the route had. */
  method DetachNext(route: DeliveryRoute, package: DeliveryPackage, now: Time, ghost list: seq<DeliveryPackage>,
                    ghost states: seq<PackageState>, ghost i: nat) returns (ok: bool)
    requires route.Valid() && i < |list| && route.packages == list[i..] && package == list[i]
    requires NoDup(list) && ResetUpTo(list, states, i)
    modifies route`packages, route`events
    modifies package`route, package`routeId, package`status, package`location, package`arrival
    ensures route.Valid() && (old(route.Built()) ==> route.Built())
    ensures ok <==> states[i].route.To?
    ensures old(route.events) <= route.events
    ensures ok ==>
      && route.packages == list[i + 1..] && ResetUpTo(list, states, i + 1)
      && route.events == old(route.events) + [Detachment(package.packageId, states[i], REMOVED_WITH_ROUTE, now)]
  {
    hide Baseline, Detachment, DeliveryPackage.State, Covers, ScheduleOf;
    ok := DetachFirst(route, package, now, states[i]);
  }

  /** Detaches every package of a route in list order; stops at one that has lost its route. */
  method DetachAll(route: DeliveryRoute, now: Time, ghost states: seq<PackageState>) returns (ok: bool)
    requires route.Valid() && InStates(route.packages, states)
    modifies route`packages, route`events
    modifies route.packages`route, route.packages`routeId, route.packages`status, route.packages`location, route.packages`arrival
    ensures route.Valid() && (old(route.Built()) ==> route.Built())
    ensures ok <==> forall k :: 0 <= k < |states| ==> states[k].route.To?
    ensures old(route.events) <= route.events
    ensures ok ==>
      && route.packages == []
      && route.events == old(route.events) + DetachedEvents(old(PackageIds(route.packages)), states, |states|, now)
      && InStates(old(route.packages), Baselines(states))
      && forall p <- old(route.packages) :: p.route == null
  {
    var list := route.packages;
    ghost var ids := PackageIds(list);
    IdsApart(list);
    ResetNone(list, states);
    hide Detachment, Covers, ScheduleOf, InStates, ResetUpTo, Baselines, DetachedEvents, NoDup;
    assert old(route.events) + DetachedEvents(ids, states, 0, now) == old(route.events);
    for i := 0 to |list|
      invariant route.Valid() && (old(route.Built()) ==> route.Built())
      invariant route.packages == list[i..] && ResetUpTo(list, states, i)
      invariant route.events == old(route.events) + DetachedEvents(ids, states, i, now)
      invariant forall k :: 0 <= k < i ==> states[k].route.To?
    {
      DetachedNext(old(route.events), ids, states, i, now);
      ok := DetachNext(route, list[i], now, list, states, i);
      if !ok {
        return;
      }
    }
    ResetAll(list, states);
    return true;
  }

  datatype StripStep = Stripped | MetUnlinkedPackage | MetTruckWithoutRoute | MetTruckWithoutLocation

  ghost function ServedBy(route: DeliveryRoute): Option<Service>
    reads route, route.truck
  {
    if route.truck == null then None
    else Some(Service(route.truck.vehicleId, route.truck.State(), if route.truck.route == null then [] else route.truck.route.path))
  }

  function StepOfStrip(states: seq<PackageState>, served: Option<Service>): StripStep {
    if exists k :: 0 <= k < |states| && states[k].route.Unlinked? then MetUnlinkedPackage
    else if served.Some? && served.value.truck.route.Unlinked? then MetTruckWithoutRoute
    else if served.Some? && served.value.truck.location.None? then MetTruckWithoutLocation
    else Stripped
  }

  function StepOfRelease(served: Option<Service>): StripStep {
    if served.Some? && served.value.truck.route.Unlinked? then MetTruckWithoutRoute
    else if served.Some? && served.value.truck.location.None? then MetTruckWithoutLocation
    else Stripped
  }

  lemma ServedByIs(route: DeliveryRoute)
    ensures ServedBy(route).Some? <==> route.truck != null
    ensures route.truck != null ==>
      && ServedBy(route).value.truckId == route.truck.vehicleId && ServedBy(route).value.truck == route.truck.State()
      && (route.truck.route != null ==> ServedBy(route).value.path == route.truck.route.path)
  {
  }

  /** Releases the truck by force, wherever the route stands in its schedule. */
  method ReleaseForced(route: DeliveryRoute, now: Time, ghost served: Option<Service>) returns (step: StripStep)
    requires route.Valid() && route.Built() && ServedBy(route) == served
    requires route.truck != null && route.truck.route != null ==> route.truck.route == route || route.truck.route.Valid()
    modifies route`events, route`truck, route.truck
    ensures route.Valid() && route.Built()
    ensures step == StepOfRelease(served)
    ensures step != Stripped ==> route.events == old(route.events)
    ensures step == Stripped ==>
      && (served.Some? ==> |served.value.path| > 0)
      && route.truck == null && route.events == old(route.events) + ForcedRelease(served, now)
      && (old(route.truck) != null ==>
            && old(route.truck).State() == FreedTruck(served.value.truck, served.value.path[|served.value.path| - 1])
            && old(route.truck).route == null)
  {
    hide Covers, ScheduleOf, EtaFinal, FreedTruck, Timetable, NoDup, ServedBy;
    ServedByIs(route);
    var released := route.ReleaseTruck(now, true, ROUTE_REMOVED, now);
    step := match released
      case TruckWithoutRoute => MetTruckWithoutRoute
      case TruckWithoutLocation => MetTruckWithoutLocation
      case _ => Stripped;
  }

  /** Releases the truck by force and records the removal of a route that had packages `ids`. */
  method ReleaseAndRecord(route: DeliveryRoute, ids: seq<int>, now: Time, ghost served: Option<Service>)
    returns (step: StripStep)
    requires route.Valid() && route.Built() && ServedBy(route) == served
    requires route.truck != null && route.truck.route != null ==> route.truck.route == route || route.truck.route.Valid()
    modifies route`events, route`truck, route.truck
    ensures route.Valid() && route.Built() && old(route.events) <= route.events
    ensures step == StepOfRelease(served)
    ensures step == Stripped ==>
      && (served.Some? ==> |served.value.path| > 0)
      && route.truck == null
      && route.events == old(route.events) + ForcedRelease(served, now) + [
           RouteRemoved(route.routeId, route.status, route.path, route.DepartureTime(), route.EtaFinalTime(), ids,
                        TruckLink(old(route.truck)), now)]
      && (old(route.truck) != null ==>
            && old(route.truck).State() == FreedTruck(served.value.truck, served.value.path[|served.value.path| - 1])
            && old(route.truck).route == null)
  {
    hide Covers, ScheduleOf, EtaFinal, FreedTruck, ForcedRelease;
    var truckLink := TruckLink(route.truck);
    step := ReleaseForced(route, now, served);
    if step == Stripped {
      route.RecordRemoval(ids, truckLink, now);
    }
  }

  /** Detaches the packages, then releases the truck. */
  method Strip(route: DeliveryRoute, now: Time, ghost states: seq<PackageState>, ghost served: Option<Service>)
    returns (step: StripStep)
    requires route.Valid() && route.Built() && InStates(route.packages, states) && ServedBy(route) == served
    requires route.truck != null && route.truck.route != null ==> route.truck.route == route || route.truck.route.Valid()
    modifies route`packages, route`events, route`truck, route.truck
    modifies route.packages`route, route.packages`routeId, route.packages`status, route.packages`location, route.packages`arrival
    ensures route.Valid() && route.Built() && old(route.events) <= route.events
    ensures step == StepOfStrip(states, served)
    ensures step == Stripped ==>
      && (served.Some? ==> |served.value.path| > 0)
      && route.packages == [] && route.truck == null
      && route.State() == RouteStripped(old(route.State()), route.routeId, states, served, now)
      && InStates(old(route.packages), Baselines(states)) && (forall p <- old(route.packages) :: p.route == null)
      && (old(route.truck) != null ==>
            && old(route.truck).State() == FreedTruck(served.value.truck, served.value.path[|served.value.path| - 1])
            && old(route.truck).route == null)
  {
    hide Baseline, Baselines, DetachedEvents, Covers, ScheduleOf, EtaFinal, FreedTruck, DeliveryPackage.State;
    var ids := PackageIds(route.packages);
    var detached := DetachAll(route, now, states);
    if !detached {
      return MetUnlinkedPackage;
    }
    step := ReleaseAndRecord(route, ids, now, served);
  }

  /** What is remembered of one route, its packages and its truck. */
  ghost function RememberOne(route: DeliveryRoute): (b: Remembrance)
    reads route, route.packages, route.truck
    ensures AsRemembered(b)
  {
    Remembrance(map[route := RouteMemoryOf(route)], Memories(route.packages),
                if route.truck == null then map[] else map[route.truck := route.truck.SnapshotState()])
  }

  /** All that a failed removal puts back. */
  datatype RemovalUndo = RemovalUndo(route: RouteUndo, packages: seq<PackageUndo>, truck: Truck?, truckSnapshot: Option<TruckSnapshot>)

  /** The capture holds what is remembered. */
  ghost predicate Holds(undo: RemovalUndo, b: Remembrance) {
    && b.routes.Keys == {undo.route.route} && MemoryFits(undo.route.route, b.routes[undo.route.route])
    && undo.route.snapshot == b.routes[undo.route.route].snapshot
    && undo.route.checkpoint == |b.routes[undo.route.route].state.events|
    && Captures(undo.packages, b.packages) && Captured(undo.packages) == b.packages.Keys
    && (undo.truckSnapshot.Some? <==> undo.truck != null)
    && b.trucks == if undo.truck == null then map[] else map[undo.truck := undo.truckSnapshot.value]
  }

  /** Since then events of the route were added, and no package recorded one or changed hands. */
  ghost predicate Undoable(undo: RemovalUndo, b: Remembrance)
    reads undo.route.route, b.packages.Keys
  {
    && Holds(undo, b) && b.routes[undo.route.route].state.events <= undo.route.route.events
    && forall p <- b.packages :: b.packages[p].events == p.events && b.packages[p].customer == p.customer
  }

  method CaptureRemoval(route: DeliveryRoute, ghost b: Remembrance) returns (undo: RemovalUndo)
    requires route.Valid() && route.Built() && b == RememberOne(route)
    ensures Holds(undo, b) && undo.route.route == route && undo.truck == route.truck
    ensures Captured(undo.packages) == set p | p in route.packages
    ensures b.routes[route].state.events == route.events
    ensures forall p <- b.packages :: b.packages[p].events == p.events && b.packages[p].customer == p.customer
  {
    hide MemoryFits, Captures;
    OwnMemoryFits(route);
    var packages := Capture(route.packages, b.packages);
    undo := RemovalUndo(RouteUndo(route, route.SnapshotState(), |route.events|), packages, route.truck,
                        if route.truck == null then None else Some(route.truck.SnapshotState()));
  }

  /** Puts a route, its packages and its truck back. */
  method PutRouteBack(undo: RemovalUndo, ghost b: Remembrance)
    requires Undoable(undo, b)
    modifies undo.route.route, undo.truck
    modifies Captured(undo.packages)`route, Captured(undo.packages)`routeId, Captured(undo.packages)`status
    modifies Captured(undo.packages)`location, Captured(undo.packages)`arrival
    ensures undo.route.route.Valid() && undo.route.route.Built() && AsRemembered(b)
  {
    hide MemoryFits, Captures;
    RestoreRoute(undo.route, b.routes[undo.route.route]);
    RestoreStates(undo.packages, b.packages);
    if undo.truck != null {
      undo.truck.RestoreState(undo.truckSnapshot.value);
    }
  }

  /** Strips a route and saves its removal; when either fails, the route, its packages and its truck are exactly as before. */
  method StripOrPutBack(route: DeliveryRoute, now: Time, commits: bool, ghost states: seq<PackageState>, ghost served: Option<Service>,
                        ghost b: Remembrance) returns (step: StripStep)
    requires route.Valid() && route.Built() && InStates(route.packages, states) && ServedBy(route) == served && b == RememberOne(route)
    requires route.truck != null && route.truck.route != null ==> route.truck.route == route || route.truck.route.Valid()
    modifies route, route.truck
    modifies route.packages`route, route.packages`routeId, route.packages`status, route.packages`location, route.packages`arrival
    ensures route.Valid() && route.Built()
    ensures step == StepOfStrip(states, served)
    ensures step == Stripped && commits ==>
      && (served.Some? ==> |served.value.path| > 0)
      && route.packages == [] && route.truck == null
      && route.State() == RouteStripped(old(route.State()), route.routeId, states, served, now)
      && InStates(old(route.packages), Baselines(states)) && (forall p <- old(route.packages) :: p.route == null)
      && (old(route.truck) != null ==>
            && old(route.truck).State() == FreedTruck(served.value.truck, served.value.path[|served.value.path| - 1])
            && old(route.truck).route == null)
    ensures !(step == Stripped && commits) ==> AsRemembered(b)
  {
    hide Baseline, Baselines, RouteStripped, StepOfStrip, FreedTruck, AsRemembered, Holds, DetachedEvents, Covers,
         ScheduleOf, EtaFinal,
         Timetable, NoDup, ServedBy, InStates, DeliveryPackage.State;
    var undo := CaptureRemoval(route, b);
    step := Strip(route, now, states, served);
    if step != Stripped || !commits {
      PutRouteBack(undo, b);
    }
  }

  // ----- the stored route

  /** A route to be removed, with the truck and the packages it had and the world before. */
  datatype Removal = Removal(s: Store, route: DeliveryRoute, truck: Truck?, list: seq<DeliveryPackage>, w: World, now: Time)

  /** The store before the removal. */
  ghost predicate Before(c: Removal)
    reads c.s, c.s.customers.Values, c.s.packages.Values, c.s.routes.Values, c.s.trucks.Values, c.route
  {
    c.s.Standing() == Some(c.w) && c.s.HasRoute(c.route) && c.truck == c.route.truck && c.list == c.route.packages
  }

  /** Only the route, its truck and its packages have changed. */
  twostate predicate Confined(c: Removal)
    reads c.s, c.s.customers.Values, c.s.packages.Values, c.s.routes.Values, c.s.trucks.Values
  {
    && unchanged(c.s)
    && (forall cid <- c.s.customers :: unchanged(c.s.customers[cid]))
    && (forall rid <- c.s.routes :: c.s.routes[rid] != c.route ==> unchanged(c.s.routes[rid]))
    && (forall tid <- c.s.trucks :: c.s.trucks[tid] != c.truck ==> unchanged(c.s.trucks[tid]))
    && (forall pid <- c.s.packages :: c.s.packages[pid] !in c.list ==> unchanged(c.s.packages[pid]))
  }

  /** The references among the route, its truck and its packages are gone. */
  twostate predicate Loosened(c: Removal)
    reads c.route, c.truck, c.list
  {
    && c.route.Valid() && c.route.Built() && c.route.truck == null && c.route.packages == []
    && (c.truck != null ==> c.truck.route == null)
    && (forall k {:trigger c.list[k]} :: 0 <= k < |c.list| ==> c.list[k].route == null && c.list[k].customer == old(c.list[k].customer))
  }

  twostate lemma StandsStripped(c: Removal)
    requires old(Before(c)) && Confined(c) && Loosened(c)
    ensures c.s.Valid() && c.s.AllBuilt()
  {
    forall rid | rid in c.s.routes ensures c.s.RouteKept(rid) && c.s.routes[rid].Built() {
      assert old(c.s.RouteKept(rid)) && old(c.s.routes[rid].Built());
    }
    forall tid | tid in c.s.trucks ensures c.s.TruckKept(tid) { assert old(c.s.TruckKept(tid)); }
    forall pid | pid in c.s.packages ensures c.s.PackageKept(pid) {
      assert old(c.s.PackageKept(pid));
      var p := c.s.packages[pid];
      if p in c.list {
        assert c.list[IndexOf(c.list, p)].route == null;
      }
    }
    forall cid | cid in c.s.customers ensures c.s.CustomerKept(cid) { assert old(c.s.CustomerKept(cid)); }
  }

  /** The world once the route is stripped, the route itself still stored. */
  ghost function WorldStripped(w: World, rid: int, now: Time): World
    requires Closed(w) && RemoveRouteOutcomeOf(w, rid, now, true).RouteGone?
  {
    RemoveRoute(w, rid, now, true).(routes := w.routes[rid := StrippedRoute(w, rid, now)])
  }

  /** The route, its truck and its packages are what the removal makes of them. */
  ghost predicate StrippedAs(c: Removal)
    requires Closed(c.w) && RemoveRouteOutcomeOf(c.w, c.route.routeId, c.now, true).RouteGone?
    reads c.route, c.truck, c.list
  {
    var v := WorldStripped(c.w, c.route.routeId, c.now);
    && c.route.State() == v.routes[c.route.routeId]
    && (c.truck != null ==> c.truck.vehicleId in v.trucks && c.truck.State() == v.trucks[c.truck.vehicleId])
    && (forall k {:trigger c.list[k]} :: 0 <= k < |c.list| ==>
          c.list[k].packageId in v.packages && c.list[k].State() == v.packages[c.list[k].packageId])
  }

  twostate lemma RoutesStripped(c: Removal)
    requires Closed(c.w) && RemoveRouteOutcomeOf(c.w, c.route.routeId, c.now, true).RouteGone?
    requires old(Before(c)) && Confined(c) && StrippedAs(c)
    ensures c.s.Model().routes == WorldStripped(c.w, c.route.routeId, c.now).routes
  {
    forall rid <- c.s.routes ensures c.s.routes[rid].State() == WorldStripped(c.w, c.route.routeId, c.now).routes[rid] {
      assert old(c.s.RouteKept(rid));
    }
  }

  twostate lemma TrucksStripped(c: Removal)
    requires Closed(c.w) && RemoveRouteOutcomeOf(c.w, c.route.routeId, c.now, true).RouteGone?
    requires old(Before(c)) && Confined(c) && StrippedAs(c)
    ensures c.s.Model().trucks == WorldStripped(c.w, c.route.routeId, c.now).trucks
  {
    assert old(c.s.RouteKept(c.route.routeId));
    forall tid <- c.s.trucks ensures c.s.trucks[tid].State() == WorldStripped(c.w, c.route.routeId, c.now).trucks[tid] {
      assert old(c.s.TruckKept(tid));
    }
  }

  twostate lemma PackagesStripped(c: Removal)
    requires Closed(c.w) && RemoveRouteOutcomeOf(c.w, c.route.routeId, c.now, true).RouteGone?
    requires old(Before(c)) && Confined(c) && StrippedAs(c)
    ensures c.s.Model().packages == WorldStripped(c.w, c.route.routeId, c.now).packages
  {
    hide Store.AllBuilt, RemoveRouteOutcomeOf, Baseline, StrippedRoute, FreedTruck;
    assert old(c.s.RouteKept(c.route.routeId));
    forall pid <- c.s.packages ensures c.s.packages[pid].State() == WorldStripped(c.w, c.route.routeId, c.now).packages[pid] {
      assert old(c.s.PackageKept(pid));
      if pid in PackageIds(c.list) {
        var k := IndexOf(PackageIds(c.list), pid);
        assert old(c.s.HasPackage(c.route.packages[k])) && c.list[k] == c.s.packages[pid];
      } else {
        assert forall k :: 0 <= k < |c.list| ==> PackageIds(c.list)[k] != pid;
      }
    }
  }

  twostate lemma StandingStripped(c: Removal)
    requires Closed(c.w) && RemoveRouteOutcomeOf(c.w, c.route.routeId, c.now, true).RouteGone?
    requires old(Before(c)) && Confined(c) && Loosened(c) && StrippedAs(c)
    ensures c.s.Standing() == Some(WorldStripped(c.w, c.route.routeId, c.now))
  {
    StandsStripped(c);
    RoutesStripped(c);
    TrucksStripped(c);
    PackagesStripped(c);
    forall cid <- c.s.customers ensures c.s.customers[cid].State() == c.w.customers[cid] {}
    SameWorld(c.s.Model(), WorldStripped(c.w, c.route.routeId, c.now));
  }

  /** With the route, its truck and its packages as remembered the whole store is. */
  twostate lemma RememberedIsRestored(c: Removal)
    requires old(Before(c)) && Confined(c) && AsRemembered(old(RememberOne(c.route)))
    ensures Restored(c.s)
  {
    var b := old(RememberOne(c.route));
    hide Store.Standing, Store.Valid, Store.AllBuilt, Store.Model;
  }

  // ----- the repository without the route

  datatype RouteDrop = RouteDrop(s: Store, id: int)

  /** The store lost one route, and nothing else changed. */
  twostate predicate RouteDropped(c: RouteDrop)
    reads c.s, c.s.customers.Values, c.s.packages.Values, c.s.routes.Values, c.s.trucks.Values
  {
    && c.s.routes == old(c.s.routes) - {c.id}
    && c.s.customers == old(c.s.customers) && c.s.packages == old(c.s.packages) && c.s.trucks == old(c.s.trucks)
    && (forall cid <- c.s.customers :: unchanged(c.s.customers[cid]))
    && (forall pid <- c.s.packages :: unchanged(c.s.packages[pid]))
    && (forall rid <- c.s.routes :: unchanged(c.s.routes[rid]))
    && (forall tid <- c.s.trucks :: unchanged(c.s.trucks[tid]))
  }

  twostate lemma ModelWithoutRoute(c: RouteDrop)
    requires RouteDropped(c)
    ensures c.s.Model() == old(c.s.Model()).(routes := old(c.s.Model()).routes - {c.id})
  {
    var v, w := c.s.Model(), old(c.s.Model());
    forall cid <- c.s.customers ensures v.customers[cid] == w.customers[cid] {}
    forall rid <- c.s.routes ensures v.routes[rid] == w.routes[rid] {}
    forall tid <- c.s.trucks ensures v.trucks[tid] == w.trucks[tid] {}
    forall pid <- c.s.packages ensures v.packages[pid] == w.packages[pid] {}
    SameWorld(v, w.(routes := w.routes - {c.id}));
  }

  twostate lemma StandsWithoutRoute(c: RouteDrop)
    requires old(c.s.Standing()).Some? && RouteDropped(c)
    requires Closed(old(c.s.Model()).(routes := old(c.s.Model()).routes - {c.id}))
    ensures c.s.Valid() && c.s.AllBuilt()
  {
    var w := old(c.s.Model());
    forall rid | rid in c.s.routes ensures c.s.RouteKept(rid) && c.s.routes[rid].Built() {
      assert old(c.s.RouteKept(rid)) && old(c.s.routes[rid].Built());
    }
    forall tid | tid in c.s.trucks ensures c.s.TruckKept(tid) {
      assert old(c.s.TruckKept(tid)) && w.trucks[tid] == old(c.s.trucks[tid].State());
    }
    forall pid | pid in c.s.packages ensures c.s.PackageKept(pid) {
      assert old(c.s.PackageKept(pid)) && w.packages[pid] == old(c.s.packages[pid].State());
    }
    forall cid | cid in c.s.customers ensures c.s.CustomerKept(cid) { assert old(c.s.CustomerKept(cid)); }
  }

  /** Drops a route from the repository. */
  method DropRoute(s: Store, routeId: int, ghost v: World)
    requires s.Standing() == Some(v)
    modifies s`routes
    ensures s.routes == old(s.routes) - {routeId}
    ensures s.Model() == v.(routes := v.routes - {routeId})
    ensures Closed(v.(routes := v.routes - {routeId})) ==> s.Standing() == Some(v.(routes := v.routes - {routeId}))
  {
    ghost var c := RouteDrop(s, routeId);
    s.routes := s.routes - {routeId};
    ModelWithoutRoute(c);
    if Closed(v.(routes := v.routes - {routeId})) {
      StandsWithoutRoute(c);
    }
  }

  // ----- the use case

  /** What the store knows of a route it removes. */
  lemma BeforeStrip(s: Store, w: World, route: DeliveryRoute)
    requires s.Standing() == Some(w) && s.HasRoute(route)
    ensures Closed(w) && route.Valid() && route.Built() && route.routeId in w.routes && route.State() == w.routes[route.routeId]
    ensures route.truck != null && route.truck.route != null ==> route.truck.route == route || route.truck.route.Valid()
    ensures ServedBy(route) == ServiceIn(w, route.routeId)
    ensures PackageIds(route.packages) == w.routes[route.routeId].packages && TruckLink(route.truck) == w.routes[route.routeId].truck
    ensures InStates(route.packages, PackagesOf(w, route.routeId))
  {
    s.ModelReady();
    assert s.RouteKept(route.routeId) && s.routes[route.routeId].Built();
    if route.truck != null {
      assert s.TruckKept(route.truck.vehicleId) && w.trucks[route.truck.vehicleId] == route.truck.State();
      if route.truck.route != null {
        assert s.RouteKept(route.truck.route.routeId) && w.routes[route.truck.route.routeId] == route.truck.route.State();
      }
    }
    var states := PackagesOf(w, route.routeId);
    forall k {:trigger route.packages[k]} | 0 <= k < |route.packages| ensures route.packages[k].State() == states[k] {
      assert s.HasPackage(route.packages[k]);
    }
  }

  function OutcomeOfStrip(step: StripStep, commits: bool, r: RouteState): RemoveRouteOutcome {
    match step
    case MetUnlinkedPackage => PackageUnlinked
    case MetTruckWithoutRoute => TruckUnlinked
    case MetTruckWithoutLocation => TruckLost
    case Stripped => if commits then RouteGone(r) else RemovalNotSaved
  }

  lemma StripOutcome(w: World, rid: int, now: Time, commits: bool, r: RouteState)
    requires Closed(w) && rid in w.routes
    ensures var outcome := OutcomeOfStrip(StepOfStrip(PackagesOf(w, rid), ServiceIn(w, rid)), commits, r);
      && (outcome.RouteGone? <==> RemoveRouteOutcomeOf(w, rid, now, commits).RouteGone?)
      && (!outcome.RouteGone? ==> outcome == RemoveRouteOutcomeOf(w, rid, now, commits))
  {
    var ids, states := w.routes[rid].packages, PackagesOf(w, rid);
    if SomeUnlinkedPackage(w, ids) {
      var k :| 0 <= k < |ids| && w.packages[ids[k]].route.Unlinked?;
      assert states[k].route.Unlinked?;
    }
  }

  lemma GoneWith(w: World, rid: int, now: Time, commits: bool)
    requires Closed(w) && RemoveRouteOutcomeOf(w, rid, now, commits).RouteGone?
    ensures RemoveRouteOutcomeOf(w, rid, now, true).RouteGone? && rid in w.routes
    ensures RemoveRouteOutcomeOf(w, rid, now, commits)
         == RouteGone(RouteStripped(w.routes[rid], rid, PackagesOf(w, rid), ServiceIn(w, rid), now))
  {
  }

  lemma StrippedPackageIs(w: World, rid: int, now: Time, k: nat)
    requires Closed(w) && RemoveRouteOutcomeOf(w, rid, now, true).RouteGone? && k < |w.routes[rid].packages|
    ensures Baselines(PackagesOf(w, rid))[k] == WorldStripped(w, rid, now).packages[w.routes[rid].packages[k]]
  {
  }

  /** A stripped route, its truck and its packages are what the removal of the stored route makes of them. */
  lemma StrippedIs(c: Removal)
    requires Closed(c.w) && RemoveRouteOutcomeOf(c.w, c.route.routeId, c.now, true).RouteGone?
    requires PackageIds(c.list) == c.w.routes[c.route.routeId].packages && TruckLink(c.truck) == c.w.routes[c.route.routeId].truck
    requires InStates(c.list, Baselines(PackagesOf(c.w, c.route.routeId)))
    requires
      var rid := c.route.routeId; var served := ServiceIn(c.w, rid);
      && (served.Some? ==> |served.value.path| > 0)
      && c.route.State() == RouteStripped(c.w.routes[rid], rid, PackagesOf(c.w, rid), served, c.now)
      && (c.truck != null ==> c.truck.State() == FreedTruck(served.value.truck, served.value.path[|served.value.path| - 1]))
    ensures StrippedAs(c)
  {
    var rid, ids := c.route.routeId, PackageIds(c.list);
    forall k {:trigger c.list[k]} | 0 <= k < |c.list| ensures c.list[k].State() == WorldStripped(c.w, rid, c.now).packages[ids[k]] {
      StrippedPackageIs(c.w, rid, c.now, k);
    }
  }

  /** A stored route is stripped, or put back with its packages and its truck. */
  method StripStored(s: Store, route: DeliveryRoute, now: Time, commits: bool, ghost w: World, ghost c: Removal)
    returns (outcome: RemoveRouteOutcome)
    requires s.Standing() == Some(w) && s.HasRoute(route) && c == Removal(s, route, route.truck, route.packages, w, now)
    modifies route, route.truck
    modifies route.packages`route, route.packages`routeId, route.packages`status, route.packages`location, route.packages`arrival
    ensures Closed(w) && outcome == RemoveRouteOutcomeOf(w, route.routeId, now, commits)
    ensures Confined(c)
    ensures outcome.RouteGone? ==> Loosened(c) && StrippedAs(c)
    ensures !outcome.RouteGone? ==> AsRemembered(old(RememberOne(route)))
  {
    hide StrippedAs, RouteStripped, FreedTruck, Baselines, RemoveRouteOutcomeOf, StepOfStrip, AsRemembered,
         RememberOne, InStates, ServedBy,
         ServiceIn, PackagesOf, Closed, WorldStripped, StrippedRoute, Covers, ScheduleOf, Store.Standing, Store.Valid,
         Store.AllBuilt, Store.Model,
         Timetable, NoDup, EtaFinal, DeliveryPackage.State, DeliveryRoute.State, Truck.State;
    BeforeStrip(s, w, route);
    ghost var b := RememberOne(route);
    var step := StripOrPutBack(route, now, commits, PackagesOf(w, route.routeId), ServiceIn(w, route.routeId), b);
    outcome := OutcomeOfStrip(step, commits, route.State());
    StripOutcome(w, route.routeId, now, commits, route.State());
    if outcome.RouteGone? {
      GoneWith(w, route.routeId, now, commits);
      StrippedIs(c);
    }
  }

  /** Stripping a route and dropping it is removing it. */
  lemma StrippedThenDropped(w: World, rid: int, now: Time, commits: bool)
    requires Closed(w) && RemoveRouteOutcomeOf(w, rid, now, commits).RouteGone?
    ensures commits && RemoveRouteOutcomeOf(w, rid, now, true).RouteGone?
    ensures WorldStripped(w, rid, now).(routes := WorldStripped(w, rid, now).routes - {rid}) == RemoveRoute(w, rid, now, commits)
  {
  }

  /** A stored route is stripped, or everything is as it was. */
  method StripFramed(s: Store, route: DeliveryRoute, now: Time, commits: bool, ghost w: World)
    returns (outcome: RemoveRouteOutcome)
    requires s.Standing() == Some(w) && s.HasRoute(route)
    modifies route, route.truck
    modifies route.packages`route, route.packages`routeId, route.packages`status, route.packages`location, route.packages`arrival
    ensures Closed(w) && outcome == RemoveRouteOutcomeOf(w, route.routeId, now, commits)
    ensures outcome.RouteGone? ==> RemoveRouteOutcomeOf(w, route.routeId, now, true).RouteGone?
    ensures s.Standing() == Some(if outcome.RouteGone? then WorldStripped(w, route.routeId, now) else w)
    ensures !outcome.RouteGone? ==> Restored(s)
  {
    hide StrippedAs, Loosened, RemoveRouteOutcomeOf, WorldStripped, StrippedRoute, Closed, Store.Valid,
         Store.AllBuilt, Store.Model,
         Store.Standing, RemoveRoute, DeliveryRoute.Valid, DeliveryRoute.Built, AsRemembered, Confined;
    BeforeStrip(s, w, route);
    ghost var c := Removal(s, route, route.truck, route.packages, w, now);
    outcome := StripStored(s, route, now, commits, w, c);
    if outcome.RouteGone? {
      StrippedThenDropped(w, route.routeId, now, commits);
      StandingStripped(c);
    } else {
      RememberedIsRestored(c);
      RestoredStanding(s);
    }
  }

  /** Removes a route for good: its packages go back to their start, its truck is freed at the end of the route it
      served. A removal that cannot be carried through or saved leaves everything as it was. */
  method RemoveRouteFrom(s: Store, routeId: int, now: Time, commits: bool, ghost w: World)
    returns (outcome: RemoveRouteOutcome)
    requires s.Standing() == Some(w)
    modifies s`routes, s.packages.Values, s.routes.Values, s.trucks.Values
    ensures Closed(w) && outcome == RemoveRouteOutcomeOf(w, routeId, now, commits)
    ensures s.Model() == RemoveRoute(w, routeId, now, commits)
    ensures s.routes == if outcome.RouteGone? then old(s.routes) - {routeId} else old(s.routes)
    ensures !outcome.RouteGone? || Linked(w) ==> s.Standing() == Some(RemoveRoute(w, routeId, now, commits))
    ensures !outcome.RouteGone? ==> Restored(s)
  {
    s.ModelReady();
    if routeId !in s.routes {
      return RouteNotFound;
    }
    var route := s.routes[routeId];
    assert s.RouteKept(routeId);
    outcome := StripFramed(s, route, now, commits, w);
    assert outcome == RemoveRouteOutcomeOf(w, routeId, now, commits);
    if outcome.RouteGone? {
      StrippedThenDropped(w, routeId, now, commits);
      hide RemoveRoute, WorldStripped, RemoveRouteOutcomeOf, Linked, Closed;
      DropRoute(s, routeId, WorldStripped(w, routeId, now));
      if Linked(w) {
        RemovedRouteClosed(w, routeId, now);
      }
    }
  }
}
