/** The use cases over stored entities: what they change, and what they leave as it was when they fail. */
module UseCases {
  import opened Common
  import opened RouteScheduling
  import opened RouteLoads
  import opened Fleet
  import opened Assignments
  import opened Entities
  import opened Stores
  import opened StoreFrames
  import opened Undo
  import opened UseCaseSteps

  // ----- assign a truck to a route

  /** Schedules the route if needed and gives it the truck. */
  method AssignInMemory(route: DeliveryRoute, truck: Truck, now: Time) returns (outcome: ServeOutcome)
    requires route.Valid() && route.Built()
    modifies route`schedule, route`status, route`events, route`truck, truck
    ensures route.Valid() && route.Built()
    ensures outcome == (if old(route.truck) != null then RouteHasTruck
                        else if old(truck.status) != FREE || old(truck.route) != null then TruckHasRoute
                        else if old(truck.location).None? then LocationUnknown else Served)
    ensures outcome == Served && old(route.schedule).None? ==>
      route.status == SCHEDULED && route.schedule == Some(ScheduleOf(route.path, now, SPEED_KMPH))
    ensures outcome == Served ==>
      && route.truck == truck && truck.route == route
      && route.State() == RouteServedBy(ScheduledNow(old(route.State()), route.routeId, now), route.routeId, truck.vehicleId, old(truck.State()), now)
      && truck.State() == TruckServing(old(truck.State()), route.routeId, ScheduledNow(old(route.State()), route.routeId, now))
    ensures outcome != Served ==> old(route.events) <= route.events && route.packages == old(route.packages)
  {
    if route.schedule.None? {
      var ok := route.Schedule(now, now);
    }
    outcome := route.AssignTruck(truck, now);
  }

  /** Assigns the truck and saves both; when either fails, the route and the truck are exactly as before. */
  method AssignAndPersist(route: DeliveryRoute, truck: Truck, now: Time, commits: bool) returns (outcome: TruckOutcome)
    requires route.Valid() && route.Built() && route.truck == null
    modifies route, truck
    ensures route.Valid() && route.Built() && route.packages == old(route.packages)
    ensures outcome == (if old(truck.status) != FREE || old(truck.route) != null then TruckBusy
                        else if old(truck.location).None? then TruckNowhere
                        else if !commits then TruckNotSaved else TruckOnRoute)
    ensures outcome == TruckOnRoute && old(route.schedule).None? ==>
      route.status == SCHEDULED && route.schedule == Some(ScheduleOf(route.path, now, SPEED_KMPH))
    ensures outcome == TruckOnRoute ==>
      && route.truck == truck && truck.route == route
      && route.State() == RouteServedBy(ScheduledNow(old(route.State()), route.routeId, now), route.routeId, truck.vehicleId, old(truck.State()), now)
      && truck.State() == TruckServing(old(truck.State()), route.routeId, ScheduledNow(old(route.State()), route.routeId, now))
    ensures outcome != TruckOnRoute ==>
      RouteMemoryOf(route) == old(RouteMemoryOf(route)) && truck.SnapshotState() == old(truck.SnapshotState())
  {
    var undo, truckSnapshot := RouteUndo(route, route.SnapshotState(), |route.events|), truck.SnapshotState();
    ghost var memory := RouteMemoryOf(route);
    OwnMemoryFits(route);
    hide MemoryFits;
    var served := AssignInMemory(route, truck, now);
    outcome := match served
      case Served => if commits then TruckOnRoute else TruckNotSaved
      case TruckHasRoute => TruckBusy
      case _ => TruckNowhere;
    if outcome != TruckOnRoute {
      assert memory.state.events <= route.events;
      RestoreRoute(undo, memory);
      truck.RestoreState(truckSnapshot);
    }
  }

  /** Suitability of a truck; a planned route is judged as if it left now. */
  method IsSuitable(truck: Truck, route: DeliveryRoute, now: Time) returns (rejection: Option<TruckRejection>)
    requires route.Valid() && route.Built() && (truck.route != null ==> truck.route.Valid())
    ensures rejection == EvaluateTruck(truck.State(), if truck.route != null then Some(truck.route.State()) else None,
                                       DistanceKm(route.path), MaximumLoad(route.path, route.Loads()), route.path[0],
                                       if route.schedule.Some? then route.DepartureTime() else Some(now))
  {
    var load := MaximumSegmentLoad(route.path, route.Loads(), None);
    assert route.Loads() + [] == route.Loads();
    var departure := if route.DepartureTime().None? then Some(now) else route.DepartureTime();
    rejection := EvaluateTruck(truck.State(), if truck.route != null then Some(truck.route.State()) else None,
                               route.TotalDistanceKm(), load, route.StartLocation(), departure);
  }

  lemma LoadsAgree(s: Store, w: World, route: DeliveryRoute)
    requires s.Standing() == Some(w) && s.HasRoute(route) && Closed(w)
    ensures route.routeId in w.routes && route.Loads() == LoadsOn(w, route.routeId)
  {
    assert s.RouteKept(route.routeId);
    forall k | 0 <= k < |route.packages| ensures route.Loads()[k] == LoadsOn(w, route.routeId)[k] {
      assert s.HasPackage(route.packages[k]);
      assert w.packages[route.packages[k].packageId] == route.packages[k].State();
    }
  }

  lemma SuitabilityAgrees(s: Store, w: World, route: DeliveryRoute, truck: Truck, now: Time)
    requires s.Standing() == Some(w) && s.HasRoute(route) && s.HasTruck(truck)
    ensures Closed(w) && route.Valid() && route.Built() && (truck.route != null ==> truck.route.Valid())
    ensures Suitability(w, route.routeId, truck.vehicleId, now)
         == EvaluateTruck(truck.State(), if truck.route != null then Some(truck.route.State()) else None,
                          DistanceKm(route.path), MaximumLoad(route.path, route.Loads()), route.path[0],
                          if route.schedule.Some? then route.DepartureTime() else Some(now))
  {
    s.ModelReady();
    LoadsAgree(s, w, route);
    assert s.RouteKept(route.routeId) && s.TruckKept(truck.vehicleId) && s.routes[route.routeId].Built();
    if truck.route != null {
      assert s.RouteKept(truck.route.routeId);
      assert w.routes[truck.route.routeId] == truck.route.State();
    }
    assert w.routes[route.routeId] == route.State() && w.trucks[truck.vehicleId] == truck.State();
  }

  /** What the store knows of a route and a truck. */
  lemma BeforeService(s: Store, w: World, route: DeliveryRoute, truck: Truck)
    requires s.Standing() == Some(w) && s.HasRoute(route) && s.HasTruck(truck)
    ensures Closed(w) && s.Model() == w && route.Valid() && route.Built()
    ensures route.routeId in w.routes && w.routes[route.routeId] == route.State()
    ensures truck.vehicleId in w.trucks && w.trucks[truck.vehicleId] == truck.State()
    ensures s.RouteHeld(route.truck, route.packages) && (truck.route != null ==> s.HasRoute(truck.route))
  {
    s.ModelReady();
    assert s.RouteKept(route.routeId) && s.TruckKept(truck.vehicleId) && s.routes[route.routeId].Built();
  }

  /** A suitable truck takes a stored route, or the store stays as it was. */
  method TakeRoute(s: Store, route: DeliveryRoute, truck: Truck, now: Time, commits: bool, ghost w: World)
    returns (outcome: TruckOutcome)
    requires s.Standing() == Some(w) && s.HasRoute(route) && s.HasTruck(truck) && route.truck == null
    modifies route, truck
    ensures outcome == (if old(truck.status) != FREE || old(truck.route) != null then TruckBusy
                        else if old(truck.location).None? then TruckNowhere
                        else if !commits then TruckNotSaved else TruckOnRoute)
    ensures outcome != TruckOnRoute ==> s.Standing() == Some(w)
    ensures outcome == TruckOnRoute ==>
      && Closed(w) && route.routeId in w.routes && truck.vehicleId in w.trucks && w.trucks[truck.vehicleId].location.Some?
      && s.Standing() == Some(Serve(w, route.routeId, ScheduledNow(w.routes[route.routeId], route.routeId, now), truck.vehicleId, now))
  {
    hide Closed, Store.Standing, Store.Model, Store.Valid, Store.AllBuilt, ScheduledNow, RouteServedBy, TruckServing,
         Covers, NoDup;
    BeforeService(s, w, route, truck);
    ghost var c := Change(s, route, truck, null, null);
    outcome := AssignAndPersist(route, truck, now, commits);
    StandingAfter(c);
    if outcome != TruckOnRoute {
      assert RouteMemoryOf(route).state == w.routes[route.routeId];
      AmendedNothing(w, c);
    }
  }

  lemma StoredIds(s: Store, w: World)
    requires s.Standing() == Some(w)
    ensures Closed(w) && w.routes.Keys == s.routes.Keys && w.trucks.Keys == s.trucks.Keys
    ensures forall rid <- s.routes :: s.routes[rid].routeId == rid
    ensures forall tid <- s.trucks :: s.trucks[tid].vehicleId == tid
  {
    s.ModelReady();
    forall rid <- s.routes ensures s.routes[rid].routeId == rid { assert s.RouteKept(rid); }
    forall tid <- s.trucks ensures s.trucks[tid].vehicleId == tid { assert s.TruckKept(tid); }
  }

  /** Assigns a stored truck to a stored route. */
  method AssignTruckToRoute(s: Store, routeId: int, truckId: int, now: Time, commits: bool, ghost w: World)
    returns (outcome: TruckOutcome)
    requires s.Standing() == Some(w)
    modifies s.routes.Values, s.trucks.Values
    ensures Closed(w) && outcome == AssignTruckOutcome(w, routeId, truckId, now, commits)
    ensures s.Standing() == Some(AssignTruck(w, routeId, truckId, now, commits))
  {
    StoredIds(s, w);
    hide Closed, Store.Standing, Store.Model, Store.Valid, Store.AllBuilt, Serve, Suitability, EvaluateTruck,
         MaximumLoad, DistanceKm, Covers, NoDup;
    if routeId !in s.routes {
      return RouteUnknown;
    }
    if truckId !in s.trucks {
      return TruckUnknown;
    }
    var route, truck := s.routes[routeId], s.trucks[truckId];
    BeforeService(s, w, route, truck);
    if route.truck != null {
      return RouteTaken;
    }
    SuitabilityAgrees(s, w, route, truck, now);
    var rejection := IsSuitable(truck, route, now);
    if rejection.Some? {
      return Unsuitable(rejection.value);
    }
    outcome := TakeRoute(s, route, truck, now, commits, w);
  }

  // ----- assign packages to a route

  /** Drops repeated ids, keeping each at its first occurrence. */
  method UniquePackageIds(ids: seq<int>) returns (unique: seq<int>)
    ensures unique == Unique(ids)
  {
    var seen: set<int> := {};
    unique := [];
    for i := 0 to |ids|
      invariant forall id :: id in seen <==> id in ids[..i]
      invariant unique == Unique(ids[..i])
    {
      assert ids[..i + 1][..i] == ids[..i];
      assert forall id :: id in ids[..i + 1] <==> id in ids[..i] || id == ids[i];
      if ids[i] !in seen {
        seen := seen + {ids[i]};
        unique := unique + [ids[i]];
      }
    }
    WholeSlice(ids);
  }

  /** Assigns a package and saves it; when saving fails, the route and the package are exactly as before. */
  method AssignAndSave(route: DeliveryRoute, package: DeliveryPackage, now: Time, saves: bool)
    returns (rejection: Option<PackageRejection>, failed: bool)
    requires route.Valid() && route.Built()
    modifies route, package`route, package`routeId, package`status, package`location, package`arrival
    ensures route.Valid() && route.Built() && route.truck == old(route.truck)
    ensures rejection == (
      if old(route.HasPackage(package)) then None
      else EvaluatePackage(old(route.State()), if route.truck != null then Some(old(route.truck.State())) else None,
                           MaximumLoad(route.path, old(route.Loads()) + [LoadOf(old(package.State()))]), old(package.State()), now))
    ensures failed <==> rejection.None? && !saves
    ensures failed || rejection.Some? || old(route.HasPackage(package)) ==>
      RouteMemoryOf(route) == old(RouteMemoryOf(route)) && Memory(package) == old(Memory(package))
    ensures !failed && rejection.None? && !old(route.HasPackage(package)) ==>
      && route.packages == old(route.packages) + [package] && package.route == route
      && route.State() == AssigningRoute(old(route.State()), route.routeId, package.packageId, old(package.State()), now)
      && package.State() == AssignedPackage(old(route.State()), route.routeId, old(package.State()))
  {
    var undo, packageSnapshot := RouteUndo(route, route.SnapshotState(), |route.events|), package.SnapshotState();
    ghost var memory := RouteMemoryOf(route);
    OwnMemoryFits(route);
    hide MemoryFits, EvaluatePackage, MaximumLoad;
    rejection := route.AssignPackage(package, now);
    failed := rejection.None? && !saves;
    if failed {
      RestoreRoute(undo, memory);
      package.RestoreState(packageSnapshot);
    }
  }

  /** The policy's verdict on a stored package is the one told of the world. */
  lemma RejectionAgrees(s: Store, w: World, route: DeliveryRoute, package: DeliveryPackage, now: Time)
    requires s.Standing() == Some(w) && s.HasRoute(route) && s.HasPackage(package)
    ensures Ready(w) && s.Model() == w
    ensures route.routeId in w.routes && package.packageId in w.packages && route.Valid() && route.Built()
    ensures s.RouteHeld(route.truck, route.packages) && s.HasCustomer(package.customer)
    ensures package.route != null ==> s.HasRoute(package.route)
    ensures route.State() == w.routes[route.routeId] && package.State() == w.packages[package.packageId]
    ensures route.HasPackage(package) <==> package.packageId in w.routes[route.routeId].packages
    ensures AssignmentRejection(w, route.routeId, package.packageId, now)
         == EvaluatePackage(route.State(), if route.truck != null then Some(route.truck.State()) else None,
                            MaximumLoad(route.path, route.Loads() + [LoadOf(package.State())]), package.State(), now)
  {
    s.ModelReady();
    LoadsAgree(s, w, route);
    assert s.RouteKept(route.routeId) && s.PackageKept(package.packageId) && s.routes[route.routeId].Built();
    assert w.routes[route.routeId] == route.State() && w.packages[package.packageId] == package.State();
    if route.truck != null {
      assert w.trucks[route.truck.vehicleId] == route.truck.State();
    }
  }

  /** A stored, unassigned package is offered to a stored route. */
  method OfferPackage(s: Store, route: DeliveryRoute, package: DeliveryPackage, now: Time, saves: bool, ghost w: World)
    returns (rejection: Option<PackageRejection>, failed: bool)
    requires s.Standing() == Some(w) && s.HasRoute(route) && s.HasPackage(package) && package.routeId.Unlinked?
    modifies route, package
    ensures Ready(w) && route.routeId in w.routes && package.packageId in w.packages
    ensures AssignOutcomeOf(w, route.routeId, package.packageId, now) == (if rejection.Some? then Refused(rejection.value) else Assigned)
    ensures failed <==> rejection.None? && !saves
    ensures s.Standing() == Some(Amended(w, Change(s, route, null, package, null)))
    ensures
      var r, p := w.routes[route.routeId], w.packages[package.packageId];
      (route.State(), package.State()) ==
        if failed || rejection.Some? || package.packageId in r.packages then (r, p)
        else (AssigningRoute(r, route.routeId, package.packageId, p, now), AssignedPackage(r, route.routeId, p))
  {
    hide EvaluatePackage, AssignmentRejection, MaximumLoad, AssignedPackage, AssigningRoute, Amended, Ready, Closed,
         Store.Standing, Store.Model,
         Store.Valid, Store.AllBuilt;
    RejectionAgrees(s, w, route, package, now);
    ghost var c, list := Change(s, route, null, package, null), route.packages;
    rejection, failed := AssignAndSave(route, package, now, saves);
    assert s.RouteHeld(route.truck, list) && (route.packages == list || route.packages == list + [package]);
    StandingAfter(c);
    if failed || rejection.Some? || package.packageId in w.routes[route.routeId].packages {
      assert RouteMemoryOf(route).state == w.routes[route.routeId];
      assert Memory(package) == old(Memory(package));
    }
  }

  /** One package of the batch. */
  method AssignNext(s: Store, route: DeliveryRoute, packageId: int, now: Time, failing: set<int>, ghost w: World)
    returns (outcome: AssignOutcome, failed: bool)
    requires s.Standing() == Some(w) && s.HasRoute(route)
    modifies s.routes.Values, s.packages.Values
    ensures Ready(w) && route.routeId in w.routes
    ensures outcome == AssignOutcomeOf(w, route.routeId, packageId, now)
    ensures failed <==> outcome == Assigned && packageId in failing
    ensures s.Standing() == Some(if failed then w else AssignOne(w, route.routeId, packageId, now))
  {
    s.ModelReady();
    if packageId !in s.packages {
      return PackageMissing, false;
    }
    var package := s.packages[packageId];
    assert s.PackageKept(packageId) && w.packages[packageId] == package.State();
    assert w.routes[route.routeId] == route.State();
    if package.routeId.To? {
      return if package.route == null then RouteNotHydrated else AlreadyOnRoute, false;
    }
    var rejection;
    rejection, failed := OfferPackage(s, route, package, now, packageId !in failing, w);
    outcome := if rejection.Some? then Refused(rejection.value) else Assigned;
    if failed || rejection.Some? || packageId in w.routes[route.routeId].packages {
      AmendedNothing(w, Change(s, route, null, package, null));
    }
  }

  /** Assigns a batch of packages, each id once. A package whose update fails is rolled back and ends the batch; the
      packages before it stay assigned. */
  method AssignPackagesToRoute(s: Store, routeId: int, packageIds: seq<int>, now: Time, failing: set<int>, ghost w: World)
    returns (found: bool, outcomes: seq<AssignOutcome>, failed: bool)
    requires s.Standing() == Some(w)
    modifies s.routes.Values, s.packages.Values
    ensures Ready(w) && (found <==> routeId in w.routes)
    ensures !found ==> s.Standing() == Some(w)
    ensures found ==>
      var b := AssignAll(w, routeId, Unique(packageIds), now, failing);
      s.Standing() == Some(b.world) && outcomes == b.outcomes && failed == b.failed
  {
    s.ModelReady();
    found, outcomes, failed := false, [], false;
    if routeId !in s.routes {
      return;
    }
    found := true;
    var route := s.routes[routeId];
    assert s.RouteKept(routeId);
    var unique := UniquePackageIds(packageIds);
    for i := 0 to |unique|
      invariant AssignAll(w, routeId, unique[..i], now, failing) == Batch(AssignAll(w, routeId, unique[..i], now, failing).world, outcomes, false)
      invariant s.Standing() == Some(AssignAll(w, routeId, unique[..i], now, failing).world)
    {
      AssignAllNext(w, routeId, unique, i, now, failing);
      var outcome;
      outcome, failed := AssignNext(s, route, unique[i], now, failing, AssignAll(w, routeId, unique[..i], now, failing).world);
      if failed {
        return;
      }
      outcomes := outcomes + [outcome];
    }
    WholeSlice(unique);
  }
}
