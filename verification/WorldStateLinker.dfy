/** Linking a rebuilt world in place: packages first, then candidate trucks cloned from the fleet. */
module WorldStateLinker {
  import opened Common
  import opened CityMap
  import opened Fleet
  import opened Reconciliation
  import opened Entities
  import opened Stores
  import opened StoreFrames
  import opened Snapshots
  import opened SnapshotChecks
  import opened SnapshotRestore
  import opened UseCaseSteps
  import opened SnapshotLinking
  import opened HeartbeatService
  import opened Undo
  import opened Restoring

  // ----- packages

  /** Puts one stored package on one stored route; fails on an id that is not stored, and on a package whose end is
      no stop of the route's schedule. */
  method RestoreLink(s: Store, routeId: int, packageId: int, ghost w: World) returns (ok: bool)
    requires s.Standing() == Some(w)
    modifies s.routes.Values, s.packages.Values
    ensures Ready(w) && (ok <==> LinkPackage(w, routeId, packageId).Some?)
    ensures ok ==> s.Standing() == LinkPackage(w, routeId, packageId)
  {
    s.ModelReady();
    if routeId !in s.routes || packageId !in s.packages {
      return false;
    }
    var route, package := s.routes[routeId], s.packages[packageId];
    assert s.RouteKept(routeId) && s.PackageKept(packageId);
    ok := RelinkStored(s, route, package, w);
  }

  /** What linking one package does to a world, told of its two entities. */
  lemma LinkPackageIs(w: World, rid: int, pid: int)
    requires Ready(w) && rid in w.routes && pid in w.packages
    ensures Shaped(w.routes[rid])
    ensures LinkPackage(w, rid, pid).Some? <==> pid in w.routes[rid].packages || !ArrivalMissing(w.routes[rid], w.packages[pid])
    ensures LinkPackage(w, rid, pid).Some? ==>
      var r, p := w.routes[rid], w.packages[pid];
      var listed := pid in r.packages;
      LinkPackage(w, rid, pid).value == w.(
        routes := w.routes[rid := if listed then r else r.(packages := r.packages + [pid])],
        packages := w.packages[pid := if listed then p else AssignedPackage(r, rid, p)])
  {
    hide AssignedPackage;
    if pid in w.routes[rid].packages {
      assert w.routes[rid := w.routes[rid]] == w.routes && w.packages[pid := w.packages[pid]] == w.packages;
    }
  }

  lemma BeforeRelink(s: Store, route: DeliveryRoute, package: DeliveryPackage, w: World)
    requires s.Standing() == Some(w) && s.HasRoute(route) && s.HasPackage(package)
    ensures Ready(w) && s.Model() == w && route.routeId in w.routes && package.packageId in w.packages && Shaped(w.routes[route.routeId])
    ensures w.routes[route.routeId] == route.State() && w.packages[package.packageId] == package.State()
    ensures route.Valid() && route.Built() && s.RouteHeld(route.truck, route.packages)
    ensures s.HasCustomer(package.customer) && (package.route != null ==> s.HasRoute(package.route))
  {
    s.ModelReady();
    assert s.RouteKept(route.routeId) && s.PackageKept(package.packageId) && s.routes[route.routeId].Built();
  }

  /** The link between two stored entities, restored on both. */
  method RelinkEntities(s: Store, route: DeliveryRoute, package: DeliveryPackage, ghost w: World) returns (ok: bool)
    requires s.Standing() == Some(w) && s.HasRoute(route) && s.HasPackage(package)
    modifies route, package
    ensures Ready(w) && route.routeId in w.routes && package.packageId in w.packages && Shaped(w.routes[route.routeId])
    ensures s.Standing() == Some(Amended(w, Change(s, route, null, package, null)))
    ensures ok <==> package.packageId in w.routes[route.routeId].packages || !ArrivalMissing(w.routes[route.routeId], w.packages[package.packageId])
    ensures
      var r, p := w.routes[route.routeId], w.packages[package.packageId];
      (route.State(), package.State()) ==
        if package.packageId in r.packages then (r, p)
        else (r.(packages := r.packages + [package.packageId]), AssignedPackage(r, route.routeId, p))
  {
    BeforeRelink(s, route, package, w);
    hide AssignedPackage, Store.Valid, Store.AllBuilt, Store.Model, Store.Standing, Ready, Closed, Covers, Shaped,
         Amended, ArrivalMissing, Derived;
    ghost var c, list := Change(s, route, null, package, null), route.packages;
    ok := route.RestorePackageLink(package);
    assert PackageIds(list + [package]) == PackageIds(list) + [package.packageId];
    assert s.RouteHeld(route.truck, list) && (route.packages == list || route.packages == list + [package]);
    StandingAfter(c);
  }

  method RelinkStored(s: Store, route: DeliveryRoute, package: DeliveryPackage, ghost w: World) returns (ok: bool)
    requires s.Standing() == Some(w) && s.HasRoute(route) && s.HasPackage(package)
    modifies route, package
    ensures Ready(w) && (ok <==> LinkPackage(w, route.routeId, package.packageId).Some?)
    ensures ok ==> s.Standing() == LinkPackage(w, route.routeId, package.packageId)
  {
    hide LinkPackage, AssignedPackage, Store.Standing, Ready, Closed, ArrivalMissing;
    ok := RelinkEntities(s, route, package, w);
    LinkPackageIs(w, route.routeId, package.packageId);
  }

  /** Restores the package links of every route record, in order. */
  method LinkPackagesToRoutes(s: Store, records: seq<RouteRecord>, ghost w: World) returns (ok: bool)
    requires s.Standing() == Some(w)
    modifies s.routes.Values, s.packages.Values
    ensures Ready(w) && (ok <==> LinkPackages(w, records).Some?)
    ensures ok ==> s.Standing() == LinkPackages(w, records)
  {
    s.ModelReady();
    for i := 0 to |records|
      invariant LinkPackages(w, records[..i]).Some? && s.Standing() == LinkPackages(w, records[..i])
    {
      assert records[..i + 1][..i] == records[..i];
      ok := LinkRecord(s, records[i], LinkPackages(w, records[..i]).value);
      if !ok {
        MissingStaysMissing(w, records, i + 1);
        return;
      }
    }
    WholeSlice(records);
    return true;
  }

  lemma StandsFor(s: Store, w: World)
    requires s.Standing() == Some(w)
    ensures Ready(w) && s.Model() == w
    ensures w.routes.Keys == s.routes.Keys && w.packages.Keys == s.packages.Keys && w.trucks.Keys == s.trucks.Keys
    ensures forall rid <- s.routes :: s.HasRoute(s.routes[rid]) && s.routes[rid].routeId == rid
  {
    s.ModelReady();
    forall rid <- s.routes ensures s.HasRoute(s.routes[rid]) && s.routes[rid].routeId == rid {
      assert s.RouteKept(rid);
    }
  }

  lemma LinkListNext(w: World, rid: int, ids: seq<int>, j: nat)
    requires Ready(w) && j < |ids| && LinkList(w, rid, ids[..j]).Some?
    ensures LinkList(w, rid, ids[..j + 1]) == LinkPackage(LinkList(w, rid, ids[..j]).value, rid, ids[j])
  {
    hide LinkPackage, Ready;
    assert ids[..j + 1][..j] == ids[..j];
  }

  /** Restores the package links of one route record. */
  method LinkRecord(s: Store, record: RouteRecord, ghost w: World) returns (ok: bool)
    requires s.Standing() == Some(w)
    modifies s.routes.Values, s.packages.Values
    ensures Ready(w) && (ok <==> record.id in w.routes && LinkList(w, record.id, record.packages).Some?)
    ensures ok ==> s.Standing() == LinkList(w, record.id, record.packages)
  {
    StandsFor(s, w);
    hide LinkPackage, Ready, Store.Standing, Store.Valid, Store.AllBuilt, Store.Model;
    if record.id !in s.routes {
      return false;
    }
    assert record.packages[..0] == [];
    for j := 0 to |record.packages|
      invariant LinkList(w, record.id, record.packages[..j]).Some? && s.Standing() == LinkList(w, record.id, record.packages[..j])
    {
      LinkListNext(w, record.id, record.packages, j);
      ok := RestoreLink(s, record.id, record.packages[j], LinkList(w, record.id, record.packages[..j]).value);
      if !ok {
        MissingInList(w, record.id, record.packages, j + 1);
        return;
      }
    }
    WholeSlice(record.packages);
    return true;
  }

  lemma {:induction false} MissingInList(w: World, rid: int, ids: seq<int>, n: nat)
    requires Ready(w) && n <= |ids| && LinkList(w, rid, ids[..n]).None?
    ensures LinkList(w, rid, ids).None?
    decreases |ids|
  {
    if n == |ids| {
      WholeSlice(ids);
    } else {
      assert ids[..|ids| - 1][..n] == ids[..n];
      MissingInList(w, rid, ids[..|ids| - 1], n);
    }
  }

  lemma {:induction false} MissingStaysMissing(w: World, records: seq<RouteRecord>, n: nat)
    requires Ready(w) && n <= |records| && LinkPackages(w, records[..n]).None?
    ensures LinkPackages(w, records).None?
    decreases |records|
  {
    if n == |records| {
      WholeSlice(records);
    } else {
      assert records[..|records| - 1][..n] == records[..n];
      MissingStaysMissing(w, records[..|records| - 1], n);
    }
  }

  // ----- candidate trucks

  /** The fleet as values. */
  function FleetStates(fleet: map<int, Truck>): map<int, TruckState>
    reads fleet.Values
  {
    map tid <- fleet :: fleet[tid].State()
  }

  ghost predicate FleetKnown(fleet: map<int, Truck>) {
    forall tid <- fleet :: fleet[tid].vehicleId == tid
  }

  /** A detached copy of a truck. */
  method CloneTruck(truck: Truck) returns (clone: Truck)
    ensures fresh(clone) && clone.vehicleId == truck.vehicleId && clone.route == null
    ensures clone.State() == truck.State().(route := Unlinked)
  {
    clone := new Truck(truck.vehicleId, truck.capacity, truck.maxRange);
    clone.status, clone.location := truck.status, truck.location;
    clone.busyFrom, clone.busyUntil, clone.inTransitTo := truck.busyFrom, truck.busyUntil, truck.inTransitTo;
  }

  /** A copy of a fleet truck in the recorded state. */
  method CloneInState(truck: Truck, record: TruckRecord) returns (clone: Truck)
    requires record.status.Status?
    ensures fresh(clone) && clone.vehicleId == truck.vehicleId && clone.route == null
    ensures clone.State() == CandidateOf(record, truck.State())
  {
    clone := CloneTruck(truck);
    clone.status, clone.location := record.status.status, record.location;
    clone.busyFrom, clone.busyUntil, clone.inTransitTo := record.busyFrom, record.busyUntil, record.inTransitTo;
    clone.route := null;
  }

  /** A copy of a fleet truck, free at the start of its route. */
  method CloneFree(truck: Truck, start: LocationCode) returns (clone: Truck)
    ensures fresh(clone) && clone.vehicleId == truck.vehicleId && clone.route == null
    ensures clone.State() == FreshCandidate(truck.State(), start)
  {
    clone := CloneTruck(truck);
    clone.status, clone.location := FREE, Some(start);
    clone.busyFrom, clone.busyUntil, clone.inTransitTo := None, None, None;
    clone.route := null;
  }

  /** Candidates stand for these values and are new. */
  ghost predicate StandFor(candidates: map<int, Truck>, states: map<int, TruckState>)
    reads candidates.Values
  {
    && candidates.Keys == states.Keys
    && forall tid <- candidates :: candidates[tid].vehicleId == tid && candidates[tid].route == null && candidates[tid].State() == states[tid]
  }

  /** Clones the fleet truck of every record; fails on a truck the fleet does not have. */
  method BuildCandidates(records: seq<TruckRecord>, fleet: map<int, Truck>)
    returns (ok: bool, candidates: map<int, Truck>)
    requires FleetKnown(fleet) && forall j :: 0 <= j < |records| ==> records[j].status.Status?
    ensures ok <==> Candidates(records, FleetStates(fleet)).Some?
    ensures ok ==> StandFor(candidates, Candidates(records, FleetStates(fleet)).value) && forall t <- candidates.Values :: fresh(t)
    ensures ok ==> forall tid <- candidates :: candidates[tid] !in fleet.Values
  {
    candidates := map[];
    ghost var states := FleetStates(fleet);
    for j := 0 to |records|
      invariant FleetStates(fleet) == states && (forall tid <- candidates :: fresh(candidates[tid]))
      invariant forall t <- candidates.Values :: fresh(t)
      invariant Candidates(records[..j], states).Some? && StandFor(candidates, Candidates(records[..j], states).value)
    {
      assert records[..j + 1][..j] == records[..j];
      if records[j].id !in fleet {
        NoCandidate(records, states, j + 1);
        return false, candidates;
      }
      var clone := CloneInState(fleet[records[j].id], records[j]);
      candidates := candidates[records[j].id := clone];
    }
    WholeSlice(records);
    return true, candidates;
  }

  lemma {:induction false} NoCandidate(records: seq<TruckRecord>, fleet: map<int, TruckState>, n: nat)
    requires n <= |records| && (forall j :: 0 <= j < |records| ==> records[j].status.Status?) && Candidates(records[..n], fleet).None?
    ensures Candidates(records, fleet).None?
    decreases |records|
  {
    if n == |records| {
      WholeSlice(records);
    } else {
      assert records[..|records| - 1][..n] == records[..n];
      NoCandidate(records[..|records| - 1], fleet, n);
    }
  }

  // ----- trucks on routes

  /** The store got more trucks, none of them on a route, and nothing else changed. */
  twostate predicate TrucksAdded(s: Store)
    reads s, s.customers.Values, s.packages.Values, s.routes.Values, s.trucks.Values
  {
    && s.customers == old(s.customers) && s.packages == old(s.packages) && s.routes == old(s.routes)
    && (forall cid <- s.customers :: unchanged(s.customers[cid]))
    && (forall pid <- s.packages :: unchanged(s.packages[pid]))
    && (forall rid <- s.routes :: unchanged(s.routes[rid]))
    && (forall tid <- old(s.trucks) :: tid in s.trucks && s.trucks[tid] == old(s.trucks[tid]) && unchanged(s.trucks[tid]))
    && (forall tid <- s.trucks :: tid !in old(s.trucks) ==> s.trucks[tid].vehicleId == tid && s.trucks[tid].route == null)
  }

  twostate lemma StandingWithTrucks(s: Store)
    requires old(s.Standing()).Some? && TrucksAdded(s)
    ensures s.Valid() && s.AllBuilt()
  {
    forall rid | rid in s.routes ensures s.RouteKept(rid) && s.routes[rid].Built() {
      assert old(s.RouteKept(rid)) && old(s.routes[rid].Built());
    }
    forall tid | tid in s.trucks ensures s.TruckKept(tid) {
      if tid in old(s.trucks) {
        assert old(s.TruckKept(tid));
      }
    }
    forall pid | pid in s.packages ensures s.PackageKept(pid) { assert old(s.PackageKept(pid)); }
    forall cid | cid in s.customers ensures s.CustomerKept(cid) { assert old(s.CustomerKept(cid)); }
  }

  twostate lemma ModelWithTrucks(s: Store)
    requires TrucksAdded(s)
    ensures s.Model() == old(s.Model()).(trucks := s.Model().trucks)
  {
    var v, w := s.Model(), old(s.Model());
    forall cid <- s.customers ensures v.customers[cid] == w.customers[cid] {}
    forall rid <- s.routes ensures v.routes[rid] == w.routes[rid] {}
    forall pid <- s.packages ensures v.packages[pid] == w.packages[pid] {}
    SameWorld(v, w.(trucks := v.trucks));
  }

  /** Makes the candidates the trucks of a world that had none. */
  method AdoptCandidates(s: Store, candidates: map<int, Truck>, ghost w: World, ghost states: map<int, TruckState>)
    requires s.Standing() == Some(w) && s.trucks == map[] && StandFor(candidates, states)
    modifies s`trucks
    ensures s.trucks == candidates && s.Standing() == Some(w.(trucks := states))
  {
    s.trucks := candidates;
    StandingWithTrucks(s);
    ModelWithTrucks(s);
    forall tid <- candidates ensures s.Model().trucks[tid] == states[tid] {}
    assert s.Model().trucks == states;
  }

  /** Adds one free candidate. */
  method AddCandidate(s: Store, clone: Truck, ghost w: World)
    requires s.Standing() == Some(w) && clone.vehicleId !in s.trucks && clone.route == null
    modifies s`trucks
    ensures s.trucks == old(s.trucks)[clone.vehicleId := clone]
    ensures s.Standing() == Some(w.(trucks := w.trucks[clone.vehicleId := clone.State()]))
  {
    s.trucks := s.trucks[clone.vehicleId := clone];
    StandingWithTrucks(s);
    ModelWithTrucks(s);
    assert s.Model().trucks == w.trucks[clone.vehicleId := clone.State()];
  }

  /** Gives a stored route its stored candidate. */
  method AssignCandidate(s: Store, route: DeliveryRoute, candidate: Truck, ghost w: World)
    requires s.Standing() == Some(w) && s.HasRoute(route) && s.HasTruck(candidate)
    modifies route`truck, candidate
    ensures Closed(w) && route.routeId in w.routes && candidate.vehicleId in w.trucks
    ensures s.Standing() == Some(w.(
      trucks := w.trucks[candidate.vehicleId := TruckServing(w.trucks[candidate.vehicleId], route.routeId, w.routes[route.routeId])],
      routes := w.routes[route.routeId := w.routes[route.routeId].(truck := To(candidate.vehicleId))]))
  {
    s.ModelReady();
    assert s.RouteKept(route.routeId) && s.TruckKept(candidate.vehicleId) && s.routes[route.routeId].Built();
    assert w.routes[route.routeId] == route.State() && w.trucks[candidate.vehicleId] == candidate.State();
    ghost var c := Change(s, route, candidate, null, null);
    hide TruckServing;
    candidate.Assign(route);
    route.truck := candidate;
    StandingAfter(c);
  }

  lemma SetTwice(w: World, tid: int, t: TruckState, u: TruckState)
    ensures w.(trucks := w.trucks[tid := t][tid := u]) == w.(trucks := w.trucks[tid := u])
  {
    assert w.trucks[tid := t][tid := u] == w.trucks[tid := u];
  }

  /** No stored truck is a fleet truck. */
  ghost predicate Detached(s: Store, fleet: map<int, Truck>)
    reads s
  {
    forall tid <- s.trucks :: s.trucks[tid] !in fleet.Values
  }

  /** Gives a route a new clone of a fleet truck that has no candidate. */
  method LinkClone(s: Store, fleet: map<int, Truck>, route: DeliveryRoute, truckId: int, ghost w: World, ghost states: map<int, TruckState>)
    requires s.Standing() == Some(w) && s.HasRoute(route) && truckId !in s.trucks && truckId in fleet
    requires FleetKnown(fleet) && FleetStates(fleet) == states
    modifies s`trucks, route`truck
    ensures truckId in s.trucks && fresh(s.trucks[truckId]) && s.trucks == old(s.trucks)[truckId := s.trucks[truckId]]
    ensures s.Standing() == LinkTruck(w, states, route.routeId, truckId)
  {
    s.ModelReady();
    assert s.RouteKept(route.routeId) && w.routes[route.routeId] == route.State();
    hide TruckServing, FreshCandidate, Store.AllBuilt, Closed;
    var clone := CloneFree(fleet[truckId], route.StartLocation());
    AddCandidate(s, clone, w);
    SetTwice(w, truckId, clone.State(), TruckServing(clone.State(), route.routeId, w.routes[route.routeId]));
    AssignCandidate(s, route, clone, w.(trucks := w.trucks[truckId := clone.State()]));
  }

  /** Gives a route the candidate its truck already has. */
  method LinkExisting(s: Store, route: DeliveryRoute, truckId: int, ghost w: World, ghost states: map<int, TruckState>)
    requires s.Standing() == Some(w) && s.HasRoute(route) && truckId in s.trucks
    modifies route`truck, s.trucks[truckId]
    ensures s.Standing() == LinkTruck(w, states, route.routeId, truckId)
  {
    s.ModelReady();
    assert s.RouteKept(route.routeId) && s.TruckKept(truckId) && w.routes[route.routeId] == route.State();
    hide TruckServing, FreshCandidate, Store.AllBuilt, Closed;
    AssignCandidate(s, route, s.trucks[truckId], w);
  }

  lemma ReadyIsClosed(w: World)
    requires Ready(w)
    ensures Closed(w)
  {
  }

  lemma LinkTruckIff(w: World, fleet: map<int, TruckState>, rid: int, tid: int)
    requires Closed(w)
    ensures LinkTruck(w, fleet, rid, tid).Some? <==> rid in w.routes && (tid in w.trucks || tid in fleet)
  {
  }

  /** Gives one route its truck: the candidate built from its record, or a new clone when it has none. */
  method LinkCandidate(s: Store, fleet: map<int, Truck>, routeId: int, truckId: int, ghost w: World, ghost states: map<int, TruckState>)
    returns (ok: bool)
    requires s.Standing() == Some(w) && FleetKnown(fleet) && Detached(s, fleet) && FleetStates(fleet) == states
    modifies s`trucks, s.routes.Values, s.trucks.Values
    ensures ok <==> LinkTruck(w, states, routeId, truckId).Some?
    ensures ok ==> s.Standing() == LinkTruck(w, states, routeId, truckId)
    ensures forall t <- s.trucks.Values :: t in old(s.trucks.Values) || fresh(t)
    ensures Detached(s, fleet) && FleetStates(fleet) == states
  {
    hide LinkTruck, Store.Standing, Store.Model, Store.Valid, Store.AllBuilt, Closed, Ready;
    StandsFor(s, w);
    ReadyIsClosed(w);
    LinkTruckIff(w, states, routeId, truckId);
    if routeId !in s.routes || (truckId !in s.trucks && truckId !in fleet) {
      return false;
    }
    if truckId in s.trucks {
      LinkExisting(s, s.routes[routeId], truckId, w, states);
    } else {
      LinkClone(s, fleet, s.routes[routeId], truckId, w, states);
    }
    return true;
  }

  /** Gives every route that names a truck its candidate, in record order. */
  method LinkCandidateTrucks(s: Store, fleet: map<int, Truck>, records: seq<RouteRecord>, ghost w: World, ghost states: map<int, TruckState>)
    returns (ok: bool)
    requires s.Standing() == Some(w) && FleetKnown(fleet) && Detached(s, fleet) && FleetStates(fleet) == states
    modifies s`trucks, s.routes.Values, s.trucks.Values
    ensures ok <==> LinkTrucks(w, states, records).Some?
    ensures ok ==> s.Standing() == LinkTrucks(w, states, records)
    ensures FleetStates(fleet) == states
    ensures forall t <- s.trucks.Values :: t in old(s.trucks.Values) || fresh(t)
  {
    hide LinkTruck, Store.Valid, Store.AllBuilt;
    for i := 0 to |records|
      invariant Detached(s, fleet) && FleetStates(fleet) == states
      invariant LinkTrucks(w, states, records[..i]).Some? && s.Standing() == LinkTrucks(w, states, records[..i])
      invariant forall t <- s.trucks.Values :: t in old(s.trucks.Values) || fresh(t)
    {
      assert records[..i + 1][..i] == records[..i];
      if records[i].truck.To? {
        ok := LinkCandidate(s, fleet, records[i].id, records[i].truck.id, LinkTrucks(w, states, records[..i]).value, states);
        if !ok {
          UnlinkedTruck(w, states, records, i + 1);
          return;
        }
      }
    }
    WholeSlice(records);
    return true;
  }

  lemma {:induction false} UnlinkedTruck(w: World, fleet: map<int, TruckState>, records: seq<RouteRecord>, n: nat)
    requires n <= |records| && LinkTrucks(w, fleet, records[..n]).None?
    ensures LinkTrucks(w, fleet, records).None?
    decreases |records|
  {
    if n == |records| {
      WholeSlice(records);
    } else {
      assert records[..|records| - 1][..n] == records[..n];
      UnlinkedTruck(w, fleet, records[..|records| - 1], n);
    }
  }

  // ----- the whole link

  /** Links a rebuilt store as its snapshot says; fails exactly when the snapshot names something that is not there, or
      lists a package whose end is no stop of the schedule it rides on. */
  method LinkStore(s: Store, snapshot: Snapshot, fleet: map<int, Truck>, ghost w: World) returns (ok: bool)
    requires s.Standing() == Some(w) && s.trucks == map[] && FleetKnown(fleet)
    requires forall j :: 0 <= j < |snapshot.trucks| ==> snapshot.trucks[j].status.Status?
    modifies s`trucks, s.routes.Values, s.packages.Values
    ensures Ready(w) && (ok <==> LinkSnapshot(snapshot, w, old(FleetStates(fleet))).Some?)
    ensures ok ==> s.Standing() == LinkSnapshot(snapshot, w, old(FleetStates(fleet)))
    ensures forall t <- s.trucks.Values :: fresh(t)
  {
    hide Ready, Store.Valid, Store.AllBuilt, LinkTrucks, LinkPackages, Candidates;
    ghost var states := FleetStates(fleet);
    ok := LinkPackagesToRoutes(s, snapshot.routes, w);
    if !ok {
      return;
    }
    assert FleetStates(fleet) == states;
    var candidates;
    ok, candidates := BuildCandidates(snapshot.trucks, fleet);
    if !ok {
      return;
    }
    ghost var v := LinkPackages(w, snapshot.routes).value;
    ghost var clones := Candidates(snapshot.trucks, states).value;
    AdoptCandidates(s, candidates, v, clones);
    ok := LinkCandidateTrucks(s, fleet, snapshot.routes, v.(trucks := clones), states);
  }

  // ----- preparing a rebuilt world

  /** Links a rebuilt store and reconciles its routes at an instant, in record order. Behind the checks nothing
      fails: the store ends as the linked world after one pass, and the live fleet is not touched. */
  method PrepareRebuilt(s: Store, snapshot: Snapshot, fleet: map<int, Truck>, routes: seq<DeliveryRoute>, now: Time,
                        ghost rules: ContactRules, ghost states: map<int, TruckState>) returns (summary: Summary)
    requires FleetKnown(fleet) && FleetStates(fleet) == states && SnapshotLinking.Restorable(snapshot, states, rules)
    requires forall k {:trigger snapshot.routes[k]} :: 0 <= k < |snapshot.routes| ==> |snapshot.routes[k].locations| >= 2
    requires s.Standing() == Some(RebuiltWorld(snapshot)) && s.trucks == map[]
    requires HeartbeatService.Listed(s, routes) && RouteIds(routes) == RouteIdsIn(snapshot.routes)
    modifies s`trucks, s.routes.Values, s.packages.Values
    ensures Traceable(snapshot, states) && Known(LinkedWorld(snapshot, states), RouteIdsIn(snapshot.routes))
    ensures (s.Standing(), summary) == (Some(Pass(LinkedWorld(snapshot, states), RouteIdsIn(snapshot.routes), now).0),
                                        Pass(LinkedWorld(snapshot, states), RouteIdsIn(snapshot.routes), now).1)
    ensures FleetStates(fleet) == states && forall t <- s.trucks.Values :: fresh(t)
  {
    hide *;
    LinkRestores(snapshot, states, rules);
    RecordsAreKnown(snapshot, states, rules);
    var ok := LinkStore(s, snapshot, fleet, RebuiltWorld(snapshot));
    assert ok && s.Standing() == Some(LinkedWorld(snapshot, states));
    RoutesReachStored(s, routes);
    assert forall r :: r in routes ==> r in old(s.routes.Values);
    assert forall r :: r in TrucksOf(routes) ==> fresh(r);
    assert forall r :: r in CargoOf(routes) ==> r in old(s.packages.Values);
    summary := ReconcileRoutes(s, routes, now, LinkedWorld(snapshot, states));
  }

  lemma RecordsAreKnown(snapshot: Snapshot, states: map<int, TruckState>, rules: ContactRules)
    requires SnapshotLinking.Restorable(snapshot, states, rules)
    ensures Traceable(snapshot, states) && Known(LinkedWorld(snapshot, states), RouteIdsIn(snapshot.routes))
  {
    RecordsAreRoutes(snapshot, states, rules);
  }
}
