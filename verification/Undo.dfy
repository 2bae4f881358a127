/** Snapshots of entities and the way back to them. */
module Undo {
  import opened Common
  import opened RouteScheduling
  import opened Fleet
  import opened Entities

  /** What a package was: its state, its recorded events and its customer, which no snapshot holds. */
  datatype PackageMemory = PackageMemory(snapshot: PackageSnapshot, events: seq<DomainEvent>, customer: Customer)

  ghost function Memory(p: DeliveryPackage): PackageMemory
    reads p
  {
    PackageMemory(p.SnapshotState(), p.events, p.customer)
  }

  ghost function Memories(list: seq<DeliveryPackage>): (m: map<DeliveryPackage, PackageMemory>)
    reads list
    ensures m.Keys == set p | p in list
    ensures forall p <- list :: m[p] == Memory(p)
  {
    map p <- list :: Memory(p)
  }

  /** Events were only added since, and no package changed hands. */
  ghost predicate Extends(memories: map<DeliveryPackage, PackageMemory>)
    reads memories.Keys
  {
    forall p <- memories :: memories[p].events <= p.events && memories[p].customer == p.customer
  }

  /** A captured package: its snapshot and its event checkpoint. */
  datatype PackageUndo = PackageUndo(package: DeliveryPackage, snapshot: PackageSnapshot, checkpoint: nat)

  /** The captured values are those remembered. */
  ghost predicate Captures(undo: seq<PackageUndo>, memories: map<DeliveryPackage, PackageMemory>) {
    forall k {:trigger undo[k]} :: 0 <= k < |undo| ==>
      && undo[k].package in memories
      && undo[k].snapshot == memories[undo[k].package].snapshot
      && undo[k].checkpoint == |memories[undo[k].package].events|
  }

  /** The packages captured. */
  function Captured(undo: seq<PackageUndo>): set<DeliveryPackage> {
    set u <- undo :: u.package
  }

  /** Restores every captured package, state and events, even one captured twice. */
  method RestorePackages(undo: seq<PackageUndo>, ghost memories: map<DeliveryPackage, PackageMemory>)
    requires Captures(undo, memories) && Extends(memories)
    modifies Captured(undo)`route, Captured(undo)`routeId, Captured(undo)`status, Captured(undo)`location
    modifies Captured(undo)`arrival, Captured(undo)`events
    ensures forall p <- Captured(undo) :: Memory(p) == memories[p]
    ensures forall p <- memories :: p !in Captured(undo) ==> Memory(p) == old(Memory(p))
  {
    for i := 0 to |undo|
      invariant Extends(memories)
      invariant forall j {:trigger undo[j]} :: 0 <= j < i ==> Memory(undo[j].package) == memories[undo[j].package]
      invariant forall p <- memories :: p !in Captured(undo) ==> Memory(p) == old(Memory(p))
    {
      var u := undo[i];
      assert u.package in memories && u.package in Captured(undo);
      u.package.RestoreState(u.snapshot);
      var ok := u.package.RestoreCheckpoint(u.checkpoint);
      assert u.package.events == memories[u.package].events;
    }
    forall p | p in Captured(undo) ensures p in memories && Memory(p) == memories[p] {
      var u :| u in undo && u.package == p;
      var k :| 0 <= k < |undo| && undo[k] == u;
      assert Memory(undo[k].package) == memories[undo[k].package];
    }
  }

  /** Restores the state of every captured package; their events have not changed. */
  method RestoreStates(undo: seq<PackageUndo>, ghost memories: map<DeliveryPackage, PackageMemory>)
    requires Captures(undo, memories)
    requires forall p <- memories :: memories[p].events == p.events && memories[p].customer == p.customer
    modifies Captured(undo)`route, Captured(undo)`routeId, Captured(undo)`status, Captured(undo)`location, Captured(undo)`arrival
    ensures forall p <- Captured(undo) :: p in memories && Memory(p) == memories[p]
  {
    for i := 0 to |undo|
      invariant forall j {:trigger undo[j]} :: 0 <= j < i ==> Memory(undo[j].package) == memories[undo[j].package]
    {
      var u := undo[i];
      assert u.package in memories && u.package in Captured(undo);
      u.package.RestoreState(u.snapshot);
    }
    forall p | p in Captured(undo) ensures p in memories && Memory(p) == memories[p] {
      var u :| u in undo && u.package == p;
      var k :| 0 <= k < |undo| && undo[k] == u;
      assert Memory(undo[k].package) == memories[undo[k].package];
    }
  }

  /** Captures every package of a list. */
  method Capture(list: seq<DeliveryPackage>, ghost memories: map<DeliveryPackage, PackageMemory>)
    returns (undo: seq<PackageUndo>)
    requires memories == Memories(list)
    ensures Captures(undo, memories) && Captured(undo) == memories.Keys
  {
    undo := seq(|list|, k requires 0 <= k < |list| reads list =>
      PackageUndo(list[k], list[k].SnapshotState(), |list[k].events|));
    forall p | p in list ensures p in Captured(undo) {
      var k :| 0 <= k < |list| && list[k] == p;
      assert undo[k].package == p;
    }
    forall p | p in Captured(undo) ensures p in list {
      var u :| u in undo && u.package == p;
    }
  }

  // ----- routes and trucks

  datatype RouteUndo = RouteUndo(route: DeliveryRoute, snapshot: RouteSnapshot, checkpoint: nat)

  datatype TruckUndo = TruckUndo(truck: Truck, snapshot: TruckSnapshot)

  /** What a route was: the state it can restore and the value it stood for. */
  datatype RouteMemory = RouteMemory(snapshot: RouteSnapshot, state: RouteState)

  ghost function RouteMemoryOf(r: DeliveryRoute): RouteMemory
    reads r
  {
    RouteMemory(r.SnapshotState(), r.State())
  }

  /** The memory of a route whose schedule is the one built from its departure. */
  ghost predicate MemoryFits(r: DeliveryRoute, m: RouteMemory) {
    && NoDup(PackageIds(m.snapshot.packages))
    && m.state.path == r.path && m.state.status == m.snapshot.status && m.state.truck == TruckLink(m.snapshot.truck)
    && m.state.packages == PackageIds(m.snapshot.packages)
    && m.state.schedule == (if m.snapshot.departure.None? then None else Some(ScheduleOf(r.path, m.snapshot.departure.value, SPEED_KMPH)))
  }

  lemma OwnMemoryFits(route: DeliveryRoute)
    requires route.Valid() && route.Built()
    ensures MemoryFits(route, RouteMemoryOf(route))
  {
  }

  ghost predicate CapturesRoutes(undo: seq<RouteUndo>, memories: map<DeliveryRoute, RouteMemory>) {
    && (forall r <- memories :: MemoryFits(r, memories[r]))
    && forall k {:trigger undo[k]} :: 0 <= k < |undo| ==>
         && undo[k].route in memories
         && undo[k].snapshot == memories[undo[k].route].snapshot
         && undo[k].checkpoint == |memories[undo[k].route].state.events|
  }

  ghost predicate RoutesExtend(memories: map<DeliveryRoute, RouteMemory>)
    reads memories.Keys
  {
    forall r <- memories :: memories[r].state.events <= r.events
  }

  function CapturedRoutes(undo: seq<RouteUndo>): set<DeliveryRoute> {
    set u <- undo :: u.route
  }

  /** Restores every captured route, pending events included. */
  method RestoreRoutes(undo: seq<RouteUndo>, ghost memories: map<DeliveryRoute, RouteMemory>)
    requires CapturesRoutes(undo, memories) && RoutesExtend(memories)
    modifies CapturedRoutes(undo)
    ensures forall r <- CapturedRoutes(undo) :: Recalled(r, memories)
  {
    hide DeliveryRoute.Valid, DeliveryRoute.Built, MemoryFits;
    ghost var done: set<DeliveryRoute> := {};
    for i := 0 to |undo|
      invariant RoutesExtend(memories)
      invariant done == CapturedRoutes(undo[..i])
      invariant forall r <- done :: Recalled(r, memories)
    {
      var u := undo[i];
      assert undo[..i + 1] == undo[..i] + [u];
      assert u.route in memories && u.route in CapturedRoutes(undo);
      RestoreRoute(u, memories[u.route]);
      assert Recalled(u.route, memories);
      done := done + {u.route};
    }
    WholeSlice(undo);
  }

  ghost predicate Recalled(r: DeliveryRoute, memories: map<DeliveryRoute, RouteMemory>)
    reads r
  {
    r in memories && RouteMemoryOf(r) == memories[r] && r.Valid() && r.Built()
  }

  method RestoreRoute(u: RouteUndo, ghost m: RouteMemory)
    requires MemoryFits(u.route, m) && u.snapshot == m.snapshot && u.checkpoint == |m.state.events| && m.state.events <= u.route.events
    modifies u.route
    ensures RouteMemoryOf(u.route) == m && u.route.Valid() && u.route.Built()
  {
    u.route.RestoreState(u.snapshot);
    var ok := u.route.RestoreCheckpoint(u.checkpoint);
  }

  ghost predicate CapturesTrucks(undo: seq<TruckUndo>, memories: map<Truck, TruckSnapshot>) {
    forall k {:trigger undo[k]} :: 0 <= k < |undo| ==> undo[k].truck in memories && undo[k].snapshot == memories[undo[k].truck]
  }

  function CapturedTrucks(undo: seq<TruckUndo>): set<Truck> {
    set u <- undo :: u.truck
  }

  method RestoreTrucks(undo: seq<TruckUndo>, ghost memories: map<Truck, TruckSnapshot>)
    requires CapturesTrucks(undo, memories)
    modifies CapturedTrucks(undo)
    ensures forall t <- CapturedTrucks(undo) :: t in memories && t.SnapshotState() == memories[t]
  {
    for i := 0 to |undo|
      invariant forall j {:trigger undo[j]} :: 0 <= j < i ==> undo[j].truck.SnapshotState() == memories[undo[j].truck]
    {
      var u := undo[i];
      assert u.truck in memories && u.truck in CapturedTrucks(undo);
      u.truck.RestoreState(u.snapshot);
    }
    forall t | t in CapturedTrucks(undo) ensures t in memories && t.SnapshotState() == memories[t] {
      var u :| u in undo && u.truck == t;
      var k :| 0 <= k < |undo| && undo[k] == u;
    }
  }

  // ----- everything a list of routes reaches

  ghost function TrucksOf(routes: seq<DeliveryRoute>): set<Truck>
    reads routes
  {
    set r <- routes | r.truck != null :: r.truck
  }

  ghost function CargoOf(routes: seq<DeliveryRoute>): set<DeliveryPackage>
    reads routes
  {
    set r <- routes, p <- r.packages :: p
  }

  /** The packages of every route, in order; one listed by two routes comes twice. */
  function CargoList(routes: seq<DeliveryRoute>): (list: seq<DeliveryPackage>)
    reads routes
    ensures (set p | p in list) == CargoOf(routes)
  {
    if routes == [] then []
    else
      var last := routes[|routes| - 1];
      assert CargoOf(routes) == CargoOf(routes[..|routes| - 1]) + set p | p in last.packages;
      CargoList(routes[..|routes| - 1]) + last.packages
  }

  /** The trucks of the routes that have one, in order. */
  function TruckList(routes: seq<DeliveryRoute>): (list: seq<Truck>)
    reads routes
    ensures (set t | t in list) == TrucksOf(routes)
  {
    if routes == [] then []
    else
      var last := routes[|routes| - 1];
      assert TrucksOf(routes) == TrucksOf(routes[..|routes| - 1]) + if last.truck != null then {last.truck} else {};
      TruckList(routes[..|routes| - 1]) + (if last.truck != null then [last.truck] else [])
  }

  ghost function RouteMemories(routes: seq<DeliveryRoute>): (m: map<DeliveryRoute, RouteMemory>)
    reads routes
    ensures m.Keys == set r | r in routes
  {
    map r <- routes :: RouteMemoryOf(r)
  }

  ghost function TruckMemories(trucks: seq<Truck>): (m: map<Truck, TruckSnapshot>)
    reads trucks
    ensures m.Keys == set t | t in trucks
  {
    map t <- trucks :: t.SnapshotState()
  }

  method CaptureRoutes(routes: seq<DeliveryRoute>, ghost memories: map<DeliveryRoute, RouteMemory>)
    returns (undo: seq<RouteUndo>)
    requires memories == RouteMemories(routes) && forall r <- routes :: r.Valid() && r.Built()
    ensures CapturesRoutes(undo, memories) && CapturedRoutes(undo) == memories.Keys
  {
    undo := seq(|routes|, k requires 0 <= k < |routes| reads routes =>
      RouteUndo(routes[k], routes[k].SnapshotState(), |routes[k].events|));
    forall r | r in routes ensures r in CapturedRoutes(undo) {
      var k :| 0 <= k < |routes| && routes[k] == r;
      assert undo[k].route == r;
    }
    forall r | r in CapturedRoutes(undo) ensures r in routes {
      var u :| u in undo && u.route == r;
    }
  }

  method CaptureTrucks(trucks: seq<Truck>, ghost memories: map<Truck, TruckSnapshot>) returns (undo: seq<TruckUndo>)
    requires memories == TruckMemories(trucks)
    ensures CapturesTrucks(undo, memories) && CapturedTrucks(undo) == memories.Keys
  {
    undo := seq(|trucks|, k requires 0 <= k < |trucks| reads trucks => TruckUndo(trucks[k], trucks[k].SnapshotState()));
    forall t | t in trucks ensures t in CapturedTrucks(undo) {
      var k :| 0 <= k < |trucks| && trucks[k] == t;
      assert undo[k].truck == t;
    }
    forall t | t in CapturedTrucks(undo) ensures t in trucks {
      var u :| u in undo && u.truck == t;
    }
  }

  /** What is remembered of a batch. */
  datatype Remembrance = Remembrance(
    routes: map<DeliveryRoute, RouteMemory>,
    packages: map<DeliveryPackage, PackageMemory>,
    trucks: map<Truck, TruckSnapshot>)

  /** Everything remembered is as it was. */
  ghost predicate AsRemembered(b: Remembrance)
    reads b.routes.Keys, b.packages.Keys, b.trucks.Keys
  {
    && (forall r <- b.routes :: RouteMemoryOf(r) == b.routes[r])
    && (forall p <- b.packages :: Memory(p) == b.packages[p])
    && (forall t <- b.trucks :: t.SnapshotState() == b.trucks[t])
  }

  ghost function Remember(routes: seq<DeliveryRoute>): (b: Remembrance)
    reads routes, CargoOf(routes), TrucksOf(routes)
    ensures b.routes.Keys == (set r | r in routes) && b.packages.Keys == CargoOf(routes) && b.trucks.Keys == TrucksOf(routes)
    ensures AsRemembered(b)
  {
    Remembrance(RouteMemories(routes), Memories(CargoList(routes)), TruckMemories(TruckList(routes)))
  }

  /** A batch captured before its pass. */
  datatype BatchUndo = BatchUndo(routes: seq<RouteUndo>, packages: seq<PackageUndo>, trucks: seq<TruckUndo>)

  ghost predicate CapturesBatch(undo: BatchUndo, b: Remembrance) {
    && CapturesRoutes(undo.routes, b.routes) && CapturedRoutes(undo.routes) == b.routes.Keys
    && Captures(undo.packages, b.packages) && Captured(undo.packages) == b.packages.Keys
    && CapturesTrucks(undo.trucks, b.trucks) && CapturedTrucks(undo.trucks) == b.trucks.Keys
  }

  /** Captures every route, package and truck the routes reach. */
  method CaptureBatch(routes: seq<DeliveryRoute>, ghost b: Remembrance) returns (undo: BatchUndo)
    requires b == Remember(routes) && forall r <- routes :: r.Valid() && r.Built()
    ensures CapturesBatch(undo, b)
  {
    hide CapturesRoutes, Captures, CapturesTrucks;
    var routeUndo := CaptureRoutes(routes, b.routes);
    var packageUndo := Capture(CargoList(routes), b.packages);
    var truckUndo := CaptureTrucks(TruckList(routes), b.trucks);
    undo := BatchUndo(routeUndo, packageUndo, truckUndo);
  }

  /** Puts a whole batch back. */
  method RestoreBatch(undo: BatchUndo, ghost b: Remembrance)
    requires CapturesBatch(undo, b) && RoutesExtend(b.routes) && Extends(b.packages)
    modifies b.routes.Keys, b.trucks.Keys
    modifies b.packages.Keys`route, b.packages.Keys`routeId, b.packages.Keys`status
    modifies b.packages.Keys`location, b.packages.Keys`arrival, b.packages.Keys`events
    ensures AsRemembered(b)
  {
    hide CapturesRoutes, Captures, CapturesTrucks, RoutesExtend, Extends;
    RestoreRoutes(undo.routes, b.routes);
    RestorePackages(undo.packages, b.packages);
    RestoreTrucks(undo.trucks, b.trucks);
  }
}
