/** The logistics world as values: entities, their events and the links between them, named by id. */
module Fleet {
  import opened Common
  import opened CityMap
  import opened RoutePaths
  import opened RouteSchedules
  import opened RouteScheduling
  import opened RouteLoads

  datatype RouteStatus = PLANNED | SCHEDULED | IN_PROGRESS | COMPLETED

  datatype ItemStatus = TODO | MOVING | DONE

  datatype TruckStatus = FREE | ON_THE_WAY

  datatype TruckReleaseReason = ROUTE_COMPLETED | ROUTE_REMOVED

  datatype DetachmentReason = PACKAGE_REMOVED | REMOVED_WITH_ROUTE

  /** An optional reference to an entity, by id. */
  datatype Link = Unlinked | To(id: int)

  /** Domain events, recorded by routes and packages. */
  datatype DomainEvent =
    | RouteScheduled(routeId: int, previousStatus: RouteStatus, newStatus: RouteStatus,
                     previousDeparture: Option<Time>, newDeparture: Time,
                     previousEta: Option<Time>, newEta: Time, occurredAt: Time)
    | RouteStarted(routeId: int, previousStatus: RouteStatus, newStatus: RouteStatus, occurredAt: Time)
    | RouteCompleted(routeId: int, previousStatus: RouteStatus, newStatus: RouteStatus,
                     departure: Time, eta: Time, occurredAt: Time)
    | RouteRemoved(routeId: int, previousStatus: RouteStatus, locations: seq<LocationCode>,
                   previousDeparture: Option<Time>, previousEta: Option<Time>,
                   detachedPackages: seq<int>, releasedTruck: Link, occurredAt: Time)
    | PackageAssigned(packageId: int, previousRoute: Link, newRoute: int,
                      previousArrival: Option<Time>, newArrival: Option<Time>, occurredAt: Time)
    | PackageDetached(packageId: int, previousRoute: Link, previousItemStatus: ItemStatus, newItemStatus: ItemStatus,
                      previousLocation: LocationCode, newLocation: LocationCode,
                      previousArrival: Option<Time>, newArrival: Option<Time>,
                      detachment: DetachmentReason, occurredAt: Time)
    | TruckAssigned(truckId: int, newRoute: int, previousTruckStatus: TruckStatus, newTruckStatus: TruckStatus,
                    previousLocation: LocationCode, newLocation: LocationCode,
                    previousBusyFrom: Option<Time>, newBusyFrom: Option<Time>,
                    previousBusyUntil: Option<Time>, newBusyUntil: Option<Time>, occurredAt: Time)
    | TruckReleased(truckId: int, previousRoute: Link, previousTruckStatus: TruckStatus, newTruckStatus: TruckStatus,
                    previousLocation: LocationCode, newLocation: LocationCode,
                    previousBusyFrom: Option<Time>, previousBusyUntil: Option<Time>,
                    release: TruckReleaseReason, occurredAt: Time)
    | PackagePickedUp(packageId: int, pickupRoute: int, previousItemStatus: ItemStatus, newItemStatus: ItemStatus,
                      previousLocation: LocationCode, newLocation: LocationCode,
                      scheduledArrival: Option<Time>, occurredAt: Time)
    | PackageDelivered(packageId: int, pickupRoute: int, previousItemStatus: ItemStatus, newItemStatus: ItemStatus,
                       previousLocation: LocationCode, newLocation: LocationCode,
                       scheduledArrival: Option<Time>, occurredAt: Time)
    | PackageRemoved(packageId: int, customerId: int, previousRoute: Link, previousItemStatus: ItemStatus,
                     previousLocation: LocationCode, start: LocationCode, end: LocationCode, weight: real,
                     previousArrival: Option<Time>, occurredAt: Time)

  // ----- entities

  /** A route; `schedule` is `None` while the route is planned. */
  datatype RouteState = RouteState(
    path: seq<LocationCode>,
    schedule: Option<RouteSchedule>,
    status: RouteStatus,
    truck: Link,
    packages: seq<int>,
    events: seq<DomainEvent>)

  /** A package; `route` is its hydrated route reference and `routeId` the id it stores beside it. */
  datatype PackageState = PackageState(
    start: LocationCode,
    end: LocationCode,
    weight: real,
    customer: int,
    route: Link,
    routeId: Link,
    status: ItemStatus,
    location: LocationCode,
    arrival: Option<Time>,
    events: seq<DomainEvent>)

  datatype TruckState = TruckState(
    capacity: int,
    maxRange: int,
    status: TruckStatus,
    location: Option<LocationCode>,
    route: Link,
    busyFrom: Option<Time>,
    busyUntil: Option<Time>,
    inTransitTo: Option<LocationCode>)

  datatype Contact = Contact(name: string, email: string, phone: string)

  datatype CustomerState = CustomerState(contact: Contact, packages: seq<int>)

  datatype World = World(
    customers: map<int, CustomerState>,
    packages: map<int, PackageState>,
    routes: map<int, RouteState>,
    trucks: map<int, TruckState>)

  // ----- queries on entities

  function Departure(r: RouteState): Option<Time> {
    if r.schedule.Some? then Some(r.schedule.value.departure) else None
  }

  /** A schedule for exactly this path. */
  ghost predicate Covers(path: seq<LocationCode>, s: RouteSchedule) {
    && Timetable(s)
    && |s.stops| == |path|
    && forall k :: 0 <= k < |path| ==> s.stops[k].location == path[k]
  }

  /** A route with a place for every stop of its schedule. */
  predicate Shaped(r: RouteState) {
    |r.path| >= 2 && (r.schedule.Some? ==> |r.schedule.value.stops| == |r.path|)
  }

  /** What every route object keeps: a valid path, no package twice, and a schedule of its own path. */
  ghost predicate Sound(r: RouteState) {
    && ValidPath(r.path)
    && NoDup(r.packages)
    && (r.schedule.Some? ==> Covers(r.path, r.schedule.value))
  }

  /** The schedule is the one built from the path and the departure. */
  ghost predicate Derived(r: RouteState) {
    r.schedule.Some? && |r.path| > 0 ==> r.schedule.value == ScheduleOf(r.path, r.schedule.value.departure, SPEED_KMPH)
  }

  function Eta(r: RouteState): Option<Time>
    requires Shaped(r)
  {
    if r.schedule.Some? then Some(EtaFinal(r.schedule.value)) else None
  }

  /** Total kilometres of a path. */
  function DistanceKm(path: seq<LocationCode>): nat
    requires |path| > 0
  {
    KmTo(path, |path| - 1)
  }

  /** Scheduled arrival at a city of the path. */
  function StopTime(r: RouteState, city: LocationCode): Time
    requires Shaped(r) && r.schedule.Some? && city in r.path
  {
    r.schedule.value.stops[IndexOf(r.path, city)].arrivalAt
  }

  function LoadOf(p: PackageState): PackageLoad {
    PackageLoad(p.start, p.end, p.weight)
  }

  function LoadsOf(packages: map<int, PackageState>, ids: seq<int>): (r: seq<PackageLoad>)
    requires forall k :: 0 <= k < |ids| ==> ids[k] in packages
    ensures |r| == |ids| && forall k :: 0 <= k < |ids| ==> r[k] == LoadOf(packages[ids[k]])
  {
    seq(|ids|, k requires 0 <= k < |ids| => LoadOf(packages[ids[k]]))
  }

  /** The arrival a package of this route should show. */
  function ArrivalFor(r: RouteState, p: PackageState): Option<Time>
    requires Shaped(r)
  {
    if r.schedule.Some? && p.end in r.path then Some(StopTime(r, p.end)) else None
  }

  /** Looking up the arrival of a package fails: its end is not a stop of the schedule. */
  predicate ArrivalMissing(r: RouteState, p: PackageState) {
    r.schedule.Some? && p.end !in r.path
  }

  // ----- links

  /** Every id an entity refers to names an entity of the world. */
  ghost predicate Closed(w: World) {
    && (forall rid <- w.routes ::
          && Shaped(w.routes[rid])
          && (w.routes[rid].truck.To? ==> w.routes[rid].truck.id in w.trucks)
          && (forall k :: 0 <= k < |w.routes[rid].packages| ==> w.routes[rid].packages[k] in w.packages))
    && (forall tid <- w.trucks :: w.trucks[tid].route.To? ==> w.trucks[tid].route.id in w.routes)
    && (forall pid <- w.packages ::
          && w.packages[pid].customer in w.customers
          && (w.packages[pid].route.To? ==> w.packages[pid].route.id in w.routes))
  }

  /** A closed world whose routes are all sound. */
  ghost predicate Ready(w: World) {
    Closed(w) && forall rid {:trigger Sound(w.routes[rid])} :: rid in w.routes ==> Sound(w.routes[rid])
  }

  function LoadsOn(w: World, rid: int): seq<PackageLoad>
    requires Closed(w) && rid in w.routes
  {
    LoadsOf(w.packages, w.routes[rid].packages)
  }

  /** A package with no assignment state left. */
  predicate AtBaseline(p: PackageState) {
    p.route.Unlinked? && p.routeId.Unlinked? && p.status == TODO && p.location == p.start && p.arrival.None?
  }

  /** Everything a route promises: its status, its packages and its truck agree with it. */
  ghost predicate RouteLinked(w: World, rid: int)
    requires Closed(w) && rid in w.routes
  {
    var r := w.routes[rid];
    && Sound(r)
    && (r.status == PLANNED <==> r.schedule.None?)
    && (forall k :: 0 <= k < |r.packages| ==>
          && w.packages[r.packages[k]].route == To(rid)
          && IncludesInOrder(r.path, w.packages[r.packages[k]].start, w.packages[r.packages[k]].end))
    && (r.truck.To? ==>
          var t := w.trucks[r.truck.id];
          && t.route == To(rid)
          && t.location.Some?
          && r.schedule.Some?
          && t.busyFrom == Departure(r)
          && t.busyUntil == Eta(r))
  }

  ghost predicate PackageLinked(w: World, pid: int)
    requires Closed(w) && pid in w.packages
  {
    var p := w.packages[pid];
    && p.weight > 0.0
    && p.routeId == p.route
    && (p.route.To? ==> pid in w.routes[p.route.id].packages)
    && (p.route.Unlinked? ==> AtBaseline(p))
    && pid in w.customers[p.customer].packages
  }

  ghost predicate TruckLinked(w: World, tid: int)
    requires Closed(w) && tid in w.trucks
  {
    var t := w.trucks[tid];
    && (t.status == FREE <==> t.route.Unlinked?)
    && (t.route.To? ==> w.routes[t.route.id].truck == To(tid))
    && (t.route.Unlinked? ==> t.busyFrom.None? && t.busyUntil.None? && t.inTransitTo.None?)
  }

  /** Each active package is in its own customer's list once, and in no other. */
  ghost predicate CustomerLinked(w: World, cid: int)
    requires cid in w.customers
  {
    && NoDup(w.customers[cid].packages)
    && forall k :: 0 <= k < |w.customers[cid].packages| ==>
         w.customers[cid].packages[k] in w.packages && w.packages[w.customers[cid].packages[k]].customer == cid
  }

  /** Two-way links between routes, trucks, packages and customers. */
  ghost predicate Linked(w: World) {
    && Closed(w)
    && (forall rid {:trigger RouteLinked(w, rid)} :: rid in w.routes ==> RouteLinked(w, rid))
    && (forall pid {:trigger PackageLinked(w, pid)} :: pid in w.packages ==> PackageLinked(w, pid))
    && (forall tid {:trigger TruckLinked(w, tid)} :: tid in w.trucks ==> TruckLinked(w, tid))
    && (forall cid {:trigger CustomerLinked(w, cid)} :: cid in w.customers ==> CustomerLinked(w, cid))
  }

  /** A route's truck can carry its load and drive its distance. */
  ghost predicate WithinLimits(w: World, rid: int)
    requires Closed(w) && rid in w.routes
  {
    var r := w.routes[rid];
    r.truck.To? ==>
      && MaximumLoad(r.path, LoadsOn(w, rid)) <= w.trucks[r.truck.id].capacity as real
      && DistanceKm(r.path) <= w.trucks[r.truck.id].maxRange
  }

  ghost predicate Safe(w: World) {
    Closed(w) && forall rid {:trigger WithinLimits(w, rid)} :: rid in w.routes ==> WithinLimits(w, rid)
  }

  ghost predicate AllDerived(w: World) {
    forall rid {:trigger Derived(w.routes[rid])} :: rid in w.routes ==> Derived(w.routes[rid])
  }

  /** A well-formed world. */
  ghost predicate WellFormed(w: World) {
    Linked(w) && Safe(w) && AllDerived(w)
  }

  lemma WellFormedIsLinked(w: World)
    requires WellFormed(w)
    ensures Linked(w) && Closed(w)
  {
  }
}
