/** The mutable aggregates: trucks, packages, routes and customers, linked by reference. */
module Entities {
  import opened Common
  import opened CityMap
  import opened RoutePaths
  import opened RouteSchedules
  import opened RouteScheduling
  import opened RouteLoads
  import opened Fleet
  import opened Reconciliation
  import opened Assignments
  import opened UseCaseSteps

  // ----- references as links

  function RouteLink(route: DeliveryRoute?): Link {
    if route == null then Unlinked else To(route.routeId)
  }

  function TruckLink(truck: Truck?): Link {
    if truck == null then Unlinked else To(truck.vehicleId)
  }

  function PackageIds(packages: seq<DeliveryPackage>): (ids: seq<int>)
    ensures |ids| == |packages| && forall k :: 0 <= k < |ids| ==> ids[k] == packages[k].packageId
  {
    seq(|packages|, k requires 0 <= k < |packages| => packages[k].packageId)
  }

  lemma IdsRemoveAt(list: seq<DeliveryPackage>, i: nat)
    requires i < |list|
    ensures PackageIds(RemoveAt(list, i)) == RemoveAt(PackageIds(list), i)
  {
    forall k | 0 <= k < |list| - 1 ensures PackageIds(RemoveAt(list, i))[k] == RemoveAt(PackageIds(list), i)[k] {}
  }

  lemma IdsApart(list: seq<DeliveryPackage>)
    requires NoDup(PackageIds(list))
    ensures NoDup(list)
  {
    forall i, j | 0 <= i < j < |list| ensures list[i] != list[j] {
      assert PackageIds(list)[i] != PackageIds(list)[j];
    }
  }

  // ----- pending events

  datatype EventError = InvalidCheckpoint

  /** Pending events cut back to a checkpoint. */
  function Rewound(events: seq<DomainEvent>, checkpoint: int): (r: Result<seq<DomainEvent>, EventError>)
    ensures r.Ok? <==> 0 <= checkpoint <= |events|
    ensures r.Ok? ==> r.value <= events && |r.value| == checkpoint
  {
    if 0 <= checkpoint <= |events| then Ok(events[..checkpoint]) else Err(InvalidCheckpoint)
  }

  // ----- trucks

  datatype TruckSnapshot = TruckSnapshot(
    route: DeliveryRoute?,
    status: TruckStatus,
    location: Option<LocationCode>,
    busyFrom: Option<Time>,
    busyUntil: Option<Time>,
    inTransitTo: Option<LocationCode>)

  class Truck {
    const vehicleId: int
    const capacity: int
    const maxRange: int
    var status: TruckStatus
    var location: Option<LocationCode>
    var route: DeliveryRoute?
    var busyFrom: Option<Time>
    var busyUntil: Option<Time>
    var inTransitTo: Option<LocationCode>

    constructor (vehicleId: int, capacity: int, maxRange: int)
      ensures this.vehicleId == vehicleId && this.capacity == capacity && this.maxRange == maxRange
      ensures State() == TruckState(capacity, maxRange, FREE, None, Unlinked, None, None, None)
      ensures route == null
    {
      this.vehicleId, this.capacity, this.maxRange := vehicleId, capacity, maxRange;
      status, location, route := FREE, None, null;
      busyFrom, busyUntil, inTransitTo := None, None, None;
    }

    function State(): TruckState
      reads this
    {
      TruckState(capacity, maxRange, status, location, RouteLink(route), busyFrom, busyUntil, inTransitTo)
    }

    function SnapshotState(): TruckSnapshot
      reads this
    {
      TruckSnapshot(route, status, location, busyFrom, busyUntil, inTransitTo)
    }

    method RestoreState(s: TruckSnapshot)
      modifies this
      ensures SnapshotState() == s
    {
      route, status, location := s.route, s.status, s.location;
      busyFrom, busyUntil, inTransitTo := s.busyFrom, s.busyUntil, s.inTransitTo;
    }

    method Assign(r: DeliveryRoute)
      requires r.Valid()
      modifies this
      ensures State() == TruckServing(old(State()), r.routeId, r.State())
      ensures route == r
    {
      route, status := r, ON_THE_WAY;
      busyFrom, busyUntil := r.DepartureTime(), r.EtaFinalTime();
      inTransitTo := None;
    }

    /** Frees the truck at the end of its route, once the final ETA has passed or when forced. */
    method Release(now: Time, force: bool) returns (released: bool)
      requires route != null ==> route.Valid()
      modifies this
      ensures released <==> old(route) != null && (force || (old(route).schedule.Some? && EtaFinal(old(route).schedule.value) <= now))
      ensures released ==> State() == FreedTruck(old(State()), old(route).path[|old(route).path| - 1]) && route == null
      ensures !released && old(route) != null ==> SnapshotState() == old(SnapshotState())
      ensures old(route) == null ==> SnapshotState() == TruckSnapshot(null, FREE, old(location), None, None, None)
    {
      if route == null {
        status, inTransitTo, busyFrom, busyUntil := FREE, None, None, None;
        return false;
      }
      if !force {
        var eta := route.EtaFinalTime();
        if eta.None? || now < eta.value {
          return false;
        }
      }
      location := Some(route.path[|route.path| - 1]);
      route, status, inTransitTo, busyFrom, busyUntil := null, FREE, None, None, None;
      return true;
    }
  }

  // ----- customers

  class Customer {
    const customerId: int
    const contact: Contact
    var packages: seq<DeliveryPackage>

    constructor (customerId: int, contact: Contact)
      ensures this.customerId == customerId && this.contact == contact && packages == [] && Valid()
    {
      this.customerId, this.contact, packages := customerId, contact, [];
    }

    /** No package is listed twice. */
    ghost predicate Valid()
      reads this
    {
      NoDup(packages)
    }

    function State(): CustomerState
      reads this
    {
      CustomerState(contact, PackageIds(packages))
    }

    /** Links a package unless it is already listed. */
    method RestorePackageLink(p: DeliveryPackage)
      modifies this`packages, p`customer
      ensures old(Valid()) ==> Valid()
      ensures packages == if p in old(packages) then old(packages) else old(packages) + [p]
      ensures p.customer == if p in old(packages) then old(p.customer) else this
    {
      if p in packages {
        return;
      }
      p.customer := this;
      packages := packages + [p];
    }

    /** Lists a package, moving it from the customer it belonged to. */
    method AddPackage(p: DeliveryPackage) returns (ok: bool)
      modifies this`packages, p`customer, p.customer`packages
      ensures ok <==> (if old(p.customer).customerId == customerId then p !in old(packages) else p in old(p.customer.packages))
      ensures ok ==> p.customer == this && packages == old(packages) + [p]
      ensures ok && old(p.customer).customerId != customerId ==>
        old(p.customer).packages == RemoveAt(old(p.customer.packages), IndexOf(old(p.customer.packages), p))
      ensures !ok ==> p.customer == old(p.customer) && packages == old(packages) && p.customer.packages == old(p.customer.packages)
    {
      if p.customer.customerId == customerId {
        if p in packages {
          return false;
        }
        p.customer := this;
        packages := packages + [p];
        return true;
      }
      var found := p.customer.RemovePackage(p);
      if !found {
        return false;
      }
      p.customer := this;
      packages := packages + [p];
      return true;
    }

    /** Takes a package off the list; the package keeps its customer. */
    method RemovePackage(p: DeliveryPackage) returns (found: bool)
      modifies this`packages
      ensures old(Valid()) ==> Valid()
      ensures found <==> p in old(packages)
      ensures packages == if found then RemoveAt(old(packages), IndexOf(old(packages), p)) else old(packages)
    {
      if p !in packages {
        return false;
      }
      packages := RemoveAt(packages, IndexOf(packages, p));
      return true;
    }
  }

  // ----- packages

  datatype PackageSnapshot = PackageSnapshot(
    route: DeliveryRoute?,
    routeId: Link,
    status: ItemStatus,
    location: LocationCode,
    arrival: Option<Time>)

  class DeliveryPackage {
    const packageId: int
    const start: LocationCode
    const end: LocationCode
    const weight: real
    var customer: Customer
    var route: DeliveryRoute?
    var routeId: Link
    var status: ItemStatus
    var location: LocationCode
    var arrival: Option<Time>
    var events: seq<DomainEvent>

    constructor (packageId: int, start: LocationCode, end: LocationCode, weight: real, customer: Customer)
      ensures this.packageId == packageId && this.start == start && this.end == end && this.weight == weight
      ensures this.customer == customer && route == null
      ensures State() == PackageState(start, end, weight, customer.customerId, Unlinked, Unlinked, TODO, start, None, [])
    {
      this.packageId, this.start, this.end, this.weight := packageId, start, end, weight;
      this.customer, route, routeId := customer, null, Unlinked;
      status, location, arrival, events := TODO, start, None, [];
    }

    function State(): PackageState
      reads this
    {
      PackageState(start, end, weight, customer.customerId, RouteLink(route), routeId, status, location, arrival, events)
    }

    method SetRoute(r: DeliveryRoute?)
      modifies this`route, this`routeId
      ensures route == r && routeId == RouteLink(r)
    {
      route, routeId := r, RouteLink(r);
    }

    /** Records the pickup of a waiting package that knows its route. */
    method MarkPickedUp(occurredAt: Time) returns (ok: bool)
      modifies this`status, this`location, this`events
      ensures ok <==> old(routeId).To? && old(status) == TODO
      ensures ok ==> status == MOVING && location == start
      ensures events == old(events) + (
        if ok then [PackagePickedUp(packageId, routeId.id, TODO, MOVING, old(location), start, arrival, occurredAt)] else [])
      ensures !ok ==> status == old(status) && location == old(location) && events == old(events)
    {
      if routeId.Unlinked? || status != TODO {
        return false;
      }
      var previous := location;
      status, location := MOVING, start;
      events := events + [PackagePickedUp(packageId, routeId.id, TODO, MOVING, previous, location, arrival, occurredAt)];
      return true;
    }

    /** Records the delivery of a package under way that knows its route. */
    method MarkDelivered(occurredAt: Time) returns (ok: bool)
      modifies this`status, this`location, this`events
      ensures ok <==> old(routeId).To? && old(status) == MOVING
      ensures ok ==> status == DONE && location == end
      ensures events == old(events) + (
        if ok then [PackageDelivered(packageId, routeId.id, MOVING, DONE, old(location), end, arrival, occurredAt)] else [])
      ensures !ok ==> status == old(status) && location == old(location) && events == old(events)
    {
      if routeId.Unlinked? || status != MOVING {
        return false;
      }
      var previous := location;
      status, location := DONE, end;
      events := events + [PackageDelivered(packageId, routeId.id, MOVING, DONE, previous, location, arrival, occurredAt)];
      return true;
    }

    /** Records the removal of the package, as it was before it was taken out of its lists. */
    method RecordRemoval(before: PackageSnapshot, occurredAt: Time)
      modifies this`events
      ensures events == old(events) + [
        PackageRemoved(packageId, customer.customerId, before.routeId, before.status, before.location, start, end, weight,
                       before.arrival, occurredAt)]
    {
      events := events + [PackageRemoved(packageId, customer.customerId, before.routeId, before.status, before.location,
                                         start, end, weight, before.arrival, occurredAt)];
    }

    function SnapshotState(): PackageSnapshot
      reads this
    {
      PackageSnapshot(route, routeId, status, location, arrival)
    }

    method RestoreState(s: PackageSnapshot)
      modifies this`route, this`routeId, this`status, this`location, this`arrival
      ensures SnapshotState() == s
    {
      route, routeId, status, location, arrival := s.route, s.routeId, s.status, s.location, s.arrival;
    }

    method RestoreCheckpoint(checkpoint: int) returns (ok: bool)
      modifies this`events
      ensures ok <==> 0 <= checkpoint <= |old(events)|
      ensures events == if ok then old(events)[..checkpoint] else old(events)
    {
      var r := Rewound(events, checkpoint);
      if r.Err? {
        return false;
      }
      events := r.value;
      return true;
    }

    method ResetAssignmentState()
      modifies this`route, this`routeId, this`status, this`location, this`arrival
      ensures route == null && State() == Baseline(old(State()))
    {
      SetRoute(null);
      arrival, status, location := None, TODO, start;
    }
  }

  // ----- routes

  datatype RouteSnapshot = RouteSnapshot(
    departure: Option<Time>,
    status: RouteStatus,
    truck: Truck?,
    packages: seq<DeliveryPackage>)

  datatype DetachOutcome = Detached | NotAssignedHere | WithoutRoute

  datatype ServeOutcome = Served | RouteHasTruck | TruckHasRoute | LocationUnknown

  datatype ReleaseOutcome = ReleasedTruck | NothingReleased | TruckWithoutRoute | TruckWithoutLocation

  class DeliveryRoute {
    const routeId: int
    const path: RoutePath
    var truck: Truck?
    var packages: seq<DeliveryPackage>
    var status: RouteStatus
    var schedule: Option<RouteSchedule>
    var events: seq<DomainEvent>

    /** No package twice, and a schedule of this path. */
    ghost predicate Valid()
      reads this
    {
      NoDup(PackageIds(packages)) && (schedule.Some? ==> Covers(path, schedule.value))
    }

    /** The schedule is the one built from the path and its departure. */
    ghost predicate Built()
      reads this
    {
      schedule.Some? ==> schedule.value == ScheduleOf(path, schedule.value.departure, SPEED_KMPH)
    }

    constructor (routeId: int, path: RoutePath, departure: Option<Time>)
      ensures this.routeId == routeId && this.path == path && Valid() && Built()
      ensures truck == null && packages == [] && events == []
      ensures status == if departure.Some? then SCHEDULED else PLANNED
      ensures DepartureTime() == departure
    {
      this.routeId, this.path := routeId, path;
      truck, packages, events := null, [], [];
      status := if departure.Some? then SCHEDULED else PLANNED;
      schedule := None;
      new;
      if departure.Some? {
        var s := BuildFor(departure.value);
        schedule := Some(s);
      }
    }

    /** Builds the schedule of this path; a validated path never fails. */
    method BuildFor(departure: Time) returns (s: RouteSchedule)
      ensures s == ScheduleOf(path, departure, SPEED_KMPH) && s.departure == departure && Covers(path, s)
    {
      SchedulingIsTotal(path, departure);
      var r := Build(path, departure, SPEED_KMPH);
      s := r.value;
    }

    function State(): RouteState
      reads this
    {
      RouteState(path, schedule, status, TruckLink(truck), PackageIds(packages), events)
    }

    function DepartureTime(): Option<Time>
      reads this
    {
      if schedule.Some? then Some(schedule.value.departure) else None
    }

    function EtaFinalTime(): Option<Time>
      requires Valid()
      reads this
    {
      if schedule.Some? then Some(EtaFinal(schedule.value)) else None
    }

    function StartLocation(): LocationCode {
      path[0]
    }

    function EndLocation(): LocationCode {
      path[|path| - 1]
    }

    /** Total kilometres, from the schedule when there is one; both ways of counting agree. */
    function TotalDistanceKm(): (km: int)
      requires Built()
      reads this
      ensures km == DistanceKm(path)
    {
      if schedule.Some? then
        TotalsAgree(path, schedule.value.departure, SPEED_KMPH, |path| - 1);
        assert schedule.value.segments[..|path| - 1] == schedule.value.segments;
        TotalDistance(schedule.value.segments)
      else KmTo(path, |path| - 1)
    }

    function CurrentPosition(now: Time): (position: RoutePosition)
      requires Valid()
      reads this
      ensures position == PositionOf(State(), now)
    {
      if schedule.None? then RoutePosition(UNSCHEDULED, None, None, Some(StartLocation()), None)
      else
        PositionAtIsClosedForm(schedule.value, now);
        PositionAt(schedule.value, now)
    }

    function Loads(): seq<PackageLoad>
      reads this
    {
      seq(|packages|, k requires 0 <= k < |packages| reads this =>
        PackageLoad(packages[k].start, packages[k].end, packages[k].weight))
    }

    function HasPackage(p: DeliveryPackage): bool
      reads this
    {
      p.packageId in PackageIds(packages)
    }

    method RecordEvent(e: DomainEvent)
      modifies this`events
      ensures events == old(events) + [e]
    {
      events := events + [e];
    }

    method RestoreCheckpoint(checkpoint: int) returns (ok: bool)
      modifies this`events
      ensures ok <==> 0 <= checkpoint <= |old(events)|
      ensures events == if ok then old(events)[..checkpoint] else old(events)
    {
      var r := Rewound(events, checkpoint);
      if r.Err? {
        return false;
      }
      events := r.value;
      return true;
    }

    method MarkStarted(occurredAt: Time) returns (ok: bool)
      modifies this`status, this`events
      ensures ok <==> old(status) == SCHEDULED
      ensures ok ==> status == IN_PROGRESS && events == old(events) + [RouteStarted(routeId, SCHEDULED, IN_PROGRESS, occurredAt)]
      ensures !ok ==> status == old(status) && events == old(events)
    {
      if status != SCHEDULED {
        return false;
      }
      status := IN_PROGRESS;
      RecordEvent(RouteStarted(routeId, SCHEDULED, IN_PROGRESS, occurredAt));
      return true;
    }

    method MarkCompleted(occurredAt: Time) returns (ok: bool)
      requires Valid()
      modifies this`status, this`events
      ensures ok <==> (old(status) == SCHEDULED || old(status) == IN_PROGRESS) && schedule.Some?
      ensures ok ==> status == COMPLETED
      ensures events == old(events) + (
        if ok then [RouteCompleted(routeId, old(status), COMPLETED, schedule.value.departure, EtaFinal(schedule.value), occurredAt)] else [])
      ensures !ok ==> status == old(status) && events == old(events)
    {
      if status != SCHEDULED && status != IN_PROGRESS {
        return false;
      }
      if schedule.None? {
        return false;
      }
      var previous := status;
      status := COMPLETED;
      RecordEvent(RouteCompleted(routeId, previous, COMPLETED, schedule.value.departure, EtaFinal(schedule.value), occurredAt));
      return true;
    }

    /** Records the removal of the route with what it had before. */
    method RecordRemoval(detached: seq<int>, released: Link, occurredAt: Time)
      requires Valid()
      modifies this`events
      ensures events == old(events) + [
        RouteRemoved(routeId, status, path, DepartureTime(), EtaFinalTime(), detached, released, occurredAt)]
    {
      RecordEvent(RouteRemoved(routeId, status, path, DepartureTime(), EtaFinalTime(), detached, released, occurredAt));
    }

    function SnapshotState(): RouteSnapshot
      reads this
    {
      RouteSnapshot(DepartureTime(), status, truck, packages)
    }

    /** Restores a snapshot; the schedule is rebuilt from the departure. */
    method RestoreState(s: RouteSnapshot)
      requires NoDup(PackageIds(s.packages))
      modifies this`schedule, this`status, this`truck, this`packages
      ensures SnapshotState() == s && Valid() && Built()
    {
      var restored: Option<RouteSchedule> := None;
      if s.departure.Some? {
        var built := BuildFor(s.departure.value);
        restored := Some(built);
      }
      schedule, status, truck, packages := restored, s.status, s.truck, s.packages;
    }

    /** Schedules a planned route. */
    method Schedule(departure: Time, occurredAt: Time) returns (ok: bool)
      requires Valid() && Built()
      modifies this`schedule, this`status, this`events
      ensures Valid() && Built()
      ensures ok <==> old(schedule).None?
      ensures ok ==> status == SCHEDULED && schedule == Some(ScheduleOf(path, departure, SPEED_KMPH))
      ensures events == old(events) + (
        if ok then [RouteScheduled(routeId, old(status), SCHEDULED, None, departure, None, EtaFinal(schedule.value), occurredAt)] else [])
      ensures !ok ==> schedule == old(schedule) && status == old(status) && events == old(events)
    {
      if schedule.Some? {
        return false;
      }
      var previous := status;
      var built := BuildFor(departure);
      schedule, status := Some(built), SCHEDULED;
      RecordEvent(RouteScheduled(routeId, previous, SCHEDULED, None, departure, None, EtaFinal(built), occurredAt));
      return true;
    }

    /** Evaluates a candidate package with the calculator's load, the candidate included. */
    method CanAcceptPackage(p: DeliveryPackage, now: Time) returns (rejection: Option<PackageRejection>)
      requires Valid() && Built()
      ensures rejection == EvaluatePackage(State(), if truck != null then Some(truck.State()) else None,
                                           MaximumLoad(path, Loads() + [LoadOf(p.State())]), p.State(), now)
    {
      var compatible := CompatibilityRejection(path, p.start, p.end);
      if compatible.Some? {
        return compatible;
      }
      var pickup := PickupRejection(State(), p.start, now);
      if pickup.Some? {
        return pickup;
      }
      if truck == null {
        return None;
      }
      var load := MaximumSegmentLoad(path, Loads(), Some(LoadOf(p.State())));
      return LimitRejection(Some(truck.State()), load, TotalDistanceKm());
    }

    /** Reads the arrival off the schedule; fails for an end that is no stop of it. */
    method UpdateExpectedArrival(p: DeliveryPackage) returns (ok: bool)
      requires Valid()
      modifies p`arrival
      ensures ok <==> !ArrivalMissing(State(), p.State())
      ensures ok && schedule.Some? ==> p.arrival == ArrivalTimeAt(schedule.value, p.end)
      ensures p.arrival == if ArrivalFor(State(), p.State()).Some? then ArrivalFor(State(), p.State()) else old(p.arrival)
    {
      if schedule.Some? {
        var arrival := ArrivalTimeAt(schedule.value, p.end);
        StopOnPath(path, schedule.value, p.end);
        if arrival.None? {
          return false;
        }
        p.arrival := arrival;
      }
      return true;
    }

    /** Takes an accepted package on. */
    method Admit(p: DeliveryPackage, now: Time)
      requires Valid() && Built() && !HasPackage(p) && !ArrivalMissing(State(), p.State())
      modifies this`packages, this`events, p`route, p`routeId, p`arrival
      ensures Valid() && Built()
      ensures packages == old(packages) + [p] && p.route == this
      ensures schedule.Some? ==> p.arrival == ArrivalTimeAt(schedule.value, p.end)
      ensures State() == AssigningRoute(old(State()), routeId, p.packageId, old(p.State()), now)
      ensures p.State() == AssignedPackage(old(State()), routeId, old(p.State()))
    {
      packages := packages + [p];
      assert PackageIds(packages) == old(PackageIds(packages)) + [p.packageId];
      var previousRoute := RouteLink(p.route);
      var previousArrival := p.arrival;
      p.SetRoute(this);
      var updated := UpdateExpectedArrival(p);
      RecordEvent(PackageAssigned(p.packageId, previousRoute, routeId, previousArrival, p.arrival, now));
    }

    /** Assigns a package after the policy accepts it; a package already listed is left alone. */
    method AssignPackage(p: DeliveryPackage, now: Time) returns (rejection: Option<PackageRejection>)
      requires Valid() && Built()
      modifies this`packages, this`events, p`route, p`routeId, p`arrival
      ensures Valid() && Built()
      ensures rejection == (
        if old(HasPackage(p)) then None
        else EvaluatePackage(old(State()), if truck != null then Some(old(truck.State())) else None,
                             MaximumLoad(path, old(Loads()) + [LoadOf(old(p.State()))]), old(p.State()), now))
      ensures rejection.Some? || old(HasPackage(p)) ==>
        packages == old(packages) && events == old(events) && p.SnapshotState() == old(p.SnapshotState())
      ensures rejection.None? && !old(HasPackage(p)) ==> packages == old(packages) + [p] && p.route == this
      ensures rejection.None? && !old(HasPackage(p)) && schedule.Some? ==> p.arrival == ArrivalTimeAt(schedule.value, p.end)
      ensures rejection.None? && !old(HasPackage(p)) ==>
        State() == AssigningRoute(old(State()), routeId, p.packageId, old(p.State()), now)
      ensures rejection.None? && !old(HasPackage(p)) ==> p.State() == AssignedPackage(old(State()), routeId, old(p.State()))
    {
      if HasPackage(p) {
        return None;
      }
      rejection := CanAcceptPackage(p, now);
      if rejection.None? {
        Admit(p, now);
      }
    }

    /** Position of a package in the list, by id. */
    function PackageIndex(p: DeliveryPackage): (i: nat)
      requires HasPackage(p)
      reads this
      ensures i < |packages| && packages[i].packageId == p.packageId
    {
      IndexOf(PackageIds(packages), p.packageId)
    }

    /** The listed package with the id of `p`, if there is one. */
    ghost function Matching(p: DeliveryPackage): set<DeliveryPackage>
      reads this
    {
      if HasPackage(p) then {packages[PackageIndex(p)]} else {}
    }

    /** Detaches the listed package with this id and resets it. */
    method DetachPackage(p: DeliveryPackage, reason: DetachmentReason, occurredAt: Time)
      returns (outcome: DetachOutcome)
      requires Valid()
      modifies this`packages, this`events
      modifies Matching(p)`route, Matching(p)`routeId, Matching(p)`status, Matching(p)`location, Matching(p)`arrival
      ensures Valid() && (old(Built()) ==> Built())
      ensures outcome == (if !old(HasPackage(p)) then NotAssignedHere
                          else if old(packages[PackageIndex(p)].route) == null then WithoutRoute else Detached)
      ensures outcome != Detached ==> unchanged(this) && forall q <- old(Matching(p)) :: q.State() == old(q.State())
      ensures outcome == Detached ==>
        && var i := old(PackageIndex(p)); var q := old(packages)[i];
        && packages == RemoveAt(old(packages), i)
        && q.State() == Baseline(old(q.State())) && q.route == null
        && events == old(events) + [Detachment(q.packageId, old(q.State()), reason, occurredAt)]
    {
      for i := 0 to |packages|
        invariant forall j :: 0 <= j < i ==> packages[j].packageId != p.packageId
        invariant unchanged(this) && forall q <- old(Matching(p)) :: unchanged(q)
      {
        var existing := packages[i];
        if existing.packageId == p.packageId {
          assert PackageIds(packages)[i] == p.packageId;
          assert PackageIndex(p) == i;
          if existing.route == null {
            return WithoutRoute;
          }
          var before := existing.State();
          IdsRemoveAt(packages, i);
          packages := RemoveAt(packages, i);
          existing.ResetAssignmentState();
          RecordEvent(Detachment(existing.packageId, before, reason, occurredAt));
          return Detached;
        }
      }
      return NotAssignedHere;
    }

    /** Assigns a free truck with a known location. */
    method AssignTruck(t: Truck, occurredAt: Time) returns (outcome: ServeOutcome)
      requires Valid()
      modifies this`truck, this`events, t
      ensures Valid() && (old(Built()) ==> Built())
      ensures outcome == (if old(truck) != null then RouteHasTruck
                          else if old(t.status) != FREE || old(t.route) != null then TruckHasRoute
                          else if old(t.location).None? then LocationUnknown else Served)
      ensures outcome != Served ==> unchanged(this) && t.SnapshotState() == old(t.SnapshotState())
      ensures outcome == Served ==>
        && truck == t && t.route == this
        && State() == RouteServedBy(old(State()), routeId, t.vehicleId, old(t.State()), occurredAt)
        && t.State() == TruckServing(old(t.State()), routeId, old(State()))
    {
      if truck != null {
        return RouteHasTruck;
      }
      if t.status != FREE || t.route != null {
        return TruckHasRoute;
      }
      if t.location.None? {
        return LocationUnknown;
      }
      var before := t.State();
      t.Assign(this);
      truck := t;
      RecordEvent(TruckAssigned(t.vehicleId, routeId, before.status, t.status, before.location.value, before.location.value,
                                before.busyFrom, t.busyFrom, before.busyUntil, t.busyUntil, occurredAt));
      return Served;
    }

    /** Releases the truck if its route is over, or by force. */
    method ReleaseTruck(now: Time, force: bool, reason: TruckReleaseReason, occurredAt: Time)
      returns (outcome: ReleaseOutcome)
      requires Valid()
      requires truck != null && truck.route != null ==> truck.route.Valid()
      modifies this`truck, this`events, truck
      ensures Valid() && (old(Built()) ==> Built())
      ensures outcome == (
        if old(truck) == null then NothingReleased
        else if old(truck.route) == null then TruckWithoutRoute
        else if old(truck.location).None? then TruckWithoutLocation
        else if force || old(truck.route.schedule.Some? && EtaFinal(truck.route.schedule.value) <= now) then ReleasedTruck
        else NothingReleased)
      ensures outcome != ReleasedTruck ==>
        unchanged(this) && (truck != null ==> truck.SnapshotState() == old(truck.SnapshotState()))
      ensures outcome == ReleasedTruck ==>
        && var t := old(truck); var served := old(truck.route.path);
        && truck == null && t.route == null
        && t.State() == FreedTruck(old(truck.State()), served[|served| - 1])
        && events == old(events) + [
             TruckReleased(t.vehicleId, To(old(truck.route).routeId), old(truck.status), FREE, old(truck.location).value,
                           served[|served| - 1], old(truck.busyFrom), old(truck.busyUntil), reason, occurredAt)]
    {
      if truck == null {
        return NothingReleased;
      }
      var t := truck;
      var before := t.SnapshotState();
      if before.route == null {
        return TruckWithoutRoute;
      }
      if before.location.None? {
        return TruckWithoutLocation;
      }
      var released := t.Release(now, force);
      if !released {
        return NothingReleased;
      }
      truck := null;
      RecordEvent(TruckReleased(t.vehicleId, To(before.route.routeId), before.status, t.status, before.location.value,
                                t.location.value, before.busyFrom, before.busyUntil, reason, occurredAt));
      return ReleasedTruck;
    }

    /** Puts a package back in the list unless it is there, and refreshes its arrival if asked to. A package that
        cannot be given an arrival is left in the list, linked to the route. */
    method RestorePackageLink(p: DeliveryPackage, refresh: bool := true) returns (ok: bool)
      requires Valid()
      modifies this`packages, p`route, p`routeId, p`arrival
      ensures Valid() && (old(Built()) ==> Built())
      ensures ok <==> old(HasPackage(p)) || !refresh || !ArrivalMissing(old(State()), old(p.State()))
      ensures old(HasPackage(p)) ==> packages == old(packages) && p.SnapshotState() == old(p.SnapshotState())
      ensures ok && refresh && !old(HasPackage(p)) && schedule.Some? ==> p.arrival == ArrivalTimeAt(schedule.value, p.end)
      ensures !old(HasPackage(p)) ==>
        && packages == old(packages) + [p] && p.route == this
        && p.State() == AssignedPackage(old(State()), routeId, old(p.State())).(
             arrival := if refresh then AssignedPackage(old(State()), routeId, old(p.State())).arrival else old(p.arrival))
    {
      if HasPackage(p) {
        return true;
      }
      packages := packages + [p];
      assert PackageIds(packages) == old(PackageIds(packages)) + [p.packageId];
      p.SetRoute(this);
      ok := true;
      if refresh {
        ok := UpdateExpectedArrival(p);
      }
    }
  }

  /** Looking a city up in the schedule is looking it up on the path. */
  lemma StopOnPath(path: seq<LocationCode>, s: RouteSchedule, city: LocationCode)
    requires Covers(path, s)
    ensures ArrivalTimeAt(s, city).Some? <==> city in path
    ensures city in path ==> ArrivalTimeAt(s, city) == Some(s.stops[IndexOf(path, city)].arrivalAt)
  {
    if city in path {
      ArrivalAtStop(s, IndexOf(path, city));
    }
  }
}
