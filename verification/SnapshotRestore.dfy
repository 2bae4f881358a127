/** Rebuilding a snapshot: detached entities first, then their links, one reference at a time. */
module SnapshotRestore {
  import opened Common
  import opened CityMap
  import opened RoutePaths
  import opened RouteScheduling
  import opened Fleet
  import opened Snapshots
  import opened SnapshotChecks
  import opened UseCaseSteps

  // ----- detached entities

  predicate CustomerBuilds(c: CustomerRecord, rules: ContactRules) {
    c.id >= 1 && rules.accepts(c.contact)
  }

  predicate PackageBuilds(p: PackageRecord) {
    p.id >= 1 && IsValidLocation(p.start) && IsValidLocation(p.end) && p.start != p.end && p.weight > 0.0
  }

  ghost predicate RouteBuilds(r: RouteRecord) {
    r.id >= 1 && ValidPath(r.locations)
  }

  /** The first finding while rebuilding packages; a missing customer is found before a malformed package. */
  function PackagesFinding(packages: seq<PackageRecord>, customers: seq<int>): Finding {
    if packages == [] then Passed
    else
      var n := |packages| - 1;
      var earlier := PackagesFinding(packages[..n], customers);
      if earlier != Passed then earlier
      else if packages[n].customer !in customers then Corrupt(INVALID_REFERENCES)
      else if !PackageBuilds(packages[n]) then Corrupt(INVARIANT_VIOLATION)
      else Passed
  }

  ghost function RebuildFinding(s: Snapshot, rules: ContactRules): Finding {
    if exists k :: 0 <= k < |s.customers| && !CustomerBuilds(s.customers[k], rules) then Corrupt(INVARIANT_VIOLATION)
    else if PackagesFinding(s.packages, CustomerIds(s.customers)) != Passed then PackagesFinding(s.packages, CustomerIds(s.customers))
    else if exists k :: 0 <= k < |s.routes| && !RouteBuilds(s.routes[k]) then Corrupt(INVARIANT_VIOLATION)
    else Passed
  }

  function CustomersById(s: seq<CustomerRecord>): (m: map<int, CustomerRecord>)
    ensures forall id :: id in m <==> id in CustomerIds(s)
    ensures forall id <- m :: m[id] in s && m[id].id == id
  {
    if s == [] then map[]
    else
      var n := |s| - 1;
      assert CustomerIds(s) == CustomerIds(s[..n]) + [s[n].id];
      CustomersById(s[..n])[s[n].id := s[n]]
  }

  /** The packages of a customer, in record order. */
  function PackagesOfCustomer(packages: seq<PackageRecord>, cid: int): seq<int> {
    if packages == [] then []
    else
      var n := |packages| - 1;
      PackagesOfCustomer(packages[..n], cid) + if packages[n].customer == cid then [packages[n].id] else []
  }

  function RebuiltPackage(p: PackageRecord): PackageState {
    PackageState(p.start, p.end, p.weight, p.customer, Unlinked, Unlinked, TODO, p.start, None, [])
  }

  function RebuiltRoute(r: RouteRecord): (state: RouteState)
    requires |r.locations| >= 2
    ensures Shaped(state)
  {
    RouteState(r.locations,
               if r.departure.Some? then Some(ScheduleOf(r.locations, r.departure.value, SPEED_KMPH)) else None,
               if r.departure.Some? then SCHEDULED else PLANNED, Unlinked, [], [])
  }

  /** Every record is one an entity can be built from. */
  ghost predicate Buildable(s: Snapshot, rules: ContactRules) {
    && (forall k :: 0 <= k < |s.customers| ==> CustomerBuilds(s.customers[k], rules))
    && (forall k :: 0 <= k < |s.packages| ==> PackageBuilds(s.packages[k]) && s.packages[k].customer in CustomerIds(s.customers))
    && (forall k :: 0 <= k < |s.routes| ==> RouteBuilds(s.routes[k]))
  }

  lemma {:induction false} PackagesBuildIff(packages: seq<PackageRecord>, customers: seq<int>)
    ensures PackagesFinding(packages, customers) == Passed
       <==> forall k :: 0 <= k < |packages| ==> PackageBuilds(packages[k]) && packages[k].customer in customers
  {
    if packages != [] {
      var n := |packages| - 1;
      PackagesBuildIff(packages[..n], customers);
      assert forall k :: 0 <= k < n ==> packages[..n][k] == packages[k];
    }
  }

  lemma RebuildsIffBuildable(s: Snapshot, rules: ContactRules)
    ensures RebuildFinding(s, rules) == Passed <==> Buildable(s, rules)
  {
    PackagesBuildIff(s.packages, CustomerIds(s.customers));
  }

  /** The rebuilt world, without any link between packages, routes and trucks. */
  ghost function RebuiltWorld(s: Snapshot): World
    requires forall k {:trigger s.routes[k]} :: 0 <= k < |s.routes| ==> |s.routes[k].locations| >= 2
  {
    World(map cid <- CustomersById(s.customers) ::
            CustomerState(CustomersById(s.customers)[cid].contact, PackagesOfCustomer(s.packages, cid)),
          map pid <- PackagesById(s.packages) :: RebuiltPackage(PackagesById(s.packages)[pid]),
          map rid <- RoutesById(s.routes) :: RebuiltRoute(RoutesById(s.routes)[rid]),
          map[])
  }

  // ----- package links

  /** Puts one package on one route; a missing id, or an end the route's schedule does not know, ends the linking. */
  ghost function LinkPackage(w: World, rid: int, pid: int): (v: Option<World>)
    requires Ready(w)
    ensures v.Some? ==> Ready(v.value)
  {
    if rid !in w.routes || pid !in w.packages then None
    else if pid in w.routes[rid].packages then Some(w)
    else if ArrivalMissing(w.routes[rid], w.packages[pid]) then None
    else
      var r := w.routes[rid];
      var v := w.(routes := w.routes[rid := r.(packages := r.packages + [pid])],
                  packages := w.packages[pid := AssignedPackage(r, rid, w.packages[pid])]);
      assert Sound(r);
      assert Closed(v);
      assert forall other {:trigger Sound(v.routes[other])} :: other in v.routes ==> Sound(v.routes[other]) by {
        forall other | other in v.routes ensures Sound(v.routes[other]) { assert other != rid ==> Sound(w.routes[other]); }
      }
      Some(v)
  }

  ghost function LinkList(w: World, rid: int, ids: seq<int>): (v: Option<World>)
    requires Ready(w)
    ensures v.Some? ==> Ready(v.value)
  {
    if ids == [] then Some(w)
    else
      var earlier := LinkList(w, rid, ids[..|ids| - 1]);
      if earlier.None? then None else LinkPackage(earlier.value, rid, ids[|ids| - 1])
  }

  ghost function LinkPackages(w: World, routes: seq<RouteRecord>): (v: Option<World>)
    requires Ready(w)
    ensures v.Some? ==> Ready(v.value)
  {
    if routes == [] then Some(w)
    else
      var n := |routes| - 1;
      var earlier := LinkPackages(w, routes[..n]);
      if earlier.None? || routes[n].id !in earlier.value.routes then None
      else LinkList(earlier.value, routes[n].id, routes[n].packages)
  }

  // ----- truck links

  /** A fleet truck's clone in the recorded state. */
  function CandidateOf(t: TruckRecord, fleetTruck: TruckState): TruckState
    requires t.status.Status?
  {
    TruckState(fleetTruck.capacity, fleetTruck.maxRange, t.status.status, t.location, Unlinked, t.busyFrom, t.busyUntil, t.inTransitTo)
  }

  /** A fleet truck's clone for a snapshot that holds no truck state: free at the start of its route. */
  function FreshCandidate(fleetTruck: TruckState, start: LocationCode): TruckState {
    TruckState(fleetTruck.capacity, fleetTruck.maxRange, FREE, Some(start), Unlinked, None, None, None)
  }

  function Candidates(trucks: seq<TruckRecord>, fleet: map<int, TruckState>): (m: Option<map<int, TruckState>>)
    requires forall j :: 0 <= j < |trucks| ==> trucks[j].status.Status?
  {
    if trucks == [] then Some(map[])
    else
      var n := |trucks| - 1;
      var earlier := Candidates(trucks[..n], fleet);
      if earlier.None? || trucks[n].id !in fleet then None
      else Some(earlier.value[trucks[n].id := CandidateOf(trucks[n], fleet[trucks[n].id])])
  }

  /** Gives a route its candidate truck, cloning one when the snapshot holds none. */
  ghost function LinkTruck(w: World, fleet: map<int, TruckState>, rid: int, tid: int): Option<World>
  {
    if rid !in w.routes || !Shaped(w.routes[rid]) || (tid !in w.trucks && tid !in fleet) then None
    else
      var r := w.routes[rid];
      var candidate := if tid in w.trucks then w.trucks[tid] else FreshCandidate(fleet[tid], r.path[0]);
      Some(w.(trucks := w.trucks[tid := TruckServing(candidate, rid, r)], routes := w.routes[rid := r.(truck := To(tid))]))
  }

  ghost function LinkTrucks(w: World, fleet: map<int, TruckState>, routes: seq<RouteRecord>): Option<World>
  {
    if routes == [] then Some(w)
    else
      var n := |routes| - 1;
      var earlier := LinkTrucks(w, fleet, routes[..n]);
      if earlier.None? then None
      else if routes[n].truck.Unlinked? then earlier
      else LinkTruck(earlier.value, fleet, routes[n].id, routes[n].truck.id)
  }

  /** Links a rebuilt world as its snapshot says. */
  ghost function LinkSnapshot(s: Snapshot, w: World, fleet: map<int, TruckState>): Option<World>
    requires Ready(w) && forall j :: 0 <= j < |s.trucks| ==> s.trucks[j].status.Status?
  {
    var packagesLinked := LinkPackages(w, s.routes);
    var candidates := Candidates(s.trucks, fleet);
    if packagesLinked.None? || candidates.None? then None
    else LinkTrucks(packagesLinked.value.(trucks := candidates.value), fleet, s.routes)
  }
}
