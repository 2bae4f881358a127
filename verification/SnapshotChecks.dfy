/** What a snapshot must satisfy to be accepted, one check at a time. */
module SnapshotChecks {
  import opened Common
  import opened CityMap
  import opened RoutePaths
  import opened RouteScheduling
  import opened RouteLoads
  import opened Fleet
  import opened Snapshots

  datatype Reason = UNSUPPORTED_SCHEMA | INVALID_STRUCTURE | INVALID_REFERENCES | INVARIANT_VIOLATION

  /** The outcome of a check; `DistanceLookupFailed` is an error no validator translates. */
  datatype Finding = Passed | Corrupt(reason: Reason) | DistanceLookupFailed

  /** The text rules of contacts: which are accepted, and how emails and phones are normalised. */
  datatype ContactRules = ContactRules(accepts: Contact -> bool, emailKey: string -> string, phoneKey: string -> string)

  // ----- dictionaries

  function RoutesById(s: seq<RouteRecord>): (m: map<int, RouteRecord>)
    ensures forall id :: id in m <==> id in RouteIdsIn(s)
    ensures forall id <- m :: m[id] in s && m[id].id == id
  {
    if s == [] then map[]
    else
      var n := |s| - 1;
      assert forall id :: id in RouteIdsIn(s) <==> id in RouteIdsIn(s[..n]) || id == s[n].id by {
        assert RouteIdsIn(s) == RouteIdsIn(s[..n]) + [s[n].id];
      }
      RoutesById(s[..n])[s[n].id := s[n]]
  }

  function PackagesById(s: seq<PackageRecord>): (m: map<int, PackageRecord>)
    ensures forall id :: id in m <==> id in PackageIdsIn(s)
    ensures forall id <- m :: m[id] in s && m[id].id == id
  {
    if s == [] then map[]
    else
      var n := |s| - 1;
      assert forall id :: id in PackageIdsIn(s) <==> id in PackageIdsIn(s[..n]) || id == s[n].id by {
        assert PackageIdsIn(s) == PackageIdsIn(s[..n]) + [s[n].id];
      }
      PackagesById(s[..n])[s[n].id := s[n]]
  }

  function TrucksById(s: seq<TruckRecord>): (m: map<int, TruckRecord>)
    ensures forall id :: id in m <==> id in TruckIdsIn(s)
    ensures forall id <- m :: m[id] in s && m[id].id == id
  {
    if s == [] then map[]
    else
      var n := |s| - 1;
      assert forall id :: id in TruckIdsIn(s) <==> id in TruckIdsIn(s[..n]) || id == s[n].id by {
        assert TruckIdsIn(s) == TruckIdsIn(s[..n]) + [s[n].id];
      }
      TrucksById(s[..n])[s[n].id := s[n]]
  }

  /** The route each truck is assigned to; a later route overrides an earlier one. */
  function RouteTrucks(s: seq<RouteRecord>): (m: map<int, int>)
    ensures forall tid :: tid in m <==> exists k :: 0 <= k < |s| && s[k].truck == To(tid)
    ensures forall tid <- m :: exists k :: 0 <= k < |s| && s[k].truck == To(tid) && s[k].id == m[tid]
  {
    if s == [] then map[]
    else
      var n := |s| - 1;
      var m := RouteTrucks(s[..n]);
      assert forall k :: 0 <= k < n ==> s[..n][k] == s[k];
      if s[n].truck.To? then m[s[n].truck.id := s[n].id] else m
  }

  lemma RecordOf(s: Snapshot, k: nat)
    requires NoDup(RouteIdsIn(s.routes)) && k < |s.routes|
    ensures s.routes[k].id in RoutesById(s.routes) && RoutesById(s.routes)[s.routes[k].id] == s.routes[k]
  {
    var id := s.routes[k].id;
    assert RouteIdsIn(s.routes)[k] == id;
    var r := RoutesById(s.routes)[id];
    var j :| 0 <= j < |s.routes| && s.routes[j] == r;
    assert RouteIdsIn(s.routes)[j] == id;
  }

  lemma PackageOf(s: Snapshot, k: nat)
    requires NoDup(PackageIdsIn(s.packages)) && k < |s.packages|
    ensures s.packages[k].id in PackagesById(s.packages) && PackagesById(s.packages)[s.packages[k].id] == s.packages[k]
  {
    var id := s.packages[k].id;
    assert PackageIdsIn(s.packages)[k] == id;
    var p := PackagesById(s.packages)[id];
    var j :| 0 <= j < |s.packages| && s.packages[j] == p;
    assert PackageIdsIn(s.packages)[j] == id;
  }

  // ----- schema, counters, ids

  function SchemaFinding(s: Snapshot, supported: set<int>): Finding {
    if s.schemaVersion !in supported then Corrupt(UNSUPPORTED_SCHEMA)
    else if s.schemaVersion == 1 && s.trucks != [] then Corrupt(INVALID_STRUCTURE)
    else Passed
  }

  predicate CountersPositive(c: Counters) {
    c.nextCustomerId >= 1 && c.nextPackageId >= 1 && c.nextRouteId >= 1
  }

  ghost predicate UniqueIds(ids: seq<int>) {
    NoDup(ids) && forall k :: 0 <= k < |ids| ==> ids[k] >= 1
  }

  ghost predicate IdsOk(s: Snapshot) {
    && UniqueIds(CustomerIds(s.customers)) && UniqueIds(PackageIdsIn(s.packages)) && UniqueIds(RouteIdsIn(s.routes))
    && forall k :: 0 <= k < |s.routes| ==> |s.routes[k].locations| >= 2 && UniqueIds(s.routes[k].packages)
  }

  predicate Above(next: int, ids: seq<int>) {
    forall k :: 0 <= k < |ids| ==> next > ids[k]
  }

  predicate CountersAbove(s: Snapshot) {
    && Above(s.counters.nextCustomerId, CustomerIds(s.customers))
    && Above(s.counters.nextPackageId, PackageIdsIn(s.packages))
    && Above(s.counters.nextRouteId, RouteIdsIn(s.routes))
  }

  // ----- references

  predicate PackageRefersWell(s: Snapshot, p: PackageRecord) {
    p.customer in CustomerIds(s.customers) && (p.route.To? ==> p.route.id in RouteIdsIn(s.routes))
  }

  predicate RouteRefersWell(s: Snapshot, fleet: set<int>, r: RouteRecord) {
    && (forall k :: 0 <= k < |r.packages| ==> r.packages[k] in PackageIdsIn(s.packages))
    && (r.truck.To? ==> r.truck.id in fleet)
  }

  ghost predicate TrucksApart(routes: seq<RouteRecord>) {
    forall i, j :: 0 <= i < j < |routes| && routes[i].truck.To? ==> routes[i].truck != routes[j].truck
  }

  ghost predicate ReferencesOk(s: Snapshot, fleet: set<int>) {
    && (forall k :: 0 <= k < |s.packages| ==> PackageRefersWell(s, s.packages[k]))
    && (forall k :: 0 <= k < |s.routes| ==> RouteRefersWell(s, fleet, s.routes[k]))
    && TrucksApart(s.routes)
  }

  // ----- trucks

  predicate PlacesKnown(t: TruckRecord) {
    && (t.location.Some? ==> IsValidLocation(t.location.value))
    && (t.inTransitTo.Some? ==> IsValidLocation(t.inTransitTo.value))
  }

  /** Runtime fields that contradict the status. */
  predicate RuntimeConflict(t: TruckRecord) {
    || (t.status == Status(FREE) && (t.route.To? || t.busyFrom.Some? || t.busyUntil.Some? || t.inTransitTo.Some?))
    || (t.status == Status(ON_THE_WAY) && t.route.Unlinked?)
  }

  /** The checks of one truck record, in the order they are made. */
  function TruckFinding(t: TruckRecord, seen: set<int>, routeTrucks: map<int, int>, fleet: set<int>): Finding {
    if t.id < 1 || t.id in seen then Corrupt(INVARIANT_VIOLATION)
    else if t.id !in fleet then Corrupt(INVALID_REFERENCES)
    else if t.status.UnknownStatus? || !PlacesKnown(t) || RuntimeConflict(t) then Corrupt(INVARIANT_VIOLATION)
    else if t.route.To? && (t.id !in routeTrucks || routeTrucks[t.id] != t.route.id) then Corrupt(INVALID_REFERENCES)
    else Passed
  }

  /** The first finding among the truck records. */
  function TruckRecordsFinding(trucks: seq<TruckRecord>, routeTrucks: map<int, int>, fleet: set<int>): Finding {
    if trucks == [] then Passed
    else
      var n := |trucks| - 1;
      var earlier := TruckRecordsFinding(trucks[..n], routeTrucks, fleet);
      if earlier != Passed then earlier else TruckFinding(trucks[n], SeenIds(trucks[..n]), routeTrucks, fleet)
  }

  function SeenIds(trucks: seq<TruckRecord>): set<int> {
    set t <- trucks :: t.id
  }

  /** Every assigned truck that has a record points back to its route. */
  predicate AssignedTrucksAgree(routeTrucks: map<int, int>, trucks: seq<TruckRecord>) {
    forall tid <- routeTrucks :: tid in TrucksById(trucks) ==> TrucksById(trucks)[tid].route == To(routeTrucks[tid])
  }

  function TrucksFinding(s: Snapshot, fleet: set<int>): Finding {
    var routeTrucks := RouteTrucks(s.routes);
    var found := TruckRecordsFinding(s.trucks, routeTrucks, fleet);
    if found != Passed then found
    else if s.schemaVersion == 2 && fleet - SeenIds(s.trucks) != {} then Corrupt(INVALID_STRUCTURE)
    else if !AssignedTrucksAgree(routeTrucks, s.trucks) then Corrupt(INVALID_REFERENCES)
    else Passed
  }

  // ----- routes and packages

  /** Route and package name each other. */
  predicate LinksAgree(s: Snapshot) {
    var routes, packages := RoutesById(s.routes), PackagesById(s.packages);
    && (forall k :: 0 <= k < |s.packages| && s.packages[k].route.To? ==>
          s.packages[k].route.id in routes && s.packages[k].id in routes[s.packages[k].route.id].packages)
    && (forall k :: 0 <= k < |s.routes| ==>
          forall j :: 0 <= j < |s.routes[k].packages| ==>
            s.routes[k].packages[j] in packages && packages[s.routes[k].packages[j]].route == To(s.routes[k].id))
  }

  /** Each assigned package travels its route forwards. */
  predicate PackagesFit(s: Snapshot) {
    var routes := RoutesById(s.routes);
    forall k :: 0 <= k < |s.packages| && s.packages[k].route.To? ==>
      && s.packages[k].route.id in routes
      && IncludesInOrder(routes[s.packages[k].route.id].locations, s.packages[k].start, s.packages[k].end)
  }

  // ----- trucks and routes

  function RecordLoads(r: RouteRecord, packages: map<int, PackageRecord>): (loads: seq<PackageLoad>)
    requires forall k :: 0 <= k < |r.packages| ==> r.packages[k] in packages
    ensures |loads| == |r.packages|
    ensures forall k :: 0 <= k < |loads| ==>
      loads[k] == PackageLoad(packages[r.packages[k]].start, packages[r.packages[k]].end, packages[r.packages[k]].weight)
  {
    seq(|r.packages|, k requires 0 <= k < |r.packages| =>
      PackageLoad(packages[r.packages[k]].start, packages[r.packages[k]].end, packages[r.packages[k]].weight))
  }

  /** The checks of one route that has a truck, in the order they are made. */
  ghost function RouteTruckFinding(r: RouteRecord, packages: map<int, PackageRecord>, fleet: map<int, TruckState>): Finding
    requires forall k :: 0 <= k < |r.packages| ==> r.packages[k] in packages
    requires |r.locations| >= 2 && (r.truck.To? ==> r.truck.id in fleet)
  {
    if r.truck.Unlinked? then Passed
    else if r.departure.None? then Corrupt(INVARIANT_VIOLATION)
    else if MaximumLoad(r.locations, RecordLoads(r, packages)) > fleet[r.truck.id].capacity as real then Corrupt(INVARIANT_VIOLATION)
    else if !AllLegsKnown(r.locations) then DistanceLookupFailed
    else if DistanceKm(r.locations) > fleet[r.truck.id].maxRange then Corrupt(INVARIANT_VIOLATION)
    else Passed
  }

  /** Routes whose packages and trucks are known. */
  ghost predicate RoutesKnown(routes: seq<RouteRecord>, packages: map<int, PackageRecord>, fleet: map<int, TruckState>) {
    forall k {:trigger routes[k]} :: 0 <= k < |routes| ==>
      && (forall j :: 0 <= j < |routes[k].packages| ==> routes[k].packages[j] in packages)
      && |routes[k].locations| >= 2 && (routes[k].truck.To? ==> routes[k].truck.id in fleet)
  }

  ghost function RouteTrucksFinding(routes: seq<RouteRecord>, packages: map<int, PackageRecord>, fleet: map<int, TruckState>): Finding
    requires RoutesKnown(routes, packages, fleet)
  {
    if routes == [] then Passed
    else
      var n := |routes| - 1;
      assert forall k {:trigger routes[..n][k]} :: 0 <= k < n ==> routes[..n][k] == routes[k];
      var earlier := RouteTrucksFinding(routes[..n], packages, fleet);
      if earlier != Passed then earlier else RouteTruckFinding(routes[n], packages, fleet)
  }

  // ----- customers

  /** No two customers share a normalised email or phone; empty ones do not count. */
  ghost predicate ContactsApart(customers: seq<CustomerRecord>, rules: ContactRules) {
    forall i, j :: 0 <= i < j < |customers| ==>
      && ApartKeys(rules.emailKey(customers[i].contact.email), rules.emailKey(customers[j].contact.email))
      && ApartKeys(rules.phoneKey(customers[i].contact.phone), rules.phoneKey(customers[j].contact.phone))
  }

  predicate ApartKeys(a: string, b: string) {
    a == "" || a != b
  }

  // ----- the whole

  lemma KnownRoutes(s: Snapshot, fleet: map<int, TruckState>)
    requires IdsOk(s) && ReferencesOk(s, fleet.Keys)
    ensures RoutesKnown(s.routes, PackagesById(s.packages), fleet)
  {
    forall k {:trigger s.routes[k]} | 0 <= k < |s.routes| ensures RouteRefersWell(s, fleet.Keys, s.routes[k]) {}
  }

  /** The first finding, check by check; every check relies on the earlier ones. */
  ghost function Verdict(s: Snapshot, supported: set<int>, fleet: map<int, TruckState>, rules: ContactRules): Finding {
    if SchemaFinding(s, supported) != Passed then SchemaFinding(s, supported)
    else if !CountersPositive(s.counters) || !IdsOk(s) then Corrupt(INVARIANT_VIOLATION)
    else if !ReferencesOk(s, fleet.Keys) then Corrupt(INVALID_REFERENCES)
    else if TrucksFinding(s, fleet.Keys) != Passed then TrucksFinding(s, fleet.Keys)
    else if !LinksAgree(s) then Corrupt(INVALID_REFERENCES)
    else if !PackagesFit(s) then Corrupt(INVARIANT_VIOLATION)
    else
      KnownRoutes(s, fleet);
      var found := RouteTrucksFinding(s.routes, PackagesById(s.packages), fleet);
      if found != Passed then found
      else if !ContactsApart(s.customers, rules) || !CountersAbove(s) then Corrupt(INVARIANT_VIOLATION)
      else Passed
  }
}
