/** The validators, one pass over the records each, and the chain that runs them. */
module SnapshotValidators {
  import opened Common
  import opened CityMap
  import opened RouteScheduling
  import opened RouteLoads
  import opened Fleet
  import opened Snapshots
  import opened SnapshotChecks

  // ----- ids and references

  method EnsureUniqueIds(ids: seq<int>) returns (ok: bool)
    ensures ok <==> UniqueIds(ids)
  {
    var seen: set<int>, duplicates: set<int> := {}, {};
    for i := 0 to |ids|
      invariant seen == Elements(ids[..i])
      invariant duplicates == {} <==> NoDup(ids[..i])
      invariant forall k :: 0 <= k < i ==> ids[k] >= 1
    {
      if ids[i] < 1 {
        return false;
      }
      if ids[i] in seen {
        duplicates := duplicates + {ids[i]};
        var k :| 0 <= k < i && ids[k] == ids[i];
        assert ids[..i + 1][k] == ids[..i + 1][i];
      }
      assert ids[..i + 1] == ids[..i] + [ids[i]];
      seen := seen + {ids[i]};
    }
    WholeSlice(ids);
    return duplicates == {};
  }

  method ValidateIds(s: Snapshot) returns (ok: bool)
    ensures ok <==> IdsOk(s)
  {
    ok := EnsureUniqueIds(CustomerIds(s.customers));
    if !ok {
      return;
    }
    ok := EnsureUniqueIds(PackageIdsIn(s.packages));
    if !ok {
      return;
    }
    ok := EnsureUniqueIds(RouteIdsIn(s.routes));
    if !ok {
      return;
    }
    for i := 0 to |s.routes|
      invariant forall k :: 0 <= k < i ==> |s.routes[k].locations| >= 2 && UniqueIds(s.routes[k].packages)
    {
      if |s.routes[i].locations| < 2 {
        return false;
      }
      ok := EnsureUniqueIds(s.routes[i].packages);
      if !ok {
        return;
      }
    }
    return true;
  }

  /** Checks every reference, collecting the trucks assigned so far. */
  method ValidateReferences(s: Snapshot, fleet: set<int>) returns (ok: bool)
    ensures ok <==> ReferencesOk(s, fleet)
  {
    for i := 0 to |s.packages|
      invariant forall k :: 0 <= k < i ==> PackageRefersWell(s, s.packages[k])
    {
      if !PackageRefersWell(s, s.packages[i]) {
        return false;
      }
    }
    var takenTrucks: set<int> := {};
    for i := 0 to |s.routes|
      invariant forall k :: 0 <= k < i ==> RouteRefersWell(s, fleet, s.routes[k])
      invariant forall tid :: tid in takenTrucks <==> exists k :: 0 <= k < i && s.routes[k].truck == To(tid)
      invariant TrucksApart(s.routes[..i])
    {
      var route := s.routes[i];
      if !RouteRefersWell(s, fleet, route) {
        return false;
      }
      if route.truck.To? {
        if route.truck.id in takenTrucks {
          return false;
        }
        takenTrucks := takenTrucks + {route.truck.id};
      }
    }
    WholeSlice(s.routes);
    return true;
  }

  // ----- trucks

  /** Checks truck records in order, collecting the ids seen so far. */
  method ValidateTrucks(s: Snapshot, fleet: set<int>) returns (found: Finding)
    ensures found == TrucksFinding(s, fleet)
  {
    hide TruckFinding, RouteTrucks, TrucksById;
    var routeTrucks := RouteTrucks(s.routes);
    var seen: set<int> := {};
    for i := 0 to |s.trucks|
      invariant seen == SeenIds(s.trucks[..i])
      invariant TruckRecordsFinding(s.trucks[..i], routeTrucks, fleet) == Passed
    {
      assert s.trucks[..i + 1][..i] == s.trucks[..i];
      assert s.trucks[..i + 1] == s.trucks[..i] + [s.trucks[i]];
      found := TruckFinding(s.trucks[i], seen, routeTrucks, fleet);
      if found != Passed {
        FirstFindingStands(s.trucks, i + 1, routeTrucks, fleet);
        return;
      }
      seen := seen + {s.trucks[i].id};
    }
    WholeSlice(s.trucks);
    if s.schemaVersion == 2 && fleet - seen != {} {
      return Corrupt(INVALID_STRUCTURE);
    }
    return if AssignedTrucksAgree(routeTrucks, s.trucks) then Passed else Corrupt(INVALID_REFERENCES);
  }

  lemma {:induction false} FirstFindingStands(trucks: seq<TruckRecord>, n: nat, routeTrucks: map<int, int>, fleet: set<int>)
    requires n <= |trucks| && TruckRecordsFinding(trucks[..n], routeTrucks, fleet) != Passed
    ensures TruckRecordsFinding(trucks, routeTrucks, fleet) == TruckRecordsFinding(trucks[..n], routeTrucks, fleet)
  {
    if n == |trucks| {
      WholeSlice(trucks);
    } else {
      assert trucks[..|trucks| - 1][..n] == trucks[..n];
      FirstFindingStands(trucks[..|trucks| - 1], n, routeTrucks, fleet);
    }
  }

  // ----- trucks and routes

  /** Position of each location at its first occurrence, as a dictionary. */
  method LocationIndex(locations: seq<LocationCode>) returns (index: map<LocationCode, nat>)
    ensures forall x :: x in index <==> x in locations
    ensures forall x :: x in index ==> index[x] == IndexOf(locations, x)
  {
    index := map[];
    for i := 0 to |locations|
      invariant forall x :: x in index <==> x in locations[..i]
      invariant forall x :: x in index ==> x in locations && index[x] == IndexOf(locations, x) < i
    {
      assert locations[..i + 1] == locations[..i] + [locations[i]];
      if locations[i] !in index {
        assert IndexOf(locations, locations[i]) == i;
        index := index[locations[i] := i];
      }
    }
    WholeSlice(locations);
  }

  /** The validator's own segment load: packages looked up by id, endpoints at their first occurrence. It agrees with
      the heaviest segment load on every path, repeated locations included. */
  method RecordSegmentLoad(r: RouteRecord, packages: map<int, PackageRecord>) returns (load: real)
    requires |r.locations| >= 1 && forall k :: 0 <= k < |r.packages| ==> r.packages[k] in packages
    ensures load == MaximumLoad(r.locations, RecordLoads(r, packages))
  {
    var loads := new real[|r.locations| - 1](_ => 0.0);
    var index := LocationIndex(r.locations);
    ghost var all := RecordLoads(r, packages);
    for n := 0 to |r.packages|
      invariant fresh(loads) && LoadsAre(loads[..], index, all[..n])
    {
      var package := packages[r.packages[n]];
      assert all[..n + 1] == all[..n] + [all[n]];
      AddNext(loads, index, all[..n], PackageLoad(package.start, package.end, package.weight));
    }
    WholeSlice(all);
    assert loads[..] == seq(loads.Length, i requires 0 <= i => LoadAt(index, all, i));
    FirstIndexMaximum(index, r.locations, all);
    load := MaximumOf(loads);
  }

  /** The validator's own distance: fails on the first pair without a distance. */
  method RecordDistance(locations: seq<LocationCode>) returns (km: Option<nat>)
    requires |locations| >= 1
    ensures km.Some? <==> AllLegsKnown(locations)
    ensures km.Some? ==> km.value == DistanceKm(locations)
  {
    var total: nat := 0;
    for i := 0 to |locations| - 1
      invariant forall j :: 0 <= j < i ==> LegKnown(locations, j)
      invariant total == KmTo(locations, i)
    {
      var distance := GetDistance(locations[i], locations[i + 1]);
      if distance.Err? {
        assert !LegKnown(locations, i);
        return None;
      }
      assert LegKnown(locations, i);
      total := total + distance.value;
    }
    return Some(total);
  }

  method ValidateTruckRoutes(routes: seq<RouteRecord>, packages: map<int, PackageRecord>, fleet: map<int, TruckState>)
    returns (found: Finding)
    requires RoutesKnown(routes, packages, fleet)
    ensures found == RouteTrucksFinding(routes, packages, fleet)
  {
    found := Passed;
    for i := 0 to |routes|
      invariant RoutesKnown(routes[..i], packages, fleet)
      invariant RouteTrucksFinding(routes[..i], packages, fleet) == found == Passed
    {
      assert routes[..i + 1][..i] == routes[..i];
      found := ValidateTruckRoute(routes[i], packages, fleet);
      if found != Passed {
        FirstRouteFindingStands(routes, i + 1, packages, fleet);
        return;
      }
    }
    WholeSlice(routes);
  }

  method ValidateTruckRoute(r: RouteRecord, packages: map<int, PackageRecord>, fleet: map<int, TruckState>)
    returns (found: Finding)
    requires forall k :: 0 <= k < |r.packages| ==> r.packages[k] in packages
    requires |r.locations| >= 2 && (r.truck.To? ==> r.truck.id in fleet)
    ensures found == RouteTruckFinding(r, packages, fleet)
  {
    if r.truck.Unlinked? {
      return Passed;
    }
    if r.departure.None? {
      return Corrupt(INVARIANT_VIOLATION);
    }
    var truck := fleet[r.truck.id];
    var load := RecordSegmentLoad(r, packages);
    if load > truck.capacity as real {
      return Corrupt(INVARIANT_VIOLATION);
    }
    var km := RecordDistance(r.locations);
    if km.None? {
      return DistanceLookupFailed;
    }
    return if km.value > truck.maxRange then Corrupt(INVARIANT_VIOLATION) else Passed;
  }

  lemma {:induction false} FirstRouteFindingStands(routes: seq<RouteRecord>, n: nat, packages: map<int, PackageRecord>, fleet: map<int, TruckState>)
    requires n <= |routes| && RoutesKnown(routes, packages, fleet) && RoutesKnown(routes[..n], packages, fleet)
    requires RouteTrucksFinding(routes[..n], packages, fleet) != Passed
    ensures RouteTrucksFinding(routes, packages, fleet) == RouteTrucksFinding(routes[..n], packages, fleet)
  {
    if n == |routes| {
      WholeSlice(routes);
    } else {
      var fewer := routes[..|routes| - 1];
      assert fewer[..n] == routes[..n];
      assert RoutesKnown(fewer, packages, fleet) by {
        forall k {:trigger fewer[k]} | 0 <= k < |fewer| ensures fewer[k] == routes[k] {}
      }
      FirstRouteFindingStands(fewer, n, packages, fleet);
    }
  }

  // ----- customers

  /** Checks contacts in order, collecting the normalised values used so far. */
  method ValidateCustomers(customers: seq<CustomerRecord>, rules: ContactRules) returns (ok: bool)
    ensures ok <==> ContactsApart(customers, rules)
  {
    var emails: set<string>, phones: set<string> := {}, {};
    for i := 0 to |customers|
      invariant forall x :: x in emails <==> x != "" && exists k :: 0 <= k < i && rules.emailKey(customers[k].contact.email) == x
      invariant forall x :: x in phones <==> x != "" && exists k :: 0 <= k < i && rules.phoneKey(customers[k].contact.phone) == x
      invariant ContactsApart(customers[..i], rules)
    {
      var email, phone := rules.emailKey(customers[i].contact.email), rules.phoneKey(customers[i].contact.phone);
      if email in emails || phone in phones {
        return false;
      }
      if email != "" {
        emails := emails + {email};
      }
      if phone != "" {
        phones := phones + {phone};
      }
    }
    WholeSlice(customers);
    return true;
  }

  // ----- the chain

  /** Runs every check in order and stops at the first finding. */
  method ValidateSnapshot(s: Snapshot, supported: set<int>, fleet: map<int, TruckState>, rules: ContactRules)
    returns (found: Finding)
    ensures found == Verdict(s, supported, fleet, rules)
  {
    found := SchemaFinding(s, supported);
    if found != Passed {
      return;
    }
    if !CountersPositive(s.counters) {
      return Corrupt(INVARIANT_VIOLATION);
    }
    var ok := ValidateIds(s);
    if !ok {
      return Corrupt(INVARIANT_VIOLATION);
    }
    ok := ValidateReferences(s, fleet.Keys);
    if !ok {
      return Corrupt(INVALID_REFERENCES);
    }
    found := ValidateTrucks(s, fleet.Keys);
    if found != Passed {
      return;
    }
    if !LinksAgree(s) {
      return Corrupt(INVALID_REFERENCES);
    }
    if !PackagesFit(s) {
      return Corrupt(INVARIANT_VIOLATION);
    }
    KnownRoutes(s, fleet);
    found := ValidateTruckRoutes(s.routes, PackagesById(s.packages), fleet);
    if found != Passed {
      return;
    }
    ok := ValidateCustomers(s.customers, rules);
    if !ok || !CountersAbove(s) {
      return Corrupt(INVARIANT_VIOLATION);
    }
  }
}
