/** What acceptance means: the chain of checks passes exactly when the snapshot is consistent. */
module SnapshotSoundness {
  import opened Common
  import opened RouteScheduling
  import opened RouteLoads
  import opened Fleet
  import opened Snapshots
  import opened SnapshotChecks

  // ----- the consistent snapshot

  /** A truck record names a fleet truck, and its runtime fields agree with its status. */
  predicate TruckRecordOk(t: TruckRecord, fleet: set<int>) {
    && t.id >= 1 && t.id in fleet && t.status.Status? && PlacesKnown(t)
    && (t.status.status == FREE <==> t.route.Unlinked?)
    && (t.route.Unlinked? ==> t.busyFrom.None? && t.busyUntil.None? && t.inTransitTo.None?)
  }

  /** The route a truck record names has this truck. */
  ghost predicate NamedBack(s: Snapshot, t: TruckRecord) {
    t.route.To? ==> exists k :: 0 <= k < |s.routes| && s.routes[k].truck == To(t.id) && s.routes[k].id == t.route.id
  }

  /** Truck records are unique and complete, and a route and its truck name each other. */
  ghost predicate TrucksOk(s: Snapshot, fleet: set<int>) {
    && NoDup(TruckIdsIn(s.trucks))
    && (forall j :: 0 <= j < |s.trucks| ==> TruckRecordOk(s.trucks[j], fleet))
    && (forall j :: 0 <= j < |s.trucks| ==> NamedBack(s, s.trucks[j]))
    && (forall j, k :: 0 <= j < |s.trucks| && 0 <= k < |s.routes| && s.routes[k].truck == To(s.trucks[j].id) ==>
          s.trucks[j].route == To(s.routes[k].id))
    && (s.schemaVersion == 2 ==> forall tid :: tid in fleet ==> tid in TruckIdsIn(s.trucks))
  }

  /** A route with a truck is scheduled, within the truck's capacity and within its range. */
  ghost predicate RouteTruckOk(r: RouteRecord, packages: map<int, PackageRecord>, fleet: map<int, TruckState>)
    requires forall k :: 0 <= k < |r.packages| ==> r.packages[k] in packages
    requires |r.locations| >= 2 && (r.truck.To? ==> r.truck.id in fleet)
  {
    r.truck.To? ==>
      && r.departure.Some? && AllLegsKnown(r.locations)
      && MaximumLoad(r.locations, RecordLoads(r, packages)) <= fleet[r.truck.id].capacity as real
      && DistanceKm(r.locations) <= fleet[r.truck.id].maxRange
  }

  ghost predicate Consistent(s: Snapshot, fleet: map<int, TruckState>) {
    && IdsOk(s) && ReferencesOk(s, fleet.Keys) && TrucksOk(s, fleet.Keys) && LinksAgree(s) && PackagesFit(s)
    && RoutesKnown(s.routes, PackagesById(s.packages), fleet)
    && forall k {:trigger s.routes[k]} :: 0 <= k < |s.routes| ==> RouteTruckOk(s.routes[k], PackagesById(s.packages), fleet)
  }

  // ----- truck records

  lemma RouteTruckEntry(routes: seq<RouteRecord>, k: nat)
    requires TrucksApart(routes) && k < |routes| && routes[k].truck.To?
    ensures routes[k].truck.id in RouteTrucks(routes) && RouteTrucks(routes)[routes[k].truck.id] == routes[k].id
  {
    var tid := routes[k].truck.id;
    var j :| 0 <= j < |routes| && routes[j].truck == To(tid) && routes[j].id == RouteTrucks(routes)[tid];
    assert j == k;
  }

  lemma {:induction false} RecordsPassIff(trucks: seq<TruckRecord>, routeTrucks: map<int, int>, fleet: set<int>)
    ensures TruckRecordsFinding(trucks, routeTrucks, fleet) == Passed
       <==> NoDup(TruckIdsIn(trucks)) && forall j :: 0 <= j < |trucks| ==> TruckFinding(trucks[j], {}, routeTrucks, fleet) == Passed
  {
    if trucks != [] {
      var n := |trucks| - 1;
      RecordsPassIff(trucks[..n], routeTrucks, fleet);
      assert TruckIdsIn(trucks) == TruckIdsIn(trucks[..n]) + [trucks[n].id];
      assert forall j :: 0 <= j < n ==> trucks[..n][j] == trucks[j];
      if trucks[n].id in SeenIds(trucks[..n]) {
        var j :| 0 <= j < n && trucks[..n][j].id == trucks[n].id;
        assert TruckIdsIn(trucks)[j] == TruckIdsIn(trucks)[n];
      } else {
        assert forall j :: 0 <= j < n ==> trucks[..n][j].id != trucks[n].id by {
          forall j | 0 <= j < n ensures trucks[..n][j].id != trucks[n].id { assert trucks[..n][j] in trucks[..n]; }
        }
      }
    }
  }

  /** One record on its own: its fields are in order and a route it names is the one its truck is assigned to. */
  lemma RecordPassesIff(s: Snapshot, fleet: set<int>, j: nat)
    requires TrucksApart(s.routes) && j < |s.trucks|
    ensures TruckFinding(s.trucks[j], {}, RouteTrucks(s.routes), fleet) == Passed
       <==> TruckRecordOk(s.trucks[j], fleet) && NamedBack(s, s.trucks[j])
  {
    var t := s.trucks[j];
    if t.route.To? && NamedBack(s, t) {
      var k :| 0 <= k < |s.routes| && s.routes[k].truck == To(t.id) && s.routes[k].id == t.route.id;
      RouteTruckEntry(s.routes, k);
    }
  }

  lemma TruckEntry(trucks: seq<TruckRecord>, j: nat)
    requires NoDup(TruckIdsIn(trucks)) && j < |trucks|
    ensures trucks[j].id in TrucksById(trucks) && TrucksById(trucks)[trucks[j].id] == trucks[j]
  {
    hide TrucksById;
    var id := trucks[j].id;
    assert TruckIdsIn(trucks)[j] == id;
    var i := IndexOf(trucks, TrucksById(trucks)[id]);
    assert TruckIdsIn(trucks)[i] == id;
  }

  lemma AgreeIff(s: Snapshot)
    requires TrucksApart(s.routes) && NoDup(TruckIdsIn(s.trucks))
    ensures AssignedTrucksAgree(RouteTrucks(s.routes), s.trucks)
       <==> forall j, k :: 0 <= j < |s.trucks| && 0 <= k < |s.routes| && s.routes[k].truck == To(s.trucks[j].id) ==>
              s.trucks[j].route == To(s.routes[k].id)
  {
    var routeTrucks := RouteTrucks(s.routes);
    forall j, k | 0 <= j < |s.trucks| && 0 <= k < |s.routes| && s.routes[k].truck == To(s.trucks[j].id)
      ensures s.trucks[j].id in routeTrucks && routeTrucks[s.trucks[j].id] == s.routes[k].id
      ensures s.trucks[j].id in TrucksById(s.trucks) && TrucksById(s.trucks)[s.trucks[j].id] == s.trucks[j]
    {
      RouteTruckEntry(s.routes, k);
      TruckEntry(s.trucks, j);
    }
    forall tid <- routeTrucks | tid in TrucksById(s.trucks)
      ensures exists j, k ::
        (&& 0 <= j < |s.trucks| && 0 <= k < |s.routes| && s.routes[k].truck == To(s.trucks[j].id)
         && s.trucks[j] == TrucksById(s.trucks)[tid] && s.routes[k].id == routeTrucks[tid] && s.trucks[j].id == tid)
    {
      var j := IndexOf(s.trucks, TrucksById(s.trucks)[tid]);
      var k :| 0 <= k < |s.routes| && s.routes[k].truck == To(tid) && s.routes[k].id == routeTrucks[tid];
    }
  }

  lemma SeenAreIds(trucks: seq<TruckRecord>)
    ensures forall id :: id in SeenIds(trucks) <==> id in TruckIdsIn(trucks)
  {
    forall id | id in TruckIdsIn(trucks) ensures id in SeenIds(trucks) {
      var j :| 0 <= j < |trucks| && TruckIdsIn(trucks)[j] == id;
      assert trucks[j] in trucks;
    }
    forall id | id in SeenIds(trucks) ensures id in TruckIdsIn(trucks) {
      var t :| t in trucks && t.id == id;
      var j :| 0 <= j < |trucks| && trucks[j] == t;
      assert TruckIdsIn(trucks)[j] == id;
    }
  }

  /** The truck checks pass exactly when trucks and routes agree. */
  lemma TrucksPassIff(s: Snapshot, fleet: set<int>)
    requires TrucksApart(s.routes)
    ensures TrucksFinding(s, fleet) == Passed <==> TrucksOk(s, fleet)
  {
    RecordsPassIff(s.trucks, RouteTrucks(s.routes), fleet);
    forall j | 0 <= j < |s.trucks|
      ensures TruckFinding(s.trucks[j], {}, RouteTrucks(s.routes), fleet) == Passed
         <==> TruckRecordOk(s.trucks[j], fleet) && NamedBack(s, s.trucks[j])
    {
      RecordPassesIff(s, fleet, j);
    }
    SeenAreIds(s.trucks);
    var missing := fleet - SeenIds(s.trucks);
    assert forall tid :: tid in missing <==> tid in fleet && tid !in TruckIdsIn(s.trucks);
    assert (forall tid :: tid !in missing) ==> missing == {};
    if NoDup(TruckIdsIn(s.trucks)) {
      AgreeIff(s);
    }
  }

  // ----- routes with trucks

  lemma {:induction false} RouteTrucksPassIff(routes: seq<RouteRecord>, packages: map<int, PackageRecord>, fleet: map<int, TruckState>)
    requires RoutesKnown(routes, packages, fleet)
    ensures RouteTrucksFinding(routes, packages, fleet) == Passed
       <==> forall k {:trigger routes[k]} :: 0 <= k < |routes| ==> RouteTruckOk(routes[k], packages, fleet)
  {
    if routes != [] {
      var n := |routes| - 1;
      assert forall k {:trigger routes[..n][k]} :: 0 <= k < n ==> routes[..n][k] == routes[k];
      RouteTrucksPassIff(routes[..n], packages, fleet);
      assert RouteTruckFinding(routes[n], packages, fleet) == Passed <==> RouteTruckOk(routes[n], packages, fleet);
      if forall k {:trigger routes[..n][k]} :: 0 <= k < n ==> RouteTruckOk(routes[..n][k], packages, fleet) {
        forall k {:trigger routes[k]} | 0 <= k < n ensures RouteTruckOk(routes[k], packages, fleet) {
          assert RouteTruckOk(routes[..n][k], packages, fleet);
        }
      }
    }
  }

  // ----- the whole

  predicate Schematic(s: Snapshot, supported: set<int>) {
    s.schemaVersion in supported && (s.schemaVersion == 1 ==> s.trucks == [])
  }

  /** A snapshot is accepted exactly when its schema is supported, it is consistent, its contacts are apart and its
      counters are ahead of its ids. */
  lemma AcceptedIffConsistent(s: Snapshot, supported: set<int>, fleet: map<int, TruckState>, rules: ContactRules)
    ensures Verdict(s, supported, fleet, rules) == Passed
       <==> Schematic(s, supported) && CountersPositive(s.counters) && CountersAbove(s) && Consistent(s, fleet) && ContactsApart(s.customers, rules)
  {
    if IdsOk(s) && ReferencesOk(s, fleet.Keys) {
      KnownRoutes(s, fleet);
      TrucksPassIff(s, fleet.Keys);
      RouteTrucksPassIff(s.routes, PackagesById(s.packages), fleet);
    }
  }
}
