/** An accepted snapshot restores a world whose links and limits hold. */
module RestoredWorlds {
  import opened Common
  import opened RoutePaths
  import opened RouteLoads
  import opened Fleet
  import opened Snapshots
  import opened SnapshotChecks
  import opened SnapshotSoundness
  import opened SnapshotRestore
  import opened SnapshotLinking

  // ----- records behind the entities

  lemma RouteIndex(s: Snapshot, rid: int) returns (k: nat)
    requires rid in RoutesById(s.routes)
    ensures k < |s.routes| && s.routes[k] == RoutesById(s.routes)[rid] && s.routes[k].id == rid
  {
    k := IndexOf(s.routes, RoutesById(s.routes)[rid]);
  }

  lemma PackageIndex(s: Snapshot, pid: int) returns (k: nat)
    requires pid in PackagesById(s.packages)
    ensures k < |s.packages| && s.packages[k] == PackagesById(s.packages)[pid] && s.packages[k].id == pid
  {
    k := IndexOf(s.packages, PackagesById(s.packages)[pid]);
  }

  lemma {:induction false} CustomerLists(packages: seq<PackageRecord>, cid: int)
    requires NoDup(PackageIdsIn(packages))
    ensures NoDup(PackagesOfCustomer(packages, cid))
    ensures forall pid :: pid in PackagesOfCustomer(packages, cid) <==>
      exists k :: 0 <= k < |packages| && packages[k].id == pid && packages[k].customer == cid
  {
    if packages != [] {
      var n := |packages| - 1;
      var fewer := packages[..n];
      assert PackageIdsIn(fewer) == PackageIdsIn(packages)[..n];
      forall k | 0 <= k < n ensures fewer[k].id != packages[n].id {
        assert PackageIdsIn(packages)[k] != PackageIdsIn(packages)[n];
      }
      CustomerLists(fewer, cid);
      assert packages[n].id !in PackagesOfCustomer(fewer, cid);
    }
  }

  // ----- the entities of the restored world

  lemma RestoredRoute(s: Snapshot, fleet: map<int, TruckState>, rid: int)
    requires Traceable(s, fleet)
    ensures rid in LinkedWorld(s, fleet).routes <==> rid in RoutesById(s.routes)
    ensures rid in RoutesById(s.routes) ==> LinkedWorld(s, fleet).routes[rid] == LinkedRoute(RoutesById(s.routes)[rid])
  {
    hide LinkedRoute, LinkedPackage, LinkedTruck, PackagesOfCustomer;
  }

  lemma RestoredPackage(s: Snapshot, fleet: map<int, TruckState>, pid: int)
    requires Traceable(s, fleet)
    ensures pid in LinkedWorld(s, fleet).packages <==> pid in PackagesById(s.packages)
    ensures pid in PackagesById(s.packages) ==> LinkedWorld(s, fleet).packages[pid] == LinkedPackage(s, PackagesById(s.packages)[pid])
    ensures pid in PackagesById(s.packages) ==> LinkedWorld(s, fleet).packages[pid].customer == PackagesById(s.packages)[pid].customer
  {
    hide LinkedRoute, LinkedTruck, PackagesOfCustomer;
  }

  lemma RestoredTruck(s: Snapshot, fleet: map<int, TruckState>, tid: int)
    requires Traceable(s, fleet)
    ensures tid in LinkedWorld(s, fleet).trucks <==> tid in TrucksById(s.trucks) || tid in RouteTrucks(s.routes)
    ensures tid in LinkedWorld(s, fleet).trucks ==> LinkedWorld(s, fleet).trucks[tid] == LinkedTruck(s, fleet, tid)
  {
    hide LinkedRoute, LinkedPackage, LinkedTruck, PackagesOfCustomer;
  }

  lemma RestoredCustomer(s: Snapshot, fleet: map<int, TruckState>, cid: int)
    requires Traceable(s, fleet)
    ensures cid in LinkedWorld(s, fleet).customers <==> cid in CustomersById(s.customers)
    ensures cid in CustomersById(s.customers) ==> LinkedWorld(s, fleet).customers[cid].packages == PackagesOfCustomer(s.packages, cid)
  {
    hide LinkedRoute, LinkedPackage, LinkedTruck, PackagesOfCustomer;
  }

  // ----- what consistency says of one record

  lemma RouteRecordFacts(s: Snapshot, fleet: map<int, TruckState>, k: nat)
    requires Consistent(s, fleet) && k < |s.routes|
    ensures |s.routes[k].locations| >= 2 && UniqueIds(s.routes[k].packages) && RouteRefersWell(s, fleet.Keys, s.routes[k])
    ensures TrucksApart(s.routes) && NoDup(RouteIdsIn(s.routes)) && NoDup(PackageIdsIn(s.packages)) && NoDup(TruckIdsIn(s.trucks))
    ensures forall j :: 0 <= j < |s.routes[k].packages| ==> s.routes[k].packages[j] in PackagesById(s.packages)
    ensures s.routes[k].truck.To? ==> s.routes[k].truck.id in fleet
    ensures RouteTruckOk(s.routes[k], PackagesById(s.packages), fleet)
  {
    assert RouteTruckOk(s.routes[k], PackagesById(s.packages), fleet);
  }

  lemma PackageRecordFacts(s: Snapshot, fleet: map<int, TruckState>, k: nat)
    requires Consistent(s, fleet) && k < |s.packages|
    ensures PackageRefersWell(s, s.packages[k]) && NoDup(PackageIdsIn(s.packages))
    ensures s.packages[k].route.To? ==>
      && s.packages[k].route.id in RoutesById(s.routes)
      && IncludesInOrder(RoutesById(s.routes)[s.packages[k].route.id].locations, s.packages[k].start, s.packages[k].end)
  {
  }

  lemma TruckRecordFacts(s: Snapshot, fleet: map<int, TruckState>, j: nat)
    requires Consistent(s, fleet) && j < |s.trucks|
    ensures TruckRecordOk(s.trucks[j], fleet.Keys) && NamedBack(s, s.trucks[j])
  {
  }

  lemma BuildableRecord(s: Snapshot, rules: ContactRules, k: nat)
    requires Buildable(s, rules) && k < |s.packages|
    ensures PackageBuilds(s.packages[k])
  {
  }

  // ----- closed

  lemma RouteRefersInside(s: Snapshot, fleet: map<int, TruckState>, rid: int)
    requires Consistent(s, fleet) && Traceable(s, fleet) && rid in LinkedWorld(s, fleet).routes
    ensures var w := LinkedWorld(s, fleet);
      && Shaped(w.routes[rid]) && (w.routes[rid].truck.To? ==> w.routes[rid].truck.id in w.trucks)
      && forall k :: 0 <= k < |w.routes[rid].packages| ==> w.routes[rid].packages[k] in w.packages
  {
    RestoredRoute(s, fleet, rid);
    var k := RouteIndex(s, rid);
    assert RouteRefersWell(s, fleet.Keys, s.routes[k]);
    if s.routes[k].truck.To? {
      RouteTruckEntry(s.routes, k);
      RestoredTruck(s, fleet, s.routes[k].truck.id);
    }
    forall j | 0 <= j < |s.routes[k].packages| ensures s.routes[k].packages[j] in LinkedWorld(s, fleet).packages {
      RestoredPackage(s, fleet, s.routes[k].packages[j]);
    }
    hide Consistent, LinkedWorld;
  }

  lemma PackageRefersInside(s: Snapshot, fleet: map<int, TruckState>, pid: int)
    requires Consistent(s, fleet) && Traceable(s, fleet) && pid in LinkedWorld(s, fleet).packages
    ensures var w := LinkedWorld(s, fleet);
      w.packages[pid].customer in w.customers && (w.packages[pid].route.To? ==> w.packages[pid].route.id in w.routes)
  {
    RestoredPackage(s, fleet, pid);
    var k := PackageIndex(s, pid);
    var p := s.packages[k];
    assert PackageRefersWell(s, p);
    RestoredCustomer(s, fleet, p.customer);
    if p.route.To? {
      RestoredRoute(s, fleet, p.route.id);
    }
    hide Consistent, LinkedWorld;
  }

  lemma TruckRefersInside(s: Snapshot, fleet: map<int, TruckState>, tid: int)
    requires Traceable(s, fleet) && tid in LinkedWorld(s, fleet).trucks
    ensures var w := LinkedWorld(s, fleet); w.trucks[tid].route.To? ==> w.trucks[tid].route.id in w.routes
  {
    RestoredTruck(s, fleet, tid);
    if tid in RouteTrucks(s.routes) {
      RestoredRoute(s, fleet, RouteTrucks(s.routes)[tid]);
    }
    hide LinkedWorld;
  }

  lemma RestoredIsClosed(s: Snapshot, fleet: map<int, TruckState>)
    requires Consistent(s, fleet) && Traceable(s, fleet)
    ensures Closed(LinkedWorld(s, fleet))
  {
    var w := LinkedWorld(s, fleet);
    forall rid | rid in w.routes
      ensures Shaped(w.routes[rid]) && (w.routes[rid].truck.To? ==> w.routes[rid].truck.id in w.trucks)
           && forall k :: 0 <= k < |w.routes[rid].packages| ==> w.routes[rid].packages[k] in w.packages
    {
      RouteRefersInside(s, fleet, rid);
    }
    forall pid | pid in w.packages
      ensures w.packages[pid].customer in w.customers && (w.packages[pid].route.To? ==> w.packages[pid].route.id in w.routes)
    {
      PackageRefersInside(s, fleet, pid);
    }
    forall tid | tid in w.trucks ensures w.trucks[tid].route.To? ==> w.trucks[tid].route.id in w.routes {
      TruckRefersInside(s, fleet, tid);
    }
    hide Consistent, LinkedWorld, Traceable, Shaped;
  }

  // ----- links

  /** Every truck a route names stands somewhere. */
  ghost predicate TrucksLocated(s: Snapshot) {
    forall k, j :: 0 <= k < |s.routes| && 0 <= j < |s.trucks| && s.routes[k].truck == To(s.trucks[j].id) ==> s.trucks[j].location.Some?
  }

  lemma RestoredPackageLinked(s: Snapshot, fleet: map<int, TruckState>, rules: ContactRules, pid: int)
    requires Restorable(s, fleet, rules) && Traceable(s, fleet) && Closed(LinkedWorld(s, fleet)) && pid in LinkedWorld(s, fleet).packages
    ensures PackageLinked(LinkedWorld(s, fleet), pid)
  {
    hide Consistent, Buildable, LinkedWorld, Closed, Traceable;
    RestoredPackage(s, fleet, pid);
    var k := PackageIndex(s, pid);
    var p := s.packages[k];
    BuildableRecord(s, rules, k);
    PackageRecordFacts(s, fleet, k);
    RestoredCustomer(s, fleet, p.customer);
    CustomerLists(s.packages, p.customer);
    if p.route.To? {
      var i := RouteIndex(s, p.route.id);
      ListedIffNamed(s, fleet, i, pid);
      RestoredRoute(s, fleet, p.route.id);
    }
  }

  lemma RestoredTruckLinked(s: Snapshot, fleet: map<int, TruckState>, tid: int)
    requires Consistent(s, fleet) && Traceable(s, fleet) && Closed(LinkedWorld(s, fleet)) && tid in LinkedWorld(s, fleet).trucks
    ensures TruckLinked(LinkedWorld(s, fleet), tid)
  {
    hide Consistent, LinkedWorld, Closed, Traceable, RebuiltRoute, CandidateFor;
    RestoredTruck(s, fleet, tid);
    if tid in RouteTrucks(s.routes) {
      var k :| 0 <= k < |s.routes| && s.routes[k].truck == To(tid) && s.routes[k].id == RouteTrucks(s.routes)[tid];
      RouteRecordFacts(s, fleet, k);
      RecordOf(s, k);
      RestoredRoute(s, fleet, s.routes[k].id);
    } else {
      var j := IndexOf(s.trucks, TrucksById(s.trucks)[tid]);
      TruckRecordFacts(s, fleet, j);
    }
  }

  lemma ListedByCustomer(s: Snapshot, fleet: map<int, TruckState>, cid: int, pid: int)
    requires Consistent(s, fleet) && Traceable(s, fleet) && pid in PackagesOfCustomer(s.packages, cid)
    ensures pid in LinkedWorld(s, fleet).packages && LinkedWorld(s, fleet).packages[pid].customer == cid
  {
    CustomerLists(s.packages, cid);
    var k :| 0 <= k < |s.packages| && s.packages[k].id == pid && s.packages[k].customer == cid;
    PackageOf(s, k);
    RestoredPackage(s, fleet, pid);
    hide Consistent, LinkedWorld, Traceable, PackagesOfCustomer, LinkedPackage;
  }

  lemma RestoredCustomerLinked(s: Snapshot, fleet: map<int, TruckState>, cid: int)
    requires Consistent(s, fleet) && Traceable(s, fleet) && cid in LinkedWorld(s, fleet).customers
    ensures CustomerLinked(LinkedWorld(s, fleet), cid)
  {
    RestoredCustomer(s, fleet, cid);
    CustomerLists(s.packages, cid);
    var w, ids := LinkedWorld(s, fleet), PackagesOfCustomer(s.packages, cid);
    hide Consistent, LinkedWorld, Traceable, PackagesOfCustomer, LinkedPackage;
    forall i | 0 <= i < |ids| ensures ids[i] in w.packages && w.packages[ids[i]].customer == cid {
      assert ids[i] in ids;
      ListedByCustomer(s, fleet, cid, ids[i]);
    }
  }

  /** The truck of a restored route, all but its place. */
  lemma RestoredRouteTruck(s: Snapshot, fleet: map<int, TruckState>, k: nat)
    requires Consistent(s, fleet) && Traceable(s, fleet) && Closed(LinkedWorld(s, fleet)) && k < |s.routes| && s.routes[k].truck.To?
    ensures s.routes[k].id in LinkedWorld(s, fleet).routes
    ensures var w := LinkedWorld(s, fleet); var r := w.routes[s.routes[k].id]; var t := w.trucks[s.routes[k].truck.id];
      && r.truck == s.routes[k].truck
      && t.route == To(s.routes[k].id) && r.schedule.Some? && t.busyFrom == Departure(r) && t.busyUntil == Eta(r)
      && t.capacity == fleet[s.routes[k].truck.id].capacity && t.maxRange == fleet[s.routes[k].truck.id].maxRange
      && (t.location.None? <==> s.routes[k].truck.id in TrucksById(s.trucks) && TrucksById(s.trucks)[s.routes[k].truck.id].location.None?)
  {
    hide Consistent, LinkedWorld, Closed, Traceable, MaximumLoad, DistanceKm, RecordLoads;
    RouteRecordFacts(s, fleet, k);
    RecordOf(s, k);
    RouteTruckEntry(s.routes, k);
    RestoredRoute(s, fleet, s.routes[k].id);
    RestoredTruck(s, fleet, s.routes[k].truck.id);
  }

  lemma LocatedIff(s: Snapshot, fleet: map<int, TruckState>)
    requires Consistent(s, fleet) && Traceable(s, fleet) && Closed(LinkedWorld(s, fleet))
    ensures TrucksLocated(s) <==> forall rid <- LinkedWorld(s, fleet).routes ::
      LinkedWorld(s, fleet).routes[rid].truck.To? ==> LinkedWorld(s, fleet).trucks[LinkedWorld(s, fleet).routes[rid].truck.id].location.Some?
  {
    var w := LinkedWorld(s, fleet);
    assert NoDup(TruckIdsIn(s.trucks));
    forall k, j | 0 <= k < |s.routes| && 0 <= j < |s.trucks| && s.routes[k].truck == To(s.trucks[j].id)
      ensures s.routes[k].id in w.routes && w.routes[s.routes[k].id].truck == s.routes[k].truck
      ensures s.trucks[j].location.Some? <==> w.trucks[s.routes[k].truck.id].location.Some?
    {
      RestoredRouteTruck(s, fleet, k);
      TruckEntry(s.trucks, j);
    }
    if TrucksLocated(s) {
      forall rid <- w.routes | w.routes[rid].truck.To? ensures w.trucks[w.routes[rid].truck.id].location.Some? {
        var k := RouteIndex(s, rid);
        RestoredRouteTruck(s, fleet, k);
        if w.routes[rid].truck.id in TrucksById(s.trucks) {
          var j := IndexOf(s.trucks, TrucksById(s.trucks)[w.routes[rid].truck.id]);
          assert s.routes[k].truck == To(s.trucks[j].id);
        }
      }
    }
    hide Consistent, LinkedWorld, Closed;
  }

  /** The world with one route stripped of its truck. */
  function Truckless(w: World, rid: int): (v: World)
    requires Closed(w) && rid in w.routes
    ensures Closed(v)
  {
    w.(routes := w.routes[rid := w.routes[rid].(truck := Unlinked)])
  }

  /** A restored route is linked to its packages and follows its plan, whatever is known of its truck. */
  lemma RestoredTruckless(s: Snapshot, fleet: map<int, TruckState>, rules: ContactRules, rid: int)
    requires Restorable(s, fleet, rules) && Traceable(s, fleet) && Closed(LinkedWorld(s, fleet))
    requires rid in LinkedWorld(s, fleet).routes
    ensures RouteLinked(Truckless(LinkedWorld(s, fleet), rid), rid)
  {
    hide Consistent, Buildable, LinkedWorld, Closed, Traceable, Sound, IncludesInOrder, MaximumLoad, DistanceKm,
         RecordLoads, RouteTruckOk;
    var w := LinkedWorld(s, fleet);
    RestoredRoute(s, fleet, rid);
    var k := RouteIndex(s, rid);
    var r := s.routes[k];
    RouteRecordFacts(s, fleet, k);
    RebuiltRouteIsSound(s, rules, rid);
    SoundWithPackages(RebuiltRoute(r), Unlinked, r.packages);
    forall j | 0 <= j < |r.packages|
      ensures r.packages[j] in w.packages && w.packages[r.packages[j]].route == To(rid)
           && IncludesInOrder(r.locations, w.packages[r.packages[j]].start, w.packages[r.packages[j]].end)
    {
      RestoredCargo(s, fleet, k, j);
    }
    assert w.routes[rid] == LinkedRoute(r) && (w.routes[rid].status == PLANNED <==> w.routes[rid].schedule.None?);
  }

  /** A route is linked when it is without its truck and its truck agrees with it. */
  lemma WithItsTruck(w: World, rid: int)
    requires Closed(w) && rid in w.routes && RouteLinked(Truckless(w, rid), rid)
    requires w.routes[rid].truck.To? ==>
      var r, t := w.routes[rid], w.trucks[w.routes[rid].truck.id];
      t.route == To(rid) && r.schedule.Some? && t.busyFrom == Departure(r) && t.busyUntil == Eta(r)
    ensures RouteLinked(w, rid) <==> w.routes[rid].truck.To? ==> w.trucks[w.routes[rid].truck.id].location.Some?
  {
    SoundWithPackages(Truckless(w, rid).routes[rid], w.routes[rid].truck, w.routes[rid].packages);
  }

  lemma RestoredRouteLinked(s: Snapshot, fleet: map<int, TruckState>, rules: ContactRules, rid: int)
    requires Restorable(s, fleet, rules) && Traceable(s, fleet) && Closed(LinkedWorld(s, fleet)) && rid in LinkedWorld(s, fleet).routes
    ensures var w := LinkedWorld(s, fleet);
      RouteLinked(w, rid) <==> w.routes[rid].truck.To? ==> w.trucks[w.routes[rid].truck.id].location.Some?
  {
    hide Consistent, Buildable, LinkedWorld, Closed, Traceable, RouteLinked, LinkedRoute, Truckless;
    RestoredTruckless(s, fleet, rules, rid);
    RestoredRoute(s, fleet, rid);
    var k := RouteIndex(s, rid);
    if LinkedWorld(s, fleet).routes[rid].truck.To? {
      RestoredTruckOf(s, fleet, rid, k);
    }
    WithItsTruck(LinkedWorld(s, fleet), rid);
  }

  lemma RestoredTruckOf(s: Snapshot, fleet: map<int, TruckState>, rid: int, k: nat)
    requires Consistent(s, fleet) && Traceable(s, fleet) && Closed(LinkedWorld(s, fleet)) && k < |s.routes|
    requires s.routes[k].id == rid && rid in LinkedWorld(s, fleet).routes
    ensures var w := LinkedWorld(s, fleet); var r := w.routes[rid];
      r.truck.To? ==>
        var t := w.trucks[r.truck.id];
        t.route == To(rid) && r.schedule.Some? && t.busyFrom == Departure(r) && t.busyUntil == Eta(r)
  {
    hide LinkedWorld, Closed, Traceable;
    RouteRecordFacts(s, fleet, k);
    RecordOf(s, k);
    RestoredRoute(s, fleet, rid);
    hide Consistent;
    if s.routes[k].truck.To? {
      RestoredRouteTruck(s, fleet, k);
    }
  }

  lemma SoundWithPackages(r: RouteState, truck: Link, ids: seq<int>)
    requires Sound(r) && NoDup(ids)
    ensures Sound(r.(truck := truck, packages := ids))
  {
  }

  lemma RestoredCargo(s: Snapshot, fleet: map<int, TruckState>, k: nat, j: nat)
    requires Consistent(s, fleet) && Traceable(s, fleet) && k < |s.routes| && j < |s.routes[k].packages|
    ensures var w := LinkedWorld(s, fleet); var pid := s.routes[k].packages[j];
      && pid in w.packages && w.packages[pid].route == To(s.routes[k].id)
      && IncludesInOrder(s.routes[k].locations, w.packages[pid].start, w.packages[pid].end)
      && LoadOf(w.packages[pid]) == RecordLoads(s.routes[k], PackagesById(s.packages))[j]
  {
    hide Consistent, LinkedWorld, Traceable;
    RouteRecordFacts(s, fleet, k);
    var pid := s.routes[k].packages[j];
    var i := PackageIndex(s, pid);
    PackageRecordFacts(s, fleet, i);
    ListedIffNamed(s, fleet, k, pid);
    RecordOf(s, k);
    RestoredPackage(s, fleet, pid);
  }

  // ----- limits

  lemma RestoredLoads(s: Snapshot, fleet: map<int, TruckState>, k: nat)
    requires Consistent(s, fleet) && Traceable(s, fleet) && Closed(LinkedWorld(s, fleet)) && k < |s.routes|
    ensures s.routes[k].id in LinkedWorld(s, fleet).routes
    ensures forall j :: 0 <= j < |s.routes[k].packages| ==> s.routes[k].packages[j] in PackagesById(s.packages)
    ensures LoadsOn(LinkedWorld(s, fleet), s.routes[k].id) == RecordLoads(s.routes[k], PackagesById(s.packages))
  {
    var w, r := LinkedWorld(s, fleet), s.routes[k];
    RecordOf(s, k);
    RestoredRoute(s, fleet, r.id);
    assert RouteRefersWell(s, fleet.Keys, r);
    hide Consistent, LinkedWorld, Traceable;
    assert w.routes[r.id].packages == r.packages;
    forall j | 0 <= j < |r.packages| ensures LoadsOn(w, r.id)[j] == RecordLoads(r, PackagesById(s.packages))[j] {
      RestoredCargo(s, fleet, k, j);
    }
  }

  lemma RestoredWithinLimits(s: Snapshot, fleet: map<int, TruckState>, rid: int)
    requires Consistent(s, fleet) && Traceable(s, fleet) && Closed(LinkedWorld(s, fleet)) && rid in LinkedWorld(s, fleet).routes
    ensures WithinLimits(LinkedWorld(s, fleet), rid)
  {
    hide Consistent, LinkedWorld, Closed, Traceable, MaximumLoad, DistanceKm, LoadsOn, RecordLoads;
    RestoredRoute(s, fleet, rid);
    var k := RouteIndex(s, rid);
    RestoredLoads(s, fleet, k);
    RouteRecordFacts(s, fleet, k);
    if s.routes[k].truck.To? {
      RestoredRouteTruck(s, fleet, k);
    }
  }

  // ----- the whole

  lemma RestoredDerived(s: Snapshot, fleet: map<int, TruckState>, rid: int)
    requires Traceable(s, fleet) && rid in LinkedWorld(s, fleet).routes
    ensures Derived(LinkedWorld(s, fleet).routes[rid])
  {
    RestoredRoute(s, fleet, rid);
  }

  lemma TrucksInside(w: World)
    requires Closed(w)
    ensures forall rid <- w.routes :: w.routes[rid].truck.To? ==> w.routes[rid].truck.id in w.trucks
  {
  }

  /** Every accepted snapshot that can be rebuilt restores a world with no dangling reference, within every truck's
      limits, with each package on exactly the route it names and each truck and route naming each other. The one
      link condition the validators do not check is that an assigned truck stands somewhere: the world is fully
      linked exactly when the snapshot says where each assigned truck is. */
  lemma RestoredWorldIsSafe(s: Snapshot, fleet: map<int, TruckState>, rules: ContactRules)
    requires Restorable(s, fleet, rules)
    ensures Traceable(s, fleet) && Closed(LinkedWorld(s, fleet)) && Safe(LinkedWorld(s, fleet)) && AllDerived(LinkedWorld(s, fleet))
    ensures forall pid {:trigger PackageLinked(LinkedWorld(s, fleet), pid)} :: pid in LinkedWorld(s, fleet).packages ==>
      PackageLinked(LinkedWorld(s, fleet), pid)
    ensures forall tid {:trigger TruckLinked(LinkedWorld(s, fleet), tid)} :: tid in LinkedWorld(s, fleet).trucks ==>
      TruckLinked(LinkedWorld(s, fleet), tid)
    ensures Linked(LinkedWorld(s, fleet)) <==> TrucksLocated(s)
  {
    hide Consistent, Buildable, LinkedWorld, Closed, RouteLinked, PackageLinked, TruckLinked, CustomerLinked,
         WithinLimits, Derived, TrucksLocated,
         Traceable;
    ConsistentIsTraceable(s, fleet);
    RestoredIsClosed(s, fleet);
    var w := LinkedWorld(s, fleet);
    LocatedIff(s, fleet);
    TrucksInside(w);
    forall rid | rid in w.routes
      ensures WithinLimits(w, rid) && Derived(w.routes[rid])
      ensures RouteLinked(w, rid) <==> w.routes[rid].truck.To? ==> w.trucks[w.routes[rid].truck.id].location.Some?
    {
      RestoredWithinLimits(s, fleet, rid);
      RestoredRouteLinked(s, fleet, rules, rid);
      RestoredDerived(s, fleet, rid);
    }
    forall pid | pid in w.packages ensures PackageLinked(w, pid) { RestoredPackageLinked(s, fleet, rules, pid); }
    forall tid | tid in w.trucks ensures TruckLinked(w, tid) { RestoredTruckLinked(s, fleet, tid); }
    forall cid | cid in w.customers ensures CustomerLinked(w, cid) { RestoredCustomerLinked(s, fleet, cid); }
  }
}
