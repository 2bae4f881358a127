/** A snapshot of a well-formed world passes every check and can be rebuilt. */
module SnapshotCompleteness {
  import opened Common
  import opened CityMap
  import opened RoutePaths
  import opened RouteScheduling
  import opened RouteLoads
  import opened Fleet
  import opened UseCaseSafety
  import opened Snapshots
  import opened SnapshotChecks
  import opened SnapshotSoundness
  import opened SnapshotRestore
  import opened SnapshotLinking

  // ----- what the links do not say about a world

  ghost predicate PackageSaveable(p: PackageState) {
    IsValidLocation(p.start) && IsValidLocation(p.end) && p.start != p.end
  }

  ghost predicate TruckSaveable(t: TruckState) {
    && (t.location.Some? ==> IsValidLocation(t.location.value))
    && (t.inTransitTo.Some? ==> IsValidLocation(t.inTransitTo.value))
  }

  /** Ids are positive and below the counters, places are on the map, contacts are accepted and apart. */
  ghost predicate Saveable(w: World, c: Counters, rules: ContactRules) {
    && CountersPositive(c)
    && (forall cid <- w.customers :: 1 <= cid < c.nextCustomerId && rules.accepts(w.customers[cid].contact))
    && (forall pid <- w.packages :: 1 <= pid < c.nextPackageId && PackageSaveable(w.packages[pid]))
    && (forall rid <- w.routes :: 1 <= rid < c.nextRouteId)
    && (forall tid <- w.trucks :: 1 <= tid && TruckSaveable(w.trucks[tid]))
    && (forall a <- w.customers, b <- w.customers :: a != b ==>
          && ApartKeys(rules.emailKey(w.customers[a].contact.email), rules.emailKey(w.customers[b].contact.email))
          && ApartKeys(rules.phoneKey(w.customers[a].contact.phone), rules.phoneKey(w.customers[b].contact.phone)))
  }

  function Saved(w: World, c: Counters): Snapshot {
    BuildSnapshot(w, c, 2)
  }

  // ----- sorted lists hold what they are sorted from

  lemma AscendingApart(s: seq<int>)
    requires Ascending(s)
    ensures NoDup(s)
  {
  }

  lemma {:induction false} CountedOnce(s: seq<int>)
    requires NoDup(s)
    ensures multiset(s) == multiset(Elements(s))
  {
    if s == [] {
      assert Elements(s) == {};
    } else {
      var n := |s| - 1;
      CountedOnce(s[..n]);
      assert s == s[..n] + [s[n]];
      assert Elements(s) == Elements(s[..n]) + {s[n]};
    }
  }

  lemma SortedKeepsElements(ids: seq<int>)
    requires NoDup(ids)
    ensures multiset(Sorted(Elements(ids))) == multiset(ids) && NoDup(Sorted(Elements(ids)))
    ensures forall id :: id in Sorted(Elements(ids)) <==> id in ids
  {
    var sorted := Sorted(Elements(ids));
    AscendingApart(sorted);
    CountedOnce(ids);
    CountedOnce(sorted);
    assert Elements(sorted) == Elements(ids);
  }

  lemma SharedElement(a: seq<int>, b: seq<int>, n: nat) returns (i: nat)
    requires n < |a| && multiset(a) == multiset(b)
    ensures i < |b| && b[i] == a[n] && multiset(RemoveAt(a, n)) == multiset(RemoveAt(b, i))
  {
    assert a[n] in multiset(b);
    i := IndexOf(b, a[n]);
    Split(a, n);
    Split(b, i);
    hide RemoveAt;
    assert multiset(RemoveAt(a, n)) == multiset(a) - multiset{a[n]} == multiset(RemoveAt(b, i));
  }

  /** The loads of a list are the load of one package and those of the others. */
  lemma LoadsSplit(packages: map<int, PackageState>, ids: seq<int>, i: nat)
    requires i < |ids| && forall k :: 0 <= k < |ids| ==> ids[k] in packages
    ensures forall k :: 0 <= k < |RemoveAt(ids, i)| ==> RemoveAt(ids, i)[k] in packages
    ensures multiset(LoadsOf(packages, ids)) == multiset(LoadsOf(packages, RemoveAt(ids, i))) + multiset{LoadOf(packages[ids[i]])}
  {
    LoadsRemoveAt(packages, ids, i);
    Split(LoadsOf(packages, ids), i);
  }

  lemma {:induction false} LoadsPermute(packages: map<int, PackageState>, a: seq<int>, b: seq<int>)
    requires multiset(a) == multiset(b)
    requires (forall k :: 0 <= k < |a| ==> a[k] in packages) && (forall k :: 0 <= k < |b| ==> b[k] in packages)
    ensures multiset(LoadsOf(packages, a)) == multiset(LoadsOf(packages, b))
    decreases |a|
  {
    if a == [] {
      assert |multiset(b)| == |b|;
    } else {
      hide LoadOf, LoadsOf, RemoveAt;
      var n := |a| - 1;
      var i := SharedElement(a, b, n);
      LoadsSplit(packages, a, n);
      LoadsSplit(packages, b, i);
      LoadsPermute(packages, RemoveAt(a, n), RemoveAt(b, i));
    }
  }

  // ----- records of a saved world

  lemma SavedRoute(w: World, c: Counters, k: nat)
    requires k < |Saved(w, c).routes|
    ensures var r := Saved(w, c).routes[k]; r.id in w.routes && r == RouteRecordOf(w, r.id)
  {
  }

  lemma SavedRouteAt(w: World, c: Counters, rid: int) returns (k: nat)
    requires rid in w.routes
    ensures k < |Saved(w, c).routes| && Saved(w, c).routes[k] == RouteRecordOf(w, rid)
  {
    assert rid in RouteIdsIn(Saved(w, c).routes);
    k := IndexOf(RouteIdsIn(Saved(w, c).routes), rid);
  }

  lemma SavedPackage(w: World, c: Counters, k: nat)
    requires k < |Saved(w, c).packages|
    ensures var p := Saved(w, c).packages[k]; p.id in w.packages && p == PackageRecordOf(w, p.id)
  {
  }

  lemma SavedCustomer(w: World, c: Counters, k: nat)
    requires k < |Saved(w, c).customers|
    ensures var r := Saved(w, c).customers[k]; r.id in w.customers && r == CustomerRecordOf(w, r.id)
  {
  }

  lemma SavedTruck(w: World, c: Counters, j: nat)
    requires j < |Saved(w, c).trucks|
    ensures var t := Saved(w, c).trucks[j]; t.id in w.trucks && t == TruckRecordOf(w, t.id)
  {
  }

  /** Looking a saved record up by its id finds the entity it was made from. */
  lemma SavedRouteById(w: World, c: Counters, rid: int)
    requires rid in w.routes
    ensures rid in RoutesById(Saved(w, c).routes) && RoutesById(Saved(w, c).routes)[rid] == RouteRecordOf(w, rid)
  {
    assert rid in RouteIdsIn(Saved(w, c).routes);
    var k := IndexOf(Saved(w, c).routes, RoutesById(Saved(w, c).routes)[rid]);
    SavedRoute(w, c, k);
  }

  lemma SavedPackageById(w: World, c: Counters, pid: int)
    requires pid in w.packages
    ensures pid in PackagesById(Saved(w, c).packages) && PackagesById(Saved(w, c).packages)[pid] == PackageRecordOf(w, pid)
  {
    assert pid in PackageIdsIn(Saved(w, c).packages);
    var k := IndexOf(Saved(w, c).packages, PackagesById(Saved(w, c).packages)[pid]);
    SavedPackage(w, c, k);
  }

  lemma SavedTruckById(w: World, c: Counters, tid: int)
    ensures tid in TrucksById(Saved(w, c).trucks) <==> tid in w.trucks
    ensures tid in w.trucks ==> TrucksById(Saved(w, c).trucks)[tid] == TruckRecordOf(w, tid)
  {
    if tid in w.trucks {
      assert tid in TruckIdsIn(Saved(w, c).trucks);
      var j := IndexOf(Saved(w, c).trucks, TrucksById(Saved(w, c).trucks)[tid]);
      SavedTruck(w, c, j);
    } else {
      assert tid !in TruckIdsIn(Saved(w, c).trucks);
    }
  }

  lemma SavedIdsApart(w: World, c: Counters)
    ensures NoDup(CustomerIds(Saved(w, c).customers)) && NoDup(PackageIdsIn(Saved(w, c).packages))
    ensures NoDup(RouteIdsIn(Saved(w, c).routes)) && NoDup(TruckIdsIn(Saved(w, c).trucks))
  {
    AscendingApart(CustomerIds(Saved(w, c).customers));
    AscendingApart(PackageIdsIn(Saved(w, c).packages));
    AscendingApart(RouteIdsIn(Saved(w, c).routes));
    AscendingApart(TruckIdsIn(Saved(w, c).trucks));
  }

  // ----- ids and references

  lemma SaveableIds(w: World, c: Counters, rules: ContactRules)
    requires Saveable(w, c, rules)
    ensures Saved(w, c).counters == c && Saved(w, c).schemaVersion == 2 && CountersPositive(c)
    ensures forall cid <- w.customers :: 1 <= cid < c.nextCustomerId
    ensures forall pid <- w.packages :: 1 <= pid < c.nextPackageId
    ensures forall rid <- w.routes :: 1 <= rid < c.nextRouteId
  {
  }

  /** What a stored route keeps in a linked world. */
  lemma StoredRouteKeeps(w: World, rid: int)
    requires Linked(w) && rid in w.routes
    ensures NoDup(w.routes[rid].packages) && Closed(w)
    ensures forall j :: 0 <= j < |w.routes[rid].packages| ==> w.routes[rid].packages[j] in w.packages
  {
    assert RouteLinked(w, rid);
  }

  lemma SavedRouteIds(w: World, c: Counters, rules: ContactRules, k: nat)
    requires Linked(w) && Saveable(w, c, rules) && k < |Saved(w, c).routes|
    ensures var r := Saved(w, c).routes[k]; |r.locations| >= 2 && UniqueIds(r.packages) && RouteBuilds(r)
    ensures RouteRefersWell(Saved(w, c), w.trucks.Keys, Saved(w, c).routes[k])
  {
    SavedRoute(w, c, k);
    var r := Saved(w, c).routes[k];
    var ids := w.routes[r.id].packages;
    assert RouteLinked(w, r.id);
    assert r.truck.To? ==> r.truck.id in w.trucks;
    assert forall j :: 0 <= j < |ids| ==> ids[j] in w.packages;
    assert forall pid <- w.packages :: pid >= 1;
    assert r.id >= 1 && ValidPath(r.locations) && r.packages == Sorted(Elements(ids)) && NoDup(ids);
    hide Linked, Saved, RouteLinked, Saveable, Sorted, ValidPath;
    SortedKeepsElements(ids);
    forall j | 0 <= j < |r.packages| ensures r.packages[j] in w.packages && r.packages[j] in PackageIdsIn(Saved(w, c).packages) {
      var i := IndexOf(ids, r.packages[j]);
      SavedPackageById(w, c, ids[i]);
    }
  }

  lemma SavedPackageRefers(w: World, c: Counters, rules: ContactRules, k: nat)
    requires Linked(w) && Saveable(w, c, rules) && k < |Saved(w, c).packages|
    ensures PackageRefersWell(Saved(w, c), Saved(w, c).packages[k]) && PackageBuilds(Saved(w, c).packages[k])
    ensures Saved(w, c).packages[k].customer in CustomerIds(Saved(w, c).customers)
  {
    SavedPackage(w, c, k);
    assert PackageLinked(w, Saved(w, c).packages[k].id);
  }

  lemma SavedIdsOk(w: World, c: Counters, rules: ContactRules)
    requires Linked(w) && Saveable(w, c, rules)
    ensures IdsOk(Saved(w, c)) && CountersAbove(Saved(w, c))
  {
    var s := Saved(w, c);
    hide Saved, Linked, Saveable;
    SaveableIds(w, c, rules);
    SavedIdsApart(w, c);
    forall k | 0 <= k < |s.routes| ensures |s.routes[k].locations| >= 2 && UniqueIds(s.routes[k].packages) {
      SavedRouteIds(w, c, rules, k);
    }
    forall k | 0 <= k < |s.customers| ensures s.customers[k].id in w.customers { SavedCustomer(w, c, k); }
    forall k | 0 <= k < |s.packages| ensures s.packages[k].id in w.packages { SavedPackage(w, c, k); }
    forall k | 0 <= k < |s.routes| ensures s.routes[k].id in w.routes { SavedRoute(w, c, k); }
  }

  lemma SavedTrucksApart(w: World, c: Counters)
    requires Linked(w)
    ensures TrucksApart(Saved(w, c).routes)
  {
    var s := Saved(w, c);
    SavedIdsApart(w, c);
    forall i, j | 0 <= i < j < |s.routes| && s.routes[i].truck.To? ensures s.routes[i].truck != s.routes[j].truck {
      SavedRoute(w, c, i);
      SavedRoute(w, c, j);
      assert RouteLinked(w, s.routes[i].id) && RouteLinked(w, s.routes[j].id);
      assert RouteIdsIn(s.routes)[i] != RouteIdsIn(s.routes)[j];
    }
  }

  lemma SavedReferencesOk(w: World, c: Counters, rules: ContactRules)
    requires Linked(w) && Saveable(w, c, rules)
    ensures ReferencesOk(Saved(w, c), w.trucks.Keys)
  {
    var s := Saved(w, c);
    hide Saved, Linked, Saveable, PackageRefersWell, RouteRefersWell, TrucksApart;
    SavedTrucksApart(w, c);
    forall k | 0 <= k < |s.packages| ensures PackageRefersWell(s, s.packages[k]) { SavedPackageRefers(w, c, rules, k); }
    forall k | 0 <= k < |s.routes| ensures RouteRefersWell(s, w.trucks.Keys, s.routes[k]) { SavedRouteIds(w, c, rules, k); }
  }

  // ----- trucks

  /** What a truck keeps in a linked world. */
  lemma TruckKeeps(w: World, tid: int)
    requires Linked(w) && tid in w.trucks
    ensures var t := w.trucks[tid];
      && (t.status == FREE <==> t.route.Unlinked?)
      && (t.route.To? ==> t.route.id in w.routes && w.routes[t.route.id].truck == To(tid))
      && (t.route.Unlinked? ==> t.busyFrom.None? && t.busyUntil.None? && t.inTransitTo.None?)
  {
    assert TruckLinked(w, tid);
  }

  lemma SavedTruckOk(w: World, c: Counters, rules: ContactRules, j: nat)
    requires Linked(w) && Saveable(w, c, rules) && j < |Saved(w, c).trucks|
    ensures TruckRecordOk(Saved(w, c).trucks[j], w.trucks.Keys) && NamedBack(Saved(w, c), Saved(w, c).trucks[j])
  {
    hide Linked, Saved;
    SavedTruck(w, c, j);
    var t := Saved(w, c).trucks[j];
    TruckKeeps(w, t.id);
    if t.route.To? {
      var k := SavedRouteAt(w, c, t.route.id);
    }
  }

  lemma SavedTruckRoutes(w: World, c: Counters, j: nat, k: nat)
    requires Linked(w) && j < |Saved(w, c).trucks| && k < |Saved(w, c).routes|
    requires Saved(w, c).routes[k].truck == To(Saved(w, c).trucks[j].id)
    ensures Saved(w, c).trucks[j].route == To(Saved(w, c).routes[k].id)
  {
    SavedRoute(w, c, k);
    SavedTruck(w, c, j);
    assert RouteLinked(w, Saved(w, c).routes[k].id);
  }

  lemma EveryTruckSaved(w: World, c: Counters)
    ensures forall tid :: tid in w.trucks <==> tid in TruckIdsIn(Saved(w, c).trucks)
  {
  }

  lemma SavedTrucksOk(w: World, c: Counters, rules: ContactRules)
    requires Linked(w) && Saveable(w, c, rules)
    ensures TrucksOk(Saved(w, c), w.trucks.Keys)
  {
    hide Saved, Linked, Saveable, TruckRecordOk, NamedBack, NoDup;
    var s := Saved(w, c);
    EveryTruckSaved(w, c);
    SavedIdsApart(w, c);
    forall j | 0 <= j < |s.trucks| ensures TruckRecordOk(s.trucks[j], w.trucks.Keys) && NamedBack(s, s.trucks[j]) {
      SavedTruckOk(w, c, rules, j);
    }
    forall j, k | 0 <= j < |s.trucks| && 0 <= k < |s.routes| && s.routes[k].truck == To(s.trucks[j].id)
      ensures s.trucks[j].route == To(s.routes[k].id)
    {
      SavedTruckRoutes(w, c, j, k);
    }
  }

  // ----- routes and packages

  lemma SavedLinksAgree(w: World, c: Counters)
    requires Linked(w)
    ensures LinksAgree(Saved(w, c)) && PackagesFit(Saved(w, c))
  {
    var s := Saved(w, c);
    hide Saved, Linked, IncludesInOrder;
    forall k | 0 <= k < |s.packages| && s.packages[k].route.To?
      ensures s.packages[k].route.id in RoutesById(s.routes)
           && s.packages[k].id in RoutesById(s.routes)[s.packages[k].route.id].packages
           && IncludesInOrder(RoutesById(s.routes)[s.packages[k].route.id].locations, s.packages[k].start, s.packages[k].end)
    {
      SavedPackageAgrees(w, c, k);
    }
    forall k, j | 0 <= k < |s.routes| && 0 <= j < |s.routes[k].packages|
      ensures s.routes[k].packages[j] in PackagesById(s.packages)
           && PackagesById(s.packages)[s.routes[k].packages[j]].route == To(s.routes[k].id)
    {
      SavedRouteAgrees(w, c, k, j);
    }
  }

  lemma SavedPackageAgrees(w: World, c: Counters, k: nat)
    requires Linked(w) && k < |Saved(w, c).packages| && Saved(w, c).packages[k].route.To?
    ensures var s := Saved(w, c); var p := s.packages[k];
      && p.route.id in RoutesById(s.routes) && p.id in RoutesById(s.routes)[p.route.id].packages
      && IncludesInOrder(RoutesById(s.routes)[p.route.id].locations, p.start, p.end)
  {
    SavedPackage(w, c, k);
    var p := Saved(w, c).packages[k];
    assert PackageLinked(w, p.id);
    var rid := p.route.id;
    assert RouteLinked(w, rid);
    SavedRouteById(w, c, rid);
    SortedKeepsElements(w.routes[rid].packages);
    assert w.routes[rid].packages[IndexOf(w.routes[rid].packages, p.id)] == p.id;
    hide Saved, Linked;
  }

  lemma SavedRouteAgrees(w: World, c: Counters, k: nat, j: nat)
    requires Linked(w) && k < |Saved(w, c).routes| && j < |Saved(w, c).routes[k].packages|
    ensures var s := Saved(w, c); var pid := s.routes[k].packages[j];
      pid in PackagesById(s.packages) && PackagesById(s.packages)[pid].route == To(s.routes[k].id)
  {
    SavedRoute(w, c, k);
    var r := Saved(w, c).routes[k];
    assert RouteLinked(w, r.id);
    SortedKeepsElements(w.routes[r.id].packages);
    var pid := r.packages[j];
    assert pid in r.packages;
    var i := IndexOf(w.routes[r.id].packages, pid);
    SavedPackageById(w, c, pid);
    assert PackageLinked(w, pid);
    hide Saved, Linked;
  }

  // ----- limits

  lemma RecordedLoads(w: World, c: Counters, r: RouteRecord)
    requires forall j :: 0 <= j < |r.packages| ==> r.packages[j] in w.packages
    requires forall j :: 0 <= j < |r.packages| ==> r.packages[j] in PackagesById(Saved(w, c).packages)
    ensures RecordLoads(r, PackagesById(Saved(w, c).packages)) == LoadsOf(w.packages, r.packages)
  {
    hide Saved;
    var records := PackagesById(Saved(w, c).packages);
    forall j | 0 <= j < |r.packages| ensures RecordLoads(r, records)[j] == LoadsOf(w.packages, r.packages)[j] {
      SavedPackageById(w, c, r.packages[j]);
    }
  }

  lemma SavedLoads(w: World, c: Counters, k: nat)
    requires Linked(w) && k < |Saved(w, c).routes|
    requires forall j :: 0 <= j < |Saved(w, c).routes[k].packages| ==> Saved(w, c).routes[k].packages[j] in PackagesById(Saved(w, c).packages)
    ensures Saved(w, c).routes[k].id in w.routes
    ensures MaximumLoad(Saved(w, c).routes[k].locations, RecordLoads(Saved(w, c).routes[k], PackagesById(Saved(w, c).packages)))
         == MaximumLoad(w.routes[Saved(w, c).routes[k].id].path, LoadsOn(w, Saved(w, c).routes[k].id))
  {
    hide Saved, Linked, MaximumLoad, Sorted, Closed, NoDup, LoadsOf, RecordLoads;
    SavedRoute(w, c, k);
    var r := Saved(w, c).routes[k];
    var ids := w.routes[r.id].packages;
    StoredRouteKeeps(w, r.id);
    SortedKeepsElements(ids);
    forall j | 0 <= j < |r.packages| ensures r.packages[j] in w.packages {
      var i := IndexOf(ids, r.packages[j]);
    }
    RecordedLoads(w, c, r);
    LoadsPermute(w.packages, r.packages, ids);
    MaximumLoadIgnoresOrder(r.locations, LoadsOf(w.packages, r.packages), LoadsOf(w.packages, ids));
  }

  /** What a served route keeps in a linked, safe world. */
  lemma ServedRouteKeeps(w: World, rid: int)
    requires Linked(w) && Safe(w) && rid in w.routes && w.routes[rid].truck.To?
    ensures Closed(w) && ValidPath(w.routes[rid].path) && w.routes[rid].schedule.Some? && w.routes[rid].truck.id in w.trucks
    ensures MaximumLoad(w.routes[rid].path, LoadsOn(w, rid)) <= w.trucks[w.routes[rid].truck.id].capacity as real
    ensures DistanceKm(w.routes[rid].path) <= w.trucks[w.routes[rid].truck.id].maxRange
  {
    assert RouteLinked(w, rid) && WithinLimits(w, rid);
  }

  lemma SavedRouteTruckOk(w: World, c: Counters, k: nat)
    requires Linked(w) && Safe(w) && k < |Saved(w, c).routes| && RoutesKnown(Saved(w, c).routes, PackagesById(Saved(w, c).packages), w.trucks)
    ensures RouteTruckOk(Saved(w, c).routes[k], PackagesById(Saved(w, c).packages), w.trucks)
  {
    hide Saved, Linked, Safe, MaximumLoad, DistanceKm, LoadsOn, RecordLoads, ScheduleOf;
    SavedRoute(w, c, k);
    var r := Saved(w, c).routes[k];
    if r.truck.To? {
      ServedRouteKeeps(w, r.id);
      SavedLoads(w, c, k);
      SchedulingIsTotal(r.locations, 0);
    }
  }

  // ----- the whole

  lemma SavedContactsApart(w: World, c: Counters, rules: ContactRules)
    requires Saveable(w, c, rules)
    ensures ContactsApart(Saved(w, c).customers, rules)
    ensures forall k :: 0 <= k < |Saved(w, c).customers| ==> CustomerBuilds(Saved(w, c).customers[k], rules)
  {
    hide Saved;
    var customers := Saved(w, c).customers;
    SavedIdsApart(w, c);
    forall k | 0 <= k < |customers| ensures CustomerBuilds(customers[k], rules) {
      SavedCustomer(w, c, k);
    }
    forall i, j | 0 <= i < j < |customers|
      ensures ApartKeys(rules.emailKey(customers[i].contact.email), rules.emailKey(customers[j].contact.email))
           && ApartKeys(rules.phoneKey(customers[i].contact.phone), rules.phoneKey(customers[j].contact.phone))
    {
      SavedCustomer(w, c, i);
      SavedCustomer(w, c, j);
      assert CustomerIds(customers)[i] != CustomerIds(customers)[j];
    }
  }

  lemma RoutesTrucksOk(w: World, c: Counters)
    requires Linked(w) && Safe(w) && RoutesKnown(Saved(w, c).routes, PackagesById(Saved(w, c).packages), w.trucks)
    ensures forall k {:trigger Saved(w, c).routes[k]} :: 0 <= k < |Saved(w, c).routes| ==>
      RouteTruckOk(Saved(w, c).routes[k], PackagesById(Saved(w, c).packages), w.trucks)
  {
    hide Saved, Linked, Safe, RouteTruckOk;
    forall k {:trigger Saved(w, c).routes[k]} | 0 <= k < |Saved(w, c).routes|
      ensures RouteTruckOk(Saved(w, c).routes[k], PackagesById(Saved(w, c).packages), w.trucks)
    {
      SavedRouteTruckOk(w, c, k);
    }
  }

  /** Saving loses nothing the checks need: the snapshot of any well-formed world whose ids, places, contacts and
      counters are in order is accepted, and every record of it can be rebuilt. */
  lemma SavedWorldIsAccepted(w: World, c: Counters, supported: set<int>, rules: ContactRules)
    requires WellFormed(w) && Saveable(w, c, rules) && 2 in supported
    ensures Verdict(Saved(w, c), supported, w.trucks, rules) == Passed
    ensures RebuildFinding(Saved(w, c), rules) == Passed
    ensures Restorable(Saved(w, c), w.trucks, rules)
  {
    var s := Saved(w, c);
    hide Saved, Saveable, IdsOk, ReferencesOk, TrucksOk, LinksAgree, PackagesFit, RoutesKnown, RouteTruckOk, Linked,
         Safe,
         RouteBuilds, PackageBuilds, CustomerBuilds, ContactsApart, CountersAbove, CountersPositive, Verdict,
         RebuildFinding;
    SaveableIds(w, c, rules);
    SavedIdsOk(w, c, rules);
    SavedReferencesOk(w, c, rules);
    SavedTrucksOk(w, c, rules);
    SavedLinksAgree(w, c);
    KnownRoutes(s, w.trucks);
    RoutesTrucksOk(w, c);
    SavedContactsApart(w, c, rules);
    forall k | 0 <= k < |s.packages| ensures PackageBuilds(s.packages[k]) && s.packages[k].customer in CustomerIds(s.customers) {
      SavedPackageRefers(w, c, rules, k);
    }
    forall k | 0 <= k < |s.routes| ensures RouteBuilds(s.routes[k]) {
      SavedRouteIds(w, c, rules, k);
    }
    AcceptedIffConsistent(s, supported, w.trucks, rules);
    RebuildsIffBuildable(s, rules);
  }
}
