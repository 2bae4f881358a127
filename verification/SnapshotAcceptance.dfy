/** Which snapshots are accepted, told record by record. */
module SnapshotAcceptance {
  import opened Common
  import opened CityMap
  import opened RoutePaths
  import opened RouteScheduling
  import opened RouteLoads
  import opened Fleet
  import opened Snapshots
  import opened SnapshotChecks
  import opened SnapshotSoundness

  // ----- the acceptable snapshot

  /** Ids are positive, distinct and below the next one to be given. */
  ghost predicate Numbered(ids: seq<int>, next: int) {
    && 1 <= next
    && (forall k :: 0 <= k < |ids| ==> 1 <= ids[k] < next)
    && (forall i, j :: 0 <= i < j < |ids| ==> ids[i] != ids[j])
  }

  /** The package belongs to a customer of the snapshot; the route it names lists it and takes it forwards. */
  ghost predicate PackagePlaced(s: Snapshot, p: PackageRecord) {
    && (exists k :: 0 <= k < |s.customers| && s.customers[k].id == p.customer)
    && (p.route.To? ==> exists k :: 0 <= k < |s.routes| && s.routes[k].id == p.route.id && Takes(s.routes[k], p))
  }

  /** The route lists the package, and its start comes before its end on the way. */
  predicate Takes(r: RouteRecord, p: PackageRecord) {
    && p.id in r.packages
    && p.start in r.locations && p.end in r.locations && IndexOf(r.locations, p.start) < IndexOf(r.locations, p.end)
  }

  /** The package has a record, and that names the route. */
  ghost predicate NamedBy(s: Snapshot, pid: int, rid: int) {
    exists k :: 0 <= k < |s.packages| && Names(s.packages[k], pid, rid)
  }

  predicate Names(p: PackageRecord, pid: int, rid: int) {
    p.id == pid && p.route == To(rid)
  }

  /** Two stops or more; every package listed once, and its record names the route. */
  ghost predicate RoutePlaced(s: Snapshot, r: RouteRecord) {
    && |r.locations| >= 2
    && (forall i, j :: 0 <= i < j < |r.packages| ==> r.packages[i] != r.packages[j])
    && (forall j :: 0 <= j < |r.packages| ==> NamedBy(s, r.packages[j], r.id))
  }

  /** What a list of packages weighs where, taken from their records. */
  ghost predicate LoadsFrom(s: Snapshot, ids: seq<int>, loads: seq<PackageLoad>) {
    && |loads| == |ids|
    && forall j :: 0 <= j < |ids| ==> WeighsThere(s, ids[j], loads[j])
  }

  ghost predicate WeighsThere(s: Snapshot, pid: int, load: PackageLoad) {
    exists k :: 0 <= k < |s.packages| && Weighs(s.packages[k], pid, load)
  }

  predicate Weighs(p: PackageRecord, pid: int, load: PackageLoad) {
    p.id == pid && load == PackageLoad(p.start, p.end, p.weight)
  }

  /** A route with a truck has a departure, a distance from stop to stop, and a fleet truck fit for its load and way. */
  ghost predicate TruckFits(s: Snapshot, r: RouteRecord, fleet: map<int, TruckState>) {
    r.truck.To? ==>
      && r.truck.id in fleet && r.departure.Some?
      && (forall i :: 0 <= i < |r.locations| - 1 ==> GetDistance(r.locations[i], r.locations[i + 1]).Ok?)
      && (|r.locations| >= 2 ==> DistanceKm(r.locations) <= fleet[r.truck.id].maxRange)
      && exists loads :: LoadsFrom(s, r.packages, loads) && MaximumLoad(r.locations, loads) <= fleet[r.truck.id].capacity as real
  }

  /** A truck record names a fleet truck in known places. It is FREE, with no runtime field set, or ON_THE_WAY on a route
      that has this truck. */
  ghost predicate TruckPlaced(s: Snapshot, t: TruckRecord, fleet: set<int>) {
    && t.id >= 1 && t.id in fleet
    && (t.location.Some? ==> !t.location.value.Unsupported?) && (t.inTransitTo.Some? ==> !t.inTransitTo.value.Unsupported?)
    && if t.route.Unlinked? then t.status == Status(FREE) && t.busyFrom.None? && t.busyUntil.None? && t.inTransitTo.None?
       else t.status == Status(ON_THE_WAY) && exists k :: 0 <= k < |s.routes| && HasTruck(s.routes[k], t.route.id, t.id)
  }

  predicate HasTruck(r: RouteRecord, rid: int, tid: int) {
    r.id == rid && r.truck == To(tid)
  }

  /** Two customers share no email and no phone once normalised, unless empty. */
  ghost predicate ContactsDiffer(customers: seq<CustomerRecord>, rules: ContactRules) {
    forall i, j :: 0 <= i < j < |customers| ==>
      var a, b := customers[i].contact, customers[j].contact;
      && (rules.emailKey(a.email) == rules.emailKey(b.email) ==> rules.emailKey(a.email) == "")
      && (rules.phoneKey(a.phone) == rules.phoneKey(b.phone) ==> rules.phoneKey(a.phone) == "")
  }

  ghost predicate Acceptable(s: Snapshot, supported: set<int>, fleet: map<int, TruckState>, rules: ContactRules) {
    && s.schemaVersion in supported
    && (s.schemaVersion == 1 ==> s.trucks == [])
    && (s.schemaVersion == 2 ==> forall tid <- fleet :: exists j :: 0 <= j < |s.trucks| && s.trucks[j].id == tid)
    && Numbered(CustomerIds(s.customers), s.counters.nextCustomerId)
    && Numbered(PackageIdsIn(s.packages), s.counters.nextPackageId)
    && Numbered(RouteIdsIn(s.routes), s.counters.nextRouteId)
    && ContactsDiffer(s.customers, rules)
    && (forall k :: 0 <= k < |s.packages| ==> PackagePlaced(s, s.packages[k]))
    && (forall k :: 0 <= k < |s.routes| ==> RoutePlaced(s, s.routes[k]) && TruckFits(s, s.routes[k], fleet))
    && (forall i, j :: 0 <= i < j < |s.routes| && s.routes[i].truck.To? ==> s.routes[i].truck != s.routes[j].truck)
    && (forall j :: 0 <= j < |s.trucks| ==> TruckPlaced(s, s.trucks[j], fleet.Keys))
    && (forall i, j :: 0 <= i < j < |s.trucks| ==> s.trucks[i].id != s.trucks[j].id)
    && (forall j, k :: 0 <= j < |s.trucks| && 0 <= k < |s.routes| && s.routes[k].truck == To(s.trucks[j].id) ==>
          s.trucks[j].route == To(s.routes[k].id))
  }

  // ----- the checks mean the same

  lemma NumberedIff(ids: seq<int>, next: int)
    ensures Numbered(ids, next) <==> 1 <= next && UniqueIds(ids) && Above(next, ids)
  {
  }

  lemma ContactsIff(customers: seq<CustomerRecord>, rules: ContactRules)
    ensures ContactsDiffer(customers, rules) <==> ContactsApart(customers, rules)
  {
    forall i, j | 0 <= i < j < |customers|
      ensures var a, b := customers[i].contact, customers[j].contact;
        (&& (rules.emailKey(a.email) == rules.emailKey(b.email) ==> rules.emailKey(a.email) == "")
         && (rules.phoneKey(a.phone) == rules.phoneKey(b.phone) ==> rules.phoneKey(a.phone) == ""))
        <==> (&& ApartKeys(rules.emailKey(a.email), rules.emailKey(b.email))
              && ApartKeys(rules.phoneKey(a.phone), rules.phoneKey(b.phone)))
    {
    }
  }

  /** What the checks of one package ask. */
  predicate PackageChecked(s: Snapshot, p: PackageRecord) {
    var routes := RoutesById(s.routes);
    && PackageRefersWell(s, p)
    && (p.route.To? ==>
          && p.route.id in routes && p.id in routes[p.route.id].packages
          && IncludesInOrder(routes[p.route.id].locations, p.start, p.end))
  }

  lemma PackageIff(s: Snapshot, p: PackageRecord)
    requires NoDup(RouteIdsIn(s.routes))
    ensures PackagePlaced(s, p) <==> PackageChecked(s, p)
  {
    hide RoutesById;
    if PackagePlaced(s, p) {
      var c :| 0 <= c < |s.customers| && s.customers[c].id == p.customer;
      assert CustomerIds(s.customers)[c] == p.customer;
      if p.route.To? {
        var k :| 0 <= k < |s.routes| && s.routes[k].id == p.route.id && Takes(s.routes[k], p);
        RecordOf(s, k);
        assert RouteIdsIn(s.routes)[k] == p.route.id;
      }
    }
    if PackageChecked(s, p) {
      var c := IndexOf(CustomerIds(s.customers), p.customer);
      assert s.customers[c].id == p.customer;
      if p.route.To? {
        var r := RoutesById(s.routes)[p.route.id];
        var k := IndexOf(s.routes, r);
        assert s.routes[k].id == p.route.id && Takes(s.routes[k], p);
      }
    }
  }

  /** What the checks of one route ask, its truck apart. */
  ghost predicate RouteChecked(s: Snapshot, r: RouteRecord) {
    var packages := PackagesById(s.packages);
    && |r.locations| >= 2 && UniqueIds(r.packages)
    && (forall j :: 0 <= j < |r.packages| ==>
          r.packages[j] in PackageIdsIn(s.packages) && r.packages[j] in packages && packages[r.packages[j]].route == To(r.id))
  }

  lemma ListedIff(s: Snapshot, pid: int, rid: int)
    requires NoDup(PackageIdsIn(s.packages))
    ensures NamedBy(s, pid, rid)
       <==> pid in PackagesById(s.packages) && PackagesById(s.packages)[pid].route == To(rid)
  {
    hide PackagesById;
    if k :| 0 <= k < |s.packages| && Names(s.packages[k], pid, rid) {
      PackageOf(s, k);
    }
    if pid in PackagesById(s.packages) && PackagesById(s.packages)[pid].route == To(rid) {
      var k := IndexOf(s.packages, PackagesById(s.packages)[pid]);
      assert Names(s.packages[k], pid, rid);
    }
  }

  lemma RouteIff(s: Snapshot, r: RouteRecord)
    requires UniqueIds(PackageIdsIn(s.packages))
    ensures RoutePlaced(s, r) <==> RouteChecked(s, r)
  {
    hide PackagesById, NamedBy;
    var packages := PackagesById(s.packages);
    forall j | 0 <= j < |r.packages|
      ensures NamedBy(s, r.packages[j], r.id) <==> r.packages[j] in packages && packages[r.packages[j]].route == To(r.id)
    {
      ListedIff(s, r.packages[j], r.id);
    }
    if RoutePlaced(s, r) {
      forall j | 0 <= j < |r.packages| ensures r.packages[j] >= 1 {
        assert r.packages[j] in packages;
        assert PackageIdsIn(s.packages)[IndexOf(PackageIdsIn(s.packages), r.packages[j])] >= 1;
      }
      assert NoDup(r.packages);
      assert RouteChecked(s, r);
    }
    if RouteChecked(s, r) {
      assert NoDup(r.packages);
      assert forall i, j :: 0 <= i < j < |r.packages| ==> r.packages[i] != r.packages[j];
      assert RoutePlaced(s, r);
    }
  }

  lemma LoadsAre(s: Snapshot, r: RouteRecord, loads: seq<PackageLoad>)
    requires NoDup(PackageIdsIn(s.packages)) && forall j :: 0 <= j < |r.packages| ==> r.packages[j] in PackagesById(s.packages)
    ensures LoadsFrom(s, r.packages, loads) <==> loads == RecordLoads(r, PackagesById(s.packages))
  {
    hide PackagesById;
    var recorded := RecordLoads(r, PackagesById(s.packages));
    forall j | 0 <= j < |r.packages| ensures WeighsThere(s, r.packages[j], recorded[j]) {
      var k := IndexOf(s.packages, PackagesById(s.packages)[r.packages[j]]);
      assert Weighs(s.packages[k], r.packages[j], recorded[j]);
    }
    assert LoadsFrom(s, r.packages, recorded);
    if LoadsFrom(s, r.packages, loads) {
      forall j | 0 <= j < |r.packages| ensures loads[j] == recorded[j] {
        var k :| 0 <= k < |s.packages| && Weighs(s.packages[k], r.packages[j], loads[j]);
        PackageOf(s, k);
      }
      assert loads == recorded;
    }
  }

  lemma TruckFitsIff(s: Snapshot, r: RouteRecord, fleet: map<int, TruckState>)
    requires NoDup(PackageIdsIn(s.packages)) && RouteChecked(s, r)
    ensures TruckFits(s, r, fleet)
       <==> (r.truck.To? ==> r.truck.id in fleet) && RouteTruckOk(r, PackagesById(s.packages), fleet)
  {
    hide PackagesById, MaximumLoad, DistanceKm, RecordLoads, LoadsFrom;
    forall loads ensures LoadsFrom(s, r.packages, loads) <==> loads == RecordLoads(r, PackagesById(s.packages)) {
      LoadsAre(s, r, loads);
    }
    forall i: nat | i + 1 < |r.locations|
      ensures LegKnown(r.locations, i) <==> GetDistance(r.locations[i], r.locations[i + 1]).Ok?
    {
    }
  }

  lemma TruckIff(s: Snapshot, t: TruckRecord, fleet: set<int>)
    ensures TruckPlaced(s, t, fleet) <==> TruckRecordOk(t, fleet) && NamedBack(s, t)
  {
    assert forall c: LocationCode :: IsValidLocation(c) <==> !c.Unsupported? by {
      SupportedIff();
    }
    forall k | 0 <= k < |s.routes| ensures HasTruck(s.routes[k], if t.route.To? then t.route.id else 0, t.id)
      <==> s.routes[k].id == (if t.route.To? then t.route.id else 0) && s.routes[k].truck == To(t.id) {}
  }

  lemma SupportedIff()
    ensures forall c: LocationCode :: IsValidLocation(c) <==> !c.Unsupported?
  {
    forall c: LocationCode ensures IsValidLocation(c) <==> !c.Unsupported? {
      assert LOCATIONS[0] == SYD && LOCATIONS[1] == MEL && LOCATIONS[2] == ADL && LOCATIONS[3] == ASP
          && LOCATIONS[4] == BRI && LOCATIONS[5] == DAR && LOCATIONS[6] == PER;
    }
  }

  /** The checks of ids, counters and contacts. */
  lemma IdsIff(s: Snapshot, rules: ContactRules)
    ensures CountersPositive(s.counters) && CountersAbove(s) && UniqueIds(CustomerIds(s.customers))
            && UniqueIds(PackageIdsIn(s.packages)) && UniqueIds(RouteIdsIn(s.routes)) && ContactsApart(s.customers, rules)
       <==> Numbered(CustomerIds(s.customers), s.counters.nextCustomerId)
            && Numbered(PackageIdsIn(s.packages), s.counters.nextPackageId)
            && Numbered(RouteIdsIn(s.routes), s.counters.nextRouteId) && ContactsDiffer(s.customers, rules)
  {
    hide UniqueIds, Above, Numbered, ContactsApart, ContactsDiffer;
    NumberedIff(CustomerIds(s.customers), s.counters.nextCustomerId);
    NumberedIff(PackageIdsIn(s.packages), s.counters.nextPackageId);
    NumberedIff(RouteIdsIn(s.routes), s.counters.nextRouteId);
    ContactsIff(s.customers, rules);
  }

  /** The checks of references between routes and packages, and of the trucks of routes. */
  lemma RecordsIff(s: Snapshot, fleet: map<int, TruckState>)
    requires UniqueIds(PackageIdsIn(s.packages)) && UniqueIds(RouteIdsIn(s.routes))
    ensures (forall k :: 0 <= k < |s.packages| ==> PackagePlaced(s, s.packages[k]))
            && (forall k :: 0 <= k < |s.routes| ==> RoutePlaced(s, s.routes[k]) && TruckFits(s, s.routes[k], fleet))
       <==> (forall k :: 0 <= k < |s.packages| ==> PackageChecked(s, s.packages[k]))
            && forall k :: 0 <= k < |s.routes| ==>
                 && RouteChecked(s, s.routes[k])
                 && (s.routes[k].truck.To? ==> s.routes[k].truck.id in fleet)
                 && RouteTruckOk(s.routes[k], PackagesById(s.packages), fleet)
  {
    hide PackagePlaced, PackageChecked, RoutePlaced, TruckFits, RouteTruckOk, PackagesById;
    forall k | 0 <= k < |s.packages| ensures PackagePlaced(s, s.packages[k]) <==> PackageChecked(s, s.packages[k]) {
      PackageIff(s, s.packages[k]);
    }
    forall k | 0 <= k < |s.routes|
      ensures RoutePlaced(s, s.routes[k]) && TruckFits(s, s.routes[k], fleet)
         <==> RouteChecked(s, s.routes[k]) && (s.routes[k].truck.To? ==> s.routes[k].truck.id in fleet)
              && RouteTruckOk(s.routes[k], PackagesById(s.packages), fleet)
    {
      RouteIff(s, s.routes[k]);
      if RouteChecked(s, s.routes[k]) { TruckFitsIff(s, s.routes[k], fleet); }
    }
  }

  /** References, links and fit are what the checks of each record ask, and that no truck is on two routes. */
  lemma ReferencesIff(s: Snapshot, fleet: map<int, TruckState>)
    requires UniqueIds(PackageIdsIn(s.packages)) && UniqueIds(RouteIdsIn(s.routes))
    ensures (forall k :: 0 <= k < |s.routes| ==> |s.routes[k].locations| >= 2 && UniqueIds(s.routes[k].packages))
            && ReferencesOk(s, fleet.Keys) && LinksAgree(s) && PackagesFit(s)
       <==> (forall k :: 0 <= k < |s.packages| ==> PackageChecked(s, s.packages[k]))
            && (forall k :: 0 <= k < |s.routes| ==>
                  RouteChecked(s, s.routes[k]) && (s.routes[k].truck.To? ==> s.routes[k].truck.id in fleet))
            && TrucksApart(s.routes)
  {
    hide PackagesById, RoutesById, IncludesInOrder, UniqueIds, TrucksApart;
  }

  lemma TrucksIff(s: Snapshot, fleet: set<int>)
    ensures TrucksOk(s, fleet)
       <==> && (forall j :: 0 <= j < |s.trucks| ==> TruckPlaced(s, s.trucks[j], fleet))
            && (forall i, j :: 0 <= i < j < |s.trucks| ==> s.trucks[i].id != s.trucks[j].id)
            && (forall j, k :: 0 <= j < |s.trucks| && 0 <= k < |s.routes| && s.routes[k].truck == To(s.trucks[j].id) ==>
                  s.trucks[j].route == To(s.routes[k].id))
            && (s.schemaVersion == 2 ==> forall tid <- fleet :: exists j :: 0 <= j < |s.trucks| && s.trucks[j].id == tid)
  {
    hide TruckPlaced, TruckRecordOk, NamedBack;
    forall j | 0 <= j < |s.trucks|
      ensures TruckPlaced(s, s.trucks[j], fleet) <==> TruckRecordOk(s.trucks[j], fleet) && NamedBack(s, s.trucks[j])
    {
      TruckIff(s, s.trucks[j], fleet);
    }
    forall tid ensures tid in TruckIdsIn(s.trucks) <==> exists j :: 0 <= j < |s.trucks| && s.trucks[j].id == tid {
      if tid in TruckIdsIn(s.trucks) {
        assert s.trucks[IndexOf(TruckIdsIn(s.trucks), tid)].id == tid;
      }
      if j :| 0 <= j < |s.trucks| && s.trucks[j].id == tid {
        assert TruckIdsIn(s.trucks)[j] == tid;
      }
    }
  }

  /** A snapshot passes the validators exactly when it is acceptable record by record. */
  lemma AcceptedIffAcceptable(s: Snapshot, supported: set<int>, fleet: map<int, TruckState>, rules: ContactRules)
    ensures Verdict(s, supported, fleet, rules) == Passed <==> Acceptable(s, supported, fleet, rules)
  {
    hide Verdict, CountersPositive, CountersAbove, UniqueIds, Numbered, ContactsApart, ContactsDiffer, PackagePlaced, RoutePlaced,
      TruckFits, TruckPlaced, TrucksOk, ReferencesOk, LinksAgree, PackagesFit, RoutesKnown, RouteTruckOk,
      PackagesById, PackageChecked;
    AcceptedIffConsistent(s, supported, fleet, rules);
    IdsIff(s, rules);
    TrucksIff(s, fleet.Keys);
    NumberedIff(PackageIdsIn(s.packages), s.counters.nextPackageId);
    NumberedIff(RouteIdsIn(s.routes), s.counters.nextRouteId);
    if UniqueIds(PackageIdsIn(s.packages)) && UniqueIds(RouteIdsIn(s.routes)) {
      RecordsIff(s, fleet);
      ReferencesIff(s, fleet);
      if IdsOk(s) && ReferencesOk(s, fleet.Keys) { KnownRoutes(s, fleet); }
    }
  }
}
