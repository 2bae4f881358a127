/** What linking arrives at: every reference of a consistent snapshot restored at once. */
module SnapshotLinking {
  import opened Common
  import opened CityMap
  import opened RouteScheduling
  import opened Fleet
  import opened Snapshots
  import opened SnapshotChecks
  import opened SnapshotSoundness
  import opened SnapshotRestore
  import opened UseCaseSteps

  /** A consistent snapshot whose records entities can be built from. */
  ghost predicate Restorable(s: Snapshot, fleet: map<int, TruckState>, rules: ContactRules) {
    Consistent(s, fleet) && Buildable(s, rules)
  }

  // ----- the linked world

  function LinkedRoute(r: RouteRecord): RouteState
    requires |r.locations| >= 2
  {
    RebuiltRoute(r).(truck := r.truck, packages := r.packages)
  }

  function LinkedPackage(s: Snapshot, p: PackageRecord): PackageState
    requires p.route.To? ==> p.route.id in RoutesById(s.routes) && |RoutesById(s.routes)[p.route.id].locations| >= 2
  {
    if p.route.Unlinked? then RebuiltPackage(p)
    else AssignedPackage(RebuiltRoute(RoutesById(s.routes)[p.route.id]), p.route.id, RebuiltPackage(p))
  }

  /** The candidate for a truck, before it is given a route. */
  function CandidateFor(s: Snapshot, fleet: map<int, TruckState>, tid: int, start: LocationCode): TruckState
    requires tid in fleet && (tid in TrucksById(s.trucks) ==> TrucksById(s.trucks)[tid].status.Status?)
  {
    if tid in TrucksById(s.trucks) then CandidateOf(TrucksById(s.trucks)[tid], fleet[tid]) else FreshCandidate(fleet[tid], start)
  }

  function LinkedTruck(s: Snapshot, fleet: map<int, TruckState>, tid: int): TruckState
    requires tid in fleet && (tid in TrucksById(s.trucks) ==> TrucksById(s.trucks)[tid].status.Status?)
    requires tid in RouteTrucks(s.routes) || tid in TrucksById(s.trucks)
    requires tid in RouteTrucks(s.routes) ==>
      RouteTrucks(s.routes)[tid] in RoutesById(s.routes) && |RoutesById(s.routes)[RouteTrucks(s.routes)[tid]].locations| >= 2
  {
    if tid !in RouteTrucks(s.routes) then CandidateOf(TrucksById(s.trucks)[tid], fleet[tid])
    else
      var r := RoutesById(s.routes)[RouteTrucks(s.routes)[tid]];
      TruckServing(CandidateFor(s, fleet, tid, r.locations[0]), r.id, RebuiltRoute(r))
  }

  /** The references the definition of the linked world follows are all there. */
  ghost predicate Traceable(s: Snapshot, fleet: map<int, TruckState>) {
    && (forall rid <- RoutesById(s.routes) :: |RoutesById(s.routes)[rid].locations| >= 2)
    && (forall pid <- PackagesById(s.packages) ::
          PackagesById(s.packages)[pid].route.To? ==> PackagesById(s.packages)[pid].route.id in RoutesById(s.routes))
    && (forall tid <- TrucksById(s.trucks) :: tid in fleet && TrucksById(s.trucks)[tid].status.Status?)
    && (forall tid <- RouteTrucks(s.routes) :: tid in fleet && RouteTrucks(s.routes)[tid] in RoutesById(s.routes))
  }

  ghost function LinkedWorld(s: Snapshot, fleet: map<int, TruckState>): World
    requires Traceable(s, fleet)
  {
    World(map cid <- CustomersById(s.customers) ::
            CustomerState(CustomersById(s.customers)[cid].contact, PackagesOfCustomer(s.packages, cid)),
          map pid <- PackagesById(s.packages) :: LinkedPackage(s, PackagesById(s.packages)[pid]),
          map rid <- RoutesById(s.routes) :: LinkedRoute(RoutesById(s.routes)[rid]),
          map tid | tid in TrucksById(s.trucks).Keys + RouteTrucks(s.routes).Keys :: LinkedTruck(s, fleet, tid))
  }

  lemma ConsistentIsTraceable(s: Snapshot, fleet: map<int, TruckState>)
    requires Consistent(s, fleet)
    ensures Traceable(s, fleet)
  {
    forall rid <- RoutesById(s.routes) ensures |RoutesById(s.routes)[rid].locations| >= 2 {
      var k := IndexOf(s.routes, RoutesById(s.routes)[rid]);
    }
    forall pid <- PackagesById(s.packages) | PackagesById(s.packages)[pid].route.To?
      ensures PackagesById(s.packages)[pid].route.id in RoutesById(s.routes)
    {
      var k := IndexOf(s.packages, PackagesById(s.packages)[pid]);
      assert PackageRefersWell(s, s.packages[k]);
    }
    forall tid <- TrucksById(s.trucks) ensures tid in fleet && TrucksById(s.trucks)[tid].status.Status? {
      var j := IndexOf(s.trucks, TrucksById(s.trucks)[tid]);
      assert TruckRecordOk(s.trucks[j], fleet.Keys);
    }
    forall tid <- RouteTrucks(s.routes) ensures tid in fleet && RouteTrucks(s.routes)[tid] in RoutesById(s.routes) {
      var k :| 0 <= k < |s.routes| && s.routes[k].truck == To(tid) && s.routes[k].id == RouteTrucks(s.routes)[tid];
      assert RouteRefersWell(s, fleet.Keys, s.routes[k]);
      assert RouteIdsIn(s.routes)[k] == s.routes[k].id;
    }
  }

  // ----- linking packages

  /** A world once a list of packages has been put on a route that had none. */
  ghost function ListLinked(w: World, rid: int, ids: seq<int>): World
    requires rid in w.routes && Shaped(w.routes[rid])
  {
    w.(routes := w.routes[rid := w.routes[rid].(packages := ids)], packages := Listing(w.packages, w.routes[rid], rid, ids))
  }

  function Listing(packages: map<int, PackageState>, r: RouteState, rid: int, ids: seq<int>): map<int, PackageState>
    requires Shaped(r)
  {
    map pid <- packages :: if pid in ids then AssignedPackage(r, rid, packages[pid]) else packages[pid]
  }

  lemma ListingKeepsAssignment(r: RouteState, rid: int, ids: seq<int>, p: PackageState)
    requires Shaped(r)
    ensures AssignedPackage(r.(packages := ids), rid, p) == AssignedPackage(r, rid, p)
  {
  }

  lemma NothingListed(w: World, rid: int)
    requires rid in w.routes && Shaped(w.routes[rid]) && w.routes[rid].packages == []
    ensures ListLinked(w, rid, []) == w
  {
    hide AssignedPackage;
    assert ListLinked(w, rid, []).routes == w.routes;
    assert ListLinked(w, rid, []).packages == w.packages;
  }

  lemma OneMoreListed(w: World, rid: int, ids: seq<int>, n: nat)
    requires rid in w.routes && Shaped(w.routes[rid]) && n < |ids| && ids[n] !in ids[..n] && ids[n] in w.packages
    requires Ready(ListLinked(w, rid, ids[..n])) && !ArrivalMissing(w.routes[rid], w.packages[ids[n]])
    ensures LinkPackage(ListLinked(w, rid, ids[..n]), rid, ids[n]) == Some(ListLinked(w, rid, ids[..n + 1]))
  {
    var v, target := ListLinked(w, rid, ids[..n]), ListLinked(w, rid, ids[..n + 1]);
    ListingKeepsAssignment(w.routes[rid], rid, ids[..n], w.packages[ids[n]]);
    hide AssignedPackage, Ready, Closed;
    assert ids[..n + 1] == ids[..n] + [ids[n]];
    assert v.routes[rid := v.routes[rid].(packages := ids[..n] + [ids[n]])] == target.routes;
    assert v.packages[ids[n] := AssignedPackage(v.routes[rid], rid, v.packages[ids[n]])] == target.packages;
  }

  lemma {:induction false} ListLinks(w: World, rid: int, ids: seq<int>)
    requires Ready(w) && rid in w.routes && w.routes[rid].packages == [] && NoDup(ids)
    requires forall k :: 0 <= k < |ids| ==> ids[k] in w.packages && !ArrivalMissing(w.routes[rid], w.packages[ids[k]])
    ensures Shaped(w.routes[rid]) && LinkList(w, rid, ids) == Some(ListLinked(w, rid, ids))
  {
    assert Shaped(w.routes[rid]);
    hide Ready, Shaped, ListLinked, LinkPackage, ArrivalMissing;
    if ids == [] {
      NothingListed(w, rid);
    } else {
      var n := |ids| - 1;
      ListLinks(w, rid, ids[..n]);
      OneMoreListed(w, rid, ids, n);
      WholeSlice(ids);
    }
  }

  ghost function PartlyLinkedPackages(s: Snapshot, done: set<int>): map<int, PackageState>
    requires forall rid <- RoutesById(s.routes) :: |RoutesById(s.routes)[rid].locations| >= 2
  {
    map pid <- PackagesById(s.packages) :: PartlyLinkedPackage(s, PackagesById(s.packages)[pid], done)
  }

  function PartlyLinkedPackage(s: Snapshot, p: PackageRecord, done: set<int>): PackageState
    requires forall rid <- RoutesById(s.routes) :: |RoutesById(s.routes)[rid].locations| >= 2
  {
    if p.route.To? && p.route.id in done && p.route.id in RoutesById(s.routes) then LinkedPackage(s, p) else RebuiltPackage(p)
  }

  /** The rebuilt world with the packages of the routes in `done` linked. */
  ghost function PartlyLinked(s: Snapshot, done: set<int>): World
    requires forall rid <- RoutesById(s.routes) :: |RoutesById(s.routes)[rid].locations| >= 2
  {
    var routes := RoutesById(s.routes);
    World(map cid <- CustomersById(s.customers) ::
            CustomerState(CustomersById(s.customers)[cid].contact, PackagesOfCustomer(s.packages, cid)),
          PartlyLinkedPackages(s, done),
          map rid <- routes :: if rid in done then RebuiltRoute(routes[rid]).(packages := routes[rid].packages) else RebuiltRoute(routes[rid]),
          map[])
  }

  /** The packages a route lists are those that name it. */
  lemma ListedIffNamed(s: Snapshot, fleet: map<int, TruckState>, k: nat, pid: int)
    requires Consistent(s, fleet) && k < |s.routes| && pid in PackagesById(s.packages)
    ensures pid in s.routes[k].packages <==> PackagesById(s.packages)[pid].route == To(s.routes[k].id)
  {
    var j := IndexOf(s.packages, PackagesById(s.packages)[pid]);
    RecordOf(s, k);
  }

  lemma RebuiltCovers(r: RouteRecord)
    requires RouteBuilds(r)
    ensures Sound(RebuiltRoute(r))
  {
    if r.departure.Some? {
      SchedulingIsTotal(r.locations, r.departure.value);
    }
  }

  lemma RebuiltRouteIsSound(s: Snapshot, rules: ContactRules, rid: int)
    requires Buildable(s, rules) && rid in RoutesById(s.routes)
    ensures RouteBuilds(RoutesById(s.routes)[rid]) && Sound(RebuiltRoute(RoutesById(s.routes)[rid]))
  {
    var k := IndexOf(s.routes, RoutesById(s.routes)[rid]);
    assert RouteBuilds(s.routes[k]);
    RebuiltCovers(s.routes[k]);
  }

  lemma CustomerIsRebuilt(s: Snapshot, rules: ContactRules, pid: int)
    requires Buildable(s, rules) && pid in PackagesById(s.packages)
    ensures PackagesById(s.packages)[pid].customer in CustomersById(s.customers)
  {
    var k := IndexOf(s.packages, PackagesById(s.packages)[pid]);
    assert s.packages[k].customer in CustomerIds(s.customers);
  }

  lemma RoutesLongEnough(s: Snapshot, rules: ContactRules)
    requires Buildable(s, rules)
    ensures forall k {:trigger s.routes[k]} :: 0 <= k < |s.routes| ==> |s.routes[k].locations| >= 2
  {
    forall k {:trigger s.routes[k]} | 0 <= k < |s.routes| ensures |s.routes[k].locations| >= 2 {
      assert RouteBuilds(s.routes[k]);
    }
  }

  lemma RebuiltReady(s: Snapshot, rules: ContactRules)
    requires Buildable(s, rules)
    ensures forall k {:trigger s.routes[k]} :: 0 <= k < |s.routes| ==> |s.routes[k].locations| >= 2
    ensures Ready(RebuiltWorld(s))
  {
    hide Buildable, Sound, PackagesOfCustomer, RebuiltRoute, RoutesById, PackagesById, CustomersById, ScheduleOf;
    RoutesLongEnough(s, rules);
    var w := RebuiltWorld(s);
    forall rid | rid in RoutesById(s.routes) ensures Sound(w.routes[rid]) && w.routes[rid].truck == Unlinked && w.routes[rid].packages == [] {
      RebuiltRouteIsSound(s, rules, rid);
      UntruckedRoute(RoutesById(s.routes)[rid]);
    }
    forall pid | pid in PackagesById(s.packages) ensures w.packages[pid].customer in w.customers {
      CustomerIsRebuilt(s, rules, pid);
    }
  }

  lemma NothingLinked(s: Snapshot)
    requires forall rid <- RoutesById(s.routes) :: |RoutesById(s.routes)[rid].locations| >= 2
    requires forall k {:trigger s.routes[k]} :: 0 <= k < |s.routes| ==> |s.routes[k].locations| >= 2
    ensures RebuiltWorld(s) == PartlyLinked(s, {})
  {
    hide RebuiltRoute, RebuiltPackage, PackagesOfCustomer;
    var w, v := RebuiltWorld(s), PartlyLinked(s, {});
    assert w.packages == v.packages && w.routes == v.routes && w.customers == v.customers;
  }

  /** One more route of the list: what it lists is what names it. */
  lemma GrownPackage(s: Snapshot, fleet: map<int, TruckState>, n: nat, done: set<int>, pid: int)
    requires Consistent(s, fleet) && n < |s.routes| && s.routes[n].id !in done && pid in PackagesById(s.packages)
    requires forall rid <- RoutesById(s.routes) :: |RoutesById(s.routes)[rid].locations| >= 2
    ensures s.routes[n].id in RoutesById(s.routes)
    ensures var p := PackagesById(s.packages)[pid]; var r := s.routes[n];
      PartlyLinkedPackage(s, p, done + {r.id})
      == if pid in r.packages then AssignedPackage(RebuiltRoute(RoutesById(s.routes)[r.id]), r.id, PartlyLinkedPackage(s, p, done))
         else PartlyLinkedPackage(s, p, done)
  {
    RecordOf(s, n);
    ListedIffNamed(s, fleet, n, pid);
    hide Consistent;
  }

  lemma GrownRoutes(s: Snapshot, n: nat, done: set<int>)
    requires NoDup(RouteIdsIn(s.routes)) && n < |s.routes| && s.routes[n].id !in done
    requires forall rid <- RoutesById(s.routes) :: |RoutesById(s.routes)[rid].locations| >= 2
    ensures s.routes[n].id in PartlyLinked(s, done).routes && Shaped(PartlyLinked(s, done).routes[s.routes[n].id])
    ensures ListLinked(PartlyLinked(s, done), s.routes[n].id, s.routes[n].packages).routes == PartlyLinked(s, done + {s.routes[n].id}).routes
  {
    hide Listing, PartlyLinkedPackages, PackagesOfCustomer, RebuiltRoute, RoutesById, CustomersById, NoDup;
    RecordOf(s, n);
  }

  lemma GrownPackages(s: Snapshot, fleet: map<int, TruckState>, n: nat, done: set<int>)
    requires Consistent(s, fleet) && n < |s.routes| && s.routes[n].id !in done
    requires forall rid <- RoutesById(s.routes) :: |RoutesById(s.routes)[rid].locations| >= 2
    ensures s.routes[n].id in RoutesById(s.routes)
    ensures Listing(PartlyLinkedPackages(s, done), RebuiltRoute(RoutesById(s.routes)[s.routes[n].id]), s.routes[n].id, s.routes[n].packages)
         == PartlyLinkedPackages(s, done + {s.routes[n].id})
  {
    hide Consistent, PartlyLinkedPackage, AssignedPackage, RebuiltRoute;
    RouteRecordsApart(s, fleet);
    RecordOf(s, n);
    forall pid | pid in PackagesById(s.packages)
      ensures var p := PackagesById(s.packages)[pid]; var r := s.routes[n];
        PartlyLinkedPackage(s, p, done + {r.id})
        == if pid in r.packages then AssignedPackage(RebuiltRoute(RoutesById(s.routes)[r.id]), r.id, PartlyLinkedPackage(s, p, done))
           else PartlyLinkedPackage(s, p, done)
    {
      GrownPackage(s, fleet, n, done, pid);
    }
    hide RoutesById, PackagesById;
  }

  lemma PartlyGrows(s: Snapshot, fleet: map<int, TruckState>, n: nat, done: set<int>)
    requires Consistent(s, fleet) && n < |s.routes| && s.routes[n].id !in done
    requires forall rid <- RoutesById(s.routes) :: |RoutesById(s.routes)[rid].locations| >= 2
    ensures s.routes[n].id in PartlyLinked(s, done).routes && Shaped(PartlyLinked(s, done).routes[s.routes[n].id])
    ensures ListLinked(PartlyLinked(s, done), s.routes[n].id, s.routes[n].packages) == PartlyLinked(s, done + {s.routes[n].id})
  {
    GrownRoutes(s, n, done);
    GrownPackages(s, fleet, n, done);
    hide Consistent, Listing, PartlyLinkedPackages, PackagesOfCustomer, RebuiltRoute, Shaped;
  }

  lemma ListedFits(s: Snapshot, fleet: map<int, TruckState>, n: nat, j: nat)
    requires Consistent(s, fleet) && n < |s.routes| && j < |s.routes[n].packages|
    ensures s.routes[n].packages[j] in PackagesById(s.packages)
    ensures PackagesById(s.packages)[s.routes[n].packages[j]].end in s.routes[n].locations
  {
    var pid := s.routes[n].packages[j];
    assert RouteRefersWell(s, fleet.Keys, s.routes[n]);
    ListedIffNamed(s, fleet, n, pid);
    var i := IndexOf(s.packages, PackagesById(s.packages)[pid]);
    RecordOf(s, n);
  }

  /** A package a route lists ends at a stop of it, so linking can always read its arrival. */
  lemma ListedHasArrival(s: Snapshot, fleet: map<int, TruckState>, n: nat, done: set<int>, j: nat)
    requires Consistent(s, fleet) && n < |s.routes| && j < |s.routes[n].packages|
    requires forall rid <- RoutesById(s.routes) :: |RoutesById(s.routes)[rid].locations| >= 2
    ensures s.routes[n].id in PartlyLinked(s, done).routes && s.routes[n].packages[j] in PartlyLinked(s, done).packages
    ensures !ArrivalMissing(PartlyLinked(s, done).routes[s.routes[n].id], PartlyLinked(s, done).packages[s.routes[n].packages[j]])
  {
    ListedFits(s, fleet, n, j);
    RouteRecordsApart(s, fleet);
    hide Consistent;
    RecordOf(s, n);
    hide RoutesById, PackagesById, PackagesOfCustomer, ScheduleOf;
  }

  lemma OneMoreRouteLinks(s: Snapshot, fleet: map<int, TruckState>, n: nat, done: set<int>)
    requires Consistent(s, fleet) && n < |s.routes| && s.routes[n].id !in done
    requires forall rid <- RoutesById(s.routes) :: |RoutesById(s.routes)[rid].locations| >= 2
    requires Ready(PartlyLinked(s, done))
    ensures s.routes[n].id in PartlyLinked(s, done).routes
    ensures LinkList(PartlyLinked(s, done), s.routes[n].id, s.routes[n].packages) == Some(PartlyLinked(s, done + {s.routes[n].id}))
  {
    var r := s.routes[n];
    RecordOf(s, n);
    assert RouteRefersWell(s, fleet.Keys, r) && UniqueIds(r.packages);
    PartlyGrows(s, fleet, n, done);
    hide Consistent, LinkedPackage, LinkList, ListLinked, Ready, PackagesOfCustomer, ArrivalMissing;
    forall k | 0 <= k < |r.packages|
      ensures r.packages[k] in PartlyLinked(s, done).packages
           && !ArrivalMissing(PartlyLinked(s, done).routes[r.id], PartlyLinked(s, done).packages[r.packages[k]])
    {
      ListedHasArrival(s, fleet, n, done, k);
    }
    ListLinks(PartlyLinked(s, done), r.id, r.packages);
  }

  lemma NotDoneYet(s: Snapshot, n: nat)
    requires NoDup(RouteIdsIn(s.routes)) && n < |s.routes|
    ensures s.routes[n].id !in Elements(RouteIdsIn(s.routes[..n]))
    ensures Elements(RouteIdsIn(s.routes[..n + 1])) == Elements(RouteIdsIn(s.routes[..n])) + {s.routes[n].id}
  {
    var ids := RouteIdsIn(s.routes[..n]);
    forall k | 0 <= k < n ensures ids[k] != s.routes[n].id {
      assert RouteIdsIn(s.routes)[k] != RouteIdsIn(s.routes)[n];
    }
    assert RouteIdsIn(s.routes[..n + 1]) == ids + [s.routes[n].id];
  }

  lemma LinkNext(w: World, routes: seq<RouteRecord>, n: nat)
    requires Ready(w)
    ensures LinkPackages(w, routes[..0]) == Some(w)
    ensures n < |routes| ==>
      var earlier := LinkPackages(w, routes[..n]);
      LinkPackages(w, routes[..n + 1]) == (
        if earlier.None? || routes[n].id !in earlier.value.routes then None
        else LinkList(earlier.value, routes[n].id, routes[n].packages))
  {
    if n < |routes| {
      assert routes[..n + 1][..n] == routes[..n];
    }
  }

  lemma RouteRecordsApart(s: Snapshot, fleet: map<int, TruckState>)
    requires Consistent(s, fleet)
    ensures NoDup(RouteIdsIn(s.routes))
  {
  }

  lemma PackagesLinkNext(s: Snapshot, fleet: map<int, TruckState>, w: World, n: nat)
    requires Consistent(s, fleet) && n < |s.routes|
    requires forall rid <- RoutesById(s.routes) :: |RoutesById(s.routes)[rid].locations| >= 2
    requires Ready(w) && LinkPackages(w, s.routes[..n]) == Some(PartlyLinked(s, Elements(RouteIdsIn(s.routes[..n]))))
    ensures LinkPackages(w, s.routes[..n + 1]) == Some(PartlyLinked(s, Elements(RouteIdsIn(s.routes[..n + 1]))))
  {
    RouteRecordsApart(s, fleet);
    hide Consistent, PartlyLinked, Ready, LinkList, LinkPackages, NoDup, Elements, RouteIdsIn, RoutesById;
    LinkNext(w, s.routes, n);
    NotDoneYet(s, n);
    OneMoreRouteLinks(s, fleet, n, Elements(RouteIdsIn(s.routes[..n])));
  }

  lemma NoneDone(s: Snapshot)
    ensures Elements(RouteIdsIn(s.routes[..0])) == {}
  {
  }

  /** Linking the packages of the first `n` routes. */
  lemma {:induction false} PackagesLink(s: Snapshot, fleet: map<int, TruckState>, w: World, n: nat)
    requires Consistent(s, fleet) && n <= |s.routes|
    requires forall rid <- RoutesById(s.routes) :: |RoutesById(s.routes)[rid].locations| >= 2
    requires Ready(w) && w == PartlyLinked(s, {})
    ensures LinkPackages(w, s.routes[..n]) == Some(PartlyLinked(s, Elements(RouteIdsIn(s.routes[..n]))))
  {
    hide Consistent, PartlyLinked, Ready, LinkList, LinkPackages, NoDup, Elements, RouteIdsIn, RoutesById;
    if n == 0 {
      NoneDone(s);
      LinkNext(w, s.routes, 0);
    } else {
      PackagesLink(s, fleet, w, n - 1);
      PackagesLinkNext(s, fleet, w, n - 1);
    }
  }

  // ----- linking trucks

  /** The candidates of all recorded trucks. */
  function CandidateMap(records: map<int, TruckRecord>, fleet: map<int, TruckState>): map<int, TruckState>
    requires forall tid <- records :: records[tid].status.Status? && tid in fleet
  {
    map tid <- records :: CandidateOf(records[tid], fleet[tid])
  }

  lemma OneMoreCandidate(records: map<int, TruckRecord>, t: TruckRecord, fleet: map<int, TruckState>)
    requires forall tid <- records :: records[tid].status.Status? && tid in fleet
    requires t.status.Status? && t.id in fleet
    ensures CandidateMap(records[t.id := t], fleet) == CandidateMap(records, fleet)[t.id := CandidateOf(t, fleet[t.id])]
  {
    hide CandidateOf;
  }

  lemma {:induction false} CandidatesBuilt(trucks: seq<TruckRecord>, fleet: map<int, TruckState>)
    requires forall j :: 0 <= j < |trucks| ==> trucks[j].status.Status? && trucks[j].id in fleet
    ensures forall tid <- TrucksById(trucks) :: TrucksById(trucks)[tid].status.Status? && tid in fleet
    ensures Candidates(trucks, fleet) == Some(CandidateMap(TrucksById(trucks), fleet))
  {
    if trucks != [] {
      var n := |trucks| - 1;
      assert forall j :: 0 <= j < n ==> trucks[..n][j] == trucks[j];
      CandidatesBuilt(trucks[..n], fleet);
      OneMoreCandidate(TrucksById(trucks[..n]), trucks[n], fleet);
    }
  }

  /** Every route with a truck is there, and its truck has a candidate or is in the fleet. */
  ghost predicate Servable(w: World, fleet: map<int, TruckState>, routes: seq<RouteRecord>) {
    && NoDup(RouteIdsIn(routes)) && TrucksApart(routes)
    && (forall k {:trigger routes[k]} :: 0 <= k < |routes| ==>
          && routes[k].id in w.routes && Shaped(w.routes[routes[k].id])
          && (routes[k].truck.To? ==> routes[k].truck.id in w.trucks || routes[k].truck.id in fleet))
  }

  /** The candidate a truck has in `w`, or a fresh one at `start`. */
  function CandidateIn(w: World, fleet: map<int, TruckState>, tid: int, start: LocationCode): TruckState
    requires tid in w.trucks || tid in fleet
  {
    if tid in w.trucks then w.trucks[tid] else FreshCandidate(fleet[tid], start)
  }

  function RoutesServed(routes: map<int, RouteState>, records: map<int, RouteRecord>): map<int, RouteState> {
    map rid <- routes :: if rid in records && records[rid].truck.To? then routes[rid].(truck := records[rid].truck) else routes[rid]
  }

  /** Every route in the map can be served. */
  ghost predicate Reachable(w: World, fleet: map<int, TruckState>, served: map<int, int>) {
    forall tid <- served :: served[tid] in w.routes && Shaped(w.routes[served[tid]]) && (tid in w.trucks || tid in fleet)
  }

  ghost function TruckMapServed(w: World, fleet: map<int, TruckState>, served: map<int, int>): map<int, TruckState>
    requires Reachable(w, fleet, served)
  {
    map tid | tid in w.trucks.Keys + served.Keys ::
      if tid in served
      then TruckServing(CandidateIn(w, fleet, tid, w.routes[served[tid]].path[0]), served[tid], w.routes[served[tid]])
      else w.trucks[tid]
  }

  /** The world once the routes have been given their trucks. */
  ghost function TrucksServed(w: World, fleet: map<int, TruckState>, routes: seq<RouteRecord>): World
    requires Servable(w, fleet, routes)
  {
    ServedEntries(w, fleet, routes);
    w.(routes := RoutesServed(w.routes, RoutesById(routes)), trucks := TruckMapServed(w, fleet, RouteTrucks(routes)))
  }

  lemma ServedEntries(w: World, fleet: map<int, TruckState>, routes: seq<RouteRecord>)
    requires Servable(w, fleet, routes)
    ensures Reachable(w, fleet, RouteTrucks(routes))
  {
    var served := RouteTrucks(routes);
    forall tid <- served ensures served[tid] in w.routes && Shaped(w.routes[served[tid]]) && (tid in w.trucks || tid in fleet) {
      var k :| 0 <= k < |routes| && routes[k].truck == To(tid) && routes[k].id == served[tid];
    }
  }

  lemma FewerServable(w: World, fleet: map<int, TruckState>, routes: seq<RouteRecord>)
    requires Servable(w, fleet, routes) && routes != []
    ensures Servable(w, fleet, routes[..|routes| - 1])
    ensures routes[|routes| - 1].id !in RoutesById(routes[..|routes| - 1])
    ensures routes[|routes| - 1].truck.To? ==> routes[|routes| - 1].truck.id !in RouteTrucks(routes[..|routes| - 1])
  {
    var n := |routes| - 1;
    var fewer := routes[..n];
    assert RouteIdsIn(routes) == RouteIdsIn(fewer) + [routes[n].id];
    forall k {:trigger fewer[k]} | 0 <= k < n ensures fewer[k] == routes[k] && fewer[k].id != routes[n].id {
      assert RouteIdsIn(routes)[k] != RouteIdsIn(routes)[n];
    }
    forall k | 0 <= k < n ensures RouteIdsIn(fewer)[k] == fewer[k].id {}
  }

  lemma NothingServed(w: World, fleet: map<int, TruckState>)
    ensures RoutesServed(w.routes, map[]) == w.routes && TruckMapServed(w, fleet, map[]) == w.trucks
  {
    assert w.trucks.Keys + {} == w.trucks.Keys;
  }

  lemma OneMoreRouteServed(routes: map<int, RouteState>, records: map<int, RouteRecord>, r: RouteRecord)
    requires r.id in routes && r.id !in records
    ensures RoutesServed(routes, records[r.id := r])
         == if r.truck.To? then RoutesServed(routes, records)[r.id := routes[r.id].(truck := r.truck)] else RoutesServed(routes, records)
    ensures RoutesServed(routes, records)[r.id] == routes[r.id]
  {
  }

  lemma OneMoreTruckServed(w: World, fleet: map<int, TruckState>, served: map<int, int>, tid: int, rid: int)
    requires Reachable(w, fleet, served) && tid !in served
    requires rid in w.routes && Shaped(w.routes[rid]) && (tid in w.trucks || tid in fleet)
    ensures Reachable(w, fleet, served[tid := rid])
    ensures TruckMapServed(w, fleet, served[tid := rid])
         == TruckMapServed(w, fleet, served)[tid := TruckServing(CandidateIn(w, fleet, tid, w.routes[rid].path[0]), rid, w.routes[rid])]
    ensures tid in TruckMapServed(w, fleet, served) <==> tid in w.trucks
    ensures tid in w.trucks ==> TruckMapServed(w, fleet, served)[tid] == w.trucks[tid]
  {
    hide TruckServing, FreshCandidate, Shaped;
  }

  lemma {:induction false} TrucksLink(w: World, fleet: map<int, TruckState>, routes: seq<RouteRecord>)
    requires Servable(w, fleet, routes)
    ensures LinkTrucks(w, fleet, routes) == Some(TrucksServed(w, fleet, routes))
  {
    if routes == [] {
      NothingServed(w, fleet);
      assert RoutesById(routes) == map[] && RouteTrucks(routes) == map[];
      hide RoutesServed, TruckMapServed, Servable;
    } else {
      hide TrucksServed, Servable, LinkTruck;
      FewerServable(w, fleet, routes);
      TrucksLink(w, fleet, routes[..|routes| - 1]);
      OneMoreServed(w, fleet, routes);
    }
  }

  lemma OneMoreServed(w: World, fleet: map<int, TruckState>, routes: seq<RouteRecord>)
    requires Servable(w, fleet, routes) && routes != [] && Servable(w, fleet, routes[..|routes| - 1])
    ensures var r := routes[|routes| - 1]; var earlier := TrucksServed(w, fleet, routes[..|routes| - 1]);
      (if r.truck.Unlinked? then Some(earlier) else LinkTruck(earlier, fleet, r.id, r.truck.id)) == Some(TrucksServed(w, fleet, routes))
  {
    var n := |routes| - 1;
    var r, fewer := routes[n], routes[..n];
    FewerServable(w, fleet, routes);
    ServedEntries(w, fleet, fewer);
    ServedEntries(w, fleet, routes);
    assert Shaped(w.routes[r.id]) && r.id in w.routes;
    assert RoutesById(routes) == RoutesById(fewer)[r.id := r];
    assert RouteTrucks(routes) == if r.truck.To? then RouteTrucks(fewer)[r.truck.id := r.id] else RouteTrucks(fewer);
    OneMoreRouteServed(w.routes, RoutesById(fewer), r);
    if r.truck.To? {
      OneMoreTruckServed(w, fleet, RouteTrucks(fewer), r.truck.id, r.id);
    }
    hide TruckServing, FreshCandidate, Servable, RoutesById, RouteTrucks, RouteIdsIn, Shaped, RoutesServed,
         TruckMapServed, Reachable;
  }

  // ----- the whole link

  lemma RecordsDone(s: Snapshot)
    ensures forall rid <- RoutesById(s.routes) :: rid in Elements(RouteIdsIn(s.routes))
  {
  }

  lemma AllPackagesLinked(s: Snapshot, fleet: map<int, TruckState>, done: set<int>)
    requires Traceable(s, fleet) && forall rid <- RoutesById(s.routes) :: rid in done
    ensures PartlyLinkedPackages(s, done) == LinkedWorld(s, fleet).packages
  {
    forall pid <- PackagesById(s.packages)
      ensures PartlyLinkedPackage(s, PackagesById(s.packages)[pid], done) == LinkedPackage(s, PackagesById(s.packages)[pid]) {}
    hide PartlyLinkedPackage, LinkedPackage, LinkedTruck, LinkedRoute, PackagesOfCustomer;
  }

  lemma UntruckedRoute(r: RouteRecord)
    requires |r.locations| >= 2
    ensures RebuiltRoute(r).truck == Unlinked && RebuiltRoute(r).packages == []
  {
  }

  lemma AllRoutesLinked(s: Snapshot, fleet: map<int, TruckState>, done: set<int>)
    requires Traceable(s, fleet) && forall rid <- RoutesById(s.routes) :: rid in done
    ensures RoutesServed(PartlyLinked(s, done).routes, RoutesById(s.routes)) == LinkedWorld(s, fleet).routes
  {
    hide LinkedPackage, LinkedTruck, PackagesOfCustomer, PartlyLinkedPackages, RebuiltRoute, RoutesById, PackagesById,
         TrucksById, RouteTrucks;
    var served, target := RoutesServed(PartlyLinked(s, done).routes, RoutesById(s.routes)), LinkedWorld(s, fleet).routes;
    assert served.Keys == target.Keys;
    forall rid <- RoutesById(s.routes) ensures served[rid] == target[rid] {
      UntruckedRoute(RoutesById(s.routes)[rid]);
    }
    hide *;
  }

  lemma ServingIgnoresPackages(t: TruckState, rid: int, r: RouteState, ids: seq<int>)
    requires Shaped(r)
    ensures TruckServing(t, rid, r.(packages := ids)) == TruckServing(t, rid, r)
  {
  }

  /** The world before its trucks are linked. */
  ghost function BeforeTrucks(s: Snapshot, fleet: map<int, TruckState>): World
    requires Traceable(s, fleet)
  {
    PartlyLinked(s, Elements(RouteIdsIn(s.routes))).(trucks := CandidateMap(TrucksById(s.trucks), fleet))
  }

  lemma BeforeTrucksServable(s: Snapshot, fleet: map<int, TruckState>)
    requires Consistent(s, fleet) && Traceable(s, fleet)
    ensures Servable(BeforeTrucks(s, fleet), fleet, s.routes)
  {
    var w := BeforeTrucks(s, fleet);
    forall k {:trigger s.routes[k]} | 0 <= k < |s.routes|
      ensures s.routes[k].id in w.routes && Shaped(w.routes[s.routes[k].id]) && (s.routes[k].truck.To? ==>
        s.routes[k].truck.id in fleet)
    {
      RecordOf(s, k);
      assert RouteRefersWell(s, fleet.Keys, s.routes[k]);
    }
  }

  lemma LinkedTruckIs(s: Snapshot, fleet: map<int, TruckState>, tid: int)
    requires Traceable(s, fleet) && tid in RouteTrucks(s.routes)
    ensures var w := BeforeTrucks(s, fleet); var rid := RouteTrucks(s.routes)[tid];
      && rid in w.routes && Shaped(w.routes[rid])
      && TruckServing(CandidateIn(w, fleet, tid, w.routes[rid].path[0]), rid, w.routes[rid]) == LinkedTruck(s, fleet, tid)
  {
    var w, rid := BeforeTrucks(s, fleet), RouteTrucks(s.routes)[tid];
    var r := RoutesById(s.routes)[rid];
    RecordsDone(s);
    assert w.routes[rid] == RebuiltRoute(r).(packages := r.packages);
    ServingIgnoresPackages(CandidateIn(w, fleet, tid, r.locations[0]), rid, RebuiltRoute(r), r.packages);
  }

  lemma AllTrucksLinked(s: Snapshot, fleet: map<int, TruckState>)
    requires Traceable(s, fleet) && Reachable(BeforeTrucks(s, fleet), fleet, RouteTrucks(s.routes))
    ensures TruckMapServed(BeforeTrucks(s, fleet), fleet, RouteTrucks(s.routes)) == LinkedWorld(s, fleet).trucks
  {
    var served, target := TruckMapServed(BeforeTrucks(s, fleet), fleet, RouteTrucks(s.routes)), LinkedWorld(s, fleet).trucks;
    forall tid | tid in TrucksById(s.trucks).Keys + RouteTrucks(s.routes).Keys ensures tid in served && served[tid] == target[tid] {
      if tid in RouteTrucks(s.routes) {
        LinkedTruckIs(s, fleet, tid);
      }
    }
    assert served.Keys == target.Keys;
    hide *;
  }

  lemma LinkParts(s: Snapshot, fleet: map<int, TruckState>, w: World)
    requires Consistent(s, fleet) && Traceable(s, fleet) && Ready(w) && w == PartlyLinked(s, {})
    ensures LinkPackages(w, s.routes) == Some(PartlyLinked(s, Elements(RouteIdsIn(s.routes))))
    ensures forall j :: 0 <= j < |s.trucks| ==> s.trucks[j].status.Status?
    ensures Candidates(s.trucks, fleet) == Some(CandidateMap(TrucksById(s.trucks), fleet))
  {
    hide Consistent, Ready, PartlyLinked, LinkPackages, Candidates, CandidateMap;
    PackagesLink(s, fleet, w, |s.routes|);
    WholeSlice(s.routes);
    forall j | 0 <= j < |s.trucks| ensures s.trucks[j].status.Status? && s.trucks[j].id in fleet {
      RecordedTruck(s, fleet, j);
    }
    CandidatesBuilt(s.trucks, fleet);
  }

  lemma RecordedTruck(s: Snapshot, fleet: map<int, TruckState>, j: nat)
    requires Consistent(s, fleet) && j < |s.trucks|
    ensures s.trucks[j].status.Status? && s.trucks[j].id in fleet
  {
    assert TruckRecordOk(s.trucks[j], fleet.Keys);
  }

  lemma TrucksLinkAll(s: Snapshot, fleet: map<int, TruckState>)
    requires Consistent(s, fleet) && Traceable(s, fleet)
    ensures LinkTrucks(BeforeTrucks(s, fleet), fleet, s.routes) == Some(LinkedWorld(s, fleet))
  {
    hide Consistent, Servable, LinkTrucks, RoutesServed, TruckMapServed, PartlyLinkedPackages, LinkedTruck,
         LinkedPackage, LinkedRoute,
         PackagesOfCustomer, RebuiltRoute, CandidateMap;
    var w := BeforeTrucks(s, fleet);
    BeforeTrucksServable(s, fleet);
    TrucksLink(w, fleet, s.routes);
    ServedEntries(w, fleet, s.routes);
    RecordsDone(s);
    AllPackagesLinked(s, fleet, Elements(RouteIdsIn(s.routes)));
    AllRoutesLinked(s, fleet, Elements(RouteIdsIn(s.routes)));
    AllTrucksLinked(s, fleet);
    hide Traceable, Elements, RouteIdsIn;
    assert TrucksServed(w, fleet, s.routes).customers == LinkedWorld(s, fleet).customers;
  }

  /** Linking a rebuilt consistent snapshot never misses a reference, and arrives at the linked world. */
  lemma LinkRestores(s: Snapshot, fleet: map<int, TruckState>, rules: ContactRules)
    requires Restorable(s, fleet, rules)
    ensures Traceable(s, fleet) && Ready(RebuiltWorld(s))
    ensures forall j :: 0 <= j < |s.trucks| ==> s.trucks[j].status.Status?
    ensures LinkSnapshot(s, RebuiltWorld(s), fleet) == Some(LinkedWorld(s, fleet))
  {
    hide Consistent, Buildable, Ready, RebuiltWorld, LinkedWorld, PartlyLinked, LinkPackages, LinkTrucks, Candidates;
    ConsistentIsTraceable(s, fleet);
    RebuiltReady(s, rules);
    NothingLinked(s);
    LinkParts(s, fleet, RebuiltWorld(s));
    TrucksLinkAll(s, fleet);
  }
}
