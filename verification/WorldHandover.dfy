/** Putting a prepared world on the live fleet, and restoring a snapshot from its records to the live trucks. */
module WorldHandover {
  import opened Common
  import opened Fleet
  import opened Entities
  import opened Stores
  import opened StoreFrames
  import opened Snapshots
  import opened UseCaseSafety
  import opened WorldStateLinker
  import opened VehicleManager
  import opened HandoverLaws
  import opened SnapshotChecks
  import opened SnapshotSoundness
  import opened SnapshotRestore
  import opened SnapshotLinking
  import opened Reconciliation
  import opened Restoring
  import opened SnapshotPreparer

  /** No swap fails on a linked world: every route a stored truck serves names it back. */
  lemma LinkedFleetIsBacklinked(s: Store, w: World, list: seq<Truck>)
    requires s.Standing() == Some(w) && Linked(w) && forall t <- list :: s.HasTruck(t)
    ensures Backlinked(list)
  {
    forall t <- list | t.route != null ensures t.route.truck == t {
      assert s.TruckKept(t.vehicleId) && TruckLinked(w, t.vehicleId) && w.trucks[t.vehicleId] == t.State();
      assert s.RouteKept(t.route.routeId) && w.routes[t.route.routeId] == t.route.State();
    }
  }

  /** In every state of every run the fleet can be swapped. */
  lemma RunsKeepFleetBacklinked(s: Store, w: World, requests: seq<Request>, list: seq<Truck>)
    requires WellFormed(w) && s.Standing() == Some(Run(w, requests)) && forall t <- list :: s.HasTruck(t)
    ensures Backlinked(list)
  {
    hide Run, Backlinked, Store.Standing;
    assert Linked(Run(w, requests));
    LinkedFleetIsBacklinked(s, Run(w, requests), list);
  }

  // ----- the bindings of a store

  ghost predicate NamedBack(s: Store)
    reads s, s.routes.Values, s.trucks.Values
  {
    && (forall rid <- s.routes :: s.routes[rid].truck != null ==> s.HasTruck(s.routes[rid].truck))
    && (forall rid <- s.routes, tid <- s.trucks :: s.routes[rid].truck == s.trucks[tid] ==> s.trucks[tid].route == s.routes[rid])
    && (forall rid <- s.routes, tid <- s.trucks :: s.trucks[tid].route == s.routes[rid] ==> s.routes[rid].truck == s.trucks[tid])
    && (forall tid <- s.trucks :: s.trucks[tid].route != null ==> s.HasRoute(s.trucks[tid].route))
  }

  lemma LinksAreObjects(s: Store, w: World)
    requires s.Standing() == Some(w) && TrucksTwoWay(w)
    ensures NamedBack(s)
  {
    forall rid <- s.routes ensures s.RouteKept(rid) && w.routes[rid].truck == TruckLink(s.routes[rid].truck) {}
    forall tid <- s.trucks ensures s.TruckKept(tid) && w.trucks[tid].route == RouteLink(s.trucks[tid].route) {}
  }

  function LinksOf(fleet: map<int, Truck>, candidates: map<int, Truck>): (links: map<int, CandidateLink>)
    requires candidates.Keys <= fleet.Keys
    ensures links.Keys == candidates.Keys
  {
    map tid <- candidates :: CandidateLink(fleet[tid], candidates[tid])
  }

  /** One binding for each candidate, put on the fleet truck of the same id. */
  ghost predicate BindsCandidates(s: Store, fleet: map<int, Truck>, bindings: seq<TruckBinding>)
    reads s, s.trucks.Values
  {
    && (forall j {:trigger bindings[j]} :: 0 <= j < |bindings| ==>
          && bindings[j].truck.vehicleId in s.trucks && bindings[j].truck.vehicleId in fleet
          && bindings[j] == BindingOf(CandidateLink(fleet[bindings[j].truck.vehicleId], s.trucks[bindings[j].truck.vehicleId]),
                                      s.trucks[bindings[j].truck.vehicleId].route))
    && (forall tid <- s.trucks :: exists j :: 0 <= j < |bindings| && bindings[j].truck.vehicleId == tid)
    && (forall i, j :: 0 <= i < j < |bindings| ==> bindings[i].truck.vehicleId != bindings[j].truck.vehicleId)
  }

  lemma BindingAt(s: Store, fleet: map<int, Truck>, bindings: seq<TruckBinding>, j: nat)
    requires FleetKnown(fleet) && s.trucks.Keys <= fleet.Keys && InOrder(bindings, BindingsOf(LinksOf(fleet, s.trucks)))
    requires j < |bindings|
    ensures |bindings| == |Sorted(s.trucks.Keys)| && bindings[j].truck.vehicleId == Sorted(s.trucks.Keys)[j]
    ensures var tid := Sorted(s.trucks.Keys)[j];
      tid in s.trucks && tid in fleet && bindings[j] == BindingOf(CandidateLink(fleet[tid], s.trucks[tid]), s.trucks[tid].route)
  {
    hide NamedBack, FleetStates, Store.Valid, Store.AllBuilt, Store.Model;
    var links, ids := LinksOf(fleet, s.trucks), Sorted(s.trucks.Keys);
    assert BindingsOf(links).Keys == s.trucks.Keys;
    assert ids[j] in ids;
    assert links[ids[j]] == CandidateLink(fleet[ids[j]], s.trucks[ids[j]]);
  }

  lemma BindingCount(s: Store, fleet: map<int, Truck>, bindings: seq<TruckBinding>)
    requires s.trucks.Keys <= fleet.Keys && InOrder(bindings, BindingsOf(LinksOf(fleet, s.trucks)))
    ensures |bindings| == |Sorted(s.trucks.Keys)|
  {
    assert BindingsOf(LinksOf(fleet, s.trucks)).Keys == s.trucks.Keys;
  }

  lemma BindingsInOrder(s: Store, fleet: map<int, Truck>, bindings: seq<TruckBinding>)
    requires FleetKnown(fleet) && s.trucks.Keys <= fleet.Keys && InOrder(bindings, BindingsOf(LinksOf(fleet, s.trucks)))
    ensures BindsCandidates(s, fleet, bindings)
  {
    hide InOrder, BindingsOf, LinksOf, BindingOf, Store.Valid, Store.AllBuilt, Store.Model, Sorted;
    var ids := Sorted(s.trucks.Keys);
    BindingCount(s, fleet, bindings);
    forall j | 0 <= j < |bindings|
      ensures bindings[j].truck.vehicleId == ids[j] && ids[j] in s.trucks && ids[j] in fleet
      ensures bindings[j] == BindingOf(CandidateLink(fleet[ids[j]], s.trucks[ids[j]]), s.trucks[ids[j]].route)
    {
      BindingAt(s, fleet, bindings, j);
    }
    forall tid <- s.trucks ensures exists j :: 0 <= j < |bindings| && bindings[j].truck.vehicleId == tid {
      assert tid in ids;
      var j :| 0 <= j < |ids| && ids[j] == tid;
      assert bindings[j].truck.vehicleId == tid;
    }
  }

  lemma CandidatesApart(s: Store, fleet: map<int, Truck>, bindings: seq<TruckBinding>)
    requires BindsCandidates(s, fleet, bindings) && NamedBack(s)
    requires forall tid <- s.trucks :: s.trucks[tid].vehicleId == tid
    ensures BindingsApart(bindings)
  {
  }

  // ----- putting a prepared world on the fleet

  /** A handover: the prepared store, the live fleet, its list and its states, and the bindings that go on it. */
  datatype Handover = Handover(s: Store, fleet: map<int, Truck>, list: seq<Truck>, states: map<int, TruckState>, bindings: seq<TruckBinding>)

  /** One route or truck of a handover. */
  datatype Entry = Entry(of: Handover, id: int)

  /** The fleet as a list and by id. */
  ghost predicate Lists(list: seq<Truck>, fleet: map<int, Truck>) {
    FleetKnown(fleet) && (forall t <- list :: t.vehicleId in fleet && fleet[t.vehicleId] == t) && (forall tid <- fleet :: fleet[tid] in list)
  }

  /** The prepared objects are not live ones. */
  ghost predicate Separate(s: Store, fleet: map<int, Truck>, list: seq<Truck>)
    reads s, list
  {
    && WorldStateLinker.Detached(s, fleet)
    && (forall t <- list :: t.route != null ==> t.route !in s.routes.Values)
  }

  ghost predicate Planned(c: Handover)
    reads c.s, c.s.customers.Values, c.s.packages.Values, c.s.routes.Values, c.s.trucks.Values, c.list, c.fleet.Values
  {
    && FleetStates(c.fleet) == c.states && SameMake(c.s.Model().trucks, c.states)
    && c.s.Valid() && c.s.AllBuilt() && Lists(c.list, c.fleet) && Separate(c.s, c.fleet, c.list)
    && NamedBack(c.s) && BindsCandidates(c.s, c.fleet, c.bindings)
  }

  /** What a replacement leaves: the bindings in force, unbound trucks free, other fields as they were. */
  twostate predicate Replaced(c: Handover)
    reads c.s, c.s.customers.Values, c.s.packages.Values, c.s.routes.Values, c.list
    reads TrucksBound(c.bindings), RoutesBound(c.bindings)
  {
    && c.s.customers == old(c.s.customers) && c.s.packages == old(c.s.packages) && c.s.routes == old(c.s.routes) && c.s.trucks == c.fleet
    && (forall cid <- c.s.customers :: unchanged(c.s.customers[cid]))
    && (forall pid <- c.s.packages :: unchanged(c.s.packages[pid]))
    && (forall rid <- c.s.routes ::
          var r: DeliveryRoute := c.s.routes[rid];
          unchanged(r`packages, r`status, r`schedule, r`events))
    && (forall rid <- c.s.routes :: c.s.routes[rid] !in RoutesBound(c.bindings) ==> c.s.routes[rid].truck == old(c.s.routes[rid].truck))
    && (forall b <- c.bindings :: Bound(b))
    && (forall t <- c.list :: t !in TrucksBound(c.bindings) ==> Cleared(t, old(t.location)))
  }

  /** Each route of the store is served by the fleet truck whose candidate it had. */
  twostate lemma RouteHandedOver(e: Entry)
    requires old(Planned(e.of)) && Replaced(e.of) && e.id in e.of.s.routes
    ensures e.id in old(e.of.s.routes) && e.of.s.routes[e.id] == old(e.of.s.routes[e.id])
    ensures e.of.s.routes[e.id].State() == old(e.of.s.routes[e.id].State())
    ensures e.of.s.RouteKept(e.id) && e.of.s.routes[e.id].Built()
  {
    hide SameMake, FleetStates, Separate, Lists, Store.Model, Cleared, Covers, TrucksBound;
    assert old(e.of.s.RouteKept(e.id) && e.of.s.routes[e.id].Built());
    var r := e.of.s.routes[e.id];
    if old(r.truck) != null {
      var tid := old(r.truck).vehicleId;
      assert old(e.of.s.HasTruck(r.truck)) && old(e.of.s.trucks[tid].route) == r;
      var j :| 0 <= j < |e.of.bindings| && e.of.bindings[j].truck.vehicleId == tid;
      assert e.of.bindings[j] in e.of.bindings && Bound(e.of.bindings[j]);
    }
  }

  twostate lemma CargoHandedOver(c: Handover)
    requires old(Planned(c)) && Replaced(c)
    ensures forall pid {:trigger c.s.PackageKept(pid)} :: pid in c.s.packages ==> c.s.PackageKept(pid)
    ensures forall cid {:trigger c.s.CustomerKept(cid)} :: cid in c.s.customers ==> c.s.CustomerKept(cid)
    ensures c.s.Model().packages == old(c.s.Model()).packages && c.s.Model().customers == old(c.s.Model()).customers
    ensures c.s.routes == old(c.s.routes) && c.s.trucks == c.fleet && c.states.Keys == c.fleet.Keys
  {
    forall pid | pid in c.s.packages ensures c.s.PackageKept(pid) { assert old(c.s.PackageKept(pid)); }
    forall cid | cid in c.s.customers ensures c.s.CustomerKept(cid) { assert old(c.s.CustomerKept(cid)); }
    forall cid <- c.s.customers ensures c.s.Model().customers[cid] == old(c.s.Model()).customers[cid] {}
    forall pid <- c.s.packages ensures c.s.Model().packages[pid] == old(c.s.Model()).packages[pid] {}
  }

  /** Each fleet truck has its candidate's state, or is free where it stood. */
  twostate lemma TruckHandedOver(e: Entry)
    requires old(Planned(e.of)) && Replaced(e.of) && e.id in e.of.fleet
    ensures e.of.fleet[e.id].vehicleId == e.id && e.of.fleet[e.id].State() == HandedOver(e.of.states, old(e.of.s.Model()).trucks)[e.id]
    ensures e.of.fleet[e.id].route != null ==> e.of.s.HasRoute(e.of.fleet[e.id].route)
  {
    var t := e.of.fleet[e.id];
    if e.id in old(e.of.s.trucks) {
      var j :| 0 <= j < |e.of.bindings| && e.of.bindings[j].truck.vehicleId == e.id;
      assert e.of.bindings[j] in e.of.bindings && Bound(e.of.bindings[j]);
      assert old(e.of.s.trucks[e.id].State()) == old(e.of.s.Model()).trucks[e.id];
    } else {
      assert t !in TrucksBound(e.of.bindings);
      assert Cleared(t, old(t.location));
    }
  }

  /** The store on its fleet: every reference names what is stored, and the world is the prepared one on that fleet. */
  twostate lemma HandedOverStanding(c: Handover)
    requires old(Planned(c)) && Replaced(c)
    ensures c.s.Standing() == Some(old(c.s.Model()).(trucks := HandedOver(c.states, old(c.s.Model()).trucks)))
  {
    hide Planned, Replaced;
    CargoHandedOver(c);
    var v, w, trucks := c.s.Model(), old(c.s.Model()), HandedOver(c.states, old(c.s.Model()).trucks);
    forall rid | rid in c.s.routes ensures c.s.RouteKept(rid) && c.s.routes[rid].Built() {
      RouteHandedOver(Entry(c, rid));
    }
    forall tid | tid in c.s.trucks ensures c.s.TruckKept(tid) {
      TruckHandedOver(Entry(c, tid));
    }
    forall rid <- c.s.routes ensures v.routes[rid] == w.routes[rid] { RouteHandedOver(Entry(c, rid)); }
    forall tid <- c.s.trucks ensures v.trucks[tid] == trucks[tid] { TruckHandedOver(Entry(c, tid)); }
    assert v.trucks.Keys == trucks.Keys && v.routes.Keys == w.routes.Keys;
    assert v.trucks == trucks && v.routes == w.routes;
    SameWorld(v, w.(trucks := trucks));
  }

  lemma LinksNamedBack(s: Store, fleet: map<int, Truck>)
    requires s.Standing().Some? && NamedBack(s) && s.trucks.Keys <= fleet.Keys
    ensures CandidatesNamedBack(s.routes, LinksOf(fleet, s.trucks)) && forall tid <- s.trucks :: s.trucks[tid].vehicleId == tid
  {
    hide Store.AllBuilt, Store.Model;
    forall tid <- s.trucks ensures s.TruckKept(tid) {}
  }

  /** The bindings of a prepared store. */
  method BindCandidates(s: Store, records: seq<RouteRecord>, fleet: map<int, Truck>, ghost w: World)
    returns (bindings: seq<TruckBinding>)
    requires s.Standing() == Some(w) && RecordsStored(records, w) && NamedBack(s) && FleetKnown(fleet) && s.trucks.Keys <= fleet.Keys
    ensures BindsCandidates(s, fleet, bindings) && BindingsApart(bindings)
  {
    hide Store.Standing, Store.Valid, Store.AllBuilt, Store.Model, NamedBack, InOrder, BindingsOf, BindsCandidates,
         LinksOf, FleetKnown;
    StandsFor(s, w);
    LinksNamedBack(s, fleet);
    var candidates := LinksOf(fleet, s.trucks);
    var byRoute := LinksByRoute(records, candidates);
    var built := BuildTruckBindings(records, s.routes, byRoute, candidates);
    bindings := built.value;
    BindingsInOrder(s, fleet, bindings);
    CandidatesApart(s, fleet, bindings);
  }

  lemma BoundsWithin(s: Store, fleet: map<int, Truck>, list: seq<Truck>, bindings: seq<TruckBinding>)
    requires BindsCandidates(s, fleet, bindings) && NamedBack(s) && Lists(list, fleet)
    ensures TrucksBound(bindings) <= set t <- list
    ensures RoutesBound(bindings) <= s.routes.Values
  {
    forall b <- bindings ensures b.truck in list && (b.route != null ==> b.route in s.routes.Values) {
      var j :| 0 <= j < |bindings| && bindings[j] == b;
      assert b.route != null ==> s.HasRoute(b.route);
    }
  }

  lemma CandidatesAreKnown(s: Store, fleet: map<int, Truck>, w: World)
    requires s.Standing() == Some(w) && SameMake(w.trucks, FleetStates(fleet))
    ensures s.trucks.Keys <= fleet.Keys
  {
    forall tid <- s.trucks ensures tid in fleet { assert tid in w.trucks && tid in FleetStates(fleet); }
  }

  lemma LiveRoutesApart(s: Store, fleet: map<int, Truck>, list: seq<Truck>)
    requires s.Standing().Some? && Separate(s, fleet, list)
    ensures forall r <- RoutesLeft(list) :: r !in s.routes.Values
  {
  }

  lemma HandoverPlanned(c: Handover, w: World)
    requires c.s.Standing() == Some(w) && FleetStates(c.fleet) == c.states && SameMake(w.trucks, c.states)
    requires Lists(c.list, c.fleet) && Separate(c.s, c.fleet, c.list) && NamedBack(c.s) && BindsCandidates(c.s, c.fleet, c.bindings)
    ensures Planned(c)
    ensures TrucksBound(c.bindings) <= (set t <- c.list) && RoutesBound(c.bindings) <= c.s.routes.Values
    ensures forall r <- RoutesLeft(c.list) :: r !in c.s.routes.Values
  {
    BoundsWithin(c.s, c.fleet, c.list, c.bindings);
    LiveRoutesApart(c.s, c.fleet, c.list);
    hide NamedBack, BindsCandidates, SameMake, FleetStates, RoutesLeft, TrucksBound, RoutesBound, Lists, Separate;
  }

  /** Replaces the bindings of the fleet and stores the fleet. */
  method ReplaceStored(s: Store, fleet: map<int, Truck>, list: seq<Truck>, bindings: seq<TruckBinding>, ghost c: Handover)
    returns (ok: bool)
    requires c.s == s && c.fleet == fleet && c.list == list && c.bindings == bindings && Planned(c) && BindingsApart(bindings)
    requires TrucksBound(bindings) <= (set t <- list) && RoutesBound(bindings) <= s.routes.Values
    requires forall r <- RoutesLeft(list) :: r !in s.routes.Values
    modifies s`trucks, s.routes.Values`truck, list, RoutesLeft(list)`truck
    ensures ok <==> old(Backlinked(list))
    ensures ok ==> s.trucks == fleet && Replaced(c)
    ensures ok ==> forall r <- old(RoutesLeft(list)) :: r.truck == null
  {
    hide Store.Valid, Store.AllBuilt, NamedBack, BindsCandidates, SameMake, FleetStates, Store.Model, Planned,
         BindingsApart, Backlinked,
         TrucksBound, RoutesBound, RoutesLeft, InForce, StopsAt, Lists, Separate, FleetKnown, BindingsFrom,
         LastOnTruck, LastOnRoute;
    ghost var stop;
    ok, stop := ReplaceTruckBindings(list, bindings);
    if !ok {
      return;
    }
    s.trucks := fleet;
  }

  /** Plans the handover of a prepared store. */
  method PlanHandover(s: Store, records: seq<RouteRecord>, fleet: map<int, Truck>, list: seq<Truck>,
                      ghost w: World, ghost states: map<int, TruckState>) returns (bindings: seq<TruckBinding>)
    requires s.Standing() == Some(w) && TrucksTwoWay(w) && SameMake(w.trucks, states) && RecordsStored(records, w)
    requires Lists(list, fleet) && FleetStates(fleet) == states && Separate(s, fleet, list)
    ensures Planned(Handover(s, fleet, list, states, bindings)) && BindingsApart(bindings) && s.Model() == w
    ensures TrucksBound(bindings) <= (set t <- list) && RoutesBound(bindings) <= s.routes.Values
    ensures forall r <- RoutesLeft(list) :: r !in s.routes.Values
  {
    LinksAreObjects(s, w);
    CandidatesAreKnown(s, fleet, w);
    hide Store.Valid, Store.AllBuilt, NamedBack, BindsCandidates, SameMake, FleetStates, RecordsStored, TrucksTwoWay,
         Store.Model,
         BindingsApart, Planned;
    bindings := BindCandidates(s, records, fleet, w);
    HandoverPlanned(Handover(s, fleet, list, states, bindings), w);
  }

  /** Puts a prepared store on the live fleet: its trucks become the fleet's, each with its candidate's state and its
      route naming it back, and every other fleet truck is free. Fails exactly when a live route does not name the
      truck that serves it. */
  method HandOver(s: Store, records: seq<RouteRecord>, fleet: map<int, Truck>, list: seq<Truck>,
                  ghost w: World, ghost states: map<int, TruckState>) returns (ok: bool)
    requires s.Standing() == Some(w) && TrucksTwoWay(w) && SameMake(w.trucks, states) && RecordsStored(records, w)
    requires Lists(list, fleet) && FleetStates(fleet) == states && Separate(s, fleet, list)
    modifies s`trucks, s.routes.Values`truck, list, RoutesLeft(list)`truck
    ensures ok <==> old(Backlinked(list))
    ensures ok ==> s.trucks == fleet && s.Standing() == Some(w.(trucks := HandedOver(states, w.trucks)))
    ensures ok ==> forall r <- old(RoutesLeft(list)) :: r.truck == null
  {
    hide Store.Valid, Store.AllBuilt, Store.Standing, Store.Model, NamedBack, SameMake, FleetStates, RecordsStored,
         TrucksTwoWay, Planned,
         Replaced, Separate, Lists, HandedOver, BindingsApart;
    var bindings := PlanHandover(s, records, fleet, list, w, states);
    ghost var c := Handover(s, fleet, list, states, bindings);
    label AfterPlan:
    ok := ReplaceStored(s, fleet, list, bindings, c);
    if ok {
      HandedOverStanding@AfterPlan(c);
    }
  }

  // ----- from a snapshot to the live fleet

  lemma PreparedFits(snapshot: Snapshot, supported: set<int>, states: map<int, TruckState>, rules: ContactRules, now: Time)
    requires Verdict(snapshot, supported, states, rules) == Passed && RebuildFinding(snapshot, rules) == Passed
    ensures Prepare(snapshot, supported, states, rules, now).Ok?
    ensures FitsFleet(Prepare(snapshot, supported, states, rules, now).value, states)
    ensures RecordsStored(snapshot.routes, Prepare(snapshot, supported, states, rules, now).value)
  {
    hide Verdict, RebuildFinding, Prepare, FitsFleet, RecordsStored, LinkedWorld, Pass, Consistent, Buildable,
         Traceable;
    PreparedWorld(snapshot, supported, states, rules, now);
    RestoredFits(snapshot, states, now);
  }

  /** Prepares a snapshot and puts it on the live fleet. When a check fails or a live route does not name the truck that
      serves it, the caller is told; otherwise the store stands for the prepared world on its fleet, on the live trucks
      themselves. A snapshot that is refused changes nothing. */
  method RestoreSnapshot(snapshot: Snapshot, supported: set<int>, fleet: map<int, Truck>, list: seq<Truck>, rules: ContactRules, now: Time)
    returns (found: Finding, ok: bool, s: Store)
    requires Lists(list, fleet)
    modifies list, RoutesLeft(list)`truck
    ensures found != Passed ==>
      old(Prepare(snapshot, supported, FleetStates(fleet), rules, now)) == Err(found) && FleetStates(fleet) == old(FleetStates(fleet))
    ensures found == Passed ==> (ok <==> old(Backlinked(list)))
    ensures found == Passed && ok ==>
      var prepared := Prepare(snapshot, supported, old(FleetStates(fleet)), rules, now);
      s.trucks == fleet && prepared.Ok? && s.Standing() == Some(OnFleet(prepared.value, old(FleetStates(fleet))))
  {
    hide Verdict, RebuildFinding, Prepare, FitsFleet, RecordsStored, Store.Standing, OnFleet, FleetStates;
    ghost var states := FleetStates(fleet);
    ok := false;
    found, s := PrepareSnapshot(snapshot, supported, fleet, rules, now);
    StatesStay(fleet);
    if found != Passed {
      return;
    }
    PreparedFits(snapshot, supported, states, rules, now);
    ghost var w := Prepare(snapshot, supported, states, rules, now).value;
    FitsIs(w, states);
    forall tid <- s.trucks ensures s.trucks[tid] !in fleet.Values {
      assert s.trucks[tid] in s.trucks.Values;
    }
    forall t <- list | t.route != null ensures t.route !in s.routes.Values {
      assert t.route == old(t.route);
    }
    ok := HandOver(s, snapshot.routes, fleet, list, w, states);
  }

  twostate lemma StatesStay(fleet: map<int, Truck>)
    requires forall t <- fleet.Values :: unchanged(t)
    ensures FleetStates(fleet) == old(FleetStates(fleet))
  {
  }

  lemma FitsIs(w: World, states: map<int, TruckState>)
    requires FitsFleet(w, states)
    ensures TrucksTwoWay(w) && SameMake(w.trucks, states) && OnFleet(w, states) == w.(trucks := HandedOver(states, w.trucks))
  {
  }
}
