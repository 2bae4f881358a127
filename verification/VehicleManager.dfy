/** Truck bindings: made from the candidates of a prepared world, and put on the trucks of the live fleet. */
module VehicleManager {
  import opened Common
  import opened CityMap
  import opened Fleet
  import opened Entities
  import opened Snapshots

  /** A live truck and the candidate that stands for it. */
  datatype CandidateLink = CandidateLink(live: Truck, candidate: Truck)

  /** What a live truck is to become. */
  datatype TruckBinding = TruckBinding(
    truck: Truck,
    route: DeliveryRoute?,
    status: TruckStatus,
    location: Option<LocationCode>,
    busyFrom: Option<Time>,
    busyUntil: Option<Time>,
    inTransitTo: Option<LocationCode>)

  function BindingOf(link: CandidateLink, route: DeliveryRoute?): TruckBinding
    reads link.candidate
  {
    var c := link.candidate;
    TruckBinding(link.live, route, c.status, c.location, c.busyFrom, c.busyUntil, c.inTransitTo)
  }

  function CandidateTrucks(candidates: map<int, CandidateLink>): set<Truck> {
    set tid <- candidates :: candidates[tid].candidate
  }

  /** The binding of every candidate, with the route it has. */
  ghost function BindingsOf(candidates: map<int, CandidateLink>): map<int, TruckBinding>
    reads CandidateTrucks(candidates)
  {
    map tid <- candidates :: BindingOf(candidates[tid], candidates[tid].candidate.route)
  }

  twostate lemma BindingsStay(candidates: map<int, CandidateLink>)
    requires forall t <- CandidateTrucks(candidates) :: unchanged(t)
    ensures BindingsOf(candidates) == old(BindingsOf(candidates))
  {
    forall tid <- candidates ensures BindingsOf(candidates)[tid] == old(BindingsOf(candidates))[tid] {
      assert candidates[tid].candidate in CandidateTrucks(candidates);
    }
    assert BindingsOf(candidates).Keys == old(BindingsOf(candidates)).Keys;
  }

  // ----- links by route

  /** The link of every route that names a truck. */
  ghost predicate LinksFollow(records: seq<RouteRecord>, byRoute: map<int, CandidateLink>, candidates: map<int, CandidateLink>) {
    forall k {:trigger records[k]} :: 0 <= k < |records| && records[k].truck.To? ==>
      records[k].truck.id in candidates && records[k].id in byRoute && byRoute[records[k].id] == candidates[records[k].truck.id]
  }

  method LinksByRoute(records: seq<RouteRecord>, candidates: map<int, CandidateLink>)
    returns (byRoute: map<int, CandidateLink>)
    requires NoDup(RouteIdsIn(records))
    requires forall k {:trigger records[k]} :: 0 <= k < |records| && records[k].truck.To? ==> records[k].truck.id in candidates
    ensures LinksFollow(records, byRoute, candidates)
  {
    byRoute := map[];
    for i := 0 to |records|
      invariant forall k {:trigger records[k]} :: 0 <= k < i && records[k].truck.To? ==>
        records[k].id in byRoute && byRoute[records[k].id] == candidates[records[k].truck.id]
    {
      if records[i].truck.To? {
        assert forall k :: 0 <= k < i ==> RouteIdsIn(records)[k] != RouteIdsIn(records)[i];
        byRoute := byRoute[records[i].id := candidates[records[i].truck.id]];
      }
    }
  }

  // ----- bindings

  /** A route that holds a candidate is the route of that candidate. */
  ghost predicate CandidatesNamedBack(routes: map<int, DeliveryRoute>, candidates: map<int, CandidateLink>)
    reads routes.Values, CandidateTrucks(candidates)
  {
    forall rid <- routes, tid <- candidates :: routes[rid].truck == candidates[tid].candidate ==> candidates[tid].candidate.route == routes[rid]
  }

  method CandidateBindings(candidates: map<int, CandidateLink>) returns (bindings: map<int, TruckBinding>)
    ensures bindings == BindingsOf(candidates)
  {
    bindings := map[];
    ghost var target := BindingsOf(candidates);
    var rest := candidates.Keys;
    while rest != {}
      invariant rest <= candidates.Keys && bindings.Keys == candidates.Keys - rest
      invariant forall tid <- bindings :: bindings[tid] == target[tid]
      decreases |rest|
    {
      assert (forall x :: x !in rest) ==> rest == {};
      var tid :| tid in rest;
      bindings := bindings[tid := BindingOf(candidates[tid], candidates[tid].candidate.route)];
      rest := rest - {tid};
    }
    assert bindings.Keys == target.Keys;
    assert forall tid <- target :: bindings[tid] == target[tid];
    assert bindings == target;
  }

  /** The bindings once a route that named a truck is considered: it counts only while it still holds the candidate. */
  ghost function WithRoute(bindings: map<int, TruckBinding>, tid: int, route: DeliveryRoute, link: CandidateLink): map<int, TruckBinding>
    reads route, link.candidate
  {
    if route.truck == link.candidate then bindings[tid := BindingOf(link, route)]
    else if tid in bindings then bindings
    else bindings[tid := BindingOf(link, null)]
  }

  lemma RouteAddsNothing(routes: map<int, DeliveryRoute>, candidates: map<int, CandidateLink>, rid: int, tid: int)
    requires CandidatesNamedBack(routes, candidates) && rid in routes && tid in candidates
    ensures WithRoute(BindingsOf(candidates), tid, routes[rid], candidates[tid]) == BindingsOf(candidates)
  {
  }

  /** The binding of one route's truck, unless the route has let it go. */
  method RouteBinding(record: RouteRecord, routes: map<int, DeliveryRoute>, byRoute: map<int, CandidateLink>,
                      bindings: map<int, TruckBinding>) returns (r: Option<map<int, TruckBinding>>)
    requires record.truck.To?
    ensures r.Some? <==> record.id in byRoute && record.id in routes
    ensures r.Some? ==> r.value == WithRoute(bindings, record.truck.id, routes[record.id], byRoute[record.id])
  {
    if record.id !in byRoute || record.id !in routes {
      return None;
    }
    var link, route := byRoute[record.id], routes[record.id];
    var bound := if route.truck == link.candidate then route else null;
    if bound == null && record.truck.id in bindings {
      return Some(bindings);
    }
    return Some(bindings[record.truck.id := BindingOf(link, bound)]);
  }

  /** Values in the order of their keys. */
  ghost predicate InOrder(list: seq<TruckBinding>, bindings: map<int, TruckBinding>) {
    |list| == |Sorted(bindings.Keys)| && forall j :: 0 <= j < |list| ==> list[j] == bindings[Sorted(bindings.Keys)[j]]
  }

  method OrderedBindings(bindings: map<int, TruckBinding>) returns (list: seq<TruckBinding>)
    ensures InOrder(list, bindings)
  {
    var ids := Sorted(bindings.Keys);
    list := [];
    for j := 0 to |ids|
      invariant |list| == j && forall k :: 0 <= k < j ==> list[k] == bindings[ids[k]]
    {
      list := list + [bindings[ids[j]]];
    }
  }

  /** Every record that names a truck has its link and its route. */
  ghost predicate RecordsResolve(records: seq<RouteRecord>, routes: map<int, DeliveryRoute>, byRoute: map<int, CandidateLink>) {
    forall k {:trigger records[k]} :: 0 <= k < |records| && records[k].truck.To? ==> records[k].id in byRoute && records[k].id in routes
  }

  /** The bindings once the records have been considered in order. */
  ghost function BindingsFrom(records: seq<RouteRecord>, routes: map<int, DeliveryRoute>, byRoute: map<int, CandidateLink>,
                              bindings: map<int, TruckBinding>): map<int, TruckBinding>
    requires RecordsResolve(records, routes, byRoute)
    reads routes.Values, CandidateTrucks(byRoute)
  {
    if records == [] then bindings
    else
      var n := |records| - 1;
      assert forall k {:trigger records[..n][k]} :: 0 <= k < n ==> records[..n][k] == records[k];
      var earlier := BindingsFrom(records[..n], routes, byRoute, bindings);
      if records[n].truck.Unlinked? then earlier
      else WithRoute(earlier, records[n].truck.id, routes[records[n].id], byRoute[records[n].id])
  }

  /** Behind a linked world the routes add nothing to the bindings of the candidates. */
  lemma {:induction false} LinkedRoutesAddNothing(records: seq<RouteRecord>, routes: map<int, DeliveryRoute>, byRoute: map<int, CandidateLink>,
                                                  candidates: map<int, CandidateLink>)
    requires RecordsResolve(records, routes, byRoute)
    requires LinksFollow(records, byRoute, candidates) && CandidatesNamedBack(routes, candidates)
    ensures BindingsFrom(records, routes, byRoute, BindingsOf(candidates)) == BindingsOf(candidates)
  {
    if records != [] {
      var n := |records| - 1;
      assert forall k {:trigger records[..n][k]} :: 0 <= k < n ==> records[..n][k] == records[k];
      LinkedRoutesAddNothing(records[..n], routes, byRoute, candidates);
      if records[n].truck.To? {
        RouteAddsNothing(routes, candidates, records[n].id, records[n].truck.id);
      }
    }
  }

  /** The records, their routes and links, and the bindings they start from. */
  datatype BindingInput = BindingInput(records: seq<RouteRecord>, routes: map<int, DeliveryRoute>, byRoute: map<int, CandidateLink>,
                                       bindings: map<int, TruckBinding>)

  twostate lemma {:induction false} BindingsFromStay(c: BindingInput)
    requires RecordsResolve(c.records, c.routes, c.byRoute)
    requires forall r <- c.routes.Values :: unchanged(r)
    requires forall t <- CandidateTrucks(c.byRoute) :: unchanged(t)
    ensures BindingsFrom(c.records, c.routes, c.byRoute, c.bindings) == old(BindingsFrom(c.records, c.routes, c.byRoute, c.bindings))
    decreases |c.records|
  {
    if c.records != [] {
      var n := |c.records| - 1;
      assert forall k {:trigger c.records[..n][k]} :: 0 <= k < n ==> c.records[..n][k] == c.records[k];
      BindingsFromStay(c.(records := c.records[..n]));
      if c.records[n].truck.To? {
        assert c.routes[c.records[n].id] in c.routes.Values && c.byRoute[c.records[n].id].candidate in CandidateTrucks(c.byRoute);
      }
    }
  }

  lemma BindingsNext(records: seq<RouteRecord>, i: nat, routes: map<int, DeliveryRoute>, byRoute: map<int, CandidateLink>,
                     bindings: map<int, TruckBinding>)
    requires i < |records| && RecordsResolve(records[..i + 1], routes, byRoute)
    ensures RecordsResolve(records[..i], routes, byRoute) && (records[i].truck.To? ==>
      records[i].id in byRoute && records[i].id in routes)
    ensures BindingsFrom(records[..i + 1], routes, byRoute, bindings) == (
      var earlier := BindingsFrom(records[..i], routes, byRoute, bindings);
      if records[i].truck.Unlinked? then earlier else WithRoute(earlier, records[i].truck.id, routes[records[i].id], byRoute[records[i].id]))
  {
    assert records[..i + 1][..i] == records[..i] && records[..i + 1][i] == records[i];
    assert forall k {:trigger records[..i][k]} :: 0 <= k < i ==> records[..i][k] == records[..i + 1][k];
  }

  lemma ResolvesNext(records: seq<RouteRecord>, i: nat, routes: map<int, DeliveryRoute>, byRoute: map<int, CandidateLink>)
    requires i < |records| && RecordsResolve(records[..i], routes, byRoute)
    ensures RecordsResolve(records[..i + 1], routes, byRoute)
       <==> records[i].truck.To? ==> records[i].id in byRoute && records[i].id in routes
    ensures records[i].truck.To? && !(records[i].id in byRoute && records[i].id in routes) ==>
      !RecordsResolve(records, routes, byRoute)
  {
    assert records[..i + 1][i] == records[i];
    assert forall k {:trigger records[..i + 1][k]} :: 0 <= k < i ==> records[..i + 1][k] == records[..i][k];
  }

  /** The bindings of a prepared world, smallest truck id first. Naming a route that is missing ends the building. A
      binding starts from its candidate; a route of the records overrides it while the route still holds the candidate.
      Behind a linked world that leaves one binding for each candidate, with the state and the route it has now. */
  method BuildTruckBindings(records: seq<RouteRecord>, routes: map<int, DeliveryRoute>, byRoute: map<int, CandidateLink>,
                            candidates: map<int, CandidateLink>) returns (r: Option<seq<TruckBinding>>)
    ensures r.Some? <==> RecordsResolve(records, routes, byRoute)
    ensures r.Some? ==> InOrder(r.value, BindingsFrom(records, routes, byRoute, BindingsOf(candidates)))
    ensures r.Some? && LinksFollow(records, byRoute, candidates) && CandidatesNamedBack(routes, candidates) ==>
      InOrder(r.value, BindingsOf(candidates))
  {
    hide WithRoute, InOrder, BindingsOf, BindingsFrom, RecordsResolve;
    var bindings := CandidateBindings(candidates);
    BindingsStay(candidates);
    ghost var start := bindings;
    NoRecords(routes, byRoute, start);
    BindingsFromStay(BindingInput([], routes, byRoute, start));
    assert records[..0] == [];
    for i := 0 to |records|
      invariant start == BindingsOf(candidates) == old(BindingsOf(candidates))
      invariant RecordsResolve(records[..i], routes, byRoute) && bindings == old(BindingsFrom(records[..i], routes, byRoute, start))
    {
      ResolvesNext(records, i, routes, byRoute);
      if records[i].truck.To? {
        var next := RouteBinding(records[i], routes, byRoute, bindings);
        if next.None? {
          return None;
        }
        bindings := next.value;
      }
      BindingsNext(records, i, routes, byRoute, start);
      BindingsFromStay(BindingInput(records[..i], routes, byRoute, start));
      BindingsFromStay(BindingInput(records[..i + 1], routes, byRoute, start));
      BindingsStay(candidates);
    }
    WholeSlice(records);
    var list := OrderedBindings(bindings);
    BindingsStay(candidates);
    BindingsFromStay(BindingInput(records, routes, byRoute, start));
    if LinksFollow(records, byRoute, candidates) && CandidatesNamedBack(routes, candidates) {
      LinkedRoutesAddNothing(records, routes, byRoute, candidates);
    }
    return Some(list);
  }

  lemma NoRecords(routes: map<int, DeliveryRoute>, byRoute: map<int, CandidateLink>, bindings: map<int, TruckBinding>)
    ensures RecordsResolve([], routes, byRoute) && BindingsFrom([], routes, byRoute, bindings) == bindings
  {
  }

  // ----- the live fleet

  ghost function RoutesLeft(fleet: seq<Truck>): set<DeliveryRoute>
    reads fleet
  {
    set t <- fleet | t.route != null :: t.route
  }

  function TrucksBound(bindings: seq<TruckBinding>): set<Truck> {
    set b <- bindings :: b.truck
  }

  function RoutesBound(bindings: seq<TruckBinding>): set<DeliveryRoute> {
    set b <- bindings | b.route != null :: b.route
  }

  /** Every route a truck of the fleet serves names it back. */
  ghost predicate Backlinked(fleet: seq<Truck>)
    reads fleet, RoutesLeft(fleet)
  {
    forall t <- fleet :: t.route != null ==> t.route.truck == t
  }

  /** Free, on no route, and where it stands. */
  ghost predicate Cleared(t: Truck, location: Option<LocationCode>)
    reads t
  {
    t.SnapshotState() == Entities.TruckSnapshot(null, FREE, location, None, None, None)
  }

  /** Takes one truck off its route, unless the route does not name it back. */
  method TakeOff(truck: Truck) returns (ok: bool)
    modifies truck, RoutesLeft([truck])`truck
    ensures ok <==> old(truck.route != null ==> truck.route.truck == truck)
    ensures ok ==> Cleared(truck, old(truck.location)) && (old(truck.route) != null ==> old(truck.route).truck == null)
    ensures !ok ==> unchanged(truck) && old(truck.route).truck == old(truck.route.truck)
  {
    var served := truck.route;
    if served != null {
      assert truck in [truck] && served in RoutesLeft([truck]);
      if served.truck != truck {
        return false;
      }
      served.truck := null;
    }
    truck.route, truck.status := null, FREE;
    truck.busyFrom, truck.busyUntil, truck.inTransitTo := None, None, None;
    return true;
  }

  /** The fleet up to a truck whose route does not name it back, or all of it. */
  ghost predicate StopsAt(fleet: seq<Truck>, stop: nat)
    reads fleet, RoutesLeft(fleet)
  {
    && stop <= |fleet|
    && (forall t <- fleet[..stop] :: t.route != null ==> t.route.truck == t)
    && (stop < |fleet| ==> fleet[stop].route != null && fleet[stop].route.truck != fleet[stop])
  }

  /** Takes every truck of the fleet off its route; stops at a route that does not name its truck back. */
  method ClearFleet(fleet: seq<Truck>) returns (ok: bool, ghost stop: nat)
    modifies fleet, RoutesLeft(fleet)`truck
    ensures old(StopsAt(fleet, stop)) && (ok <==> stop == |fleet|)
    ensures forall t <- fleet[..stop] :: Cleared(t, old(t.location))
    ensures forall r <- old(RoutesLeft(fleet)) :: r.truck == if r in old(RoutesLeft(fleet[..stop])) then null else old(r.truck)
  {
    for i := 0 to |fleet|
      invariant forall t <- fleet[..i] :: Cleared(t, old(t.location))
      invariant forall t <- fleet :: t in fleet[..i] || t.SnapshotState() == old(t.SnapshotState())
      invariant forall t <- fleet[..i] :: old(t.route) != null ==> old(t.route.truck) == t
      invariant forall r <- old(RoutesLeft(fleet)) :: r.truck == if r in old(RoutesLeft(fleet[..i])) then null else old(r.truck)
    {
      assert fleet[..i + 1] == fleet[..i] + [fleet[i]];
      assert fleet[i] !in fleet[..i] ==> fleet[i].route == old(fleet[i].route) by {
        assert fleet[i].SnapshotState().route == fleet[i].route;
      }
      ok := TakeOff(fleet[i]);
      if !ok {
        return false, i;
      }
    }
    assert fleet[..|fleet|] == fleet;
    return true, |fleet|;
  }

  /** No truck and no route is bound twice. */
  ghost predicate BindingsApart(bindings: seq<TruckBinding>) {
    forall i, j :: 0 <= i < j < |bindings| ==>
      bindings[i].truck != bindings[j].truck && (bindings[i].route == null || bindings[i].route != bindings[j].route)
  }

  /** The truck is as its binding says, and the route it serves names it back. */
  ghost predicate Bound(b: TruckBinding)
    reads b.truck, b.route
  {
    && b.truck.SnapshotState() == Entities.TruckSnapshot(b.route, b.status, b.location, b.busyFrom, b.busyUntil, b.inTransitTo)
    && (b.route != null ==> b.route.truck == b.truck)
  }

  /** Among the first `n` bindings, none after this one is about the same truck. */
  predicate LastOnTruck(bindings: seq<TruckBinding>, i: nat, n: nat)
    requires i < n <= |bindings|
  {
    forall j :: i < j < n ==> bindings[j].truck != bindings[i].truck
  }

  /** The binding has a route, and none after it among the first `n` has the same. */
  predicate LastOnRoute(bindings: seq<TruckBinding>, i: nat, n: nat)
    requires i < n <= |bindings|
  {
    bindings[i].route != null && forall j :: i < j < n ==> bindings[j].route != bindings[i].route
  }

  /** The last binding of a truck gives its state, and the last binding with a route gives the truck of that route. */
  ghost predicate InForce(bindings: seq<TruckBinding>, i: nat, n: nat)
    requires i < n <= |bindings|
    reads bindings[i].truck, bindings[i].route
  {
    var b := bindings[i];
    && (LastOnTruck(bindings, i, n) ==>
          b.truck.SnapshotState() == Entities.TruckSnapshot(b.route, b.status, b.location, b.busyFrom, b.busyUntil, b.inTransitTo))
    && (LastOnRoute(bindings, i, n) ==> b.route.truck == b.truck)
  }

  lemma ApartAreBound(bindings: seq<TruckBinding>)
    requires BindingsApart(bindings) && forall i :: 0 <= i < |bindings| ==> InForce(bindings, i, |bindings|)
    ensures forall b <- bindings :: Bound(b)
  {
    forall b <- bindings ensures Bound(b) {
      var i :| 0 <= i < |bindings| && bindings[i] == b;
      assert InForce(bindings, i, |bindings|);
    }
  }

  method ApplyBindings(bindings: seq<TruckBinding>)
    modifies TrucksBound(bindings), RoutesBound(bindings)`truck
    ensures forall i :: 0 <= i < |bindings| ==> InForce(bindings, i, |bindings|)
  {
    for i := 0 to |bindings|
      invariant forall j :: 0 <= j < i ==> InForce(bindings, j, i)
    {
      label Before:
      var binding := bindings[i];
      var truck, route := binding.truck, binding.route;
      assert binding in bindings && truck in TrucksBound(bindings);
      truck.status, truck.location := binding.status, binding.location;
      truck.busyFrom, truck.busyUntil, truck.inTransitTo := binding.busyFrom, binding.busyUntil, binding.inTransitTo;
      truck.route := route;
      if route != null {
        assert route in RoutesBound(bindings);
        route.truck := truck;
      }
      ghost var n := i + 1;
      forall j | 0 <= j < i ensures InForce(bindings, j, n) {
        assert old@Before(InForce(bindings, j, i));
        if LastOnTruck(bindings, j, n) {
          assert LastOnTruck(bindings, j, i) && bindings[j].truck != truck;
          assert bindings[j].truck.SnapshotState() == old@Before(bindings[j].truck.SnapshotState());
        }
        if LastOnRoute(bindings, j, n) {
          assert LastOnRoute(bindings, j, i) && bindings[j].route != route;
        }
      }
      assert InForce(bindings, i, n);
    }
  }

  /** Puts prepared bindings on the fleet. Afterwards every bound truck is as its last binding says, a bound route names
      the truck of its last binding, every other truck of the fleet is free where it stood, and a route the fleet left
      names no truck. Stops at the first truck whose route does not name it back, with the trucks before it off their
      routes. */
  method ReplaceTruckBindings(fleet: seq<Truck>, bindings: seq<TruckBinding>) returns (ok: bool, ghost stop: nat)
    modifies fleet, RoutesLeft(fleet)`truck, TrucksBound(bindings), RoutesBound(bindings)`truck
    ensures old(StopsAt(fleet, stop)) && (ok <==> stop == |fleet|) && (ok <==> old(Backlinked(fleet)))
    ensures ok ==> forall i :: 0 <= i < |bindings| ==> InForce(bindings, i, |bindings|)
    ensures ok && BindingsApart(bindings) ==> forall b <- bindings :: Bound(b)
    ensures ok ==> forall t <- fleet :: t !in TrucksBound(bindings) ==> Cleared(t, old(t.location))
    ensures ok ==> forall r <- old(RoutesLeft(fleet)) :: r !in RoutesBound(bindings) ==> r.truck == null
    ensures !ok ==> forall r <- old(RoutesLeft(fleet)) :: r.truck == if r in old(RoutesLeft(fleet[..stop])) then null else old(r.truck)
    ensures !ok ==> forall b <- bindings :: b.route != null && b.route !in old(RoutesLeft(fleet)) ==> b.route.truck == old(b.route.truck)
    ensures !ok ==> forall b <- bindings :: b.truck !in fleet ==> b.truck.SnapshotState() == old(b.truck.SnapshotState())
  {
    ok, stop := ClearFleet(fleet);
    assert fleet[..|fleet|] == fleet;
    if !ok {
      return;
    }
    ApplyBindings(bindings);
    if BindingsApart(bindings) {
      ApartAreBound(bindings);
    }
  }
}
