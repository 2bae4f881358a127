/** Runs of requests on the stored objects. */
module UseCaseRuns {
  import opened Common
  import opened Fleet
  import opened Projection
  import opened Entities
  import opened Stores
  import opened Undo
  import opened UseCaseSteps
  import opened UseCaseSafety
  import opened UseCases
  import opened PackageRemoval
  import opened RouteRemoval
  import opened HeartbeatService

  /** Nothing is in the store that was not there before. */
  twostate predicate NothingNew(s: Store)
    reads s
  {
    && s.customers == old(s.customers) && s.trucks == old(s.trucks)
    && s.packages.Values <= old(s.packages.Values) && s.routes.Values <= old(s.routes.Values)
  }

  /** Fetches the routes in the order they are visited. */
  method ListRoutes(s: Store, order: seq<int>, ghost w: World) returns (routes: seq<DeliveryRoute>)
    requires s.Standing() == Some(w) && Enumerates(order, w)
    ensures HeartbeatService.Listed(s, routes) && RouteIds(routes) == order
    ensures forall r <- routes :: r in s.routes.Values
    ensures forall t <- TrucksOf(routes) :: t in s.trucks.Values
    ensures forall p <- CargoOf(routes) :: p in s.packages.Values
  {
    assert w.routes.Keys == s.routes.Keys;
    assert forall k :: 0 <= k < |order| ==> order[k] in s.routes;
    routes := seq(|order|, k requires 0 <= k < |order| && order[k] in s.routes reads s => s.routes[order[k]]);
    forall k | 0 <= k < |order| ensures s.HasRoute(s.routes[order[k]]) && routes[k].routeId == order[k] {
      assert s.RouteKept(order[k]);
    }
    assert RouteIds(routes) == order;
    RoutesReachStored(s, routes);
  }

  method ServePackageRemoval(s: Store, pid: int, now: Time, commits: bool, ghost w: World)
    requires s.Standing() == Some(w) && Linked(w)
    modifies s`packages, s.packages.Values, s.routes.Values, s.customers.Values
    ensures Closed(w) && s.Standing() == Some(RemovePackage(w, pid, now, commits)) && NothingNew(s)
  {
    hide RemovePackage, Linked, Closed, Store.Standing, Store.Valid, Store.AllBuilt, Store.Model,
         RemovePackageOutcomeOf;
    var outcome := RemovePackageFrom(s, pid, now, commits, w);
  }

  method ServeRouteRemoval(s: Store, rid: int, now: Time, commits: bool, ghost w: World)
    requires s.Standing() == Some(w) && Linked(w)
    modifies s`routes, s.packages.Values, s.routes.Values, s.trucks.Values
    ensures Closed(w) && s.Standing() == Some(RemoveRoute(w, rid, now, commits)) && NothingNew(s)
  {
    hide RemoveRoute, Linked, Closed, Store.Standing, Store.Valid, Store.AllBuilt, Store.Model, RemoveRouteOutcomeOf;
    var outcome := RemoveRouteFrom(s, rid, now, commits, w);
  }

  /** One request, carried out on the objects. */
  method Serve(s: Store, q: Request, ghost w: World)
    requires s.Standing() == Some(w) && WellFormed(w)
    modifies s`routes, s`packages, s.customers.Values, s.packages.Values, s.routes.Values, s.trucks.Values
    ensures s.Standing() == Some(Handle(w, q)) && NothingNew(s)
  {
    hide WellFormed, Linked, AssignAll, AssignTruck, RemovePackage, RemoveRoute, Heartbeat, Store.Standing,
         Store.Valid, Store.AllBuilt,
         Store.Model, Enumerates, Closed, Ready, RemovePackageOutcomeOf, RemoveRouteOutcomeOf, AssignTruckOutcome;
    WellFormedIsLinked(w);
    match q
    case AssignPackagesTo(rid, ids, now, failing) =>
      var found, outcomes, failed := AssignPackagesToRoute(s, rid, ids, now, failing, w);
    case AssignTruckTo(rid, tid, now, commits) =>
      var outcome := AssignTruckToRoute(s, rid, tid, now, commits, w);
    case RemovePackageOf(pid, now, commits) =>
      ServePackageRemoval(s, pid, now, commits, w);
    case RemoveRouteOf(rid, now, commits) =>
      ServeRouteRemoval(s, rid, now, commits, w);
    case Beat(order, now, commits) =>
      ServeBeat(s, order, now, commits, w);
  }

  lemma {:induction false} UniqueIff(ids: seq<int>)
    ensures Unique(ids) == ids <==> NoDup(ids)
  {
    if ids != [] {
      var n := |ids| - 1;
      UniqueIff(ids[..n]);
      if ids[n] in ids[..n] {
        var j :| 0 <= j < n && ids[j] == ids[n];
      }
    }
  }

  /** A heartbeat over some of the stored routes, each once. */
  method ServeBeat(s: Store, order: seq<int>, now: Time, commits: bool, ghost w: World)
    requires s.Standing() == Some(w) && WellFormed(w)
    modifies s.packages.Values, s.routes.Values, s.trucks.Values
    ensures s.Standing() == Some(if Enumerates(order, w) then Heartbeat(w, order, now, commits) else w)
  {
    UniqueIff(order);
    assert forall k :: 0 <= k < |order| ==> (order[k] in s.routes <==> order[k] in w.routes);
    hide WellFormed, Heartbeat;
    if (forall k :: 0 <= k < |order| ==> order[k] in s.routes) && Unique(order) == order {
      var routes := ListRoutes(s, order, w);
      var saved, summary := Advance(s, routes, now, commits, w);
    }
  }

  /** A whole run, on the objects: the store ends as the run of its world, every state on the way well formed. */
  method ServeAll(s: Store, requests: seq<Request>, ghost w: World)
    requires s.Standing() == Some(w) && WellFormed(w)
    modifies s`routes, s`packages, s.customers.Values, s.packages.Values, s.routes.Values, s.trucks.Values
    ensures s.Standing() == Some(Run(w, requests)) && NothingNew(s)
  {
    hide Handle, WellFormed, Store.Standing;
    for i := 0 to |requests|
      invariant s.Standing() == Some(Run(w, requests[..i])) && NothingNew(s)
    {
      assert requests[..i + 1][..i] == requests[..i];
      Serve(s, requests[i], Run(w, requests[..i]));
    }
    WholeSlice(requests);
  }
}
