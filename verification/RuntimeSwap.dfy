/** Replacing the live world by a prepared one: the repositories, their counters, and the fleet. */
module RuntimeSwap {
  import opened Entities
  import opened Snapshots
  import opened VehicleManager

  /** The live repositories. */
  class Runtime {
    var customers: map<int, Customer>
    var packages: map<int, DeliveryPackage>
    var routes: map<int, DeliveryRoute>
    var counters: Counters

    constructor ()
      ensures customers == map[] && packages == map[] && routes == map[] && counters == Counters(1, 1, 1)
    {
      customers, packages, routes, counters := map[], map[], map[], Counters(1, 1, 1);
    }

    method ReplaceRepositories(newCustomers: map<int, Customer>, newPackages: map<int, DeliveryPackage>,
                               newRoutes: map<int, DeliveryRoute>, newCounters: Counters)
      modifies this
      ensures customers == newCustomers && packages == newPackages && routes == newRoutes && counters == newCounters
    {
      customers, packages, routes, counters := newCustomers, newPackages, newRoutes, newCounters;
    }

    /** Replaces the repositories and the state of the fleet, or puts them back. Repositories, counters and trucks come
        back exactly; but nothing puts the routes of the old world back, so everything is as it was exactly when no
        truck before the offending one served a route. */
    method ReplaceWorldState(newCustomers: map<int, Customer>, newPackages: map<int, DeliveryPackage>, newRoutes: map<int, DeliveryRoute>,
                             newCounters: Counters, fleet: seq<Truck>, bindings: seq<TruckBinding>) returns (ok: bool, ghost stop: nat)
      modifies this, fleet, RoutesLeft(fleet)`truck, TrucksBound(bindings), RoutesBound(bindings)`truck
      ensures old(StopsAt(fleet, stop)) && (ok <==> stop == |fleet|) && (ok <==> old(Backlinked(fleet)))
      ensures ok ==> customers == newCustomers && packages == newPackages && routes == newRoutes && counters == newCounters
      ensures ok ==> forall i :: 0 <= i < |bindings| ==> InForce(bindings, i, |bindings|)
      ensures ok ==> forall t <- fleet :: t !in TrucksBound(bindings) ==> Cleared(t, old(t.location))
      ensures !ok ==> customers == old(customers) && packages == old(packages) && routes == old(routes) && counters == old(counters)
      ensures !ok ==> forall t <- fleet :: t.SnapshotState() == old(t.SnapshotState())
      ensures !ok ==> forall r <- old(RoutesLeft(fleet)) :: r.truck == if r in old(RoutesLeft(fleet[..stop])) then null else old(r.truck)
      ensures !ok ==> ((forall r <- old(RoutesLeft(fleet)) :: r.truck == old(r.truck)) <==> old(RoutesLeft(fleet[..stop])) == {})
    {
      hide InForce, Cleared, Bound, BindingsApart, StopsAt, Backlinked, TrucksBound, RoutesBound;
      var oldCustomers, oldPackages, oldRoutes, oldCounters := customers, packages, routes, counters;
      var before := seq(|fleet|, i requires 0 <= i < |fleet| reads fleet => fleet[i].SnapshotState());
      ReplaceRepositories(newCustomers, newPackages, newRoutes, newCounters);
      ok, stop := ReplaceTruckBindings(fleet, bindings);
      if !ok {
        ReplaceRepositories(oldCustomers, oldPackages, oldRoutes, oldCounters);
        RestoreFleet(fleet, before);
        SomeRouteLost(HalfSwap(fleet, stop));
      }
    }
  }

  /** Puts trucks back to remembered states. */
  method RestoreFleet(fleet: seq<Truck>, before: seq<Entities.TruckSnapshot>)
    requires |before| == |fleet|
    requires forall i, j :: 0 <= i < j < |fleet| && fleet[i] == fleet[j] ==> before[i] == before[j]
    modifies fleet
    ensures forall i :: 0 <= i < |fleet| ==> fleet[i].SnapshotState() == before[i]
  {
    for i := 0 to |fleet|
      invariant forall j :: 0 <= j < i ==> fleet[j].SnapshotState() == before[j]
    {
      fleet[i].RestoreState(before[i]);
    }
  }

  /** A fleet, and where clearing it stopped. */
  datatype HalfSwap = HalfSwap(fleet: seq<Truck>, stop: nat)

  twostate lemma SomeRouteLost(c: HalfSwap)
    requires old(StopsAt(c.fleet, c.stop))
    ensures old(RoutesLeft(c.fleet[..c.stop])) <= old(RoutesLeft(c.fleet))
    ensures forall r <- old(RoutesLeft(c.fleet[..c.stop])) :: old(r.truck) != null
  {
    forall r <- old(RoutesLeft(c.fleet[..c.stop])) ensures old(r.truck) != null && r in old(RoutesLeft(c.fleet)) {
      var t :| t in c.fleet[..c.stop] && old(t.route) == r;
      assert t in c.fleet;
    }
  }
}
