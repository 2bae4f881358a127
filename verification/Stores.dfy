/** The in-memory repositories, and the world of values their objects stand for. */
module Stores {
  import opened Common
  import opened Fleet
  import opened Entities

  class Store {
    var customers: map<int, Customer>
    var packages: map<int, DeliveryPackage>
    var routes: map<int, DeliveryRoute>
    var trucks: map<int, Truck>

    constructor ()
      ensures customers == map[] && packages == map[] && routes == map[] && trucks == map[]
      ensures Valid() && Model() == World(map[], map[], map[], map[])
    {
      customers, packages, routes, trucks := map[], map[], map[], map[];
    }

    ghost predicate HasRoute(r: DeliveryRoute)
      reads `routes
    {
      r.routeId in routes && routes[r.routeId] == r
    }

    ghost predicate HasPackage(p: DeliveryPackage)
      reads this
    {
      p.packageId in packages && packages[p.packageId] == p
    }

    ghost predicate HasTruck(t: Truck)
      reads this
    {
      t.vehicleId in trucks && trucks[t.vehicleId] == t
    }

    ghost predicate HasCustomer(c: Customer)
      reads this
    {
      c.customerId in customers && customers[c.customerId] == c
    }

    /** A route may hold this truck and these packages. */
    ghost predicate RouteHeld(truck: Truck?, list: seq<DeliveryPackage>)
      reads this
    {
      (truck != null ==> HasTruck(truck)) && forall k {:trigger list[k]} :: 0 <= k < |list| ==> HasPackage(list[k])
    }

    /** A customer may list these packages; packages no longer stored may stay listed. */
    ghost predicate ListHeld(list: seq<DeliveryPackage>)
      reads this
    {
      forall k {:trigger list[k]} :: 0 <= k < |list| && list[k].packageId in packages ==> HasPackage(list[k])
    }

    ghost predicate RouteKept(rid: int)
      requires rid in routes
      reads this, routes[rid]
    {
      var r := routes[rid];
      && r.routeId == rid && r.Valid()
      && RouteHeld(r.truck, r.packages)
    }

    ghost predicate TruckKept(tid: int)
      requires tid in trucks
      reads this, trucks[tid]
    {
      trucks[tid].vehicleId == tid && (trucks[tid].route != null ==> HasRoute(trucks[tid].route))
    }

    ghost predicate PackageKept(pid: int)
      requires pid in packages
      reads this, packages[pid]
    {
      var p := packages[pid];
      && p.packageId == pid
      && (p.route != null ==> HasRoute(p.route))
      && HasCustomer(p.customer)
    }

    ghost predicate CustomerKept(cid: int)
      requires cid in customers
      reads this, customers[cid]
    {
      var c := customers[cid];
      c.customerId == cid && c.Valid() && ListHeld(c.packages)
    }

    /** Ids name objects: every object reached from the store is the one stored under its id. */
    ghost predicate Valid()
      reads this, customers.Values, packages.Values, routes.Values, trucks.Values
    {
      && (forall rid {:trigger RouteKept(rid)} :: rid in routes ==> RouteKept(rid))
      && (forall tid {:trigger TruckKept(tid)} :: tid in trucks ==> TruckKept(tid))
      && (forall pid {:trigger PackageKept(pid)} :: pid in packages ==> PackageKept(pid))
      && (forall cid {:trigger CustomerKept(cid)} :: cid in customers ==> CustomerKept(cid))
    }

    /** Every schedule is the one built from its path and departure. */
    ghost predicate AllBuilt()
      reads this, routes.Values
    {
      forall rid {:trigger routes[rid].Built()} :: rid in routes ==> routes[rid].Built()
    }

    /** The values the stored objects stand for. */
    ghost function Model(): World
      reads this, customers.Values, packages.Values, routes.Values, trucks.Values
    {
      World(map cid <- customers :: customers[cid].State(),
            map pid <- packages :: packages[pid].State(),
            map rid <- routes :: routes[rid].State(),
            map tid <- trucks :: trucks[tid].State())
    }

    /** The world the store holds, provided its objects are in order and every schedule is the one built. */
    ghost function Standing(): Option<World>
      reads this, customers.Values, packages.Values, routes.Values, trucks.Values
    {
      if Valid() && AllBuilt() then Some(Model()) else None
    }

    lemma ModelReady()
      requires Valid()
      ensures Ready(Model())
    {
      var w := Model();
      forall rid | rid in w.routes
        ensures Sound(w.routes[rid]) && Shaped(w.routes[rid])
             && (w.routes[rid].truck.To? ==> w.routes[rid].truck.id in w.trucks)
             && (forall k :: 0 <= k < |w.routes[rid].packages| ==> w.routes[rid].packages[k] in w.packages)
      {
        assert RouteKept(rid);
        var r := routes[rid];
        forall k | 0 <= k < |w.routes[rid].packages| ensures w.routes[rid].packages[k] in w.packages {
          assert HasPackage(r.packages[k]);
        }
      }
      forall tid | tid in w.trucks ensures w.trucks[tid].route.To? ==> w.trucks[tid].route.id in w.routes {
        assert TruckKept(tid);
      }
      forall pid | pid in w.packages
        ensures w.packages[pid].customer in w.customers && (w.packages[pid].route.To? ==> w.packages[pid].route.id in w.routes)
      {
        assert PackageKept(pid);
      }
    }
  }
}
