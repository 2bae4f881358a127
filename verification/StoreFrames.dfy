/** What a step that changes a few stored entities does to the world of the store. */
module StoreFrames {
  import opened Common
  import opened Fleet
  import opened Entities
  import opened Stores
  import opened Undo

  /** At most one entity of each kind changed. */
  datatype Change = Change(s: Store, route: DeliveryRoute?, truck: Truck?, package: DeliveryPackage?, customer: Customer?)

  ghost predicate InStore(c: Change)
    reads c.s
  {
    && (c.route != null ==> c.s.HasRoute(c.route))
    && (c.truck != null ==> c.s.HasTruck(c.truck))
    && (c.package != null ==> c.s.HasPackage(c.package))
    && (c.customer != null ==> c.s.HasCustomer(c.customer))
  }

  /** Every other entity, and the store, is as it was. */
  twostate predicate OthersKept(c: Change)
    reads c.s, c.s.customers.Values, c.s.packages.Values, c.s.routes.Values, c.s.trucks.Values
  {
    && unchanged(c.s)
    && (forall cid <- c.s.customers :: c.s.customers[cid] != c.customer ==> unchanged(c.s.customers[cid]))
    && (forall pid <- c.s.packages :: c.s.packages[pid] != c.package ==> unchanged(c.s.packages[pid]))
    && (forall rid <- c.s.routes :: c.s.routes[rid] != c.route ==> unchanged(c.s.routes[rid]))
    && (forall tid <- c.s.trucks :: c.s.trucks[tid] != c.truck ==> unchanged(c.s.trucks[tid]))
  }

  /** The changed entities are in order and refer to stored ones. */
  ghost predicate Fits(c: Change)
    reads c.s, c.route, c.truck, c.package, c.customer
  {
    && (c.route != null ==> c.route.Valid() && c.route.Built() && c.s.RouteHeld(c.route.truck, c.route.packages))
    && (c.truck != null && c.truck.route != null ==> c.s.HasRoute(c.truck.route))
    && (c.package != null ==> (c.package.route != null ==> c.s.HasRoute(c.package.route)) && c.s.HasCustomer(c.package.customer))
    && (c.customer != null ==> c.customer.Valid() && c.s.ListHeld(c.customer.packages))
  }

  /** The world with the changed entities as they are now. */
  ghost function Amended(w: World, c: Change): World
    reads c.route, c.truck, c.package, c.customer
  {
    World(if c.customer == null then w.customers else w.customers[c.customer.customerId := c.customer.State()],
          if c.package == null then w.packages else w.packages[c.package.packageId := c.package.State()],
          if c.route == null then w.routes else w.routes[c.route.routeId := c.route.State()],
          if c.truck == null then w.trucks else w.trucks[c.truck.vehicleId := c.truck.State()])
  }

  twostate lemma AmendedRoutes(c: Change)
    requires old(c.s.Standing()).Some? && old(InStore(c)) && OthersKept(c)
    ensures c.s.Model().routes == Amended(old(c.s.Model()), c).routes
  {
    hide DeliveryRoute.Built, NoDup, Covers, Store.AllBuilt;
    forall rid <- c.s.routes ensures c.s.routes[rid].State() == Amended(old(c.s.Model()), c).routes[rid] {
      assert old(c.s.RouteKept(rid));
    }
  }

  twostate lemma AmendedTrucks(c: Change)
    requires old(c.s.Standing()).Some? && old(InStore(c)) && OthersKept(c)
    ensures c.s.Model().trucks == Amended(old(c.s.Model()), c).trucks
  {
    forall tid <- c.s.trucks ensures c.s.trucks[tid].State() == Amended(old(c.s.Model()), c).trucks[tid] {
      assert old(c.s.TruckKept(tid));
    }
  }

  twostate lemma AmendedPackages(c: Change)
    requires old(c.s.Standing()).Some? && old(InStore(c)) && OthersKept(c)
    ensures c.s.Model().packages == Amended(old(c.s.Model()), c).packages
  {
    forall pid <- c.s.packages ensures c.s.packages[pid].State() == Amended(old(c.s.Model()), c).packages[pid] {
      assert old(c.s.PackageKept(pid));
    }
  }

  twostate lemma AmendedCustomers(c: Change)
    requires old(c.s.Standing()).Some? && old(InStore(c)) && OthersKept(c)
    ensures c.s.Model().customers == Amended(old(c.s.Model()), c).customers
  {
    forall cid <- c.s.customers ensures c.s.customers[cid].State() == Amended(old(c.s.Model()), c).customers[cid] {
      assert old(c.s.CustomerKept(cid));
    }
  }

  twostate lemma StillValid(c: Change)
    requires old(c.s.Standing()).Some? && old(InStore(c)) && OthersKept(c) && Fits(c)
    ensures c.s.Valid() && c.s.AllBuilt()
  {
    forall rid | rid in c.s.routes ensures c.s.RouteKept(rid) && c.s.routes[rid].Built() {
      assert old(c.s.RouteKept(rid)) && old(c.s.routes[rid].Built());
    }
    forall tid | tid in c.s.trucks ensures c.s.TruckKept(tid) { assert old(c.s.TruckKept(tid)); }
    forall pid | pid in c.s.packages ensures c.s.PackageKept(pid) { assert old(c.s.PackageKept(pid)); }
    forall cid | cid in c.s.customers ensures c.s.CustomerKept(cid) { assert old(c.s.CustomerKept(cid)); }
  }

  /** The store after the step: in order, and its world amended. */
  twostate lemma StandingAfter(c: Change)
    requires old(c.s.Standing()).Some? && old(InStore(c)) && OthersKept(c) && Fits(c)
    ensures c.s.Standing() == Some(Amended(old(c.s.Model()), c))
  {
    StillValid(c);
    AmendedRoutes(c);
    AmendedTrucks(c);
    AmendedPackages(c);
    AmendedCustomers(c);
  }

  /** Amending with entities that are as they were changes nothing. */
  lemma AmendedNothing(w: World, c: Change)
    requires c.route != null ==> c.route.routeId in w.routes && w.routes[c.route.routeId] == c.route.State()
    requires c.truck != null ==> c.truck.vehicleId in w.trucks && w.trucks[c.truck.vehicleId] == c.truck.State()
    requires c.package != null ==> c.package.packageId in w.packages && w.packages[c.package.packageId] == c.package.State()
    requires c.customer != null ==> c.customer.customerId in w.customers && w.customers[c.customer.customerId] == c.customer.State()
    ensures Amended(w, c) == w
  {
    var v := Amended(w, c);
    assert v.routes == w.routes && v.trucks == w.trucks && v.packages == w.packages && v.customers == w.customers;
  }

  lemma SameWorld(v: World, w: World)
    requires v.customers == w.customers && v.packages == w.packages && v.routes == w.routes && v.trucks == w.trucks
    ensures v == w
  {
  }

  /** Every entity is as it was, its pending events included. */
  twostate predicate Restored(s: Store)
    reads s, s.customers.Values, s.packages.Values, s.routes.Values, s.trucks.Values
  {
    && unchanged(s)
    && (forall cid <- s.customers :: unchanged(s.customers[cid]))
    && (forall rid <- s.routes :: RouteMemoryOf(s.routes[rid]) == old(RouteMemoryOf(s.routes[rid])))
    && (forall tid <- s.trucks :: s.trucks[tid].SnapshotState() == old(s.trucks[tid].SnapshotState()))
    && (forall pid <- s.packages :: Memory(s.packages[pid]) == old(Memory(s.packages[pid])))
  }

  twostate lemma RestoredModel(s: Store)
    requires Restored(s)
    ensures s.Model() == old(s.Model())
  {
    forall cid <- s.customers ensures s.customers[cid].State() == old(s.customers[cid].State()) {}
    forall rid <- s.routes ensures s.routes[rid].State() == old(s.routes[rid].State()) {
      assert RouteMemoryOf(s.routes[rid]).state == old(RouteMemoryOf(s.routes[rid])).state;
    }
    forall tid <- s.trucks ensures s.trucks[tid].State() == old(s.trucks[tid].State()) {
      assert s.trucks[tid].SnapshotState() == old(s.trucks[tid].SnapshotState());
    }
    forall pid <- s.packages ensures s.packages[pid].State() == old(s.packages[pid].State()) {
      assert Memory(s.packages[pid]) == old(Memory(s.packages[pid]));
    }
    SameWorld(s.Model(), old(s.Model()));
  }

  twostate lemma RestoredValid(s: Store)
    requires old(s.Valid() && s.AllBuilt()) && Restored(s)
    ensures s.Valid() && s.AllBuilt()
  {
    forall rid | rid in s.routes ensures s.RouteKept(rid) && s.routes[rid].Built() {
      assert old(s.RouteKept(rid)) && old(s.routes[rid].Built());
      assert RouteMemoryOf(s.routes[rid]).state == old(RouteMemoryOf(s.routes[rid])).state;
      assert RouteMemoryOf(s.routes[rid]).snapshot == old(RouteMemoryOf(s.routes[rid])).snapshot;
    }
    forall tid | tid in s.trucks ensures s.TruckKept(tid) { assert old(s.TruckKept(tid)); }
    forall pid | pid in s.packages ensures s.PackageKept(pid) {
      assert old(s.PackageKept(pid));
      assert Memory(s.packages[pid]) == old(Memory(s.packages[pid]));
    }
    forall cid | cid in s.customers ensures s.CustomerKept(cid) { assert old(s.CustomerKept(cid)); }
  }

  twostate lemma RestoredStanding(s: Store)
    requires old(s.Standing()).Some? && Restored(s)
    ensures s.Standing() == old(s.Standing())
  {
    RestoredModel(s);
    RestoredValid(s);
  }
}
