/** A pass over one route of the store, told as the pass over one route of the world. */
module StoredPasses {
  import opened Common
  import opened Fleet
  import opened Reconciliation
  import opened Entities
  import opened Stores
  import opened StoreFrames
  import opened PackageReconciler
  import opened RoutePass
  import opened Undo

  // ----- the pass over one object and the pass over one route of the world

  lemma OpenIff(w: World, rid: int, now: Time)
    requires Closed(w) && rid in w.routes
    ensures Open(rid, w.routes[rid], TruckIn(w, rid), PackagesOf(w, rid), now) <==> !Blocked(w, rid, now)
  {
    var r, states := w.routes[rid], PackagesOf(w, rid);
    forall k | 0 <= k < |states| ensures states[k] == w.packages[r.packages[k]] {}
    if AnyPackageBlocked(w, rid, now) {
      var k :| 0 <= k < |r.packages| && PackageBlocked(r, w.packages[r.packages[k]], now);
      assert PackageBlocked(r, states[k], now);
    }
  }

  lemma OutcomeIs(w: World, rid: int, now: Time, k: nat)
    requires Closed(w) && rid in w.routes && !Blocked(w, rid, now) && k < |w.routes[rid].packages|
    ensures var ids := w.routes[rid].packages;
      Outcomes(w.routes[rid], ids, PackagesOf(w, rid), |ids|, now)[k] == PackagesAfter(w, rid, now)[ids[k]]
  {
    assert PackagesOf(w, rid)[k] == w.packages[w.routes[rid].packages[k]];
    assert !PackageBlocked(w.routes[rid], w.packages[w.routes[rid].packages[k]], now);
  }

  // ----- the stored route

  /** What the store knows of a route before its pass. */
  lemma BeforePass(s: Store, route: DeliveryRoute)
    requires s.Valid() && s.HasRoute(route)
    ensures Ready(s.Model())
    ensures route.Valid() && TruckKnows(route)
    ensures route.State() == s.Model().routes[route.routeId]
    ensures TruckBefore(route) == TruckIn(s.Model(), route.routeId)
    ensures InStates(route.packages, PackagesOf(s.Model(), route.routeId))
  {
    s.ModelReady();
    assert s.RouteKept(route.routeId);
    if route.truck != null {
      assert s.TruckKept(route.truck.vehicleId);
    }
    var states := PackagesOf(s.Model(), route.routeId);
    forall k | 0 <= k < |route.packages| ensures route.packages[k].State() == states[k] {
      assert s.HasPackage(route.packages[k]);
    }
  }

  ghost function ReferencesOf(list: seq<DeliveryPackage>): (refs: seq<(DeliveryRoute?, Customer)>)
    reads list
    ensures Refer(list, refs) && Owned(list, refs) && RemembersRoutes(Memories(list), list, refs)
  {
    seq(|list|, k requires 0 <= k < |list| reads list => (list[k].route, list[k].customer))
  }

  // ----- the store after the pass over one of its routes

  /** A pass over one stored route: the store, the route with the truck it had, and the world before. */
  datatype StoredPass = StoredPass(s: Store, route: DeliveryRoute, truck: Truck?, w: World, now: Time)

  /** Only the route, its truck and its packages have changed. */
  twostate predicate OnlyTouched(c: StoredPass)
    reads c.s, c.s.customers.Values, c.s.packages.Values, c.s.routes.Values, c.s.trucks.Values, c.route, c.route.packages
  {
    && unchanged(c.s)
    && (forall cid <- c.s.customers :: unchanged(c.s.customers[cid]))
    && (forall rid <- c.s.routes :: c.s.routes[rid] != c.route ==> unchanged(c.s.routes[rid]))
    && (forall tid <- c.s.trucks :: c.s.trucks[tid] != c.truck ==> unchanged(c.s.trucks[tid]))
    && (forall pid <- c.s.packages :: c.s.packages[pid] !in c.route.packages ==> unchanged(c.s.packages[pid]))
    && c.route.packages == old(c.route.packages)
  }

  /** The store was in order before the pass. */
  ghost predicate WasStored(c: StoredPass)
    reads c.s, c.s.customers.Values, c.s.packages.Values, c.s.routes.Values, c.s.trucks.Values, c.route
  {
    && c.s.Valid() && c.s.AllBuilt() && c.s.HasRoute(c.route) && c.truck == c.route.truck
    && c.w == c.s.Model() && Closed(c.w)
  }

  /** No stage of the pass fails. */
  ghost predicate Succeeds(c: StoredPass) {
    Closed(c.w) && c.route.routeId in c.w.routes && !Blocked(c.w, c.route.routeId, c.now)
  }

  ghost predicate Brought(c: StoredPass)
    reads c.route, c.truck, c.route.packages
  {
    && Closed(c.w) && c.route.routeId in c.w.routes
    && Scheduled(c.route, c.truck, c.w.routes[c.route.routeId], TruckIn(c.w, c.route.routeId), PackagesOf(c.w, c.route.routeId), c.now)
  }

  twostate lemma RoutesAfterPass(c: StoredPass)
    requires old(WasStored(c)) && OnlyTouched(c) && Succeeds(c) && Brought(c)
    ensures c.s.Model().routes == WorldAfter(c.w, c.route.routeId, c.now).routes
  {
    forall rid <- c.s.routes ensures c.s.routes[rid].State() == WorldAfter(c.w, c.route.routeId, c.now).routes[rid] {
      assert old(c.s.RouteKept(rid));
    }
  }

  twostate lemma TrucksAfterPass(c: StoredPass)
    requires old(WasStored(c)) && OnlyTouched(c) && Succeeds(c) && Brought(c)
    ensures c.s.Model().trucks == WorldAfter(c.w, c.route.routeId, c.now).trucks
  {
    assert old(c.s.RouteKept(c.route.routeId));
    forall tid <- c.s.trucks ensures c.s.trucks[tid].State() == TrucksAfter(c.w, c.route.routeId, c.now)[tid] {
      assert old(c.s.TruckKept(tid));
    }
  }

  twostate lemma PackagesAfterPass(c: StoredPass)
    requires old(WasStored(c)) && OnlyTouched(c) && Succeeds(c) && Brought(c)
    ensures c.s.Model().packages == WorldAfter(c.w, c.route.routeId, c.now).packages
  {
    assert old(c.s.RouteKept(c.route.routeId));
    var ids := c.w.routes[c.route.routeId].packages;
    forall pid <- c.s.packages ensures c.s.packages[pid].State() == PackagesAfter(c.w, c.route.routeId, c.now)[pid] {
      assert old(c.s.PackageKept(pid));
      if pid in ids {
        var k := IndexOf(ids, pid);
        assert old(c.s.HasPackage(c.route.packages[k]));
        OutcomeIs(c.w, c.route.routeId, c.now, k);
      } else {
        assert forall k :: 0 <= k < |ids| ==> c.route.packages[k].packageId != pid;
      }
    }
  }

  /** The references kept by the pass are those the store keeps. */
  twostate predicate LinksKept(c: StoredPass)
    reads c.route, c.truck, c.route.packages
  {
    && c.route.Valid() && c.route.Built()
    && (c.route.truck == c.truck || c.route.truck == null)
    && (c.truck != null ==> c.truck.route == null || c.truck.route == c.route || c.truck.route == old(c.truck.route))
    && Refer(c.route.packages, old(ReferencesOf(c.route.packages)))
  }

  twostate lemma ValidAfterPass(c: StoredPass)
    requires old(WasStored(c)) && OnlyTouched(c) && LinksKept(c)
    ensures c.s.Valid() && c.s.AllBuilt()
  {
    var refs := old(ReferencesOf(c.route.packages));
    assert old(c.s.RouteKept(c.route.routeId));
    forall rid | rid in c.s.routes ensures c.s.RouteKept(rid) && c.s.routes[rid].Built() {
      assert old(c.s.RouteKept(rid)) && old(c.s.routes[rid].Built());
    }
    forall tid | tid in c.s.trucks ensures c.s.TruckKept(tid) { assert old(c.s.TruckKept(tid)); }
    forall pid | pid in c.s.packages ensures c.s.PackageKept(pid) {
      assert old(c.s.PackageKept(pid));
      var p := c.s.packages[pid];
      if p in c.route.packages {
        var k := IndexOf(c.route.packages, p);
        assert refs[k] == (c.route.packages[k].route, c.route.packages[k].customer);
      }
    }
    forall cid | cid in c.s.customers ensures c.s.CustomerKept(cid) { assert old(c.s.CustomerKept(cid)); }
  }

  /** The route, its truck and its packages are as they were. */
  twostate predicate Untouched(c: StoredPass)
    reads c.route, c.truck, c.route.packages
  {
    && c.route.packages == old(c.route.packages)
    && c.route.State() == old(c.route.State()) && c.route.truck == old(c.route.truck)
    && (c.truck != null ==> c.truck.SnapshotState() == old(c.truck.SnapshotState()))
    && (forall p <- c.route.packages :: Memory(p) == old(Memory(p)))
    && Refer(c.route.packages, old(ReferencesOf(c.route.packages)))
  }

  twostate lemma SameCustomers(c: StoredPass)
    requires old(WasStored(c)) && OnlyTouched(c)
    ensures c.s.Model().customers == c.w.customers
  {
    forall cid <- c.s.customers ensures c.s.customers[cid].State() == c.w.customers[cid] {}
  }

  twostate lemma SameRoutes(c: StoredPass)
    requires old(WasStored(c)) && OnlyTouched(c) && Untouched(c)
    ensures c.s.Model().routes == c.w.routes
  {
    forall rid <- c.s.routes ensures c.s.routes[rid].State() == c.w.routes[rid] {}
  }

  twostate lemma SameTrucks(c: StoredPass)
    requires old(WasStored(c)) && OnlyTouched(c) && Untouched(c)
    ensures c.s.Model().trucks == c.w.trucks
  {
    forall tid <- c.s.trucks ensures c.s.trucks[tid].State() == c.w.trucks[tid] {}
  }

  twostate lemma SamePackages(c: StoredPass)
    requires old(WasStored(c)) && OnlyTouched(c) && Untouched(c)
    ensures c.s.Model().packages == c.w.packages
  {
    forall pid <- c.s.packages ensures c.s.packages[pid].State() == c.w.packages[pid] {
      var p := c.s.packages[pid];
      if p in c.route.packages {
        assert Memory(p) == old(Memory(p));
        var k := IndexOf(c.route.packages, p);
        assert old(ReferencesOf(c.route.packages))[k] == (c.route.packages[k].route, c.route.packages[k].customer);
      }
    }
  }

  twostate lemma AfterPass(c: StoredPass)
    requires old(WasStored(c)) && OnlyTouched(c) && LinksKept(c)
    requires Succeeds(c) ==> Brought(c)
    requires !Succeeds(c) ==> Untouched(c)
    ensures c.s.Valid() && c.s.AllBuilt()
    ensures c.s.Model() == WorldAfter(c.w, c.route.routeId, c.now)
  {
    if Succeeds(c) {
      RoutesAfterPass(c);
      TrucksAfterPass(c);
      PackagesAfterPass(c);
    } else {
      SameRoutes(c);
      SameTrucks(c);
      SamePackages(c);
    }
    SameCustomers(c);
    SameWorld(c.s.Model(), WorldAfter(c.w, c.route.routeId, c.now));
    ValidAfterPass(c);
  }

  // ----- passes

  /** The pass over one stored route, `c` telling what it found and what it touches. */
  method PassOver(route: DeliveryRoute, now: Time, ghost c: StoredPass) returns (summary: Summary)
    requires WasStored(c) && c.route == route && c.now == now
    modifies route, route.truck, route.packages
    ensures route.packages == old(route.packages)
    ensures Succeeds(c) ==> Brought(c)
    ensures !Succeeds(c) ==> Untouched(c)
    ensures LinksKept(c)
    ensures summary == SummaryOf(c.w, route.routeId, now)
  {
    BeforePass(c.s, route);
    assert c.s.RouteKept(route.routeId) && route.Built();
    ghost var w, rid := c.w, route.routeId;
    ghost var refs, states := ReferencesOf(route.packages), PackagesOf(w, rid);
    RemembersStates(route.packages, states);
    var ok;
    ok, summary := ReconcileRoute(route, now, w.routes[rid], TruckIn(w, rid), states, refs, Memories(route.packages));
    OpenIff(w, rid, now);
    if ok {
    }
  }

  /** The pass over one stored route, touching nothing else. */
  method PassWithin(route: DeliveryRoute, now: Time, ghost c: StoredPass) returns (summary: Summary)
    requires WasStored(c) && c.route == route && c.now == now
    modifies route, route.truck, route.packages
    ensures OnlyTouched(c)
    ensures Succeeds(c) ==> Brought(c)
    ensures !Succeeds(c) ==> Untouched(c)
    ensures LinksKept(c)
    ensures summary == SummaryOf(c.w, route.routeId, now)
  {
    hide Brought, Untouched, LinksKept, Succeeds;
    summary := PassOver(route, now, c);
  }

  /** The pass over one stored route. */
  method ReconcileStored(ghost s: Store, route: DeliveryRoute, now: Time) returns (summary: Summary)
    requires s.Valid() && s.AllBuilt() && s.HasRoute(route)
    modifies route, route.truck, route.packages
    ensures route.packages == old(route.packages) && (route.truck == old(route.truck) || route.truck == null)
    ensures s.Valid() && s.AllBuilt() && Closed(old(s.Model()))
    ensures s.Model() == WorldAfter(old(s.Model()), route.routeId, now)
    ensures summary == SummaryOf(old(s.Model()), route.routeId, now)
  {
    s.ModelReady();
    ghost var c := StoredPass(s, route, route.truck, s.Model(), now);
    summary := PassWithin(route, now, c);
    AfterPass(c);
  }
}
