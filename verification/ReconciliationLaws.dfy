/** Laws of reconciliation: what keeps the world linked, and why a pass is a projection. */
module ReconciliationLaws {
  import opened Common
  import opened Fleet
  import opened Reconciliation

  // ----- when a pass over a route fails

  /** A completed route seen inside its own travel window. */
  predicate CompletedTooEarly(r: RouteState, now: Time)
    requires Shaped(r)
  {
    r.status == COMPLETED && StatusAt(r, now) == IN_PROGRESS
  }

  /** In a linked world the pass over a route fails exactly for a completed route inside its travel window. */
  lemma BlockedIff(w: World, rid: int, now: Time)
    requires Linked(w) && rid in w.routes
    ensures Blocked(w, rid, now) <==> CompletedTooEarly(w.routes[rid], now)
  {
    assert RouteLinked(w, rid);
    var r := w.routes[rid];
    forall k | 0 <= k < |r.packages|
      ensures !PackageBlocked(r, w.packages[r.packages[k]], now)
    {
      assert PackageLinked(w, r.packages[k]);
    }
  }

  // ----- a pass keeps the links

  lemma PackageRoute(w: World, rid: int, pid: int)
    requires Linked(w) && rid in w.routes && pid in w.packages
    ensures pid in w.routes[rid].packages <==> w.packages[pid].route == To(rid)
  {
    assert RouteLinked(w, rid) && PackageLinked(w, pid);
    if pid in w.routes[rid].packages {
      var k := IndexOf(w.routes[rid].packages, pid);
      assert w.packages[w.routes[rid].packages[k]].route == To(rid);
    }
  }

  lemma TruckRoute(w: World, rid: int, tid: int)
    requires Linked(w) && rid in w.routes && tid in w.trucks
    ensures w.routes[rid].truck == To(tid) <==> w.trucks[tid].route == To(rid)
  {
    assert RouteLinked(w, rid) && TruckLinked(w, tid);
  }

  lemma OwnRouteLinked(w: World, rid: int, now: Time)
    requires Linked(w) && rid in w.routes && !Blocked(w, rid, now)
    ensures RouteLinked(WorldAfter(w, rid, now), rid)
  {
    assert RouteLinked(w, rid);
  }

  lemma OtherRouteLinked(w: World, rid: int, now: Time, other: int)
    requires Linked(w) && rid in w.routes && other in w.routes && other != rid && !Blocked(w, rid, now)
    ensures RouteLinked(WorldAfter(w, rid, now), other)
  {
    assert RouteLinked(w, other);
    if w.routes[other].truck.To? {
      TruckRoute(w, rid, w.routes[other].truck.id);
    }
  }

  lemma ReconciledPackageLinked(w: World, rid: int, now: Time, pid: int)
    requires Linked(w) && rid in w.routes && pid in w.packages && !Blocked(w, rid, now)
    ensures PackageLinked(WorldAfter(w, rid, now), pid)
  {
    PackageRoute(w, rid, pid);
    assert PackageLinked(w, pid);
  }

  lemma ReconciledTruckLinked(w: World, rid: int, now: Time, tid: int)
    requires Linked(w) && rid in w.routes && tid in w.trucks && !Blocked(w, rid, now)
    ensures TruckLinked(WorldAfter(w, rid, now), tid)
  {
    TruckRoute(w, rid, tid);
    assert RouteLinked(w, rid) && TruckLinked(w, tid);
  }

  lemma ReconciledCustomerLinked(w: World, rid: int, now: Time, cid: int)
    requires Linked(w) && rid in w.routes && cid in w.customers && !Blocked(w, rid, now)
    ensures CustomerLinked(WorldAfter(w, rid, now), cid)
  {
    assert CustomerLinked(w, cid);
  }

  lemma ReconciledLinked(w: World, rid: int, now: Time)
    requires Linked(w) && rid in w.routes
    ensures Linked(WorldAfter(w, rid, now))
  {
    var w' := WorldAfter(w, rid, now);
    if !Blocked(w, rid, now) {
      forall other <- w'.routes ensures RouteLinked(w', other) {
        if other == rid { OwnRouteLinked(w, rid, now); } else { OtherRouteLinked(w, rid, now, other); }
      }
      forall pid <- w'.packages ensures PackageLinked(w', pid) { ReconciledPackageLinked(w, rid, now, pid); }
      forall tid <- w'.trucks ensures TruckLinked(w', tid) { ReconciledTruckLinked(w, rid, now, tid); }
      forall cid <- w'.customers ensures CustomerLinked(w', cid) { ReconciledCustomerLinked(w, rid, now, cid); }
    }
  }

  // ----- a pass keeps loads, limits and schedules

  /** Same entities, same paths, schedules and package lists, same loads; at most some trucks were released. */
  ghost predicate SamePlans(w: World, w': World) {
    && w'.routes.Keys == w.routes.Keys && w'.packages.Keys == w.packages.Keys && w'.trucks.Keys == w.trucks.Keys
    && (forall rid <- w.routes ::
          && w'.routes[rid].path == w.routes[rid].path
          && w'.routes[rid].schedule == w.routes[rid].schedule
          && w'.routes[rid].packages == w.routes[rid].packages
          && (w'.routes[rid].truck.To? ==> w'.routes[rid].truck == w.routes[rid].truck))
    && (forall pid <- w.packages :: LoadOf(w'.packages[pid]) == LoadOf(w.packages[pid]))
    && (forall tid <- w.trucks ::
          w'.trucks[tid].capacity == w.trucks[tid].capacity && w'.trucks[tid].maxRange == w.trucks[tid].maxRange)
  }

  lemma ReconciledPlans(w: World, rid: int, now: Time)
    requires Closed(w) && rid in w.routes
    ensures SamePlans(w, WorldAfter(w, rid, now))
  {
  }

  lemma SameLoads(w: World, w': World, rid: int)
    requires SamePlans(w, w') && Closed(w) && Closed(w') && rid in w.routes
    ensures LoadsOn(w', rid) == LoadsOn(w, rid)
  {
    var ids := w.routes[rid].packages;
    assert w'.routes[rid].packages == ids;
    forall k | 0 <= k < |ids| ensures LoadsOn(w', rid)[k] == LoadsOn(w, rid)[k] {
      var pid := ids[k];
      assert pid in w.packages;
      assert pid in w'.packages;
      assert LoadOf(w'.packages[pid]) == LoadOf(w.packages[pid]);
    }
  }

  lemma SameLimits(w: World, w': World, rid: int)
    requires SamePlans(w, w') && Closed(w) && Closed(w') && rid in w.routes && WithinLimits(w, rid)
    ensures WithinLimits(w', rid)
  {
    SameLoads(w, w', rid);
    if w'.routes[rid].truck.To? {
      var tid := w'.routes[rid].truck.id;
      assert w.routes[rid].truck == To(tid);
      assert tid in w'.trucks;
      assert w'.trucks[tid].capacity == w.trucks[tid].capacity;
    }
  }

  lemma SamePlansSafe(w: World, w': World)
    requires SamePlans(w, w') && Safe(w) && Closed(w')
    ensures Safe(w')
  {
    forall rid <- w'.routes ensures WithinLimits(w', rid) {
      assert WithinLimits(w, rid);
      SameLimits(w, w', rid);
    }
  }

  lemma SamePlansDerived(w: World, w': World)
    requires SamePlans(w, w') && AllDerived(w)
    ensures AllDerived(w')
  {
    forall rid <- w'.routes ensures Derived(w'.routes[rid]) {
      assert Derived(w.routes[rid]);
    }
  }

  lemma ReconciledWellFormed(w: World, rid: int, now: Time)
    requires WellFormed(w) && rid in w.routes
    ensures WellFormed(WorldAfter(w, rid, now))
  {
    ReconciledLinked(w, rid, now);
    ReconciledPlans(w, rid, now);
    SamePlansSafe(w, WorldAfter(w, rid, now));
    SamePlansDerived(w, WorldAfter(w, rid, now));
  }
}
