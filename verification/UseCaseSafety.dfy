/** Every use case keeps the world well formed, whether it commits or rolls back; so does every run of them. */
module UseCaseSafety {
  import opened Common
  import opened RoutePaths
  import opened RouteScheduling
  import opened RouteLoads
  import opened Fleet
  import opened Reconciliation
  import opened ReconciliationLaws
  import opened Projection
  import opened Assignments
  import opened UseCaseSteps

  lemma LinkedReady(w: World)
    requires Linked(w)
    ensures Ready(w)
  {
    forall rid | rid in w.routes ensures Sound(w.routes[rid]) {
      assert RouteLinked(w, rid);
    }
  }

  // ----- what a step does not touch stays linked

  lemma RouteStays(w: World, v: World, rid: int)
    requires Closed(w) && Closed(v) && rid in w.routes && rid in v.routes && RouteLinked(w, rid)
    requires v.routes[rid] == w.routes[rid]
    requires forall k :: 0 <= k < |w.routes[rid].packages| ==>
      var p, p' := w.packages[w.routes[rid].packages[k]], v.packages[w.routes[rid].packages[k]];
      p'.route == p.route && p'.start == p.start && p'.end == p.end
    requires w.routes[rid].truck.To? ==> v.trucks[w.routes[rid].truck.id] == w.trucks[w.routes[rid].truck.id]
    ensures RouteLinked(v, rid)
  {
  }

  lemma PackageStays(w: World, v: World, pid: int)
    requires Closed(w) && Closed(v) && pid in w.packages && pid in v.packages && PackageLinked(w, pid)
    requires v.packages[pid] == w.packages[pid]
    requires pid in v.customers[w.packages[pid].customer].packages
    requires w.packages[pid].route.To? ==> pid in v.routes[w.packages[pid].route.id].packages
    ensures PackageLinked(v, pid)
  {
  }

  lemma TruckStays(w: World, v: World, tid: int)
    requires Closed(w) && Closed(v) && tid in w.trucks && tid in v.trucks && TruckLinked(w, tid)
    requires v.trucks[tid] == w.trucks[tid]
    requires w.trucks[tid].route.To? ==> v.routes[w.trucks[tid].route.id].truck == To(tid)
    ensures TruckLinked(v, tid)
  {
  }

  lemma CustomersStay(w: World, v: World)
    requires Linked(w) && Closed(v) && v.customers == w.customers && w.packages.Keys <= v.packages.Keys
    requires forall pid :: pid in w.packages ==> v.packages[pid].customer == w.packages[pid].customer
    ensures forall cid {:trigger CustomerLinked(v, cid)} :: cid in v.customers ==> CustomerLinked(v, cid)
  {
    forall cid | cid in v.customers ensures CustomerLinked(v, cid) {
      assert CustomerLinked(w, cid);
      var ids := w.customers[cid].packages;
      forall k | 0 <= k < |ids| ensures ids[k] in v.packages && v.packages[ids[k]].customer == cid {
        var pid := ids[k];
        assert pid in w.packages;
        assert v.packages[pid].customer == w.packages[pid].customer;
      }
    }
  }

  // ----- which trucks a route takes

  /** In a linked world a route takes exactly a truck that serves no route, stands at its start, and can carry its load
      over its distance. A serving truck that the policy finds available in time is still refused as busy, and no
      truck is refused for want of a place. */
  lemma TruckTakesRouteIff(w: World, rid: int, tid: int, now: Time, commits: bool)
    requires Linked(w)
    ensures AssignTruckOutcome(w, rid, tid, now, commits) == TruckOnRoute
       <==> commits && rid in w.routes && tid in w.trucks && w.routes[rid].truck.Unlinked? && w.trucks[tid].route.Unlinked?
            && w.trucks[tid].location == Some(w.routes[rid].path[0])
            && DistanceKm(w.routes[rid].path) <= w.trucks[tid].maxRange
            && MaximumLoad(w.routes[rid].path, LoadsOn(w, rid)) <= w.trucks[tid].capacity as real
    ensures AssignTruckOutcome(w, rid, tid, now, commits) == TruckBusy
       <==> rid in w.routes && tid in w.trucks && w.routes[rid].truck.Unlinked? && w.trucks[tid].route.To?
            && Suitability(w, rid, tid, now).None?
    ensures AssignTruckOutcome(w, rid, tid, now, commits) != TruckNowhere
  {
    hide MaximumLoad, DistanceKm;
    if rid in w.routes && tid in w.trucks {
      assert TruckLinked(w, tid);
    }
  }

  // ----- assigning one package

  lemma NotYetOn(w: World, rid: int, pid: int, other: int)
    requires Linked(w) && pid in w.packages && w.packages[pid].route.Unlinked? && other in w.routes
    ensures pid !in w.routes[other].packages
  {
    PackageRoute(w, other, pid);
  }

  lemma AssignedElsewhereLinked(w: World, rid: int, pid: int, now: Time, other: int)
    requires Linked(w) && Ready(w) && rid in w.routes && other in w.routes && other != rid
    ensures RouteLinked(AssignOne(w, rid, pid, now), other)
  {
    assert RouteLinked(w, other);
    var v := AssignOne(w, rid, pid, now);
    if v != w {
      assert PackageLinked(w, pid);
      NotYetOn(w, rid, pid, other);
      AssignOneReady(w, rid, pid, now);
      RouteStays(w, v, other);
    }
  }

  /** What an assignment that changes the world does, the event apart. */
  lemma AssignmentShape(w: World, rid: int, pid: int, now: Time)
    requires Ready(w) && rid in w.routes && AssignOne(w, rid, pid, now) != w
    ensures var v := AssignOne(w, rid, pid, now); var r := w.routes[rid];
      && Closed(v) && Ready(v) && rid in v.routes && pid in w.packages && v.trucks == w.trucks
      && pid !in r.packages && IncludesInOrder(r.path, w.packages[pid].start, w.packages[pid].end)
      && v.routes[rid] == r.(packages := r.packages + [pid], events := v.routes[rid].events)
      && v.packages == w.packages[pid := v.packages[pid]]
      && v.packages[pid] == w.packages[pid].(route := To(rid), routeId := To(rid), arrival := v.packages[pid].arrival)
  {
    hide ArrivalFor, MaximumLoad, IncludesInOrder;
    AssignOneReady(w, rid, pid, now);
    assert CompatibilityRejection(w.routes[rid].path, w.packages[pid].start, w.packages[pid].end).None?;
  }

  lemma AssignedHereLinked(w: World, rid: int, pid: int, now: Time)
    requires Linked(w) && Ready(w) && rid in w.routes
    ensures RouteLinked(AssignOne(w, rid, pid, now), rid)
  {
    hide AssignOne, IncludesInOrder;
    assert RouteLinked(w, rid);
    if AssignOne(w, rid, pid, now) != w {
      AssignmentShape(w, rid, pid, now);
    }
  }

  lemma AssignedPackageLinked(w: World, rid: int, pid: int, now: Time, other: int)
    requires Linked(w) && Ready(w) && rid in w.routes && other in w.packages
    ensures PackageLinked(AssignOne(w, rid, pid, now), other)
  {
    assert PackageLinked(w, other);
    if other == pid {
      var r := w.routes[rid];
      assert (r.packages + [pid])[|r.packages|] == pid;
    }
  }

  lemma AssignedLinked(w: World, rid: int, pid: int, now: Time)
    requires Linked(w) && Ready(w) && rid in w.routes
    ensures Linked(AssignOne(w, rid, pid, now))
  {
    var v := AssignOne(w, rid, pid, now);
    AssignOneReady(w, rid, pid, now);
    forall other | other in v.routes ensures RouteLinked(v, other) {
      if other == rid { AssignedHereLinked(w, rid, pid, now); } else { AssignedElsewhereLinked(w, rid, pid, now, other); }
    }
    forall other | other in v.packages ensures PackageLinked(v, other) { AssignedPackageLinked(w, rid, pid, now, other); }
    forall tid | tid in v.trucks ensures TruckLinked(v, tid) { TruckStays(w, v, tid); }
    CustomersStay(w, v);
  }

  lemma SameLoadsElsewhere(w: World, v: World, rid: int)
    requires Closed(w) && Closed(v) && rid in w.routes && rid in v.routes
    requires v.routes[rid].packages == w.routes[rid].packages
    requires forall k :: 0 <= k < |w.routes[rid].packages| ==>
      LoadOf(v.packages[w.routes[rid].packages[k]]) == LoadOf(w.packages[w.routes[rid].packages[k]])
    ensures LoadsOn(v, rid) == LoadsOn(w, rid)
  {
  }

  lemma AssignedWithinLimits(w: World, rid: int, pid: int, now: Time, other: int)
    requires Linked(w) && Ready(w) && Safe(w) && rid in w.routes && other in w.routes
    requires Closed(AssignOne(w, rid, pid, now))
    ensures WithinLimits(AssignOne(w, rid, pid, now), other)
  {
    var v := AssignOne(w, rid, pid, now);
    assert WithinLimits(w, other);
    if v != w {
      if other == rid {
        assert LoadsOn(v, rid) == LoadsOn(w, rid) + [LoadOf(w.packages[pid])];
      } else {
        SameLoadsElsewhere(w, v, other);
      }
    }
  }

  lemma AssignedWellFormed(w: World, rid: int, pid: int, now: Time)
    requires WellFormed(w) && Ready(w) && rid in w.routes
    ensures WellFormed(AssignOne(w, rid, pid, now))
  {
    var v := AssignOne(w, rid, pid, now);
    AssignedLinked(w, rid, pid, now);
    forall other | other in v.routes ensures WithinLimits(v, other) { AssignedWithinLimits(w, rid, pid, now, other); }
    forall other | other in v.routes ensures Derived(v.routes[other]) { assert Derived(w.routes[other]); }
  }

  lemma {:induction false} BatchWellFormed(w: World, rid: int, ids: seq<int>, now: Time, failing: set<int>)
    requires WellFormed(w) && Ready(w) && rid in w.routes
    ensures WellFormed(AssignAll(w, rid, ids, now, failing).world)
  {
    if ids != [] {
      var n := |ids| - 1;
      BatchWellFormed(w, rid, ids[..n], now, failing);
      AssignedWellFormed(AssignAll(w, rid, ids[..n], now, failing).world, rid, ids[n], now);
    }
  }

  // ----- assigning a truck

  lemma NewSchedule(r: RouteState, rid: int, now: Time)
    requires Sound(r) && Shaped(r)
    ensures var r' := ScheduledNow(r, rid, now);
      Sound(r') && Shaped(r') && (Derived(r) ==> Derived(r')) && r'.schedule.Some? && SameCargo(r, r')
  {
    SchedulingIsTotal(r.path, now);
  }

  ghost predicate SameCargo(r: RouteState, r': RouteState) {
    r'.path == r.path && r'.packages == r.packages && r'.truck == r.truck
    && (r.schedule.Some? ==> r' == r) && (r.schedule.None? ==> r'.status == SCHEDULED)
  }

  /** A free truck, suitable for a route without one, about to serve it as `r`. */
  ghost predicate MayServe(w: World, rid: int, r: RouteState, tid: int)
    requires Closed(w)
  {
    && rid in w.routes && tid in w.trucks
    && Sound(r) && Shaped(r) && r.schedule.Some? && SameCargo(w.routes[rid], r)
    && w.routes[rid].truck.Unlinked? && w.trucks[tid].route.Unlinked? && w.trucks[tid].location.Some?
    && DistanceKm(r.path) <= w.trucks[tid].maxRange
    && MaximumLoad(r.path, LoadsOn(w, rid)) <= w.trucks[tid].capacity as real
  }

  lemma ServedClosed(w: World, rid: int, r: RouteState, tid: int, now: Time)
    requires Linked(w) && MayServe(w, rid, r, tid)
    ensures Closed(Serve(w, rid, r, tid, now))
  {
  }

  lemma ServedHereLinked(w: World, rid: int, r: RouteState, tid: int, now: Time)
    requires Linked(w) && MayServe(w, rid, r, tid) && Closed(Serve(w, rid, r, tid, now))
    ensures RouteLinked(Serve(w, rid, r, tid, now), rid)
  {
    assert RouteLinked(w, rid);
  }

  lemma ServedElsewhereLinked(w: World, rid: int, r: RouteState, tid: int, now: Time, other: int)
    requires Linked(w) && MayServe(w, rid, r, tid) && other in w.routes && other != rid
    requires Closed(Serve(w, rid, r, tid, now))
    ensures RouteLinked(Serve(w, rid, r, tid, now), other)
  {
    assert RouteLinked(w, other);
    if w.routes[other].truck.To? {
      TruckRoute(w, other, w.routes[other].truck.id);
    }
    RouteStays(w, Serve(w, rid, r, tid, now), other);
  }

  lemma ServedTruckLinked(w: World, rid: int, r: RouteState, tid: int, now: Time, other: int)
    requires Linked(w) && MayServe(w, rid, r, tid) && other in w.trucks
    requires Closed(Serve(w, rid, r, tid, now))
    ensures TruckLinked(Serve(w, rid, r, tid, now), other)
  {
    assert TruckLinked(w, other);
  }

  lemma ServedLinked(w: World, rid: int, r: RouteState, tid: int, now: Time)
    requires Linked(w) && MayServe(w, rid, r, tid)
    ensures Linked(Serve(w, rid, r, tid, now))
  {
    var v := Serve(w, rid, r, tid, now);
    ServedClosed(w, rid, r, tid, now);
    forall other | other in v.routes ensures RouteLinked(v, other) {
      if other == rid { ServedHereLinked(w, rid, r, tid, now); } else { ServedElsewhereLinked(w, rid, r, tid, now, other); }
    }
    forall other | other in v.packages ensures PackageLinked(v, other) {
      assert PackageLinked(w, other);
      PackageStays(w, v, other);
    }
    forall other | other in v.trucks ensures TruckLinked(v, other) { ServedTruckLinked(w, rid, r, tid, now, other); }
    CustomersStay(w, v);
  }

  lemma ServedWithinLimits(w: World, rid: int, r: RouteState, tid: int, now: Time, other: int)
    requires Linked(w) && Safe(w) && MayServe(w, rid, r, tid) && other in w.routes
    requires Closed(Serve(w, rid, r, tid, now))
    ensures WithinLimits(Serve(w, rid, r, tid, now), other)
  {
    assert WithinLimits(w, other);
    SameLoadsElsewhere(w, Serve(w, rid, r, tid, now), other);
    if other != rid && w.routes[other].truck.To? {
      TruckRoute(w, other, w.routes[other].truck.id);
    }
  }

  lemma TruckAssignedWellFormed(w: World, rid: int, tid: int, now: Time, commits: bool)
    requires WellFormed(w)
    ensures WellFormed(AssignTruck(w, rid, tid, now, commits))
  {
    if AssignTruckOutcome(w, rid, tid, now, commits) == TruckOnRoute {
      assert RouteLinked(w, rid);
      NewSchedule(w.routes[rid], rid, now);
      ServedWellFormed(w, rid, ScheduledNow(w.routes[rid], rid, now), tid, now);
    }
  }

  lemma ServedWellFormed(w: World, rid: int, r: RouteState, tid: int, now: Time)
    requires WellFormed(w) && MayServe(w, rid, r, tid) && Derived(r)
    ensures WellFormed(Serve(w, rid, r, tid, now))
  {
    var v := Serve(w, rid, r, tid, now);
    ServedLinked(w, rid, r, tid, now);
    forall other | other in v.routes ensures WithinLimits(v, other) { ServedWithinLimits(w, rid, r, tid, now, other); }
    forall other | other in v.routes ensures Derived(v.routes[other]) {
      if other != rid { assert Derived(w.routes[other]); }
    }
  }

  // ----- removing a route

  lemma RemovedRouteClosed(w: World, rid: int, now: Time)
    requires Linked(w) && RemoveRouteOutcomeOf(w, rid, now, true).RouteGone?
    ensures Closed(RemoveRoute(w, rid, now, true))
  {
    var v := RemoveRoute(w, rid, now, true);
    assert RouteLinked(w, rid);
    forall tid | tid in v.trucks ensures v.trucks[tid].route.To? ==> v.trucks[tid].route.id in v.routes {
      TruckRoute(w, rid, tid);
    }
    forall pid | pid in v.packages ensures v.packages[pid].route.To? ==> v.packages[pid].route.id in v.routes {
      PackageRoute(w, rid, pid);
    }
  }

  lemma RemovedRouteElsewhere(w: World, rid: int, now: Time, other: int)
    requires Linked(w) && RemoveRouteOutcomeOf(w, rid, now, true).RouteGone? && other in w.routes && other != rid
    requires Closed(RemoveRoute(w, rid, now, true))
    ensures RouteLinked(RemoveRoute(w, rid, now, true), other)
  {
    var v := RemoveRoute(w, rid, now, true);
    assert RouteLinked(w, other);
    var ids := w.routes[other].packages;
    forall k | 0 <= k < |ids| ensures v.packages[ids[k]] == w.packages[ids[k]] {
      PackageRoute(w, rid, ids[k]);
    }
    if w.routes[other].truck.To? {
      TruckRoute(w, rid, w.routes[other].truck.id);
    }
    RouteStays(w, v, other);
  }

  lemma RemovedRoutePackage(w: World, rid: int, now: Time, pid: int)
    requires Linked(w) && RemoveRouteOutcomeOf(w, rid, now, true).RouteGone? && pid in w.packages
    requires Closed(RemoveRoute(w, rid, now, true))
    ensures PackageLinked(RemoveRoute(w, rid, now, true), pid)
  {
    assert PackageLinked(w, pid);
    PackageRoute(w, rid, pid);
    if w.packages[pid].route != To(rid) {
      PackageStays(w, RemoveRoute(w, rid, now, true), pid);
    }
  }

  lemma RemovedRouteTruck(w: World, rid: int, now: Time, tid: int)
    requires Linked(w) && RemoveRouteOutcomeOf(w, rid, now, true).RouteGone? && tid in w.trucks
    requires Closed(RemoveRoute(w, rid, now, true))
    ensures TruckLinked(RemoveRoute(w, rid, now, true), tid)
  {
    assert TruckLinked(w, tid);
    TruckRoute(w, rid, tid);
  }

  lemma RemovedRouteLimits(w: World, rid: int, now: Time, other: int)
    requires Linked(w) && Safe(w) && RemoveRouteOutcomeOf(w, rid, now, true).RouteGone? && other in w.routes && other != rid
    requires Closed(RemoveRoute(w, rid, now, true))
    ensures WithinLimits(RemoveRoute(w, rid, now, true), other)
  {
    assert WithinLimits(w, other);
    SameLoadsElsewhere(w, RemoveRoute(w, rid, now, true), other);
  }

  lemma RemovedRouteWellFormed(w: World, rid: int, now: Time, commits: bool)
    requires WellFormed(w)
    ensures WellFormed(RemoveRoute(w, rid, now, commits))
  {
    if RemoveRouteOutcomeOf(w, rid, now, commits).RouteGone? {
      var v := RemoveRoute(w, rid, now, true);
      RemovedRouteClosed(w, rid, now);
      forall other | other in v.routes ensures RouteLinked(v, other) { RemovedRouteElsewhere(w, rid, now, other); }
      forall pid | pid in v.packages ensures PackageLinked(v, pid) { RemovedRoutePackage(w, rid, now, pid); }
      forall tid | tid in v.trucks ensures TruckLinked(v, tid) { RemovedRouteTruck(w, rid, now, tid); }
      CustomersStay(w, v);
      forall other | other in v.routes ensures WithinLimits(v, other) { RemovedRouteLimits(w, rid, now, other); }
      forall other | other in v.routes ensures Derived(v.routes[other]) { assert Derived(w.routes[other]); }
    }
  }

  // ----- removing a package

  lemma WithoutOnce(ids: seq<int>, id: int)
    requires NoDup(ids)
    ensures NoDup(Without(ids, id)) && id !in Without(ids, id)
    ensures forall other :: other != id ==> (other in Without(ids, id) <==> other in ids)
    ensures NoDup(Relisted(ids, id))
    ensures forall other :: other in Relisted(ids, id) <==> other in ids || other == id
  {
    if id in ids {
      RemoveAtOnce(ids, IndexOf(ids, id));
    }
    hide RemoveAt, IndexOf;
  }

  /** Taking an element out and appending it changes nothing exactly for the last one. */
  lemma RelistedIff(ids: seq<int>, id: int)
    requires NoDup(ids) && id in ids
    ensures Relisted(ids, id) == ids <==> ids[|ids| - 1] == id
  {
    var i, n := IndexOf(ids, id), |ids| - 1;
    if ids[n] == id {
      assert i == n;
      assert Relisted(ids, id) == ids[..n] + [id] == ids;
    } else {
      assert Relisted(ids, id)[n] == id;
    }
  }

  lemma LoadsRemoveAt(packages: map<int, PackageState>, ids: seq<int>, i: nat)
    requires i < |ids| && forall k :: 0 <= k < |ids| ==> ids[k] in packages
    ensures forall k :: 0 <= k < |RemoveAt(ids, i)| ==> RemoveAt(ids, i)[k] in packages
    ensures LoadsOf(packages, RemoveAt(ids, i)) == RemoveAt(LoadsOf(packages, ids), i)
  {
    var fewer := RemoveAt(ids, i);
    forall k | 0 <= k < |fewer| ensures fewer[k] == ids[if k < i then k else k + 1] {}
    var loads := LoadsOf(packages, ids);
    forall k | 0 <= k < |fewer| ensures RemoveAt(loads, i)[k] == loads[if k < i then k else k + 1] {}
  }

  lemma LoadsAppend(packages: map<int, PackageState>, ids: seq<int>, id: int)
    requires id in packages && forall k :: 0 <= k < |ids| ==> ids[k] in packages
    ensures forall k :: 0 <= k < |ids + [id]| ==> (ids + [id])[k] in packages
    ensures LoadsOf(packages, ids + [id]) == LoadsOf(packages, ids) + [LoadOf(packages[id])]
  {
  }

  /** Loads of a list from which a package was taken, and of one where it was put back at the end. */
  lemma LoadsWithout(packages: map<int, PackageState>, ids: seq<int>, pid: int)
    requires forall k :: 0 <= k < |ids| ==> ids[k] in packages
    requires pid in ids
    ensures forall k :: 0 <= k < |Without(ids, pid)| ==> Without(ids, pid)[k] in packages
    ensures forall k :: 0 <= k < |Relisted(ids, pid)| ==> Relisted(ids, pid)[k] in packages
    ensures LoadsOf(packages, Without(ids, pid)) == RemoveAt(LoadsOf(packages, ids), IndexOf(ids, pid))
    ensures multiset(LoadsOf(packages, Relisted(ids, pid))) == multiset(LoadsOf(packages, ids))
  {
    var i := IndexOf(ids, pid);
    LoadsRemoveAt(packages, ids, i);
    LoadsAppend(packages, RemoveAt(ids, i), pid);
    Split(LoadsOf(packages, ids), i);
  }

  lemma RemovalOutcomes(w: World, pid: int, now: Time, commits: bool)
    requires Linked(w)
    ensures var outcome := RemovePackageOutcomeOf(w, pid, now, commits);
      outcome.PackageNotFound? || outcome.PackageGone? || outcome.PackageNotSaved?
    ensures pid in w.packages && w.packages[pid].route.To? ==> pid in w.routes[w.packages[pid].route.id].packages
    ensures pid in w.packages ==> pid in w.customers[w.packages[pid].customer].packages
    ensures pid in w.packages ==> w.packages[pid].route == w.packages[pid].routeId
  {
    if pid in w.packages {
      assert PackageLinked(w, pid);
      if w.packages[pid].route.To? {
        OnItsRoute(w, pid);
      }
    }
  }

  /** In a linked world every assigned package ends at a stop of its route, so its arrival is always known. */
  lemma OnItsRoute(w: World, pid: int)
    requires Linked(w) && pid in w.packages && w.packages[pid].route.To?
    ensures !ArrivalMissing(w.routes[w.packages[pid].route.id], w.packages[pid])
  {
    assert PackageLinked(w, pid) && RouteLinked(w, w.packages[pid].route.id);
    var k := IndexOf(w.routes[w.packages[pid].route.id].packages, pid);
    assert w.packages[w.routes[w.packages[pid].route.id].packages[k]].route == w.packages[pid].route;
  }

  /** The world after a removal, kept or rolled back, differs from the one before in the package's own record and
      in the lists of its route and its customer. */
  ghost predicate Removing(w: World, v: World, pid: int, gone: bool)
    requires Linked(w) && pid in w.packages
  {
    var p := w.packages[pid];
    && v.trucks == w.trucks
    && v.packages.Keys == (if gone then w.packages.Keys - {pid} else w.packages.Keys)
    && v.routes.Keys == w.routes.Keys && v.customers.Keys == w.customers.Keys
    && (forall other <- v.packages :: other != pid ==> v.packages[other] == w.packages[other])
    && (!gone ==> v.packages[pid].(arrival := None) == p.(arrival := None)
                  && (p.route.Unlinked? ==> v.packages[pid] == p))
    && (forall rid <- w.routes ::
          v.routes[rid].(packages := [], events := []) == w.routes[rid].(packages := [], events := []))
    && (forall rid <- w.routes :: v.routes[rid].packages ==
          if p.route != To(rid) then w.routes[rid].packages
          else if gone then Without(w.routes[rid].packages, pid) else Relisted(w.routes[rid].packages, pid))
    && (forall cid <- w.customers :: v.customers[cid].packages ==
          if p.customer != cid then w.customers[cid].packages
          else if gone then Without(w.customers[cid].packages, pid) else Relisted(w.customers[cid].packages, pid))
  }

  lemma RemovalShape(w: World, pid: int, now: Time, commits: bool)
    requires Linked(w) && pid in w.packages
    ensures Removing(w, RemovePackage(w, pid, now, commits), pid, commits)
  {
    RemovalOutcomes(w, pid, now, commits);
  }

  lemma RemovingClosed(w: World, v: World, pid: int, gone: bool)
    requires Linked(w) && pid in w.packages && Removing(w, v, pid, gone)
    ensures Closed(v)
  {
    forall rid <- v.routes
      ensures Shaped(v.routes[rid]) && v.routes[rid].truck == w.routes[rid].truck
           && forall k :: 0 <= k < |v.routes[rid].packages| ==> v.routes[rid].packages[k] in v.packages
    {
      RemovingRouteList(w, v, pid, gone, rid);
      assert v.routes[rid].(packages := [], events := []) == w.routes[rid].(packages := [], events := []);
    }
    forall other <- v.packages ensures
      && v.packages[other].customer == w.packages[other].customer && v.packages[other].route == w.packages[other].route
    {
      assert v.packages[other].(arrival := None) == w.packages[other].(arrival := None);
    }
  }

  lemma RemovingRouteList(w: World, v: World, pid: int, gone: bool, rid: int)
    requires Linked(w) && pid in w.packages && Removing(w, v, pid, gone) && rid in w.routes
    ensures NoDup(v.routes[rid].packages)
    ensures forall other :: other in v.routes[rid].packages <==> other in w.routes[rid].packages && !(gone && other == pid)
    ensures forall k :: 0 <= k < |v.routes[rid].packages| ==> v.routes[rid].packages[k] in v.packages
  {
    assert RouteLinked(w, rid);
    PackageRoute(w, rid, pid);
    var ids, ids' := w.routes[rid].packages, v.routes[rid].packages;
    WithoutOnce(ids, pid);
    forall k | 0 <= k < |ids'| ensures ids'[k] in v.packages {
      var other := ids'[k];
      assert other in ids';
      assert other in ids && !(gone && other == pid);
      var j := IndexOf(ids, other);
      assert ids[j] in w.packages;
    }
  }

  lemma RemovingListedPackage(w: World, v: World, pid: int, gone: bool, rid: int, other: int)
    requires Linked(w) && pid in w.packages && Removing(w, v, pid, gone) && rid in w.routes && Closed(v)
    requires other in v.routes[rid].packages
    ensures other in v.packages && v.packages[other].route == To(rid)
    ensures IncludesInOrder(w.routes[rid].path, v.packages[other].start, v.packages[other].end)
  {
    RemovingRouteList(w, v, pid, gone, rid);
    assert RouteLinked(w, rid);
    var j := IndexOf(w.routes[rid].packages, other);
    assert w.packages[w.routes[rid].packages[j]].route == To(rid);
    assert v.packages[other].(arrival := None) == w.packages[other].(arrival := None);
  }

  lemma RemovingRouteLinked(w: World, v: World, pid: int, gone: bool, rid: int)
    requires Linked(w) && pid in w.packages && Removing(w, v, pid, gone) && rid in w.routes && Closed(v)
    ensures RouteLinked(v, rid)
  {
    assert RouteLinked(w, rid);
    RemovingRouteList(w, v, pid, gone, rid);
    hide Linked, Closed, IncludesInOrder;
    var r' := v.routes[rid];
    assert r'.(packages := [], events := []) == w.routes[rid].(packages := [], events := []);
    forall k | 0 <= k < |r'.packages|
      ensures v.packages[r'.packages[k]].route == To(rid)
           && IncludesInOrder(r'.path, v.packages[r'.packages[k]].start, v.packages[r'.packages[k]].end)
    {
      RemovingListedPackage(w, v, pid, gone, rid, r'.packages[k]);
    }
  }

  lemma RemovingPackageLinked(w: World, v: World, pid: int, gone: bool, other: int)
    requires Linked(w) && pid in w.packages && Removing(w, v, pid, gone) && other in v.packages && Closed(v)
    ensures PackageLinked(v, other)
  {
    assert other in w.packages;
    assert PackageLinked(w, other);
    assert CustomerLinked(w, w.packages[other].customer);
    WithoutOnce(w.customers[w.packages[other].customer].packages, pid);
    assert v.packages[other].(arrival := None) == w.packages[other].(arrival := None);
    if w.packages[other].route.To? {
      RemovingRouteList(w, v, pid, gone, w.packages[other].route.id);
    }
  }

  lemma RemovingCustomerLinked(w: World, v: World, pid: int, gone: bool, cid: int)
    requires Linked(w) && pid in w.packages && Removing(w, v, pid, gone) && cid in v.customers && Closed(v)
    ensures CustomerLinked(v, cid)
  {
    assert CustomerLinked(w, cid) && PackageLinked(w, pid);
    var ids, ids' := w.customers[cid].packages, v.customers[cid].packages;
    WithoutOnce(ids, pid);
    forall k | 0 <= k < |ids'| ensures ids'[k] in v.packages && v.packages[ids'[k]].customer == cid {
      var other := ids'[k];
      assert other in ids';
      var j := IndexOf(ids, other);
      assert w.packages[ids[j]].customer == cid;
      assert other in v.packages;
      assert v.packages[other].(arrival := None) == w.packages[other].(arrival := None);
    }
  }

  lemma RemovingLimits(w: World, v: World, pid: int, gone: bool, rid: int)
    requires Linked(w) && Safe(w) && pid in w.packages && Removing(w, v, pid, gone) && rid in w.routes && Closed(v)
    ensures WithinLimits(v, rid)
  {
    assert WithinLimits(w, rid);
    PackageRoute(w, rid, pid);
    var r, r' := w.routes[rid], v.routes[rid];
    assert r'.(packages := [], events := []) == r.(packages := [], events := []);
    forall k | 0 <= k < |r'.packages| ensures r'.packages[k] in w.packages
      && LoadOf(v.packages[r'.packages[k]]) == LoadOf(w.packages[r'.packages[k]])
    {
      var other := r'.packages[k];
      assert other in v.packages && other in w.packages;
      assert v.packages[other].(arrival := None) == w.packages[other].(arrival := None);
    }
    assert LoadsOn(v, rid) == LoadsOf(w.packages, r'.packages);
    if w.packages[pid].route == To(rid) {
      LoadsWithout(w.packages, r.packages, pid);
      if gone {
        assert PackageLinked(w, pid);
        RemovalNeverRaisesLoad(r.path, LoadsOn(w, rid), IndexOf(r.packages, pid));
      } else {
        MaximumLoadIgnoresOrder(r.path, LoadsOn(v, rid), LoadsOn(w, rid));
      }
    }
  }

  /** A removal that cannot be saved leaves a linked world as it was exactly when the package was last in its customer's
      list and, if it was assigned, last in its route's, with the arrival the schedule gives. */
  lemma FailedRemovalIsUndoneIff(w: World, pid: int, now: Time)
    requires Linked(w) && pid in w.packages
    ensures var p := w.packages[pid]; var listed := w.customers[p.customer].packages;
      && pid in listed && (p.route.To? ==> pid in w.routes[p.route.id].packages)
      && (RemovePackage(w, pid, now, false) == w <==>
            && listed[|listed| - 1] == pid
            && (p.route.To? ==>
                  var r := w.routes[p.route.id];
                  r.packages[|r.packages| - 1] == pid && RefreshedArrival(r, p) == p.arrival))
  {
    hide RefreshedArrival, Relisted, ArrivalMissing;
    var p := w.packages[pid];
    assert PackageLinked(w, pid) && CustomerLinked(w, p.customer);
    RelistedIff(w.customers[p.customer].packages, pid);
    var v := RemovePackage(w, pid, now, false);
    if p.route.To? {
      assert RouteLinked(w, p.route.id);
      OnItsRoute(w, pid);
      RelistedIff(w.routes[p.route.id].packages, pid);
      assert v.routes[p.route.id].packages == Relisted(w.routes[p.route.id].packages, pid);
      assert v.packages[pid] == p.(arrival := RefreshedArrival(w.routes[p.route.id], p));
    }
    assert v.customers[p.customer].packages == Relisted(w.customers[p.customer].packages, pid);
  }

  lemma RemovedPackageWellFormed(w: World, pid: int, now: Time, commits: bool)
    requires WellFormed(w)
    ensures WellFormed(RemovePackage(w, pid, now, commits))
  {
    if pid in w.packages {
      var v := RemovePackage(w, pid, now, commits);
      RemovalShape(w, pid, now, commits);
      RemovingWellFormed(w, v, pid, commits);
    }
  }

  lemma RemovingWellFormed(w: World, v: World, pid: int, gone: bool)
    requires WellFormed(w) && pid in w.packages && Removing(w, v, pid, gone)
    ensures WellFormed(v)
  {
    RemovingClosed(w, v, pid, gone);
    forall rid | rid in v.routes ensures RouteLinked(v, rid) { RemovingRouteLinked(w, v, pid, gone, rid); }
    forall other | other in v.packages ensures PackageLinked(v, other) { RemovingPackageLinked(w, v, pid, gone, other); }
    forall tid | tid in v.trucks ensures TruckLinked(v, tid) {
      assert TruckLinked(w, tid);
      if w.trucks[tid].route.To? {
        var rid := w.trucks[tid].route.id;
        assert rid in w.routes;
        assert v.routes[rid].(packages := [], events := []) == w.routes[rid].(packages := [], events := []);
      }
      TruckStays(w, v, tid);
    }
    forall cid | cid in v.customers ensures CustomerLinked(v, cid) { RemovingCustomerLinked(w, v, pid, gone, cid); }
    forall rid | rid in v.routes ensures WithinLimits(v, rid) { RemovingLimits(w, v, pid, gone, rid); }
    forall rid | rid in v.routes ensures Derived(v.routes[rid]) {
      assert rid in w.routes && Derived(w.routes[rid]);
      assert v.routes[rid].(packages := [], events := []) == w.routes[rid].(packages := [], events := []);
    }
  }

  // ----- heartbeat

  lemma {:induction false} PassWellFormed(w: World, ids: seq<int>, now: Time)
    requires WellFormed(w) && forall k :: 0 <= k < |ids| ==> ids[k] in w.routes
    ensures WellFormed(Pass(w, ids, now).0)
  {
    if ids != [] {
      PassWellFormed(w, ids[..|ids| - 1], now);
      ReconciledWellFormed(Pass(w, ids[..|ids| - 1], now).0, ids[|ids| - 1], now);
    }
  }

  // ----- runs

  /** A request to the system, and how its commit goes. A heartbeat visits the routes in some order. */
  datatype Request =
    | AssignPackagesTo(rid: int, packageIds: seq<int>, now: Time, failing: set<int>)
    | AssignTruckTo(rid: int, tid: int, now: Time, commits: bool)
    | RemovePackageOf(pid: int, now: Time, commits: bool)
    | RemoveRouteOf(rid: int, now: Time, commits: bool)
    | Beat(order: seq<int>, now: Time, commits: bool)

  /** The world after one request; a request for a missing route changes nothing. */
  ghost function Handle(w: World, q: Request): World
    requires WellFormed(w)
  {
    match q
    case AssignPackagesTo(rid, ids, now, failing) =>
      LinkedReady(w);
      if rid in w.routes then AssignAll(w, rid, Unique(ids), now, failing).world else w
    case AssignTruckTo(rid, tid, now, commits) => AssignTruck(w, rid, tid, now, commits)
    case RemovePackageOf(pid, now, commits) => RemovePackage(w, pid, now, commits)
    case RemoveRouteOf(rid, now, commits) => RemoveRoute(w, rid, now, commits)
    case Beat(order, now, commits) =>
      if Enumerates(order, w) then Heartbeat(w, order, now, commits) else w
  }

  lemma HandleWellFormed(w: World, q: Request)
    requires WellFormed(w)
    ensures WellFormed(Handle(w, q))
  {
    match q
    case AssignPackagesTo(rid, ids, now, failing) =>
      LinkedReady(w);
      if rid in w.routes { BatchWellFormed(w, rid, Unique(ids), now, failing); }
    case AssignTruckTo(rid, tid, now, commits) => TruckAssignedWellFormed(w, rid, tid, now, commits);
    case RemovePackageOf(pid, now, commits) => RemovedPackageWellFormed(w, pid, now, commits);
    case RemoveRouteOf(rid, now, commits) => RemovedRouteWellFormed(w, rid, now, commits);
    case Beat(order, now, commits) => if Enumerates(order, w) { PassWellFormed(w, order, now); }
  }

  /** Every run of requests, commits and rollbacks in any mix, stays among the well-formed worlds. */
  ghost function Run(w: World, requests: seq<Request>): (v: World)
    requires WellFormed(w)
    ensures WellFormed(v)
  {
    if requests == [] then w
    else
      var before := Run(w, requests[..|requests| - 1]);
      HandleWellFormed(before, requests[|requests| - 1]);
      Handle(before, requests[|requests| - 1])
  }

  /** In every state of every run: a route's truck points back to it and can carry its load over its distance, a
      truck is free exactly when it has no route, its busy window is its route's, and each package is in exactly
      the list of the route it names. */
  lemma RunsAreSafe(w: World, requests: seq<Request>)
    requires WellFormed(w)
    ensures var v := Run(w, requests);
      && (forall rid :: rid in v.routes && v.routes[rid].truck.To? ==>
            var r, t := v.routes[rid], v.trucks[v.routes[rid].truck.id];
            && t.route == To(rid) && t.status == ON_THE_WAY
            && t.busyFrom == Departure(r) && t.busyUntil == Eta(r)
            && MaximumLoad(r.path, LoadsOn(v, rid)) <= t.capacity as real
            && DistanceKm(r.path) <= t.maxRange)
      && (forall tid :: tid in v.trucks ==>
            && (v.trucks[tid].status == FREE <==> v.trucks[tid].route.Unlinked?)
            && (v.trucks[tid].route.To? ==> v.routes[v.trucks[tid].route.id].truck == To(tid)))
      && (forall pid, rid :: pid in v.packages && rid in v.routes ==>
            (pid in v.routes[rid].packages <==> v.packages[pid].route == To(rid)))
  {
    var v := Run(w, requests);
    forall rid | rid in v.routes && v.routes[rid].truck.To?
      ensures var r, t := v.routes[rid], v.trucks[v.routes[rid].truck.id];
        && t.route == To(rid) && t.status == ON_THE_WAY
        && t.busyFrom == Departure(r) && t.busyUntil == Eta(r)
        && MaximumLoad(r.path, LoadsOn(v, rid)) <= t.capacity as real
        && DistanceKm(r.path) <= t.maxRange
    {
      assert RouteLinked(v, rid) && WithinLimits(v, rid) && TruckLinked(v, v.routes[rid].truck.id);
    }
    forall tid | tid in v.trucks
      ensures (v.trucks[tid].status == FREE <==> v.trucks[tid].route.Unlinked?)
           && (v.trucks[tid].route.To? ==> v.routes[v.trucks[tid].route.id].truck == To(tid))
    {
      assert TruckLinked(v, tid);
    }
    forall pid, rid | pid in v.packages && rid in v.routes
      ensures pid in v.routes[rid].packages <==> v.packages[pid].route == To(rid)
    {
      PackageRoute(v, rid, pid);
    }
  }
}
