/** Reconciliation over time: when a later pass overrides an earlier one. */
module TimeLaws {
  import opened Common
  import opened Fleet
  import opened Reconciliation
  import opened ReconciliationLaws
  import opened Projection

  // ----- a later pass overrides an earlier one

  ghost predicate SameButEvents(v: World, w: World) {
    && v.routes.Keys == w.routes.Keys && v.packages.Keys == w.packages.Keys && v.trucks.Keys == w.trucks.Keys
    && v.customers == w.customers
    && (forall rid {:trigger SameRoute(v, w, rid)} :: rid in v.routes && rid in w.routes ==> SameRoute(v, w, rid))
    && (forall pid {:trigger SamePackage(v, w, pid)} :: pid in v.packages && pid in w.packages ==> SamePackage(v, w, pid))
    && (forall tid {:trigger SameTruck(v, w, tid)} :: tid in v.trucks && tid in w.trucks ==> SameTruck(v, w, tid))
  }

  ghost predicate SameRoute(v: World, w: World, rid: int)
    requires rid in v.routes && rid in w.routes
  {
    v.routes[rid].(events := []) == w.routes[rid].(events := [])
  }

  ghost predicate SamePackage(v: World, w: World, pid: int)
    requires pid in v.packages && pid in w.packages
  {
    v.packages[pid].(events := []) == w.packages[pid].(events := [])
  }

  ghost predicate SameTruck(v: World, w: World, tid: int)
    requires tid in v.trucks && tid in w.trucks
  {
    v.trucks[tid] == w.trucks[tid]
  }

  /** The earlier pass, before departure, reopens a completed route that the later pass alone would refuse. */
  ghost predicate Reopened(r: RouteState, t1: Time, t2: Time)
    requires Shaped(r)
  {
    r.status == COMPLETED && StatusAt(r, t1) == SCHEDULED && StatusAt(r, t2) == IN_PROGRESS
  }

  ghost predicate ReopenedIn(w: World, done: set<int>, rid: Link, t1: Time, t2: Time)
    requires Closed(w)
  {
    rid.To? && rid.id in w.routes && rid.id in done && Reopened(w.routes[rid.id], t1, t2)
  }

  ghost predicate SomeReopened(w: World, ids: seq<int>, t1: Time, t2: Time)
    requires Closed(w)
  {
    exists rid :: ReopenedIn(w, Elements(ids), To(rid), t1, t2)
  }

  lemma RouteTwice(w: World, done: set<int>, t1: Time, v: World, t2: Time, rid: int)
    requires Linked(w) && IsProjection(w, done, t1, v) && Linked(v) && t1 <= t2 && rid in w.routes
    ensures ReopenedIn(w, done, To(rid), t1, t2) ==>
      RouteTarget(v, done, rid, t2).status != RouteTarget(w, done, rid, t2).status
    ensures !ReopenedIn(w, done, To(rid), t1, t2) ==>
      RouteTarget(v, done, rid, t2).(events := []) == RouteTarget(w, done, rid, t2).(events := [])
  {
    assert RouteDone(w, done, t1, v, rid);
    BlockedIff(w, rid, t1);
    BlockedIff(w, rid, t2);
    BlockedIff(v, rid, t2);
  }

  lemma PackageTwice(w: World, done: set<int>, t1: Time, v: World, t2: Time, pid: int)
    requires Linked(w) && IsProjection(w, done, t1, v) && Linked(v) && t1 <= t2 && pid in w.packages
    requires !ReopenedIn(w, done, w.packages[pid].route, t1, t2)
    ensures PackageTarget(v, done, pid, t2).(events := []) == PackageTarget(w, done, pid, t2).(events := [])
  {
    assert PackageDone(w, done, t1, v, pid);
    assert PackageLinked(w, pid) && PackageLinked(v, pid);
    if w.packages[pid].route.To? {
      var rid := w.packages[pid].route.id;
      assert RouteDone(w, done, t1, v, rid);
      BlockedIff(w, rid, t1);
      BlockedIff(w, rid, t2);
      BlockedIff(v, rid, t2);
    }
  }

  lemma PositionOverridden(rid: int, r: RouteState, r': RouteState, t: TruckState, t1: Time, t2: Time)
    requires Shaped(r) && Shaped(r') && r'.path == r.path && r'.schedule == r.schedule && t1 <= t2
    ensures ReleaseDue(r, t1) ==> TruckAt(rid, r, t, t1) == TruckAt(rid, r, t, t2)
    ensures !ReleaseDue(r, t1) ==> TruckAt(rid, r', TruckAt(rid, r, t, t1), t2) == TruckAt(rid, r, t, t2)
  {
  }

  lemma TruckTwice(w: World, done: set<int>, t1: Time, v: World, t2: Time, tid: int)
    requires Linked(w) && IsProjection(w, done, t1, v) && Linked(v) && t1 <= t2 && tid in w.trucks
    requires !ReopenedIn(w, done, w.trucks[tid].route, t1, t2)
    ensures TruckTarget(v, done, tid, t2) == TruckTarget(w, done, tid, t2)
  {
    assert TruckDone(w, done, t1, v, tid);
    var t := w.trucks[tid];
    if t.route.To? && t.route.id in done {
      var rid := t.route.id;
      var r, r' := w.routes[rid], v.routes[rid];
      assert RouteDone(w, done, t1, v, rid);
      BlockedIff(w, rid, t1);
      BlockedIff(w, rid, t2);
      BlockedIff(v, rid, t2);
      if !Blocked(w, rid, t1) {
        PositionOverridden(rid, r, r', t, t1, t2);
        assert v.trucks[tid] == TruckAt(rid, r, t, t1);
        assert !Blocked(w, rid, t2);
      }
    }
  }

  /** A pass at `t1` followed by one at `t2 >= t1` ends where the pass at `t2` alone ends, events aside, exactly
      when no completed route was reopened by the earlier pass. */
  lemma LaterPassOverrides(w: World, ids: seq<int>, t1: Time, t2: Time)
    requires Linked(w) && Enumerates(ids, w) && t1 <= t2
    ensures SameButEvents(Pass(Pass(w, ids, t1).0, ids, t2).0, Pass(w, ids, t2).0)
       <==> !SomeReopened(w, ids, t1, t2)
  {
    var v := Pass(w, ids, t1).0;
    PassIsProjection(w, ids, t1);
    PassIsProjection(v, ids, t2);
    PassIsProjection(w, ids, t2);
    Overridden(w, Elements(ids), t1, v, t2, Pass(v, ids, t2).0, Pass(w, ids, t2).0);
  }

  lemma Overridden(w: World, done: set<int>, t1: Time, v: World, t2: Time, twice: World, once: World)
    requires Linked(w) && IsProjection(w, done, t1, v) && Linked(v) && t1 <= t2
    requires IsProjection(v, done, t2, twice) && IsProjection(w, done, t2, once)
    ensures SameButEvents(twice, once) <==> !exists rid :: ReopenedIn(w, done, To(rid), t1, t2)
  {
    if rid :| ReopenedIn(w, done, To(rid), t1, t2) {
      RouteTwice(w, done, t1, v, t2, rid);
      assert RouteDone(v, done, t2, twice, rid) && RouteDone(w, done, t2, once, rid);
      assert !SameRoute(twice, once, rid);
    } else {
      AllTwice(w, done, t1, v, t2, twice, once);
    }
  }

  lemma AllTwice(w: World, done: set<int>, t1: Time, v: World, t2: Time, twice: World, once: World)
    requires Linked(w) && IsProjection(w, done, t1, v) && Linked(v) && t1 <= t2
    requires IsProjection(v, done, t2, twice) && IsProjection(w, done, t2, once)
    requires forall rid :: !ReopenedIn(w, done, To(rid), t1, t2)
    ensures SameButEvents(twice, once)
  {
    forall rid | rid in twice.routes && rid in once.routes ensures SameRoute(twice, once, rid) {
      RouteTwice(w, done, t1, v, t2, rid);
      assert RouteDone(v, done, t2, twice, rid) && RouteDone(w, done, t2, once, rid);
    }
    forall pid | pid in twice.packages && pid in once.packages ensures SamePackage(twice, once, pid) {
      assert w.packages[pid].route.To? ==> !ReopenedIn(w, done, To(w.packages[pid].route.id), t1, t2);
      PackageTwice(w, done, t1, v, t2, pid);
      assert PackageDone(v, done, t2, twice, pid) && PackageDone(w, done, t2, once, pid);
    }
    forall tid | tid in twice.trucks && tid in once.trucks ensures SameTruck(twice, once, tid) {
      assert w.trucks[tid].route.To? ==> !ReopenedIn(w, done, To(w.trucks[tid].route.id), t1, t2);
      TruckTwice(w, done, t1, v, t2, tid);
      assert TruckDone(v, done, t2, twice, tid) && TruckDone(w, done, t2, once, tid);
    }
  }
}
