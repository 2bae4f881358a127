/** A pass over the routes of a linked world is a projection: every entity is brought to the state the schedule
    gives it, whatever the order of the routes and whatever its state was. */
module Projection {
  import opened Common
  import opened Fleet
  import opened Reconciliation
  import opened ReconciliationLaws

  ghost predicate Enumerates(ids: seq<int>, w: World) {
    NoDup(ids) && forall k :: 0 <= k < |ids| ==> ids[k] in w.routes
  }

  /** Route `rid` is one of `done` and its pass succeeds. */
  predicate Reconciled(w: World, done: set<int>, rid: Link, now: Time)
    requires Closed(w)
  {
    rid.To? && rid.id in w.routes && rid.id in done && !Blocked(w, rid.id, now)
  }

  function PackageTarget(w: World, done: set<int>, pid: int, now: Time): PackageState
    requires Closed(w) && pid in w.packages
  {
    var p := w.packages[pid];
    if Reconciled(w, done, p.route, now) && !PackageBlocked(w.routes[p.route.id], p, now)
    then PackageAfter(w.routes[p.route.id], pid, p, now)
    else p
  }

  function RouteTarget(w: World, done: set<int>, rid: int, now: Time): RouteState
    requires Closed(w) && rid in w.routes
  {
    if Reconciled(w, done, To(rid), now) then RouteAfter(w, rid, now) else w.routes[rid]
  }

  function TruckTarget(w: World, done: set<int>, tid: int, now: Time): TruckState
    requires Closed(w) && tid in w.trucks
  {
    var t := w.trucks[tid];
    if Reconciled(w, done, t.route, now) then TruckAt(t.route.id, w.routes[t.route.id], t, now) else t
  }

  ghost predicate PackageDone(w: World, done: set<int>, now: Time, v: World, pid: int)
    requires Closed(w) && pid in w.packages && pid in v.packages
  {
    v.packages[pid] == PackageTarget(w, done, pid, now)
  }

  ghost predicate RouteDone(w: World, done: set<int>, now: Time, v: World, rid: int)
    requires Closed(w) && rid in w.routes && rid in v.routes
  {
    v.routes[rid] == RouteTarget(w, done, rid, now)
  }

  ghost predicate TruckDone(w: World, done: set<int>, now: Time, v: World, tid: int)
    requires Closed(w) && tid in w.trucks && tid in v.trucks
  {
    v.trucks[tid] == TruckTarget(w, done, tid, now)
  }

  /** `v` is `w` with each entity of the routes in `done` on its own brought to its scheduled state, read off
      `w` alone. */
  ghost predicate IsProjection(w: World, done: set<int>, now: Time, v: World)
    requires Closed(w)
  {
    && v.customers == w.customers
    && v.packages.Keys == w.packages.Keys && v.routes.Keys == w.routes.Keys && v.trucks.Keys == w.trucks.Keys
    && (forall pid {:trigger PackageDone(w, done, now, v, pid)} :: pid in w.packages ==> PackageDone(w, done, now, v, pid))
    && (forall rid {:trigger RouteDone(w, done, now, v, rid)} :: rid in w.routes ==> RouteDone(w, done, now, v, rid))
    && (forall tid {:trigger TruckDone(w, done, now, v, tid)} :: tid in w.trucks ==> TruckDone(w, done, now, v, tid))
  }

  lemma ProjectionIsUnique(w: World, done: set<int>, now: Time, v1: World, v2: World)
    requires Closed(w) && IsProjection(w, done, now, v1) && IsProjection(w, done, now, v2)
    ensures v1 == v2
  {
    forall pid <- w.packages ensures v1.packages[pid] == v2.packages[pid] {
      assert PackageDone(w, done, now, v1, pid) && PackageDone(w, done, now, v2, pid);
    }
    forall rid <- w.routes ensures v1.routes[rid] == v2.routes[rid] {
      assert RouteDone(w, done, now, v1, rid) && RouteDone(w, done, now, v2, rid);
    }
    forall tid <- w.trucks ensures v1.trucks[tid] == v2.trucks[tid] {
      assert TruckDone(w, done, now, v1, tid) && TruckDone(w, done, now, v2, tid);
    }
    assert v1.packages == v2.packages && v1.routes == v2.routes && v1.trucks == v2.trucks;
  }

  // ----- one more route

  /** The entities of a route not yet done are still as they were. */
  lemma UntouchedYet(w: World, done: set<int>, rid: int, now: Time, v: World)
    requires Linked(w) && rid in w.routes && rid !in done
    requires IsProjection(w, done, now, v) && Linked(v)
    ensures v.routes[rid] == w.routes[rid]
    ensures Blocked(v, rid, now) == Blocked(w, rid, now)
    ensures w.routes[rid].truck.To? ==> v.trucks[w.routes[rid].truck.id] == w.trucks[w.routes[rid].truck.id]
  {
    assert RouteDone(w, done, now, v, rid);
    BlockedIff(w, rid, now);
    BlockedIff(v, rid, now);
    if w.routes[rid].truck.To? {
      var tid := w.routes[rid].truck.id;
      assert TruckDone(w, done, now, v, tid);
      TruckRoute(w, rid, tid);
    }
  }

  lemma OneMoreRoute(w: World, done: set<int>, rid: int, now: Time, v: World, other: int)
    requires Linked(w) && rid in w.routes && rid !in done && other in w.routes
    requires IsProjection(w, done, now, v) && Linked(v)
    ensures RouteDone(w, done + {rid}, now, WorldAfter(v, rid, now), other)
  {
    UntouchedYet(w, done, rid, now, v);
    assert RouteDone(w, done, now, v, other);
  }

  lemma OneMorePackage(w: World, done: set<int>, rid: int, now: Time, v: World, pid: int)
    requires Linked(w) && rid in w.routes && rid !in done && pid in w.packages
    requires IsProjection(w, done, now, v) && Linked(v)
    ensures PackageDone(w, done + {rid}, now, WorldAfter(v, rid, now), pid)
  {
    UntouchedYet(w, done, rid, now, v);
    PackageRoute(w, rid, pid);
    assert PackageDone(w, done, now, v, pid);
    assert PackageLinked(w, pid);
  }

  lemma OneMoreTruck(w: World, done: set<int>, rid: int, now: Time, v: World, tid: int)
    requires Linked(w) && rid in w.routes && rid !in done && tid in w.trucks
    requires IsProjection(w, done, now, v) && Linked(v)
    ensures TruckDone(w, done + {rid}, now, WorldAfter(v, rid, now), tid)
  {
    UntouchedYet(w, done, rid, now, v);
    TruckRoute(w, rid, tid);
    assert TruckDone(w, done, now, v, tid);
  }

  lemma OneMore(w: World, done: set<int>, rid: int, now: Time, v: World)
    requires Linked(w) && rid in w.routes && rid !in done
    requires IsProjection(w, done, now, v) && Linked(v)
    ensures IsProjection(w, done + {rid}, now, WorldAfter(v, rid, now))
  {
    var v' := WorldAfter(v, rid, now);
    forall other | other in w.routes ensures RouteDone(w, done + {rid}, now, v', other) {
      OneMoreRoute(w, done, rid, now, v, other);
    }
    forall pid | pid in w.packages ensures PackageDone(w, done + {rid}, now, v', pid) {
      OneMorePackage(w, done, rid, now, v, pid);
    }
    forall tid | tid in w.trucks ensures TruckDone(w, done + {rid}, now, v', tid) {
      OneMoreTruck(w, done, rid, now, v, tid);
    }
  }

  lemma NothingDone(w: World, now: Time)
    requires Closed(w)
    ensures IsProjection(w, {}, now, w)
  {
    forall rid | rid in w.routes ensures RouteDone(w, {}, now, w, rid) {}
    forall pid | pid in w.packages ensures PackageDone(w, {}, now, w, pid) {}
    forall tid | tid in w.trucks ensures TruckDone(w, {}, now, w, tid) {}
  }

  lemma LinkedIsClosed(w: World)
    requires Linked(w)
    ensures Closed(w)
  {
  }

  lemma FewerEnumerated(w: World, ids: seq<int>)
    requires Enumerates(ids, w) && ids != []
    ensures var n := |ids| - 1;
      && Enumerates(ids[..n], w) && ids[n] in w.routes
      && ids[n] !in Elements(ids[..n]) && Elements(ids) == Elements(ids[..n]) + {ids[n]}
  {
    var n := |ids| - 1;
    assert ids == ids[..n] + [ids[n]];
  }

  lemma PassNext(w: World, ids: seq<int>, now: Time)
    requires Closed(w) && Enumerates(ids, w) && ids != []
    ensures var n := |ids| - 1; var v := Pass(w, ids[..n], now).0;
      Closed(v) && ids[n] in v.routes && Pass(w, ids, now).0 == WorldAfter(v, ids[n], now)
  {
    hide Closed, WorldAfter, SummaryOf;
  }

  /** Passing over the routes one after another, each pass seeing what the earlier ones did, is the same as
      bringing every entity to its scheduled state at once. */
  lemma {:induction false} PassIsProjection(w: World, ids: seq<int>, now: Time)
    requires Linked(w) && Enumerates(ids, w)
    ensures IsProjection(w, Elements(ids), now, Pass(w, ids, now).0)
    ensures Linked(Pass(w, ids, now).0)
  {
    LinkedIsClosed(w);
    if ids == [] {
      NothingDone(w, now);
      assert Elements(ids) == {};
    } else {
      hide Linked, IsProjection, WorldAfter, Pass, Closed, Elements;
      FewerEnumerated(w, ids);
      var n := |ids| - 1;
      PassIsProjection(w, ids[..n], now);
      PassNext(w, ids, now);
      OneMore(w, Elements(ids[..n]), ids[n], now, Pass(w, ids[..n], now).0);
      ReconciledLinked(Pass(w, ids[..n], now).0, ids[n], now);
    }
  }

  /** The order in which the routes are visited does not matter. */
  lemma PassIgnoresOrder(w: World, a: seq<int>, b: seq<int>, now: Time)
    requires Linked(w) && Enumerates(a, w) && Enumerates(b, w)
    requires Elements(a) == Elements(b)
    ensures Pass(w, a, now).0 == Pass(w, b, now).0
  {
    PassIsProjection(w, a, now);
    PassIsProjection(w, b, now);
    ProjectionIsUnique(w, Elements(a), now, Pass(w, a, now).0, Pass(w, b, now).0);
  }
}
