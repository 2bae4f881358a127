/** A pass repeated at the same instant finds nothing to do. */
module RepeatLaws {
  import opened Common
  import opened Fleet
  import opened Reconciliation
  import opened ReconciliationLaws
  import opened Projection

  ghost predicate SamePlan(r: RouteState, r': RouteState) {
    r'.path == r.path && r'.schedule == r.schedule
  }

  lemma StopsInOrder(r: RouteState, i: nat, j: nat)
    requires Sound(r) && r.schedule.Some? && i <= j < |r.path|
    ensures r.schedule.value.stops[i].arrivalAt <= r.schedule.value.stops[j].arrivalAt
  {
  }

  /** A package that is where the schedule wants it needs no event, no reason and no change. */
  lemma PackageSettles(r: RouteState, r': RouteState, pid: int, p: PackageState, now: Time)
    requires Sound(r) && SamePlan(r, r') && Shaped(r) && Shaped(r') && !PackageBlocked(r, p, now)
    ensures var p' := PackageAfter(r, pid, p, now);
      && !PackageBlocked(r', p', now)
      && PackageAfter(r', pid, p', now) == p'
      && ProgressOf(p') == ProgressAt(r', p', now)
      && Reasons(r', p', now) == []
  {
    var p' := PackageAfter(r, pid, p, now);
    if Travels(r, p) {
      StopsInOrder(r, IndexOf(r.path, p.start), IndexOf(r.path, p.end));
    }
    assert LifecycleEvents(r', pid, p', now) == [];
  }

  lemma SettledPackage(w: World, done: set<int>, now: Time, v: World, rid: int, pid: int)
    requires Linked(w) && Linked(v) && IsProjection(w, done, now, v)
    requires rid in done && rid in w.routes && !Blocked(w, rid, now)
    requires pid in v.packages && pid in v.routes[rid].packages
    ensures var p := v.packages[pid]; var r := v.routes[rid];
      && !PackageBlocked(r, p, now)
      && PackageAfter(r, pid, p, now) == p
      && ProgressOf(p) == ProgressAt(r, p, now)
      && Reasons(r, p, now) == []
  {
    assert RouteDone(w, done, now, v, rid);
    assert PackageDone(w, done, now, v, pid);
    PackageRoute(w, rid, pid);
    assert RouteLinked(w, rid) && PackageLinked(w, pid);
    PackageSettles(w.routes[rid], v.routes[rid], pid, w.packages[pid], now);
  }

  lemma NoPackageReports(states: seq<PackageState>, rid: int, r: RouteState, ids: seq<int>, now: Time)
    requires Shaped(r) && |states| == |ids|
    requires forall k :: 0 <= k < |ids| ==> ProgressOf(states[k]) == ProgressAt(r, states[k], now) && Reasons(r, states[k], now) == []
    ensures Concat(ChangedIds(r, ids, states, now)) == [] && Concat(CorrectionsByPackage(rid, r, ids, states, now)) == []
  {
    ConcatOfEmpties(ChangedIds(r, ids, states, now));
    ConcatOfEmpties(CorrectionsByPackage(rid, r, ids, states, now));
  }

  lemma SettledTruck(w: World, done: set<int>, now: Time, v: World, rid: int)
    requires Linked(w) && Linked(v) && IsProjection(w, done, now, v)
    requires rid in done && rid in w.routes && !Blocked(w, rid, now)
    requires v.routes[rid].truck.To?
    ensures var t := v.trucks[v.routes[rid].truck.id];
      !ReleaseDue(v.routes[rid], now) && t.route == To(rid) && TruckAt(rid, v.routes[rid], t, now) == t
  {
    assert RouteDone(w, done, now, v, rid);
    var tid := w.routes[rid].truck.id;
    TruckRoute(w, rid, tid);
    assert TruckDone(w, done, now, v, tid);
  }

  /** Everything of a route is where the schedule wants it, with nothing left to record. */
  ghost predicate Settled(v: World, rid: int, now: Time)
    requires Closed(v) && rid in v.routes
  {
    var r := v.routes[rid];
    && r.status == StatusAt(r, now)
    && (r.truck.To? ==>
          var t := v.trucks[r.truck.id];
          !ReleaseDue(r, now) && t.route == To(rid) && TruckAt(rid, r, t, now) == t)
    && (forall pid :: pid in v.packages && pid in r.packages ==>
          var p := v.packages[pid];
          && !PackageBlocked(r, p, now) && PackageAfter(r, pid, p, now) == p
          && ProgressOf(p) == ProgressAt(r, p, now) && Reasons(r, p, now) == [])
  }

  lemma SettledAfter(w: World, done: set<int>, now: Time, v: World, rid: int)
    requires Linked(w) && Linked(v) && IsProjection(w, done, now, v)
    requires rid in done && rid in w.routes && !Blocked(w, rid, now)
    ensures Settled(v, rid, now)
  {
    assert RouteDone(w, done, now, v, rid);
    if v.routes[rid].truck.To? {
      SettledTruck(w, done, now, v, rid);
    }
    forall pid | pid in v.packages && pid in v.routes[rid].packages
      ensures var p, r := v.packages[pid], v.routes[rid];
        && !PackageBlocked(r, p, now) && PackageAfter(r, pid, p, now) == p
        && ProgressOf(p) == ProgressAt(r, p, now) && Reasons(r, p, now) == []
    {
      SettledPackage(w, done, now, v, rid, pid);
    }
  }

  lemma SettledStays(v: World, rid: int, now: Time)
    requires Closed(v) && rid in v.routes && Settled(v, rid, now)
    ensures WorldAfter(v, rid, now) == v
  {
    if !Blocked(v, rid, now) {
      var r := v.routes[rid];
      assert RouteAfter(v, rid, now) == r;
      assert PackagesAfter(v, rid, now) == v.packages;
      assert TrucksAfter(v, rid, now) == v.trucks;
      assert v.routes[rid := r] == v.routes;
    }
  }

  lemma SettledIsQuiet(v: World, rid: int, now: Time)
    requires Closed(v) && rid in v.routes && Settled(v, rid, now)
    ensures SummaryOf(v, rid, now) == NOTHING
  {
    var r := v.routes[rid];
    var states := PackagesOf(v, rid);
    forall k | 0 <= k < |r.packages|
      ensures ProgressOf(states[k]) == ProgressAt(r, states[k], now) && Reasons(r, states[k], now) == []
    {
      var pid := r.packages[k];
      assert pid in v.packages && pid in r.packages;
      assert states[k] == v.packages[pid];
    }
    NoPackageReports(states, rid, r, r.packages, now);
  }

  /** A second pass over a route at the same instant changes nothing and reports nothing. */
  lemma SettledRoute(w: World, done: set<int>, now: Time, v: World, rid: int)
    requires Linked(w) && Linked(v) && IsProjection(w, done, now, v) && rid in done && rid in w.routes
    ensures WorldAfter(v, rid, now) == v && SummaryOf(v, rid, now) == NOTHING
  {
    if Blocked(w, rid, now) {
      assert RouteDone(w, done, now, v, rid);
      BlockedIff(w, rid, now);
      BlockedIff(v, rid, now);
    } else {
      SettledAfter(w, done, now, v, rid);
      SettledStays(v, rid, now);
      SettledIsQuiet(v, rid, now);
    }
  }

  lemma {:induction false} NothingLeft(w: World, done: set<int>, now: Time, v: World, ids: seq<int>)
    requires Linked(w) && Linked(v) && IsProjection(w, done, now, v)
    requires forall k :: 0 <= k < |ids| ==> ids[k] in done && ids[k] in w.routes
    ensures Pass(v, ids, now) == (v, NOTHING)
  {
    if ids != [] {
      NothingLeft(w, done, now, v, ids[..|ids| - 1]);
      SettledRoute(w, done, now, v, ids[|ids| - 1]);
      assert Join(NOTHING, NOTHING) == NOTHING;
    }
  }

  /** A second pass at the same time changes nothing, records no event and reports no correction. */
  lemma RepeatedPassIsIdle(w: World, ids: seq<int>, now: Time)
    requires Linked(w) && Enumerates(ids, w)
    ensures var v := Pass(w, ids, now).0; Pass(v, ids, now) == (v, NOTHING)
  {
    PassIsProjection(w, ids, now);
    NothingLeft(w, Elements(ids), now, Pass(w, ids, now).0, ids);
  }
}
