/** What the report of a pass tells, and the one change it leaves out. */
module ReportLaws {
  import opened Common
  import opened Fleet
  import opened Reconciliation
  import opened ReconciliationLaws
  import opened Projection
  import opened UseCaseSteps

  // ----- what changed

  predicate PackageChanged(w: World, v: World, pid: int) {
    pid in w.packages && pid in v.packages && v.packages[pid] != w.packages[pid]
  }

  predicate TruckChanged(w: World, v: World, tid: int) {
    tid in w.trucks && tid in v.trucks && v.trucks[tid] != w.trucks[tid]
  }

  predicate RouteChanged(w: World, v: World, rid: int) {
    rid in w.routes && rid in v.routes && v.routes[rid] != w.routes[rid]
  }

  // ----- one route

  /** The loss of its truck by a route that was already completed: a change of the route that no report lists. */
  predicate SilentRelease(r: RouteState, now: Time)
    requires Shaped(r)
  {
    r.status == COMPLETED && ReleaseDue(r, now) && r.truck.To?
  }

  function TrucksReported(s: Summary): seq<int> {
    s.trucksMoved + s.trucksReleased + s.trucksReconciled
  }

  lemma {:induction false} InConcat<T>(parts: seq<seq<T>>, x: T)
    ensures x in Concat(parts) <==> exists k :: 0 <= k < |parts| && x in parts[k]
  {
    if parts != [] {
      var n := |parts| - 1;
      InConcat(parts[..n], x);
      assert forall k :: 0 <= k < n ==> parts[..n][k] == parts[k];
      if x in Concat(parts[..n]) {
        var k :| 0 <= k < n && x in parts[..n][k];
        assert x in parts[k];
      }
    }
  }

  /** A package's record changes exactly when its progress does: every lifecycle event comes with a new status. */
  lemma PackageChangesIff(r: RouteState, pid: int, p: PackageState, now: Time)
    requires Shaped(r) && !PackageBlocked(r, p, now)
    ensures PackageAfter(r, pid, p, now) != p <==> ProgressOf(p) != ProgressAt(r, p, now)
  {
    if ProgressOf(p) == ProgressAt(r, p, now) {
      assert LifecycleEvents(r, pid, p, now) == [];
      assert p.events + [] == p.events;
    }
  }

  lemma ChangedAt(w: World, rid: int, now: Time, pid: int)
    requires Closed(w) && rid in w.routes
    ensures var r := w.routes[rid]; var parts := ChangedIds(r, r.packages, PackagesOf(w, rid), now);
      pid in Concat(parts) <==> pid in r.packages && ProgressOf(w.packages[pid]) != ProgressAt(r, w.packages[pid], now)
  {
    hide ProgressAt, ProgressOf, ChangedIds, PackagesOf;
    var r := w.routes[rid];
    var parts := ChangedIds(r, r.packages, PackagesOf(w, rid), now);
    InConcat(parts, pid);
    if pid in r.packages {
      assert IndexOf(r.packages, pid) < |parts|;
    }
  }

  /** The report of one route lists exactly the packages that change. */
  lemma ReportedPackages(w: World, rid: int, now: Time, pid: int)
    requires Closed(w) && rid in w.routes
    ensures pid in SummaryOf(w, rid, now).packages <==> PackageChanged(w, WorldAfter(w, rid, now), pid)
  {
    hide ChangedIds, PackageAfter, ProgressAt, ProgressOf, PackageBlocked;
    var r := w.routes[rid];
    if !Blocked(w, rid, now) {
      ChangedAt(w, rid, now, pid);
      if pid in r.packages {
        assert !PackageBlocked(r, w.packages[r.packages[IndexOf(r.packages, pid)]], now);
        PackageChangesIff(r, pid, w.packages[pid], now);
      }
    }
  }

  /** A truck that changes was moved, released, or had lost its route; one that serves the route is only reported when
      it changes. */
  lemma TruckChangesIff(rid: int, r: RouteState, t: TruckState, now: Time)
    requires Shaped(r) && !TruckBlocked(rid, r, t, now)
    ensures TruckAt(rid, r, t, now) != t ==> TruckMoves(rid, r, t, now) || ReleaseDue(r, now) || t.route.Unlinked?
    ensures t.route == To(rid) && (TruckMoves(rid, r, t, now) || ReleaseDue(r, now)) ==> TruckAt(rid, r, t, now) != t
  {
  }

  lemma TrucksIn(w: World, rid: int, now: Time, tid: int)
    requires Closed(w) && rid in w.routes
    ensures tid in TrucksReported(SummaryOf(w, rid, now)) <==>
      && !Blocked(w, rid, now) && w.routes[rid].truck == To(tid)
      && var r, t := w.routes[rid], w.trucks[tid];
         TruckMoves(rid, r, t, now) || ReleaseDue(r, now) || t.route.Unlinked?
  {
    hide Concat, ChangedIds, CorrectionsByPackage, PackagesOf, TruckMoves, ReleaseDue, TruckCorrections, StatusCorrections, Blocked;
  }

  /** The report of one route lists every truck that changes, and in a linked world no other. */
  lemma ReportedTrucks(w: World, rid: int, now: Time, tid: int)
    requires Closed(w) && rid in w.routes
    ensures TruckChanged(w, WorldAfter(w, rid, now), tid) ==> tid in TrucksReported(SummaryOf(w, rid, now))
    ensures Linked(w) && tid in TrucksReported(SummaryOf(w, rid, now)) ==> TruckChanged(w, WorldAfter(w, rid, now), tid)
  {
    hide Linked, SummaryOf, TrucksReported, TruckMoves, ReleaseDue, TruckAt, PackagesAfter, RouteAfter, AnyPackageBlocked, StatusBlocked;
    TrucksIn(w, rid, now, tid);
    if w.routes[rid].truck == To(tid) && !Blocked(w, rid, now) {
      TruckChangesIff(rid, w.routes[rid], w.trucks[tid], now);
      if Linked(w) {
        TruckRoute(w, rid, tid);
      }
    }
  }

  /** The report of one route lists that route exactly when it changes, but for a silent release. */
  lemma ReportedRoutes(w: World, rid: int, now: Time, other: int)
    requires Closed(w) && rid in w.routes
    ensures other in SummaryOf(w, rid, now).routes || (other == rid && !Blocked(w, rid, now) && SilentRelease(w.routes[rid], now))
       <==> RouteChanged(w, WorldAfter(w, rid, now), other)
    ensures !Blocked(w, rid, now) && SilentRelease(w.routes[rid], now) ==>
      rid !in SummaryOf(w, rid, now).routes && w.routes[rid].truck.id in SummaryOf(w, rid, now).trucksReleased
  {
    hide Concat, ChangedIds, CorrectionsByPackage, PackagesAfter, TrucksAfter;
    if !Blocked(w, rid, now) {
      var r, r' := w.routes[rid], RouteAfter(w, rid, now);
      if r.status == StatusAt(r, now) && !(ReleaseDue(r, now) && r.truck.To?) {
        assert r'.events == r.events;
      }
    }
  }

  // ----- a whole pass

  /** A pass ends with the pass over its last route, and so does its report. */
  lemma LastStep(w: World, ids: seq<int>, now: Time)
    requires Linked(w) && Enumerates(ids, w) && ids != []
    ensures var n := |ids| - 1; var u := Pass(w, ids[..n], now).0;
      && Enumerates(ids[..n], w) && Linked(u) && ids[n] in u.routes && ids[n] in w.routes && ids[n] !in Elements(ids[..n])
      && IsProjection(w, Elements(ids[..n]), now, u)
      && Pass(w, ids, now) == (WorldAfter(u, ids[n], now), Join(Pass(w, ids[..n], now).1, SummaryOf(u, ids[n], now)))
  {
    hide Linked, IsProjection, WorldAfter, SummaryOf, Join;
    FewerEnumerated(w, ids);
    PassIsProjection(w, ids[..|ids| - 1], now);
  }

  lemma TrucksJoined(a: Summary, b: Summary, tid: int)
    ensures tid in TrucksReported(Join(a, b)) <==> tid in TrucksReported(a) || tid in TrucksReported(b)
  {
  }

  lemma {:induction false} PassReportsPackage(w: World, ids: seq<int>, now: Time, pid: int)
    requires Linked(w) && Enumerates(ids, w)
    ensures var (v, s) := Pass(w, ids, now); pid in s.packages <==> PackageChanged(w, v, pid)
  {
    if ids != [] {
      var n := |ids| - 1;
      var u := Pass(w, ids[..n], now).0;
      FewerEnumerated(w, ids);
      PassReportsPackage(w, ids[..n], now, pid);
      PassIsProjection(w, ids[..n], now);
      ReportedPackages(u, ids[n], now, pid);
      if PackageChanged(w, u, pid) {
        assert PackageDone(w, Elements(ids[..n]), now, u, pid);
        PackageRoute(u, ids[n], pid);
      }
    }
  }

  lemma {:induction false} PassReportsTruck(w: World, ids: seq<int>, now: Time, tid: int)
    requires Linked(w) && Enumerates(ids, w)
    ensures var (v, s) := Pass(w, ids, now); tid in TrucksReported(s) <==> TruckChanged(w, v, tid)
  {
    if ids != [] {
      hide Pass, Join, SummaryOf, TrucksReported, Linked, IsProjection, Enumerates, Blocked, Elements;
      var n := |ids| - 1;
      var u := Pass(w, ids[..n], now).0;
      LastStep(w, ids, now);
      PassReportsTruck(w, ids[..n], now, tid);
      ReportedTrucks(u, ids[n], now, tid);
      TrucksJoined(Pass(w, ids[..n], now).1, SummaryOf(u, ids[n], now), tid);
      TruckStep(w, Elements(ids[..n]), ids[n], now, u, tid);
    }
  }

  /** A pass over one more route does not touch a truck that earlier ones changed. */
  lemma TruckStep(w: World, done: set<int>, rid: int, now: Time, u: World, tid: int)
    requires Linked(w) && Linked(u) && IsProjection(w, done, now, u) && rid in w.routes && rid !in done
    ensures TruckChanged(w, WorldAfter(u, rid, now), tid) <==> TruckChanged(w, u, tid) || TruckChanged(u, WorldAfter(u, rid, now), tid)
  {
    hide Linked, Blocked, RouteAfter, PackagesAfter;
    LinkedIsClosed(w);
    if TruckChanged(w, u, tid) {
      assert TruckDone(w, done, now, u, tid);
      TruckRoute(u, rid, tid);
    }
  }

  lemma {:induction false} PassReportsRoute(w: World, ids: seq<int>, now: Time, rid: int)
    requires Linked(w) && Enumerates(ids, w)
    ensures var (v, s) := Pass(w, ids, now);
      rid in s.routes || (rid in ids && SilentRelease(w.routes[rid], now)) <==> RouteChanged(w, v, rid)
    ensures rid in ids && SilentRelease(w.routes[rid], now) ==>
      rid !in Pass(w, ids, now).1.routes && w.routes[rid].truck.id in Pass(w, ids, now).1.trucksReleased
  {
    if ids != [] {
      var n := |ids| - 1;
      hide Pass, SummaryOf, Linked, IsProjection, Blocked, WorldAfter;
      var u := Pass(w, ids[..n], now).0;
      LastStep(w, ids, now);
      PassReportsRoute(w, ids[..n], now, rid);
      UntouchedYet(w, Elements(ids[..n]), ids[n], now, u);
      BlockedIff(u, ids[n], now);
      ReportedRoutes(u, ids[n], now, rid);
      assert rid in ids <==> rid in ids[..n] || rid == ids[n];
    }
  }

  /** The report of a pass over a linked world lists exactly the packages and trucks that changed, and the routes that
      changed but for silent releases, whose trucks it lists as released. */
  lemma ReportIsComplete(w: World, ids: seq<int>, now: Time)
    requires Linked(w) && Enumerates(ids, w)
    ensures var (v, s) := Pass(w, ids, now);
      && (forall pid :: pid in s.packages <==> PackageChanged(w, v, pid))
      && (forall tid :: tid in TrucksReported(s) <==> TruckChanged(w, v, tid))
      && (forall rid :: rid in s.routes || (rid in ids && SilentRelease(w.routes[rid], now)) <==> RouteChanged(w, v, rid))
      && (forall rid <- ids :: SilentRelease(w.routes[rid], now) ==> rid !in s.routes && w.routes[rid].truck.id in s.trucksReleased)
  {
    hide Pass, PackageChanged, TruckChanged, RouteChanged, TrucksReported, ReleaseDue, Linked;
    LinkedIsClosed(w);
    var (v, s) := Pass(w, ids, now);
    forall pid ensures pid in s.packages <==> PackageChanged(w, v, pid) { PassReportsPackage(w, ids, now, pid); }
    forall tid ensures tid in TrucksReported(s) <==> TruckChanged(w, v, tid) { PassReportsTruck(w, ids, now, tid); }
    forall rid ensures rid in s.routes || (rid in ids && SilentRelease(w.routes[rid], now)) <==> RouteChanged(w, v, rid) {
      PassReportsRoute(w, ids, now, rid);
    }
    forall rid <- ids | SilentRelease(w.routes[rid], now)
      ensures rid !in s.routes && w.routes[rid].truck.id in s.trucksReleased
    {
      PassReportsRoute(w, ids, now, rid);
    }
  }

  /** A pass over one route that reports no change made none, in any world without dangling references. */
  lemma QuietStep(w: World, rid: int, now: Time)
    requires Closed(w) && rid in w.routes && !StateChanged(SummaryOf(w, rid, now))
    ensures WorldAfter(w, rid, now) == w
  {
    hide Closed, SummaryOf, WorldAfter;
    var v := WorldAfter(w, rid, now);
    SameKeys(w, rid, now);
    forall pid <- w.packages ensures v.packages[pid] == w.packages[pid] { ReportedPackages(w, rid, now, pid); }
    forall tid <- w.trucks ensures v.trucks[tid] == w.trucks[tid] {
      ReportedTrucks(w, rid, now, tid);
      assert TrucksReported(SummaryOf(w, rid, now)) == [];
    }
    forall other <- w.routes ensures v.routes[other] == w.routes[other] { ReportedRoutes(w, rid, now, other); }
    assert v.packages == w.packages && v.trucks == w.trucks && v.routes == w.routes;
  }

  lemma SameKeys(w: World, rid: int, now: Time)
    requires Closed(w) && rid in w.routes
    ensures var v := WorldAfter(w, rid, now);
      && v.customers == w.customers && v.packages.Keys == w.packages.Keys && v.trucks.Keys == w.trucks.Keys
      && v.routes.Keys == w.routes.Keys
  {
    hide Closed, Blocked, PackagesAfter, TrucksAfter, RouteAfter;
  }

  /** A pass that reports no change made none. */
  lemma {:induction false} QuietPass(w: World, ids: seq<int>, now: Time)
    requires Closed(w) && (forall k :: 0 <= k < |ids| ==> ids[k] in w.routes) && !StateChanged(Pass(w, ids, now).1)
    ensures Pass(w, ids, now).0 == w
  {
    if ids != [] {
      hide Closed, SummaryOf, WorldAfter;
      QuietPass(w, ids[..|ids| - 1], now);
      QuietStep(w, ids[|ids| - 1], now);
    }
  }

  /** In a linked world a pass reports a change exactly when it made one. */
  lemma ChangesAreReported(w: World, ids: seq<int>, now: Time)
    requires Linked(w) && Enumerates(ids, w)
    ensures StateChanged(Pass(w, ids, now).1) <==> Pass(w, ids, now).0 != w
  {
    hide Linked, Pass, SilentRelease;
    LinkedIsClosed(w);
    var (v, s) := Pass(w, ids, now);
    if s.packages != [] {
      PassReportsPackage(w, ids, now, s.packages[0]);
    } else if s.routes != [] {
      PassReportsRoute(w, ids, now, s.routes[0]);
    } else if TrucksReported(s) != [] {
      PassReportsTruck(w, ids, now, TrucksReported(s)[0]);
    } else {
      QuietPass(w, ids, now);
    }
  }

  /** A heartbeat whose changes cannot be saved leaves the world as it was, whether it reported a change or not. */
  lemma UnsavedHeartbeat(w: World, ids: seq<int>, now: Time)
    requires Closed(w) && forall k :: 0 <= k < |ids| ==> ids[k] in w.routes
    ensures Heartbeat(w, ids, now, false) == w
    ensures !StateChanged(Pass(w, ids, now).1) ==> Heartbeat(w, ids, now, true) == w
  {
    hide Pass, Closed;
    if !StateChanged(Pass(w, ids, now).1) {
      QuietPass(w, ids, now);
    }
  }
}
