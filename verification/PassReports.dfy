/** The corrections a pass over a linked world reports, told from the worlds before and after it. */
module PassReports {
  import opened Common
  import opened RouteSchedules
  import opened Fleet
  import opened Reconciliation
  import opened ReconciliationLaws
  import opened Projection
  import opened RepeatLaws
  import opened Assignments
  import opened ReportLaws
  import opened PassOutcomes

  // ----- which corrections are due

  /** What kind of position a scheduled route has: at a stop only at its scheduled arrival there. */
  function KindThen(r: RouteState, now: Time): RoutePositionKind
    requires Shaped(r) && r.schedule.Some?
  {
    if now < At(r, 0) then BEFORE_START
    else if FinalArrival(r) < now then AFTER_END
    else if exists k :: 0 < k < |r.path| && At(r, k) == now then AT_STOP
    else IN_TRANSIT
  }

  /** Why a package of a route is corrected directly, beyond the lifecycle steps that are due. */
  function WhyCorrected(r: RouteState, p: PackageState, later: PackageState, now: Time): seq<PackageReason>
    requires Shaped(r) && OnPath(r, p) && Forwards(r, p)
  {
    if r.schedule.None? then
      (if p.arrival.Some? then [EXPECTED_ARRIVAL_RECALCULATED] else [])
      + (if p.status != TODO || p.location != p.start || p.arrival.Some? then [ROUTE_UNSCHEDULED] else [])
    else
      var pickup, delivery := ArrivalAt(r, p.start), ArrivalAt(r, p.end);
      (if now < pickup && (p.status != TODO || p.location != p.start) then [BEFORE_SCHEDULED_PICKUP] else [])
      + (if p.status == DONE && pickup <= now && (now < delivery || p.location != p.end)
         then [LIFECYCLE_STATE_INCONSISTENT] else [])
      + (if pickup <= now < delivery && later.location != (if p.status == TODO then p.start else p.location)
         then [ROUTE_PROGRESS_ADVANCED] else [])
      + (if p.arrival != Some(delivery) then [EXPECTED_ARRIVAL_RECALCULATED] else [])
  }

  /** A correction of the route itself: it had started too early. */
  predicate StatusDue(rid: int, r: RouteState, c: Correction, now: Time)
    requires Shaped(r)
  {
    && r.schedule.Some? && now < At(r, 0) && r.status != SCHEDULED
    && c == RouteStateReconciled(rid, r.status, SCHEDULED, Some(At(r, 0)), Some(FinalArrival(r)), BEFORE_SCHEDULED_DEPARTURE, now)
  }

  /** A correction of a truck: it was not where its route is. */
  predicate PositionDue(rid: int, r: RouteState, tid: int, t: TruckState, later: TruckState, c: Correction, now: Time)
    requires Shaped(r) && r.schedule.Some?
  {
    && (later.location != t.location || later.inTransitTo != t.inTransitTo)
    && c == TruckPositionReconciled(tid, rid, t.location, later.location, t.inTransitTo, later.inTransitTo, KindThen(r, now), now)
  }

  predicate PackageDue(rid: int, r: RouteState, pid: int, p: PackageState, later: PackageState, c: Correction, now: Time)
    requires Shaped(r) && OnPath(r, p) && Forwards(r, p)
  {
    var reasons := WhyCorrected(r, p, later, now);
    && reasons != []
    && c == PackageStateReconciled(pid, rid, p.status, later.status, p.location, later.location, p.arrival, later.arrival,
                                   if r.schedule.None? then None else Some(ArrivalAt(r, p.start)),
                                   if r.schedule.None? then None else Some(ArrivalAt(r, p.end)),
                                   reasons, now)
  }

  /** A correction of an entity of a route that the pass from `w` to `v` visits. */
  ghost predicate Due(w: World, v: World, rid: int, c: Correction, now: Time)
    requires Linked(w) && rid in w.routes && v.packages.Keys == w.packages.Keys && v.trucks.Keys == w.trucks.Keys
  {
    Plan(w, rid);
    var r := w.routes[rid];
    || StatusDue(rid, r, c, now)
    || (r.truck.To? && PositionDue(rid, r, r.truck.id, w.trucks[r.truck.id], v.trucks[r.truck.id], c, now))
    || exists k :: 0 <= k < |r.packages|
         && PackageDue(rid, r, r.packages[k], w.packages[r.packages[k]], v.packages[r.packages[k]], c, now)
  }

  lemma Plan(w: World, rid: int)
    requires Linked(w) && rid in w.routes
    ensures var r := w.routes[rid];
      && Sound(r) && Shaped(r) && (r.schedule.None? ==> r.status == PLANNED)
      && (r.truck.To? ==> r.truck.id in w.trucks && r.schedule.Some? && w.trucks[r.truck.id].route == To(rid))
      && forall k :: 0 <= k < |r.packages| ==>
           && r.packages[k] in w.packages
           && OnPath(r, w.packages[r.packages[k]]) && Forwards(r, w.packages[r.packages[k]])
           && w.packages[r.packages[k]].routeId == To(rid)
  {
    assert RouteLinked(w, rid);
    forall k | 0 <= k < |w.routes[rid].packages| ensures w.packages[w.routes[rid].packages[k]].routeId == To(rid) {
      assert PackageLinked(w, w.routes[rid].packages[k]);
    }
  }

  // ----- the corrections of one entity

  lemma KindIs(r: RouteState, now: Time)
    requires Sound(r) && Shaped(r) && r.schedule.Some?
    ensures PositionOf(r, now).kind == KindThen(r, now)
  {
    var k, n := LastReached(r.schedule.value, now), |r.path| - 1;
    assert At(r, 0) == r.schedule.value.departure;
    StopsInOrder(r, k, n);
    if exists j :: 0 < j < |r.path| && At(r, j) == now {
      var j :| 0 < j < |r.path| && At(r, j) == now;
      StopsInOrder(r, 0, j);
      StopsInOrder(r, j, n);
      LastReachedIs(r, now, j);
    } else {
      assert k > 0 ==> At(r, k) != now;
    }
  }

  lemma StatusCorrectionIff(rid: int, r: RouteState, c: Correction, now: Time)
    requires Sound(r) && Shaped(r) && (r.schedule.None? ==> r.status == PLANNED)
    ensures c in StatusCorrections(rid, r, now) <==> StatusDue(rid, r, c, now)
  {
  }

  lemma TruckCorrectionIff(rid: int, r: RouteState, tid: int, t: TruckState, c: Correction, now: Time)
    requires Sound(r) && Shaped(r) && r.schedule.Some? && t.route == To(rid)
    ensures c in TruckCorrections(rid, r, tid, t, now) <==> PositionDue(rid, r, tid, t, TruckAt(rid, r, t, now), c, now)
  {
    hide TruckAt, KindThen, PositionOf;
    KindIs(r, now);
  }

  lemma WhyIs(r: RouteState, p: PackageState, later: PackageState, now: Time)
    requires Sound(r) && Shaped(r) && OnPath(r, p) && Forwards(r, p) && later.location == ProgressAt(r, p, now).location
    ensures Reasons(r, p, now) == WhyCorrected(r, p, later, now)
  {
    hide LastReached, Sound;
    if r.schedule.Some? {
      var s := r.schedule.value;
      StopsInOrder(r, IndexOf(r.path, p.start), IndexOf(r.path, p.end));
      assert Travels(r, p) && StopTime(r, p.start) == ArrivalAt(r, p.start) && StopTime(r, p.end) == ArrivalAt(r, p.end);
      hide Travels, StopTime, ArrivalAt, OnPath, Forwards, Shaped;
    }
  }

  lemma PackageCorrectionIff(rid: int, r: RouteState, pid: int, p: PackageState, c: Correction, now: Time)
    requires Sound(r) && Shaped(r) && OnPath(r, p) && Forwards(r, p) && p.routeId == To(rid)
    ensures !PackageBlocked(r, p, now)
    ensures c in PackageCorrections(rid, r, pid, p, now) <==> PackageDue(rid, r, pid, p, PackageAfter(r, pid, p, now), c, now)
  {
    hide Reasons, WhyCorrected, ProgressAt, LifecycleEvents;
    WhyIs(r, p, PackageAfter(r, pid, p, now), now);
  }

  // ----- the corrections of one route

  lemma {:induction false} CorrectionsListed(rid: int, r: RouteState, ids: seq<int>, states: seq<PackageState>,
                                             c: Correction, now: Time)
    requires Shaped(r) && |ids| == |states|
    ensures c in Concat(CorrectionsByPackage(rid, r, ids, states, now))
       <==> exists k :: 0 <= k < |ids| && c in PackageCorrections(rid, r, ids[k], states[k], now)
  {
    hide PackageCorrections;
    var parts := CorrectionsByPackage(rid, r, ids, states, now);
    InConcat(parts, c);
    if k :| 0 <= k < |ids| && c in PackageCorrections(rid, r, ids[k], states[k], now) {
      assert c in parts[k];
    }
  }

  lemma PackageAfterStep(w: World, rid: int, now: Time, k: nat, c: Correction)
    requires Linked(w) && rid in w.routes && !Blocked(w, rid, now) && k < |w.routes[rid].packages|
    ensures Shaped(w.routes[rid])
    ensures var r, pid, v := w.routes[rid], w.routes[rid].packages[k], WorldAfter(w, rid, now);
      && pid in w.packages && pid in v.packages && OnPath(r, w.packages[pid]) && Forwards(r, w.packages[pid])
      && (c in PackageCorrections(rid, r, pid, w.packages[pid], now)
          <==> PackageDue(rid, r, pid, w.packages[pid], v.packages[pid], c, now))
  {
    hide Linked, PackageCorrections, PackageDue, PackageAfter, RouteAfter, TrucksAfter, Blocked;
    LinkedIsClosed(w);
    Plan(w, rid);
    var pid := w.routes[rid].packages[k];
    PackageCorrectionIff(rid, w.routes[rid], pid, w.packages[pid], c, now);
  }

  lemma TruckAfterStep(w: World, rid: int, now: Time, c: Correction)
    requires Linked(w) && rid in w.routes && !Blocked(w, rid, now) && w.routes[rid].truck.To?
    ensures Shaped(w.routes[rid]) && w.routes[rid].schedule.Some?
    ensures var r, tid, v := w.routes[rid], w.routes[rid].truck.id, WorldAfter(w, rid, now);
      && tid in w.trucks && tid in v.trucks
      && (c in TruckCorrections(rid, r, tid, w.trucks[tid], now)
          <==> PositionDue(rid, r, tid, w.trucks[tid], v.trucks[tid], c, now))
  {
    hide Linked, TruckCorrections, PositionDue, PackagesAfter, RouteAfter, TruckAt, Blocked;
    LinkedIsClosed(w);
    Plan(w, rid);
    TruckCorrectionIff(rid, w.routes[rid], w.routes[rid].truck.id, w.trucks[w.routes[rid].truck.id], c, now);
  }

  lemma SummaryLists(w: World, rid: int, now: Time, c: Correction)
    requires Closed(w) && rid in w.routes && !Blocked(w, rid, now)
    ensures var r, states := w.routes[rid], PackagesOf(w, rid);
      c in SummaryOf(w, rid, now).corrections
      <==> || c in StatusCorrections(rid, r, now)
           || (r.truck.To? && c in TruckCorrections(rid, r, r.truck.id, w.trucks[r.truck.id], now))
           || exists k :: 0 <= k < |r.packages| && c in PackageCorrections(rid, r, r.packages[k], states[k], now)
  {
    hide Blocked, PackagesOf, StatusCorrections, TruckCorrections, PackageCorrections, CorrectionsByPackage, ChangedIds, Concat;
    CorrectionsListed(rid, w.routes[rid], w.routes[rid].packages, PackagesOf(w, rid), c, now);
  }

  lemma NothingToCorrect(w: World, rid: int, now: Time)
    requires Closed(w) && rid in w.routes && Blocked(w, rid, now)
    ensures SummaryOf(w, rid, now).corrections == []
  {
  }

  /** The corrections of one route are those that are due on it. */
  lemma StepCorrections(w: World, rid: int, now: Time, c: Correction)
    requires Linked(w) && rid in w.routes && !Blocked(w, rid, now)
    ensures var v := WorldAfter(w, rid, now);
      && v.packages.Keys == w.packages.Keys && v.trucks.Keys == w.trucks.Keys
      && (c in SummaryOf(w, rid, now).corrections <==> Due(w, v, rid, c, now))
  {
    hide Linked, WorldAfter, SummaryOf, StatusCorrections, TruckCorrections, PackageCorrections, StatusDue, PositionDue,
      PackageDue, OnPath, Forwards, Blocked;
    LinkedIsClosed(w);
    SameKeys(w, rid, now);
    Plan(w, rid);
    SummaryLists(w, rid, now, c);
    StatusCorrectionIff(rid, w.routes[rid], c, now);
    if w.routes[rid].truck.To? {
      TruckAfterStep(w, rid, now, c);
    }
    forall k | 0 <= k < |w.routes[rid].packages|
      ensures var r, pid, v := w.routes[rid], w.routes[rid].packages[k], WorldAfter(w, rid, now);
        c in PackageCorrections(rid, r, pid, PackagesOf(w, rid)[k], now)
        <==> PackageDue(rid, r, pid, w.packages[pid], v.packages[pid], c, now)
    {
      PackageAfterStep(w, rid, now, k, c);
    }
  }

  // ----- a whole pass

  /** Two pairs of worlds that agree on a route and its entities owe it the same corrections. */
  lemma SameDue(w: World, v: World, w': World, v': World, rid: int, c: Correction, now: Time)
    requires Linked(w) && rid in w.routes && v.packages.Keys == w.packages.Keys && v.trucks.Keys == w.trucks.Keys
    requires Linked(w') && rid in w'.routes && v'.packages.Keys == w'.packages.Keys && v'.trucks.Keys == w'.trucks.Keys
    requires w'.routes[rid] == w.routes[rid]
    requires w.routes[rid].truck.To? ==>
      var tid := w.routes[rid].truck.id;
      tid in w.trucks && tid in w'.trucks && w'.trucks[tid] == w.trucks[tid] && v'.trucks[tid] == v.trucks[tid]
    requires forall k :: 0 <= k < |w.routes[rid].packages| ==>
      var pid := w.routes[rid].packages[k];
      pid in w.packages && pid in w'.packages && w'.packages[pid] == w.packages[pid] && v'.packages[pid] == v.packages[pid]
    ensures Due(w, v, rid, c, now) <==> Due(w', v', rid, c, now)
  {
    hide Linked, StatusDue, PositionDue, PackageDue, OnPath, Forwards;
    Plan(w, rid);
    Plan(w', rid);
  }

  /** What two projections make of the entities of a route that is done in both is the same. */
  lemma DoneInBoth(w: World, done: set<int>, u: World, done': set<int>, v: World, rid: int, now: Time, c: Correction)
    requires Linked(w) && rid in w.routes && rid in done && rid in done'
    requires IsProjection(w, done, now, u) && IsProjection(w, done', now, v)
    ensures Due(w, u, rid, c, now) <==> Due(w, v, rid, c, now)
  {
    hide Linked, Blocked, PackageBlocked, PackageAfter, TruckAt, Due;
    LinkedIsClosed(w);
    var r := w.routes[rid];
    forall k | 0 <= k < |r.packages| ensures u.packages[r.packages[k]] == v.packages[r.packages[k]] {
      PackageRoute(w, rid, r.packages[k]);
      assert PackageDone(w, done, now, u, r.packages[k]) && PackageDone(w, done', now, v, r.packages[k]);
    }
    if r.truck.To? {
      TruckRoute(w, rid, r.truck.id);
      assert TruckDone(w, done, now, u, r.truck.id) && TruckDone(w, done', now, v, r.truck.id);
    }
    SameDue(w, u, w, v, rid, c, now);
  }

  /** A route not yet done is owed the same corrections as at first. */
  lemma NotYetDone(w: World, done: set<int>, u: World, v: World, rid: int, now: Time, c: Correction)
    requires Linked(w) && Linked(u) && rid in w.routes && rid !in done && IsProjection(w, done, now, u)
    requires v.packages.Keys == w.packages.Keys && v.trucks.Keys == w.trucks.Keys
    ensures rid in u.routes && Blocked(u, rid, now) == Blocked(w, rid, now)
    ensures Due(u, v, rid, c, now) <==> Due(w, v, rid, c, now)
  {
    hide Linked, Blocked, PackageBlocked, PackageAfter, TruckAt, Due;
    LinkedIsClosed(w);
    LinkedIsClosed(u);
    UntouchedYet(w, done, rid, now, u);
    var r := w.routes[rid];
    forall k | 0 <= k < |r.packages| ensures u.packages[r.packages[k]] == w.packages[r.packages[k]] {
      PackageRoute(w, rid, r.packages[k]);
      assert PackageDone(w, done, now, u, r.packages[k]);
    }
    SameDue(w, v, u, v, rid, c, now);
  }

  /** The corrections `s` lists are those due on the routes of `ids`, brought from `w` to `v`. */
  ghost predicate ListsDue(w: World, ids: seq<int>, v: World, s: Summary, now: Time, c: Correction)
    requires Linked(w)
  {
    && v.packages.Keys == w.packages.Keys && v.trucks.Keys == w.trucks.Keys
    && (c in s.corrections <==> exists rid <- ids :: rid in w.routes && !Blocked(w, rid, now) && Due(w, v, rid, c, now))
  }

  /** The pass over one more route adds the corrections that are due on it and keeps the earlier ones. */
  lemma OneMoreDue(w: World, ids: seq<int>, rid: int, u: World, s: Summary, now: Time, c: Correction)
    requires Linked(w) && Linked(u) && rid in w.routes && rid in u.routes && rid !in Elements(ids)
    requires IsProjection(w, Elements(ids), now, u) && IsProjection(w, Elements(ids + [rid]), now, WorldAfter(u, rid, now))
    requires ListsDue(w, ids, u, s, now, c)
    ensures ListsDue(w, ids + [rid], WorldAfter(u, rid, now), Join(s, SummaryOf(u, rid, now)), now, c)
  {
    hide SummaryOf, WorldAfter, Linked, IsProjection, Blocked, Due;
    LinkedIsClosed(w);
    LinkedIsClosed(u);
    var v := WorldAfter(u, rid, now);
    SameKeys(u, rid, now);
    NotYetDone(w, Elements(ids), u, v, rid, now, c);
    if Blocked(u, rid, now) { NothingToCorrect(u, rid, now); } else { StepCorrections(u, rid, now, c); }
    forall other <- ids | other in w.routes ensures Due(w, u, other, c, now) <==> Due(w, v, other, c, now) {
      DoneInBoth(w, Elements(ids), u, Elements(ids + [rid]), v, other, now, c);
    }
  }

  lemma {:induction false} CorrectionsOfVisited(w: World, ids: seq<int>, now: Time, c: Correction)
    requires Linked(w) && Enumerates(ids, w)
    ensures ListsDue(w, ids, Pass(w, ids, now).0, Pass(w, ids, now).1, now, c)
  {
    hide Linked, SummaryOf, WorldAfter, IsProjection, Due, Blocked, Join, NoDup, Elements;
    LinkedIsClosed(w);
    if ids != [] {
      hide Pass, ListsDue;
      var n := |ids| - 1;
      var (u, s) := Pass(w, ids[..n], now);
      LastStep(w, ids, now);
      CorrectionsOfVisited(w, ids[..n], now, c);
      PassIsProjection(w, ids, now);
      assert ids[..n] + [ids[n]] == ids;
      OneMoreDue(w, ids[..n], ids[n], u, s, now, c);
    }
  }

  /** A pass over a linked world reports exactly the corrections due on the routes it visits, their trucks and their
      packages, each with the values before and after the pass. */
  lemma CorrectionsAreDue(w: World, ids: seq<int>, now: Time, c: Correction)
    requires Linked(w) && Enumerates(ids, w)
    ensures var (v, s) := Pass(w, ids, now);
      && v.packages.Keys == w.packages.Keys && v.trucks.Keys == w.trucks.Keys
      && (forall rid <- w.routes :: Shaped(w.routes[rid]))
      && (c in s.corrections <==> exists rid <- w.routes :: Visited(w, ids, rid, now) && Due(w, v, rid, c, now))
  {
    hide Pass, Linked, Blocked, Due, Visited;
    LinkedIsClosed(w);
    CorrectionsOfVisited(w, ids, now, c);
    forall rid <- w.routes ensures Visited(w, ids, rid, now) <==> rid in ids && !Blocked(w, rid, now) {
      VisitedIff(w, ids, rid, now);
    }
  }

  // ----- the trucks of a report, list by list

  predicate Moved(w: World, v: World, tid: int) {
    tid in w.trucks && tid in v.trucks
    && (v.trucks[tid].location != w.trucks[tid].location || v.trucks[tid].inTransitTo != w.trucks[tid].inTransitTo)
  }

  predicate Released(w: World, v: World, tid: int) {
    tid in w.trucks && tid in v.trucks && w.trucks[tid].route.To? && v.trucks[tid].route.Unlinked?
  }

  predicate TrucksTold(w: World, v: World, s: Summary, tid: int) {
    (tid in s.trucksMoved <==> Moved(w, v, tid)) && (tid in s.trucksReleased <==> Released(w, v, tid)) && s.trucksReconciled == []
  }

  lemma StepTellsTruck(w: World, rid: int, now: Time, tid: int)
    requires Linked(w) && rid in w.routes
    ensures TrucksTold(w, WorldAfter(w, rid, now), SummaryOf(w, rid, now), tid)
  {
    hide Concat, ChangedIds, CorrectionsByPackage, PackagesOf, TruckCorrections, StatusCorrections, Blocked, RouteAfter,
      PackagesAfter, Linked, Sound, LastReached;
    LinkedIsClosed(w);
    Plan(w, rid);
  }

  /** A truck is touched by the pass over its own route only. */
  lemma TruckMovesOnce(w: World, done: set<int>, rid: int, now: Time, u: World, tid: int)
    requires Linked(w) && Linked(u) && IsProjection(w, done, now, u) && rid in w.routes && rid !in done
    ensures tid in w.trucks && tid in u.trucks && tid in WorldAfter(u, rid, now).trucks ==>
      u.trucks[tid] == w.trucks[tid] || WorldAfter(u, rid, now).trucks[tid] == u.trucks[tid]
    ensures (tid in w.trucks <==> tid in u.trucks) && (tid in u.trucks <==> tid in WorldAfter(u, rid, now).trucks)
  {
    hide Linked, Blocked, RouteAfter, PackagesAfter;
    LinkedIsClosed(w);
    if tid in w.trucks {
      assert TruckDone(w, done, now, u, tid);
      TruckRoute(u, rid, tid);
    }
  }

  lemma ToldTogether(w: World, u: World, v: World, a: Summary, b: Summary, tid: int)
    requires TrucksTold(w, u, a, tid) && TrucksTold(u, v, b, tid)
    requires (tid in w.trucks <==> tid in u.trucks) && (tid in u.trucks <==> tid in v.trucks)
    requires tid in w.trucks ==> u.trucks[tid] == w.trucks[tid] || v.trucks[tid] == u.trucks[tid]
    ensures TrucksTold(w, v, Join(a, b), tid)
  {
  }

  /** A pass over a linked world lists a truck as moved exactly when its place changed, as released exactly when it lost
      its route, and never as one that had to be given its route back. */
  lemma {:induction false} TruckListsAreTold(w: World, ids: seq<int>, now: Time, tid: int)
    requires Linked(w) && Enumerates(ids, w)
    ensures TrucksTold(w, Pass(w, ids, now).0, Pass(w, ids, now).1, tid)
  {
    if ids != [] {
      hide Pass, SummaryOf, WorldAfter, Linked, IsProjection, Elements, TrucksTold, Join, NoDup;
      LinkedIsClosed(w);
      var n := |ids| - 1;
      var (u, before) := Pass(w, ids[..n], now);
      LastStep(w, ids, now);
      TruckListsAreTold(w, ids[..n], now, tid);
      StepTellsTruck(u, ids[n], now, tid);
      TruckMovesOnce(w, Elements(ids[..n]), ids[n], now, u, tid);
      ToldTogether(w, u, WorldAfter(u, ids[n], now), before, SummaryOf(u, ids[n], now), tid);
    } else {
      hide Linked;
      LinkedIsClosed(w);
    }
  }
}
