/** Worlds in which a truck serves a route and stands nowhere: what a pass makes of them. */
module PlacingLaws {
  import opened Common
  import opened RouteSchedules
  import opened RouteScheduling
  import opened Fleet
  import opened Reconciliation
  import opened ReconciliationLaws
  import opened Projection
  import opened UseCaseSafety
  import opened HandoverLaws
  import opened HeartbeatService
  import opened Snapshots
  import opened SnapshotChecks
  import opened SnapshotSoundness
  import opened SnapshotRestore
  import opened SnapshotLinking
  import opened RestoredWorlds
  import opened Restoring

  // ----- trucks without a place

  /** A truck that serves a route and stands nowhere. */
  predicate Unplaced(w: World, tid: int) {
    tid in w.trucks && w.trucks[tid].route.To? && w.trucks[tid].location.None?
  }

  /** The truck, at the start of its route if it stood nowhere. */
  function PlacedTruck(w: World, tid: int): TruckState
    requires Closed(w) && tid in w.trucks
  {
    var t := w.trucks[tid];
    if Unplaced(w, tid) then t.(location := Some(w.routes[t.route.id].path[0])) else t
  }

  /** The world with every such truck at the start of its route. */
  function Placed(w: World): (v: World)
    requires Closed(w)
    ensures Closed(v)
  {
    w.(trucks := map tid <- w.trucks :: PlacedTruck(w, tid))
  }

  /** The pass of this route still reaches its truck: the final ETA is not over, and the route can take its status. */
  predicate Reaches(r: RouteState, now: Time)
    requires Shaped(r)
  {
    r.schedule.Some? && now <= EtaFinal(r.schedule.value) && !CompletedTooEarly(r, now)
  }

  /** Every truck without a place serves a route whose pass reaches it. */
  ghost predicate AllReached(w: World, now: Time)
    requires Closed(w)
  {
    forall tid {:trigger Unplaced(w, tid)} :: Unplaced(w, tid) ==> Reaches(w.routes[w.trucks[tid].route.id], now)
  }

  // ----- placing and passing commute

  lemma PlacingKeepsBlocked(v: World, rid: int, now: Time)
    requires Closed(v) && rid in v.routes
    requires v.routes[rid].truck.To? && Unplaced(v, v.routes[rid].truck.id) ==> Reaches(v.routes[rid], now)
    ensures Blocked(Placed(v), rid, now) == Blocked(v, rid, now)
  {
    hide PackageBlocked, StatusBlocked;
    assert AnyPackageBlocked(Placed(v), rid, now) == AnyPackageBlocked(v, rid, now);
  }

  lemma SameRouteAfter(v: World, rid: int, now: Time)
    requires Closed(v) && rid in v.routes && !Blocked(v, rid, now) && !Blocked(Placed(v), rid, now)
    requires v.routes[rid].truck.To? && Unplaced(v, v.routes[rid].truck.id) ==> Reaches(v.routes[rid], now)
    ensures RouteAfter(Placed(v), rid, now) == RouteAfter(v, rid, now)
    ensures PackagesAfter(Placed(v), rid, now) == PackagesAfter(v, rid, now)
  {
    hide PackageBlocked, PackageAfter, StatusBlocked;
  }

  lemma PlacedTruckAfter(v: World, rid: int, now: Time, tid: int)
    requires Closed(v) && rid in v.routes && !Blocked(v, rid, now) && tid in v.trucks
    requires v.routes[rid].truck.To? ==> v.trucks[v.routes[rid].truck.id].route == To(rid)
    requires v.routes[rid].truck.To? && Unplaced(v, v.routes[rid].truck.id) ==> Reaches(v.routes[rid], now)
    ensures TrucksAfter(Placed(v), rid, now)[tid] == PlacedTruck(WorldAfter(v, rid, now), tid)
  {
    hide PackagesAfter, PackageBlocked, StatusBlocked;
    if v.routes[rid].truck == To(tid) && Unplaced(v, tid) {
      assert v.routes[rid].schedule.Some?;
    }
  }

  lemma PlacingCommutes(v: World, rid: int, now: Time)
    requires Closed(v) && rid in v.routes
    requires v.routes[rid].truck.To? ==> v.trucks[v.routes[rid].truck.id].route == To(rid)
    requires v.routes[rid].truck.To? && Unplaced(v, v.routes[rid].truck.id) ==> Reaches(v.routes[rid], now)
    ensures WorldAfter(Placed(v), rid, now) == Placed(WorldAfter(v, rid, now))
  {
    hide Blocked, PackagesAfter, TrucksAfter, PlacedTruck;
    PlacingKeepsBlocked(v, rid, now);
    if !Blocked(v, rid, now) {
      var u, u' := WorldAfter(v, rid, now), WorldAfter(Placed(v), rid, now);
      SameRouteAfter(v, rid, now);
      assert PackagesAfter(Placed(v), rid, now) == PackagesAfter(v, rid, now);
      forall tid <- u.trucks ensures u'.trucks[tid] == PlacedTruck(u, tid) { PlacedTruckAfter(v, rid, now, tid); }
      assert u'.trucks == Placed(u).trucks;
    }
  }

  // ----- a whole pass

  /** A step leaves a truck without a place only when it does not touch it. */
  lemma StepPlaces(u: World, rid: int, now: Time, tid: int)
    requires Closed(u) && rid in u.routes
    requires u.routes[rid].truck.To? && Unplaced(u, u.routes[rid].truck.id) ==> Reaches(u.routes[rid], now)
    requires u.routes[rid].truck.To? ==> u.trucks[u.routes[rid].truck.id].route == To(rid)
    requires Unplaced(WorldAfter(u, rid, now), tid)
    ensures Unplaced(u, tid) && WorldAfter(u, rid, now).trucks[tid] == u.trucks[tid]
    ensures u.routes[rid].truck == To(tid) ==> Blocked(u, rid, now)
  {
    hide Blocked, PackagesAfter, RouteAfter;
  }

  lemma PlacedKeeps(w: World)
    requires Closed(w)
    ensures var v := Placed(w);
      && Closed(v) && v.routes == w.routes && v.packages == w.packages && v.customers == w.customers
      && v.trucks.Keys == w.trucks.Keys && forall tid <- w.trucks :: v.trucks[tid].route == w.trucks[tid].route
  {
  }

  /** The trucks still without a place are as they were, on routes not visited yet. */
  ghost predicate Waiting(w: World, u: World, done: set<int>) {
    forall tid {:trigger Unplaced(u, tid)} :: Unplaced(u, tid) ==>
      Unplaced(w, tid) && u.trucks[tid] == w.trucks[tid] && w.trucks[tid].route.id !in done
  }

  /** The next route of a pass names its truck both ways, and the pass reaches that truck if it stands nowhere. */
  lemma NextPlaces(w: World, u: World, done: set<int>, rid: int, now: Time)
    requires Closed(w) && Closed(u) && Linked(Placed(u)) && AllReached(w, now) && rid in w.routes && rid in u.routes
    requires u.routes[rid] == w.routes[rid] && Waiting(w, u, done)
    ensures u.routes[rid].truck.To? ==> u.trucks[u.routes[rid].truck.id].route == To(rid)
    ensures u.routes[rid].truck.To? && Unplaced(u, u.routes[rid].truck.id) ==> Reaches(u.routes[rid], now)
    ensures WorldAfter(Placed(u), rid, now) == Placed(WorldAfter(u, rid, now))
  {
    hide Reaches, Placed, WorldAfter, RouteLinked;
    PlacedKeeps(u);
    if u.routes[rid].truck.To? {
      TruckRoute(Placed(u), rid, u.routes[rid].truck.id);
    }
    PlacingCommutes(u, rid, now);
  }

  /** A truck that is still without a place after its route's turn serves another route. */
  lemma NextIsPlaced(w: World, u: World, rid: int, now: Time, tid: int)
    requires Closed(w) && Closed(u) && Linked(Placed(u)) && AllReached(w, now) && rid in w.routes && rid in u.routes
    requires u.routes[rid] == w.routes[rid] && Unplaced(u, tid) && Unplaced(w, tid) && u.trucks[tid] == w.trucks[tid]
    requires u.routes[rid].truck == To(tid) ==> Blocked(u, rid, now)
    ensures w.trucks[tid].route != To(rid)
  {
    hide Placed;
    PlacedKeeps(u);
    if w.trucks[tid].route == To(rid) {
      TruckRoute(Placed(u), rid, tid);
      assert Reaches(w.routes[rid], now);
      BlockedIff(Placed(u), rid, now);
      PlacingKeepsBlocked(u, rid, now);
    }
  }

  lemma NextWaiting(w: World, u: World, done: set<int>, rid: int, now: Time)
    requires Closed(w) && Closed(u) && Linked(Placed(u)) && AllReached(w, now) && rid in w.routes && rid in u.routes
    requires u.routes[rid] == w.routes[rid] && Waiting(w, u, done)
    ensures WorldAfter(Placed(u), rid, now) == Placed(WorldAfter(u, rid, now))
    ensures Waiting(w, WorldAfter(u, rid, now), done + {rid})
  {
    hide Linked, Reaches, WorldAfter, Blocked, Placed, AllReached, Closed;
    NextPlaces(w, u, done, rid, now);
    forall tid {:trigger Unplaced(WorldAfter(u, rid, now), tid)} | Unplaced(WorldAfter(u, rid, now), tid)
      ensures Unplaced(w, tid) && WorldAfter(u, rid, now).trucks[tid] == w.trucks[tid] && w.trucks[tid].route.id !in done + {rid}
    {
      StepPlaces(u, rid, now, tid);
      NextIsPlaced(w, u, rid, now, tid);
    }
  }

  /** Passing over a world and placing its trucks, in either order; a truck is without a place until its route's turn. */
  lemma {:induction false} PassPlaces(w: World, ids: seq<int>, now: Time)
    requires Closed(w) && Linked(Placed(w)) && Enumerates(ids, w) && AllReached(w, now)
    ensures Pass(Placed(w), ids, now).0 == Placed(Pass(w, ids, now).0)
    ensures Waiting(w, Pass(w, ids, now).0, Elements(ids))
  {
    if ids != [] {
      hide Linked, WorldAfter, SummaryOf, Blocked, Placed, IsProjection, Elements, AllReached, Waiting, NoDup;
      var n := |ids| - 1;
      var rid, u := ids[n], Pass(w, ids[..n], now).0;
      PlacedKeeps(w);
      FewerEnumerated(w, ids);
      PassPlaces(w, ids[..n], now);
      PassIsProjection(Placed(w), ids[..n], now);
      UntouchedYet(Placed(w), Elements(ids[..n]), rid, now, Placed(u));
      PlacedKeeps(u);
      NextWaiting(w, u, Elements(ids[..n]), rid, now);
    }
  }

  // ----- a truck the pass does not reach

  lemma LinkedIsTwoWay(w: World)
    requires Closed(w) && Linked(Placed(w))
    ensures TrucksTwoWay(w)
    ensures forall rid <- w.routes :: w.routes[rid].truck.To? ==> w.routes[rid].schedule.Some?
  {
    hide Linked, Placed;
    PlacedKeeps(w);
    LinkedIsClosed(Placed(w));
    forall rid <- w.routes | w.routes[rid].truck.To?
      ensures w.trucks[w.routes[rid].truck.id].route == To(rid) && w.routes[rid].schedule.Some?
    {
      assert RouteLinked(Placed(w), rid) by { LinkedRoutes(Placed(w)); }
    }
    forall tid <- w.trucks | w.trucks[tid].route.To? ensures w.routes[w.trucks[tid].route.id].truck == To(tid) {
      TruckRoute(Placed(w), w.trucks[tid].route.id, tid);
    }
  }

  lemma LinkedRoutes(w: World)
    requires Linked(w)
    ensures Closed(w) && forall rid {:trigger RouteLinked(w, rid)} :: rid in w.routes ==> RouteLinked(w, rid)
  {
  }

  /** A route that cannot reach its truck fails, and so does every pass over it. */
  lemma {:induction false} StaysUnplaced(w: World, ids: seq<int>, now: Time, tid: int)
    requires Known(w, ids) && TrucksTwoWay(w) && Unplaced(w, tid)
    requires w.routes[w.trucks[tid].route.id].schedule.Some? && !Reaches(w.routes[w.trucks[tid].route.id], now)
    ensures var v, rid := Pass(w, ids, now).0, w.trucks[tid].route.id;
      tid in v.trucks && v.trucks[tid] == w.trucks[tid] && v.routes[rid] == w.routes[rid]
  {
    if ids != [] {
      hide SummaryOf, Reaches, TrucksTwoWay, WorldAfter, FitsFleet;
      var n, rid := |ids| - 1, w.trucks[tid].route.id;
      var u := Pass(w, ids[..n], now).0;
      StaysUnplaced(w, ids[..n], now, tid);
      assert FitsFleet(w, w.trucks) by { OwnFleet(w); }
      PassFits(w, w.trucks, ids[..n], now);
      UnreachedStays(u, ids[n], now, tid);
    }
  }

  lemma OwnFleet(w: World)
    requires TrucksTwoWay(w)
    ensures FitsFleet(w, w.trucks)
  {
  }

  lemma UnreachedStays(u: World, rid: int, now: Time, tid: int)
    requires Closed(u) && FitsFleet(u, u.trucks) && Unplaced(u, tid) && rid in u.routes
    requires u.routes[u.trucks[tid].route.id].schedule.Some? && !Reaches(u.routes[u.trucks[tid].route.id], now)
    ensures var v, own := WorldAfter(u, rid, now), u.trucks[tid].route.id;
      tid in v.trucks && v.trucks[tid] == u.trucks[tid] && v.routes[own] == u.routes[own]
  {
    hide PackagesAfter, RouteAfter, AnyPackageBlocked;
    if rid == u.trucks[tid].route.id {
      assert Blocked(u, rid, now);
    }
  }

  // ----- the world that is restored

  /** A world that is well formed but for trucks without a place ends a pass over all its routes well formed exactly when
      the pass reaches each of them. */
  lemma PassPlacesIff(w: World, ids: seq<int>, now: Time, fleet: map<int, TruckState>)
    requires Closed(w) && WellFormed(Placed(w)) && Enumerates(ids, w) && Elements(ids) == w.routes.Keys && SameMake(w.trucks, fleet)
    ensures WellFormed(Pass(w, ids, now).0) <==> AllReached(w, now)
    ensures WellFormed(OnFleet(Pass(w, ids, now).0, fleet)) <==> AllReached(w, now)
  {
    hide WellFormed, Linked, Placed, Pass, Reaches, OnFleet, FitsFleet;
    WellFormedIsLinked(Placed(w));
    LinkedIsTwoWay(w);
    var v := Pass(w, ids, now).0;
    if AllReached(w, now) {
      ReachedIsWellFormed(w, ids, now);
      PassKeepsMake(w, ids, now, fleet);
      OnFleetWellFormed(v, fleet);
    } else {
      var tid :| Unplaced(w, tid) && !Reaches(w.routes[w.trucks[tid].route.id], now);
      StaysUnplaced(w, ids, now, tid);
      NowhereIsUnlinked(v, w.trucks[tid].route.id, tid);
      PassKeepsMake(w, ids, now, fleet);
      assert OnFleet(v, fleet).trucks[tid] == v.trucks[tid] && OnFleet(v, fleet).routes == v.routes by { KeptOnFleet(v, fleet, tid); }
      NowhereIsUnlinked(OnFleet(v, fleet), w.trucks[tid].route.id, tid);
    }
  }

  lemma KeptOnFleet(v: World, fleet: map<int, TruckState>, tid: int)
    requires SameMake(v.trucks, fleet) && tid in v.trucks
    ensures tid in OnFleet(v, fleet).trucks && OnFleet(v, fleet).trucks[tid] == v.trucks[tid] && OnFleet(v, fleet).routes == v.routes
  {
  }

  lemma PassKeepsMake(w: World, ids: seq<int>, now: Time, fleet: map<int, TruckState>)
    requires Known(w, ids) && TrucksTwoWay(w) && SameMake(w.trucks, fleet)
    ensures SameMake(Pass(w, ids, now).0.trucks, fleet)
  {
    hide Pass;
    PassFits(w, fleet, ids, now);
  }

  lemma NowhereIsUnlinked(v: World, rid: int, tid: int)
    requires rid in v.routes && v.routes[rid].truck == To(tid) && tid in v.trucks && v.trucks[tid].location.None?
    ensures !WellFormed(v)
  {
    if Closed(v) {
      assert !RouteLinked(v, rid);
    }
  }

  lemma ReachedIsWellFormed(w: World, ids: seq<int>, now: Time)
    requires Closed(w) && WellFormed(Placed(w)) && Enumerates(ids, w) && Elements(ids) == w.routes.Keys && AllReached(w, now)
    ensures WellFormed(Pass(w, ids, now).0)
  {
    hide WellFormed, Linked, Pass, Reaches, PlacedTruck;
    WellFormedIsLinked(Placed(w));
    var v := Pass(w, ids, now).0;
    PassPlaces(w, ids, now);
    PassWellFormed(Placed(w), ids, now);
    forall tid <- v.trucks ensures !Unplaced(v, tid) {
      if Unplaced(w, tid) {
        assert w.trucks[tid].route.id in Elements(ids);
      }
    }
    NothingToPlace(v);
  }

  lemma NothingToPlace(v: World)
    requires Closed(v) && forall tid <- v.trucks :: !Unplaced(v, tid)
    ensures Placed(v) == v
  {
    assert Placed(v).trucks == v.trucks;
  }

  // ----- restored snapshots

  /** Every truck that a route names and whose record has no place serves a route that is not past its final ETA. */
  ghost predicate PlacedInTime(s: Snapshot, now: Time) {
    forall k, j :: 0 <= k < |s.routes| && 0 <= j < |s.trucks| && s.routes[k].truck == To(s.trucks[j].id) && s.trucks[j].location.None? ==>
      && |s.routes[k].locations| >= 2 && s.routes[k].departure.Some?
      && now <= EtaFinal(ScheduleOf(s.routes[k].locations, s.routes[k].departure.value, SPEED_KMPH))
  }

  /** Placing the trucks of a linked snapshot gives its routes the one thing the validators do not check. */
  lemma RestoredRoutePlaced(s: Snapshot, fleet: map<int, TruckState>, rules: ContactRules, rid: int)
    requires Restorable(s, fleet, rules) && Traceable(s, fleet) && Closed(LinkedWorld(s, fleet))
    requires rid in LinkedWorld(s, fleet).routes
    ensures RouteLinked(Placed(LinkedWorld(s, fleet)), rid)
  {
    hide Consistent, Buildable, LinkedWorld, Closed, Traceable, RouteLinked, LinkedRoute, Truckless, Placed;
    var w := LinkedWorld(s, fleet);
    RestoredTruckless(s, fleet, rules, rid);
    RestoredRoute(s, fleet, rid);
    var k := RouteIndex(s, rid);
    RestoredTruckOf(s, fleet, rid, k);
    PlacedRouteLinked(w, rid);
  }

  /** A route that is linked but for the place of its truck. */
  lemma PlacedRouteLinked(w: World, rid: int)
    requires Closed(w) && rid in w.routes && RouteLinked(Truckless(w, rid), rid)
    requires w.routes[rid].truck.To? ==>
      var r, t := w.routes[rid], w.trucks[w.routes[rid].truck.id];
      t.route == To(rid) && r.schedule.Some? && t.busyFrom == Departure(r) && t.busyUntil == Eta(r)
    ensures RouteLinked(Placed(w), rid)
  {
    assert Truckless(Placed(w), rid).routes == Truckless(w, rid).routes;
    WithItsTruck(Placed(w), rid);
  }

  lemma RestoredIsPlaced(s: Snapshot, fleet: map<int, TruckState>, rules: ContactRules)
    requires Restorable(s, fleet, rules) && Traceable(s, fleet) && Closed(LinkedWorld(s, fleet))
    ensures WellFormed(Placed(LinkedWorld(s, fleet)))
  {
    hide Consistent, Buildable, LinkedWorld, Traceable, RouteLinked, PackageLinked, TruckLinked, CustomerLinked, WithinLimits, Derived,
         Placed;
    var w := LinkedWorld(s, fleet);
    var v := Placed(w);
    PlacedKeeps(w);
    RestoredWorldIsSafe(s, fleet, rules);
    forall rid | rid in v.routes ensures RouteLinked(v, rid) && WithinLimits(v, rid) && Derived(v.routes[rid]) {
      RestoredRoutePlaced(s, fleet, rules, rid);
      assert WithinLimits(w, rid) && Derived(w.routes[rid]);
      PlacedWithinLimits(w, rid);
    }
    forall pid | pid in v.packages ensures PackageLinked(v, pid) {
      assert PackageLinked(w, pid);
      PlacedPackageLinked(w, pid);
    }
    forall tid | tid in v.trucks ensures TruckLinked(v, tid) {
      assert TruckLinked(w, tid);
      PlacedTruckLinked(w, tid);
    }
    forall cid | cid in v.customers ensures CustomerLinked(v, cid) {
      RestoredCustomerLinked(s, fleet, cid);
      PlacedCustomerLinked(w, cid);
    }
  }

  lemma PlacedWithinLimits(w: World, rid: int)
    requires Closed(w) && rid in w.routes && WithinLimits(w, rid)
    ensures WithinLimits(Placed(w), rid)
  {
  }

  lemma PlacedPackageLinked(w: World, pid: int)
    requires Closed(w) && pid in w.packages && PackageLinked(w, pid)
    ensures PackageLinked(Placed(w), pid)
  {
  }

  lemma PlacedTruckLinked(w: World, tid: int)
    requires Closed(w) && tid in w.trucks && TruckLinked(w, tid)
    ensures TruckLinked(Placed(w), tid)
  {
  }

  lemma PlacedCustomerLinked(w: World, cid: int)
    requires Closed(w) && cid in w.customers && CustomerLinked(w, cid)
    ensures CustomerLinked(Placed(w), cid)
  {
  }

  lemma RouteIsReached(s: Snapshot, fleet: map<int, TruckState>, k: nat, now: Time)
    requires Consistent(s, fleet) && Traceable(s, fleet) && k < |s.routes|
    ensures var w, r := LinkedWorld(s, fleet), s.routes[k];
      && r.id in w.routes && Shaped(w.routes[r.id]) && |r.locations| >= 2
      && (Reaches(w.routes[r.id], now) <==>
            r.departure.Some? && now <= EtaFinal(ScheduleOf(r.locations, r.departure.value, SPEED_KMPH)))
  {
    RouteRecordFacts(s, fleet, k);
    RecordOf(s, k);
    RestoredRoute(s, fleet, s.routes[k].id);
    hide Consistent, LinkedWorld, Traceable;
  }

  lemma ReachedIffInTime(s: Snapshot, fleet: map<int, TruckState>, now: Time)
    requires Consistent(s, fleet) && Traceable(s, fleet) && Closed(LinkedWorld(s, fleet))
    ensures AllReached(LinkedWorld(s, fleet), now) <==> PlacedInTime(s, now)
  {
    hide Consistent, LinkedWorld, Traceable, Reaches;
    var w := LinkedWorld(s, fleet);
    if AllReached(w, now) {
      forall k, j | 0 <= k < |s.routes| && 0 <= j < |s.trucks| && s.routes[k].truck == To(s.trucks[j].id) && s.trucks[j].location.None?
        ensures |s.routes[k].locations| >= 2 && s.routes[k].departure.Some?
             && now <= EtaFinal(ScheduleOf(s.routes[k].locations, s.routes[k].departure.value, SPEED_KMPH))
      {
        RestoredRouteTruck(s, fleet, k);
        TruckRecordIs(s, fleet, j);
        assert Unplaced(w, s.trucks[j].id);
        RouteIsReached(s, fleet, k, now);
      }
    }
    if PlacedInTime(s, now) {
      forall tid {:trigger Unplaced(w, tid)} | Unplaced(w, tid) ensures Reaches(w.routes[w.trucks[tid].route.id], now) {
        var k := LinkedTruckFits(s, fleet, tid);
        RestoredRouteTruck(s, fleet, k);
        var j := IndexOf(s.trucks, TrucksById(s.trucks)[tid]);
        assert s.routes[k].truck == To(s.trucks[j].id) && s.trucks[j].location.None?;
        RouteIsReached(s, fleet, k, now);
      }
    }
  }

  lemma TruckRecordIs(s: Snapshot, fleet: map<int, TruckState>, j: nat)
    requires Consistent(s, fleet) && j < |s.trucks|
    ensures s.trucks[j].id in TrucksById(s.trucks) && TrucksById(s.trucks)[s.trucks[j].id] == s.trucks[j]
  {
    TruckRecordFacts(s, fleet, j);
    TruckEntry(s.trucks, j);
  }

  /** A snapshot that is accepted and rebuilt ends on its fleet as a well-formed world exactly when every assigned truck
      without a place serves a route that is not past its final ETA: up to that instant the pass places it. */
  lemma RestoredIsWellFormedIff(s: Snapshot, supported: set<int>, fleet: map<int, TruckState>, rules: ContactRules, now: Time)
    requires Verdict(s, supported, fleet, rules) == Passed && RebuildFinding(s, rules) == Passed
    ensures Traceable(s, fleet) && Known(LinkedWorld(s, fleet), RouteIdsIn(s.routes))
    ensures Prepare(s, supported, fleet, rules, now) == Ok(RestoredAt(s, fleet, now))
    ensures WellFormed(OnFleet(RestoredAt(s, fleet, now), fleet)) <==> PlacedInTime(s, now)
  {
    hide Verdict, RebuildFinding, Consistent, Buildable, LinkedWorld, Traceable, Prepare, WellFormed, Linked, Placed, Pass, AllReached,
         PlacedInTime, Closed, OnFleet;
    PreparedWorld(s, supported, fleet, rules, now);
    var w, ids := LinkedWorld(s, fleet), RouteIdsIn(s.routes);
    RestoredIsPlaced(s, fleet, rules);
    ReachedIffInTime(s, fleet, now);
    LinkedTrucksFit(s, fleet);
    EveryRouteRecorded(s, fleet);
    PassPlacesIff(w, ids, now, fleet);
  }

  lemma EveryRouteRecorded(s: Snapshot, fleet: map<int, TruckState>)
    requires Traceable(s, fleet)
    ensures Elements(RouteIdsIn(s.routes)) == LinkedWorld(s, fleet).routes.Keys
  {
    hide LinkedRoute, LinkedPackage, LinkedTruck, PackagesOfCustomer;
  }
}
