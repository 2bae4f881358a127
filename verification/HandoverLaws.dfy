/** The fleet a prepared world is put on, as values. */
module HandoverLaws {
  import opened Common
  import opened Fleet
  import opened Reconciliation
  import opened Snapshots
  import opened SnapshotChecks
  import opened SnapshotSoundness
  import opened SnapshotRestore
  import opened SnapshotLinking
  import opened RestoredWorlds
  import opened ReconciliationLaws
  import opened SnapshotCompleteness
  import opened Restoring
  import opened HeartbeatService

  /** A truck that no prepared route needs: free where it stands. */
  function Freed(t: TruckState): TruckState {
    t.(status := FREE, route := Unlinked, busyFrom := None, busyUntil := None, inTransitTo := None)
  }

  /** The fleet once a prepared world is put on it. */
  ghost function HandedOver(fleet: map<int, TruckState>, prepared: map<int, TruckState>): map<int, TruckState> {
    map tid <- fleet :: if tid in prepared then prepared[tid] else Freed(fleet[tid])
  }

  /** Prepared trucks are fleet trucks: same capacity, same range. */
  ghost predicate SameMake(prepared: map<int, TruckState>, fleet: map<int, TruckState>) {
    forall tid <- prepared :: tid in fleet && prepared[tid].capacity == fleet[tid].capacity && prepared[tid].maxRange == fleet[tid].maxRange
  }

  /** Routes and trucks name each other. */
  ghost predicate TrucksTwoWay(w: World) {
    && (forall rid <- w.routes :: w.routes[rid].truck.To? ==>
          w.routes[rid].truck.id in w.trucks && w.trucks[w.routes[rid].truck.id].route == To(rid))
    && (forall tid <- w.trucks :: w.trucks[tid].route.To? ==>
          w.trucks[tid].route.id in w.routes && w.routes[w.trucks[tid].route.id].truck == To(tid))
  }

  /** The records name stored routes and trucks. */
  ghost predicate RecordsStored(records: seq<RouteRecord>, w: World) {
    && NoDup(RouteIdsIn(records))
    && forall k {:trigger records[k]} :: 0 <= k < |records| && records[k].truck.To? ==>
         records[k].id in w.routes && records[k].truck.id in w.trucks
  }

  /** The world on its fleet. */
  ghost function OnFleet(w: World, fleet: map<int, TruckState>): World {
    w.(trucks := HandedOver(fleet, w.trucks))
  }

  // ----- a linked world stays linked

  lemma RouteOnFleet(w: World, fleet: map<int, TruckState>, rid: int)
    requires Linked(w) && Safe(w) && SameMake(w.trucks, fleet) && rid in w.routes && Closed(OnFleet(w, fleet))
    ensures RouteLinked(OnFleet(w, fleet), rid) && WithinLimits(OnFleet(w, fleet), rid)
  {
    assert RouteLinked(w, rid) && WithinLimits(w, rid);
  }

  lemma TruckOnFleet(w: World, fleet: map<int, TruckState>, tid: int)
    requires Linked(w) && tid in fleet && Closed(OnFleet(w, fleet))
    ensures TruckLinked(OnFleet(w, fleet), tid)
  {
    assert tid in w.trucks ==> TruckLinked(w, tid);
  }

  lemma OnFleetClosed(w: World, fleet: map<int, TruckState>)
    requires Closed(w) && SameMake(w.trucks, fleet)
    ensures Closed(OnFleet(w, fleet))
  {
  }

  /** A well-formed world is well formed on its fleet, and the trucks it has no candidate for are free. */
  lemma OnFleetWellFormed(w: World, fleet: map<int, TruckState>)
    requires WellFormed(w) && SameMake(w.trucks, fleet)
    ensures WellFormed(OnFleet(w, fleet))
    ensures forall tid <- fleet :: tid !in w.trucks ==>
      OnFleet(w, fleet).trucks[tid].route.Unlinked? && OnFleet(w, fleet).trucks[tid].location == fleet[tid].location
  {
    OnFleetClosed(w, fleet);
    var v := OnFleet(w, fleet);
    forall rid | rid in v.routes ensures RouteLinked(v, rid) && WithinLimits(v, rid) { RouteOnFleet(w, fleet, rid); }
    forall pid | pid in v.packages ensures PackageLinked(v, pid) { assert PackageLinked(w, pid); }
    forall tid | tid in v.trucks ensures TruckLinked(v, tid) { TruckOnFleet(w, fleet, tid); }
    forall cid | cid in v.customers ensures CustomerLinked(v, cid) { assert CustomerLinked(w, cid); }
  }

  // ----- a prepared world can be put on its fleet

  /** What a world needs to be put on a fleet. */
  ghost predicate FitsFleet(w: World, fleet: map<int, TruckState>) {
    TrucksTwoWay(w) && SameMake(w.trucks, fleet)
  }

  lemma LinkedRouteFits(s: Snapshot, fleet: map<int, TruckState>, k: nat)
    requires Consistent(s, fleet) && Traceable(s, fleet) && k < |s.routes|
    ensures s.routes[k].id in LinkedWorld(s, fleet).routes
    ensures LinkedWorld(s, fleet).routes[s.routes[k].id].truck == s.routes[k].truck
    ensures s.routes[k].truck.To? ==>
      && s.routes[k].truck.id in LinkedWorld(s, fleet).trucks
      && LinkedWorld(s, fleet).trucks[s.routes[k].truck.id].route == To(s.routes[k].id)
  {
    RouteRecordFacts(s, fleet, k);
    RecordOf(s, k);
    RestoredRoute(s, fleet, s.routes[k].id);
    if s.routes[k].truck.To? {
      RouteTruckEntry(s.routes, k);
      RestoredTruck(s, fleet, s.routes[k].truck.id);
    }
    hide Consistent, LinkedWorld, Traceable;
  }

  lemma LinkedTruckFits(s: Snapshot, fleet: map<int, TruckState>, tid: int) returns (k: nat)
    requires Consistent(s, fleet) && Traceable(s, fleet) && tid in LinkedWorld(s, fleet).trucks
    ensures tid in fleet && LinkedWorld(s, fleet).trucks[tid].capacity == fleet[tid].capacity
    ensures LinkedWorld(s, fleet).trucks[tid].maxRange == fleet[tid].maxRange
    ensures LinkedWorld(s, fleet).trucks[tid].route.To? ==>
      k < |s.routes| && s.routes[k].truck == To(tid) && s.routes[k].id == LinkedWorld(s, fleet).trucks[tid].route.id
  {
    RestoredTruck(s, fleet, tid);
    hide Consistent, LinkedWorld;
    k := 0;
    if tid in RouteTrucks(s.routes) {
      var rid := RouteTrucks(s.routes)[tid];
      k :| 0 <= k < |s.routes| && s.routes[k].truck == To(tid) && s.routes[k].id == rid;
    }
  }

  lemma LinkedRoutesFit(s: Snapshot, fleet: map<int, TruckState>)
    requires Consistent(s, fleet) && Traceable(s, fleet)
    ensures RecordsStored(s.routes, LinkedWorld(s, fleet))
    ensures var w := LinkedWorld(s, fleet);
      forall rid <- w.routes :: w.routes[rid].truck.To? ==>
        w.routes[rid].truck.id in w.trucks && w.trucks[w.routes[rid].truck.id].route == To(rid)
  {
    hide Consistent, LinkedWorld, Traceable;
    RouteIdsApart(s, fleet);
    var w := LinkedWorld(s, fleet);
    forall k | 0 <= k < |s.routes| && s.routes[k].truck.To? ensures s.routes[k].id in w.routes && s.routes[k].truck.id in w.trucks {
      LinkedRouteFits(s, fleet, k);
    }
    forall rid <- w.routes | w.routes[rid].truck.To?
      ensures w.routes[rid].truck.id in w.trucks && w.trucks[w.routes[rid].truck.id].route == To(rid)
    {
      RestoredRoute(s, fleet, rid);
      var k := RouteIndex(s, rid);
      LinkedRouteFits(s, fleet, k);
    }
  }

  lemma LinkedTrucksFit(s: Snapshot, fleet: map<int, TruckState>)
    requires Consistent(s, fleet) && Traceable(s, fleet)
    ensures SameMake(LinkedWorld(s, fleet).trucks, fleet)
    ensures var w := LinkedWorld(s, fleet);
      forall tid <- w.trucks :: w.trucks[tid].route.To? ==>
        w.trucks[tid].route.id in w.routes && w.routes[w.trucks[tid].route.id].truck == To(tid)
  {
    hide Consistent, LinkedWorld, Traceable;
    var w := LinkedWorld(s, fleet);
    forall tid <- w.trucks
      ensures tid in fleet && w.trucks[tid].capacity == fleet[tid].capacity && w.trucks[tid].maxRange == fleet[tid].maxRange
      ensures w.trucks[tid].route.To? ==> w.trucks[tid].route.id in w.routes && w.routes[w.trucks[tid].route.id].truck == To(tid)
    {
      var k := LinkedTruckFits(s, fleet, tid);
      if w.trucks[tid].route.To? {
        LinkedRouteFits(s, fleet, k);
      }
    }
  }

  /** A linked world fits the fleet it was linked against. */
  lemma LinkedWorldFits(s: Snapshot, fleet: map<int, TruckState>)
    requires Consistent(s, fleet)
    ensures Traceable(s, fleet) && FitsFleet(LinkedWorld(s, fleet), fleet) && RecordsStored(s.routes, LinkedWorld(s, fleet))
  {
    hide Consistent, LinkedWorld, Traceable;
    ConsistentIsTraceable(s, fleet);
    LinkedRoutesFit(s, fleet);
    LinkedTrucksFit(s, fleet);
  }

  lemma PassStepFits(w: World, fleet: map<int, TruckState>, rid: int, now: Time)
    requires Closed(w) && FitsFleet(w, fleet) && rid in w.routes
    ensures FitsFleet(WorldAfter(w, rid, now), fleet) && WorldAfter(w, rid, now).trucks.Keys == w.trucks.Keys
  {
  }

  /** A pass moves and releases trucks on both sides at once. */
  lemma {:induction false} PassFits(w: World, fleet: map<int, TruckState>, ids: seq<int>, now: Time)
    requires Known(w, ids) && FitsFleet(w, fleet)
    ensures FitsFleet(Pass(w, ids, now).0, fleet) && Pass(w, ids, now).0.trucks.Keys == w.trucks.Keys
  {
    if ids != [] {
      var n := |ids| - 1;
      PassFits(w, fleet, ids[..n], now);
      PassStepFits(Pass(w, ids[..n], now).0, fleet, ids[n], now);
    }
  }

  lemma RecordsStayStored(records: seq<RouteRecord>, w: World, v: World)
    requires RecordsStored(records, w) && v.routes.Keys == w.routes.Keys && v.trucks.Keys == w.trucks.Keys
    ensures RecordsStored(records, v)
  {
  }

  /** The restored world at an instant. */
  ghost function RestoredAt(s: Snapshot, fleet: map<int, TruckState>, now: Time): World
    requires Traceable(s, fleet) && Known(LinkedWorld(s, fleet), RouteIdsIn(s.routes))
  {
    Pass(LinkedWorld(s, fleet), RouteIdsIn(s.routes), now).0
  }

  /** What is restored fits the fleet at any instant. */
  lemma RestoredFits(s: Snapshot, fleet: map<int, TruckState>, now: Time)
    requires Consistent(s, fleet) && Traceable(s, fleet) && Known(LinkedWorld(s, fleet), RouteIdsIn(s.routes))
    ensures FitsFleet(RestoredAt(s, fleet, now), fleet) && RecordsStored(s.routes, RestoredAt(s, fleet, now))
  {
    hide Consistent, LinkedWorld, Traceable, FitsFleet, RecordsStored, Known;
    LinkedWorldFits(s, fleet);
    PassFits(LinkedWorld(s, fleet), fleet, RouteIdsIn(s.routes), now);
    RecordsStayStored(s.routes, LinkedWorld(s, fleet), RestoredAt(s, fleet, now));
  }

  /** A fleet every truck of which was prepared is left as prepared. */
  lemma WholeFleetPrepared(w: World, fleet: map<int, TruckState>)
    requires w.trucks.Keys == fleet.Keys
    ensures OnFleet(w, fleet) == w
  {
    assert HandedOver(fleet, w.trucks) == w.trucks;
  }

  lemma RestoredKeepsFleet(w: World, c: Counters, now: Time)
    requires Linked(w) && Traceable(Saved(w, c), w.trucks) && FitsFleet(Reloaded(w, c), w.trucks)
    requires Known(Reloaded(w, c), RouteIdsIn(Saved(w, c).routes))
    ensures RestoredAt(Saved(w, c), w.trucks, now).trucks.Keys == w.trucks.Keys
  {
    hide Saved, LinkedWorld, Traceable, Known, FitsFleet, Linked;
    KeysComeBack(w, c);
    PassFits(Reloaded(w, c), w.trucks, RouteIdsIn(Saved(w, c).routes), now);
  }

  /** Saving a well-formed world and restoring it onto its own fleet gives the world a pass at that instant gives,
      exactly when no completed route is seen inside its travel window. */
  lemma RestoringOntoFleetCommutes(w: World, c: Counters, rules: ContactRules, now: Time)
    requires WellFormed(w) && Saveable(w, c, rules)
    ensures Restorable(Saved(w, c), w.trucks, rules) && Traceable(Saved(w, c), w.trucks)
    ensures Known(Reloaded(w, c), RouteIdsIn(Saved(w, c).routes)) && Known(w, RouteIdsIn(Saved(w, c).routes))
    ensures Alike(OnFleet(RestoredAt(Saved(w, c), w.trucks, now), w.trucks), Pass(w, RouteIdsIn(Saved(w, c).routes), now).0)
       <==> forall rid <- w.routes :: !CompletedTooEarly(w.routes[rid], now)
  {
    hide Saved, Alike, Pass, Prepare, Saveable, Verdict, RebuildFinding, Consistent, Buildable, LinkedWorld,
         CompletedTooEarly, FitsFleet, Traceable;
    SavedWorldIsAccepted(w, c, {2}, rules);
    PreparedWorld(Saved(w, c), {2}, w.trucks, rules, now);
    SavedRoutesEnumerate(w, c);
    RestoringCommutes(w, c, {2}, rules, now);
    LinkedWorldFits(Saved(w, c), w.trucks);
    RestoredKeepsFleet(w, c, now);
    WholeFleetPrepared(RestoredAt(Saved(w, c), w.trucks, now), w.trucks);
  }
}
