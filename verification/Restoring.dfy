/** Preparing a snapshot for import, and what saving a world and restoring it does to it. */
module Restoring {
  import opened Common
  import opened RouteSchedules
  import opened RouteScheduling
  import opened Fleet
  import opened Reconciliation
  import opened ReconciliationLaws
  import opened Projection
  import opened Snapshots
  import opened SnapshotChecks
  import opened SnapshotSoundness
  import opened SnapshotRestore
  import opened SnapshotLinking
  import opened RestoredWorlds
  import opened SnapshotCompleteness

  // ----- preparing

  lemma RecordsAreRoutes(s: Snapshot, fleet: map<int, TruckState>, rules: ContactRules)
    requires Restorable(s, fleet, rules)
    ensures Traceable(s, fleet) && Closed(LinkedWorld(s, fleet)) && Enumerates(RouteIdsIn(s.routes), LinkedWorld(s, fleet))
  {
    hide Consistent, Buildable, LinkedWorld, Closed, Traceable;
    ConsistentIsTraceable(s, fleet);
    RestoredIsClosed(s, fleet);
    RouteIdsApart(s, fleet);
    forall k | 0 <= k < |s.routes| ensures s.routes[k].id in LinkedWorld(s, fleet).routes {
      RecordOf(s, k);
      RestoredRoute(s, fleet, s.routes[k].id);
    }
  }

  lemma RouteIdsApart(s: Snapshot, fleet: map<int, TruckState>)
    requires Consistent(s, fleet)
    ensures NoDup(RouteIdsIn(s.routes))
  {
  }

  /** The whole pipeline: checks, rebuilding, linking, and one pass over the restored routes at `now`. */
  ghost function Prepare(s: Snapshot, supported: set<int>, fleet: map<int, TruckState>, rules: ContactRules, now: Time): Result<World, Finding> {
    if Verdict(s, supported, fleet, rules) != Passed then Err(Verdict(s, supported, fleet, rules))
    else if RebuildFinding(s, rules) != Passed then Err(RebuildFinding(s, rules))
    else
      AcceptedIffConsistent(s, supported, fleet, rules);
      RebuildsIffBuildable(s, rules);
      LinkRestores(s, fleet, rules);
      var linked := LinkSnapshot(s, RebuiltWorld(s), fleet);
      if linked.None? then Err(Corrupt(INVALID_REFERENCES))
      else
        RecordsAreRoutes(s, fleet, rules);
        Ok(Pass(linked.value, RouteIdsIn(s.routes), now).0)
  }

  /** Linking never fails behind the checks: what is prepared is the linked world after its pass. */
  lemma PreparedWorld(s: Snapshot, supported: set<int>, fleet: map<int, TruckState>, rules: ContactRules, now: Time)
    requires Verdict(s, supported, fleet, rules) == Passed && RebuildFinding(s, rules) == Passed
    ensures Restorable(s, fleet, rules) && Traceable(s, fleet) && Closed(LinkedWorld(s, fleet))
    ensures Enumerates(RouteIdsIn(s.routes), LinkedWorld(s, fleet))
    ensures Prepare(s, supported, fleet, rules, now) == Ok(Pass(LinkedWorld(s, fleet), RouteIdsIn(s.routes), now).0)
  {
    AcceptedIffConsistent(s, supported, fleet, rules);
    RebuildsIffBuildable(s, rules);
    LinkRestores(s, fleet, rules);
    RecordsAreRoutes(s, fleet, rules);
  }

  // ----- what comes back

  lemma RouteComesBack(w: World, c: Counters, rid: int)
    requires Linked(w) && AllDerived(w) && Traceable(Saved(w, c), w.trucks) && rid in w.routes
    ensures rid in LinkedWorld(Saved(w, c), w.trucks).routes
    ensures var r, r' := w.routes[rid], LinkedWorld(Saved(w, c), w.trucks).routes[rid];
      && r'.path == r.path && r'.schedule == r.schedule && r'.truck == r.truck && r'.status != COMPLETED
      && r'.packages == Sorted(Elements(r.packages))
  {
    hide Saved;
    SavedRouteById(w, c, rid);
    RestoredRoute(Saved(w, c), w.trucks, rid);
    assert RouteLinked(w, rid) && Derived(w.routes[rid]);
    hide LinkedWorld, Traceable;
  }

  lemma PackageComesBack(w: World, c: Counters, pid: int)
    requires Linked(w) && Traceable(Saved(w, c), w.trucks) && pid in w.packages
    ensures pid in LinkedWorld(Saved(w, c), w.trucks).packages
    ensures var p, p' := w.packages[pid], LinkedWorld(Saved(w, c), w.trucks).packages[pid];
      && p'.start == p.start && p'.end == p.end && p'.weight == p.weight && p'.customer == p.customer
      && p'.route == p.route && p'.routeId == p.routeId
      && (p.route.Unlinked? ==> p'.(events := []) == p.(events := []))
  {
    hide Saved;
    SavedPackageById(w, c, pid);
    RestoredPackage(Saved(w, c), w.trucks, pid);
    assert PackageLinked(w, pid);
    hide LinkedWorld, Traceable;
  }

  lemma AssignedTruckEntry(w: World, c: Counters, tid: int)
    requires Linked(w) && tid in w.trucks
    ensures tid in RouteTrucks(Saved(w, c).routes) <==> w.trucks[tid].route.To?
    ensures w.trucks[tid].route.To? ==> RouteTrucks(Saved(w, c).routes)[tid] == w.trucks[tid].route.id
  {
    assert TruckLinked(w, tid);
    var s := Saved(w, c);
    if w.trucks[tid].route.To? {
      var k := SavedRouteAt(w, c, w.trucks[tid].route.id);
      SavedTrucksApart(w, c);
      RouteTruckEntry(s.routes, k);
    }
    if tid in RouteTrucks(s.routes) {
      var k :| 0 <= k < |s.routes| && s.routes[k].truck == To(tid);
      SavedRoute(w, c, k);
      assert RouteLinked(w, s.routes[k].id);
    }
  }

  /** What a route and its truck keep of the plan. */
  lemma ServedPlan(w: World, rid: int)
    requires Linked(w) && AllDerived(w) && rid in w.routes && w.routes[rid].truck.To?
    ensures Shaped(w.routes[rid]) && w.routes[rid].truck.id in w.trucks && w.routes[rid].schedule.Some?
    ensures w.routes[rid].schedule.value == ScheduleOf(w.routes[rid].path, w.routes[rid].schedule.value.departure, SPEED_KMPH)
    ensures w.trucks[w.routes[rid].truck.id].busyFrom == Departure(w.routes[rid]) && w.trucks[w.routes[rid].truck.id].busyUntil == Eta(w.routes[rid])
  {
    assert RouteLinked(w, rid) && Derived(w.routes[rid]);
  }

  lemma TruckComesBack(w: World, c: Counters, tid: int)
    requires Linked(w) && AllDerived(w) && Traceable(Saved(w, c), w.trucks) && tid in w.trucks
    ensures tid in LinkedWorld(Saved(w, c), w.trucks).trucks
    ensures var t, t' := w.trucks[tid], LinkedWorld(Saved(w, c), w.trucks).trucks[tid];
      t' == if t.route.To? then t.(inTransitTo := None) else t
  {
    hide Saved, LinkedWorld, Linked, AllDerived, ScheduleOf, EtaFinal;
    SavedTruckById(w, c, tid);
    AssignedTruckEntry(w, c, tid);
    RestoredTruck(Saved(w, c), w.trucks, tid);
    TruckKeeps(w, tid);
    if w.trucks[tid].route.To? {
      var rid := w.trucks[tid].route.id;
      SavedRouteById(w, c, rid);
      ServedPlan(w, rid);
    }
  }

  lemma KeyComesBack(w: World, c: Counters, id: int)
    requires Linked(w) && Traceable(Saved(w, c), w.trucks)
    ensures id in LinkedWorld(Saved(w, c), w.trucks).routes <==> id in w.routes
    ensures id in LinkedWorld(Saved(w, c), w.trucks).packages <==> id in w.packages
    ensures id in LinkedWorld(Saved(w, c), w.trucks).trucks <==> id in w.trucks
  {
    var s := Saved(w, c);
    assert (id in RouteIdsIn(s.routes) <==> id in w.routes) && (id in PackageIdsIn(s.packages) <==> id in w.packages);
    hide Saved, LinkedWorld, Traceable, Linked;
    RestoredRoute(s, w.trucks, id);
    RestoredPackage(s, w.trucks, id);
    RestoredTruck(s, w.trucks, id);
    SavedTruckById(w, c, id);
    if id in RouteTrucks(s.routes) {
      SavedTruckKnown(w, c, id);
    }
  }

  lemma KeysComeBack(w: World, c: Counters)
    requires Linked(w) && Traceable(Saved(w, c), w.trucks)
    ensures LinkedWorld(Saved(w, c), w.trucks).routes.Keys == w.routes.Keys
    ensures LinkedWorld(Saved(w, c), w.trucks).packages.Keys == w.packages.Keys
    ensures LinkedWorld(Saved(w, c), w.trucks).trucks.Keys == w.trucks.Keys
  {
    hide Saved, LinkedWorld, Traceable, Linked;
    var v := LinkedWorld(Saved(w, c), w.trucks);
    forall id
      ensures (id in v.routes <==> id in w.routes) && (id in v.packages <==> id in w.packages) && (id in v.trucks <==> id in w.trucks)
    {
      KeyComesBack(w, c, id);
    }
  }

  lemma SavedTruckKnown(w: World, c: Counters, tid: int)
    requires Linked(w) && tid in RouteTrucks(Saved(w, c).routes)
    ensures tid in w.trucks
  {
    var s := Saved(w, c);
    var k :| 0 <= k < |s.routes| && s.routes[k].truck == To(tid);
    SavedRoute(w, c, k);
    assert RouteLinked(w, s.routes[k].id);
  }

  // ----- restoring commutes with reconciling

  /** Entities as they are, whatever was recorded about them. */
  ghost predicate AlikePackage(p: PackageState, q: PackageState) {
    p.(events := []) == q.(events := [])
  }

  /** The same route up to recorded events and the order of its packages. */
  ghost predicate AlikeRoute(r: RouteState, q: RouteState) {
    r.(events := [], packages := []) == q.(events := [], packages := []) && multiset(r.packages) == multiset(q.packages)
  }

  ghost predicate AlikeCustomer(a: CustomerState, b: CustomerState) {
    a.contact == b.contact && multiset(a.packages) == multiset(b.packages)
  }

  /** Worlds that differ at most in recorded events and in the order of lists. */
  ghost predicate Alike(v: World, w: World) {
    && v.routes.Keys == w.routes.Keys && v.packages.Keys == w.packages.Keys && v.trucks == w.trucks && v.customers.Keys == w.customers.Keys
    && (forall cid {:trigger AlikeCustomer(v.customers[cid], w.customers[cid])} :: cid in w.customers ==>
          AlikeCustomer(v.customers[cid], w.customers[cid]))
    && (forall rid {:trigger AlikeRoute(v.routes[rid], w.routes[rid])} :: rid in w.routes ==> AlikeRoute(v.routes[rid], w.routes[rid]))
    && (forall pid {:trigger AlikePackage(v.packages[pid], w.packages[pid])} :: pid in w.packages ==>
          AlikePackage(v.packages[pid], w.packages[pid]))
  }

  /** Progress is read off the plan and the endpoints alone. */
  lemma ProgressFollowsPlan(r: RouteState, q: RouteState, p: PackageState, p': PackageState, now: Time)
    requires Shaped(r) && Shaped(q) && r.path == q.path && r.schedule == q.schedule && p.start == p'.start && p.end == p'.end
    ensures ProgressAt(r, p, now) == ProgressAt(q, p', now) && StatusAt(r, now) == StatusAt(q, now)
  {
  }

  /** A truck's place is read off the plan, whatever its place and transit target were. */
  lemma PlaceFollowsPlan(rid: int, r: RouteState, q: RouteState, t: TruckState, t': TruckState, now: Time)
    requires Shaped(r) && Shaped(q) && r.path == q.path && r.schedule == q.schedule && r.schedule.Some?
    requires t' == t.(inTransitTo := None)
    ensures TruckAt(rid, r, t, now) == TruckAt(rid, q, t', now)
  {
  }

  /** A saved world, restored against its own fleet. */
  ghost function Reloaded(w: World, c: Counters): World
    requires Traceable(Saved(w, c), w.trucks)
  {
    LinkedWorld(Saved(w, c), w.trucks)
  }

  /** A well-formed world restores to a linked world. */
  lemma RestoredIsLinked(w: World, c: Counters, rules: ContactRules)
    requires WellFormed(w) && Saveable(w, c, rules)
    ensures Traceable(Saved(w, c), w.trucks) && Restorable(Saved(w, c), w.trucks, rules)
    ensures Linked(Reloaded(w, c))
  {
    SavedWorldIsAccepted(w, c, {2}, rules);
    RestoredWorldIsSafe(Saved(w, c), w.trucks, rules);
    SavedTrucksLocated(w, c);
  }

  lemma SavedTrucksLocated(w: World, c: Counters)
    requires Linked(w)
    ensures TrucksLocated(Saved(w, c))
  {
    var s := Saved(w, c);
    forall k, j | 0 <= k < |s.routes| && 0 <= j < |s.trucks| && s.routes[k].truck == To(s.trucks[j].id) ensures s.trucks[j].location.Some? {
      SavedRoute(w, c, k);
      SavedTruck(w, c, j);
      assert RouteLinked(w, s.routes[k].id);
    }
  }

  /** A restored route is never completed, so its pass succeeds. */
  lemma RestoredPassSucceeds(w: World, c: Counters, rid: int, now: Time)
    requires Linked(w) && AllDerived(w) && Traceable(Saved(w, c), w.trucks) && Linked(Reloaded(w, c)) && rid in w.routes
    ensures rid in Reloaded(w, c).routes && !Blocked(Reloaded(w, c), rid, now)
  {
    RouteComesBack(w, c, rid);
    BlockedIff(Reloaded(w, c), rid, now);
  }

  lemma PackageOutcomesAgree(r: RouteState, q: RouteState, pid: int, p: PackageState, p': PackageState, now: Time)
    requires Shaped(r) && Shaped(q) && r.path == q.path && r.schedule == q.schedule
    requires p'.start == p.start && p'.end == p.end && p'.weight == p.weight && p'.customer == p.customer
    requires p'.route == p.route && p'.routeId == p.routeId && p.routeId.To?
    ensures !PackageBlocked(r, p, now) && !PackageBlocked(q, p', now)
    ensures AlikePackage(PackageAfter(q, pid, p', now), PackageAfter(r, pid, p, now))
  {
    ProgressFollowsPlan(r, q, p, p', now);
    hide ProgressAt, LifecycleEvents;
  }

  /** Where the projection takes a package of a route whose pass succeeds. */
  lemma AssignedTarget(w: World, done: set<int>, now: Time, u: World, pid: int)
    requires Linked(w) && done == w.routes.Keys && IsProjection(w, done, now, u) && pid in w.packages
    ensures pid in u.packages
    ensures var p := w.packages[pid];
      && (p.route.Unlinked? ==> u.packages[pid] == p)
      && (p.route.To? ==> p.route.id in w.routes && Shaped(w.routes[p.route.id]) && p.routeId == p.route)
      && (p.route.To? && !Blocked(w, p.route.id, now) ==>
            !PackageBlocked(w.routes[p.route.id], p, now) && u.packages[pid] == PackageAfter(w.routes[p.route.id], pid, p, now))
  {
    assert PackageDone(w, done, now, u, pid) && PackageLinked(w, pid);
  }

  lemma PackageCommutes(w: World, c: Counters, done: set<int>, now: Time, v: World, u: World, pid: int)
    requires Linked(w) && AllDerived(w) && Traceable(Saved(w, c), w.trucks) && Linked(Reloaded(w, c)) && pid in w.packages
    requires done == w.routes.Keys && IsProjection(Reloaded(w, c), done, now, v) && IsProjection(w, done, now, u)
    requires w.packages[pid].route.To? ==> !Blocked(w, w.packages[pid].route.id, now)
    ensures pid in v.packages && pid in u.packages && AlikePackage(v.packages[pid], u.packages[pid])
  {
    hide Linked, AllDerived, Traceable, IsProjection, Blocked, Saved, PackageAfter, PackageBlocked, LinkedWorld;
    KeysComeBack(w, c);
    PackageComesBack(w, c, pid);
    AssignedTarget(w, done, now, u, pid);
    AssignedTarget(Reloaded(w, c), done, now, v, pid);
    if w.packages[pid].route.To? {
      var rid := w.packages[pid].route.id;
      RouteComesBack(w, c, rid);
      RestoredPassSucceeds(w, c, rid, now);
      PackageOutcomesAgree(w.routes[rid], Reloaded(w, c).routes[rid], pid, w.packages[pid], Reloaded(w, c).packages[pid], now);
    }
  }

  /** Where the projection takes a route. */
  lemma RouteTargetIs(w: World, done: set<int>, now: Time, u: World, rid: int)
    requires Linked(w) && done == w.routes.Keys && IsProjection(w, done, now, u) && rid in w.routes
    ensures rid in u.routes && Shaped(w.routes[rid])
    ensures Blocked(w, rid, now) ==> u.routes[rid] == w.routes[rid] && StatusAt(w.routes[rid], now) != w.routes[rid].status
    ensures !Blocked(w, rid, now) ==>
      var r := w.routes[rid];
      u.routes[rid].(events := []) == r.(events := [], status := StatusAt(r, now), truck := if ReleaseDue(r, now) then Unlinked else r.truck)
  {
    assert RouteDone(w, done, now, u, rid);
    BlockedIff(w, rid, now);
  }

  lemma RouteCommutes(w: World, c: Counters, done: set<int>, now: Time, v: World, u: World, rid: int)
    requires Linked(w) && AllDerived(w) && Traceable(Saved(w, c), w.trucks) && Linked(Reloaded(w, c)) && rid in w.routes
    requires done == w.routes.Keys && IsProjection(Reloaded(w, c), done, now, v) && IsProjection(w, done, now, u)
    ensures rid in v.routes && rid in u.routes
    ensures AlikeRoute(v.routes[rid], u.routes[rid]) <==> !Blocked(w, rid, now)
  {
    hide Linked, AllDerived, Traceable, IsProjection, Blocked, Saved, LinkedWorld, Sorted;
    KeysComeBack(w, c);
    RouteComesBack(w, c, rid);
    RestoredPassSucceeds(w, c, rid, now);
    RouteTargetIs(w, done, now, u, rid);
    RouteTargetIs(Reloaded(w, c), done, now, v, rid);
    StoredRouteKeeps(w, rid);
    SortedKeepsElements(w.routes[rid].packages);
  }

  lemma TruckCommutes(w: World, c: Counters, done: set<int>, now: Time, v: World, u: World, tid: int)
    requires Linked(w) && AllDerived(w) && Traceable(Saved(w, c), w.trucks) && Linked(Reloaded(w, c)) && tid in w.trucks
    requires done == w.routes.Keys && IsProjection(Reloaded(w, c), done, now, v) && IsProjection(w, done, now, u)
    requires w.trucks[tid].route.To? ==> !Blocked(w, w.trucks[tid].route.id, now)
    ensures tid in v.trucks && tid in u.trucks && v.trucks[tid] == u.trucks[tid]
  {
    TruckComesBack(w, c, tid);
    assert TruckDone(w, done, now, u, tid) && TruckDone(Reloaded(w, c), done, now, v, tid);
    assert TruckLinked(w, tid);
    if w.trucks[tid].route.To? {
      var rid := w.trucks[tid].route.id;
      RouteComesBack(w, c, rid);
      RestoredPassSucceeds(w, c, rid, now);
      assert RouteLinked(w, rid);
      PlaceFollowsPlan(rid, w.routes[rid], Reloaded(w, c).routes[rid], w.trucks[tid], Reloaded(w, c).trucks[tid], now);
    }
    hide Linked, AllDerived, Traceable, Reloaded, IsProjection, Blocked, TruckAt, Saved;
  }

  lemma CustomerComesBack(w: World, c: Counters, cid: int)
    requires Linked(w) && Traceable(Saved(w, c), w.trucks) && Linked(Reloaded(w, c))
    ensures cid in Reloaded(w, c).customers <==> cid in w.customers
    ensures cid in w.customers ==> AlikeCustomer(Reloaded(w, c).customers[cid], w.customers[cid])
  {
    var s, v := Saved(w, c), Reloaded(w, c);
    assert cid in CustomerIds(s.customers) <==> cid in w.customers;
    if cid in w.customers {
      var k := IndexOf(s.customers, CustomersById(s.customers)[cid]);
      SavedCustomer(w, c, k);
      hide Saved;
      assert CustomerLinked(w, cid) && CustomerLinked(v, cid);
      forall pid ensures pid in v.customers[cid].packages <==> pid in w.customers[cid].packages {
        ListedComesBack(w, c, cid, pid);
      }
      SameElements(v.customers[cid].packages, w.customers[cid].packages);
    }
  }

  lemma ListedComesBack(w: World, c: Counters, cid: int, pid: int)
    requires Linked(w) && Traceable(Saved(w, c), w.trucks) && Linked(Reloaded(w, c)) && cid in w.customers && cid in Reloaded(w, c).customers
    ensures pid in Reloaded(w, c).customers[cid].packages <==> pid in w.customers[cid].packages
  {
    hide Saved, LinkedWorld, Linked, Traceable;
    KeyComesBack(w, c, pid);
    if pid in w.packages {
      PackageComesBack(w, c, pid);
    }
    OwnerLists(w, cid, pid);
    OwnerLists(Reloaded(w, c), cid, pid);
  }

  /** A customer lists exactly the packages that are its own. */
  lemma OwnerLists(w: World, cid: int, pid: int)
    requires Linked(w) && cid in w.customers
    ensures NoDup(w.customers[cid].packages)
    ensures pid in w.customers[cid].packages <==> pid in w.packages && w.packages[pid].customer == cid
  {
    assert CustomerLinked(w, cid);
    if pid in w.packages {
      assert PackageLinked(w, pid);
    }
    if pid in w.customers[cid].packages {
      var i := IndexOf(w.customers[cid].packages, pid);
    }
  }

  lemma SameElements(a: seq<int>, b: seq<int>)
    requires NoDup(a) && NoDup(b) && forall x :: x in a <==> x in b
    ensures multiset(a) == multiset(b)
  {
    CountedOnce(a);
    CountedOnce(b);
    assert forall x :: x in Elements(a) <==> x in Elements(b);
  }

  /** The ids of the saved routes are all of them, once each. */
  lemma SavedRoutesEnumerate(w: World, c: Counters)
    ensures Enumerates(RouteIdsIn(Saved(w, c).routes), w) && Elements(RouteIdsIn(Saved(w, c).routes)) == w.routes.Keys
  {
    var ids := RouteIdsIn(Saved(w, c).routes);
    assert forall rid :: rid in ids <==> rid in w.routes;
    hide Saved;
    SavedIdsApart(w, c);
    forall k | 0 <= k < |ids| ensures ids[k] in w.routes {
      assert ids[k] in ids;
    }
    forall rid ensures rid in Elements(ids) <==> rid in w.routes {}
  }

  lemma ProjectionKeys(w: World, done: set<int>, now: Time, u: World)
    requires Linked(w) && IsProjection(w, done, now, u)
    ensures u.routes.Keys == w.routes.Keys && u.packages.Keys == w.packages.Keys && u.trucks.Keys == w.trucks.Keys && u.customers == w.customers
    ensures forall pid <- w.packages :: w.packages[pid].route.To? ==> w.packages[pid].route.id in w.routes
    ensures forall tid <- w.trucks :: w.trucks[tid].route.To? ==> w.trucks[tid].route.id in w.routes
  {
  }

  lemma CustomersComeBack(w: World, c: Counters)
    requires Linked(w) && Traceable(Saved(w, c), w.trucks) && Linked(Reloaded(w, c))
    ensures Reloaded(w, c).customers.Keys == w.customers.Keys
    ensures forall cid {:trigger AlikeCustomer(Reloaded(w, c).customers[cid], w.customers[cid])} :: cid in w.customers ==>
      AlikeCustomer(Reloaded(w, c).customers[cid], w.customers[cid])
  {
    hide Linked, Saved, LinkedWorld, Traceable, AlikeCustomer;
    forall cid
      ensures (cid in Reloaded(w, c).customers <==> cid in w.customers)
           && (cid in w.customers ==> AlikeCustomer(Reloaded(w, c).customers[cid], w.customers[cid]))
    {
      CustomerComesBack(w, c, cid);
    }
  }

  /** Two passes, one over the restored world and one over the world itself, end alike exactly when the pass over
      the world succeeds on every route. */
  lemma PassesEndAlike(w: World, c: Counters, now: Time, v: World, u: World)
    requires Linked(w) && AllDerived(w) && Traceable(Saved(w, c), w.trucks) && Linked(Reloaded(w, c))
    requires IsProjection(Reloaded(w, c), w.routes.Keys, now, v) && IsProjection(w, w.routes.Keys, now, u)
    ensures Alike(v, u) <==> forall rid <- w.routes :: !Blocked(w, rid, now)
  {
    hide Linked, AllDerived, Traceable, LinkedWorld, IsProjection, Blocked, Saved, AlikeRoute, AlikePackage,
         AlikeCustomer;
    LinkedIsClosed(w);
    KeysComeBack(w, c);
    var done := w.routes.Keys;
    ProjectionKeys(w, done, now, u);
    ProjectionKeys(Reloaded(w, c), done, now, v);
    CustomersComeBack(w, c);
    forall rid | rid in w.routes ensures AlikeRoute(v.routes[rid], u.routes[rid]) <==> !Blocked(w, rid, now) {
      RouteCommutes(w, c, done, now, v, u, rid);
    }
    if forall rid <- w.routes :: !Blocked(w, rid, now) {
      forall pid | pid in w.packages ensures AlikePackage(v.packages[pid], u.packages[pid]) { PackageCommutes(w, c, done, now, v, u, pid); }
      forall tid | tid in w.trucks ensures v.trucks[tid] == u.trucks[tid] { TruckCommutes(w, c, done, now, v, u, tid); }
      assert v.trucks == u.trucks;
      assert v.customers == Reloaded(w, c).customers && u.customers == w.customers;
    }
    if Alike(v, u) {
      forall rid | rid in w.routes ensures !Blocked(w, rid, now) {
        assert AlikeRoute(v.routes[rid], u.routes[rid]);
      }
    }
  }

  /** Saving a world and preparing the save at an instant gives the world a pass at that instant would give, up to
      recorded events and the order of lists, although the save holds no package status, no place, no arrival and no
      route status. It does so exactly when no completed route is seen inside its travel window: such a route stays
      completed in the running world and is under way again in the restored one. */
  lemma RestoringCommutes(w: World, c: Counters, supported: set<int>, rules: ContactRules, now: Time)
    requires WellFormed(w) && Saveable(w, c, rules) && 2 in supported
    ensures Enumerates(RouteIdsIn(Saved(w, c).routes), w) && Elements(RouteIdsIn(Saved(w, c).routes)) == w.routes.Keys
    ensures Prepare(Saved(w, c), supported, w.trucks, rules, now).Ok?
    ensures Alike(Prepare(Saved(w, c), supported, w.trucks, rules, now).value, Pass(w, RouteIdsIn(Saved(w, c).routes), now).0)
       <==> forall rid <- w.routes :: !CompletedTooEarly(w.routes[rid], now)
  {
    hide Saved, Linked, AllDerived, Alike, IsProjection, Blocked, CompletedTooEarly, Pass, Prepare, Restorable,
         Saveable, Verdict,
         RebuildFinding, Safe, Traceable, Consistent, Buildable, LinkedWorld;
    var ids := RouteIdsIn(Saved(w, c).routes);
    SavedRoutesEnumerate(w, c);
    SavedWorldIsAccepted(w, c, supported, rules);
    PreparedWorld(Saved(w, c), supported, w.trucks, rules, now);
    RestoredIsLinked(w, c, rules);
    LinkedIsClosed(w);
    PassIsProjection(Reloaded(w, c), ids, now);
    PassIsProjection(w, ids, now);
    PassesEndAlike(w, c, now, Pass(Reloaded(w, c), ids, now).0, Pass(w, ids, now).0);
    forall rid | rid in w.routes ensures Blocked(w, rid, now) <==> CompletedTooEarly(w.routes[rid], now) {
      BlockedIff(w, rid, now);
    }
  }
}
