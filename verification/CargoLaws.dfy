/** What a truck really carries: the packages under way, summed by status, against the segment loads its capacity was
    checked with. */
module CargoLaws {
  import opened Common
  import opened RouteSchedules
  import opened RouteLoads
  import opened Fleet
  import opened Reconciliation
  import opened ReconciliationLaws
  import opened Projection
  import opened RepeatLaws
  import opened UseCaseSteps
  import opened UseCaseSafety
  import opened RunMilestones
  import opened Assignments
  import opened PassOutcomes
  import opened UseCaseOutcomes

  // ----- cargo

  /** The weight of the packages that are on board. */
  function UnderWay(states: seq<PackageState>): real {
    if states == [] then 0.0
    else
      var p := states[|states| - 1];
      UnderWay(states[..|states| - 1]) + if p.status == MOVING then p.weight else 0.0
  }

  /** Packages of a route with the status the schedule gives them at an instant. */
  function CargoAt(r: RouteState, states: seq<PackageState>, now: Time): (later: seq<PackageState>)
    requires Shaped(r)
    ensures |later| == |states|
  {
    seq(|states|, k requires 0 <= k < |states| => states[k].(status := ProgressAt(r, states[k], now).status))
  }

  function Loads(states: seq<PackageState>): (loads: seq<PackageLoad>)
    ensures |loads| == |states|
  {
    seq(|states|, k requires 0 <= k < |states| => LoadOf(states[k]))
  }

  /** Every package is picked up on the path and delivered further on. */
  ghost predicate AllForwards(r: RouteState, states: seq<PackageState>) {
    forall k :: 0 <= k < |states| ==> OnPath(r, states[k]) && Forwards(r, states[k])
  }

  /** A package is on board on segment `k` exactly while the route is between stops `k` and `k + 1`. */
  lemma AboardIff(r: RouteState, p: PackageState, k: nat, now: Time)
    requires Sound(r) && Shaped(r) && Between(r, k, now) && OnPath(r, p) && Forwards(r, p)
    ensures ProgressAt(r, p, now).status == MOVING <==> IndexOf(r.path, p.start) <= k < IndexOf(r.path, p.end)
  {
    var i, j := IndexOf(r.path, p.start), IndexOf(r.path, p.end);
    StopOrder(r, i, k);
    StopOrder(r, j, k);
  }

  /** The stops up to the last one reached have been reached, and no other. */
  lemma StopOrder(r: RouteState, i: nat, k: nat)
    requires Sound(r) && Shaped(r) && r.schedule.Some? && i < |r.path| && k + 1 < |r.path|
    ensures i <= k ==> At(r, i) <= At(r, k)
    ensures k < i ==> At(r, k + 1) <= At(r, i)
  {
  }

  lemma CargoOfLast(r: RouteState, states: seq<PackageState>, now: Time)
    requires Shaped(r) && states != []
    ensures var n := |states| - 1;
      UnderWay(CargoAt(r, states, now))
      == UnderWay(CargoAt(r, states[..n], now)) + if ProgressAt(r, states[n], now).status == MOVING then states[n].weight else 0.0
  {
    hide ProgressAt;
    var n := |states| - 1;
    assert CargoAt(r, states, now)[..n] == CargoAt(r, states[..n], now);
  }

  lemma LoadOfLast(r: RouteState, states: seq<PackageState>, k: nat)
    requires states != [] && OnPath(r, states[|states| - 1])
    ensures var n := |states| - 1;
      SegmentLoad(r.path, Loads(states), k)
      == SegmentLoad(r.path, Loads(states[..n]), k)
         + if IndexOf(r.path, states[n].start) <= k < IndexOf(r.path, states[n].end) then states[n].weight else 0.0
  {
    var n := |states| - 1;
    assert Loads(states)[..n] == Loads(states[..n]);
  }

  lemma {:induction false} CargoOnSegment(r: RouteState, states: seq<PackageState>, k: nat, now: Time)
    requires Sound(r) && Shaped(r) && Between(r, k, now) && AllForwards(r, states)
    ensures UnderWay(CargoAt(r, states, now)) == SegmentLoad(r.path, Loads(states), k)
  {
    if states != [] {
      hide CargoAt, UnderWay, SegmentLoad, Loads, ProgressAt, Between, Sound;
      var n := |states| - 1;
      CargoOnSegment(r, states[..n], k, now);
      CargoOfLast(r, states, now);
      LoadOfLast(r, states, k);
      AboardIff(r, states[n], k, now);
    }
  }

  /** While a route is under way, the packages on board weigh exactly the segment load at the last stop reached. */
  lemma CargoIsSegmentLoad(r: RouteState, states: seq<PackageState>, now: Time)
    requires Sound(r) && Shaped(r) && AllForwards(r, states)
    requires r.schedule.Some? && r.schedule.value.departure <= now < FinalArrival(r)
    ensures UnderWay(CargoAt(r, states, now)) == SegmentLoad(r.path, Loads(states), LastReached(r.schedule.value, now))
  {
    CargoOnSegment(r, states, LastReached(r.schedule.value, now), now);
  }

  lemma NotAboard(r: RouteState, p: PackageState, now: Time)
    requires Sound(r) && Shaped(r) && OnPath(r, p) && Forwards(r, p)
    requires r.schedule.None? || now < r.schedule.value.departure || FinalArrival(r) <= now
    ensures ProgressAt(r, p, now).status != MOVING
  {
    if r.schedule.Some? {
      assert At(r, 0) == r.schedule.value.departure;
      StopsInOrder(r, 0, IndexOf(r.path, p.start));
      StopsInOrder(r, IndexOf(r.path, p.end), |r.path| - 1);
    }
  }

  /** Outside its travel window a route carries nothing. */
  lemma {:induction false} NothingOutsideWindow(r: RouteState, states: seq<PackageState>, now: Time)
    requires Sound(r) && Shaped(r) && AllForwards(r, states)
    requires r.schedule.None? || now < r.schedule.value.departure || FinalArrival(r) <= now
    ensures UnderWay(CargoAt(r, states, now)) == 0.0
  {
    if states != [] {
      hide CargoAt, UnderWay, ProgressAt, Sound;
      var n := |states| - 1;
      NothingOutsideWindow(r, states[..n], now);
      CargoOfLast(r, states, now);
      NotAboard(r, states[n], now);
    }
  }

  ghost predicate AllPositive(states: seq<PackageState>) {
    forall k :: 0 <= k < |states| ==> states[k].weight > 0.0
  }

  lemma WithinMaximum(r: RouteState, states: seq<PackageState>, k: nat)
    requires k + 1 < |r.path|
    ensures SegmentLoad(r.path, Loads(states), k) <= MaximumLoad(r.path, Loads(states))
  {
    assert SegmentLoads(r.path, Loads(states))[k] == SegmentLoad(r.path, Loads(states), k);
  }

  /** The maximum segment load is the heaviest cargo ever on board: it is never exceeded, and at some instant reached. */
  lemma HeaviestCargo(r: RouteState, states: seq<PackageState>)
    requires Sound(r) && Shaped(r) && r.schedule.Some? && AllForwards(r, states) && AllPositive(states)
    ensures forall now: Time :: UnderWay(CargoAt(r, states, now)) <= MaximumLoad(r.path, Loads(states))
    ensures exists now: Time :: UnderWay(CargoAt(r, states, now)) == MaximumLoad(r.path, Loads(states))
  {
    hide UnderWay, CargoAt, SegmentLoad;
    var loads := SegmentLoads(r.path, Loads(states));
    forall now: Time ensures UnderWay(CargoAt(r, states, now)) <= MaximumLoad(r.path, Loads(states)) {
      CargoWithinMaximum(r, states, now);
    }
    var k := IndexOf(loads, Greatest(loads));
    StopsApart(r, k);
    CargoOnSegment(r, states, k, At(r, k));
  }

  lemma StopsApart(r: RouteState, k: nat)
    requires Sound(r) && Shaped(r) && r.schedule.Some? && k + 1 < |r.path|
    ensures Between(r, k, At(r, k))
  {
  }

  lemma CargoWithinMaximum(r: RouteState, states: seq<PackageState>, now: Time)
    requires Sound(r) && Shaped(r) && AllForwards(r, states) && AllPositive(states)
    ensures UnderWay(CargoAt(r, states, now)) <= MaximumLoad(r.path, Loads(states))
  {
    hide UnderWay, CargoAt, SegmentLoad, MaximumLoad;
    if r.schedule.Some? && r.schedule.value.departure <= now < FinalArrival(r) {
      CargoIsSegmentLoad(r, states, now);
      WithinMaximum(r, states, LastReached(r.schedule.value, now));
    } else {
      NothingOutsideWindow(r, states, now);
      MaximumLoadWithinTotal(r.path, Loads(states));
    }
  }

  // ----- after a pass

  predicate SameAboard(a: seq<PackageState>, b: seq<PackageState>) {
    |a| == |b| && forall k :: 0 <= k < |a| ==> a[k].status == b[k].status && a[k].weight == b[k].weight
  }

  lemma {:induction false} SameUnderWay(a: seq<PackageState>, b: seq<PackageState>)
    requires SameAboard(a, b)
    ensures UnderWay(a) == UnderWay(b)
  {
    if a != [] {
      SameUnderWay(a[..|a| - 1], b[..|b| - 1]);
    }
  }

  lemma ListedRides(w: World, rid: int)
    requires Linked(w) && rid in w.routes
    ensures Sound(w.routes[rid]) && Shaped(w.routes[rid])
    ensures AllForwards(w.routes[rid], PackagesOf(w, rid)) && AllPositive(PackagesOf(w, rid))
    ensures Loads(PackagesOf(w, rid)) == LoadsOn(w, rid)
  {
    assert RouteLinked(w, rid);
    var ids := w.routes[rid].packages;
    forall k | 0 <= k < |ids| ensures w.packages[ids[k]].weight > 0.0 {
      assert PackageLinked(w, ids[k]);
    }
  }

  lemma AboardAfterPass(w: World, ids: seq<int>, now: Time, rid: int, k: nat)
    requires Linked(w) && Enumerates(ids, w) && rid in w.routes && Visited(w, ids, rid, now) && k < |w.routes[rid].packages|
    ensures var pid, v := w.routes[rid].packages[k], Pass(w, ids, now).0;
      && pid in v.packages && v.packages[pid].weight == w.packages[pid].weight
      && v.packages[pid].status == ProgressAt(w.routes[rid], w.packages[pid], now).status
  {
    hide Linked, Blocked, Pass, ProgressAt, Visited, Shaped;
    LinkedIsClosed(w);
    var pid := w.routes[rid].packages[k];
    VisitedIff(w, ids, rid, now);
    PackageRoute(w, rid, pid);
    PassIsProjection(w, ids, now);
    NotBlocked(w, pid, rid, now);
    assert PackageDone(w, Elements(ids), now, Pass(w, ids, now).0, pid);
  }

  lemma CargoThen(w: World, ids: seq<int>, now: Time, rid: int)
    requires Linked(w) && Enumerates(ids, w) && rid in w.routes && Visited(w, ids, rid, now)
    ensures var v := Pass(w, ids, now).0;
      && Linked(v) && rid in v.routes
      && UnderWay(PackagesOf(v, rid)) == UnderWay(CargoAt(w.routes[rid], PackagesOf(w, rid), now))
  {
    hide UnderWay, Pass, ProgressAt, Linked, Visited, RouteTarget;
    LinkedIsClosed(w);
    PassIsProjection(w, ids, now);
    var v := Pass(w, ids, now).0;
    LinkedIsClosed(v);
    PlanStays(w, ids, now, rid);
    forall k | 0 <= k < |w.routes[rid].packages|
      ensures var a, b := PackagesOf(v, rid)[k], CargoAt(w.routes[rid], PackagesOf(w, rid), now)[k];
        a.status == b.status && a.weight == b.weight
    {
      AboardAfterPass(w, ids, now, rid, k);
    }
    SameUnderWay(PackagesOf(v, rid), CargoAt(w.routes[rid], PackagesOf(w, rid), now));
  }

  lemma PlanStays(w: World, ids: seq<int>, now: Time, rid: int)
    requires Linked(w) && Enumerates(ids, w) && rid in w.routes
    ensures var v := Pass(w, ids, now).0;
      rid in v.routes && v.routes[rid].packages == w.routes[rid].packages && v.routes[rid].path == w.routes[rid].path
  {
    hide Linked, Pass, Visited, Blocked;
    LinkedIsClosed(w);
    PassIsProjection(w, ids, now);
    assert RouteDone(w, Elements(ids), now, Pass(w, ids, now).0, rid);
  }

  /** After a pass the packages on board a visited route weigh its segment load at the last stop reached while it is
      under way, and nothing before departure and from the final arrival on; so its truck carries no more than it can. */
  lemma CargoAfterPass(w: World, ids: seq<int>, now: Time, rid: int)
    requires WellFormed(w) && Enumerates(ids, w) && rid in w.routes && Visited(w, ids, rid, now)
    ensures var r, v := w.routes[rid], Pass(w, ids, now).0;
      && Linked(v) && rid in v.routes
      && UnderWay(PackagesOf(v, rid)) ==
           (if r.schedule.Some? && r.schedule.value.departure <= now < FinalArrival(r)
            then SegmentLoad(r.path, LoadsOn(w, rid), LastReached(r.schedule.value, now)) else 0.0)
      && (r.truck.To? ==> UnderWay(PackagesOf(v, rid)) <= w.trucks[r.truck.id].capacity as real)
  {
    hide UnderWay, CargoAt, SegmentLoad, MaximumLoad, Pass, Linked, AllForwards, AllPositive, Visited;
    WellFormedIsLinked(w);
    var r, states := w.routes[rid], PackagesOf(w, rid);
    CargoThen(w, ids, now, rid);
    ListedRides(w, rid);
    CargoWithinMaximum(r, states, now);
    assert WithinLimits(w, rid);
    if r.schedule.Some? && r.schedule.value.departure <= now < FinalArrival(r) {
      CargoIsSegmentLoad(r, states, now);
    } else {
      NothingOutsideWindow(r, states, now);
    }
  }

  // ----- over whole runs

  /** Every package that is on board the route rides over segment `i` of its path. */
  ghost predicate AllAboardOn(w: World, rid: int, i: nat)
    requires rid in w.routes
  {
    && i + 1 < |w.routes[rid].path|
    && forall pid <- w.packages :: w.packages[pid].route == To(rid) && w.packages[pid].status == MOVING ==>
         OnPath(w.routes[rid], w.packages[pid])
         && IndexOf(w.routes[rid].path, w.packages[pid].start) <= i < IndexOf(w.routes[rid].path, w.packages[pid].end)
  }

  ghost predicate RideTogether(w: World, rid: int)
    requires rid in w.routes
  {
    exists i: nat :: AllAboardOn(w, rid, i)
  }

  /** On every route the packages on board are on board together; so it is when nothing has been picked up. */
  ghost predicate Together(w: World) {
    forall rid {:trigger RideTogether(w, rid)} :: rid in w.routes ==> RideTogether(w, rid)
  }

  /** Packages that ride together weigh no more than the segment they share. */
  lemma {:induction false} UnderWayWithin(r: RouteState, states: seq<PackageState>, i: nat)
    requires AllForwards(r, states) && AllPositive(states)
    requires forall k :: 0 <= k < |states| && states[k].status == MOVING ==>
      IndexOf(r.path, states[k].start) <= i < IndexOf(r.path, states[k].end)
    ensures UnderWay(states) <= SegmentLoad(r.path, Loads(states), i)
  {
    if states != [] {
      hide SegmentLoad, Loads;
      var n := |states| - 1;
      UnderWayWithin(r, states[..n], i);
      LoadOfLast(r, states, i);
    }
  }

  lemma TogetherWithinCapacity(w: World, rid: int)
    requires WellFormed(w) && rid in w.routes && RideTogether(w, rid)
    ensures w.routes[rid].truck.To? ==>
      w.routes[rid].truck.id in w.trucks
      && UnderWay(PackagesOf(w, rid)) <= w.trucks[w.routes[rid].truck.id].capacity as real
  {
    hide UnderWay, SegmentLoad, MaximumLoad, Linked;
    WellFormedIsLinked(w);
    ListedRides(w, rid);
    var i: nat :| AllAboardOn(w, rid, i);
    var r, states := w.routes[rid], PackagesOf(w, rid);
    forall k | 0 <= k < |states| && states[k].status == MOVING
      ensures IndexOf(r.path, states[k].start) <= i < IndexOf(r.path, states[k].end)
    {
      PackageRoute(w, rid, r.packages[k]);
    }
    UnderWayWithin(r, states, i);
    WithinMaximum(r, states, i);
    assert WithinLimits(w, rid);
  }

  /** A package that is on board in `v` was on board the same route in `w`. */
  predicate BoardedBefore(w: World, v: World, pid: int)
    requires pid in v.packages
  {
    v.packages[pid].route.To? && v.packages[pid].status == MOVING ==>
      && pid in w.packages && w.packages[pid].route == v.packages[pid].route && w.packages[pid].status == MOVING
      && w.packages[pid].start == v.packages[pid].start && w.packages[pid].end == v.packages[pid].end
  }

  predicate PathStays(w: World, v: World, rid: int)
    requires rid in v.routes
  {
    rid in w.routes && v.routes[rid].path == w.routes[rid].path
  }

  /** From `w` to `v` no package was picked up and no path changed. */
  ghost predicate NoPickup(w: World, v: World) {
    && (forall rid {:trigger PathStays(w, v, rid)} :: rid in v.routes ==> PathStays(w, v, rid))
    && (forall pid {:trigger BoardedBefore(w, v, pid)} :: pid in v.packages ==> BoardedBefore(w, v, pid))
  }

  lemma NoPickupTwice(w: World, u: World, v: World)
    requires NoPickup(w, u) && NoPickup(u, v)
    ensures NoPickup(w, v)
  {
    forall rid | rid in v.routes ensures PathStays(w, v, rid) {
      assert PathStays(u, v, rid) && PathStays(w, u, rid);
    }
    forall pid | pid in v.packages ensures BoardedBefore(w, v, pid) {
      assert BoardedBefore(u, v, pid) && (pid in u.packages ==> BoardedBefore(w, u, pid));
    }
  }

  lemma StillTogether(w: World, v: World, rid: int)
    requires NoPickup(w, v) && rid in v.routes
    ensures rid in w.routes && (RideTogether(w, rid) ==> RideTogether(v, rid))
  {
    assert PathStays(w, v, rid);
    if RideTogether(w, rid) {
      var i: nat :| AllAboardOn(w, rid, i);
      forall pid <- v.packages ensures BoardedBefore(w, v, pid) {}
      assert AllAboardOn(v, rid, i);
    }
  }

  lemma AssignedPicksUpNothing(w: World, rid: int, pid: int, now: Time)
    requires Linked(w) && Ready(w) && rid in w.routes
    ensures NoPickup(w, AssignOne(w, rid, pid, now))
  {
    hide AssignOne, AssignOutcomeOf;
    PackageTaken(w, rid, pid, now);
  }

  lemma {:induction false} BatchPicksUpNothing(w: World, rid: int, ids: seq<int>, now: Time, failing: set<int>)
    requires WellFormed(w) && Ready(w) && rid in w.routes
    ensures NoPickup(w, AssignAll(w, rid, ids, now, failing).world)
  {
    if ids != [] {
      hide AssignOne, AssignOutcomeOf, NoPickup, WellFormed, Ready;
      var n := |ids| - 1;
      var before := AssignAll(w, rid, ids[..n], now, failing);
      BatchPicksUpNothing(w, rid, ids[..n], now, failing);
      BatchWellFormed(w, rid, ids[..n], now, failing);
      WellFormedIsLinked(before.world);
      AssignedPicksUpNothing(before.world, rid, ids[n], now);
      NoPickupTwice(w, before.world, AssignOne(before.world, rid, ids[n], now));
    } else {
      assert NoPickup(w, w);
    }
  }

  lemma TruckPicksUpNothing(w: World, rid: int, tid: int, now: Time, commits: bool)
    requires Closed(w)
    ensures NoPickup(w, AssignTruck(w, rid, tid, now, commits))
  {
    hide Suitability;
  }

  lemma RemovalPicksUpNothing(w: World, pid: int, now: Time, commits: bool)
    requires Linked(w)
    ensures NoPickup(w, RemovePackage(w, pid, now, commits))
  {
    hide RemovePackage;
    var v := RemovePackage(w, pid, now, commits);
    if pid in w.packages {
      RemovalShape(w, pid, now, commits);
      forall rid | rid in v.routes ensures PathStays(w, v, rid) {
        assert v.routes[rid].(packages := [], events := []) == w.routes[rid].(packages := [], events := []);
      }
      forall other | other in v.packages ensures BoardedBefore(w, v, other) {
        if other == pid {
          assert v.packages[pid].(arrival := None) == w.packages[pid].(arrival := None);
        }
      }
    } else {
      MissingPackage(w, pid, now, commits);
    }
  }

  lemma RouteRemovalPicksUpNothing(w: World, rid: int, now: Time, commits: bool)
    requires Linked(w)
    ensures NoPickup(w, RemoveRoute(w, rid, now, commits))
  {
    hide StrippedRoute, FreedTruck;
  }

  lemma UseCasePicksUpNothing(w: World, q: Request)
    requires WellFormed(w) && !q.Beat?
    ensures NoPickup(w, Handle(w, q))
  {
    hide Linked, AssignAll, AssignTruck, RemovePackage, RemoveRoute, Safe, AllDerived, Unique;
    WellFormedIsLinked(w);
    match q
    case AssignPackagesTo(rid, ids, now, failing) =>
      LinkedReady(w);
      if rid in w.routes { BatchPicksUpNothing(w, rid, Unique(ids), now, failing); }
    case AssignTruckTo(rid, tid, now, commits) => TruckPicksUpNothing(w, rid, tid, now, commits);
    case RemovePackageOf(pid, now, commits) => RemovalPicksUpNothing(w, pid, now, commits);
    case RemoveRouteOf(rid, now, commits) => RouteRemovalPicksUpNothing(w, rid, now, commits);
    case Beat(_, _, _) => assert false;
  }

  // ----- heartbeats

  /** A package that a pass leaves on board rides over the segment its route is on. */
  lemma AboardThen(w: World, ids: seq<int>, now: Time, rid: int, pid: int)
    requires Linked(w) && Enumerates(ids, w) && rid in w.routes && Visited(w, ids, rid, now)
    requires pid in Pass(w, ids, now).0.packages
    requires var p := Pass(w, ids, now).0.packages[pid]; p.route == To(rid) && p.status == MOVING
    ensures var r, p := w.routes[rid], Pass(w, ids, now).0.packages[pid];
      && r.schedule.Some? && r.schedule.value.departure <= now < FinalArrival(r) && OnPath(r, p)
      && IndexOf(r.path, p.start) <= LastReached(r.schedule.value, now) < IndexOf(r.path, p.end)
  {
    hide Pass, Linked, Visited, OverdueSteps, LastReached, Carried, Forwards, Sound, Shaped, FinalArrival;
    LinkedIsClosed(w);
    SamePackages(w, ids, now);
    PassOnPackage(w, ids, now, pid);
    RidesOnRoute(w, pid);
    WindowOf(w.routes[rid], w.packages[pid], Pass(w, ids, now).0.packages[pid], now);
  }

  lemma SamePackages(w: World, ids: seq<int>, now: Time)
    requires Linked(w) && Enumerates(ids, w)
    ensures Pass(w, ids, now).0.packages.Keys == w.packages.Keys
  {
    hide Pass, Linked;
    LinkedIsClosed(w);
    PassIsProjection(w, ids, now);
  }

  lemma WindowOf(r: RouteState, p: PackageState, later: PackageState, now: Time)
    requires Sound(r) && Shaped(r) && OnPath(r, p) && Forwards(r, p) && Carried(r, p, later, now) && later.status == MOVING
    ensures r.schedule.Some? && r.schedule.value.departure <= now < FinalArrival(r)
    ensures IndexOf(r.path, p.start) <= LastReached(r.schedule.value, now) < IndexOf(r.path, p.end)
  {
    var i, j := IndexOf(r.path, p.start), IndexOf(r.path, p.end);
    StopsInOrder(r, 0, i);
    StopsInOrder(r, j, |r.path| - 1);
    LastReachedIs(r, now, i);
    LastReachedIs(r, now, j);
  }

  /** A pass brings the packages of a visited route together on the segment its route is on. */
  lemma VisitedTogether(w: World, ids: seq<int>, now: Time, rid: int)
    requires Linked(w) && Enumerates(ids, w) && rid in w.routes && Visited(w, ids, rid, now)
    ensures rid in Pass(w, ids, now).0.routes && RideTogether(Pass(w, ids, now).0, rid)
  {
    hide Pass, Linked, Visited, LastReached;
    LinkedIsClosed(w);
    var r, v := w.routes[rid], Pass(w, ids, now).0;
    PlanStays(w, ids, now, rid);
    var i := SegmentAt(r, now);
    forall pid <- v.packages | v.packages[pid].route == To(rid) && v.packages[pid].status == MOVING
      ensures OnPath(r, v.packages[pid]) && IndexOf(r.path, v.packages[pid].start) <= i < IndexOf(r.path, v.packages[pid].end)
    {
      AboardThen(w, ids, now, rid, pid);
    }
    assert AllAboardOn(v, rid, i);
  }

  /** The segment a route is on at an instant, the first one outside its travel window. */
  function SegmentAt(r: RouteState, now: Time): (i: nat)
    requires Shaped(r)
    ensures i + 1 < |r.path|
  {
    if r.schedule.Some? && r.schedule.value.departure <= now < FinalArrival(r) then LastReached(r.schedule.value, now) else 0
  }

  /** The pass leaves a package alone whose route it does not visit. */
  lemma UnvisitedPackage(w: World, ids: seq<int>, now: Time, rid: int, pid: int)
    requires Linked(w) && Enumerates(ids, w) && rid in w.routes && !Visited(w, ids, rid, now)
    requires pid in Pass(w, ids, now).0.packages && Pass(w, ids, now).0.packages[pid].route == To(rid)
    ensures pid in w.packages && Pass(w, ids, now).0.packages[pid] == w.packages[pid]
  {
    hide Pass, Linked, Visited, Carried, OverdueSteps;
    SamePackages(w, ids, now);
    PassOnPackage(w, ids, now, pid);
  }

  lemma UnvisitedTogether(w: World, ids: seq<int>, now: Time, rid: int)
    requires Linked(w) && Enumerates(ids, w) && rid in w.routes && !Visited(w, ids, rid, now) && RideTogether(w, rid)
    ensures rid in Pass(w, ids, now).0.routes && RideTogether(Pass(w, ids, now).0, rid)
  {
    hide Pass, Linked, Visited;
    LinkedIsClosed(w);
    var v := Pass(w, ids, now).0;
    PlanStays(w, ids, now, rid);
    var i: nat :| AllAboardOn(w, rid, i);
    forall pid <- v.packages | v.packages[pid].route == To(rid)
      ensures pid in w.packages && v.packages[pid] == w.packages[pid]
    {
      UnvisitedPackage(w, ids, now, rid, pid);
    }
    assert AllAboardOn(v, rid, i);
  }

  /** After a pass that visits every route the packages on board each route are on board together, whatever their status
      was before. */
  lemma PassBringsTogether(w: World, ids: seq<int>, now: Time)
    requires Linked(w) && Enumerates(ids, w)
    requires forall rid <- w.routes :: Shaped(w.routes[rid]) && Visited(w, ids, rid, now)
    ensures Together(Pass(w, ids, now).0)
  {
    hide Pass, Linked, Visited, RideTogether;
    LinkedIsClosed(w);
    PassIsProjection(w, ids, now);
    forall rid | rid in Pass(w, ids, now).0.routes ensures RideTogether(Pass(w, ids, now).0, rid) {
      VisitedTogether(w, ids, now, rid);
    }
  }

  // ----- runs

  lemma BeatTogether(w: World, ids: seq<int>, now: Time, commits: bool)
    requires Linked(w) && Together(w) && Enumerates(ids, w)
    ensures Together(Heartbeat(w, ids, now, commits))
  {
    hide Pass, Linked, Visited, RideTogether;
    LinkedIsClosed(w);
    PassIsProjection(w, ids, now);
    var v := Pass(w, ids, now).0;
    forall rid | rid in v.routes ensures RideTogether(v, rid) {
      assert RideTogether(w, rid);
      if Visited(w, ids, rid, now) { VisitedTogether(w, ids, now, rid); } else { UnvisitedTogether(w, ids, now, rid); }
    }
  }

  lemma HandleTogether(w: World, q: Request)
    requires WellFormed(w) && Together(w)
    ensures Together(Handle(w, q))
  {
    hide Linked, AssignAll, AssignTruck, RemovePackage, RemoveRoute, Safe, AllDerived, Unique, RideTogether, Heartbeat,
      Enumerates, NoPickup;
    WellFormedIsLinked(w);
    if q.Beat? {
      if Enumerates(q.order, w) { BeatTogether(w, q.order, q.now, q.commits); }
    } else {
      UseCasePicksUpNothing(w, q);
      forall rid | rid in Handle(w, q).routes ensures RideTogether(Handle(w, q), rid) {
        StillTogether(w, Handle(w, q), rid);
      }
    }
  }

  lemma {:induction false} RunsStayTogether(w: World, requests: seq<Request>)
    requires WellFormed(w) && Together(w)
    ensures Together(Run(w, requests))
  {
    if requests != [] {
      hide WellFormed, Handle, Together;
      RunsStayTogether(w, requests[..|requests| - 1]);
      HandleTogether(Run(w, requests[..|requests| - 1]), requests[|requests| - 1]);
    }
  }

  /** In every state of every run the packages on board a route weigh no more than its truck can carry: whatever was
      assigned, removed, rolled back or reconciled before, and whether or not a pass has caught up with the time. */
  lemma RunsCarryWithinCapacity(w: World, requests: seq<Request>, rid: int)
    requires WellFormed(w) && Together(w)
    ensures var v := Run(w, requests);
      Linked(v) && (rid in v.routes && v.routes[rid].truck.To? ==>
        v.routes[rid].truck.id in v.trucks
        && UnderWay(PackagesOf(v, rid)) <= v.trucks[v.routes[rid].truck.id].capacity as real)
  {
    hide WellFormed, Linked, RideTogether, UnderWay, Handle;
    var v := Run(w, requests);
    WellFormedIsLinked(v);
    RunsStayTogether(w, requests);
    if rid in v.routes {
      assert RideTogether(v, rid);
      TogetherWithinCapacity(v, rid);
    }
  }
}
