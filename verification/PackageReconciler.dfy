/** Reconciling the packages of a route, one after another. */
module PackageReconciler {
  import opened Common
  import opened CityMap
  import opened RouteSchedules
  import opened Fleet
  import opened Reconciliation
  import opened RepeatLaws
  import opened Assignments
  import opened Entities

  /** Puts a package back to waiting at its start. */
  method RestoreBeforePickup(p: DeliveryPackage) returns (changed: bool)
    modifies p`status, p`location
    ensures p.status == TODO && p.location == p.start
    ensures changed <==> old(p.status) != TODO || old(p.location) != p.start
  {
    changed := false;
    if p.status != TODO {
      p.status := TODO;
      changed := true;
    }
    if p.location != p.start {
      p.location := p.start;
      changed := true;
    }
  }

  /** Takes the overdue pickup and delivery steps of a package whose delivery time has passed. */
  method CompleteLifecycle(p: DeliveryPackage, pickup: Time, delivery: Time)
    returns (ok: bool, changed: bool, repaired: bool)
    modifies p`status, p`location, p`events
    ensures ok <==> old(p.status) == DONE || p.routeId.To?
    ensures ok ==> p.status == DONE && p.location == p.end
    ensures ok ==> (changed <==> old(p.status) != DONE || old(p.location) != p.end)
    ensures ok ==> (repaired <==> old(p.status) == DONE && old(p.location) != p.end)
    ensures p.events == old(p.events) + (
      if ok && old(p.status) == TODO
      then [PackagePickedUp(p.packageId, p.routeId.id, TODO, MOVING, old(p.location), p.start, p.arrival, pickup)]
      else []) + (
      if ok && old(p.status) != DONE
      then [PackageDelivered(p.packageId, p.routeId.id, MOVING, DONE, if old(p.status) == TODO then p.start else old(p.location),
                             p.end, p.arrival, delivery)]
      else [])
  {
    ok, changed, repaired := true, false, false;
    if p.status == TODO {
      ok := p.MarkPickedUp(pickup);
      if !ok {
        return;
      }
      changed := true;
    }
    if p.status == MOVING {
      ok := p.MarkDelivered(delivery);
      if !ok {
        return;
      }
      changed := true;
    }
    if p.location != p.end {
      p.location := p.end;
      changed, repaired := true, true;
    }
  }

  /** Reconciles a package inside its travel window to the city its route has reached. */
  method AdvanceInProgress(p: DeliveryPackage, pickup: Time, city: LocationCode)
    returns (ok: bool, changed: bool, reasons: seq<PackageReason>)
    modifies p`status, p`location, p`events
    ensures ok <==> old(p.status) != TODO || p.routeId.To?
    ensures ok ==> p.status == MOVING && p.location == city
    ensures ok ==> (changed <==> old(p.status) != MOVING || old(p.location) != city)
    ensures reasons == (
      if ok && old(p.status) == DONE then [LIFECYCLE_STATE_INCONSISTENT] else []) + (
      if ok && (if old(p.status) == TODO then p.start else old(p.location)) != city then [ROUTE_PROGRESS_ADVANCED] else [])
    ensures p.events == old(p.events) + (
      if ok && old(p.status) == TODO
      then [PackagePickedUp(p.packageId, p.routeId.id, TODO, MOVING, old(p.location), p.start, p.arrival, pickup)]
      else [])
  {
    ok, changed, reasons := true, false, [];
    if p.status == TODO {
      ok := p.MarkPickedUp(pickup);
      if !ok {
        return;
      }
      changed := true;
    } else if p.status != MOVING {
      p.status := MOVING;
      reasons := [LIFECYCLE_STATE_INCONSISTENT];
      changed := true;
    }
    if p.location != city {
      p.location := city;
      reasons := reasons + [ROUTE_PROGRESS_ADVANCED];
      changed := true;
    }
  }

  /** Scheduled arrival of every city of a scheduled route. */
  ghost predicate StopTimes(r: RouteState, stopTimes: map<LocationCode, Time>)
    requires Shaped(r)
  {
    r.schedule.Some? ==> forall city :: city in r.path ==> city in stopTimes && stopTimes[city] == StopTime(r, city)
  }

  method ComputeStopTimes(route: DeliveryRoute) returns (stopTimes: map<LocationCode, Time>)
    requires route.Valid()
    ensures StopTimes(route.State(), stopTimes)
  {
    stopTimes := map[];
    if route.schedule.None? {
      return;
    }
    for i := 0 to |route.path|
      invariant forall j :: 0 <= j < i ==>
        route.path[j] in stopTimes && stopTimes[route.path[j]] == StopTime(route.State(), route.path[j])
    {
      StopOnPath(route.path, route.schedule.value, route.path[i]);
      var arrival := ArrivalTimeAt(route.schedule.value, route.path[i]);
      stopTimes := stopTimes[route.path[i] := arrival.value];
    }
  }

  /** A stop has been reached exactly when it is not after the last one reached. */
  lemma ReachedIff(r: RouteState, now: Time, i: nat)
    requires Sound(r) && Shaped(r) && r.schedule.Some? && i < |r.path| && r.schedule.value.departure <= now
    ensures r.schedule.value.stops[i].arrivalAt <= now <==> i <= LastReached(r.schedule.value, now)
  {
    LastReachedIs(r, now, i);
  }

  /** A city of the path is still ahead exactly when the route has not reached its position. */
  lemma ScanStep(r: RouteState, stopTimes: map<LocationCode, Time>, now: Time, i: nat)
    requires Sound(r) && Shaped(r) && r.schedule.Some? && i < |r.path| && r.schedule.value.departure <= now
    requires StopTimes(r, stopTimes)
    ensures r.path[i] in stopTimes && (now < stopTimes[r.path[i]] <==> i > LastReached(r.schedule.value, now))
  {
    IndexOfIsUnique(r.path, i);
    ReachedIff(r, now, i);
  }

  /** Inside its window a package's route has reached the start and not the end. */
  lemma WindowReached(r: RouteState, start: LocationCode, end: LocationCode, now: Time)
    requires Sound(r) && Shaped(r) && r.schedule.Some? && start in r.path && end in r.path
    requires StopTime(r, start) <= now < StopTime(r, end)
    ensures r.schedule.value.departure <= now
    ensures IndexOf(r.path, start) <= LastReached(r.schedule.value, now) < IndexOf(r.path, end)
  {
    hide LastReached;
    StopsInOrder(r, 0, IndexOf(r.path, start));
    ReachedIff(r, now, IndexOf(r.path, start));
    ReachedIff(r, now, IndexOf(r.path, end));
  }

  lemma ValidIsSound(route: DeliveryRoute)
    requires route.Valid()
    ensures Sound(route.State()) && Shaped(route.State())
  {
  }

  /** Scans the package's part of the route for the latest city reached. */
  method LastReachedCity(route: DeliveryRoute, start: LocationCode, end: LocationCode,
                         stopTimes: map<LocationCode, Time>, now: Time) returns (city: LocationCode)
    requires route.Valid() && route.schedule.Some? && StopTimes(route.State(), stopTimes)
    requires start in route.path && end in route.path
    requires StopTime(route.State(), start) <= now < StopTime(route.State(), end)
    ensures city == route.path[LastReached(route.schedule.value, now)]
  {
    hide LastReached, StopTimes, StopTime, Sound, DeliveryRoute.Valid;
    ValidIsSound(route);
    WindowReached(route.State(), start, end, now);
    ghost var r, k := route.State(), LastReached(route.schedule.value, now);
    var first, last := IndexOf(route.path, start), IndexOf(route.path, end);
    city := start;
    for i := first to last + 1
      invariant first <= i <= k + 1
      invariant city == route.path[if i == first then first else i - 1]
    {
      ScanStep(r, stopTimes, now, i);
      if now < stopTimes[route.path[i]] {
        break;
      }
      city := route.path[i];
    }
  }

  /** Steps a travelling package through pickup, progress and delivery, its arrival aside. */
  method StepPackage(route: DeliveryRoute, p: DeliveryPackage, stopTimes: map<LocationCode, Time>, now: Time)
    returns (ok: bool, changed: bool, reasons: seq<PackageReason>)
    requires route.Valid() && StopTimes(route.State(), stopTimes) && Travels(route.State(), p.State())
    modifies p`status, p`location, p`events
    ensures ok <==> !PackageBlocked(route.State(), old(p.State()), now)
    ensures ok ==> p.State() == PackageAfter(route.State(), p.packageId, old(p.State()), now).(arrival := p.arrival)
    ensures ok ==> (changed <==> old(p.status) != p.status || old(p.location) != p.location)
    ensures ok ==> reasons == StepReasons(route.State(), old(p.State()), now)
    ensures !ok ==> p.events == old(p.events)
  {
    StopsInOrder(route.State(), IndexOf(route.path, p.start), IndexOf(route.path, p.end));
    var pickup, delivery := stopTimes[p.start], stopTimes[p.end];
    if now < pickup {
      changed := RestoreBeforePickup(p);
      ok, reasons := true, if changed then [BEFORE_SCHEDULED_PICKUP] else [];
    } else if now >= delivery {
      var repaired;
      ok, changed, repaired := CompleteLifecycle(p, pickup, delivery);
      reasons := if repaired then [LIFECYCLE_STATE_INCONSISTENT] else [];
    } else {
      var city := LastReachedCity(route, p.start, p.end, stopTimes, now);
      ok, changed, reasons := AdvanceInProgress(p, pickup, city);
    }
  }

  /** Takes a package that cannot travel on this route back to its start, with no arrival. */
  method RestoreOffRoute(p: DeliveryPackage, unscheduled: bool) returns (changed: bool, reasons: seq<PackageReason>)
    modifies p`status, p`location, p`arrival
    ensures p.status == TODO && p.location == p.start && p.arrival == None
    ensures changed <==> ProgressOf(old(p.State())) != Progress(TODO, p.start, None)
    ensures reasons == (if old(p.arrival).Some? then [EXPECTED_ARRIVAL_RECALCULATED] else []) + (
      if changed then [if unscheduled then ROUTE_UNSCHEDULED else ROUTE_PATH_INVALID] else [])
  {
    reasons := [];
    changed := RestoreBeforePickup(p);
    if p.arrival.Some? {
      p.arrival := None;
      reasons := [EXPECTED_ARRIVAL_RECALCULATED];
      changed := true;
    }
    if changed {
      reasons := reasons + [if unscheduled then ROUTE_UNSCHEDULED else ROUTE_PATH_INVALID];
    }
  }

  /** Steps a travelling package and refreshes its arrival. */
  method StepWithArrival(route: DeliveryRoute, p: DeliveryPackage, stopTimes: map<LocationCode, Time>, now: Time)
    returns (ok: bool, changed: bool, reasons: seq<PackageReason>)
    requires route.Valid() && StopTimes(route.State(), stopTimes) && Travels(route.State(), p.State())
    modifies p`status, p`location, p`arrival, p`events
    ensures ok <==> !PackageBlocked(route.State(), old(p.State()), now)
    ensures ok ==> p.State() == PackageAfter(route.State(), p.packageId, old(p.State()), now)
    ensures ok ==> (changed <==> ProgressOf(old(p.State())) != ProgressAt(route.State(), old(p.State()), now))
    ensures ok ==> reasons == Reasons(route.State(), old(p.State()), now)
    ensures !ok ==> p.events == old(p.events)
  {
    ok, changed, reasons := StepPackage(route, p, stopTimes, now);
    if !ok {
      return;
    }
    var delivery := Some(stopTimes[p.end]);
    if p.arrival != delivery {
      p.arrival := delivery;
      reasons := reasons + [EXPECTED_ARRIVAL_RECALCULATED];
      changed := true;
    }
  }

  lemma OffRoute(r: RouteState, pid: int, p: PackageState, now: Time)
    requires Shaped(r) && !Travels(r, p)
    ensures !PackageBlocked(r, p, now)
    ensures PackageAfter(r, pid, p, now) == p.(status := TODO, location := p.start, arrival := None)
  {
    assert p.events + [] == p.events;
  }

  /** Reconciles one package of a route, or fails when a lifecycle step is due and it does not know its route. */
  method ReconcilePackage(route: DeliveryRoute, p: DeliveryPackage, stopTimes: map<LocationCode, Time>, now: Time)
    returns (ok: bool, changed: bool, corrections: seq<Correction>)
    requires route.Valid() && StopTimes(route.State(), stopTimes)
    modifies p`status, p`location, p`arrival, p`events
    ensures ok <==> !PackageBlocked(route.State(), old(p.State()), now)
    ensures ok ==> p.State() == PackageAfter(route.State(), p.packageId, old(p.State()), now)
    ensures ok ==> (changed <==> ProgressOf(old(p.State())) != ProgressAt(route.State(), old(p.State()), now))
    ensures ok ==> corrections == PackageCorrections(route.routeId, route.State(), p.packageId, old(p.State()), now)
    ensures !ok ==> p.events == old(p.events)
  {
    var before := p.State();
    var reasons: seq<PackageReason>;
    var pickup, delivery: Option<Time> := None, None;
    corrections := [];
    if route.schedule.None? || p.start !in route.path || p.end !in route.path
       || IndexOf(route.path, p.start) > IndexOf(route.path, p.end)
    {
      OffRoute(route.State(), p.packageId, before, now);
      changed, reasons := RestoreOffRoute(p, route.schedule.None?);
      ok := true;
    } else {
      pickup, delivery := Some(stopTimes[p.start]), Some(stopTimes[p.end]);
      ok, changed, reasons := StepWithArrival(route, p, stopTimes, now);
    }
    if ok && reasons != [] {
      corrections := [PackageStateReconciled(p.packageId, route.routeId, before.status, p.status, before.location, p.location,
                                             before.arrival, p.arrival, pickup, delivery, reasons, now)];
    }
  }

  /** The scheduled state of a package, or its old one when it cannot be brought there. */
  ghost function Outcome(r: RouteState, pid: int, p: PackageState, now: Time): PackageState
    requires Shaped(r)
  {
    if PackageBlocked(r, p, now) then p else PackageAfter(r, pid, p, now)
  }

  ghost predicate InStates(list: seq<DeliveryPackage>, states: seq<PackageState>)
    reads list
  {
    |states| == |list| && forall k {:trigger list[k]} {:trigger states[k]} :: 0 <= k < |list| ==> list[k].State() == states[k]
  }

  /** The states once the first `n` packages have been reconciled. */
  ghost function Outcomes(r: RouteState, ids: seq<int>, states: seq<PackageState>, n: nat, now: Time): (s: seq<PackageState>)
    requires Shaped(r) && |ids| == |states|
    ensures |s| == |states|
    ensures forall k :: 0 <= k < |s| ==> s[k] == (if k < n then Outcome(r, ids[k], states[k], now) else states[k])
  {
    seq(|ids|, k requires 0 <= k < |ids| => if k < n then Outcome(r, ids[k], states[k], now) else states[k])
  }

  lemma NextOutcome(r: RouteState, ids: seq<int>, states: seq<PackageState>, n: nat, now: Time)
    requires Shaped(r) && |ids| == |states| && n < |states|
    ensures Outcomes(r, ids, states, n, now)[n := Outcome(r, ids[n], states[n], now)] == Outcomes(r, ids, states, n + 1, now)
  {
  }

  /** No recorded event was lost. */
  ghost predicate EventsKept(states: seq<PackageState>, list: seq<DeliveryPackage>)
    requires |states| == |list|
    reads list
  {
    forall k {:trigger list[k]} {:trigger states[k]} :: 0 <= k < |list| ==> states[k].events <= list[k].events
  }

  lemma OutcomesKeepEvents(r: RouteState, ids: seq<int>, states: seq<PackageState>, n: nat, now: Time, list: seq<DeliveryPackage>)
    requires Shaped(r) && |ids| == |states| == |list|
    requires EventsKept(Outcomes(r, ids, states, n, now), list)
    ensures EventsKept(states, list)
  {
    forall k | 0 <= k < |list| ensures states[k].events <= list[k].events {
      assert Outcomes(r, ids, states, n, now)[k].events <= list[k].events;
    }
  }

  /** Reconciles the package at position `i` of a list. */
  method ReconcileListed(route: DeliveryRoute, p: DeliveryPackage, stopTimes: map<LocationCode, Time>, now: Time,
                         ghost list: seq<DeliveryPackage>, ghost i: nat, ghost states: seq<PackageState>)
    returns (ok: bool, changed: bool, corrections: seq<Correction>)
    requires route.Valid() && StopTimes(route.State(), stopTimes)
    requires i < |list| && p == list[i] && NoDup(list) && InStates(list, states)
    modifies p`status, p`location, p`arrival, p`events
    ensures ok <==> !PackageBlocked(route.State(), states[i], now)
    ensures ok ==> InStates(list, states[i := Outcome(route.State(), p.packageId, states[i], now)])
    ensures ok ==> (changed <==> ProgressOf(states[i]) != ProgressAt(route.State(), states[i], now))
    ensures ok ==> corrections == PackageCorrections(route.routeId, route.State(), p.packageId, states[i], now)
    ensures !ok ==> EventsKept(states, list)
  {
    ok, changed, corrections := ReconcilePackage(route, p, stopTimes, now);
    forall k | 0 <= k < |list| && k != i ensures list[k].State() == states[k] {
      assert list[k] != list[i];
    }
  }

  /** Reconciles the next package of a list whose first `i` packages are done, and says what that adds to the report. */
  method ReconcileNext(route: DeliveryRoute, p: DeliveryPackage, stopTimes: map<LocationCode, Time>, now: Time,
                       ghost list: seq<DeliveryPackage>, ghost i: nat, ghost states: seq<PackageState>)
    returns (ok: bool, changed: seq<int>, corrections: seq<Correction>)
    requires route.Valid() && StopTimes(route.State(), stopTimes)
    requires |states| == |list| && i < |list| && p == list[i] && NoDup(list)
    requires InStates(list, Outcomes(route.State(), PackageIds(list), states, i, now))
    modifies p`status, p`location, p`arrival, p`events
    ensures ok <==> !PackageBlocked(route.State(), states[i], now)
    ensures ok ==> InStates(list, Outcomes(route.State(), PackageIds(list), states, i + 1, now))
    ensures ok ==> changed == ChangedIds(route.State(), PackageIds(list), states, now)[i]
    ensures ok ==> corrections == CorrectionsByPackage(route.routeId, route.State(), PackageIds(list), states, now)[i]
    ensures !ok ==> EventsKept(states, list)
  {
    hide Outcome, PackageBlocked, PackageCorrections, ProgressAt, NoDup, InStates, EventsKept, Outcomes, ChangedIds,
         CorrectionsByPackage;
    ghost var r, ids := route.State(), PackageIds(list);
    var moved;
    ok, moved, corrections := ReconcileListed(route, p, stopTimes, now, list, i, Outcomes(r, ids, states, i, now));
    changed := if moved then [p.packageId] else [];
    if ok {
      NextOutcome(r, ids, states, i, now);
    } else {
      OutcomesKeepEvents(r, ids, states, i, now, list);
    }
  }

  /** Reconciles every package of a list in order, stopping at the first that fails. `states` are those before the
      pass, `moves` and `repairs` what each package is to report. */
  method ReconcileList(route: DeliveryRoute, list: seq<DeliveryPackage>, now: Time, ghost states: seq<PackageState>,
                       ghost moves: seq<seq<int>>, ghost repairs: seq<seq<Correction>>)
    returns (ok: bool, changed: seq<int>, corrections: seq<Correction>)
    requires route.Valid() && NoDup(list) && InStates(list, states)
    requires moves == ChangedIds(route.State(), PackageIds(list), states, now)
    requires repairs == CorrectionsByPackage(route.routeId, route.State(), PackageIds(list), states, now)
    modifies list`status, list`location, list`arrival, list`events
    ensures ok <==> forall k :: 0 <= k < |states| ==> !PackageBlocked(route.State(), states[k], now)
    ensures ok ==> InStates(list, Outcomes(route.State(), PackageIds(list), states, |list|, now))
    ensures ok ==> changed == Concat(moves[..|list|]) && corrections == Concat(repairs[..|list|])
    ensures !ok ==> EventsKept(states, list)
  {
    changed, corrections := [], [];
    ghost var r, ids := route.State(), PackageIds(list);
    assert InStates(list, Outcomes(r, ids, states, 0, now));
    var stopTimes := ComputeStopTimes(route);
    assert Concat(moves[..0]) == [] && Concat(repairs[..0]) == [];
    hide Outcome, PackageBlocked, InStates, EventsKept, Outcomes, ChangedIds, CorrectionsByPackage,
         PackageCorrections, ProgressAt,
         Concat, StopTimes;
    for i := 0 to |list|
      invariant InStates(list, Outcomes(r, ids, states, i, now))
      invariant forall k :: 0 <= k < i ==> !PackageBlocked(r, states[k], now)
      invariant changed == Concat(moves[..i]) && corrections == Concat(repairs[..i])
    {
      ConcatNext(moves, i);
      ConcatNext(repairs, i);
      var moved, reasons;
      ok, moved, reasons := ReconcileNext(route, list[i], stopTimes, now, list, i, states);
      if !ok {
        return;
      }
      changed, corrections := changed + moved, corrections + reasons;
    }
    ok := true;
  }

  /** Reconciles the packages of a route; `states` are those before the pass. */
  method ReconcilePackages(route: DeliveryRoute, now: Time, ghost states: seq<PackageState>)
    returns (ok: bool, changed: seq<int>, corrections: seq<Correction>)
    requires route.Valid() && InStates(route.packages, states)
    modifies route.packages`status, route.packages`location, route.packages`arrival, route.packages`events
    ensures ok <==> forall k :: 0 <= k < |states| ==> !PackageBlocked(route.State(), states[k], now)
    ensures ok ==> InStates(route.packages, Outcomes(route.State(), PackageIds(route.packages), states, |states|, now))
    ensures ok ==> changed == Concat(ChangedIds(route.State(), PackageIds(route.packages), states, now))
    ensures ok ==>
      corrections == Concat(CorrectionsByPackage(route.routeId, route.State(), PackageIds(route.packages), states, now))
    ensures !ok ==> EventsKept(states, route.packages)
  {
    IdsApart(route.packages);
    ghost var moves := ChangedIds(route.State(), PackageIds(route.packages), states, now);
    ghost var repairs := CorrectionsByPackage(route.routeId, route.State(), PackageIds(route.packages), states, now);
    ok, changed, corrections := ReconcileList(route, route.packages, now, states, moves, repairs);
    WholeSlice(moves);
    WholeSlice(repairs);
  }
}
