/** What a pass makes of every route, truck and package of a linked world, read off the stops of the schedule. */
module PassOutcomes {
  import opened Common
  import opened CityMap
  import opened RouteSchedules
  import opened Fleet
  import opened Reconciliation
  import opened ReconciliationLaws
  import opened Projection
  import opened RepeatLaws
  import opened Assignments

  // ----- reading a schedule

  /** The scheduled arrival at stop `k`. */
  function At(r: RouteState, k: nat): Time
    requires Shaped(r) && r.schedule.Some? && k < |r.path|
  {
    r.schedule.value.stops[k].arrivalAt
  }

  /** The scheduled arrival at a stop of the path. */
  function ArrivalAt(r: RouteState, city: LocationCode): Time
    requires Shaped(r) && r.schedule.Some? && city in r.path
  {
    At(r, IndexOf(r.path, city))
  }

  function FinalArrival(r: RouteState): Time
    requires Shaped(r) && r.schedule.Some?
  {
    At(r, |r.path| - 1)
  }

  /** The route is between stop `k`, which it has reached, and the next. */
  predicate Between(r: RouteState, k: nat, now: Time)
    requires Shaped(r)
  {
    r.schedule.Some? && k + 1 < |r.path| && At(r, k) <= now < At(r, k + 1)
  }

  /** The pass over the route takes place: it is one of those listed, and not completed inside its travel window. */
  predicate Visited(w: World, ids: seq<int>, rid: int, now: Time)
    requires rid in w.routes && Shaped(w.routes[rid])
  {
    var r := w.routes[rid];
    rid in ids && !(r.status == COMPLETED && r.schedule.Some? && r.schedule.value.departure <= now < FinalArrival(r))
  }

  lemma BetweenIsLast(r: RouteState, k: nat, now: Time)
    requires Sound(r) && Shaped(r) && Between(r, k, now)
    ensures LastReached(r.schedule.value, now) == k
    ensures r.schedule.value.departure <= now < FinalArrival(r)
  {
    LastReachedIs(r, now, k);
    LastReachedIs(r, now, k + 1);
    StopsInOrder(r, 0, k);
    StopsInOrder(r, k + 1, |r.path| - 1);
  }

  lemma VisitedIff(w: World, ids: seq<int>, rid: int, now: Time)
    requires Linked(w) && rid in w.routes
    ensures Sound(w.routes[rid]) && Shaped(w.routes[rid])
    ensures Visited(w, ids, rid, now) <==> rid in ids && !Blocked(w, rid, now)
  {
    assert RouteLinked(w, rid);
    BlockedIff(w, rid, now);
    hide Blocked;
  }

  // ----- routes

  function StatusThen(r: RouteState, now: Time): RouteStatus
    requires Shaped(r)
  {
    if r.schedule.None? then PLANNED
    else if now < r.schedule.value.departure then SCHEDULED
    else if now < FinalArrival(r) then IN_PROGRESS
    else COMPLETED
  }

  /** The events of the status a route takes. */
  function StatusSteps(rid: int, r: RouteState, now: Time): seq<DomainEvent>
    requires Shaped(r)
  {
    var status := StatusThen(r, now);
    if status == r.status then []
    else
      match status
      case IN_PROGRESS => [RouteStarted(rid, r.status, IN_PROGRESS, r.schedule.value.departure)]
      case COMPLETED => [RouteCompleted(rid, r.status, COMPLETED, r.schedule.value.departure, FinalArrival(r), FinalArrival(r))]
      case _ => []
  }

  /** The route's truck is let go at the final arrival, wherever it was. */
  function ReleaseThen(w: World, rid: int, now: Time): seq<DomainEvent>
    requires Closed(w) && rid in w.routes
    requires w.routes[rid].truck.To? ==> w.trucks[w.routes[rid].truck.id].location.Some?
  {
    var r := w.routes[rid];
    if r.truck.Unlinked? || r.schedule.None? || now < FinalArrival(r) then []
    else
      var t, end := w.trucks[r.truck.id], r.path[|r.path| - 1];
      [TruckReleased(r.truck.id, To(rid), ON_THE_WAY, FREE, if now == FinalArrival(r) then end else t.location.value, end,
                     Some(r.schedule.value.departure), Some(FinalArrival(r)), ROUTE_COMPLETED, FinalArrival(r))]
  }

  /** The route with the status of the instant, its truck gone when it is over, and what that records. */
  function RouteThen(w: World, rid: int, now: Time): RouteState
    requires Closed(w) && rid in w.routes
    requires w.routes[rid].truck.To? ==> w.trucks[w.routes[rid].truck.id].location.Some?
  {
    var r := w.routes[rid];
    RouteState(r.path, r.schedule, StatusThen(r, now),
               if r.schedule.Some? && FinalArrival(r) <= now then Unlinked else r.truck, r.packages,
               r.events + StatusSteps(rid, r, now) + ReleaseThen(w, rid, now))
  }

  lemma TruckStands(w: World, rid: int)
    requires Linked(w) && rid in w.routes
    ensures w.routes[rid].truck.To? ==> w.trucks[w.routes[rid].truck.id].location.Some?
  {
    assert RouteLinked(w, rid);
    if w.routes[rid].truck.To? {
      assert TruckLinked(w, w.routes[rid].truck.id);
    }
  }

  lemma RouteAfterIs(w: World, rid: int, now: Time)
    requires Linked(w) && rid in w.routes && !Blocked(w, rid, now)
    ensures w.routes[rid].truck.To? ==> w.trucks[w.routes[rid].truck.id].location.Some?
    ensures RouteAfter(w, rid, now) == RouteThen(w, rid, now)
  {
    assert RouteLinked(w, rid);
    if w.routes[rid].truck.To? {
      assert TruckLinked(w, w.routes[rid].truck.id);
    }
  }

  /** A route takes the status its schedule gives and, once the final arrival is reached, lets its truck go. */
  lemma PassOnRoute(w: World, ids: seq<int>, now: Time, rid: int)
    requires Linked(w) && Enumerates(ids, w) && rid in w.routes
    ensures w.routes[rid].truck.To? ==> w.trucks[w.routes[rid].truck.id].location.Some?
    ensures var v := Pass(w, ids, now).0;
      rid in v.routes && v.routes[rid] == if Visited(w, ids, rid, now) then RouteThen(w, rid, now) else w.routes[rid]
  {
    hide Blocked, Pass, RouteAfter, RouteThen, Visited, Linked;
    LinkedIsClosed(w);
    VisitedIff(w, ids, rid, now);
    PassIsProjection(w, ids, now);
    TruckStands(w, rid);
    if Visited(w, ids, rid, now) {
      RouteAfterIs(w, rid, now);
    }
    assert RouteDone(w, Elements(ids), now, Pass(w, ids, now).0, rid);
  }

  // ----- trucks

  /** A serving truck stands at the start before departure, at the last stop reached while under way, and is free at the
      end of the path from the final arrival on. */
  ghost predicate RidesAlong(r: RouteState, t: TruckState, later: TruckState, now: Time)
    requires Shaped(r) && r.schedule.Some?
  {
    && (now < At(r, 0) ==> later == t.(location := Some(r.path[0]), inTransitTo := None))
    && (forall k: nat :: Between(r, k, now) ==>
          later == t.(location := Some(r.path[k]), inTransitTo := if k > 0 && now == At(r, k) then None else Some(r.path[k + 1])))
    && (FinalArrival(r) <= now ==>
          later == TruckState(t.capacity, t.maxRange, FREE, Some(r.path[|r.path| - 1]), Unlinked, None, None, None))
  }

  lemma TruckAtIs(rid: int, r: RouteState, t: TruckState, now: Time)
    requires Sound(r) && Shaped(r) && r.schedule.Some? && t.route == To(rid)
    ensures RidesAlong(r, t, TruckAt(rid, r, t, now), now)
  {
    forall k: nat | Between(r, k, now)
      ensures LastReached(r.schedule.value, now) == k && r.schedule.value.departure <= now < FinalArrival(r)
    {
      BetweenIsLast(r, k, now);
    }
  }

  lemma ServesScheduled(w: World, tid: int)
    requires Linked(w) && tid in w.trucks && w.trucks[tid].route.To?
    ensures var rid := w.trucks[tid].route.id;
      rid in w.routes && Sound(w.routes[rid]) && Shaped(w.routes[rid]) && w.routes[rid].schedule.Some?
  {
    assert TruckLinked(w, tid);
    assert RouteLinked(w, w.trucks[tid].route.id);
  }

  lemma PassOnTruck(w: World, ids: seq<int>, now: Time, tid: int)
    requires Linked(w) && Enumerates(ids, w) && tid in w.trucks
    ensures tid in Pass(w, ids, now).0.trucks
    ensures var t, later := w.trucks[tid], Pass(w, ids, now).0.trucks[tid];
      && (t.route.Unlinked? ==> later == t)
      && (t.route.To? ==>
            && t.route.id in w.routes && Shaped(w.routes[t.route.id]) && w.routes[t.route.id].schedule.Some?
            && if Visited(w, ids, t.route.id, now) then RidesAlong(w.routes[t.route.id], t, later, now) else later == t)
  {
    hide Blocked, Pass, TruckAt, RidesAlong, Visited, Linked, Shaped;
    LinkedIsClosed(w);
    PassIsProjection(w, ids, now);
    var t := w.trucks[tid];
    if t.route.To? {
      ServesScheduled(w, tid);
      VisitedIff(w, ids, t.route.id, now);
      TruckAtIs(t.route.id, w.routes[t.route.id], t, now);
    }
    assert TruckDone(w, Elements(ids), now, Pass(w, ids, now).0, tid);
  }

  // ----- packages

  /** Both ends of the package are stops of the path. */
  predicate OnPath(r: RouteState, p: PackageState) {
    p.start in r.path && p.end in r.path
  }

  /** The package is picked up before it is delivered. */
  predicate Forwards(r: RouteState, p: PackageState)
    requires OnPath(r, p)
  {
    IndexOf(r.path, p.start) < IndexOf(r.path, p.end)
  }

  /** The lifecycle steps that are overdue, stamped with the scheduled times. */
  function OverdueSteps(rid: int, r: RouteState, pid: int, p: PackageState, now: Time): seq<DomainEvent>
    requires Shaped(r) && OnPath(r, p) && Forwards(r, p)
  {
    if r.schedule.None? then []
    else
      var pickup, delivery := ArrivalAt(r, p.start), ArrivalAt(r, p.end);
      (if p.status == TODO && pickup <= now
       then [PackagePickedUp(pid, rid, TODO, MOVING, p.location, p.start, p.arrival, pickup)] else [])
      + (if p.status != DONE && delivery <= now
         then [PackageDelivered(pid, rid, MOVING, DONE, if p.status == TODO then p.start else p.location, p.end, p.arrival,
                                delivery)]
         else [])
  }

  /** A package of a route waits at its start before the pickup is due, is delivered at its end from the arrival there
      on, and in between is at the last stop its route has reached. */
  ghost predicate Carried(r: RouteState, p: PackageState, later: PackageState, now: Time)
    requires Shaped(r) && OnPath(r, p) && Forwards(r, p)
  {
    if r.schedule.None? then later.status == TODO && later.location == p.start && later.arrival == None
    else
      var pickup, delivery := ArrivalAt(r, p.start), ArrivalAt(r, p.end);
      && later.arrival == Some(delivery)
      && (now < pickup ==> later.status == TODO && later.location == p.start)
      && (delivery <= now ==> later.status == DONE && later.location == p.end)
      && (forall k: nat :: pickup <= now < delivery && Between(r, k, now) ==>
            later.status == MOVING && later.location == r.path[k])
  }

  lemma PackageAfterIs(rid: int, r: RouteState, pid: int, p: PackageState, now: Time)
    requires Sound(r) && Shaped(r) && OnPath(r, p) && Forwards(r, p) && p.routeId == To(rid)
    ensures !PackageBlocked(r, p, now)
    ensures var later := PackageAfter(r, pid, p, now);
      && Carried(r, p, later, now)
      && later == p.(status := later.status, location := later.location, arrival := later.arrival,
                    events := p.events + OverdueSteps(rid, r, pid, p, now))
  {
    hide LastReached;
    if r.schedule.Some? {
      StopsInOrder(r, IndexOf(r.path, p.start), IndexOf(r.path, p.end));
    }
    forall k: nat | Between(r, k, now) ensures LastReached(r.schedule.value, now) == k {
      BetweenIsLast(r, k, now);
    }
  }

  lemma RidesOnRoute(w: World, pid: int)
    requires Linked(w) && pid in w.packages && w.packages[pid].route.To?
    ensures var p := w.packages[pid];
      && p.routeId == p.route && p.route.id in w.routes
      && Sound(w.routes[p.route.id]) && Shaped(w.routes[p.route.id])
      && OnPath(w.routes[p.route.id], p) && Forwards(w.routes[p.route.id], p)
  {
    assert PackageLinked(w, pid);
    var p := w.packages[pid];
    var r := w.routes[p.route.id];
    assert RouteLinked(w, p.route.id);
    assert w.packages[r.packages[IndexOf(r.packages, pid)]] == p;
  }

  lemma PassOnPackage(w: World, ids: seq<int>, now: Time, pid: int)
    requires Linked(w) && Enumerates(ids, w) && pid in w.packages
    ensures pid in Pass(w, ids, now).0.packages
    ensures var p, later := w.packages[pid], Pass(w, ids, now).0.packages[pid];
      && (p.route.Unlinked? ==> later == p)
      && (p.route.To? ==>
            && p.route.id in w.routes && Shaped(w.routes[p.route.id])
            && OnPath(w.routes[p.route.id], p) && Forwards(w.routes[p.route.id], p)
            && var r := w.routes[p.route.id];
               if !Visited(w, ids, p.route.id, now) then later == p
               else
                 && Carried(r, p, later, now)
                 && later == p.(status := later.status, location := later.location, arrival := later.arrival,
                               events := p.events + OverdueSteps(p.route.id, r, pid, p, now)))
  {
    hide Blocked, Pass, PackageAfter, PackageBlocked, Carried, OverdueSteps, Visited, Linked, Shaped, OnPath, Forwards;
    LinkedIsClosed(w);
    PassIsProjection(w, ids, now);
    var p := w.packages[pid];
    if p.route.To? {
      RidesOnRoute(w, pid);
      VisitedIff(w, ids, p.route.id, now);
      PackageAfterIs(p.route.id, w.routes[p.route.id], pid, p, now);
    }
    assert PackageDone(w, Elements(ids), now, Pass(w, ids, now).0, pid);
  }
}
