/** Lifecycle events over whole runs of heartbeats: each is recorded at most once, at its scheduled time, however sparse
    the heartbeats are; and packages under way are where their truck is. */
module LifecycleLaws {
  import opened Common
  import opened RouteSchedules
  import opened Fleet
  import opened Reconciliation
  import opened ReconciliationLaws
  import opened Projection
  import opened RepeatLaws

  /** A lifecycle milestone and the time it is stamped with. */
  datatype Stamp =
    PickedUp(at: Time) | Delivered(at: Time) | Started(at: Time) | Completed(at: Time) | Released(truck: int, at: Time)

  function StampOf(e: DomainEvent): seq<Stamp> {
    match e
    case PackagePickedUp(_, _, _, _, _, _, _, at) => [PickedUp(at)]
    case PackageDelivered(_, _, _, _, _, _, _, at) => [Delivered(at)]
    case RouteStarted(_, _, _, at) => [Started(at)]
    case RouteCompleted(_, _, _, _, _, at) => [Completed(at)]
    case TruckReleased(tid, _, _, _, _, _, _, _, _, at) => [Released(tid, at)]
    case _ => []
  }

  function Stamps(events: seq<DomainEvent>): seq<Stamp> {
    if events == [] then [] else Stamps(events[..|events| - 1]) + StampOf(events[|events| - 1])
  }

  lemma StampsAppend(events: seq<DomainEvent>, e: DomainEvent)
    ensures Stamps(events + [e]) == Stamps(events) + StampOf(e)
  {
    assert (events + [e])[..|events|] == events;
  }

  function StampOfStep(step: seq<DomainEvent>): seq<Stamp> {
    if |step| == 1 then StampOf(step[0]) else []
  }

  lemma Extends<T>(before: seq<T>, earlier: seq<T>, a: seq<T>, b: seq<T>, later: seq<T>)
    requires earlier + a + b == later
    ensures before + earlier + a + b == before + later
  {
    assert before + earlier + a + b == before + (earlier + a + b);
  }

  lemma StampsOfStep(events: seq<DomainEvent>, step: seq<DomainEvent>)
    requires |step| <= 1
    ensures Stamps(events + step) == Stamps(events) + StampOfStep(step)
  {
    if step == [] {
      assert events + step == events;
    } else {
      assert step == [step[0]];
      StampsAppend(events, step[0]);
    }
  }

  /** At most two new events, stamped one after the other. */
  lemma StampsOfSteps(events: seq<DomainEvent>, first: seq<DomainEvent>, second: seq<DomainEvent>)
    requires |first| <= 1 && |second| <= 1
    ensures Stamps(events + (first + second)) == Stamps(events) + StampOfStep(first) + StampOfStep(second)
  {
    hide Stamps, StampOfStep;
    StampsOfStep(events, first);
    StampsOfStep(events + first, second);
    assert events + (first + second) == events + first + second;
  }

  ghost predicate NonDecreasing(times: seq<Time>) {
    forall i, j :: 0 <= i < j < |times| ==> times[i] <= times[j]
  }

  /** One heartbeat after another. */
  function Heartbeats(w: World, ids: seq<int>, times: seq<Time>): (v: World)
    requires Closed(w) && forall k :: 0 <= k < |ids| ==> ids[k] in w.routes
    ensures Closed(v) && v.routes.Keys == w.routes.Keys
  {
    if times == [] then w
    else Pass(Heartbeats(w, ids, times[..|times| - 1]), ids, times[|times| - 1]).0
  }

  function LastOf(times: seq<Time>): Option<Time> {
    if times == [] then None else Some(times[|times| - 1])
  }

  /** The milestones of a package fixed by the time of the last heartbeat alone. */
  function PackageMilestones(r: RouteState, p: PackageState, last: Option<Time>): seq<Stamp>
    requires Shaped(r)
  {
    if last.None? || !Travels(r, p) || last.value < StopTime(r, p.start) then []
    else if last.value < StopTime(r, p.end) then [PickedUp(StopTime(r, p.start))]
    else [PickedUp(StopTime(r, p.start)), Delivered(StopTime(r, p.end))]
  }

  /** What a package shows after heartbeats up to `last`. */
  function StatusAfter(r: RouteState, p: PackageState, last: Option<Time>): ItemStatus
    requires Shaped(r)
  {
    if last.None? then TODO else ProgressAt(r, p, last.value).status
  }

  /** The stamps one pass adds to a package, told from its status. */
  function NewStamps(r: RouteState, p: PackageState, status: ItemStatus, now: Time): (seq<Stamp>, seq<Stamp>)
    requires Shaped(r)
  {
    if !Travels(r, p) || now < StopTime(r, p.start) then ([], [])
    else
      (if status == TODO then [PickedUp(StopTime(r, p.start))] else [],
       if now >= StopTime(r, p.end) && status != DONE then [Delivered(StopTime(r, p.end))] else [])
  }

  lemma StepsAreStamped(r: RouteState, r': RouteState, pid: int, p: PackageState, p': PackageState, now: Time)
    requires Shaped(r) && Shaped(r') && SamePlan(r, r')
    requires p'.start == p.start && p'.end == p.end && !PackageBlocked(r', p', now)
    ensures StampOfStep(PickupOf(r', pid, p', now)) == NewStamps(r, p, p'.status, now).0
    ensures StampOfStep(DeliveryOf(r', pid, p', now)) == NewStamps(r, p, p'.status, now).1
  {
  }

  lemma PackageMilestonesGrow(r: RouteState, p: PackageState, last: Option<Time>, now: Time)
    requires Sound(r) && Shaped(r)
    requires last.Some? ==> last.value <= now
    ensures var added := NewStamps(r, p, StatusAfter(r, p, last), now);
      PackageMilestones(r, p, last) + added.0 + added.1 == PackageMilestones(r, p, Some(now))
  {
    if Travels(r, p) {
      StopsInOrder(r, IndexOf(r.path, p.start), IndexOf(r.path, p.end));
    }
  }

  /** One step of a run, seen from a package on a route whose pass succeeds. */
  lemma PackageStep(r: RouteState, r': RouteState, pid: int, p: PackageState, p': PackageState,
                    last: Option<Time>, now: Time)
    requires Sound(r) && Shaped(r) && Shaped(r') && SamePlan(r, r')
    requires p'.start == p.start && p'.end == p.end && !PackageBlocked(r', p', now)
    requires last.Some? ==> last.value <= now
    requires p'.status == StatusAfter(r, p, last)
    requires Stamps(p'.events) == Stamps(p.events) + PackageMilestones(r, p, last)
    ensures PackageAfter(r', pid, p', now).status == StatusAfter(r, p, Some(now))
    ensures Stamps(PackageAfter(r', pid, p', now).events) == Stamps(p.events) + PackageMilestones(r, p, Some(now))
  {
    var pickup, delivery := PickupOf(r', pid, p', now), DeliveryOf(r', pid, p', now);
    StampsOfSteps(p'.events, pickup, delivery);
    StepsAreStamped(r, r', pid, p, p', now);
    PackageMilestonesGrow(r, p, last, now);
    Extends(Stamps(p.events), PackageMilestones(r, p, last), StampOfStep(pickup), StampOfStep(delivery),
            PackageMilestones(r, p, Some(now)));
  }

  // ----- the history of a route

  /** Some heartbeat finds the route inside its travel window. */
  predicate SeenUnderWay(r: RouteState, times: seq<Time>)
    requires Shaped(r)
  {
    exists k :: 0 <= k < |times| && StatusAt(r, times[k]) == IN_PROGRESS
  }

  /** The run begins before the departure of the route. */
  predicate SeenBefore(r: RouteState, times: seq<Time>)
    requires Shaped(r)
  {
    times != [] && StatusAt(r, times[0]) == SCHEDULED
  }

  /** A completed route is stalled while all heartbeats fall inside its travel window: none of them can start it. */
  predicate Stalled(r: RouteState, times: seq<Time>)
    requires Shaped(r)
  {
    && r.status == COMPLETED && times != []
    && StatusAt(r, times[0]) == IN_PROGRESS && StatusAt(r, times[|times| - 1]) == IN_PROGRESS
  }

  predicate Over(r: RouteState, times: seq<Time>)
    requires Shaped(r)
  {
    times != [] && ReleaseDue(r, times[|times| - 1])
  }

  function StatusOver(r: RouteState, times: seq<Time>): RouteStatus
    requires Shaped(r)
  {
    if times == [] then r.status else if Stalled(r, times) then COMPLETED else StatusAt(r, times[|times| - 1])
  }

  function StartStamps(r: RouteState, times: seq<Time>): seq<Stamp>
    requires Shaped(r)
  {
    if SeenUnderWay(r, times) && (SeenBefore(r, times) || r.status == SCHEDULED) then [Started(r.schedule.value.departure)] else []
  }

  function CompletionStamps(r: RouteState, times: seq<Time>): seq<Stamp>
    requires Shaped(r)
  {
    if Over(r, times) && (SeenBefore(r, times) || r.status != COMPLETED) then [Completed(EtaFinal(r.schedule.value))] else []
  }

  function ReleaseStamps(r: RouteState, times: seq<Time>): seq<Stamp>
    requires Shaped(r)
  {
    if Over(r, times) && r.truck.To? then [Released(r.truck.id, EtaFinal(r.schedule.value))] else []
  }

  /** The milestones of a route over a run. It starts when a heartbeat finds it under way and it was scheduled by then;
      it completes when the run reaches the final ETA, unless it was completed all along; its truck is released when
      the run reaches the final ETA. */
  function RouteMilestones(r: RouteState, times: seq<Time>): seq<Stamp>
    requires Shaped(r)
  {
    StartStamps(r, times) + CompletionStamps(r, times) + ReleaseStamps(r, times)
  }

  /** Where a route stands after a run. */
  ghost predicate RouteFollows(r: RouteState, r': RouteState, times: seq<Time>)
    requires Shaped(r)
  {
    && SamePlan(r, r') && r'.status == StatusOver(r, times)
    && r'.truck == (if Over(r, times) then Unlinked else r.truck)
  }

  function ReleaseStep(w: World, rid: int, now: Time): seq<DomainEvent>
    requires Closed(w) && rid in w.routes && !Blocked(w, rid, now)
  {
    var r := w.routes[rid];
    if r.truck.To? then ReleaseEvents(rid, r, r.truck.id, w.trucks[r.truck.id], now) else []
  }

  lemma LaterHeartbeat(r: RouteState, times: seq<Time>)
    requires Shaped(r) && NonDecreasing(times) && times != []
    ensures var earlier, now := times[..|times| - 1], times[|times| - 1];
      && NonDecreasing(earlier)
      && (SeenUnderWay(r, times) <==> SeenUnderWay(r, earlier) || StatusAt(r, now) == IN_PROGRESS)
      && (earlier != [] ==> SeenBefore(r, times) == SeenBefore(r, earlier) && earlier[|earlier| - 1] <= now)
  {
    var earlier := times[..|times| - 1];
    assert forall k :: 0 <= k < |earlier| ==> earlier[k] == times[k];
    if SeenUnderWay(r, times) {
      var k :| 0 <= k < |times| && StatusAt(r, times[k]) == IN_PROGRESS;
      assert k < |earlier| ==> earlier[k] == times[k];
    }
  }

  /** A heartbeat finds the route completed inside its window exactly when the run up to it is stalled. */
  lemma StalledIff(r: RouteState, times: seq<Time>)
    requires Sound(r) && Shaped(r) && NonDecreasing(times) && times != []
    ensures Stalled(r, times)
       <==> StatusOver(r, times[..|times| - 1]) == COMPLETED && StatusAt(r, times[|times| - 1]) == IN_PROGRESS
  {
    LaterHeartbeat(r, times);
  }

  lemma NothingWhileStalled(r: RouteState, times: seq<Time>)
    requires Sound(r) && Shaped(r) && NonDecreasing(times) && Stalled(r, times)
    ensures RouteMilestones(r, times[..|times| - 1]) == [] && RouteMilestones(r, times) == []
    ensures StatusOver(r, times[..|times| - 1]) == StatusOver(r, times) && !Over(r, times[..|times| - 1]) && !Over(r, times)
  {
    LaterHeartbeat(r, times);
    hide Sound, EtaFinal, NonDecreasing, SeenUnderWay;
    assert StartStamps(r, times) == [] && CompletionStamps(r, times) == [] && ReleaseStamps(r, times) == [];
    var earlier := times[..|times| - 1];
    assert StartStamps(r, earlier) == [] && CompletionStamps(r, earlier) == [] && ReleaseStamps(r, earlier) == [];
    hide StartStamps, CompletionStamps, ReleaseStamps;
  }

  /** A heartbeat that takes effect: the milestone of a status change. */
  function StatusStamp(r: RouteState, status: RouteStatus, now: Time): seq<Stamp>
    requires Shaped(r)
  {
    var target := StatusAt(r, now);
    if status == target || r.schedule.None? then []
    else if target == IN_PROGRESS then [Started(r.schedule.value.departure)]
    else if target == COMPLETED then [Completed(EtaFinal(r.schedule.value))]
    else []
  }

  lemma StatusIsStamped(rid: int, r: RouteState, r': RouteState, now: Time)
    requires Shaped(r) && Shaped(r') && SamePlan(r, r')
    ensures StampOfStep(StatusEvents(rid, r', now)) == StatusStamp(r, r'.status, now)
  {
  }

  lemma ReleaseIsStamped(w: World, rid: int, r: RouteState, now: Time)
    requires Closed(w) && rid in w.routes && !Blocked(w, rid, now)
    requires Shaped(r) && SamePlan(r, w.routes[rid])
    ensures StampOfStep(ReleaseStep(w, rid, now))
         == if w.routes[rid].truck.To? && ReleaseDue(r, now) then [Released(w.routes[rid].truck.id, EtaFinal(r.schedule.value))] else []
  {
  }

  ghost predicate Plausible(r: RouteState) {
    Sound(r) && Shaped(r) && (r.schedule.None? <==> r.status == PLANNED)
  }

  /** What a heartbeat that takes effect adds to the milestones of the status. */
  lemma StatusStampsGrow(r: RouteState, times: seq<Time>)
    requires Plausible(r) && NonDecreasing(times) && times != [] && !Stalled(r, times)
    ensures var earlier, now := times[..|times| - 1], times[|times| - 1];
      StartStamps(r, earlier) + CompletionStamps(r, earlier) + StatusStamp(r, StatusOver(r, earlier), now)
      == StartStamps(r, times) + CompletionStamps(r, times)
  {
    LaterHeartbeat(r, times);
    StalledIff(r, times);
    hide NonDecreasing, Sound, EtaFinal, Timetable;
    var earlier, now := times[..|times| - 1], times[|times| - 1];
    if StatusAt(r, now) == COMPLETED {
      assert SeenUnderWay(r, times) == SeenUnderWay(r, earlier);
    }
  }

  /** What a heartbeat that takes effect adds to the milestones. */
  lemma RouteMilestonesGrow(w: World, rid: int, r: RouteState, times: seq<Time>)
    requires Plausible(r) && NonDecreasing(times) && times != [] && !Stalled(r, times)
    requires Closed(w) && rid in w.routes && !Blocked(w, rid, times[|times| - 1])
    requires RouteFollows(r, w.routes[rid], times[..|times| - 1])
    ensures RouteMilestones(r, times[..|times| - 1]) + StampOfStep(StatusEvents(rid, w.routes[rid], times[|times| - 1]))
         + StampOfStep(ReleaseStep(w, rid, times[|times| - 1])) == RouteMilestones(r, times)
  {
    var earlier, now := times[..|times| - 1], times[|times| - 1];
    StatusStampsGrow(r, times);
    StatusIsStamped(rid, r, w.routes[rid], now);
    ReleaseIsStamped(w, rid, r, now);
    LaterHeartbeat(r, times);
    if Over(r, earlier) {
      AfterTheEnd(r, times);
    }
    hide StartStamps, CompletionStamps, StatusEvents, ReleaseStep, StampOfStep, StatusStamp, Stalled, Blocked, Sound,
         Closed, Plausible;
  }

  /** Once a run has reached the final ETA, nothing is left to record. */
  lemma AfterTheEnd(r: RouteState, times: seq<Time>)
    requires Plausible(r) && NonDecreasing(times) && times != [] && Over(r, times[..|times| - 1])
    ensures StatusStamp(r, StatusOver(r, times[..|times| - 1]), times[|times| - 1]) == [] && Over(r, times)
  {
    LaterHeartbeat(r, times);
  }

  lemma RouteFollowsOn(w: World, rid: int, r: RouteState, times: seq<Time>)
    requires Plausible(r) && NonDecreasing(times) && times != [] && !Stalled(r, times)
    requires Closed(w) && rid in w.routes && !Blocked(w, rid, times[|times| - 1])
    requires RouteFollows(r, w.routes[rid], times[..|times| - 1])
    ensures RouteFollows(r, RouteAfter(w, rid, times[|times| - 1]), times)
  {
    LaterHeartbeat(r, times);
  }

  lemma EventsAfter(w: World, rid: int, now: Time)
    requires Closed(w) && rid in w.routes && !Blocked(w, rid, now)
    ensures |StatusEvents(rid, w.routes[rid], now)| <= 1 && |ReleaseStep(w, rid, now)| <= 1
    ensures RouteAfter(w, rid, now).events
         == w.routes[rid].events + (StatusEvents(rid, w.routes[rid], now) + ReleaseStep(w, rid, now))
  {
    var first, second := StatusEvents(rid, w.routes[rid], now), ReleaseStep(w, rid, now);
    assert w.routes[rid].events + (first + second) == w.routes[rid].events + first + second;
  }

  /** One step of a run, seen from a route whose pass succeeds. */
  lemma RouteStep(w: World, rid: int, r: RouteState, times: seq<Time>)
    requires Plausible(r) && NonDecreasing(times) && times != [] && !Stalled(r, times)
    requires Closed(w) && rid in w.routes && !Blocked(w, rid, times[|times| - 1])
    requires RouteFollows(r, w.routes[rid], times[..|times| - 1])
    requires Stamps(w.routes[rid].events) == Stamps(r.events) + RouteMilestones(r, times[..|times| - 1])
    ensures RouteFollows(r, RouteAfter(w, rid, times[|times| - 1]), times)
    ensures Stamps(RouteAfter(w, rid, times[|times| - 1]).events) == Stamps(r.events) + RouteMilestones(r, times)
  {
    hide RouteFollows, RouteMilestones, StatusEvents, ReleaseStep, Stalled, Blocked, Sound, NonDecreasing, RouteAfter,
         Stamps, StampOfStep;
    var earlier, now := times[..|times| - 1], times[|times| - 1];
    var first, second := StatusEvents(rid, w.routes[rid], now), ReleaseStep(w, rid, now);
    EventsAfter(w, rid, now);
    StampsOfSteps(w.routes[rid].events, first, second);
    RouteMilestonesGrow(w, rid, r, times);
    RouteFollowsOn(w, rid, r, times);
    Extends(Stamps(r.events), RouteMilestones(r, earlier), StampOfStep(first), StampOfStep(second), RouteMilestones(r, times));
  }

  // ----- whole runs

  lemma {:induction false} RunLinked(w: World, ids: seq<int>, times: seq<Time>)
    requires Linked(w) && Enumerates(ids, w)
    ensures Linked(Heartbeats(w, ids, times))
  {
    if times != [] {
      var n := |times| - 1;
      RunLinked(w, ids, times[..n]);
      PassIsProjection(Heartbeats(w, ids, times[..n]), ids, times[n]);
    }
  }

  /** The last heartbeat of a run, seen from one of its routes. */
  lemma LastHeartbeat(u: World, ids: seq<int>, now: Time, rid: int)
    requires Linked(u) && Enumerates(ids, u) && rid in ids && rid in u.routes
    ensures Blocked(u, rid, now) <==> u.routes[rid].status == COMPLETED && StatusAt(u.routes[rid], now) == IN_PROGRESS
    ensures Pass(u, ids, now).0.routes[rid] == if Blocked(u, rid, now) then u.routes[rid] else RouteAfter(u, rid, now)
  {
    BlockedIff(u, rid, now);
    PassIsProjection(u, ids, now);
    assert RouteDone(u, Elements(ids), now, Pass(u, ids, now).0, rid);
  }

  /** Over any run of heartbeats with non-decreasing times a route records its start, its completion and the release of
      its truck each at most once, in this order, stamped with the departure and with the final ETA. It records its
      start exactly when a heartbeat falls inside the travel window after one before departure, or when it was
      scheduled; its completion exactly when the run reaches the final ETA, but for a route completed from the first
      heartbeat on; and the release exactly when the run reaches the final ETA and it had a truck. */
  lemma {:induction false} RouteMilestonesExactlyOnce(w: World, ids: seq<int>, times: seq<Time>, rid: int)
    requires Linked(w) && Enumerates(ids, w) && NonDecreasing(times) && rid in ids && rid in w.routes
    ensures var r, r' := w.routes[rid], Heartbeats(w, ids, times).routes[rid];
      && Shaped(r)
      && RouteFollows(r, r', times)
      && Stamps(r'.events) == Stamps(r.events) + RouteMilestones(r, times)
  {
    assert RouteLinked(w, rid);
    if times != [] {
      var n := |times| - 1;
      var u := Heartbeats(w, ids, times[..n]);
      LaterHeartbeat(w.routes[rid], times);
      RouteMilestonesExactlyOnce(w, ids, times[..n], rid);
      RunLinked(w, ids, times[..n]);
      LastHeartbeat(u, ids, times[n], rid);
      StalledIff(w.routes[rid], times);
      if Stalled(w.routes[rid], times) {
        NothingWhileStalled(w.routes[rid], times);
      } else {
        RouteStep(u, rid, w.routes[rid], times);
      }
    }
  }

  /** A route that was completed from the first heartbeat on records no completion; a truck it still holds is released
      once, at the final ETA. */
  lemma CompletedRouteReleasesItsTruck(w: World, ids: seq<int>, times: seq<Time>, rid: int)
    requires Linked(w) && Enumerates(ids, w) && NonDecreasing(times) && rid in ids && rid in w.routes
    requires w.routes[rid].status == COMPLETED && w.routes[rid].truck.To?
    requires Shaped(w.routes[rid]) && Over(w.routes[rid], times) && !SeenBefore(w.routes[rid], times)
    ensures Stamps(Heartbeats(w, ids, times).routes[rid].events)
         == Stamps(w.routes[rid].events) + [Released(w.routes[rid].truck.id, EtaFinal(w.routes[rid].schedule.value))]
  {
    RouteMilestonesExactlyOnce(w, ids, times, rid);
  }

  /** The last heartbeat of a run, seen from a package of a route whose pass succeeds. */
  lemma LastHeartbeatOnPackage(u: World, ids: seq<int>, now: Time, pid: int, rid: int)
    requires Linked(u) && Enumerates(ids, u) && rid in ids && rid in u.routes && !Blocked(u, rid, now)
    requires pid in u.packages && u.packages[pid].route == To(rid)
    ensures !PackageBlocked(u.routes[rid], u.packages[pid], now)
    ensures Pass(u, ids, now).0.packages.Keys == u.packages.Keys
    ensures Pass(u, ids, now).0.packages[pid] == PackageAfter(u.routes[rid], pid, u.packages[pid], now)
  {
    PassIsProjection(u, ids, now);
    assert PackageDone(u, Elements(ids), now, Pass(u, ids, now).0, pid);
    assert PackageLinked(u, pid);
  }

  ghost predicate SamePackagePlan(p: PackageState, p': PackageState) {
    p'.start == p.start && p'.end == p.end && p'.route == p.route
  }

  lemma PackageWhileBlocked(u: World, ids: seq<int>, now: Time, pid: int, rid: int)
    requires Linked(u) && Enumerates(ids, u) && rid in ids && rid in u.routes && Blocked(u, rid, now)
    requires pid in u.packages && u.packages[pid].route == To(rid)
    ensures Pass(u, ids, now).0.packages.Keys == u.packages.Keys && Pass(u, ids, now).0.packages[pid] == u.packages[pid]
  {
    PassIsProjection(u, ids, now);
    assert PackageDone(u, Elements(ids), now, Pass(u, ids, now).0, pid);
  }

  /** The last heartbeat that took effect on the packages of a route. */
  function Effective(r: RouteState, times: seq<Time>): Option<Time>
    requires Shaped(r)
  {
    if Stalled(r, times) then None else LastOf(times)
  }

  lemma EffectiveGrows(r: RouteState, times: seq<Time>)
    requires Sound(r) && Shaped(r) && NonDecreasing(times) && times != []
    ensures Effective(r, times[..|times| - 1]).Some? ==> Effective(r, times[..|times| - 1]).value <= times[|times| - 1]
    ensures Stalled(r, times) ==> Effective(r, times[..|times| - 1]).None?
  {
    LaterHeartbeat(r, times);
    StalledIff(r, times);
  }

  /** The last heartbeat of a run, seen from a waiting package. */
  lemma PackageLast(r: RouteState, u: World, ids: seq<int>, times: seq<Time>, pid: int, p: PackageState)
    requires Linked(u) && Enumerates(ids, u) && times != [] && p.route.To? && p.route.id in ids && p.route.id in u.routes
    requires Sound(r) && Shaped(r) && RouteFollows(r, u.routes[p.route.id], times[..|times| - 1])
    requires Blocked(u, p.route.id, times[|times| - 1]) <==> Stalled(r, times)
    requires pid in u.packages && SamePackagePlan(p, u.packages[pid])
    requires Effective(r, times[..|times| - 1]).Some? ==> Effective(r, times[..|times| - 1]).value <= times[|times| - 1]
    requires Stalled(r, times) ==> Effective(r, times[..|times| - 1]).None?
    requires u.packages[pid].status == StatusAfter(r, p, Effective(r, times[..|times| - 1]))
    requires Stamps(u.packages[pid].events) == Stamps(p.events) + PackageMilestones(r, p, Effective(r, times[..|times| - 1]))
    ensures var v := Pass(u, ids, times[|times| - 1]).0;
      && pid in v.packages && SamePackagePlan(p, v.packages[pid])
      && v.packages[pid].status == StatusAfter(r, p, Effective(r, times))
      && Stamps(v.packages[pid].events) == Stamps(p.events) + PackageMilestones(r, p, Effective(r, times))
  {
    hide Linked, Sound, StatusAfter, PackageMilestones, StatusOver;
    if Stalled(r, times) {
      PackageWhileBlocked(u, ids, times[|times| - 1], pid, p.route.id);
    } else {
      LastHeartbeatOnPackage(u, ids, times[|times| - 1], pid, p.route.id);
      PackageStep(r, u.routes[p.route.id], pid, p, u.packages[pid], Effective(r, times[..|times| - 1]), times[|times| - 1]);
    }
  }

  lemma BeforeAnyHeartbeat(r: RouteState, p: PackageState)
    requires Shaped(r)
    ensures StatusAfter(r, p, Effective(r, [])) == TODO && PackageMilestones(r, p, Effective(r, [])) == []
  {
  }

  lemma SamePlanStatus(r: RouteState, r': RouteState, now: Time)
    requires Shaped(r) && Shaped(r') && SamePlan(r, r')
    ensures StatusAt(r', now) == StatusAt(r, now)
  {
  }

  /** A route when the last heartbeat of a run comes: that heartbeat is lost on it exactly when the run is stalled. */
  lemma LastHeartbeatAwaited(w: World, ids: seq<int>, times: seq<Time>, rid: int)
    requires Linked(w) && Enumerates(ids, w) && NonDecreasing(times) && times != [] && rid in ids && rid in w.routes
    ensures var u, earlier := Heartbeats(w, ids, times[..|times| - 1]), times[..|times| - 1];
      && Sound(w.routes[rid]) && Shaped(w.routes[rid]) && NonDecreasing(earlier) && Linked(u) && Enumerates(ids, u)
      && RouteFollows(w.routes[rid], u.routes[rid], earlier)
      && (Blocked(u, rid, times[|times| - 1]) <==> Stalled(w.routes[rid], times))
  {
    assert RouteLinked(w, rid);
    hide Linked, RouteLinked, Sound, Stalled, Blocked, Pass, StatusAt, StatusOver, Over, SeenBefore, SeenUnderWay,
         Stamps, RouteMilestones,
         NonDecreasing, Heartbeats, RouteAfter;
    var n := |times| - 1;
    LaterHeartbeat(w.routes[rid], times);
    RouteMilestonesExactlyOnce(w, ids, times[..n], rid);
    RunLinked(w, ids, times[..n]);
    var u := Heartbeats(w, ids, times[..n]);
    LastHeartbeat(u, ids, times[n], rid);
    SamePlanStatus(w.routes[rid], u.routes[rid], times[n]);
    StalledIff(w.routes[rid], times);
  }

  /** What a run does to a waiting package: the milestones of the last heartbeat that took effect. */
  lemma {:induction false} PackageHistory(w: World, ids: seq<int>, times: seq<Time>, pid: int)
    requires Linked(w) && Enumerates(ids, w) && NonDecreasing(times)
    requires pid in w.packages && w.packages[pid].status == TODO && w.packages[pid].route.To?
    requires w.packages[pid].route.id in ids && w.packages[pid].route.id in w.routes
    ensures var p, r := w.packages[pid], w.routes[w.packages[pid].route.id];
      var v := Heartbeats(w, ids, times);
      && Sound(r) && Shaped(r) && pid in v.packages
      && SamePackagePlan(p, v.packages[pid])
      && v.packages[pid].status == StatusAfter(r, p, Effective(r, times))
      && Stamps(v.packages[pid].events) == Stamps(p.events) + PackageMilestones(r, p, Effective(r, times))
  {
    var p := w.packages[pid];
    var r := w.routes[p.route.id];
    assert RouteLinked(w, p.route.id);
    hide Linked, RouteLinked, Enumerates, Sound, Stamps, StatusAfter, PackageMilestones, Effective, RouteFollows,
         Blocked, NonDecreasing, Stalled, Pass;
    if times == [] {
      BeforeAnyHeartbeat(r, p);
    } else {
      var earlier := times[..|times| - 1];
      LastHeartbeatAwaited(w, ids, times, p.route.id);
      PackageHistory(w, ids, earlier, pid);
      EffectiveGrows(r, times);
      PackageLast(r, Heartbeats(w, ids, earlier), ids, times, pid, p);
    }
  }

  /** A stalled run shows exactly when the pickup was due. */
  lemma StalledShows(r: RouteState, p: PackageState, times: seq<Time>, before: seq<Stamp>)
    requires Sound(r) && Shaped(r)
    ensures before + PackageMilestones(r, p, Effective(r, times)) == before + PackageMilestones(r, p, LastOf(times))
       <==> !(Stalled(r, times) && Travels(r, p) && times[|times| - 1] >= StopTime(r, p.start))
    ensures StatusAfter(r, p, Effective(r, times)) == StatusAfter(r, p, LastOf(times))
       <==> !(Stalled(r, times) && Travels(r, p) && times[|times| - 1] >= StopTime(r, p.start))
  {
    if Travels(r, p) {
      StopsInOrder(r, IndexOf(r.path, p.start), IndexOf(r.path, p.end));
    }
    assert |before + PackageMilestones(r, p, LastOf(times))| == |before| + |PackageMilestones(r, p, LastOf(times))|;
    assert |before + PackageMilestones(r, p, Effective(r, times))| == |before| + |PackageMilestones(r, p, Effective(r, times))|;
  }

  /** Over any run of heartbeats with non-decreasing times a waiting package records exactly the prefix of [picked up at
      the scheduled pickup, delivered at the scheduled delivery] that the last time fixes, except when its route was
      completed, every heartbeat fell inside the travel window, and the pickup was due: then it records nothing. */
  lemma PackageMilestonesExactlyOnce(w: World, ids: seq<int>, times: seq<Time>, pid: int)
    requires Linked(w) && Enumerates(ids, w) && NonDecreasing(times)
    requires pid in w.packages && w.packages[pid].status == TODO && w.packages[pid].route.To?
    requires w.packages[pid].route.id in ids && w.packages[pid].route.id in w.routes
    ensures var p, r := w.packages[pid], w.routes[w.packages[pid].route.id];
      var v := Heartbeats(w, ids, times);
      && Shaped(r) && pid in v.packages
      && (Stamps(v.packages[pid].events) == Stamps(p.events) + PackageMilestones(r, p, LastOf(times))
         <==> !(Stalled(r, times) && Travels(r, p) && times[|times| - 1] >= StopTime(r, p.start)))
      && (v.packages[pid].status == StatusAfter(r, p, LastOf(times))
         <==> !(Stalled(r, times) && Travels(r, p) && times[|times| - 1] >= StopTime(r, p.start)))
  {
    var p, r := w.packages[pid], w.routes[w.packages[pid].route.id];
    assert RouteLinked(w, p.route.id);
    StalledShows(r, p, times, Stamps(p.events));
    hide Linked, Sound, Stalled, Travels, PackageMilestones, StatusAfter, Effective, LastOf, StopTime, Stamps,
         Heartbeats;
    PackageHistory(w, ids, times, pid);
  }

  // ----- co-location

  lemma TravellersPlace(r: RouteState, p: PackageState, now: Time)
    requires Sound(r) && Shaped(r) && ProgressAt(r, p, now).status == MOVING
    ensures r.schedule.Some? && StatusAt(r, now) == IN_PROGRESS
    ensures ProgressAt(r, p, now).location == r.path[LastReached(r.schedule.value, now)]
  {
    StopsInOrder(r, 0, IndexOf(r.path, p.start));
    StopsInOrder(r, IndexOf(r.path, p.end), |r.path| - 1);
  }

  lemma TruckUnderWay(rid: int, r: RouteState, t: TruckState, now: Time)
    requires Sound(r) && Shaped(r) && StatusAt(r, now) == IN_PROGRESS
    ensures TruckAt(rid, r, t, now).location == Some(r.path[LastReached(r.schedule.value, now)])
  {
  }

  /** After a successful pass every package under way on a route with a truck is where the truck is, and no package
      is under way once the truck has been released. */
  lemma PackagesTravelWithTruck(w: World, rid: int, now: Time, k: nat)
    requires Linked(w) && rid in w.routes && !Blocked(w, rid, now) && k < |w.routes[rid].packages|
    requires var pid := w.routes[rid].packages[k]; WorldAfter(w, rid, now).packages[pid].status == MOVING
    ensures var v := WorldAfter(w, rid, now); var p := v.packages[w.routes[rid].packages[k]];
      && !ReleaseDue(w.routes[rid], now)
      && (v.routes[rid].truck.To? ==> v.trucks[v.routes[rid].truck.id].location == Some(p.location))
  {
    var r := w.routes[rid];
    var p := w.packages[r.packages[k]];
    assert RouteLinked(w, rid);
    hide Linked, RouteLinked, Blocked, StatusEvents, LifecycleEvents, ReleaseEvents, Sound, Timetable, LastReached,
         StopTime, StatusAt, ProgressAt, TruckAt;
    TravellersPlace(r, p, now);
    if r.truck.To? {
      TruckUnderWay(rid, r, w.trucks[r.truck.id], now);
    }
  }
}
