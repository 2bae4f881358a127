/** Lifecycle events over whole runs of requests: use cases and failed saves between heartbeats record no milestone of a
    package twice and lose none. */
module RunMilestones {
  import opened Common
  import opened Fleet
  import opened Reconciliation
  import opened ReconciliationLaws
  import opened Projection
  import opened RepeatLaws
  import opened LifecycleLaws
  import opened UseCaseSteps
  import opened UseCaseSafety

  // ----- what a request other than a heartbeat does to a package that stays on its route

  /** The package recorded nothing and kept its endpoints; its route kept its path and, once it has one, its schedule. */
  ghost predicate Undisturbed(w: World, v: World, pid: int, rid: int)
    requires pid in w.packages && rid in w.routes
  {
    && pid in v.packages && rid in v.routes
    && v.packages[pid].(arrival := None) == w.packages[pid].(arrival := None)
    && v.routes[rid].path == w.routes[rid].path
    && (w.routes[rid].schedule.Some? ==> v.routes[rid].schedule == w.routes[rid].schedule)
  }

  lemma {:induction false} BatchUndisturbed(w: World, target: int, ids: seq<int>, now: Time, failing: set<int>, pid: int, rid: int)
    requires Ready(w) && target in w.routes && pid in w.packages && w.packages[pid].routeId.To? && rid in w.routes
    ensures Undisturbed(w, AssignAll(w, target, ids, now, failing).world, pid, rid)
    ensures AssignAll(w, target, ids, now, failing).world.packages[pid] == w.packages[pid]
  {
    if ids != [] {
      BatchUndisturbed(w, target, ids[..|ids| - 1], now, failing, pid, rid);
      hide AssignmentRejection, AssignedPackage, Ready;
    }
  }

  lemma TruckUndisturbed(w: World, target: int, tid: int, now: Time, commits: bool, pid: int, rid: int)
    requires Closed(w) && pid in w.packages && rid in w.routes
    ensures Undisturbed(w, AssignTruck(w, target, tid, now, commits), pid, rid)
  {
    hide Suitability;
  }

  lemma RemovalUndisturbed(w: World, gone: int, now: Time, commits: bool, pid: int, rid: int)
    requires Linked(w) && pid in w.packages && w.packages[pid].route == To(rid)
    requires pid in RemovePackage(w, gone, now, commits).packages
    ensures rid in w.routes && Undisturbed(w, RemovePackage(w, gone, now, commits), pid, rid)
  {
    hide RemovePackage;
    if gone in w.packages {
      RemovalShape(w, gone, now, commits);
    } else {
      assert RemovePackage(w, gone, now, commits) == w by { MissingPackage(w, gone, now, commits); }
    }
  }

  lemma MissingPackage(w: World, gone: int, now: Time, commits: bool)
    requires Closed(w) && gone !in w.packages
    ensures RemovePackage(w, gone, now, commits) == w
  {
  }

  lemma RouteRemovalUndisturbed(w: World, gone: int, now: Time, commits: bool, pid: int, rid: int)
    requires Linked(w) && pid in w.packages && w.packages[pid].route == To(rid)
    requires var v := RemoveRoute(w, gone, now, commits); pid in v.packages && v.packages[pid].route == To(rid)
    ensures rid in w.routes && Undisturbed(w, RemoveRoute(w, gone, now, commits), pid, rid)
  {
    hide StrippedRoute, FreedTruck;
    if gone in w.routes {
      PackageRoute(w, gone, pid);
    }
  }

  lemma RequestUndisturbed(w: World, q: Request, pid: int, rid: int)
    requires WellFormed(w) && pid in w.packages && w.packages[pid].route == To(rid) && !q.Beat?
    requires pid in Handle(w, q).packages && Handle(w, q).packages[pid].route == To(rid)
    ensures rid in w.routes && Undisturbed(w, Handle(w, q), pid, rid)
  {
    hide Linked, AssignAll, AssignTruck, RemovePackage, RemoveRoute, Safe, AllDerived, Unique;
    WellFormedIsLinked(w);
    OwnRoute(w, pid, rid);
    match q
    case AssignPackagesTo(target, ids, now, failing) =>
      LinkedReady(w);
      if target in w.routes { BatchUndisturbed(w, target, Unique(ids), now, failing, pid, rid); }
    case AssignTruckTo(target, tid, now, commits) => TruckUndisturbed(w, target, tid, now, commits, pid, rid);
    case RemovePackageOf(gone, now, commits) => RemovalUndisturbed(w, gone, now, commits, pid, rid);
    case RemoveRouteOf(gone, now, commits) => RouteRemovalUndisturbed(w, gone, now, commits, pid, rid);
    case Beat(_, _, _) => assert false;
  }

  lemma OwnRoute(w: World, pid: int, rid: int)
    requires Linked(w) && pid in w.packages && w.packages[pid].route == To(rid)
    ensures rid in w.routes && Sound(w.routes[rid]) && Shaped(w.routes[rid]) && w.packages[pid].routeId == To(rid)
  {
    assert PackageLinked(w, pid) && RouteLinked(w, rid);
  }

  // ----- runs

  /** The time of the last heartbeat asked for, saved or not. */
  function LastBeat(requests: seq<Request>): Option<Time> {
    if requests == [] then None
    else
      var n := |requests| - 1;
      if requests[n].Beat? then Some(requests[n].now) else LastBeat(requests[..n])
  }

  /** Heartbeats come in order of time. */
  predicate BeatsInOrder(requests: seq<Request>) {
    requests == [] ||
    var n := |requests| - 1;
    && BeatsInOrder(requests[..n])
    && (requests[n].Beat? && LastBeat(requests[..n]).Some? ==> LastBeat(requests[..n]).value <= requests[n].now)
  }

  /** The package is on the route in every state of the run. */
  ghost predicate StaysOn(w: World, requests: seq<Request>, pid: int, rid: int)
    requires WellFormed(w)
  {
    && (requests != [] ==> StaysOn(w, requests[..|requests| - 1], pid, rid))
    && var v := Run(w, requests); pid in v.packages && v.packages[pid].route == To(rid)
  }

  /** Where a package that was `p` stands when its route is `r` and the last heartbeat to take effect on it was `last`. */
  ghost predicate Stands(p: PackageState, r: RouteState, p': PackageState, last: Option<Time>)
    requires Shaped(r)
  {
    && p'.start == p.start && p'.end == p.end && p'.status == StatusAfter(r, p, last)
    && Stamps(p'.events) == Stamps(p.events) + PackageMilestones(r, p, last)
  }

  lemma SamePlanStands(p: PackageState, r: RouteState, r': RouteState, p': PackageState, last: Option<Time>)
    requires Shaped(r) && Shaped(r') && SamePlan(r, r') && Stands(p, r, p', last)
    ensures Stands(p, r', p', last)
  {
    hide Stamps;
  }

  /** A route without a schedule has no milestones to lose when it gets one. */
  lemma UnscheduledStands(p: PackageState, r: RouteState, r': RouteState, p': PackageState, last: Option<Time>)
    requires Shaped(r) && Shaped(r') && r.schedule.None? && Stands(p, r, p', last)
    ensures Stands(p, r', p', None)
  {
    hide Stamps;
  }

  lemma UseCaseStands(u: World, q: Request, pid: int, rid: int, p: PackageState, last: Option<Time>) returns (last': Option<Time>)
    requires WellFormed(u) && !q.Beat? && pid in u.packages && u.packages[pid].route == To(rid)
    requires pid in Handle(u, q).packages && Handle(u, q).packages[pid].route == To(rid)
    requires rid in u.routes && Shaped(u.routes[rid]) && Stands(p, u.routes[rid], u.packages[pid], last)
    ensures last' == last || last'.None?
    ensures rid in Handle(u, q).routes && Shaped(Handle(u, q).routes[rid])
    ensures Stands(p, Handle(u, q).routes[rid], Handle(u, q).packages[pid], last')
  {
    hide WellFormed, Handle, Stands;
    RequestUndisturbed(u, q, pid, rid);
    HandleWellFormed(u, q);
    var v := Handle(u, q);
    WellFormedIsLinked(v);
    OwnRoute(v, pid, rid);
    assert Stands(p, u.routes[rid], v.packages[pid], last) by { SameRecordStands(p, u.routes[rid], u.packages[pid], v.packages[pid], last); }
    if u.routes[rid].schedule.Some? {
      last' := last;
      SamePlanStands(p, u.routes[rid], v.routes[rid], v.packages[pid], last);
    } else {
      last' := None;
      UnscheduledStands(p, u.routes[rid], v.routes[rid], v.packages[pid], last);
    }
  }

  lemma SameRecordStands(p: PackageState, r: RouteState, p': PackageState, p'': PackageState, last: Option<Time>)
    requires Shaped(r) && Stands(p, r, p', last) && p''.(arrival := None) == p'.(arrival := None)
    ensures Stands(p, r, p'', last)
  {
    assert p''.(arrival := None).events == p''.events && p'.(arrival := None).events == p'.events;
    assert p''.(arrival := None).status == p''.status && p'.(arrival := None).status == p'.status;
    assert p''.(arrival := None).start == p''.start && p''.(arrival := None).end == p''.end;
    assert p'.(arrival := None).start == p'.start && p'.(arrival := None).end == p'.end;
  }

  /** A heartbeat on a package: it takes effect, or it leaves the package as it was. */
  lemma BeatStands(u: World, order: seq<int>, now: Time, commits: bool, pid: int, rid: int, p: PackageState, last: Option<Time>)
    returns (last': Option<Time>)
    requires Linked(u) && Enumerates(order, u) && pid in u.packages && u.packages[pid].route == To(rid) && rid in u.routes
    requires Shaped(u.routes[rid]) && Stands(p, u.routes[rid], u.packages[pid], last) && (last.Some? ==> last.value <= now)
    ensures last' == last || last' == Some(now)
    ensures var v := Heartbeat(u, order, now, commits);
      pid in v.packages && rid in v.routes && Shaped(v.routes[rid]) && Stands(p, v.routes[rid], v.packages[pid], last')
  {
    hide Linked, Stands, Pass, Blocked, IsProjection, Elements;
    OwnRoute(u, pid, rid);
    LinkedIsClosed(u);
    last' := last;
    if !StateChanged(Pass(u, order, now).1) || commits {
      last' := PassStands(u, order, now, pid, rid, p, last);
    }
  }

  lemma PassStands(u: World, order: seq<int>, now: Time, pid: int, rid: int, p: PackageState, last: Option<Time>)
    returns (last': Option<Time>)
    requires Linked(u) && Enumerates(order, u) && pid in u.packages && u.packages[pid].route == To(rid) && rid in u.routes
    requires Shaped(u.routes[rid]) && Stands(p, u.routes[rid], u.packages[pid], last) && (last.Some? ==> last.value <= now)
    ensures last' == last || last' == Some(now)
    ensures var v := Pass(u, order, now).0;
      pid in v.packages && rid in v.routes && Shaped(v.routes[rid]) && Stands(p, v.routes[rid], v.packages[pid], last')
  {
    hide Linked, Stands, Pass, Blocked, Elements, StatusAt, PackageAfter, PackageBlocked;
    OwnRoute(u, pid, rid);
    LinkedIsClosed(u);
    var v := Pass(u, order, now).0;
    PassIsProjection(u, order, now);
    assert PackageDone(u, Elements(order), now, v, pid) && RouteDone(u, Elements(order), now, v, rid);
    if Reconciled(u, Elements(order), To(rid), now) {
      NotBlocked(u, pid, rid, now);
      last' := Some(now);
      ReconciledStands(u.routes[rid], pid, p, u.packages[pid], last, now);
    } else {
      last' := last;
    }
    SamePlanStands(p, u.routes[rid], v.routes[rid], v.packages[pid], last');
  }

  lemma NotBlocked(u: World, pid: int, rid: int, now: Time)
    requires Linked(u) && pid in u.packages && u.packages[pid].route == To(rid) && rid in u.routes && !Blocked(u, rid, now)
    ensures !PackageBlocked(u.routes[rid], u.packages[pid], now)
  {
    PackageRoute(u, rid, pid);
    var k := IndexOf(u.routes[rid].packages, pid);
    assert !PackageBlocked(u.routes[rid], u.packages[u.routes[rid].packages[k]], now);
  }

  lemma ReconciledStands(r: RouteState, pid: int, p: PackageState, p': PackageState, last: Option<Time>, now: Time)
    requires Sound(r) && Shaped(r) && Stands(p, r, p', last) && (last.Some? ==> last.value <= now) && !PackageBlocked(r, p', now)
    ensures Stands(p, r, PackageAfter(r, pid, p', now), Some(now))
  {
    hide Stamps, StatusAfter, PackageMilestones, ProgressAt, LifecycleEvents;
    PackageStep(r, r, pid, p, p', last, now);
  }

  /** Over any run a waiting package that stays on its route stands where some heartbeat of the run put it, or where it
      stood before any. */
  lemma {:induction false} RunHistory(w: World, requests: seq<Request>, pid: int, rid: int) returns (last: Option<Time>)
    requires WellFormed(w) && BeatsInOrder(requests) && StaysOn(w, requests, pid, rid)
    requires pid in w.packages && w.packages[pid].status == TODO
    ensures last.Some? ==> LastBeat(requests).Some? && last.value <= LastBeat(requests).value
    ensures var v := Run(w, requests);
      pid in v.packages && rid in v.routes && Shaped(v.routes[rid]) && Stands(w.packages[pid], v.routes[rid], v.packages[pid], last)
  {
    hide WellFormed, Handle, Stands;
    var v := Run(w, requests);
    WellFormedIsLinked(v);
    OwnRoute(v, pid, rid);
    if requests == [] {
      last := None;
      assert Stands(w.packages[pid], v.routes[rid], v.packages[pid], None) by { StandsAtFirst(w.packages[pid], v.routes[rid]); }
    } else {
      var n := |requests| - 1;
      var u := Run(w, requests[..n]);
      var earlier := RunHistory(w, requests[..n], pid, rid);
      OnRouteBefore(w, requests, pid, rid);
      last := RequestStands(u, requests[n], pid, rid, w.packages[pid], earlier);
    }
  }

  lemma StandsAtFirst(p: PackageState, r: RouteState)
    requires Shaped(r) && p.status == TODO
    ensures Stands(p, r, p, None)
  {
  }

  lemma OnRouteBefore(w: World, requests: seq<Request>, pid: int, rid: int)
    requires WellFormed(w) && requests != [] && StaysOn(w, requests, pid, rid)
    ensures var u := Run(w, requests[..|requests| - 1]); pid in u.packages && u.packages[pid].route == To(rid)
  {
    hide WellFormed, Handle;
  }

  lemma RequestStands(u: World, q: Request, pid: int, rid: int, p: PackageState, last: Option<Time>) returns (last': Option<Time>)
    requires WellFormed(u) && pid in u.packages && u.packages[pid].route == To(rid)
    requires pid in Handle(u, q).packages && Handle(u, q).packages[pid].route == To(rid)
    requires rid in u.routes && Shaped(u.routes[rid]) && Stands(p, u.routes[rid], u.packages[pid], last)
    requires q.Beat? && last.Some? ==> last.value <= q.now
    ensures last' == last || last'.None? || (q.Beat? && last' == Some(q.now))
    ensures rid in Handle(u, q).routes && Shaped(Handle(u, q).routes[rid])
    ensures Stands(p, Handle(u, q).routes[rid], Handle(u, q).packages[pid], last')
  {
    hide WellFormed, Stands, Heartbeat, Enumerates;
    if q.Beat? {
      WellFormedIsLinked(u);
      if Enumerates(q.order, u) {
        last' := BeatStands(u, q.order, q.now, q.commits, pid, rid, p, last);
      } else {
        last' := last;
      }
    } else {
      last' := UseCaseStands(u, q, pid, rid, p, last);
    }
  }

  /** Over any run of requests whose heartbeats come in order of time, failed saves and rollbacks included, a waiting
      package that stays on its route records its pickup and its delivery at most once, in this order, at the scheduled
      times; and which of the two it has recorded is read off its status. */
  lemma PackageMilestonesOverRuns(w: World, requests: seq<Request>, pid: int, rid: int)
    requires WellFormed(w) && BeatsInOrder(requests) && StaysOn(w, requests, pid, rid)
    requires pid in w.packages && w.packages[pid].status == TODO
    ensures var p, v := w.packages[pid], Run(w, requests);
      && pid in v.packages && rid in v.routes && Shaped(v.routes[rid])
      && (v.packages[pid].status != TODO ==> Travels(v.routes[rid], p))
      && Stamps(v.packages[pid].events) == Stamps(p.events) + (
           match v.packages[pid].status
           case TODO => []
           case MOVING => [PickedUp(StopTime(v.routes[rid], p.start))]
           case DONE => [PickedUp(StopTime(v.routes[rid], p.start)), Delivered(StopTime(v.routes[rid], p.end))])
  {
    hide WellFormed, Run, Handle, StaysOn, BeatsInOrder;
    var last := RunHistory(w, requests, pid, rid);
    var p, v := w.packages[pid], Run(w, requests);
    MilestonesByStatus(v.routes[rid], p, last);
  }

  lemma MilestonesByStatus(r: RouteState, p: PackageState, last: Option<Time>)
    requires Shaped(r)
    ensures StatusAfter(r, p, last) != TODO ==> Travels(r, p)
    ensures PackageMilestones(r, p, last) ==
      match StatusAfter(r, p, last)
      case TODO => []
      case MOVING => [PickedUp(StopTime(r, p.start))]
      case DONE => [PickedUp(StopTime(r, p.start)), Delivered(StopTime(r, p.end))]
  {
  }
}
