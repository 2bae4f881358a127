/** One pass over one route: status, truck and packages in turn, undone as a whole when a stage fails. */
module RoutePass {
  import opened Common
  import opened RouteSchedules
  import opened RouteScheduling
  import opened Fleet
  import opened Reconciliation
  import opened RepeatLaws
  import opened Entities
  import opened Reconciler
  import opened PackageReconciler
  import opened Undo

  // ----- status and truck do not change what the packages are measured against

  lemma SamePlanTimes(r: RouteState, r': RouteState, p: PackageState)
    requires Shaped(r) && Shaped(r') && SamePlan(r, r')
    ensures Travels(r', p) == Travels(r, p)
    ensures Travels(r, p) ==> StopTime(r', p.start) == StopTime(r, p.start) && StopTime(r', p.end) == StopTime(r, p.end)
  {
  }

  lemma SamePlanProgress(r: RouteState, r': RouteState, p: PackageState, now: Time)
    requires Shaped(r) && Shaped(r') && SamePlan(r, r')
    ensures PackageBlocked(r', p, now) == PackageBlocked(r, p, now)
    ensures ProgressAt(r', p, now) == ProgressAt(r, p, now)
  {
    SamePlanTimes(r, r', p);
    hide Travels, StopTime, LastReached;
  }

  lemma SamePlanEvents(r: RouteState, r': RouteState, pid: int, p: PackageState, now: Time)
    requires Shaped(r) && Shaped(r') && SamePlan(r, r') && !PackageBlocked(r, p, now) && !PackageBlocked(r', p, now)
    ensures LifecycleEvents(r', pid, p, now) == LifecycleEvents(r, pid, p, now)
  {
    SamePlanTimes(r, r', p);
    hide Travels, StopTime, PackageBlocked;
  }

  lemma SamePlanReasons(r: RouteState, r': RouteState, p: PackageState, now: Time)
    requires Shaped(r) && Shaped(r') && SamePlan(r, r')
    ensures Reasons(r', p, now) == Reasons(r, p, now)
  {
    SamePlanTimes(r, r', p);
    SamePlanProgress(r, r', p, now);
    hide Travels, StopTime, ProgressAt;
  }

  lemma SamePlanPackage(r: RouteState, r': RouteState, rid: int, pid: int, p: PackageState, now: Time)
    requires Shaped(r) && Shaped(r') && SamePlan(r, r')
    ensures PackageBlocked(r', p, now) == PackageBlocked(r, p, now)
    ensures ProgressAt(r', p, now) == ProgressAt(r, p, now)
    ensures Outcome(r', pid, p, now) == Outcome(r, pid, p, now)
    ensures PackageCorrections(rid, r', pid, p, now) == PackageCorrections(rid, r, pid, p, now)
  {
    SamePlanTimes(r, r', p);
    SamePlanProgress(r, r', p, now);
    SamePlanReasons(r, r', p, now);
    if !PackageBlocked(r, p, now) {
      SamePlanEvents(r, r', pid, p, now);
    }
    hide Travels, StopTime, ProgressAt, PackageBlocked, Reasons, LifecycleEvents;
  }

  lemma SamePlanOutcomes(r: RouteState, r': RouteState, ids: seq<int>, states: seq<PackageState>, now: Time)
    requires Shaped(r) && Shaped(r') && SamePlan(r, r') && |ids| == |states|
    ensures Outcomes(r', ids, states, |ids|, now) == Outcomes(r, ids, states, |ids|, now)
    ensures forall k :: 0 <= k < |states| ==> PackageBlocked(r', states[k], now) == PackageBlocked(r, states[k], now)
  {
    forall k | 0 <= k < |ids| ensures Outcome(r', ids[k], states[k], now) == Outcome(r, ids[k], states[k], now)
      && PackageBlocked(r', states[k], now) == PackageBlocked(r, states[k], now)
    {
      SamePlanPackage(r, r', 0, ids[k], states[k], now);
    }
  }

  lemma SamePlanReports(r: RouteState, r': RouteState, rid: int, ids: seq<int>, states: seq<PackageState>, now: Time)
    requires Shaped(r) && Shaped(r') && SamePlan(r, r') && |ids| == |states|
    ensures ChangedIds(r', ids, states, now) == ChangedIds(r, ids, states, now)
    ensures CorrectionsByPackage(rid, r', ids, states, now) == CorrectionsByPackage(rid, r, ids, states, now)
  {
    forall k | 0 <= k < |ids| ensures ProgressAt(r', states[k], now) == ProgressAt(r, states[k], now)
      && PackageCorrections(rid, r', ids[k], states[k], now) == PackageCorrections(rid, r, ids[k], states[k], now)
    {
      SamePlanPackage(r, r', rid, ids[k], states[k], now);
    }
  }

  // ----- the stages

  ghost function TruckBefore(route: DeliveryRoute): Option<(int, TruckState)>
    reads route, route.truck
  {
    if route.truck == null then None else Some((route.truck.vehicleId, route.truck.State()))
  }

  lemma TruckBeforeIs(route: DeliveryRoute)
    ensures TruckBefore(route).Some? <==> route.truck != null
    ensures route.truck != null ==> TruckBefore(route) == Some((route.truck.vehicleId, route.truck.State()))
  {
  }

  /** The truck's route, if it has the id of this one, is this one. */
  ghost predicate TruckKnows(route: DeliveryRoute)
    reads route, route.truck
  {
    route.truck != null && route.truck.route != null && route.truck.route.routeId == route.routeId ==> route.truck.route == route
  }

  /** The truck of a route after its stage. */
  ghost predicate TruckSettled(route: DeliveryRoute, truck: Truck?, r: RouteState, before: Option<(int, TruckState)>, now: Time)
    requires Shaped(r)
    reads route, truck
  {
    truck != null ==>
      && before.Some?
      && truck.State() == TruckAt(route.routeId, r, before.value.1, now)
      && truck.route == (if ReleaseDue(r, now) then null else route)
      && route.truck == (if ReleaseDue(r, now) then null else truck)
  }

  /** What is due for a truck is read off the plan of its route. */
  lemma SamePlanTruck(rid: int, r: RouteState, r': RouteState, tid: int, t: TruckState, now: Time)
    requires Shaped(r) && Shaped(r') && SamePlan(r, r')
    ensures TruckBlocked(rid, r', t, now) == TruckBlocked(rid, r, t, now) && TruckAt(rid, r', t, now) == TruckAt(rid, r, t, now)
    ensures ReleaseDue(r', now) == ReleaseDue(r, now) && TruckMoves(rid, r', t, now) == TruckMoves(rid, r, t, now)
    ensures TruckCorrections(rid, r', tid, t, now) == TruckCorrections(rid, r, tid, t, now)
    ensures !TruckBlocked(rid, r, t, now) ==> ReleaseEvents(rid, r', tid, t, now) == ReleaseEvents(rid, r, tid, t, now)
  {
  }

  /** Brings the status, then the truck, of a route that was `r` with truck `before` to the schedule. */
  method ReconcileStatusAndTruck(route: DeliveryRoute, now: Time, ghost r: RouteState, ghost before: Option<(int, TruckState)>)
    returns (ok: bool, stages: Stages)
    requires route.Valid() && TruckKnows(route)
    requires route.State() == r && TruckBefore(route) == before
    modifies route`status, route`events, route`truck, route.truck
    ensures route.Valid()
    ensures ok <==> !StatusBlocked(r, now) && (before.Some? ==> !TruckBlocked(route.routeId, r, before.value.1, now))
    ensures ok ==> route.State() == RouteTo(route.routeId, r, before, now)
    ensures ok ==> stages == StagesOf(route.routeId, r, before, now)
    ensures ok ==> TruckSettled(route, old(route.truck), r, before, now)
    ensures r.events <= route.events
  {
    hide NoDup, ProgressAt, TruckBefore, TruckCorrections, StatusCorrections, TruckAt, ReleaseEvents, StatusEvents,
         TruckMoves;
    TruckBeforeIs(route);
    stages := Stages(false, [], NO_TRUCK);
    var applied, changed, corrections := ApplyStatus(route, now);
    if !applied {
      return false, stages;
    }
    stages := Stages(changed, corrections, NO_TRUCK);
    if route.truck == null {
      assert route.events == route.events + [];
      return true, stages;
    }
    SamePlanTruck(route.routeId, r, route.State(), route.truck.vehicleId, route.truck.State(), now);
    var report;
    ok, report := ReconcileTruck(route, now);
    stages := stages.(truck := report);
  }

  // ----- the whole pass over a route

  /** The pass succeeds: no stage is blocked. */
  ghost predicate Open(rid: int, r: RouteState, truck: Option<(int, TruckState)>, states: seq<PackageState>, now: Time)
    requires Shaped(r)
  {
    && !StatusBlocked(r, now)
    && (truck.Some? ==> !TruckBlocked(rid, r, truck.value.1, now))
    && forall k :: 0 <= k < |states| ==> !PackageBlocked(r, states[k], now)
  }

  /** A route that was `r`, its truck and its packages are as the schedule wants them. */
  ghost predicate Scheduled(route: DeliveryRoute, truck: Truck?, r: RouteState, before: Option<(int, TruckState)>,
                            states: seq<PackageState>, now: Time)
    reads route, truck, route.packages
  {
    && Shaped(r) && |states| == |r.packages| && Open(route.routeId, r, before, states, now)
    && route.State() == RouteTo(route.routeId, r, before, now)
    && TruckSettled(route, truck, r, before, now)
    && InStates(route.packages, Outcomes(r, r.packages, states, |states|, now))
  }

  /** The guarded stages of a pass over a route that was `r`, with truck `before` and packages `states`. When one
      fails, nothing is claimed but that no event was lost. */
  method TryRoute(route: DeliveryRoute, now: Time, ghost r: RouteState, ghost before: Option<(int, TruckState)>,
                  ghost states: seq<PackageState>) returns (ok: bool, summary: Summary)
    requires route.Valid() && TruckKnows(route) && InStates(route.packages, states)
    requires route.State() == r && TruckBefore(route) == before
    modifies route`status, route`events, route`truck, route.truck
    modifies route.packages`status, route.packages`location, route.packages`arrival, route.packages`events
    ensures route.Valid() && r.events <= route.events
    ensures ok <==> Open(route.routeId, r, before, states, now)
    ensures ok ==> Scheduled(route, old(route.truck), r, before, states, now)
    ensures ok ==> summary == SummaryFor(route.routeId, r, before, r.packages, states, now)
    ensures !ok ==> EventsKept(states, route.packages)
  {
    hide StatusBlocked, TruckBlocked, PackageBlocked, RouteTo, StagesOf, SummaryFor, TruckAt, Outcomes;
    summary := NOTHING;
    var tid := if route.truck == null then 0 else route.truck.vehicleId;
    var stages;
    ok, stages := ReconcileStatusAndTruck(route, now, r, before);
    if !ok {
      return;
    }
    ok, summary := TryPackages(route, now, tid, stages, r, before, states);
  }

  /** The last stage: the packages, measured against the route as it was. */
  method TryPackages(route: DeliveryRoute, now: Time, tid: int, stages: Stages, ghost r: RouteState,
                     ghost before: Option<(int, TruckState)>, ghost states: seq<PackageState>) returns (ok: bool, summary: Summary)
    requires route.Valid() && InStates(route.packages, states)
    requires Shaped(r) && SamePlan(r, route.State()) && r.packages == PackageIds(route.packages)
    requires stages == StagesOf(route.routeId, r, before, now) && tid == (if before.None? then 0 else before.value.0)
    modifies route.packages`status, route.packages`location, route.packages`arrival, route.packages`events
    ensures ok <==> forall k :: 0 <= k < |states| ==> !PackageBlocked(r, states[k], now)
    ensures ok ==> InStates(route.packages, Outcomes(r, r.packages, states, |states|, now))
    ensures ok ==> summary == SummaryFor(route.routeId, r, before, r.packages, states, now)
    ensures !ok ==> EventsKept(states, route.packages)
  {
    SamePlanOutcomes(r, route.State(), r.packages, states, now);
    SamePlanReports(r, route.State(), route.routeId, r.packages, states, now);
    var changed, corrections;
    ok, changed, corrections := ReconcilePackages(route, now, states);
    summary := SummaryFrom(route.routeId, stages, tid, changed, corrections);
  }

  /** The remembered events are those of the states. */
  ghost predicate Remembers(memories: map<DeliveryPackage, PackageMemory>, list: seq<DeliveryPackage>, states: seq<PackageState>) {
    && |states| == |list| && memories.Keys == (set p | p in list)
    && forall k {:trigger list[k]} :: 0 <= k < |list| ==> memories[list[k]].events == states[k].events
  }

  lemma KeptMemories(states: seq<PackageState>, list: seq<DeliveryPackage>, memories: map<DeliveryPackage, PackageMemory>)
    requires |states| == |list| && EventsKept(states, list) && Remembers(memories, list, states)
    requires forall p <- memories :: memories[p].customer == p.customer
    ensures Extends(memories)
  {
    forall p <- memories ensures memories[p].events <= p.events && memories[p].customer == p.customer {
      var k :| 0 <= k < |list| && list[k] == p;
      assert states[k].events <= list[k].events;
    }
  }

  lemma RemembersStates(list: seq<DeliveryPackage>, states: seq<PackageState>)
    requires InStates(list, states)
    ensures Remembers(Memories(list), list, states)
  {
    forall k | 0 <= k < |list| ensures Memories(list)[list[k]].events == states[k].events {
      assert list[k].State() == states[k];
    }
  }

  /** The guarded stages, with what is remembered of the packages. */
  method TryRemembered(route: DeliveryRoute, now: Time, ghost r: RouteState, ghost before: Option<(int, TruckState)>,
                       ghost states: seq<PackageState>, ghost memories: map<DeliveryPackage, PackageMemory>)
    returns (ok: bool, summary: Summary)
    requires route.Valid() && TruckKnows(route) && InStates(route.packages, states)
    requires route.State() == r && TruckBefore(route) == before
    requires memories == Memories(route.packages) && Remembers(memories, route.packages, states)
    modifies route`status, route`events, route`truck, route.truck
    modifies route.packages`status, route.packages`location, route.packages`arrival, route.packages`events
    ensures route.Valid() && r.events <= route.events
    ensures ok <==> Open(route.routeId, r, before, states, now)
    ensures ok ==> Scheduled(route, old(route.truck), r, before, states, now)
    ensures ok ==> summary == SummaryFor(route.routeId, r, before, r.packages, states, now)
    ensures !ok ==> Extends(memories)
  {
    ok, summary := TryRoute(route, now, r, before, states);
    if !ok {
      KeptMemories(states, route.packages, memories);
    }
  }

  /** The route, its truck and its packages are exactly as remembered. */
  ghost predicate Unmoved(route: DeliveryRoute, r: RouteState, s: RouteSnapshot, t: Option<TruckSnapshot>,
                          memories: map<DeliveryPackage, PackageMemory>)
    reads route, s.truck, memories.Keys
  {
    && route.SnapshotState() == s && route.State() == r
    && (s.truck != null ==> Some(s.truck.SnapshotState()) == t)
    && forall p <- memories :: Memory(p) == memories[p]
  }

  /** The packages of a list refer to these routes and customers. */
  ghost predicate Refer(list: seq<DeliveryPackage>, refs: seq<(DeliveryRoute?, Customer)>)
    reads list`route, list`customer
  {
    |refs| == |list| && forall k {:trigger list[k]} :: 0 <= k < |list| ==> refs[k] == (list[k].route, list[k].customer)
  }

  lemma RestoredRefer(list: seq<DeliveryPackage>, memories: map<DeliveryPackage, PackageMemory>,
                      refs: seq<(DeliveryRoute?, Customer)>)
    requires memories.Keys == (set p | p in list) && forall p <- memories :: Memory(p) == memories[p]
    requires RemembersRoutes(memories, list, refs) && Owned(list, refs)
    ensures Refer(list, refs)
  {
    forall k | 0 <= k < |list| ensures refs[k] == (list[k].route, list[k].customer) {
      assert Memory(list[k]) == memories[list[k]];
    }
  }

  /** The remembered routes are those referred to. */
  ghost predicate RemembersRoutes(memories: map<DeliveryPackage, PackageMemory>, list: seq<DeliveryPackage>,
                                  refs: seq<(DeliveryRoute?, Customer)>) {
    && memories.Keys == (set p | p in list) && |refs| == |list|
    && forall k {:trigger list[k]} :: 0 <= k < |list| ==> memories[list[k]].snapshot.route == refs[k].0
  }

  ghost predicate Owned(list: seq<DeliveryPackage>, refs: seq<(DeliveryRoute?, Customer)>)
    reads list`customer
  {
    |refs| == |list| && forall k {:trigger list[k]} :: 0 <= k < |list| ==> list[k].customer == refs[k].1
  }

  /** Puts the packages of a list back. */
  method RestoreCargo(ghost list: seq<DeliveryPackage>, undo: seq<PackageUndo>, ghost memories: map<DeliveryPackage, PackageMemory>,
                      ghost refs: seq<(DeliveryRoute?, Customer)>)
    requires Captures(undo, memories) && Extends(memories) && Captured(undo) == memories.Keys
    requires RemembersRoutes(memories, list, refs) && Owned(list, refs)
    modifies Captured(undo)`route, Captured(undo)`routeId, Captured(undo)`status, Captured(undo)`location
    modifies Captured(undo)`arrival, Captured(undo)`events
    ensures (forall p <- memories :: Memory(p) == memories[p]) && Refer(list, refs)
  {
    hide Captures, Extends;
    RestorePackages(undo, memories);
    RestoredRefer(list, memories, refs);
  }

  /** Puts a route, its truck and its packages back after a failed pass. */
  method UndoRoute(route: DeliveryRoute, s: RouteSnapshot, checkpoint: nat, truck: Option<TruckSnapshot>, undo: seq<PackageUndo>,
                   ghost r: RouteState, ghost memories: map<DeliveryPackage, PackageMemory>, ghost refs: seq<(DeliveryRoute?, Customer)>)
    requires Captures(undo, memories) && Extends(memories) && Captured(undo) == memories.Keys
    requires RemembersRoutes(memories, s.packages, refs) && Owned(s.packages, refs)
    requires NoDup(PackageIds(s.packages))
    requires r.path == route.path && r.status == s.status && r.truck == TruckLink(s.truck) && r.packages == PackageIds(s.packages)
    requires r.schedule == if s.departure.None? then None else Some(ScheduleOf(route.path, s.departure.value, SPEED_KMPH))
    requires r.events <= route.events && checkpoint == |r.events|
    requires s.truck != null ==> truck.Some?
    modifies route, s.truck
    modifies Captured(undo)`route, Captured(undo)`routeId, Captured(undo)`status, Captured(undo)`location
    modifies Captured(undo)`arrival, Captured(undo)`events
    ensures route.Valid() && route.Built()
    ensures Unmoved(route, r, s, truck, memories) && Refer(s.packages, refs)
  {
    hide Captures, Captured, RemembersRoutes, Owned, Refer, NoDup, Covers;
    route.RestoreState(s);
    var rewound := route.RestoreCheckpoint(checkpoint);
    if s.truck != null {
      s.truck.RestoreState(truck.value);
    }
    RestoreCargo(s.packages, undo, memories, refs);
  }

  /** One route of a pass: brought to the schedule, or left exactly as it was with its truck, its packages and all
      their events. */
  method ReconcileRoute(route: DeliveryRoute, now: Time, ghost r: RouteState, ghost before: Option<(int, TruckState)>,
                        ghost states: seq<PackageState>, ghost refs: seq<(DeliveryRoute?, Customer)>,
                        ghost memories: map<DeliveryPackage, PackageMemory>)
    returns (ok: bool, summary: Summary)
    requires route.Valid() && route.Built() && TruckKnows(route) && InStates(route.packages, states)
    requires route.State() == r && TruckBefore(route) == before && memories == Memories(route.packages)
    requires Remembers(memories, route.packages, states) && RemembersRoutes(memories, route.packages, refs)
    requires Refer(route.packages, refs) && Owned(route.packages, refs)
    modifies route, route.truck, route.packages
    ensures route.Valid() && route.Built() && route.packages == old(route.packages)
    ensures ok <==> Open(route.routeId, r, before, states, now)
    ensures ok ==> Scheduled(route, old(route.truck), r, before, states, now)
    ensures Refer(route.packages, refs)
    ensures summary == if ok then SummaryFor(route.routeId, r, before, r.packages, states, now) else NOTHING
    ensures !ok ==> Unmoved(route, r, old(route.SnapshotState()),
                            old(if route.truck == null then None else Some(route.truck.SnapshotState())), memories)
  {
    hide Scheduled, SummaryFor, Open, Refer, RemembersRoutes, Owned;
    var snapshot, checkpoint := route.SnapshotState(), |route.events|;
    var undo := Capture(route.packages, memories);
    var truckSnapshot := if route.truck == null then None else Some(route.truck.SnapshotState());
    ok, summary := TryRemembered(route, now, r, before, states, memories);
    if !ok {
      UndoRoute(route, snapshot, checkpoint, truckSnapshot, undo, r, memories, refs);
      summary := NOTHING;
    }
  }
}
