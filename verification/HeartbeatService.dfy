/** The pass over every listed route, and the heartbeat that saves it or undoes it as a whole. */
module HeartbeatService {
  import opened Common
  import opened Fleet
  import opened Reconciliation
  import opened Entities
  import opened Stores
  import opened StoreFrames
  import opened Undo
  import opened StoredPasses
  import opened UseCaseSteps
  import opened ReportLaws

  // ----- a pass only adds events

  ghost predicate EventsGrew(v: World, w: World) {
    && v.routes.Keys == w.routes.Keys && v.packages.Keys == w.packages.Keys
    && (forall rid <- v.routes :: v.routes[rid].events <= w.routes[rid].events)
    && (forall pid <- v.packages ::
          v.packages[pid].events <= w.packages[pid].events && v.packages[pid].customer == w.packages[pid].customer)
  }

  /** Routes `ids` of a world can be passed over. */
  ghost predicate Known(w: World, ids: seq<int>) {
    Closed(w) && forall k :: 0 <= k < |ids| ==> ids[k] in w.routes
  }

  lemma RouteAddsEvents(w: World, rid: int, now: Time)
    requires Closed(w) && rid in w.routes
    ensures EventsGrew(w, WorldAfter(w, rid, now))
  {
  }

  lemma {:induction false} PassAddsEvents(w: World, ids: seq<int>, now: Time)
    requires Known(w, ids)
    ensures EventsGrew(w, Pass(w, ids, now).0)
  {
    if ids != [] {
      var n := |ids| - 1;
      PassAddsEvents(w, ids[..n], now);
      RouteAddsEvents(Pass(w, ids[..n], now).0, ids[n], now);
    }
  }

  // ----- the objects a batch touches

  function RouteIds(routes: seq<DeliveryRoute>): (ids: seq<int>)
    ensures |ids| == |routes| && forall k :: 0 <= k < |ids| ==> ids[k] == routes[k].routeId
  {
    seq(|routes|, k requires 0 <= k < |routes| => routes[k].routeId)
  }

  ghost predicate Listed(s: Store, routes: seq<DeliveryRoute>)
    reads s`routes
  {
    forall k {:trigger routes[k]} :: 0 <= k < |routes| ==> s.HasRoute(routes[k])
  }

  /** Listed routes reach stored entities only. */
  lemma RoutesReachStored(s: Store, routes: seq<DeliveryRoute>)
    requires s.Standing().Some? && Listed(s, routes)
    ensures forall r <- routes :: r in s.routes.Values
    ensures forall t <- TrucksOf(routes) :: t in s.trucks.Values
    ensures forall p <- CargoOf(routes) :: p in s.packages.Values
  {
    forall r <- routes ensures s.HasRoute(r) && s.RouteKept(r.routeId) {
      var k :| 0 <= k < |routes| && routes[k] == r;
      assert s.HasRoute(routes[k]);
    }
  }

  /** Every truck and package of these routes is among those given. */
  ghost predicate Bounded(routes: seq<DeliveryRoute>, trucks: set<Truck>, cargo: set<DeliveryPackage>)
    reads routes
  {
    && (forall r <- routes :: r.truck != null ==> r.truck in trucks)
    && (forall r <- routes :: forall p <- r.packages :: p in cargo)
  }

  lemma PassPrefix(w: World, ids: seq<int>, i: nat, now: Time)
    requires Known(w, ids) && i < |ids|
    ensures Known(w, ids[..i]) && Known(w, ids[..i + 1])
    ensures var (v, s) := Pass(w, ids[..i], now);
      Pass(w, ids[..i + 1], now) == (WorldAfter(v, ids[i], now), Join(s, SummaryOf(v, ids[i], now)))
  {
    assert ids[..i + 1][..i] == ids[..i];
  }

  lemma StandingIs(s: Store, v: World)
    requires s.Standing() == Some(v)
    ensures s.Valid() && s.AllBuilt() && s.Model() == v
  {
  }

  /** The pass over one of the routes reaches no truck or package beyond theirs. */
  method ReconcileWithin(ghost s: Store, route: DeliveryRoute, now: Time, ghost v: World,
                         ghost routes: seq<DeliveryRoute>, ghost trucks: set<Truck>, ghost cargo: set<DeliveryPackage>)
    returns (summary: Summary)
    requires s.Standing() == Some(v) && Closed(v) && route.routeId in v.routes && s.HasRoute(route)
    requires route in routes && Bounded(routes, trucks, cargo)
    modifies routes, trucks, cargo
    ensures Bounded(routes, trucks, cargo)
    ensures (s.Standing(), summary) == (Some(WorldAfter(v, route.routeId, now)), SummaryOf(v, route.routeId, now))
  {
    hide WorldAfter, SummaryOf, Closed, Store.Valid, Store.AllBuilt, Store.Model;
    StandingIs(s, v);
    summary := ReconcileStored(s, route, now);
  }

  /** The pass over the next route, added to the passes done so far. */
  method ReconcileNext(ghost s: Store, routes: seq<DeliveryRoute>, i: nat, now: Time, summary: Summary,
                       ghost w: World, ghost trucks: set<Truck>, ghost cargo: set<DeliveryPackage>)
    returns (joined: Summary)
    requires Known(w, RouteIds(routes)) && Listed(s, routes) && i < |routes| && Bounded(routes, trucks, cargo)
    requires (s.Standing(), summary) == (Some(Pass(w, RouteIds(routes)[..i], now).0), Pass(w, RouteIds(routes)[..i], now).1)
    modifies routes, trucks, cargo
    ensures Bounded(routes, trucks, cargo)
    ensures (s.Standing(), joined) == (Some(Pass(w, RouteIds(routes)[..i + 1], now).0), Pass(w, RouteIds(routes)[..i + 1], now).1)
  {
    ghost var ids := RouteIds(routes);
    assert routes[i] in routes && s.HasRoute(routes[i]);
    var part := ReconcileWithin(s, routes[i], now, Pass(w, ids[..i], now).0, routes, trucks, cargo);
    PassPrefix(w, ids, i, now);
    joined := Join(summary, part);
  }

  /** One pass over the listed routes in order; a route whose pass fails is left as it was and the others go on. */
  method ReconcileRoutes(ghost s: Store, routes: seq<DeliveryRoute>, now: Time, ghost w: World)
    returns (summary: Summary)
    requires s.Standing() == Some(w) && Listed(s, routes) && Known(w, RouteIds(routes))
    modifies routes, TrucksOf(routes), CargoOf(routes)
    ensures (s.Standing(), summary) == (Some(Pass(w, RouteIds(routes), now).0), Pass(w, RouteIds(routes), now).1)
  {
    hide WorldAfter, SummaryOf, Closed, Listed, Store.Standing, Store.Valid, Store.AllBuilt, Store.Model;
    ghost var ids, trucks, cargo := RouteIds(routes), TrucksOf(routes), CargoOf(routes);
    summary := NOTHING;
    for i := 0 to |routes|
      invariant Bounded(routes, trucks, cargo)
      invariant (s.Standing(), summary) == (Some(Pass(w, ids[..i], now).0), Pass(w, ids[..i], now).1)
    {
      summary := ReconcileNext(s, routes, i, now, summary, w, trucks, cargo);
    }
    WholeSlice(ids);
  }

  // ----- the heartbeat

  /** A pass over a batch: the store, the listed routes, the world before, the instant, and what is remembered. */
  datatype BatchPass = BatchPass(s: Store, routes: seq<DeliveryRoute>, w: World, now: Time, b: Remembrance)

  /** The store and the batch before the pass. */
  ghost predicate Ahead(c: BatchPass)
    reads c.s, c.s.customers.Values, c.s.packages.Values, c.s.routes.Values, c.s.trucks.Values
    reads c.routes, CargoOf(c.routes), TrucksOf(c.routes)
  {
    c.s.Standing() == Some(c.w) && Listed(c.s, c.routes) && Known(c.w, RouteIds(c.routes)) && c.b == Remember(c.routes)
  }

  /** The store after the pass. */
  ghost predicate Behind(c: BatchPass)
    reads c.s, c.s.customers.Values, c.s.packages.Values, c.s.routes.Values, c.s.trucks.Values
  {
    Known(c.w, RouteIds(c.routes)) && c.s.Standing() == Some(Pass(c.w, RouteIds(c.routes), c.now).0)
  }

  twostate lemma RouteMemoriesExtend(c: BatchPass)
    requires old(Ahead(c)) && unchanged(c.s) && Behind(c)
    ensures RoutesExtend(c.b.routes)
  {
    PassAddsEvents(c.w, RouteIds(c.routes), c.now);
    var v := Pass(c.w, RouteIds(c.routes), c.now).0;
    forall r <- c.b.routes ensures c.b.routes[r].state.events <= r.events {
      var k :| 0 <= k < |c.routes| && c.routes[k] == r;
      assert old(c.s.HasRoute(c.routes[k]));
      assert old(RouteMemoryOf(r)) == c.b.routes[r];
      assert r.State() == v.routes[r.routeId] && old(r.State()) == c.w.routes[r.routeId];
    }
  }

  twostate lemma PackageMemoriesExtend(c: BatchPass)
    requires old(Ahead(c)) && unchanged(c.s) && Behind(c)
    ensures Extends(c.b.packages)
  {
    PassAddsEvents(c.w, RouteIds(c.routes), c.now);
    var v := Pass(c.w, RouteIds(c.routes), c.now).0;
    forall p <- c.b.packages ensures c.b.packages[p].events <= p.events && c.b.packages[p].customer == p.customer {
      assert p in old(CargoOf(c.routes));
      var r :| r in c.routes && p in old(r.packages);
      var k :| 0 <= k < |c.routes| && c.routes[k] == r;
      assert old(c.s.HasRoute(c.routes[k]));
      assert old(c.s.RouteKept(r.routeId));
      assert old(c.s.HasPackage(p)) && old(c.s.PackageKept(p.packageId)) && c.s.PackageKept(p.packageId);
      assert old(Memory(p)) == c.b.packages[p];
      assert p.State() == v.packages[p.packageId] && old(p.State()) == c.w.packages[p.packageId];
    }
  }

  twostate lemma MemoriesExtend(c: BatchPass)
    requires old(Ahead(c)) && unchanged(c.s) && Behind(c)
    ensures RoutesExtend(c.b.routes) && Extends(c.b.packages)
  {
    RouteMemoriesExtend(c);
    PackageMemoriesExtend(c);
  }

  /** The batch of listed routes, before anything is done to it. */
  lemma BatchIsKnown(s: Store, w: World, routes: seq<DeliveryRoute>)
    requires s.Standing() == Some(w) && Listed(s, routes)
    ensures Known(w, RouteIds(routes)) && forall r <- routes :: r.Valid() && r.Built()
  {
    s.ModelReady();
    forall r <- routes ensures s.RouteKept(r.routeId) && s.HasRoute(r) && r.Built() {
      var k :| 0 <= k < |routes| && routes[k] == r;
      assert s.HasRoute(routes[k]) && s.routes[r.routeId].Built();
    }
  }

  /** The pass and, when its changes cannot be saved, the way back. */
  method PassOrUndo(ghost c: BatchPass, routes: seq<DeliveryRoute>, now: Time, commits: bool)
    returns (saved: bool, summary: Summary)
    requires Ahead(c) && c.routes == routes && c.now == now
    requires forall r <- routes :: r.Valid() && r.Built()
    modifies c.b.routes.Keys, c.b.packages.Keys, c.b.trucks.Keys
    ensures summary == Pass(c.w, RouteIds(routes), now).1 && (saved <==> !StateChanged(summary) || commits)
    ensures saved ==> c.s.Standing() == Some(Pass(c.w, RouteIds(routes), now).0)
    ensures !saved ==> AsRemembered(c.b)
  {
    hide CapturesBatch, AsRemembered, RoutesExtend, Extends;
    var undo := CaptureBatch(routes, c.b);
    summary := ReconcileRoutes(c.s, routes, now, c.w);
    if !StateChanged(summary) || commits {
      return true, summary;
    }
    MemoriesExtend(c);
    RestoreBatch(undo, c.b);
    return false, summary;
  }

  lemma KeptOrUndone(w: World, ids: seq<int>, now: Time, commits: bool)
    requires Known(w, ids)
    ensures Heartbeat(w, ids, now, commits) == if !StateChanged(Pass(w, ids, now).1) || commits then Pass(w, ids, now).0 else w
    ensures !StateChanged(Pass(w, ids, now).1) || !commits ==> Heartbeat(w, ids, now, commits) == w
  {
    hide Pass;
    UnsavedHeartbeat(w, ids, now);
  }

  /** Advances every listed route to an instant. A pass that reports no change is not saved, and made none; when the
      changes cannot be saved, the whole batch is undone. */
  method Advance(ghost s: Store, routes: seq<DeliveryRoute>, now: Time, commits: bool, ghost w: World)
    returns (saved: bool, summary: Summary)
    requires s.Standing() == Some(w) && Listed(s, routes)
    modifies routes, TrucksOf(routes), CargoOf(routes)
    ensures Known(w, RouteIds(routes)) && s.Standing() == Some(Heartbeat(w, RouteIds(routes), now, commits))
    ensures summary == Pass(w, RouteIds(routes), now).1 && (saved <==> !StateChanged(summary) || commits)
    ensures !StateChanged(summary) || !commits ==> s.Standing() == Some(w)
    ensures !saved ==> Restored(s)
  {
    hide Pass, Known, Listed, StateChanged, Heartbeat, RouteIds;
    BatchIsKnown(s, w, routes);
    KeptOrUndone(w, RouteIds(routes), now, commits);
    ghost var c := BatchPass(s, routes, w, now, Remember(routes));
    saved, summary := PassOrUndo(c, routes, now, commits);
    if !saved {
      RestoredStanding(s);
    }
  }
}
