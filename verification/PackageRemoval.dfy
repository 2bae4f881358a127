/** Removing a package: what leaves the world, and what a failed removal puts back. */
module PackageRemoval {
  import opened Common
  import opened RouteSchedules
  import opened RouteScheduling
  import opened Fleet
  import opened Entities
  import opened Stores
  import opened StoreFrames
  import opened UseCaseSteps
  import opened UseCaseSafety

  // ----- lists of packages and lists of ids

  /** No other package of the list has the id of `p`. */
  ghost predicate OnlyUnderItsId(list: seq<DeliveryPackage>, p: DeliveryPackage) {
    forall k {:trigger list[k]} :: 0 <= k < |list| && list[k].packageId == p.packageId ==> list[k] == p
  }

  lemma ListedById(list: seq<DeliveryPackage>, p: DeliveryPackage)
    requires OnlyUnderItsId(list, p)
    ensures p in list <==> p.packageId in PackageIds(list)
    ensures p in list ==> IndexOf(PackageIds(list), p.packageId) == IndexOf(list, p)
  {
    if p.packageId in PackageIds(list) {
      assert list[IndexOf(PackageIds(list), p.packageId)] == p;
    }
    if p in list {
      assert PackageIds(list)[IndexOf(list, p)] == p.packageId;
    }
  }

  lemma IdsWithout(list: seq<DeliveryPackage>, p: DeliveryPackage)
    requires OnlyUnderItsId(list, p) && p in list
    ensures PackageIds(RemoveAt(list, IndexOf(list, p))) == Without(PackageIds(list), p.packageId)
  {
    ListedById(list, p);
    IdsRemoveAt(list, IndexOf(list, p));
  }

  // ----- the package, its route and its customer

  function Optional(route: DeliveryRoute?): set<DeliveryRoute> {
    if route == null then {} else {route}
  }

  /** A route after `p` left it. */
  function RouteLeft(r: RouteState, pid: int, p: PackageState, now: Time): RouteState {
    r.(packages := Without(r.packages, pid), events := r.events + [Detachment(pid, p, PACKAGE_REMOVED, now)])
  }

  function RemovalEvent(pid: int, p: PackageState, now: Time): DomainEvent {
    PackageRemoved(pid, p.customer, p.routeId, p.status, p.location, p.start, p.end, p.weight, p.arrival, now)
  }

  /** Takes a package off its route and off its customer's list, as far as that goes. */
  method TakeOut(package: DeliveryPackage, route: DeliveryRoute?, customer: Customer, now: Time)
    returns (step: TakeOutStep)
    requires route == package.route && customer == package.customer
    requires route != null ==> route.Valid() && route.Built() && OnlyUnderItsId(route.packages, package)
    requires OnlyUnderItsId(customer.packages, package)
    modifies package`route, package`routeId, package`status, package`location, package`arrival, package`events
    modifies customer`packages, Optional(route)`packages, Optional(route)`events
    ensures route != null ==> route.Valid() && route.Built()
    ensures step == (if old(package.routeId).To? && route == null then WasNotHydrated
                     else if old(package.routeId).To? && old(package !in route.packages) then WasNotOnRoute
                     else if package !in old(customer.packages) then WasNotListed else TakenOut)
    ensures
      var p := old(package.State());
      package.State() == (if LeftRoute(step, p.routeId) then Baseline(p) else p).(
        events := p.events + if step == TakenOut then [RemovalEvent(package.packageId, p, now)] else [])
    ensures package.route == if LeftRoute(step, old(package.routeId)) then null else route
    ensures route != null && LeftRoute(step, old(package.routeId)) ==>
      && package in old(route.packages)
      && route.packages == RemoveAt(old(route.packages), IndexOf(old(route.packages), package))
      && route.State() == RouteLeft(old(route.State()), package.packageId, old(package.State()), now)
    ensures route != null && !LeftRoute(step, old(package.routeId)) ==>
      route.packages == old(route.packages) && route.events == old(route.events)
    ensures old(customer.Valid()) ==> customer.Valid()
    ensures customer.packages == (if step == TakenOut then RemoveAt(old(customer.packages), IndexOf(old(customer.packages), package))
                                  else old(customer.packages))
  {
    hide OnlyUnderItsId, Covers, ScheduleOf, Detachment, Without, RemoveAt;
    var before := package.SnapshotState();
    if route != null {
      ListedById(route.packages, package);
      if package in route.packages {
        IdsWithout(route.packages, package);
      }
    }
    if package.routeId.To? {
      if route == null {
        return WasNotHydrated;
      }
      var detached := route.DetachPackage(package, PACKAGE_REMOVED, now);
      if detached != Detached {
        return WasNotOnRoute;
      }
    }
    var found := customer.RemovePackage(package);
    if !found {
      return WasNotListed;
    }
    package.RecordRemoval(before, now);
    return TakenOut;
  }

  /** Arrivals are read off the plan alone. */
  lemma ArrivalFollowsPlan(r: RouteState, r': RouteState, p: PackageState)
    requires Shaped(r) && r'.path == r.path && r'.schedule == r.schedule
    ensures RefreshedArrival(r', p) == RefreshedArrival(r, p) && ArrivalMissing(r', p) == ArrivalMissing(r, p)
  {
  }

  /** Puts a package back after a failed removal: its own state first, then the two lists it may have left. */
  method PutBack(package: DeliveryPackage, route: DeliveryRoute?, customer: Customer, snapshot: PackageSnapshot, checkpoint: nat,
                 routeCheckpoint: nat, ghost p: PackageState) returns (restored: bool)
    requires customer == package.customer && snapshot.route == route
    requires p == package.State().(route := RouteLink(route), routeId := snapshot.routeId, status := snapshot.status,
                                   location := snapshot.location, arrival := snapshot.arrival, events := p.events)
    requires p.events <= package.events && checkpoint == |p.events|
    requires route != null ==>
      route.Valid() && route.Built() && routeCheckpoint <= |route.events| && OnlyUnderItsId(route.packages, package)
    modifies package, customer`packages, Optional(route)`packages, Optional(route)`events
    ensures package.customer == customer && package.route == route
    ensures restored <==> route != null && package !in old(route.packages) ==> !ArrivalMissing(old(route.State()), p)
    ensures route != null ==> route.Valid() && route.Built()
    ensures route != null ==> route.events == if restored then old(route.events)[..routeCheckpoint] else old(route.events)
    ensures route != null ==> route.packages == (if package in old(route.packages) then old(route.packages) else old(route.packages) + [package])
    ensures package.State() == (if route == null || package in old(route.packages) then p
                                else p.(routeId := p.route, arrival := RefreshedArrival(old(route.State()), p)))
    ensures old(customer.Valid()) ==> customer.Valid()
    ensures customer.packages == (if !restored || package in old(customer.packages) then old(customer.packages)
                                  else old(customer.packages) + [package])
  {
    package.RestoreState(snapshot);
    var rewound := package.RestoreCheckpoint(checkpoint);
    if route != null {
      ListedById(route.packages, package);
      restored := route.RestorePackageLink(package);
      if !restored {
        return;
      }
      var routeRewound := route.RestoreCheckpoint(routeCheckpoint);
    }
    customer.RestorePackageLink(package);
    return true;
  }

  /** A list of packages after a failed removal: a package that had left is back at the end. */
  ghost predicate PutBackIn(before: seq<DeliveryPackage>, after: seq<DeliveryPackage>, p: DeliveryPackage, left: bool) {
    && (left ==> p in before)
    && after == (if left then RemoveAt(before, IndexOf(before, p)) + [p] else if p in before then before else before + [p])
  }

  /** The list comes back as it was exactly when the package was last in it, or had not left it. */
  lemma PutBackExactlyIff(before: seq<DeliveryPackage>, after: seq<DeliveryPackage>, p: DeliveryPackage, left: bool)
    requires NoDup(before) && PutBackIn(before, after, p, left)
    ensures after == before <==> p in before && (left ==> before[|before| - 1] == p)
  {
    if left && before[|before| - 1] != p {
      assert after[|after| - 1] == p;
    }
  }

  /** The list as it was, without `p`, or with `p` at the end. */
  ghost predicate Rearranged(before: seq<DeliveryPackage>, after: seq<DeliveryPackage>, p: DeliveryPackage) {
    || after == before
    || after == before + [p]
    || (p in before && after == RemoveAt(before, IndexOf(before, p)))
    || (p in before && after == RemoveAt(before, IndexOf(before, p)) + [p])
  }

  lemma StillHeld(s: Store, before: seq<DeliveryPackage>, after: seq<DeliveryPackage>, p: DeliveryPackage)
    requires s.HasPackage(p) && Rearranged(before, after, p)
    ensures s.ListHeld(before) ==> s.ListHeld(after)
    ensures s.RouteHeld(null, before) ==> s.RouteHeld(null, after)
  {
    forall k {:trigger after[k]} | 0 <= k < |after| && after[k] != p ensures after[k] in before {}
  }

  lemma LeftOnlyOnce(list: seq<DeliveryPackage>, p: DeliveryPackage)
    requires OnlyUnderItsId(list, p) && NoDup(list) && p in list
    ensures p !in RemoveAt(list, IndexOf(list, p)) && OnlyUnderItsId(RemoveAt(list, IndexOf(list, p)), p)
  {
    var shorter := RemoveAt(list, IndexOf(list, p));
    RemoveAtOnce(list, IndexOf(list, p));
    forall k | 0 <= k < |shorter| ensures shorter[k].packageId != p.packageId {
      assert shorter[k] in list;
    }
  }

  lemma RolledBackIds(before: seq<DeliveryPackage>, after: seq<DeliveryPackage>, p: DeliveryPackage, left: bool)
    requires OnlyUnderItsId(before, p) && PutBackIn(before, after, p, left)
    ensures PackageIds(after) == ListRolledBack(PackageIds(before), p.packageId, left)
  {
    ListedById(before, p);
    if left {
      IdsWithout(before, p);
      assert PackageIds(after) == PackageIds(RemoveAt(before, IndexOf(before, p))) + [p.packageId];
    } else if p !in before {
      assert PackageIds(after) == PackageIds(before) + [p.packageId];
    }
  }

  /** Removes a package from its lists and saves the removal; when either fails, the package is put back, or the
      rollback fails too, with the package on the route again but not in its customer's list. */
  method TakeOutOrPutBack(package: DeliveryPackage, route: DeliveryRoute?, customer: Customer, now: Time, commits: bool)
    returns (step: TakeOutStep, restored: bool)
    requires route == package.route && customer == package.customer
    requires route != null ==> route.Valid() && route.Built() && OnlyUnderItsId(route.packages, package)
    requires OnlyUnderItsId(customer.packages, package) && customer.Valid()
    modifies package, customer`packages, Optional(route)`packages, Optional(route)`events
    ensures route != null ==> route.Valid() && route.Built()
    ensures customer.Valid() && package.customer == customer && (package.route == route || package.route == null)
    ensures Rearranged(old(customer.packages), customer.packages, package)
    ensures route != null ==> Rearranged(old(route.packages), route.packages, package)
    ensures step == (if old(package.routeId).To? && route == null then WasNotHydrated
                     else if old(package.routeId).To? && old(package !in route.packages) then WasNotOnRoute
                     else if package !in old(customer.packages) then WasNotListed else TakenOut)
    ensures step == TakenOut && commits ==>
      var p := old(package.State());
      && package.State() == (if p.routeId.To? then Baseline(p) else p).(events := p.events + [RemovalEvent(package.packageId, p, now)])
      && customer.packages == RemoveAt(old(customer.packages), IndexOf(old(customer.packages), package))
      && (route != null && p.routeId.To? ==>
            && package in old(route.packages)
            && route.packages == RemoveAt(old(route.packages), IndexOf(old(route.packages), package))
            && route.events == old(route.events) + [Detachment(package.packageId, p, PACKAGE_REMOVED, now)])
      && (route != null && p.routeId.Unlinked? ==> route.packages == old(route.packages) && route.events == old(route.events))
    ensures !(step == TakenOut && commits) ==>
      var p := old(package.State()); var left := LeftRoute(step, p.routeId);
      && (restored <==> route != null ==> !PutBackFails(old(route.State()), package.packageId, p, left))
      && (if restored then PutBackIn(old(customer.packages), customer.packages, package, step == TakenOut)
          else if step == TakenOut then customer.packages == RemoveAt(old(customer.packages), IndexOf(old(customer.packages), package))
          else customer.packages == old(customer.packages))
      && package.State() == (if route == null then p else PackageRolledBack(old(route.State()), package.packageId, p, left))
      && (route != null ==>
            && PutBackIn(old(route.packages), route.packages, package, left)
            && route.events == old(route.events) + if left && !restored then [Detachment(package.packageId, p, PACKAGE_REMOVED, now)] else [])
  {
    hide Baseline, Detachment, RemovalEvent, RefreshedArrival, ScheduleOf, Timetable, EtaFinal, ArrivalMissing,
         RouteRolledBack, Without;
    var snapshot, checkpoint := package.SnapshotState(), |package.events|;
    var routeCheckpoint := if route == null then 0 else |route.events|;
    ghost var p, r := package.State(), if route == null then None else Some(route.State());
    if package in customer.packages {
      LeftOnlyOnce(customer.packages, package);
    }
    if route != null {
      ListedById(route.packages, package);
      if package in route.packages {
        IdsApart(route.packages);
        LeftOnlyOnce(route.packages, package);
      }
    }
    step := TakeOut(package, route, customer, now);
    if step != TakenOut || !commits {
      if route != null {
        ArrivalFollowsPlan(r.value, route.State(), p);
      }
      restored := PutBack(package, route, customer, snapshot, checkpoint, routeCheckpoint, p);
    } else {
      restored := true;
    }
  }

  // ----- the stored package

  lemma SameEntry<T>(m: map<int, T>, k: int)
    requires k in m
    ensures m[k := m[k]] == m
  {
  }

  /** What the store knows of a package it removes. */
  lemma BeforeRemoval(s: Store, w: World, package: DeliveryPackage)
    requires s.Standing() == Some(w) && s.HasPackage(package)
    ensures Ready(w) && s.Model() == w
    ensures package.packageId in w.packages && package.State() == w.packages[package.packageId]
    ensures s.HasCustomer(package.customer) && package.customer.Valid() && OnlyUnderItsId(package.customer.packages, package)
    ensures package.customer.customerId in w.customers && w.customers[package.customer.customerId] == package.customer.State()
    ensures package in package.customer.packages <==> package.packageId in package.customer.State().packages
    ensures package.route != null ==>
      && s.HasRoute(package.route) && package.route.Valid() && package.route.Built() && OnlyUnderItsId(package.route.packages, package)
      && package.route.routeId in w.routes && w.routes[package.route.routeId] == package.route.State()
      && (package in package.route.packages <==> package.packageId in package.route.State().packages)
  {
    s.ModelReady();
    assert s.PackageKept(package.packageId);
    var customer, route := package.customer, package.route;
    assert s.CustomerKept(customer.customerId);
    ListedById(customer.packages, package);
    if route != null {
      assert s.RouteKept(route.routeId) && s.routes[route.routeId].Built();
      assert OnlyUnderItsId(route.packages, package) by {
        forall k {:trigger route.packages[k]} | 0 <= k < |route.packages| && route.packages[k].packageId == package.packageId
          ensures route.packages[k] == package
        {
          assert s.HasPackage(route.packages[k]);
        }
      }
      ListedById(route.packages, package);
    }
  }

  /** The package, its route and its customer are in order, and their lists grew by no other package. */
  twostate predicate Relinked(c: Change)
    requires c.package != null && c.customer != null
    reads c.package, c.customer, c.route
  {
    && c.package.customer == c.customer && (c.package.route == c.route || c.package.route == null)
    && c.customer.Valid() && Rearranged(old(c.customer.packages), c.customer.packages, c.package)
    && (c.route != null ==>
          && c.route.Valid() && c.route.Built() && c.route.truck == old(c.route.truck)
          && Rearranged(old(c.route.packages), c.route.packages, c.package))
  }

  twostate lemma StandingAfterRemoval(c: Change)
    requires c.package != null && c.customer != null && c.truck == null
    requires old(c.s.Standing()).Some? && old(InStore(c)) && OthersKept(c) && Relinked(c)
    ensures c.s.Standing() == Some(Amended(old(c.s.Model()), c))
  {
    assert old(c.s.CustomerKept(c.customer.customerId));
    StillHeld(c.s, old(c.customer.packages), c.customer.packages, c.package);
    if c.route != null {
      assert old(c.s.RouteKept(c.route.routeId));
      StillHeld(c.s, old(c.route.packages), c.route.packages, c.package);
    }
    StandingAfter(c);
  }

  /** The world when a removal ends, the package itself still stored. */
  ghost function WorldTakenOut(w: World, pid: int, now: Time, commits: bool): World
    requires Closed(w) && pid in w.packages
  {
    match RemovePackageOutcomeOf(w, pid, now, commits)
    case PackageGone(p') =>
      var p := w.packages[pid];
      World(w.customers[p.customer := w.customers[p.customer].(packages := Without(w.customers[p.customer].packages, pid))],
            w.packages[pid := p'],
            if p.routeId.Unlinked? then w.routes else w.routes[p.route.id := RouteLeft(w.routes[p.route.id], pid, p, now)],
            w.trucks)
    case _ => RemovalRolledBack(w, pid, now)
  }

  /** The three entities a removal touches, set into the world. */
  function WithTrio(w: World, pid: int, trio: Trio): World
    requires pid in w.packages && (w.packages[pid].route.To? ==> trio.route.Some?)
  {
    var p := w.packages[pid];
    w.(customers := w.customers[p.customer := trio.customer], packages := w.packages[pid := trio.package],
       routes := if p.route.Unlinked? then w.routes else w.routes[p.route.id := trio.route.value])
  }

  /** A package with its route, if it has one, and its customer. */
  datatype Trio = Trio(package: PackageState, customer: CustomerState, route: Option<RouteState>)

  ghost predicate TrioAfter(w: World, pid: int, step: TakeOutStep, restored: bool, now: Time, commits: bool, trio: Trio)
    requires Closed(w) && pid in w.packages
  {
    var p := w.packages[pid]; var customer := w.customers[p.customer]; var left := LeftRoute(step, p.routeId);
    && (trio.route.Some? <==> p.route.To?)
    && (step == TakenOut && commits ==>
          && trio.package == (if p.routeId.To? then Baseline(p) else p).(events := p.events + [RemovalEvent(pid, p, now)])
          && trio.customer == customer.(packages := Without(customer.packages, pid))
          && (p.route.To? ==>
                trio.route.value == if p.routeId.To? then RouteLeft(w.routes[p.route.id], pid, p, now) else w.routes[p.route.id]))
    && (!(step == TakenOut && commits) ==>
          && trio.customer == customer.(packages := CustomerListAfter(customer.packages, pid, step, restored))
          && trio.package == (if p.route.Unlinked? then p else PackageRolledBack(w.routes[p.route.id], pid, p, left))
          && (p.route.To? ==>
                trio.route.value == RouteRolledBack(w.routes[p.route.id], pid, p, left, restored, now)))
  }

  /** Setting the three entities into the world is what the removal does to it. */
  lemma TrioIsWorld(w: World, pid: int, restored: bool, now: Time, commits: bool, trio: Trio)
    requires Closed(w) && pid in w.packages && TrioAfter(w, pid, StepOf(w, pid), restored, now, commits, trio)
    requires !(StepOf(w, pid) == TakenOut && commits) ==> restored == Restores(w, pid)
    ensures OutcomeOfStep(StepOf(w, pid), commits, restored, trio.package) == RemovePackageOutcomeOf(w, pid, now, commits)
    ensures WithTrio(w, pid, trio) == WorldTakenOut(w, pid, now, commits)
  {
    SameEntry(w.packages, pid);
    var p := w.packages[pid];
    if p.route.To? {
      SameEntry(w.routes, p.route.id);
    }
  }

  ghost function TrioOf(package: DeliveryPackage, customer: Customer, route: DeliveryRoute?): Trio
    reads package, customer, route
  {
    Trio(package.State(), customer.State(), if route == null then None else Some(route.State()))
  }

  /** Removes a stored package from its lists, or puts it back; the package itself is still stored. */
  method TakeOutStored(s: Store, package: DeliveryPackage, route: DeliveryRoute?, customer: Customer, now: Time, commits: bool, ghost w: World)
    returns (step: TakeOutStep, restored: bool)
    requires s.Standing() == Some(w) && s.HasPackage(package) && route == package.route && customer == package.customer
    modifies package, customer`packages, Optional(route)`packages, Optional(route)`events
    ensures Relinked(Change(s, route, null, package, customer))
    ensures Closed(w) && package.packageId in w.packages && step == StepOf(w, package.packageId)
    ensures !(step == TakenOut && commits) ==> restored == Restores(w, package.packageId)
    ensures TrioAfter(w, package.packageId, step, restored, now, commits, TrioOf(package, customer, route))
  {
    hide PutBackIn, Covers, ScheduleOf, Closed, Rearranged, ListRolledBack, RemovalEvent, RefreshedArrival,
         OnlyUnderItsId, Without,
         PackageRolledBack, Baseline, Detachment, ArrivalMissing, PutBackFails, RemoveAt, IndexOf, NoDup, Ready,
         Store.Standing, Store.Model,
         Store.Valid, Store.AllBuilt;
    BeforeRemoval(s, w, package);
    ghost var l0, r0 := customer.packages, if route == null then [] else route.packages;
    step, restored := TakeOutOrPutBack(package, route, customer, now, commits);
    if step == TakenOut && commits {
      IdsWithout(l0, package);
      if route != null && LeftRoute(step, w.packages[package.packageId].routeId) {
        IdsWithout(r0, package);
        assert route.State() == RouteLeft(w.routes[route.routeId], package.packageId, w.packages[package.packageId], now);
      }
    } else {
      if restored {
        RolledBackIds(l0, customer.packages, package, step == TakenOut);
      } else if step == TakenOut {
        IdsWithout(l0, package);
      }
      if route != null {
        ghost var left := LeftRoute(step, w.packages[package.packageId].routeId);
        RolledBackIds(r0, route.packages, package, left);
        assert route.State() == RouteRolledBack(w.routes[route.routeId], package.packageId, w.packages[package.packageId], left, restored, now);
      }
    }
    hide PackageIds, OnlyUnderItsId;
  }

  lemma AmendedByTrio(w: World, c: Change)
    requires c.package != null && c.customer != null && c.truck == null && c.package.packageId in w.packages
    requires w.packages[c.package.packageId].customer == c.customer.customerId
    requires w.packages[c.package.packageId].route == RouteLink(c.route)
    ensures Amended(w, c) == WithTrio(w, c.package.packageId, TrioOf(c.package, c.customer, c.route))
  {
  }

  /** Removes a stored package from its lists, or puts it back, as told of the world. */
  method RemoveFromLists(s: Store, package: DeliveryPackage, now: Time, commits: bool, ghost w: World)
    returns (outcome: RemovePackageOutcome)
    requires s.Standing() == Some(w) && s.HasPackage(package)
    modifies package, package.customer, Optional(package.route)
    ensures Closed(w) && package.packageId in w.packages
    ensures outcome == RemovePackageOutcomeOf(w, package.packageId, now, commits)
    ensures s.Standing() == Some(WorldTakenOut(w, package.packageId, now, commits))
  {
    hide OnlyUnderItsId, Relinked, Amended, Ready, Closed, TrioAfter, WithTrio, WorldTakenOut, RemovePackageOutcomeOf,
         OutcomeOfStep,
         StepOf, Restores, Store.Standing, Store.Model, Store.Valid, Store.AllBuilt, NoDup, Covers;
    BeforeRemoval(s, w, package);
    var route, customer := package.route, package.customer;
    assert w.packages[package.packageId].customer == customer.customerId && w.packages[package.packageId].route == RouteLink(route);
    ghost var c := Change(s, route, null, package, customer);
    var step, restored := TakeOutStored(s, package, route, customer, now, commits, w);
    StandingAfterRemoval(c);
    AmendedByTrio(w, c);
    TrioIsWorld(w, package.packageId, restored, now, commits, TrioOf(package, customer, route));
    outcome := OutcomeOfStep(step, commits, restored, package.State());
  }

  /** The store and an id it drops. */
  datatype Drop = Drop(s: Store, id: int)

  /** The store lost one package, and nothing else changed. */
  twostate predicate PackageDropped(c: Drop)
    reads c.s, c.s.customers.Values, c.s.packages.Values, c.s.routes.Values, c.s.trucks.Values
  {
    && c.s.packages == old(c.s.packages) - {c.id}
    && c.s.customers == old(c.s.customers) && c.s.routes == old(c.s.routes) && c.s.trucks == old(c.s.trucks)
    && (forall cid <- c.s.customers :: unchanged(c.s.customers[cid]))
    && (forall pid <- c.s.packages :: unchanged(c.s.packages[pid]))
    && (forall rid <- c.s.routes :: unchanged(c.s.routes[rid]))
    && (forall tid <- c.s.trucks :: unchanged(c.s.trucks[tid]))
  }

  twostate lemma ModelWithoutPackage(c: Drop)
    requires PackageDropped(c)
    ensures c.s.Model() == old(c.s.Model()).(packages := old(c.s.Model()).packages - {c.id})
  {
    var v, w := c.s.Model(), old(c.s.Model());
    forall cid <- c.s.customers ensures v.customers[cid] == w.customers[cid] {}
    forall rid <- c.s.routes ensures v.routes[rid] == w.routes[rid] {}
    forall tid <- c.s.trucks ensures v.trucks[tid] == w.trucks[tid] {}
    forall pid <- c.s.packages ensures v.packages[pid] == w.packages[pid] {}
    assert v.customers == w.customers && v.routes == w.routes && v.trucks == w.trucks;
    assert v.packages == w.packages - {c.id};
  }

  twostate lemma StandingWithoutPackage(c: Drop)
    requires old(c.s.Standing()).Some? && PackageDropped(c)
    requires forall rid <- old(c.s.Model()).routes :: c.id !in old(c.s.Model()).routes[rid].packages
    ensures c.s.Valid() && c.s.AllBuilt()
  {
    forall rid | rid in c.s.routes ensures c.s.RouteKept(rid) && c.s.routes[rid].Built() {
      assert old(c.s.RouteKept(rid)) && old(c.s.routes[rid].Built());
      assert old(c.s.Model()).routes[rid] == old(c.s.routes[rid].State());
      var list := c.s.routes[rid].packages;
      forall k {:trigger list[k]} | 0 <= k < |list| ensures c.s.HasPackage(list[k]) {
        assert PackageIds(list)[k] != c.id;
        assert old(c.s.HasPackage(c.s.routes[rid].packages[k]));
      }
    }
    forall tid | tid in c.s.trucks ensures c.s.TruckKept(tid) { assert old(c.s.TruckKept(tid)); }
    forall pid | pid in c.s.packages ensures c.s.PackageKept(pid) { assert old(c.s.PackageKept(pid)); }
    forall cid | cid in c.s.customers ensures c.s.CustomerKept(cid) { assert old(c.s.CustomerKept(cid)); }
  }

  /** In a linked world no route lists a removed package. */
  lemma RemovedFromEveryList(w: World, pid: int, now: Time, rid: int)
    requires Linked(w) && pid in w.packages && RemovePackageOutcomeOf(w, pid, now, true).PackageGone?
    requires rid in WorldTakenOut(w, pid, now, true).routes
    ensures pid !in WorldTakenOut(w, pid, now, true).routes[rid].packages
  {
    RemovalShape(w, pid, now, true);
    RemovingClosed(w, RemovePackage(w, pid, now, true), pid, true);
  }

  lemma NoListLeft(w: World, pid: int, now: Time)
    requires Linked(w) && pid in w.packages && RemovePackageOutcomeOf(w, pid, now, true).PackageGone?
    ensures forall rid <- WorldTakenOut(w, pid, now, true).routes :: pid !in WorldTakenOut(w, pid, now, true).routes[rid].packages
  {
    forall rid <- WorldTakenOut(w, pid, now, true).routes ensures pid !in WorldTakenOut(w, pid, now, true).routes[rid].packages {
      RemovedFromEveryList(w, pid, now, rid);
    }
  }

  lemma TakenOutThenDropped(w: World, pid: int, now: Time, commits: bool)
    requires Closed(w) && pid in w.packages
    ensures var v := WorldTakenOut(w, pid, now, commits);
      RemovePackage(w, pid, now, commits)
      == if RemovePackageOutcomeOf(w, pid, now, commits).PackageGone? then v.(packages := v.packages - {pid}) else v
  {
    if RemovePackageOutcomeOf(w, pid, now, commits).PackageGone? {
      assert RemovePackage(w, pid, now, commits).packages == w.packages - {pid}
          == WorldTakenOut(w, pid, now, commits).packages - {pid};
    }
  }

  /** A package is only gone once its removal was saved. */
  lemma GoneIsCommitted(w: World, pid: int, now: Time, commits: bool)
    requires Closed(w) && RemovePackageOutcomeOf(w, pid, now, commits).PackageGone?
    ensures commits
  {
  }

  /** Drops a package from the repository. */
  method DropPackage(s: Store, packageId: int, ghost v: World)
    requires s.Standing() == Some(v)
    modifies s`packages
    ensures s.packages == old(s.packages) - {packageId}
    ensures s.Model() == v.(packages := v.packages - {packageId})
    ensures (forall rid <- v.routes :: packageId !in v.routes[rid].packages) ==> s.Standing() == Some(v.(packages := v.packages - {packageId}))
  {
    ghost var c := Drop(s, packageId);
    s.packages := s.packages - {packageId};
    ModelWithoutPackage(c);
    if forall rid <- v.routes :: packageId !in v.routes[rid].packages {
      StandingWithoutPackage(c);
    }
  }

  /** Removes a stored package for good, or puts it back. */
  method RemoveStored(s: Store, package: DeliveryPackage, now: Time, commits: bool, ghost w: World)
    returns (outcome: RemovePackageOutcome)
    requires s.Standing() == Some(w) && s.HasPackage(package)
    modifies s`packages, package, package.customer, Optional(package.route)
    ensures Closed(w) && outcome == RemovePackageOutcomeOf(w, package.packageId, now, commits)
    ensures s.Model() == RemovePackage(w, package.packageId, now, commits)
    ensures s.packages == if outcome.PackageGone? then old(s.packages) - {package.packageId} else old(s.packages)
    ensures !outcome.PackageGone? || Linked(w) ==> s.Standing() == Some(RemovePackage(w, package.packageId, now, commits))
  {
    hide WorldTakenOut, RemovePackage, RemovePackageOutcomeOf, Linked, Closed, Store.Valid, Store.AllBuilt,
         Store.Model, NoDup;
    outcome := RemoveFromLists(s, package, now, commits, w);
    TakenOutThenDropped(w, package.packageId, now, commits);
    if outcome.PackageGone? {
      GoneIsCommitted(w, package.packageId, now, commits);
      DropPackage(s, package.packageId, WorldTakenOut(w, package.packageId, now, commits));
      if Linked(w) {
        NoListLeft(w, package.packageId, now);
      }
    }
  }

  /** What the store knows of an id it is to remove. */
  lemma BeforeSearch(s: Store, w: World, packageId: int, now: Time, commits: bool)
    requires s.Standing() == Some(w)
    ensures Closed(w) && s.Model() == w && w.packages.Keys == s.packages.Keys
    ensures packageId in s.packages ==> s.HasPackage(s.packages[packageId]) && s.packages[packageId].packageId == packageId
    ensures packageId in s.packages ==>
      && s.HasCustomer(s.packages[packageId].customer)
      && (s.packages[packageId].route != null ==> s.HasRoute(s.packages[packageId].route))
    ensures packageId !in s.packages ==>
      RemovePackageOutcomeOf(w, packageId, now, commits) == PackageNotFound && RemovePackage(w, packageId, now, commits) == w
  {
    s.ModelReady();
    if packageId in s.packages {
      assert s.PackageKept(packageId);
    }
  }

  /** Removes a package for good. A removal that cannot be carried through or saved puts the package back: last in
      the lists it had left, its arrival read from the route's schedule when it had to be put back there. When that
      schedule does not know the package's end the rollback fails as well, and stops there. */
  method RemovePackageFrom(s: Store, packageId: int, now: Time, commits: bool, ghost w: World)
    returns (outcome: RemovePackageOutcome)
    requires s.Standing() == Some(w)
    modifies s`packages, s.packages.Values, s.routes.Values, s.customers.Values
    ensures Closed(w) && outcome == RemovePackageOutcomeOf(w, packageId, now, commits)
    ensures s.Model() == RemovePackage(w, packageId, now, commits)
    ensures s.packages == if outcome.PackageGone? then old(s.packages) - {packageId} else old(s.packages)
    ensures !outcome.PackageGone? || Linked(w) ==> s.Standing() == Some(RemovePackage(w, packageId, now, commits))
  {
    BeforeSearch(s, w, packageId, now, commits);
    hide RemovePackage, RemovePackageOutcomeOf, Linked, Ready, Closed, Store.Standing, Store.Model, Store.Valid,
         Store.AllBuilt;
    if packageId !in s.packages {
      return PackageNotFound;
    }
    var package := s.packages[packageId];
    outcome := RemoveStored(s, package, now, commits, w);
  }
}
