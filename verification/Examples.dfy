/** Concrete worlds and fleets: what well-formed ones look like, and the inputs at which a law needs its condition. */
module Examples {
  import opened Common
  import opened CityMap
  import opened RoutePaths
  import opened RouteSchedules
  import opened RouteScheduling
  import opened RouteLoads
  import opened Fleet
  import opened Reconciliation
  import opened ReconciliationLaws
  import opened Projection
  import opened TimeLaws
  import opened Snapshots
  import opened SnapshotChecks
  import opened SnapshotSoundness
  import opened SnapshotRestore
  import opened SnapshotLinking
  import opened SnapshotCompleteness
  import opened RestoredWorlds
  import opened Restoring
  import opened HeartbeatService
  import opened HandoverLaws
  import opened LifecycleLaws
  import opened ReportLaws
  import opened Entities
  import opened VehicleManager
  import opened RuntimeSwap
  import opened UseCaseSteps
  import opened UseCaseSafety
  import opened PlacingLaws
  import opened EventCodecs

  const EASTBOUND: seq<LocationCode> := [SYD, MEL]

  /** Contact rules that accept every contact and tell none apart. */
  const ANY_CONTACT := ContactRules((_: Contact) => true, (_: string) => "", (_: string) => "")

  /** One route from Sydney to Melbourne that departs at time zero. */
  function Coastal(status: RouteStatus, truck: Link, packages: seq<int>): RouteState {
    RouteState(EASTBOUND, Some(ScheduleOf(EASTBOUND, 0, SPEED_KMPH)), status, truck, packages, [])
  }

  lemma CoastalPlan(status: RouteStatus, truck: Link, packages: seq<int>)
    requires NoDup(packages)
    ensures ValidPath(EASTBOUND) && Sound(Coastal(status, truck, packages)) && Shaped(Coastal(status, truck, packages))
    ensures Derived(Coastal(status, truck, packages)) && DistanceKm(EASTBOUND) == 877
    ensures EtaFinal(ScheduleOf(EASTBOUND, 0, SPEED_KMPH)) > 0
  {
    SchedulingIsTotal(EASTBOUND, 0);
  }

  lemma CoastalStops()
    ensures var s := ScheduleOf(EASTBOUND, 0, SPEED_KMPH); |s.stops| == 2 && s.departure == s.stops[0].arrivalAt == 0 < s.stops[1].arrivalAt
    ensures IndexOf(EASTBOUND, SYD) == 0 && IndexOf(EASTBOUND, MEL) == 1 && IncludesInOrder(EASTBOUND, SYD, MEL)
  {
    CoastalPlan(SCHEDULED, Unlinked, []);
  }

  // ----- plain numbers

  /** 877 kilometres at 87 kilometres an hour take 10 hours, 4 minutes and 49.655172 seconds. */
  lemma SydneyToMelbourne()
    ensures EtaFinal(ScheduleOf(EASTBOUND, 0, SPEED_KMPH)) == 36_289_655_172
  {
    assert ScheduleOf(EASTBOUND, 0, SPEED_KMPH).stops[1].arrivalAt == ArrivalOf(EASTBOUND, 0, SPEED_KMPH, 1);
  }

  /** Packages on the same leg add up; those on different legs do not. */
  lemma LoadsAddUpOnOneLeg()
    ensures MaximumLoad(EASTBOUND, [PackageLoad(SYD, MEL, 100.0)]) == 100.0
    ensures MaximumLoad([SYD, MEL, ADL],
                        [PackageLoad(SYD, MEL, 60.0), PackageLoad(MEL, ADL, 50.0), PackageLoad(SYD, ADL, 1.0)]) == 61.0
  {
    var a, b, c := PackageLoad(SYD, MEL, 60.0), PackageLoad(MEL, ADL, 50.0), PackageLoad(SYD, ADL, 1.0);
    var path := [SYD, MEL, ADL];
    assert IndexOf(path, SYD) == 0 && IndexOf(path, MEL) == 1 && IndexOf(path, ADL) == 2;
    assert IndexOf(EASTBOUND, SYD) == 0 && IndexOf(EASTBOUND, MEL) == 1;
    forall i: nat ensures SegmentLoad(path, [a, b, c], i) == Share(path, a, i) + Share(path, b, i) + Share(path, c, i) {
      LoadOfConcat(path, [a, b], [c], i);
      LoadOfConcat(path, [a], [b], i);
      assert [a, b, c] == [a, b] + [c] && [a, b] == [a] + [b];
    }
    assert SegmentLoads(path, [a, b, c]) == [61.0, 51.0];
    assert SegmentLoads(EASTBOUND, [PackageLoad(SYD, MEL, 100.0)]) == [100.0];
  }

  /** The first codec of an event in its first version is taken by an empty registry. */
  lemma FirstCodecIsTaken(codec: Codec)
    requires codec.reader.cls == EventClass("RouteStarted", 1) && codec.reader.eventType == "route.started" && codec.reader.version == 1
    ensures EventClass("RouteStarted", 1) in Registered(EMPTY, Current(EventClass("RouteStarted", 1), codec)).byClass
  {
    assert CanonicalName("route.started");
    CurrentTakenIff(EMPTY, EventClass("RouteStarted", 1), codec);
  }

  // ----- a completed route seen inside its travel window

  /** A completed route and nothing else. */
  function CompletedWorld(): World {
    World(map[], map[], map[1 := Coastal(COMPLETED, Unlinked, [])], map[])
  }

  lemma CompletedWorldIsWellFormed()
    ensures WellFormed(CompletedWorld()) && Saveable(CompletedWorld(), Counters(1, 1, 2), ANY_CONTACT)
    ensures CompletedTooEarly(CompletedWorld().routes[1], 0) && Reopened(CompletedWorld().routes[1], -1, 0)
  {
    CoastalPlan(COMPLETED, Unlinked, []);
    var w := CompletedWorld();
    assert Closed(w);
    assert RouteLinked(w, 1) && WithinLimits(w, 1);
  }

  /** A pass just before departure reopens the route, and the pass at departure then starts it; the pass at departure
      alone leaves it completed. */
  lemma EarlierPassMatters()
    ensures Enumerates([1], CompletedWorld()) && Linked(CompletedWorld())
    ensures !SameButEvents(Pass(Pass(CompletedWorld(), [1], -1).0, [1], 0).0, Pass(CompletedWorld(), [1], 0).0)
  {
    CompletedWorldIsWellFormed();
    var w := CompletedWorld();
    assert ReopenedIn(w, Elements([1]), To(1), -1, 0);
    LaterPassOverrides(w, [1], -1, 0);
  }

  /** Saved and restored at departure the route is under way; in the running world it stays completed. */
  lemma RestoringMatters()
    ensures Restorable(Saved(CompletedWorld(), Counters(1, 1, 2)), map[], ANY_CONTACT)
    ensures var w, s := CompletedWorld(), Saved(CompletedWorld(), Counters(1, 1, 2));
      && Traceable(s, map[]) && Known(LinkedWorld(s, map[]), RouteIdsIn(s.routes)) && Known(w, RouteIdsIn(s.routes))
      && !Alike(OnFleet(RestoredAt(s, map[], 0), map[]), Pass(w, RouteIdsIn(s.routes), 0).0)
  {
    CompletedWorldIsWellFormed();
    RestoringOntoFleetCommutes(CompletedWorld(), Counters(1, 1, 2), ANY_CONTACT, 0);
  }

  // ----- a world with everything in it

  function BusyPackage(): PackageState {
    PackageState(SYD, MEL, 5.0, 1, To(1), To(1), TODO, SYD, None, [])
  }

  function BusyTruck(): TruckState {
    TruckState(10, 1000, ON_THE_WAY, Some(SYD), To(1), Some(0), Some(EtaFinal(ScheduleOf(EASTBOUND, 0, SPEED_KMPH))), None)
  }

  /** One customer's package on a route that a truck serves. */
  function BusyWorld(status: RouteStatus): World {
    World(map[1 := CustomerState(Contact("Ann", "", ""), [1])], map[1 := BusyPackage()],
          map[1 := Coastal(status, To(1), [1])], map[1 := BusyTruck()])
  }

  lemma BusyEntities(status: RouteStatus)
    ensures var w := BusyWorld(status);
      && w.customers.Keys == w.packages.Keys == w.routes.Keys == w.trucks.Keys == {1}
      && w.packages[1] == BusyPackage() && w.trucks[1] == BusyTruck() && w.customers[1].packages == [1]
      && w.routes[1] == Coastal(status, To(1), [1])
  {
    hide BusyPackage, BusyTruck, Coastal;
  }

  lemma BusyClosed(status: RouteStatus)
    ensures Closed(BusyWorld(status)) && Derived(BusyWorld(status).routes[1])
  {
    hide ScheduleOf, EtaFinal, Sound, Derived, BusyWorld;
    BusyEntities(status);
    CoastalPlan(status, To(1), [1]);
  }

  lemma BusyRoute(status: RouteStatus)
    requires status != PLANNED
    ensures Closed(BusyWorld(status)) && RouteLinked(BusyWorld(status), 1)
  {
    hide ScheduleOf, EtaFinal, Sound, Closed, IndexOf, IncludesInOrder, Derived, BusyWorld;
    BusyEntities(status);
    BusyClosed(status);
    CoastalPlan(status, To(1), [1]);
    CoastalStops();
  }

  lemma BusyLoad(status: RouteStatus)
    ensures Closed(BusyWorld(status)) && LoadsOn(BusyWorld(status), 1) == [PackageLoad(SYD, MEL, 5.0)]
  {
    BusyClosed(status);
    hide ScheduleOf, EtaFinal, Closed;
  }

  lemma BusyLimits(status: RouteStatus)
    ensures Closed(BusyWorld(status)) && WithinLimits(BusyWorld(status), 1)
  {
    BusyLoad(status);
    CoastalPlan(status, To(1), [1]);
    assert TotalWeight([PackageLoad(SYD, MEL, 5.0)]) == 5.0;
    MaximumLoadWithinTotal(EASTBOUND, [PackageLoad(SYD, MEL, 5.0)]);
    hide ScheduleOf, EtaFinal, Sound, Closed, Timetable, MaximumLoad, DistanceKm, TotalWeight, LoadsOf;
  }

  lemma BusyCargo(status: RouteStatus)
    requires Closed(BusyWorld(status))
    ensures TruckLinked(BusyWorld(status), 1) && PackageLinked(BusyWorld(status), 1) && CustomerLinked(BusyWorld(status), 1)
  {
    hide ScheduleOf, EtaFinal, Closed;
  }

  lemma BusySaveable(status: RouteStatus)
    ensures Saveable(BusyWorld(status), Counters(2, 2, 2), ANY_CONTACT)
  {
    hide ScheduleOf, EtaFinal;
  }

  /** What the laws require of a world can be met by one with every link in it. */
  lemma BusyWorldIsWellFormed(status: RouteStatus)
    requires status != PLANNED
    ensures WellFormed(BusyWorld(status)) && Saveable(BusyWorld(status), Counters(2, 2, 2), ANY_CONTACT)
  {
    hide ScheduleOf, EtaFinal, Closed, RouteLinked, TruckLinked, PackageLinked, CustomerLinked, WithinLimits, Derived,
         Saveable;
    BusyClosed(status);
    BusyRoute(status);
    BusyLimits(status);
    BusyCargo(status);
    BusySaveable(status);
  }

  lemma BusyIsLinked(status: RouteStatus)
    requires status != PLANNED
    ensures Linked(BusyWorld(status)) && Closed(BusyWorld(status)) && Enumerates([1], BusyWorld(status))
  {
    hide Saveable, BusyWorld, Linked, Closed;
    BusyWorldIsWellFormed(status);
    BusyClosed(status);
    BusyEntities(status);
  }

  /** A waiting package on a completed route, seen once at departure: its pickup is due, and is not recorded. */
  lemma StalledPackageWaits()
    ensures Linked(BusyWorld(COMPLETED)) && Enumerates([1], BusyWorld(COMPLETED)) && Closed(BusyWorld(COMPLETED))
    ensures 1 in Heartbeats(BusyWorld(COMPLETED), [1], [0]).packages
    ensures var w := BusyWorld(COMPLETED);
      Stamps(Heartbeats(w, [1], [0]).packages[1].events)
      != Stamps(w.packages[1].events) + PackageMilestones(w.routes[1], w.packages[1], LastOf([0]))
  {
    hide BusyWorld, Coastal, ScheduleOf, EtaFinal, Stalled, Travels, StopTime, PackageMilestones, StatusAfter, Stamps,
         Heartbeats, Linked,
         Enumerates;
    var w := BusyWorld(COMPLETED);
    BusyIsLinked(COMPLETED);
    BusyEntities(COMPLETED);
    StalledAtDeparture();
    PackageMilestonesExactlyOnce(w, [1], [0], 1);
  }

  lemma StalledAtDeparture()
    ensures var r, p := BusyWorld(COMPLETED).routes[1], BusyWorld(COMPLETED).packages[1];
      Shaped(r) && Stalled(r, [0]) && Travels(r, p) && StopTime(r, p.start) == 0
  {
    hide ScheduleOf, IndexOf;
    CoastalStops();
  }

  /** A completed route that still holds its truck at the final ETA: the pass takes the truck off it and does not report
      the route. */
  lemma UnlistedRouteChanges()
    ensures var w, now := BusyWorld(COMPLETED), EtaFinal(ScheduleOf(EASTBOUND, 0, SPEED_KMPH));
      && WellFormed(w) && Enumerates([1], w)
      && RouteChanged(w, Pass(w, [1], now).0, 1) && 1 !in Pass(w, [1], now).1.routes
  {
    hide BusyWorld, ScheduleOf, WellFormed, Linked, Pass, RouteChanged;
    CoastalStops();
    var w, now := BusyWorld(COMPLETED), EtaFinal(ScheduleOf(EASTBOUND, 0, SPEED_KMPH));
    BusyWorldIsWellFormed(COMPLETED);
    BusyIsLinked(COMPLETED);
    BusyEntities(COMPLETED);
    assert SilentRelease(w.routes[1], now);
    PassReportsRoute(w, [1], now, 1);
  }

  // ----- a removal that cannot be saved

  function WaitingPackage(): PackageState {
    PackageState(SYD, MEL, 5.0, 1, Unlinked, Unlinked, TODO, SYD, None, [])
  }

  /** A customer with two packages, neither of them assigned. */
  function TwoPackageWorld(): World {
    World(map[1 := CustomerState(Contact("Ann", "", ""), [1, 2])], map[1 := WaitingPackage(), 2 := WaitingPackage()], map[], map[])
  }

  lemma TwoPackagesAreWellFormed()
    ensures WellFormed(TwoPackageWorld())
  {
    var w := TwoPackageWorld();
    assert Closed(w);
    assert PackageLinked(w, 1) && PackageLinked(w, 2);
    assert CustomerLinked(w, 1);
  }

  /** Failing to save the removal of the first package puts it behind the second. */
  lemma FailedRemovalReorders()
    ensures WellFormed(TwoPackageWorld())
    ensures RemovePackage(TwoPackageWorld(), 1, 0, false).customers[1].packages == [2, 1]
    ensures RemovePackage(TwoPackageWorld(), 2, 0, false) == TwoPackageWorld()
  {
    TwoPackagesAreWellFormed();
    FailedRemovalIsUndoneIff(TwoPackageWorld(), 2, 0);
  }

  // ----- a swap that fails half way

  /** A fleet of two trucks: the first serves a route that names it, the second one that does not. */
  method HalfBacklinkedFleet() returns (first: Truck, second: Truck)
    ensures fresh(first) && fresh(second) && first != second
    ensures first.route != null && fresh(first.route) && first.route.truck == first
    ensures second.route != null && fresh(second.route) && second.route != first.route && second.route.truck != second
  {
    CoastalPlan(PLANNED, Unlinked, []);
    first := new Truck(1, 10, 1000);
    second := new Truck(2, 10, 1000);
    var served := new DeliveryRoute(1, EASTBOUND, None);
    var other := new DeliveryRoute(2, EASTBOUND, None);
    served.truck, first.route, second.route := first, served, other;
  }

  /** Swapping such a fleet for an empty world fails, and although repositories and trucks are put back, the first
      route has lost its truck. */
  method FailedSwapForgetsRoute() returns (first: Truck, second: Truck, served: DeliveryRoute, ok: bool)
    ensures fresh(first) && fresh(second)
    ensures !ok && first.route == served && served.truck == null
  {
    first, second := HalfBacklinkedFleet();
    served := first.route;
    var fleet := [first, second];
    var live := new Runtime();
    assert fleet[..1] == [first] && fleet[0] == first && fleet[1] == second && first in fleet && second in fleet[..2];
    assert RoutesLeft(fleet) == {served, second.route} && served in RoutesLeft([first]);
    ghost var before := first.SnapshotState();
    label Swap:
    ghost var stop;
    ok, stop := live.ReplaceWorldState(map[], map[], map[], Counters(1, 1, 1), fleet, []);
    assert old@Swap(StopsAt(fleet, stop)) && stop == 1;
    assert first.SnapshotState() == before;
    assert served in old@Swap(RoutesLeft(fleet)) && served in old@Swap(RoutesLeft(fleet[..stop]));
  }

  // ----- an assigned truck without a place

  /** A scheduled route served by a truck whose record says no place. */
  function PlacelessSnapshot(): Snapshot {
    Snapshot(2, Counters(1, 1, 2), [], [], [RouteRecord(1, EASTBOUND, Some(0), To(1), [])],
             [TruckRecord(1, Status(ON_THE_WAY), None, To(1), None, None, None)])
  }

  function OneTruckFleet(): map<int, TruckState> {
    map[1 := TruckState(10, 1000, FREE, Some(SYD), Unlinked, None, None, None)]
  }

  lemma PlacelessReferences()
    ensures IdsOk(PlacelessSnapshot()) && ReferencesOk(PlacelessSnapshot(), OneTruckFleet().Keys)
    ensures LinksAgree(PlacelessSnapshot()) && PackagesFit(PlacelessSnapshot())
  {
  }

  lemma PlacelessTrucks()
    ensures TrucksOk(PlacelessSnapshot(), OneTruckFleet().Keys)
  {
    var s := PlacelessSnapshot();
    assert TruckIdsIn(s.trucks)[0] == 1;
    assert s.routes[0].truck == To(1) && s.routes[0].id == 1;
  }

  lemma PlacelessRoute()
    ensures RoutesKnown(PlacelessSnapshot().routes, PackagesById([]), OneTruckFleet())
    ensures RouteTruckOk(PlacelessSnapshot().routes[0], PackagesById([]), OneTruckFleet())
  {
    CoastalPlan(SCHEDULED, To(1), []);
    SchedulingIsTotal(EASTBOUND, 0);
    MaximumLoadWithinTotal(EASTBOUND, []);
  }

  lemma PlacelessIsConsistent()
    ensures Consistent(PlacelessSnapshot(), OneTruckFleet())
  {
    PlacelessReferences();
    PlacelessTrucks();
    PlacelessRoute();
    hide IdsOk, ReferencesOk, LinksAgree, PackagesFit, TrucksOk, RouteTruckOk;
  }

  lemma PlacelessBuilds()
    ensures Buildable(PlacelessSnapshot(), ANY_CONTACT) && !TrucksLocated(PlacelessSnapshot())
  {
    var s := PlacelessSnapshot();
    CoastalPlan(SCHEDULED, To(1), []);
    assert s.routes[0].truck == To(s.trucks[0].id);
  }

  /** The snapshot is accepted and rebuilt, yet its linked world has a truck under way that is nowhere. */
  lemma PlacelessTruckIsAccepted()
    ensures Verdict(PlacelessSnapshot(), {2}, OneTruckFleet(), ANY_CONTACT) == Passed && RebuildFinding(PlacelessSnapshot(), ANY_CONTACT) == Passed
    ensures Traceable(PlacelessSnapshot(), OneTruckFleet()) && !Linked(LinkedWorld(PlacelessSnapshot(), OneTruckFleet()))
  {
    var s, fleet := PlacelessSnapshot(), OneTruckFleet();
    hide Consistent, Verdict, RebuildFinding, LinkedWorld, Linked, Traceable, TrucksLocated, Buildable;
    PlacelessIsConsistent();
    PlacelessBuilds();
    AcceptedIffConsistent(s, {2}, fleet, ANY_CONTACT);
    RebuildsIffBuildable(s, ANY_CONTACT);
    RestoredWorldIsSafe(s, fleet, ANY_CONTACT);
  }

  /** Restored at departure that truck is placed and the world is well formed; restored after the final ETA it is not. */
  lemma PlacelessTruckIsPlacedInTime()
    ensures var s, fleet, late := PlacelessSnapshot(), OneTruckFleet(), EtaFinal(ScheduleOf(EASTBOUND, 0, SPEED_KMPH)) + 1;
      && Traceable(s, fleet) && Known(LinkedWorld(s, fleet), RouteIdsIn(s.routes))
      && WellFormed(OnFleet(RestoredAt(s, fleet, 0), fleet)) && !WellFormed(OnFleet(RestoredAt(s, fleet, late), fleet))
  {
    hide LinkedWorld, WellFormed, OnFleet, RestoredAt, Verdict, RebuildFinding, Traceable, ScheduleOf, Known;
    CoastalStops();
    var s, fleet, late := PlacelessSnapshot(), OneTruckFleet(), EtaFinal(ScheduleOf(EASTBOUND, 0, SPEED_KMPH)) + 1;
    PlacelessTruckIsAccepted();
    RestoredIsWellFormedIff(s, {2}, fleet, ANY_CONTACT, 0);
    RestoredIsWellFormedIff(s, {2}, fleet, ANY_CONTACT, late);
    assert PlacedInTime(s, 0);
    assert s.routes[0].truck == To(s.trucks[0].id) && !PlacedInTime(s, late);
  }
}
