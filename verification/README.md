# FleetFlow world state: a verified model

FleetFlow moves packages between seven Australian freight hubs. Routes visit cities in order, trucks serve routes,
packages ride on routes, and a heartbeat derives what everything should look like from the schedules and the clock.
The world can be saved as a snapshot that drops most of this derived state and rebuilt from it later.

The model has two layers.

- **Values.** `Fleet` describes a world as records keyed by id. The steps of the system are functions on worlds:
  `Reconciliation` (a pass over routes, told as the state a route's plan and the clock fix, not as a sequence of
  updates), `UseCaseSteps` (the four use cases and the heartbeat, rollbacks included), `SnapshotChecks`,
  `SnapshotRestore` and `SnapshotLinking` (the snapshot pipeline). The laws of the system are lemmas about these functions.
- **Objects.** `Entities` has the classes `Truck`, `Customer`, `DeliveryPackage` and `DeliveryRoute`, linked by reference and
  updated in place; `Stores` holds them by id. The methods follow the source statement by statement: the reconciler
  (`Reconciler`, `PackageReconciler`, `RoutePass`, `HeartbeatService`), the use cases (`UseCases`, `PackageRemoval`,
  `RouteRemoval`, `UseCaseRuns`), the validators (`SnapshotValidators`), the way from records to live objects
  (`SnapshotRebuilder`, `WorldStateLinker`, `SnapshotPreparer`) and onto the fleet (`VehicleManager`, `RuntimeSwap`,
  `WorldHandover`). Each ends with the store standing for the world the value layer names:
  `s.Standing() == Some(...)` says that every reference names a stored object, that every schedule is the one built from
  its path and departure, and which world of values the objects make up.

A world is *well formed* (`Fleet.WellFormed`) when links are two-way, a route is PLANNED exactly when it is unscheduled,
a served route is scheduled and its truck stands somewhere with the busy window of the route, a FREE truck has no route,
window or transit target, unassigned packages are at baseline, assigned ones ride forwards, and load and range are
within the truck's limits.

## Main results

- A pass is a projection (`Projection.PassIsProjection`), independent of the order of routes, idle when repeated
  (`RepeatLaws.RepeatedPassIsIdle`), and overridden by a later pass exactly when no completed route was reopened
  (`TimeLaws.LaterPassOverrides`, with the failing input in `Examples.EarlierPassMatters`).
- A failing route is as if absent, on values (`FailureIsolation`) and on objects (`RoutePass.ReconcileRoute`).
- Over any run of heartbeats, however sparse, a route of any status records its start, completion and truck release at
  most once, each with its exact condition, and a waiting package records exactly the milestones due, unless and only
  unless its route was completed, all heartbeats fell inside the travel window, and the package travels on that route
  with its pickup due by the last heartbeat (`LifecycleLaws`, with the failing input in `Examples.StalledPackageWaits`).
  Over runs that mix heartbeats with use cases and failed saves a package that stays on its route still records each
  milestone at most once (`RunMilestones.PackageMilestonesOverRuns`).
- The report of a pass is complete but for silent truck releases, and an empty report means an unchanged world
  (`ReportLaws.ReportIsComplete`, `ReportLaws.QuietPass`).
- Every run of use cases and heartbeats, failing and rolling back in any mix, keeps links, capacity and range
  (`UseCaseSafety.RunsAreSafe`), and the objects follow that run (`UseCaseRuns.ServeAll`).
- What a truck really carries: while its route is under way the packages on board, summed by status, weigh exactly the
  segment load at the last stop reached; the maximum segment load is the heaviest cargo ever on board; and in every
  state of every run a route's packages on board weigh no more than its truck can carry (`CargoLaws.CargoIsSegmentLoad`,
  `CargoLaws.HeaviestCargo`, `CargoLaws.CargoAfterPass`, `CargoLaws.RunsCarryWithinCapacity`).
- A route takes a truck exactly when it is free, at its start, and fit for load and distance, and a package exactly when
  it has no route, rides forwards, can still be picked up and fits the truck; every refusal has its one exact condition
  (`UseCaseSafety.TruckTakesRouteIff`, `UseCaseOutcomes.TruckRefusedIff`, `UseCaseOutcomes.RouteTakesPackageIff`).
- The outcome of every use case, of a pass and of its report, entity by entity and in plain terms of path, schedule and
  clock, without the functions the steps are built from (`UseCaseOutcomes`, `PassOutcomes`,
  `PassReports.CorrectionsAreDue`).
- Failed use cases leave what they touched as it was, to the extent the source restores it (`HeartbeatService.Advance`,
  `UseCases.AssignAndPersist`, `RouteRemoval.RemoveRouteFrom`, `PackageRemoval.RemovePackageFrom`).
- A snapshot is accepted exactly when it is consistent, also told record by record, a consistent one links without a miss into a safe world, and
  the snapshot of a well-formed world is accepted (`SnapshotSoundness`, `SnapshotAcceptance`, `SnapshotLinking`,
  `RestoredWorlds`, `SnapshotCompleteness`).
- Saving and restoring commutes with reconciling exactly when no completed route is seen inside its travel window
  (`Restoring.RestoringCommutes`, onto the live fleet in `HandoverLaws.RestoringOntoFleetCommutes`).
- The pipeline from the records of a snapshot to the live trucks ends in the prepared world on its fleet, with no route
  holding a truck clone (`SnapshotPreparer.PrepareSnapshot`, `WorldHandover.RestoreSnapshot`). A failed swap puts
  repositories, counters and trucks back, and loses the backlinks of routes already left
  (`RuntimeSwap.Runtime.ReplaceWorldState`).
- The codec registry takes exactly the registrations it should, stays coherent, and encoded events read back
  (`EventCodecs`).

## Where the code differs from its description

- The runtime swap is documented to roll back on failure (src/adapters/driven/persistence/memory/world_state_gateway.py:56-68).
  It restores the trucks but not the truck references of the routes they had left (lines 133-140 against
  src/application/services/vehicle_manager.py:94-101). `RuntimeSwap.Runtime.ReplaceWorldState` says exactly when that
  shows and `Examples.FailedSwapForgetsRoute` gives a fleet; no run of use cases reaches one
  (`WorldHandover.RunsKeepFleetBacklinked`).
- A COMPLETED route seen inside its travel window cannot be started (src/domain/entities/delivery_route.py:175-176), so its
  pass fails and is swallowed; `ReconciliationLaws.BlockedIff` shows this is the only failure in a linked world.
- The validators accept a truck under way without a location
  (src/application/services/validators/truck_snapshot_validator.py:97-135), which no use case produces;
  `RestoredWorlds.RestoredWorldIsSafe` gives the exact condition and `Examples.PlacelessTruckIsAccepted` the input. The
  pass after linking places such a truck until its route's final ETA is over, so what is restored is well formed exactly
  up to then (`PlacingLaws.RestoredIsWellFormedIff`).
- A failed package removal appends the package at the end of the lists it had left
  (src/application/use_cases/packages/remove_package.py:110-122), so its position is not restored, unless it was last
  (`UseCaseSafety.FailedRemovalIsUndoneIff`, with the input in `Examples.FailedRemovalReorders`). When the package's end
  is no stop of the route's schedule, the rollback itself raises (src/domain/entities/delivery_route.py:638-640), before
  the route's events and the customer's list come back; `PackageRemoval.TakeOutOrPutBack` gives the exact condition, and
  `UseCaseSafety.OnItsRoute` shows that no linked world meets it.
- The report of a pass leaves out a completed route that only loses its truck
  (src/application/services/world_state_reconciliation_service.py:111-118), so a heartbeat does not save that route;
  `ReportLaws.ReportIsComplete` says this is the only change of a route, package or truck left out of a report, and
  `Examples.UnlistedRouteChanges` gives the input.

## Model

| member | source | states |
|---|---|---|
| CityMap.DistancesAreComplete | src/domain/services/map.py:108-129 | a pair of codes has a distance exactly when it is one code twice or two supported cities; the distance is symmetric, and zero only from a city to itself |
| RoutePaths.CreatePath | src/domain/value_objects/route_path.py:49-77 | a path is accepted exactly when it has at least two supported cities and none twice; duplicates are reported only when they are there |
| RouteSchedules.AcceptedIffTimetable | src/domain/value_objects/route_schedule.py:101-155 | the chain of constructor checks accepts exactly the timetables: unique stops chained by positive legs whose durations add up to the arrivals |
| RouteSchedules.ArrivalsIncrease | src/domain/value_objects/route_schedule.py:101-155 | along an accepted schedule arrivals strictly increase, for any two stops |
| RouteSchedules.ArrivalAtStop | src/domain/value_objects/route_schedule.py:167-182 | looking a stop up by its city finds that stop and its arrival |
| RouteSchedules.SegmentContribution | src/domain/value_objects/route_schedule.py:217-261 | what one segment answers for a time inside it: the later stop with the ETA after it, or transit between its two stops; neither fallback is reached |
| RouteSchedules.PositionAtIsClosedForm | src/domain/value_objects/route_schedule.py:184-215 | the scan over segments equals the position read off the last stop reached, at every instant: before start, in transit on one segment, at a named stop, after the end |
| RouteSchedules.ProgressIsMonotone | src/domain/value_objects/route_schedule.py:184-215 | at a later instant, before departure included, the position is as far along or further: stop by stop, and in transit between two stops after the first and before the second |
| RouteScheduling.Build | src/domain/services/route_scheduler.py:19-71 | the loop builds the timetable of the path stop by stop, or reports the first of: too few locations, a speed that is not positive, an unknown distance, a rejected schedule |
| RouteScheduling.PathIsAcceptedIff | src/domain/services/route_scheduler.py:19-71 | at a given speed a validated path is accepted exactly when no leg is so short that its travel time rounds to zero |
| RouteScheduling.SchedulingIsTotal | src/domain/services/route_scheduler.py:19-71 | at the default speed every validated path and departure give a timetable |
| RouteScheduling.ArrivalErrorIsBounded | src/domain/services/route_scheduler.py:19-71 | the k-th arrival is within k/2 microseconds of the exact rational travel time |
| RouteScheduling.DurationInMicroseconds | src/domain/services/route_scheduler.py:51-71 | a leg of as many kilometres as the hourly speed takes 60 * 60 * 1_000_000 microseconds, and every leg the time of its kilometres to the nearest microsecond |
| RouteScheduling.TotalsAgree | src/domain/entities/delivery_route.py:283-289 | the distance summed over scheduled segments is the distance summed over the path, up to any stop |
| RouteLoads.MaximumSegmentLoad | src/domain/services/route_load_calculator.py:16-61 | the nested loops over the load array return the greatest segment load, the extra package included, for any tuple of locations: endpoints count at their last occurrence, and on a path, where that is the only one, each segment carries the packages that span it |
| RouteLoads.AddPackage | src/domain/services/route_load_calculator.py:44-61 | one run of the inner loop adds the weight to exactly the segments between the two indexes and to no other |
| RouteLoads.MaximumLoadIgnoresOrder | src/domain/services/route_load_calculator.py:16-61 | the maximum depends on the packages as a multiset only |
| RouteLoads.RemovalNeverRaisesLoad | src/domain/services/route_load_calculator.py:16-61 | taking a package off never raises the maximum |
| RouteLoads.MaximumLoadWithinTotal | src/domain/services/route_load_calculator.py:16-61 | the maximum is at least zero and at most the total weight |
| CargoLaws.CargoIsSegmentLoad | src/domain/services/route_load_calculator.py:44-61 | while a route is under way the weights of its packages with status MOVING add up to its segment load at the last stop reached |
| CargoLaws.HeaviestCargo | src/domain/services/route_load_calculator.py:16-61 | the maximum segment load of a scheduled route is the heaviest cargo ever on board: exceeded at no instant, reached at some instant |
| CargoLaws.CargoAfterPass | src/application/services/world_state_reconciliation_service.py:440-568 | after a pass over a well-formed world the packages of a visited route that are on board weigh exactly the segment load at the last stop reached, nothing outside the travel window, and no more than its truck can carry |
| CargoLaws.RunsCarryWithinCapacity | src/domain/services/package_assignment_policy.py:168-182 | in every state of every run the packages on board a route with a truck weigh no more than the truck can carry, if at the start of the run the packages on board each route shared one segment, as when none has been picked up |
| CargoLaws.PassBringsTogether | src/application/services/world_state_reconciliation_service.py:440-568 | after a pass that visits every route the packages on board each route share one segment, whatever their status was before |
| UseCaseOutcomes.RouteTakesPackageIff | src/domain/services/package_assignment_policy.py:25-65 | in a linked world a route takes exactly a package that has no route, has both ends on the path in order, a pickup still ahead, and fits capacity and range of the truck; one exact condition for each refusal |
| UseCaseOutcomes.TruckRefusedIff | src/domain/services/truck_assignment_policy.py:39-96 | in a linked world each refusal of a truck has one exact condition: range, capacity, a route that ends too late, a wrong place, a route it still serves |
| Assignments.PickupAcceptedIff | src/domain/services/package_assignment_policy.py:89-120 | on a scheduled route the pickup is accepted exactly before departure, or for a later stop up to and at its arrival |
| Assignments.AcceptedPackageStaysAtStart | src/domain/services/package_assignment_policy.py:89-120 | a package accepted at an instant and reconciled at that instant is waiting or just picked up at its start, never moved on or delivered |
| Entities.Truck.Assign | src/domain/entities/truck.py:111-121 | the truck serves the route: on the way, its busy window the departure and ETA of the route, no transit target |
| Entities.Truck.Release | src/domain/entities/truck.py:123-156 | the truck is released exactly when it has a route and is forced or the final ETA has passed; it then stands free at the end of that route; one that has a route and is not released keeps its state |
| Entities.Truck.RestoreState | src/domain/entities/truck.py:90-101 | restoring a snapshot brings back every runtime field |
| Entities.DeliveryPackage.MarkPickedUp | src/domain/entities/delivery_package.py:174-207 | picks up exactly a waiting package that knows its route, and records the step as it was before and after |
| Entities.DeliveryPackage.MarkDelivered | src/domain/entities/delivery_package.py:209-242 | delivers exactly a package under way that knows its route, and records the step as it was before and after |
| Entities.DeliveryPackage.ResetAssignmentState | src/domain/entities/delivery_package.py:309-314 | a reset package has no assignment state left |
| Entities.DeliveryPackage.RestoreCheckpoint | src/shared/event_recorder_mixin.py:32-43 | pending events are cut back exactly for a checkpoint within them |
| Entities.DeliveryRoute.RestoreState | src/domain/entities/delivery_route.py:261-280 | restoring a snapshot brings back departure, status, truck and packages, with the schedule the scheduler builds from that departure |
| Entities.DeliveryRoute.TotalDistanceKm | src/domain/entities/delivery_route.py:283-289 | a built route has the same distance whether scheduled or not |
| Entities.DeliveryRoute.CurrentPosition | src/domain/entities/delivery_route.py:358-371 | the position of the route is the closed form of its schedule |
| Entities.DeliveryRoute.MarkStarted | src/domain/entities/delivery_route.py:166-187 | starts exactly a scheduled route and records it |
| Entities.DeliveryRoute.MarkCompleted | src/domain/entities/delivery_route.py:189-223 | completes exactly a scheduled or started route, and records it with departure and ETA |
| Entities.DeliveryRoute.Schedule | src/domain/entities/delivery_route.py:296-335 | schedules exactly a planned route, on the timetable of its path |
| Entities.DeliveryRoute.AssignPackage | src/domain/entities/delivery_route.py:399-433 | an accepted package is listed once, linked back and shows the arrival the schedule gives at its own end; a rejected or listed one changes nothing |
| Entities.DeliveryRoute.DetachPackage | src/domain/entities/delivery_route.py:435-483 | takes exactly a listed, linked package off the list and resets it |
| Entities.DeliveryRoute.AssignTruck | src/domain/entities/delivery_route.py:485-529 | takes exactly a free truck with a known place, on both sides, and records it |
| Entities.DeliveryRoute.ReleaseTruck | src/domain/entities/delivery_route.py:531-594 | each of the four outcomes with its exact condition; a release frees the truck at the end of the route it served |
| Entities.DeliveryRoute.RestorePackageLink | src/domain/entities/delivery_route.py:642-656 | a package not listed comes back last and linked; its arrival is refreshed when asked for, and the call fails exactly when its end is no stop of the schedule |
| Entities.Customer.RemovePackage | src/domain/entities/customer.py:137-153 | takes exactly a listed package off the list, in place |
| Entities.Customer.AddPackage | src/domain/entities/customer.py:101-123 | a package joins the list and leaves the list of the customer it belonged to; fails exactly when it is listed already or its old customer does not list it |
| Reconciler.ApplyStatus | src/application/services/world_state_reconciliation_service.py:289-341 | the status goes to the scheduled one by a lifecycle step where there is one and a correction elsewhere, and fails exactly when no lifecycle step leads there |
| Reconciler.SetTruckAtStop | src/application/services/world_state_reconciliation_service.py:374-412 | places the truck at the reached stop, and releases it there when that ends the route |
| Reconciler.TruckByPosition | src/application/services/world_state_reconciliation_service.py:150-243 | the truck state told case by case from the position is the one closed form of plan and time |
| Reconciler.ReconcileTruck | src/application/services/world_state_reconciliation_service.py:131-243 | the truck ends at its scheduled place, released when the route is over, with the events and corrections of the change; fails exactly for a truck of another route or one due for release from an unknown place |
| PackageReconciler.LastReachedCity | src/application/services/world_state_reconciliation_service.py:648-687 | the scan over the part of the route a package rides finds the city of the last stop reached: the scan by stops agrees with the scan by segments |
| PackageReconciler.CompleteLifecycle | src/application/services/world_state_reconciliation_service.py:570-609 | takes the overdue pickup and delivery steps, stamped with their scheduled times |
| PackageReconciler.AdvanceInProgress | src/application/services/world_state_reconciliation_service.py:611-646 | brings a package inside its window to the city its route has reached |
| PackageReconciler.ReconcilePackage | src/application/services/world_state_reconciliation_service.py:440-568 | one package ends in the closed form of plan, endpoints and time, with exactly the due lifecycle events and corrections |
| PackageReconciler.ReconcilePackages | src/application/services/world_state_reconciliation_service.py:440-568 | all packages of a route, in list order, with the changed ids and corrections in that order |
| RoutePass.TryRoute | src/application/services/world_state_reconciliation_service.py:78-93 | the stages of one pass, or a failure that only added events |
| RoutePass.UndoRoute | src/application/services/world_state_reconciliation_service.py:95-103 | the way back restores route, schedule, packages, truck and pending events |
| RoutePass.ReconcileRoute | src/application/services/world_state_reconciliation_service.py:65-128 | the pass over a route ends in its closed form, or leaves the route, its packages, its truck and their events exactly as before |
| StoredPasses.ReconcileStored | src/application/services/world_state_reconciliation_service.py:65-128 | the pass over one stored route is the step of the world, and touches nothing else in the store |
| HeartbeatService.ReconcileRoutes | src/application/services/world_state_reconciliation_service.py:35-129 | the loop over the routes is the pass of the world and its report; a failing route is left and the others go on |
| HeartbeatService.PassAddsEvents | src/application/services/world_state_reconciliation_service.py:35-129 | a pass only appends to event lists |
| ReconciliationLaws.BlockedIff | src/application/services/world_state_reconciliation_service.py:83-110 | in a linked world the pass over a route fails exactly for a completed route inside its travel window |
| ReconciliationLaws.ReconciledLinked | src/application/services/world_state_reconciliation_service.py:83-110 | a pass keeps every two-way link of the world |
| ReconciliationLaws.ReconciledWellFormed | src/application/services/world_state_reconciliation_service.py:83-110 | a pass keeps a world well formed: links, limits and built schedules |
| PassOutcomes.PassOnRoute | src/application/services/world_state_reconciliation_service.py:289-341 | what a pass makes of each route, read off its stops: status, truck and recorded events before departure, under way and from the final arrival on; a route not visited stays as it is |
| PassOutcomes.PassOnTruck | src/application/services/world_state_reconciliation_service.py:131-243 | what a pass makes of each truck: at the start before departure, at the last stop reached under way with the next one as target, free at the end of the path afterwards |
| PassOutcomes.PassOnPackage | src/application/services/world_state_reconciliation_service.py:440-568 | what a pass makes of each package: waiting at its start before the pickup is due, at the last stop reached, delivered at its end from the arrival there on, with the overdue steps recorded at the scheduled times |
| PassReports.CorrectionsAreDue | src/application/services/world_state_reconciliation_service.py:35-129 | a pass over a linked world reports exactly the corrections due on visited routes, their trucks and packages, with the values before and after and the reasons in order |
| PassReports.TruckListsAreTold | src/application/services/world_state_reconciliation_service.py:111-128 | a truck is listed as moved exactly when its place changed, as released exactly when it lost its route, and never as one that was given its route back |
| Projection.PassIsProjection | src/application/services/world_state_reconciliation_service.py:35-129 | one route after another or all at once: every entity of a route that passes ends in the closed form of its plan and the time, every other entity is untouched |
| Projection.ProjectionIsUnique | src/application/services/world_state_reconciliation_service.py:35-129 | that closed form names one world only |
| Projection.PassIgnoresOrder | src/application/services/world_state_reconciliation_service.py:35-129 | the order in which routes are visited does not matter |
| TimeLaws.LaterPassOverrides | src/application/services/world_state_reconciliation_service.py:35-129 | a pass at t1 then at t2 >= t1 ends where the pass at t2 alone ends, events aside, exactly when no completed route was reopened by the earlier one |
| RepeatLaws.RepeatedPassIsIdle | src/application/services/world_state_reconciliation_service.py:35-129 | a second pass at the same time changes nothing, records no event and reports no correction |
| ReportLaws.ReportedRoutes | src/application/services/world_state_reconciliation_service.py:111-128 | for any world without dangling references, the report of one route lists that route exactly when it changes, but for the loss of its truck by a route already completed, whose truck it lists as released |
| ReportLaws.ReportIsComplete | src/application/services/world_state_reconciliation_service.py:111-128 | the report of a pass over a linked world lists exactly the packages and trucks that changed, and exactly the routes that changed but for completed ones past their final ETA that lost their truck, which it lists as released |
| ReportLaws.QuietPass | src/application/services/world_state_reconciliation_service.py:35-129 | in any world without dangling references a pass that reports no change made none |
| ReportLaws.ChangesAreReported | src/application/services/world_state_reconciliation_service.py:35-129 | in a linked world a pass reports a change exactly when it made one |
| LifecycleLaws.RouteMilestonesExactlyOnce | src/application/services/world_state_reconciliation_service.py:289-341 | over any run of heartbeats a route of any status records start, completion and release of its truck each at most once and in this order, stamped with departure or final ETA: the start exactly when a heartbeat falls inside the travel window and the route was scheduled at the outset or by a first heartbeat before departure, the completion exactly when the run reaches the final ETA and the route was not completed all along, the release exactly when the run reaches the final ETA and it had a truck |
| LifecycleLaws.CompletedRouteReleasesItsTruck | src/application/services/world_state_reconciliation_service.py:374-412 | a completed route that still holds a truck records no completion and exactly one release, at the final ETA |
| LifecycleLaws.PackageMilestonesExactlyOnce | src/application/services/world_state_reconciliation_service.py:509-609 | over any run of heartbeats a waiting package records exactly the prefix of pickup and delivery that the last time fixes, stamped with the scheduled times, except exactly when its route was completed, first and last heartbeat fall inside the travel window, and its pickup is due |
| LifecycleLaws.PackageHistory | src/application/services/world_state_reconciliation_service.py:509-609 | without that condition, a waiting package records exactly the milestones due at the last heartbeat that took effect: the last one, or none while its route is stalled |
| LifecycleLaws.PackagesTravelWithTruck | src/application/services/world_state_reconciliation_service.py:414-438 | a package under way is where its truck is, and none is under way once the truck is released for completion |
| RunMilestones.PackageMilestonesOverRuns | src/application/services/world_state_reconciliation_service.py:509-609 | over any run of requests with heartbeats in order of time, failed saves and use cases between them included, a waiting package that stays on its route records pickup and delivery at most once, in this order, at the scheduled times, and its status says which |
| FailureIsolation.FailedRouteIsAsIfAbsent | src/application/services/world_state_reconciliation_service.py:95-110 | a route whose pass fails leaves the same world and report as if it had not been listed, for all other routes |
| FailureIsolation.FailuresAreForeseen | src/application/services/world_state_reconciliation_service.py:95-110 | in a linked world the failing routes are known before the pass, whatever the order |
| HeartbeatService.Advance | src/application/services/heartbeat_service.py:35-107 | nothing is saved when the report is empty, and then the world is unchanged; when saving fails every route, package, truck and pending event is as before |
| Undo.CaptureBatch | src/application/services/heartbeat_service.py:54-63 | everything the batch can reach is captured, state and event checkpoint |
| Undo.RestoreBatch | src/application/services/heartbeat_service.py:88-101 | the loops put the whole batch back, a package captured twice included |
| UseCases.AssignAndPersist | src/application/use_cases/routes/assign_truck_to_route.py:171-182 | the truck is assigned and saved, a planned route scheduled to leave now, or route and truck are exactly as before, the schedule and events included |
| UseCases.AssignTruckToRoute | src/application/use_cases/routes/assign_truck_to_route.py:90-119 | the use case on stored objects is the step of the world, each refusal with its exact condition |
| UseCaseSafety.TruckTakesRouteIff | src/application/use_cases/routes/assign_truck_to_route.py:90-119 | in a linked world a route takes exactly a truck that serves no route, stands at its start and can carry its load over its distance; a serving truck the policy finds available in time is still refused as busy, and none is refused for want of a place |
| UseCaseOutcomes.TruckTaken | src/application/use_cases/routes/assign_truck_to_route.py:171-182 | the whole world after a truck was assigned: a planned route is scheduled to leave now and records it, a scheduled one keeps its schedule, the truck is busy from departure to final arrival and stays where it is |
| UseCases.UniquePackageIds | src/application/use_cases/routes/assign_packages_to_route.py:130-139 | each id once, at its first occurrence |
| UseCases.OfferPackage | src/application/use_cases/routes/assign_packages_to_route.py:161-185 | a package is assigned and saved, refused by the policy, or put back when saving fails |
| UseCases.AssignPackagesToRoute | src/application/use_cases/routes/assign_packages_to_route.py:77-121 | the batch on stored objects is the batch of the world: outcomes in order, ended by a failed save whose package is rolled back while earlier ones stay |
| UseCaseOutcomes.PackageTaken | src/application/use_cases/routes/assign_packages_to_route.py:161-185 | the whole world after a package was assigned: linked both ways, waiting at its start, with the scheduled arrival at its own end; nothing changes otherwise |
| UseCaseOutcomes.ArrivalIsLookedUp | src/domain/entities/delivery_route.py:638-640 | the arrival looked up in the schedule for the end of a package is the one reconciliation wants it to show |
| UseCaseOutcomes.AssignedArrivalStands | src/domain/entities/delivery_route.py:638-640 | no pass, at the instant of the assignment or later, has to recalculate the arrival of a package that was assigned |
| UseCaseOutcomes.ArrivalStands | src/application/services/world_state_reconciliation_service.py:440-568 | a pass at any instant recalculates the arrival of a package exactly when it is not the scheduled one at its end |
| UseCaseSteps.FailureEndsBatch | src/application/use_cases/routes/assign_packages_to_route.py:97-111 | after a failed save no further package is tried |
| RouteRemoval.StripOrPutBack | src/application/use_cases/routes/remove_route.py:179-185 | a removal that fails at any stage leaves the route, its packages, its truck and their events exactly as before |
| RouteRemoval.RemoveRouteFrom | src/application/use_cases/routes/remove_route.py:81-126 | the use case on stored objects is the step of the world: packages at baseline, the truck free at the end of the route it served, the route gone; otherwise nothing changed |
| UseCaseOutcomes.RouteTakenOut | src/application/use_cases/routes/remove_route.py:81-126 | the whole world after a route was removed, package by package and truck by truck; a removal that cannot be saved changes nothing |
| UseCaseOutcomes.RouteRemovalRecorded | src/application/use_cases/routes/remove_route.py:81-126 | what the removal of a route records, in order: every package that left, its truck, the route itself |
| UseCaseOutcomes.PackageTakenOut | src/application/use_cases/packages/remove_package.py:68-129 | the whole world after a package was removed: off the lists of its customer and of its route, the detachment recorded |
| UseCaseOutcomes.PackageRemovalRecorded | src/application/use_cases/packages/remove_package.py:68-129 | the removed package is at baseline and records what it was |
| UseCaseOutcomes.PackagePutBack | src/application/use_cases/packages/remove_package.py:110-122 | the whole world after a removal that could not be saved: the package last in both lists, with the scheduled arrival at its end |
| PackageRemoval.TakeOutOrPutBack | src/application/use_cases/packages/remove_package.py:110-122 | a failed removal restores the package up to its position in the lists it had left and an arrival read from the schedule when it was put back there; when that schedule does not know its end the rollback fails too, with the package on the route and off its customer, the detachment still recorded |
| PackageRemoval.PutBackExactlyIff | src/application/use_cases/packages/remove_package.py:110-122 | a list of distinct packages comes back as it was after a failed removal exactly when the package was last in it, or was in it and had not left |
| PackageRemoval.RemovePackageFrom | src/application/use_cases/packages/remove_package.py:68-129 | the use case on stored objects is the step of the world, each failure with its exact condition and its rollback, the rollback that fails included |
| UseCaseSafety.OnItsRoute | src/domain/entities/delivery_route.py:638-640 | in a linked world every assigned package ends at a stop of its route, so no rollback fails to find an arrival |
| UseCaseSafety.FailedRemovalIsUndoneIff | src/application/use_cases/packages/remove_package.py:110-122 | a removal that cannot be saved leaves a linked world as it was exactly when the package was last in the list of its customer and, if assigned, last in the list of its route with the arrival the schedule gives |
| UseCaseSafety.AssignedWellFormed | src/application/use_cases/routes/assign_packages_to_route.py:161-185 | assigning a package keeps the world well formed, capacity of the truck included |
| UseCaseSafety.TruckAssignedWellFormed | src/application/use_cases/routes/assign_truck_to_route.py:90-119 | assigning a truck keeps the world well formed, load and range of the route included |
| UseCaseSafety.RemovedPackageWellFormed | src/application/use_cases/packages/remove_package.py:68-129 | removing a package, or failing to, keeps the world well formed |
| UseCaseSafety.RemovedRouteWellFormed | src/application/use_cases/routes/remove_route.py:81-126 | removing a route, or failing to, keeps the world well formed |
| UseCaseSafety.PassWellFormed | src/application/services/heartbeat_service.py:35-107 | a heartbeat over any routes keeps the world well formed |
| UseCaseSafety.RunsAreSafe | src/domain/entities/delivery_route.py:399-594 | in every state of every run, failures and rollbacks included: a truck and its route name each other, the truck carries the load over the distance, its busy window is the route's, FREE means no route, each package is in exactly the list of the route it names |
| UseCaseRuns.Serve | src/application/use_cases/routes/assign_packages_to_route.py:97-111 | one request carried out on the stored objects is the step of the world |
| UseCaseRuns.ServeAll | src/domain/entities/delivery_route.py:399-594 | any run of requests carried out on the stored objects ends in the world of that run, with every reference naming a stored object |
| Snapshots.RouteRecords | src/application/services/world_state_snapshot_builder.py:94-105 | one record for each route, smallest id first, without status or schedule |
| Snapshots.PackageRecords | src/application/services/world_state_snapshot_builder.py:79-91 | one record for each package, smallest id first, without status, place or arrival |
| Snapshots.TruckRecords | src/application/services/world_state_snapshot_builder.py:108-121 | one record for each truck, smallest id first |
| Snapshots.Sorted | src/application/services/world_state_snapshot_builder.py:60-63 | the ids of a set, strictly ascending, all of them |
| SnapshotValidators.EnsureUniqueIds | src/application/services/validators/identity_validator.py:65-84 | the loop accepts exactly positive ids, none twice |
| SnapshotValidators.ValidateReferences | src/application/services/validators/reference_validator.py:12-60 | the loop accepts exactly references that are there, with no truck on two routes |
| SnapshotValidators.ValidateTrucks | src/application/services/validators/truck_snapshot_validator.py:14-94 | the loop returns the first finding among the truck records |
| SnapshotValidators.RecordSegmentLoad | src/application/services/validators/compatibility_validator.py:102-118 | the second copy of the load loop, by dictionary and running index, computes the same maximum on every path |
| SnapshotValidators.RecordDistance | src/application/services/validators/compatibility_validator.py:121-127 | the running total is the distance of the path; fails exactly on an unknown leg |
| SnapshotValidators.ValidateTruckRoutes | src/application/services/validators/compatibility_validator.py:55-99 | the loop returns the first finding among routes with a truck: unscheduled, too heavy, of unknown distance, too far |
| SnapshotValidators.ValidateCustomers | src/application/services/validators/customer_validator.py:11-43 | the loop accepts exactly contacts that share no normalised email and no normalised phone |
| SnapshotValidators.ValidateSnapshot | src/application/services/world_snapshot_validator.py:31-60 | the checks run in their order and the first finding is the verdict |
| SnapshotSoundness.TrucksPassIff | src/application/services/validators/truck_snapshot_validator.py:14-94 | the truck checks pass exactly when records are unique, complete for schema 2, consistent with their status, and a route and its truck name each other |
| SnapshotSoundness.AcceptedIffConsistent | src/application/services/world_snapshot_validator.py:31-60 | a snapshot is accepted exactly when its schema is supported, it is consistent, its contacts are apart and its counters are ahead of its ids |
| SnapshotAcceptance.AcceptedIffAcceptable | src/application/services/world_snapshot_validator.py:31-60 | the same acceptance told record by record, without the checks: ids distinct, positive and below the next one, every reference and link answered, packages forwards, trucks fit, placed and named back, contacts apart |
| SnapshotRestore.RebuildsIffBuildable | src/application/services/world_state_snapshot_rebuilder.py:26-59 | rebuilding succeeds exactly when every record is one an entity can be built from |
| SnapshotLinking.LinkRestores | src/application/services/world_state_linker.py:32-81 | linking a rebuilt consistent snapshot never misses a reference and arrives at the linked world, whatever the order of records |
| RestoredWorlds.RestoredWorldIsSafe | src/application/services/world_state_linker.py:102-156 | the linked world has no dangling reference, each package on exactly the route it names, trucks and routes naming each other, load and range within limits; it is fully linked exactly when each assigned truck has a place |
| PlacingLaws.RestoredIsWellFormedIff | src/application/services/world_state_snapshot_preparer.py:52-85 | an accepted snapshot ends on its fleet, after the pass, as a well-formed world exactly when every assigned truck without a place serves a route that is not past its final ETA |
| PlacingLaws.PassPlacesIff | src/application/services/world_state_reconciliation_service.py:374-412 | a world well formed but for trucks without a place ends a pass over all its routes well formed exactly when the pass reaches each such truck: its route not past its final ETA and not completed inside its travel window |
| SnapshotCompleteness.SavedWorldIsAccepted | src/application/services/world_state_snapshot_builder.py:23-57 | the snapshot of a well-formed world passes every check and can be rebuilt, proved from the world |
| Restoring.PreparedWorld | src/application/services/world_state_snapshot_preparer.py:36-85 | behind the checks linking never fails and what is prepared is the linked world after one pass |
| Restoring.RestoringCommutes | src/application/services/world_state_snapshot_preparer.py:52-85 | saving and preparing at an instant gives the world a pass at that instant gives, up to events and list order, exactly when no completed route is inside its travel window |
| WorldStateLinker.LinkPackagesToRoutes | src/application/services/world_state_linker.py:83-107 | the loops over stored objects link what the records name, and fail exactly on a missing id or on a listed package whose end is no stop of the schedule |
| WorldStateLinker.BuildCandidates | src/application/services/world_state_linker.py:158-194 | one new truck for each record, a clone of the fleet truck in the recorded state; fails exactly on a truck the fleet lacks |
| WorldStateLinker.CloneTruck | src/application/services/world_state_linker.py:258-278 | a new truck equal to the old one but on no route |
| WorldStateLinker.LinkCandidateTrucks | src/application/services/world_state_linker.py:109-156 | every route that names a truck serves its candidate, cloned at the start of the route when no record made one; the fleet is untouched |
| WorldStateLinker.LinkStore | src/application/services/world_state_linker.py:32-81 | linking the stored objects is the linking of values, and fails exactly when that does: on a missing id, or on a package without an arrival |
| WorldStateLinker.PrepareRebuilt | src/application/services/world_state_snapshot_preparer.py:54-66 | linking and one pass over the rebuilt objects end in the linked world after its pass; no stored truck is a fleet truck and the fleet is untouched |
| SnapshotRebuilder.RebuildPackages | src/application/services/world_state_snapshot_rebuilder.py:99-130 | one new package for each record, at its start, on no route, listed with its customer in record order; of two records with one id the later one is kept; stops at a record no package can be built from |
| SnapshotRebuilder.RebuildRoutes | src/application/services/world_state_snapshot_rebuilder.py:132-154 | one new route for each record, with the schedule of its path and departure, no truck and no package; fails exactly on a record no route can be built from |
| SnapshotRebuilder.RebuildStore | src/application/services/world_state_snapshot_rebuilder.py:26-59 | customers, packages and routes are rebuilt as new objects with the values of the rebuilt world, or the first record that cannot be built is reported; while no package id comes twice, every reference names a stored object |
| SnapshotPreparer.PrepareSnapshot | src/application/services/world_state_snapshot_preparer.py:36-85 | from records to reconciled objects: the first failing check or record is reported, otherwise new objects stand for exactly the prepared world, and nothing that existed has changed |
| VehicleManager.BuildTruckBindings | src/application/services/world_state_linker.py:196-255 | for any link dictionaries: fails exactly on a record whose route or link is missing, and otherwise gives the bindings of the candidates overridden by those of the records in order, smallest truck id first; behind a linked world the records add nothing |
| VehicleManager.ClearFleet | src/application/services/vehicle_manager.py:94-108 | takes trucks off their routes up to the first one whose route does not name it back, and exactly those |
| VehicleManager.ReplaceTruckBindings | src/application/services/vehicle_manager.py:77-122 | the last binding of a truck gives its state and the last of a route gives its truck; every other fleet truck is free where it stood; a route the fleet left names no truck; stops exactly at a route that does not name its truck |
| RuntimeSwap.Runtime.ReplaceWorldState | src/adapters/driven/persistence/memory/world_state_gateway.py:47-117 | the repositories, their counters and the fleet are replaced; a failed swap puts repositories, counters and trucks back exactly, and the routes exactly when no truck before the offending one served one |
| WorldHandover.HandOver | src/application/services/vehicle_manager.py:77-122 | a prepared store put on the fleet keeps every reference inside the store: no route holds a clone, and unbound trucks are free |
| WorldHandover.RestoreSnapshot | src/application/services/world_state_snapshot_preparer.py:36-85 | from the records of a snapshot to the live trucks: reports the first failing check or record and changes nothing, fails exactly on a live route that does not name its truck, and otherwise ends in the prepared world on its fleet |
| WorldHandover.RunsKeepFleetBacklinked | src/application/services/vehicle_manager.py:94-108 | in every state of every run each served route names its truck, so no swap fails there |
| HandoverLaws.OnFleetWellFormed | src/application/services/vehicle_manager.py:94-122 | a well-formed world stays well formed on its fleet |
| HandoverLaws.LinkedWorldFits | src/application/services/world_state_linker.py:32-81 | a linked world names routes and trucks both ways and its trucks are those of the fleet |
| HandoverLaws.PassFits | src/application/services/world_state_reconciliation_service.py:35-129 | a pass moves and releases trucks on both sides at once |
| HandoverLaws.RestoringOntoFleetCommutes | src/application/services/world_state_snapshot_preparer.py:52-85 | saving a world and restoring it onto its own fleet gives the world a pass at that instant gives, exactly when no completed route is inside its travel window |
| EventCodecs.RegistryStaysCoherent | src/application/eventing/outbox/registry.py:211-320 | over any sequence of registrations, refused ones included, the two indexes agree and historical readers are strictly older |
| EventCodecs.EntriesStay | src/application/eventing/outbox/registry.py:211-320 | a registered reader is never replaced or lost, in either index |
| EventCodecs.EncodedEventsReadBack | src/application/eventing/outbox/registry.py:174-208 | whatever the checked encoder lets through is decoded to the same event by the reader found under its identity, after any later registrations |
| EventCodecs.CanonicalIff | src/application/eventing/outbox/registry.py:323-328 | a name is accepted exactly when something is left of it and stripping it changes nothing |
| EventCodecs.CurrentTakenIff | src/application/eventing/outbox/registry.py:224-260 | a current codec is taken exactly when its reader is for the class, its name canonical, its version positive and that of the class, and neither class nor identity taken; it then stands in both indexes |
| EventCodecs.HistoricalTakenIff | src/application/eventing/outbox/registry.py:262-288 | a historical reader is taken exactly when it is for the class, its name canonical, its version positive and older than that of the class, and its identity free; it then stands in the identity index alone |
| EventCodecs.DecodesIff | src/application/eventing/outbox/registry.py:107-151 | decoding lets through exactly what the reader makes of a JSON object, of the right class and with the metadata kept |
| EventCodecs.EncodesIff | src/application/eventing/outbox/registry.py:174-208 | encoding lets through exactly a JSON object from which the reader makes the very same event with its metadata again |
| EventCodecs.CodecRegistry.Register | src/application/eventing/outbox/registry.py:224-260 | both indexes gain the codec, or a refusal, each with its exact condition, leaves both as they were |
| EventCodecs.CodecRegistry.RegisterDecoder | src/application/eventing/outbox/registry.py:262-288 | the identity index alone gains an older reader, or a refusal, each with its exact condition, leaves both as they were |
| EventCodecs.CodecRegistry.ForIdentity | src/application/eventing/outbox/registry.py:304-320 | finds the reader of exactly this name and version, and says not found exactly for a valid identity without one |
| EventCodecs.CodecRegistry.ForEvent | src/application/eventing/outbox/registry.py:290-302 | finds the current codec of the class of the event; fails only for a class without one |
| Examples.SydneyToMelbourne | src/domain/services/route_scheduler.py:19-71 | the 877 kilometres from Sydney to Melbourne take 36289.655172 seconds |
| Examples.LoadsAddUpOnOneLeg | src/domain/services/route_load_calculator.py:16-61 | packages on one leg add up, those on different legs do not |
| Examples.FirstCodecIsTaken | src/application/eventing/outbox/registry.py:224-260 | an empty registry takes the first codec of an event in version 1 |
| Examples.EarlierPassMatters | src/application/services/world_state_reconciliation_service.py:35-129 | a world where a pass just before departure changes what the pass at departure gives |
| Examples.StalledPackageWaits | src/application/services/world_state_reconciliation_service.py:509-609 | a completed route seen at departure whose waiting package does not record its due pickup |
| Examples.UnlistedRouteChanges | src/application/services/world_state_reconciliation_service.py:111-128 | a well-formed world whose completed route loses its truck in a pass that does not list the route |
| Examples.FailedRemovalReorders | src/application/use_cases/packages/remove_package.py:110-122 | a customer with two packages whose list is reversed by a removal that could not be saved |
| Examples.RestoringMatters | src/application/services/world_state_snapshot_preparer.py:52-85 | a well-formed world whose save, restored at departure, differs from the running world after a pass |
| Examples.FailedSwapForgetsRoute | src/adapters/driven/persistence/memory/world_state_gateway.py:133-140 | a fleet on which a failed swap leaves a live route without its truck |
| Examples.PlacelessTruckIsAccepted | src/application/services/validators/truck_snapshot_validator.py:112-135 | an accepted snapshot whose restored world has a truck under way that is nowhere |
| Examples.PlacelessTruckIsPlacedInTime | src/application/services/world_state_snapshot_preparer.py:52-85 | that snapshot restored at departure is a well-formed world, and restored after the final ETA it is not |
| Examples.BusyWorldIsWellFormed | src/domain/entities/delivery_route.py:399-594 | a world with every kind of link in it is well formed and can be saved |

## Left out

- Times are integers of microseconds: date overflow, time zones and the date-string serializer are not modelled.
- Location codes are a datatype with one constructor for unsupported text: trimming and upper-casing of codes are not modelled.
- Weights are reals, and a leg's duration is the exact quotient rounded half to even to microseconds: binary floating point is not modelled.
- Contact text rules (accepted texts, normalised email and phone) are a parameter, `SnapshotChecks.ContactRules`.
- Repositories are maps from id to object, a unit of work is a commit that succeeds or fails, and the clock is a parameter.
- Authorization, logging, event dispatch and clearing of pending events after a commit, event ids and metadata: no part of the world state.
- Creating routes, packages and customers, fleet seeding and queries: they would add easy members.
- `reconcile_routes` without trucks (`update_trucks=False`): no caller of the source asks for it.
- Summaries name entities by id instead of holding references, and the set of changed trucks is a list.
- HTTP, CLI, JSON files and SQL adapters are not part of this model.
- `find_available_for_route` is a filter by the modelled policy and a sort by id.
- WorldStateLinker.LinkStore: the half-linked detached objects a failed linking leaves behind are not described, since nothing refers to them.
- WorldHandover.RestoreSnapshot: the live repositories themselves are replaced in `RuntimeSwap.Runtime.ReplaceWorldState`; here the store passes to the prepared objects, and the live routes left behind when a swap fails are described there.
- PackageRemoval.TakeOutOrPutBack: requires that the lists hold no other object under the id of the package.
- EventCodecs.EncodedEventsReadBack: codecs are deterministic functions; a codec that answers differently on a second call is not modelled.
- RouteSchedules.PositionAtIsClosedForm: for schedules the constructor accepts; other schedules cannot be built.
- UseCaseSafety.RunsAreSafe: a heartbeat visits any duplicate-free order of stored routes, of which the repository's own order is one.
- CargoLaws.RunsCarryWithinCapacity: requires that at the start the packages on board a route share a segment, since a well-formed world may show packages as MOVING that no instant puts on board together; a pass that visits every route makes it so (`CargoLaws.PassBringsTogether`).
