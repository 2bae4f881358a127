/** Preparing a snapshot on objects: check it, rebuild it, link it, and reconcile it. */
module SnapshotPreparer {
  import opened Common
  import opened Fleet
  import opened Reconciliation
  import opened Entities
  import opened Stores
  import opened Snapshots
  import opened SnapshotChecks
  import opened SnapshotSoundness
  import opened SnapshotValidators
  import opened SnapshotRestore
  import opened SnapshotLinking
  import opened SnapshotRebuilder
  import opened HeartbeatService
  import opened WorldStateLinker
  import opened Restoring

  /** What the checks leave for rebuilding. */
  lemma CheckedRecords(snapshot: Snapshot, supported: set<int>, states: map<int, TruckState>, rules: ContactRules)
    requires Verdict(snapshot, supported, states, rules) == Passed
    ensures NoDup(PackageIdsIn(snapshot.packages)) && NoDup(RouteIdsIn(snapshot.routes))
    ensures forall k {:trigger snapshot.routes[k]} :: 0 <= k < |snapshot.routes| ==> |snapshot.routes[k].locations| >= 2
  {
    AcceptedIffConsistent(snapshot, supported, states, rules);
    hide Verdict;
  }

  lemma CheckedIsRestorable(snapshot: Snapshot, supported: set<int>, states: map<int, TruckState>, rules: ContactRules)
    requires Verdict(snapshot, supported, states, rules) == Passed && RebuildFinding(snapshot, rules) == Passed
    ensures Restorable(snapshot, states, rules)
  {
    AcceptedIffConsistent(snapshot, supported, states, rules);
    RebuildsIffBuildable(snapshot, rules);
    hide Verdict, RebuildFinding, Consistent, Buildable;
  }

  /** The rebuilt routes, in record order. */
  method RebuiltList(s: Store, records: seq<RouteRecord>) returns (routes: seq<DeliveryRoute>)
    requires s.Standing().Some? && forall k {:trigger records[k]} :: 0 <= k < |records| ==> records[k].id in s.routes
    ensures HeartbeatService.Listed(s, routes) && RouteIds(routes) == RouteIdsIn(records)
  {
    routes := seq(|records|, k requires 0 <= k < |records| && records[k].id in s.routes reads s => s.routes[records[k].id]);
    forall k | 0 <= k < |records| ensures s.HasRoute(s.routes[records[k].id]) && routes[k].routeId == records[k].id {
      assert s.RouteKept(records[k].id);
    }
    assert RouteIds(routes) == RouteIdsIn(records);
  }

  lemma RecordsRebuilt(records: seq<RouteRecord>)
    ensures forall k {:trigger records[k]} :: 0 <= k < |records| ==> records[k].id in RoutesById(records)
  {
    forall k {:trigger records[k]} | 0 <= k < |records| ensures records[k].id in RoutesById(records) {
      assert RouteIdsIn(records)[k] == records[k].id;
    }
  }

  /** Rebuilds, links and reconciles a snapshot that has passed the checks. */
  method PrepareChecked(snapshot: Snapshot, fleet: map<int, Truck>, rules: ContactRules, now: Time,
                        ghost supported: set<int>, ghost states: map<int, TruckState>) returns (found: Finding, s: Store)
    requires FleetKnown(fleet) && FleetStates(fleet) == states && Verdict(snapshot, supported, states, rules) == Passed
    ensures found == RebuildFinding(snapshot, rules)
    ensures found == Passed ==> s.Standing().Some? && Prepare(snapshot, supported, states, rules, now) == Ok(s.Standing().value)
    ensures fresh(s) && (forall t <- s.trucks.Values :: fresh(t)) && (forall r <- s.routes.Values :: fresh(r))
  {
    hide Verdict, RebuildFinding, Prepare, Restorable, RebuiltWorld, LinkedWorld, Store.Standing, Pass, NoDup,
         RoutesById, FleetKnown, FleetStates, Store.Valid, Store.AllBuilt, Store.Model, Linked, Traceable, Known;
    CheckedRecords(snapshot, supported, states, rules);
    found, s := RebuildStore(snapshot, rules);
    if found != Passed {
      s := new Store();
      return;
    }
    CheckedIsRestorable(snapshot, supported, states, rules);
    RecordsRebuilt(snapshot.routes);
    var routes := RebuiltList(s, snapshot.routes);
    var summary := PrepareRebuilt(s, snapshot, fleet, routes, now, rules, states);
    PreparedWorld(snapshot, supported, states, rules, now);
  }

  /** The whole pipeline up to the live fleet. The first check that fails, or the first record no entity can be built
      from, is reported; otherwise new objects stand for the prepared world, and nothing that existed has changed. */
  method PrepareSnapshot(snapshot: Snapshot, supported: set<int>, fleet: map<int, Truck>, rules: ContactRules, now: Time)
    returns (found: Finding, s: Store)
    requires FleetKnown(fleet)
    ensures found != Passed ==> Prepare(snapshot, supported, FleetStates(fleet), rules, now) == Err(found)
    ensures found == Passed ==>
      s.Standing().Some? && Prepare(snapshot, supported, FleetStates(fleet), rules, now) == Ok(s.Standing().value)
    ensures found == Passed <==>
      Verdict(snapshot, supported, FleetStates(fleet), rules) == Passed && RebuildFinding(snapshot, rules) == Passed
    ensures fresh(s) && (forall t <- s.trucks.Values :: fresh(t)) && (forall r <- s.routes.Values :: fresh(r))
  {
    hide Verdict, RebuildFinding, Prepare, Store.Standing, FleetKnown;
    var states := FleetStates(fleet);
    found := ValidateSnapshot(snapshot, supported, states, rules);
    Refused(snapshot, supported, states, rules, now);
    if found != Passed {
      s := new Store();
      return;
    }
    found, s := PrepareChecked(snapshot, fleet, rules, now, supported, states);
  }

  lemma Refused(snapshot: Snapshot, supported: set<int>, states: map<int, TruckState>, rules: ContactRules, now: Time)
    ensures Verdict(snapshot, supported, states, rules) != Passed ==>
      Prepare(snapshot, supported, states, rules, now) == Err(Verdict(snapshot, supported, states, rules))
    ensures Verdict(snapshot, supported, states, rules) == Passed && RebuildFinding(snapshot, rules) != Passed ==>
      Prepare(snapshot, supported, states, rules, now) == Err(RebuildFinding(snapshot, rules))
  {
    hide Verdict, RebuildFinding;
  }
}
