/** World-state snapshots: what a save stores of the world, and how it is built from it. */
module Snapshots {
  import opened Common
  import opened CityMap
  import opened Fleet

  datatype Counters = Counters(nextCustomerId: int, nextPackageId: int, nextRouteId: int)

  datatype CustomerRecord = CustomerRecord(id: int, contact: Contact)

  /** A package without status, location or arrival. */
  datatype PackageRecord = PackageRecord(
    id: int, start: LocationCode, end: LocationCode, weight: real, customer: int, route: Link)

  /** A route without status or schedule; only the departure is stored. */
  datatype RouteRecord = RouteRecord(
    id: int, locations: seq<LocationCode>, departure: Option<Time>, truck: Link, packages: seq<int>)

  /** The stored text of a truck status. */
  datatype StatusText = Status(status: TruckStatus) | UnknownStatus(text: string)

  datatype TruckRecord = TruckRecord(
    id: int, status: StatusText, location: Option<LocationCode>, route: Link,
    busyFrom: Option<Time>, busyUntil: Option<Time>, inTransitTo: Option<LocationCode>)

  datatype Snapshot = Snapshot(
    schemaVersion: int,
    counters: Counters,
    customers: seq<CustomerRecord>,
    packages: seq<PackageRecord>,
    routes: seq<RouteRecord>,
    trucks: seq<TruckRecord>)

  // ----- ids

  function CustomerIds(s: seq<CustomerRecord>): (ids: seq<int>)
    ensures |ids| == |s| && forall k :: 0 <= k < |s| ==> ids[k] == s[k].id
  {
    seq(|s|, k requires 0 <= k < |s| => s[k].id)
  }

  function PackageIdsIn(s: seq<PackageRecord>): (ids: seq<int>)
    ensures |ids| == |s| && forall k :: 0 <= k < |s| ==> ids[k] == s[k].id
  {
    seq(|s|, k requires 0 <= k < |s| => s[k].id)
  }

  function RouteIdsIn(s: seq<RouteRecord>): (ids: seq<int>)
    ensures |ids| == |s| && forall k :: 0 <= k < |s| ==> ids[k] == s[k].id
  {
    seq(|s|, k requires 0 <= k < |s| => s[k].id)
  }

  function TruckIdsIn(s: seq<TruckRecord>): (ids: seq<int>)
    ensures |ids| == |s| && forall k :: 0 <= k < |s| ==> ids[k] == s[k].id
  {
    seq(|s|, k requires 0 <= k < |s| => s[k].id)
  }

  // ----- sorting

  ghost predicate Ascending(s: seq<int>) {
    forall i, j :: 0 <= i < j < |s| ==> s[i] < s[j]
  }

  lemma {:induction false} LeastExists(ids: set<int>)
    requires |ids| > 0
    ensures exists m :: m in ids && forall x :: x in ids ==> m <= x
  {
    assert (forall x :: x !in ids) ==> ids == {};
    var a :| a in ids;
    var rest := ids - {a};
    if |rest| == 0 {
      assert forall x :: x in ids ==> x == a || x in rest;
    } else {
      LeastExists(rest);
      var m :| m in rest && forall x :: x in rest ==> m <= x;
      var least := if a <= m then a else m;
      assert least in ids;
      forall x | x in ids ensures least <= x {
        assert x == a || x in rest;
      }
    }
  }

  function Least(ids: set<int>): (m: int)
    requires |ids| > 0
    ensures m in ids && forall x :: x in ids ==> m <= x
  {
    LeastExists(ids);
    var m :| m in ids && forall x :: x in ids ==> m <= x;
    m
  }

  /** The ids of a set, smallest first. */
  function Sorted(ids: set<int>): (s: seq<int>)
    ensures Ascending(s) && |s| == |ids|
    ensures forall x :: x in s <==> x in ids
  {
    if |ids| == 0 then []
    else
      var m := Least(ids);
      [m] + Sorted(ids - {m})
  }

  // ----- building

  function CustomerRecordOf(w: World, id: int): CustomerRecord
    requires id in w.customers
  {
    CustomerRecord(id, w.customers[id].contact)
  }

  function PackageRecordOf(w: World, id: int): PackageRecord
    requires id in w.packages
  {
    var p := w.packages[id];
    PackageRecord(id, p.start, p.end, p.weight, p.customer, p.routeId)
  }

  function RouteRecordOf(w: World, id: int): RouteRecord
    requires id in w.routes
  {
    var r := w.routes[id];
    RouteRecord(id, r.path, Departure(r), r.truck, Sorted(Elements(r.packages)))
  }

  function TruckRecordOf(w: World, id: int): TruckRecord
    requires id in w.trucks
  {
    var t := w.trucks[id];
    TruckRecord(id, Status(t.status), t.location, t.route, t.busyFrom, t.busyUntil, t.inTransitTo)
  }

  function CustomerRecords(w: World): (s: seq<CustomerRecord>)
    ensures Ascending(CustomerIds(s)) && forall id :: id in CustomerIds(s) <==> id in w.customers
    ensures forall k :: 0 <= k < |s| ==> s[k].id in w.customers && s[k] == CustomerRecordOf(w, s[k].id)
  {
    var ids := Sorted(w.customers.Keys);
    var s := seq(|ids|, k requires 0 <= k < |ids| => CustomerRecordOf(w, ids[k]));
    assert CustomerIds(s) == ids;
    s
  }

  function PackageRecords(w: World): (s: seq<PackageRecord>)
    ensures Ascending(PackageIdsIn(s)) && forall id :: id in PackageIdsIn(s) <==> id in w.packages
    ensures forall k :: 0 <= k < |s| ==> s[k].id in w.packages && s[k] == PackageRecordOf(w, s[k].id)
  {
    var ids := Sorted(w.packages.Keys);
    var s := seq(|ids|, k requires 0 <= k < |ids| => PackageRecordOf(w, ids[k]));
    assert PackageIdsIn(s) == ids;
    s
  }

  function RouteRecords(w: World): (s: seq<RouteRecord>)
    ensures Ascending(RouteIdsIn(s)) && forall id :: id in RouteIdsIn(s) <==> id in w.routes
    ensures forall k :: 0 <= k < |s| ==> s[k].id in w.routes && s[k] == RouteRecordOf(w, s[k].id)
  {
    var ids := Sorted(w.routes.Keys);
    var s := seq(|ids|, k requires 0 <= k < |ids| => RouteRecordOf(w, ids[k]));
    assert RouteIdsIn(s) == ids;
    s
  }

  function TruckRecords(w: World): (s: seq<TruckRecord>)
    ensures Ascending(TruckIdsIn(s)) && forall id :: id in TruckIdsIn(s) <==> id in w.trucks
    ensures forall k :: 0 <= k < |s| ==> s[k].id in w.trucks && s[k] == TruckRecordOf(w, s[k].id)
  {
    var ids := Sorted(w.trucks.Keys);
    var s := seq(|ids|, k requires 0 <= k < |ids| => TruckRecordOf(w, ids[k]));
    assert TruckIdsIn(s) == ids;
    s
  }

  /** The snapshot of a world, every list sorted by id. */
  function BuildSnapshot(w: World, counters: Counters, schemaVersion: int): Snapshot {
    Snapshot(schemaVersion, counters, CustomerRecords(w), PackageRecords(w), RouteRecords(w), TruckRecords(w))
  }
}
