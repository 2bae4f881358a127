/** Rebuilding a snapshot's customers, packages and routes as new objects, not yet linked to each other by routes. */
module SnapshotRebuilder {
  import opened Common
  import opened RoutePaths
  import opened Entities
  import opened Stores
  import opened Snapshots
  import opened SnapshotChecks
  import opened SnapshotRestore
  import opened RestoredWorlds
  import opened StoreFrames

  // ----- customers

  ghost predicate CustomerRebuilt(customer: Customer, record: CustomerRecord)
    reads customer
  {
    customer.customerId == record.id && customer.contact == record.contact && customer.packages == []
  }

  /** New customers with the contacts of these records, and empty lists. */
  ghost predicate CustomersRebuilt(customers: map<int, Customer>, records: map<int, CustomerRecord>)
    reads customers.Values
  {
    customers.Keys == records.Keys && forall cid <- customers :: CustomerRebuilt(customers[cid], records[cid])
  }

  lemma CustomersNext(records: seq<CustomerRecord>, i: nat)
    requires i < |records|
    ensures CustomersById(records[..i + 1]) == CustomersById(records[..i])[records[i].id := records[i]]
  {
    assert records[..i + 1][..i] == records[..i];
  }

  lemma RoutesNext(records: seq<RouteRecord>, i: nat)
    requires i < |records|
    ensures RoutesById(records[..i + 1]) == RoutesById(records[..i])[records[i].id := records[i]]
  {
    assert records[..i + 1][..i] == records[..i];
  }

  lemma NoRecords()
    ensures CustomersById([]) == map[] && RoutesById([]) == map[] && PackagesById([]) == map[]
  {
  }

  method RebuildCustomer(record: CustomerRecord) returns (customer: Customer)
    ensures fresh(customer) && CustomerRebuilt(customer, record)
  {
    customer := new Customer(record.id, record.contact);
  }

  method RebuildCustomers(records: seq<CustomerRecord>, rules: ContactRules)
    returns (found: Finding, customers: map<int, Customer>)
    ensures found == if forall k :: 0 <= k < |records| ==> CustomerBuilds(records[k], rules) then Passed else Corrupt(INVARIANT_VIOLATION)
    ensures forall c <- customers.Values :: fresh(c)
    ensures found == Passed ==> CustomersRebuilt(customers, CustomersById(records))
  {
    hide CustomersById, CustomerRebuilt, CustomerBuilds;
    customers := map[];
    NoRecords();
    for i := 0 to |records|
      invariant forall k :: 0 <= k < i ==> CustomerBuilds(records[k], rules)
      invariant forall cid <- customers :: fresh(customers[cid])
      invariant forall c <- customers.Values :: fresh(c)
      invariant CustomersRebuilt(customers, CustomersById(records[..i]))
    {
      if !CustomerBuilds(records[i], rules) {
        return Corrupt(INVARIANT_VIOLATION), customers;
      }
      var customer := RebuildCustomer(records[i]);
      CustomersNext(records, i);
      customers := customers[records[i].id := customer];
    }
    WholeSlice(records);
    return Passed, customers;
  }

  // ----- routes

  ghost predicate RouteRebuilt(route: DeliveryRoute, record: RouteRecord)
    reads route
  {
    && route.routeId == record.id && route.Valid() && route.Built() && route.truck == null && route.packages == []
    && |record.locations| >= 2 && route.State() == RebuiltRoute(record)
  }

  /** New routes of these records, holding nothing. */
  ghost predicate RoutesRebuilt(routes: map<int, DeliveryRoute>, records: map<int, RouteRecord>)
    reads routes.Values
  {
    routes.Keys == records.Keys && forall rid <- routes :: RouteRebuilt(routes[rid], records[rid])
  }

  /** Creates the route of a record; fails on an id that is not positive and on a path that is not valid. */
  method RebuildRoute(record: RouteRecord) returns (ok: bool, route: DeliveryRoute?)
    ensures ok <==> RouteBuilds(record)
    ensures ok ==> route != null && fresh(route) && RouteRebuilt(route, record)
  {
    var path := CreatePath(record.locations);
    if record.id < 1 || path.Err? {
      return false, null;
    }
    var created := new DeliveryRoute(record.id, path.value, record.departure);
    return true, created;
  }

  method RebuildRoutes(records: seq<RouteRecord>) returns (found: Finding, routes: map<int, DeliveryRoute>)
    ensures found == if forall k :: 0 <= k < |records| ==> RouteBuilds(records[k]) then Passed else Corrupt(INVARIANT_VIOLATION)
    ensures forall r <- routes.Values :: fresh(r)
    ensures found == Passed ==> RoutesRebuilt(routes, RoutesById(records))
  {
    hide RoutesById, RouteRebuilt, RouteBuilds, RebuiltRoute, DeliveryRoute.Valid, DeliveryRoute.Built,
         DeliveryRoute.State;
    routes := map[];
    NoRecords();
    for i := 0 to |records|
      invariant forall k :: 0 <= k < i ==> RouteBuilds(records[k])
      invariant forall rid <- routes :: fresh(routes[rid])
      invariant forall r <- routes.Values :: fresh(r)
      invariant RoutesRebuilt(routes, RoutesById(records[..i]))
    {
      var ok, route := RebuildRoute(records[i]);
      if !ok {
        return Corrupt(INVARIANT_VIOLATION), routes;
      }
      RoutesNext(records, i);
      routes := routes[records[i].id := route];
    }
    WholeSlice(records);
    return Passed, routes;
  }

  // ----- packages

  /** A new package of a record, owned by the customer the record names and listed by it. */
  ghost predicate PackageRebuilt(package: DeliveryPackage, record: PackageRecord, customers: map<int, Customer>)
    reads package
  {
    && package.packageId == record.id && package.route == null && record.customer in customers && package.customer == customers[record.customer]
    && package.customer.customerId == record.customer && package.State() == RebuiltPackage(record)
  }

  ghost predicate PackagesRebuilt(packages: map<int, DeliveryPackage>, records: map<int, PackageRecord>, customers: map<int, Customer>)
    reads packages.Values
  {
    packages.Keys == records.Keys && forall pid <- packages :: PackageRebuilt(packages[pid], records[pid], customers)
  }

  /** A customer lists packages of these ids in order; while no id comes twice they are the rebuilt ones. */
  ghost predicate ListRebuilt(customer: Customer, packages: map<int, DeliveryPackage>, ids: seq<int>, unique: bool)
    reads customer
  {
    && PackageIds(customer.packages) == ids
    && (unique ==> forall k {:trigger customer.packages[k]} :: 0 <= k < |customer.packages| ==>
          customer.packages[k].packageId in packages && packages[customer.packages[k].packageId] == customer.packages[k])
  }

  ghost predicate ListsRebuilt(customers: map<int, Customer>, packages: map<int, DeliveryPackage>, records: seq<PackageRecord>,
                               unique: bool)
    reads customers.Values
  {
    forall cid <- customers ::
      customers[cid].customerId == cid && ListRebuilt(customers[cid], packages, PackagesOfCustomer(records, cid), unique)
  }

  lemma PackagesNext(records: seq<PackageRecord>, i: nat)
    requires i < |records|
    ensures PackagesById(records[..i + 1]) == PackagesById(records[..i])[records[i].id := records[i]]
    ensures NoDup(PackageIdsIn(records)) ==> records[i].id !in PackagesById(records[..i])
    ensures forall cid ::
      PackagesOfCustomer(records[..i + 1], cid) == PackagesOfCustomer(records[..i], cid) + if records[i].customer == cid then [records[i].id] else []
  {
    assert records[..i + 1][..i] == records[..i];
    if NoDup(PackageIdsIn(records)) {
      assert forall k :: 0 <= k < i ==> PackageIdsIn(records[..i])[k] == PackageIdsIn(records)[k] != records[i].id;
    }
  }

  /** Creates the package of a record and lists it with its customer. */
  method RebuildPackage(record: PackageRecord, customer: Customer, ghost customers: map<int, Customer>)
    returns (package: DeliveryPackage)
    requires record.customer in customers && customers[record.customer] == customer && customer.customerId == record.customer
    modifies customer`packages
    ensures fresh(package) && PackageRebuilt(package, record, customers)
    ensures customer.packages == old(customer.packages) + [package]
  {
    package := new DeliveryPackage(record.id, record.start, record.end, record.weight, customer);
    var added := customer.AddPackage(package);
  }

  lemma FindingNext(records: seq<PackageRecord>, i: nat, ids: seq<int>)
    requires i < |records| && PackagesFinding(records[..i], ids) == Passed
    ensures PackagesFinding(records[..i + 1], ids) == (
      if records[i].customer !in ids then Corrupt(INVALID_REFERENCES)
      else if !PackageBuilds(records[i]) then Corrupt(INVARIANT_VIOLATION)
      else Passed)
  {
    assert records[..i + 1][..i] == records[..i];
  }

  lemma {:induction false} FindingStands(records: seq<PackageRecord>, n: nat, ids: seq<int>)
    requires n <= |records| && PackagesFinding(records[..n], ids) != Passed
    ensures PackagesFinding(records, ids) == PackagesFinding(records[..n], ids)
    decreases |records|
  {
    if n == |records| {
      WholeSlice(records);
    } else {
      assert records[..|records| - 1][..n] == records[..n];
      FindingStands(records[..|records| - 1], n, ids);
    }
  }

  lemma GrownList(customer: Customer, list: seq<DeliveryPackage>, package: DeliveryPackage,
                  packages: map<int, DeliveryPackage>, ids: seq<int>, unique: bool)
    requires customer.packages == list + [package] && PackageIds(list) == ids
    requires unique ==> package.packageId !in packages
    requires unique ==> forall k {:trigger list[k]} :: 0 <= k < |list| ==>
      list[k].packageId in packages && packages[list[k].packageId] == list[k]
    ensures ListRebuilt(customer, packages[package.packageId := package], ids + [package.packageId], unique)
  {
    assert PackageIds(list + [package]) == PackageIds(list) + [package.packageId];
  }

  lemma SameList(customer: Customer, package: DeliveryPackage, packages: map<int, DeliveryPackage>, ids: seq<int>, unique: bool)
    requires ListRebuilt(customer, packages, ids, unique) && (unique ==> package.packageId !in packages)
    ensures ListRebuilt(customer, packages[package.packageId := package], ids + [], unique)
  {
    assert ids + [] == ids;
  }

  /** Creates the next package and adds it to those before; of two with one id the later one is kept. */
  method RebuildNext(records: seq<PackageRecord>, i: nat, customers: map<int, Customer>, packages: map<int, DeliveryPackage>,
                     ghost unique: bool) returns (more: map<int, DeliveryPackage>)
    requires i < |records| && unique == NoDup(PackageIdsIn(records)) && records[i].customer in customers
    requires PackagesRebuilt(packages, PackagesById(records[..i]), customers)
    requires ListsRebuilt(customers, packages, records[..i], unique)
    modifies customers.Values`packages
    ensures PackagesRebuilt(more, PackagesById(records[..i + 1]), customers)
    ensures ListsRebuilt(customers, more, records[..i + 1], unique)
    ensures fresh(more[records[i].id]) && more == packages[records[i].id := more[records[i].id]]
  {
    hide PackagesById, PackagesOfCustomer, RebuiltPackage, NoDup, DeliveryPackage.State, PackageIds;
    PackagesNext(records, i);
    var customer := customers[records[i].customer];
    ghost var before := customer.packages;
    assert ListRebuilt(customer, packages, PackagesOfCustomer(records[..i], records[i].customer), unique);
    var package := RebuildPackage(records[i], customer, customers);
    more := packages[records[i].id := package];
    GrownList(customer, before, package, packages, PackagesOfCustomer(records[..i], records[i].customer), unique);
    hide ListRebuilt;
    forall cid | cid in customers && cid != records[i].customer
      ensures ListRebuilt(customers[cid], more, PackagesOfCustomer(records[..i + 1], cid), unique)
    {
      assert customers[cid] != customer;
      assert old(ListRebuilt(customers[cid], packages, PackagesOfCustomer(records[..i], cid), unique));
      SameList(customers[cid], package, packages, PackagesOfCustomer(records[..i], cid), unique);
    }
  }

  method RebuildPackages(records: seq<PackageRecord>, customers: map<int, Customer>, ghost ids: seq<int>)
    returns (found: Finding, packages: map<int, DeliveryPackage>)
    requires forall cid :: cid in ids <==> cid in customers
    requires forall cid <- customers :: customers[cid].customerId == cid && customers[cid].packages == []
    modifies customers.Values`packages
    ensures found == PackagesFinding(records, ids) && forall p <- packages.Values :: fresh(p)
    ensures found == Passed ==>
      && PackagesRebuilt(packages, PackagesById(records), customers)
      && ListsRebuilt(customers, packages, records, NoDup(PackageIdsIn(records)))
  {
    hide PackagesById, PackagesOfCustomer, PackagesFinding, PackagesRebuilt, ListsRebuilt, PackageBuilds, NoDup;
    packages := map[];
    ghost var unique := NoDup(PackageIdsIn(records));
    NoneRebuilt(customers, unique);
    for i := 0 to |records|
      invariant PackagesFinding(records[..i], ids) == Passed
      invariant (forall pid <- packages :: fresh(packages[pid])) && forall p <- packages.Values :: fresh(p)
      invariant PackagesRebuilt(packages, PackagesById(records[..i]), customers)
      invariant ListsRebuilt(customers, packages, records[..i], unique)
    {
      FindingNext(records, i, ids);
      if records[i].customer !in customers || !PackageBuilds(records[i]) {
        FindingStands(records, i + 1, ids);
        return if records[i].customer !in customers then Corrupt(INVALID_REFERENCES) else Corrupt(INVARIANT_VIOLATION), packages;
      }
      packages := RebuildNext(records, i, customers, packages, unique);
    }
    WholeSlice(records);
    return Passed, packages;
  }

  lemma NoneRebuilt(customers: map<int, Customer>, unique: bool)
    requires forall cid <- customers :: customers[cid].customerId == cid && customers[cid].packages == []
    ensures PackagesFinding([], []) == Passed && (forall ids :: PackagesFinding([], ids) == Passed)
    ensures PackagesRebuilt(map[], PackagesById([]), customers) && ListsRebuilt(customers, map[], [], unique)
  {
  }

  // ----- the rebuilt store

  /** What rebuilding makes: objects made each from its record. */
  ghost predicate EntitiesRebuilt(customers: map<int, Customer>, packages: map<int, DeliveryPackage>, routes: map<int, DeliveryRoute>,
                                  snapshot: Snapshot)
    reads customers.Values, packages.Values, routes.Values
  {
    && customers.Keys == CustomersById(snapshot.customers).Keys
    && (forall cid <- customers :: customers[cid].contact == CustomersById(snapshot.customers)[cid].contact)
    && RoutesRebuilt(routes, RoutesById(snapshot.routes))
    && PackagesRebuilt(packages, PackagesById(snapshot.packages), customers)
    && ListsRebuilt(customers, packages, snapshot.packages, NoDup(PackageIdsIn(snapshot.packages)))
  }

  ghost predicate StoreRebuilt(s: Store, snapshot: Snapshot)
    reads s, s.customers.Values, s.packages.Values, s.routes.Values
  {
    s.trucks == map[] && EntitiesRebuilt(s.customers, s.packages, s.routes, snapshot)
  }

  lemma RebuiltCustomerKept(s: Store, snapshot: Snapshot, cid: int)
    requires StoreRebuilt(s, snapshot) && NoDup(PackageIdsIn(snapshot.packages)) && cid in s.customers
    ensures s.CustomerKept(cid)
  {
    hide CustomersById, RoutesById, PackagesById, PackagesRebuilt, RoutesRebuilt;
    assert ListRebuilt(s.customers[cid], s.packages, PackagesOfCustomer(snapshot.packages, cid), true);
    CustomerLists(snapshot.packages, cid);
    IdsApart(s.customers[cid].packages);
  }

  lemma RebuiltValid(s: Store, snapshot: Snapshot)
    requires StoreRebuilt(s, snapshot) && NoDup(PackageIdsIn(snapshot.packages))
    ensures s.Valid() && s.AllBuilt()
  {
    hide CustomersById, RoutesById, PackagesById, PackagesOfCustomer, RebuiltPackage, RebuiltRoute, ListRebuilt;
    forall cid | cid in s.customers ensures s.CustomerKept(cid) { RebuiltCustomerKept(s, snapshot, cid); }
    forall rid | rid in s.routes ensures s.RouteKept(rid) && s.routes[rid].Built() {
      assert RouteRebuilt(s.routes[rid], RoutesById(snapshot.routes)[rid]);
    }
    forall pid | pid in s.packages ensures s.PackageKept(pid) {
      assert PackageRebuilt(s.packages[pid], PackagesById(snapshot.packages)[pid], s.customers);
    }
  }

  lemma RebuiltCustomers(s: Store, snapshot: Snapshot)
    requires StoreRebuilt(s, snapshot)
    requires forall k {:trigger snapshot.routes[k]} :: 0 <= k < |snapshot.routes| ==> |snapshot.routes[k].locations| >= 2
    ensures s.Model().customers == RebuiltWorld(snapshot).customers
  {
    hide CustomersById, RoutesById, PackagesById, PackagesOfCustomer, RebuiltRoute, RoutesRebuilt, PackagesRebuilt;
    forall cid <- s.customers ensures s.Model().customers[cid] == RebuiltWorld(snapshot).customers[cid] {
      assert ListRebuilt(s.customers[cid], s.packages, PackagesOfCustomer(snapshot.packages, cid),
                         NoDup(PackageIdsIn(snapshot.packages)));
    }
  }

  lemma RebuiltRoutes(s: Store, snapshot: Snapshot)
    requires StoreRebuilt(s, snapshot)
    requires forall k {:trigger snapshot.routes[k]} :: 0 <= k < |snapshot.routes| ==> |snapshot.routes[k].locations| >= 2
    ensures s.Model().routes == RebuiltWorld(snapshot).routes
  {
    hide CustomersById, RoutesById, PackagesById, PackagesOfCustomer, RebuiltRoute, ListsRebuilt, PackagesRebuilt,
         DeliveryRoute.Valid,
         DeliveryRoute.Built, DeliveryRoute.State;
    forall rid <- s.routes ensures s.Model().routes[rid] == RebuiltWorld(snapshot).routes[rid] {
      assert RouteRebuilt(s.routes[rid], RoutesById(snapshot.routes)[rid]);
    }
  }

  lemma RebuiltPackages(s: Store, snapshot: Snapshot)
    requires StoreRebuilt(s, snapshot)
    requires forall k {:trigger snapshot.routes[k]} :: 0 <= k < |snapshot.routes| ==> |snapshot.routes[k].locations| >= 2
    ensures s.Model().packages == RebuiltWorld(snapshot).packages
  {
    hide CustomersById, RoutesById, PackagesById, PackagesOfCustomer, RebuiltRoute, RebuiltPackage, ListsRebuilt,
         RoutesRebuilt;
    forall pid <- s.packages ensures s.Model().packages[pid] == RebuiltWorld(snapshot).packages[pid] {
      assert PackageRebuilt(s.packages[pid], PackagesById(snapshot.packages)[pid], s.customers);
    }
  }

  /** The rebuilt objects have the values of the rebuilt world. */
  lemma RebuiltModel(s: Store, snapshot: Snapshot)
    requires StoreRebuilt(s, snapshot)
    requires forall k {:trigger snapshot.routes[k]} :: 0 <= k < |snapshot.routes| ==> |snapshot.routes[k].locations| >= 2
    ensures s.Model() == RebuiltWorld(snapshot)
  {
    assert s.trucks == map[] && s.Model().trucks == RebuiltWorld(snapshot).trucks;
    hide CustomersById, RoutesById, PackagesById, StoreRebuilt, RebuiltWorld, Store.Model, NoDup;
    RebuiltCustomers(s, snapshot);
    RebuiltRoutes(s, snapshot);
    RebuiltPackages(s, snapshot);
    SameWorld(s.Model(), RebuiltWorld(snapshot));
  }

  /** While no package id comes twice they stand for it, every reference naming a stored object. */
  lemma RebuiltStands(s: Store, snapshot: Snapshot)
    requires StoreRebuilt(s, snapshot) && NoDup(PackageIdsIn(snapshot.packages))
    requires forall k {:trigger snapshot.routes[k]} :: 0 <= k < |snapshot.routes| ==> |snapshot.routes[k].locations| >= 2
    ensures s.Standing() == Some(RebuiltWorld(snapshot))
  {
    hide StoreRebuilt, RebuiltWorld, Store.Model, Store.Valid, Store.AllBuilt, NoDup;
    RebuiltValid(s, snapshot);
    RebuiltModel(s, snapshot);
  }

  lemma ContactsRebuilt(customers: map<int, Customer>, records: map<int, CustomerRecord>)
    requires CustomersRebuilt(customers, records) && forall cid <- records :: records[cid].id == cid
    ensures customers.Keys == records.Keys
    ensures forall cid <- customers :: customers[cid].customerId == cid && customers[cid].packages == []
    ensures forall cid <- customers :: customers[cid].contact == records[cid].contact
  {
    forall cid <- customers ensures CustomerRebuilt(customers[cid], records[cid]) {}
  }

  /** Rebuilds customers, then packages, then routes; stops at the first record no entity can be built from. */
  method RebuildEntities(snapshot: Snapshot, rules: ContactRules)
    returns (found: Finding, customers: map<int, Customer>, packages: map<int, DeliveryPackage>, routes: map<int, DeliveryRoute>)
    ensures found == RebuildFinding(snapshot, rules)
    ensures (forall p <- packages.Values :: fresh(p)) && (forall r <- routes.Values :: fresh(r))
    ensures found == Passed ==> EntitiesRebuilt(customers, packages, routes, snapshot)
  {
    hide CustomersById, RoutesById, PackagesById, PackagesFinding, ListsRebuilt, PackagesRebuilt, RoutesRebuilt,
         CustomersRebuilt, CustomerBuilds,
         RouteBuilds, NoDup;
    packages, routes := map[], map[];
    found, customers := RebuildCustomers(snapshot.customers, rules);
    if found != Passed {
      return;
    }
    ContactsRebuilt(customers, CustomersById(snapshot.customers));
    found, packages := RebuildPackages(snapshot.packages, customers, CustomerIds(snapshot.customers));
    if found != Passed {
      return;
    }
    found, routes := RebuildRoutes(snapshot.routes);
  }

  lemma BuildableRoutes(snapshot: Snapshot, rules: ContactRules)
    requires RebuildFinding(snapshot, rules) == Passed
    ensures forall k {:trigger snapshot.routes[k]} :: 0 <= k < |snapshot.routes| ==> |snapshot.routes[k].locations| >= 2
  {
    RebuildsIffBuildable(snapshot, rules);
    hide RebuildFinding;
  }

  /** The rebuilt entities, in a store of their own. */
  method RebuildStore(snapshot: Snapshot, rules: ContactRules) returns (found: Finding, s: Store)
    ensures found == RebuildFinding(snapshot, rules) && fresh(s)
    ensures found == Passed ==>
      forall k {:trigger snapshot.routes[k]} :: 0 <= k < |snapshot.routes| ==> |snapshot.routes[k].locations| >= 2
    ensures found == Passed ==> s.Model() == RebuiltWorld(snapshot) && s.trucks == map[]
    ensures found == Passed && NoDup(PackageIdsIn(snapshot.packages)) ==> s.Standing() == Some(RebuiltWorld(snapshot))
    ensures found == Passed ==> s.routes.Keys == RoutesById(snapshot.routes).Keys
    ensures forall r <- s.routes.Values :: fresh(r)
    ensures forall p <- s.packages.Values :: fresh(p)
  {
    hide RebuildFinding, EntitiesRebuilt, RebuiltWorld, Store.Standing, Store.Valid, Store.AllBuilt, Store.Model, NoDup;
    s := new Store();
    var customers, packages, routes;
    found, customers, packages, routes := RebuildEntities(snapshot, rules);
    if found == Passed {
      BuildableRoutes(snapshot, rules);
      s.customers, s.packages, s.routes := customers, packages, routes;
      RebuiltModel(s, snapshot);
      if NoDup(PackageIdsIn(snapshot.packages)) {
        RebuiltStands(s, snapshot);
      }
      RebuiltKeys(s, snapshot);
    }
  }

  lemma RebuiltKeys(s: Store, snapshot: Snapshot)
    requires StoreRebuilt(s, snapshot)
    ensures s.routes.Keys == RoutesById(snapshot.routes).Keys
  {
  }
}
