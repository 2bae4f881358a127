/** Cargo carried on the segments of a route. */
module RouteLoads {
  import opened Common
  import opened CityMap

  datatype PackageLoad = PackageLoad(start: LocationCode, end: LocationCode, weight: real)

  // ----- the meaning: what each segment carries

  /** Whether a package is on board on segment `i`, between locations `i` and `i + 1`. */
  predicate Spans(locations: seq<LocationCode>, p: PackageLoad, i: nat) {
    p.start in locations && p.end in locations && IndexOf(locations, p.start) <= i < IndexOf(locations, p.end)
  }

  function Share(locations: seq<LocationCode>, p: PackageLoad, i: nat): real {
    if Spans(locations, p, i) then p.weight else 0.0
  }

  function SegmentLoad(locations: seq<LocationCode>, packages: seq<PackageLoad>, i: nat): real {
    if packages == [] then 0.0
    else
      var p := packages[|packages| - 1];
      SegmentLoad(locations, packages[..|packages| - 1], i) + Share(locations, p, i)
  }

  function SegmentLoads(locations: seq<LocationCode>, packages: seq<PackageLoad>): (r: seq<real>)
  {
    seq(if |locations| == 0 then 0 else |locations| - 1, i requires 0 <= i => SegmentLoad(locations, packages, i))
  }

  /** The greatest element, or 0.0 when there is none. */
  function Greatest(s: seq<real>): (m: real)
    ensures s == [] ==> m == 0.0
    ensures s != [] ==> m in s
    ensures forall i :: 0 <= i < |s| ==> s[i] <= m
  {
    if |s| == 0 then 0.0
    else if |s| == 1 then s[0]
    else
      var m := Greatest(s[..|s| - 1]);
      if s[|s| - 1] > m then s[|s| - 1] else m
  }

  /** The heaviest load carried on any segment. */
  function MaximumLoad(locations: seq<LocationCode>, packages: seq<PackageLoad>): real {
    Greatest(SegmentLoads(locations, packages))
  }

  // ----- laws

  lemma {:induction false} LoadOfConcat(locations: seq<LocationCode>, a: seq<PackageLoad>, b: seq<PackageLoad>, i: nat)
    ensures SegmentLoad(locations, a + b, i) == SegmentLoad(locations, a, i) + SegmentLoad(locations, b, i)
  {
    if b == [] {
      assert a + b == a;
    } else {
      var k := |b| - 1;
      assert (a + b)[..|a + b| - 1] == a + b[..k];
      LoadOfConcat(locations, a, b[..k], i);
    }
  }

  lemma Split<T>(s: seq<T>, k: nat)
    requires k < |s|
    ensures s == s[..k] + [s[k]] + s[k + 1..]
    ensures multiset(s) == multiset(RemoveAt(s, k)) + multiset{s[k]}
  {
    assert s == s[..k] + [s[k]] + s[k + 1..];
    assert multiset(s[..k] + [s[k]] + s[k + 1..]) == multiset(s[..k]) + multiset{s[k]} + multiset(s[k + 1..]);
  }

  lemma SameRest<T>(a: seq<T>, i: nat, b: seq<T>, j: nat)
    requires i < |a| && j < |b| && a[i] == b[j] && multiset(a) == multiset(b)
    ensures multiset(RemoveAt(a, i)) == multiset(RemoveAt(b, j))
  {
    Split(a, i);
    Split(b, j);
    assert multiset(RemoveAt(a, i)) == multiset(a) - multiset{a[i]};
    assert multiset(RemoveAt(b, j)) == multiset(b) - multiset{b[j]};
  }

  lemma LoadWithout(locations: seq<LocationCode>, packages: seq<PackageLoad>, k: nat, i: nat)
    requires k < |packages|
    ensures SegmentLoad(locations, packages, i)
         == SegmentLoad(locations, RemoveAt(packages, k), i) + Share(locations, packages[k], i)
  {
    Split(packages, k);
    LoadOfConcat(locations, packages[..k] + [packages[k]], packages[k + 1..], i);
    LoadOfConcat(locations, packages[..k], [packages[k]], i);
    LoadOfConcat(locations, packages[..k], packages[k + 1..], i);
    assert [packages[k]][..0] == [];
  }

  lemma {:induction false} LoadIgnoresOrder(locations: seq<LocationCode>, a: seq<PackageLoad>, b: seq<PackageLoad>, i: nat)
    requires multiset(a) == multiset(b)
    ensures SegmentLoad(locations, a, i) == SegmentLoad(locations, b, i)
    decreases |a|
  {
    if a == [] {
      assert |multiset(a)| == |multiset(b)|;
    } else {
      var n := |a| - 1;
      assert a[n] in multiset(b);
      var j := IndexOf(b, a[n]);
      SameRest(a, n, b, j);
      LoadIgnoresOrder(locations, RemoveAt(a, n), RemoveAt(b, j), i);
      LoadWithout(locations, a, n, i);
      LoadWithout(locations, b, j, i);
    }
  }

  /** The maximum segment load does not depend on the order of the packages. */
  lemma MaximumLoadIgnoresOrder(locations: seq<LocationCode>, a: seq<PackageLoad>, b: seq<PackageLoad>)
    requires multiset(a) == multiset(b)
    ensures MaximumLoad(locations, a) == MaximumLoad(locations, b)
  {
    forall i: nat ensures SegmentLoad(locations, a, i) == SegmentLoad(locations, b, i) {
      LoadIgnoresOrder(locations, a, b, i);
    }
    assert SegmentLoads(locations, a) == SegmentLoads(locations, b);
  }

  ghost predicate PositiveWeights(packages: seq<PackageLoad>) {
    forall k :: 0 <= k < |packages| ==> packages[k].weight > 0.0
  }

  /** Taking a package off never raises the maximum segment load. */
  lemma RemovalNeverRaisesLoad(locations: seq<LocationCode>, packages: seq<PackageLoad>, k: nat)
    requires k < |packages| && packages[k].weight >= 0.0
    ensures MaximumLoad(locations, RemoveAt(packages, k)) <= MaximumLoad(locations, packages)
  {
    var fewer := RemoveAt(packages, k);
    forall i: nat ensures SegmentLoad(locations, fewer, i) <= SegmentLoad(locations, packages, i) {
      LoadWithout(locations, packages, k, i);
    }
    var loads := SegmentLoads(locations, fewer);
    if loads != [] {
      var i := IndexOf(loads, Greatest(loads));
      assert SegmentLoads(locations, packages)[i] >= loads[i];
    }
  }

  function TotalWeight(packages: seq<PackageLoad>): real {
    if packages == [] then 0.0
    else TotalWeight(packages[..|packages| - 1]) + packages[|packages| - 1].weight
  }

  lemma {:induction false} SegmentWithinTotal(locations: seq<LocationCode>, packages: seq<PackageLoad>, i: nat)
    requires PositiveWeights(packages)
    ensures 0.0 <= SegmentLoad(locations, packages, i) <= TotalWeight(packages)
  {
    if packages != [] {
      assert packages[|packages| - 1].weight > 0.0;
      SegmentWithinTotal(locations, packages[..|packages| - 1], i);
    }
  }

  /** A route never carries more at once than it carries in all, and never a negative load. */
  lemma MaximumLoadWithinTotal(locations: seq<LocationCode>, packages: seq<PackageLoad>)
    requires PositiveWeights(packages)
    ensures 0.0 <= MaximumLoad(locations, packages) <= TotalWeight(packages)
  {
    SegmentWithinTotal(locations, packages, 0);
    var loads := SegmentLoads(locations, packages);
    if loads != [] {
      var i := IndexOf(loads, Greatest(loads));
      SegmentWithinTotal(locations, packages, i);
    }
  }

  // ----- the two implementations

  /** The load on segment `i` when endpoints are found by an index. */
  function LoadAt(index: map<LocationCode, nat>, packages: seq<PackageLoad>, i: nat): real {
    if packages == [] then 0.0
    else
      var p := packages[|packages| - 1];
      LoadAt(index, packages[..|packages| - 1], i)
      + if p.start in index && p.end in index && index[p.start] <= i < index[p.end] then p.weight else 0.0
  }

  /** The greatest of the loads on the first `n` segments when endpoints are found by an index. */
  function MaximumAt(index: map<LocationCode, nat>, packages: seq<PackageLoad>, n: nat): real {
    Greatest(seq(n, i requires 0 <= i => LoadAt(index, packages, i)))
  }

  /** The index of every location at its first occurrence. */
  ghost predicate FirstIndex(index: map<LocationCode, nat>, locations: seq<LocationCode>) {
    forall x :: (x in index <==> x in locations) && (x in index ==> index[x] == IndexOf(locations, x))
  }

  /** With first occurrences the index finds what each segment carries. */
  lemma {:induction false} FirstIndexLoads(index: map<LocationCode, nat>, locations: seq<LocationCode>, packages: seq<PackageLoad>, i: nat)
    requires FirstIndex(index, locations)
    ensures LoadAt(index, packages, i) == SegmentLoad(locations, packages, i)
  {
    if packages != [] {
      FirstIndexLoads(index, locations, packages[..|packages| - 1], i);
    }
  }

  lemma FirstIndexMaximum(index: map<LocationCode, nat>, locations: seq<LocationCode>, packages: seq<PackageLoad>)
    requires FirstIndex(index, locations)
    ensures MaximumAt(index, packages, if |locations| == 0 then 0 else |locations| - 1) == MaximumLoad(locations, packages)
  {
    var n := if |locations| == 0 then 0 else |locations| - 1;
    forall i: nat ensures LoadAt(index, packages, i) == SegmentLoad(locations, packages, i) {
      FirstIndexLoads(index, locations, packages, i);
    }
    assert seq(n, i requires 0 <= i => LoadAt(index, packages, i)) == SegmentLoads(locations, packages);
  }

  /** The index of every location at its last occurrence, as a dictionary filled in order keeps it. */
  function LastIndex(locations: seq<LocationCode>): (index: map<LocationCode, nat>)
    ensures forall x :: x in index <==> x in locations
    ensures forall x <- index :: index[x] < |locations| && locations[index[x]] == x
    ensures forall x <- index :: forall j :: index[x] < j < |locations| ==> locations[j] != x
  {
    if locations == [] then map[]
    else
      var n := |locations| - 1;
      LastIndex(locations[..n])[locations[n] := n]
  }

  lemma LastIsFirst(locations: seq<LocationCode>)
    requires NoDup(locations)
    ensures FirstIndex(LastIndex(locations), locations)
  {
    forall x | x in locations ensures LastIndex(locations)[x] == IndexOf(locations, x) {
      IndexOfIsUnique(locations, LastIndex(locations)[x]);
    }
  }

  /** Loads of the segments once these packages have been added. */
  ghost predicate LoadsAre(loads: seq<real>, index: map<LocationCode, nat>, packages: seq<PackageLoad>) {
    forall i :: 0 <= i < |loads| ==> loads[i] == LoadAt(index, packages, i)
  }

  /** Adds a weight to the segments from one index up to another. */
  method AddPackage(loads: array<real>, weight: real, startIndex: nat, endIndex: nat)
    requires endIndex <= loads.Length
    modifies loads
    ensures forall i :: 0 <= i < loads.Length ==> loads[i] == old(loads[i]) + (if startIndex <= i < endIndex then weight else 0.0)
  {
    var k := startIndex;
    while k < endIndex
      invariant startIndex <= endIndex ==> startIndex <= k <= endIndex
      invariant forall i :: 0 <= i < loads.Length ==>
        loads[i] == old(loads[i]) + (if startIndex <= i < k && i < endIndex then weight else 0.0)
    {
      loads[k] := loads[k] + weight;
      k := k + 1;
    }
  }

  /** Adds the next package, if its endpoints are indexed in order. */
  method AddNext(loads: array<real>, index: map<LocationCode, nat>, ghost earlier: seq<PackageLoad>, p: PackageLoad)
    requires LoadsAre(loads[..], index, earlier) && forall x <- index :: index[x] <= loads.Length
    modifies loads
    ensures LoadsAre(loads[..], index, earlier + [p])
  {
    assert (earlier + [p])[..|earlier|] == earlier;
    if p.start in index && p.end in index && index[p.start] < index[p.end] {
      AddPackage(loads, p.weight, index[p.start], index[p.end]);
    }
  }

  method MaximumOf(loads: array<real>) returns (m: real)
    ensures m == Greatest(loads[..])
  {
    m := 0.0;
    for i := 0 to loads.Length
      invariant m == Greatest(loads[..i])
    {
      assert loads[..i + 1][..i] == loads[..i];
      m := if i == 0 || loads[i] > m then loads[i] else m;
    }
    assert loads[..loads.Length] == loads[..];
  }

  /** The calculator used by routes and policies: an optional candidate is counted with the packages. Endpoints are
      found at their last occurrence, which on a path is their only one. */
  method MaximumSegmentLoad(locations: seq<LocationCode>, packages: seq<PackageLoad>, extra: Option<PackageLoad>)
    returns (m: real)
    ensures var candidates := packages + (if extra.Some? then [extra.value] else []);
      && m == MaximumAt(LastIndex(locations), candidates, if |locations| == 0 then 0 else |locations| - 1)
      && (NoDup(locations) ==> m == MaximumLoad(locations, candidates))
  {
    var index := LastIndex(locations);
    var candidates := packages + (if extra.Some? then [extra.value] else []);
    var loads := new real[if |locations| == 0 then 0 else |locations| - 1](_ => 0.0);
    for n := 0 to |candidates|
      invariant fresh(loads) && LoadsAre(loads[..], index, candidates[..n])
    {
      assert candidates[..n + 1] == candidates[..n] + [candidates[n]];
      AddNext(loads, index, candidates[..n], candidates[n]);
    }
    assert candidates[..|candidates|] == candidates;
    assert loads[..] == seq(loads.Length, i requires 0 <= i => LoadAt(index, candidates, i));
    m := MaximumOf(loads);
    if NoDup(locations) {
      LastIsFirst(locations);
      FirstIndexMaximum(index, locations, candidates);
    }
  }
}
