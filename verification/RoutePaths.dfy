/** Validated route paths: at least two supported cities, none of them twice. */
module RoutePaths {
  import opened Common
  import opened CityMap

  datatype PathError = TooFewLocations | UnsupportedLocation(code: LocationCode) | DuplicateLocations

  ghost predicate ValidPath(locations: seq<LocationCode>) {
    && |locations| >= 2
    && (forall k :: 0 <= k < |locations| ==> IsValidLocation(locations[k]))
    && NoDup(locations)
  }

  type RoutePath = p: seq<LocationCode> | ValidPath(p) ghost witness [SYD, MEL]

  function FirstInvalid(locations: seq<LocationCode>): (r: Option<LocationCode>)
    ensures r.None? <==> forall k :: 0 <= k < |locations| ==> IsValidLocation(locations[k])
    ensures r.Some? ==> r.value in locations && !IsValidLocation(r.value)
  {
    if locations == [] then None
    else if !IsValidLocation(locations[0]) then Some(locations[0])
    else
      assert forall k :: 0 < k < |locations| ==> locations[k] == locations[1..][k - 1];
      FirstInvalid(locations[1..])
  }

  predicate HasDuplicates(locations: seq<LocationCode>)
    ensures HasDuplicates(locations) <==> !NoDup(locations)
  {
    exists i, j :: 0 <= i < j < |locations| && locations[i] == locations[j]
  }

  /** The path constructor accepts exactly the valid paths, and reports the first check that fails. */
  function CreatePath(locations: seq<LocationCode>): (r: Result<seq<LocationCode>, PathError>)
    ensures r.Ok? <==> ValidPath(locations)
    ensures r.Ok? ==> r.value == locations
    ensures r == Err(DuplicateLocations) ==> exists i, j :: 0 <= i < j < |locations| && locations[i] == locations[j]
  {
    if |locations| < 2 then Err(TooFewLocations)
    else if FirstInvalid(locations).Some? then Err(UnsupportedLocation(FirstInvalid(locations).value))
    else if HasDuplicates(locations) then Err(DuplicateLocations)
    else Ok(locations)
  }

  /** Whether the path visits `start` strictly before `end`. */
  predicate IncludesInOrder(path: seq<LocationCode>, start: LocationCode, end: LocationCode) {
    start in path && end in path && IndexOf(path, start) < IndexOf(path, end)
  }
}
