/** Calculating route schedules from locations, map distances and a constant speed. */
module RouteScheduling {
  import opened Common
  import opened CityMap
  import opened RoutePaths
  import opened RouteSchedules

  const SPEED_KMPH := 87
  const HOUR: Time := 3_600_000_000

  datatype BuildError = TooFewLocations | InvalidSpeed | UnknownDistance | Rejected(error: ScheduleError)

  /** `n / d` rounded to the nearest integer, ties to the even one. */
  function RoundHalfEven(n: int, d: int): int
    requires d > 0
  {
    var q, r := n / d, n % d;
    if 2 * r < d then q else if 2 * r > d then q + 1 else q + q % 2
  }

  lemma RoundingError(n: int, d: int)
    requires d > 0
    ensures -d <= 2 * (RoundHalfEven(n, d) * d - n) <= d
  {
    var q, r := n / d, n % d;
    assert n == q * d + r;
    assert (q + 1) * d == q * d + d;
  }

  function DurationOf(distanceKm: int, speed: int): Time
    requires speed > 0
  {
    RoundHalfEven(distanceKm * HOUR, speed)
  }

  /** At a speed of `speed` kilometres an hour, that many kilometres take an hour, and every leg takes the time its
      kilometres give, to the nearest microsecond. */
  lemma DurationInMicroseconds(distanceKm: int, speed: int, hours: int)
    requires speed > 0
    ensures DurationOf(hours * speed, speed) == hours * 60 * 60 * 1_000_000
    ensures -speed <= 2 * (DurationOf(distanceKm, speed) * speed - distanceKm * 60 * 60 * 1_000_000) <= speed
  {
    RoundingError(distanceKm * HOUR, speed);
    ExactQuotient(hours * HOUR, speed);
    assert hours * speed * HOUR == hours * HOUR * speed;
  }

  lemma ExactQuotient(q: int, d: int)
    requires d > 0
    ensures RoundHalfEven(q * d, d) == q
  {
    var n := q * d;
    assert n == (n / d) * d + n % d;
    assert (q - n / d) * d == n % d;
    SmallMultiple(q - n / d, d);
  }

  lemma SmallMultiple(k: int, d: int)
    requires d > 0 && 0 <= k * d < d
    ensures k == 0
  {
    assert k >= 1 ==> k * d >= d;
    assert k <= -1 ==> k * d <= -d;
  }

  predicate LegKnown(locations: seq<LocationCode>, i: nat)
    requires i + 1 < |locations|
  {
    GetDistance(locations[i], locations[i + 1]).Ok?
  }

  function LegKm(locations: seq<LocationCode>, i: nat): nat
    requires i + 1 < |locations|
  {
    var d := GetDistance(locations[i], locations[i + 1]);
    if d.Ok? then d.value else 0
  }

  /** Kilometres from the first location to location `k`. */
  function KmTo(locations: seq<LocationCode>, k: nat): nat
    requires k < |locations|
  {
    if k == 0 then 0 else KmTo(locations, k - 1) + LegKm(locations, k - 1)
  }

  /** Scheduled arrival at location `k`. */
  function ArrivalOf(locations: seq<LocationCode>, departure: Time, speed: int, k: nat): Time
    requires k < |locations| && speed > 0
  {
    if k == 0 then departure
    else ArrivalOf(locations, departure, speed, k - 1) + DurationOf(LegKm(locations, k - 1), speed)
  }

  function SegmentOf(locations: seq<LocationCode>, speed: int, i: nat): RouteSegment
    requires i + 1 < |locations| && speed > 0
  {
    RouteSegment(locations[i], locations[i + 1], LegKm(locations, i), DurationOf(LegKm(locations, i), speed))
  }

  /** The candidate schedule, stop by stop. */
  function ScheduleOf(locations: seq<LocationCode>, departure: Time, speed: int): (s: RouteSchedule)
    requires |locations| >= 1 && speed > 0
  {
    RouteSchedule(departure,
                  seq(|locations| - 1, i requires 0 <= i < |locations| - 1 => SegmentOf(locations, speed, i)),
                  seq(|locations|, k requires 0 <= k < |locations| =>
                    ScheduledStop(locations[k], ArrivalOf(locations, departure, speed, k))))
  }

  ghost predicate AllLegsKnown(locations: seq<LocationCode>) {
    forall i :: 0 <= i < |locations| - 1 ==> LegKnown(locations, i)
  }

  /** Builds the schedule in one pass, or reports the first reason it cannot be built. */
  method Build(locations: seq<LocationCode>, departure: Time, speed: int)
    returns (r: Result<RouteSchedule, BuildError>)
    ensures |locations| < 2 ==> r == Err(BuildError.TooFewLocations)
    ensures |locations| >= 2 && speed <= 0 ==> r == Err(InvalidSpeed)
    ensures |locations| >= 2 && speed > 0 && !AllLegsKnown(locations) ==> r == Err(UnknownDistance)
    ensures |locations| >= 2 && speed > 0 && AllLegsKnown(locations) ==>
      var s := ScheduleOf(locations, departure, speed);
      r == if CheckSchedule(s).None? then Ok(s) else Err(Rejected(CheckSchedule(s).value))
  {
    if |locations| < 2 {
      return Err(BuildError.TooFewLocations);
    }
    if speed <= 0 {
      return Err(InvalidSpeed);
    }
    ghost var goal := ScheduleOf(locations, departure, speed);
    var stops := [ScheduledStop(locations[0], departure)];
    var segments: seq<RouteSegment> := [];
    var currentTime := departure;
    for i := 0 to |locations| - 1
      invariant forall j :: 0 <= j < i ==> LegKnown(locations, j)
      invariant currentTime == ArrivalOf(locations, departure, speed, i)
      invariant stops == goal.stops[..i + 1]
      invariant segments == goal.segments[..i]
    {
      var distance := GetDistance(locations[i], locations[i + 1]);
      if distance.Err? {
        assert !LegKnown(locations, i);
        return Err(UnknownDistance);
      }
      assert LegKnown(locations, i);
      var duration := DurationOf(distance.value, speed);
      segments := segments + [RouteSegment(locations[i], locations[i + 1], distance.value, duration)];
      currentTime := currentTime + duration;
      stops := stops + [ScheduledStop(locations[i + 1], currentTime)];
    }
    var s := RouteSchedule(departure, segments, stops);
    assert s == goal;
    var error := CheckSchedule(s);
    return if error.None? then Ok(s) else Err(Rejected(error.value));
  }

  // ----- what a schedule of a valid path is

  lemma LegsOfPath(path: seq<LocationCode>, i: nat)
    requires ValidPath(path) && i + 1 < |path|
    ensures LegKnown(path, i) && LegKm(path, i) > 0
  {
    DistancesAreComplete(path[i], path[i + 1]);
    assert path[i] != path[i + 1];
  }

  lemma LegIsAcceptedIff(path: seq<LocationCode>, departure: Time, speed: int, i: nat)
    requires ValidPath(path) && speed > 0 && i + 1 < |path|
    ensures SegmentError(ScheduleOf(path, departure, speed), i).None? <==> DurationOf(LegKm(path, i), speed) > 0
  {
    hide DurationOf, GetDistance;
    LegsOfPath(path, i);
  }

  /** A validated path is accepted at a speed exactly when no leg is so short that its travel time rounds to zero. */
  lemma PathIsAcceptedIff(path: seq<LocationCode>, departure: Time, speed: int)
    requires ValidPath(path) && speed > 0
    ensures CheckSchedule(ScheduleOf(path, departure, speed)).None?
       <==> forall i :: 0 <= i < |path| - 1 ==> DurationOf(LegKm(path, i), speed) > 0
  {
    var s := ScheduleOf(path, departure, speed);
    forall i | 0 <= i < |path| - 1
      ensures SegmentError(s, i).None? <==> DurationOf(LegKm(path, i), speed) > 0
    {
      LegIsAcceptedIff(path, departure, speed, i);
    }
    assert FirstSegmentError(s, 0).None? <==> forall i :: 0 <= i < |path| - 1 ==> DurationOf(LegKm(path, i), speed) > 0;
    assert UniqueStops(s.stops);
  }

  lemma DefaultSpeedDurations(path: seq<LocationCode>, i: nat)
    requires ValidPath(path) && i + 1 < |path|
    ensures DurationOf(LegKm(path, i), SPEED_KMPH) > 0
  {
    LegsOfPath(path, i);
  }

  /** Scheduling is total: every validated path and departure give a timetable over exactly that path. */
  lemma SchedulingIsTotal(path: seq<LocationCode>, departure: Time)
    requires ValidPath(path)
    ensures AllLegsKnown(path)
    ensures CheckSchedule(ScheduleOf(path, departure, SPEED_KMPH)).None?
    ensures Timetable(ScheduleOf(path, departure, SPEED_KMPH))
  {
    forall i | 0 <= i < |path| - 1 ensures LegKnown(path, i) && DurationOf(LegKm(path, i), SPEED_KMPH) > 0 {
      LegsOfPath(path, i);
      DefaultSpeedDurations(path, i);
    }
    PathIsAcceptedIff(path, departure, SPEED_KMPH);
    AcceptedIffTimetable(ScheduleOf(path, departure, SPEED_KMPH));
  }

  lemma ErrorsAdd(travelled: int, leg: int, speed: int, exactBefore: int, exactLeg: int, k: int)
    requires -(k * speed) <= 2 * (travelled * speed - exactBefore) <= k * speed
    requires -speed <= 2 * (leg * speed - exactLeg) <= speed
    ensures -((k + 1) * speed) <= 2 * ((travelled + leg) * speed - (exactBefore + exactLeg)) <= (k + 1) * speed
  {
    assert (travelled + leg) * speed == travelled * speed + leg * speed;
    assert (k + 1) * speed == k * speed + speed;
  }

  /** Rounding never accumulates beyond half a microsecond a leg: the k-th arrival is within k/2 microseconds
      of the exact travel time (both sides scaled by twice the speed). */
  lemma {:induction false} ArrivalErrorIsBounded(locations: seq<LocationCode>, departure: Time, speed: int, k: nat)
    requires k < |locations| && speed > 0
    ensures -(k * speed)
         <= 2 * ((ArrivalOf(locations, departure, speed, k) - departure) * speed - KmTo(locations, k) * HOUR)
         <= k * speed
  {
    if k == 0 {
      assert (ArrivalOf(locations, departure, speed, 0) - departure) * speed == 0;
    } else {
      ArrivalErrorIsBounded(locations, departure, speed, k - 1);
      var exactLeg := LegKm(locations, k - 1) * HOUR;
      RoundingError(exactLeg, speed);
      ErrorsAdd(ArrivalOf(locations, departure, speed, k - 1) - departure, DurationOf(LegKm(locations, k - 1), speed),
                speed, KmTo(locations, k - 1) * HOUR, exactLeg, k - 1);
      assert (KmTo(locations, k - 1) + LegKm(locations, k - 1)) * HOUR == KmTo(locations, k) * HOUR;
    }
  }

  /** The scheduled total and the sum over the path agree. */
  lemma {:induction false} TotalsAgree(locations: seq<LocationCode>, departure: Time, speed: int, k: nat)
    requires k < |locations| && speed > 0
    ensures TotalDistance(ScheduleOf(locations, departure, speed).segments[..k]) == KmTo(locations, k)
  {
    var segments := ScheduleOf(locations, departure, speed).segments;
    if k > 0 {
      TotalsAgree(locations, departure, speed, k - 1);
      assert segments[..k][..k - 1] == segments[..k - 1];
    }
  }
}
