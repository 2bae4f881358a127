/** Immutable route schedules and the position of a route at an instant. */
module RouteSchedules {
  import opened Common
  import opened CityMap

  datatype RouteSegment = RouteSegment(start: LocationCode, end: LocationCode, distanceKm: int, duration: int)

  datatype ScheduledStop = ScheduledStop(location: LocationCode, arrivalAt: Time)

  datatype RouteSchedule = RouteSchedule(departure: Time, segments: seq<RouteSegment>, stops: seq<ScheduledStop>)

  datatype ScheduleError =
    | TooFewStops
    | SegmentCountMismatch
    | FirstStopNotAtDeparture
    | DuplicateStops
    | NonPositiveDistance
    | NonPositiveDuration
    | SegmentStartMismatch
    | SegmentEndMismatch
    | DurationMismatch

  datatype RoutePositionKind = UNSCHEDULED | BEFORE_START | AT_STOP | IN_TRANSIT | AFTER_END

  datatype RoutePosition = RoutePosition(
    kind: RoutePositionKind,
    fromCity: Option<LocationCode>,
    toCity: Option<LocationCode>,
    stopCity: Option<LocationCode>,
    nextEta: Option<Time>)

  // ----- construction checks

  predicate UniqueStops(stops: seq<ScheduledStop>) {
    forall i, j :: 0 <= i < j < |stops| ==> stops[i].location != stops[j].location
  }

  function SegmentError(s: RouteSchedule, i: nat): Option<ScheduleError>
    requires |s.segments| == |s.stops| - 1 && i < |s.segments|
  {
    var g := s.segments[i];
    if g.distanceKm <= 0 then Some(NonPositiveDistance)
    else if g.duration <= 0 then Some(NonPositiveDuration)
    else if g.start != s.stops[i].location then Some(SegmentStartMismatch)
    else if g.end != s.stops[i + 1].location then Some(SegmentEndMismatch)
    else if s.stops[i].arrivalAt + g.duration != s.stops[i + 1].arrivalAt then Some(DurationMismatch)
    else None
  }

  function FirstSegmentError(s: RouteSchedule, i: nat): (r: Option<ScheduleError>)
    requires |s.segments| == |s.stops| - 1 && i <= |s.segments|
    ensures r.None? <==> forall k :: i <= k < |s.segments| ==> SegmentError(s, k).None?
    decreases |s.segments| - i
  {
    if i == |s.segments| then None
    else if SegmentError(s, i).Some? then SegmentError(s, i)
    else FirstSegmentError(s, i + 1)
  }

  /** The constructor's checks, in order; `None` means the schedule is accepted. */
  function CheckSchedule(s: RouteSchedule): Option<ScheduleError> {
    if |s.stops| < 2 then Some(TooFewStops)
    else if |s.segments| != |s.stops| - 1 then Some(SegmentCountMismatch)
    else if s.stops[0].arrivalAt != s.departure then Some(FirstStopNotAtDeparture)
    else if !UniqueStops(s.stops) then Some(DuplicateStops)
    else FirstSegmentError(s, 0)
  }

  /** A timetable: the meaning of an accepted schedule. Arrivals strictly increase from the departure, and
      segment `k` runs from stop `k` to stop `k + 1` in exactly the time between their arrivals. */
  ghost predicate Timetable(s: RouteSchedule) {
    && |s.stops| >= 2
    && |s.segments| == |s.stops| - 1
    && s.stops[0].arrivalAt == s.departure
    && UniqueStops(s.stops)
    && (forall i, j :: 0 <= i < j < |s.stops| ==> s.stops[i].arrivalAt < s.stops[j].arrivalAt)
    && (forall k :: 0 <= k < |s.segments| ==>
          && s.segments[k].start == s.stops[k].location
          && s.segments[k].end == s.stops[k + 1].location
          && s.segments[k].distanceKm > 0
          && s.segments[k].duration == s.stops[k + 1].arrivalAt - s.stops[k].arrivalAt)
  }

  lemma {:induction false} ArrivalsIncrease(s: RouteSchedule, i: nat, j: nat)
    requires CheckSchedule(s).None? && i < j < |s.stops|
    ensures s.stops[i].arrivalAt < s.stops[j].arrivalAt
    decreases j
  {
    assert SegmentError(s, j - 1).None?;
    if i < j - 1 {
      ArrivalsIncrease(s, i, j - 1);
    }
  }

  /** Construction accepts exactly the timetables. */
  lemma AcceptedIffTimetable(s: RouteSchedule)
    ensures CheckSchedule(s).None? <==> Timetable(s)
  {
    if CheckSchedule(s).None? {
      forall i, j | 0 <= i < j < |s.stops| ensures s.stops[i].arrivalAt < s.stops[j].arrivalAt {
        ArrivalsIncrease(s, i, j);
      }
      forall k | 0 <= k < |s.segments|
        ensures && s.segments[k].start == s.stops[k].location && s.segments[k].end == s.stops[k + 1].location
                && s.segments[k].distanceKm > 0
                && s.segments[k].duration == s.stops[k + 1].arrivalAt - s.stops[k].arrivalAt
      {
        assert SegmentError(s, k).None?;
      }
    }
    if Timetable(s) {
      assert forall k :: 0 <= k < |s.segments| ==> SegmentError(s, k).None?;
    }
  }

  // ----- queries

  function EtaFinal(s: RouteSchedule): Time
    requires |s.stops| >= 2
  {
    s.stops[|s.stops| - 1].arrivalAt
  }

  function TotalDistance(segments: seq<RouteSegment>): int {
    if segments == [] then 0 else TotalDistance(segments[..|segments| - 1]) + segments[|segments| - 1].distanceKm
  }

  /** Index of the stop at a location, if the schedule has one. */
  function StopIndex(s: RouteSchedule, location: LocationCode, from: nat := 0): (r: Option<nat>)
    requires from <= |s.stops|
    ensures r.Some? ==> from <= r.value < |s.stops| && s.stops[r.value].location == location
    ensures r.None? ==> forall k :: from <= k < |s.stops| ==> s.stops[k].location != location
    decreases |s.stops| - from
  {
    if from == |s.stops| then None
    else if s.stops[from].location == location then Some(from)
    else StopIndex(s, location, from + 1)
  }

  function ArrivalTimeAt(s: RouteSchedule, location: LocationCode): Option<Time> {
    var k := StopIndex(s, location);
    if k.None? then None else Some(s.stops[k.value].arrivalAt)
  }

  lemma ArrivalAtStop(s: RouteSchedule, k: nat)
    requires UniqueStops(s.stops) && k < |s.stops|
    ensures StopIndex(s, s.stops[k].location) == Some(k)
    ensures ArrivalTimeAt(s, s.stops[k].location) == Some(s.stops[k].arrivalAt)
  {
    var i := StopIndex(s, s.stops[k].location);
    assert i.Some?;
  }

  // ----- position at an instant

  function NextStopEta(s: RouteSchedule, city: LocationCode): Option<Time> {
    var k := StopIndex(s, city);
    if k.None? || k.value + 1 >= |s.stops| then None
    else ArrivalTimeAt(s, s.stops[k.value + 1].location)
  }

  function PositionOnSegment(s: RouteSchedule, g: RouteSegment, now: Time, firstCity: LocationCode): Option<RoutePosition>
    requires ArrivalTimeAt(s, g.start).Some? && ArrivalTimeAt(s, g.end).Some?
  {
    var startTime := ArrivalTimeAt(s, g.start).value;
    var endTime := ArrivalTimeAt(s, g.end).value;
    if now == startTime then
      Some(RoutePosition(if g.start == firstCity then IN_TRANSIT else AT_STOP,
                         Some(g.start), Some(g.end), None, Some(endTime)))
    else if now == endTime then
      Some(RoutePosition(AT_STOP, None, None, Some(g.end), NextStopEta(s, g.end)))
    else if startTime < now < endTime then
      Some(RoutePosition(IN_TRANSIT, Some(g.start), Some(g.end), None, Some(endTime)))
    else None
  }

  function PositionAfterSegments(s: RouteSchedule, now: Time): RoutePosition
    requires |s.stops| >= 2
  {
    if now >= EtaFinal(s)
    then RoutePosition(AFTER_END, None, None, Some(s.stops[|s.stops| - 1].location), None)
    else RoutePosition(AT_STOP, None, None, Some(s.stops[0].location), Some(s.departure))
  }

  ghost predicate SegmentsNameStops(s: RouteSchedule) {
    forall k :: 0 <= k < |s.segments| ==>
      ArrivalTimeAt(s, s.segments[k].start).Some? && ArrivalTimeAt(s, s.segments[k].end).Some?
  }

  function ScanSegments(s: RouteSchedule, now: Time, i: nat): RoutePosition
    requires |s.stops| >= 2 && SegmentsNameStops(s) && i <= |s.segments|
    decreases |s.segments| - i
  {
    if i == |s.segments| then PositionAfterSegments(s, now)
    else
      var p := PositionOnSegment(s, s.segments[i], now, s.stops[0].location);
      if p.Some? then p.value else ScanSegments(s, now, i + 1)
  }

  lemma TimetableSegmentsNameStops(s: RouteSchedule)
    requires Timetable(s)
    ensures forall k :: 0 <= k < |s.segments| ==>
      && ArrivalTimeAt(s, s.segments[k].start) == Some(s.stops[k].arrivalAt)
      && ArrivalTimeAt(s, s.segments[k].end) == Some(s.stops[k + 1].arrivalAt)
    ensures SegmentsNameStops(s)
  {
    forall k | 0 <= k < |s.segments|
      ensures ArrivalTimeAt(s, s.segments[k].start) == Some(s.stops[k].arrivalAt)
           && ArrivalTimeAt(s, s.segments[k].end) == Some(s.stops[k + 1].arrivalAt)
    {
      ArrivalAtStop(s, k);
      ArrivalAtStop(s, k + 1);
    }
    forall k | 0 <= k < |s.segments|
      ensures ArrivalTimeAt(s, s.segments[k].start).Some? && ArrivalTimeAt(s, s.segments[k].end).Some?
    {
      assert ArrivalTimeAt(s, s.segments[k].start) == Some(s.stops[k].arrivalAt);
      assert ArrivalTimeAt(s, s.segments[k].end) == Some(s.stops[k + 1].arrivalAt);
    }
  }

  function PositionAt(s: RouteSchedule, now: Time): RoutePosition
    requires Timetable(s)
  {
    TimetableSegmentsNameStops(s);
    if now < s.departure
    then RoutePosition(BEFORE_START, None, None, Some(s.stops[0].location), Some(s.departure))
    else ScanSegments(s, now, 0)
  }

  // ----- the closed form

  /** Index of the last stop reached by `now`, among the first ones; 0 when none is. */
  function Reached(s: RouteSchedule, now: Time, upTo: nat): (k: nat)
    requires upTo < |s.stops|
    ensures k <= upTo && (k > 0 ==> s.stops[k].arrivalAt <= now)
    ensures forall j :: k < j <= upTo ==> now < s.stops[j].arrivalAt
    decreases upTo
  {
    if upTo == 0 || s.stops[upTo].arrivalAt <= now then upTo else Reached(s, now, upTo - 1)
  }

  function LastReached(s: RouteSchedule, now: Time): (k: nat)
    requires |s.stops| > 0
    ensures k < |s.stops| && (k > 0 ==> s.stops[k].arrivalAt <= now)
    ensures forall j :: k < j < |s.stops| ==> now < s.stops[j].arrivalAt
  {
    Reached(s, now, |s.stops| - 1)
  }

  /** Where a route is, told from the last stop it has reached. */
  function PositionByLastStop(s: RouteSchedule, now: Time): RoutePosition
    requires |s.stops| >= 2
  {
    if now < s.departure then RoutePosition(BEFORE_START, None, None, Some(s.stops[0].location), Some(s.departure))
    else
      var k := LastReached(s, now);
      if k + 1 == |s.stops| && now > s.stops[k].arrivalAt
      then RoutePosition(AFTER_END, None, None, Some(s.stops[k].location), None)
      else if k > 0 && now == s.stops[k].arrivalAt
      then RoutePosition(AT_STOP, None, None, Some(s.stops[k].location),
                         if k + 1 < |s.stops| then Some(s.stops[k + 1].arrivalAt) else None)
      else RoutePosition(IN_TRANSIT, Some(s.stops[k].location), Some(s.stops[k + 1].location), None,
                         Some(s.stops[k + 1].arrivalAt))
  }

  lemma {:induction false} ScanSkips(s: RouteSchedule, now: Time, i: nat, j: nat)
    requires Timetable(s) && SegmentsNameStops(s) && i <= j <= |s.segments|
    requires i == j || s.stops[j].arrivalAt < now
    ensures ScanSegments(s, now, i) == ScanSegments(s, now, j)
    decreases j - i
  {
    TimetableSegmentsNameStops(s);
    if i < j {
      assert s.stops[i].arrivalAt < s.stops[j].arrivalAt;
      assert s.stops[i + 1].arrivalAt <= s.stops[j].arrivalAt;
      ScanSkips(s, now, i + 1, j);
    }
  }

  /** What one segment contributes: nothing before it starts or after it ends, otherwise the closed form. */
  lemma SegmentContribution(s: RouteSchedule, now: Time, i: nat)
    requires Timetable(s) && SegmentsNameStops(s) && i < |s.segments|
    requires s.stops[i].arrivalAt <= now <= s.stops[i + 1].arrivalAt
    requires now == s.stops[i].arrivalAt ==> i == 0
    ensures PositionOnSegment(s, s.segments[i], now, s.stops[0].location) == Some(
      if now == s.stops[i + 1].arrivalAt
      then RoutePosition(AT_STOP, None, None, Some(s.stops[i + 1].location),
                         if i + 2 < |s.stops| then Some(s.stops[i + 2].arrivalAt) else None)
      else RoutePosition(IN_TRANSIT, Some(s.stops[i].location), Some(s.stops[i + 1].location), None,
                         Some(s.stops[i + 1].arrivalAt)))
  {
    ArrivalAtStop(s, i);
    ArrivalAtStop(s, i + 1);
    if i + 2 < |s.stops| {
      ArrivalAtStop(s, i + 2);
    }
  }

  lemma ScanStopsAt(s: RouteSchedule, now: Time, i: nat)
    requires Timetable(s) && SegmentsNameStops(s) && i <= |s.segments|
    requires i == 0 || s.stops[i].arrivalAt < now
    ensures ScanSegments(s, now, 0) ==
      if i == |s.segments| then PositionAfterSegments(s, now)
      else
        var p := PositionOnSegment(s, s.segments[i], now, s.stops[0].location);
        if p.Some? then p.value else ScanSegments(s, now, i + 1)
  {
    ScanSkips(s, now, 0, i);
  }

  /** The segment scan finds exactly the position told by the last stop reached: never a fallback branch,
      and `AT_STOP` always names its stop. */
  lemma PositionAtIsClosedForm(s: RouteSchedule, now: Time)
    requires Timetable(s)
    ensures PositionAt(s, now) == PositionByLastStop(s, now)
  {
    if now >= s.departure {
      TimetableSegmentsNameStops(s);
      var k := LastReached(s, now);
      var i := if k > 0 && now == s.stops[k].arrivalAt then k - 1 else k;
      assert i == 0 || s.stops[i].arrivalAt < now;
      ScanStopsAt(s, now, i);
      if i < |s.segments| {
        SegmentContribution(s, now, i);
      }
    }
  }

  /** How far along a position is: twice the index of a stop at it, one more on the segment after it, and the ends of
      the line before and after all of them. */
  function HowFar(s: RouteSchedule, p: RoutePosition): (a: int)
    ensures p.kind == BEFORE_START ==> a == -1
  {
    match p.kind
    case BEFORE_START => -1
    case AT_STOP => if p.stopCity.Some? && StopIndex(s, p.stopCity.value).Some? then 2 * StopIndex(s, p.stopCity.value).value else 0
    case IN_TRANSIT => if p.fromCity.Some? && StopIndex(s, p.fromCity.value).Some? then 2 * StopIndex(s, p.fromCity.value).value + 1 else 0
    case AFTER_END => 2 * |s.stops|
    case UNSCHEDULED => 0
  }

  /** How far a position is, told from the last stop reached. */
  lemma HowFarIs(s: RouteSchedule, now: Time)
    requires Timetable(s)
    ensures HowFar(s, PositionAt(s, now)) == (
      if now < s.departure then -1
      else if now > s.stops[|s.stops| - 1].arrivalAt then 2 * |s.stops|
      else if LastReached(s, now) > 0 && now == s.stops[LastReached(s, now)].arrivalAt then 2 * LastReached(s, now)
      else 2 * LastReached(s, now) + 1)
  {
    PositionAtIsClosedForm(s, now);
    if now >= s.departure {
      ArrivalAtStop(s, LastReached(s, now));
    }
  }

  /** Progress never goes back: at a later instant the position is as far along or further, stop by stop and segment by
      segment, and every stop an earlier instant had reached is reached. */
  lemma ProgressIsMonotone(s: RouteSchedule, t1: Time, t2: Time)
    requires Timetable(s) && t1 <= t2
    ensures HowFar(s, PositionAt(s, t1)) <= HowFar(s, PositionAt(s, t2))
    ensures LastReached(s, t1) <= LastReached(s, t2)
  {
    HowFarIs(s, t1);
    HowFarIs(s, t2);
  }
}
