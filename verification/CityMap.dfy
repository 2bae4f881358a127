/** The static map: supported cities and the distances between them. */
module CityMap {
  import opened Common

  /** A normalised location code; any text outside the map is `Unsupported`. */
  datatype LocationCode = SYD | MEL | ADL | ASP | BRI | DAR | PER | Unsupported(code: string)

  datatype MapError = NoDistance

  const LOCATIONS: seq<LocationCode> := [SYD, MEL, ADL, ASP, BRI, DAR, PER]

  predicate IsValidLocation(code: LocationCode) {
    code in LOCATIONS
  }

  /** The distance table, row by row. */
  function Listed(a: LocationCode, b: LocationCode): Option<nat> {
    match a
    case SYD => (match b
      case MEL => Some(877) case ADL => Some(1376) case ASP => Some(2762)
      case BRI => Some(909) case DAR => Some(3935) case PER => Some(4016) case _ => None)
    case MEL => (match b
      case SYD => Some(877) case ADL => Some(725) case ASP => Some(2255)
      case BRI => Some(1765) case DAR => Some(3752) case PER => Some(3509) case _ => None)
    case ADL => (match b
      case SYD => Some(1376) case MEL => Some(725) case ASP => Some(1530)
      case BRI => Some(1927) case DAR => Some(3027) case PER => Some(2785) case _ => None)
    case ASP => (match b
      case SYD => Some(2762) case MEL => Some(2255) case ADL => Some(1530)
      case BRI => Some(2993) case DAR => Some(1497) case PER => Some(2481) case _ => None)
    case BRI => (match b
      case SYD => Some(909) case MEL => Some(1765) case ADL => Some(1927)
      case ASP => Some(2993) case DAR => Some(3426) case PER => Some(4311) case _ => None)
    case DAR => (match b
      case SYD => Some(3935) case MEL => Some(3752) case ADL => Some(3027)
      case ASP => Some(1497) case BRI => Some(3426) case PER => Some(4025) case _ => None)
    case PER => (match b
      case SYD => Some(4016) case MEL => Some(3509) case ADL => Some(2785)
      case ASP => Some(2481) case BRI => Some(4311) case DAR => Some(4025) case _ => None)
    case Unsupported(_) => None
  }

  function GetDistance(a: LocationCode, b: LocationCode): Result<nat, MapError> {
    if a == b then Ok(0)
    else if Listed(a, b).Some? then Ok(Listed(a, b).value)
    else if Listed(b, a).Some? then Ok(Listed(b, a).value)
    else Err(NoDistance)
  }

  /** A pair has a distance exactly when it is one city twice or two supported cities; lookups are
      symmetric and two different cities are a positive distance apart. */
  lemma DistancesAreComplete(a: LocationCode, b: LocationCode)
    ensures GetDistance(a, b).Ok? <==> a == b || (IsValidLocation(a) && IsValidLocation(b))
    ensures GetDistance(a, b) == GetDistance(b, a)
    ensures GetDistance(a, b).Ok? ==> (GetDistance(a, b).value == 0 <==> a == b)
  {
    assert forall c: LocationCode :: IsValidLocation(c) <==> !c.Unsupported? by {
      forall c: LocationCode ensures IsValidLocation(c) <==> !c.Unsupported? {
        assert LOCATIONS[0] == SYD && LOCATIONS[1] == MEL && LOCATIONS[2] == ADL && LOCATIONS[3] == ASP
            && LOCATIONS[4] == BRI && LOCATIONS[5] == DAR && LOCATIONS[6] == PER;
      }
    }
  }
}
