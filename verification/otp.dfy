/**
 * The part of the trip-planning server's response model that the directions
 * generator reads: travel modes, headings, places, walk steps and legs, and the
 * address records the reverse geocoder returns.
 */
module Otp {
  import opened Wrappers

  /** The travel modes a leg can have (the server's TraverseMode). */
  datatype TraverseMode =
    | WALK | BICYCLE | CAR
    | TRAM | SUBWAY | RAIL | BUS | FERRY | CABLE_CAR | GONDOLA | FUNICULAR
    | TRANSIT | TRAINISH | BUSISH

  /** Legs walked, cycled or driven on the street network rather than ridden on transit. */
  predicate IsOnStreetNonTransit(m: TraverseMode)
  {
    m == WALK || m == BICYCLE || m == CAR
  }

  /** The enum constant's name, which is what string concatenation of a mode prints. */
  function ModeName(m: TraverseMode): string
  {
    match m
    case WALK => "WALK"
    case BICYCLE => "BICYCLE"
    case CAR => "CAR"
    case TRAM => "TRAM"
    case SUBWAY => "SUBWAY"
    case RAIL => "RAIL"
    case BUS => "BUS"
    case FERRY => "FERRY"
    case CABLE_CAR => "CABLE_CAR"
    case GONDOLA => "GONDOLA"
    case FUNICULAR => "FUNICULAR"
    case TRANSIT => "TRANSIT"
    case TRAINISH => "TRAINISH"
    case BUSISH => "BUSISH"
  }

  /** A turn relative to the previous heading. */
  datatype RelativeDirection =
    | DEPART | HARD_LEFT | LEFT | SLIGHTLY_LEFT | CONTINUE | SLIGHTLY_RIGHT | RIGHT | HARD_RIGHT
    | CIRCLE_CLOCKWISE | CIRCLE_COUNTERCLOCKWISE | ELEVATOR | UTURN_LEFT | UTURN_RIGHT

  /** A compass heading. */
  datatype AbsoluteDirection =
    | NORTH | NORTHEAST | EAST | SOUTHEAST | SOUTH | SOUTHWEST | WEST | NORTHWEST

  /** A transit stop identifier. */
  datatype AgencyAndId = AgencyAndId(agencyId: string, id: string)

  /** A named point of a trip: a leg's start or end, or a transit stop. */
  datatype Place = Place(name: Option<string>, lat: real, lon: real, stopId: Option<AgencyAndId>)

  /** One manoeuvre of an on-street leg. */
  datatype WalkStep = WalkStep(
    distance: real,
    relativeDirection: Option<RelativeDirection>,
    absoluteDirection: Option<AbsoluteDirection>,
    exit: Option<string>,
    streetName: string,
    lat: real,
    lon: real)

  /**
   * One segment of a trip. Times are milliseconds since the epoch, delays are
   * seconds, as the server sends them.
   */
  datatype Leg = Leg(
    mode: TraverseMode,
    distance: real,
    from: Place,
    to: Place,
    steps: Option<seq<WalkStep>>,
    realtime: bool,
    route: Option<string>,
    agencyName: Option<string>,
    startTime: int,
    endTime: int,
    departureDelay: int,
    arrivalDelay: int,
    agencyTimeZoneOffset: int,
    intermediateStops: Option<seq<Place>>,
    stop: Option<seq<Place>>)

  /** An address found by the reverse geocoder; its text may be missing. */
  datatype Address = Address(stringAddress: Option<string>)
}
