/**
 * The side-effect-free part of the directions generator: the lookup tables
 * (roundabout ordinals, localised headings, mode, notification and turn icons,
 * generic street names) and the composition of the texts that the generator
 * puts into directions. Everything is a function of the server's data and of
 * the application's string table and formatters (Env).
 */
module DirectionsText {
  import opened Wrappers
  import opened Otp
  import opened Resources
  import opened JavaText

  // ---------------------------------------------------------------------------
  // Roundabout ordinals

  /** The ordinal resource for a roundabout exit number, for 1 to 10 only. */
  function OrdinalKey(n: int): (r: Option<StringKey>)
    ensures r.Some? <==> 1 <= n <= 10
  {
    match n
    case 1 => Some(OrdinalFirst)
    case 2 => Some(OrdinalSecond)
    case 3 => Some(OrdinalThird)
    case 4 => Some(OrdinalFourth)
    case 5 => Some(OrdinalFifth)
    case 6 => Some(OrdinalSixth)
    case 7 => Some(OrdinalSeventh)
    case 8 => Some(OrdinalEighth)
    case 9 => Some(OrdinalNinth)
    case 10 => Some(OrdinalTenth)
    case _ => None
  }

  /** getOrdinal: the localised ordinal, or null outside 1..10. */
  function GetOrdinal(n: int, res: StringKey -> string): (r: Option<string>)
    ensures r.Some? <==> 1 <= n <= 10
    ensures r.Some? ==> r.value == res(OrdinalKey(n).value)
  {
    if OrdinalKey(n).Some? then Some(res(OrdinalKey(n).value)) else None
  }

  /** Different exit numbers get different ordinal resources. */
  lemma OrdinalKeyInjective(n: int, m: int)
    requires 1 <= n <= 10 && 1 <= m <= 10 && n != m
    ensures OrdinalKey(n) != OrdinalKey(m)
  {
  }

  // ---------------------------------------------------------------------------
  // Headings

  function RelativeDirKey(d: RelativeDirection): StringKey
  {
    match d
    case CIRCLE_CLOCKWISE => RelCircleClockwise
    case CIRCLE_COUNTERCLOCKWISE => RelCircleCounterclockwise
    case CONTINUE => RelContinue
    case DEPART => RelDepart
    case ELEVATOR => RelElevator
    case HARD_LEFT => RelHardLeft
    case HARD_RIGHT => RelHardRight
    case LEFT => RelLeft
    case RIGHT => RelRight
    case SLIGHTLY_LEFT => RelSlightlyLeft
    case SLIGHTLY_RIGHT => RelSlightlyRight
    case UTURN_LEFT => RelUturnLeft
    case UTURN_RIGHT => RelUturnRight
  }

  /** getLocalizedRelativeDir: null exactly for a null heading, else that heading's own resource. */
  function LocalizedRelativeDir(d: Option<RelativeDirection>, res: StringKey -> string): (r: Option<string>)
    ensures r.Some? <==> d.Some?
    ensures d.Some? ==> r.value == res(RelativeDirKey(d.value))
  {
    if d.Some? then Some(res(RelativeDirKey(d.value))) else None
  }

  /** No two relative headings share a resource. */
  lemma RelativeDirKeyInjective(a: RelativeDirection, b: RelativeDirection)
    requires a != b
    ensures RelativeDirKey(a) != RelativeDirKey(b)
  {
  }

  function AbsoluteDirKey(d: AbsoluteDirection): StringKey
  {
    match d
    case EAST => AbsEast
    case NORTH => AbsNorth
    case NORTHEAST => AbsNortheast
    case NORTHWEST => AbsNorthwest
    case SOUTH => AbsSouth
    case SOUTHEAST => AbsSoutheast
    case SOUTHWEST => AbsSouthwest
    case WEST => AbsWest
  }

  /** getLocalizedAbsoluteDir: null exactly for a null heading, else that heading's own resource. */
  function LocalizedAbsoluteDir(d: Option<AbsoluteDirection>, res: StringKey -> string): (r: Option<string>)
    ensures r.Some? <==> d.Some?
    ensures d.Some? ==> r.value == res(AbsoluteDirKey(d.value))
  {
    if d.Some? then Some(res(AbsoluteDirKey(d.value))) else None
  }

  /** No two compass headings share a resource. */
  lemma AbsoluteDirKeyInjective(a: AbsoluteDirection, b: AbsoluteDirection)
    requires a != b
    ensures AbsoluteDirKey(a) != AbsoluteDirKey(b)
  {
  }

  // ---------------------------------------------------------------------------
  // Icons

  /** getModeIcon: a first-match table over the mode flags. */
  function ModeIcon(s: set<TraverseMode>): (r: Drawable)
    ensures r == ModeTransit <==> BUSISH in s && TRAINISH in s
    ensures r == ModeBus <==> BUSISH in s && TRAINISH !in s
    ensures r == ModeTrain <==>
      (BUSISH !in s && TRAINISH in s) ||
      (BUSISH !in s && TRAINISH !in s && FERRY !in s && GONDOLA !in s && SUBWAY !in s && TRAM in s)
    ensures r == ModeFerry <==> BUSISH !in s && TRAINISH !in s && (FERRY in s || GONDOLA in s)
    ensures r == ModeMetro <==>
      BUSISH !in s && TRAINISH !in s && FERRY !in s && GONDOLA !in s && SUBWAY in s
    ensures r == ModeWalk <==>
      BUSISH !in s && TRAINISH !in s && FERRY !in s && GONDOLA !in s && SUBWAY !in s && TRAM !in s
      && WALK in s
    ensures r == ModeBike <==>
      BUSISH !in s && TRAINISH !in s && FERRY !in s && GONDOLA !in s && SUBWAY !in s && TRAM !in s
      && WALK !in s && BICYCLE in s
    ensures r == AppIcon <==>
      BUSISH !in s && TRAINISH !in s && FERRY !in s && GONDOLA !in s && SUBWAY !in s && TRAM !in s
      && WALK !in s && BICYCLE !in s
  {
    if BUSISH in s && TRAINISH in s then ModeTransit
    else if BUSISH in s then ModeBus
    else if TRAINISH in s then ModeTrain
    else if FERRY in s then ModeFerry
    else if GONDOLA in s then ModeFerry
    else if SUBWAY in s then ModeMetro
    else if TRAM in s then ModeTrain
    else if WALK in s then ModeWalk
    else if BICYCLE in s then ModeBike
    else AppIcon
  }

  /** Flags the table does not list, such as CAR alone, fall through to the application icon. */
  lemma ModeIconUnlisted(s: set<TraverseMode>)
    requires s <= {CAR, RAIL, CABLE_CAR, FUNICULAR, TRANSIT}
    ensures ModeIcon(s) == AppIcon
  {
  }

  /** getNotificationIcon: only transit, bus, train, ferry and subway have a notification icon. */
  function NotificationIcon(s: set<TraverseMode>): (r: Drawable)
    ensures r == TransitNotification <==> BUSISH in s && TRAINISH in s
    ensures r == BusNotification <==> BUSISH in s && TRAINISH !in s
    ensures r == TrainNotification <==> BUSISH !in s && TRAINISH in s
    ensures r == FerryNotification <==> BUSISH !in s && TRAINISH !in s && FERRY in s
    ensures r == MetroNotification <==> BUSISH !in s && TRAINISH !in s && FERRY !in s && SUBWAY in s
    ensures r == AppIcon <==> BUSISH !in s && TRAINISH !in s && FERRY !in s && SUBWAY !in s
  {
    if BUSISH in s && TRAINISH in s then TransitNotification
    else if BUSISH in s then BusNotification
    else if TRAINISH in s then TrainNotification
    else if FERRY in s then FerryNotification
    else if SUBWAY in s then MetroNotification
    else AppIcon
  }

  /** getRelativeDirectionIcon: one icon per turn; DEPART shows the blank icon. */
  function RelativeDirectionIcon(d: RelativeDirection): (r: Drawable)
    ensures r == Clear <==> d == DEPART
  {
    match d
    case CIRCLE_CLOCKWISE => CircleClockwise
    case CIRCLE_COUNTERCLOCKWISE => CircleCounterclockwise
    case CONTINUE => ReldirContinue
    case DEPART => Clear
    case ELEVATOR => Elevator
    case HARD_LEFT => HardLeft
    case HARD_RIGHT => HardRight
    case LEFT => Left
    case RIGHT => Right
    case SLIGHTLY_LEFT => SlightlyLeft
    case SLIGHTLY_RIGHT => SlightlyRight
    case UTURN_LEFT => UturnLeft
    case UTURN_RIGHT => UturnRight
  }

  /** Different turns get different icons, except that nothing but DEPART is blank. */
  lemma RelativeDirectionIconInjective(a: RelativeDirection, b: RelativeDirection)
    requires a != b
    ensures RelativeDirectionIcon(a) != RelativeDirectionIcon(b)
  {
  }

  // ---------------------------------------------------------------------------
  // Street names

  /** The generic OpenStreetMap names the server uses for unnamed ways. */
  const GenericStreetNames: set<string> :=
    {"bike path", "open area", "path", "bridleway", "footpath", "platform", "footbridge",
     "underpass", "road", "ramp", "link", "service road", "alley", "parking aisle", "byway",
     "track", "sidewalk", "steps"}

  /** The resource that localises a generic street name. */
  function StreetTypeKey(name: string): Option<StringKey>
  {
    if name == "bike path" then Some(StreetBikePath)
    else if name == "open area" then Some(StreetOpenArea)
    else if name == "path" then Some(StreetPath)
    else if name == "bridleway" then Some(StreetBridleway)
    else if name == "footpath" then Some(StreetFootpath)
    else if name == "platform" then Some(StreetPlatform)
    else if name == "footbridge" then Some(StreetFootbridge)
    else if name == "underpass" then Some(StreetUnderpass)
    else if name == "road" then Some(StreetRoad)
    else if name == "ramp" then Some(StreetRamp)
    else if name == "link" then Some(StreetLink)
    else if name == "service road" then Some(StreetServiceRoad)
    else if name == "alley" then Some(StreetAlley)
    else if name == "parking aisle" then Some(StreetParkingAisle)
    else if name == "byway" then Some(StreetByway)
    else if name == "track" then Some(StreetTrack)
    else if name == "sidewalk" then Some(StreetSidewalk)
    else if name == "steps" then Some(StreetSteps)
    else None
  }

  /** Exactly the generic names have a localised replacement. */
  lemma StreetTypeKeyExactlyGeneric(name: string)
    ensures StreetTypeKey(name).Some? <==> name in GenericStreetNames
  {
  }

  /** Names that are replaced by a generated text and sent to the reverse geocoder. */
  predicate NeedsGeocoding(name: string)
  {
    StreetTypeKey(name).Some? || StartsWith(name, "osm:node")
  }

  /**
   * The displayed name: the localised street type, the node's formatted
   * coordinates for an "osm:node" name, or the name itself.
   */
  function LocalizedStreetName(name: string, lat: real, lon: real, env: Env): (r: string)
    ensures !NeedsGeocoding(name) ==> r == name
    ensures StreetTypeKey(name).Some? ==> r == env.res(StreetTypeKey(name).value)
    ensures StreetTypeKey(name).None? && StartsWith(name, "osm:node") ==>
      r == env.formatCoordinate(lat) + ", " + env.formatCoordinate(lon)
  {
    if StreetTypeKey(name).Some? then env.res(StreetTypeKey(name).value)
    else if StartsWith(name, "osm:node") then env.formatCoordinate(lat) + ", " + env.formatCoordinate(lon)
    else name
  }

  /** A reverse-geocoding request for a generated name, with the step or place it came from. */
  datatype GeocodingRequest = GeocodingRequest(
    step: Option<WalkStep>, place: Option<Place>, lat: real, lon: real, generatedName: string)

  /** The name and coordinates getLocalizedStreetName works on: the place's if given, else the step's. */
  function NameSource(step: Option<WalkStep>, place: Option<Place>): Option<(string, real, real)>
    requires place.Some? ==> place.value.name.Some?
  {
    if place.Some? then Some((place.value.name.value, place.value.lat, place.value.lon))
    else if step.Some? then Some((step.value.streetName, step.value.lat, step.value.lon))
    else None
  }

  /** The value getLocalizedStreetName returns. */
  function LocalizedName(step: Option<WalkStep>, place: Option<Place>, env: Env): Option<string>
    requires place.Some? ==> place.value.name.Some?
  {
    var src := NameSource(step, place);
    if src.Some? then Some(LocalizedStreetName(src.value.0, src.value.1, src.value.2, env)) else None
  }

  /** The geocoding requests getLocalizedStreetName issues: none, or one for a generic name. */
  function NameRequests(step: Option<WalkStep>, place: Option<Place>, env: Env): seq<GeocodingRequest>
    requires place.Some? ==> place.value.name.Some?
  {
    var src := NameSource(step, place);
    if src.Some? && NeedsGeocoding(src.value.0) then
      [GeocodingRequest(step, place, src.value.1, src.value.2,
                        LocalizedStreetName(src.value.0, src.value.1, src.value.2, env))]
    else []
  }

  /**
   * The place wins over the step; both absent gives null and no request; a
   * generic name gives exactly one request, carrying the returned text and the
   * coordinates it was made for; any other name comes back unchanged with no
   * request.
   */
  lemma LocalizedNameContract(step: Option<WalkStep>, place: Option<Place>, env: Env)
    requires place.Some? ==> place.value.name.Some?
    ensures step.None? && place.None? ==> LocalizedName(step, place, env).None? && NameRequests(step, place, env) == []
    ensures place.Some? ==>
      LocalizedName(step, place, env) == LocalizedName(None, place, env) &&
      |NameRequests(step, place, env)| == |NameRequests(None, place, env)|
    ensures |NameRequests(step, place, env)| <= 1
    ensures |NameRequests(step, place, env)| == 1 <==>
      NameSource(step, place).Some? && NeedsGeocoding(NameSource(step, place).value.0)
    ensures |NameRequests(step, place, env)| == 1 ==>
      var q := NameRequests(step, place, env)[0];
      LocalizedName(step, place, env) == Some(q.generatedName) &&
      (q.lat, q.lon) == (NameSource(step, place).value.1, NameSource(step, place).value.2)
    ensures NameSource(step, place).Some? && !NeedsGeocoding(NameSource(step, place).value.0) ==>
      LocalizedName(step, place, env) == Some(NameSource(step, place).value.0) &&
      NameRequests(step, place, env) == []
  {
  }

  // ---------------------------------------------------------------------------
  // On-street directions

  /** The action word of an on-street leg: walk unless the leg is cycled or driven. */
  function ActionKey(m: TraverseMode): StringKey
  {
    if m == BICYCLE then BicycleAction else if m == CAR then CarAction else WalkAction
  }

  predicate IsCircle(d: RelativeDirection)
  {
    d == CIRCLE_CLOCKWISE || d == CIRCLE_COUNTERCLOCKWISE
  }

  /** "Turn " before a plain left or right; nothing before any other turn. */
  function TurnPrefix(d: RelativeDirection, res: StringKey -> string): (r: string)
    ensures r != "" <==> d == RIGHT || d == LEFT
  {
    if d == RIGHT || d == LEFT then res(NonTransitTurn) + " " else ""
  }

  /**
   * The exit part of a roundabout step: the ordinal, the number label, or the
   * raw exit text. digit is the platform's decimal-digit table.
   */
  function ExitPhrase(exit: string, res: StringKey -> string, digit: DigitTable): string
  {
    var number :=
      match ParseInt(exit, digit)
      case Some(n) =>
        var ordinal := GetOrdinal(n, res);
        if ordinal.Some? then ordinal.value + " "
        else res(RoundaboutNumber) + " " + JavaStr(ordinal) + " "
      case None => exit + " ";
    number + (res(RoundaboutExit) + " ")
  }

  /**
   * An exit that parses as a number from 1 to 10 is spelled as its ordinal; any
   * other number (0, negative, above 10) gets the number label followed by the
   * null ordinal, printed as "null".
   */
  lemma ExitPhraseNumbered(exit: string, n: int, res: StringKey -> string, digit: DigitTable)
    requires ParseInt(exit, digit) == Some(n)
    ensures 1 <= n <= 10 ==>
      ExitPhrase(exit, res, digit) == res(OrdinalKey(n).value) + " " + res(RoundaboutExit) + " "
    ensures !(1 <= n <= 10) ==>
      ExitPhrase(exit, res, digit) == res(RoundaboutNumber) + " null " + res(RoundaboutExit) + " "
  {
  }

  /** An exit that does not parse as an int is shown as it is. */
  lemma ExitPhraseUnparsed(exit: string, res: StringKey -> string, digit: DigitTable)
    requires ParseInt(exit, digit).None?
    ensures ExitPhrase(exit, res, digit) == exit + " " + res(RoundaboutExit) + " "
  {
  }

  /** The decimal text of an exit from 1 to 10 is spelled as its ordinal. */
  lemma ExitPhraseOrdinal(n: nat, res: StringKey -> string, digit: DigitTable)
    requires AsciiAgrees(digit) && 1 <= n <= 10
    ensures ExitPhrase(NatToString(n), res, digit) == res(OrdinalKey(n).value) + " " + res(RoundaboutExit) + " "
  {
    ParseIntOfNatToString(n, digit);
    ExitPhraseNumbered(NatToString(n), n, res, digit);
  }

  /** The decimal text of exit 0 or of an exit above 10 gets the number label and "null". */
  lemma ExitPhraseOutOfRange(n: nat, res: StringKey -> string, digit: DigitTable)
    requires AsciiAgrees(digit) && (n == 0 || 10 < n <= IntMax)
    ensures ExitPhrase(NatToString(n), res, digit) == res(RoundaboutNumber) + " null " + res(RoundaboutExit) + " "
  {
    ParseIntOfNatToString(n, digit);
    ExitPhraseNumbered(NatToString(n), n, res, digit);
  }

  /** A negative exit, written with a minus sign, gets the number label and "null". */
  lemma ExitPhraseNegative(m: nat, res: StringKey -> string, digit: DigitTable)
    requires AsciiAgrees(digit) && 0 < m <= -IntMin
    ensures ExitPhrase("-" + NatToString(m), res, digit) == res(RoundaboutNumber) + " null " + res(RoundaboutExit) + " "
  {
    var t := NatToString(m);
    var s := "-" + t;
    assert s[1..] == t;
    DigitsValueOfNatToString(m, digit);
    ParseIntAcceptsSigned(s, digit);
    ExitPhraseNumbered(s, -(m as int), res, digit);
  }

  /** An exit with a character that is not a decimal digit (after an optional sign) is shown as it is. */
  lemma ExitPhraseRaw(exit: string, i: nat, res: StringKey -> string, digit: DigitTable)
    requires 0 < i < |exit| || (i == 0 < |exit| && exit[0] != '-' && exit[0] != '+')
    requires digit(exit[i]).None?
    ensures ExitPhrase(exit, res, digit) == exit + " " + res(RoundaboutExit) + " "
  {
    ParseIntRejectsNonDigit(exit, i, digit);
    ExitPhraseUnparsed(exit, res, digit);
  }

  /** The connector before the street name; the roundabout one only for a roundabout with a known exit. */
  function ConnectorKey(d: Option<RelativeDirection>, exit: Option<string>): (r: StringKey)
    ensures r == ConnectorStreetNameRoundabout <==> d.Some? && IsCircle(d.value) && exit.Some?
    ensures r != ConnectorStreetNameRoundabout ==> r == ConnectorStreetName
  {
    if d.Some? && IsCircle(d.value) && exit.Some? then ConnectorStreetNameRoundabout
    else ConnectorStreetName
  }

  /** The heading part of a step: "action heading compass" without a turn, else the turn and any exit. */
  function StepHeading(step: WalkStep, action: string, res: StringKey -> string, digit: DigitTable): string
  {
    if step.relativeDirection.None? then
      action + " " + res(NonTransitHeading) + " " + JavaStr(LocalizedAbsoluteDir(step.absoluteDirection, res)) + " "
    else
      var d := step.relativeDirection.value;
      TurnPrefix(d, res) + res(RelativeDirKey(d)) + " "
      + (if IsCircle(d) && step.exit.Some? then ExitPhrase(step.exit.value, res, digit) else "")
  }

  /** The text of the sub-direction for one walk step. */
  function StepText(step: WalkStep, action: string, env: Env): string
  {
    StepHeading(step, action, env.res, env.digit)
    + (env.res(ConnectorKey(step.relativeDirection, step.exit)) + " "
       + LocalizedStreetName(step.streetName, step.lat, step.lon, env) + " ")
    + ("\n[" + env.formatDistance(step.distance) + " ]")
  }

  /** The icon of the sub-direction for one walk step: blank without a turn. */
  function StepIcon(step: WalkStep): (r: Drawable)
    ensures step.relativeDirection.None? ==> r == Clear
  {
    if step.relativeDirection.None? then Clear else RelativeDirectionIcon(step.relativeDirection.value)
  }

  /**
   * A step without a turn reads "action heading compass-direction", blank icon;
   * a step with a turn begins with "Turn" exactly for LEFT and RIGHT, then the
   * localised turn.
   */
  lemma StepTextShape(step: WalkStep, action: string, env: Env)
    ensures step.relativeDirection.None? ==>
      StartsWith(StepText(step, action, env), action + " " + env.res(NonTransitHeading) + " ") &&
      StepIcon(step) == Clear
    ensures step.relativeDirection.Some? ==>
      var d := step.relativeDirection.value;
      StartsWith(StepText(step, action, env), TurnPrefix(d, env.res) + env.res(RelativeDirKey(d)) + " ") &&
      StepIcon(step) == RelativeDirectionIcon(d) &&
      (StartsWith(StepText(step, action, env), env.res(NonTransitTurn) + " " + env.res(RelativeDirKey(d)))
         <== (d == LEFT || d == RIGHT))
  {
    var text := StepText(step, action, env);
    var h := StepHeading(step, action, env.res, env.digit);
    assert text == h + (text[|h|..]);
    if step.relativeDirection.None? {
      var p := action + " " + env.res(NonTransitHeading) + " ";
      assert h == p + h[|p|..];
    } else {
      var d := step.relativeDirection.value;
      var p := TurnPrefix(d, env.res) + env.res(RelativeDirKey(d)) + " ";
      assert h == p + h[|p|..];
    }
  }

  /** The text of the main direction of an on-street leg, given the distance travelled so far. */
  function MainText(leg: Leg, totalDistance: real, env: Env): string
  {
    env.res(ActionKey(leg.mode))
    + (if leg.from.name.None? then ""
       else " " + env.res(NonTransitFrom) + " "
            + LocalizedStreetName(leg.from.name.value, leg.from.lat, leg.from.lon, env))
    + (if leg.to.name.None? then ""
       else " " + env.res(NonTransitTo) + " "
            + LocalizedStreetName(leg.to.name.value, leg.to.lat, leg.to.lon, env))
    + (if leg.to.stopId.None? then ""
       else " (" + leg.to.stopId.value.agencyId + " " + leg.to.stopId.value.id + ")")
    + ("\n[" + env.formatDistance(totalDistance) + " ]")
  }

  /** The requests issued while composing the main text: the start place's, then the end place's. */
  function MainRequests(leg: Leg, env: Env): seq<GeocodingRequest>
  {
    (if leg.from.name.None? then [] else NameRequests(None, Some(leg.from), env))
    + (if leg.to.name.None? then [] else NameRequests(None, Some(leg.to), env))
  }

  /** The requests issued for the walk steps, in step order. */
  function StepRequests(steps: seq<WalkStep>, env: Env): seq<GeocodingRequest>
  {
    if steps == [] then []
    else StepRequests(steps[..|steps| - 1], env) + NameRequests(Some(steps[|steps| - 1]), None, env)
  }

  /** Issuing step i's request after those of the steps before it gives the requests of the steps up to i. */
  lemma StepRequestsExtend(r0: seq<GeocodingRequest>, r1: seq<GeocodingRequest>, r2: seq<GeocodingRequest>,
                           steps: seq<WalkStep>, i: nat, env: Env)
    requires i < |steps|
    requires r1 == r0 + StepRequests(steps[..i], env)
    requires r2 == r1 + NameRequests(Some(steps[i]), None, env)
    ensures r2 == r0 + StepRequests(steps[..i + 1], env)
  {
    assert steps[..i + 1][..i] == steps[..i];
  }


  /** Only steps with a generic street name cause a request. */
  lemma {:induction false} StepRequestsCount(steps: seq<WalkStep>, env: Env)
    ensures |StepRequests(steps, env)| <= |steps|
    ensures (forall i :: 0 <= i < |steps| ==> !NeedsGeocoding(steps[i].streetName)) ==>
      StepRequests(steps, env) == []
  {
    if steps != [] {
      StepRequestsCount(steps[..|steps| - 1], env);
      LocalizedNameContract(Some(steps[|steps| - 1]), None, env);
    }
  }

  // ---------------------------------------------------------------------------
  // Transit directions

  /** The stops listed under "get on": the intermediate stops, or leg.stop when those are null or empty. */
  function StopsInBetween(leg: Leg): seq<Place>
  {
    if leg.intermediateStops.Some? && |leg.intermediateStops.value| > 0 then leg.intermediateStops.value
    else if leg.stop.Some? && |leg.stop.value| > 0 then leg.stop.value
    else []
  }

  /** What generateTransitSubdirection dereferences for the "get on" or "get off" direction. */
  predicate TransitLegSupported(leg: Leg)
  {
    leg.from.stopId.Some? && leg.to.stopId.Some? &&
    forall p :: p in StopsInBetween(leg) ==> p.stopId.Some?
  }

  /** The text of the i-th (from 0) stop in between: "i+1. name (agency id)". */
  function StopText(i: nat, stop: Place): string
    requires stop.stopId.Some?
  {
    NatToString(i + 1) + ". " + JavaStr(stop.name) + " (" + stop.stopId.value.agencyId + " "
    + stop.stopId.value.id + ")"
  }

  /** Stop texts are numbered from 1: the text before the first ". " reads back as i + 1. */
  lemma StopTextNumbered(i: nat, stop: Place, digit: DigitTable)
    requires stop.stopId.Some? && i < IntMax && AsciiAgrees(digit)
    ensures var k := |NatToString(i + 1)|;
      k + 2 <= |StopText(i, stop)| && StopText(i, stop)[k..k + 2] == ". " &&
      ParseInt(StopText(i, stop)[..k], digit) == Some(i + 1)
  {
    var num := NatToString(i + 1);
    var rest := ". " + (JavaStr(stop.name) + " (" + stop.stopId.value.agencyId + " "
      + stop.stopId.value.id + ")");
    var t := StopText(i, stop);
    assert t == num + rest;
    assert t[..|num|] == num;
    assert t[|num|..|num| + 2] == rest[..2] == ". ";
    ParseIntOfNatToString(i + 1, digit);
  }

  function ServiceName(leg: Leg): string
  {
    if leg.agencyName.Some? then leg.agencyName.value else ""
  }

  /** The "Get on/off agency MODE route" line of a transit direction. */
  function TransitService(leg: Leg, isOn: bool, env: Env): string
  {
    env.res(if isOn then TransitGetOn else TransitGetOff) + ServiceTail(leg)
  }

  /** What follows "Get on" or "Get off": the agency, the mode and the route. */
  function ServiceTail(leg: Leg): string
  {
    " " + ServiceName(leg) + " " + ModeName(leg.mode) + " " + JavaStr(leg.route)
  }

  /** The stop line of a transit direction; "get on" adds the number of stops in between. */
  function TransitPlace(leg: Leg, isOn: bool, env: Env): string
    requires TransitLegSupported(leg)
  {
    StopLine(if isOn then leg.from else leg.to, env)
    + (if isOn then "\n" + NatToString(|StopsInBetween(leg)|) + " " + env.res(TransitStopsInBetween) else "")
  }

  /** "at stop-name (agency id)". */
  function StopLine(p: Place, env: Env): string
    requires p.stopId.Some?
  {
    env.res(TransitConnectorStopName) + " " + JavaStr(p.name)
    + (" (" + p.stopId.value.agencyId + " " + p.stopId.value.id + ")")
  }

  /**
   * The "get on" and "get off" service lines differ only in their leading
   * verb; both end with the mode and the route.
   */
  lemma TransitServiceShape(leg: Leg, isOn: bool, env: Env)
    ensures StartsWith(TransitService(leg, isOn, env), env.res(if isOn then TransitGetOn else TransitGetOff) + " ")
    ensures EndsWith(TransitService(leg, isOn, env), " " + ModeName(leg.mode) + " " + JavaStr(leg.route))
    ensures TransitService(leg, true, env)[|env.res(TransitGetOn)|..] == TransitService(leg, false, env)[|env.res(TransitGetOff)|..]
  {
    var verb := env.res(if isOn then TransitGetOn else TransitGetOff);
    ServiceTailShape(leg);
    VerbThenTail(verb, ServiceTail(leg), " " + ModeName(leg.mode) + " " + JavaStr(leg.route));
    Affixes(env.res(TransitGetOn), ServiceTail(leg));
    Affixes(env.res(TransitGetOff), ServiceTail(leg));
  }

  lemma ServiceTailShape(leg: Leg)
    ensures StartsWith(ServiceTail(leg), " ")
    ensures EndsWith(ServiceTail(leg), " " + ModeName(leg.mode) + " " + JavaStr(leg.route))
  {
    var lead := " " + ServiceName(leg);
    var end := " " + ModeName(leg.mode) + " " + JavaStr(leg.route);
    assert ServiceTail(leg) == lead + end;
    Affixes(lead, end);
  }

  lemma VerbThenTail(verb: string, tail: string, end: string)
    requires StartsWith(tail, " ") && EndsWith(tail, end)
    ensures StartsWith(verb + tail, verb + " ") && EndsWith(verb + tail, end)
  {
    assert (verb + tail)[..|verb| + 1] == verb + [tail[0]];
    assert (verb + tail)[|verb + tail| - |end|..] == tail[|tail| - |end|..];
  }

  /** A stop line begins with the connector, the stop's name and " (" and ends at the closing bracket. */
  lemma StopLineShape(p: Place, env: Env)
    requires p.stopId.Some?
    ensures StartsWith(StopLine(p, env), env.res(TransitConnectorStopName) + " " + JavaStr(p.name) + " (")
    ensures |StopLine(p, env)| > 0 && StopLine(p, env)[|StopLine(p, env)| - 1] == ')'
  {
    var head := env.res(TransitConnectorStopName) + " " + JavaStr(p.name);
    var rest := p.stopId.value.agencyId + " " + p.stopId.value.id + ")";
    assert StopLine(p, env) == (head + " (") + rest;
    Affixes(head + " (", rest);
  }

  /**
   * The "get on" line is the stop line of the first stop followed by the
   * number of stops in between and their label; the "get off" line is the stop
   * line of the last stop, with no such suffix.
   */
  lemma TransitPlaceShape(leg: Leg, env: Env)
    requires TransitLegSupported(leg)
    ensures var suffix := "\n" + NatToString(|StopsInBetween(leg)|) + " " + env.res(TransitStopsInBetween);
      TransitPlace(leg, true, env) == StopLine(leg.from, env) + suffix && EndsWith(TransitPlace(leg, true, env), suffix)
    ensures TransitPlace(leg, false, env) == StopLine(leg.to, env)
    ensures StartsWith(TransitPlace(leg, true, env), env.res(TransitConnectorStopName) + " " + JavaStr(leg.from.name) + " (")
    ensures StartsWith(TransitPlace(leg, false, env), env.res(TransitConnectorStopName) + " " + JavaStr(leg.to.name) + " (")
    ensures var off := TransitPlace(leg, false, env); |off| > 0 && off[|off| - 1] == ')'
  {
    var suffix := "\n" + NatToString(|StopsInBetween(leg)|) + " " + env.res(TransitStopsInBetween);
    StopLineShape(leg.from, env);
    StopLineShape(leg.to, env);
    Affixes(StopLine(leg.from, env), suffix);
    var head := env.res(TransitConnectorStopName) + " " + JavaStr(leg.from.name) + " (";
    assert (StopLine(leg.from, env) + suffix)[..|head|] == StopLine(leg.from, env)[..|head|];
    assert TransitPlace(leg, false, env) == StopLine(leg.to, env) + [];
  }

  /** The time the server expects: the start for "get on", the end for "get off". */
  function UpdatedMillis(leg: Leg, isOn: bool): int
  {
    if isOn then leg.startTime else leg.endTime
  }

  /** The scheduled time: the expected time moved back by the departure or arrival delay, in seconds. */
  function ScheduledMillis(leg: Leg, isOn: bool): (r: int)
    ensures r + 1000 * (if isOn then leg.departureDelay else leg.arrivalDelay) == UpdatedMillis(leg, isOn)
  {
    UpdatedMillis(leg, isOn) - 1000 * (if isOn then leg.departureDelay else leg.arrivalDelay)
  }

  // ---------------------------------------------------------------------------
  // Patching directions with a geocoded address

  /** Exact coordinate equality on the start or on the end of a direction. */
  predicate AtCoordinates(originLat: real, originLon: real, destLat: real, destLon: real, lat: real, lon: real)
  {
    (originLat == lat && originLon == lon) || (destLat == lat && destLon == lon)
  }

  /**
   * updateDirectionContents on the text: at the coordinates, with a text and
   * an address text, every occurrence of the generated name is replaced by the
   * address's first line; otherwise the text is kept.
   */
  function PatchedText(text: Option<string>, atCoordinates: bool, generated: string, address: Option<string>)
    : (r: Option<string>)
    ensures r.Some? <==> text.Some?
    ensures !atCoordinates || address.None? ==> r == text
    ensures text.Some? && address.Some? && FirstLine(address.value) == generated ==> r == text
    ensures text.Some? && |generated| > 0 && !Occurs(text.value, generated) ==> r == text
  {
    if atCoordinates && text.Some? && address.Some? then
      ReplaceAllAbsentOrSelf(text.value, generated, FirstLine(address.value));
      Some(ReplaceAll(text.value, generated, FirstLine(address.value)))
    else text
  }

  /**
   * At the coordinates, with an address, the first occurrence of the generated
   * name becomes the address's first line and the rest of the text is patched
   * in the same way.
   */
  lemma PatchedTextReplaces(a: string, generated: string, b: string, address: string)
    requires |generated| > 0 && !Occurs(a + generated[..|generated| - 1], generated)
    ensures PatchedText(Some(a + generated + b), true, generated, Some(address))
      == Some(a + FirstLine(address) + ReplaceAll(b, generated, FirstLine(address)))
  {
    ReplaceAllFirst(a, generated, b, FirstLine(address));
  }

  lemma ReplaceAllAbsentOrSelf(s: string, target: string, replacement: string)
    ensures replacement == target ==> ReplaceAll(s, target, replacement) == s
    ensures |target| > 0 && !Occurs(s, target) ==> ReplaceAll(s, target, replacement) == s
  {
    if replacement == target {
      ReplaceAllSelf(s, target);
    }
    if |target| > 0 && !Occurs(s, target) {
      ReplaceAllAbsent(s, target, replacement);
    }
  }
}
