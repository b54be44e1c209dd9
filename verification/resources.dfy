/**
 * The application's resource tables and the platform services the generator
 * calls but that are not part of this model. Localised strings are looked up by
 * key through a function supplied by the caller, so no property below depends on
 * what the strings say.
 */
module Resources {
  import Otp
  import JavaText

  /**
   * A string resource id, an int as in the application's generated R.string
   * table. The ids below are the string resources the directions generator
   * reads; their values are arbitrary but distinct.
   */
  type StringKey = int

  // actions and connectors of on-street directions
  const WalkAction: StringKey := 1
  const BicycleAction: StringKey := 2
  const CarAction: StringKey := 3
  const NonTransitFrom: StringKey := 4
  const NonTransitTo: StringKey := 5
  const NonTransitHeading: StringKey := 6
  const NonTransitTurn: StringKey := 7
  const ConnectorStreetName: StringKey := 8
  const ConnectorStreetNameRoundabout: StringKey := 9
  const RoundaboutNumber: StringKey := 10
  const RoundaboutExit: StringKey := 11
  // roundabout exit ordinals
  const OrdinalFirst: StringKey := 12
  const OrdinalSecond: StringKey := 13
  const OrdinalThird: StringKey := 14
  const OrdinalFourth: StringKey := 15
  const OrdinalFifth: StringKey := 16
  const OrdinalSixth: StringKey := 17
  const OrdinalSeventh: StringKey := 18
  const OrdinalEighth: StringKey := 19
  const OrdinalNinth: StringKey := 20
  const OrdinalTenth: StringKey := 21
  // relative headings
  const RelCircleClockwise: StringKey := 22
  const RelCircleCounterclockwise: StringKey := 23
  const RelContinue: StringKey := 24
  const RelDepart: StringKey := 25
  const RelElevator: StringKey := 26
  const RelHardLeft: StringKey := 27
  const RelHardRight: StringKey := 28
  const RelLeft: StringKey := 29
  const RelRight: StringKey := 30
  const RelSlightlyLeft: StringKey := 31
  const RelSlightlyRight: StringKey := 32
  const RelUturnLeft: StringKey := 33
  const RelUturnRight: StringKey := 34
  // compass headings
  const AbsEast: StringKey := 35
  const AbsNorth: StringKey := 36
  const AbsNortheast: StringKey := 37
  const AbsNorthwest: StringKey := 38
  const AbsSouth: StringKey := 39
  const AbsSoutheast: StringKey := 40
  const AbsSouthwest: StringKey := 41
  const AbsWest: StringKey := 42
  // localised names of generic street types
  const StreetBikePath: StringKey := 43
  const StreetOpenArea: StringKey := 44
  const StreetPath: StringKey := 45
  const StreetBridleway: StringKey := 46
  const StreetFootpath: StringKey := 47
  const StreetPlatform: StringKey := 48
  const StreetFootbridge: StringKey := 49
  const StreetUnderpass: StringKey := 50
  const StreetRoad: StringKey := 51
  const StreetRamp: StringKey := 52
  const StreetLink: StringKey := 53
  const StreetServiceRoad: StringKey := 54
  const StreetAlley: StringKey := 55
  const StreetParkingAisle: StringKey := 56
  const StreetByway: StringKey := 57
  const StreetTrack: StringKey := 58
  const StreetSidewalk: StringKey := 59
  const StreetSteps: StringKey := 60
  // transit directions
  const TransitGetOn: StringKey := 61
  const TransitGetOff: StringKey := 62
  const TransitStopsInBetween: StringKey := 63
  const TransitConnectorStopName: StringKey := 64

  /**
   * A drawable resource id, an int as in the application's generated
   * R.drawable table. The ids below are the drawables the generator chooses
   * between; their values are arbitrary but distinct.
   */
  type Drawable = int

  // mode icons, and the application icon used as the fallback
  const ModeTransit: Drawable := 101
  const ModeBus: Drawable := 102
  const ModeTrain: Drawable := 103
  const ModeFerry: Drawable := 104
  const ModeMetro: Drawable := 105
  const ModeWalk: Drawable := 106
  const ModeBike: Drawable := 107
  const AppIcon: Drawable := 108
  // notification icons
  const TransitNotification: Drawable := 109
  const BusNotification: Drawable := 110
  const TrainNotification: Drawable := 111
  const FerryNotification: Drawable := 112
  const MetroNotification: Drawable := 113
  // turn icons
  const CircleClockwise: Drawable := 114
  const CircleCounterclockwise: Drawable := 115
  const ReldirContinue: Drawable := 116
  const Clear: Drawable := 117
  const Elevator: Drawable := 118
  const HardLeft: Drawable := 119
  const HardRight: Drawable := 120
  const Left: Drawable := 121
  const Right: Drawable := 122
  const SlightlyLeft: Drawable := 123
  const SlightlyRight: Drawable := 124
  const UturnLeft: Drawable := 125
  const UturnRight: Drawable := 126

  /**
   * What the generator gets from its application context and from libraries:
   * the string table, the mode-flag set that the server library builds for a
   * single mode, the distance, coordinate and time formatters, and the
   * platform's decimal-digit table that Integer.parseInt reads.
   * timeWithContext takes a time-zone offset and a time in milliseconds;
   * timeUpdated takes the offset, the scheduled and the updated time.
   */
  datatype Env = Env(
    res: StringKey -> string,
    modeFlags: TraverseModeFlags,
    formatDistance: real -> string,
    formatCoordinate: real -> string,
    timeWithContext: (int, int) -> string,
    timeUpdated: (int, int, int) -> string,
    digit: JavaText.DigitTable)

  type TraverseModeFlags = Otp.TraverseMode -> set<Otp.TraverseMode>
}
