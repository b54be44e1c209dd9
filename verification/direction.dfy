/**
 * The display record the directions generator builds and later patches: one
 * entry of the step-by-step list, with an icon, its text, where it starts and
 * ends, optional nested sub-directions, transit and realtime flags and the
 * scheduled and updated times as display strings. Getters are reads of the
 * fields; each setter overwrites one field and nothing else.
 */
module DirectionModel {
  import opened Wrappers
  import opened Resources

  /** An icon resource id: Unset is Java's default 0, NoIcon the -1 the generator uses for "no icon". */
  datatype Icon = Unset | NoIcon | Drawn(drawable: Drawable)

  class Direction {
    var icon: Icon
    var directionIndex: int
    var directionText: Option<string>
    var service: Option<string>
    var place: Option<string>
    var originLatitude: real
    var originLongitude: real
    var destinationLatitude: real
    var destinationLongitude: real
    var oldTime: Option<string>
    var newTime: Option<string>
    var isTransit: bool
    var subDirections: Option<seq<Direction>>
    var realTimeInfo: bool

    /** Every field at its Java default: no texts, no times, no sub-directions, flags false. */
    constructor ()
      ensures icon == Unset && directionIndex == 0
      ensures directionText == None && service == None && place == None
      ensures originLatitude == 0.0 && originLongitude == 0.0
      ensures destinationLatitude == 0.0 && destinationLongitude == 0.0
      ensures oldTime == None && newTime == None
      ensures !isTransit && subDirections == None && !realTimeInfo
    {
      icon, directionIndex := Unset, 0;
      directionText, service, place := None, None, None;
      originLatitude, originLongitude := 0.0, 0.0;
      destinationLatitude, destinationLongitude := 0.0, 0.0;
      oldTime, newTime := None, None;
      isTransit, subDirections, realTimeInfo := false, None, false;
    }

    /** The transit-stop form: every argument in its field; text and sub-directions stay null. */
    constructor Full(icon: Icon, service: Option<string>, place: Option<string>,
                     originLatitude: real, originLongitude: real,
                     destinationLatitude: real, destinationLongitude: real,
                     oldTime: Option<string>, newTime: Option<string>, isTransit: bool)
      ensures this.icon == icon && this.service == service && this.place == place
      ensures this.originLatitude == originLatitude && this.originLongitude == originLongitude
      ensures this.destinationLatitude == destinationLatitude
      ensures this.destinationLongitude == destinationLongitude
      ensures this.oldTime == oldTime && this.newTime == newTime && this.isTransit == isTransit
      ensures directionIndex == 0 && directionText == None && subDirections == None && !realTimeInfo
    {
      this.icon := icon;
      this.service, this.place := service, place;
      this.originLatitude, this.originLongitude := originLatitude, originLongitude;
      this.destinationLatitude, this.destinationLongitude := destinationLatitude, destinationLongitude;
      this.oldTime, this.newTime, this.isTransit := oldTime, newTime, isTransit;
      directionIndex, directionText, subDirections, realTimeInfo := 0, None, None, false;
    }

    /** Only the icon and the text are given; every other field keeps its default. */
    constructor WithText(icon: Icon, directionText: Option<string>)
      ensures this.icon == icon && this.directionText == directionText
      ensures directionIndex == 0 && service == None && place == None
      ensures originLatitude == 0.0 && originLongitude == 0.0
      ensures destinationLatitude == 0.0 && destinationLongitude == 0.0
      ensures oldTime == None && newTime == None
      ensures !isTransit && subDirections == None && !realTimeInfo
    {
      this.icon, this.directionText := icon, directionText;
      directionIndex, service, place := 0, None, None;
      originLatitude, originLongitude := 0.0, 0.0;
      destinationLatitude, destinationLongitude := 0.0, 0.0;
      oldTime, newTime := None, None;
      isTransit, subDirections, realTimeInfo := false, None, false;
    }

    method SetIcon(icon: Icon)
      modifies this`icon
      ensures this.icon == icon
    {
      this.icon := icon;
    }

    method SetService(service: Option<string>)
      modifies this`service
      ensures this.service == service
    {
      this.service := service;
    }

    method SetSubDirections(subDirections: Option<seq<Direction>>)
      modifies this`subDirections
      ensures this.subDirections == subDirections
    {
      this.subDirections := subDirections;
    }

    method SetDirectionIndex(directionIndex: int)
      modifies this`directionIndex
      ensures this.directionIndex == directionIndex
    {
      this.directionIndex := directionIndex;
    }

    method SetOldTime(oldTime: Option<string>)
      modifies this`oldTime
      ensures this.oldTime == oldTime
    {
      this.oldTime := oldTime;
    }

    method SetNewTime(newTime: Option<string>)
      modifies this`newTime
      ensures this.newTime == newTime
    {
      this.newTime := newTime;
    }

    method SetPlace(place: Option<string>)
      modifies this`place
      ensures this.place == place
    {
      this.place := place;
    }

    method SetTransit(isTransit: bool)
      modifies this`isTransit
      ensures this.isTransit == isTransit
    {
      this.isTransit := isTransit;
    }

    method SetRealTimeInfo(realTimeInfo: bool)
      modifies this`realTimeInfo
      ensures this.realTimeInfo == realTimeInfo
    {
      this.realTimeInfo := realTimeInfo;
    }

    method SetDirectionText(directionText: Option<string>)
      modifies this`directionText
      ensures this.directionText == directionText
    {
      this.directionText := directionText;
    }

    method SetOriginLatitude(originLatitude: real)
      modifies this`originLatitude
      ensures this.originLatitude == originLatitude
    {
      this.originLatitude := originLatitude;
    }

    method SetOriginLongitude(originLongitude: real)
      modifies this`originLongitude
      ensures this.originLongitude == originLongitude
    {
      this.originLongitude := originLongitude;
    }

    method SetDestinationLatitude(destinationLatitude: real)
      modifies this`destinationLatitude
      ensures this.destinationLatitude == destinationLatitude
    {
      this.destinationLatitude := destinationLatitude;
    }

    method SetDestinationLongitude(destinationLongitude: real)
      modifies this`destinationLongitude
      ensures this.destinationLongitude == destinationLongitude
    {
      this.destinationLongitude := destinationLongitude;
    }
  }
}
