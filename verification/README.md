# Step-by-step directions of OpenTripPlanner for Android, in Dafny

This project models the directions generator of the OpenTripPlanner Android
client and the `Direction` display record it builds. The generator takes the
legs of an itinerary returned by the trip-planning server and turns them into
the list the directions screen shows:

- one direction per walked, cycled or driven leg, with one sub-direction per walk step;
- a "get on" / "get off" pair per transit leg, with the stops in between listed under "get on";
- consecutive numbers 1, 2, … on the directions;
- a reverse-geocoding request for every generic street name ("path", "road", "osm:node…"), with a generated placeholder text shown meanwhile;
- when the geocoder answers, an in-place patch of the texts of the directions and sub-directions at the answered coordinates.

## Modules

| file | module | contents |
|---|---|---|
| `wrappers.dfy` | `Wrappers` | `Option`, standing for Java's nullable references |
| `otp.dfy` | `Otp` | the server's response model: modes, headings, places, walk steps, legs, addresses |
| `resources.dfy` | `Resources` | string and drawable resource ids; `Env`, the application context and library formatters |
| `java_text.dfy` | `JavaText` | the Java string behaviour the generator relies on |
| `direction.dfy` | `DirectionModel` | the class `Direction`: fields, three constructors, setters |
| `directions_text.dfy` | `DirectionsText` | the side-effect-free lookups and the texts of directions |
| `directions_generator.dfy` | `DirectionsGeneratorModel` | the class `DirectionsGenerator` and the specification of the list it builds |

`JavaText` covers these Java behaviours:

- null printing as `"null"` in concatenation;
- `Integer.parseInt`, including its `NumberFormatException` cases, with decimal digits of any script read through the platform's `Character.digit` table, which the caller supplies;
- `Integer.toString`;
- `String.replace`, including an empty target;
- `startsWith`;
- `split("\n")[0]`.

## What is proved

- **The whole list.** The generator's constructor and `ConvertToDirectionList` end with:
  - `directions[k].directionIndex == k + 1` for every k;
  - every entry holding, field by field and sub-direction by sub-direction, the contents that `PlanViews(legs, 0.0, env)` gives. That is one contents entry per on-street leg and two per transit leg ("get on", then "get off" of the same leg); `PlanShape` and `PlanViewsOfPlan` prove this layout;
  - no object occurring twice among the directions and their sub-directions;
  - `totalDistance` being the sum of the legs' distances;
  - the geocoding requests being exactly `LegRequests(legs, env)`, in leg order.
- **Texts and icons of a direction.**
  - `StepView` holds a walk step's sub-direction: heading or turn text, roundabout exit, connector, street name and distance, at the step's own point.
  - `StreetView` holds an on-street leg's main direction: action, from, to, stop id, the running total distance and the mode icon.
  - `TransitView` holds a transit direction: service, stop line with the number of stops in between, scheduled and updated times, icon, flags and the numbered stops.
  - The lemmas about the text functions prove what each part of these contents is:
    - the turn prefix only for LEFT and RIGHT;
    - the ordinal exactly for exits that parse as 1 to 10;
    - the "number" label followed by `"null"`, the printed null ordinal, for any other number: 0, negative or above 10;
    - the raw exit text when it does not parse as an int: empty text, a lone sign, a character that is not a decimal digit, or a value outside 32 bits;
    - the roundabout connector only with an exit;
    - stop numbers from 1 that parse back;
    - the "get on" stop line ending with the number of stops in between and its label, and the "get off" stop line ending at the stop id's closing bracket;
    - the "get on" and "get off" service lines differing only in their verb.
- **Lookup tables.**
  - The first-match order of `getModeIcon` and `getNotificationIcon` is stated as an if-and-only-if per icon.
  - Headings, ordinals and turn icons are injective.
  - Exactly the 18 generic street names have a localised replacement.
- **Street names.** `getLocalizedStreetName`:
  - prefers the place over the step;
  - returns null, and sends no request, when both are null;
  - issues exactly one request, carrying the coordinates and the text it returned, for a generic name;
  - returns any other name unchanged, with no request.
- **The geocoding patch.**
  - With a non-empty address list and outside marker mode, every direction and sub-direction is updated exactly as `PatchTargets` says. `PatchTargets` judges each object by its own coordinates against its text from before the patch.
  - An object that is not at the coordinates, or that has no text, keeps its text.
  - So does every object when the address has no text, when the address's first line equals the generated name, or when the generated name does not occur in the text.
  - A null or empty address list changes nothing, and so does marker mode.
  - Coordinates are matched with exact `==` on their values.
  - When the generated name first occurs after a prefix a, the patched text is a, then the address's first line, then the rest with every occurrence replaced.
- **The `Direction` record.** Each constructor's defaults are stated. Each setter modifies only its own field.

## Model

| member | source | states |
|---|---|---|
| JavaText.DigitChar | opentripplanner-android/src/main/java/edu/usf/cutr/opentripplanner/android/util/DirectionsGenerator.java:499 | the character printed for a decimal digit is a digit with that value |
| JavaText.NatToString | opentripplanner-android/src/main/java/edu/usf/cutr/opentripplanner/android/util/DirectionsGenerator.java:499 | Integer.toString of a non-negative int is a non-empty digit string without a leading zero, one character exactly below 10 |
| JavaText.ParseInt | opentripplanner-android/src/main/java/edu/usf/cutr/opentripplanner/android/util/DirectionsGenerator.java:239 | Integer.parseInt succeeds only on non-empty text of decimal digits, after an optional sign, with a value in the 32-bit range |
| JavaText.ParseIntAccepts | opentripplanner-android/src/main/java/edu/usf/cutr/opentripplanner/android/util/DirectionsGenerator.java:239 | unsigned text of decimal digits, in any script, parses to the number the digits denote when it fits in 32 bits |
| JavaText.ParseIntAcceptsSigned | opentripplanner-android/src/main/java/edu/usf/cutr/opentripplanner/android/util/DirectionsGenerator.java:239 | a '+' or '-' followed by decimal digits parses to the signed number when it fits in 32 bits |
| JavaText.ParseIntRejectsShort | opentripplanner-android/src/main/java/edu/usf/cutr/opentripplanner/android/util/DirectionsGenerator.java:248-251 | the empty text and a lone sign throw NumberFormatException |
| JavaText.ParseIntRejectsLarge | opentripplanner-android/src/main/java/edu/usf/cutr/opentripplanner/android/util/DirectionsGenerator.java:248-251 | digits whose value is above the 32-bit maximum throw NumberFormatException |
| JavaText.DigitsValueOfNatToString | opentripplanner-android/src/main/java/edu/usf/cutr/opentripplanner/android/util/DirectionsGenerator.java:499 | the digits Integer.toString prints denote the number printed, under any digit table that reads '0'..'9' as 0..9 |
| JavaText.ParseIntOfNatToString | opentripplanner-android/src/main/java/edu/usf/cutr/opentripplanner/android/util/DirectionsGenerator.java:239 | parsing the decimal text of an int gives that int back, under any digit table that reads '0'..'9' as 0..9 |
| JavaText.ParseIntRejectsNonDigit | opentripplanner-android/src/main/java/edu/usf/cutr/opentripplanner/android/util/DirectionsGenerator.java:248-251 | text with a character that the digit table does not read as a decimal digit, after the optional sign, makes parseInt throw NumberFormatException |
| JavaText.InsertAroundEmpty | opentripplanner-android/src/main/java/edu/usf/cutr/opentripplanner/android/util/DirectionsGenerator.java:708-710 | replace with an empty target and an empty replacement leaves the text as it was |
| JavaText.ReplaceAllSelf | opentripplanner-android/src/main/java/edu/usf/cutr/opentripplanner/android/util/DirectionsGenerator.java:708-710 | replacing a string by itself changes nothing |
| JavaText.ReplaceAllAbsent | opentripplanner-android/src/main/java/edu/usf/cutr/opentripplanner/android/util/DirectionsGenerator.java:708-710 | text in which the target does not occur comes back unchanged |
| JavaText.ReplaceAllWhole | opentripplanner-android/src/main/java/edu/usf/cutr/opentripplanner/android/util/DirectionsGenerator.java:708-710 | text that is exactly the target becomes exactly the replacement |
| JavaText.ReplaceAllFirst | opentripplanner-android/src/main/java/edu/usf/cutr/opentripplanner/android/util/DirectionsGenerator.java:708-710 | when the target first occurs after a prefix a, replace keeps a, puts the replacement in the target's place and replaces every occurrence in the rest |
| JavaText.FirstLine | opentripplanner-android/src/main/java/edu/usf/cutr/opentripplanner/android/util/DirectionsGenerator.java:707 | split("\n")[0] is the longest prefix without a line break, ending at the first line break if there is one |
| DirectionModel.Direction.constructor | opentripplanner-android/src/main/java/edu/usf/cutr/opentripplanner/android/model/Direction.java:26-60 | the default constructor leaves every field at its default: no text, times or sub-directions, flags false, index and icon 0 |
| DirectionModel.Direction.Full | opentripplanner-android/src/main/java/edu/usf/cutr/opentripplanner/android/model/Direction.java:62-76 | every argument is stored in its own field; text and sub-directions stay null, realtime false |
| DirectionModel.Direction.WithText | opentripplanner-android/src/main/java/edu/usf/cutr/opentripplanner/android/model/Direction.java:78-82 | only the icon and the text are set; every other field keeps its default |
| DirectionModel.Direction.SetIcon | opentripplanner-android/src/main/java/edu/usf/cutr/opentripplanner/android/model/Direction.java:94-96 | the icon becomes the argument; nothing else is modified |
| DirectionModel.Direction.SetService | opentripplanner-android/src/main/java/edu/usf/cutr/opentripplanner/android/model/Direction.java:102-104 | the service becomes the argument; nothing else is modified |
| DirectionModel.Direction.SetSubDirections | opentripplanner-android/src/main/java/edu/usf/cutr/opentripplanner/android/model/Direction.java:116-118 | the sub-directions become the argument; nothing else is modified |
| DirectionModel.Direction.SetDirectionIndex | opentripplanner-android/src/main/java/edu/usf/cutr/opentripplanner/android/model/Direction.java:124-126 | the index becomes the argument; nothing else is modified |
| DirectionModel.Direction.SetOldTime | opentripplanner-android/src/main/java/edu/usf/cutr/opentripplanner/android/model/Direction.java:132-134 | the scheduled time becomes the argument; nothing else is modified |
| DirectionModel.Direction.SetNewTime | opentripplanner-android/src/main/java/edu/usf/cutr/opentripplanner/android/model/Direction.java:140-142 | the updated time becomes the argument; nothing else is modified |
| DirectionModel.Direction.SetPlace | opentripplanner-android/src/main/java/edu/usf/cutr/opentripplanner/android/model/Direction.java:148-150 | the place becomes the argument; nothing else is modified |
| DirectionModel.Direction.SetTransit | opentripplanner-android/src/main/java/edu/usf/cutr/opentripplanner/android/model/Direction.java:156-158 | the transit flag becomes the argument; nothing else is modified |
| DirectionModel.Direction.SetRealTimeInfo | opentripplanner-android/src/main/java/edu/usf/cutr/opentripplanner/android/model/Direction.java:165-167 | the realtime flag becomes the argument; nothing else is modified |
| DirectionModel.Direction.SetDirectionText | opentripplanner-android/src/main/java/edu/usf/cutr/opentripplanner/android/model/Direction.java:173-175 | the text becomes the argument; nothing else is modified |
| DirectionModel.Direction.SetOriginLatitude | opentripplanner-android/src/main/java/edu/usf/cutr/opentripplanner/android/model/Direction.java:181-183 | the origin latitude becomes the argument; nothing else is modified |
| DirectionModel.Direction.SetOriginLongitude | opentripplanner-android/src/main/java/edu/usf/cutr/opentripplanner/android/model/Direction.java:189-191 | the origin longitude becomes the argument; nothing else is modified |
| DirectionModel.Direction.SetDestinationLatitude | opentripplanner-android/src/main/java/edu/usf/cutr/opentripplanner/android/model/Direction.java:197-199 | the destination latitude becomes the argument; nothing else is modified |
| DirectionModel.Direction.SetDestinationLongitude | opentripplanner-android/src/main/java/edu/usf/cutr/opentripplanner/android/model/Direction.java:205-207 | the destination longitude becomes the argument; nothing else is modified |
| DirectionsText.OrdinalKey | opentripplanner-android/src/main/java/edu/usf/cutr/opentripplanner/android/util/DirectionsGenerator.java:284-310 | an ordinal resource exists exactly for exits 1 to 10 |
| DirectionsText.GetOrdinal | opentripplanner-android/src/main/java/edu/usf/cutr/opentripplanner/android/util/DirectionsGenerator.java:284-310 | getOrdinal is non-null exactly for 1 to 10, and is then that number's localised ordinal |
| DirectionsText.OrdinalKeyInjective | opentripplanner-android/src/main/java/edu/usf/cutr/opentripplanner/android/util/DirectionsGenerator.java:284-310 | different exit numbers use different ordinal resources |
| DirectionsText.LocalizedRelativeDir | opentripplanner-android/src/main/java/edu/usf/cutr/opentripplanner/android/util/DirectionsGenerator.java:382-413 | null exactly for a null turn, otherwise the turn's own string resource |
| DirectionsText.RelativeDirKeyInjective | opentripplanner-android/src/main/java/edu/usf/cutr/opentripplanner/android/util/DirectionsGenerator.java:382-413 | no two turns share a string resource |
| DirectionsText.LocalizedAbsoluteDir | opentripplanner-android/src/main/java/edu/usf/cutr/opentripplanner/android/util/DirectionsGenerator.java:415-436 | null exactly for a null compass heading, otherwise that heading's own string resource |
| DirectionsText.AbsoluteDirKeyInjective | opentripplanner-android/src/main/java/edu/usf/cutr/opentripplanner/android/util/DirectionsGenerator.java:415-436 | no two compass headings share a string resource |
| DirectionsText.ModeIcon | opentripplanner-android/src/main/java/edu/usf/cutr/opentripplanner/android/util/DirectionsGenerator.java:549-573 | for each icon, the exact flag sets that get it under first-match priority: BUSISH and TRAINISH before either alone, FERRY or GONDOLA for ferry, SUBWAY for metro, TRAM for train, then WALK and BICYCLE, else the application icon |
| DirectionsText.ModeIconUnlisted | opentripplanner-android/src/main/java/edu/usf/cutr/opentripplanner/android/util/DirectionsGenerator.java:549-573 | flag sets made only of unlisted modes such as CAR fall through to the application icon |
| DirectionsText.NotificationIcon | opentripplanner-android/src/main/java/edu/usf/cutr/opentripplanner/android/util/DirectionsGenerator.java:575-591 | for each notification icon, the exact flag sets that get it; only transit, bus, train, ferry and subway have one, everything else gets the application icon |
| DirectionsText.RelativeDirectionIcon | opentripplanner-android/src/main/java/edu/usf/cutr/opentripplanner/android/util/DirectionsGenerator.java:593-623 | the blank icon exactly for DEPART |
| DirectionsText.RelativeDirectionIconInjective | opentripplanner-android/src/main/java/edu/usf/cutr/opentripplanner/android/util/DirectionsGenerator.java:593-623 | different turns get different icons |
| DirectionsText.StreetTypeKeyExactlyGeneric | opentripplanner-android/src/main/java/edu/usf/cutr/opentripplanner/android/util/DirectionsGenerator.java:332-367 | a localised replacement exists exactly for the 18 generic street names |
| DirectionsText.LocalizedStreetName | opentripplanner-android/src/main/java/edu/usf/cutr/opentripplanner/android/util/DirectionsGenerator.java:330-374 | a generic name becomes its localised street type, an "osm:node" name becomes the formatted coordinates, and any other name is returned unchanged |
| DirectionsText.LocalizedNameContract | opentripplanner-android/src/main/java/edu/usf/cutr/opentripplanner/android/util/DirectionsGenerator.java:313-380 | the place wins over the step; both null give null and no request; at most one request, exactly when the name is generic, and it carries the returned text and the name's coordinates; any other name is returned unchanged with no request |
| DirectionsText.TurnPrefix | opentripplanner-android/src/main/java/edu/usf/cutr/opentripplanner/android/util/DirectionsGenerator.java:226-231 | the "Turn" prefix is present exactly for LEFT and RIGHT |
| DirectionsText.ExitPhraseNumbered | opentripplanner-android/src/main/java/edu/usf/cutr/opentripplanner/android/util/DirectionsGenerator.java:239-247 | any exit that parses as n reads as n's ordinal followed by "exit" when 1 <= n <= 10, and otherwise as the number label, then "null", then "exit" |
| DirectionsText.ExitPhraseUnparsed | opentripplanner-android/src/main/java/edu/usf/cutr/opentripplanner/android/util/DirectionsGenerator.java:248-251 | any exit that does not parse as an int is shown as given, followed by "exit" |
| DirectionsText.ExitPhraseOrdinal | opentripplanner-android/src/main/java/edu/usf/cutr/opentripplanner/android/util/DirectionsGenerator.java:237-253 | the decimal text of an exit from 1 to 10 reads as its ordinal followed by "exit" |
| DirectionsText.ExitPhraseOutOfRange | opentripplanner-android/src/main/java/edu/usf/cutr/opentripplanner/android/util/DirectionsGenerator.java:243-247 | the decimal text of exit 0 or of an exit above 10 reads as the number label, then "null", then "exit" |
| DirectionsText.ExitPhraseNegative | opentripplanner-android/src/main/java/edu/usf/cutr/opentripplanner/android/util/DirectionsGenerator.java:243-247 | a negative exit written with a minus sign reads as the number label, then "null", then "exit" |
| DirectionsText.ExitPhraseRaw | opentripplanner-android/src/main/java/edu/usf/cutr/opentripplanner/android/util/DirectionsGenerator.java:248-251 | an exit with a character that is not a decimal digit, after the optional sign, is shown as given, followed by "exit" |
| DirectionsText.ConnectorKey | opentripplanner-android/src/main/java/edu/usf/cutr/opentripplanner/android/util/DirectionsGenerator.java:209-257 | the roundabout connector exactly for a roundabout turn with a non-null exit, the plain connector otherwise |
| DirectionsText.StepIcon | opentripplanner-android/src/main/java/edu/usf/cutr/opentripplanner/android/util/DirectionsGenerator.java:192-224 | a step without a turn keeps the blank icon |
| DirectionsText.StepTextShape | opentripplanner-android/src/main/java/edu/usf/cutr/opentripplanner/android/util/DirectionsGenerator.java:214-233 | without a turn the step text starts with action and "heading", blank icon; with a turn it starts with the prefix and the localised turn, with the turn's icon, and starts with "Turn" for LEFT and RIGHT |
| DirectionsText.StepRequestsExtend | opentripplanner-android/src/main/java/edu/usf/cutr/opentripplanner/android/util/DirectionsGenerator.java:191-277 | the step loop's requests after step i are those of the steps before it followed by step i's |
| DirectionsText.StepRequestsCount | opentripplanner-android/src/main/java/edu/usf/cutr/opentripplanner/android/util/DirectionsGenerator.java:260-261 | at most one request per step, and none when no step has a generic name |
| DirectionsText.StopTextNumbered | opentripplanner-android/src/main/java/edu/usf/cutr/opentripplanner/android/util/DirectionsGenerator.java:499-501 | the text of stop i starts with the number i + 1, which parses back, followed by ". " |
| DirectionsText.ScheduledMillis | opentripplanner-android/src/main/java/edu/usf/cutr/opentripplanner/android/util/DirectionsGenerator.java:480-482 | the scheduled time plus the delay in seconds is the expected time, for the departure of "get on" and the arrival of "get off" |
| DirectionsText.StopLineShape | opentripplanner-android/src/main/java/edu/usf/cutr/opentripplanner/android/util/DirectionsGenerator.java:525-527 | a stop line starts with the connector, the stop's name and " (" and ends with the closing bracket of the stop id |
| DirectionsText.TransitPlaceShape | opentripplanner-android/src/main/java/edu/usf/cutr/opentripplanner/android/util/DirectionsGenerator.java:510-528 | the "get on" place is the first stop's line followed by "\n", the number of stops in between and their label; the "get off" place is the last stop's line with no suffix, ending at its bracket |
| DirectionsText.TransitServiceShape | opentripplanner-android/src/main/java/edu/usf/cutr/opentripplanner/android/util/DirectionsGenerator.java:529 | the service line starts with the "get on" or "get off" verb and a space, ends with the mode and the route, and the two lines agree after the verb |
| DirectionsText.PatchedText | opentripplanner-android/src/main/java/edu/usf/cutr/opentripplanner/android/util/DirectionsGenerator.java:700-711 | a null text stays null; not at the coordinates or without an address text the text is kept; an address whose first line is the generated name, or a text without the generated name, also keeps it |
| DirectionsText.ReplaceAllAbsentOrSelf | opentripplanner-android/src/main/java/edu/usf/cutr/opentripplanner/android/util/DirectionsGenerator.java:708-710 | replace is the identity when the replacement equals the target or when the target does not occur |
| DirectionsText.PatchedTextReplaces | opentripplanner-android/src/main/java/edu/usf/cutr/opentripplanner/android/util/DirectionsGenerator.java:706-711 | at the coordinates with an address, the generated name's first occurrence, after a prefix a, becomes the address's first line and the rest is patched the same way |
| DirectionsGeneratorModel.PlanShape | opentripplanner-android/src/main/java/edu/usf/cutr/opentripplanner/android/util/DirectionsGenerator.java:105-141 | the list has one entry per on-street leg and two per transit leg, and every "get on" is immediately followed by the "get off" of the same leg, and only there |
| DirectionsGeneratorModel.LegStep | opentripplanner-android/src/main/java/edu/usf/cutr/opentripplanner/android/util/DirectionsGenerator.java:107-109 | one more leg adds its distance to the total, its entries to the list and its requests to the requests |
| DirectionsGeneratorModel.StreetRequests | opentripplanner-android/src/main/java/edu/usf/cutr/opentripplanner/android/util/DirectionsGenerator.java:163-279 | an on-street leg asks for its place names first, then for its steps' street names |
| DirectionsGeneratorModel.TransitLegsRequestNothing | opentripplanner-android/src/main/java/edu/usf/cutr/opentripplanner/android/util/DirectionsGenerator.java:447-547 | transit legs cause no geocoding request |
| DirectionsGeneratorModel.LegViewsOfProduce | opentripplanner-android/src/main/java/edu/usf/cutr/opentripplanner/android/util/DirectionsGenerator.java:112-136 | the contents one leg contributes are those of the entries it produces: one on-street direction, or "get on" then "get off" |
| DirectionsGeneratorModel.PlanViewsOfPlan | opentripplanner-android/src/main/java/edu/usf/cutr/opentripplanner/android/util/DirectionsGenerator.java:105-141 | entry k of the list's contents is the contents of entry k of the plan of legs |
| DirectionsGeneratorModel.PlanViewsStep | opentripplanner-android/src/main/java/edu/usf/cutr/opentripplanner/android/util/DirectionsGenerator.java:107-137 | the contents after leg i are those before it followed by leg i's, at the running distance |
| DirectionsGeneratorModel.Texts | opentripplanner-android/src/main/java/edu/usf/cutr/opentripplanner/android/util/DirectionsGenerator.java:683-692 | the texts of the listed objects, one per object, in order |
| DirectionsGeneratorModel.PatchTargetAt | opentripplanner-android/src/main/java/edu/usf/cutr/opentripplanner/android/util/DirectionsGenerator.java:683-692 | the target text of the k-th visited object is its earlier text patched by its own coordinates |
| DirectionsGeneratorModel.FlatCovers | opentripplanner-android/src/main/java/edu/usf/cutr/opentripplanner/android/util/DirectionsGenerator.java:683-692 | the patch visits every direction and every sub-direction of one |
| DirectionsGeneratorModel.FlatBlocks | opentripplanner-android/src/main/java/edu/usf/cutr/opentripplanner/android/util/DirectionsGenerator.java:683-692 | the patch visits each direction followed by its sub-directions, direction after direction |
| DirectionsGeneratorModel.DirectionsGenerator.ForMarkers | opentripplanner-android/src/main/java/edu/usf/cutr/opentripplanner/android/util/DirectionsGenerator.java:71-74 | the marker generator has no legs, no directions, no requests and is in marker mode |
| DirectionsGeneratorModel.DirectionsGenerator.constructor | opentripplanner-android/src/main/java/edu/usf/cutr/opentripplanner/android/util/DirectionsGenerator.java:76-81 | after construction from legs the list is numbered 1..n, holds the contents of the legs' plan, has no repeated object, and the total distance and the requests are those of the legs |
| DirectionsGeneratorModel.DirectionsGenerator.AddDirection | opentripplanner-android/src/main/java/edu/usf/cutr/opentripplanner/android/util/DirectionsGenerator.java:97-103 | the direction is appended at the end of the list; a direction made of new objects keeps the list free of repeated objects, its objects visited after the earlier ones |
| DirectionsGeneratorModel.DirectionsGenerator.ConvertToDirectionList | opentripplanner-android/src/main/java/edu/usf/cutr/opentripplanner/android/util/DirectionsGenerator.java:105-141 | indices are exactly 1..n in list order, entry by entry the contents of the legs' plan, no repeated object, total distance the sum of the legs', requests in leg order |
| DirectionsGeneratorModel.DirectionsGenerator.ConvertLegAt | opentripplanner-android/src/main/java/edu/usf/cutr/opentripplanner/android/util/DirectionsGenerator.java:107-140 | what holds of the legs before i after the loop's body holds of the legs up to i |
| DirectionsGeneratorModel.DirectionsGenerator.ConvertLeg | opentripplanner-android/src/main/java/edu/usf/cutr/opentripplanner/android/util/DirectionsGenerator.java:108-137 | the total distance grows by the leg's, and the leg's direction(s) are numbered next and appended with the leg's requests |
| DirectionsGeneratorModel.DirectionsGenerator.ConvertStreetLeg | opentripplanner-android/src/main/java/edu/usf/cutr/opentripplanner/android/util/DirectionsGenerator.java:112-118 | the on-street direction is numbered next and appended, holding the leg's contents at the running distance |
| DirectionsGeneratorModel.DirectionsGenerator.ConvertTransitLeg | opentripplanner-android/src/main/java/edu/usf/cutr/opentripplanner/android/util/DirectionsGenerator.java:119-136 | "get on" and then "get off" are numbered next and next + 1 and appended |
| DirectionsGeneratorModel.DirectionsGenerator.AddPair | opentripplanner-android/src/main/java/edu/usf/cutr/opentripplanner/android/util/DirectionsGenerator.java:125-136 | the two directions are numbered index + 1 and index + 2, appended in that order, without repeating any object |
| DirectionsGeneratorModel.DirectionsGenerator.AddNumbered | opentripplanner-android/src/main/java/edu/usf/cutr/opentripplanner/android/util/DirectionsGenerator.java:117-118 | setDirectionIndex then addDirection: the direction is appended with its number and its contents unchanged |
| DirectionsGeneratorModel.DirectionsGenerator.Append | opentripplanner-android/src/main/java/edu/usf/cutr/opentripplanner/android/util/DirectionsGenerator.java:118 | appending a numbered direction of new objects keeps the list numbered, its contents and free of repeated objects |
| DirectionsGeneratorModel.DirectionsGenerator.Number | opentripplanner-android/src/main/java/edu/usf/cutr/opentripplanner/android/util/DirectionsGenerator.java:117 | setDirectionIndex sets the number and leaves the direction's contents as they were |
| DirectionsGeneratorModel.DirectionsGenerator.ListShowsExtend | opentripplanner-android/src/main/java/edu/usf/cutr/opentripplanner/android/util/DirectionsGenerator.java:117-118 | a direction numbered next that holds the next contents extends a numbered list |
| DirectionsGeneratorModel.DirectionsGenerator.AppendFresh | opentripplanner-android/src/main/java/edu/usf/cutr/opentripplanner/android/util/DirectionsGenerator.java:118 | appending a direction made of new objects keeps the visited objects free of repeats |
| DirectionsGeneratorModel.DirectionsGenerator.GenerateNonTransitDirections | opentripplanner-android/src/main/java/edu/usf/cutr/opentripplanner/android/util/DirectionsGenerator.java:143-282 | a new direction with the leg's mode icon, main text, start and end points, one sub-direction per walk step in step order (null without a step list), and the leg's requests |
| DirectionsGeneratorModel.DirectionsGenerator.StreetParts | opentripplanner-android/src/main/java/edu/usf/cutr/opentripplanner/android/util/DirectionsGenerator.java:163-279 | the main text, then sub-directions exactly when the leg has a step list, holding the steps' contents one for one, with the requests of both in that order |
| DirectionsGeneratorModel.DirectionsGenerator.MainDirectionText | opentripplanner-android/src/main/java/edu/usf/cutr/opentripplanner/android/util/DirectionsGenerator.java:163-175 | action, from and to names when present, the end stop id when present, then the running total distance; start name requested before end name |
| DirectionsGeneratorModel.DirectionsGenerator.GenerateStepDirections | opentripplanner-android/src/main/java/edu/usf/cutr/opentripplanner/android/util/DirectionsGenerator.java:189-279 | one new distinct sub-direction per walk step, in step order, each holding its step's contents, with the steps' requests in step order |
| DirectionsGeneratorModel.DirectionsGenerator.AppendStepDirection | opentripplanner-android/src/main/java/edu/usf/cutr/opentripplanner/android/util/DirectionsGenerator.java:191-277 | one turn of the step loop appends a new sub-direction holding the next step's contents and issues that step's request |
| DirectionsGeneratorModel.DirectionsGenerator.LeavesExtend | opentripplanner-android/src/main/java/edu/usf/cutr/opentripplanner/android/util/DirectionsGenerator.java:276 | appending a new sub-direction holding the next contents keeps the one-for-one correspondence and distinctness |
| DirectionsGeneratorModel.DirectionsGenerator.GenerateStepDirection | opentripplanner-android/src/main/java/edu/usf/cutr/opentripplanner/android/util/DirectionsGenerator.java:191-277 | a new sub-direction with the step's text and icon, origin and destination both the step's point, nothing else set |
| DirectionsGeneratorModel.DirectionsGenerator.NewDirection | opentripplanner-android/src/main/java/edu/usf/cutr/opentripplanner/android/util/DirectionsGenerator.java:266-273 | a new direction with the given icon, text and points, sub-directions only when given, every other field at its default |
| DirectionsGeneratorModel.DirectionsGenerator.StepDirectionText | opentripplanner-android/src/main/java/edu/usf/cutr/opentripplanner/android/util/DirectionsGenerator.java:194-264 | the step's text and icon, with the step's street-name request |
| DirectionsGeneratorModel.DirectionsGenerator.GetLocalizedStreetName | opentripplanner-android/src/main/java/edu/usf/cutr/opentripplanner/android/util/DirectionsGenerator.java:313-380 | returns the localised name of the place or step and appends exactly the requests LocalizedNameContract describes |
| DirectionsGeneratorModel.DirectionsGenerator.GenerateTransitDirections | opentripplanner-android/src/main/java/edu/usf/cutr/opentripplanner/android/util/DirectionsGenerator.java:438-445 | two distinct new directions, "get on" then "get off" of the leg, sharing no object |
| DirectionsGeneratorModel.DirectionsGenerator.GenerateTransitSubdirection | opentripplanner-android/src/main/java/edu/usf/cutr/opentripplanner/android/util/DirectionsGenerator.java:447-547 | a new transit direction: realtime copied; mode icon and numbered stops for "get on", icon -1 and no sub-directions for "get off"; scheduled time the expected time minus the delay; updated time only when realtime |
| DirectionsGeneratorModel.DirectionsGenerator.NewTransitDirection | opentripplanner-android/src/main/java/edu/usf/cutr/opentripplanner/android/util/DirectionsGenerator.java:448-544 | a new direction marked transit with the given flags, icon, texts, times and sub-directions, no text and zero coordinates |
| DirectionsGeneratorModel.DirectionsGenerator.SetTransitFields | opentripplanner-android/src/main/java/edu/usf/cutr/opentripplanner/android/util/DirectionsGenerator.java:525-544 | icon, place, service and scheduled time set; updated time set only when there is one |
| DirectionsGeneratorModel.DirectionsGenerator.NewStopDirection | opentripplanner-android/src/main/java/edu/usf/cutr/opentripplanner/android/util/DirectionsGenerator.java:495-504 | a new direction with only the text and the icon set |
| DirectionsGeneratorModel.DirectionsGenerator.StopsInBetweenDirections | opentripplanner-android/src/main/java/edu/usf/cutr/opentripplanner/android/util/DirectionsGenerator.java:485-508 | one distinct new numbered sub-direction per intermediate stop, or per leg.stop when the intermediate stops are null or empty |
| DirectionsGeneratorModel.DirectionsGenerator.GenerateStopDirections | opentripplanner-android/src/main/java/edu/usf/cutr/opentripplanner/android/util/DirectionsGenerator.java:493-507 | one distinct new sub-direction per stop, in stop order, numbered from 1 |
| DirectionsGeneratorModel.DirectionsGenerator.AppendStopDirection | opentripplanner-android/src/main/java/edu/usf/cutr/opentripplanner/android/util/DirectionsGenerator.java:494-507 | one turn of the stop loop appends a new sub-direction for the next stop and keeps the earlier ones |
| DirectionsGeneratorModel.DirectionsGenerator.OnOTPGeocodingForOtpGeneratedNameComplete | opentripplanner-android/src/main/java/edu/usf/cutr/opentripplanner/android/util/DirectionsGenerator.java:662-695 | a null or empty address list, or marker mode, changes no text; otherwise every direction and sub-direction gets its patched text |
| DirectionsGeneratorModel.DirectionsGenerator.PatchAll | opentripplanner-android/src/main/java/edu/usf/cutr/opentripplanner/android/util/DirectionsGenerator.java:682-693 | every visited object ends with the text its own coordinates and earlier text call for |
| DirectionsGeneratorModel.DirectionsGenerator.PatchList | opentripplanner-android/src/main/java/edu/usf/cutr/opentripplanner/android/util/DirectionsGenerator.java:683-692 | the loop over the directions patches every visited object once, in visit order |
| DirectionsGeneratorModel.DirectionsGenerator.PatchDirection | opentripplanner-android/src/main/java/edu/usf/cutr/opentripplanner/android/util/DirectionsGenerator.java:684-691 | one direction and then each of its sub-directions are patched |
| DirectionsGeneratorModel.DirectionsGenerator.PatchSubDirections | opentripplanner-android/src/main/java/edu/usf/cutr/opentripplanner/android/util/DirectionsGenerator.java:686-691 | each sub-direction is patched, in order |
| DirectionsGeneratorModel.DirectionsGenerator.PatchEntry | opentripplanner-android/src/main/java/edu/usf/cutr/opentripplanner/android/util/DirectionsGenerator.java:684-689 | one visit patches the k-th object and no other |
| DirectionsGeneratorModel.DirectionsGenerator.UpdateDirectionContents | opentripplanner-android/src/main/java/edu/usf/cutr/opentripplanner/android/util/DirectionsGenerator.java:697-732 | the text becomes the patched text: the generated name replaced by the address's first line when the direction starts or ends at the coordinates and both texts are non-null |

## Left out

- Android resources: the string table is a function from resource ids to strings, supplied by the caller. `R.string` and `R.drawable` ids are ints with arbitrary distinct values. So no property depends on what a string says.
- Formatting is supplied by the caller:
  - `ConversionUtils` distance and time formatting;
  - the four-digit `DecimalFormat` coordinates;
  - time zones.
- `Character.digit`, the platform's Unicode table of decimal digits that `Integer.parseInt` reads, is the `digit` field of `Env`, supplied by the caller. Lemmas that print numbers require only that it reads '0'..'9' as 0..9.
- `Calendar` arithmetic is modelled as milliseconds minus 1000 times the delay in seconds. `Long.parseLong` of the times is not modelled: times are ints. 64-bit overflow is not modelled.
- `new TraverseModeSet(mode)` is a caller-supplied function from a mode to its set of flags, because its behaviour lives in the server library. `TraverseMode.valueOf` on the mode text is not modelled: modes are already enum values.
- Doubles are exact reals, and coordinates are compared with exact equality as in the source.
- DirectionsGeneratorModel.DirectionsGenerator.ConvertToDirectionList: the running total distance is an exact sum, with no double rounding; indices are unbounded, so 32-bit wrap-around of `index` is not modelled.
- DirectionsGeneratorModel.DirectionsGenerator.ConvertToDirectionList: its contract does not state that sub-directions keep index 0, because the contents it compares leave out the index of sub-directions.
- The reverse geocoder (`OTPGeocoding`, an asynchronous task) is not modelled. Each launch is recorded as a request in `requests`, and its answer is delivered by calling the completion handler.
- The renaming of the server's walk step and place objects after a patch (DirectionsGenerator.java:716-727) is not modelled. That loop also dereferences `leg.getSteps()` without a null check.
- DirectionsGeneratorModel.DirectionsGenerator.OnOTPGeocodingForOtpGeneratedNameComplete: when some leg has no step list, the source throws a NullPointerException in that renaming loop right after it sets the first patched text (of a direction or sub-direction at the coordinates, with a text, when the address has a text), so later targets keep their texts; the model patches every target.
- The list adapter's refresh (DirectionsGenerator.java:712-714) is not modelled, nor is the adapter field of `Direction` (Direction.java:209-215), because both are UI.
- DirectionsGeneratorModel.DirectionsGenerator.OnOTPGeocodingForOtpGeneratedNameComplete: in marker mode the map markers' titles are patched (DirectionsGenerator.java:668-681). This is not modelled, because the markers are Google Maps objects, and `TripInfo`, the application's own holder, only carries their data; the contract states only that the directions stay unchanged.
- `onOTPGeocodingComplete` has an empty body and is not modelled.
- `getTotalTimeTraveled` is not modelled, because it only calls the duration formatter, which is not part of this model.
- The accessors `getDirections`, `setDirections`, `getTotalDistance`, `setTotalDistance` and the getters of `Direction` are not modelled as members. They read or write one field, and the model reads the fields directly.
- The branch of `addDirection` for a null list (DirectionsGenerator.java:98-100) is not modelled. Only `setDirections(null)` could reach it.
- The null checks in `convertToDirectionList` (DirectionsGenerator.java:114-116, 121-130) are not modelled, because the generators never return null.
- The unused locals `stayOn`, `bogusName` and `alerts` (DirectionsGenerator.java:205-212) are not modelled.
- Exceptions the source does not catch become preconditions:
  - `TransitLegSupported`: the stop ids of a transit leg's end points and stops in between are non-null.
  - `LegSupported` applies this to every leg.
  - A place handed to `getLocalizedStreetName` has a name; walk steps' street names are non-null strings.
  - `HasFirstLine`: `split("\n")[0]` of an address made only of line breaks would throw.
- Object creation order differs from the source. Sub-directions are created before their parent direction, and independent setters are called in a different order. The resulting objects are the same.
- Helper methods such as `ConvertLeg`, `StreetParts`, `AppendStepDirection` and `PatchEntry` are pieces of one Java method each. Each carries the contract of its piece.
