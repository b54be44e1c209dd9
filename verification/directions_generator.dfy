/**
 * The directions generator: it walks the legs of an itinerary, builds one
 * direction per on-street leg (with a sub-direction per walk step) and a
 * "get on" / "get off" pair per transit leg, numbers them, records the
 * reverse-geocoding requests it issues for generic street names, and patches
 * the texts in place when a geocoded address arrives.
 */
module DirectionsGeneratorModel {
  import opened Wrappers
  import opened Otp
  import opened Resources
  import opened JavaText
  import opened DirectionModel
  import opened DirectionsText

  // ---------------------------------------------------------------------------
  // What the list of directions is made of

  /** The direction a leg contributes, with the distance travelled up to the end of that leg. */
  datatype Produced = OnStreet(leg: Leg, totalDistance: real) | GetOn(leg: Leg) | GetOff(leg: Leg)

  function Produce(leg: Leg, totalDistance: real): seq<Produced>
  {
    if IsOnStreetNonTransit(leg.mode) then [OnStreet(leg, totalDistance)] else [GetOn(leg), GetOff(leg)]
  }

  /** The sum of the legs' distances. */
  function TotalDistance(legs: seq<Leg>): real
  {
    if legs == [] then 0.0 else TotalDistance(legs[..|legs| - 1]) + legs[|legs| - 1].distance
  }

  /** The directions, in list order, that the legs give rise to when the running distance starts at start. */
  function Plan(legs: seq<Leg>, start: real): seq<Produced>
  {
    if legs == [] then []
    else Plan(legs[..|legs| - 1], start) + Produce(legs[|legs| - 1], start + TotalDistance(legs))
  }

  function TransitLegCount(legs: seq<Leg>): nat
  {
    if legs == [] then 0
    else TransitLegCount(legs[..|legs| - 1]) + (if IsOnStreetNonTransit(legs[|legs| - 1].mode) then 0 else 1)
  }

  /** What position k of the list must satisfy for the list to be well paired. */
  predicate PairedAt(p: seq<Produced>, k: nat)
    requires k < |p|
  {
    && (p[k].OnStreet? ==> IsOnStreetNonTransit(p[k].leg.mode))
    && (p[k].GetOn? ==> !IsOnStreetNonTransit(p[k].leg.mode) && k + 1 < |p| && p[k + 1] == GetOff(p[k].leg))
    && (p[k].GetOff? ==> !IsOnStreetNonTransit(p[k].leg.mode) && 0 < k && p[k - 1] == GetOn(p[k].leg))
  }

  /** Every "get on" is immediately followed by the "get off" of the same leg, and only there. */
  predicate WellPaired(p: seq<Produced>)
  {
    forall k :: 0 <= k < |p| ==> PairedAt(p, k)
  }

  lemma WellPairedConcat(a: seq<Produced>, b: seq<Produced>)
    requires WellPaired(a) && WellPaired(b)
    ensures WellPaired(a + b)
  {
    var p := a + b;
    forall k | 0 <= k < |p|
      ensures PairedAt(p, k)
    {
      if k < |a| {
        assert PairedAt(a, k);
        assert p[k] == a[k];
        if k + 1 < |a| { assert p[k + 1] == a[k + 1]; }
        if 0 < k { assert p[k - 1] == a[k - 1]; }
      } else {
        assert PairedAt(b, k - |a|);
        assert p[k] == b[k - |a|];
        if k + 1 < |p| { assert p[k + 1] == b[k + 1 - |a|]; }
        if |a| < k { assert p[k - 1] == b[k - 1 - |a|]; }
      }
    }
  }

  /**
   * One direction per on-street leg, two per transit leg, and every "get on"
   * is immediately followed by the "get off" of the same leg (and only there).
   */
  lemma {:induction false} PlanShape(legs: seq<Leg>, start: real)
    ensures |Plan(legs, start)| == |legs| + TransitLegCount(legs)
    ensures WellPaired(Plan(legs, start))
  {
    if legs != [] {
      var init := legs[..|legs| - 1];
      PlanShape(init, start);
      var b := Produce(legs[|legs| - 1], start + TotalDistance(legs));
      assert WellPaired(b);
      WellPairedConcat(Plan(init, start), b);
    }
  }

  /** The geocoding requests one leg causes: its main text's, then its steps', none for transit. */
  function LegRequest(leg: Leg, env: Env): seq<GeocodingRequest>
  {
    if !IsOnStreetNonTransit(leg.mode) then []
    else MainRequests(leg, env) + (if leg.steps.Some? then StepRequests(leg.steps.value, env) else [])
  }

  /** An on-street leg asks for its place names first, then for its steps' street names. */
  lemma StreetRequests(leg: Leg, env: Env, r0: seq<GeocodingRequest>, r1: seq<GeocodingRequest>, r2: seq<GeocodingRequest>)
    requires IsOnStreetNonTransit(leg.mode)
    requires r1 == r0 + MainRequests(leg, env)
    requires r2 == r1 + (if leg.steps.Some? then StepRequests(leg.steps.value, env) else [])
    ensures r2 == r0 + LegRequest(leg, env)
  {
  }

  /** The geocoding requests the conversion issues, leg after leg. */
  function LegRequests(legs: seq<Leg>, env: Env): seq<GeocodingRequest>
  {
    if legs == [] then [] else LegRequests(legs[..|legs| - 1], env) + LegRequest(legs[|legs| - 1], env)
  }

  /** Extending the legs by one extends the distance, the plan and the requests accordingly. */
  lemma LegStep(legs: seq<Leg>, i: nat, start: real, env: Env)
    requires i < |legs|
    ensures TotalDistance(legs[..i + 1]) == TotalDistance(legs[..i]) + legs[i].distance
    ensures Plan(legs[..i + 1], start) == Plan(legs[..i], start) + Produce(legs[i], start + TotalDistance(legs[..i + 1]))
    ensures LegRequests(legs[..i + 1], env) == LegRequests(legs[..i], env) + LegRequest(legs[i], env)
  {
    assert legs[..i + 1][..i] == legs[..i];
  }

  /** Transit legs cause no geocoding requests. */
  lemma {:induction false} TransitLegsRequestNothing(legs: seq<Leg>, env: Env)
    requires forall i :: 0 <= i < |legs| ==> !IsOnStreetNonTransit(legs[i].mode)
    ensures LegRequests(legs, env) == []
  {
    if legs != [] {
      TransitLegsRequestNothing(legs[..|legs| - 1], env);
    }
  }

  /** What the conversion dereferences without a null check. */
  predicate LegSupported(leg: Leg)
  {
    IsOnStreetNonTransit(leg.mode) || TransitLegSupported(leg)
  }

  // ---------------------------------------------------------------------------
  // The object graph of the list

  function SubsOf(d: Direction): seq<Direction>
    reads d`subDirections
  {
    if d.subDirections.Some? then d.subDirections.value else []
  }

  /** The directions and, after each, its sub-directions: what the geocoding patch visits. */
  ghost function Flat(ds: seq<Direction>): seq<Direction>
    reads ds`subDirections
  {
    if ds == [] then [] else Flat(ds[..|ds| - 1]) + [ds[|ds| - 1]] + SubsOf(ds[|ds| - 1])
  }

  /** The texts of the directions, in the same order. */
  ghost function Texts(ds: seq<Direction>): (r: seq<Option<string>>)
    reads ds`directionText
    ensures |r| == |ds| && forall k :: 0 <= k < |ds| ==> r[k] == ds[k].directionText
  {
    if ds == [] then [] else Texts(ds[..|ds| - 1]) + [ds[|ds| - 1].directionText]
  }

  /** What each listed object's text becomes under the patch, judged by its own coordinates. */
  ghost function PatchTargets(all: seq<Direction>, before: seq<Option<string>>, latitude: real, longitude: real,
                              generated: string, address: Option<string>): (r: seq<Option<string>>)
    requires |before| == |all|
    reads all`originLatitude, all`originLongitude, all`destinationLatitude, all`destinationLongitude
    ensures |r| == |all|
  {
    if all == [] then []
    else
      var n := |all| - 1;
      PatchTargets(all[..n], before[..n], latitude, longitude, generated, address)
      + [PatchedText(before[n],
                     AtCoordinates(all[n].originLatitude, all[n].originLongitude,
                                   all[n].destinationLatitude, all[n].destinationLongitude,
                                   latitude, longitude),
                     generated, address)]
  }

  /** Entry k of the targets is the patched form of the k-th object's earlier text. */
  lemma {:induction false} PatchTargetAt(all: seq<Direction>, before: seq<Option<string>>, latitude: real,
                                         longitude: real, generated: string, address: Option<string>, k: nat)
    requires |before| == |all| && k < |all|
    ensures PatchTargets(all, before, latitude, longitude, generated, address)[k]
      == PatchedText(before[k],
                     AtCoordinates(all[k].originLatitude, all[k].originLongitude,
                                   all[k].destinationLatitude, all[k].destinationLongitude,
                                   latitude, longitude),
                     generated, address)
    decreases |all|
  {
    var n := |all| - 1;
    if k < n {
      PatchTargetAt(all[..n], before[..n], latitude, longitude, generated, address, k);
    }
  }

  /** The first n listed objects carry their text from after, the rest their text from before. */
  ghost predicate PatchedUpTo(all: seq<Direction>, before: seq<Option<string>>, after: seq<Option<string>>, n: int)
    reads all`directionText
  {
    && |before| == |all| && |after| == |all|
    && forall k :: 0 <= k < |all| ==> all[k].directionText == if k < n then after[k] else before[k]
  }

  /** all holds d at position start, followed by subs. */
  ghost predicate BlockAt(all: seq<Direction>, start: nat, d: Direction, subs: seq<Direction>)
  {
    && start + 1 + |subs| <= |all|
    && all[start] == d
    && forall j :: 0 <= j < |subs| ==> all[start + 1 + j] == subs[j]
  }

  ghost predicate NoDup(s: seq<Direction>)
  {
    forall i, j :: 0 <= i < j < |s| ==> s[i] != s[j]
  }

  /** No object is in both a and b. */
  ghost predicate Disjoint(a: seq<Direction>, b: seq<Direction>)
  {
    forall x :: x in a ==> x !in b
  }

  lemma DisjointConcat(a: seq<Direction>, b: seq<Direction>, c: seq<Direction>)
    requires Disjoint(a, c) && Disjoint(b, c)
    ensures Disjoint(a + b, c)
  {
  }

  /** A direction followed by its sub-directions. */
  function Tree(d: Direction): seq<Direction>
    reads d`subDirections
  {
    [d] + SubsOf(d)
  }

  lemma NoDupConcat(a: seq<Direction>, b: seq<Direction>)
    requires NoDup(a) && NoDup(b) && Disjoint(a, b)
    ensures NoDup(a + b)
  {
    forall i, j | 0 <= i < j < |a + b|
      ensures (a + b)[i] != (a + b)[j]
    {
      if j < |a| {
        assert (a + b)[i] == a[i] && (a + b)[j] == a[j];
      } else if i >= |a| {
        assert (a + b)[i] == b[i - |a|] && (a + b)[j] == b[j - |a|];
      } else {
        assert (a + b)[i] in a && (a + b)[j] in b;
      }
    }
  }

  lemma NoDupAppend(s: seq<Direction>, d: Direction)
    requires NoDup(s) && d !in s
    ensures NoDup(s + [d])
  {
    NoDupConcat(s, [d]);
  }

  /** A direction that is not among its own distinct sub-directions heads a tree without repeats. */
  lemma TreeNoDup(d: Direction)
    requires NoDup(SubsOf(d)) && d !in SubsOf(d)
    ensures NoDup(Tree(d))
  {
    NoDupConcat([d], SubsOf(d));
  }

  lemma FlatStep(ds: seq<Direction>, i: nat)
    requires i < |ds|
    ensures Flat(ds[..i + 1]) == Flat(ds[..i]) + [ds[i]] + SubsOf(ds[i])
  {
    assert ds[..i + 1][..i] == ds[..i];
  }

  /** The flattened list holds only allocated objects. */
  lemma {:induction false} FlatAllocated(ds: seq<Direction>)
    ensures forall x :: x in Flat(ds) ==> allocated(x)
  {
    if ds != [] {
      FlatAllocated(ds[..|ds| - 1]);
    }
  }

  /** A direction made only of new objects shares none with a list of objects that existed before. */
  twostate lemma NewTreeDisjoint(flat: seq<Direction>, new d: Direction)
    requires forall x :: x in flat ==> old(allocated(x))
    requires fresh(d) && forall s :: s in SubsOf(d) ==> fresh(s)
    ensures Disjoint(flat, Tree(d))
  {
  }

  /** Appending a new direction to a list of new directions gives a list of new directions. */
  twostate lemma AllFreshAppend(new prev: seq<Direction>, new d: Direction, new result: seq<Direction>)
    requires forall k :: 0 <= k < |prev| ==> fresh(prev[k])
    requires fresh(d) && result == prev + [d]
    ensures forall k :: 0 <= k < |result| ==> fresh(result[k])
  {
    forall k | 0 <= k < |result|
      ensures fresh(result[k])
    {
      if k < |prev| {
        assert result[k] == prev[k];
      }
    }
  }

  /** Every direction and every sub-direction of one is in the flattened list. */
  lemma {:induction false} FlatCovers(ds: seq<Direction>)
    ensures forall k :: 0 <= k < |ds| ==> ds[k] in Flat(ds) && forall x :: x in SubsOf(ds[k]) ==> x in Flat(ds)
  {
    if ds != [] {
      var init, last := ds[..|ds| - 1], ds[|ds| - 1];
      FlatCovers(init);
      assert Flat(ds) == Flat(init) + [last] + SubsOf(last);
      assert forall k :: 0 <= k < |init| ==> ds[k] == init[k];
    }
  }

  lemma {:induction false} FlatPrefix(ds: seq<Direction>, i: nat)
    requires i <= |ds|
    ensures |Flat(ds[..i])| <= |Flat(ds)| && Flat(ds)[..|Flat(ds[..i])|] == Flat(ds[..i])
    decreases |ds| - i
  {
    if i < |ds| {
      FlatPrefix(ds, i + 1);
      FlatStep(ds, i);
      assert ds[..|ds|] == ds;
    } else {
      assert ds[..i] == ds;
    }
  }

  /** The sub-directions of each direction. */
  ghost function SubsSeq(ds: seq<Direction>): (r: seq<seq<Direction>>)
    reads ds`subDirections
    ensures |r| == |ds| && forall k :: 0 <= k < |ds| ==> r[k] == SubsOf(ds[k])
  {
    if ds == [] then [] else SubsSeq(ds[..|ds| - 1]) + [SubsOf(ds[|ds| - 1])]
  }

  /** Each head followed by its block, block after block. */
  function Concat(heads: seq<Direction>, blocks: seq<seq<Direction>>): seq<Direction>
    requires |heads| == |blocks|
  {
    if heads == [] then []
    else Concat(heads[..|heads| - 1], blocks[..|blocks| - 1]) + [heads[|heads| - 1]] + blocks[|blocks| - 1]
  }

  /** Block i, its head included, ends where block i + 1 starts. */
  predicate NextStart(st: seq<nat>, blocks: seq<seq<Direction>>, i: nat)
    requires i < |blocks| && |st| == |blocks| + 1
  {
    st[i + 1] == st[i] + 1 + |blocks[i]|
  }

  /** Where each block's head sits in the concatenation, followed by its length. */
  function BlockStarts(blocks: seq<seq<Direction>>): (r: seq<nat>)
    ensures |r| == |blocks| + 1 && r[0] == 0
  {
    if blocks == [] then [0]
    else
      var init := BlockStarts(blocks[..|blocks| - 1]);
      init + [init[|blocks| - 1] + 1 + |blocks[|blocks| - 1]|]
  }

  lemma {:induction false} BlockStartsNext(blocks: seq<seq<Direction>>)
    ensures forall i :: 0 <= i < |blocks| ==> NextStart(BlockStarts(blocks), blocks, i)
  {
    if blocks != [] {
      var n := |blocks| - 1;
      var b := blocks[..n];
      BlockStartsNext(b);
      var init, r := BlockStarts(b), BlockStarts(blocks);
      assert r == init + [init[n] + 1 + |blocks[n]|];
      forall i | 0 <= i < |blocks|
        ensures NextStart(r, blocks, i)
      {
        if i < n {
          assert NextStart(init, b, i);
          assert r[i] == init[i] && r[i + 1] == init[i + 1] && blocks[i] == b[i];
        }
      }
    }
  }

  lemma {:induction false} ConcatLayout(heads: seq<Direction>, blocks: seq<seq<Direction>>)
    requires |heads| == |blocks|
    ensures |Concat(heads, blocks)| == BlockStarts(blocks)[|blocks|]
    ensures forall i :: 0 <= i < |heads| ==>
      BlockAt(Concat(heads, blocks), BlockStarts(blocks)[i], heads[i], blocks[i])
  {
    if heads != [] {
      var n := |heads| - 1;
      var h, b := heads[..n], blocks[..n];
      ConcatLayout(h, b);
      var prefix, all, st := Concat(h, b), Concat(heads, blocks), BlockStarts(blocks);
      assert all == prefix + [heads[n]] + blocks[n];
      assert st[..n + 1] == BlockStarts(b);
      forall i | 0 <= i < |heads|
        ensures BlockAt(all, st[i], heads[i], blocks[i])
      {
        if i < n {
          assert st[i] == BlockStarts(b)[i] && heads[i] == h[i] && blocks[i] == b[i];
          assert BlockAt(prefix, st[i], heads[i], blocks[i]);
          forall j | 0 <= j < |blocks[i]|
            ensures all[st[i] + 1 + j] == blocks[i][j]
          {
            assert all[st[i] + 1 + j] == prefix[st[i] + 1 + j];
          }
        } else {
          assert st[i] == |prefix|;
          forall j | 0 <= j < |blocks[i]|
            ensures all[st[i] + 1 + j] == blocks[i][j]
          {
          }
        }
      }
    }
  }

  /** Block i of the concatenation: where it starts, what it holds, where the next one starts. */
  lemma BlockOf(heads: seq<Direction>, blocks: seq<seq<Direction>>, i: nat)
    requires i < |heads| == |blocks|
    ensures BlockAt(Concat(heads, blocks), BlockStarts(blocks)[i], heads[i], blocks[i])
    ensures NextStart(BlockStarts(blocks), blocks, i)
  {
    ConcatLayout(heads, blocks);
    BlockStartsNext(blocks);
  }

  /** Flat(ds) lists each direction's block in turn. */
  lemma {:induction false} FlatBlocks(ds: seq<Direction>)
    ensures Flat(ds) == Concat(ds, SubsSeq(ds))
  {
    if ds != [] {
      var n := |ds| - 1;
      FlatBlocks(ds[..n]);
      assert SubsSeq(ds)[..n] == SubsSeq(ds[..n]);
    }
  }

  // ---------------------------------------------------------------------------
  // What each generated direction holds

  /**
   * The contents of a direction as a value: every field but the index, with
   * the contents of the sub-directions in order (None for a null list).
   */
  datatype View = View(icon: Icon, text: Option<string>, service: Option<string>, place: Option<string>,
                       originLatitude: real, originLongitude: real,
                       destinationLatitude: real, destinationLongitude: real,
                       oldTime: Option<string>, newTime: Option<string>,
                       isTransit: bool, realTimeInfo: bool, subs: Option<seq<View>>)

  /** The fields of d other than its index and its sub-directions are those of v. */
  ghost predicate FieldsAre(d: Direction, v: View)
    reads d
  {
    && d.icon == v.icon && d.directionText == v.text && d.service == v.service && d.place == v.place
    && d.originLatitude == v.originLatitude && d.originLongitude == v.originLongitude
    && d.destinationLatitude == v.destinationLatitude && d.destinationLongitude == v.destinationLongitude
    && d.oldTime == v.oldTime && d.newTime == v.newTime
    && d.isTransit == v.isTransit && d.realTimeInfo == v.realTimeInfo
  }

  /** A sub-direction holding v: its fields, and no sub-directions of its own. */
  ghost predicate LeafShows(d: Direction, v: View)
    reads d
  {
    FieldsAre(d, v) && d.subDirections == None
  }

  /** The directions are sub-directions holding the views, one for one. */
  ghost predicate LeavesShow(ds: seq<Direction>, vs: seq<View>)
    reads ds
  {
    |ds| == |vs| && forall k :: 0 <= k < |ds| ==> LeafShows(ds[k], vs[k])
  }

  /** d holds v: its fields, and sub-directions exactly when v has some, each holding its view. */
  ghost predicate Shows(d: Direction, v: View)
    reads d, SubsOf(d)
  {
    && FieldsAre(d, v)
    && (v.subs.None? ==> d.subDirections == None)
    && (v.subs.Some? ==> d.subDirections.Some? && LeavesShow(d.subDirections.value, v.subs.value))
  }

  /** A walk step's sub-direction: its text and icon, at the step's point, nothing else set. */
  function StepView(step: WalkStep, action: string, env: Env): View
  {
    View(Drawn(StepIcon(step)), Some(StepText(step, action, env)), None, None,
         step.lat, step.lon, step.lat, step.lon, None, None, false, false, None)
  }

  function StepViews(steps: seq<WalkStep>, action: string, env: Env): seq<View>
  {
    seq(|steps|, k requires 0 <= k < |steps| => StepView(steps[k], action, env))
  }

  /**
   * The main direction of an on-street leg: the action with the from and to
   * names, the end stop id and the running distance, the mode icon, from the
   * start to the end point, with one sub-direction per walk step in step
   * order (none when the leg has no step list).
   */
  function StreetView(leg: Leg, totalDistance: real, env: Env): View
  {
    View(Drawn(ModeIcon(env.modeFlags(leg.mode))), Some(MainText(leg, totalDistance, env)), None, None,
         leg.from.lat, leg.from.lon, leg.to.lat, leg.to.lon, None, None, false, false,
         if leg.steps.None? then None else Some(StepViews(leg.steps.value, env.res(ActionKey(leg.mode)), env)))
  }

  /** The sub-direction for the i-th stop in between: numbered text and the mode icon, no coordinates. */
  function StopView(i: nat, stop: Place, icon: Icon): View
    requires stop.stopId.Some?
  {
    View(icon, Some(StopText(i, stop)), None, None, 0.0, 0.0, 0.0, 0.0, None, None, false, false, None)
  }

  function StopViews(stops: seq<Place>, icon: Icon): seq<View>
    requires forall p :: p in stops ==> p.stopId.Some?
  {
    seq(|stops|, k requires 0 <= k < |stops| => StopView(k, stops[k], icon))
  }

  /**
   * A "get on" (isOn) or "get off" direction: marked transit, realtime flag
   * copied, mode icon for "get on" and no icon for "get off", scheduled time
   * = expected time minus the delay, updated time only for realtime legs, the
   * stops in between as sub-directions of "get on" only, and no text.
   */
  function TransitView(leg: Leg, isOn: bool, env: Env): View
    requires TransitLegSupported(leg)
  {
    var icon := if isOn then Drawn(ModeIcon(env.modeFlags(leg.mode))) else NoIcon;
    View(icon, None, Some(TransitService(leg, isOn, env)), Some(TransitPlace(leg, isOn, env)),
         0.0, 0.0, 0.0, 0.0,
         Some(env.timeWithContext(leg.agencyTimeZoneOffset, ScheduledMillis(leg, isOn))),
         if leg.realtime
         then Some(env.timeUpdated(leg.agencyTimeZoneOffset, ScheduledMillis(leg, isOn), UpdatedMillis(leg, isOn)))
         else None,
         true, leg.realtime,
         if isOn then Some(StopViews(StopsInBetween(leg), icon)) else None)
  }

  ghost predicate IsStopDirection(d: Direction, i: nat, stop: Place, icon: Icon)
    requires stop.stopId.Some?
    reads d
  {
    LeafShows(d, StopView(i, stop, icon))
  }

  /** One numbered stop direction per stop in between, in stop order. */
  ghost predicate StopDirections(ds: seq<Direction>, stops: seq<Place>, icon: Icon)
    requires forall p :: p in stops ==> p.stopId.Some?
    reads ds
  {
    LeavesShow(ds, StopViews(stops, icon))
  }

  ghost predicate IsStreetDirection(d: Direction, leg: Leg, totalDistance: real, env: Env)
    reads d, SubsOf(d)
  {
    Shows(d, StreetView(leg, totalDistance, env))
  }

  ghost predicate IsTransitDirection(d: Direction, leg: Leg, isOn: bool, env: Env)
    requires TransitLegSupported(leg)
    reads d, SubsOf(d)
  {
    Shows(d, TransitView(leg, isOn, env))
  }

  /** Whether the view of p is defined: transit entries need their stop ids. */
  predicate ProducedSupported(p: Produced)
  {
    p.OnStreet? || TransitLegSupported(p.leg)
  }

  /** The contents of the direction made for p. */
  function ExpectedView(p: Produced, env: Env): View
    requires ProducedSupported(p)
  {
    match p
    case OnStreet(leg, total) => StreetView(leg, total, env)
    case GetOn(leg) => TransitView(leg, true, env)
    case GetOff(leg) => TransitView(leg, false, env)
  }

  /** The contents of the direction(s) one leg contributes, in list order. */
  function LegViews(leg: Leg, totalDistance: real, env: Env): seq<View>
    requires LegSupported(leg)
  {
    if IsOnStreetNonTransit(leg.mode) then [StreetView(leg, totalDistance, env)]
    else [TransitView(leg, true, env), TransitView(leg, false, env)]
  }

  /** The contents of the whole list, leg by leg, with the running distance starting at start. */
  function PlanViews(legs: seq<Leg>, start: real, env: Env): seq<View>
    requires forall l :: l in legs ==> LegSupported(l)
  {
    if legs == [] then []
    else PlanViews(legs[..|legs| - 1], start, env) + LegViews(legs[|legs| - 1], start + TotalDistance(legs), env)
  }

  /** The views of the legs up to i + 1 are those up to i followed by leg i's, at the running distance total. */
  lemma PlanViewsStep(legs: seq<Leg>, i: nat, start: real, total: real, env: Env)
    requires i < |legs| && forall l :: l in legs ==> LegSupported(l)
    requires total == start + TotalDistance(legs[..i + 1])
    ensures forall l :: l in legs[..i + 1] ==> LegSupported(l)
    ensures PlanViews(legs[..i + 1], start, env) == PlanViews(legs[..i], start, env) + LegViews(legs[i], total, env)
  {
    assert legs[..i + 1][..i] == legs[..i];
  }

  /** Entry k of vs is the view of entry k of ps. */
  ghost predicate ViewsOf(ps: seq<Produced>, vs: seq<View>, env: Env)
  {
    |ps| == |vs| && forall k :: 0 <= k < |ps| ==> ProducedSupported(ps[k]) && vs[k] == ExpectedView(ps[k], env)
  }

  lemma ViewsOfConcat(a: seq<Produced>, b: seq<Produced>, va: seq<View>, vb: seq<View>, env: Env)
    requires ViewsOf(a, va, env) && ViewsOf(b, vb, env)
    ensures ViewsOf(a + b, va + vb, env)
  {
    forall k | 0 <= k < |a + b|
      ensures ProducedSupported((a + b)[k]) && (va + vb)[k] == ExpectedView((a + b)[k], env)
    {
      if k < |a| {
        assert (a + b)[k] == a[k] && (va + vb)[k] == va[k];
      } else {
        assert (a + b)[k] == b[k - |a|] && (va + vb)[k] == vb[k - |a|];
      }
    }
  }

  /** The views one leg contributes are those of the entries it produces. */
  lemma LegViewsOfProduce(leg: Leg, total: real, env: Env)
    requires LegSupported(leg)
    ensures ViewsOf(Produce(leg, total), LegViews(leg, total, env), env)
  {
  }

  /** Entry k of the contents is the view of entry k of the plan. */
  lemma {:induction false} PlanViewsOfPlan(legs: seq<Leg>, start: real, env: Env)
    requires forall l :: l in legs ==> LegSupported(l)
    ensures ViewsOf(Plan(legs, start), PlanViews(legs, start, env), env)
  {
    if legs != [] {
      var init, last := legs[..|legs| - 1], legs[|legs| - 1];
      assert forall l :: l in init ==> l in legs;
      assert last in legs;
      PlanViewsOfPlan(init, start, env);
      LegViewsOfProduce(last, start + TotalDistance(legs), env);
      ViewsOfConcat(Plan(init, start), Produce(last, start + TotalDistance(legs)),
                    PlanViews(init, start, env), LegViews(last, start + TotalDistance(legs), env), env);
    }
  }

  /** The directions are numbered from 1 and hold the views entry by entry. */
  ghost predicate ListShows(ds: seq<Direction>, views: seq<View>)
    reads ds, set x | x in Flat(ds)
  {
    FlatCovers(ds);
    |ds| == |views| && forall k :: 0 <= k < |ds| ==> ds[k].directionIndex == k + 1 && Shows(ds[k], views[k])
  }

  class DirectionsGenerator {
    /** The application context: string table and formatters. */
    const env: Env
    var legs: seq<Leg>
    var directions: seq<Direction>
    var totalDistance: real
    /** Whether the generator was built for map markers (modeMarkers is non-null) rather than from legs. */
    var markerMode: bool
    /** The reverse-geocoding requests launched so far, oldest first. */
    var requests: seq<GeocodingRequest>

    /** No direction object is listed twice, so the patch touches each one once. */
    ghost predicate Valid()
      reads this`directions, directions`subDirections
    {
      NoDup(Flat(directions))
    }

    /** The generator used for map markers: no legs and no directions. */
    constructor ForMarkers(env: Env)
      ensures this.env == env && markerMode && legs == [] && directions == []
      ensures totalDistance == 0.0 && requests == [] && Valid()
    {
      this.env := env;
      legs, directions, totalDistance, markerMode, requests := [], [], 0.0, true, [];
    }

    /** Builds the directions for the legs; see ConvertToDirectionList. */
    constructor (legs: seq<Leg>, env: Env)
      requires forall l :: l in legs ==> LegSupported(l)
      ensures this.env == env && this.legs == legs && !markerMode && Valid()
      ensures totalDistance == TotalDistance(legs)
      ensures requests == LegRequests(legs, env)
      ensures ListShows(directions, PlanViews(legs, 0.0, env))
    {
      this.env := env;
      this.legs := legs;
      directions, totalDistance, markerMode, requests := [], 0.0, false, [];
      new;
      ConvertToDirectionList();
    }

    /**
     * addDirection: appends dir to the list. Appending a direction whose tree
     * has no repeated object and shares none with the list keeps Valid().
     */
    method AddDirection(dir: Direction)
      modifies this`directions
      ensures directions == old(directions) + [dir]
      ensures old(Valid()) && NoDup(Tree(dir)) && Disjoint(old(Flat(directions)), Tree(dir)) ==>
        Valid() && Flat(directions) == old(Flat(directions)) + Tree(dir)
    {
      ghost var before := directions;
      directions := directions + [dir];
      if NoDup(Flat(before)) && NoDup(Tree(dir)) && Disjoint(Flat(before), Tree(dir)) {
        AppendFresh(before, dir);
      }
    }

    /**
     * Appends the directions of every leg: indices 1, 2, ... in list order,
     * each leg's direction(s) with the contents PlanViews gives, the running
     * distance, and the geocoding requests in leg order.
     */
    method ConvertToDirectionList()
      requires directions == [] && totalDistance == 0.0 && requests == []
      requires forall l :: l in legs ==> LegSupported(l)
      modifies this`directions, this`totalDistance, this`requests
      ensures Valid()
      ensures totalDistance == TotalDistance(legs)
      ensures requests == LegRequests(legs, env)
      ensures ListShows(directions, PlanViews(legs, 0.0, env))
    {
      var index := 0;
      var i := 0;
      while i < |legs|
        invariant 0 <= i <= |legs|
        invariant forall l :: l in legs[..i] ==> LegSupported(l)
        invariant totalDistance == TotalDistance(legs[..i])
        invariant requests == LegRequests(legs[..i], env)
        invariant index == |directions|
        invariant Valid() && ListShows(directions, PlanViews(legs[..i], 0.0, env))
      {
        index := ConvertLegAt(i, index);
        i := i + 1;
      }
      assert legs[..i] == legs;
    }

    /** The body of the leg loop for leg i: what holds of the legs before i then holds of those up to i. */
    method ConvertLegAt(i: nat, index: int) returns (next: int)
      requires i < |legs| && (forall l :: l in legs ==> LegSupported(l)) && (forall l :: l in legs[..i] ==> LegSupported(l))
      requires totalDistance == TotalDistance(legs[..i]) && requests == LegRequests(legs[..i], env)
      requires index == |directions| && Valid() && ListShows(directions, PlanViews(legs[..i], 0.0, env))
      modifies this`directions, this`totalDistance, this`requests
      ensures totalDistance == TotalDistance(legs[..i + 1]) && requests == LegRequests(legs[..i + 1], env)
      ensures next == |directions| && Valid()
      ensures (forall l :: l in legs[..i + 1] ==> LegSupported(l)) && ListShows(directions, PlanViews(legs[..i + 1], 0.0, env))
    {
      LegStep(legs, i, 0.0, env);
      assert legs[i] in legs;
      next := ConvertLeg(legs[i], index, PlanViews(legs[..i], 0.0, env));
      PlanViewsStep(legs, i, 0.0, totalDistance, env);
    }

    /** One turn of the leg loop: the distance grows, the leg's directions are numbered and appended. */
    method ConvertLeg(leg: Leg, index: int, ghost views: seq<View>) returns (next: int)
      requires LegSupported(leg) && index == |directions|
      requires Valid() && ListShows(directions, views)
      modifies this`directions, this`totalDistance, this`requests
      ensures Valid() && next == |directions|
      ensures totalDistance == old(totalDistance) + leg.distance
      ensures requests == old(requests) + LegRequest(leg, env)
      ensures ListShows(directions, views + LegViews(leg, totalDistance, env))
    {
      totalDistance := totalDistance + leg.distance;
      if IsOnStreetNonTransit(leg.mode) {
        next := ConvertStreetLeg(leg, index, views);
      } else {
        next := ConvertTransitLeg(leg, index, views);
      }
    }

    /** An on-street leg: its direction is generated, numbered index + 1 and appended. */
    method ConvertStreetLeg(leg: Leg, index: int, ghost views: seq<View>) returns (next: int)
      requires IsOnStreetNonTransit(leg.mode) && index == |directions|
      requires Valid() && ListShows(directions, views)
      modifies this`directions, this`requests
      ensures Valid() && next == |directions|
      ensures requests == old(requests) + LegRequest(leg, env)
      ensures ListShows(directions, views + [StreetView(leg, totalDistance, env)])
    {
      ghost var flat := Flat(directions);
      FlatAllocated(directions);
      var dir := GenerateNonTransitDirections(leg);
      NewTreeDisjoint(flat, dir);
      next := index + 1;
      AddNumbered(dir, next, views, StreetView(leg, totalDistance, env));
    }

    /** A transit leg: its "get on" and "get off" directions are numbered index + 1 and index + 2 and appended. */
    method ConvertTransitLeg(leg: Leg, index: int, ghost views: seq<View>) returns (next: int)
      requires TransitLegSupported(leg) && index == |directions|
      requires Valid() && ListShows(directions, views)
      modifies this`directions
      ensures Valid() && next == |directions|
      ensures ListShows(directions, views + [TransitView(leg, true, env), TransitView(leg, false, env)])
    {
      ghost var flat := Flat(directions);
      FlatAllocated(directions);
      var pair := GenerateTransitDirections(leg);
      NewTreeDisjoint(flat, pair[0]);
      NewTreeDisjoint(flat, pair[1]);
      AddPair(pair[0], pair[1], index, views, TransitView(leg, true, env), TransitView(leg, false, env));
      next := index + 2;
    }

    /** The "get on" and "get off" directions, numbered index + 1 and index + 2, appended in that order. */
    method AddPair(on: Direction, off: Direction, index: int, ghost views: seq<View>, ghost von: View, ghost voff: View)
      requires Valid() && NoDup(Tree(on)) && NoDup(Tree(off)) && Disjoint(Tree(on), Tree(off))
      requires Disjoint(Flat(directions), Tree(on)) && Disjoint(Flat(directions), Tree(off))
      requires ListShows(directions, views) && Shows(on, von) && Shows(off, voff) && index == |directions|
      modifies this`directions, on`directionIndex, off`directionIndex
      ensures Valid() && |directions| == index + 2
      ensures ListShows(directions, views + [von, voff])
    {
      ghost var flat := Flat(directions);
      ghost var rest := Tree(off);
      assert on !in rest by {
        assert on in Tree(on);
      }
      AddNumbered(on, index + 1, views, von);
      DisjointConcat(flat, Tree(on), rest);
      AddNumbered(off, index + 2, views + [von], voff);
      AppendTwo(views, von, voff);
    }

    lemma AppendTwo(views: seq<View>, a: View, b: View)
      ensures views + [a] + [b] == views + [a, b]
    {
    }

    /** setDirectionIndex and addDirection on a direction made of new objects. */
    method AddNumbered(dir: Direction, index: int, ghost views: seq<View>, ghost v: View)
      requires Valid() && NoDup(Tree(dir)) && Disjoint(Flat(directions), Tree(dir))
      requires ListShows(directions, views) && Shows(dir, v) && index == |directions| + 1
      modifies this`directions, dir`directionIndex
      ensures directions == old(directions) + [dir] && dir.directionIndex == index
      ensures Flat(directions) == old(Flat(directions)) + Tree(dir)
      ensures Valid() && ListShows(directions, views + [v])
    {
      ghost var before := directions;
      FlatCovers(before);
      assert dir !in Flat(before) by {
        assert dir in Tree(dir);
      }
      assert dir !in before;
      Number(dir, index, v);
      assert ListShows(before, views);
      Append(dir, views, v);
    }

    /** addDirection of a numbered direction made of new objects. */
    method Append(dir: Direction, ghost views: seq<View>, ghost v: View)
      requires Valid() && NoDup(Tree(dir)) && Disjoint(Flat(directions), Tree(dir))
      requires ListShows(directions, views) && Shows(dir, v) && dir.directionIndex == |directions| + 1
      modifies this`directions
      ensures directions == old(directions) + [dir]
      ensures Flat(directions) == old(Flat(directions)) + Tree(dir)
      ensures Valid() && ListShows(directions, views + [v])
    {
      ghost var before := directions;
      AddDirection(dir);
      ListShowsExtend(before, views, dir, v);
    }

    /** setDirectionIndex on a direction none of whose sub-directions is itself: its contents stay. */
    method Number(dir: Direction, index: int, ghost v: View)
      requires NoDup(Tree(dir)) && Shows(dir, v)
      modifies dir`directionIndex
      ensures dir.directionIndex == index && Shows(dir, v)
    {
      assert dir !in SubsOf(dir) by {
        assert forall k :: 0 <= k < |SubsOf(dir)| ==> Tree(dir)[k + 1] == SubsOf(dir)[k];
      }
      dir.SetDirectionIndex(index);
    }

    /** A direction numbered next that holds the next view extends a list that holds its views. */
    lemma ListShowsExtend(ds: seq<Direction>, views: seq<View>, d: Direction, v: View)
      requires ListShows(ds, views) && Shows(d, v) && d.directionIndex == |ds| + 1
      ensures ListShows(ds + [d], views + [v])
    {
      forall k | 0 <= k < |ds| + 1
        ensures (ds + [d])[k].directionIndex == k + 1 && Shows((ds + [d])[k], (views + [v])[k])
      {
        if k < |ds| {
          assert (ds + [d])[k] == ds[k] && (views + [v])[k] == views[k];
        }
      }
    }

    /** Appending a direction whose objects are all new keeps the list free of repeats. */
    lemma AppendFresh(ds: seq<Direction>, d: Direction)
      requires NoDup(Flat(ds)) && NoDup(Tree(d)) && Disjoint(Flat(ds), Tree(d))
      ensures Flat(ds + [d]) == Flat(ds) + Tree(d)
      ensures NoDup(Flat(ds + [d]))
    {
      FlatStep(ds + [d], |ds|);
      assert (ds + [d])[..|ds|] == ds;
      assert (ds + [d])[..|ds| + 1] == ds + [d];
      var a, b := Flat(ds), Tree(d);
      assert Flat(ds + [d]) == a + b;
      NoDupConcat(a, b);
    }

    /**
     * The main direction of an on-street leg: action, from and to names, the
     * end stop id and the running distance, with a sub-direction per walk step
     * (null when the leg has no steps).
     */
    method GenerateNonTransitDirections(leg: Leg) returns (direction: Direction)
      requires IsOnStreetNonTransit(leg.mode)
      modifies this`requests
      ensures fresh(direction) && (forall s :: s in SubsOf(direction) ==> fresh(s))
      ensures NoDup(Tree(direction))
      ensures IsStreetDirection(direction, leg, totalDistance, env) && direction.directionIndex == 0
      ensures requests == old(requests) + LegRequest(leg, env)
    {
      var action := env.res(WalkAction);
      var mode := leg.mode;
      var icon := ModeIcon(env.modeFlags(mode));
      if mode == BICYCLE {
        action := env.res(BicycleAction);
      } else if mode == CAR {
        action := env.res(CarAction);
      }
      assert action == env.res(ActionKey(mode));

      var mainDirectionText, subDirections := StreetParts(leg, action);
      direction := NewDirection(Drawn(icon), mainDirectionText, leg.from.lat, leg.from.lon, leg.to.lat, leg.to.lon,
                                subDirections);
      TreeNoDup(direction);
    }

    /**
     * The main text, then the step sub-directions (none without a step list),
     * with the geocoding requests of both in that order.
     */
    method StreetParts(leg: Leg, action: string) returns (mainDirectionText: string, subDirections: Option<seq<Direction>>)
      requires IsOnStreetNonTransit(leg.mode) && action == env.res(ActionKey(leg.mode))
      modifies this`requests
      ensures mainDirectionText == MainText(leg, totalDistance, env)
      ensures subDirections.None? <==> leg.steps.None?
      ensures subDirections.Some? ==>
        && NoDup(subDirections.value) && (forall s :: s in subDirections.value ==> fresh(s))
        && LeavesShow(subDirections.value, StepViews(leg.steps.value, action, env))
      ensures requests == old(requests) + LegRequest(leg, env)
    {
      ghost var requests0 := requests;
      mainDirectionText := MainDirectionText(leg, action);
      ghost var requests1 := requests;
      subDirections := None;
      if leg.steps.Some? {
        var stepDirections := GenerateStepDirections(leg.steps.value, action);
        subDirections := Some(stepDirections);
      }
      StreetRequests(leg, env, requests0, requests1, requests);
    }

    /** The main text of an on-street leg, asking for the start and end names in that order. */
    method MainDirectionText(leg: Leg, action: string) returns (mainDirectionText: string)
      requires action == env.res(ActionKey(leg.mode))
      modifies this`requests
      ensures mainDirectionText == MainText(leg, totalDistance, env)
      ensures requests == old(requests) + MainRequests(leg, env)
    {
      var fromPlace, toPlace := leg.from, leg.to;
      mainDirectionText := action;
      var fromText := "";
      if fromPlace.name.Some? {
        var name := GetLocalizedStreetName(None, Some(fromPlace));
        fromText := " " + env.res(NonTransitFrom) + " " + JavaStr(name);
      }
      mainDirectionText := mainDirectionText + fromText;
      var toText := "";
      if toPlace.name.Some? {
        var name := GetLocalizedStreetName(None, Some(toPlace));
        toText := " " + env.res(NonTransitTo) + " " + JavaStr(name);
      }
      mainDirectionText := mainDirectionText + toText;
      var stopText := "";
      if toPlace.stopId.Some? {
        stopText := " (" + toPlace.stopId.value.agencyId + " " + toPlace.stopId.value.id + ")";
      }
      mainDirectionText := mainDirectionText + stopText;
      mainDirectionText := mainDirectionText + ("\n[" + env.formatDistance(totalDistance) + " ]");
    }

    /** The step loop: one new sub-direction per walk step, in step order. */
    method GenerateStepDirections(walkSteps: seq<WalkStep>, action: string)
      returns (subDirections: seq<Direction>)
      modifies this`requests
      ensures NoDup(subDirections) && forall k :: 0 <= k < |subDirections| ==> fresh(subDirections[k])
      ensures LeavesShow(subDirections, StepViews(walkSteps, action, env))
      ensures requests == old(requests) + StepRequests(walkSteps, env)
    {
      ghost var views := StepViews(walkSteps, action, env);
      subDirections := [];
      var i := 0;
      while i < |walkSteps|
        invariant 0 <= i <= |walkSteps| && |subDirections| == i
        invariant forall k :: 0 <= k < i ==> fresh(subDirections[k])
        invariant forall k :: 0 <= k < i ==> LeafShows(subDirections[k], views[k])
        invariant NoDup(subDirections)
        invariant requests == old(requests) + StepRequests(walkSteps[..i], env)
      {
        ghost var prev := subDirections;
        subDirections := AppendStepDirection(subDirections, walkSteps, action, views, old(requests));
        ghost var added := subDirections[i];
        AllFreshAppend(prev, added, subDirections);
        i := i + 1;
      }
      assert walkSteps[..i] == walkSteps;
    }

    /** One turn of the step loop: the next step's sub-direction is appended. */
    method AppendStepDirection(subDirections: seq<Direction>, walkSteps: seq<WalkStep>, action: string,
                               ghost views: seq<View>, ghost requests0: seq<GeocodingRequest>)
      returns (result: seq<Direction>)
      requires |subDirections| < |walkSteps| && views == StepViews(walkSteps, action, env)
      requires NoDup(subDirections) && forall k :: 0 <= k < |subDirections| ==> LeafShows(subDirections[k], views[k])
      requires requests == requests0 + StepRequests(walkSteps[..|subDirections|], env)
      modifies this`requests
      ensures |result| == |subDirections| + 1 && result == subDirections + [result[|subDirections|]]
      ensures fresh(result[|subDirections|]) && NoDup(result)
      ensures forall k :: 0 <= k < |result| ==> LeafShows(result[k], views[k])
      ensures requests == requests0 + StepRequests(walkSteps[..|subDirections| + 1], env)
    {
      ghost var before := requests;
      var dir := GenerateStepDirection(walkSteps[|subDirections|], action);
      StepRequestsExtend(requests0, before, requests, walkSteps, |subDirections|, env);
      result := subDirections + [dir];
      LeavesExtend(subDirections, dir, result, views);
    }

    /** One more sub-direction holding the next view keeps the one-for-one correspondence. */
    lemma LeavesExtend(ds: seq<Direction>, d: Direction, result: seq<Direction>, vs: seq<View>)
      requires |ds| < |vs| && result == ds + [d]
      requires NoDup(ds) && d !in ds
      requires forall k :: 0 <= k < |ds| ==> LeafShows(ds[k], vs[k])
      requires LeafShows(d, vs[|ds|])
      ensures |result| == |ds| + 1 && result[|ds|] == d && NoDup(result)
      ensures forall k :: 0 <= k < |result| ==> LeafShows(result[k], vs[k])
    {
      NoDupAppend(ds, d);
      forall k | 0 <= k < |result|
        ensures LeafShows(result[k], vs[k])
      {
        if k < |ds| {
          assert result[k] == ds[k];
        }
      }
    }

    /** One walk step's sub-direction (the body of the step loop). */
    method GenerateStepDirection(step: WalkStep, action: string) returns (dir: Direction)
      modifies this`requests
      ensures fresh(dir) && LeafShows(dir, StepView(step, action, env))
      ensures requests == old(requests) + NameRequests(Some(step), None, env)
    {
      var subDirectionText, subdirectionIcon := StepDirectionText(step, action);
      dir := NewDirection(Drawn(subdirectionIcon), subDirectionText, step.lat, step.lon, step.lat, step.lon, None);
    }

    /**
     * new Direction() followed by setIcon, setDirectionText, the four
     * coordinate setters and, when there are any, setSubDirections; every
     * other field keeps its default.
     */
    method NewDirection(icon: Icon, text: string, originLatitude: real, originLongitude: real,
                        destinationLatitude: real, destinationLongitude: real,
                        subDirections: Option<seq<Direction>>) returns (dir: Direction)
      ensures fresh(dir) && dir.icon == icon && dir.directionText == Some(text)
      ensures dir.originLatitude == originLatitude && dir.originLongitude == originLongitude
      ensures dir.destinationLatitude == destinationLatitude && dir.destinationLongitude == destinationLongitude
      ensures dir.directionIndex == 0 && dir.service == None && dir.place == None
      ensures dir.oldTime == None && dir.newTime == None
      ensures !dir.isTransit && !dir.realTimeInfo && dir.subDirections == subDirections
    {
      dir := new Direction();
      dir.SetIcon(icon);
      dir.SetDirectionText(Some(text));
      dir.SetOriginLatitude(originLatitude);
      dir.SetOriginLongitude(originLongitude);
      dir.SetDestinationLatitude(destinationLatitude);
      dir.SetDestinationLongitude(destinationLongitude);
      if subDirections.Some? {
        dir.SetSubDirections(subDirections);
      }
    }

    /** The text and icon of one walk step's sub-direction, asking for the street name. */
    method StepDirectionText(step: WalkStep, action: string) returns (subDirectionText: string, subdirectionIcon: Drawable)
      modifies this`requests
      ensures subDirectionText == StepText(step, action, env) && subdirectionIcon == StepIcon(step)
      ensures requests == old(requests) + NameRequests(Some(step), None, env)
    {
      subDirectionText := StepHeading(step, action, env.res, env.digit);
      subdirectionIcon := StepIcon(step);
      var streetConnector := env.res(ConnectorKey(step.relativeDirection, step.exit));
      var streetName := GetLocalizedStreetName(Some(step), None);
      assert streetName == Some(LocalizedStreetName(step.streetName, step.lat, step.lon, env));
      subDirectionText := subDirectionText + (streetConnector + " " + JavaStr(streetName) + " ");
      subDirectionText := subDirectionText + ("\n[" + env.formatDistance(step.distance) + " ]");
    }

    /**
     * getLocalizedStreetName: the displayed name for the place (preferred) or
     * the step, launching one geocoding request when the name is generic.
     */
    method GetLocalizedStreetName(walkStep: Option<WalkStep>, place: Option<Place>) returns (r: Option<string>)
      requires place.Some? ==> place.value.name.Some?
      modifies this`requests
      ensures r == LocalizedName(walkStep, place, env)
      ensures requests == old(requests) + NameRequests(walkStep, place, env)
    {
      if place.Some? || walkStep.Some? {
        var streetName: string;
        var latitude: real;
        var longitude: real;
        if place.Some? {
          streetName, latitude, longitude := place.value.name.value, place.value.lat, place.value.lon;
        } else {
          streetName, latitude, longitude := walkStep.value.streetName, walkStep.value.lat, walkStep.value.lon;
        }
        var key := StreetTypeKey(streetName);
        var newStreetName: string;
        if key.Some? {
          newStreetName := env.res(key.value);
        } else if StartsWith(streetName, "osm:node") {
          newStreetName := env.formatCoordinate(latitude) + ", " + env.formatCoordinate(longitude);
        } else {
          return Some(streetName);
        }
        requests := requests + [GeocodingRequest(walkStep, place, latitude, longitude, newStreetName)];
        return Some(newStreetName);
      }
      return None;
    }

    /** The "get on" and the "get off" direction of a transit leg, in that order. */
    method GenerateTransitDirections(leg: Leg) returns (pair: seq<Direction>)
      requires TransitLegSupported(leg)
      ensures |pair| == 2 && pair[0] != pair[1]
      ensures fresh(pair[0]) && (forall s :: s in SubsOf(pair[0]) ==> fresh(s)) && NoDup(Tree(pair[0]))
      ensures fresh(pair[1]) && (forall s :: s in SubsOf(pair[1]) ==> fresh(s)) && NoDup(Tree(pair[1]))
      ensures Disjoint(Tree(pair[0]), Tree(pair[1]))
      ensures IsTransitDirection(pair[0], leg, true, env) && pair[0].directionIndex == 0
      ensures IsTransitDirection(pair[1], leg, false, env) && pair[1].directionIndex == 0
    {
      var on := GenerateTransitSubdirection(leg, true);
      var off := GenerateTransitSubdirection(leg, false);
      pair := [on, off];
    }

    /**
     * generateTransitSubdirection: the "get on" (isOnDirection) or "get off"
     * direction of a transit leg.
     */
    method GenerateTransitSubdirection(leg: Leg, isOnDirection: bool) returns (direction: Direction)
      requires TransitLegSupported(leg)
      ensures fresh(direction) && (forall s :: s in SubsOf(direction) ==> fresh(s))
      ensures NoDup(Tree(direction))
      ensures IsTransitDirection(direction, leg, isOnDirection, env) && direction.directionIndex == 0
    {
      var icon: Icon;
      var newTime, oldTime: int;
      var subDirections: Option<seq<Direction>> := None;
      if isOnDirection {
        icon := Drawn(ModeIcon(env.modeFlags(leg.mode)));
        newTime := leg.startTime;
        oldTime := newTime - 1000 * leg.departureDelay;
        // only "get on" lists the stops in between
        var stopDirections := StopsInBetweenDirections(leg, icon);
        subDirections := Some(stopDirections);
      } else {
        icon := NoIcon;
        newTime := leg.endTime;
        oldTime := newTime - 1000 * leg.arrivalDelay;
      }
      var place, service := TransitPlace(leg, isOnDirection, env), TransitService(leg, isOnDirection, env);
      var newTimeText := if leg.realtime then Some(env.timeUpdated(leg.agencyTimeZoneOffset, oldTime, newTime))
                         else None;
      direction := NewTransitDirection(leg.realtime, icon, subDirections, place, service, newTimeText,
                                       env.timeWithContext(leg.agencyTimeZoneOffset, oldTime));
      TreeNoDup(direction);
    }

    /**
     * The setters of generateTransitSubdirection on a new direction: realtime
     * flag, transit flag, the sub-directions when there are any (the field
     * stays null otherwise), icon, place, service, the updated time when there
     * is one, and the scheduled time.
     */
    method NewTransitDirection(realTimeInfo: bool, icon: Icon, subDirections: Option<seq<Direction>>,
                               place: string, service: string, newTime: Option<string>, oldTime: string)
      returns (direction: Direction)
      ensures fresh(direction) && direction.isTransit && direction.realTimeInfo == realTimeInfo
      ensures direction.subDirections == subDirections && direction.directionText == None
      ensures direction.icon == icon && direction.place == Some(place) && direction.service == Some(service)
      ensures direction.newTime == newTime && direction.oldTime == Some(oldTime)
      ensures direction.originLatitude == 0.0 && direction.originLongitude == 0.0
      ensures direction.destinationLatitude == 0.0 && direction.destinationLongitude == 0.0
      ensures direction.directionIndex == 0
    {
      direction := new Direction();
      direction.SetRealTimeInfo(realTimeInfo);
      direction.SetTransit(true);
      if subDirections.Some? {
        direction.SetSubDirections(subDirections);
      }
      SetTransitFields(direction, icon, place, service, newTime, oldTime);
    }

    /**
     * The setters that end generateTransitSubdirection: icon, place, service,
     * the updated time when there is one (the field stays null otherwise), and
     * the scheduled time.
     */
    method SetTransitFields(direction: Direction, icon: Icon, place: string, service: string,
                            newTime: Option<string>, oldTime: string)
      requires direction.newTime == None
      modifies direction`icon, direction`place, direction`service, direction`newTime, direction`oldTime
      ensures direction.icon == icon && direction.place == Some(place) && direction.service == Some(service)
      ensures direction.newTime == newTime && direction.oldTime == Some(oldTime)
    {
      direction.SetIcon(icon);
      direction.SetPlace(Some(place));
      direction.SetService(Some(service));
      if newTime.Some? {
        direction.SetNewTime(newTime);
      }
      direction.SetOldTime(Some(oldTime));
    }

    /** new Direction() followed by setDirectionText and setIcon; every other field keeps its default. */
    method NewStopDirection(icon: Icon, text: string) returns (subDirection: Direction)
      ensures fresh(subDirection) && subDirection.directionText == Some(text) && subDirection.icon == icon
      ensures subDirection.originLatitude == 0.0 && subDirection.originLongitude == 0.0
      ensures subDirection.destinationLatitude == 0.0 && subDirection.destinationLongitude == 0.0
      ensures subDirection.directionIndex == 0 && subDirection.service == None && subDirection.place == None
      ensures subDirection.oldTime == None && subDirection.newTime == None
      ensures !subDirection.isTransit && !subDirection.realTimeInfo && subDirection.subDirections == None
    {
      subDirection := new Direction();
      subDirection.SetDirectionText(Some(text));
      subDirection.SetIcon(icon);
    }

    /** The stops in between of a "get on" direction (intermediate stops, else leg.stop) as numbered sub-directions. */
    method StopsInBetweenDirections(leg: Leg, icon: Icon) returns (subDirections: seq<Direction>)
      requires TransitLegSupported(leg)
      ensures NoDup(subDirections) && (forall s :: s in subDirections ==> fresh(s))
      ensures StopDirections(subDirections, StopsInBetween(leg), icon)
    {
      var stopsInBetween: seq<Place> := [];
      if leg.intermediateStops.Some? && |leg.intermediateStops.value| > 0 {
        stopsInBetween := leg.intermediateStops.value;
      } else if leg.stop.Some? && |leg.stop.value| > 0 {
        stopsInBetween := leg.stop.value;
      }
      assert stopsInBetween == StopsInBetween(leg);
      subDirections := GenerateStopDirections(stopsInBetween, icon);
    }

    /** The loop over the stops in between: one new sub-direction per stop, numbered from 1. */
    method GenerateStopDirections(stopsInBetween: seq<Place>, icon: Icon) returns (subDirections: seq<Direction>)
      requires forall p :: p in stopsInBetween ==> p.stopId.Some?
      ensures NoDup(subDirections) && forall k :: 0 <= k < |subDirections| ==> fresh(subDirections[k])
      ensures StopDirections(subDirections, stopsInBetween, icon)
    {
      subDirections := [];
      var i := 0;
      while i < |stopsInBetween|
        invariant 0 <= i <= |stopsInBetween| && |subDirections| == i && NoDup(subDirections)
        invariant forall k :: 0 <= k < i ==> fresh(subDirections[k])
        invariant forall k :: 0 <= k < i ==> IsStopDirection(subDirections[k], k, stopsInBetween[k], icon)
      {
        subDirections := AppendStopDirection(subDirections, stopsInBetween, icon);
        i := i + 1;
      }
    }

    /** One turn of the stop loop: the next stop's numbered sub-direction is appended. */
    method AppendStopDirection(subDirections: seq<Direction>, stopsInBetween: seq<Place>, icon: Icon)
      returns (result: seq<Direction>)
      requires |subDirections| < |stopsInBetween| && NoDup(subDirections)
      requires forall p :: p in stopsInBetween ==> p.stopId.Some?
      requires forall k :: 0 <= k < |subDirections| ==> IsStopDirection(subDirections[k], k, stopsInBetween[k], icon)
      ensures |result| == |subDirections| + 1 && result[..|subDirections|] == subDirections
      ensures fresh(result[|subDirections|]) && NoDup(result)
      ensures forall k :: 0 <= k < |result| ==> IsStopDirection(result[k], k, stopsInBetween[k], icon)
    {
      var i := |subDirections|;
      var stop := stopsInBetween[i];
      assert stop in stopsInBetween;
      var subDirection := NewStopDirection(icon, StopText(i, stop));
      NoDupAppend(subDirections, subDirection);
      result := subDirections + [subDirection];
      forall k | 0 <= k < |result|
        ensures IsStopDirection(result[k], k, stopsInBetween[k], icon)
      {
        if k < i {
          assert result[k] == subDirections[k];
        }
      }
    }

    /**
     * onOTPGeocodingForOtpGeneratedNameComplete: with a non-empty address list
     * and not in marker mode, every direction and sub-direction at the
     * coordinates has the generated name replaced by the first line of the
     * first address; everything else is left as it was.
     */
    method OnOTPGeocodingForOtpGeneratedNameComplete(
      originalLatitude: real, originalLongitude: real, otpGeneratedString: string,
      walkStep: Option<WalkStep>, place: Option<Place>, addressesReturn: Option<seq<Address>>)
      requires Valid()
      requires addressesReturn.Some? && |addressesReturn.value| > 0 &&
               addressesReturn.value[0].stringAddress.Some? ==>
               HasFirstLine(addressesReturn.value[0].stringAddress.value)
      modifies (set x | x in Flat(directions))`directionText
      ensures Valid()
      ensures var all := old(Flat(directions));
        var before := old(Texts(all));
        if addressesReturn.Some? && |addressesReturn.value| > 0 && !markerMode then
          PatchedUpTo(all, before, old(PatchTargets(all, before, originalLatitude, originalLongitude,
                                                    otpGeneratedString, addressesReturn.value[0].stringAddress)), |all|)
        else PatchedUpTo(all, before, before, 0)
    {
      if addressesReturn.Some? && |addressesReturn.value| > 0 {
        var selectedAddress := addressesReturn.value[0];
        if !markerMode {
          PatchAll(selectedAddress, originalLatitude, originalLongitude, otpGeneratedString);
          return;
        }
        // In marker mode the markers' titles are patched instead; they are not part of this model.
      }
    }

    /** The patch of every listed object, as the non-marker branch of the handler does it. */
    method PatchAll(selectedAddress: Address, originalLatitude: real, originalLongitude: real,
                    otpGeneratedString: string)
      requires Valid()
      requires selectedAddress.stringAddress.Some? ==> HasFirstLine(selectedAddress.stringAddress.value)
      modifies (set x | x in Flat(directions))`directionText
      ensures Valid()
      ensures var all := old(Flat(directions));
        var before := old(Texts(all));
        PatchedUpTo(all, before, old(PatchTargets(all, before, originalLatitude, originalLongitude,
                                                  otpGeneratedString, selectedAddress.stringAddress)), |all|)
    {
      ghost var all := Flat(directions);
      ghost var before := Texts(all);
      ghost var after := PatchTargets(all, before, originalLatitude, originalLongitude, otpGeneratedString,
                                      selectedAddress.stringAddress);
      ghost var subsSeq := SubsSeq(directions);
      FlatBlocks(directions);
      PatchList(directions, subsSeq, all, before, after, selectedAddress, originalLatitude, originalLongitude,
                otpGeneratedString);
      assert SubsSeq(directions) == subsSeq;
      FlatBlocks(directions);
    }

    /** The loop over the directions of the patch, visiting each listed object once, in list order. */
    method PatchList(ds: seq<Direction>, ghost subsSeq: seq<seq<Direction>>, ghost all: seq<Direction>,
                     ghost before: seq<Option<string>>, ghost after: seq<Option<string>>,
                     selectedAddress: Address, originalLatitude: real, originalLongitude: real,
                     otpGeneratedString: string)
      requires |subsSeq| == |ds| && all == Concat(ds, subsSeq) && NoDup(all) && |before| == |all|
      requires forall k :: 0 <= k < |ds| ==> SubsOf(ds[k]) == subsSeq[k]
      requires selectedAddress.stringAddress.Some? ==> HasFirstLine(selectedAddress.stringAddress.value)
      requires after == PatchTargets(all, before, originalLatitude, originalLongitude, otpGeneratedString,
                                     selectedAddress.stringAddress)
      requires PatchedUpTo(all, before, after, 0)
      modifies (set x | x in all)`directionText
      ensures PatchedUpTo(all, before, after, |all|)
    {
      ghost var starts := BlockStarts(subsSeq);
      var i := 0;
      while i < |ds|
        invariant 0 <= i <= |ds|
        invariant after == PatchTargets(all, before, originalLatitude, originalLongitude, otpGeneratedString,
                                        selectedAddress.stringAddress)
        invariant PatchedUpTo(all, before, after, starts[i])
      {
        var direction := ds[i];
        BlockOf(ds, subsSeq, i);
        PatchDirection(direction, subsSeq[i], starts[i], all, before, after, selectedAddress, originalLatitude,
                       originalLongitude, otpGeneratedString);
        i := i + 1;
      }
      ConcatLayout(ds, subsSeq);
    }

    /** The body of the patch loop: one direction, then each of its sub-directions in order. */
    method PatchDirection(direction: Direction, ghost subs: seq<Direction>, ghost start: nat,
                          ghost all: seq<Direction>, ghost before: seq<Option<string>>,
                          ghost after: seq<Option<string>>, selectedAddress: Address,
                          originalLatitude: real, originalLongitude: real, otpGeneratedString: string)
      requires SubsOf(direction) == subs && |all| == |before| && NoDup(all)
      requires BlockAt(all, start, direction, subs)
      requires selectedAddress.stringAddress.Some? ==> HasFirstLine(selectedAddress.stringAddress.value)
      requires after == PatchTargets(all, before, originalLatitude, originalLongitude, otpGeneratedString,
                                     selectedAddress.stringAddress)
      requires PatchedUpTo(all, before, after, start)
      modifies (set x | x in all)`directionText
      ensures PatchedUpTo(all, before, after, start + 1 + |subs|)
      ensures after == PatchTargets(all, before, originalLatitude, originalLongitude, otpGeneratedString,
                                     selectedAddress.stringAddress)
    {
      PatchEntry(direction, start, all, before, after, selectedAddress, originalLatitude, originalLongitude,
                 otpGeneratedString);
      if direction.subDirections.Some? {
        PatchSubDirections(direction.subDirections.value, start + 1, all, before, after, selectedAddress,
                           originalLatitude, originalLongitude, otpGeneratedString);
      }
    }

    /** The inner loop of the patch: each sub-direction of one direction, in order. */
    method PatchSubDirections(subs: seq<Direction>, ghost start: nat, ghost all: seq<Direction>,
                              ghost before: seq<Option<string>>, ghost after: seq<Option<string>>,
                              selectedAddress: Address,
                              originalLatitude: real, originalLongitude: real, otpGeneratedString: string)
      requires start + |subs| <= |all| == |before| && NoDup(all)
      requires forall j :: 0 <= j < |subs| ==> all[start + j] == subs[j]
      requires selectedAddress.stringAddress.Some? ==> HasFirstLine(selectedAddress.stringAddress.value)
      requires after == PatchTargets(all, before, originalLatitude, originalLongitude, otpGeneratedString,
                                     selectedAddress.stringAddress)
      requires PatchedUpTo(all, before, after, start)
      modifies (set x | x in subs)`directionText
      ensures PatchedUpTo(all, before, after, start + |subs|)
      ensures after == PatchTargets(all, before, originalLatitude, originalLongitude, otpGeneratedString,
                                     selectedAddress.stringAddress)
    {
      var j := 0;
      while j < |subs|
        invariant 0 <= j <= |subs|
        invariant after == PatchTargets(all, before, originalLatitude, originalLongitude, otpGeneratedString,
                                        selectedAddress.stringAddress)
        invariant PatchedUpTo(all, before, after, start + j)
      {
        PatchEntry(subs[j], start + j, all, before, after, selectedAddress, originalLatitude,
                   originalLongitude, otpGeneratedString);
        j := j + 1;
      }
    }

    /** One visit of the patch loop: updateDirectionContents on the k-th listed object. */
    method PatchEntry(direction: Direction, ghost k: nat, ghost all: seq<Direction>,
                      ghost before: seq<Option<string>>, ghost after: seq<Option<string>>,
                      selectedAddress: Address,
                      originalLatitude: real, originalLongitude: real, otpGeneratedString: string)
      requires k < |all| == |before| && all[k] == direction && NoDup(all)
      requires selectedAddress.stringAddress.Some? ==> HasFirstLine(selectedAddress.stringAddress.value)
      requires after == PatchTargets(all, before, originalLatitude, originalLongitude, otpGeneratedString,
                                     selectedAddress.stringAddress)
      requires PatchedUpTo(all, before, after, k)
      modifies direction`directionText
      ensures PatchedUpTo(all, before, after, k + 1)
      ensures after == PatchTargets(all, before, originalLatitude, originalLongitude, otpGeneratedString,
                                     selectedAddress.stringAddress)
    {
      PatchTargetAt(all, before, originalLatitude, originalLongitude, otpGeneratedString,
                    selectedAddress.stringAddress, k);
      UpdateDirectionContents(direction, selectedAddress, originalLatitude, originalLongitude, otpGeneratedString);
    }

    /** updateDirectionContents on the text of one direction. */
    method UpdateDirectionContents(direction: Direction, selectedAddress: Address,
                                   originalLatitude: real, originalLongitude: real, otpGeneratedString: string)
      requires selectedAddress.stringAddress.Some? ==> HasFirstLine(selectedAddress.stringAddress.value)
      modifies direction`directionText
      ensures direction.directionText ==
        PatchedText(old(direction.directionText),
                    AtCoordinates(direction.originLatitude, direction.originLongitude,
                                  direction.destinationLatitude, direction.destinationLongitude,
                                  originalLatitude, originalLongitude),
                    otpGeneratedString, selectedAddress.stringAddress)
    {
      if (direction.originLatitude == originalLatitude && direction.originLongitude == originalLongitude)
         || (direction.destinationLatitude == originalLatitude
             && direction.destinationLongitude == originalLongitude)
      {
        if direction.directionText.Some? {
          var newDirectionText := direction.directionText.value;
          if selectedAddress.stringAddress.Some? {
            var newStringAddress := FirstLine(selectedAddress.stringAddress.value);
            newDirectionText := ReplaceAll(newDirectionText, otpGeneratedString, newStringAddress);
            direction.SetDirectionText(Some(newDirectionText));
            // The list adapter's refresh and the renaming of the server's step and
            // place objects are not part of this model.
          }
        }
      }
    }
  }
}
