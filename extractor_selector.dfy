// OmafExtractorSelector: picks the one extractor track whose coverage centre
// is nearest to the viewport the head pose (or a predicted pose) looks at.
//
// The decision logic is stated first as functions on values (a Cursor is the
// selector's pose history together with the last consumed pose); the class
// below updates its fields in place and is proved against those functions.

module ExtractorSelection {
  import opened OmafTypes
  import opened PoseHistory
  import opened PredictPlugins

  /** Two poses closer than this in both yaw and pitch count as the same pose. */
  const POSE_EPSILON: real := 0.001

  function Abs(x: real): real {
    if x < 0.0 then -x else x
  }

  /** IsDifferentPose: false exactly when both yaw and pitch differ by less than POSE_EPSILON. */
  predicate IsDifferentPose(a: Pose, b: Pose)
    ensures IsDifferentPose(a, b) ==> a.yaw != b.yaw || a.pitch != b.pitch
    ensures Abs(a.yaw - b.yaw) >= POSE_EPSILON || Abs(a.pitch - b.pitch) >= POSE_EPSILON ==> IsDifferentPose(a, b)
  {
    !(Abs(a.yaw - b.yaw) < POSE_EPSILON && Abs(a.pitch - b.pitch) < POSE_EPSILON)
  }

  lemma IsDifferentPoseSymmetric(a: Pose, b: Pose)
    ensures IsDifferentPose(a, b) == IsDifferentPose(b, a)
  {
  }

  /** A pose is never different from itself, whatever its timestamp. */
  lemma SamePoseNotDifferent(a: Pose, pts: int)
    ensures !IsDifferentPose(a, a.(pts := pts))
  {
  }

  // ---------------------------------------------------------------------------
  // Nearest-extractor search (GetNearestExtractor)

  predicate Covered(e: Extractor) {
    e.centre.Some?
  }

  /** Squared Euclidean distance between two centres; the source compares the
      square roots, which order the same way. */
  function Distance2(c: Centre, cc: Coverage): nat {
    var da := c.azimuth - cc.centreAzimuth;
    var de := c.elevation - cc.centreElevation;
    da * da + de * de
  }

  function ExtractorDistance(e: Extractor, cc: Coverage): nat
    requires Covered(e)
  {
    Distance2(e.centre.value, cc)
  }

  /** Among the first n extractors, k has coverage, no covered extractor is
      nearer, and every covered extractor before k is strictly farther. */
  ghost predicate FirstNearestIn(exts: seq<Extractor>, cc: Coverage, k: int, n: int)
    requires 0 <= n <= |exts|
  {
    && 0 <= k < n
    && Covered(exts[k])
    && (forall j | 0 <= j < n && Covered(exts[j]) ::
          ExtractorDistance(exts[k], cc) <= ExtractorDistance(exts[j], cc))
    && (forall j | 0 <= j < k && Covered(exts[j]) ::
          ExtractorDistance(exts[k], cc) < ExtractorDistance(exts[j], cc))
  }

  ghost predicate FirstNearest(exts: seq<Extractor>, cc: Coverage, k: int) {
    FirstNearestIn(exts, cc, k, |exts|)
  }

  predicate NoneCovered(exts: seq<Extractor>) {
    forall j | 0 <= j < |exts| :: !Covered(exts[j])
  }

  /** Reference definition of the search, recursing from the back of the
      catalogue: the head wins unless something after it is strictly nearer. */
  function Nearest(exts: seq<Extractor>, cc: Coverage): (r: Option<Extractor>)
    ensures r.Some? ==> r.value in exts && Covered(r.value)
    ensures r.None? <==> NoneCovered(exts)
    decreases |exts|
  {
    if exts == [] then None
    else
      var rest := Nearest(exts[1..], cc);
      if Covered(exts[0]) && (rest.None? || ExtractorDistance(exts[0], cc) <= ExtractorDistance(rest.value, cc))
      then Some(exts[0])
      else
        assert !Covered(exts[0]) ==> forall j | 0 <= j < |exts| && j != 0 :: exts[j] == exts[1..][j - 1];
        rest
  }

  /** The reference search returns the first extractor of minimal distance. */
  lemma {:induction false} NearestIsFirstNearest(exts: seq<Extractor>, cc: Coverage)
    ensures Nearest(exts, cc).Some? ==>
      exists k :: FirstNearest(exts, cc, k) && Nearest(exts, cc) == Some(exts[k])
    decreases |exts|
  {
    if exts != [] {
      var tail := exts[1..];
      var rest := Nearest(tail, cc);
      NearestIsFirstNearest(tail, cc);
      if Covered(exts[0]) && (rest.None? || ExtractorDistance(exts[0], cc) <= ExtractorDistance(rest.value, cc)) {
        forall j | 0 <= j < |exts| && Covered(exts[j])
          ensures ExtractorDistance(exts[0], cc) <= ExtractorDistance(exts[j], cc)
        {
          if j > 0 {
            assert tail[j - 1] == exts[j];
            var k' :| FirstNearest(tail, cc, k') && rest == Some(tail[k']);
          }
        }
        assert FirstNearest(exts, cc, 0);
      } else if rest.Some? {
        var k' :| FirstNearest(tail, cc, k') && rest == Some(tail[k']);
        forall j | 0 <= j < |exts| && Covered(exts[j])
          ensures ExtractorDistance(exts[k' + 1], cc) <= ExtractorDistance(exts[j], cc)
        {
          if j > 0 { assert tail[j - 1] == exts[j]; }
        }
        forall j | 0 <= j < k' + 1 && Covered(exts[j])
          ensures ExtractorDistance(exts[k' + 1], cc) < ExtractorDistance(exts[j], cc)
        {
          if j > 0 { assert tail[j - 1] == exts[j]; }
        }
        assert FirstNearest(exts, cc, k' + 1);
      }
    }
  }

  /** At most one position is the first nearest one: the search is deterministic. */
  lemma FirstNearestUnique(exts: seq<Extractor>, cc: Coverage, k1: int, k2: int)
    requires FirstNearest(exts, cc, k1) && FirstNearest(exts, cc, k2)
    ensures k1 == k2
  {
  }

  /** The extractor map is iterated in ascending key order. */
  predicate KeyOrdered(exts: seq<Extractor>) {
    forall i, j | 0 <= i < j < |exts| :: exts[i].id < exts[j].id
  }

  /** Ties go to the smallest map key. */
  lemma NearestSmallestKey(exts: seq<Extractor>, cc: Coverage, k: int)
    requires KeyOrdered(exts) && FirstNearest(exts, cc, k)
    ensures forall j | 0 <= j < |exts| && Covered(exts[j]) &&
                       ExtractorDistance(exts[j], cc) == ExtractorDistance(exts[k], cc) ::
              exts[k].id <= exts[j].id
  {
  }

  /** GetNearestExtractor: one pass over the extractor map keeping the running
      least distance (FLT_MAX at first, here None: every int32 distance is
      below it) and replacing the choice only on a strictly smaller distance. */
  method GetNearestExtractor(exts: seq<Extractor>, cc: Coverage) returns (selected: Option<Extractor>)
    ensures selected == Nearest(exts, cc)
    ensures selected.None? <==> NoneCovered(exts)
    ensures selected.Some? ==> exists k :: FirstNearest(exts, cc, k) && selected == Some(exts[k])
  {
    selected := None;
    var leastDistance: Option<nat> := None;
    ghost var k := 0;
    for i := 0 to |exts|
      invariant leastDistance.None? <==> selected.None?
      invariant selected.None? ==> forall j | 0 <= j < i :: !Covered(exts[j])
      invariant selected.Some? ==>
        && FirstNearestIn(exts, cc, k, i)
        && selected == Some(exts[k])
        && leastDistance == Some(ExtractorDistance(exts[k], cc))
    {
      match exts[i].centre
      case None =>
      case Some(c) =>
        var distance := Distance2(c, cc);
        if leastDistance.None? || distance < leastDistance.value {
          leastDistance := Some(distance);
          selected := Some(exts[i]);
          k := i;
        }
    }
    NearestIsFirstNearest(exts, cc);
    if selected.Some? {
      ghost var k2 :| FirstNearest(exts, cc, k2) && Nearest(exts, cc) == Some(exts[k2]);
      FirstNearestUnique(exts, cc, k, k2);
    }
  }

  /** SelectExtractor as a value: the geometry library's coverage for the
      direction (None when setViewPort, process or getContentCoverage fails),
      then the nearest extractor to it. */
  function Selection(angle: Angle, exts: seq<Extractor>, coverageOf: Angle -> Option<Coverage>): (r: Option<Extractor>)
    ensures r.Some? ==> r.value in exts && Covered(r.value)
    ensures r.Some? <==> coverageOf(angle).Some? && !NoneCovered(exts)
  {
    match coverageOf(angle)
    case None => None
    case Some(cc) => Nearest(exts, cc)
  }

  method SelectExtractor(angle: Angle, exts: seq<Extractor>, coverageOf: Angle -> Option<Coverage>)
    returns (selected: Option<Extractor>)
    ensures coverageOf(angle).None? ==> selected.None?
    ensures coverageOf(angle).Some? ==> selected == Nearest(exts, coverageOf(angle).value)
    ensures selected.Some? ==> selected.value in exts && Covered(selected.value)
  {
    var cc := coverageOf(angle);
    if cc.None? {
      return None;
    }
    selected := GetNearestExtractor(exts, cc.value);
  }

  // ---------------------------------------------------------------------------
  // One decision cycle, on values

  /** The selector's history (newest first) and the last consumed pose (mPose). */
  datatype Cursor = Cursor(history: seq<PoseInfo>, pose: Option<Pose>)

  /** The hysteresis test: a previous pose exists, the new pose is not
      different from it, and more than one pose remains. */
  predicate HoldsPose(previous: Option<Pose>, next: Pose, remaining: int)
    ensures HoldsPose(previous, next, remaining) ==>
      && previous.Some? && remaining >= 2
      && Abs(previous.value.yaw - next.yaw) < POSE_EPSILON
      && Abs(previous.value.pitch - next.pitch) < POSE_EPSILON
  {
    previous.Some? && !IsDifferentPose(previous.value, next) && remaining > 1
  }

  /** Pop the newest pose into mPose, then select for it unless the hysteresis test holds it. */
  datatype DirectOutcome = DirectOutcome(cursor: Cursor, selected: Option<Extractor>)

  function DirectStep(c: Cursor, exts: seq<Extractor>, coverageOf: Angle -> Option<Coverage>): (o: DirectOutcome)
    ensures o.selected.Some? ==> c.history != [] && o.selected.value in exts && Covered(o.selected.value)
    ensures c.history != [] && coverageOf(AngleOf(c.history[0].pose)).None? ==> o.selected.None?
  {
    if c.history == [] then DirectOutcome(c, None)
    else
      var next := c.history[0].pose;
      var rest := c.history[1..];
      var selected := if HoldsPose(c.pose, next, |rest|) then None else Selection(AngleOf(next), exts, coverageOf);
      DirectOutcome(Cursor(rest, Some(next)), selected)
  }

  /** GetExtractorByPose: an empty history is left as it is and yields
      nothing; otherwise exactly the front pose is consumed into mPose. */
  lemma DirectStepConsumesFront(c: Cursor, exts: seq<Extractor>, coverageOf: Angle -> Option<Coverage>)
    ensures c.history == [] ==> DirectStep(c, exts, coverageOf) == DirectOutcome(c, None)
    ensures c.history != [] ==>
      DirectStep(c, exts, coverageOf).cursor == Cursor(c.history[1..], Some(c.history[0].pose))
  {
  }

  /** Without a previous pose, with a moved pose, or with at most one pose
      left after the pop, the geometry step runs for the popped pose;
      otherwise (an unchanged pose with more left) the cycle is held. */
  lemma DirectStepHysteresis(c: Cursor, exts: seq<Extractor>, coverageOf: Angle -> Option<Coverage>)
    requires c.history != []
    ensures (c.pose.None? || |c.history| <= 2) ==>
      DirectStep(c, exts, coverageOf).selected == Selection(AngleOf(c.history[0].pose), exts, coverageOf)
    ensures c.pose.Some? && IsDifferentPose(c.pose.value, c.history[0].pose) ==>
      DirectStep(c, exts, coverageOf).selected == Selection(AngleOf(c.history[0].pose), exts, coverageOf)
    ensures c.pose.Some? && !IsDifferentPose(c.pose.value, c.history[0].pose) && |c.history| > 2 ==>
      DirectStep(c, exts, coverageOf).selected.None?
  {
  }

  /** The plugin is given the history oldest first. */
  function OldestFirst(h: seq<PoseInfo>): (r: seq<Angle>)
    ensures |r| == |h|
    ensures forall i | 0 <= i < |h| :: r[i] == AngleOf(h[|h| - 1 - i].pose)
  {
    seq(|h|, i requires 0 <= i < |h| => AngleOf(h[|h| - 1 - i].pose))
  }

  datatype PredictOutcome = PredictOutcome(cursor: Cursor, extractors: seq<Extractor>, threw: bool)

  /** GetExtractorByPosePrediction as a value. */
  function PredictStep(c: Cursor, plugins: map<string, PluginHandle>, name: string,
                       exts: seq<Extractor>, coverageOf: Angle -> Option<Coverage>,
                       predict: (PluginHandle, seq<Angle>) -> Option<Angle>): (o: PredictOutcome)
    ensures |o.extractors| <= 1
    ensures forall e | e in o.extractors :: e in exts && Covered(e)
    ensures o.threw ==> o.cursor == c && o.extractors == []
  {
    if |c.history| <= 1 || plugins == map[] then PredictOutcome(c, [], false)
    else if name !in plugins then PredictOutcome(c, [], true)
    else
      var predicted := predict(plugins[name], OldestFirst(c.history));
      if predicted.None? then PredictOutcome(c, [], false)
      else
        var next := c.history[0].pose;
        var after := Cursor(c.history[1..], Some(next));
        if HoldsPose(c.pose, next, |c.history|) then PredictOutcome(after, [], false)
        else
          var selected := Selection(predicted.value, exts, coverageOf);
          PredictOutcome(after, if selected.Some? && c.pose.Some? then [selected.value] else [], false)
  }

  /** The prediction step consumes nothing when the history holds at most one
      pose, no plugin is registered, or the plugin predicts nothing; it yields
      at most one extractor, and only when a previous pose existed; when the
      pose has moved, that extractor is the nearest one for the predicted
      angle, not for the popped pose. */
  lemma PredictStepShape(c: Cursor, plugins: map<string, PluginHandle>, name: string,
                         exts: seq<Extractor>, coverageOf: Angle -> Option<Coverage>,
                         predict: (PluginHandle, seq<Angle>) -> Option<Angle>)
    ensures var o := PredictStep(c, plugins, name, exts, coverageOf, predict);
      && |o.extractors| <= 1
      && (o.extractors != [] ==> c.pose.Some? && o.extractors[0] in exts)
      && ((|c.history| <= 1 || plugins == map[]) ==> o == PredictOutcome(c, [], false))
      && (o.threw <==> |c.history| > 1 && plugins != map[] && name !in plugins)
      && (o.cursor != c ==> o.cursor == Cursor(c.history[1..], Some(c.history[0].pose)))
    ensures |c.history| > 1 && name in plugins && predict(plugins[name], OldestFirst(c.history)).None? ==>
      PredictStep(c, plugins, name, exts, coverageOf, predict) == PredictOutcome(c, [], false)
    ensures |c.history| > 1 && name in plugins && c.pose.Some? &&
            IsDifferentPose(c.pose.value, c.history[0].pose) &&
            predict(plugins[name], OldestFirst(c.history)).Some? ==>
      var sel := Selection(predict(plugins[name], OldestFirst(c.history)).value, exts, coverageOf);
      PredictStep(c, plugins, name, exts, coverageOf, predict).extractors == (if sel.Some? then [sel.value] else [])
  {
  }

  /** In the prediction step the hysteresis gate counts the history before the
      pop, which always holds at least two poses there: an unchanged pose is
      held even when a single pose is left after the pop. */
  lemma PredictGateAlwaysOpen(c: Cursor, plugins: map<string, PluginHandle>, name: string,
                              exts: seq<Extractor>, coverageOf: Angle -> Option<Coverage>,
                              predict: (PluginHandle, seq<Angle>) -> Option<Angle>)
    requires |c.history| >= 2 && plugins != map[] && name in plugins
    requires predict(plugins[name], OldestFirst(c.history)).Some?
    requires c.pose.Some? && !IsDifferentPose(c.pose.value, c.history[0].pose)
    ensures PredictStep(c, plugins, name, exts, coverageOf, predict).extractors == []
    ensures PredictStep(c, plugins, name, exts, coverageOf, predict).cursor.history == c.history[1..]
  {
  }

  datatype CycleOutcome = CycleOutcome(cursor: Cursor, selected: Option<Extractor>, threw: bool)

  /** The first half of SelectExtractors: which extractor, if any, this cycle chooses. */
  function CycleChoice(c: Cursor, usePrediction: bool, poseSize: nat,
                       plugins: map<string, PluginHandle>, name: string,
                       exts: seq<Extractor>, coverageOf: Angle -> Option<Coverage>,
                       predict: (PluginHandle, seq<Angle>) -> Option<Angle>): (o: CycleOutcome)
    ensures o.threw ==> usePrediction && o.selected.None? && o.cursor == c
    ensures o.selected.Some? ==> o.selected.value in exts
  {
    if !usePrediction then
      var d := DirectStep(c, exts, coverageOf);
      CycleOutcome(d.cursor, d.selected, false)
    else
      var p := PredictStep(c, plugins, name, exts, coverageOf, predict);
      if p.threw then CycleOutcome(p.cursor, None, true)
      else if p.extractors != [] then CycleOutcome(p.cursor, Some(p.extractors[0]), false)
      else if |p.cursor.history| < poseSize then
        var d := DirectStep(p.cursor, exts, coverageOf);
        CycleOutcome(d.cursor, d.selected, false)
      else CycleOutcome(p.cursor, None, false)
  }

  /** In prediction mode an empty prediction falls back to the direct path
      only while the history is shorter than POSE_SIZE. */
  lemma PredictionFallback(c: Cursor, poseSize: nat, plugins: map<string, PluginHandle>, name: string,
                           exts: seq<Extractor>, coverageOf: Angle -> Option<Coverage>,
                           predict: (PluginHandle, seq<Angle>) -> Option<Angle>)
    ensures var p := PredictStep(c, plugins, name, exts, coverageOf, predict);
      var o := CycleChoice(c, true, poseSize, plugins, name, exts, coverageOf, predict);
      !p.threw && p.extractors == [] && |p.cursor.history| >= poseSize ==>
        o == CycleOutcome(p.cursor, None, false)
    ensures var p := PredictStep(c, plugins, name, exts, coverageOf, predict);
      var o := CycleChoice(c, true, poseSize, plugins, name, exts, coverageOf, predict);
      !p.threw && p.extractors == [] && |p.cursor.history| < poseSize ==>
        o.selected == DirectStep(p.cursor, exts, coverageOf).selected
  {
  }

  /** The chosen extractor is always one of the stream's covered extractors. */
  lemma CycleChoiceFromCatalogue(c: Cursor, usePrediction: bool, poseSize: nat,
                                 plugins: map<string, PluginHandle>, name: string,
                                 exts: seq<Extractor>, coverageOf: Angle -> Option<Coverage>,
                                 predict: (PluginHandle, seq<Angle>) -> Option<Angle>)
    ensures var o := CycleChoice(c, usePrediction, poseSize, plugins, name, exts, coverageOf, predict);
      o.selected.Some? ==> o.selected.value in exts && Covered(o.selected.value)
    ensures CycleChoice(c, usePrediction, poseSize, plugins, name, exts, coverageOf, predict).threw ==>
      CycleChoice(c, usePrediction, poseSize, plugins, name, exts, coverageOf, predict).cursor == c
  {
    PredictStepShape(c, plugins, name, exts, coverageOf, predict);
  }

  // ---------------------------------------------------------------------------
  // Adoption and switch detection (the second half of SelectExtractors)

  datatype Adoption = Adoption(current: Option<Extractor>, changed: bool)

  function Adopt(current: Option<Extractor>, selected: Option<Extractor>): (a: Adoption)
    ensures selected.None? ==> a == Adoption(current, false)
    ensures a.changed ==> a.current == selected && a.current != current
    ensures a.current.Some? <==> current.Some? || selected.Some?
  {
    Adoption(if selected.Some? then selected else current,
             current.Some? && selected.Some? && current != selected)
  }

  /** A set selection is never cleared, and the first adoption is not a switch. */
  lemma AdoptSticky(current: Option<Extractor>, selected: Option<Extractor>)
    ensures current.Some? ==> Adopt(current, selected).current.Some?
    ensures current.None? ==> !Adopt(current, selected).changed
    ensures Adopt(current, selected).changed <==>
      current.Some? && Adopt(current, selected).current.Some? && Adopt(current, selected).current != current
  {
  }

  /** The selection after a run of cycles whose choices are `choices`. */
  function AdoptAll(current: Option<Extractor>, choices: seq<Option<Extractor>>): Option<Extractor>
    decreases |choices|
  {
    if choices == [] then current else AdoptAll(Adopt(current, choices[0]).current, choices[1..])
  }

  /** How many of those cycles signal a switch. */
  function Switches(current: Option<Extractor>, choices: seq<Option<Extractor>>): nat
    decreases |choices|
  {
    if choices == [] then 0
    else
      var a := Adopt(current, choices[0]);
      (if a.changed then 1 else 0) + Switches(a.current, choices[1..])
  }

  /** Once adopted, a selection survives any run of cycles. */
  lemma {:induction false} StickyAcrossCycles(current: Option<Extractor>, choices: seq<Option<Extractor>>)
    requires current.Some?
    ensures AdoptAll(current, choices).Some?
    decreases |choices|
  {
    if choices != [] {
      StickyAcrossCycles(Adopt(current, choices[0]).current, choices[1..]);
    }
  }

  /** Cycles that keep choosing the same extractor (or nothing) switch at most
      once, and not at all when that extractor is already current or nothing
      was current. */
  lemma {:induction false} RepeatedChoiceSwitchesAtMostOnce(current: Option<Extractor>,
                                                            choices: seq<Option<Extractor>>, e: Extractor)
    requires forall i | 0 <= i < |choices| :: choices[i] == None || choices[i] == Some(e)
    ensures Switches(current, choices) <= (if current.Some? && current != Some(e) then 1 else 0)
    decreases |choices|
  {
    if choices != [] {
      var a := Adopt(current, choices[0]);
      RepeatedChoiceSwitchesAtMostOnce(a.current, choices[1..], e);
    }
  }

  /** The example of two extractors centred at (0,0) and (90,0): a view
      centred at (2,0) picks the first, one centred at (88,0) the second, and
      moving from the first to the second is a switch. */
  lemma TwoExtractorSwitch(cov1: Coverage, cov2: Coverage)
    requires cov1.centreAzimuth == 2 && cov1.centreElevation == 0
    requires cov2.centreAzimuth == 88 && cov2.centreElevation == 0
    ensures var c1 := Extractor(1, 11, Some(Centre(0, 0)));
      var c2 := Extractor(2, 12, Some(Centre(90, 0)));
      && Nearest([c1, c2], cov1) == Some(c1)
      && Nearest([c1, c2], cov2) == Some(c2)
      && Adopt(Some(c1), Some(c2)) == Adoption(Some(c2), true)
  {
    var c1 := Extractor(1, 11, Some(Centre(0, 0)));
    var c2 := Extractor(2, 12, Some(Centre(90, 0)));
    assert [c1, c2][1..] == [c2];
    assert [c2][1..] == [];
  }

  // ---------------------------------------------------------------------------
  // The selector object

  class ExtractorSelector {
    const size: int                        // mSize
    const poseSize: nat                    // POSE_SIZE
    var history: seq<PoseInfo>             // mPoseHistory, newest first
    var pose: Option<Pose>                 // mPose
    var current: Option<Extractor>         // mCurrentExtractor
    var usePrediction: bool                // mUsePrediction
    var pluginName: string                 // mPredictPluginName
    var libPath: string                    // mLibPath
    var plugins: map<string, PluginHandle> // mPredictPluginMap
    var param: Option<ViewportParam>       // mParamViewport
    var geometryReady: bool                // m360ViewPortHandle != nullptr

    ghost predicate Valid()
      reads this
    {
      IsInt32(size) && |history| <= Capacity(size)
    }

    constructor (size: int, poseSize: nat)
      requires IsInt32(size)
      ensures Valid() && this.size == size && this.poseSize == poseSize
      ensures history == [] && pose == None && current == None
      ensures !usePrediction && pluginName == [] && libPath == [] && plugins == map[]
      ensures param == None && !geometryReady
    {
      this.size := size;
      this.poseSize := poseSize;
      history := [];
      pose := None;
      current := None;
      usePrediction := false;
      pluginName := [];
      libPath := [];
      plugins := map[];
      param := None;
      geometryReady := false;
    }

    /** UpdateViewport: a missing pose is rejected; otherwise a copy stamped
        with the current time goes to the front and the oldest entry is
        evicted if the history overflows. */
    method UpdateViewport(p: Option<Pose>, now: int) returns (status: Status)
      requires Valid()
      modifies this`history
      ensures Valid()
      ensures p.None? ==> status == ErrorNullPtr && history == old(history)
      ensures p.Some? ==> status == ErrorNone && history == Push(old(history), PoseInfo(p.value, now), Capacity(size))
    {
      if p.None? {
        return ErrorNullPtr;
      }
      var pushed := [PoseInfo(p.value, now)] + history;
      if |pushed| > Capacity(size) {
        pushed := pushed[..|pushed| - 1];
      }
      history := pushed;
      status := ErrorNone;
    }

    /** SetInitialViewport: the FOV and the viewport size must be non-zero;
        the geometry library is then initialised (`initGeometry` stands for
        I360SCVP_Init succeeding) and the initial pose becomes both mPose and
        the newest history entry. */
    method SetInitialViewport(headSet: Option<HeadSetInfo>, stream: StreamLayout, now: int,
                              initGeometry: ViewportParam -> bool) returns (status: Status)
      requires Valid()
      modifies this`param, this`geometryReady, this`pose, this`history
      ensures Valid()
      ensures !ViewportConfigured(headSet) ==> status == ErrorInvalid && unchanged(this)
      ensures ViewportConfigured(headSet) ==>
        && param == Some(InitialParam(headSet.value, stream))
        && geometryReady == initGeometry(param.value)
      ensures ViewportConfigured(headSet) && !geometryReady ==>
        status == ErrorNullPtr && pose == old(pose) && history == old(history)
      ensures ViewportConfigured(headSet) && geometryReady ==>
        && status == ErrorNone
        && pose == Some(headSet.value.pose)
        && history == Push(old(history), PoseInfo(headSet.value.pose, now), Capacity(size))
    {
      if !ViewportConfigured(headSet) {
        return ErrorInvalid;
      }
      var hs := headSet.value;
      param := Some(InitialParam(hs, stream));
      geometryReady := initGeometry(param.value);
      if !geometryReady {
        return ErrorNullPtr;
      }
      pose := Some(hs.pose);
      status := UpdateViewport(pose, now);
    }

    /** GetExtractorByPose, proved against DirectStep. */
    method GetExtractorByPose(exts: seq<Extractor>, coverageOf: Angle -> Option<Coverage>)
      returns (selected: Option<Extractor>)
      requires Valid()
      modifies this`history, this`pose
      ensures Valid()
      ensures DirectStep(Cursor(old(history), old(pose)), exts, coverageOf)
              == DirectOutcome(Cursor(history, pose), selected)
    {
      if history == [] {
        return None;
      }
      var previous := pose;
      pose := Some(history[0].pose);
      history := history[1..];
      var historySize := |history|;
      if HoldsPose(previous, pose.value, historySize) {
        return None;
      }
      selected := SelectExtractor(AngleOf(pose.value), exts, coverageOf);
    }

    /** GetExtractorByPosePrediction, proved against PredictStep. The loop
        builds the plugin's input by pushing each angle at the front, so the
        oldest pose comes first. */
    method GetExtractorByPosePrediction(exts: seq<Extractor>, coverageOf: Angle -> Option<Coverage>,
                                        predict: (PluginHandle, seq<Angle>) -> Option<Angle>)
      returns (extractors: seq<Extractor>, threw: bool)
      requires Valid()
      modifies this`history, this`pose
      ensures Valid()
      ensures PredictStep(Cursor(old(history), old(pose)), plugins, pluginName, exts, coverageOf, predict)
              == PredictOutcome(Cursor(history, pose), extractors, threw)
    {
      extractors, threw := [], false;
      if |history| <= 1 || plugins == map[] {
        return;
      }
      if pluginName !in plugins {
        threw := true;
        return;
      }
      var plugin := plugins[pluginName];
      var poseHistory: seq<Angle> := [];
      for i := 0 to |history|
        invariant poseHistory == OldestFirst(history[..i])
      {
        poseHistory := [AngleOf(history[i].pose)] + poseHistory;
      }
      assert history[..|history|] == history;
      var predicted := predict(plugin, poseHistory);
      if predicted.None? {
        return;
      }
      var previous := pose;
      pose := Some(history[0].pose);
      history := history[1..];
      if HoldsPose(previous, pose.value, |poseHistory|) {
        return;
      }
      var selected := SelectExtractor(predicted.value, exts, coverageOf);
      if selected.Some? && previous.Some? {
        extractors := [selected.value];
      }
    }

    /** SelectExtractors: choose this cycle's extractor, keep the previous
        one when nothing is chosen, and hand the single current extractor
        downstream (`removed` is the track list given to
        RemoveTrackFromPacketQueue, `enabled` the list given to
        UpdateEnabledExtractors, whose result `updateEnabled` models). */
    method SelectExtractors(exts: seq<Extractor>, coverageOf: Angle -> Option<Coverage>,
                            predict: (PluginHandle, seq<Angle>) -> Option<Angle>,
                            updateEnabled: seq<Extractor> -> Status)
      returns (status: Status, removed: Option<seq<int>>, enabled: Option<seq<Extractor>>)
      requires Valid()
      modifies this`history, this`pose, this`current
      ensures Valid()
      ensures old(current).Some? ==> current.Some?
      ensures var o := CycleChoice(Cursor(old(history), old(pose)), usePrediction, poseSize,
                                   plugins, pluginName, exts, coverageOf, predict);
        && Cursor(history, pose) == o.cursor
        && (o.threw ==> status == OutOfRange && current == old(current) && removed.None? && enabled.None?)
        && (!o.threw && o.selected.None? && old(current).None? ==>
              status == ErrorNullPtr && current.None? && removed.None? && enabled.None?)
        && (!o.threw && (o.selected.Some? || old(current).Some?) ==>
              var a := Adopt(old(current), o.selected);
              && current == a.current
              && current.Some?
              && enabled == Some([current.value])
              && removed == (if a.changed then Some([current.value.trackNumber]) else None)
              && status == updateEnabled([current.value]))
    {
      var selected: Option<Extractor> := None;
      removed, enabled := None, None;
      if usePrediction {
        var predicted, threw := GetExtractorByPosePrediction(exts, coverageOf, predict);
        if threw {
          return OutOfRange, None, None;
        }
        if predicted == [] {
          if |history| < poseSize {
            selected := GetExtractorByPose(exts, coverageOf);
          }
        } else {
          selected := Some(predicted[0]);
        }
      } else {
        selected := GetExtractorByPose(exts, coverageOf);
      }

      if selected.None? && current.None? {
        return ErrorNullPtr, None, None;
      }
      var changed := current.Some? && selected.Some? && current != selected;
      current := if selected.Some? then selected else current;
      var list := [current.value];
      if changed || |list| > 1 {
        var trackIds := [];
        for i := 0 to |list|
          invariant trackIds == seq(i, j requires 0 <= j < i => list[j].trackNumber)
        {
          trackIds := trackIds + [list[i].trackNumber];
        }
        assert trackIds == [current.value.trackNumber];
        removed := Some(trackIds);
      }
      enabled := Some(list);
      status := updateEnabled(list);
    }

    /** InitializePredictPlugins, proved against Register. */
    method InitializePredictPlugins(load: string -> Status) returns (status: Status)
      modifies this`plugins
      ensures Register(old(plugins), libPath, pluginName, load) == Registration(status, plugins)
    {
      if libPath == [] || pluginName == [] {
        return ErrorInvalid;
      }
      var pluginPath := libPath + pluginName;
      var ret := load(pluginPath);
      if ret != ErrorNone {
        return ret;
      }
      if pluginName !in plugins {
        plugins := plugins[pluginName := PluginHandle(pluginPath)];
      }
      status := ErrorNone;
    }
  }

  /** The check that opens SetInitialViewport. */
  predicate ViewportConfigured(headSet: Option<HeadSetInfo>)
    ensures ViewportConfigured(headSet) ==>
      headSet.Some? && headSet.value.width > 0 && headSet.value.height > 0
  {
    headSet.Some? && headSet.value.hFOV != 0.0 && headSet.value.vFOV != 0.0
    && headSet.value.width != 0 && headSet.value.height != 0
  }

  /** The 360SCVP parameters SetInitialViewport fills: viewport from the head
      set, tile grid and face size from the stream's high-resolution layout. */
  function InitialParam(hs: HeadSetInfo, stream: StreamLayout): (p: ViewportParam)
    ensures p.view == Some(SphereView(hs.pose.yaw, hs.pose.pitch, hs.hFOV, hs.vFOV))
    ensures p.tiles == Some(TileGrid(stream.rows, stream.cols))
    ensures p.face == Some(FaceSize(stream.highResWidth, stream.highResHeight))
    ensures p.geoIn == Declared(hs.inputGeoType) && p.geoOut == Declared(hs.outputGeoType)
  {
    ViewportParam(hs.width, hs.height,
                  Some(SphereView(hs.pose.yaw, hs.pose.pitch, hs.hFOV, hs.vFOV)),
                  Declared(hs.inputGeoType), Declared(hs.outputGeoType),
                  Some(TileGrid(stream.rows, stream.cols)),
                  Some(FaceSize(stream.highResWidth, stream.highResHeight)),
                  None, None)
  }

  /** A head set with a zero field of view or a zero viewport size is rejected. */
  lemma ZeroFovRejected(hs: HeadSetInfo)
    ensures hs.hFOV == 0.0 || hs.vFOV == 0.0 || hs.width == 0 || hs.height == 0 ==>
      !ViewportConfigured(Some(hs))
    ensures !ViewportConfigured(None)
  {
  }
}
