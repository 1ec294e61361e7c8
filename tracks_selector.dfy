// OmafTracksSelector: the base selector that validates the viewport
// configuration per projection format, derives the 360SCVP parameters,
// keeps the bounded pose history and feeds the prediction plugin.

module TracksSelection {
  import opened OmafTypes
  import opened PoseHistory
  import opened PredictPlugins

  // ---------------------------------------------------------------------------
  // Viewport configuration

  /** The checks that open SetInitialViewport. Equirectangular and cubemap
      need a non-zero field of view and viewport size; planar needs a
      non-zero viewport size and at least one quality level, and no FOV. */
  predicate ViewportAccepted(proj: Projection, headSet: Option<HeadSetInfo>, qualityCount: nat)
    ensures ViewportAccepted(proj, headSet, qualityCount) ==>
      headSet.Some? && headSet.value.width > 0 && headSet.value.height > 0
    ensures ViewportAccepted(proj, headSet, qualityCount) && proj == Planar ==> qualityCount > 0
  {
    if proj != Planar then
      headSet.Some? && headSet.value.hFOV != 0.0 && headSet.value.vFOV != 0.0
      && headSet.value.width != 0 && headSet.value.height != 0
    else
      headSet.Some? && headSet.value.width != 0 && headSet.value.height != 0 && qualityCount != 0
  }

  /** The FOV is not looked at for planar video, and the quality levels only for planar video. */
  lemma ViewportAcceptedPerProjection(proj: Projection, hs: HeadSetInfo, qualityCount: nat, fovH: real, fovV: real)
    ensures ViewportAccepted(Planar, Some(hs), qualityCount)
            == ViewportAccepted(Planar, Some(hs.(hFOV := fovH, vFOV := fovV)), qualityCount)
    ensures proj != Planar ==> ViewportAccepted(proj, Some(hs), qualityCount) == ViewportAccepted(proj, Some(hs), 0)
    ensures proj != Planar && (fovH == 0.0 || fovV == 0.0) ==>
              !ViewportAccepted(proj, Some(hs.(hFOV := fovH, vFOV := fovV)), qualityCount)
    ensures !ViewportAccepted(Planar, Some(hs), 0) && !ViewportAccepted(proj, None, qualityCount)
    ensures hs.width == 0 || hs.height == 0 ==> !ViewportAccepted(proj, Some(hs), qualityCount)
  {
  }

  function SphereViewOf(hs: HeadSetInfo): SphereView {
    SphereView(hs.pose.yaw, hs.pose.pitch, hs.hFOV, hs.vFOV)
  }

  /** Equirectangular: one face, the stream's tile grid and high-resolution size. */
  function ErpParam(hs: HeadSetInfo, stream: StreamLayout): (p: ViewportParam)
    ensures p.layout == Some(FrameLayout(1, 1, map[(0, 0) := FaceDesc(0, None)]))
    ensures p.geoIn == Equirect && p.geoOut == ViewportOutput
    ensures p.tiles == Some(TileGrid(stream.rows, stream.cols))
    ensures p.face == Some(FaceSize(stream.highResWidth, stream.highResHeight))
  {
    ViewportParam(hs.width, hs.height, Some(SphereViewOf(hs)),
                  GeometryOf(Erp), ViewportOutput,
                  Some(TileGrid(stream.rows, stream.cols)),
                  Some(FaceSize(stream.highResWidth, stream.highResHeight)),
                  Some(FrameLayout(1, 1, map[(0, 0) := FaceDesc(0, None)])),
                  None)
  }

  /** The cubemap face layout: three columns by two rows, faces numbered
      0..5 in row-major order; only face (0,0) carries the face size. */
  function CubemapLayout(face: FaceSize): (l: FrameLayout)
    ensures l.cols == 3 && l.rows == 2
    ensures forall r: nat, c: nat | r < 2 && c < 3 :: (r, c) in l.faces && l.faces[(r, c)].id == 3 * r + c
    ensures forall key | key in l.faces :: key.0 < 2 && key.1 < 3
    ensures forall key | key in l.faces :: l.faces[key].size == (if key == (0, 0) then Some(face) else None)
  {
    FrameLayout(3, 2, map[(0, 0) := FaceDesc(0, Some(face)), (0, 1) := FaceDesc(1, None),
                          (0, 2) := FaceDesc(2, None), (1, 0) := FaceDesc(3, None),
                          (1, 1) := FaceDesc(4, None), (1, 2) := FaceDesc(5, None)])
  }

  /** Cubemap: the stream's tiles and high-resolution frame are split into
      the 3 x 2 face grid (integer division drops the remainder). */
  function CubemapParam(hs: HeadSetInfo, stream: StreamLayout): (p: ViewportParam)
    ensures p.geoIn == Cubemap && p.geoOut == ViewportOutput
    ensures p.tiles.Some? && p.face.Some? && p.layout == Some(CubemapLayout(p.face.value))
    ensures 2 * p.tiles.value.rows <= stream.rows < 2 * p.tiles.value.rows + 2
    ensures 3 * p.tiles.value.cols <= stream.cols < 3 * p.tiles.value.cols + 3
    ensures 3 * p.face.value.width <= stream.highResWidth < 3 * p.face.value.width + 3
    ensures 2 * p.face.value.height <= stream.highResHeight < 2 * p.face.value.height + 2
  {
    var face := FaceSize(stream.highResWidth / 3, stream.highResHeight / 2);
    ViewportParam(hs.width, hs.height, Some(SphereViewOf(hs)),
                  GeometryOf(CubeMap), ViewportOutput,
                  Some(TileGrid(stream.rows / 2, stream.cols / 3)),
                  Some(face), Some(CubemapLayout(face)), None)
  }

  /** The position of the last quality level ranked 1, if any. */
  function LastRankOne(infos: seq<QualityInfo>): (r: Option<nat>)
    ensures r.None? <==> forall i | 0 <= i < |infos| :: infos[i].ranking != 1
    ensures r.Some? ==> r.value < |infos| && infos[r.value].ranking == 1
    ensures r.Some? ==> forall j | r.value < j < |infos| :: infos[j].ranking != 1
    decreases |infos|
  {
    if infos == [] then None
    else if infos[|infos| - 1].ranking == 1 then Some(|infos| - 1)
    else LastRankOne(infos[..|infos| - 1])
  }

  /** The planar face size: the original size of the last level ranked 1. */
  function FaceOf(infos: seq<QualityInfo>): (r: Option<FaceSize>)
    ensures r.None? <==> forall i | 0 <= i < |infos| :: infos[i].ranking != 1
    ensures r.Some? ==> exists i | 0 <= i < |infos| ::
      && infos[i].ranking == 1
      && r.value == FaceSize(infos[i].origWidth, infos[i].origHeight)
      && (forall j | i < j < |infos| :: infos[j].ranking != 1)
  {
    match LastRankOne(infos)
    case None => None
    case Some(i) => Some(FaceSize(infos[i].origWidth, infos[i].origHeight))
  }

  /** Extending the levels by one: a level ranked 1 becomes the face size, any
      other level leaves it as it was. */
  lemma FaceOfStep(infos: seq<QualityInfo>, i: nat)
    requires i < |infos|
    ensures FaceOf(infos[..i + 1]) ==
      if infos[i].ranking == 1 then Some(FaceSize(infos[i].origWidth, infos[i].origHeight))
      else FaceOf(infos[..i])
  {
    assert infos[..i + 1][..i] == infos[..i];
  }

  /** One stream-info entry copies a level's original (frame) and region (tile) size. */
  function Entry(q: QualityInfo): (e: StreamInfo)
    ensures FaceSize(e.frameWidth, e.frameHeight) == FaceSize(q.origWidth, q.origHeight)
    ensures e.tileWidth == q.regionWidth && e.tileHeight == q.regionHeight
  {
    StreamInfo(q.origWidth, q.origHeight, q.regionWidth, q.regionHeight)
  }

  /** The intended stream-info table: one entry per quality level, in order. */
  function StreamTable(infos: seq<QualityInfo>): (t: seq<StreamInfo>)
    ensures |t| == |infos|
    ensures forall i | 0 <= i < |infos| :: t[i] == Entry(infos[i])
  {
    seq(|infos|, i requires 0 <= i < |infos| => Entry(infos[i]))
  }

  /** std::map::insert: an existing key keeps its value. */
  function Insert(m: map<int, int>, k: int, v: int): (r: map<int, int>)
    ensures r.Keys == m.Keys + {k}
    ensures forall j | j in m :: r[j] == m[j]
    ensures k !in m ==> r[k] == v
  {
    if k in m then m else m[k := v]
  }

  /** mTwoDStreamQualityMap after inserting (i, ranking of level i) for i < n. */
  function WithRankings(m: map<int, int>, infos: seq<QualityInfo>, n: nat): (r: map<int, int>)
    requires n <= |infos|
    ensures forall k | k in m :: k in r && r[k] == m[k]
  {
    if n == 0 then m else Insert(WithRankings(m, infos, n - 1), n - 1, infos[n - 1].ranking)
  }

  /** Every index below n is mapped to its level's ranking unless it was
      already present, and nothing else is added or changed. */
  lemma {:induction false} WithRankingsContent(m: map<int, int>, infos: seq<QualityInfo>, n: nat)
    requires n <= |infos|
    ensures forall k :: k in WithRankings(m, infos, n) <==> k in m || 0 <= k < n
    ensures forall k | k in WithRankings(m, infos, n) ::
      WithRankings(m, infos, n)[k] == if k in m then m[k] else infos[k].ranking
  {
    if n > 0 {
      WithRankingsContent(m, infos, n - 1);
    }
  }

  /** The planar 360SCVP parameters: no sphere view, no tile grid, a 1 x 1
      frame with no face descriptions, and the planar sources. */
  function PlanarParam(hs: HeadSetInfo, resolutionNum: nat, segmentDur: int, face: Option<FaceSize>,
                       scvpPluginPath: Option<string>): (p: ViewportParam)
    ensures MissingScvpPlugin(p) <==> scvpPluginPath.None?
    ensures p.planar.Some? && p.planar.value.resolutionNum == resolutionNum
    ensures p.view.None? && p.tiles.None? && p.face == face
  {
    ViewportParam(hs.width, hs.height, None, PlanarVideo, ViewportOutput, None,
                  face, Some(FrameLayout(1, 1, map[])),
                  Some(PlanarSources(resolutionNum, segmentDur, scvpPluginPath)))
  }

  /** The parameters SetInitialViewport fills for each projection. */
  function BuildParam(proj: Projection, hs: HeadSetInfo, stream: StreamLayout, infos: seq<QualityInfo>,
                      segmentDur: int, scvpPluginPath: Option<string>): (p: ViewportParam)
    ensures proj == Planar <==> p.planar.Some?
    ensures proj == Planar ==> p.planar.value == PlanarSources(|infos|, segmentDur, scvpPluginPath)
    ensures proj == Planar ==> p.view.None? && p.tiles.None? && p.face == FaceOf(infos)
    ensures proj != Planar ==> p.view == Some(SphereViewOf(hs)) && p.geoIn == GeometryOf(proj)
    ensures p.width == hs.width && p.height == hs.height && p.geoOut == ViewportOutput
  {
    match proj
    case Erp => ErpParam(hs, stream)
    case CubeMap => CubemapParam(hs, stream)
    case Planar => PlanarParam(hs, |infos|, segmentDur, FaceOf(infos), scvpPluginPath)
  }

  /** Planar video needs a 360SCVP plugin library before the geometry library is initialised. */
  predicate MissingScvpPlugin(p: ViewportParam)
    ensures MissingScvpPlugin(p) ==> p.planar.Some?
  {
    p.planar.Some? && p.planar.value.pluginLibPath.None?
  }

  /** The planar loop of SetInitialViewport: allocate one stream-info entry
      per quality level, copy each level's frame and tile size into it, insert
      (index, ranking) into the quality map and remember the size of the last
      level ranked 1. The index is unbounded here (see WrappedTable). */
  method FillStreamTable(infos: seq<QualityInfo>, qualityMap: map<int, int>)
    returns (table: array<StreamInfo>, newMap: map<int, int>, face: Option<FaceSize>)
    ensures fresh(table)
    ensures table[..] == StreamTable(infos)
    ensures newMap == WithRankings(qualityMap, infos, |infos|)
    ensures face == FaceOf(infos)
  {
    table := new StreamInfo[|infos|];
    newMap := qualityMap;
    face := None;
    var strIdx: nat := 0;
    while strIdx < |infos|
      invariant strIdx <= |infos|
      invariant forall j | 0 <= j < strIdx :: table[j] == Entry(infos[j])
      invariant newMap == WithRankings(qualityMap, infos, strIdx)
      invariant face == FaceOf(infos[..strIdx])
    {
      var oneQuality := infos[strIdx];
      if oneQuality.ranking == 1 {
        face := Some(FaceSize(oneQuality.origWidth, oneQuality.origHeight));
      }
      table[strIdx] := Entry(oneQuality);
      newMap := Insert(newMap, strIdx, oneQuality.ranking);
      FaceOfStep(infos, strIdx);
      strIdx := strIdx + 1;
    }
    assert infos[..strIdx] == infos;
  }

  /** The table as the source writes it: strIdx is a uint8_t, so level i
      lands in slot i % 256 and a slot nobody writes is None. */
  function WrappedTable(infos: seq<QualityInfo>, n: nat): (t: seq<Option<StreamInfo>>)
    requires n <= |infos|
    ensures |t| == |infos|
  {
    if n == 0 then seq(|infos|, i => None)
    else WrappedTable(infos, n - 1)[(n - 1) % 256 := Some(Entry(infos[n - 1]))]
  }

  lemma {:induction false} WrappedTableUntouchedAbove(infos: seq<QualityInfo>, n: nat, j: nat)
    requires n <= 256 && n <= j < |infos|
    ensures WrappedTable(infos, n)[j] == None
  {
    if n > 0 {
      WrappedTableUntouchedAbove(infos, n - 1, j);
    }
  }

  /** The quality map as the source fills it: the key is the uint8_t index,
      so level i is inserted under i % 256. */
  function WrappedRankings(m: map<int, int>, infos: seq<QualityInfo>, n: nat): (r: map<int, int>)
    requires n <= |infos|
    ensures forall k | k in r :: k in m || 0 <= k < 256
  {
    if n == 0 then m else Insert(WrappedRankings(m, infos, n - 1), (n - 1) % 256, infos[n - 1].ranking)
  }

  /** Once level 0 is inserted under key 0, later inserts under key 0 are ignored. */
  lemma {:induction false} WrappedRankingsKeepsFirst(infos: seq<QualityInfo>, n: nat)
    requires 1 <= n <= |infos|
    ensures 0 in WrappedRankings(map[], infos, n)
    ensures WrappedRankings(map[], infos, n)[0] == infos[0].ranking
  {
    if n > 1 {
      WrappedRankingsKeepsFirst(infos, n - 1);
    }
  }

  /** With 257 quality levels the 257th overwrites the first slot and the
      last slot is never written, so the table no longer lists every level;
      in the quality map the 257th level's ranking is lost: no key 256, and
      key 0 keeps level 0's ranking. */
  lemma WrappedTableCounterexample(infos: seq<QualityInfo>)
    requires |infos| == 257
    ensures WrappedTable(infos, 257)[256] == None
    ensures WrappedTable(infos, 257)[0] == Some(Entry(infos[256]))
    ensures WrappedTable(infos, 257)[256] != Some(StreamTable(infos)[256])
    ensures 256 !in WrappedRankings(map[], infos, 257)
    ensures WrappedRankings(map[], infos, 257)[0] == infos[0].ranking
    ensures 256 in WithRankings(map[], infos, 257)
  {
    WrappedTableUntouchedAbove(infos, 256, 256);
    WrappedRankingsKeepsFirst(infos, 257);
    WithRankingsContent(map[], infos, 257);
  }

  // ---------------------------------------------------------------------------
  // Plugin feed

  /** The angle UpdateViewport hands to the plugin's SetViewport. */
  datatype Feed = Feed(plugin: PluginHandle, yaw: real, pitch: real, pts: int)

  datatype FeedOutcome = FeedOutcome(status: Status, fed: Option<Feed>)

  /** After the push: with prediction on and a plugin registered, the pose
      goes to the plugin named mPredictPluginName (std::map::at throws when
      that name is absent). */
  function FeedFor(usePrediction: bool, plugins: map<string, PluginHandle>, name: string, p: Pose): (o: FeedOutcome)
    ensures o.fed.Some? <==> usePrediction && plugins != map[] && name in plugins
    ensures o.fed.Some? ==> o.fed.value == Feed(plugins[name], p.yaw, p.pitch, p.pts)
    ensures o.status == OutOfRange <==> usePrediction && plugins != map[] && name !in plugins
    ensures o.status != OutOfRange ==> o.status == ErrorNone
  {
    if usePrediction && plugins != map[] then
      if name in plugins then FeedOutcome(ErrorNone, Some(Feed(plugins[name], p.yaw, p.pitch, p.pts)))
      else FeedOutcome(OutOfRange, None)
    else FeedOutcome(ErrorNone, None)
  }

  // ---------------------------------------------------------------------------
  // The selector object

  class TracksSelector {
    const size: int                         // mSize
    var history: seq<Pose>                  // mPoseHistory, newest first
    var pose: Option<Pose>                  // mPose
    var usePrediction: bool                 // mUsePrediction
    var pluginName: string                  // mPredictPluginName
    var libPath: string                     // mLibPath
    var plugins: map<string, PluginHandle>  // mPredictPluginMap
    var projection: Projection              // mProjFmt
    var segmentDur: int                     // mSegmentDur
    var qualityInfos: seq<QualityInfo>      // mTwoDQualityInfos, in key order
    var qualityMap: map<int, int>           // mTwoDStreamQualityMap
    var scvpPluginPath: Option<string>      // mI360ScvpPlugin.pluginLibPath
    var param: Option<ViewportParam>        // mParamViewport
    var streamInfo: array?<StreamInfo>      // mParamViewport->pStreamInfo
    var geometryReady: bool                 // m360ViewPortHandle != nullptr

    ghost predicate Valid()
      reads this
    {
      IsInt32(size) && |history| <= Capacity(size)
    }

    constructor (size: int)
      requires IsInt32(size)
      ensures Valid() && this.size == size
      ensures history == [] && pose == None && !usePrediction
      ensures pluginName == [] && libPath == [] && plugins == map[]
      ensures projection == Erp && segmentDur == 0 && qualityInfos == [] && qualityMap == map[]
      ensures scvpPluginPath == None && param == None && streamInfo == null && !geometryReady
    {
      this.size := size;
      history := [];
      pose := None;
      usePrediction := false;
      pluginName := [];
      libPath := [];
      plugins := map[];
      projection := Erp;
      segmentDur := 0;
      qualityInfos := [];
      qualityMap := map[];
      scvpPluginPath := None;
      param := None;
      streamInfo := null;
      geometryReady := false;
    }

    /** UpdateViewport: reject a missing pose; push a copy at the front and
        evict the oldest entry on overflow; then feed the plugin. */
    method UpdateViewport(p: Option<Pose>) returns (status: Status, fed: Option<Feed>)
      requires Valid()
      modifies this`history
      ensures Valid()
      ensures p.None? ==> status == ErrorNullPtr && fed == None && history == old(history)
      ensures p.Some? ==>
        && history == Push(old(history), p.value, Capacity(size))
        && FeedOutcome(status, fed) == FeedFor(usePrediction, plugins, pluginName, p.value)
    {
      if p.None? {
        return ErrorNullPtr, None;
      }
      var inputPose := p.value;
      history := [inputPose] + history;
      if |history| > Capacity(size) {
        history := history[..|history| - 1];
      }
      fed := None;
      if usePrediction && plugins != map[] {
        if pluginName !in plugins {
          return OutOfRange, None;
        }
        var plugin := plugins[pluginName];
        fed := Some(Feed(plugin, inputPose.yaw, inputPose.pitch, inputPose.pts));
      }
      status := ErrorNone;
    }

    /** The projection-specific part of SetInitialViewport: the 360SCVP
        parameters and, for planar video, the stream-info table and the
        quality map. */
    method ConfigureParam(hs: HeadSetInfo, stream: StreamLayout)
      modifies this`param, this`streamInfo, this`qualityMap
      ensures param == Some(BuildParam(projection, hs, stream, qualityInfos, segmentDur, scvpPluginPath))
      ensures projection != Planar ==> streamInfo == null && qualityMap == old(qualityMap)
      ensures projection == Planar ==>
        && streamInfo != null && fresh(streamInfo)
        && streamInfo[..] == StreamTable(qualityInfos)
        && qualityMap == WithRankings(old(qualityMap), qualityInfos, |qualityInfos|)
    {
      streamInfo := null;
      match projection {
        case Erp =>
          param := Some(ErpParam(hs, stream));
        case CubeMap =>
          param := Some(CubemapParam(hs, stream));
        case Planar =>
          var table, newMap, face := FillStreamTable(qualityInfos, qualityMap);
          streamInfo := table;
          qualityMap := newMap;
          param := Some(PlanarParam(hs, |qualityInfos|, segmentDur, face, scvpPluginPath));
      }
    }

    /** SetInitialViewport: validate per projection, fill the 360SCVP
        parameters, require a 360SCVP plugin for planar video, initialise the
        geometry library (`initGeometry` stands for I360SCVP_Init
        succeeding), then record the initial pose through UpdateViewport. */
    method SetInitialViewport(headSet: Option<HeadSetInfo>, stream: StreamLayout,
                              initGeometry: ViewportParam -> bool)
      returns (status: Status, fed: Option<Feed>)
      requires Valid()
      modifies this`param, this`streamInfo, this`qualityMap, this`geometryReady, this`pose, this`history
      ensures Valid()
      ensures !ViewportAccepted(projection, headSet, |qualityInfos|) ==>
        status == ErrorInvalid && fed == None && unchanged(this)
      ensures ViewportAccepted(projection, headSet, |qualityInfos|) ==>
        && param == Some(BuildParam(projection, headSet.value, stream, qualityInfos, segmentDur, scvpPluginPath))
        && (projection != Planar ==> streamInfo == null && qualityMap == old(qualityMap))
        && (projection == Planar ==>
              && streamInfo != null && fresh(streamInfo)
              && streamInfo[..] == StreamTable(qualityInfos)
              && qualityMap == WithRankings(old(qualityMap), qualityInfos, |qualityInfos|))
      ensures ViewportAccepted(projection, headSet, |qualityInfos|) && MissingScvpPlugin(param.value) ==>
        status == ErrorNullPtr && fed == None
        && geometryReady == old(geometryReady) && pose == old(pose) && history == old(history)
      ensures ViewportAccepted(projection, headSet, |qualityInfos|) && !MissingScvpPlugin(param.value) ==>
        geometryReady == initGeometry(param.value)
      ensures ViewportAccepted(projection, headSet, |qualityInfos|) && !MissingScvpPlugin(param.value) && !geometryReady ==>
        status == ErrorNullPtr && fed == None && pose == old(pose) && history == old(history)
      ensures ViewportAccepted(projection, headSet, |qualityInfos|) && !MissingScvpPlugin(param.value) && geometryReady ==>
        && pose == Some(headSet.value.pose)
        && history == Push(old(history), headSet.value.pose, Capacity(size))
        && FeedOutcome(status, fed) == FeedFor(usePrediction, plugins, pluginName, headSet.value.pose)
    {
      if !ViewportAccepted(projection, headSet, |qualityInfos|) {
        return ErrorInvalid, None;
      }
      var hs := headSet.value;
      ConfigureParam(hs, stream);
      if MissingScvpPlugin(param.value) {
        return ErrorNullPtr, None;
      }
      geometryReady := initGeometry(param.value);
      if !geometryReady {
        return ErrorNullPtr, None;
      }
      pose := Some(hs.pose);
      status, fed := UpdateViewport(pose);
    }

    /** InitializePredictPlugins, proved against Register. */
    method InitializePredictPlugins(load: string -> Status) returns (status: Status)
      modifies this`plugins
      ensures Register(old(plugins), libPath, pluginName, load) == Registration(status, plugins)
    {
      if libPath == [] || pluginName == [] {
        return ErrorInvalid;
      }
      var pluginPath := libPath + pluginName;
      var ret := load(pluginPath);
      if ret != ErrorNone {
        return ret;
      }
      if pluginName !in plugins {
        plugins := plugins[pluginName := PluginHandle(pluginPath)];
      }
      status := ErrorNone;
    }

    /** EnablePosePrediction: turn prediction on (before loading, so it stays
        on when loading fails), register the plugin, then initialise it
        (`initialize` stands for the plugin's Intialize) with the option
        returned in `option`. */
    method EnablePosePrediction(predictPluginName: string, lib: string, enableExtractor: bool,
                                load: string -> Status, initialize: (PluginHandle, PredictOption) -> Status)
      returns (status: Status, option: Option<PredictOption>)
      modifies this`usePrediction, this`pluginName, this`libPath, this`plugins
      ensures usePrediction && pluginName == predictPluginName && libPath == lib
      ensures var r := Register(old(plugins), lib, predictPluginName, load);
        && plugins == r.plugins
        && (r.status != ErrorNone ==> status == r.status && option == None)
        && (r.status == ErrorNone ==>
              && predictPluginName in plugins
              && option == Some(EnableOption(enableExtractor))
              && status == initialize(plugins[predictPluginName], option.value))
    {
      usePrediction := true;
      pluginName := predictPluginName;
      libPath := lib;
      var ret := InitializePredictPlugins(load);
      if ret != ErrorNone {
        return ret, None;
      }
      var plugin := plugins[pluginName];
      var opt := PredictOption(true, if enableExtractor then SingleViewpoint else MultiViewpoints);
      option := Some(opt);
      status := initialize(plugin, opt);
    }
  }
}
