// Values shared by the two viewport-driven track selectors of OmafDashAccess:
// head poses, content coverage, extractors, return codes and the parameter
// block handed to the 360SCVP geometry library.

module OmafTypes {

  datatype Option<+T> = None | Some(value: T)

  /** The selectors' return codes (ERROR_* in the source). `ErrorOther` carries
      any other code a foreign library reports (a plugin loader, for one).
      `OutOfRange` stands for the std::out_of_range that std::map::at throws
      when the plugin name is not registered: the model returns it instead of
      unwinding the stack. */
  datatype Status = ErrorNone | ErrorNullPtr | ErrorInvalid | ErrorOther(code: int) | OutOfRange

  /** HeadPose: viewing direction in degrees and the presentation timestamp. */
  datatype Pose = Pose(yaw: real, pitch: real, pts: int)

  /** ViewportAngle: the direction handed to, and returned by, a prediction plugin. */
  datatype Angle = Angle(yaw: real, pitch: real)

  /** A history entry of the extractor selector: the pose and the wall-clock
      time (milliseconds) at which it was recorded. */
  datatype PoseInfo = PoseInfo(pose: Pose, time: int)

  function AngleOf(p: Pose): Angle {
    Angle(p.yaw, p.pitch)
  }

  /** CCDef: the content coverage the geometry library computes for a viewport. */
  datatype Coverage = Coverage(centreAzimuth: int, centreElevation: int,
                               azimuthRange: int, elevationRange: int)

  /** Centre (int32 azimuth and elevation) of an extractor's first coverage info. */
  datatype Centre = Centre(azimuth: int, elevation: int)

  /** An extractor track of the media stream: its key in the stream's extractor
      map, its transport track number, and the centre of its static content
      coverage (None when the track carries no coverage). */
  datatype Extractor = Extractor(id: int, trackNumber: int, centre: Option<Centre>)

  /** HeadSetInfo: the initial pose and the viewport configuration. */
  datatype HeadSetInfo = HeadSetInfo(pose: Pose, hFOV: real, vFOV: real,
                                     width: nat, height: nat,
                                     inputGeoType: int, outputGeoType: int)

  /** What the selectors read of OmafMediaStream when configuring the viewport. */
  datatype StreamLayout = StreamLayout(rows: nat, cols: nat, highResWidth: nat, highResHeight: nat)

  datatype Projection = Erp | CubeMap | Planar

  /** EGeometryType values the selectors write; `Declared` is a value copied
      verbatim from HeadSetInfo. */
  datatype Geometry = Equirect | Cubemap | PlanarVideo | ViewportOutput | Declared(code: int)

  /** The cast (EGeometryType)(mProjFmt): each projection names its geometry. */
  function GeometryOf(p: Projection): (g: Geometry)
    ensures g != ViewportOutput && !g.Declared?
    ensures (g == Equirect <==> p == Erp) && (g == Cubemap <==> p == CubeMap) && (g == PlanarVideo <==> p == Planar)
  {
    match p
    case Erp => Equirect
    case CubeMap => Cubemap
    case Planar => PlanarVideo
  }

  datatype SphereView = SphereView(yaw: real, pitch: real, fovH: real, fovV: real)
  datatype TileGrid = TileGrid(rows: nat, cols: nat)
  datatype FaceSize = FaceSize(width: nat, height: nat)

  /** One face of the packed frame; every face the selectors describe is
      NO_TRANSFORM, so the rotation is not stored. */
  datatype FaceDesc = FaceDesc(id: nat, size: Option<FaceSize>)

  /** paramVideoFP: the frame's face grid, keyed by (row, column). */
  datatype FrameLayout = FrameLayout(cols: nat, rows: nat, faces: map<(nat, nat), FaceDesc>)

  /** The planar-only part of param_360SCVP. */
  datatype PlanarSources = PlanarSources(resolutionNum: nat, accessInterval: int,
                                         pluginLibPath: Option<string>)

  /** param_360SCVP as the selectors fill it (usedType and usageType are always
      E_VIEWPORT_ONLY). A field the source leaves unassigned is None. */
  datatype ViewportParam = ViewportParam(
    width: nat, height: nat,
    view: Option<SphereView>,
    geoIn: Geometry, geoOut: Geometry,
    tiles: Option<TileGrid>,
    face: Option<FaceSize>,
    layout: Option<FrameLayout>,
    planar: Option<PlanarSources>)

  /** pStreamInfo[i]: frame and tile size of one planar source resolution. */
  datatype StreamInfo = StreamInfo(frameWidth: nat, frameHeight: nat, tileWidth: nat, tileHeight: nat)

  /** TwoDQualityInfo: one quality level of a planar video. */
  datatype QualityInfo = QualityInfo(ranking: int, origWidth: nat, origHeight: nat,
                                     regionWidth: nat, regionHeight: nat)
}
