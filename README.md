# Viewport-driven track selection (OmafDashAccess), modelled in Dafny

This project models the selector core of the OMAF DASH access library of a
tile-based 360° video client. The core decides, cycle by cycle, which extractor
track to fetch, based on the viewer's head pose.

- **Bounded pose history.** `UpdateViewport` pushes each head pose at the
  front of a history that holds at most `mSize` poses, evicting the oldest.
  In the tracks selector it also feeds the pose to the prediction plugin.
- **Direct selection cycle.** `GetExtractorByPose` consumes the newest pose.
  It skips re-evaluation when the pose has not moved by 1e-3 in yaw and pitch
  and more than one pose remains. Otherwise it asks the 360SCVP geometry
  library for the viewport's content coverage and picks the extractor whose
  coverage centre is nearest (`GetNearestExtractor`).
- **Prediction cycle.** `GetExtractorByPosePrediction` hands the history,
  oldest first, to a prediction plugin and selects for the predicted direction.
- **Selection and switch rule.** `SelectExtractors` falls back from prediction
  to direct selection while the history is short. It keeps the current
  extractor when nothing new is chosen, detects a switch, requests packet-queue
  removal on a switch, and enables exactly the current extractor.
- **Viewport configuration.** `SetInitialViewport` validates the head-set
  configuration per projection (equirectangular, cubemap, planar). It derives
  the 360SCVP parameters (cubemap face grid, planar stream-info table and
  quality map) and records the initial pose.
- **Prediction plugins.** `InitializePredictPlugins` and `EnablePosePrediction`
  load and register a named plugin and configure it.

Files:

- `omaf_types.dfy` (module `OmafTypes`): poses, coverage, extractors, return
  codes and the 360SCVP parameter block.
- `pose_history.dfy` (module `PoseHistory`): the bounded push shared by both
  selectors, and its window lemma.
- `predict_plugins.dfy` (module `PredictPlugins`): plugin registration shared
  by both selectors.
- `extractor_selector.dfy` (module `ExtractorSelection`): the class
  `ExtractorSelector`. Its methods are proved against value-level functions
  (`DirectStep`, `PredictStep`, `CycleChoice`, `Adopt`, `Nearest`), and the
  lemmas are stated about those functions.
- `tracks_selector.dfy` (module `TracksSelection`): the class `TracksSelector`.

How the foreign calls are modelled:

- The geometry library (`I360SCVP_setViewPort`, `process`,
  `getContentCoverage`) is a parameter `coverageOf: Angle -> Option<Coverage>`.
  `None` means one of the three steps failed.
- `I360SCVP_Init` is a parameter `initGeometry: ViewportParam -> bool`.
- The plugin's `LoadPlugin`, `Predict` and `Intialize(option)` are the
  parameters `load`, `predict` and `initialize`.
- `pStream->UpdateEnabledExtractors` is the parameter `updateEnabled`.
- Calls whose effect lies outside the selector are returned as out-parameters:
  - `RemoveTrackFromPacketQueue` becomes `removed`;
  - the enabled-extractor list becomes `enabled`;
  - the plugin's `SetViewport` becomes `fed`.
- The wall clock that stamps history entries is a parameter `now`.

Two behaviours of the code are easy to misread, and the model keeps them as
written:

- Registering a plugin name that is already registered succeeds but keeps the
  first instance, because the code uses `std::map::insert`
  (OmafTracksSelector.cpp:312, OmafExtractorSelector.cpp:415).
- On a switch, `RemoveTrackFromPacketQueue` is given the track number of the
  **new** current extractor, because the list it is built from holds only
  that extractor (OmafExtractorSelector.cpp:122-135).

## Model

| member | source | states |
|---|---|---|
| `PoseHistory.Capacity` | src/OmafDashAccess/OmafExtractorSelector.cpp:156 | the eviction bound is `(uint32_t)mSize`: a non-negative size is itself, a negative one wraps to 2^32 + size |
| `PoseHistory.Push` | src/OmafDashAccess/OmafExtractorSelector.cpp:155-161 | one push keeps the history within capacity, drops at most the single oldest entry, keeps the rest in order, and puts the new pose at the front unless the capacity is 0 |
| `PoseHistory.PushAllWindow` | src/OmafDashAccess/OmafTracksSelector.cpp:246-251 | after any sequence of pushes, the history holds at most `cap` poses: exactly the latest `cap` ones, newest first |
| `PredictPlugins.Register` | src/OmafDashAccess/OmafTracksSelector.cpp:297-314 | an empty path or name gives ERROR_INVALID; otherwise the load result for `libPath + name` is returned; the map changes only on success; success adds exactly `name` and keeps every existing entry, including an earlier one for `name` |
| `PredictPlugins.ReRegisterKeepsFirst` | src/OmafDashAccess/OmafTracksSelector.cpp:312 | registering an already registered name leaves the plugin map unchanged |
| `PredictPlugins.EnableOption` | src/OmafDashAccess/OmafTracksSelector.cpp:280-287 | the prediction option has feedback angle adjustment on; the mode is SingleViewpoint iff extractors are enabled |
| `ExtractorSelection.IsDifferentPose` | src/OmafDashAccess/OmafExtractorSelector.cpp:201-210 | a pose counts as different only if yaw or pitch actually differ, and any yaw or pitch difference of at least 1e-3 makes it different |
| `ExtractorSelection.Selection` | src/OmafDashAccess/OmafExtractorSelector.cpp:265-291 | a selection is a covered extractor of the catalogue, and there is one iff the geometry library yields a coverage and some extractor has coverage |
| `ExtractorSelection.HoldsPose` | src/OmafDashAccess/OmafExtractorSelector.cpp:237-238 | a cycle is held only when a previous pose exists, yaw and pitch both moved by less than 1e-3, and at least two poses remain by the count the caller passes |
| `ExtractorSelection.DirectStep` | src/OmafDashAccess/OmafExtractorSelector.cpp:212-263 | one direct cycle selects only from a non-empty history, only a covered catalogue extractor, and nothing when the geometry library fails for the popped pose |
| `ExtractorSelection.PredictStep` | src/OmafDashAccess/OmafExtractorSelector.cpp:322-398 | one prediction cycle yields at most one extractor, a covered catalogue member; a throw yields nothing and leaves history and mPose as they were |
| `ExtractorSelection.CycleChoice` | src/OmafDashAccess/OmafExtractorSelector.cpp:91-110 | only the prediction path can throw, and a throw chooses nothing and consumes nothing; a choice is a catalogue extractor |
| `ExtractorSelection.Adopt` | src/OmafDashAccess/OmafExtractorSelector.cpp:112-122 | choosing nothing keeps the current extractor and is no change; a change adopts the chosen extractor, which differs from the old one; afterwards an extractor is current iff one was current or one was chosen |
| `ExtractorSelection.ViewportConfigured` | src/OmafDashAccess/OmafExtractorSelector.cpp:169-173 | an accepted head set is present and has a positive viewport width and height |
| `ExtractorSelection.IsDifferentPoseSymmetric` | src/OmafDashAccess/OmafExtractorSelector.cpp:201-210 | the hysteresis test (yaw and pitch both within 1e-3) is symmetric in its two poses |
| `ExtractorSelection.SamePoseNotDifferent` | src/OmafDashAccess/OmafExtractorSelector.cpp:201-210 | a pose is never different from itself, whatever its timestamp |
| `ExtractorSelection.Nearest` | src/OmafDashAccess/OmafExtractorSelector.cpp:293-320 | the reference search returns a covered extractor of the catalogue, and returns nothing iff no extractor has coverage |
| `ExtractorSelection.NearestIsFirstNearest` | src/OmafDashAccess/OmafExtractorSelector.cpp:299-317 | the reference search's result has minimal centre distance among covered extractors, and every covered extractor before it is strictly farther |
| `ExtractorSelection.FirstNearestUnique` | src/OmafDashAccess/OmafExtractorSelector.cpp:312-316 | at most one position is first with minimal distance, so the search is deterministic for a fixed catalogue and coverage |
| `ExtractorSelection.NearestSmallestKey` | src/OmafDashAccess/OmafExtractorSelector.cpp:298-316 | with the map iterated in ascending key order, a tie goes to the smallest key |
| `ExtractorSelection.GetNearestExtractor` | src/OmafDashAccess/OmafExtractorSelector.cpp:293-320 | the one-pass scan with a running least distance and a strict `<` returns exactly the reference result: none iff nothing is covered, else the first nearest extractor |
| `ExtractorSelection.SelectExtractor` | src/OmafDashAccess/OmafExtractorSelector.cpp:265-291 | a geometry failure selects nothing; otherwise the result is the nearest extractor to the computed coverage, a covered catalogue member |
| `ExtractorSelection.DirectStepConsumesFront` | src/OmafDashAccess/OmafExtractorSelector.cpp:214-233 | on an empty history nothing is selected and the history and mPose stay as they were; otherwise exactly the front pose is removed and becomes mPose |
| `ExtractorSelection.DirectStepHysteresis` | src/OmafDashAccess/OmafExtractorSelector.cpp:237-249 | with no previous pose, with a moved pose, or with at most one pose left after the pop, the cycle selects the nearest extractor for the popped pose; an unchanged pose with more than one pose left selects nothing |
| `ExtractorSelection.OldestFirst` | src/OmafDashAccess/OmafExtractorSelector.cpp:342-351 | the plugin input lists the history's angles oldest first: position i holds the (n-1-i)-th newest pose |
| `ExtractorSelection.PredictStepShape` | src/OmafDashAccess/OmafExtractorSelector.cpp:322-398 | prediction yields at most one catalogue extractor, and only when a previous pose existed; with at most one pose or no plugin it changes nothing; with at least two poses and a registered plugin it throws iff mPredictPluginName is not registered; a prediction of nothing consumes nothing; with a moved pose the result is the nearest extractor for the predicted angle, if any; it pops at most the front pose |
| `ExtractorSelection.PredictGateAlwaysOpen` | src/OmafDashAccess/OmafExtractorSelector.cpp:369-379 | in the prediction step the hysteresis gate counts the pre-pop history (at least two poses), so an unchanged pose is held even when only one pose remains after the pop |
| `ExtractorSelection.PredictionFallback` | src/OmafDashAccess/OmafExtractorSelector.cpp:94-106 | an empty prediction falls back to direct selection only while the history is shorter than POSE_SIZE; otherwise nothing is chosen this cycle |
| `ExtractorSelection.CycleChoiceFromCatalogue` | src/OmafDashAccess/OmafExtractorSelector.cpp:91-110 | a cycle only ever chooses a covered extractor of the stream; a cycle that throws leaves history and mPose unchanged |
| `ExtractorSelection.AdoptSticky` | src/OmafDashAccess/OmafExtractorSelector.cpp:112-122 | a set current extractor is never cleared; the first adoption is not a change; "changed" iff old and new are both set and differ |
| `ExtractorSelection.StickyAcrossCycles` | src/OmafDashAccess/OmafExtractorSelector.cpp:112-122 | once set, the current extractor stays set across any run of cycles |
| `ExtractorSelection.RepeatedChoiceSwitchesAtMostOnce` | src/OmafDashAccess/OmafExtractorSelector.cpp:115-122 | cycles that keep choosing one extractor (or nothing) signal at most one switch, and none if it was already current or nothing was current |
| `ExtractorSelection.TwoExtractorSwitch` | src/OmafDashAccess/OmafExtractorSelector.cpp:115-135 | extractors centred at (0,0) and (90,0): a view at (2,0) picks the first, one at (88,0) the second, and moving from the first to the second is a change |
| `ExtractorSelection.ExtractorSelector.constructor` | src/OmafDashAccess/OmafExtractorSelector.cpp:49-60 | a new selector has an empty history, no pose, no current extractor, prediction off and no plugins |
| `ExtractorSelection.ExtractorSelector.UpdateViewport` | src/OmafDashAccess/OmafExtractorSelector.cpp:143-165 | a null pose returns ERROR_NULL_PTR and leaves the history alone; otherwise the history becomes the bounded push of the time-stamped pose, staying within capacity |
| `ExtractorSelection.ExtractorSelector.SetInitialViewport` | src/OmafDashAccess/OmafExtractorSelector.cpp:167-199 | zero FOV or size (or no head set) gives ERROR_INVALID with nothing changed; a failed geometry init gives ERROR_NULL_PTR; otherwise the initial pose becomes mPose and is pushed onto the history as in UpdateViewport (so with a capacity of 0 it is evicted at once) |
| `ExtractorSelection.ExtractorSelector.GetExtractorByPose` | src/OmafDashAccess/OmafExtractorSelector.cpp:212-263 | history, mPose and the result are exactly those of `DirectStep` on the old history and pose |
| `ExtractorSelection.ExtractorSelector.GetExtractorByPosePrediction` | src/OmafDashAccess/OmafExtractorSelector.cpp:322-398 | history, mPose, the returned list and the out-of-range throw are exactly those of `PredictStep`, with the plugin input built by the push-front loop |
| `ExtractorSelection.ExtractorSelector.SelectExtractors` | src/OmafDashAccess/OmafExtractorSelector.cpp:91-141 | ERROR_NULL_PTR when nothing is chosen and nothing is current; otherwise current becomes the adopted extractor, the enabled list is exactly [current], removal is requested with [current's track number] iff the extractor changed, and the status is the stream's `UpdateEnabledExtractors` result (which may itself be an error); a set current extractor is never cleared |
| `ExtractorSelection.ExtractorSelector.InitializePredictPlugins` | src/OmafDashAccess/OmafExtractorSelector.cpp:400-417 | status and plugin map are exactly those of `Register` on the old map, mLibPath and mPredictPluginName |
| `ExtractorSelection.InitialParam` | src/OmafDashAccess/OmafExtractorSelector.cpp:175-189 | the 360SCVP parameters take the sphere view from the head set, and the tile grid and face size from the stream's high-resolution layout |
| `ExtractorSelection.ZeroFovRejected` | src/OmafDashAccess/OmafExtractorSelector.cpp:169-173 | a missing head set, or a zero FOV, width or height, is rejected |
| `OmafTypes.GeometryOf` | src/OmafDashAccess/OmafTracksSelector.cpp:132-133 | the cast of the projection format to the input geometry maps equirectangular, cubemap and planar each to its own geometry (a one-to-one correspondence), never to the viewport output geometry or a value copied from the head set |
| `TracksSelection.ViewportAccepted` | src/OmafDashAccess/OmafTracksSelector.cpp:107-119 | an accepted configuration has a head set with positive width and height, and for planar video at least one quality level |
| `TracksSelection.PlanarParam` | src/OmafDashAccess/OmafTracksSelector.cpp:176-216 | planar parameters carry planar sources with the number of quality levels, no sphere view and no tile grid, the given face size, and lack a 360SCVP plugin exactly when no plugin path is set |
| `TracksSelection.MissingScvpPlugin` | src/OmafDashAccess/OmafTracksSelector.cpp:217-221 | only planar parameters can lack the 360SCVP plugin library |
| `TracksSelection.FaceOf` | src/OmafDashAccess/OmafTracksSelector.cpp:190-197 | the planar face size is none iff no level is ranked 1, and otherwise the original size of the last level ranked 1 |
| `TracksSelection.FaceOfStep` | src/OmafDashAccess/OmafTracksSelector.cpp:193-196 | one more level ranked 1 replaces the face size with its original size; any other level leaves it unchanged |
| `TracksSelection.Entry` | src/OmafDashAccess/OmafTracksSelector.cpp:198-201 | a stream-info entry takes the level's original size as its frame size and the region size as its tile size |
| `TracksSelection.StreamTable` | src/OmafDashAccess/OmafTracksSelector.cpp:184-201 | the intended stream-info table has one entry per quality level, entry i copying level i |
| `TracksSelection.Insert` | src/OmafDashAccess/OmafTracksSelector.cpp:207 | `std::map::insert` adds the key, keeps every existing value, and sets the new value only when the key was absent |
| `TracksSelection.WithRankings` | src/OmafDashAccess/OmafTracksSelector.cpp:207 | inserting the (index, ranking) pairs never changes or removes a key already in the quality map |
| `TracksSelection.WrappedTable` | src/OmafDashAccess/OmafTracksSelector.cpp:188-210 | the stream-info table as written, with the index taken modulo 256: as many slots as quality levels; with at most 256 levels no slot at or above the count written is touched (`WrappedTableUntouchedAbove`) |
| `TracksSelection.WrappedRankings` | src/OmafDashAccess/OmafTracksSelector.cpp:207 | the quality map as written, keyed by the index modulo 256: no key at or above 256 is ever added |
| `TracksSelection.WrappedRankingsKeepsFirst` | src/OmafDashAccess/OmafTracksSelector.cpp:188-207 | from an empty quality map, key 0 holds level 0's ranking however many levels follow |
| `TracksSelection.ViewportAcceptedPerProjection` | src/OmafDashAccess/OmafTracksSelector.cpp:107-119 | planar validation ignores the FOV and rejects zero quality levels; other projections ignore the quality levels and reject a zero FOV; a missing head set or a zero width or height is always rejected |
| `TracksSelection.ErpParam` | src/OmafDashAccess/OmafTracksSelector.cpp:125-143 | equirectangular: a single face 0 in a 1x1 layout, the stream's tile grid, the high-resolution frame as face size |
| `TracksSelection.CubemapLayout` | src/OmafDashAccess/OmafTracksSelector.cpp:160-175 | the cubemap layout is 3 columns by 2 rows, faces 0..5 in row-major order, and only face (0,0) carries the face size |
| `TracksSelection.CubemapParam` | src/OmafDashAccess/OmafTracksSelector.cpp:144-175 | cubemap tile rows and cols are the stream's divided by 2 and 3 (remainder dropped); the face size is the high-resolution frame divided by 3 x 2 |
| `TracksSelection.LastRankOne` | src/OmafDashAccess/OmafTracksSelector.cpp:190-197 | finds the last quality level ranked 1, or none iff no level has ranking 1 |
| `TracksSelection.WithRankingsContent` | src/OmafDashAccess/OmafTracksSelector.cpp:207 | the quality map gains exactly the keys 0..n-1, each mapped to its level's ranking unless the key was already present (insert keeps it) |
| `TracksSelection.BuildParam` | src/OmafDashAccess/OmafTracksSelector.cpp:121-216 | only planar parameters carry planar sources (resolution count, segment duration, 360SCVP plugin path); planar has no sphere view and no tile grid, and takes its face size from the last level ranked 1; other projections take the head set's view and their own geometry |
| `TracksSelection.FillStreamTable` | src/OmafDashAccess/OmafTracksSelector.cpp:184-211 | the fresh stream-info array has one entry per quality level, in key order, copying frame and tile size; the quality map gets the rankings; the face size is that of the last level ranked 1 |
| `TracksSelection.WrappedTableCounterexample` | src/OmafDashAccess/OmafTracksSelector.cpp:188-210 | with the uint8_t index and 257 quality levels, slot 0 ends up holding level 256 and slot 256 is never written; the quality map gets no key 256 and key 0 keeps level 0's ranking, while the intended map has key 256 |
| `TracksSelection.FeedFor` | src/OmafDashAccess/OmafTracksSelector.cpp:253-262 | the pose's yaw, pitch and pts go to the plugin iff prediction is on and the map is non-empty (and holds the name); a non-empty map without the name throws |
| `TracksSelection.TracksSelector.constructor` | src/OmafDashAccess/OmafTracksSelector.cpp:40-52 | a new selector has an empty history, no pose, prediction off, no plugins, ERP projection, no quality levels and no 360SCVP plugin |
| `TracksSelection.TracksSelector.UpdateViewport` | src/OmafDashAccess/OmafTracksSelector.cpp:237-265 | a null pose returns ERROR_NULL_PTR and changes nothing; otherwise the history becomes the bounded push of the pose, and the status and plugin feed are those of `FeedFor` |
| `TracksSelection.TracksSelector.ConfigureParam` | src/OmafDashAccess/OmafTracksSelector.cpp:121-215 | fills mParamViewport per projection; for planar video it also allocates the stream-info table and extends the quality map |
| `TracksSelection.TracksSelector.SetInitialViewport` | src/OmafDashAccess/OmafTracksSelector.cpp:105-235 | failed validation gives ERROR_INVALID with nothing changed; planar without a 360SCVP plugin gives ERROR_NULL_PTR before the geometry library is initialised; a failed init gives ERROR_NULL_PTR; otherwise the initial pose is mPose and is pushed and fed as in UpdateViewport |
| `TracksSelection.TracksSelector.InitializePredictPlugins` | src/OmafDashAccess/OmafTracksSelector.cpp:297-314 | status and plugin map are exactly those of `Register` on the old map, mLibPath and mPredictPluginName |
| `TracksSelection.TracksSelector.EnablePosePrediction` | src/OmafDashAccess/OmafTracksSelector.cpp:267-295 | prediction is on (even when loading fails), name and path are stored, the registration error is returned unchanged; on success the name is registered and the plugin is initialised with `EnableOption`, whose result is returned |

## Left out

- The 360SCVP geometry library is a pair of function parameters: `coverageOf` for the per-cycle steps and `initGeometry` for `I360SCVP_Init`. Its internal state and `I360SCVP_unInit` in the destructors are not modelled.
- The plugin internals (`LoadPlugin`, `Predict`, `Intialize`, `SetViewport`, `Destroy`) are parameters or recorded outputs.
  - `GetExtractorByPosePrediction` calls `Intialize(40, 25, 1000)` on every cycle; this is not modelled, because the source ignores its result.
  - The destructor's `Destroy` call is not modelled.
- The mutexes are not modelled. The model is sequential and treats each locked section as one atomic step. The unlocked windows in `GetExtractorByPose` and `GetExtractorByPosePrediction`, where another thread could change the history, are therefore not modelled.
- Manual memory management is not modelled: `new`, `SAFE_DELETE`, `memcpy`, the destructors and the leaked plugin instances. Poses are held by value. The null checks after `new`, which are never taken, are left out.
- The `!mPose` branches after a pop are left out: the history never holds a null pose, because `UpdateViewport` rejects null.
- `headSetInfo->pose` is dereferenced unchecked by the source. The model assumes it is present.
- The distance is computed with floating-point `sqrt` and `pow`. The model compares exact squared integer distances, which order the same way. Three consequences:
  - ties that float rounding would create between different exact distances are not modelled;
  - the `FLT_MAX` starting value is `None`, because every int32 distance is below it;
  - int32 overflow of the centre differences is not modelled.
- Yaw and pitch are `real`. `abs` is taken as the floating-point overload, not the integer one.
- Wall-clock timestamps are the `now` parameter. Logging and tracepoints are not modelled.
- `READERMANAGER` and `OmafMediaStream`:
  - the extractor map is a sequence in ascending key order;
  - `GetRowSize`, `GetColSize` and the high-resolution size are a `StreamLayout` value;
  - `mTwoDQualityInfos` is the sequence of its values in key order, because its keys are not used.
- `POSE_SIZE` is defined in a header that is not part of this model, so it is the constructor parameter `poseSize`.
- Setting `mPredictPluginName` and `mLibPath` of the extractor selector happens in its header, which is not part of this model. The fields are assignable members of the class.
- The values of the `EGeometryType` and `ProjectionFormat` enumerations are in headers that are not part of this model. The cast `(EGeometryType)(mProjFmt)` is taken to map equirectangular to equirectangular and cubemap to cubemap. Only the three projection formats the code branches on are modelled.
- `ExtractorSelection.Adopt` decides "changed" by comparing extractor values, while the source compares `OmafExtractor` pointers (OmafExtractorSelector.cpp:117). The two agree as long as each map key names one extractor object and distinct objects differ in key, track number or coverage centre. Two distinct objects with equal values would count as a switch in the source but not in the model.
- `std::map::at` on an unregistered plugin name throws `std::out_of_range`. The model returns the status `OutOfRange` instead of unwinding, with the state as it was at the throw.
- `TracksSelection.TracksSelector.ConfigureParam` indexes the stream-info table with an unbounded counter instead of the source's `uint8_t`. See Findings.

## Findings

| source | as written | input that shows it | evidently intended | confidence | as-written member | corrected member |
|---|---|---|---|---|---|---|
| src/OmafDashAccess/OmafTracksSelector.cpp:188-210 | the stream-info index `strIdx` is a `uint8_t` that wraps at 256 | 257 quality levels: level 256 overwrites slot 0 and slot 256 is never written; the quality map gets no key 256 (its insert under key 0 is ignored, so key 0 keeps level 0's ranking) | entry i of the stream-info table copies the i-th quality level, for every level | medium (requires more than 256 quality levels; not executed) | `TracksSelection.WrappedTableCounterexample` | `TracksSelection.FillStreamTable` |
