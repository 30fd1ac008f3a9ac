# Timeline dock: index resolution and guards

A Dafny model of the `TimelineDock` of the VideoTimeline editor
(`v2/timelinedock.cpp`): the glue that turns timeline UI requests (move the
playhead, pick a track, add/copy/split/remove a clip, look up the clip under
a position) into calls on the tracks model.

The tracks model itself is not part of this model. It appears as an oracle,
`Tracks.TracksModel`: its track count, tracks-area length, `getClipIndexAt`
and `getClipInfo` answers are fields of a value, and its mutations
(`appendClip`, `copyClip`, `splitClip`, `removeClip`, plus the `getClipInfo`
request) are returned as a log of `ModelCall`s. The dock's own fields
(position, current track, selection) form an immutable `DockState`; every
operation is a pure function returning the new state and the calls it made.

Files:

- `tracks.dfy` (module `Tracks`): the oracle, `HasClipAt`, the call log.
- `timeline_dock.dfy` (module `TimelineDock`): dock state and every operation.
- `dock_properties.dfy` (module `DockProperties`): properties relating
  calls, including a declarative description of the clip search and the
  proof that the search meets it and nothing else does.
- `session.dfy` (module `Session`): sequences of requests, each answered
  against its own snapshot of the tracks model.

Three behaviours of the code are easy to misread:

- The playhead is clamped from above only. A negative position is stored
  unchanged; nothing keeps the playhead non-negative.
- `setCurrentTrack` stores a value only when it lies outside `[0, 2)`. Tracks
  0 and 1 can never be made current through it. Because `mCurrentTrack` is
  missing from the constructor's initialiser list, a fresh dock's current
  track is an arbitrary integer (`TimelineDock.Initial` takes it as a parameter).
- `getClipInfo` lets `trackIndex == tracksCount` through to the model.

## Model

| member | source | states |
|---|---|---|
| TimelineDock.Initial | v2/timelinedock.cpp:15-20 | a fresh dock has position 0 and selection 0, while its current track is whatever value it is given: the initialiser list never sets it, so any integer is possible |
| TimelineDock.SetPosition | v2/timelinedock.cpp:59-67 | the stored position never exceeds the tracks-area length and never exceeds the request; it is the request or the area length; current track and selection are untouched |
| TimelineDock.SetCurrentTrack | v2/timelinedock.cpp:69-77 | a track index below 0 or at least 2 becomes current; an index in [0, 2) leaves the whole state unchanged |
| TimelineDock.SetSelection | v2/timelinedock.cpp:79-85 | reading the selection back gives the stored value; position and current track are untouched |
| TimelineDock.AddClip | v2/timelinedock.cpp:94-100 | exactly one append call, on the given track, or on the current track when the index is negative; the dock is unchanged |
| TimelineDock.CopyClip | v2/timelinedock.cpp:102-108 | exactly one copy call carrying the current selection, on the given track or on the current track when the index is negative |
| TimelineDock.SplitClip | v2/timelinedock.cpp:114-127 | at most one split call, always with non-negative indices at the playhead; given indices are forwarded as is; a searched clip really lies under the playhead; no call happens exactly when a search was needed and no track has a clip there, and then the dock is unchanged; otherwise the split track is passed through the current-track setter |
| TimelineDock.RemoveClip | v2/timelinedock.cpp:129-135 | no call exactly when an index is negative; otherwise one remove call with the indices unchanged; the dock is unchanged |
| TimelineDock.ScanTracks | v2/timelinedock.cpp:151-162 | the scan returns nothing or a clip truly under the position, on a track at or above the start that is not the current track; every skipped non-current track has no clip; it returns nothing exactly when no non-current track from the start on has a clip |
| TimelineDock.ChooseClipAtPosition | v2/timelinedock.cpp:137-163 | soundness (nothing, or a clip truly at the position on an existing track) and completeness (nothing only when no track has a clip there) |
| TimelineDock.ClipIndexAtPosition | v2/timelinedock.cpp:165-175 | a negative track stands for the current track; for an existing track the model's answer is returned, otherwise -1; the result is non-negative exactly when that track has a clip there |
| TimelineDock.ClipIndexAtPlayhead | v2/timelinedock.cpp:177-179 | a negative track stands for the current track; at the playhead, an existing track gives the model's own answer and any other track gives -1; the result is non-negative exactly when that track has a clip under the playhead |
| TimelineDock.GetClipInfo | v2/timelinedock.cpp:181-187 | a negative index or a track beyond the count gives false and no call; otherwise the model's answer and one info call, including for track == count |
| DockProperties.SetPositionIdempotent | v2/timelinedock.cpp:59-67 | storing the clamped position again, or repeating the request, changes nothing |
| DockProperties.SetPositionIsMinimum | v2/timelinedock.cpp:59-67 | any common lower bound of the request and the area length bounds the stored position, so it is their minimum |
| DockProperties.SetPositionNoLowerClamp | v2/timelinedock.cpp:59-67 | a negative request is stored as is when the area length is non-negative |
| DockProperties.SetCurrentTrackTakesEffect | v2/timelinedock.cpp:69-77 | the current track reads back as the request exactly when the request is outside [0, 2) or already current |
| DockProperties.SetCurrentTrackRefusesFirstTwo | v2/timelinedock.cpp:69-77 | requesting track 0 or 1 leaves the current track as it was |
| DockProperties.SetSelectionOverwrites | v2/timelinedock.cpp:79-81 | a second selection replaces the first entirely |
| DockProperties.ChooseClipAtPositionIsPreferred | v2/timelinedock.cpp:137-163 | the search keeps a given track that has a clip, else takes the current track if it has one, else the lowest-indexed track with a clip, else nothing |
| DockProperties.PreferredIsUnique | v2/timelinedock.cpp:137-163 | the preference order admits a single answer |
| DockProperties.ChooseClipAtPositionCharacterised | v2/timelinedock.cpp:137-163 | a choice is the search's result if and only if it follows the preference order |
| DockProperties.ChooseAgreesWithPlayheadLookup | v2/timelinedock.cpp:138-143 | when the playhead lookup on a given track finds a clip, the search returns that track and clip |
| DockProperties.SplitClipCurrentTrack | v2/timelinedock.cpp:114-127 | a split changes the current track only to the split clip's track, and only when that index is at least 2 |
| DockProperties.SplitClipTargetIsPreferred | v2/timelinedock.cpp:114-127 | when an index is missing, the split acts on the clip the search prefers: the given track if it has a clip under the playhead, else the current track, else the lowest-indexed track with one |
| DockProperties.GetClipInfoRefusalIgnoresModel | v2/timelinedock.cpp:181-185 | refused requests get the same answer whatever the model holds |
| DockProperties.GetClipInfoAsksPastLastTrack | v2/timelinedock.cpp:181-187 | the model is asked about the track one past the last |
| Session.HandleKeepsCurrentTrackOutsideGuard | v2/timelinedock.cpp:69-135 | one request either keeps the current track or leaves it outside [0, 2), and issues no split or remove call with a negative index |
| Session.RunKeepsCurrentTrackOutsideGuard | v2/timelinedock.cpp:69-127 | after any sequence of requests the current track is the initial one or lies outside [0, 2) |
| Session.RunCallsGuarded | v2/timelinedock.cpp:114-135 | no sequence of requests makes a split or remove call with a negative index |
| Session.FreshDockCurrentTrack | v2/timelinedock.cpp:15-20 | if a fresh dock ends with current track 0 or 1, that was its uninitialised value |

## Left out

- Constructor wiring, `load` and `onVisibilityChanged` (v2/timelinedock.cpp:15-57): view-engine setup, import paths, image provider and signal connections; only the constructor's field initial values are modelled (`TimelineDock.Initial`).
- `timecode` (v2/timelinedock.cpp:87-92): its result comes from `QTime::setHMS`/`toString`, library code whose formatting of the out-of-range times it builds is not visible here.
- `cutClip` (v2/timelinedock.cpp:110-112): it only logs.
- `qDebug` logging and the `positionChanged` notification: no state is involved.
- The tracks model's internals (`TimelineTracksModel`, `ClipInfo` contents, `reload`, `referenceFrameRate`): the model is an oracle, and the effect of its mutations is not modelled. `GetClipInfo` returns only the boolean answer, not the filled-in `ClipInfo`.
- 32-bit `int` width: indices and positions are unbounded integers. The only arithmetic is the scan's increment, which stays below `tracksCount`, and the clamp's comparison, so no wrap-around can occur.
- `tracksCount` is a natural number; a negative count from the tracks model is not modelled.
- `getClipIndexAt` reads are not logged as calls; they are pure queries of the oracle.
