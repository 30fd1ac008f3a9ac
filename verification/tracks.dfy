/**
  The tracks model as the timeline dock sees it.

  The dock never looks inside the tracks model: it reads the number of
  tracks, the length of the tracks area and the clip under a position, asks
  for clip information, and issues mutations. The model is therefore an
  oracle: its queries are fields of a value, and its mutations are recorded
  as a log of calls whose effect is not modelled.
 */
module Tracks {

  /** A snapshot of the tracks model's queries. */
  datatype TracksModel = TracksModel(
    tracksCount: nat,
    tracksAreaLength: int,
    // getClipIndexAt(track, position); a negative answer means "no clip there"
    clipIndexAt: (int, int) -> int,
    // getClipInfo(track, clip); the filled-in ClipInfo is opaque
    clipInfo: (int, int) -> bool)

  /** `track` is an existing track whose clip lookup at `position` finds a clip. */
  predicate HasClipAt(m: TracksModel, track: int, position: int)
  {
    0 <= track < m.tracksCount && m.clipIndexAt(track, position) >= 0
  }

  /** One call the dock issues on the tracks model. */
  datatype ModelCall =
    | Append(track: int)
    | Copy(track: int, selection: int)
    | Split(track: int, clip: int, position: int)
    | Remove(track: int, clip: int)
    | Info(track: int, clip: int)
}
