/**
  The timeline dock: the glue between timeline UI requests and the tracks
  model. Every operation is a pure function of the tracks-model snapshot,
  the dock state and the request's arguments; mutations of the tracks model
  come back as a log of calls.
 */
module TimelineDock {
  import opened Tracks

  /** The dock's own fields: playhead position, current track, selection. */
  datatype DockState = DockState(position: int, currentTrack: int, selection: int)

  /** The dock state after an operation and the tracks-model calls it issued. */
  datatype Step = Step(dock: DockState, calls: seq<ModelCall>)

  /** A (track, clip) pair; `NoClip` is the "nothing found" answer. */
  datatype Choice = Choice(track: int, clip: int)

  const NoClip := Choice(-1, -1)

  /** Answer of getClipInfo together with the calls it issued. */
  datatype InfoReply = InfoReply(found: bool, calls: seq<ModelCall>)

  /**
    A freshly constructed dock: position and selection start at 0, but the
    current track is never initialised, so it may hold any value.
   */
  function Initial(uninitialisedTrack: int): (d: DockState)
    ensures d.position == 0 && Selection(d) == 0
    ensures CurrentTrack(d) == uninitialisedTrack
  {
    DockState(0, uninitialisedTrack, 0)
  }

  /** The playhead is clamped from above only: nothing stops a negative position. */
  function SetPosition(m: TracksModel, d: DockState, position: int): (r: DockState)
    ensures r.position <= m.tracksAreaLength
    ensures r.position <= position
    ensures r.position == position || r.position == m.tracksAreaLength
    ensures r.currentTrack == d.currentTrack && r.selection == d.selection
  {
    if position <= m.tracksAreaLength then d.(position := position)
    else d.(position := m.tracksAreaLength)
  }

  /** The guard keeps the stored track outside [0, 2): tracks 0 and 1 are refused. */
  function SetCurrentTrack(d: DockState, track: int): (r: DockState)
    ensures track < 0 || 2 <= track ==> r.currentTrack == track
    ensures 0 <= track < 2 ==> r == d
    ensures r.position == d.position && r.selection == d.selection
  {
    if track < 0 || track >= 2 then d.(currentTrack := track) else d
  }

  function CurrentTrack(d: DockState): int
  {
    d.currentTrack
  }

  function SetSelection(d: DockState, selection: int): (r: DockState)
    ensures Selection(r) == selection
    ensures r.position == d.position && r.currentTrack == d.currentTrack
  {
    d.(selection := selection)
  }

  function Selection(d: DockState): int
  {
    d.selection
  }

  /** A negative track index stands for the current track. */
  function ResolveTrack(d: DockState, track: int): int
  {
    if track < 0 then CurrentTrack(d) else track
  }

  /** addClip: appends to the given track, or to the current track if none is given. */
  function AddClip(d: DockState, track: int): (r: Step)
    ensures r.dock == d
    ensures track >= 0 ==> r.calls == [Append(track)]
    ensures track < 0 ==> r.calls == [Append(d.currentTrack)]
  {
    Step(d, [Append(ResolveTrack(d, track))])
  }

  /** copyClip: copies the current selection onto the given or the current track. */
  function CopyClip(d: DockState, track: int): (r: Step)
    ensures r.dock == d
    ensures track >= 0 ==> r.calls == [Copy(track, Selection(d))]
    ensures track < 0 ==> r.calls == [Copy(d.currentTrack, Selection(d))]
  {
    Step(d, [Copy(ResolveTrack(d, track), Selection(d))])
  }

  /** removeClip: forwarded unchanged unless either index is negative. */
  function RemoveClip(d: DockState, track: int, clip: int): (r: Step)
    ensures r.dock == d
    ensures r.calls == [] <==> track < 0 || clip < 0
    ensures r.calls != [] ==> r.calls == [Remove(track, clip)]
  {
    if track < 0 || clip < 0 then Step(d, []) else Step(d, [Remove(track, clip)])
  }

  /**
    clipIndexAtPosition: the clip under `position` on the given (or current)
    track, or -1 when that track does not exist.
   */
  function ClipIndexAtPosition(m: TracksModel, d: DockState, track: int, position: int): (r: int)
    ensures r >= 0 <==> HasClipAt(m, ResolveTrack(d, track), position)
    ensures 0 <= ResolveTrack(d, track) < m.tracksCount ==>
              r == m.clipIndexAt(ResolveTrack(d, track), position)
    ensures !(0 <= ResolveTrack(d, track) < m.tracksCount) ==> r == -1
  {
    var t := ResolveTrack(d, track);
    if 0 <= t < m.tracksCount then m.clipIndexAt(t, position) else -1
  }

  /** clipIndexAtPlayhead: the lookup above at the dock's own position. */
  function ClipIndexAtPlayhead(m: TracksModel, d: DockState, track: int): (r: int)
    ensures r >= 0 <==> HasClipAt(m, ResolveTrack(d, track), d.position)
    ensures 0 <= ResolveTrack(d, track) < m.tracksCount ==>
              r == m.clipIndexAt(ResolveTrack(d, track), d.position)
    ensures !(0 <= ResolveTrack(d, track) < m.tracksCount) ==> r == -1
  {
    ClipIndexAtPosition(m, d, track, d.position)
  }

  /** A search answer is either "nothing" or a clip that really is at the position. */
  predicate Sound(m: TracksModel, position: int, c: Choice)
  {
    c == NoClip || (HasClipAt(m, c.track, position) && c.clip == m.clipIndexAt(c.track, position))
  }

  /**
    The last stage of chooseClipAtPosition: tracks `from` upwards, skipping
    the current track, stopping at the first one with a clip.
   */
  function ScanTracks(m: TracksModel, d: DockState, position: int, from: nat): (r: Choice)
    ensures Sound(m, position, r)
    ensures r != NoClip ==> from <= r.track && r.track != CurrentTrack(d)
    ensures r != NoClip ==>
              forall k :: from <= k < r.track && k != CurrentTrack(d) ==> !HasClipAt(m, k, position)
    ensures r == NoClip <==>
              forall k :: from <= k && k != CurrentTrack(d) ==> !HasClipAt(m, k, position)
    decreases m.tracksCount - from
  {
    if from >= m.tracksCount then NoClip
    else if from == CurrentTrack(d) then ScanTracks(m, d, position, from + 1)
    else
      var clip := ClipIndexAtPosition(m, d, from, position);
      if clip >= 0 then Choice(from, clip) else ScanTracks(m, d, position, from + 1)
  }

  /**
    chooseClipAtPosition: the given track first (when one is given), then the
    current track, then every other track in ascending order. The incoming
    clip index is overwritten on every path, so it is not a parameter here.
   */
  function ChooseClipAtPosition(m: TracksModel, d: DockState, position: int, track: int): (r: Choice)
    ensures Sound(m, position, r)
    ensures r == NoClip <==> forall k :: !HasClipAt(m, k, position)
  {
    var first := if track >= 0 then ClipIndexAtPosition(m, d, track, position) else -1;
    if track >= 0 && first >= 0 then Choice(track, first)
    else
      var current := CurrentTrack(d);
      var second := ClipIndexAtPosition(m, d, current, position);
      if second >= 0 then Choice(current, second)
      else ScanTracks(m, d, position, 0)
  }

  /** The clip splitClip acts on: the given one, or a search when either index is missing. */
  function ResolveClip(m: TracksModel, d: DockState, track: int, clip: int): Choice
  {
    if track < 0 || clip < 0 then ChooseClipAtPosition(m, d, d.position, track)
    else Choice(track, clip)
  }

  /**
    splitClip: resolves the clip, makes its track current (subject to the
    current-track guard) and splits it at the playhead. splitClip tests
    both indices again before splitting; after resolution that test always
    passes, so it does not appear here.
   */
  function SplitClip(m: TracksModel, d: DockState, track: int, clip: int): (r: Step)
    ensures |r.calls| <= 1
    ensures forall call :: call in r.calls ==>
              call.Split? && call.track >= 0 && call.clip >= 0 && call.position == d.position
    ensures track >= 0 && clip >= 0 ==> r.calls == [Split(track, clip, d.position)]
    ensures (track < 0 || clip < 0) && r.calls != [] ==>
              HasClipAt(m, r.calls[0].track, d.position)
              && r.calls[0].clip == m.clipIndexAt(r.calls[0].track, d.position)
    ensures r.calls == [] <==> (track < 0 || clip < 0) && forall k :: !HasClipAt(m, k, d.position)
    ensures r.calls == [] ==> r.dock == d
    ensures r.calls != [] ==> r.dock == SetCurrentTrack(d, r.calls[0].track)
  {
    var target := ResolveClip(m, d, track, clip);
    if target.track < 0 || target.clip < 0 then Step(d, [])
    else Step(SetCurrentTrack(d, target.track), [Split(target.track, target.clip, d.position)])
  }

  /**
    getClipInfo: refused without asking the model for a negative index or a
    track index beyond tracksCount; a track index equal to tracksCount is
    let through.
   */
  function GetClipInfo(m: TracksModel, track: int, clip: int): (r: InfoReply)
    ensures track < 0 || track > m.tracksCount || clip < 0 ==> r == InfoReply(false, [])
    ensures 0 <= track <= m.tracksCount && clip >= 0 ==>
              r.found == m.clipInfo(track, clip) && r.calls == [Info(track, clip)]
  {
    if track < 0 || track > m.tracksCount || clip < 0 then InfoReply(false, [])
    else InfoReply(m.clipInfo(track, clip), [Info(track, clip)])
  }
}
