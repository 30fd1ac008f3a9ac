/**
  Properties of the timeline dock's operations that relate several calls or
  characterise a result independently of how it is computed.
 */
module DockProperties {
  import opened Tracks
  import opened TimelineDock

  /** Storing the clamped position again changes nothing: the clamp is idempotent. */
  lemma SetPositionIdempotent(m: TracksModel, d: DockState, position: int)
    ensures var r := SetPosition(m, d, position);
            SetPosition(m, r, r.position) == r
            && SetPosition(m, r, position) == r
  {
  }

  /** The stored position is the least of the request and the tracks-area length. */
  lemma SetPositionIsMinimum(m: TracksModel, d: DockState, position: int, bound: int)
    requires bound <= position && bound <= m.tracksAreaLength
    ensures bound <= SetPosition(m, d, position).position
  {
  }

  /** A negative playhead request is stored as is, given a non-negative area length. */
  lemma SetPositionNoLowerClamp(m: TracksModel, d: DockState, position: int)
    requires position < 0 <= m.tracksAreaLength
    ensures SetPosition(m, d, position).position == position < 0
  {
  }

  /** The current track becomes `track` exactly when the guard admits it or it already was. */
  lemma SetCurrentTrackTakesEffect(d: DockState, track: int)
    ensures CurrentTrack(SetCurrentTrack(d, track)) == track
            <==> track < 0 || track >= 2 || CurrentTrack(d) == track
  {
  }

  /** Neither 0 nor 1 can be made current by the setter from any other value. */
  lemma SetCurrentTrackRefusesFirstTwo(d: DockState, track: int)
    requires 0 <= track < 2
    ensures CurrentTrack(SetCurrentTrack(d, track)) == CurrentTrack(d)
  {
  }

  /** Selection is a plain stored value: setting it twice keeps the last one. */
  lemma SetSelectionOverwrites(d: DockState, s1: int, s2: int)
    ensures SetSelection(SetSelection(d, s1), s2) == SetSelection(d, s2)
  {
  }

  /**
    The search result described without reference to the search itself:
    the given track if it holds a clip, else the current track if it holds
    one, else the lowest-indexed track holding one, else nothing.
   */
  ghost predicate Preferred(m: TracksModel, d: DockState, position: int, track: int, c: Choice)
  {
    if track >= 0 && HasClipAt(m, track, position) then
      c == Choice(track, m.clipIndexAt(track, position))
    else if HasClipAt(m, CurrentTrack(d), position) then
      c == Choice(CurrentTrack(d), m.clipIndexAt(CurrentTrack(d), position))
    else if exists k :: HasClipAt(m, k, position) then
      HasClipAt(m, c.track, position)
      && c.clip == m.clipIndexAt(c.track, position)
      && forall k :: k < c.track ==> !HasClipAt(m, k, position)
    else
      c == NoClip
  }

  /** The search follows the preference order. */
  lemma ChooseClipAtPositionIsPreferred(m: TracksModel, d: DockState, position: int, track: int)
    ensures Preferred(m, d, position, track, ChooseClipAtPosition(m, d, position, track))
  {
  }

  /** The preference order pins down a single answer, so the search is deterministic. */
  lemma PreferredIsUnique(m: TracksModel, d: DockState, position: int, track: int, c1: Choice, c2: Choice)
    requires Preferred(m, d, position, track, c1)
    requires Preferred(m, d, position, track, c2)
    ensures c1 == c2
  {
  }

  /** A choice is what the search returns exactly when it follows the preference order. */
  lemma ChooseClipAtPositionCharacterised(m: TracksModel, d: DockState, position: int, track: int, c: Choice)
    ensures ChooseClipAtPosition(m, d, position, track) == c <==> Preferred(m, d, position, track, c)
  {
    ChooseClipAtPositionIsPreferred(m, d, position, track);
    if Preferred(m, d, position, track, c) {
      PreferredIsUnique(m, d, position, track, c, ChooseClipAtPosition(m, d, position, track));
    }
  }

  /** When the given track has a clip under the playhead, the search keeps it. */
  lemma ChooseAgreesWithPlayheadLookup(m: TracksModel, d: DockState, track: int)
    requires track >= 0 && ClipIndexAtPlayhead(m, d, track) >= 0
    ensures ChooseClipAtPosition(m, d, d.position, track)
            == Choice(track, ClipIndexAtPlayhead(m, d, track))
  {
  }

  /**
    A split only moves the current track to the split clip's track, and only
    when that track index is 2 or more.
   */
  lemma SplitClipCurrentTrack(m: TracksModel, d: DockState, track: int, clip: int)
    ensures var r := SplitClip(m, d, track, clip);
            r.dock.currentTrack != d.currentTrack ==>
              r.calls != [] && r.dock.currentTrack == r.calls[0].track >= 2
  {
  }

  /**
    When an index is missing, the clip a split acts on is the one the search
    prefers: the given track, then the current track, then the lowest track.
   */
  lemma SplitClipTargetIsPreferred(m: TracksModel, d: DockState, track: int, clip: int)
    requires track < 0 || clip < 0
    ensures var r := SplitClip(m, d, track, clip);
            r.calls != [] ==>
              Preferred(m, d, d.position, track, Choice(r.calls[0].track, r.calls[0].clip))
  {
    ChooseClipAtPositionIsPreferred(m, d, d.position, track);
  }

  /** getClipInfo refuses the same requests whatever the model would have answered. */
  lemma GetClipInfoRefusalIgnoresModel(m1: TracksModel, m2: TracksModel, track: int, clip: int)
    requires m1.tracksCount == m2.tracksCount
    requires track < 0 || track > m1.tracksCount || clip < 0
    ensures GetClipInfo(m1, track, clip) == GetClipInfo(m2, track, clip)
  {
  }

  /** getClipInfo consults the model about the track one past the last. */
  lemma GetClipInfoAsksPastLastTrack(m: TracksModel, clip: int)
    requires clip >= 0
    ensures GetClipInfo(m, m.tracksCount, clip).calls == [Info(m.tracksCount, clip)]
  {
  }
}
