/**
  Sequences of UI requests handled by the dock. The tracks model may change
  between requests (the dock's own mutations, reloads), so each request is
  answered against its own snapshot of the model.
 */
module Session {
  import opened Tracks
  import opened TimelineDock

  /** The state-changing requests the UI sends to the dock. */
  datatype Request =
    | Seek(position: int)
    | FocusTrack(track: int)
    | ChangeSelection(selection: int)
    | AddTo(track: int)
    | CopyTo(track: int)
    | SplitAt(track: int, clip: int)
    | RemoveAt(track: int, clip: int)

  function Handle(m: TracksModel, d: DockState, req: Request): Step
  {
    match req
    case Seek(p) => Step(SetPosition(m, d, p), [])
    case FocusTrack(t) => Step(SetCurrentTrack(d, t), [])
    case ChangeSelection(s) => Step(SetSelection(d, s), [])
    case AddTo(t) => AddClip(d, t)
    case CopyTo(t) => CopyClip(d, t)
    case SplitAt(t, c) => SplitClip(m, d, t, c)
    case RemoveAt(t, c) => RemoveClip(d, t, c)
  }

  /** Requests handled in order; `models[i]` is the tracks model seen by `reqs[i]`. */
  function Run(models: seq<TracksModel>, d: DockState, reqs: seq<Request>): Step
    requires |models| == |reqs|
    decreases |reqs|
  {
    if reqs == [] then Step(d, [])
    else
      var first := Handle(models[0], d, reqs[0]);
      var rest := Run(models[1..], first.dock, reqs[1..]);
      Step(rest.dock, first.calls + rest.calls)
  }

  /** Split and remove calls never carry a negative index. */
  predicate Guarded(call: ModelCall)
  {
    (call.Split? ==> call.track >= 0 && call.clip >= 0)
    && (call.Remove? ==> call.track >= 0 && call.clip >= 0)
  }

  lemma HandleKeepsCurrentTrackOutsideGuard(m: TracksModel, d: DockState, req: Request)
    ensures var r := Handle(m, d, req);
            r.dock.currentTrack == d.currentTrack || r.dock.currentTrack < 0 || r.dock.currentTrack >= 2
    ensures forall call :: call in Handle(m, d, req).calls ==> Guarded(call)
  {
  }

  /**
    Whatever the requests, the current track ends either where it started or
    outside [0, 2): a dock whose uninitialised track is not 0 or 1 never
    makes track 0 or 1 current.
   */
  lemma {:induction false} RunKeepsCurrentTrackOutsideGuard(models: seq<TracksModel>, d: DockState, reqs: seq<Request>)
    requires |models| == |reqs|
    ensures var r := Run(models, d, reqs);
            r.dock.currentTrack == d.currentTrack || r.dock.currentTrack < 0 || r.dock.currentTrack >= 2
    decreases |reqs|
  {
    if reqs != [] {
      var first := Handle(models[0], d, reqs[0]);
      HandleKeepsCurrentTrackOutsideGuard(models[0], d, reqs[0]);
      RunKeepsCurrentTrackOutsideGuard(models[1..], first.dock, reqs[1..]);
    }
  }

  /** No run ever asks the tracks model to split or remove at a negative index. */
  lemma {:induction false} RunCallsGuarded(models: seq<TracksModel>, d: DockState, reqs: seq<Request>)
    requires |models| == |reqs|
    ensures forall call :: call in Run(models, d, reqs).calls ==> Guarded(call)
    decreases |reqs|
  {
    if reqs != [] {
      var first := Handle(models[0], d, reqs[0]);
      HandleKeepsCurrentTrackOutsideGuard(models[0], d, reqs[0]);
      RunCallsGuarded(models[1..], first.dock, reqs[1..]);
    }
  }

  /** A fresh dock keeps its uninitialised current track unless a value outside [0, 2) is stored. */
  lemma FreshDockCurrentTrack(models: seq<TracksModel>, uninitialisedTrack: int, reqs: seq<Request>)
    requires |models| == |reqs|
    ensures var track := Run(models, Initial(uninitialisedTrack), reqs).dock.currentTrack;
            0 <= track < 2 ==> track == uninitialisedTrack
  {
    RunKeepsCurrentTrackOutsideGuard(models, Initial(uninitialisedTrack), reqs);
  }
}
