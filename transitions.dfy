/** The player store's state as one record, and each store action as a total
    function from the state before the action to the state after it. The
    class in module Store performs the same updates in place and is proved
    to agree with these functions; the properties of the actions are proved
    here, once, about the functions. */
module Transitions {
  import opened PlayerTypes

  /** Every field of the store that the queue and transport logic reads or
      writes. `currentQueueIndex` is -1 before any queue exists;
      `hasSeekHandler` says whether a playback device has registered the
      function that `seekTo` forwards to; `promotedTracks` lists the promoted
      ids in the order they were promoted, as a JavaScript `Set` does. */
  datatype PlayerState = PlayerState(
    tracks: Catalog,
    currentTrack: Option<Track>,
    currentRelease: Option<Release>,
    isPlaying: bool,
    currentTime: real,
    hasSeekHandler: bool,
    repeatMode: RepeatMode,
    queue: seq<string>,
    currentQueueIndex: int,
    queueMode: Option<QueueMode>,
    queueContext: Option<string>,
    promotedTracks: seq<string>)

  /** The store as created: empty catalog, nothing loaded, no queue. */
  const Initial: PlayerState := PlayerState(
    map[], None, None, false, 0.0, false, Off, [], -1, None, None, [])

  /** The queue position invariant: a non-empty queue has a valid position;
      an empty queue has position -1 (never set) or 0 (set to empty). */
  ghost predicate IndexInRange(s: PlayerState)
  {
    if |s.queue| == 0 then -1 <= s.currentQueueIndex <= 0
    else 0 <= s.currentQueueIndex < |s.queue|
  }

  /** The store invariant: the position invariant, and no id promoted
      twice. */
  ghost predicate Invariant(s: PlayerState)
  {
    IndexInRange(s) && Distinct(s.promotedTracks)
  }

  /** The current track is the catalog entry of the id at the current
      queue position. */
  ghost predicate CurrentMatchesQueue(s: PlayerState)
  {
    0 <= s.currentQueueIndex < |s.queue| &&
    s.queue[s.currentQueueIndex] in s.tracks &&
    s.currentTrack == Some(s.tracks[s.queue[s.currentQueueIndex]])
  }

  /** A successful move: the track at position `j` is current and playing
      from the start, and nothing outside the transport and the position
      has changed. */
  ghost predicate MovedTo(s: PlayerState, r: PlayerState, j: int)
  {
    0 <= j < |s.queue| && s.queue[j] in s.tracks &&
    r == s.(currentTrack := Some(s.tracks[s.queue[j]]), currentQueueIndex := j,
            isPlaying := true, currentTime := 0.0)
  }

  /** The catalog replaced wholesale (the assignment that ends a catalog load). */
  function LoadTracks(s: PlayerState, catalog: Catalog): (r: PlayerState)
    ensures r.tracks == catalog
    ensures r.(tracks := s.tracks) == s
  {
    s.(tracks := catalog)
  }

  /** `context || null`: an absent or empty context is stored as null. */
  function ContextOrNull(context: Option<string>): (r: Option<string>)
    ensures r == None <==> context == None || context == Some("")
    ensures r != None ==> r == context
  {
    if context == Some("") then None else context
  }

  function SetQueue(s: PlayerState, trackIds: seq<string>, mode: QueueMode,
                    context: Option<string>): (r: PlayerState)
    ensures r.queue == trackIds && r.currentQueueIndex == 0
    ensures r.queueMode == Some(mode) && r.queueContext == ContextOrNull(context)
    ensures r.(queue := s.queue, currentQueueIndex := s.currentQueueIndex,
               queueMode := s.queueMode, queueContext := s.queueContext) == s
  {
    s.(queue := trackIds, currentQueueIndex := 0, queueMode := Some(mode),
       queueContext := ContextOrNull(context))
  }

  function PlayTrack(s: PlayerState, trackId: string, release: Option<Release>): (r: PlayerState)
    // an unknown id is ignored
    ensures trackId !in s.tracks ==> r == s
    // a known id becomes the current, playing track at a position holding it
    ensures trackId in s.tracks ==>
      && r.currentTrack == Some(s.tracks[trackId]) && r.currentRelease == release
      && r.isPlaying && r.currentTime == 0.0
      && CurrentMatchesQueue(r) && r.queue[r.currentQueueIndex] == trackId
      && r.tracks == s.tracks && r.repeatMode == s.repeatMode
      && r.promotedTracks == s.promotedTracks && r.hasSeekHandler == s.hasSeekHandler
  {
    if trackId !in s.tracks then s
    else
      var indexInQueue := FirstIndex(s.queue, trackId);
      if indexInQueue >= 0 then
        s.(currentTrack := Some(s.tracks[trackId]), currentRelease := release,
           isPlaying := true, currentQueueIndex := indexInQueue, currentTime := 0.0)
      else
        s.(currentTrack := Some(s.tracks[trackId]), currentRelease := release,
           isPlaying := true, queue := [trackId], currentQueueIndex := 0,
           queueMode := None, queueContext := None, currentTime := 0.0)
  }

  function TogglePlay(s: PlayerState): (r: PlayerState)
    ensures r.isPlaying == !s.isPlaying
    ensures r.(isPlaying := s.isPlaying) == s
  {
    s.(isPlaying := !s.isPlaying)
  }

  /** Make position `j` current when it holds a catalog track; otherwise, as
      for a JavaScript array read out of range or a missing catalog entry,
      nothing happens. */
  function MoveTo(s: PlayerState, j: int): (r: PlayerState)
    ensures r == s || MovedTo(s, r, j)
    ensures 0 <= j < |s.queue| && s.queue[j] in s.tracks ==> MovedTo(s, r, j)
  {
    if 0 <= j < |s.queue| && s.queue[j] in s.tracks then
      s.(currentTrack := Some(s.tracks[s.queue[j]]), currentQueueIndex := j,
         isPlaying := true, currentTime := 0.0)
    else s
  }

  function PlayNext(s: PlayerState): (r: PlayerState)
    // the queue, its origin, the release context and the modes never change
    ensures r.tracks == s.tracks && r.queue == s.queue && r.queueMode == s.queueMode
    ensures r.queueContext == s.queueContext && r.currentRelease == s.currentRelease
    ensures r.repeatMode == s.repeatMode && r.promotedTracks == s.promotedTracks
    ensures r.hasSeekHandler == s.hasSeekHandler
    // either nothing happens or a queued catalog track starts from 0
    ensures r == s || (CurrentMatchesQueue(r) && r.isPlaying && r.currentTime == 0.0)
    ensures s.repeatMode == One || |s.queue| == 0 ==> r == s
    ensures s.repeatMode == Off && s.currentQueueIndex == |s.queue| - 1 ==> r == s
  {
    if s.repeatMode == One || |s.queue| == 0 then s
    else
      var nextIndex := s.currentQueueIndex + 1;
      if nextIndex >= |s.queue| && s.repeatMode != All then s
      else MoveTo(s, if nextIndex >= |s.queue| then 0 else nextIndex)
  }

  function PlayPrevious(s: PlayerState): (r: PlayerState)
    ensures r.tracks == s.tracks && r.queue == s.queue && r.queueMode == s.queueMode
    ensures r.queueContext == s.queueContext && r.currentRelease == s.currentRelease
    ensures r.repeatMode == s.repeatMode && r.promotedTracks == s.promotedTracks
    ensures r.hasSeekHandler == s.hasSeekHandler
    ensures r == s || (CurrentMatchesQueue(r) && r.isPlaying && r.currentTime == 0.0)
    ensures |s.queue| == 0 ==> r == s
  {
    if |s.queue| == 0 then s
    else
      var prevIndex := s.currentQueueIndex - 1;
      MoveTo(s, if prevIndex < 0 then |s.queue| - 1 else prevIndex)
  }

  function SetCurrentTime(s: PlayerState, time: real): (r: PlayerState)
    ensures r.currentTime == time
    ensures r.(currentTime := s.currentTime) == s
  {
    s.(currentTime := time)
  }

  /** A playback device registering its seek handler. */
  function AttachSeekHandler(s: PlayerState): (r: PlayerState)
    ensures r.hasSeekHandler
    ensures r.(hasSeekHandler := s.hasSeekHandler) == s
  {
    s.(hasSeekHandler := true)
  }

  /** `seekTo`: the time handed to the registered seek handler, if any. */
  function SeekTo(s: PlayerState, time: real): (forwarded: Option<real>)
    ensures forwarded.Some? <==> s.hasSeekHandler
    ensures forwarded.Some? ==> forwarded.value == time
  {
    if s.hasSeekHandler then Some(time) else None
  }

  /** `isPromoted`: whether the id is in the promoted set (`Set.has`). */
  function IsPromoted(s: PlayerState, trackId: string): (promoted: bool)
    ensures promoted <==> trackId in s.promotedTracks
  {
    trackId in s.promotedTracks
  }

  /** `togglePromote`: a promoted id is deleted, any other id is added at
      the end of the insertion order. */
  function TogglePromote(s: PlayerState, trackId: string): (r: PlayerState)
    ensures IsPromoted(r, trackId) == !IsPromoted(s, trackId)
    ensures r.(promotedTracks := s.promotedTracks) == s
  {
    var promoted := s.promotedTracks;
    s.(promotedTracks := if trackId in promoted then Without(promoted, trackId)
                         else promoted + [trackId])
  }

  function CycleRepeatMode(s: PlayerState): (r: PlayerState)
    ensures r.repeatMode == NextRepeatMode(s.repeatMode)
    ensures r.(repeatMode := s.repeatMode) == s
  {
    s.(repeatMode := NextRepeatMode(s.repeatMode))
  }

  /** The end-of-track rule: repeat `one` restarts the same track at time 0;
      every other mode advances as the next button does. */
  function PlaybackEnded(s: PlayerState): (r: PlayerState)
    ensures s.repeatMode == One ==> r.currentTime == 0.0 && r.(currentTime := s.currentTime) == s
    ensures s.repeatMode != One ==> r == PlayNext(s)
  {
    if s.repeatMode == One then s.(currentTime := 0.0) else PlayNext(s)
  }

  /** The actions a caller can perform on the store. */
  datatype Action =
    | LoadTracksAction(catalog: Catalog)
    | PlayTrackAction(trackId: string, release: Option<Release>)
    | TogglePlayAction
    | SetQueueAction(trackIds: seq<string>, mode: QueueMode, context: Option<string>)
    | PlayNextAction
    | PlayPreviousAction
    | SetCurrentTimeAction(time: real)
    | AttachSeekHandlerAction
    | TogglePromoteAction(trackId: string)
    | CycleRepeatModeAction
    | PlaybackEndedAction

  function Apply(s: PlayerState, a: Action): (r: PlayerState)
  {
    match a
    case LoadTracksAction(catalog) => LoadTracks(s, catalog)
    case PlayTrackAction(id, release) => PlayTrack(s, id, release)
    case TogglePlayAction => TogglePlay(s)
    case SetQueueAction(ids, mode, context) => SetQueue(s, ids, mode, context)
    case PlayNextAction => PlayNext(s)
    case PlayPreviousAction => PlayPrevious(s)
    case SetCurrentTimeAction(time) => SetCurrentTime(s, time)
    case AttachSeekHandlerAction => AttachSeekHandler(s)
    case TogglePromoteAction(id) => TogglePromote(s, id)
    case CycleRepeatModeAction => CycleRepeatMode(s)
    case PlaybackEndedAction => PlaybackEnded(s)
  }

  /** The state after performing `actions` in order. */
  function Run(s: PlayerState, actions: seq<Action>): (r: PlayerState)
    decreases |actions|
  {
    if |actions| == 0 then s else Run(Apply(s, actions[0]), actions[1..])
  }

  /** `playNext` called `k` times in a row. */
  function PlayNextTimes(s: PlayerState, k: nat): (r: PlayerState)
  {
    if k == 0 then s else PlayNext(PlayNextTimes(s, k - 1))
  }
}
