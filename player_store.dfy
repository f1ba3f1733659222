/** The player store as a mutable object: one field per piece of store state
    and one method per action, each updating the fields in place the way
    the store's `set({...})` calls do. Every method is proved to leave the
    object in the state that the matching function of module Transitions
    computes from the state before it. */
module Store {
  import opened PlayerTypes
  import Transitions
  import TransitionLemmas

  /** `queue.indexOf(x)`: a forward linear search for the first occurrence. */
  method IndexOf<T(==)>(queue: seq<T>, x: T) returns (index: int)
    ensures index == FirstIndex(queue, x)
  {
    var i := 0;
    while i < |queue|
      invariant 0 <= i <= |queue|
      invariant forall j :: 0 <= j < i ==> queue[j] != x
    {
      if queue[i] == x {
        return i;
      }
      i := i + 1;
    }
    return -1;
  }

  class PlayerStore {
    // catalog, read by the actions and replaced only by a catalog load
    var tracks: Catalog
    // transport
    var currentTrack: Option<Track>
    var currentRelease: Option<Release>
    var isPlaying: bool
    var currentTime: real
    // whether a playback device has registered its seek handler
    var hasSeekHandler: bool
    var repeatMode: RepeatMode
    // queue
    var queue: seq<string>
    var currentQueueIndex: int
    var queueMode: Option<QueueMode>
    var queueContext: Option<string>
    // promoted track ids, in the order they were promoted
    var promotedTracks: seq<string>

    /** The store's fields as one value. */
    function Snapshot(): (snapshot: Transitions.PlayerState)
      reads this
    {
      Transitions.PlayerState(tracks, currentTrack, currentRelease, isPlaying,
        currentTime, hasSeekHandler, repeatMode, queue, currentQueueIndex, queueMode,
        queueContext, promotedTracks)
    }

    ghost predicate Valid()
      reads this
    {
      Transitions.Invariant(Snapshot())
    }

    constructor ()
      ensures Valid() && Snapshot() == Transitions.Initial
    {
      tracks := map[];
      currentTrack := None;
      currentRelease := None;
      isPlaying := false;
      currentTime := 0.0;
      repeatMode := Off;
      hasSeekHandler := false;
      queue := [];
      currentQueueIndex := -1;
      queueMode := None;
      queueContext := None;
      promotedTracks := [];
    }

    /** The assignment that ends a catalog load; the fetch itself is not
        modelled, its result is the parameter. */
    method LoadTracks(catalog: Catalog)
      requires Valid()
      modifies this
      ensures Valid()
      ensures Snapshot() == Transitions.LoadTracks(old(Snapshot()), catalog)
    {
      tracks := catalog;
    }

    method PlayTrack(trackId: string, release: Option<Release>)
      requires Valid()
      modifies this
      ensures Valid()
      ensures Snapshot() == Transitions.PlayTrack(old(Snapshot()), trackId, release)
    {
      if trackId in tracks {
        var track := tracks[trackId];
        var indexInQueue := IndexOf(queue, trackId);
        if indexInQueue >= 0 {
          Start(track, indexInQueue);
          currentRelease := release;
        } else {
          queue := [trackId];
          queueMode := None;
          queueContext := None;
          Start(track, 0);
          currentRelease := release;
        }
      }
    }

    /** The transport part of every successful play: `track` at `index`,
        playing from the start. */
    method Start(track: Track, index: int)
      modifies this
      ensures Snapshot() == old(Snapshot()).(currentTrack := Some(track),
        currentQueueIndex := index, isPlaying := true, currentTime := 0.0)
    {
      currentTrack := Some(track);
      currentQueueIndex := index;
      isPlaying := true;
      currentTime := 0.0;
    }

    method TogglePlay()
      requires Valid()
      modifies this
      ensures Valid()
      ensures Snapshot() == Transitions.TogglePlay(old(Snapshot()))
    {
      isPlaying := !isPlaying;
    }

    method SetQueue(trackIds: seq<string>, mode: QueueMode, context: Option<string>)
      requires Valid()
      modifies this
      ensures Valid()
      ensures Snapshot() == Transitions.SetQueue(old(Snapshot()), trackIds, mode, context)
    {
      queue := trackIds;
      currentQueueIndex := 0;
      queueMode := Some(mode);
      queueContext := if context == Some("") then None else context;
    }

    method PlayNext()
      requires Valid()
      modifies this
      ensures Valid()
      ensures Snapshot() == Transitions.PlayNext(old(Snapshot()))
    {
      // with repeat `one` the end-of-track rule restarts the track instead
      if repeatMode == One {
        return;
      }
      if |queue| == 0 {
        return;
      }
      var nextIndex := currentQueueIndex + 1;
      if nextIndex >= |queue| {
        if repeatMode == All {
          nextIndex := 0;
        } else {
          return;
        }
      }
      var nextTrackId := queue[nextIndex];
      if nextTrackId in tracks {
        Start(tracks[nextTrackId], nextIndex);
      }
    }

    method PlayPrevious()
      requires Valid()
      modifies this
      ensures Valid()
      ensures Snapshot() == Transitions.PlayPrevious(old(Snapshot()))
    {
      if |queue| == 0 {
        return;
      }
      var prevIndex := currentQueueIndex - 1;
      if prevIndex < 0 {
        prevIndex := |queue| - 1;
      }
      var prevTrackId := queue[prevIndex];
      if prevTrackId in tracks {
        Start(tracks[prevTrackId], prevIndex);
      }
    }

    method SetCurrentTime(time: real)
      requires Valid()
      modifies this
      ensures Valid()
      ensures Snapshot() == Transitions.SetCurrentTime(old(Snapshot()), time)
    {
      currentTime := time;
    }

    /** The playback device registering its seek handler with the store. */
    method AttachSeekHandler()
      requires Valid()
      modifies this
      ensures Valid()
      ensures Snapshot() == Transitions.AttachSeekHandler(old(Snapshot()))
    {
      hasSeekHandler := true;
    }

    /** `seekTo`: the requested time is handed to the registered seek handler,
        if there is one. `seekTo` itself assigns no field; what the handler
        then does is not modelled. */
    method SeekTo(time: real) returns (forwarded: Option<real>)
      requires Valid()
      ensures forwarded == Transitions.SeekTo(Snapshot(), time)
    {
      if hasSeekHandler {
        forwarded := Some(time);
      } else {
        forwarded := None;
      }
    }

    method TogglePromote(trackId: string)
      requires Valid()
      modifies this
      ensures Valid()
      ensures Snapshot() == Transitions.TogglePromote(old(Snapshot()), trackId)
    {
      TransitionLemmas.TogglePromoteOrder(Snapshot(), trackId);
      var newPromoted := promotedTracks;
      if trackId in newPromoted {
        newPromoted := Without(newPromoted, trackId);
      } else {
        newPromoted := newPromoted + [trackId];
      }
      promotedTracks := newPromoted;
    }

    function IsPromoted(trackId: string): (promoted: bool)
      reads this
      ensures promoted == Transitions.IsPromoted(Snapshot(), trackId)
    {
      trackId in promotedTracks
    }

    method CycleRepeatMode()
      requires Valid()
      modifies this
      ensures Valid()
      ensures Snapshot() == Transitions.CycleRepeatMode(old(Snapshot()))
    {
      var currentIndex := IndexOf(RepeatModes, repeatMode);
      var nextIndex := (currentIndex + 1) % |RepeatModes|;
      repeatMode := RepeatModes[nextIndex];
    }

    /** The device's end-of-track event: with repeat `one` the same track
        restarts from 0; otherwise the queue advances as for `playNext`. */
    method OnPlaybackEnded()
      requires Valid()
      modifies this
      ensures Valid()
      ensures Snapshot() == Transitions.PlaybackEnded(old(Snapshot()))
    {
      if repeatMode == One {
        SetCurrentTime(0.0);
      } else {
        PlayNext();
      }
    }
  }
}
