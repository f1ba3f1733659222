# Player store of archive-radio, modelled in Dafny

This project models the playback queue and transport state of the
archive-radio web player (`src/store/usePlayerStore.ts`). The store is one
mutable record. It holds:

- the queue of track ids, the current position in it, and where the queue came from;
- the transport: current track, release context, play/pause flag, time and repeat mode;
- the promoted (favourite) track ids, in the order they were promoted.

Its actions are synchronous, total updates of that record.

Files:

- `player_types.dfy` (module `PlayerTypes`): tracks, releases, the repeat and
  queue modes, and `FirstIndex`, the meaning of `Array.prototype.indexOf`.
  `Distinct` and `Without` describe a JavaScript `Set` as an
  insertion-ordered list without repeats and its `delete`.
  It also holds `NextRepeatMode`, the repeat button's cycle, computed as the
  source does: position in `['off', 'one', 'all']`, plus one, modulo three.
- `transitions.dfy` (module `Transitions`): the whole store state as the value
  `PlayerState`, with one total function per action. These functions are the
  specification the class is proved against.
- `transition_lemmas.dfy` (module `TransitionLemmas`): what the actions
  promise. It covers:
  - the store invariant (position in range, no id promoted twice) in every
    reachable state;
  - coherence of the current track with the queue position;
  - the no-op cases;
  - forward and backward moves, and the wrap-around asymmetry;
  - a full lap under repeat `all`;
  - the inverse relation of next and previous;
  - the repeat-mode cycle, the play-flag involution and the promotion order;
  - concrete scenarios.
- `player_store.dfy` (module `Store`): the class `PlayerStore`. It has the
  store's fields and one method per action, each updating the fields step by
  step as the source does. Each state-changing action method ensures that the
  new `Snapshot()` is the matching `Transitions` function of the old one;
  `SeekTo` and `IsPromoted` return the matching `Transitions` value. `IndexOf` is the
  linear search behind `queue.indexOf`.

Modelling choices:

- The catalog (`tracks`) is a `map<string, Track>`. Only `LoadTracks`
  replaces it; the fetch before that assignment is not modelled.
- The current track is held as the `Track` value looked up in the catalog.
- Playback time is a `real` that is only ever assigned.
- `promotedTracks` is a JavaScript `Set`, which iterates in insertion order;
  App.tsx:291 and App.tsx:309-310 turn it into the promoted queue with
  `Array.from`. The model keeps it as a `seq<string>` without repeats:
  `togglePromote` appends a new id or removes a promoted one.
- The seek handler that a playback device registers (the `seekHandler` field) is
  modelled as the flag `hasSeekHandler` in the state; the handler itself is
  foreign code.
- `release || null` and `context || null` become `Option`s. An empty-string
  context is falsy in JavaScript, so `setQueue` stores it as null
  (`ContextOrNull`).
- In the pure functions, a queue position outside the queue reads as "no
  track". In JavaScript such a read gives `undefined`, which names no catalog
  entry. The class methods instead keep `Valid()`, the store invariant, so
  they never read out of range.
- `togglePlay` flips `isPlaying` even when no track is loaded
  (usePlayerStore.ts:225).
- The position is -1 only in the store as created (usePlayerStore.ts:103);
  `setQueue([])` sets it to 0 (usePlayerStore.ts:231). So the invariant
  `IndexInRange` admits -1 or 0 for an empty queue.

## Model

The lemmas about queue positions assume the position invariant
`IndexInRange`, which `ReachableInvariant` proves for every state reachable
from the store as created.

| member | source | states |
|---|---|---|
| `PlayerTypes.FirstIndex` | src/store/usePlayerStore.ts:196 | `indexOf` is -1 exactly when the id is absent; otherwise it is a position holding the id with no earlier occurrence |
| `PlayerTypes.Without` | src/store/usePlayerStore.ts:312 | `delete(x)`: the result holds exactly the elements other than x, and is the input itself when x is absent |
| `PlayerTypes.WithoutKeepsDistinct` | src/store/usePlayerStore.ts:312 | deleting from a list without repeats leaves a list without repeats |
| `PlayerTypes.WithoutClosesGap` | src/store/usePlayerStore.ts:312 | in a list without repeats, deleting x removes exactly its one position and keeps the others in order |
| `PlayerTypes.WithoutLastAdded` | src/store/usePlayerStore.ts:312-314 | deleting an id just added at the end gives back the list from before the addition |
| `PlayerTypes.NextRepeatMode` | src/store/usePlayerStore.ts:325-331 | the index-and-modulo computation maps off to one, one to all, and all to off |
| `PlayerTypes.NextRepeatModeHasPeriodThree` | src/store/usePlayerStore.ts:325-331 | cycling the repeat mode changes it once and twice, and three times restores it |
| `Transitions.Initial` | src/store/usePlayerStore.ts:92-106 | the store as created: empty catalog, no track or release, paused at time 0, no seek handler, repeat off, empty queue at position -1, no mode or context, nothing promoted |
| `Transitions.LoadTracks` | src/store/usePlayerStore.ts:139 | a catalog load replaces the catalog and nothing else |
| `Transitions.ContextOrNull` | src/store/usePlayerStore.ts:233 | the stored context is null exactly when the given one is absent or the empty string; otherwise it is the given one |
| `Transitions.SetQueue` | src/store/usePlayerStore.ts:228-235 | queue = the given ids (empty allowed), position 0, the given mode and context; current track, play flag and every other field untouched |
| `Transitions.PlayTrack` | src/store/usePlayerStore.ts:190-221 | an unknown id changes nothing; a known id becomes the current, playing track from 0 with the given release, at a queue position that holds that id; catalog, repeat mode and promotions are untouched |
| `Transitions.TogglePlay` | src/store/usePlayerStore.ts:225 | negates the play flag and changes nothing else |
| `Transitions.MoveTo` | src/store/usePlayerStore.ts:259-269 | the look-up-then-set tail of `playNext` and `playPrevious`: a position holding a catalog id becomes current and plays from 0 with nothing else changed; any other target changes nothing |
| `Transitions.PlayNext` | src/store/usePlayerStore.ts:238-270 | never changes the queue, origin, release context or modes; it is a no-op with repeat one, on an empty queue, and at the last position with repeat off; otherwise either nothing happens or a queued catalog track becomes current and plays from 0 |
| `Transitions.PlayPrevious` | src/store/usePlayerStore.ts:273-296 | never changes the queue, origin, release context or modes; a no-op on an empty queue; otherwise either nothing happens or a queued catalog track becomes current and plays from 0 |
| `Transitions.SetCurrentTime` | src/store/usePlayerStore.ts:298 | sets the time to the given value and changes nothing else |
| `Transitions.AttachSeekHandler` | src/hooks/useAudio.ts:19-20 | registering the device's seek handler sets the handler flag and changes nothing else |
| `Transitions.SeekTo` | src/store/usePlayerStore.ts:300-305 | the time is forwarded exactly when a seek handler is registered, and it is forwarded unchanged |
| `Transitions.IsPromoted` | src/store/usePlayerStore.ts:320-323 | `isPromoted(id)` is plain membership of the id in the promoted set; `TogglePromoteFlipsOnly` ties it to `togglePromote` |
| `Transitions.TogglePromote` | src/store/usePlayerStore.ts:307-318 | flips the promotion of the given id and changes no other field |
| `Transitions.CycleRepeatMode` | src/store/usePlayerStore.ts:325-331 | the repeat mode becomes the next in the cycle; nothing else changes |
| `Transitions.PlaybackEnded` | src/hooks/useAudio.ts:38-48 | with repeat one the time resets to 0 and nothing else changes; otherwise the end of a track is exactly `playNext` |
| `TransitionLemmas.ApplyKeepsInvariant` | src/store/usePlayerStore.ts:190-318 | every action keeps the position within the queue (or at -1/0 for an empty queue) and never lists a promoted id twice |
| `TransitionLemmas.RunKeepsInvariant` | src/store/usePlayerStore.ts:190-318 | any sequence of actions keeps the store invariant |
| `TransitionLemmas.ReachableInvariant` | src/store/usePlayerStore.ts:92-106 | every state reachable from the initial store satisfies the store invariant |
| `TransitionLemmas.RunKeepsTrackLoaded` | src/store/usePlayerStore.ts:190-331 | once a track is current, no sequence of actions returns the transport to "no track" |
| `TransitionLemmas.ApplyKeepsCurrentMatchesQueue` | src/store/usePlayerStore.ts:196-218 | `playTrack` of a known id makes the current track the one at the current position; every action except `setQueue` and a catalog load keeps that true |
| `TransitionLemmas.PlayTrackQueueCases` | src/store/usePlayerStore.ts:196-218 | for a known id: if it is queued, queue, mode and context are kept and the position is its first occurrence; otherwise the queue becomes `[id]` at 0 with no mode or context |
| `TransitionLemmas.SetQueueThenPlayFirst` | src/store/usePlayerStore.ts:190-235 | when `ids` is non-empty and `ids[0]` is in the catalog, `setQueue(ids)` followed by `playTrack(ids[0])` keeps the whole new queue, with position 0, the given mode and context, playing `ids[0]` from 0 |
| `TransitionLemmas.PlayNextStaysPut` | src/store/usePlayerStore.ts:238-270 | `playNext` changes nothing in these cases: repeat one, an empty queue, the last position with repeat off, or a target id missing from the catalog |
| `TransitionLemmas.PlayNextAdvances` | src/store/usePlayerStore.ts:248-269 | when repeat is not one, the queue is non-empty, the position is not the last one under repeat off, and the id at (index + 1) mod length is in the catalog, `playNext` moves exactly there: the next track, or the first one with repeat all |
| `TransitionLemmas.PlayNextWithRepeatAll` | src/store/usePlayerStore.ts:248-269 | with repeat all and every queued id in the catalog, one `playNext` keeps queue, catalog and mode, moves to (index + 1) mod length and makes that position's track current |
| `TransitionLemmas.RotateStep` | src/store/usePlayerStore.ts:248-269 | with repeat all and every queued id in the catalog, a `playNext` from position a mod length lands on (a + 1) mod length, with that position's track current |
| `TransitionLemmas.PlayNextTimesRotates` | src/store/usePlayerStore.ts:248-269 | with repeat all and a fully resolvable queue, k calls of `playNext` land on (index + k) mod length, with the matching track current |
| `TransitionLemmas.PlayNextFullLap` | src/store/usePlayerStore.ts:248-269 | with repeat all and every queued id in the catalog, length-many calls of `playNext` return to the starting position and its track |
| `TransitionLemmas.PlayPreviousRetreats` | src/store/usePlayerStore.ts:276-295 | when the target id is in the catalog, `playPrevious` moves to (index - 1) mod length, from position 0 to the last position, in every repeat mode |
| `TransitionLemmas.PlayPreviousStaysPut` | src/store/usePlayerStore.ts:276-295 | `playPrevious` changes nothing on an empty queue or when the target id is missing from the catalog |
| `TransitionLemmas.PreviousUndoesNext` | src/store/usePlayerStore.ts:238-296 | when `playNext` succeeds (its target id is in the catalog) and the id at the original position is in the catalog, `playPrevious` returns to the original position and track |
| `TransitionLemmas.NextUndoesPreviousWithRepeatAll` | src/store/usePlayerStore.ts:238-296 | with repeat all, when `playPrevious` succeeds (its target id is in the catalog) and the id at the original position is in the catalog, `playNext` returns to the original position and track |
| `TransitionLemmas.PreviousFromStartIsOneWayWithRepeatOff` | src/store/usePlayerStore.ts:250-283 | with repeat off, a queue of at least two ids and the last id in the catalog, `playPrevious` from position 0 reaches the last position, and `playNext` cannot come back from there |
| `TransitionLemmas.EndOfQueueWithRepeatOffKeepsState` | src/hooks/useAudio.ts:44-47 | at the end of the last track with repeat off nothing changes, so the play flag stays as it was |
| `TransitionLemmas.RepeatOneRestartsOnlyAtEnd` | src/hooks/useAudio.ts:40-43 | with repeat one, the end of a track keeps track and position and resets the time, while a manual `playNext` does nothing |
| `TransitionLemmas.TogglePlayTwiceRestores` | src/store/usePlayerStore.ts:225 | toggling play twice restores the state |
| `TransitionLemmas.CycleRepeatModeThriceRestores` | src/store/usePlayerStore.ts:325-331 | three repeat-mode cycles restore the state |
| `TransitionLemmas.TogglePromoteFlipsOnly` | src/store/usePlayerStore.ts:307-323 | after `togglePromote(x)`, `isPromoted(x)` is negated and `isPromoted(y)` is unchanged for every other id y |
| `TransitionLemmas.TogglePromoteOrder` | src/store/usePlayerStore.ts:309-317 | on a list without repeats: a newly promoted id is appended last; an un-promoted id's gap closes with the others kept in order; the result has no repeats |
| `TransitionLemmas.TogglePromoteTwice` | src/store/usePlayerStore.ts:307-318 | toggling an unpromoted id twice restores the state; on a promoted list without repeats, toggling a promoted id twice moves it to the end of the promotion order and changes nothing else |
| `TransitionLemmas.NextFromLastOfThree` | src/store/usePlayerStore.ts:248-269 | on queue a, b, c at c with "a" in the catalog: `playNext` does nothing with repeat off, and moves to a at time 0 with repeat all |
| `TransitionLemmas.PlayThroughThreeTracks` | src/store/usePlayerStore.ts:190-270 | from a fresh store after loading a catalog that holds a, b and c: queue a, b, c, then `playTrack(a)` and two `playNext` calls play c; a third `playNext` changes nothing |
| `Store.IndexOf` | src/store/usePlayerStore.ts:196 | the forward linear search returns the first index of the id, or -1 exactly when it is absent |
| `Store.PlayerStore.constructor` | src/store/usePlayerStore.ts:92-106 | the initial store: empty catalog, no track, paused, time 0, repeat off, empty queue at -1, no mode or context, nothing promoted |
| `Store.PlayerStore.LoadTracks` | src/store/usePlayerStore.ts:139 | replaces the catalog as `Transitions.LoadTracks` does |
| `Store.PlayerStore.PlayTrack` | src/store/usePlayerStore.ts:190-221 | updates the fields in place exactly as `Transitions.PlayTrack` does and keeps the store invariant |
| `Store.PlayerStore.Start` | src/store/usePlayerStore.ts:200-218 | the transport part of a successful play: the given track at the given position, playing from 0, every other field unchanged |
| `Store.PlayerStore.TogglePlay` | src/store/usePlayerStore.ts:225 | updates the fields exactly as `Transitions.TogglePlay` does |
| `Store.PlayerStore.SetQueue` | src/store/usePlayerStore.ts:228-235 | updates the fields exactly as `Transitions.SetQueue` does and keeps the store invariant |
| `Store.PlayerStore.PlayNext` | src/store/usePlayerStore.ts:238-270 | the step-by-step index computation leaves the fields as `Transitions.PlayNext` says and keeps the store invariant |
| `Store.PlayerStore.PlayPrevious` | src/store/usePlayerStore.ts:273-296 | the step-by-step index computation leaves the fields as `Transitions.PlayPrevious` says and keeps the store invariant |
| `Store.PlayerStore.SetCurrentTime` | src/store/usePlayerStore.ts:298 | updates the fields exactly as `Transitions.SetCurrentTime` does |
| `Store.PlayerStore.AttachSeekHandler` | src/hooks/useAudio.ts:19-20 | updates the fields exactly as `Transitions.AttachSeekHandler` does |
| `Store.PlayerStore.SeekTo` | src/store/usePlayerStore.ts:300-305 | changes no field and forwards the time as `Transitions.SeekTo` says |
| `Store.PlayerStore.TogglePromote` | src/store/usePlayerStore.ts:307-318 | the copy-then-delete-or-add update leaves the fields as `Transitions.TogglePromote` says and keeps the store invariant |
| `Store.PlayerStore.IsPromoted` | src/store/usePlayerStore.ts:320-323 | answers the promotion query of `Transitions.IsPromoted` on the current fields |
| `Store.PlayerStore.CycleRepeatMode` | src/store/usePlayerStore.ts:325-331 | the `indexOf`-and-modulo update leaves the fields as `Transitions.CycleRepeatMode` says |
| `Store.PlayerStore.OnPlaybackEnded` | src/hooks/useAudio.ts:38-48 | the end-of-track event leaves the fields as `Transitions.PlaybackEnded` says |

## Left out

- Loading collections, tracks and the latest release (usePlayerStore.ts:109-187):
  asynchronous `fetch` and JSON parsing. Only the assignment of a loaded
  catalog is modelled (`LoadTracks`); `collections` and `latestRelease` are
  not part of this model.
- `setExpanded` and `isExpanded`: a UI-only flag, read by no action.
- `seekTo` forwards to a foreign callback. `SeekTo` models only whether the
  time is handed over. The handler's own effect on the device and the time
  (useAudio.ts:12-17) is not modelled.
- `src/hooks/useAudio.ts`, apart from the end-of-track rule: Howler sound
  objects, animation-frame progress ticks and play/pause syncing are device
  plumbing driven by asynchronous events.
- The race where a late progress tick overwrites a new track's time of 0 is
  not modelled, because ticks are external events.
- `src/App.tsx` (rendering, `Math.random` shuffling, floating-point time
  formatting), `src/hooks/useMediaSession.ts`, `src/store/useAuthStore.ts` and
  `src/components/LoginModal.tsx` are not part of this model.
- `Track` leaves out `date_written`, `lyrics` and `track_image`, and `Release`
  leaves out `release_image` (usePlayerStore.ts:4-38): display data that no
  action reads or changes.
- Whether the ids given to `setQueue` resolve in the catalog is the caller's
  responsibility: the store does not check it, and neither does the model.
- JavaScript object-key quirks of `tracks[id]` (inherited keys such as
  `constructor`, or a track whose id is the string `undefined`) are not
  modelled: the catalog is a plain map.
