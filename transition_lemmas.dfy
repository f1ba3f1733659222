/** Properties of the store's actions: the position invariant, coherence of
    the current track with the queue, navigation (advance, wrap, cycle,
    inverse), the repeat-mode cycle and the promoted set and its order. */
module TransitionLemmas {
  import opened PlayerTypes
  import opened Transitions

  // ---------------------------------------------------------------------
  // The store invariant holds in every reachable state

  lemma ApplyKeepsInvariant(s: PlayerState, a: Action)
    requires Invariant(s)
    ensures Invariant(Apply(s, a))
  {
    if a.TogglePromoteAction? {
      TogglePromoteOrder(s, a.trackId);
    }
  }

  lemma {:induction false} RunKeepsInvariant(s: PlayerState, actions: seq<Action>)
    requires Invariant(s)
    ensures Invariant(Run(s, actions))
    decreases |actions|
  {
    if |actions| > 0 {
      ApplyKeepsInvariant(s, actions[0]);
      RunKeepsInvariant(Apply(s, actions[0]), actions[1..]);
    }
  }

  lemma ReachableInvariant(actions: seq<Action>)
    ensures Invariant(Run(Initial, actions))
  {
    RunKeepsInvariant(Initial, actions);
  }

  // ---------------------------------------------------------------------
  // Once a track is loaded the transport never returns to idle

  lemma {:induction false} RunKeepsTrackLoaded(s: PlayerState, actions: seq<Action>)
    requires s.currentTrack.Some?
    ensures Run(s, actions).currentTrack.Some?
    decreases |actions|
  {
    if |actions| > 0 {
      var t := Apply(s, actions[0]);
      assert t.currentTrack.Some? by {
        match actions[0]
        case PlayNextAction =>
          assert PlayNext(s) == s || CurrentMatchesQueue(PlayNext(s));
        case PlayPreviousAction =>
          assert PlayPrevious(s) == s || CurrentMatchesQueue(PlayPrevious(s));
        case PlaybackEndedAction =>
          assert PlayNext(s) == s || CurrentMatchesQueue(PlayNext(s));
        case _ =>
      }
      RunKeepsTrackLoaded(t, actions[1..]);
    }
  }

  // ---------------------------------------------------------------------
  // Coherence of the current track with the queue position

  /** Every action except the two that replace the queue or the catalog
      wholesale keeps the current track equal to the track at the current
      position; `playTrack` establishes it from any state. */
  lemma ApplyKeepsCurrentMatchesQueue(s: PlayerState, a: Action)
    requires CurrentMatchesQueue(s) || a.PlayTrackAction?
    requires !a.SetQueueAction? && !a.LoadTracksAction?
    requires a.PlayTrackAction? ==> a.trackId in s.tracks
    ensures CurrentMatchesQueue(Apply(s, a))
  {
  }

  /** `playTrack` of a known id reuses the queue when the id is already in
      it, moving to its first occurrence, and otherwise replaces the queue
      by that single id with no origin. */
  lemma PlayTrackQueueCases(s: PlayerState, trackId: string, release: Option<Release>)
    requires trackId in s.tracks
    ensures var r := PlayTrack(s, trackId, release);
      if trackId in s.queue then
        && r.queue == s.queue && r.queueMode == s.queueMode && r.queueContext == s.queueContext
        && r.queue[r.currentQueueIndex] == trackId
        && forall j :: 0 <= j < r.currentQueueIndex ==> s.queue[j] != trackId
      else
        && r.queue == [trackId] && r.currentQueueIndex == 0
        && r.queueMode == None && r.queueContext == None
  {
  }

  /** The call pattern of every queue-building button: `setQueue(ids, …)`
      followed by `playTrack(ids[0], …)` keeps the whole new queue and plays
      its first track. */
  lemma SetQueueThenPlayFirst(s: PlayerState, trackIds: seq<string>, mode: QueueMode,
                              context: Option<string>, release: Option<Release>)
    requires |trackIds| > 0 && trackIds[0] in s.tracks
    ensures var r := PlayTrack(SetQueue(s, trackIds, mode, context), trackIds[0], release);
      && r.queue == trackIds && r.currentQueueIndex == 0
      && r.queueMode == Some(mode) && r.queueContext == ContextOrNull(context)
      && r.currentTrack == Some(s.tracks[trackIds[0]]) && r.currentRelease == release
      && r.isPlaying && r.currentTime == 0.0
  {
  }

  // ---------------------------------------------------------------------
  // playNext

  /** The cases in which `playNext` does nothing at all. */
  lemma PlayNextStaysPut(s: PlayerState)
    requires IndexInRange(s)
    requires || s.repeatMode == One
             || |s.queue| == 0
             || (s.repeatMode == Off && s.currentQueueIndex == |s.queue| - 1)
             || s.queue[(s.currentQueueIndex + 1) % |s.queue|] !in s.tracks
    ensures PlayNext(s) == s
  {
  }

  /** Otherwise it moves one position forward, modulo the queue length. */
  lemma PlayNextAdvances(s: PlayerState)
    requires IndexInRange(s)
    requires s.repeatMode != One && |s.queue| > 0
    requires !(s.repeatMode == Off && s.currentQueueIndex == |s.queue| - 1)
    requires s.queue[(s.currentQueueIndex + 1) % |s.queue|] in s.tracks
    ensures MovedTo(s, PlayNext(s), (s.currentQueueIndex + 1) % |s.queue|)
  {
  }

  /** Every queued id names a catalog track. */
  ghost predicate AllQueuedInCatalog(s: PlayerState)
  {
    forall i :: 0 <= i < |s.queue| ==> s.queue[i] in s.tracks
  }

  /** One `playNext` with repeat `all` on a fully resolvable queue. */
  lemma PlayNextWithRepeatAll(p: PlayerState)
    requires IndexInRange(p) && |p.queue| > 0 && p.repeatMode == All
    requires AllQueuedInCatalog(p)
    ensures var r := PlayNext(p);
      && r.queue == p.queue && r.tracks == p.tracks && r.repeatMode == All
      && r.currentQueueIndex == (p.currentQueueIndex + 1) % |p.queue|
      && CurrentMatchesQueue(r)
  {
  }

  /** The inductive step of `PlayNextTimesRotates`: from position `a` mod the
      length, one more `playNext` reaches position `a + 1` mod the length. */
  lemma RotateStep(p: PlayerState, a: int)
    requires |p.queue| > 0 && p.repeatMode == All && AllQueuedInCatalog(p)
    requires p.currentQueueIndex == a % |p.queue|
    ensures var r := PlayNext(p);
      && r.queue == p.queue && r.tracks == p.tracks && r.repeatMode == All
      && r.currentQueueIndex == (a + 1) % |p.queue|
      && CurrentMatchesQueue(r)
  {
    PlayNextWithRepeatAll(p);
    ModSuccessor(a, |p.queue|);
  }

  /** With repeat `all` and every queued id in the catalog, `k` calls of
      `playNext` move the position `k` steps forward around the queue. */
  lemma {:induction false} PlayNextTimesRotates(s: PlayerState, k: nat)
    requires IndexInRange(s) && |s.queue| > 0 && s.repeatMode == All
    requires AllQueuedInCatalog(s)
    ensures var r := PlayNextTimes(s, k);
      && r.queue == s.queue && r.tracks == s.tracks && r.repeatMode == All
      && r.currentQueueIndex == (s.currentQueueIndex + k) % |s.queue|
      && (k > 0 ==> CurrentMatchesQueue(r))
  {
    if k == 0 {
      ModUnique(s.currentQueueIndex, |s.queue|, 0, s.currentQueueIndex);
    } else {
      PlayNextTimesRotates(s, k - 1);
      RotateStep(PlayNextTimes(s, k - 1), s.currentQueueIndex + k - 1);
    }
  }

  /** The remainder is determined by any quotient-remainder decomposition. */
  lemma ModUnique(a: int, n: int, q: int, r: int)
    requires n > 0 && 0 <= r < n && a == q * n + r
    ensures a % n == r
  {
    var d := q - a / n;
    assert d * n == a % n - r;
  }

  /** One step forward around a queue of length `n`. */
  lemma NextPositionMod(i: int, n: int)
    requires 0 <= i < n
    ensures (i + 1) % n == if i + 1 < n then i + 1 else 0
  {
  }

  /** One step back around a queue of length `n`. */
  lemma PreviousPositionMod(i: int, n: int)
    requires 0 <= i < n
    ensures (i - 1 + n) % n == if i == 0 then n - 1 else i - 1
  {
  }

  lemma ModSuccessor(a: int, n: int)
    requires n > 0
    ensures (a % n + 1) % n == (a + 1) % n
  {
    var q, r := a / n, a % n;
    if r + 1 < n {
      ModUnique(a + 1, n, q, r + 1);
      ModUnique(r + 1, n, 0, r + 1);
    } else {
      ModUnique(a + 1, n, q + 1, 0);
      ModUnique(r + 1, n, 1, 0);
    }
  }

  /** A full lap of `playNext` calls with repeat `all` returns to the
      starting position, now playing the track found there. */
  lemma PlayNextFullLap(s: PlayerState)
    requires IndexInRange(s) && |s.queue| > 0 && s.repeatMode == All
    requires AllQueuedInCatalog(s)
    ensures var r := PlayNextTimes(s, |s.queue|);
      && r.currentQueueIndex == s.currentQueueIndex
      && r.currentTrack == Some(s.tracks[s.queue[s.currentQueueIndex]])
  {
    var n := |s.queue|;
    PlayNextTimesRotates(s, n);
    ModUnique(s.currentQueueIndex + n, n, 1, s.currentQueueIndex);
    var r := PlayNextTimes(s, n);
    assert r.currentQueueIndex == s.currentQueueIndex;
    assert CurrentMatchesQueue(r) && r.queue == s.queue && r.tracks == s.tracks;
  }

  // ---------------------------------------------------------------------
  // playPrevious

  /** `playPrevious` moves one position back and wraps from the first
      position to the last in every repeat mode. */
  lemma PlayPreviousRetreats(s: PlayerState)
    requires IndexInRange(s) && |s.queue| > 0
    requires s.queue[(s.currentQueueIndex - 1 + |s.queue|) % |s.queue|] in s.tracks
    ensures MovedTo(s, PlayPrevious(s), (s.currentQueueIndex - 1 + |s.queue|) % |s.queue|)
  {
  }

  lemma PlayPreviousStaysPut(s: PlayerState)
    requires IndexInRange(s)
    requires |s.queue| == 0 || s.queue[(s.currentQueueIndex - 1 + |s.queue|) % |s.queue|] !in s.tracks
    ensures PlayPrevious(s) == s
  {
  }

  /** `playPrevious` undoes a successful `playNext`. */
  lemma PreviousUndoesNext(s: PlayerState)
    requires IndexInRange(s) && s.repeatMode != One && |s.queue| > 0
    requires !(s.repeatMode == Off && s.currentQueueIndex == |s.queue| - 1)
    requires s.queue[(s.currentQueueIndex + 1) % |s.queue|] in s.tracks
    requires s.queue[s.currentQueueIndex] in s.tracks
    ensures MovedTo(PlayNext(s), PlayPrevious(PlayNext(s)), s.currentQueueIndex)
  {
    // Dafny finds this proof unaided only at several times the cost; these
    // steps keep it small
    var n, i := |s.queue|, s.currentQueueIndex;
    NextPositionMod(i, n);
    PreviousPositionMod((i + 1) % n, n);
    PlayNextAdvances(s);
    PlayPreviousRetreats(PlayNext(s));
  }

  /** With repeat `all`, `playNext` undoes a successful `playPrevious`. */
  lemma NextUndoesPreviousWithRepeatAll(s: PlayerState)
    requires IndexInRange(s) && s.repeatMode == All && |s.queue| > 0
    requires s.queue[(s.currentQueueIndex - 1 + |s.queue|) % |s.queue|] in s.tracks
    requires s.queue[s.currentQueueIndex] in s.tracks
    ensures MovedTo(PlayPrevious(s), PlayNext(PlayPrevious(s)), s.currentQueueIndex)
  {
    // Dafny finds this proof unaided only at several times the cost; these
    // steps keep it small
    var n, i := |s.queue|, s.currentQueueIndex;
    PreviousPositionMod(i, n);
    NextPositionMod((i - 1 + n) % n, n);
    PlayPreviousRetreats(s);
    PlayNextAdvances(PlayPrevious(s));
  }

  /** The asymmetry between the two buttons: with repeat `off`, going back
      from the first track lands on the last one, from which `playNext`
      cannot return. */
  lemma PreviousFromStartIsOneWayWithRepeatOff(s: PlayerState)
    requires IndexInRange(s) && s.repeatMode == Off && |s.queue| > 1
    requires s.currentQueueIndex == 0 && s.queue[|s.queue| - 1] in s.tracks
    ensures PlayPrevious(s).currentQueueIndex == |s.queue| - 1
    ensures PlayNext(PlayPrevious(s)) == PlayPrevious(s)
  {
  }

  // ---------------------------------------------------------------------
  // End of track

  /** At the end of the last track with repeat `off` nothing changes: the
      transport still reads as playing. */
  lemma EndOfQueueWithRepeatOffKeepsState(s: PlayerState)
    requires s.repeatMode == Off && |s.queue| > 0
    requires s.currentQueueIndex == |s.queue| - 1
    ensures PlaybackEnded(s) == s
  {
  }

  /** With repeat `one` the end of a track keeps the track and position and
      resets the time; a manual `playNext` does nothing at all. */
  lemma RepeatOneRestartsOnlyAtEnd(s: PlayerState)
    requires s.repeatMode == One
    ensures PlaybackEnded(s).currentTrack == s.currentTrack
    ensures PlaybackEnded(s).currentQueueIndex == s.currentQueueIndex
    ensures PlaybackEnded(s).currentTime == 0.0
    ensures PlayNext(s) == s
  {
  }

  // ---------------------------------------------------------------------
  // Transport flag, repeat mode, promoted set

  lemma TogglePlayTwiceRestores(s: PlayerState)
    ensures TogglePlay(TogglePlay(s)) == s
  {
  }

  lemma CycleRepeatModeThriceRestores(s: PlayerState)
    ensures CycleRepeatMode(CycleRepeatMode(CycleRepeatMode(s))) == s
  {
  }

  /** `togglePromote(x)` flips the membership of `x` and of no other id. */
  lemma TogglePromoteFlipsOnly(s: PlayerState, x: string, y: string)
    ensures IsPromoted(TogglePromote(s, x), y) == if y == x then !IsPromoted(s, y) else IsPromoted(s, y)
  {
  }

  /** The insertion order of the promoted ids: a newly promoted id comes
      last; un-promoting closes its gap and keeps the others in order; and no
      id is ever listed twice. */
  lemma TogglePromoteOrder(s: PlayerState, x: string)
    requires Distinct(s.promotedTracks)
    ensures var p, r := s.promotedTracks, TogglePromote(s, x).promotedTracks;
      && Distinct(r)
      && (x !in p ==> r == p + [x])
      && (x in p ==> var k := FirstIndex(p, x); r == p[..k] + p[k + 1..])
  {
    var p := s.promotedTracks;
    if x in p {
      WithoutKeepsDistinct(p, x);
      WithoutClosesGap(p, x);
    } else {
      var r := p + [x];
      forall i, j | 0 <= i < j < |r|
        ensures r[i] != r[j]
      {
        if j == |p| {
          assert r[i] == p[i];
        }
      }
    }
  }

  /** Toggling the same id twice: from unpromoted it restores the state; from
      promoted the id comes back at the end of the promotion order. */
  lemma TogglePromoteTwice(s: PlayerState, x: string)
    ensures x !in s.promotedTracks ==> TogglePromote(TogglePromote(s, x), x) == s
    ensures x in s.promotedTracks && Distinct(s.promotedTracks) ==>
      var p, k := s.promotedTracks, FirstIndex(s.promotedTracks, x);
      TogglePromote(TogglePromote(s, x), x) == s.(promotedTracks := p[..k] + p[k + 1..] + [x])
  {
    var p := s.promotedTracks;
    if x !in p {
      WithoutLastAdded(p, x);
    } else if Distinct(p) {
      WithoutClosesGap(p, x);
    }
  }

  // ---------------------------------------------------------------------
  // Scenarios

  /** Queue ["a", "b", "c"] positioned on "c": `playNext` stays put with
      repeat `off` and wraps to "a" with repeat `all`. */
  lemma NextFromLastOfThree(s: PlayerState)
    requires s.queue == ["a", "b", "c"] && s.currentQueueIndex == 2
    requires "a" in s.tracks
    ensures s.repeatMode == Off ==> PlayNext(s) == s
    ensures s.repeatMode == All ==>
      PlayNext(s) == s.(currentQueueIndex := 0, currentTrack := Some(s.tracks["a"]),
                        isPlaying := true, currentTime := 0.0)
  {
  }

  /** From the initial store, a queue of ["a", "b", "c"] started on its first
      track and advanced twice plays "c"; a further `playNext` changes
      nothing. */
  lemma PlayThroughThreeTracks(catalog: Catalog)
    requires "a" in catalog && "b" in catalog && "c" in catalog
    ensures var started := PlayTrack(SetQueue(LoadTracks(Initial, catalog),
                                              ["a", "b", "c"], Global, None), "a", None);
      var s := PlayNext(PlayNext(started));
      && s.currentQueueIndex == 2 && s.currentTrack == Some(catalog["c"]) && s.isPlaying
      && PlayNext(s) == s
  {
  }
}
