/**
 * What the player's commands and its timer promise, proved about the
 * `PlayerModel` functions (and so, through their postconditions, about the
 * methods of `PlayerHook.Player`).
 */
module PlayerProperties {
  import opened Wrappers
  import opened Entities
  import opened PlayerModel

  // ---- playTrack ----

  /** Starting a track: it is current, the queue and index are as given, time restarts, lyrics are cleared. */
  lemma PlayTrackEffect(s: PlayerState, t: Track, q: seq<Track>, i: int, auth: bool)
    ensures var r := PlayTrack(s, t, q, i, auth);
      && r.currentTrack == Some(t)
      && r.queue == (if q == [] then [t] else q)
      && r.currentIndex == i
      && r.currentTime == 0
      && r.isPlaying
      && r.lyrics == None
      && r.duration == (if auth then t.duration else Min(50, t.duration))
      && r.interval == PlayTicker(r.duration, auth)
      && r.shuffle == s.shuffle && r.repeat == s.repeat && r.volume == s.volume
  {
  }

  // ---- the progress timer ----

  /** Below its bound a running timer only advances elapsed time by one second. */
  lemma TickBelowBound(s: PlayerState, random: real)
    requires 0.0 <= random < 1.0
    requires !s.interval.Stopped? && s.currentTime + 1 < s.interval.limit
    ensures Tick(s, random) == s.(currentTime := s.currentTime + 1)
  {
  }

  /** A cleared timer does nothing. */
  lemma TickStopped(s: PlayerState, random: real)
    requires 0.0 <= random < 1.0
    requires s.interval == Stopped
    ensures Tick(s, random) == s
  {
  }

  /**
   * An unauthenticated play that reaches its bound at 50 seconds or later
   * stops at exactly 50 seconds on the same track and position, and its
   * timer is cleared, so the preview ends only once.
   */
  lemma PreviewEnds(s: PlayerState, random: real)
    requires 0.0 <= random < 1.0
    requires s.interval.PlayTicker? && !s.interval.isAuthenticated
    requires s.currentTime + 1 >= s.interval.limit && s.currentTime + 1 >= PreviewLimit
    ensures var r := Tick(s, random);
      && !r.isPlaying && r.currentTime == PreviewLimit && r.interval == Stopped
      && r.currentTrack == s.currentTrack && r.queue == s.queue && r.currentIndex == s.currentIndex
      && Tick(r, random) == r
  {
  }

  /**
   * A preview of a track shorter than 50 seconds ends like an authenticated
   * play: the preview branch is not taken.
   */
  lemma ShortPreviewCompletes(s: PlayerState, random: real)
    requires 0.0 <= random < 1.0
    requires s.interval.PlayTicker? && !s.interval.isAuthenticated
    requires s.currentTime + 1 == s.interval.limit < PreviewLimit
    ensures Tick(s, random) == Tick(s.(interval := PlayTicker(s.interval.limit, true)), random)
    ensures Tick(s, random) == Complete(s.(interval := Stopped), s.interval.limit, random)
  {
  }

  /** The running timer has reached its bound without ending a preview. */
  predicate ReachesCompletion(s: PlayerState)
  {
    match s.interval
    case Stopped => false
    case PlayTicker(limit, auth) => s.currentTime + 1 >= limit && (auth || s.currentTime + 1 < PreviewLimit)
    case ResumeTicker(limit) => s.currentTime + 1 >= limit
  }

  /**
   * With repeat-track the completed track rewinds to 0 and stays current; the
   * timer was cleared first and is not restarted, so further ticks change nothing.
   */
  lemma RepeatTrackRewinds(s: PlayerState, random: real)
    requires 0.0 <= random < 1.0
    requires ReachesCompletion(s) && s.repeat == RepeatTrack
    ensures var r := Tick(s, random);
      && r.currentTime == 0 && r.currentTrack == s.currentTrack
      && r.queue == s.queue && r.currentIndex == s.currentIndex && r.isPlaying == s.isPlaying
      && r.interval == Stopped && Tick(r, random) == r
  {
  }

  /**
   * In any other repeat mode the completed track hands over to `playNext`;
   * when the queue is exhausted playback stops with elapsed time held at the bound.
   */
  lemma CompletionAdvances(s: PlayerState, random: real)
    requires 0.0 <= random < 1.0
    requires ReachesCompletion(s) && s.repeat != RepeatTrack
    ensures Tick(s, random) == PlayNext(s.(interval := Stopped, currentTime := s.interval.limit), random)
    ensures s.queue != [] && !s.shuffle && s.currentIndex + 1 >= |s.queue| && s.repeat == RepeatOff ==>
      var r := Tick(s, random);
      !r.isPlaying && r.currentTime == s.interval.limit && r.currentTrack == s.currentTrack &&
      r.currentIndex == s.currentIndex && r.interval == Stopped
  {
  }

  /**
   * A timer installed on resume has no preview branch: a paused preview that
   * is resumed runs into the ordinary end-of-track handling at its bound.
   */
  lemma ResumedPreviewSkipsPreviewEnd(s: PlayerState, random: real)
    requires 0.0 <= random < 1.0
    requires s.currentTrack.Some? && !s.isPlaying
    requires s.currentTime + 1 >= s.duration
    ensures var resumed := TogglePlayPause(s);
      Tick(resumed, random) == Complete(resumed.(interval := Stopped), s.duration, random)
  {
  }

  // ---- playNext ----

  /** `playNext` on an empty queue changes nothing. */
  lemma PlayNextEmptyQueue(s: PlayerState, random: real)
    requires 0.0 <= random < 1.0 && s.queue == []
    ensures PlayNext(s, random) == s
  {
  }

  /** In order, `playNext` starts the following queue entry, unauthenticated. */
  lemma PlayNextInOrder(s: PlayerState, random: real)
    requires 0.0 <= random < 1.0
    requires !s.shuffle && 0 <= s.currentIndex + 1 < |s.queue|
    ensures var r := PlayNext(s, random); var t := s.queue[s.currentIndex + 1];
      && r.currentIndex == s.currentIndex + 1 && r.currentTrack == Some(t) && r.queue == s.queue
      && r.currentTime == 0 && r.isPlaying && r.interval == PlayTicker(Min(PreviewLimit, t.duration), false)
  {
  }

  /** Past the end of the queue, repeat-queue wraps to the first entry. */
  lemma PlayNextWraps(s: PlayerState, random: real)
    requires 0.0 <= random < 1.0
    requires !s.shuffle && s.queue != [] && s.currentIndex + 1 >= |s.queue| && s.repeat == RepeatQueue
    ensures var r := PlayNext(s, random);
      r.currentIndex == 0 && r.currentTrack == Some(s.queue[0]) && r.isPlaying && r.currentTime == 0
  {
  }

  /** Past the end of the queue without repeat-queue, playback stops and nothing else moves. */
  lemma PlayNextExhausted(s: PlayerState, random: real)
    requires 0.0 <= random < 1.0
    requires !s.shuffle && s.queue != [] && s.currentIndex + 1 >= |s.queue| && s.repeat != RepeatQueue
    ensures PlayNext(s, random) == s.(isPlaying := false, interval := Stopped)
  {
  }

  /** With shuffle, `playNext` starts some entry of the queue, whichever `random` selects. */
  lemma PlayNextShuffle(s: PlayerState, random: real)
    requires 0.0 <= random < 1.0
    requires s.shuffle && s.queue != []
    ensures var r := PlayNext(s, random);
      && 0 <= r.currentIndex < |s.queue| && r.currentTrack == Some(s.queue[r.currentIndex])
      && r.queue == s.queue && r.isPlaying && r.currentTime == 0
      && r.interval.PlayTicker? && !r.interval.isAuthenticated
  {
  }

  /** Every index of the queue can be chosen by shuffle. */
  lemma ShuffleReachesEveryIndex(n: nat, k: nat)
    requires k < n
    ensures RandomIndex(k as real / n as real, n) == k
  {
    var x := k as real / n as real;
    assert x * n as real == k as real;
  }

  // ---- playPrevious ----

  /** `playPrevious` on an empty queue changes nothing. */
  lemma PlayPreviousEmptyQueue(s: PlayerState, random: real)
    requires 0.0 <= random < 1.0 && s.queue == []
    ensures PlayPrevious(s, random) == s
  {
  }

  /** After more than 3 seconds `playPrevious` only rewinds: track, queue and index stay. */
  lemma PlayPreviousRestarts(s: PlayerState, random: real)
    requires 0.0 <= random < 1.0
    requires s.queue != [] && s.currentTime > 3
    ensures PlayPrevious(s, random) == s.(currentTime := 0)
  {
  }

  /**
   * Otherwise it starts an entry of the queue, unauthenticated, provided the
   * position was valid: the wrap goes to the last entry under repeat-queue
   * and to the first otherwise.
   */
  lemma PlayPreviousInRange(s: PlayerState, random: real)
    requires 0.0 <= random < 1.0
    requires 0 <= s.currentIndex < |s.queue| && s.currentTime <= 3
    ensures var r := PlayPrevious(s, random);
      && 0 <= r.currentIndex < |s.queue| && r.currentTrack == Some(s.queue[r.currentIndex])
      && r.queue == s.queue && r.isPlaying && r.currentTime == 0
      && r.interval.PlayTicker? && !r.interval.isAuthenticated
    ensures !s.shuffle && s.currentIndex == 0 ==>
      PlayPrevious(s, random).currentIndex == if s.repeat == RepeatQueue then |s.queue| - 1 else 0
    ensures !s.shuffle && s.currentIndex > 0 ==> PlayPrevious(s, random).currentIndex == s.currentIndex - 1
  {
  }

  // ---- togglePlayPause, seekTo ----

  /** Without a current track play/pause does nothing. */
  lemma TogglePlayPauseNoTrack(s: PlayerState)
    requires s.currentTrack.None?
    ensures TogglePlayPause(s) == s
  {
  }

  /** Pausing keeps elapsed time and clears the timer; resuming ticks against the stored duration. */
  lemma TogglePlayPauseEffect(s: PlayerState)
    requires s.currentTrack.Some?
    ensures var r := TogglePlayPause(s);
      && r.isPlaying == !s.isPlaying && r.currentTime == s.currentTime && r.currentTrack == s.currentTrack
      && r.interval == (if s.isPlaying then Stopped else ResumeTicker(s.duration))
  {
  }

  /** Pause followed by resume continues from the same elapsed time against the stored duration. */
  lemma PauseResumeKeepsTime(s: PlayerState)
    requires s.currentTrack.Some? && s.isPlaying
    ensures var r := TogglePlayPause(TogglePlayPause(s));
      r.isPlaying && r.currentTime == s.currentTime && r.interval == ResumeTicker(s.duration)
  {
  }

  /** Seeking sets elapsed time to exactly the requested value, in range or not, and leaves play state alone. */
  lemma SeekToExact(s: PlayerState, time: int)
    ensures SeekTo(s, time).currentTime == time
    ensures SeekTo(s, time).isPlaying == s.isPlaying && SeekTo(s, time).interval == s.interval
  {
  }

  // ---- addToQueue ----

  /** `addToQueue` changes only the queue; it grows by the track exactly when its identifier was new. */
  lemma AddToQueueEffect(s: PlayerState, t: Track)
    ensures var r := AddToQueue(s, t);
      && r.currentTrack == s.currentTrack && r.currentIndex == s.currentIndex && r.isPlaying == s.isPlaying
      && r.queue == (if FirstIndexOf(s.queue, t.id) == -1 then s.queue + [t] else s.queue)
  {
    if FirstIndexOf(s.queue, t.id) != -1 {
      assert s.queue[FirstIndexOf(s.queue, t.id)] in s.queue;
    }
  }

  /** Adding the same track again leaves the queue as the first add left it. */
  lemma AddToQueueIdempotent(s: PlayerState, t: Track)
    ensures AddToQueue(AddToQueue(s, t), t) == AddToQueue(s, t)
  {
    var q := AddToQueue(s, t).queue;
    if forall u :: u in s.queue ==> u.id != t.id {
      assert q[|q| - 1] == t;
    }
  }

  /** Queued identifiers stay pairwise distinct. */
  lemma AddToQueueKeepsIdsDistinct(s: PlayerState, t: Track)
    requires DistinctIds(s.queue)
    ensures DistinctIds(AddToQueue(s, t).queue)
  {
    var q := AddToQueue(s, t).queue;
    if forall u :: u in s.queue ==> u.id != t.id {
      forall i, j | 0 <= i < j < |q| ensures q[i].id != q[j].id {
        if j == |s.queue| {
          assert q[i] == s.queue[i] && s.queue[i] in s.queue;
        }
      }
    }
  }

  // ---- toggleShuffle, toggleRepeat, getLyrics ----

  /** Three calls of `toggleRepeat` restore the mode; one call never keeps it. */
  lemma ToggleRepeatCycle(s: PlayerState)
    ensures ToggleRepeat(ToggleRepeat(ToggleRepeat(s))) == s.(interval := Stopped)
    ensures ToggleRepeat(s).repeat != s.repeat
  {
  }

  /** `toggleShuffle` flips the flag and leaves the queue in its order. */
  lemma ToggleShuffleKeepsQueue(s: PlayerState)
    ensures ToggleShuffle(s).shuffle == !s.shuffle && ToggleShuffle(s).queue == s.queue
    ensures ToggleShuffle(ToggleShuffle(s)) == s.(interval := Stopped)
  {
  }

  /** `getLyrics` stores the table's document, or the one-line placeholder at time 0. */
  lemma GetLyricsStores(s: PlayerState, trackId: int)
    ensures var r := GetLyrics(s, trackId);
      && r.lyrics.Some?
      && (MockLyrics(trackId).Some? ==> r.lyrics.value == MockLyrics(trackId).value)
      && (MockLyrics(trackId).None? ==> r.lyrics.value.lines == [LyricLine(0, NoLyricsText)])
      && r.currentTrack == s.currentTrack && r.currentTime == s.currentTime
  {
  }

    // ---- an invariant of every command and of the timer ----

  /**
   * The state reachable from the initial one by commands whose `playTrack`
   * index lies in its queue: an empty queue only before anything played,
   * a valid position otherwise, and a running timer only with a current track.
   */
  predicate Coherent(s: PlayerState)
  {
    && (s.queue == [] ==> s.currentIndex == 0 && s.currentTrack.None? && s.interval == Stopped)
    && (s.queue != [] ==> 0 <= s.currentIndex < |s.queue|)
    && (!s.interval.Stopped? ==> s.currentTrack.Some?)
  }

  lemma InitialCoherent()
    ensures Coherent(Initial)
  {
  }

  /** `playTrack` keeps the state coherent when its index lies in the queue it installs. */
  lemma PlayTrackKeepsCoherent(s: PlayerState, t: Track, q: seq<Track>, i: int, auth: bool)
    requires 0 <= i < (if q == [] then 1 else |q|)
    ensures Coherent(PlayTrack(s, t, q, i, auth))
  {
  }

  /** From a coherent state, `playNext` never reaches an `undefined` queue entry. */
  lemma PlayNextKeepsCoherent(s: PlayerState, random: real)
    requires 0.0 <= random < 1.0 && Coherent(s)
    ensures Coherent(PlayNext(s, random))
    ensures s.currentTrack.Some? ==> PlayNext(s, random).currentTrack.Some?
  {
  }

  lemma PlayPreviousKeepsCoherent(s: PlayerState, random: real)
    requires 0.0 <= random < 1.0 && Coherent(s)
    ensures Coherent(PlayPrevious(s, random))
    ensures s.currentTrack.Some? ==> PlayPrevious(s, random).currentTrack.Some?
  {
  }

  lemma TickKeepsCoherent(s: PlayerState, random: real)
    requires 0.0 <= random < 1.0 && Coherent(s)
    ensures Coherent(Tick(s, random))
    ensures s.currentTrack.Some? ==> Tick(s, random).currentTrack.Some?
  {
    match s.interval
    case Stopped =>
    case PlayTicker(limit, auth) =>
      if s.currentTime + 1 >= limit && (auth || s.currentTime + 1 < PreviewLimit) {
        PlayNextKeepsCoherent(s.(interval := Stopped, currentTime := limit), random);
      }
    case ResumeTicker(limit) =>
      if s.currentTime + 1 >= limit {
        PlayNextKeepsCoherent(s.(interval := Stopped, currentTime := limit), random);
      }
  }

  lemma OtherCommandsKeepCoherent(s: PlayerState, t: Track, time: int, level: int, trackId: int)
    requires Coherent(s)
    ensures Coherent(TogglePlayPause(s)) && Coherent(SeekTo(s, time)) && Coherent(SetVolume(s, level))
    ensures Coherent(ToggleShuffle(s)) && Coherent(ToggleRepeat(s)) && Coherent(GetLyrics(s, trackId))
    ensures Coherent(AddToQueue(s, t))
  {
    if FirstIndexOf(s.queue, t.id) != -1 {
      assert s.queue[FirstIndexOf(s.queue, t.id)] in s.queue;
    }
  }

  // ---- runs of the timer ----

  /** The state after `n` timer firings, all with the same `random`. */
  function Ticks(s: PlayerState, n: nat, random: real): PlayerState
    requires 0.0 <= random < 1.0
  {
    if n == 0 then s else Tick(Ticks(s, n - 1, random), random)
  }

  /** While the bound is not reached, `n` firings advance elapsed time by `n` and change nothing else. */
  lemma {:induction false} TicksBelowBound(s: PlayerState, n: nat, random: real)
    requires 0.0 <= random < 1.0
    requires !s.interval.Stopped? && s.currentTime + n < s.interval.limit
    ensures Ticks(s, n, random) == s.(currentTime := s.currentTime + n)
  {
    if n > 0 {
      TicksBelowBound(s, n - 1, random);
    }
  }

  /** Once the timer is cleared, any number of firings change nothing. */
  lemma {:induction false} TicksStopped(s: PlayerState, n: nat, random: real)
    requires 0.0 <= random < 1.0 && s.interval == Stopped
    ensures Ticks(s, n, random) == s
  {
    if n > 0 {
      TicksStopped(s, n - 1, random);
    }
  }

  /**
   * Changing a dependency of the audio effect during playback stops the
   * progress timer without pausing: the player still reports playing, and
   * no number of timer firings moves elapsed time, ends a preview or
   * advances the queue.
   */
  lemma {:induction false} SettingsChangeFreezesProgress(s: PlayerState, t: Track, n: nat, random: real)
    requires 0.0 <= random < 1.0
    ensures var r := ToggleShuffle(s); r.isPlaying == s.isPlaying && Ticks(r, n, random) == r
    ensures var r := ToggleRepeat(s); r.isPlaying == s.isPlaying && Ticks(r, n, random) == r
    ensures var r := AddToQueue(s, t); r.queue != s.queue ==> r.isPlaying == s.isPlaying && Ticks(r, n, random) == r
  {
    TicksStopped(ToggleShuffle(s), n, random);
    TicksStopped(ToggleRepeat(s), n, random);
    if AddToQueue(s, t).queue != s.queue {
      TicksStopped(AddToQueue(s, t), n, random);
    }
  }

  /**
   * Queue [A (180 s), B (200 s)] played from A, authenticated, repeat-queue:
   * after 180 seconds B is playing from 0. B is started as an unauthenticated
   * preview, since `playNext` passes no authentication flag.
   */
  lemma AutoAdvanceScenario(s: PlayerState, a: Track, b: Track, random: real)
    requires 0.0 <= random < 1.0
    requires a.duration == 180 && b.duration == 200
    requires s.repeat == RepeatQueue && !s.shuffle
    ensures var r := Ticks(PlayTrack(s, a, [a, b], 0, true), 180, random);
      && r.currentTrack == Some(b) && r.currentIndex == 1 && r.currentTime == 0 && r.isPlaying
      && r.duration == PreviewLimit
  {
    var s1 := PlayTrack(s, a, [a, b], 0, true);
    TicksBelowBound(s1, 179, random);
  }

  /**
   * A 300-second track played unauthenticated stops after 50 seconds at
   * exactly 50, and no later firing of the timer changes anything.
   */
  lemma PreviewScenario(s: PlayerState, t: Track, q: seq<Track>, i: int, random: real, later: nat)
    requires 0.0 <= random < 1.0
    requires t.duration == 300
    ensures var r := Ticks(PlayTrack(s, t, q, i, false), 50, random);
      && !r.isPlaying && r.currentTime == PreviewLimit && r.currentTrack == Some(t)
      && Ticks(r, later, random) == r
  {
    var s1 := PlayTrack(s, t, q, i, false);
    TicksBelowBound(s1, 49, random);
    TicksStopped(Ticks(s1, 50, random), later, random);
  }
}
