/**
 * The playback state machine of the player hook, as values: the state the
 * hook keeps, the two kinds of once-a-second progress timer it installs,
 * and one function per command. `PlayerHook.Player` implements each of
 * these functions imperatively; `PlayerProperties` proves what they promise.
 */
module PlayerModel {
  import opened Wrappers
  import opened Entities

  /** Length of an unauthenticated preview, in seconds. */
  const PreviewLimit: nat := 50

  /** `repeat`: 'off', 'queue' or 'track'. */
  datatype RepeatMode = RepeatOff | RepeatQueue | RepeatTrack

  /**
   * The progress timer held by `intervalRef`. `PlayTicker` is the callback
   * `playTrack` installs: it knows the effective duration and whether the
   * session is authenticated, and can end a preview. `ResumeTicker` is the
   * callback `togglePlayPause` installs on resume: it only knows the stored
   * duration and has no preview branch. `Stopped` is a cleared timer.
   */
  datatype Interval = Stopped | PlayTicker(limit: int, isAuthenticated: bool) | ResumeTicker(limit: int)

  datatype PlayerState = PlayerState(
    currentTrack: Option<Track>,
    isPlaying: bool,
    currentTime: int,
    duration: int,
    queue: seq<Track>,
    currentIndex: int,
    shuffle: bool,
    repeat: RepeatMode,
    volume: int,
    lyrics: Option<LyricsDoc>,
    interval: Interval)

  /** The hook's initial state. */
  const Initial: PlayerState :=
    PlayerState(None, false, 0, 0, [], 0, false, RepeatOff, 1, None, Stopped)

  function Min(a: int, b: int): int
  {
    if a < b then a else b
  }

  /** `maxDuration`: the full length when authenticated, at most the preview length otherwise. */
  function EffectiveDuration(trackDuration: nat, isAuthenticated: bool): (r: nat)
    ensures isAuthenticated ==> r == trackDuration
    ensures !isAuthenticated ==> r <= PreviewLimit && r <= trackDuration
    ensures !isAuthenticated ==> r == PreviewLimit || r == trackDuration
  {
    if isAuthenticated then trackDuration else Min(PreviewLimit, trackDuration)
  }

  /** `Math.floor(Math.random() * n)`, with `random` the value `Math.random()` returned. */
  function RandomIndex(random: real, n: nat): (r: nat)
    requires 0.0 <= random < 1.0 && n > 0
    ensures r < n
  {
    var x := random * n as real;
    assert x < n as real by {
      assert (1.0 - random) * n as real > 0.0;
    }
    x.Floor
  }

  /** `queue[i]`, which is `undefined` outside the queue's bounds. */
  function QueueAt(queue: seq<Track>, i: int): (r: Option<Track>)
    ensures r.Some? <==> 0 <= i < |queue|
    ensures r.Some? ==> r.value == queue[i]
  {
    if 0 <= i < |queue| then Some(queue[i]) else None
  }

  /**
   * The index `playNext` moves to in a queue of `n` tracks, or None when the
   * queue is exhausted and playback stops.
   */
  function NextIndex(n: nat, current: int, shuffle: bool, repeat: RepeatMode, random: real): (r: Option<int>)
    requires n > 0 && 0.0 <= random < 1.0
    ensures shuffle ==> r.Some? && 0 <= r.value < n
    ensures !shuffle ==> (r.None? <==> current + 1 >= n && repeat != RepeatQueue)
    ensures !shuffle && current + 1 < n ==> r == Some(current + 1)
    ensures !shuffle && current + 1 >= n && repeat == RepeatQueue ==> r == Some(0)
    ensures r.Some? && current >= -1 ==> 0 <= r.value < n
  {
    if shuffle then Some(RandomIndex(random, n))
    else if current + 1 < n then Some(current + 1)
    else if repeat == RepeatQueue then Some(0)
    else None
  }

  /**
   * The index `playPrevious` moves to in a queue of `n` tracks: one back,
   * and below 0 the last index under repeat-queue or else 0.
   */
  function PreviousIndex(n: nat, current: int, shuffle: bool, repeat: RepeatMode, random: real): (r: int)
    requires n > 0 && 0.0 <= random < 1.0
    ensures shuffle ==> 0 <= r < n
    ensures !shuffle && current - 1 >= 0 ==> r == current - 1
    ensures !shuffle && current - 1 < 0 ==> r == if repeat == RepeatQueue then n - 1 else 0
    ensures current <= n ==> 0 <= r < n
  {
    if shuffle then RandomIndex(random, n)
    else if current - 1 >= 0 then current - 1
    else if repeat == RepeatQueue then n - 1
    else 0
  }

  /**
   * `playTrack(track, trackQueue, index, isAuthenticated)`: the track becomes
   * current, the queue is replaced (by `[track]` when `trackQueue` is empty),
   * the index is taken as given, lyrics are cleared, elapsed time restarts
   * at 0, playback starts, and a new progress timer replaces the old one.
   */
  function PlayTrack(s: PlayerState, track: Track, trackQueue: seq<Track>, index: int, isAuthenticated: bool): (r: PlayerState)
    ensures r.shuffle == s.shuffle && r.repeat == s.repeat && r.volume == s.volume
    ensures r.interval == PlayTicker(r.duration, isAuthenticated) && r.duration <= track.duration
    ensures !isAuthenticated ==> r.duration <= PreviewLimit
  {
    var limit := EffectiveDuration(track.duration, isAuthenticated);
    s.(currentTrack := Some(track),
       queue := if |trackQueue| > 0 then trackQueue else [track],
       currentIndex := index,
       lyrics := None,
       currentTime := 0,
       isPlaying := true,
       interval := PlayTicker(limit, isAuthenticated),
       duration := limit)
  }

  /**
   * `playTrack(queue[index], queue, index)` as `playNext` and `playPrevious`
   * call it: unauthenticated, and when `queue[index]` is `undefined` the call
   * stores it as the current track, the queue, the index and the cleared
   * lyrics and then fails on reading the track's audio source, leaving
   * elapsed time and the playing flag as they were. A new position or queue
   * still rebuilds `playNext`, so the audio effect's cleanup clears the old
   * timer; otherwise the timer is kept.
   */
  function PlayFromQueue(s: PlayerState, queue: seq<Track>, index: int): (r: PlayerState)
    requires |queue| > 0
    ensures r.queue == queue && r.currentIndex == index && r.currentTrack == QueueAt(queue, index)
    ensures r.shuffle == s.shuffle && r.repeat == s.repeat && r.volume == s.volume
    ensures QueueAt(queue, index).Some? ==>
      r.isPlaying && r.currentTime == 0 && r.interval.PlayTicker? && !r.interval.isAuthenticated
    ensures QueueAt(queue, index).None? ==> r.currentTime == s.currentTime && r.isPlaying == s.isPlaying
    ensures QueueAt(queue, index).None? ==>
      r.interval == if index != s.currentIndex || queue != s.queue then Stopped else s.interval
  {
    match QueueAt(queue, index)
    case Some(t) => PlayTrack(s, t, queue, index, false)
    case None =>
      var timer := if index != s.currentIndex || queue != s.queue then Stopped else s.interval;
      s.(currentTrack := None, queue := queue, currentIndex := index, lyrics := None, interval := timer)
  }

  /** `playNext()`. */
  function PlayNext(s: PlayerState, random: real): (r: PlayerState)
    requires 0.0 <= random < 1.0
    ensures r.queue == s.queue && r.shuffle == s.shuffle && r.repeat == s.repeat && r.volume == s.volume
    ensures r.interval != s.interval && r.interval.PlayTicker? ==> !r.interval.isAuthenticated
  {
    if |s.queue| == 0 then s
    else match NextIndex(|s.queue|, s.currentIndex, s.shuffle, s.repeat, random)
      case None => s.(isPlaying := false, interval := Stopped)
      case Some(k) => PlayFromQueue(s, s.queue, k)
  }

  /** `playPrevious()`: past 3 seconds it only rewinds the current track. */
  function PlayPrevious(s: PlayerState, random: real): (r: PlayerState)
    requires 0.0 <= random < 1.0
    ensures r.queue == s.queue && r.shuffle == s.shuffle && r.repeat == s.repeat && r.volume == s.volume
    ensures r.interval != s.interval && r.interval.PlayTicker? ==> !r.interval.isAuthenticated
  {
    if |s.queue| == 0 then s
    else if s.currentTime > 3 then s.(currentTime := 0)
    else PlayFromQueue(s, s.queue, PreviousIndex(|s.queue|, s.currentIndex, s.shuffle, s.repeat, random))
  }

  /** `togglePlayPause()`: nothing without a current track. */
  function TogglePlayPause(s: PlayerState): (r: PlayerState)
    ensures r.currentTrack == s.currentTrack && r.currentTime == s.currentTime
    ensures r.queue == s.queue && r.currentIndex == s.currentIndex
    ensures s.currentTrack.Some? ==> r.isPlaying == !s.isPlaying && (r.isPlaying <==> !r.interval.Stopped?)
  {
    if s.currentTrack.None? then s
    else if s.isPlaying then s.(isPlaying := false, interval := Stopped)
    else s.(isPlaying := true, interval := ResumeTicker(s.duration))
  }

  /** `seekTo(time)`: no clamping. */
  function SeekTo(s: PlayerState, time: int): (r: PlayerState)
    ensures r.currentTime == time
    ensures r.(currentTime := s.currentTime) == s
  {
    s.(currentTime := time)
  }

  /** `setVolume(level)`: the raw state setter. */
  function SetVolume(s: PlayerState, level: int): (r: PlayerState)
    ensures r.volume == level
    ensures r.(volume := s.volume) == s
  {
    s.(volume := level)
  }

  /** The queue after `addToQueue(track)`: appended unless a queued track has the same identifier. */
  function Enqueue(queue: seq<Track>, track: Track): (r: seq<Track>)
    ensures (exists t :: t in queue && t.id == track.id) ==> r == queue
    ensures (forall t :: t in queue ==> t.id != track.id) ==> r == queue + [track]
  {
    if exists t :: t in queue && t.id == track.id then queue else queue + [track]
  }

  /*
   * The audio effect depends on `repeat` and on `playNext`, which is rebuilt
   * whenever the queue, the position, shuffle or repeat change. On each such
   * change the effect's cleanup clears the timer held in `intervalRef`, while
   * the playing flag stays as it was. The three settings commands below
   * therefore stop the progress timer whenever they change a dependency.
   */

  /** `addToQueue(track)`: an append also stops the progress timer. */
  function AddToQueue(s: PlayerState, track: Track): (r: PlayerState)
    ensures r.queue == Enqueue(s.queue, track)
    ensures r.queue != s.queue ==> r.interval == Stopped
    ensures r.(queue := s.queue, interval := s.interval) == s
    ensures r.queue == s.queue ==> r == s
  {
    var q := Enqueue(s.queue, track);
    if q == s.queue then s else s.(queue := q, interval := Stopped)
  }

  /** `toggleShuffle()`: also stops the progress timer. */
  function ToggleShuffle(s: PlayerState): (r: PlayerState)
    ensures r.shuffle == !s.shuffle && r.interval == Stopped
    ensures r.(shuffle := s.shuffle, interval := s.interval) == s
  {
    s.(shuffle := !s.shuffle, interval := Stopped)
  }

  /** The position of a repeat mode in the list `['off', 'queue', 'track']`. */
  function RepeatOrdinal(m: RepeatMode): nat
  {
    match m
    case RepeatOff => 0
    case RepeatQueue => 1
    case RepeatTrack => 2
  }

  /** The mode after `repeat` in the cycle off, queue, track. */
  function NextRepeat(m: RepeatMode): (r: RepeatMode)
    ensures RepeatOrdinal(r) == (RepeatOrdinal(m) + 1) % 3
    ensures r != m
  {
    match m
    case RepeatOff => RepeatQueue
    case RepeatQueue => RepeatTrack
    case RepeatTrack => RepeatOff
  }

  /** `toggleRepeat()`: also stops the progress timer. */
  function ToggleRepeat(s: PlayerState): (r: PlayerState)
    ensures r.repeat == NextRepeat(s.repeat) && r.interval == Stopped
    ensures r.(repeat := s.repeat, interval := s.interval) == s
  {
    s.(repeat := NextRepeat(s.repeat), interval := Stopped)
  }

  /** The text of the one-line document stored for a track without lyrics. */
  const NoLyricsText: string := "Lyrics not available for this track"

  /** The mock lyrics table, keyed by track identifier. */
  function MockLyrics(trackId: int): (r: Option<LyricsDoc>)
    ensures r.Some? <==> trackId == 1 || trackId == 2
    ensures r.Some? ==> r.value.lines != [] && r.value.lines[0].time == 0
  {
    if trackId == 1 then
      Some(LyricsDoc("Blinding Lights", "The Weeknd", [
        LyricLine(0, "Yeah"),
        LyricLine(3, "I've been tryna call"),
        LyricLine(6, "I've been on my own for long enough"),
        LyricLine(10, "Maybe you can show me how to love, maybe"),
        LyricLine(15, "I feel like I'm just missing"),
        LyricLine(18, "Something when you're gone"),
        LyricLine(21, "Sometimes I wanna text you but for what?"),
        LyricLine(25, "I cannot say"),
        LyricLine(28, "I'm blinded by the lights"),
        LyricLine(32, "No, I can't sleep until I feel your touch"),
        LyricLine(36, "I said, ooh, I'm blinded by the lights"),
        LyricLine(40, "No, I can't sleep until I feel your touch")]))
    else if trackId == 2 then
      Some(LyricsDoc("Watermelon Sugar", "Harry Styles", [
        LyricLine(0, "Tastes like strawberries on a summer evenin'"),
        LyricLine(4, "And it sounds just like a song"),
        LyricLine(8, "I want more berries and that summer feelin'"),
        LyricLine(12, "It's so wonderful and warm"),
        LyricLine(16, "Breathe me in, breathe me out"),
        LyricLine(20, "I don't know if I could ever go without"),
        LyricLine(24, "I'm just thinking out loud"),
        LyricLine(28, "I don't know if I could ever go without"),
        LyricLine(32, "Watermelon sugar high"),
        LyricLine(36, "Watermelon sugar high"),
        LyricLine(40, "Watermelon sugar high")]))
    else None
  }

  /** `a || fallback` on strings: the empty string is falsy. */
  function OrElse(a: string, fallback: string): string
  {
    if a != [] then a else fallback
  }

  /**
   * The document `getLyrics(trackId)` stores: the table's entry, or a
   * one-line placeholder titled after the current track.
   */
  function LyricsFor(trackId: int, currentTrack: Option<Track>): (r: LyricsDoc)
    ensures r.lines != [] && r.lines[0].time == 0
    ensures r.title != [] && r.artist != []
  {
    match MockLyrics(trackId)
    case Some(doc) => doc
    case None =>
      LyricsDoc(
        if currentTrack.Some? then OrElse(currentTrack.value.title, "Unknown") else "Unknown",
        if currentTrack.Some? then OrElse(currentTrack.value.artist, "Unknown Artist") else "Unknown Artist",
        [LyricLine(0, NoLyricsText)])
  }

  /** `getLyrics(trackId)`. */
  function GetLyrics(s: PlayerState, trackId: int): (r: PlayerState)
    ensures r.lyrics.Some? && r.lyrics.value.lines != []
    ensures r.(lyrics := s.lyrics) == s
  {
    s.(lyrics := Some(LyricsFor(trackId, s.currentTrack)))
  }

  /**
   * The end of a track reached by a timer whose bound is `limit` (the timer
   * is already cleared in `s`): repeat-track rewinds to 0 without restarting
   * the timer; otherwise elapsed time is held at `limit` and `playNext` runs,
   * whose `playTrack` resets it to 0 when it starts a track.
   */
  function Complete(s: PlayerState, limit: int, random: real): (r: PlayerState)
    requires 0.0 <= random < 1.0
    ensures r.currentTime == 0 || r.currentTime == limit
    ensures r.queue == s.queue && r.shuffle == s.shuffle && r.repeat == s.repeat && r.volume == s.volume
  {
    if s.repeat == RepeatTrack then s.(currentTime := 0)
    else PlayNext(s.(currentTime := limit), random)
  }

  /** One firing of the progress timer. */
  function Tick(s: PlayerState, random: real): (r: PlayerState)
    requires 0.0 <= random < 1.0
    ensures r.currentTime == s.currentTime + 1 || r.currentTime == 0 || r.interval == Stopped
    ensures r.queue == s.queue && r.shuffle == s.shuffle && r.repeat == s.repeat && r.volume == s.volume
  {
    match s.interval
    case Stopped => s
    case PlayTicker(limit, isAuthenticated) =>
      var newTime := s.currentTime + 1;
      if newTime < limit then s.(currentTime := newTime)
      else if !isAuthenticated && newTime >= PreviewLimit then
        s.(interval := Stopped, isPlaying := false, currentTime := PreviewLimit)
      else Complete(s.(interval := Stopped), limit, random)
    case ResumeTicker(limit) =>
      var newTime := s.currentTime + 1;
      if newTime < limit then s.(currentTime := newTime)
      else Complete(s.(interval := Stopped), limit, random)
  }
}
