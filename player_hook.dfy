/**
 * The player hook as an object: its state cells are fields, its commands
 * are methods that overwrite them, and the timer callback is `Tick`, which
 * a caller invokes once per simulated second. Every method is proved to
 * produce exactly the state the corresponding `PlayerModel` function gives.
 * `Math.random()` arrives as the `random` argument of the commands that may
 * shuffle.
 */
module PlayerHook {
  import opened Wrappers
  import opened Entities
  import opened PlayerModel

  class Player {
    var currentTrack: Option<Track>
    var isPlaying: bool
    var currentTime: int
    var duration: int
    var queue: seq<Track>
    var currentIndex: int
    var shuffle: bool
    var repeat: RepeatMode
    var volume: int
    var lyrics: Option<LyricsDoc>
    var interval: Interval

    /** The hook's state as one value. */
    function State(): PlayerState
      reads this
    {
      PlayerState(currentTrack, isPlaying, currentTime, duration, queue, currentIndex,
                  shuffle, repeat, volume, lyrics, interval)
    }

    constructor ()
      ensures State() == Initial
    {
      currentTrack, isPlaying, currentTime, duration := None, false, 0, 0;
      queue, currentIndex, shuffle, repeat := [], 0, false, RepeatOff;
      volume, lyrics, interval := 1, None, Stopped;
    }

    method PlayTrack(track: Track, trackQueue: seq<Track>, index: int, isAuthenticated: bool)
      modifies this
      ensures State() == PlayerModel.PlayTrack(old(State()), track, trackQueue, index, isAuthenticated)
    {
      currentTrack := Some(track);
      queue := if |trackQueue| > 0 then trackQueue else [track];
      currentIndex := index;
      lyrics := None;
      currentTime := 0;
      isPlaying := true;
      var maxDuration := EffectiveDuration(track.duration, isAuthenticated);
      interval := PlayTicker(maxDuration, isAuthenticated);
      duration := maxDuration;
    }

    /** `playTrack(queue[index], queue, index)`, including the `undefined` track. */
    method PlayFromQueue(q: seq<Track>, index: int)
      requires |q| > 0
      modifies this
      ensures State() == PlayerModel.PlayFromQueue(old(State()), q, index)
    {
      if 0 <= index < |q| {
        PlayTrack(q[index], q, index, false);
      } else {
        if index != currentIndex || q != queue {
          interval := Stopped;
        }
        currentTrack := None;
        queue := q;
        currentIndex := index;
        lyrics := None;
      }
    }

    method PlayNext(random: real)
      requires 0.0 <= random < 1.0
      modifies this
      ensures State() == PlayerModel.PlayNext(old(State()), random)
    {
      if |queue| == 0 {
        return;
      }
      var next := NextIndex(|queue|, currentIndex, shuffle, repeat, random);
      match next {
        case None =>
          isPlaying := false;
          interval := Stopped;
        case Some(k) =>
          PlayFromQueue(queue, k);
      }
    }

    method PlayPrevious(random: real)
      requires 0.0 <= random < 1.0
      modifies this
      ensures State() == PlayerModel.PlayPrevious(old(State()), random)
    {
      if |queue| == 0 {
        return;
      }
      if currentTime > 3 {
        currentTime := 0;
        return;
      }
      var prev := PreviousIndex(|queue|, currentIndex, shuffle, repeat, random);
      PlayFromQueue(queue, prev);
    }

    method TogglePlayPause()
      modifies this
      ensures State() == PlayerModel.TogglePlayPause(old(State()))
    {
      if currentTrack.None? {
        return;
      }
      if isPlaying {
        isPlaying := false;
        interval := Stopped;
      } else {
        isPlaying := true;
        interval := ResumeTicker(duration);
      }
    }

    method SeekTo(time: int)
      modifies this
      ensures State() == PlayerModel.SeekTo(old(State()), time)
    {
      currentTime := time;
    }

    method SetVolume(level: int)
      modifies this
      ensures State() == PlayerModel.SetVolume(old(State()), level)
    {
      volume := level;
    }

    method AddToQueue(track: Track)
      modifies this
      ensures State() == PlayerModel.AddToQueue(old(State()), track)
    {
      var i := FirstIndexOf(queue, track.id);
      if i == -1 {
        queue := queue + [track];
        interval := Stopped;
      } else {
        assert queue[i] in queue;
      }
    }

    method ToggleShuffle()
      modifies this
      ensures State() == PlayerModel.ToggleShuffle(old(State()))
    {
      shuffle := !shuffle;
      interval := Stopped;
    }

    method ToggleRepeat()
      modifies this
      ensures State() == PlayerModel.ToggleRepeat(old(State()))
    {
      repeat := NextRepeat(repeat);
      interval := Stopped;
    }

    method GetLyrics(trackId: int)
      modifies this
      ensures State() == PlayerModel.GetLyrics(old(State()), trackId)
    {
      lyrics := Some(LyricsFor(trackId, currentTrack));
    }

    /** The end of the track for a timer whose bound is `limit`, the timer already cleared. */
    method Complete(limit: int, random: real)
      requires 0.0 <= random < 1.0
      modifies this
      ensures State() == PlayerModel.Complete(old(State()), limit, random)
    {
      if repeat == RepeatTrack {
        currentTime := 0;
      } else {
        currentTime := limit;
        PlayNext(random);
      }
    }

    /** One firing of the progress timer; nothing happens while it is cleared. */
    method Tick(random: real)
      requires 0.0 <= random < 1.0
      modifies this
      ensures State() == PlayerModel.Tick(old(State()), random)
    {
      match interval {
        case Stopped =>
        case PlayTicker(limit, isAuthenticated) =>
          var newTime := currentTime + 1;
          if newTime >= limit {
            interval := Stopped;
            if !isAuthenticated && newTime >= PreviewLimit {
              isPlaying := false;
              currentTime := PreviewLimit;
            } else {
              Complete(limit, random);
            }
          } else {
            currentTime := newTime;
          }
        case ResumeTicker(limit) =>
          var newTime := currentTime + 1;
          if newTime >= limit {
            interval := Stopped;
            Complete(limit, random);
          } else {
            currentTime := newTime;
          }
      }
    }
  }
}
