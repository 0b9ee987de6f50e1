# Pulse music player: playback state machine and catalog queries in Dafny

This project models the core of a client-side music player written in
JavaScript/React:

- the **player hook** (`src/hooks/usePlayer.js`): the current track, the
  playing flag, elapsed time, the effective duration, the queue and its
  position, shuffle, the repeat mode (off, queue, track), volume, the lyrics
  document and the once-a-second progress timer, together with the commands
  `playTrack`, `playNext`, `playPrevious`, `togglePlayPause`, `seekTo`,
  `setVolume`, `addToQueue`, `toggleShuffle`, `toggleRepeat` and `getLyrics`,
  and the mock lyrics table;
- the **lyrics panel** (`src/components/molecules/LyricsPanel.jsx`): the
  backward scan that picks the active line, the panel's `activeLine` state and
  the past / highlighted / upcoming styling of lines;
- the **catalog queries** (`src/services/api/musicService.js`): look-up by id
  and by a list of ids, case-insensitive search of tracks, playlists and
  albums, the combined search, trending tracks, the featured/user split of
  playlists, and the in-place like toggle;
- the **queue panel** (`src/components/organisms/QueueDisplay.jsx`): the
  current position, the upcoming slice, the removal index and the row keys.

## Layout

| file | module | contents |
|---|---|---|
| `wrappers.dfy` | `Wrappers` | `Option`, for `null`/`undefined` |
| `entities.dfy` | `Entities` | tracks, playlists, albums, lyric documents; `findIndex` by id |
| `text.dfy` | `Text` | `toLowerCase`, `includes`, `trim` |
| `music_service.dfy` | `MusicService` | catalog queries; `TrackCatalog`, the mutable track data set |
| `queue_display.dfy` | `QueueDisplay` | the queue panel's arithmetic and row keys |
| `player_model.dfy` | `PlayerModel` | the player state as a value and one function per command and per timer firing |
| `player_hook.dfy` | `PlayerHook` | class `Player`: fields for the state cells, methods for the commands, `Tick` for the timer |
| `player_properties.dfy` | `PlayerProperties` | what the commands and the timer promise, and an invariant they keep |
| `lyrics_panel.dfy` | `LyricsPanel` | active-line scan, its monotonicity, line styling, class `Panel` |

How the player is modelled:

- Each method of `PlayerHook.Player` overwrites fields step by step, as the
  hook's setters do, and is proved to yield exactly the state the matching
  `PlayerModel` function computes (`ensures State() == PlayerModel.X(old(State()), ...)`).
  The properties are lemmas about those functions in `PlayerProperties`.
- The timer held by `intervalRef` is the field `interval`: `Stopped` (cleared),
  `PlayTicker(limit, isAuthenticated)` (the callback `playTrack` installs, which
  can end a preview) or `ResumeTicker(limit)` (the callback `togglePlayPause`
  installs on resume, which cannot). `Tick` is one firing; it does nothing
  while the timer is cleared.
- `Math.random()` is the `random` argument (a real in [0, 1)) of the commands
  that may shuffle; the index is `Floor(random * n)`, as in the source.
- A queue index outside the queue makes `queue[index]` `undefined`. Passed to
  `playTrack`, it is stored as the current track together with the queue, the
  index and cleared lyrics, and then reading its audio source throws, so
  elapsed time and the playing flag stay as they were; when the position or
  the queue changed, the audio effect's cleanup still clears the old timer
  (`PlayerModel.PlayFromQueue`). `PlayerProperties.Coherent` is an invariant
  under which this never happens.
- When a timer reaches its bound outside repeat-track, the state updater
  returns the bound and `playNext` runs; a `playTrack` started by `playNext`
  queues its own reset to 0 after that, so a new track starts at 0 and an
  exhausted queue holds elapsed time at the bound (`PlayerModel.Complete`).
- The audio effect depends on `repeat` and `playNext`, and `playNext` is
  rebuilt whenever the queue, the position, shuffle or repeat change. Each
  such change runs the effect's cleanup, which clears the timer held in
  `intervalRef` and leaves the playing flag alone. `toggleShuffle`,
  `toggleRepeat` and an `addToQueue` that appends therefore stop the progress
  timer (`PlayerProperties.SettingsChangeFreezesProgress`).

Where the code departs from what one would expect of a player, the model
follows the code:

- `seekTo` does not clamp: elapsed time becomes exactly the requested value.
- `setVolume` is the raw state setter: no clamping to [0, 100]; the initial value is 1.
- `playNext` and `playPrevious` start the chosen track with
  `isAuthenticated` left at its default `false`, so after an authenticated
  track the next one plays as a 50-second preview.
- `playTrack` does not reject an index outside the queue; it stores it.
- Toggling shuffle or repeat, or queueing a new track, during playback stops
  the progress timer without pausing: elapsed time freezes, and a preview is
  never cut at 50 s nor the queue advanced until the next play command.
- On repeat-track completion the timer is cleared before time is reset to 0
  and is not restarted, so the track stays "playing" at 0 without advancing.
- A timer installed by resuming (`togglePlayPause`) has no preview-ended
  branch: a paused preview that is resumed runs into the normal
  end-of-track handling (`PlayerProperties.ResumedPreviewSkipsPreviewEnd`).
- `getLyrics` does not discard a late answer for a track that is no longer current, and there is no bounded,
  deduplicated history (see "Left out").

## Model

| member | source | states |
|---|---|---|
| `Entities.FirstIndexOf` | src/components/organisms/QueueDisplay.jsx:27 | `findIndex` by id: -1 exactly when no entry has the id, otherwise an entry with the id and none before it |
| `Text.ToLower` | src/services/api/musicService.js:43 | the lower-cased string has the same length, each character lower-cased, and no upper-case ASCII letter |
| `Text.ContainsIff` | src/services/api/musicService.js:45-48 | `includes` holds exactly when some suffix of the string starts with the term |
| `Text.Contains` | src/services/api/musicService.js:45-48 | `includes`: the empty term is found in every string, and a found term is no longer than the string |
| `Text.IsJsWhitespace` | src/services/api/musicService.js:41 | the characters `trim` removes: space, tab, line feed and carriage return among them, and never a letter, a digit or `-` |
| `Text.Trim` | src/services/api/musicService.js:41 | `trim` removes white space, and only white space, from both ends: the result is a piece of the string with a white-space prefix before it and a white-space suffix after it, neither starting nor ending with white space, and empty exactly when the string is all white space |
| `Text.IsBlank` | src/services/api/musicService.js:41 | `!query.trim()` holds exactly when every character of the query is white space |
| `MusicService.Filter` | src/services/api/musicService.js:44-50 | `filter` keeps every element satisfying the predicate as many times as it occurs (multiset count), drops every other element, and keeps the input's order (a subsequence) |
| `MusicService.GetById` | src/services/api/musicService.js:15-19 | null exactly when no track has the id; otherwise the first track with that id |
| `MusicService.GetByIds` | src/services/api/musicService.js:21-27 | exactly the catalog tracks whose id is requested, in catalog order |
| `MusicService.GetByIdsDistinct` | src/services/api/musicService.js:21-27 | with distinct catalog ids, no track is returned twice however often an id is requested |
| `MusicService.GetByIdsSameSet` | src/services/api/musicService.js:21-27 | the result depends only on the set of requested ids |
| `MusicService.SubsequenceKeepsDistinctIds` | src/services/api/musicService.js:23-26 | a filtered catalog keeps the catalog's distinct ids |
| `MusicService.SearchTracks` | src/services/api/musicService.js:39-51 | nothing for a blank query; otherwise exactly the tracks whose lower-cased title, artist or album contains the lower-cased, untrimmed query, in catalog order |
| `MusicService.GetTrendingSongs` | src/services/api/musicService.js:56-59 | the first six tracks (all of them when fewer) |
| `MusicService.GetFeatured` | src/services/api/musicService.js:69-74 | exactly the featured playlists, in order |
| `MusicService.GetUserPlaylists` | src/services/api/musicService.js:82-87 | exactly the non-featured playlists, in order |
| `MusicService.FeaturedUserPartition` | src/services/api/musicService.js:69-87 | featured and user playlists are disjoint and together hold every playlist exactly as often as the data |
| `MusicService.SearchPlaylists` | src/services/api/musicService.js:89-100 | nothing for a blank query; otherwise the playlists matching on title or description |
| `MusicService.SearchAlbums` | src/services/api/musicService.js:116-127 | nothing for a blank query; otherwise the albums matching on title or artist |
| `MusicService.SearchAll` | src/services/api/musicService.js:132-153 | three empty lists for a blank query, otherwise the three per-kind searches |
| `MusicService.SearchAllIsPerKindSearch` | src/services/api/musicService.js:132-153 | for every query, blank or not, the combined search equals the per-kind searches |
| `MusicService.ToggleLiked` | src/services/api/musicService.js:29-37 | the toggle keeps the catalog's length and every id |
| `MusicService.ToggleLikedTwice` | src/services/api/musicService.js:29-37 | toggling the same id twice restores the catalog |
| `MusicService.ToggleLikedChangesOnlyFound` | src/services/api/musicService.js:31-33 | only the first entry with the id changes, and only its `liked` flag flips |
| `MusicService.TrackCatalog.ToggleLike` | src/services/api/musicService.js:29-37 | flips `liked` in place and returns the updated entry; an unknown id returns null and changes nothing |
| `QueueDisplay.CurrentIndex` | src/components/organisms/QueueDisplay.jsx:27 | the first position holding the current track's id; -1 when there is none or no current track |
| `QueueDisplay.Render` | src/components/organisms/QueueDisplay.jsx:15-28 | the empty state exactly for an empty queue; otherwise the entries after the current position |
| `QueueDisplay.UpcomingCount` | src/components/organisms/QueueDisplay.jsx:28-35 | the count shown is queue length minus current index minus one |
| `QueueDisplay.AbsentCurrentShowsWholeQueue` | src/components/organisms/QueueDisplay.jsx:27-28 | without the current track in the queue, the whole queue is upcoming |
| `QueueDisplay.RemovalIndexIsPosition` | src/components/organisms/QueueDisplay.jsx:117 | the index passed for upcoming row k is that track's position in the queue |
| `QueueDisplay.RemovalIndex` | src/components/organisms/QueueDisplay.jsx:117 | the index passed for an upcoming row lies after the current position, and is never negative when the position is at least -1 |
| `QueueDisplay.IntToString` | src/components/organisms/QueueDisplay.jsx:75 | decimal rendering of an id: non-empty, a leading `-` exactly for negative ids, digits otherwise |
| `QueueDisplay.RowKey` | src/components/organisms/QueueDisplay.jsx:75 | the key ends with `-` followed by exactly the position's digits |
| `QueueDisplay.NatToString` | src/components/organisms/QueueDisplay.jsx:75 | decimal rendering: non-empty, digits only |
| `QueueDisplay.NatToStringInjective` | src/components/organisms/QueueDisplay.jsx:75 | different positions render differently |
| `QueueDisplay.RowKeyDeterminesPosition` | src/components/organisms/QueueDisplay.jsx:75 | an `Id-position` key determines the position, whatever the ids |
| `QueueDisplay.UpcomingKeysUnique` | src/components/organisms/QueueDisplay.jsx:75 | upcoming rows have pairwise distinct keys even when ids repeat |
| `PlayerModel.EffectiveDuration` | src/hooks/usePlayer.js:177 | the track's duration when authenticated, otherwise at most 50 and at most the duration, one of the two |
| `PlayerModel.RandomIndex` | src/hooks/usePlayer.js:66 | `Math.floor(Math.random() * n)` lies in [0, n) |
| `PlayerModel.QueueAt` | src/hooks/usePlayer.js:82 | `queue[i]` is defined exactly inside the bounds |
| `PlayerModel.NextIndex` | src/hooks/usePlayer.js:64-80 | shuffle picks an index in range; otherwise one ahead, wrapping to 0 under repeat-queue, or exhausted exactly past the end without it; in range whenever the position was at least -1 |
| `PlayerModel.PreviousIndex` | src/hooks/usePlayer.js:256-264 | shuffle picks an index in range; otherwise one back, and below 0 the last index under repeat-queue or 0; in range whenever the position was |
| `PlayerModel.Enqueue` | src/hooks/usePlayer.js:279-294 | unchanged when a queued track has the id, otherwise the track appended |
| `PlayerModel.SeekTo` | src/hooks/usePlayer.js:270-275 | elapsed time becomes exactly the argument; nothing else changes |
| `PlayerModel.SetVolume` | src/hooks/usePlayer.js:53 | volume becomes exactly the argument; nothing else changes |
| `PlayerModel.AddToQueue` | src/hooks/usePlayer.js:278-296 | the queue becomes `Enqueue` of the old one; when it grows the effect cleanup (lines 83, 125-129) stops the timer; otherwise nothing changes |
| `PlayerModel.ToggleShuffle` | src/hooks/usePlayer.js:323-329 | the flag flips and the effect cleanup (lines 83, 125-129) stops the timer; nothing else changes |
| `PlayerModel.NextRepeat` | src/hooks/usePlayer.js:334-336 | `modes[(indexOf(prev) + 1) % 3]` over off, queue, track: the position in that list advances by one modulo 3, so the mode always changes |
| `PlayerModel.ToggleRepeat` | src/hooks/usePlayer.js:332-346 | the mode advances and the effect cleanup (lines 125-129) stops the timer; nothing else changes |
| `PlayerModel.PlayTrack` | src/hooks/usePlayer.js:139-210 | shuffle, repeat and volume are kept; the new timer's bound is the stored duration, never beyond the track's and at most 50 s without authentication |
| `PlayerModel.PlayFromQueue` | src/hooks/usePlayer.js:139-158 | queue and index are stored and the current track is exactly `queue[index]`, possibly undefined; a defined entry starts at 0 with an unauthenticated timer; an undefined one leaves time and playing flag as they were, and the effect cleanup (lines 83, 125-129) clears the timer exactly when the position or queue changed |
| `PlayerModel.PlayNext` | src/hooks/usePlayer.js:61-83 | queue, shuffle, repeat and volume are kept, and any timer it starts is unauthenticated |
| `PlayerModel.PlayPrevious` | src/hooks/usePlayer.js:247-267 | queue, shuffle, repeat and volume are kept, and any timer it starts is unauthenticated |
| `PlayerModel.TogglePlayPause` | src/hooks/usePlayer.js:213-244 | track, time, queue and position are kept; with a track the playing flag flips and the timer runs exactly while playing |
| `PlayerModel.MockLyrics` | src/hooks/usePlayer.js:6-42 | the table has documents for tracks 1 and 2 only, each with a first line at time 0 |
| `PlayerModel.LyricsFor` | src/hooks/usePlayer.js:304-314 | the stored document always has a first line at time 0 and a non-empty title and artist (the `"Unknown"` fallbacks) |
| `PlayerModel.GetLyrics` | src/hooks/usePlayer.js:299-320 | lyrics become a document with at least one line; nothing else changes |
| `PlayerModel.Complete` | src/hooks/usePlayer.js:182-198 | a completed track leaves elapsed time at 0 or at the bound; queue and settings are kept |
| `PlayerModel.Tick` | src/hooks/usePlayer.js:179-202 | a firing adds one second, restarts at 0, or clears the timer; queue and settings are kept |
| `PlayerHook.Player.constructor` | src/hooks/usePlayer.js:45-58 | the initial state: nothing playing, empty queue, repeat off, volume 1, no timer |
| `PlayerHook.Player.PlayTrack` | src/hooks/usePlayer.js:139-210 | the new state is `PlayerModel.PlayTrack` of the old one |
| `PlayerHook.Player.PlayFromQueue` | src/hooks/usePlayer.js:139-158 | `playTrack(queue[i], queue, i)`, including the failure on an undefined entry |
| `PlayerHook.Player.PlayNext` | src/hooks/usePlayer.js:61-83 | the new state is `PlayerModel.PlayNext` of the old one |
| `PlayerHook.Player.PlayPrevious` | src/hooks/usePlayer.js:247-267 | the new state is `PlayerModel.PlayPrevious` of the old one |
| `PlayerHook.Player.TogglePlayPause` | src/hooks/usePlayer.js:213-244 | the new state is `PlayerModel.TogglePlayPause` of the old one |
| `PlayerHook.Player.SeekTo` | src/hooks/usePlayer.js:270-275 | elapsed time becomes the argument, nothing else changes |
| `PlayerHook.Player.SetVolume` | src/hooks/usePlayer.js:53 | volume becomes the argument, nothing else changes |
| `PlayerHook.Player.AddToQueue` | src/hooks/usePlayer.js:278-296 | the new state is `PlayerModel.AddToQueue` of the old one: queue updated in place, timer cleared when it grows |
| `PlayerHook.Player.ToggleShuffle` | src/hooks/usePlayer.js:323-329 | the new state is `PlayerModel.ToggleShuffle` of the old one: flag flipped, timer cleared |
| `PlayerHook.Player.ToggleRepeat` | src/hooks/usePlayer.js:332-346 | the new state is `PlayerModel.ToggleRepeat` of the old one: mode advanced, timer cleared |
| `PlayerHook.Player.GetLyrics` | src/hooks/usePlayer.js:299-320 | lyrics become the table's document or the placeholder |
| `PlayerHook.Player.Complete` | src/hooks/usePlayer.js:182-198 | the end-of-track handling is `PlayerModel.Complete` |
| `PlayerHook.Player.Tick` | src/hooks/usePlayer.js:179-202 | one timer firing is `PlayerModel.Tick` of the old state |
| `PlayerProperties.PlayTrackEffect` | src/hooks/usePlayer.js:139-204 | the track is current, queue is the given one or `[track]`, index as given, time 0, playing, lyrics cleared, duration full or `min(50, duration)` |
| `PlayerProperties.TickBelowBound` | src/hooks/usePlayer.js:180-200 | below the bound a firing only adds one second |
| `PlayerProperties.TickStopped` | src/hooks/usePlayer.js:183 | a cleared timer changes nothing |
| `PlayerProperties.PreviewEnds` | src/hooks/usePlayer.js:183-190 | an unauthenticated play at 50 s stops at exactly 50 on the same track and position, and stays stopped |
| `PlayerProperties.ShortPreviewCompletes` | src/hooks/usePlayer.js:177-198 | a preview shorter than 50 s ends like an authenticated play |
| `PlayerProperties.RepeatTrackRewinds` | src/hooks/usePlayer.js:182-194 | repeat-track rewinds to 0 on the same track, and the cleared timer does not advance it further |
| `PlayerProperties.CompletionAdvances` | src/hooks/usePlayer.js:192-198 | other modes run `playNext` with time at the bound; at the end of the queue without repeat playback stops there |
| `PlayerProperties.ResumedPreviewSkipsPreviewEnd` | src/hooks/usePlayer.js:227-242 | a resumed timer ends a track through the normal completion, never the preview stop |
| `PlayerProperties.PlayNextEmptyQueue` | src/hooks/usePlayer.js:62 | no-op on an empty queue |
| `PlayerProperties.PlayNextInOrder` | src/hooks/usePlayer.js:67-82 | without shuffle the next entry starts at 0, unauthenticated |
| `PlayerProperties.PlayNextWraps` | src/hooks/usePlayer.js:69-71 | past the end, repeat-queue starts the first entry |
| `PlayerProperties.PlayNextExhausted` | src/hooks/usePlayer.js:72-77 | past the end otherwise, playback stops with track, index and time unchanged |
| `PlayerProperties.PlayNextShuffle` | src/hooks/usePlayer.js:65-66 | with shuffle some queue entry starts, unauthenticated |
| `PlayerProperties.ShuffleReachesEveryIndex` | src/hooks/usePlayer.js:66 | every index is chosen by some random value |
| `PlayerProperties.PlayPreviousEmptyQueue` | src/hooks/usePlayer.js:248 | no-op on an empty queue |
| `PlayerProperties.PlayPreviousRestarts` | src/hooks/usePlayer.js:250-254 | after more than 3 s only elapsed time resets to 0 |
| `PlayerProperties.PlayPreviousInRange` | src/hooks/usePlayer.js:256-266 | from a valid position an entry of the queue starts, the previous one or the wrap target |
| `PlayerProperties.TogglePlayPauseNoTrack` | src/hooks/usePlayer.js:214 | no-op without a current track |
| `PlayerProperties.TogglePlayPauseEffect` | src/hooks/usePlayer.js:216-243 | pausing keeps time and clears the timer; resuming ticks against the stored duration |
| `PlayerProperties.PauseResumeKeepsTime` | src/hooks/usePlayer.js:216-243 | pause then resume keeps elapsed time |
| `PlayerProperties.SeekToExact` | src/hooks/usePlayer.js:270-275 | time is exactly the argument; playing flag and timer unchanged |
| `PlayerProperties.AddToQueueEffect` | src/hooks/usePlayer.js:278-296 | track, position and playing flag are kept; the queue grows by the track exactly when its id is new |
| `PlayerProperties.AddToQueueIdempotent` | src/hooks/usePlayer.js:280-286 | adding the same track again changes nothing |
| `PlayerProperties.AddToQueueKeepsIdsDistinct` | src/hooks/usePlayer.js:280-294 | queued ids stay pairwise distinct |
| `PlayerProperties.ToggleRepeatCycle` | src/hooks/usePlayer.js:332-346 | three toggles restore everything but the timer, which is stopped; one toggle always changes the mode |
| `PlayerProperties.ToggleShuffleKeepsQueue` | src/hooks/usePlayer.js:323-329 | the flag flips, the queue keeps its order, and two toggles restore everything but the timer, which is stopped |
| `PlayerProperties.GetLyricsStores` | src/hooks/usePlayer.js:299-315 | the table's document, or a single line at time 0 reading "Lyrics not available for this track" |
| `PlayerProperties.InitialCoherent` | src/hooks/usePlayer.js:45-58 | the initial state satisfies the invariant |
| `PlayerProperties.PlayTrackKeepsCoherent` | src/hooks/usePlayer.js:139-177 | `playTrack` with an index in its queue establishes the invariant |
| `PlayerProperties.PlayNextKeepsCoherent` | src/hooks/usePlayer.js:61-83 | `playNext` keeps the invariant and never loses the current track |
| `PlayerProperties.PlayPreviousKeepsCoherent` | src/hooks/usePlayer.js:247-267 | `playPrevious` keeps the invariant and never loses the current track |
| `PlayerProperties.TickKeepsCoherent` | src/hooks/usePlayer.js:179-202 | a timer firing keeps the invariant and never loses the current track |
| `PlayerProperties.OtherCommandsKeepCoherent` | src/hooks/usePlayer.js:213-346 | the remaining commands keep the invariant |
| `PlayerProperties.TicksBelowBound` | src/hooks/usePlayer.js:179-200 | n firings below the bound add exactly n seconds |
| `PlayerProperties.TicksStopped` | src/hooks/usePlayer.js:183 | after the timer is cleared no number of firings changes anything |
| `PlayerProperties.SettingsChangeFreezesProgress` | src/hooks/usePlayer.js:125-129 | after toggling shuffle or repeat, or an append to the queue, the playing flag is unchanged and no number of firings changes the state |
| `PlayerProperties.AutoAdvanceScenario` | src/hooks/usePlayer.js:179-198 | queue [A 180 s, B 200 s], repeat-queue, authenticated: after 180 s B plays from 0, as a preview |
| `PlayerProperties.PreviewScenario` | src/hooks/usePlayer.js:177-190 | a 300 s track unauthenticated stops at exactly 50 after 50 s and stays there |
| `LyricsPanel.LastStarted` | src/components/molecules/LyricsPanel.jsx:24-29 | the highest index below k whose line has started, or -1 when none has |
| `LyricsPanel.ActiveLineAt` | src/components/molecules/LyricsPanel.jsx:23-29 | the last line started by the time, or line 0 when none has; inside the lines when there are any |
| `LyricsPanel.FindActiveLine` | src/components/molecules/LyricsPanel.jsx:23-29 | the highest line started by the time, or 0 when none has; inside the lines when there are any |
| `LyricsPanel.LastStartedMonotone` | src/components/molecules/LyricsPanel.jsx:24-29 | a later time never finds an earlier line |
| `LyricsPanel.ActiveLineMonotone` | src/components/molecules/LyricsPanel.jsx:24-29 | as time grows the active line never moves back |
| `LyricsPanel.ActiveLineBracketsTime` | src/components/molecules/LyricsPanel.jsx:24-29 | with increasing timestamps the active line's interval contains the time |
| `LyricsPanel.MockLyricsIncreasing` | src/hooks/usePlayer.js:10-39 | both mock documents have strictly increasing timestamps |
| `LyricsPanel.StyleOf` | src/components/molecules/LyricsPanel.jsx:91-95 | highlighted exactly for the active line while playing, past exactly before it, upcoming otherwise |
| `LyricsPanel.AtMostOneHighlighted` | src/components/molecules/LyricsPanel.jsx:91-92 | at most one line is highlighted |
| `LyricsPanel.Panel.constructor` | src/components/molecules/LyricsPanel.jsx:15 | the active line starts at 0 |
| `LyricsPanel.Panel.Sync` | src/components/molecules/LyricsPanel.jsx:19-32 | without lyrics or while paused the active line is unchanged, otherwise it is the scan's result |

## Left out

- The audio element (src/hooks/usePlayer.js:86-136): its event listeners, the `ended` handler (which repeats the completion rule `Tick` models), the load-error handler, and the `volume / 100` assignment are browser I/O. The effect's cleanup of the progress timer is modelled in the commands that change its dependencies.
- `PlayerModel.PlayTrack`, `PlayerModel.PlayNext`, `PlayerModel.PlayPrevious` and `PlayerModel.Tick`: a play command that changes the queue or the position also triggers that cleanup. Whether it clears the old timer or the one `playTrack` has just installed depends on when React re-renders relative to the `await` at line 150. The model assumes the new timer survives, so the timer lemmas (`PreviewEnds`, `CompletionAdvances`, `TicksBelowBound`, `AutoAdvanceScenario`, `PreviewScenario`) hold for this one-timer abstraction only.
- Real timers and React scheduling: `Tick` is called explicitly, every command runs to completion on one coherent state, and the stale values captured by `useCallback` closures are not modelled.
- Toasts, `console` output, the `delay` and 500 ms waits: side effects without state. The awaits make no difference to the model, which runs every command synchronously.
- Recently played: the hook imports a `recentlyPlayedService` that `src/services/api/musicService.js` does not export, so the history list is not part of the model (no cap, no deduplication), and neither is the unused `error` state.
- Removing from the queue: the hook has no such command; only the index the queue panel would pass is modelled (`QueueDisplay.RemovalIndexIsPosition`). Reordering is not wired to anything either.
- `getAll` of each service and `getById` of playlists and albums: `getAll` copies the array, and `getById` is the same `find` as `MusicService.GetById`.
- Shared track objects: `getAll` copies the array but not its tracks, and `getTrendingSongs` returns `slice(0, 6)` without the per-track copy the other queries make, so the in-place flip of `toggleLike` shows through lists handed out earlier. `MusicService.GetTrendingSongs` and `MusicService.TrackCatalog` work on values and do not capture this sharing.
- The `coverUrl` and `audioUrl` fields of tracks: only display and the audio element read them.
- Elapsed time and durations are integers. The seek slider passes integers (`parseInt`); fractional times come only from the audio element's `timeupdate` handler, which is left out with the audio element.
- `Math.random` is an argument; its distribution is not modelled.
- `Text.ToLower`: lower-cases ASCII letters only, not the full Unicode mapping of `toLowerCase`.
- `MusicService.GetById`: takes the id already parsed; `parseInt` of arbitrary strings is not modelled.
- `MusicService.TrackCatalog.ToggleLike`: takes the id already parsed; `parseInt` of arbitrary strings is not modelled.
- `MusicService.GetByIds`: takes integer ids, whose string forms are equal exactly when the integers are; string ids such as "01" are not modelled.
- `QueueDisplay.CurrentIndex`: every queued track is taken to have an `Id`, so none matches an absent current track.
- `LyricsPanel.Panel.Sync`: a lyrics document always has a `lines` array here, so "no lines" coincides with "no lyrics".
- Presentation: page and component rendering, the lyrics auto-scroll, slider percentages, clipboard sharing, and the App-level sign-up gate around `playTrack`.
