/**
 * The lyrics panel: which line is active for the elapsed time (a backward
 * scan that stops at the first line already started), the panel's
 * `activeLine` state and when it is updated, and the past / highlighted /
 * upcoming styling of each line.
 */
module LyricsPanel {
  import opened Wrappers
  import opened Entities
  import PlayerModel

  /**
   * The highest index below `k` whose line has started by `time`, or -1
   * when none has: what the scan from `k - 1` down to 0 finds.
   */
  function LastStarted(lines: seq<LyricLine>, time: int, k: nat): (r: int)
    requires k <= |lines|
    ensures -1 <= r < k
    ensures r >= 0 ==> time >= lines[r].time && forall j :: r < j < k ==> time < lines[j].time
    ensures r == -1 ==> forall j :: 0 <= j < k ==> time < lines[j].time
  {
    if k == 0 then -1
    else if time >= lines[k - 1].time then k - 1
    else LastStarted(lines, time, k - 1)
  }

  /** The active line: the last line started by `time`, or line 0 when none has started. */
  function ActiveLineAt(lines: seq<LyricLine>, time: int): (r: nat)
    ensures |lines| > 0 ==> r < |lines|
    ensures (exists j :: 0 <= j < |lines| && time >= lines[j].time) ==>
      r < |lines| && time >= lines[r].time && forall j :: r < j < |lines| ==> time < lines[j].time
    ensures (forall j :: 0 <= j < |lines| ==> time < lines[j].time) ==> r == 0
  {
    var i := LastStarted(lines, time, |lines|);
    if i == -1 then 0 else i
  }

  /**
   * The scan of the panel's effect: from the last line backwards, stop at
   * the first line whose time has been reached; 0 if there is none.
   */
  method FindActiveLine(lines: seq<LyricLine>, currentTime: int) returns (r: nat)
    ensures r == ActiveLineAt(lines, currentTime)
    ensures |lines| > 0 ==> r < |lines|
    ensures (exists i :: 0 <= i < |lines| && currentTime >= lines[i].time) ==>
      currentTime >= lines[r].time && forall j :: r < j < |lines| ==> currentTime < lines[j].time
    ensures (forall i :: 0 <= i < |lines| ==> currentTime < lines[i].time) ==> r == 0
  {
    r := 0;
    var i := |lines| - 1;
    while i >= 0
      invariant -1 <= i < |lines|
      invariant r == 0
      invariant forall j :: i < j < |lines| ==> currentTime < lines[j].time
      invariant LastStarted(lines, currentTime, |lines|) == LastStarted(lines, currentTime, i + 1)
    {
      if currentTime >= lines[i].time {
        r := i;
        break;
      }
      i := i - 1;
    }
  }

  /** The later the time, the later (or the same) the last started line, whatever the order of the timestamps. */
  lemma {:induction false} LastStartedMonotone(lines: seq<LyricLine>, t1: int, t2: int, k: nat)
    requires k <= |lines| && t1 <= t2
    ensures LastStarted(lines, t1, k) <= LastStarted(lines, t2, k)
  {
    if k > 0 && t2 < lines[k - 1].time {
      LastStartedMonotone(lines, t1, t2, k - 1);
    }
  }

  /** As playback time grows the active line never moves back. */
  lemma ActiveLineMonotone(lines: seq<LyricLine>, t1: int, t2: int)
    requires t1 <= t2
    ensures ActiveLineAt(lines, t1) <= ActiveLineAt(lines, t2)
  {
    LastStartedMonotone(lines, t1, t2, |lines|);
  }

  /** Timestamps that strictly increase from line to line. */
  predicate StrictlyIncreasing(lines: seq<LyricLine>)
  {
    forall i, j :: 0 <= i < j < |lines| ==> lines[i].time < lines[j].time
  }

  /** With strictly increasing timestamps the active line is the one whose interval contains the time. */
  lemma ActiveLineBracketsTime(lines: seq<LyricLine>, time: int)
    requires StrictlyIncreasing(lines) && |lines| > 0 && time >= lines[0].time
    ensures var a := ActiveLineAt(lines, time);
      lines[a].time <= time && (a + 1 < |lines| ==> time < lines[a + 1].time)
  {
  }

  /** The documents of the mock lyrics table have strictly increasing timestamps. */
  lemma MockLyricsIncreasing(trackId: int)
    requires PlayerModel.MockLyrics(trackId).Some?
    ensures StrictlyIncreasing(PlayerModel.MockLyrics(trackId).value.lines)
  {
  }

  /** How a line is styled. */
  datatype LineStyle = Highlighted | Past | Upcoming

  /** The styling of line `index`: highlighted only while playing. */
  function StyleOf(index: int, activeLine: int, isPlaying: bool): (r: LineStyle)
    ensures r == Highlighted <==> index == activeLine && isPlaying
    ensures r == Past <==> index < activeLine
    ensures r == Upcoming <==> index > activeLine || (index == activeLine && !isPlaying)
  {
    if index == activeLine && isPlaying then Highlighted
    else if index < activeLine then Past
    else Upcoming
  }

  /** At most one line is highlighted. */
  lemma AtMostOneHighlighted(activeLine: int, isPlaying: bool, i: int, j: int)
    requires StyleOf(i, activeLine, isPlaying) == Highlighted && StyleOf(j, activeLine, isPlaying) == Highlighted
    ensures i == j
  {
  }

  /** The panel's `activeLine` state. */
  class Panel {
    var activeLine: int

    constructor ()
      ensures activeLine == 0
    {
      activeLine := 0;
    }

    /**
     * The effect run when the time, the lyrics or the playing flag change:
     * nothing without lyrics or while paused, otherwise the scan's result.
     */
    method Sync(lyrics: Option<LyricsDoc>, currentTime: int, isPlaying: bool)
      modifies this
      ensures lyrics.None? || !isPlaying ==> activeLine == old(activeLine)
      ensures lyrics.Some? && isPlaying ==> activeLine == ActiveLineAt(lyrics.value.lines, currentTime)
    {
      if lyrics.None? || !isPlaying {
        return;
      }
      activeLine := FindActiveLine(lyrics.value.lines, currentTime);
    }
  }
}
