/**
 * The "Queue" panel: where the current track sits in the queue, which
 * tracks are shown as coming up, the index handed back when one of them
 * is removed, and the React keys of the upcoming rows.
 */
module QueueDisplay {
  import opened Wrappers
  import opened Entities

  /** What the panel shows: the empty state, or the current position and the upcoming tracks. */
  datatype QueueView = EmptyQueue | Listing(currentIndex: int, upcoming: seq<Track>)

  /**
   * `queue.findIndex(track => track.Id === currentTrack?.Id)`: with no current
   * track the identifier is `undefined`, which no queued track has.
   */
  function CurrentIndex(queue: seq<Track>, currentTrack: Option<Track>): (r: int)
    ensures -1 <= r < |queue|
    ensures r >= 0 ==> currentTrack.Some? && queue[r].id == currentTrack.value.id
    ensures r >= 0 ==> forall k :: 0 <= k < r ==> queue[k].id != currentTrack.value.id
    ensures r == -1 <==> currentTrack.None? || forall k :: 0 <= k < |queue| ==> queue[k].id != currentTrack.value.id
  {
    match currentTrack
    case None => -1
    case Some(t) => FirstIndexOf(queue, t.id)
  }

  /** The panel for a queue: nothing is computed for an empty queue. */
  function Render(queue: seq<Track>, currentTrack: Option<Track>): (v: QueueView)
    ensures v.EmptyQueue? <==> queue == []
    ensures v.Listing? ==> -1 <= v.currentIndex < |queue| && v.upcoming == queue[v.currentIndex + 1..]
    ensures v.Listing? ==> v.currentIndex == CurrentIndex(queue, currentTrack)
  {
    if queue == [] then EmptyQueue
    else
      var i := CurrentIndex(queue, currentTrack);
      Listing(i, queue[i + 1..])
  }

  /** The "N tracks coming up" count is the number of queue entries after the current one. */
  lemma UpcomingCount(queue: seq<Track>, currentTrack: Option<Track>)
    requires queue != []
    ensures |Render(queue, currentTrack).upcoming| == |queue| - Render(queue, currentTrack).currentIndex - 1
  {
  }

  /** When the current track is not in the queue, the whole queue is coming up. */
  lemma AbsentCurrentShowsWholeQueue(queue: seq<Track>, currentTrack: Option<Track>)
    requires queue != []
    requires currentTrack.None? || forall t :: t in queue ==> t.id != currentTrack.value.id
    ensures Render(queue, currentTrack).upcoming == queue
  {
  }

  /** The position passed to `onRemoveFromQueue` for upcoming row `k`. */
  function RemovalIndex(currentIndex: int, k: nat): (r: int)
    ensures r > currentIndex
    ensures currentIndex >= -1 ==> r >= 0
  {
    currentIndex + k + 1
  }

  /** The removal index of upcoming row `k` is that very track's position in the queue. */
  lemma RemovalIndexIsPosition(queue: seq<Track>, currentTrack: Option<Track>, k: nat)
    requires queue != []
    requires k < |Render(queue, currentTrack).upcoming|
    ensures var v := Render(queue, currentTrack);
      0 <= RemovalIndex(v.currentIndex, k) < |queue| && queue[RemovalIndex(v.currentIndex, k)] == v.upcoming[k]
  {
  }

  // ---- the row keys `${track.Id}-${currentIndex + index + 1}` ----

  function DigitChar(d: nat): (c: char)
    requires d < 10
  {
    "0123456789"[d]
  }

  /** The decimal rendering of a natural number, as `Number.prototype.toString` gives it. */
  function NatToString(n: nat): (s: string)
    ensures 1 <= |s|
    ensures forall i :: 0 <= i < |s| ==> '0' <= s[i] <= '9'
  {
    if n < 10 then [DigitChar(n)] else NatToString(n / 10) + [DigitChar(n % 10)]
  }

  /** The decimal rendering of an integer, with a leading minus sign when negative. */
  function IntToString(i: int): (r: string)
    ensures |r| >= 1
    ensures r[0] == '-' <==> i < 0
    ensures forall k :: (if i < 0 then 1 else 0) <= k < |r| ==> '0' <= r[k] <= '9'
  {
    if i < 0 then "-" + NatToString(-i) else NatToString(i)
  }

  /** The React key of the upcoming row that sits at queue position `position`. */
  function RowKey(id: int, position: nat): (r: string)
    ensures var d := NatToString(position);
      |r| > |d| && r[|r| - |d| - 1] == '-' && r[|r| - |d|..] == d
  {
    IntToString(id) + "-" + NatToString(position)
  }

  /** Different numbers render differently. */
  lemma {:induction false} NatToStringInjective(a: nat, b: nat)
    requires NatToString(a) == NatToString(b)
    ensures a == b
  {
    var s := NatToString(a);
    if a >= 10 && b >= 10 {
      var pa, pb := NatToString(a / 10), NatToString(b / 10);
      assert s == pa + [DigitChar(a % 10)] == pb + [DigitChar(b % 10)];
      assert pa == s[..|s| - 1] == pb;
      NatToStringInjective(a / 10, b / 10);
      assert DigitChar(a % 10) == s[|s| - 1] == DigitChar(b % 10);
    }
  }

  /** The text after the last '-' of `prefix + "-" + digits` is `digits`, whatever `prefix` holds. */
  lemma DashSuffix(p1: string, d1: string, p2: string, d2: string)
    requires '-' !in d1 && '-' !in d2
    requires p1 + "-" + d1 == p2 + "-" + d2
    ensures d1 == d2
  {
    var s := p1 + "-" + d1;
    assert s[|s| - 1 - |d1|] == '-' && s[|s| - 1 - |d2|] == '-';
    assert forall k :: |s| - |d1| <= k < |s| ==> s[k] == d1[k - (|s| - |d1|)] != '-';
    assert forall k :: |s| - |d2| <= k < |s| ==> s[k] == d2[k - (|s| - |d2|)] != '-';
    assert d1 == s[|s| - |d1|..] == d2;
  }

  /** Row keys tell positions apart even when two rows hold tracks with the same identifier. */
  lemma RowKeyDeterminesPosition(id1: int, pos1: nat, id2: int, pos2: nat)
    requires RowKey(id1, pos1) == RowKey(id2, pos2)
    ensures pos1 == pos2
  {
    var d1, d2 := NatToString(pos1), NatToString(pos2);
    assert '-' !in d1 && '-' !in d2;
    DashSuffix(IntToString(id1), d1, IntToString(id2), d2);
    NatToStringInjective(pos1, pos2);
  }

  /** The upcoming rows have pairwise distinct keys. */
  lemma UpcomingKeysUnique(queue: seq<Track>, currentTrack: Option<Track>, k1: nat, k2: nat)
    requires queue != []
    requires k1 < k2 < |Render(queue, currentTrack).upcoming|
    ensures var v := Render(queue, currentTrack);
      RowKey(v.upcoming[k1].id, RemovalIndex(v.currentIndex, k1)) != RowKey(v.upcoming[k2].id, RemovalIndex(v.currentIndex, k2))
  {
    var v := Render(queue, currentTrack);
    if RowKey(v.upcoming[k1].id, RemovalIndex(v.currentIndex, k1)) == RowKey(v.upcoming[k2].id, RemovalIndex(v.currentIndex, k2)) {
      RowKeyDeterminesPosition(v.upcoming[k1].id, RemovalIndex(v.currentIndex, k1), v.upcoming[k2].id, RemovalIndex(v.currentIndex, k2));
    }
  }
}
