/**
 * The catalog's value types: tracks, playlists and albums as the mock JSON
 * data describes them, and the lyrics documents the player keeps.
 */
module Entities {

  /** A catalog track. `liked` is the only field anything changes (the like toggle). */
  datatype Track = Track(id: int, title: string, artist: string, album: string, duration: nat, liked: bool)

  datatype Playlist = Playlist(id: int, title: string, description: string, featured: bool)

  datatype Album = Album(id: int, title: string, artist: string)

  /** One timed lyric line: `time` is the elapsed second at which it starts. */
  datatype LyricLine = LyricLine(time: int, text: string)

  datatype LyricsDoc = LyricsDoc(title: string, artist: string, lines: seq<LyricLine>)

  /**
   * `findIndex(t => t.Id === id)`: the first position holding a track with
   * identifier `id`, or -1 when there is none.
   */
  function FirstIndexOf(tracks: seq<Track>, id: int): (r: int)
    ensures -1 <= r < |tracks|
    ensures r == -1 <==> forall k :: 0 <= k < |tracks| ==> tracks[k].id != id
    ensures r >= 0 ==> tracks[r].id == id && forall k :: 0 <= k < r ==> tracks[k].id != id
  {
    if tracks == [] then -1
    else if tracks[0].id == id then 0
    else
      var rest := FirstIndexOf(tracks[1..], id);
      if rest == -1 then -1 else rest + 1
  }

  /** No two tracks of `tracks` share an identifier. */
  predicate DistinctIds(tracks: seq<Track>)
  {
    forall i, j :: 0 <= i < j < |tracks| ==> tracks[i].id != tracks[j].id
  }
}
