/**
 * The catalog queries of the music service: look-ups by identifier,
 * case-insensitive search, the featured/user split of playlists, the
 * trending list, the combined search, and the in-place like toggle.
 * The fixed JSON data sets become parameters (`tracks`, `playlists`,
 * `albums`); the mutable track data set is the field of `TrackCatalog`.
 */
module MusicService {
  import opened Wrappers
  import opened Entities
  import opened Text

  /** `a` can be obtained from `b` by deleting elements: it keeps `b`'s order. */
  predicate IsSubsequence<T(==)>(a: seq<T>, b: seq<T>)
  {
    a == [] || (b != [] && ((a[0] == b[0] && IsSubsequence(a[1..], b[1..])) || IsSubsequence(a, b[1..])))
  }

  /** `s.filter(p)`: every element of `s` satisfying `p`, as often as it occurs in `s`, in the order of `s`. */
  function Filter<T(==,!new)>(s: seq<T>, p: T -> bool): (r: seq<T>)
    ensures |r| <= |s|
    ensures forall x :: x in r <==> x in s && p(x)
    ensures IsSubsequence(r, s)
    ensures forall x :: multiset(r)[x] == if p(x) then multiset(s)[x] else 0
  {
    assert s != [] ==> s == [s[0]] + s[1..];
    if s == [] then []
    else if p(s[0]) then [s[0]] + Filter(s[1..], p)
    else Filter(s[1..], p)
  }

  // ---- tracksService ----

  /** `tracksService.getById`: the first track whose identifier is `id`, or null. */
  function GetById(tracks: seq<Track>, id: int): (r: Option<Track>)
    ensures r.None? <==> forall t :: t in tracks ==> t.id != id
    ensures r.Some? ==> r.value.id == id
    ensures r.Some? ==>
      exists k :: 0 <= k < |tracks| && tracks[k] == r.value && forall j :: 0 <= j < k ==> tracks[j].id != id
  {
    var k := FirstIndexOf(tracks, id);
    if k == -1 then None else Some(tracks[k])
  }

  predicate HasIdIn(ids: seq<int>, t: Track)
  {
    t.id in ids
  }

  /** `tracksService.getByIds`: the catalog tracks whose identifier is among `ids`, in catalog order. */
  function GetByIds(tracks: seq<Track>, ids: seq<int>): (r: seq<Track>)
    ensures forall t :: t in r <==> t in tracks && t.id in ids
    ensures IsSubsequence(r, tracks)
  {
    Filter(tracks, t => HasIdIn(ids, t))
  }

  /** A track matches a lower-cased search term on its title, artist or album. */
  predicate TrackMatches(t: Track, term: string)
  {
    Contains(ToLower(t.title), term) || Contains(ToLower(t.artist), term) || Contains(ToLower(t.album), term)
  }

  /** `tracksService.search`: nothing for a blank query, otherwise the tracks matching `query.toLowerCase()`. */
  function SearchTracks(tracks: seq<Track>, query: string): (r: seq<Track>)
    ensures IsBlank(query) ==> r == []
    ensures !IsBlank(query) ==> forall t :: t in r <==> t in tracks && TrackMatches(t, ToLower(query))
    ensures IsSubsequence(r, tracks)
  {
    if IsBlank(query) then [] else Filter(tracks, t => TrackMatches(t, ToLower(query)))
  }

  // ---- trendingService ----

  /** `trendingService.getTrendingSongs`: `slice(0, 6)`, the first six catalog tracks. */
  function GetTrendingSongs(tracks: seq<Track>): (r: seq<Track>)
    ensures |r| == if |tracks| < 6 then |tracks| else 6
    ensures r <= tracks
  {
    if |tracks| < 6 then tracks else tracks[..6]
  }

  // ---- playlistsService ----

  predicate IsFeatured(p: Playlist)
  {
    p.featured
  }

  predicate IsUserPlaylist(p: Playlist)
  {
    !p.featured
  }

  /** `playlistsService.getFeatured`. */
  function GetFeatured(playlists: seq<Playlist>): (r: seq<Playlist>)
    ensures forall p :: p in r <==> p in playlists && p.featured
    ensures IsSubsequence(r, playlists)
  {
    Filter(playlists, IsFeatured)
  }

  /** `playlistsService.getUserPlaylists`. */
  function GetUserPlaylists(playlists: seq<Playlist>): (r: seq<Playlist>)
    ensures forall p :: p in r <==> p in playlists && !p.featured
    ensures IsSubsequence(r, playlists)
  {
    Filter(playlists, IsUserPlaylist)
  }

  predicate PlaylistMatches(p: Playlist, term: string)
  {
    Contains(ToLower(p.title), term) || Contains(ToLower(p.description), term)
  }

  /** `playlistsService.search`: matches on title or description. */
  function SearchPlaylists(playlists: seq<Playlist>, query: string): (r: seq<Playlist>)
    ensures IsBlank(query) ==> r == []
    ensures !IsBlank(query) ==> forall p :: p in r <==> p in playlists && PlaylistMatches(p, ToLower(query))
    ensures IsSubsequence(r, playlists)
  {
    if IsBlank(query) then [] else Filter(playlists, p => PlaylistMatches(p, ToLower(query)))
  }

  // ---- albumsService ----

  predicate AlbumMatches(a: Album, term: string)
  {
    Contains(ToLower(a.title), term) || Contains(ToLower(a.artist), term)
  }

  /** `albumsService.search`: matches on title or artist. */
  function SearchAlbums(albums: seq<Album>, query: string): (r: seq<Album>)
    ensures IsBlank(query) ==> r == []
    ensures !IsBlank(query) ==> forall a :: a in r <==> a in albums && AlbumMatches(a, ToLower(query))
    ensures IsSubsequence(r, albums)
  {
    if IsBlank(query) then [] else Filter(albums, a => AlbumMatches(a, ToLower(query)))
  }

  // ---- searchService ----

  datatype SearchResults = SearchResults(tracks: seq<Track>, playlists: seq<Playlist>, albums: seq<Album>)

  /** `searchService.searchAll`: three empty lists for a blank query, the three searches otherwise. */
  function SearchAll(tracks: seq<Track>, playlists: seq<Playlist>, albums: seq<Album>, query: string): (r: SearchResults)
    ensures IsBlank(query) ==> r == SearchResults([], [], [])
    ensures !IsBlank(query) ==>
      r == SearchResults(SearchTracks(tracks, query), SearchPlaylists(playlists, query), SearchAlbums(albums, query))
  {
    if IsBlank(query) then SearchResults([], [], [])
    else SearchResults(SearchTracks(tracks, query), SearchPlaylists(playlists, query), SearchAlbums(albums, query))
  }

  // ---- tracksService.toggleLike, on values ----

  /** The catalog after `toggleLike(id)`: the first track with that identifier has `liked` flipped. */
  function ToggleLiked(tracks: seq<Track>, id: int): (r: seq<Track>)
    ensures |r| == |tracks|
    ensures forall k :: 0 <= k < |tracks| ==> r[k].id == tracks[k].id
  {
    var k := FirstIndexOf(tracks, id);
    if k == -1 then tracks else tracks[k := tracks[k].(liked := !tracks[k].liked)]
  }

  // ---- properties of the queries ----

  /** Every element of a subsequence is an element of the sequence it was taken from. */
  lemma {:induction false} SubsequenceMembers<T>(a: seq<T>, b: seq<T>)
    requires IsSubsequence(a, b)
    ensures forall x :: x in a ==> x in b
  {
    if a != [] {
      if a[0] == b[0] && IsSubsequence(a[1..], b[1..]) {
        SubsequenceMembers(a[1..], b[1..]);
        forall x | x in a ensures x in b {
          if x != a[0] { assert x in a[1..]; }
        }
      } else {
        SubsequenceMembers(a, b[1..]);
      }
    }
  }

  /** A subsequence of a catalog with distinct identifiers has distinct identifiers. */
  lemma {:induction false} SubsequenceKeepsDistinctIds(a: seq<Track>, b: seq<Track>)
    requires IsSubsequence(a, b) && DistinctIds(b)
    ensures DistinctIds(a)
  {
    if a != [] {
      assert DistinctIds(b[1..]) by {
        forall i, j | 0 <= i < j < |b[1..]| ensures b[1..][i].id != b[1..][j].id {
          assert b[1..][i] == b[i + 1] && b[1..][j] == b[j + 1];
        }
      }
      if a[0] == b[0] && IsSubsequence(a[1..], b[1..]) {
        SubsequenceKeepsDistinctIds(a[1..], b[1..]);
        SubsequenceMembers(a[1..], b[1..]);
        forall i, j | 0 <= i < j < |a| ensures a[i].id != a[j].id {
          assert a[j] == a[1..][j - 1];
          if i == 0 {
            assert a[j] in a[1..];
            assert a[j] in b[1..];
            var m :| 0 <= m < |b[1..]| && b[1..][m] == a[j];
            assert b[m + 1] == a[j];
          } else {
            assert a[i] == a[1..][i - 1];
          }
        }
      } else {
        SubsequenceKeepsDistinctIds(a, b[1..]);
      }
    }
  }

  /** `getByIds` never returns a track twice when the catalog's identifiers are distinct, however often an id is repeated. */
  lemma GetByIdsDistinct(tracks: seq<Track>, ids: seq<int>)
    requires DistinctIds(tracks)
    ensures DistinctIds(GetByIds(tracks, ids))
  {
    SubsequenceKeepsDistinctIds(GetByIds(tracks, ids), tracks);
  }

  /** `getByIds` depends only on which ids are asked for, not on their order or repetition. */
  lemma {:induction false} GetByIdsSameSet(tracks: seq<Track>, ids1: seq<int>, ids2: seq<int>)
    requires forall x :: x in ids1 <==> x in ids2
    ensures GetByIds(tracks, ids1) == GetByIds(tracks, ids2)
  {
    if tracks != [] {
      GetByIdsSameSet(tracks[1..], ids1, ids2);
    }
  }

  /** `getFeatured` and `getUserPlaylists` split the playlists: together they hold each playlist exactly as often as the data does. */
  lemma {:induction false} FeaturedUserPartition(playlists: seq<Playlist>)
    ensures multiset(GetFeatured(playlists)) + multiset(GetUserPlaylists(playlists)) == multiset(playlists)
    ensures forall p :: !(p in GetFeatured(playlists) && p in GetUserPlaylists(playlists))
  {
    if playlists != [] {
      FeaturedUserPartition(playlists[1..]);
      assert playlists == [playlists[0]] + playlists[1..];
    }
  }

  /** `searchAll` agrees with the three per-kind searches for every query, blank or not. */
  lemma SearchAllIsPerKindSearch(tracks: seq<Track>, playlists: seq<Playlist>, albums: seq<Album>, query: string)
    ensures SearchAll(tracks, playlists, albums, query) ==
      SearchResults(SearchTracks(tracks, query), SearchPlaylists(playlists, query), SearchAlbums(albums, query))
  {
  }

  /** Toggling the same track twice restores the catalog. */
  lemma ToggleLikedTwice(tracks: seq<Track>, id: int)
    ensures ToggleLiked(ToggleLiked(tracks, id), id) == tracks
  {
    var once := ToggleLiked(tracks, id);
    assert FirstIndexOf(once, id) == FirstIndexOf(tracks, id);
  }

  /** Toggling changes `liked` on at most one entry, the one `getById` finds. */
  lemma ToggleLikedChangesOnlyFound(tracks: seq<Track>, id: int, k: nat)
    requires k < |tracks|
    ensures ToggleLiked(tracks, id)[k] != tracks[k] ==>
      k == FirstIndexOf(tracks, id) && ToggleLiked(tracks, id)[k] == tracks[k].(liked := !tracks[k].liked)
  {
  }

  /** The catalog as data: `tracksData`, whose entries `toggleLike` changes in place. */
  class TrackCatalog {
    var tracks: seq<Track>

    constructor (data: seq<Track>)
      ensures tracks == data
    {
      tracks := data;
    }

    /**
     * `tracksService.toggleLike`: flips `liked` on the catalog entry and returns a
     * copy of the updated entry, or null (changing nothing) for an unknown id.
     */
    method ToggleLike(id: int) returns (r: Option<Track>)
      modifies this
      ensures tracks == ToggleLiked(old(tracks), id)
      ensures r == GetById(tracks, id)
      ensures r.None? <==> tracks == old(tracks) && forall t :: t in tracks ==> t.id != id
      ensures r.Some? ==> r.value.liked == !GetById(old(tracks), id).value.liked
    {
      var k := FirstIndexOf(tracks, id);
      if k == -1 {
        r := None;
      } else {
        tracks := tracks[k := tracks[k].(liked := !tracks[k].liked)];
        r := Some(tracks[k]);
      }
    }
  }
}
