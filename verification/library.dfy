/**
 * The records LineupLens passes between its parts: a saved track as the Spotify
 * Web API returns it, the same track as the local cache stores it, a festival
 * catalog as the lineup loader produces it, and one ranked match.
 * A string field the source only tests for truthiness holds "" where the
 * JavaScript object holds `undefined`, `null` or the empty string.
 */
module Library {

  /** One entry of `track.artists` in an API response. */
  datatype ArtistRef = ArtistRef(id: string, name: string)

  /** `track` of a saved-track item; `albumName` is `track.album?.name`. */
  datatype Track = Track(id: string, name: string, artists: seq<ArtistRef>, albumName: string)

  /** One element of the `items` array of `GET /me/tracks`; `addedAt` is `added_at` in milliseconds. */
  datatype SavedItem = SavedItem(addedAt: int, track: Track)

  /** The record the `likedSongs` object store keeps, keyed by `trackId`. */
  datatype SongRecord = SongRecord(
    trackId: string,
    trackName: string,
    artistIds: seq<string>,
    artistNames: seq<string>,
    albumName: string,
    addedAt: int,
    syncedAt: int)

  /** A liked song as the matcher receives it: the storage format, the API format, or neither. */
  datatype LikedSong =
    | Stored(record: SongRecord)
    | FromApi(item: SavedItem)
    | Unrecognized

  /** `artistDetails[spotifyId]` of a festival catalog. */
  datatype ArtistDetail = ArtistDetail(originalName: string, matchedName: string, matchType: string)

  /** A festival catalog: accepted Spotify IDs in first-seen order and the details of each. */
  datatype FestivalData = FestivalData(artistIds: seq<string>, artistDetails: map<string, ArtistDetail>)

  /** One matched artist with the number of liked songs that list it. */
  datatype MatchResult = MatchResult(
    spotifyId: string,
    name: string,
    originalName: string,
    matchedName: string,
    likedSongs: nat)

  /** API items handed on as liked songs. */
  function FromApiAll(items: seq<SavedItem>): (songs: seq<LikedSong>)
    ensures |songs| == |items| && forall i :: 0 <= i < |items| ==> songs[i] == FromApi(items[i])
  {
    seq(|items|, i requires 0 <= i < |items| => FromApi(items[i]))
  }

  /** JavaScript `a || b` on strings: the first operand unless it is empty. */
  function Or(a: string, b: string): (r: string)
    ensures a != "" ==> r == a
    ensures a == "" ==> r == b
    ensures r != "" <==> (a != "" || b != "")
  {
    if a != "" then a else b
  }
}
