/**
 * The storage layer (assets/js/storage.js): session storage holding JSON
 * text under string keys, and the three IndexedDB object stores of the
 * local cache: liked songs keyed by track id, sync metadata keyed by name,
 * and festival catalogs keyed by festival id. Each store is a map updated
 * one request at a time; opening the database and its asynchronous request
 * callbacks are not part of the model.
 */
module Storage {
  import opened Common
  import opened Library
  import opened Js
  import Matcher

  // ---------------------------------------------------------------------------
  // Session storage

  /**
   * The text session storage holds for one key: the JSON text of a value, or
   * text that is not JSON (what `setItem` stores for `undefined`, namely the
   * word "undefined").
   */
  datatype Item = Text(json: JsValue) | NotJson

  /** What `saveSession` writes for a value. */
  function StoredText(v: JsValue): (item: Item)
    ensures item.NotJson? <==> v == Undefined
    ensures item.Text? ==> item.json == Serialize(v).value
  {
    if v == Undefined then NotJson else Text(Serialize(v).value)
  }

  /** What `getSession` reads: the parsed text, or `null` when the key is missing or its text does not parse. */
  function ReadItem(items: map<string, Item>, key: string): (v: JsValue)
    ensures key !in items ==> v == Null
    ensures key in items && items[key].NotJson? ==> v == Null
    ensures key in items && items[key].Text? ==> v == items[key].json
  {
    if key in items && items[key].Text? then items[key].json else Null
  }

  /** Saving and then reading a key gives back the value's JSON round trip, and `null` for `undefined`. */
  lemma SessionRoundTrip(items: map<string, Item>, key: string, v: JsValue)
    ensures ReadItem(items[key := StoredText(v)], key) == (if v == Undefined then Null else Serialize(v).value)
    ensures IsJson(v) ==> ReadItem(items[key := StoredText(v)], key) == v
  {
    if IsJson(v) {
      SerializeRoundTrip(v);
    }
  }

  /** Saving one key leaves every other key reading as before. */
  lemma SessionOtherKeys(items: map<string, Item>, key: string, v: JsValue, other: string)
    requires other != key
    ensures ReadItem(items[key := StoredText(v)], other) == ReadItem(items, other)
  {
  }

  /** The browser's `sessionStorage`, shared by every part of the application. */
  class SessionStore {
    var items: map<string, Item>

    constructor()
      ensures items == map[]
    {
      items := map[];
    }

    /** `saveSession(key, value)`: store the JSON text of `value`. */
    method SaveSession(key: string, value: JsValue)
      modifies this
      ensures items == old(items)[key := StoredText(value)]
    {
      items := items[key := StoredText(value)];
    }

    /** `getSession(key)`. */
    function GetSession(key: string): (v: JsValue)
      reads this
      ensures key !in items ==> v == Null
      ensures key in items && items[key].NotJson? ==> v == Null
      ensures key in items && items[key].Text? ==> v == items[key].json
    {
      ReadItem(items, key)
    }

    /** `clearSession(key)`: remove one key, or everything when the key is absent or empty (falsy). */
    method ClearSession(key: string)
      modifies this
      ensures key != "" ==> items == old(items) - {key}
      ensures key == "" ==> items == map[]
    {
      if key != "" {
        items := items - {key};
      } else {
        items := map[];
      }
    }
  }

  // ---------------------------------------------------------------------------
  // The liked-songs store

  /** The storage form of a saved track: artist ids and names in the track's order, one shared sync time. */
  function ToRecord(item: SavedItem, syncedAt: int): (r: SongRecord)
    ensures r.trackId == item.track.id && r.trackName == item.track.name
    ensures |r.artistIds| == |r.artistNames| == |item.track.artists|
    ensures forall k :: 0 <= k < |r.artistIds| ==>
              r.artistIds[k] == item.track.artists[k].id && r.artistNames[k] == item.track.artists[k].name
    ensures r.albumName == item.track.albumName && r.addedAt == item.addedAt && r.syncedAt == syncedAt
  {
    var artists := item.track.artists;
    SongRecord(
      item.track.id,
      item.track.name,
      seq(|artists|, k requires 0 <= k < |artists| => artists[k].id),
      seq(|artists|, k requires 0 <= k < |artists| => artists[k].name),
      item.track.albumName,
      item.addedAt,
      syncedAt)
  }

  /** `songs.map(...)`: every item converted with the same sync time. */
  function ToRecords(items: seq<SavedItem>, syncedAt: int): (rs: seq<SongRecord>)
    ensures |rs| == |items| && forall k :: 0 <= k < |items| ==> rs[k] == ToRecord(items[k], syncedAt)
  {
    seq(|items|, k requires 0 <= k < |items| => ToRecord(items[k], syncedAt))
  }

  /** `store.put` of each record in turn, keyed by track id. */
  function PutAll(store: map<string, SongRecord>, rs: seq<SongRecord>): (s: map<string, SongRecord>)
    decreases |rs|
  {
    if rs == [] then store else PutAll(store, rs[..|rs| - 1])[rs[|rs| - 1].trackId := rs[|rs| - 1]]
  }

  /** The last position of a record for `id`, or -1. */
  function LastFor(rs: seq<SongRecord>, id: string): (k: int)
    ensures -1 <= k < |rs|
    ensures k >= 0 ==> rs[k].trackId == id && forall j :: k < j < |rs| ==> rs[j].trackId != id
    ensures k == -1 ==> forall j :: 0 <= j < |rs| ==> rs[j].trackId != id
    decreases |rs|
  {
    if rs == [] then -1
    else if rs[|rs| - 1].trackId == id then |rs| - 1
    else LastFor(rs[..|rs| - 1], id)
  }

  /**
   * After the puts, a track id written by some record holds the last such
   * record, and every other key keeps what it held: nothing is removed.
   */
  lemma {:induction false} PutAllLastWins(store: map<string, SongRecord>, rs: seq<SongRecord>, id: string)
    ensures LastFor(rs, id) >= 0 ==> id in PutAll(store, rs) && PutAll(store, rs)[id] == rs[LastFor(rs, id)]
    ensures LastFor(rs, id) == -1 ==> (id in PutAll(store, rs) <==> id in store)
    ensures LastFor(rs, id) == -1 && id in store ==> PutAll(store, rs)[id] == store[id]
    decreases |rs|
  {
    if rs != [] {
      PutAllLastWins(store, rs[..|rs| - 1], id);
    }
  }

  /** A cached record matches the same catalog artists as the API item it was made from. */
  lemma RecordKeepsArtists(item: SavedItem, syncedAt: int)
    ensures Matcher.SongArtists(LikedSong.Stored(ToRecord(item, syncedAt))) == Matcher.SongArtists(FromApi(item))
  {
  }

  /** One entry of the sync-metadata store. */
  datatype SyncMetadata = SyncMetadata(lastSyncTime: int, totalSongs: int, lastFetchedPage: Option<int>)

  /** One entry of the festival store. */
  datatype FestivalRecord = FestivalRecord(
    festivalId: string,
    artistIds: seq<string>,
    artistDetails: map<string, ArtistDetail>,
    loadedAt: int)

  const LAST_SYNC := "lastSync"

  /** The value `updateSyncMetadata` stores: a falsy (0) time becomes `now`, a falsy count 0, a falsy page `null`. */
  function MetadataOf(lastSyncTime: int, totalSongs: int, lastFetchedPage: int, now: int): (m: SyncMetadata)
    ensures lastSyncTime != 0 ==> m.lastSyncTime == lastSyncTime
    ensures lastSyncTime == 0 ==> m.lastSyncTime == now
    ensures m.totalSongs == totalSongs
    ensures m.lastFetchedPage.Some? <==> lastFetchedPage != 0
    ensures m.lastFetchedPage.Some? ==> m.lastFetchedPage.value == lastFetchedPage
  {
    SyncMetadata(
      if lastSyncTime != 0 then lastSyncTime else now,
      totalSongs,
      if lastFetchedPage != 0 then Some(lastFetchedPage) else None)
  }

  /** The IndexedDB database `lineuplens_db` and its three object stores. */
  class Database {
    var likedSongs: map<string, SongRecord>
    var syncMetadata: map<string, SyncMetadata>
    var festivalData: map<string, FestivalRecord>

    constructor()
      ensures likedSongs == map[] && syncMetadata == map[] && festivalData == map[]
    {
      likedSongs, syncMetadata, festivalData := map[], map[], map[];
    }

    /**
     * `saveLikedSongs`: put the storage form of every item, in order, all with
     * sync time `now`; an empty list changes nothing.
     */
    method SaveLikedSongs(items: seq<SavedItem>, now: int)
      modifies this
      ensures likedSongs == PutAll(old(likedSongs), ToRecords(items, now))
      ensures syncMetadata == old(syncMetadata) && festivalData == old(festivalData)
    {
      var songsToStore := ToRecords(items, now);
      for i := 0 to |songsToStore|
        invariant likedSongs == PutAll(old(likedSongs), songsToStore[..i])
        invariant syncMetadata == old(syncMetadata) && festivalData == old(festivalData)
      {
        assert songsToStore[..i + 1][..i] == songsToStore[..i];
        var song := songsToStore[i];
        likedSongs := likedSongs[song.trackId := song];
      }
      assert songsToStore[..|songsToStore|] == songsToStore;
    }

    /** `getLikedSongs`: every stored record once (IndexedDB hands them out in key order, which is not modelled). */
    method GetLikedSongs() returns (songs: seq<SongRecord>)
      ensures forall r :: r in songs <==> r in likedSongs.Values
      ensures |songs| == |likedSongs.Keys|
    {
      songs := [];
      var left := likedSongs.Keys;
      while left != {}
        invariant left <= likedSongs.Keys
        invariant forall r :: r in songs <==> exists k :: k in likedSongs.Keys - left && likedSongs[k] == r
        invariant |songs| == |likedSongs.Keys - left|
        decreases |left|
      {
        var k :| k in left;
        assert likedSongs.Keys - (left - {k}) == (likedSongs.Keys - left) + {k};
        songs := songs + [likedSongs[k]];
        left := left - {k};
      }
      assert likedSongs.Keys - left == likedSongs.Keys;
    }

    /** `getSyncMetadata`: the value under "lastSync", or `null`. */
    function GetSyncMetadata(): (m: Option<SyncMetadata>)
      reads this
      ensures m.Some? <==> LAST_SYNC in syncMetadata
      ensures m.Some? ==> m.value == syncMetadata[LAST_SYNC]
    {
      if LAST_SYNC in syncMetadata then Some(syncMetadata[LAST_SYNC]) else None
    }

    /** `updateSyncMetadata`: store the defaulted metadata under "lastSync". */
    method UpdateSyncMetadata(lastSyncTime: int, totalSongs: int, lastFetchedPage: int, now: int)
      modifies this
      ensures syncMetadata == old(syncMetadata)[LAST_SYNC := MetadataOf(lastSyncTime, totalSongs, lastFetchedPage, now)]
      ensures GetSyncMetadata() == Some(MetadataOf(lastSyncTime, totalSongs, lastFetchedPage, now))
      ensures likedSongs == old(likedSongs) && festivalData == old(festivalData)
    {
      syncMetadata := syncMetadata[LAST_SYNC := MetadataOf(lastSyncTime, totalSongs, lastFetchedPage, now)];
    }

    /** `saveFestivalData`: missing ids or details are stored empty, with the load time. */
    method SaveFestivalData(festivalId: string, artistIds: Option<seq<string>>,
                            artistDetails: Option<map<string, ArtistDetail>>, now: int)
      modifies this
      ensures festivalData == old(festivalData)[festivalId := FestivalRecord(
                festivalId,
                if artistIds.Some? then artistIds.value else [],
                if artistDetails.Some? then artistDetails.value else map[],
                now)]
      ensures GetFestivalData(festivalId) == Some(FestivalData(
                if artistIds.Some? then artistIds.value else [],
                if artistDetails.Some? then artistDetails.value else map[]))
      ensures forall id :: id != festivalId ==> GetFestivalData(id) == old(GetFestivalData(id))
      ensures likedSongs == old(likedSongs) && syncMetadata == old(syncMetadata)
    {
      var ids := if artistIds.Some? then artistIds.value else [];
      var details := if artistDetails.Some? then artistDetails.value else map[];
      festivalData := festivalData[festivalId := FestivalRecord(festivalId, ids, details, now)];
    }

    /** `getFestivalData`: the catalog part of the stored record, or `null` for an unknown festival. */
    function GetFestivalData(festivalId: string): (d: Option<FestivalData>)
      reads this
      ensures d.Some? <==> festivalId in festivalData
      ensures d.Some? ==> d.value.artistIds == festivalData[festivalId].artistIds
                          && d.value.artistDetails == festivalData[festivalId].artistDetails
    {
      if festivalId in festivalData then
        Some(FestivalData(festivalData[festivalId].artistIds, festivalData[festivalId].artistDetails))
      else None
    }

    /** `clearAll`: empty all three stores. */
    method ClearAll()
      modifies this
      ensures likedSongs == map[] && syncMetadata == map[] && festivalData == map[]
      ensures GetSyncMetadata() == None && forall id :: GetFestivalData(id) == None
    {
      likedSongs, syncMetadata, festivalData := map[], map[], map[];
    }
  }
}
