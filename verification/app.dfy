/**
 * The two data-loading flows of the LineupLens application controller:
 * `loadFestivalData`, which serves a festival catalog from the local cache or
 * loads it from the festival's CSV file, and `fetchLikedSongs`, which serves
 * the liked songs from the cache while it is less than an hour old and
 * otherwise walks the Spotify pages again. Both publish what they load in the
 * application state; every `setState` they make is listed, in order, by the
 * functions below.
 */
module App {
  import opened Common
  import opened Library
  import opened Js
  import opened Storage
  import opened State
  import opened CsvParser
  import opened Api

  const NOT_AUTHENTICATED := "Not authenticated"
  const FESTIVAL_NOT_FOUND_PREFIX := "Festival not found: "
  const FETCHING_MESSAGE := "Fetching your liked songs..."
  /** One hour in milliseconds: the age below which cached songs are served. */
  const ONE_HOUR_MS := 3600000

  // ---------------------------------------------------------------------------
  // The values the flows put into the application state

  function StrArr(xs: seq<string>): (v: JsValue)
    ensures v.Arr? && |v.items| == |xs| && forall i :: 0 <= i < |xs| ==> v.items[i] == Str(xs[i])
  {
    Arr(seq(|xs|, i requires 0 <= i < |xs| => Str(xs[i])))
  }

  function DetailValue(d: ArtistDetail): JsValue {
    Obj(map["originalName" := Str(d.originalName), "matchedName" := Str(d.matchedName), "matchType" := Str(d.matchType)])
  }

  /** A festival catalog as the object `{ artistIds, artistDetails }`. */
  function FestivalValue(d: FestivalData): JsValue {
    Obj(map["artistIds" := StrArr(d.artistIds),
            "artistDetails" := Obj(map id | id in d.artistDetails :: DetailValue(d.artistDetails[id]))])
  }

  function RecordValue(r: SongRecord): JsValue {
    Obj(map["trackId" := Str(r.trackId), "trackName" := Str(r.trackName),
            "artistIds" := StrArr(r.artistIds), "artistNames" := StrArr(r.artistNames),
            "albumName" := Str(r.albumName), "addedAt" := Num(r.addedAt), "syncedAt" := Num(r.syncedAt)])
  }

  function ArtistRefValue(a: ArtistRef): JsValue {
    Obj(map["id" := Str(a.id), "name" := Str(a.name)])
  }

  function ItemValue(item: SavedItem): JsValue {
    var t := item.track;
    Obj(map["added_at" := Num(item.addedAt),
            "track" := Obj(map["id" := Str(t.id), "name" := Str(t.name),
                               "artists" := Arr(seq(|t.artists|, k requires 0 <= k < |t.artists| => ArtistRefValue(t.artists[k]))),
                               "album" := Obj(map["name" := Str(t.albumName)])])])
  }

  function SongValue(s: LikedSong): JsValue {
    match s
    case Stored(r) => RecordValue(r)
    case FromApi(item) => ItemValue(item)
    case Unrecognized => Obj(map[])
  }

  function SongsValue(songs: seq<LikedSong>): (v: JsValue)
    ensures v.Arr? && |v.items| == |songs|
  {
    Arr(seq(|songs|, i requires 0 <= i < |songs| => SongValue(songs[i])))
  }

  /** `{ ...festivals, [id]: v }`: the festival is added or replaced and every other one is kept. */
  function WithFestival(festivals: JsValue, id: string, v: JsValue): (r: JsValue)
    ensures r.Obj? && id in r.fields && r.fields[id] == v
    ensures festivals.Obj? ==> r.fields.Keys == festivals.fields.Keys + {id}
    ensures festivals.Obj? ==> forall other :: other in festivals.fields && other != id ==> r.fields[other] == festivals.fields[other]
    ensures !festivals.Obj? ==> r.fields.Keys == {id}
  {
    Obj((if festivals.Obj? then festivals.fields else map[])[id := v])
  }

  function FestivalUpdate(state: AppState, id: string, d: FestivalData): AppState {
    map[FESTIVALS := WithFestival(State.Field(state, FESTIVALS), id, FestivalValue(d))]
  }

  function LoadingUpdate(message: string): AppState {
    map[LOADING_MESSAGE := Str(message)]
  }

  function SongsUpdate(songs: seq<LikedSong>): AppState {
    map[LIKED_SONGS := SongsValue(songs)]
  }

  // ---------------------------------------------------------------------------
  // A run of setState calls

  /** The state after applying `updates` in order, each merged over the last. */
  function ApplyAll(state: AppState, updates: seq<AppState>): AppState
    decreases |updates|
  {
    if updates == [] then state
    else Merge(ApplyAll(state, updates[..|updates| - 1]), updates[|updates| - 1])
  }

  /** The subscriber calls of those `setState`s: after each one, every subscriber is called with the new state. */
  function Broadcast(subscribers: seq<nat>, state: AppState, updates: seq<AppState>): seq<Notification>
    decreases |updates|
  {
    if updates == [] then []
    else Broadcast(subscribers, state, updates[..|updates| - 1]) + Calls(subscribers, ApplyAll(state, updates))
  }

  /** Session storage after those `setState`s: only the last snapshot survives. */
  function PersistedAfter(items: map<string, Item>, state: AppState, updates: seq<AppState>): map<string, Item> {
    if updates == [] then items else items[STATE_KEY := StoredText(Snapshot(ApplyAll(state, updates)))]
  }

  /** The state manager went from the first triple to the second by exactly the `setState` calls `updates`. */
  predicate Applied(subscribers: seq<nat>, updates: seq<AppState>,
                    state: AppState, notifications: seq<Notification>, items: map<string, Item>,
                    state': AppState, notifications': seq<Notification>, items': map<string, Item>) {
    && state' == ApplyAll(state, updates)
    && notifications' == notifications + Broadcast(subscribers, state, updates)
    && items' == PersistedAfter(items, state, updates)
  }

  lemma ApplyAllSnoc(state: AppState, updates: seq<AppState>, u: AppState)
    ensures ApplyAll(state, updates + [u]) == Merge(ApplyAll(state, updates), u)
  {
    var us := updates + [u];
    assert us[..|us| - 1] == updates;
  }

  lemma BroadcastSnoc(subscribers: seq<nat>, state: AppState, updates: seq<AppState>, u: AppState)
    ensures Broadcast(subscribers, state, updates + [u])
            == Broadcast(subscribers, state, updates) + Calls(subscribers, ApplyAll(state, updates + [u]))
  {
    var us := updates + [u];
    assert us[..|us| - 1] == updates;
  }

  lemma AppliedSnoc(subscribers: seq<nat>, updates: seq<AppState>, u: AppState,
                    state: AppState, notifications: seq<Notification>, items: map<string, Item>,
                    state': AppState, notifications': seq<Notification>, items': map<string, Item>)
    requires Applied(subscribers, updates, state, notifications, items, state', notifications', items')
    ensures Applied(subscribers, updates + [u], state, notifications, items,
                    Merge(state', u), notifications' + Calls(subscribers, Merge(state', u)),
                    items'[STATE_KEY := StoredText(Snapshot(Merge(state', u)))])
  {
    ApplyAllSnoc(state, updates, u);
    BroadcastSnoc(subscribers, state, updates, u);
    var next := Merge(state', u);
    assert ApplyAll(state, updates + [u]) == next;
    AppendAssoc(notifications, Broadcast(subscribers, state, updates), Calls(subscribers, next));
    if updates != [] {
      OverwriteTwice(items, STATE_KEY, StoredText(Snapshot(state')), StoredText(Snapshot(next)));
    }
  }

  // ---------------------------------------------------------------------------
  // Progress messages

  /**
   * `Math.round((current / total) * 100)`, or 0 when the total is not positive:
   * the whole number nearest to 100 * current / total, halves rounded up.
   */
  function Percentage(current: int, total: int): (pct: int)
    ensures total > 0 ==> 2 * total * pct <= 200 * current + total < 2 * total * (pct + 1)
    ensures total <= 0 ==> pct == 0
  {
    if total > 0 then
      FloorDivision(200 * current + total, 2 * total);
      (200 * current + total) / (2 * total)
    else 0
  }

  /** Euclidean division: the quotient is the largest multiple of `d` not above `n`. */
  lemma FloorDivision(n: int, d: int)
    requires d > 0
    ensures d * (n / d) <= n < d * (n / d + 1)
  {
    var q := n / d;
    assert n == d * q + n % d;
    assert 0 <= n % d < d;
    assert d * (q + 1) == d * q + d;
  }

  /** A count within the total gives a percentage from 0 to 100, and the whole total gives 100. */
  lemma PercentageBounds(current: int, total: int)
    requires 0 <= current <= total && total > 0
    ensures 0 <= Percentage(current, total) <= 100
    ensures current == total ==> Percentage(current, total) == 100
  {
    var d := 2 * total;
    var n := 200 * current + total;
    assert 0 < n < d * 101 by {
      assert 200 * current <= 200 * total;
    }
    DivBelow(n, d, 101);
    if current == total {
      assert n == d * 100 + total;
      DivExact(n, d, 100, total);
    }
  }

  lemma DivBelow(n: int, d: int, k: int)
    requires 0 <= n < d * k && d > 0
    ensures 0 <= n / d < k
  {
  }

  lemma DivExact(n: int, d: int, q: int, rest: int)
    requires d > 0 && 0 <= rest < d && n == d * q + rest
    ensures n / d == q
  {
    var q', r' := n / d, n % d;
    assert d * q' + r' == d * q + rest;
    assert d * (q' - q) == rest - r';
    if q' > q {
      MulAtLeast(d, q' - q);
    } else if q' < q {
      MulAtLeast(d, q - q');
    }
  }

  lemma MulAtLeast(d: int, a: int)
    requires d > 0 && a >= 1
    ensures d * a >= d
  {
  }

  function ProgressMessage(p: Progress): string {
    "Loading liked songs... " + IntToString(p.fetched) + " of " + IntToString(p.total)
      + " (" + IntToString(Percentage(p.fetched, p.total)) + "%)"
  }

  function CachedMessage(count: nat): string {
    "Using cached songs (" + IntToString(count) + " total)"
  }

  function ProgressValue(p: Progress): JsValue {
    Obj(map["current" := Num(p.fetched), "total" := Num(p.total)])
  }

  /** `f(p)` then `g(p)` for every `p` of `ps`, in order. */
  function Interleave<P, U>(ps: seq<P>, f: P -> U, g: P -> U): (us: seq<U>)
    ensures |us| == 2 * |ps|
    decreases |ps|
  {
    if ps == [] then []
    else Interleave(ps[..|ps| - 1], f, g) + [f(ps[|ps| - 1]), g(ps[|ps| - 1])]
  }

  lemma {:induction false} InterleaveAt<P, U>(ps: seq<P>, f: P -> U, g: P -> U, k: int)
    requires 0 <= k < |ps|
    ensures Interleave(ps, f, g)[2 * k] == f(ps[k])
    ensures Interleave(ps, f, g)[2 * k + 1] == g(ps[k])
    decreases |ps|
  {
    var n := |ps| - 1;
    if k < n {
      InterleaveAt(ps[..n], f, g, k);
      assert ps[..n][k] == ps[k];
    }
  }

  /** The first `setState` of a progress callback: its message. */
  function ReportMessage(p: Progress): AppState {
    LoadingUpdate(ProgressMessage(p))
  }

  /** The second `setState` of a progress callback: `{ progress }`. */
  function ReportProgress(p: Progress): AppState {
    map[PROGRESS := ProgressValue(p)]
  }

  /** The two `setState`s of each progress callback: the message, then `{ progress }`. */
  function ReportUpdates(reports: seq<Progress>): (us: seq<AppState>)
    ensures |us| == 2 * |reports|
  {
    Interleave(reports, ReportMessage, ReportProgress)
  }

  lemma ReportUpdatesSnoc(progress: seq<Progress>, i: int)
    requires 0 <= i < |progress|
    ensures ReportUpdates(progress[..i + 1])
            == ReportUpdates(progress[..i]) + [LoadingUpdate(ProgressMessage(progress[i])), map[PROGRESS := ProgressValue(progress[i])]]
  {
    assert progress[..i + 1][..i] == progress[..i];
  }

  /** Report `k` makes updates `2k` (its message) and `2k + 1` (its `{ progress }`). */
  lemma ReportUpdatesAt(reports: seq<Progress>, k: int)
    requires 0 <= k < |reports|
    ensures ReportUpdates(reports)[2 * k] == LoadingUpdate(ProgressMessage(reports[k]))
    ensures ReportUpdates(reports)[2 * k + 1] == map[PROGRESS := ProgressValue(reports[k])]
  {
    InterleaveAt(reports, ReportMessage, ReportProgress, k);
  }

  // ---------------------------------------------------------------------------
  // Cache decisions

  /** Cached songs are served when there are some, sync metadata exists, and the last sync is less than an hour old. */
  predicate CacheIsFresh(cachedCount: nat, meta: Option<SyncMetadata>, now: int): (isFresh: bool)
    ensures isFresh ==> cachedCount > 0 && meta.Some?
    ensures cachedCount > 0 && meta.Some? ==> (isFresh <==> now < meta.value.lastSyncTime + ONE_HOUR_MS)
  {
    cachedCount > 0 && meta.Some? && now - meta.value.lastSyncTime < ONE_HOUR_MS
  }

  /** After a sync that stored at least one song, the cache is served for exactly the following hour. */
  lemma {:induction false} SyncedCacheIsFresh(store: map<string, SongRecord>, items: seq<SavedItem>, now: int, later: int)
    requires items != []
    ensures CacheIsFresh(|PutAll(store, ToRecords(items, now)).Keys|, Some(MetadataOf(now, |items|, 0, now)), later)
            <==> later < now + ONE_HOUR_MS
  {
    var rs := ToRecords(items, now);
    var id := rs[0].trackId;
    assert rs[0].trackId == id;
    PutAllLastWins(store, rs, id);
    assert id in PutAll(store, rs).Keys;
  }

  /** The address `loadFestivalData` fetches: the CSV path, with `?t=<now>` appended when the cache is bypassed. */
  function CsvUrl(csv: string, forceRefresh: bool, now: int): (url: string)
    ensures IsPrefix(csv, url)
    ensures !forceRefresh ==> url == csv
    ensures forceRefresh ==> url == csv + "?t=" + IntToString(now)
  {
    csv + (if forceRefresh then "?t=" + IntToString(now) else "")
  }

  /** Cache busting works: a forced load asks for an address other than the plain one, and a different one at every other time. */
  lemma CsvUrlBusts(csv: string, now: int, later: int)
    ensures CsvUrl(csv, true, now) != CsvUrl(csv, false, now)
    ensures now != later ==> CsvUrl(csv, true, now) != CsvUrl(csv, true, later)
  {
    assert |CsvUrl(csv, true, now)| > |csv|;
    if CsvUrl(csv, true, now) == CsvUrl(csv, true, later) {
      var n := |csv| + 3;
      assert CsvUrl(csv, true, now)[n..] == IntToString(now);
      assert CsvUrl(csv, true, later)[n..] == IntToString(later);
      IntToStringInjective(now, later);
    }
  }

  /** The `setState`s of `fetchLikedSongs` when it goes to the API and the walk ends as `c`. */
  function FetchUpdates(c: Crawl, songs: seq<LikedSong>): seq<AppState> {
    [LoadingUpdate(FETCHING_MESSAGE)] + ReportUpdates(ReportsOf(c.pages))
      + (if c.end.Finished? then [SongsUpdate(songs)] else [])
  }

  /**
   * The cache after `fetchLikedSongs` went to the API and the walk ended as `c`:
   * a finished walk stores every song and records the sync at `now`; a failed
   * or stalled one stores nothing.
   */
  predicate FetchedFromApi(c: Crawl, now: int, r: Completion<seq<LikedSong>>,
                           songs: map<string, SongRecord>, meta: map<string, SyncMetadata>, festivals: map<string, FestivalRecord>,
                           songs': map<string, SongRecord>, meta': map<string, SyncMetadata>, festivals': map<string, FestivalRecord>) {
    && (c.end.Finished? ==>
      && r == Returned(FromApiAll(Flatten(c.pages)))
      && songs' == PutAll(songs, ToRecords(Flatten(c.pages), now))
      && meta' == meta[LAST_SYNC := MetadataOf(now, |Flatten(c.pages)|, 0, now)])
    && (c.end.Failed? ==> r == Threw(c.end.message) && songs' == songs && meta' == meta)
    && (c.end.Stalled? ==> r == Waiting && songs' == songs && meta' == meta)
    && festivals' == festivals
  }

  lemma {:induction false} ApplyAllAppend(state: AppState, a: seq<AppState>, b: seq<AppState>)
    ensures ApplyAll(state, a + b) == ApplyAll(ApplyAll(state, a), b)
    decreases |b|
  {
    if b == [] {
      assert a + b == a;
    } else {
      var b' := b[..|b| - 1];
      assert (a + b)[..|a + b| - 1] == a + b';
      ApplyAllAppend(state, a, b');
    }
  }

  lemma {:induction false} BroadcastAppend(subscribers: seq<nat>, state: AppState, a: seq<AppState>, b: seq<AppState>)
    ensures Broadcast(subscribers, state, a + b)
            == Broadcast(subscribers, state, a) + Broadcast(subscribers, ApplyAll(state, a), b)
    decreases |b|
  {
    if b == [] {
      assert a + b == a;
    } else {
      var b' := b[..|b| - 1];
      assert (a + b)[..|a + b| - 1] == a + b';
      BroadcastAppend(subscribers, state, a, b');
      ApplyAllAppend(state, a, b);
      AppendAssoc(Broadcast(subscribers, state, a), Broadcast(subscribers, ApplyAll(state, a), b'),
                  Calls(subscribers, ApplyAll(state, a + b)));
    }
  }

  lemma OverwriteTwice<K, V>(m: map<K, V>, k: K, x: V, y: V)
    ensures m[k := x][k := y] == m[k := y]
  {
  }

  lemma {:induction false} PersistedAfterAppend(items: map<string, Item>, state: AppState, a: seq<AppState>, b: seq<AppState>)
    ensures PersistedAfter(items, state, a + b)
            == PersistedAfter(PersistedAfter(items, state, a), ApplyAll(state, a), b)
  {
    if b == [] {
      assert a + b == a;
    } else if a == [] {
      assert a + b == b;
    } else {
      ApplyAllAppend(state, a, b);
      OverwriteTwice(items, STATE_KEY, StoredText(Snapshot(ApplyAll(state, a))), StoredText(Snapshot(ApplyAll(state, a + b))));
    }
  }

  /** Two runs of `setState` calls one after the other are the run of both lists. */
  lemma {:induction false} AppliedAppend(subscribers: seq<nat>, a: seq<AppState>, b: seq<AppState>,
                      s0: AppState, n0: seq<Notification>, i0: map<string, Item>,
                      s1: AppState, n1: seq<Notification>, i1: map<string, Item>,
                      s2: AppState, n2: seq<Notification>, i2: map<string, Item>)
    requires Applied(subscribers, a, s0, n0, i0, s1, n1, i1)
    requires Applied(subscribers, b, s1, n1, i1, s2, n2, i2)
    ensures Applied(subscribers, a + b, s0, n0, i0, s2, n2, i2)
  {
    ApplyAllAppend(s0, a, b);
    BroadcastAppend(subscribers, s0, a, b);
    PersistedAfterAppend(i0, s0, a, b);
    assert n2 == n0 + Broadcast(subscribers, s0, a + b);
  }

  // ---------------------------------------------------------------------------
  // The controller

  class LineupLensApp {
    const stateManager: StateManager
    const db: Database
    /** `festivalConfig`: the CSV path of each known festival. */
    const festivalCsv: map<string, string>
    /** The access token `this.api` was built with, or `None` while `this.api` is `null`. */
    var api: Option<string>

    constructor(stateManager: StateManager, db: Database, festivalCsv: map<string, string>)
      ensures this.stateManager == stateManager && this.db == db && this.festivalCsv == festivalCsv
      ensures api == None
    {
      this.stateManager := stateManager;
      this.db := db;
      this.festivalCsv := festivalCsv;
      api := None;
    }

    /** `updateLoadingMessage`: the state half (the on-screen text is not modelled). */
    method UpdateLoadingMessage(message: string)
      modifies stateManager, stateManager.session
      ensures stateManager.state == Merge(old(stateManager.state), LoadingUpdate(message))
      ensures stateManager.subscribers == old(stateManager.subscribers)
      ensures stateManager.notifications == old(stateManager.notifications) + Calls(stateManager.subscribers, stateManager.state)
      ensures stateManager.session.items == old(stateManager.session.items)[STATE_KEY := StoredText(Snapshot(stateManager.state))]
    {
      stateManager.SetState(LoadingUpdate(message));
    }

    /**
     * `loadFestivalData`: an unknown festival is an error; unless the cache is
     * bypassed, a cached catalog is published and returned; otherwise the CSV
     * is fetched and parsed, and a catalog that parses is cached, published and
     * returned. A parse failure changes nothing.
     */
    method LoadFestivalData(festivalId: string, forceRefresh: bool, fetch: (string, bool) -> Result<seq<Row>>, now: int)
      returns (r: Result<FestivalData>)
      modifies stateManager, stateManager.session, db
      ensures festivalId !in festivalCsv ==>
        && r == Err(FESTIVAL_NOT_FOUND_PREFIX + festivalId)
        && unchanged(stateManager, stateManager.session, db)
      ensures festivalId in festivalCsv && !forceRefresh && old(db.GetFestivalData(festivalId)).Some? ==>
        && r == Ok(old(db.GetFestivalData(festivalId)).value)
        && unchanged(db)
        && Applied(old(stateManager.subscribers), [FestivalUpdate(old(stateManager.state), festivalId, r.value)],
                   old(stateManager.state), old(stateManager.notifications), old(stateManager.session.items),
                   stateManager.state, stateManager.notifications, stateManager.session.items)
      ensures festivalId in festivalCsv && (forceRefresh || old(db.GetFestivalData(festivalId)).None?) ==>
        && r == Parsed(fetch(CsvUrl(festivalCsv[festivalId], forceRefresh, now), forceRefresh))
        && (r.Err? ==> unchanged(stateManager, stateManager.session, db))
        && (r.Ok? ==>
          && db.festivalData == old(db.festivalData)[festivalId :=
               FestivalRecord(festivalId, r.value.artistIds, r.value.artistDetails, now)]
          && db.likedSongs == old(db.likedSongs) && db.syncMetadata == old(db.syncMetadata)
          && Applied(old(stateManager.subscribers), [FestivalUpdate(old(stateManager.state), festivalId, r.value)],
                     old(stateManager.state), old(stateManager.notifications), old(stateManager.session.items),
                     stateManager.state, stateManager.notifications, stateManager.session.items))
      ensures r.Ok? ==> db.GetFestivalData(festivalId) == Some(r.value)
      ensures stateManager.subscribers == old(stateManager.subscribers)
    {
      if festivalId !in festivalCsv {
        return Err(FESTIVAL_NOT_FOUND_PREFIX + festivalId);
      }
      if !forceRefresh {
        var cached := db.GetFestivalData(festivalId);
        if cached.Some? {
          PublishFestival(festivalId, cached.value);
          return Ok(cached.value);
        }
      }
      var csvUrl := CsvUrl(festivalCsv[festivalId], forceRefresh, now);
      r := ParseCsv(fetch(csvUrl, forceRefresh));
      if r.Err? {
        return;
      }
      db.SaveFestivalData(festivalId, Some(r.value.artistIds), Some(r.value.artistDetails), now);
      PublishFestival(festivalId, r.value);
    }

    /** The `setState` that adds or replaces one festival under `festivals`. */
    method PublishFestival(festivalId: string, d: FestivalData)
      modifies stateManager, stateManager.session
      ensures Applied(old(stateManager.subscribers), [FestivalUpdate(old(stateManager.state), festivalId, d)],
                      old(stateManager.state), old(stateManager.notifications), old(stateManager.session.items),
                      stateManager.state, stateManager.notifications, stateManager.session.items)
      ensures stateManager.subscribers == old(stateManager.subscribers)
    {
      ghost var us: seq<AppState> := [];
      assert Applied(stateManager.subscribers, us, stateManager.state, stateManager.notifications, stateManager.session.items,
                     stateManager.state, stateManager.notifications, stateManager.session.items);
      var u := FestivalUpdate(stateManager.state, festivalId, d);
      AppliedSnoc(stateManager.subscribers, us, u, stateManager.state, stateManager.notifications, stateManager.session.items,
                  stateManager.state, stateManager.notifications, stateManager.session.items);
      stateManager.SetState(u);
    }

    /**
     * `fetchLikedSongs`: without an API client it fails; with cached songs whose
     * last sync is less than an hour old it publishes and returns them;
     * otherwise it walks the liked-songs pages again (see `FetchFromApi`).
     */
    method FetchLikedSongs(responses: seq<HttpResponse<Page>>, now: int) returns (r: Completion<seq<LikedSong>>)
      modifies stateManager, stateManager.session, db
      ensures api.None? ==> r == Threw(NOT_AUTHENTICATED) && unchanged(stateManager, stateManager.session, db)
      ensures api.Some? && CacheIsFresh(|old(db.likedSongs).Keys|, old(db.GetSyncMetadata()), now) ==>
        && r.Returned?
        && |r.value| == |old(db.likedSongs).Keys|
        && (forall s :: s in r.value <==> s.Stored? && s.record in old(db.likedSongs).Values)
        && unchanged(db)
        && Applied(old(stateManager.subscribers), [LoadingUpdate(CachedMessage(|r.value|)), SongsUpdate(r.value)],
                   old(stateManager.state), old(stateManager.notifications), old(stateManager.session.items),
                   stateManager.state, stateManager.notifications, stateManager.session.items)
      ensures api.Some? && !CacheIsFresh(|old(db.likedSongs).Keys|, old(db.GetSyncMetadata()), now) ==>
        FetchedFromApi(CrawlPages(api.value, FIRST_PAGE_URL, responses), now, r, old(db.likedSongs), old(db.syncMetadata), old(db.festivalData),
                       db.likedSongs, db.syncMetadata, db.festivalData)
        && Applied(old(stateManager.subscribers), FetchUpdates(CrawlPages(api.value, FIRST_PAGE_URL, responses), if r.Returned? then r.value else []),
                   old(stateManager.state), old(stateManager.notifications), old(stateManager.session.items),
                   stateManager.state, stateManager.notifications, stateManager.session.items)
      ensures stateManager.subscribers == old(stateManager.subscribers)
    {
      if api.None? {
        return Threw(NOT_AUTHENTICATED);
      }
      var cached := db.GetLikedSongs();
      var syncMetadata := db.GetSyncMetadata();
      if |cached| > 0 && syncMetadata.Some? && now - syncMetadata.value.lastSyncTime < ONE_HOUR_MS {
        var songs := ServeCached(cached);
        return Returned(songs);
      }
      r := FetchFromApi(api.value, responses, now);
    }

    /** The cache branch of `fetchLikedSongs`: announce the cached songs, publish them, return them. */
    method ServeCached(cached: seq<SongRecord>) returns (songs: seq<LikedSong>)
      modifies stateManager, stateManager.session
      ensures |songs| == |cached| && forall i :: 0 <= i < |cached| ==> songs[i] == LikedSong.Stored(cached[i])
      ensures forall s :: s in songs <==> s.Stored? && s.record in cached
      ensures Applied(old(stateManager.subscribers), [LoadingUpdate(CachedMessage(|songs|)), SongsUpdate(songs)],
                      old(stateManager.state), old(stateManager.notifications), old(stateManager.session.items),
                      stateManager.state, stateManager.notifications, stateManager.session.items)
      ensures stateManager.subscribers == old(stateManager.subscribers)
    {
      songs := seq(|cached|, i requires 0 <= i < |cached| => LikedSong.Stored(cached[i]));
      forall s: LikedSong | s.Stored? && s.record in cached ensures s in songs {
        var i :| 0 <= i < |cached| && cached[i] == s.record;
        assert songs[i] == s;
      }
      var u1 := LoadingUpdate(CachedMessage(|songs|));
      var u2 := SongsUpdate(songs);
      assert Applied(stateManager.subscribers, [], stateManager.state, stateManager.notifications,
                     stateManager.session.items, stateManager.state, stateManager.notifications, stateManager.session.items);
      AppliedSnoc(stateManager.subscribers, [], u1, old(stateManager.state), old(stateManager.notifications),
                  old(stateManager.session.items), stateManager.state, stateManager.notifications, stateManager.session.items);
      UpdateLoadingMessage(CachedMessage(|songs|));
      AppliedSnoc(stateManager.subscribers, [u1], u2, old(stateManager.state), old(stateManager.notifications),
                  old(stateManager.session.items), stateManager.state, stateManager.notifications, stateManager.session.items);
      stateManager.SetState(u2);
      assert [u1] + [u2] == [u1, u2];
    }

    /**
     * The API branch of `fetchLikedSongs`: announce the fetch, walk the pages
     * (publishing a message and the progress after each page), then store the
     * songs, record the sync and publish the songs. A failed walk rethrows
     * after the progress already published and stores nothing.
     */
    method FetchFromApi(token: string, responses: seq<HttpResponse<Page>>, now: int) returns (r: Completion<seq<LikedSong>>)
      modifies stateManager, stateManager.session, db
      ensures FetchedFromApi(CrawlPages(token, FIRST_PAGE_URL, responses), now, r, old(db.likedSongs), old(db.syncMetadata), old(db.festivalData),
                             db.likedSongs, db.syncMetadata, db.festivalData)
      ensures Applied(old(stateManager.subscribers), FetchUpdates(CrawlPages(token, FIRST_PAGE_URL, responses), if r.Returned? then r.value else []),
                      old(stateManager.state), old(stateManager.notifications), old(stateManager.session.items),
                      stateManager.state, stateManager.notifications, stateManager.session.items)
      ensures stateManager.subscribers == old(stateManager.subscribers)
    {
      ghost var c := CrawlPages(token, FIRST_PAGE_URL, responses);
      var u0 := LoadingUpdate(FETCHING_MESSAGE);
      assert Applied(stateManager.subscribers, [], stateManager.state, stateManager.notifications,
                     stateManager.session.items, stateManager.state, stateManager.notifications, stateManager.session.items);
      AppliedSnoc(stateManager.subscribers, [], u0, old(stateManager.state), old(stateManager.notifications),
                  old(stateManager.session.items), stateManager.state, stateManager.notifications, stateManager.session.items);
      UpdateLoadingMessage(FETCHING_MESSAGE);
      ghost var mid := stateManager.state;
      ghost var midNotes := stateManager.notifications;
      ghost var midItems := stateManager.session.items;
      var outcome, progress, _ := GetAllLikedSongs(token, responses);
      PublishProgress(progress);
      AppliedAppend(stateManager.subscribers, [u0], ReportUpdates(progress),
                    old(stateManager.state), old(stateManager.notifications), old(stateManager.session.items),
                    mid, midNotes, midItems,
                    stateManager.state, stateManager.notifications, stateManager.session.items);
      ghost var us := [u0] + ReportUpdates(progress);
      match outcome {
        case Waiting =>
          r := Waiting;
        case Threw(e) =>
          r := Threw(e);
        case Returned(songs) =>
          db.SaveLikedSongs(songs, now);
          db.UpdateSyncMetadata(now, |songs|, 0, now);
          r := Returned(FromApiAll(songs));
          var u := SongsUpdate(r.value);
          AppliedSnoc(stateManager.subscribers, us, u, old(stateManager.state), old(stateManager.notifications),
                      old(stateManager.session.items), stateManager.state, stateManager.notifications, stateManager.session.items);
          stateManager.SetState(u);
          us := us + [u];
      }
      assert us == FetchUpdates(c, if r.Returned? then r.value else []);
    }

    /** The progress callback, once per report: a loading message, then `{ progress }`. */
    method PublishProgress(progress: seq<Progress>)
      modifies stateManager, stateManager.session
      ensures Applied(old(stateManager.subscribers), ReportUpdates(progress),
                      old(stateManager.state), old(stateManager.notifications), old(stateManager.session.items),
                      stateManager.state, stateManager.notifications, stateManager.session.items)
      ensures stateManager.subscribers == old(stateManager.subscribers)
    {
      assert Applied(stateManager.subscribers, [], stateManager.state, stateManager.notifications,
                     stateManager.session.items, stateManager.state, stateManager.notifications, stateManager.session.items);
      for i := 0 to |progress|
        invariant stateManager.subscribers == old(stateManager.subscribers)
        invariant Applied(stateManager.subscribers, ReportUpdates(progress[..i]), old(stateManager.state),
                          old(stateManager.notifications), old(stateManager.session.items),
                          stateManager.state, stateManager.notifications, stateManager.session.items)
      {
        ReportUpdatesSnoc(progress, i);
        PublishReport(progress[i], ReportUpdates(progress[..i]),
                      old(stateManager.state), old(stateManager.notifications), old(stateManager.session.items));
      }
      assert progress[..|progress|] == progress;
    }

    /** One progress callback: the message `setState`, then the `{ progress }` `setState`. */
    method PublishReport(p: Progress, ghost us: seq<AppState>,
                         ghost s0: AppState, ghost n0: seq<Notification>, ghost i0: map<string, Item>)
      modifies stateManager, stateManager.session
      requires Applied(stateManager.subscribers, us, s0, n0, i0,
                       stateManager.state, stateManager.notifications, stateManager.session.items)
      ensures Applied(stateManager.subscribers,
                      us + [LoadingUpdate(ProgressMessage(p)), map[PROGRESS := ProgressValue(p)]], s0, n0, i0,
                      stateManager.state, stateManager.notifications, stateManager.session.items)
      ensures stateManager.subscribers == old(stateManager.subscribers)
    {
      var message := LoadingUpdate(ProgressMessage(p));
      AppliedSnoc(stateManager.subscribers, us, message, s0, n0, i0,
                  stateManager.state, stateManager.notifications, stateManager.session.items);
      UpdateLoadingMessage(ProgressMessage(p));
      var report := map[PROGRESS := ProgressValue(p)];
      AppliedSnoc(stateManager.subscribers, us + [message], report, s0, n0, i0,
                  stateManager.state, stateManager.notifications, stateManager.session.items);
      stateManager.SetState(report);
      assert us + [message] + [report] == us + [message, report];
    }
  }
}
