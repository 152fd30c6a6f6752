# LineupLens in Dafny

LineupLens compares a listener's Spotify saved-track library with festival
lineups and ranks the festival artists by how many liked songs list them. This
project models the logic behind that comparison and proves what it promises:

- **Lineup catalog normaliser** (`csv_parser.dfy`, module `CsvParser`). Parsed
  CSV rows are validated and filtered. They become a catalog: a duplicate-free,
  first-seen-ordered list of Spotify IDs and a detail map in which the last
  accepted row for an ID wins.
- **Matcher and ranker** (`matcher.dfy`, module `Matcher`). Liked-song
  occurrences are counted per catalog artist in a map. One result per counted
  artist is built, and the results are sorted in place. The order is count
  descending, with ties broken by name. The in-place sort is `ArraySort.Sort`
  (`array_sort.dfy`).
- **Spotify API client** (`api.dfy`, module `Api`). This covers the
  classification of one request's responses and the rate-limit retry (status
  429, RFC 6585 section 4, waiting `Retry-After` seconds, RFC 9110 section
  10.2.3). It also covers the walk over the saved-tracks pages with its
  progress reports and the exponential-backoff retry wrapper. The network is a
  finite script of responses.
- **Sign-in and tokens** (`auth.dfy`, module `Auth`):
  - the authorization-code flow with PKCE (RFC 7636) and its `state` check
    (section 10.12 of RFC 6749);
  - token storage in session storage, and expiry with a five-minute margin;
  - refresh (section 6 of RFC 6749) and logout;
  - the url-safe base64 mapping of section 5 of RFC 4648.
- **Storage** (`storage.dfy`, module `Storage`). Session storage is a map from
  key to JSON text (`SessionStore`). The three IndexedDB object stores are maps
  (`Database`).
- **State store** (`state.dfy`, module `State`). `StateManager` holds a state
  object replaced by shallow merges. It has a subscriber list told about every
  change, and it keeps a non-secret snapshot in session storage.
- **Controller flows** (`app.dfy`, module `App`). These are the two data-loading
  flows of the application controller: `loadFestivalData` (cache or CSV) and
  `fetchLikedSongs` (the cache while it is younger than an hour, else the API).
  Every `setState` they make is listed in order.
- **The legacy single-file page** (`legacy.dfy`, module `Legacy`, for
  `script.js`). It has its own name normaliser, CSV reader, count-only matcher,
  pagination loop and token check. Lemmas state where it differs from the
  modular version and where it agrees:
  - duplicate IDs are kept;
  - ties are not broken;
  - a failed page returns the songs gathered so far;
  - the counts equal the modular matcher's counts.

Shared pieces:

- `common.dfy` holds `Option`/`Result` and the JavaScript string built-ins the
  source calls (`trim`, `toLowerCase`, `indexOf`, `includes`, `split`).
- `js.dfy` holds JavaScript values, with truthiness and the `JSON.stringify`/`JSON.parse`
  round trip.
- `library.dfy` holds the records passed between the parts.

Conventions of the model:

- Side effects of the browser are explicit state. Session storage and the
  object stores are class fields holding maps. Subscriber calls are recorded
  in a `notifications` list.
- Time, randomness and remote answers are parameters:
  - `now` stands for `Date.now()`;
  - the PKCE verifier and `state` are given to `InitiateLogin`;
  - the token endpoint is `exchange`/`grant`;
  - the CSV download is `fetch`/`download`;
  - the API is a response script.

## Model

| member | source | states |
|---|---|---|
| `Common.Trim` | assets/js/csv-parser.js:164 | `trim`: the result neither starts nor ends with white space, and is no longer than the input |
| `Common.TrimIsSlice` | assets/js/csv-parser.js:164 | the trimmed text is one slice `s[i..j]` of the input, with only white space before `i` and from `j` on |
| `Common.TrimIdempotent` | assets/js/csv-parser.js:148 | trimming an already trimmed string changes nothing |
| `Common.ToLower` | script.js:100 | `toLowerCase` maps each character by the Latin-1 case mapping and keeps the length |
| `Common.IndexOf` | script.js:333-335 | `indexOf` is -1 iff the element is absent; otherwise it is the first position holding it |
| `Common.Split` | script.js:329-330 | `split` yields at least one piece, and no piece contains the separator |
| `Common.JoinSplit` | script.js:329 | splitting loses nothing: joining the pieces with the separator gives the text back |
| `Common.StrLeTotal` | assets/js/matcher.js:81 | the name order used for ties relates every two names |
| `Common.StrLeTransitive` | assets/js/matcher.js:81 | the name order used for ties is transitive |
| `Common.StrLeAntisymmetric` | assets/js/matcher.js:81 | two names that sort both ways are equal |
| `Js.Get` | assets/js/state.js:98-99 | a property read gives the field when the value is an object with it, else `undefined` |
| `Js.Serialize` | assets/js/storage.js:69 | `JSON.parse(JSON.stringify(v))` yields nothing exactly for `undefined`, and otherwise a JSON value |
| `Js.SerializeRoundTrip` | assets/js/storage.js:69 | a value JSON can carry comes back from stringify-then-parse unchanged |
| `Js.SerializeIdempotent` | assets/js/storage.js:69 | a second stringify-then-parse changes nothing |
| `Library.Or` | assets/js/matcher.js:53-55 | `a \|\| b` on strings is `a` when `a` is non-empty and `b` otherwise, so it is empty only when both are |
| `ArraySort.Sort` | assets/js/matcher.js:75-82 | the in-place sort leaves the array ordered by the comparator and a permutation of its old contents |
| `Matcher.SongArtists` | assets/js/matcher.js:34-35 | a stored song's artists are its `artistIds`; an API item's are its track artists' IDs in order; anything else has none |
| `Matcher.CountInPositive` | assets/js/matcher.js:38-43 | an artist's count within one song is positive iff the song lists it |
| `Matcher.OccurrencesAppend` | assets/js/matcher.js:32-45 | counting over two song lists one after the other adds the counts |
| `Matcher.OccurrencesPermutation` | assets/js/matcher.js:32-45 | the count for an artist does not depend on the order of the liked songs |
| `Matcher.FirstSeenMembers` | assets/js/matcher.js:96-107 | the first-seen list of the artists the songs mention has no duplicates and holds exactly the kept artists that occur |
| `Matcher.FirstSeenOrder` | assets/js/matcher.js:96-107 | the first-seen list orders artists by the position of their first mention |
| `Matcher.CountSongsPerArtist` | assets/js/matcher.js:91-110 | keys are exactly the catalog artists some song lists, each counted once per (song, artist occurrence) pair; the key order is the order in which the songs first mention each artist, with no duplicates |
| `Matcher.CountSong` | assets/js/matcher.js:98-107 | one song's artists raise the count of each listed catalog artist by its number of occurrences in the song; a key is added at the end of the order when first met |
| `Matcher.CountArtist` | assets/js/matcher.js:102-106 | one artist of one song: a catalog artist's count goes up by one, a new key is appended, and the key order stays the first-seen order |
| `Matcher.ResultFor` | assets/js/matcher.js:50-57 | one result carries the ID and count; `name` is the matched name or "Unknown Artist"; `originalName` is the original name, else the matched name, else "Unknown Artist"; `matchedName` is the mirror chain; a missing detail counts as empty names; none is empty |
| `Matcher.RankLe` | assets/js/matcher.js:75-82 | the comparator puts `a` first iff it has more liked songs, or as many and a name that `localeCompare` orders no later |
| `Matcher.RankLeIsTotalPreorder` | assets/js/matcher.js:75-82 | the ranking comparator is a total preorder, so sorting by it is meaningful |
| `Matcher.RankArtists` | assets/js/matcher.js:69-83 | `rankArtists` sorts in place into a permutation ordered by the ranking comparator |
| `Matcher.RankedOrder` | assets/js/matcher.js:77-81 | in a ranked list counts never increase, and equal counts appear in name order |
| `Matcher.BuildMatches` | assets/js/matcher.js:48-58 | one result per counted key, in key order; distinct keys give distinct result IDs |
| `Matcher.MatchArtists` | assets/js/matcher.js:18-62 | an empty catalog gives `[]`; every result is a catalog artist counted at least once with its occurrence count and fallback names; every listed catalog artist has a result; IDs are distinct; the list is ranked |
| `Matcher.PermutationKeepsDistinctIds` | assets/js/matcher.js:61 | ranking keeps the result IDs distinct |
| `CsvParser.ValidateSpotifyId` | assets/js/csv-parser.js:143-149 | an ID is valid iff its trimmed text is exactly 22 characters of [A-Za-z0-9] |
| `CsvParser.WrongLengthIdRejected` | assets/js/csv-parser.js:148 | IDs of 21 or 23 trimmed characters are rejected |
| `CsvParser.ValidateTrimmedId` | assets/js/csv-parser.js:164-181 | checking the already trimmed ID gives the same verdict as checking the raw one |
| `CsvParser.ValidateRequiredColumns` | assets/js/csv-parser.js:133-136 | true iff "Original Name", "Matched Name" and "Spotify ID" are all among the headers |
| `CsvParser.ValidateCsv` | assets/js/csv-parser.js:108-126 | false for no rows; otherwise true iff the first row has the three required columns, whatever the later rows hold |
| `CsvParser.DetailOf` | assets/js/csv-parser.js:193-197 | a row's details: `originalName` is the original name, else the matched name, else "Unknown Artist", and `matchedName` the mirror chain; a non-empty match type is kept and a missing one is stored as "unknown" |
| `CsvParser.AcceptedIdWellFormed` | assets/js/csv-parser.js:164-185 | an accepted row's ID is already trimmed and exactly 22 characters of [A-Za-z0-9] |
| `CsvParser.Screen` | assets/js/csv-parser.js:164-185 | a row contributes an entry iff its ID is not empty or "null", its match type is absent or one of exact/yes/c/add, and its ID is well formed |
| `CsvParser.Collect` | assets/js/csv-parser.js:187-197 | the catalog's ID list has no duplicates, and the detail keys are exactly the listed IDs |
| `CsvParser.CollectMembership` | assets/js/csv-parser.js:188-190 | an ID is listed iff some accepted row carries it |
| `CsvParser.CollectFirstSeenOrder` | assets/js/csv-parser.js:188-190 | IDs are listed in the order of their first accepted row |
| `CsvParser.CollectLastRowWins` | assets/js/csv-parser.js:193-197 | a repeated ID keeps the details of its last accepted row |
| `CsvParser.TransformToFestivalData` | assets/js/csv-parser.js:156-204 | the row loop builds that catalog: no duplicates, detail keys equal the IDs, and an ID is listed iff an accepted row carries it |
| `CsvParser.TransformMembership` | assets/js/csv-parser.js:163-190 | an ID is in the built catalog iff some row passing all three checks carries it |
| `CsvParser.ParseCsv` | assets/js/csv-parser.js:212-234 | a fetch error, an invalid structure or zero surviving IDs each fail with the "Failed to parse CSV file: " prefix; otherwise the transformed catalog, with at least one ID, is returned |
| `Api.WaitMs` | assets/js/api.js:37-40 | after a 429 the wait is `Retry-After` seconds, or 3 seconds without the header |
| `Api.ErrorMessage` | assets/js/api.js:47-67 | 401, 403 and >= 500 get their fixed messages in that order; otherwise the body's `error.message`, else `error_description`, else "API Error: status text" |
| `Api.Classify` | assets/js/api.js:46-69 | a 2xx response resolves with its body; any other status throws its error message |
| `Api.MakeRequest` | assets/js/api.js:19-70 | a request consumes at most the scripted answers, at least one when it returns, and every fetch it makes is of the address it was given |
| `Api.MakeRequestSpec` | assets/js/api.js:19-70 | no token throws before any request; otherwise every leading 429 is waited out and the same address re-asked, the first other response decides, and the waits and addresses are recorded |
| `Api.RateLimitTransparent` | assets/js/api.js:36-44 | a 429 answer does not change the outcome: the retried request ends as the rest of the script decides |
| `Api.SuccessAfterRateLimits` | assets/js/api.js:36-44 | a success after any number of 429s is returned unchanged, after one wait per 429 and one fetch of the same address per answer |
| `Api.AskedOf` | assets/js/api.js:36-44 | the addresses fetched while retrying: `n` copies of the same address |
| `Api.LikedSongsUrl` | assets/js/api.js:88-94 | the liked-songs address starts with the tracks endpoint and its `limit` parameter (the exact text for the default call is `Api.LikedSongsDefaults`) |
| `Api.LikedSongsDefaults` | assets/js/api.js:89-92 | no limit means a limit of 50, and no options gives `limit=50&offset=0` |
| `Api.CrawlPages` | assets/js/api.js:102-133 | the walk's first request is for the address it starts from |
| `Api.CrawlAddresses` | assets/js/api.js:104-122 | one request per page plus one for an unfinished walk; each request after the first asks for the `next` address of the page before it |
| `Api.CrawlPagesShape` | assets/js/api.js:108-130 | the page walk: every page but a finishing last one names a `next` page; without a token it fails at once |
| `Api.FlattenAppend` | assets/js/api.js:112 | concatenating the items of two page runs is concatenating their item lists |
| `Api.FlattenLength` | assets/js/api.js:112-114 | the number of songs gathered is the sum of the page sizes |
| `Api.ReportsOf` | assets/js/api.js:113-119 | one progress report per page fetched |
| `Api.ReportsForSnoc` | assets/js/api.js:113-119 | one more page adds one progress report carrying the new running count and that page's total |
| `Api.ReportsOfMeaning` | assets/js/api.js:113-119 | report k carries the number of songs on the first k+1 pages and the total page k announced |
| `Api.ReportsForUnique` | assets/js/api.js:113-119 | the progress reports are determined by the pages fetched |
| `Api.CrawlStep` | assets/js/api.js:108-130 | one request continues the walk: waiting stalls it, an error fails it, a page with no `next` finishes it, any other page continues after it |
| `Api.GetAllLikedSongs` | assets/js/api.js:102-133 | a finished walk returns the in-order concatenation of every page's items; a failed one rethrows with no partial list; the progress reports are `ReportsOf` the pages fetched, one `(fetchedCount, total)` per page; the addresses requested are those of the walk, the first being the tracks endpoint with `?limit=50` |
| `Api.RetryRequest` | assets/js/api.js:173-201 | at most `maxRetries + 1` attempts; the delay after failed attempt k is `baseDelay * 2^k`; an authentication error is rethrown at once; the last error is thrown after the final attempt |
| `Storage.StoredText` | assets/js/storage.js:67-74 | `saveSession` stores the JSON text of the value; for `undefined` the stored text is not JSON |
| `Storage.ReadItem` | assets/js/storage.js:81-89 | `getSession` gives the parsed text, or `null` for a missing key or unparsable text |
| `Storage.SessionStore.GetSession` | assets/js/storage.js:81-89 | a missing key or unparsable stored text reads as `null`; JSON text reads as its value |
| `Storage.SessionRoundTrip` | assets/js/storage.js:67-89 | reading a saved key gives the value's JSON round trip, the value itself when JSON can carry it, and `null` for `undefined` |
| `Storage.SessionOtherKeys` | assets/js/storage.js:67-74 | saving one key leaves every other key reading as before |
| `Storage.SessionStore.SaveSession` | assets/js/storage.js:67-74 | the key now holds the value's stored text; nothing else changes |
| `Storage.SessionStore.ClearSession` | assets/js/storage.js:95-105 | a given key is removed alone; no key empties the store |
| `Storage.ToRecord` | assets/js/storage.js:121-129 | the storage form: track ID and name, artist IDs and names in the track's order, album name, added time, and the shared sync time |
| `Storage.ToRecords` | assets/js/storage.js:118-129 | every item is converted with one and the same sync time |
| `Storage.PutAllLastWins` | assets/js/storage.js:134-156 | after the puts, a written track ID holds its last record, and every other key keeps what it held |
| `Storage.RecordKeepsArtists` | assets/js/storage.js:124 | a cached record lists the same artists for the matcher as the API item it came from |
| `Storage.MetadataOf` | assets/js/storage.js:215-222 | a falsy sync time becomes `now`, the count is kept (0 by default), and a falsy page becomes `null` |
| `Storage.Database.SaveLikedSongs` | assets/js/storage.js:112-158 | every item's record is put by track ID in order; the other stores are untouched |
| `Storage.Database.GetLikedSongs` | assets/js/storage.js:164-180 | a record is returned iff it is stored, and there is one result per stored key |
| `Storage.Database.GetSyncMetadata` | assets/js/storage.js:186-202 | the value under "lastSync", or `null` |
| `Storage.Database.UpdateSyncMetadata` | assets/js/storage.js:209-227 | the defaulted metadata is stored under "lastSync" and read back by `getSyncMetadata` |
| `Storage.Database.SaveFestivalData` | assets/js/storage.js:235-251 | the record is stored under the festival ID, missing parts as empty; `getFestivalData` reads it back; other festivals are unchanged |
| `Storage.Database.GetFestivalData` | assets/js/storage.js:258-278 | the stored IDs and details, or `null` for an unknown festival |
| `Storage.Database.ClearAll` | assets/js/storage.js:284-312 | all three stores are empty |
| `State.Defaults` | assets/js/state.js:9-33 | the initial state has exactly the state's fields, all JSON: on the landing page, empty song, match and festival collections, and everything else falsy |
| `State.Merge` | assets/js/state.js:53-54 | every updated field takes its new value and every other field keeps its old one |
| `State.MergeNothing` | assets/js/state.js:53-54 | an empty update changes nothing |
| `State.MergeCompose` | assets/js/state.js:53-54 | two updates in a row are one update in which the second wins |
| `State.MergeIdempotent` | assets/js/state.js:53-54 | repeating an update changes nothing |
| `State.Snapshot` | assets/js/state.js:93-101 | the persisted object holds exactly `isAuthenticated`, `currentPage`, `currentFestival` and the user's `display_name` and `id` (`null` without a user) |
| `State.PersistKeepsSecrets` | assets/js/state.js:91-103 | the text written to session storage has only persisted fields: no tokens |
| `State.RestoredFrom` | assets/js/state.js:112-125 | with no saved entry the state is unchanged; a saved object is merged over it |
| `State.PersistThenRestore` | assets/js/state.js:91-125 | a persisted plain field that JSON can carry comes back when restored onto the defaults |
| `State.PersistThenRestoreUser` | assets/js/state.js:97-121 | the user's display name and ID come back when restored onto the defaults |
| `State.Calls` | assets/js/state.js:76-85 | a notification calls every subscriber, in list order, with the same state |
| `State.Without` | assets/js/state.js:68-70 | unsubscribing keeps exactly the other callbacks |
| `State.WithoutAppend` | assets/js/state.js:68-70 | the filter keeps the order of the remaining callbacks |
| `State.WithoutAbsent` | assets/js/state.js:68-70 | removing a callback that is not subscribed changes nothing |
| `State.StateManager.constructor` | assets/js/state.js:8-39 | starts from the defaults with saved fields restored, and with no subscribers |
| `State.StateManager.SetState` | assets/js/state.js:53-57 | merges the update, calls every subscriber once with the new state, then persists its snapshot |
| `State.StateManager.Subscribe` | assets/js/state.js:64-66 | appends the callback |
| `State.StateManager.Unsubscribe` | assets/js/state.js:68-70 | removes that callback and keeps the others in order |
| `State.StateManager.NotifySubscribers` | assets/js/state.js:76-85 | each subscriber is called once, in order, with the current state |
| `State.StateManager.Persist` | assets/js/state.js:91-107 | the snapshot of the state is written under "lineuplens_state" |
| `State.StateManager.Restore` | assets/js/state.js:112-125 | the saved object, if one parses, is merged over the state |
| `State.StateManager.Clear` | assets/js/state.js:130-155 | back to the defaults, the persisted entry removed, every subscriber told |
| `Auth.ToBase64Url` | assets/js/auth.js:43-48 | the url-safe form contains no '+', '/' or '=' |
| `Auth.UrlSafe` | assets/js/auth.js:44-47 | '+' becomes '-', '/' becomes '_', '=' is dropped, and any other character is kept |
| `Auth.ToBase64UrlAppend` | assets/js/auth.js:44-47 | the mapping works character by character |
| `Auth.Base64BodyRoundTrip` | assets/js/auth.js:44-46 | on base64 characters the mapping keeps the length and is undone by mapping '-' and '_' back |
| `Auth.PaddingDropped` | assets/js/auth.js:47 | base64 padding disappears entirely |
| `Auth.Base64UrlRoundTrip` | assets/js/auth.js:43-48 | padded base64 text is recovered from its url-safe form by mapping back and re-padding, so the encoding loses nothing |
| `Auth.IsTokenExpired` | assets/js/auth.js:223-227 | a missing expiry counts as expired; otherwise expired iff `now >= expiresAt - 300000` |
| `Auth.ExpiryMargin` | assets/js/auth.js:223-227 | once expired a token stays expired; it expires exactly five minutes before `expiresAt` |
| `Auth.TokensIn` | assets/js/auth.js:202-215 | `null` iff no truthy access token is stored; otherwise the three stored values |
| `Auth.SavedTokensReadBack` | assets/js/auth.js:181-215 | saved tokens read back as the access token, the refresh token (`null` when absent) and `now + expiresIn * 1000` |
| `Auth.RefreshKeepsOldRefreshToken` | assets/js/auth.js:269-272 | a refresh with no new refresh token leaves the stored one readable as before |
| `Auth.LoggedOutHasNoTokens` | assets/js/auth.js:326-333 | after logout no tokens are found |
| `Auth.AuthManager.constructor` | assets/js/auth.js:10-14 | the manager and the state store share one session storage |
| `Auth.AuthManager.InitiateLogin` | assets/js/auth.js:64-73 | the PKCE verifier and the anti-forgery state are stored before leaving for the authorization page |
| `Auth.AuthManager.SaveTokens` | assets/js/auth.js:181-196 | stores the three token keys, then marks the state authenticated with the tokens and `now + expiresIn * 1000` |
| `Auth.AuthManager.GetStoredTokens` | assets/js/auth.js:202-216 | reads the stored tokens from session storage |
| `Auth.AuthManager.HandleCallback` | assets/js/auth.js:102-131 | a missing or different state fails first, then a missing verifier, then a failed exchange, each changing nothing and telling no subscriber; on success the tokens are saved, every subscriber is told of the new state once, and both temporary keys removed; the subscriber list is kept |
| `Auth.AuthManager.Logout` | assets/js/auth.js:326-337 | the three token keys and the persisted state are removed, the state is reset to the defaults, and every subscriber is told of the defaults |
| `Auth.AuthManager.RefreshToken` | assets/js/auth.js:233-288 | no stored refresh token fails and changes nothing; a refused refresh logs out, telling every subscriber of the defaults; success stores the new access token and expiry, and the refresh token only if a new one came back, merges them into the state and tells every subscriber (`RefreshEffects`) |
| `Auth.AuthManager.GetAccessToken` | assets/js/auth.js:294-312 | `null` without tokens and the stored token while not expired, both touching nothing; else the refreshed token, or `null` if the refresh fails, with exactly the effects of `refreshToken` |
| `Auth.AuthManager.IsAuthenticated` | assets/js/auth.js:318-321 | true iff tokens exist and are either unexpired or successfully refreshed; the storage and state effects are those of `getAccessToken` |
| `App.WithFestival` | assets/js/app.js:393-398 | the festival is added or replaced, and every other festival is kept |
| `App.Percentage` | assets/js/app.js:453 | `Math.round(current / total * 100)`: `2 * total * pct <= 200 * current + total < 2 * total * (pct + 1)`, so halves round up; 0 for no total |
| `App.PercentageBounds` | assets/js/app.js:453 | a count within the total gives 0 to 100, and the whole total gives 100 |
| `App.ReportUpdates` | assets/js/app.js:451-458 | each progress report makes exactly two `setState`s |
| `App.ReportUpdatesAt` | assets/js/app.js:451-458 | report k's first update is its "Loading liked songs... x of y (p%)" message and its second is `{ progress: { current, total } }` |
| `App.CacheIsFresh` | assets/js/app.js:435-441 | the cache is served only with at least one cached song and stored metadata, and then iff less than an hour has passed since the last sync |
| `App.SyncedCacheIsFresh` | assets/js/app.js:435-466 | after a sync that stored at least one song, the cache is served for exactly the following hour |
| `App.CsvUrl` | assets/js/app.js:404 | the CSV path unchanged when the cache is used, and the path followed by `?t=` and the decimal time when it is bypassed |
| `App.CsvUrlBusts` | assets/js/app.js:403-404 | a forced load asks for an address other than the plain path, and loads forced at different times ask for different addresses |
| `Common.IntToStringInjective` | assets/js/app.js:404 | different times give different decimal texts in the cache-busting parameter |
| `App.LineupLensApp.constructor` | assets/js/app.js:19-29 | the controller starts with no API client |
| `App.LineupLensApp.UpdateLoadingMessage` | assets/js/app.js:578-581 | the loading message is set through one `setState` |
| `App.LineupLensApp.LoadFestivalData` | assets/js/app.js:381-420 | an unknown festival fails and changes nothing; unless refreshing, a cached catalog is published and returned without parsing; otherwise the fetched CSV is parsed, a good catalog is cached and added to `festivals` with the others kept, and a bad one changes nothing |
| `App.LineupLensApp.PublishFestival` | assets/js/app.js:410-417 | exactly one `setState`, adding or replacing the festival under `festivals`; every subscriber and the persisted session follow |
| `App.LineupLensApp.FetchLikedSongs` | assets/js/app.js:425-472 | with no API client it fails with "Not authenticated"; fresh cached songs are published and returned without fetching; otherwise the walk's songs are stored with metadata `(now, count, null)` and published |
| `App.LineupLensApp.ServeCached` | assets/js/app.js:439-446 | announces the cached count, publishes the cached records and returns them |
| `App.LineupLensApp.FetchFromApi` | assets/js/app.js:449-471 | announces the fetch, publishes progress per page, then stores and publishes the songs; a failed walk stores nothing |
| `App.LineupLensApp.PublishProgress` | assets/js/app.js:451-458 | per report, the message `setState` and then the `{ progress }` `setState` |
| `App.LineupLensApp.PublishReport` | assets/js/app.js:451-458 | one progress callback makes two more `setState`s, the message then `{ progress }`, and every subscriber and the persisted session follow |
| `Legacy.FoldAccent` | script.js:101-107 | ASCII is untouched, and a character that changes becomes a lower-case ASCII letter |
| `Legacy.FoldAccents` | script.js:101-107 | the accent folding applied to every character |
| `Legacy.StripSymbols` | script.js:108 | only word characters and white space remain, taken from the input; text holding nothing else is unchanged |
| `Legacy.StripSymbolsCounts` | script.js:108 | every kept character occurs as often as in the input, and no other character occurs |
| `Legacy.StripSymbolsAppend` | script.js:108 | the replacement works character by character: stripping a concatenation concatenates the stripped parts |
| `Legacy.NormalizeArtistName` | script.js:99-110 | a normalised name consists only of lower-case ASCII letters, digits, '_' and white space, and neither starts nor ends with white space |
| `Legacy.NormalizedCharacters` | script.js:99-110 | every character left after lower-casing, folding, stripping and trimming is a normal one |
| `Legacy.NormalizeIdempotent` | script.js:99-110 | normalising a normalised name changes nothing |
| `Legacy.FindColumns` | script.js:330-339 | the three column positions are found iff all three headers are present, each pointing at its header |
| `Legacy.CellAt` | script.js:349-351 | `columns[i]?.trim()`: the trimmed cell, or `undefined` beyond the row's end |
| `Legacy.LineEntry` | script.js:346-361 | blank lines contribute nothing; a kept ID is present, non-empty and not "null" |
| `Legacy.Scan` | script.js:345-362 | at most one ID per line, and every listed ID is non-empty and not "null" |
| `Legacy.ParseCsvText` | script.js:328-362 | the header line contributes no ID, so there are fewer IDs than lines; each is non-empty and not "null" |
| `Legacy.ScanCounts` | script.js:345-362 | an ID is listed once per contributing line, so duplicates are kept; it is listed iff some line contributes it, and it has details exactly then |
| `Legacy.ScanLastLineWins` | script.js:357-360 | an ID's details come from the last line that lists it |
| `Legacy.MissingColumnGivesEmpty` | script.js:337-339 | a header line without a required column ends in the empty catalog |
| `Legacy.FindArtist` | script.js:408 | the entry for an ID, or none exactly when the ID has no entry |
| `Legacy.UpdateLikedArtists` | script.js:407-417 | the artist's ID is present afterwards, and the list grows by one exactly when the ID was new |
| `Legacy.UpdateLikedArtistsIds` | script.js:407-417 | a new ID is appended with count 1 under its given name; existing IDs and names are untouched |
| `Legacy.UpdateLikedArtistsCounts` | script.js:407-417 | the artist's count goes up by 1 and every other count is unchanged |
| `Legacy.UpdateLikedArtistsWellFormed` | script.js:407-417 | every ID keeps one entry and every count stays at least 1 |
| `Legacy.Displayed` | script.js:390-397 | the artist keeps its ID and takes the CSV's non-empty original name when there is one, else its own name |
| `Legacy.TallyCounts` | script.js:384-400 | the tally lists each artist once, with a count equal to the number of calls naming it |
| `Legacy.TallyNames` | script.js:410-415 | each entry keeps the name of the first call naming its artist |
| `Legacy.HitsOccurrences` | script.js:384-400 | a festival artist's legacy count equals the modular matcher's occurrence count; other artists are never counted |
| `Legacy.SongHitsCount` | script.js:386-399 | one song contributes one call per listing of a festival artist |
| `Legacy.MoreLiked` | script.js:403 | `b.likedSongs - a.likedSongs <= 0`: `a` may come first iff it has at least as many liked songs |
| `Legacy.MoreLikedIsTotalPreorder` | script.js:403 | the count-only comparator is a total preorder |
| `Legacy.LegacyStep` | script.js:554-587 | one request of the legacy loop behaves as one request of the modular client, except that a failure ends the loop with its songs |
| `Legacy.LegacyKeepsPartialResults` | script.js:541-591 | the legacy loop fetches the same pages as `getAllLikedSongs`; where that one rethrows, the legacy loop returns the songs gathered so far |
| `Legacy.VerifyToken` | script.js:653-660 | a token is accepted iff it is present and at least 20 characters long |
| `Legacy.FetchSongs` | script.js:541-591 | the loop follows `next`, retries a 429 on the same address, stops on any failure with the songs so far, and never throws; the addresses it fetches are `LegacyFetches` from the first page |
| `Legacy.LegacyFetches` | script.js:541-591 | the legacy loop makes at most one fetch per scripted answer |
| `Legacy.LegacyFetchAddresses` | script.js:543-581 | the first fetch is of the start address; after a 429 the same address is fetched again, after a page with a `next` that address; the loop stops after a failure or a page without `next` |
| `Legacy.LegacyCrawl` | script.js:541-591 | the legacy walk never ends in an error: a failure ends it with the songs so far |
| `Legacy.LegacyPage.constructor` | script.js:30-33 | no festival loaded and no liked songs at start |
| `Legacy.LegacyPage.LoadArtistsFromCsv` | script.js:310-375 | an unknown festival or a failed download gives the empty catalog and records nothing; a header missing a column records nothing; otherwise the text's catalog is returned and its IDs recorded under the festival |
| `Legacy.ScanRows` | script.js:345-362 | the catalog read from every line after the header is the one `Scan` defines: blank lines and rows without a usable ID are skipped, the others append their ID and set its details |
| `Legacy.LegacyPage.FindMatchedArtists` | script.js:378-404 | a permutation of the tally sorted by count only; each festival artist a liked song lists appears once, with its occurrence count and its CSV or first-seen name |
| `Legacy.TallySong` | script.js:386-399 | the inner loop makes one `updateLikedArtists` call per festival artist of the song |
| `Legacy.SortByLikedSongs` | script.js:403 | the sort is a permutation ordered by count, most liked first |
| `Legacy.MatchedFacts` | script.js:378-404 | any reordering of the tally keeps each artist once, with its occurrence count and first-seen name |
| `Legacy.TallyEntry` | script.js:407-417 | one tally entry's count is the number of calls naming it, at least 1, under its first name |
| `Legacy.PermutationKeepsIds` | script.js:403 | sorting the tally keeps each artist ID once |

## Left out

- Numbers are integers. Fractions, `NaN` and floating-point rounding are not modelled. `App.Percentage` states `Math.round` of the exact ratio. `Js.ToNumber` does not read numeric text.
- `toLowerCase` follows the Latin-1 case mapping only. Other scripts are not modelled.
- `localeCompare` is plain character-code order (`Common.StrLe`), through `Matcher.LocaleCompare`.
- Object key order is insertion order. JavaScript's rule that integer-like keys come first in `Object.values` is not modelled.
- Legacy.LegacyPage.FindMatchedArtists: the order among artists with equal counts is not stated. The host sort is stable and the model's sort is not shown to be.
- Matcher.MatchArtists: a catalog whose `artistIds` field is missing is modelled as an empty list. A song whose `artistIds` is not an array is not modelled.
- `countSongsPerArtist` takes the catalog as a set. The `instanceof Set` branch is therefore not distinguished.
- PapaParse (`fetchAndParse`, `loadPapaParse`) is not part of this model. Its output, the row maps or the error, is the input of `CsvParser.ParseCsv`.
- `response.json()` failing on a successful response is not modelled.
- `getUserProfile` and `refreshAccessToken` in api.js are not part of this model.
- The random values, SHA-256 and `btoa` of `generateCodeVerifier`, `generateCodeChallenge` and `generateState` are not modelled. The verifier and state are parameters.
- The authorization URL built by `initiateLogin` is not modelled, and neither are `window.location` redirects.
- The token endpoint is a parameter (`exchange`, `grant`). It answers with the tokens or with a failure.
- IndexedDB opening and upgrade, transactions, and the asynchronous completion counting of `saveLikedSongs` and `clearAll` are not modelled. Every request succeeds, one after another.
- Storage.Database.GetLikedSongs: the order in which records come back is not stated. IndexedDB uses key order.
- Session storage is one store, shared by `StorageManager` and `StateManager`. Quota and security errors from `setItem` are not modelled.
- `getState` returns the state value. Values are immutable here, so a copy cannot alias the store.
- Subscribers are identity numbers, and a call is a recorded notification. What a callback does, including throwing, cannot affect the others.
- `restore` merges only a saved JSON object. A saved array or primitive is ignored.
- `Date.now()` is one `now` parameter per flow. The clock advancing between calls within one flow is not modelled.
- `setTimeout` waits (the 429 waits, the backoff delays, the legacy 300 ms pause) are recorded as millisecond amounts or left out.
- The API is a finite script of responses. A request still retrying 429s when the script ends is `Waiting`.
- App.LineupLensApp.FetchFromApi: the progress `setState`s are applied after the walk returns. The source applies them during the walk, which gives the same states and calls in the same order.
- The on-screen half of `updateLoadingMessage` and all of the UI are not part of this model. The same holds for navigation, results display and the legacy page's status text and alerts.
- App.LineupLensApp.LoadFestivalData: spreading a `festivals` value that is not an object is not modelled (`App.WithFestival` then starts from an empty object).
- The legacy download is a parameter. A network error and a non-OK response both become an error, which the source turns into the empty catalog.
- `window.currentFestivalArtistDetails` and the legacy `likedSongs` are fields that the page's other code sets.
