/**
 * The lineup catalog normaliser (assets/js/csv-parser.js): validation of the
 * parsed rows and their transformation into a festival catalog.
 * A parsed row maps column names to cell text; fetching and tokenising the file
 * (PapaParse) happen before this module and are represented by its input.
 */
module CsvParser {
  import opened Common
  import opened Library

  type Row = map<string, string>

  const ORIGINAL_NAME := "Original Name"
  const MATCHED_NAME := "Matched Name"
  const SPOTIFY_ID := "Spotify ID"
  const MATCH_TYPE := "Match Type"
  const UNKNOWN_ARTIST := "Unknown Artist"

  const RequiredColumns: seq<string> := [ORIGINAL_NAME, MATCHED_NAME, SPOTIFY_ID]
  const ValidMatchTypes: seq<string> := ["exact", "yes", "c", "add"]

  const INVALID_STRUCTURE := "Invalid CSV structure. Missing required columns."
  const NO_VALID_ARTISTS := "No valid artists found in CSV file."
  const PARSE_FAILED_PREFIX := "Failed to parse CSV file: "

  // ---------------------------------------------------------------------------
  // Validation

  predicate AllAlnum(s: string)
    decreases |s|
  {
    s == [] || (IsAlnum(s[0]) && AllAlnum(s[1..]))
  }

  lemma {:induction false} AllAlnumAt(s: string)
    ensures AllAlnum(s) <==> forall i :: 0 <= i < |s| ==> IsAlnum(s[i])
    decreases |s|
  {
    if s != [] {
      AllAlnumAt(s[1..]);
      assert forall i :: 1 <= i < |s| ==> s[i] == s[1..][i - 1];
    }
  }

  /** `validateSpotifyID`: a non-empty string whose trimmed text is exactly 22 characters of [A-Za-z0-9]. */
  function ValidateSpotifyId(id: string): (ok: bool)
    ensures ok <==> |Trim(id)| == 22 && forall i :: 0 <= i < 22 ==> IsAlnum(Trim(id)[i])
  {
    AllAlnumAt(Trim(id));
    id != "" && |Trim(id)| == 22 && AllAlnum(Trim(id))
  }

  /** An identifier one character short or one character long never passes. */
  lemma WrongLengthIdRejected(id: string)
    requires |Trim(id)| == 21 || |Trim(id)| == 23
    ensures !ValidateSpotifyId(id)
  {
  }

  /** The transformation trims an identifier before checking it; the check trims again, to no effect. */
  lemma ValidateTrimmedId(id: string)
    ensures ValidateSpotifyId(Trim(id)) == ValidateSpotifyId(id)
  {
    TrimIdempotent(id);
  }

  /** `every(col => headers.includes(col))` over the required column names. */
  predicate AllIn(required: seq<string>, headers: string -> bool)
    decreases |required|
  {
    required == [] || (headers(required[0]) && AllIn(required[1..], headers))
  }

  lemma {:induction false} AllInAt(required: seq<string>, headers: string -> bool)
    ensures AllIn(required, headers) <==> forall i :: 0 <= i < |required| ==> headers(required[i])
    decreases |required|
  {
    if required != [] {
      AllInAt(required[1..], headers);
      assert forall i :: 1 <= i < |required| ==> required[i] == required[1..][i - 1];
    }
  }

  /** `validateRequiredColumns`: all three required column names occur among the headers. */
  function ValidateRequiredColumns(headers: seq<string>): (ok: bool)
    ensures ok <==> ORIGINAL_NAME in headers && MATCHED_NAME in headers && SPOTIFY_ID in headers
  {
    AllInAt(RequiredColumns, h => h in headers);
    assert |RequiredColumns| == 3 && RequiredColumns[0] == ORIGINAL_NAME;
    assert RequiredColumns[1] == MATCHED_NAME && RequiredColumns[2] == SPOTIFY_ID;
    AllIn(RequiredColumns, h => h in headers)
  }

  /** `validateCSV`: there is a first row and it has every required column; later rows are not looked at. */
  function ValidateCsv(data: seq<Row>): (ok: bool)
    ensures ok <==> data != [] && ORIGINAL_NAME in data[0] && MATCHED_NAME in data[0] && SPOTIFY_ID in data[0]
    ensures data != [] ==> ok == ValidateCsv(data[..1])
  {
    if data == [] then false
    else
      var firstRow := data[0];
      AllInAt(RequiredColumns, h => h in firstRow);
      assert |RequiredColumns| == 3 && RequiredColumns[0] == ORIGINAL_NAME;
      assert RequiredColumns[1] == MATCHED_NAME && RequiredColumns[2] == SPOTIFY_ID;
      AllIn(RequiredColumns, h => h in firstRow)
  }

  // ---------------------------------------------------------------------------
  // Rows to catalog

  /** `row[col]?.trim()`, with "" for a missing column. */
  function Field(row: Row, col: string): string {
    if col in row then Trim(row[col]) else ""
  }

  /** `row['Match Type']?.trim().toLowerCase()`, with "" for a missing column. */
  function MatchTypeOf(row: Row): string {
    if MATCH_TYPE in row then ToLower(Trim(row[MATCH_TYPE])) else ""
  }

  function IdOf(row: Row): string {
    Field(row, SPOTIFY_ID)
  }

  /** The three filters of the row loop: an identifier that is not empty or "null", an accepted match type, a well-formed identifier. */
  predicate Accepts(row: Row) {
    var id := IdOf(row);
    var matchType := MatchTypeOf(row);
    id != "" && id != "null" &&
    (matchType == "" || matchType in ValidMatchTypes) &&
    ValidateSpotifyId(id)
  }

  /** The details a row contributes, names falling back to each other and then to "Unknown Artist". */
  function DetailOf(row: Row): (d: ArtistDetail)
    ensures d.originalName != "" && d.matchedName != "" && d.matchType != ""
    ensures Field(row, ORIGINAL_NAME) != "" ==> d.originalName == Field(row, ORIGINAL_NAME)
    ensures Field(row, MATCHED_NAME) != "" ==> d.matchedName == Field(row, MATCHED_NAME)
    ensures MatchTypeOf(row) == "" ==> d.matchType == "unknown"
    ensures MatchTypeOf(row) != "" ==> d.matchType == MatchTypeOf(row)
    ensures var original, matched := Field(row, ORIGINAL_NAME), Field(row, MATCHED_NAME);
      d.originalName == (if original != "" then original else if matched != "" then matched else UNKNOWN_ARTIST)
    ensures var original, matched := Field(row, ORIGINAL_NAME), Field(row, MATCHED_NAME);
      d.matchedName == (if matched != "" then matched else if original != "" then original else UNKNOWN_ARTIST)
  {
    var originalName := Field(row, ORIGINAL_NAME);
    var matchedName := Field(row, MATCHED_NAME);
    ArtistDetail(
      Or(Or(originalName, matchedName), UNKNOWN_ARTIST),
      Or(Or(matchedName, originalName), UNKNOWN_ARTIST),
      Or(MatchTypeOf(row), "unknown"))
  }

  /** Every accepted identifier is already trimmed and exactly 22 characters of [A-Za-z0-9]. */
  lemma AcceptedIdWellFormed(row: Row)
    requires Accepts(row)
    ensures |IdOf(row)| == 22 && forall i :: 0 <= i < 22 ==> IsAlnum(IdOf(row)[i])
  {
    if SPOTIFY_ID in row {
      TrimIdempotent(row[SPOTIFY_ID]);
    }
  }

  /** What a row contributes once it passes the filters: its identifier and its details. */
  datatype Entry = Entry(id: string, detail: ArtistDetail)

  function Screen(row: Row): (e: Option<Entry>)
    ensures e.Some? <==> Accepts(row)
  {
    if Accepts(row) then Some(Entry(IdOf(row), DetailOf(row))) else None
  }

  function Screened(rows: seq<Row>): (es: seq<Option<Entry>>)
    ensures |es| == |rows| && forall i :: 0 <= i < |rows| ==> es[i] == Screen(rows[i])
  {
    seq(|rows|, i requires 0 <= i < |rows| => Screen(rows[i]))
  }

  predicate Carries(e: Option<Entry>, id: string) {
    e.Some? && e.value.id == id
  }

  /** One step of the row loop: append a new identifier, overwrite its details. */
  function Step(d: FestivalData, e: Option<Entry>): FestivalData {
    match e
    case None => d
    case Some(Entry(id, detail)) =>
      FestivalData(
        if id in d.artistIds then d.artistIds else d.artistIds + [id],
        d.artistDetails[id := detail])
  }

  /** The row loop run over the screened rows, from the first to the last. */
  function Collect(es: seq<Option<Entry>>): (d: FestivalData)
    ensures NoDup(d.artistIds)
    ensures d.artistDetails.Keys == set id | id in d.artistIds
    decreases |es|
  {
    if es == [] then FestivalData([], map[])
    else Step(Collect(es[..|es| - 1]), es[|es| - 1])
  }

  /** The catalog `transformToFestivalData` builds from `rows`. */
  function Transform(rows: seq<Row>): FestivalData {
    Collect(Screened(rows))
  }

  /** The position of the first accepted row carrying `id`, or -1. */
  function FirstWith(es: seq<Option<Entry>>, id: string): (k: int)
    ensures -1 <= k < |es|
    ensures k >= 0 ==> Carries(es[k], id) && forall j :: 0 <= j < k ==> !Carries(es[j], id)
    ensures k == -1 ==> forall j :: 0 <= j < |es| ==> !Carries(es[j], id)
    decreases |es|
  {
    if es == [] then -1
    else
      var k := FirstWith(es[..|es| - 1], id);
      if k >= 0 then k
      else if Carries(es[|es| - 1], id) then |es| - 1
      else -1
  }

  /** The position of the last accepted row carrying `id`, or -1. */
  function LastWith(es: seq<Option<Entry>>, id: string): (k: int)
    ensures -1 <= k < |es|
    ensures k >= 0 ==> Carries(es[k], id) && forall j :: k < j < |es| ==> !Carries(es[j], id)
    ensures k == -1 ==> forall j :: 0 <= j < |es| ==> !Carries(es[j], id)
    decreases |es|
  {
    if es == [] then -1
    else if Carries(es[|es| - 1], id) then |es| - 1
    else LastWith(es[..|es| - 1], id)
  }

  /** An identifier is in the catalog exactly when some accepted row carries it. */
  lemma {:induction false} CollectMembership(es: seq<Option<Entry>>, id: string)
    ensures id in Collect(es).artistIds <==> FirstWith(es, id) >= 0
    decreases |es|
  {
    if es != [] {
      CollectMembership(es[..|es| - 1], id);
    }
  }

  /** Identifiers keep the order of their first accepted occurrence. */
  lemma {:induction false} CollectFirstSeenOrder(es: seq<Option<Entry>>, i: int, j: int)
    requires 0 <= i < j < |Collect(es).artistIds|
    ensures 0 <= FirstWith(es, Collect(es).artistIds[i]) < FirstWith(es, Collect(es).artistIds[j])
    decreases |es|
  {
    var init := es[..|es| - 1];
    var prev := Collect(init);
    var ids := Collect(es).artistIds;
    assert ids[..|prev.artistIds|] == prev.artistIds;
    CollectMembership(es, ids[i]);
    CollectMembership(init, ids[i]);
    CollectMembership(init, ids[j]);
    if j < |prev.artistIds| {
      CollectFirstSeenOrder(init, i, j);
    }
  }

  /** For a repeated identifier the details are those of the last accepted row. */
  lemma {:induction false} CollectLastRowWins(es: seq<Option<Entry>>, id: string)
    requires id in Collect(es).artistDetails
    ensures LastWith(es, id) >= 0
    ensures Collect(es).artistDetails[id] == es[LastWith(es, id)].value.detail
    decreases |es|
  {
    if !Carries(es[|es| - 1], id) {
      CollectLastRowWins(es[..|es| - 1], id);
    }
  }

  /** `transformToFestivalData`: the row loop, with the catalog's invariants as its contract. */
  method TransformToFestivalData(rows: seq<Row>) returns (d: FestivalData)
    ensures d == Transform(rows)
    ensures NoDup(d.artistIds)
    ensures d.artistDetails.Keys == set id | id in d.artistIds
    ensures forall id :: id in d.artistIds <==> exists k :: 0 <= k < |rows| && Accepts(rows[k]) && IdOf(rows[k]) == id
  {
    ghost var es := Screened(rows);
    var artistIds: seq<string> := [];
    var artistDetails: map<string, ArtistDetail> := map[];
    for i := 0 to |rows|
      invariant FestivalData(artistIds, artistDetails) == Collect(es[..i])
    {
      assert es[..i + 1][..i] == es[..i];
      var row := rows[i];
      var spotifyId := Field(row, SPOTIFY_ID);
      var matchType := MatchTypeOf(row);
      if spotifyId == "" || spotifyId == "null" {
        continue;
      }
      if matchType != "" && matchType !in ValidMatchTypes {
        continue;
      }
      if !ValidateSpotifyId(spotifyId) {
        continue;
      }
      if spotifyId !in artistIds {
        artistIds := artistIds + [spotifyId];
      }
      artistDetails := artistDetails[spotifyId := DetailOf(row)];
    }
    assert es[..|rows|] == es;
    d := FestivalData(artistIds, artistDetails);
    TransformMembership(rows);
  }

  /** An identifier is in the catalog exactly when some accepted row carries it. */
  lemma TransformMembership(rows: seq<Row>)
    ensures forall id :: id in Transform(rows).artistIds <==> exists k :: 0 <= k < |rows| && Accepts(rows[k]) && IdOf(rows[k]) == id
  {
    var es := Screened(rows);
    forall id ensures id in Transform(rows).artistIds <==> exists k :: 0 <= k < |rows| && Accepts(rows[k]) && IdOf(rows[k]) == id {
      CollectMembership(es, id);
      if id in Transform(rows).artistIds {
        var k := FirstWith(es, id);
        assert Accepts(rows[k]) && IdOf(rows[k]) == id;
      }
      if exists k :: 0 <= k < |rows| && Accepts(rows[k]) && IdOf(rows[k]) == id {
        var k :| 0 <= k < |rows| && Accepts(rows[k]) && IdOf(rows[k]) == id;
        assert Carries(es[k], id);
      }
    }
  }

  /** What `parseCSV` yields for the fetched rows, or for the fetch error. */
  function Parsed(fetched: Result<seq<Row>>): Result<FestivalData> {
    if fetched.Err? then Err(PARSE_FAILED_PREFIX + fetched.message)
    else if !ValidateCsv(fetched.value) then Err(PARSE_FAILED_PREFIX + INVALID_STRUCTURE)
    else if Transform(fetched.value).artistIds == [] then Err(PARSE_FAILED_PREFIX + NO_VALID_ARTISTS)
    else Ok(Transform(fetched.value))
  }

  /**
   * `parseCSV` after the fetch: `fetched` is what PapaParse delivered (or the fetch error).
   * Every failure is rethrown with the "Failed to parse CSV file: " prefix.
   */
  method ParseCsv(fetched: Result<seq<Row>>) returns (r: Result<FestivalData>)
    ensures fetched.Err? ==> r == Err(PARSE_FAILED_PREFIX + fetched.message)
    ensures fetched.Ok? && !ValidateCsv(fetched.value) ==> r == Err(PARSE_FAILED_PREFIX + INVALID_STRUCTURE)
    ensures fetched.Ok? && ValidateCsv(fetched.value) && Transform(fetched.value).artistIds == [] ==>
              r == Err(PARSE_FAILED_PREFIX + NO_VALID_ARTISTS)
    ensures r.Ok? <==> fetched.Ok? && ValidateCsv(fetched.value) && Transform(fetched.value).artistIds != []
    ensures r.Ok? ==> r.value == Transform(fetched.value) && r.value.artistIds != []
    ensures r == Parsed(fetched)
  {
    if fetched.Err? {
      return Err(PARSE_FAILED_PREFIX + fetched.message);
    }
    var rows := fetched.value;
    if !ValidateCsv(rows) {
      return Err(PARSE_FAILED_PREFIX + INVALID_STRUCTURE);
    }
    var festivalData := TransformToFestivalData(rows);
    if |festivalData.artistIds| == 0 {
      return Err(PARSE_FAILED_PREFIX + NO_VALID_ARTISTS);
    }
    r := Ok(festivalData);
  }
}
