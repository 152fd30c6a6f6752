/**
 * The single-file predecessor of LineupLens (script.js): its artist-name
 * normaliser, its hand-rolled CSV reader, its count-only matcher, its
 * liked-songs pagination loop and its token check. It differs from the modular
 * version on purpose in several places, and the lemmas here say where:
 * duplicate IDs are kept, ties are not broken by name, and a failed page ends
 * the walk with the songs gathered so far instead of an error.
 */
module Legacy {
  import opened Common
  import opened Library
  import opened Api
  import opened ArraySort
  import Matcher

  // ---------------------------------------------------------------------------
  // normalizeArtistName

  /** The accent replacements, applied after lower-casing: é è ê ë, à á â ã ä å, í ì î ï, ó ò ô ö õ, ú ù û ü, ñ, ç. */
  function FoldAccent(c: char): (r: char)
    ensures c as int < 0x80 ==> r == c
    ensures r != c ==> 'a' <= r <= 'z'
  {
    if c == '\U{E9}' || c == '\U{E8}' || c == '\U{EA}' || c == '\U{EB}' then 'e'
    else if c == '\U{E0}' || c == '\U{E1}' || c == '\U{E2}' || c == '\U{E3}' || c == '\U{E4}' || c == '\U{E5}' then 'a'
    else if c == '\U{ED}' || c == '\U{EC}' || c == '\U{EE}' || c == '\U{EF}' then 'i'
    else if c == '\U{F3}' || c == '\U{F2}' || c == '\U{F4}' || c == '\U{F6}' || c == '\U{F5}' then 'o'
    else if c == '\U{FA}' || c == '\U{F9}' || c == '\U{FB}' || c == '\U{FC}' then 'u'
    else if c == '\U{F1}' then 'n'
    else if c == '\U{E7}' then 'c'
    else c
  }

  function FoldAccents(s: string): (r: string)
    ensures |r| == |s| && forall i :: 0 <= i < |s| ==> r[i] == FoldAccent(s[i])
  {
    seq(|s|, i requires 0 <= i < |s| => FoldAccent(s[i]))
  }

  /** The characters `/[^\w\s]/gi` leaves in place. */
  predicate Kept(c: char) {
    IsWordChar(c) || IsSpace(c)
  }

  /** `.replace(/[^\w\s]/gi, '')`: delete every character that is neither a word character nor white space. */
  function StripSymbols(s: string): (r: string)
    ensures forall i :: 0 <= i < |r| ==> Kept(r[i]) && r[i] in s
    ensures (forall i :: 0 <= i < |s| ==> Kept(s[i])) ==> r == s
    decreases |s|
  {
    if s == [] then []
    else
      var rest := StripSymbols(s[..|s| - 1]);
      var c := s[|s| - 1];
      assert s == s[..|s| - 1] + [c];
      rest + (if Kept(c) then [c] else [])
  }

  /** Stripping keeps every occurrence of every kept character, and nothing else. */
  lemma {:induction false} StripSymbolsCounts(s: string)
    ensures forall c :: Kept(c) ==> multiset(StripSymbols(s))[c] == multiset(s)[c]
    ensures forall c :: !Kept(c) ==> c !in StripSymbols(s)
    decreases |s|
  {
    if s != [] {
      var init := s[..|s| - 1];
      var c := s[|s| - 1];
      StripSymbolsCounts(init);
      assert s == init + [c];
      assert multiset(s) == multiset(init) + multiset{c};
      assert StripSymbols(s) == StripSymbols(init) + (if Kept(c) then [c] else []);
    }
  }

  /** Stripping works character by character: stripping a concatenation concatenates the stripped parts. */
  lemma {:induction false} StripSymbolsAppend(a: string, b: string)
    ensures StripSymbols(a + b) == StripSymbols(a) + StripSymbols(b)
    decreases |b|
  {
    if b == [] {
      assert a + b == a;
    } else {
      var init := b[..|b| - 1];
      var c := b[|b| - 1];
      assert (a + b)[..|a + b| - 1] == a + init;
      assert (a + b)[|a + b| - 1] == c;
      StripSymbolsAppend(a, init);
      var kept := if Kept(c) then [c] else [];
      assert StripSymbols(a) + StripSymbols(init) + kept == StripSymbols(a) + (StripSymbols(init) + kept);
    }
  }

  /** The characters a normalised name consists of: lower-case ASCII letters, digits, `_` and white space. */
  predicate NormalChar(c: char) {
    ('a' <= c <= 'z') || IsDigit(c) || c == '_' || IsSpace(c)
  }

  lemma TrimKeepsCharacters(s: string)
    ensures forall i :: 0 <= i < |Trim(s)| ==> Trim(s)[i] in s
  {
    var t := TrimStart(s);
    var r := TrimEnd(t);
    forall i | 0 <= i < |r| ensures r[i] in s {
      assert r[i] == t[i];
      assert t[i] == s[|s| - |t| + i];
    }
  }

  /**
   * `normalizeArtistName`: lower-case, fold the listed accented letters to
   * ASCII, delete everything but word characters and white space, trim.
   */
  function NormalizeArtistName(name: string): (r: string)
    ensures forall i :: 0 <= i < |r| ==> NormalChar(r[i])
    ensures r != [] ==> !IsSpace(r[0]) && !IsSpace(r[|r| - 1])
  {
    NormalizedCharacters(name);
    Trim(StripSymbols(FoldAccents(ToLower(name))))
  }

  /** Every character that survives the normalising steps is a normal one. */
  lemma NormalizedCharacters(name: string)
    ensures forall c :: c in Trim(StripSymbols(FoldAccents(ToLower(name)))) ==> NormalChar(c)
  {
    var lowered := ToLower(name);
    var folded := FoldAccents(lowered);
    assert forall c :: c in folded ==> !('A' <= c <= 'Z') by {
      forall c | c in folded ensures !('A' <= c <= 'Z') {
        var i :| 0 <= i < |folded| && folded[i] == c;
        assert !IsUpperLatin1(lowered[i]);
      }
    }
    var stripped := StripSymbols(folded);
    KeptLowerIsNormal(folded, stripped);
    TrimKeepsCharacters(stripped);
  }

  /** A kept character that is not an upper-case ASCII letter is a normal one. */
  lemma KeptLowerIsNormal(folded: string, stripped: string)
    requires forall c :: c in folded ==> !('A' <= c <= 'Z')
    requires forall i :: 0 <= i < |stripped| ==> Kept(stripped[i]) && stripped[i] in folded
    ensures forall c :: c in stripped ==> NormalChar(c)
  {
  }

  /** Normalising a normalised name changes nothing. */
  lemma NormalizeIdempotent(name: string)
    ensures NormalizeArtistName(NormalizeArtistName(name)) == NormalizeArtistName(name)
  {
    var r := NormalizeArtistName(name);
    var lowered := ToLower(r);
    forall i | 0 <= i < |r| ensures lowered[i] == r[i] && Kept(r[i]) {
      NormalCharFixed(r[i]);
    }
    assert lowered == r;
    var folded := FoldAccents(lowered);
    forall i | 0 <= i < |r| ensures folded[i] == r[i] {
      NormalCharFixed(r[i]);
    }
    assert folded == r;
    assert StripSymbols(folded) == r;
    TrimStartOfUntrimmed(r);
    TrimEndOfUntrimmed(r);
  }

  /** Lower-casing and accent folding leave a normal character alone, and symbol stripping keeps it. */
  lemma NormalCharFixed(c: char)
    requires NormalChar(c)
    ensures ToLowerChar(c) == c && FoldAccent(c) == c && Kept(c)
  {
  }

  // ---------------------------------------------------------------------------
  // loadArtistsFromCsv, parsing part

  const ORIGINAL_NAME := "Original Name"
  const SPOTIFY_ID := "Spotify ID"
  const MATCHED_NAME := "Matched Name"

  /** `{ originalName, matchedName }` of one row; a cell beyond the end of the row is `undefined` (`None`). */
  datatype LegacyDetail = LegacyDetail(originalName: Option<string>, matchedName: Option<string>)

  datatype LegacyCatalog = LegacyCatalog(artistIds: seq<string>, artistDetails: map<string, LegacyDetail>)

  const EMPTY_CATALOG := LegacyCatalog([], map[])

  datatype ColumnIndices = ColumnIndices(originalName: nat, spotifyId: nat, matchedName: nat)

  /** The positions of the three required headers in the comma-split header line, or `None` when one is absent. */
  function FindColumns(headerLine: string): (cols: Option<ColumnIndices>)
    ensures var headers := Split(headerLine, ',');
      cols.Some? <==> ORIGINAL_NAME in headers && SPOTIFY_ID in headers && MATCHED_NAME in headers
    ensures var headers := Split(headerLine, ',');
      cols.Some? ==>
        && cols.value.originalName < |headers| && headers[cols.value.originalName] == ORIGINAL_NAME
        && cols.value.spotifyId < |headers| && headers[cols.value.spotifyId] == SPOTIFY_ID
        && cols.value.matchedName < |headers| && headers[cols.value.matchedName] == MATCHED_NAME
  {
    var headers := Split(headerLine, ',');
    var o := IndexOf(headers, ORIGINAL_NAME);
    var s := IndexOf(headers, SPOTIFY_ID);
    var m := IndexOf(headers, MATCHED_NAME);
    if o == -1 || s == -1 || m == -1 then None else Some(ColumnIndices(o, s, m))
  }

  /** `columns[index]?.trim()`. */
  function CellAt(columns: seq<string>, index: nat): (cell: Option<string>)
    ensures cell.Some? <==> index < |columns|
    ensures cell.Some? ==> cell.value == Trim(columns[index])
  {
    if index < |columns| then Some(Trim(columns[index])) else None
  }

  /** Is this Spotify ID cell one the loader keeps: present, non-empty and not the text "null"? */
  predicate KeepsId(cell: Option<string>) {
    cell.Some? && cell.value != "" && cell.value != "null"
  }

  /** The ID and details one data line contributes, or `None` for a blank line or an unusable ID. */
  datatype Entry = Entry(id: string, detail: LegacyDetail)

  function LineEntry(line: string, cols: ColumnIndices): (e: Option<Entry>)
    ensures e.Some? ==> Trim(line) != "" && e.value.id != "" && e.value.id != "null"
    ensures Trim(line) == "" ==> e.None?
  {
    if Trim(line) == "" then None
    else
      var columns := Split(line, ',');
      var id := CellAt(columns, cols.spotifyId);
      if KeepsId(id) then
        Some(Entry(id.value, LegacyDetail(CellAt(columns, cols.originalName), CellAt(columns, cols.matchedName))))
      else None
  }

  /** The catalog built from data lines in order: every kept ID is appended, and its details overwrite earlier ones. */
  function Scan(lines: seq<string>, cols: ColumnIndices): (c: LegacyCatalog)
    ensures |c.artistIds| <= |lines|
    ensures forall k :: 0 <= k < |c.artistIds| ==> c.artistIds[k] != "" && c.artistIds[k] != "null"
    decreases |lines|
  {
    if lines == [] then EMPTY_CATALOG
    else
      var acc := Scan(lines[..|lines| - 1], cols);
      match LineEntry(lines[|lines| - 1], cols)
      case None => acc
      case Some(e) => LegacyCatalog(acc.artistIds + [e.id], acc.artistDetails[e.id := e.detail])
  }

  /** What the loader returns for the downloaded text; a missing required header yields the empty catalog. */
  function ParseCsvText(text: string): (c: LegacyCatalog)
    ensures |c.artistIds| < |Split(text, '\n')|
    ensures forall k :: 0 <= k < |c.artistIds| ==> c.artistIds[k] != "" && c.artistIds[k] != "null"
  {
    var lines := Split(text, '\n');
    var cols := FindColumns(lines[0]);
    if cols.None? then EMPTY_CATALOG else Scan(lines[1..], cols.value)
  }

  /** The number of data lines that contribute `id`. */
  function LinesWith(lines: seq<string>, cols: ColumnIndices, id: string): nat
    decreases |lines|
  {
    if lines == [] then 0
    else
      var e := LineEntry(lines[|lines| - 1], cols);
      LinesWith(lines[..|lines| - 1], cols, id) + (if e.Some? && e.value.id == id then 1 else 0)
  }

  /** The last data line that contributes `id`, or -1. */
  function LastLineWith(lines: seq<string>, cols: ColumnIndices, id: string): (k: int)
    ensures -1 <= k < |lines|
    ensures k >= 0 ==> LineEntry(lines[k], cols).Some? && LineEntry(lines[k], cols).value.id == id
    decreases |lines|
  {
    if lines == [] then -1
    else
      var e := LineEntry(lines[|lines| - 1], cols);
      if e.Some? && e.value.id == id then |lines| - 1 else LastLineWith(lines[..|lines| - 1], cols, id)
  }

  /**
   * Every contributing line adds its ID again, so an ID listed on two lines
   * appears twice (the modular loader keeps the first only); an ID is listed
   * iff some line contributes it, and it has details exactly then.
   */
  lemma {:induction false} ScanCounts(lines: seq<string>, cols: ColumnIndices, id: string)
    ensures Matcher.CountIn(Scan(lines, cols).artistIds, id) == LinesWith(lines, cols, id)
    ensures id in Scan(lines, cols).artistIds <==> LinesWith(lines, cols, id) > 0
    ensures id in Scan(lines, cols).artistDetails <==> id in Scan(lines, cols).artistIds
  {
    ScanCountOf(lines, cols, id);
    Matcher.CountInPositive(Scan(lines, cols).artistIds, id);
    ScanDetailsListed(lines, cols, id);
  }

  lemma {:induction false} ScanCountOf(lines: seq<string>, cols: ColumnIndices, id: string)
    ensures Matcher.CountIn(Scan(lines, cols).artistIds, id) == LinesWith(lines, cols, id)
    decreases |lines|
  {
    if lines != [] {
      var init := lines[..|lines| - 1];
      ScanCountOf(init, cols, id);
      var e := LineEntry(lines[|lines| - 1], cols);
      if e.Some? {
        CountInSnoc(Scan(init, cols).artistIds, e.value.id, id);
      }
    }
  }

  lemma {:induction false} ScanDetailsListed(lines: seq<string>, cols: ColumnIndices, id: string)
    ensures id in Scan(lines, cols).artistDetails <==> id in Scan(lines, cols).artistIds
    decreases |lines|
  {
    if lines != [] {
      ScanDetailsListed(lines[..|lines| - 1], cols, id);
    }
  }

  /** The details of an ID come from the last line that lists it. */
  lemma {:induction false} ScanLastLineWins(lines: seq<string>, cols: ColumnIndices, id: string)
    requires id in Scan(lines, cols).artistDetails
    ensures LastLineWith(lines, cols, id) >= 0
    ensures Scan(lines, cols).artistDetails[id] == LineEntry(lines[LastLineWith(lines, cols, id)], cols).value.detail
    decreases |lines|
  {
    var init := lines[..|lines| - 1];
    var e := LineEntry(lines[|lines| - 1], cols);
    if !(e.Some? && e.value.id == id) {
      ScanLastLineWins(init, cols, id);
    }
  }

  /** A header line without one of the three required columns makes the loader return the empty catalog. */
  lemma MissingColumnGivesEmpty(text: string)
    requires var headers := Split(Split(text, '\n')[0], ',');
      ORIGINAL_NAME !in headers || SPOTIFY_ID !in headers || MATCHED_NAME !in headers
    ensures ParseCsvText(text) == EMPTY_CATALOG
  {
  }

  // ---------------------------------------------------------------------------
  // updateLikedArtists and findMatchedArtists

  /** One entry of `likedArtists`: `{ name, id, likedSongs }`. */
  datatype LikedArtist = LikedArtist(name: string, id: string, likedSongs: nat)

  function ArtistIds(liked: seq<LikedArtist>): (ids: seq<string>)
    ensures |ids| == |liked| && forall k :: 0 <= k < |liked| ==> ids[k] == liked[k].id
  {
    seq(|liked|, k requires 0 <= k < |liked| => liked[k].id)
  }

  function RefIds(refs: seq<ArtistRef>): (ids: seq<string>)
    ensures |ids| == |refs| && forall k :: 0 <= k < |refs| ==> ids[k] == refs[k].id
  {
    seq(|refs|, k requires 0 <= k < |refs| => refs[k].id)
  }

  /** `likedArtists` is an object keyed by artist ID, kept here as its entries in insertion order. */
  predicate WellFormed(liked: seq<LikedArtist>) {
    NoDup(ArtistIds(liked)) && forall k :: 0 <= k < |liked| ==> liked[k].likedSongs >= 1
  }

  /** Where `likedArtists[id]` sits, or -1 when it is absent. */
  function FindArtist(liked: seq<LikedArtist>, id: string): (k: int)
    ensures -1 <= k < |liked|
    ensures k >= 0 ==> liked[k].id == id
    ensures k == -1 <==> id !in ArtistIds(liked)
  {
    IndexOf(ArtistIds(liked), id)
  }

  /** `likedArtists[id].likedSongs`, or 0 when the artist has no entry. */
  function CountOf(liked: seq<LikedArtist>, id: string): nat {
    var k := FindArtist(liked, id);
    if k >= 0 then liked[k].likedSongs else 0
  }

  /**
   * `updateLikedArtists`: a new artist gets an entry with count 1 under the
   * name it was first seen with; a known one has its count raised by 1.
   */
  function UpdateLikedArtists(liked: seq<LikedArtist>, artist: ArtistRef): (r: seq<LikedArtist>)
    ensures |r| == (if artist.id in ArtistIds(liked) then |liked| else |liked| + 1)
    ensures artist.id in ArtistIds(r)
  {
    var k := FindArtist(liked, artist.id);
    if k >= 0 then
      var r := liked[k := liked[k].(likedSongs := liked[k].likedSongs + 1)];
      assert ArtistIds(r)[k] == artist.id;
      r
    else
      var r := liked + [LikedArtist(artist.name, artist.id, 1)];
      assert ArtistIds(r)[|liked|] == artist.id;
      r
  }

  /** One call adds the artist's ID at the end when it is new and leaves every existing entry's ID and name alone. */
  lemma UpdateLikedArtistsIds(liked: seq<LikedArtist>, artist: ArtistRef)
    ensures var r := UpdateLikedArtists(liked, artist);
      && ArtistIds(r) == (if artist.id in ArtistIds(liked) then ArtistIds(liked) else ArtistIds(liked) + [artist.id])
      && (forall k :: 0 <= k < |liked| ==> r[k].name == liked[k].name)
      && (artist.id !in ArtistIds(liked) ==> r[|liked|] == LikedArtist(artist.name, artist.id, 1))
  {
    var r := UpdateLikedArtists(liked, artist);
    var k := FindArtist(liked, artist.id);
    assert ArtistIds(r) == if k >= 0 then ArtistIds(liked) else ArtistIds(liked) + [artist.id];
  }

  /** One call raises the artist's count by 1 and leaves every other count alone. */
  lemma UpdateLikedArtistsCounts(liked: seq<LikedArtist>, artist: ArtistRef)
    ensures CountOf(UpdateLikedArtists(liked, artist), artist.id) == CountOf(liked, artist.id) + 1
    ensures forall other :: other != artist.id ==> CountOf(UpdateLikedArtists(liked, artist), other) == CountOf(liked, other)
  {
    var r := UpdateLikedArtists(liked, artist);
    UpdateLikedArtistsIds(liked, artist);
    if artist.id !in ArtistIds(liked) {
      forall other ensures FindArtist(r, other) == FindArtist(liked, other) || other == artist.id {
        IndexOfSnoc(ArtistIds(liked), artist.id, other);
      }
      IndexOfSnoc(ArtistIds(liked), artist.id, artist.id);
    }
  }

  /** One call keeps every ID once and every count positive. */
  lemma UpdateLikedArtistsWellFormed(liked: seq<LikedArtist>, artist: ArtistRef)
    requires WellFormed(liked)
    ensures WellFormed(UpdateLikedArtists(liked, artist))
  {
    var r := UpdateLikedArtists(liked, artist);
    UpdateLikedArtistsIds(liked, artist);
    if artist.id !in ArtistIds(liked) {
      forall i, j | 0 <= i < j < |r| ensures ArtistIds(r)[i] != ArtistIds(r)[j] {
        if j == |liked| {
          assert ArtistIds(r)[i] == ArtistIds(liked)[i];
        } else {
          assert ArtistIds(r)[i] == ArtistIds(liked)[i] && ArtistIds(r)[j] == ArtistIds(liked)[j];
        }
      }
    }
  }

  /** `{ ...songArtist, name: artistDetails[id].originalName || songArtist.name }` when the CSV has details for the artist. */
  function Displayed(artist: ArtistRef, details: map<string, LegacyDetail>): (r: ArtistRef)
    ensures r.id == artist.id
    ensures artist.id in details && details[artist.id].originalName.Some? && details[artist.id].originalName.value != "" ==>
              r.name == details[artist.id].originalName.value
    ensures !(artist.id in details && details[artist.id].originalName.Some? && details[artist.id].originalName.value != "") ==>
              r.name == artist.name
  {
    if artist.id in details then
      var original := details[artist.id].originalName;
      ArtistRef(artist.id, if original.Some? && original.value != "" then original.value else artist.name)
    else artist
  }

  /** The artists of one song that play the festival, as passed to `updateLikedArtists`. */
  function SongHits(artists: seq<ArtistRef>, festivalIds: seq<string>, details: map<string, LegacyDetail>): seq<ArtistRef>
    decreases |artists|
  {
    if artists == [] then []
    else
      var a := artists[|artists| - 1];
      SongHits(artists[..|artists| - 1], festivalIds, details) + (if a.id in festivalIds then [Displayed(a, details)] else [])
  }

  /** Every call of `updateLikedArtists`, in order, for the liked songs. */
  function Hits(songs: seq<SavedItem>, festivalIds: seq<string>, details: map<string, LegacyDetail>): seq<ArtistRef>
    decreases |songs|
  {
    if songs == [] then []
    else Hits(songs[..|songs| - 1], festivalIds, details) + SongHits(songs[|songs| - 1].track.artists, festivalIds, details)
  }

  /** `likedArtists` after those calls, starting from `{}`. */
  function Tally(hits: seq<ArtistRef>): seq<LikedArtist>
    decreases |hits|
  {
    if hits == [] then [] else UpdateLikedArtists(Tally(hits[..|hits| - 1]), hits[|hits| - 1])
  }

  lemma TallySnoc(hits: seq<ArtistRef>, a: ArtistRef)
    ensures Tally(hits + [a]) == UpdateLikedArtists(Tally(hits), a)
  {
    assert (hits + [a])[..|hits|] == hits;
  }

  lemma {:induction false} CountInAppend(a: seq<string>, b: seq<string>, id: string)
    ensures Matcher.CountIn(a + b, id) == Matcher.CountIn(a, id) + Matcher.CountIn(b, id)
    decreases |b|
  {
    if b == [] {
      assert a + b == a;
    } else {
      assert (a + b)[..|a + b| - 1] == a + b[..|b| - 1];
      CountInAppend(a, b[..|b| - 1], id);
    }
  }

  /** The tally holds each artist once, with a count of at least 1 that equals the number of calls naming it. */
  lemma TallyCounts(hits: seq<ArtistRef>)
    ensures WellFormed(Tally(hits))
    ensures forall id :: CountOf(Tally(hits), id) == Matcher.CountIn(RefIds(hits), id)
    ensures forall id :: id in ArtistIds(Tally(hits)) <==> id in RefIds(hits)
  {
    TallyWellFormed(hits);
    TallyCountOf(hits);
    TallyIds(hits);
  }

  lemma RefIdsSnoc(hits: seq<ArtistRef>)
    requires hits != []
    ensures RefIds(hits) == RefIds(hits[..|hits| - 1]) + [hits[|hits| - 1].id]
  {
  }

  lemma {:induction false} TallyWellFormed(hits: seq<ArtistRef>)
    ensures WellFormed(Tally(hits))
    decreases |hits|
  {
    if hits != [] {
      TallyWellFormed(hits[..|hits| - 1]);
      UpdateLikedArtistsWellFormed(Tally(hits[..|hits| - 1]), hits[|hits| - 1]);
    }
  }

  lemma {:induction false} TallyCountOf(hits: seq<ArtistRef>)
    ensures forall id :: CountOf(Tally(hits), id) == Matcher.CountIn(RefIds(hits), id)
    decreases |hits|
  {
    if hits != [] {
      var init := hits[..|hits| - 1];
      var a := hits[|hits| - 1];
      TallyCountOf(init);
      UpdateLikedArtistsCounts(Tally(init), a);
      RefIdsSnoc(hits);
      forall id ensures Matcher.CountIn(RefIds(hits), id) == Matcher.CountIn(RefIds(init), id) + (if a.id == id then 1 else 0) {
        assert RefIds(hits)[..|RefIds(hits)| - 1] == RefIds(init);
      }
    }
  }

  lemma {:induction false} TallyIds(hits: seq<ArtistRef>)
    ensures forall id :: id in ArtistIds(Tally(hits)) <==> id in RefIds(hits)
    decreases |hits|
  {
    if hits != [] {
      var init := hits[..|hits| - 1];
      TallyIds(init);
      UpdateLikedArtistsIds(Tally(init), hits[|hits| - 1]);
      RefIdsSnoc(hits);
    }
  }

  /** Each entry carries the name of the first call naming its artist. */
  lemma {:induction false} TallyNames(hits: seq<ArtistRef>)
    ensures forall k :: 0 <= k < |Tally(hits)| ==>
              && Tally(hits)[k].id in RefIds(hits)
              && Tally(hits)[k].name == hits[IndexOf(RefIds(hits), Tally(hits)[k].id)].name
    decreases |hits|
  {
    if hits != [] {
      TallyNames(hits[..|hits| - 1]);
      forall k | 0 <= k < |Tally(hits)|
        ensures && Tally(hits)[k].id in RefIds(hits)
                && Tally(hits)[k].name == hits[IndexOf(RefIds(hits), Tally(hits)[k].id)].name
      {
        TallyNameAt(hits, k);
      }
    }
  }

  /** One step of `TallyNames`: entry `k` after the last call, given the names before it. */
  lemma TallyNameAt(hits: seq<ArtistRef>, k: int)
    requires hits != []
    requires var init := hits[..|hits| - 1];
      forall j :: 0 <= j < |Tally(init)| ==>
        && Tally(init)[j].id in RefIds(init)
        && Tally(init)[j].name == init[IndexOf(RefIds(init), Tally(init)[j].id)].name
    requires 0 <= k < |Tally(hits)|
    ensures Tally(hits)[k].id in RefIds(hits)
    ensures Tally(hits)[k].name == hits[IndexOf(RefIds(hits), Tally(hits)[k].id)].name
  {
    var init := hits[..|hits| - 1];
    var a := hits[|hits| - 1];
    var before := Tally(init);
    var after := Tally(hits);
    assert after == UpdateLikedArtists(before, a);
    TallyIds(init);
    UpdateLikedArtistsIds(before, a);
    RefIdsSnoc(hits);
    var id := after[k].id;
    assert id == ArtistIds(after)[k];
    IndexOfSnoc(RefIds(init), a.id, id);
    if k < |before| {
      assert id == ArtistIds(before)[k];
      assert id in RefIds(init);
      var at := IndexOf(RefIds(init), id);
      assert IndexOf(RefIds(hits), id) == at;
      assert after[k].name == before[k].name == init[at].name;
      assert hits[at] == init[at];
    } else {
      assert a.id !in ArtistIds(before);
      assert after[k] == LikedArtist(a.name, a.id, 1);
      assert IndexOf(RefIds(hits), id) == |init|;
    }
  }

  lemma RefIdsAppend(a: seq<ArtistRef>, b: seq<ArtistRef>)
    ensures RefIds(a + b) == RefIds(a) + RefIds(b)
  {
  }

  lemma CountInSnoc(xs: seq<string>, x: string, id: string)
    ensures Matcher.CountIn(xs + [x], id) == Matcher.CountIn(xs, id) + (if x == id then 1 else 0)
  {
    assert (xs + [x])[..|xs|] == xs;
  }

  /**
   * For an artist of the festival the legacy tally counts exactly what the
   * modular matcher counts: one per (song, artist occurrence) pair; an artist
   * outside the festival is never counted.
   */
  lemma {:induction false} HitsOccurrences(songs: seq<SavedItem>, festivalIds: seq<string>,
                                           details: map<string, LegacyDetail>, id: string)
    ensures Matcher.CountIn(RefIds(Hits(songs, festivalIds, details)), id)
            == if id in festivalIds then Matcher.Occurrences(FromApiAll(songs), id) else 0
    decreases |songs|
  {
    if songs != [] {
      var init := songs[..|songs| - 1];
      var last := songs[|songs| - 1];
      HitsOccurrences(init, festivalIds, details, id);
      SongHitsCount(last.track.artists, festivalIds, details, id);
      var h1 := Hits(init, festivalIds, details);
      var h2 := SongHits(last.track.artists, festivalIds, details);
      RefIdsAppend(h1, h2);
      CountInAppend(RefIds(h1), RefIds(h2), id);
      assert FromApiAll(songs)[..|songs| - 1] == FromApiAll(init);
      assert Matcher.SongArtists(FromApi(last)) == RefIds(last.track.artists);
    }
  }

  lemma {:induction false} SongHitsCount(artists: seq<ArtistRef>, festivalIds: seq<string>,
                                         details: map<string, LegacyDetail>, id: string)
    ensures Matcher.CountIn(RefIds(SongHits(artists, festivalIds, details)), id)
            == if id in festivalIds then Matcher.CountIn(RefIds(artists), id) else 0
    decreases |artists|
  {
    if artists != [] {
      var init := artists[..|artists| - 1];
      var a := artists[|artists| - 1];
      SongHitsCount(init, festivalIds, details, id);
      var h := SongHits(init, festivalIds, details);
      assert RefIds(artists) == RefIds(init) + [a.id];
      CountInSnoc(RefIds(init), a.id, id);
      if a.id in festivalIds {
        var shown := Displayed(a, details);
        RefIdsAppend(h, [shown]);
        CountInSnoc(RefIds(h), shown.id, id);
      } else {
        assert h + [] == h;
      }
    }
  }

  /** The comparator `(a, b) => b.likedSongs - a.likedSongs`. */
  function CompareLiked(a: LikedArtist, b: LikedArtist): int {
    b.likedSongs - a.likedSongs
  }

  /** `a` may come before `b` when the comparator does not put it after: more liked songs first, nothing else considered. */
  predicate MoreLiked(a: LikedArtist, b: LikedArtist): (first: bool)
    ensures first <==> a.likedSongs >= b.likedSongs
  {
    CompareLiked(a, b) <= 0
  }

  lemma MoreLikedIsTotalPreorder()
    ensures TotalPreorder(MoreLiked)
  {
  }

  // ---------------------------------------------------------------------------
  // fetchSongs

  /**
   * The outcome of the legacy pagination loop over a script of responses:
   * a 429 retries the same page, a failed page ends the walk with the songs
   * gathered so far, and an exhausted script leaves the loop waiting.
   */
  function LegacyCrawl(responses: seq<HttpResponse<Page>>): (c: Completion<seq<SavedItem>>)
    ensures !c.Threw?
    decreases |responses|
  {
    if responses == [] then Waiting
    else
      var r := responses[0];
      if r.status == 429 then LegacyCrawl(responses[1..])
      else if !IsOk(r.status) then Returned([])
      else if r.data.next == "" then Returned(r.data.items)
      else Prepend(r.data.items, LegacyCrawl(responses[1..]))
  }

  /** Songs gathered before the rest of the walk. */
  function Prepend(items: seq<SavedItem>, c: Completion<seq<SavedItem>>): Completion<seq<SavedItem>> {
    match c
    case Returned(rest) => Returned(items + rest)
    case _ => c
  }

  lemma PrependNothing(c: Completion<seq<SavedItem>>)
    ensures Prepend([], c) == c
  {
    if c.Returned? {
      assert [] + c.value == c.value;
    }
  }

  lemma PrependPrepend(a: seq<SavedItem>, b: seq<SavedItem>, c: Completion<seq<SavedItem>>)
    ensures Prepend(a, Prepend(b, c)) == Prepend(a + b, c)
  {
    if c.Returned? {
      assert a + (b + c.value) == (a + b) + c.value;
    }
  }

  /**
   * The address of each `fetch` the legacy loop makes from `url`: a 429 asks
   * the same address again, a page with a `next` link is followed by that
   * address, and any other answer is the last one asked.
   */
  function LegacyFetches(url: string, responses: seq<HttpResponse<Page>>): (f: seq<string>)
    ensures |f| <= |responses|
    decreases |responses|
  {
    if responses == [] then []
    else
      var r := responses[0];
      if r.status == 429 then [url] + LegacyFetches(url, responses[1..])
      else if !IsOk(r.status) || r.data.next == "" then [url]
      else [url] + LegacyFetches(r.data.next, responses[1..])
  }

  /** After answer `r` to a request for `asked`, the loop asks `nextAsked`: the same address after a 429, else the page's `next`. */
  predicate FollowsAnswer(r: HttpResponse<Page>, asked: string, nextAsked: string) {
    || (r.status == 429 && nextAsked == asked)
    || (r.status != 429 && IsOk(r.status) && r.data.next != "" && nextAsked == r.data.next)
  }

  /**
   * The legacy loop asks `url` first, re-asks the same address after each 429,
   * asks a page's `next` after it, and stops asking only when the script ends
   * or after a failure or a last page.
   */
  lemma {:induction false} LegacyFetchAddresses(url: string, responses: seq<HttpResponse<Page>>)
    ensures var f := LegacyFetches(url, responses);
      && (responses != [] ==> |f| >= 1 && f[0] == url)
      && (forall k :: 0 <= k < |f| - 1 ==> FollowsAnswer(responses[k], f[k], f[k + 1]))
      && (0 < |f| < |responses| ==>
            responses[|f| - 1].status != 429 && (!IsOk(responses[|f| - 1].status) || responses[|f| - 1].data.next == ""))
    decreases |responses|
  {
    if responses != [] {
      var r := responses[0];
      var f := LegacyFetches(url, responses);
      var next := if r.status == 429 then url else r.data.next;
      if r.status == 429 || (IsOk(r.status) && r.data.next != "") {
        var tail := LegacyFetches(next, responses[1..]);
        LegacyFetchAddresses(next, responses[1..]);
        assert f == [url] + tail;
        forall k | 0 <= k < |f| - 1
          ensures FollowsAnswer(responses[k], f[k], f[k + 1])
        {
          if k > 0 {
            assert FollowsAnswer(responses[1..][k - 1], tail[k - 1], tail[k]);
          }
        }
        if 0 < |f| < |responses| {
          assert responses[|f| - 1] == responses[1..][|tail| - 1];
        }
      } else {
        assert f == [url];
      }
    }
  }

  /** How one request of the modular client, which skips 429s the same way, continues the legacy walk. */
  lemma {:induction false} LegacyStep(token: string, url: string, responses: seq<HttpResponse<Page>>)
    requires token != ""
    ensures var call := MakeRequest(token, url, responses);
      match call.completion
      case Waiting => LegacyCrawl(responses) == Waiting
      case Threw(_) => LegacyCrawl(responses) == Returned([])
      case Returned(page) =>
        LegacyCrawl(responses) ==
          if page.next == "" then Returned(page.items)
          else Prepend(page.items, LegacyCrawl(responses[call.consumed..]))
    decreases |responses|
  {
    if responses != [] && responses[0].status == 429 {
      LegacyStep(token, url, responses[1..]);
      var again := MakeRequest(token, url, responses[1..]);
      if again.completion.Returned? {
        assert responses[1..][again.consumed..] == responses[again.consumed + 1..];
      }
    }
  }

  /**
   * The legacy loop and `getAllLikedSongs` fetch the same pages; where the
   * modular client fails with an error, the legacy loop returns the songs of
   * the pages fetched before the failure.
   */
  lemma {:induction false} LegacyKeepsPartialResults(token: string, url: string, responses: seq<HttpResponse<Page>>)
    requires token != ""
    ensures var c := CrawlPages(token, url, responses);
      match c.end
      case Finished => LegacyCrawl(responses) == Returned(Flatten(c.pages))
      case Failed(_) => LegacyCrawl(responses) == Returned(Flatten(c.pages))
      case Stalled => LegacyCrawl(responses) == Waiting
    decreases |responses|
  {
    LegacyStep(token, url, responses);
    var call := MakeRequest(token, url, responses);
    if call.completion.Returned? {
      var page := call.completion.value;
      assert Flatten([page]) == page.items by {
        assert [page][..0] == [];
      }
      if page.next != "" {
        var rest := responses[call.consumed..];
        LegacyKeepsPartialResults(token, page.next, rest);
        FlattenAppend([page], CrawlPages(token, page.next, rest).pages);
      }
    } else {
      assert Flatten([]) == [];
    }
  }

  /** `verifyToken`: a token is accepted iff it is present and at least 20 characters long. */
  function VerifyToken(token: Option<string>): (ok: bool)
    ensures ok <==> token.Some? && |token.value| >= 20
  {
    if token.None? || token.value == "" then false
    else if |token.value| < 20 then false
    else true
  }

  /**
   * `fetchSongs` with its default `url`: follow the pages until `next` is
   * empty; a 429 retries the same address, and any other failure ends the loop
   * with the songs gathered so far. The loop never throws. `fetched` lists the
   * address of each `fetch`, in order.
   */
  method FetchSongs(responses: seq<HttpResponse<Page>>) returns (r: Completion<seq<SavedItem>>, fetched: seq<string>)
    ensures r == LegacyCrawl(responses)
    ensures !r.Threw?
    ensures fetched == LegacyFetches(FIRST_PAGE_URL, responses)
  {
    var allSongs: seq<SavedItem> := [];
    var nextUrl := FIRST_PAGE_URL;
    var pos := 0;
    fetched := [];
    assert responses[0..] == responses;
    PrependNothing(LegacyCrawl(responses));
    while nextUrl != ""
      invariant 0 <= pos <= |responses|
      invariant nextUrl != "" ==> LegacyCrawl(responses) == Prepend(allSongs, LegacyCrawl(responses[pos..]))
      invariant nextUrl == "" ==> LegacyCrawl(responses) == Returned(allSongs)
      invariant nextUrl != "" ==> LegacyFetches(FIRST_PAGE_URL, responses) == fetched + LegacyFetches(nextUrl, responses[pos..])
      invariant nextUrl == "" ==> LegacyFetches(FIRST_PAGE_URL, responses) == fetched
      decreases |responses| - pos
    {
      if pos == |responses| {
        assert fetched + [] == fetched;
        return Waiting, fetched;
      }
      var response := responses[pos];
      assert responses[pos..][1..] == responses[pos + 1..];
      AppendAssoc(fetched, [nextUrl], LegacyFetches(if response.status == 429 then nextUrl else response.data.next, responses[pos + 1..]));
      fetched := fetched + [nextUrl];
      pos := pos + 1;
      if response.status == 429 {
        continue;
      }
      if !IsOk(response.status) {
        assert allSongs + [] == allSongs;
        return Returned(allSongs), fetched;
      }
      PrependPrepend(allSongs, response.data.items, LegacyCrawl(responses[pos..]));
      allSongs := allSongs + response.data.items;
      nextUrl := response.data.next;
    }
    r := Returned(allSongs);
  }

  // ---------------------------------------------------------------------------
  // The page's globals

  /** The module-level state of script.js that the loader and the matcher share. */
  class LegacyPage {
    /** `festivalInfo[festival].csv`. */
    const festivalCsv: map<string, string>
    /** `festivalArtists`: the artist IDs loaded per festival. */
    var festivalArtists: map<string, seq<string>>
    /** `likedSongs`: the API items `fetchSongs` returned. */
    var likedSongs: seq<SavedItem>
    /** `window.currentFestivalArtistDetails`, or `None` while unset. */
    var currentFestivalArtistDetails: Option<map<string, LegacyDetail>>

    constructor(festivalCsv: map<string, string>)
      ensures this.festivalCsv == festivalCsv
      ensures festivalArtists == map[] && likedSongs == [] && currentFestivalArtistDetails == None
    {
      this.festivalCsv := festivalCsv;
      festivalArtists := map[];
      likedSongs := [];
      currentFestivalArtistDetails := None;
    }

    /** `festivalArtists[festival] || []`. */
    function FestivalIds(festival: string): seq<string>
      reads this
    {
      if festival in festivalArtists then festivalArtists[festival] else []
    }

    /** `window.currentFestivalArtistDetails || {}`. */
    function DetailsInUse(): map<string, LegacyDetail>
      reads this
    {
      if currentFestivalArtistDetails.Some? then currentFestivalArtistDetails.value else map[]
    }

    /**
     * `loadArtistsFromCsv`: an unknown festival, a failed download or a
     * header without the required columns all end in the empty catalog with
     * nothing recorded; otherwise the catalog of the text is recorded under
     * the festival and returned.
     */
    method LoadArtistsFromCsv(festival: string, download: string -> Result<string>) returns (catalog: LegacyCatalog)
      modifies this
      ensures festival !in festivalCsv || festivalCsv[festival] == "" || download(festivalCsv[festival]).Err? ==>
        catalog == EMPTY_CATALOG && festivalArtists == old(festivalArtists)
      ensures festival in festivalCsv && festivalCsv[festival] != "" && download(festivalCsv[festival]).Ok? ==>
        var text := download(festivalCsv[festival]).value;
        && catalog == ParseCsvText(text)
        && festivalArtists == if FindColumns(Split(text, '\n')[0]).Some? then old(festivalArtists)[festival := catalog.artistIds]
                              else old(festivalArtists)
      ensures likedSongs == old(likedSongs) && currentFestivalArtistDetails == old(currentFestivalArtistDetails)
    {
      if festival !in festivalCsv || festivalCsv[festival] == "" {
        return EMPTY_CATALOG;
      }
      var response := download(festivalCsv[festival]);
      if response.Err? {
        return EMPTY_CATALOG;
      }
      var lines := Split(response.value, '\n');
      var cols := FindColumns(lines[0]);
      if cols.None? {
        return EMPTY_CATALOG;
      }
      catalog := ScanRows(lines, cols.value);
      festivalArtists := festivalArtists[festival := catalog.artistIds];
    }

    /**
     * `findMatchedArtists`: tally every liked-song artist that plays the
     * festival, then order the tally by count, most liked first. Each artist
     * appears once, counted once per (song, artist occurrence) pair, under the
     * CSV's original name when it has one and otherwise the name of its first
     * occurrence.
     */
    method FindMatchedArtists(festival: string) returns (matched: seq<LikedArtist>)
      ensures multiset(matched) == multiset(Tally(Hits(likedSongs, FestivalIds(festival), DetailsInUse())))
      ensures SortedBy(matched, MoreLiked)
      ensures forall m :: m in matched ==>
                && m.id in FestivalIds(festival)
                && m.likedSongs == Matcher.Occurrences(FromApiAll(likedSongs), m.id) >= 1
                && m.id in RefIds(Hits(likedSongs, FestivalIds(festival), DetailsInUse()))
                && m.name == Hits(likedSongs, FestivalIds(festival), DetailsInUse())[
                               IndexOf(RefIds(Hits(likedSongs, FestivalIds(festival), DetailsInUse())), m.id)].name
      ensures forall id :: id in FestivalIds(festival) && Matcher.Occurrences(FromApiAll(likedSongs), id) > 0 ==>
                exists m :: m in matched && m.id == id
      ensures NoDup(ArtistIds(matched))
    {
      var festivalArtistIds := FestivalIds(festival);
      var artistDetails := DetailsInUse();
      var likedArtists: seq<LikedArtist> := [];
      for i := 0 to |likedSongs|
        invariant likedArtists == Tally(Hits(likedSongs[..i], festivalArtistIds, artistDetails))
      {
        assert likedSongs[..i + 1][..i] == likedSongs[..i];
        likedArtists := TallySong(likedArtists, likedSongs[i].track.artists, festivalArtistIds, artistDetails,
                                  Hits(likedSongs[..i], festivalArtistIds, artistDetails));
      }
      assert likedSongs[..|likedSongs|] == likedSongs;
      matched := SortByLikedSongs(likedArtists);
      MatchedFacts(matched, likedSongs, festivalArtistIds, artistDetails);
    }
  }

  lemma {:induction false} ScanSnoc(lines: seq<string>, i: nat, cols: ColumnIndices)
    requires 1 <= i < |lines|
    ensures var acc := Scan(lines[1..i], cols);
      var e := LineEntry(lines[i], cols);
      Scan(lines[1..i + 1], cols)
        == if e.None? then acc else LegacyCatalog(acc.artistIds + [e.value.id], acc.artistDetails[e.value.id := e.value.detail])
  {
    var ls := lines[1..i + 1];
    assert ls[..|ls| - 1] == lines[1..i];
    assert ls[|ls| - 1] == lines[i];
  }

  /** The data-row loop of `loadArtistsFromCSV`: every line after the header, in order. */
  method ScanRows(lines: seq<string>, cols: ColumnIndices) returns (catalog: LegacyCatalog)
    requires |lines| >= 1
    ensures catalog == Scan(lines[1..], cols)
  {
    var artistIds: seq<string> := [];
    var artistDetails: map<string, LegacyDetail> := map[];
    for i := 1 to |lines|
      invariant LegacyCatalog(artistIds, artistDetails) == Scan(lines[1..i], cols)
    {
      ScanSnoc(lines, i, cols);
      if Trim(lines[i]) == "" {
        continue;
      }
      var columns := Split(lines[i], ',');
      var spotifyId := CellAt(columns, cols.spotifyId);
      if KeepsId(spotifyId) {
        artistIds := artistIds + [spotifyId.value];
        artistDetails := artistDetails[spotifyId.value :=
          LegacyDetail(CellAt(columns, cols.originalName), CellAt(columns, cols.matchedName))];
      }
    }
    assert lines[1..|lines|] == lines[1..];
    catalog := LegacyCatalog(artistIds, artistDetails);
  }

  /** The inner loop of `findMatchedArtists`: one `updateLikedArtists` call per artist of the song that plays the festival. */
  method TallySong(likedArtists: seq<LikedArtist>, artists: seq<ArtistRef>, festivalArtistIds: seq<string>,
                   artistDetails: map<string, LegacyDetail>, ghost before: seq<ArtistRef>)
    returns (r: seq<LikedArtist>)
    requires likedArtists == Tally(before)
    ensures r == Tally(before + SongHits(artists, festivalArtistIds, artistDetails))
  {
    r := likedArtists;
    assert artists[..0] == [];
    assert before + [] == before;
    for j := 0 to |artists|
      invariant r == Tally(before + SongHits(artists[..j], festivalArtistIds, artistDetails))
    {
      SongHitsStep(before, artists, j, festivalArtistIds, artistDetails);
      if artists[j].id in festivalArtistIds {
        var shown := Displayed(artists[j], artistDetails);
        TallySnoc(before + SongHits(artists[..j], festivalArtistIds, artistDetails), shown);
        r := UpdateLikedArtists(r, shown);
      } else {
        assert before + SongHits(artists[..j], festivalArtistIds, artistDetails) + []
            == before + SongHits(artists[..j], festivalArtistIds, artistDetails);
      }
    }
    assert artists[..|artists|] == artists;
  }

  lemma SongHitsStep(before: seq<ArtistRef>, artists: seq<ArtistRef>, j: nat, festivalIds: seq<string>,
                     details: map<string, LegacyDetail>)
    requires j < |artists|
    ensures before + SongHits(artists[..j + 1], festivalIds, details)
         == before + SongHits(artists[..j], festivalIds, details)
            + (if artists[j].id in festivalIds then [Displayed(artists[j], details)] else [])
  {
    assert artists[..j + 1][..j] == artists[..j];
  }

  /** `Object.values(likedArtists).sort((a, b) => b.likedSongs - a.likedSongs)`. */
  method SortByLikedSongs(likedArtists: seq<LikedArtist>) returns (sorted: seq<LikedArtist>)
    ensures multiset(sorted) == multiset(likedArtists)
    ensures SortedBy(sorted, MoreLiked)
  {
    var a := new LikedArtist[|likedArtists|](k requires 0 <= k < |likedArtists| => likedArtists[k]);
    assert a[..] == likedArtists;
    MoreLikedIsTotalPreorder();
    Sort(a, MoreLiked);
    sorted := a[..];
  }

  /** What the sorted tally promises, derived from the tally itself. */
  lemma MatchedFacts(matched: seq<LikedArtist>, songs: seq<SavedItem>, festivalIds: seq<string>,
                     details: map<string, LegacyDetail>)
    requires multiset(matched) == multiset(Tally(Hits(songs, festivalIds, details)))
    ensures forall m :: m in matched ==>
              && m.id in festivalIds
              && m.likedSongs == Matcher.Occurrences(FromApiAll(songs), m.id) >= 1
              && m.id in RefIds(Hits(songs, festivalIds, details))
              && m.name == Hits(songs, festivalIds, details)[IndexOf(RefIds(Hits(songs, festivalIds, details)), m.id)].name
    ensures forall id :: id in festivalIds && Matcher.Occurrences(FromApiAll(songs), id) > 0 ==>
              exists m :: m in matched && m.id == id
    ensures NoDup(ArtistIds(matched))
  {
    var hits := Hits(songs, festivalIds, details);
    var tally := Tally(hits);
    Matcher.PermutationSameElements(matched, tally);
    forall m | m in matched
      ensures && m.id in festivalIds
              && m.likedSongs == Matcher.Occurrences(FromApiAll(songs), m.id) >= 1
              && m.id in RefIds(hits)
              && m.name == hits[IndexOf(RefIds(hits), m.id)].name
    {
      var k :| 0 <= k < |tally| && tally[k] == m;
      TallyEntry(hits, k);
      HitsOccurrences(songs, festivalIds, details, m.id);
    }
    forall id | id in festivalIds && Matcher.Occurrences(FromApiAll(songs), id) > 0
      ensures exists m :: m in matched && m.id == id
    {
      HitsOccurrences(songs, festivalIds, details, id);
      TallyCounts(hits);
      var k := FindArtist(tally, id);
      assert tally[k] in matched;
    }
    TallyCounts(hits);
    PermutationKeepsIds(matched, tally);
  }

  /** An entry of the tally: its count is the number of calls naming it, at least 1, under its first name. */
  lemma TallyEntry(hits: seq<ArtistRef>, k: int)
    requires 0 <= k < |Tally(hits)|
    ensures Tally(hits)[k].likedSongs == Matcher.CountIn(RefIds(hits), Tally(hits)[k].id) >= 1
    ensures Tally(hits)[k].id in RefIds(hits)
    ensures Tally(hits)[k].name == hits[IndexOf(RefIds(hits), Tally(hits)[k].id)].name
  {
    var tally := Tally(hits);
    var id := tally[k].id;
    TallyCounts(hits);
    TallyNames(hits);
    assert ArtistIds(tally)[k] == id;
    assert id !in ArtistIds(tally)[..k];
    IndexOfUnique(ArtistIds(tally), id, k);
  }

  /** Reordering a tally keeps each artist ID once. */
  lemma PermutationKeepsIds(matched: seq<LikedArtist>, tally: seq<LikedArtist>)
    requires multiset(matched) == multiset(tally) && NoDup(ArtistIds(tally))
    ensures NoDup(ArtistIds(matched))
  {
    Matcher.PermutationSameElements(matched, tally);
    assert NoDup(tally) by {
      forall i, j | 0 <= i < j < |tally| ensures tally[i] != tally[j] {
        assert ArtistIds(tally)[i] != ArtistIds(tally)[j];
      }
    }
    forall i, j | 0 <= i < j < |matched| ensures ArtistIds(matched)[i] != ArtistIds(matched)[j] {
      Matcher.DistinctPositions(matched, tally, i, j);
      assert matched[i] in tally && matched[j] in tally;
      var p :| 0 <= p < |tally| && matched[i] == tally[p];
      var q :| 0 <= q < |tally| && matched[j] == tally[q];
      assert p != q;
      if p < q {
        assert ArtistIds(tally)[p] != ArtistIds(tally)[q];
      } else {
        assert ArtistIds(tally)[q] != ArtistIds(tally)[p];
      }
    }
  }
}
