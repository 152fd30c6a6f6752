/**
 * The matcher and ranker (assets/js/matcher.js): count how many liked songs
 * list each catalog artist, build one result per counted artist, and rank the
 * results by count, then by name.
 * The JavaScript `Map` of counts is modelled as its keys in insertion order
 * (`order`) together with a Dafny map from key to count (`counts`).
 */
module Matcher {
  import opened Common
  import opened Library
  import ArraySort

  const UNKNOWN_ARTIST := "Unknown Artist"

  /** `song.artistIds || song.track?.artists?.map(a => a.id) || []`. */
  function SongArtists(song: LikedSong): (ids: seq<string>)
    ensures song.Stored? ==> ids == song.record.artistIds
    ensures song.FromApi? ==>
              (|ids| == |song.item.track.artists| &&
               forall k :: 0 <= k < |ids| ==> ids[k] == song.item.track.artists[k].id)
    ensures song.Unrecognized? ==> ids == []
  {
    match song
    case Stored(record) => record.artistIds
    case FromApi(item) => seq(|item.track.artists|, k requires 0 <= k < |item.track.artists| => item.track.artists[k].id)
    case Unrecognized => []
  }

  /** How often `id` occurs in `xs`. */
  function CountIn(xs: seq<string>, id: string): nat
    decreases |xs|
  {
    if xs == [] then 0
    else CountIn(xs[..|xs| - 1], id) + (if xs[|xs| - 1] == id then 1 else 0)
  }

  lemma CountInStep(xs: seq<string>, k: int)
    requires 0 <= k < |xs|
    ensures forall id :: CountIn(xs[..k + 1], id) == CountIn(xs[..k], id) + (if xs[k] == id then 1 else 0)
  {
    assert xs[..k + 1][..k] == xs[..k];
  }

  /** The number of (song, artist occurrence) pairs naming `id`: a song that lists an artist twice counts twice. */
  function Occurrences(songs: seq<LikedSong>, id: string): nat
    decreases |songs|
  {
    if songs == [] then 0
    else Occurrences(songs[..|songs| - 1], id) + CountIn(SongArtists(songs[|songs| - 1]), id)
  }

  lemma {:induction false} CountInPositive(xs: seq<string>, id: string)
    ensures CountIn(xs, id) > 0 <==> id in xs
    decreases |xs|
  {
    if xs != [] {
      CountInPositive(xs[..|xs| - 1], id);
      assert xs == xs[..|xs| - 1] + [xs[|xs| - 1]];
    }
  }

  lemma {:induction false} OccurrencesAppend(a: seq<LikedSong>, b: seq<LikedSong>, id: string)
    ensures Occurrences(a + b, id) == Occurrences(a, id) + Occurrences(b, id)
    decreases |b|
  {
    if b != [] {
      assert (a + b)[..|a + b| - 1] == a + b[..|b| - 1];
      assert (a + b)[|a + b| - 1] == b[|b| - 1];
      OccurrencesAppend(a, b[..|b| - 1], id);
    } else {
      assert a + b == a;
    }
  }

  lemma OccurrencesSingle(song: LikedSong, id: string)
    ensures Occurrences([song], id) == CountIn(SongArtists(song), id)
  {
    assert [song][..0] == [];
  }

  /** The counts do not depend on the order of the liked songs. */
  lemma {:induction false} OccurrencesPermutation(a: seq<LikedSong>, b: seq<LikedSong>, id: string)
    requires multiset(a) == multiset(b)
    ensures Occurrences(a, id) == Occurrences(b, id)
    decreases |a|
  {
    if a != [] {
      var x := a[0];
      assert x in multiset(b);
      var k :| 0 <= k < |b| && b[k] == x;
      var rest := b[..k] + b[k + 1..];
      assert b == b[..k] + [x] + b[k + 1..];
      assert a == [x] + a[1..];
      assert multiset(a) == multiset{x} + multiset(a[1..]);
      assert multiset(b) == multiset(b[..k]) + multiset{x} + multiset(b[k + 1..]);
      assert multiset(rest) == multiset(b[..k]) + multiset(b[k + 1..]);
      assert multiset(a[1..]) == multiset(a) - multiset{x};
      assert multiset(rest) == multiset(b) - multiset{x};
      OccurrencesPermutation(a[1..], rest, id);
      OccurrencesAppend([x], a[1..], id);
      OccurrencesAppend(b[..k] + [x], b[k + 1..], id);
      OccurrencesAppend(b[..k], [x], id);
      OccurrencesAppend(b[..k], b[k + 1..], id);
    }
  }

  /** Every artist ID the songs list, song by song, in list order. */
  function Stream(songs: seq<LikedSong>): seq<string>
    decreases |songs|
  {
    if songs == [] then [] else Stream(songs[..|songs| - 1]) + SongArtists(songs[|songs| - 1])
  }

  /** The elements of `xs` that are in `keep`, each once, in the order of their first occurrence. */
  function FirstSeen(xs: seq<string>, keep: set<string>): seq<string>
    decreases |xs|
  {
    if xs == [] then []
    else
      var d := FirstSeen(xs[..|xs| - 1], keep);
      var x := xs[|xs| - 1];
      if x in keep && x !in d then d + [x] else d
  }

  /** `FirstSeen` keeps each element of `keep` that occurs in `xs`, once, and nothing else. */
  lemma {:induction false} FirstSeenMembers(xs: seq<string>, keep: set<string>)
    ensures NoDup(FirstSeen(xs, keep))
    ensures forall x :: x in FirstSeen(xs, keep) <==> x in keep && x in xs
    decreases |xs|
  {
    if xs != [] {
      var init := xs[..|xs| - 1];
      FirstSeenMembers(init, keep);
      assert xs == init + [xs[|xs| - 1]];
    }
  }

  /** The elements of `d` occur in `xs` for the first time in the order they have in `d`. */
  predicate InFirstSeenOrder(d: seq<string>, xs: seq<string>) {
    forall a, b :: 0 <= a < b < |d| ==> IndexOf(xs, d[a]) < IndexOf(xs, d[b])
  }

  /** `FirstSeen` lists the kept elements in the order in which `xs` first mentions them. */
  lemma {:induction false} FirstSeenOrder(xs: seq<string>, keep: set<string>)
    ensures InFirstSeenOrder(FirstSeen(xs, keep), xs)
    decreases |xs|
  {
    if xs != [] {
      var init := xs[..|xs| - 1];
      FirstSeenOrder(init, keep);
      FirstSeenMembers(init, keep);
      assert xs == init + [xs[|xs| - 1]];
      FirstSeenOrderSnoc(init, xs[|xs| - 1], keep);
    }
  }

  /** One more element keeps the first-seen order. */
  lemma FirstSeenOrderSnoc(init: seq<string>, x: string, keep: set<string>)
    requires forall y :: y in FirstSeen(init, keep) <==> y in keep && y in init
    requires InFirstSeenOrder(FirstSeen(init, keep), init)
    ensures InFirstSeenOrder(FirstSeen(init + [x], keep), init + [x])
  {
    var xs := init + [x];
    assert xs[..|xs| - 1] == init;
    var d0 := FirstSeen(init, keep);
    var d := FirstSeen(xs, keep);
    forall a, b | 0 <= a < b < |d|
      ensures IndexOf(xs, d[a]) < IndexOf(xs, d[b])
    {
      assert d[a] == d0[a] && d0[a] in d0;
      IndexOfSnoc(init, x, d[a]);
      IndexOfSnoc(init, x, d[b]);
      if b < |d0| {
        assert d[b] == d0[b] && d0[b] in d0;
      } else {
        assert d == d0 + [x] && x !in init;
      }
    }
  }

  /** One more element of `ys` seen after `xs`. */
  lemma FirstSeenStep(xs: seq<string>, ys: seq<string>, k: int, keep: set<string>)
    requires 0 <= k < |ys|
    ensures FirstSeen(xs + ys[..k + 1], keep) ==
              var d := FirstSeen(xs + ys[..k], keep);
              if ys[k] in keep && ys[k] !in d then d + [ys[k]] else d
  {
    var zs := xs + ys[..k + 1];
    assert zs[..|zs| - 1] == xs + ys[..k];
    assert zs[|zs| - 1] == ys[k];
  }

  /** The stream of the first `i + 1` songs extends that of the first `i`. */
  lemma StreamStep(songs: seq<LikedSong>, i: int)
    requires 0 <= i < |songs|
    ensures Stream(songs[..i + 1]) == Stream(songs[..i]) + SongArtists(songs[i])
  {
    assert songs[..i + 1][..i] == songs[..i];
  }

  /**
   * The counting loop of `matchArtists`, also exposed as `countSongsPerArtist`:
   * every catalog artist named by some song gets the number of its occurrences,
   * and no other key is created. `order` is the key order of the resulting
   * `Map`: each key where a song first names it, earlier songs and earlier
   * positions within a song first.
   */
  method CountSongsPerArtist(songs: seq<LikedSong>, catalog: set<string>)
    returns (order: seq<string>, counts: map<string, nat>)
    ensures forall id :: id in counts <==> id in catalog && Occurrences(songs, id) > 0
    ensures forall id :: id in counts ==> counts[id] == Occurrences(songs, id)
    ensures NoDup(order) && forall id :: id in order <==> id in counts
    ensures order == FirstSeen(Stream(songs), catalog)
    ensures forall a, b :: 0 <= a < b < |order| ==> IndexOf(Stream(songs), order[a]) < IndexOf(Stream(songs), order[b])
  {
    order, counts := [], map[];
    assert songs[..0] == [];
    for i := 0 to |songs|
      invariant forall id :: id in counts <==> id in catalog && Occurrences(songs[..i], id) > 0
      invariant forall id :: id in counts ==> counts[id] == Occurrences(songs[..i], id)
      invariant NoDup(order) && forall id :: id in order <==> id in counts
      invariant order == FirstSeen(Stream(songs[..i]), catalog)
    {
      order, counts := CountSong(songs, i, catalog, order, counts);
    }
    assert songs[..|songs|] == songs;
    FirstSeenOrder(Stream(songs), catalog);
  }

  /** One pass of the counting loop of `matchArtists`: the artists of `songs[i]`, in order. */
  method CountSong(songs: seq<LikedSong>, i: nat, catalog: set<string>, order0: seq<string>, counts0: map<string, nat>)
    returns (order: seq<string>, counts: map<string, nat>)
    requires i < |songs|
    requires forall id :: id in counts0 <==> id in catalog && Occurrences(songs[..i], id) > 0
    requires forall id :: id in counts0 ==> counts0[id] == Occurrences(songs[..i], id)
    requires NoDup(order0) && forall id :: id in order0 <==> id in counts0
    requires order0 == FirstSeen(Stream(songs[..i]), catalog)
    ensures forall id :: id in counts <==> id in catalog && Occurrences(songs[..i + 1], id) > 0
    ensures forall id :: id in counts ==> counts[id] == Occurrences(songs[..i + 1], id)
    ensures NoDup(order) && forall id :: id in order <==> id in counts
    ensures order == FirstSeen(Stream(songs[..i + 1]), catalog)
  {
    order, counts := order0, counts0;
    var songArtists := SongArtists(songs[i]);
    ghost var seen := Stream(songs[..i]);
    assert seen + songArtists[..0] == seen;
    for k := 0 to |songArtists|
      invariant forall id :: id in counts <==>
                  id in catalog && Occurrences(songs[..i], id) + CountIn(songArtists[..k], id) > 0
      invariant forall id :: id in counts ==>
                  counts[id] == Occurrences(songs[..i], id) + CountIn(songArtists[..k], id)
      invariant NoDup(order) && forall id :: id in order <==> id in counts
      invariant order == FirstSeen(seen + songArtists[..k], catalog)
    {
      order, counts := CountArtist(songs, i, k, catalog, order, counts);
    }
    assert songArtists[..|songArtists|] == songArtists;
    assert songs[..i + 1][..i] == songs[..i];
    StreamStep(songs, i);
  }

  /** One artist of `songs[i]` in the counting loop: a catalog artist's count goes up by one, a new key goes last. */
  method CountArtist(songs: seq<LikedSong>, i: nat, k: nat, catalog: set<string>, order0: seq<string>, counts0: map<string, nat>)
    returns (order: seq<string>, counts: map<string, nat>)
    requires i < |songs| && k < |SongArtists(songs[i])|
    requires forall id :: id in counts0 <==>
               id in catalog && Occurrences(songs[..i], id) + CountIn(SongArtists(songs[i])[..k], id) > 0
    requires forall id :: id in counts0 ==>
               counts0[id] == Occurrences(songs[..i], id) + CountIn(SongArtists(songs[i])[..k], id)
    requires NoDup(order0) && forall id :: id in order0 <==> id in counts0
    requires order0 == FirstSeen(Stream(songs[..i]) + SongArtists(songs[i])[..k], catalog)
    ensures forall id :: id in counts <==>
              id in catalog && Occurrences(songs[..i], id) + CountIn(SongArtists(songs[i])[..k + 1], id) > 0
    ensures forall id :: id in counts ==>
              counts[id] == Occurrences(songs[..i], id) + CountIn(SongArtists(songs[i])[..k + 1], id)
    ensures NoDup(order) && forall id :: id in order <==> id in counts
    ensures order == FirstSeen(Stream(songs[..i]) + SongArtists(songs[i])[..k + 1], catalog)
  {
    order, counts := order0, counts0;
    var songArtists := SongArtists(songs[i]);
    CountInStep(songArtists, k);
    var artistId := songArtists[k];
    if artistId in catalog {
      var currentCount := if artistId in counts then counts[artistId] else 0;
      if artistId !in counts {
        order := order + [artistId];
      }
      counts := counts[artistId := currentCount + 1];
    }
    assert order == FirstSeen(Stream(songs[..i]) + SongArtists(songs[i])[..k + 1], catalog) by {
      FirstSeenStep(Stream(songs[..i]), songArtists, k, catalog);
    }
  }

  /** The result for one counted artist, names falling back to each other and then to "Unknown Artist". */
  function ResultFor(id: string, count: nat, details: map<string, ArtistDetail>): (m: MatchResult)
    ensures m.spotifyId == id && m.likedSongs == count
    ensures m.name != "" && m.originalName != "" && m.matchedName != ""
    ensures id !in details ==> m.name == m.originalName == m.matchedName == UNKNOWN_ARTIST
    ensures id in details && details[id].originalName != "" ==> m.originalName == details[id].originalName
    ensures id in details && details[id].matchedName != "" ==> m.matchedName == details[id].matchedName && m.name == details[id].matchedName
    ensures m.name == (if id in details && details[id].matchedName != "" then details[id].matchedName else UNKNOWN_ARTIST)
    ensures var d := if id in details then details[id] else ArtistDetail("", "", "");
      m.originalName == (if d.originalName != "" then d.originalName else if d.matchedName != "" then d.matchedName else UNKNOWN_ARTIST)
    ensures var d := if id in details then details[id] else ArtistDetail("", "", "");
      m.matchedName == (if d.matchedName != "" then d.matchedName else if d.originalName != "" then d.originalName else UNKNOWN_ARTIST)
  {
    var d := if id in details then details[id] else ArtistDetail("", "", "");
    MatchResult(
      id,
      Or(d.matchedName, UNKNOWN_ARTIST),
      Or(Or(d.originalName, d.matchedName), UNKNOWN_ARTIST),
      Or(Or(d.matchedName, d.originalName), UNKNOWN_ARTIST),
      count)
  }

  /** The name ties are broken on: `originalName || name`. */
  function NameKey(m: MatchResult): string {
    Or(m.originalName, m.name)
  }

  /** `x.localeCompare(y)` as character-code order: negative, zero or positive. */
  function LocaleCompare(x: string, y: string): int {
    if x == y then 0 else if StrLe(x, y) then -1 else 1
  }

  /** The comparator given to `sort`: the count difference, and for equal counts the names compared. */
  function CompareRank(a: MatchResult, b: MatchResult): int {
    if b.likedSongs != a.likedSongs then b.likedSongs - a.likedSongs
    else LocaleCompare(NameKey(a), NameKey(b))
  }

  /** `a` may come before `b` when the comparator does not put it after: more liked songs first, equal counts by name. */
  predicate RankLe(a: MatchResult, b: MatchResult): (first: bool)
    ensures first <==> a.likedSongs > b.likedSongs || (a.likedSongs == b.likedSongs && StrLe(NameKey(a), NameKey(b)))
  {
    StrLeTotal(NameKey(a), NameKey(a));
    CompareRank(a, b) <= 0
  }

  lemma RankLeIsTotalPreorder()
    ensures ArraySort.TotalPreorder(RankLe)
  {
    forall x, y ensures RankLe(x, y) || RankLe(y, x) {
      StrLeTotal(NameKey(x), NameKey(y));
    }
    forall x, y, z | RankLe(x, y) && RankLe(y, z) ensures RankLe(x, z) {
      if x.likedSongs == y.likedSongs == z.likedSongs {
        StrLeTransitive(NameKey(x), NameKey(y), NameKey(z));
      }
    }
  }

  /** `rankArtists`: sort in place by count descending, equal counts by name ascending. */
  method RankArtists(matches: array<MatchResult>)
    modifies matches
    ensures ArraySort.SortedBy(matches[..], RankLe)
    ensures multiset(matches[..]) == multiset(old(matches[..]))
  {
    if matches.Length == 0 {
      return;
    }
    RankLeIsTotalPreorder();
    ArraySort.Sort(matches, RankLe);
  }

  /** In a ranked list, equal counts appear in name order, and a higher count never follows a lower one. */
  lemma RankedOrder(ms: seq<MatchResult>, i: int, j: int)
    requires ArraySort.SortedBy(ms, RankLe)
    requires 0 <= i < j < |ms|
    ensures ms[i].likedSongs >= ms[j].likedSongs
    ensures ms[i].likedSongs == ms[j].likedSongs ==> StrLe(NameKey(ms[i]), NameKey(ms[j]))
  {
  }

  /** No two results are for the same artist. */
  predicate DistinctIds(ms: seq<MatchResult>) {
    forall i, j :: 0 <= i < j < |ms| ==> ms[i].spotifyId != ms[j].spotifyId
  }

  /** The loop over the counted entries that builds one result per key, in key order. */
  method BuildMatches(order: seq<string>, counts: map<string, nat>, details: map<string, ArtistDetail>)
    returns (matches: seq<MatchResult>)
    requires forall id :: id in order ==> id in counts
    ensures |matches| == |order|
    ensures forall i :: 0 <= i < |order| ==> matches[i] == ResultFor(order[i], counts[order[i]], details)
    ensures NoDup(order) ==> DistinctIds(matches)
  {
    matches := [];
    for k := 0 to |order|
      invariant |matches| == k
      invariant forall i :: 0 <= i < k ==> matches[i] == ResultFor(order[i], counts[order[i]], details)
    {
      var spotifyId := order[k];
      matches := matches + [ResultFor(spotifyId, counts[spotifyId], details)];
    }
  }

  /**
   * `matchArtists`: one result per catalog artist that some liked song lists,
   * carrying its occurrence count and catalog names, ranked.
   */
  method MatchArtists(songs: seq<LikedSong>, festival: FestivalData) returns (ranked: seq<MatchResult>)
    ensures festival.artistIds == [] ==> ranked == []
    ensures forall m :: m in ranked ==>
              m.spotifyId in festival.artistIds &&
              m.likedSongs == Occurrences(songs, m.spotifyId) >= 1 &&
              m == ResultFor(m.spotifyId, m.likedSongs, festival.artistDetails)
    ensures forall id :: id in festival.artistIds && Occurrences(songs, id) > 0 ==>
              exists m :: m in ranked && m.spotifyId == id
    ensures DistinctIds(ranked)
    ensures ArraySort.SortedBy(ranked, RankLe)
  {
    if festival.artistIds == [] {
      return [];
    }
    var festivalArtistIdsSet := set id | id in festival.artistIds;
    var order, artistCounts := CountSongsPerArtist(songs, festivalArtistIdsSet);
    var matches := BuildMatches(order, artistCounts, festival.artistDetails);
    BuiltResults(songs, festival, order, artistCounts, matches);
    var a := new MatchResult[|matches|](i requires 0 <= i < |matches| => matches[i]);
    assert a[..] == matches;
    RankArtists(a);
    ranked := a[..];
    PermutationSameElements(ranked, matches);
    PermutationKeepsDistinctIds(ranked, matches);
  }

  /** Before ranking, each built result is a counted catalog artist with its occurrence count. */
  lemma BuiltResults(songs: seq<LikedSong>, festival: FestivalData, order: seq<string>, counts: map<string, nat>,
                     matches: seq<MatchResult>)
    requires forall id :: id in counts <==> id in festival.artistIds && Occurrences(songs, id) > 0
    requires forall id :: id in counts ==> counts[id] == Occurrences(songs, id)
    requires forall id :: id in order <==> id in counts
    requires |matches| == |order|
    requires forall i :: 0 <= i < |order| ==> matches[i] == ResultFor(order[i], counts[order[i]], festival.artistDetails)
    ensures forall m :: m in matches ==>
              m.spotifyId in festival.artistIds &&
              m.likedSongs == Occurrences(songs, m.spotifyId) >= 1 &&
              m == ResultFor(m.spotifyId, m.likedSongs, festival.artistDetails)
    ensures forall id :: id in festival.artistIds && Occurrences(songs, id) > 0 ==>
              exists m :: m in matches && m.spotifyId == id
  {
    forall id | id in festival.artistIds && Occurrences(songs, id) > 0
      ensures exists m :: m in matches && m.spotifyId == id
    {
      var p :| 0 <= p < |order| && order[p] == id;
      assert matches[p] in matches;
    }
    forall m | m in matches
      ensures m.spotifyId in festival.artistIds
      ensures m.likedSongs == Occurrences(songs, m.spotifyId) >= 1
      ensures m == ResultFor(m.spotifyId, m.likedSongs, festival.artistDetails)
    {
      var i :| 0 <= i < |matches| && matches[i] == m;
      assert order[i] in counts;
    }
  }

  lemma PermutationSameElements<T>(r: seq<T>, m: seq<T>)
    requires multiset(r) == multiset(m)
    ensures forall x :: x in r <==> x in m
  {
    forall x ensures x in r <==> x in m {
      assert x in r <==> x in multiset(r);
      assert x in m <==> x in multiset(m);
    }
  }

  lemma PermutationKeepsDistinctIds(r: seq<MatchResult>, m: seq<MatchResult>)
    requires multiset(r) == multiset(m) && DistinctIds(m)
    ensures DistinctIds(r)
  {
    assert NoDup(m);
    PermutationSameElements(r, m);
    forall i, j | 0 <= i < j < |r| ensures r[i].spotifyId != r[j].spotifyId {
      DistinctPositions(r, m, i, j);
      assert r[i] in m && r[j] in m;
      var p :| 0 <= p < |m| && r[i] == m[p];
      var q :| 0 <= q < |m| && r[j] == m[q];
      assert p != q;
    }
  }

  lemma {:induction false} NoDupCountsOnce<T>(m: seq<T>, x: T)
    requires NoDup(m)
    ensures multiset(m)[x] <= 1
    decreases |m|
  {
    if m != [] {
      assert m == [m[0]] + m[1..];
      NoDupCountsOnce(m[1..], x);
    }
  }

  lemma RepeatedCountsTwice<T>(r: seq<T>, i: int, j: int)
    requires 0 <= i < j < |r| && r[i] == r[j]
    ensures multiset(r)[r[i]] >= 2
  {
    assert r == r[..i] + [r[i]] + r[i + 1..j] + [r[j]] + r[j + 1..];
  }

  /** In a permutation of a duplicate-free sequence, two positions never hold the same element. */
  lemma DistinctPositions<T>(r: seq<T>, m: seq<T>, i: int, j: int)
    requires multiset(r) == multiset(m) && NoDup(m)
    requires 0 <= i < j < |r|
    ensures r[i] != r[j]
  {
    if r[i] == r[j] {
      RepeatedCountsTwice(r, i, j);
      NoDupCountsOnce(m, r[i]);
    }
  }
}
