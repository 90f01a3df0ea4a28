/**
 * The read-only queries of the database layer: song search, rankings,
 * top songs, recent comparisons, the comparison count and the summary
 * statistics. Each is a function of the tables it reads; rows come back
 * in table (row id) order unless the query sorts them.
 */
module Queries {
  import opened Wrappers
  import opened Text
  import opened Seqs
  import opened Models

  // ---------------------------------------------------------------------
  // search_songs
  // ---------------------------------------------------------------------

  /** The optional filters of `search_songs`. */
  datatype SearchFilter = SearchFilter(
    query: Option<string>,
    language: Option<string>,
    category: Option<string>,
    isOriginal: Option<bool>,
    minRating: Option<real>,
    maxRating: Option<real>)

  /** `canonical_name ILIKE '%query%'`: both sides lower-cased, then SQL `LIKE`. */
  predicate NameMatches(name: string, query: string)
  {
    LikeMatch(Lower(name), "%" + Lower(query) + "%")
  }

  /** A song passes every filter that was supplied. */
  predicate PassesSearch(s: Song, f: SearchFilter)
  {
    && (Given(f.query) ==> NameMatches(s.canonicalName, f.query.value))
    && (Given(f.language) ==> s.language == f.language.value)
    && (Given(f.category) ==> s.category == f.category.value)
    && (f.isOriginal.Some? ==> s.isOriginal == f.isOriginal.value)
    && (f.minRating.Some? ==> s.rating >= f.minRating.value)
    && (f.maxRating.Some? ==> s.rating <= f.maxRating.value)
  }

  /** `search_songs`: exactly the songs passing every supplied filter, each as often as stored. */
  function SearchSongs(songs: seq<Song>, f: SearchFilter): (r: seq<Song>)
    ensures forall i :: 0 <= i < |r| ==> PassesSearch(r[i], f)
    ensures forall x :: multiset(r)[x] == if PassesSearch(x, f) then multiset(songs)[x] else 0
  {
    Filter(songs, (x: Song) => PassesSearch(x, f))
  }

  /** With no filter at all, every song is returned. */
  lemma SearchWithoutFilters(songs: seq<Song>)
    ensures SearchSongs(songs, SearchFilter(None, None, None, None, None, None)) == songs
  {
    assert forall x :: PassesSearch(x, SearchFilter(None, None, None, None, None, None));
    SearchAllPass(songs, SearchFilter(None, None, None, None, None, None));
  }

  /** When every song passes, filtering returns the table unchanged. */
  lemma {:induction false} SearchAllPass(songs: seq<Song>, f: SearchFilter)
    requires forall x :: PassesSearch(x, f)
    ensures SearchSongs(songs, f) == songs
  {
    if songs != [] {
      SearchAllPass(songs[1..], f);
    }
  }

  /** Lower-casing never creates a `LIKE` wildcard. */
  lemma {:induction false} LowerKeepsNoWildcard(q: string)
    requires NoWildcard(q)
    ensures NoWildcard(Lower(q))
  {
  }

  /** A query without `%` or `_` matches exactly the names containing it, ignoring ASCII case. */
  lemma PlainQueryIsSubstring(name: string, query: string)
    requires NoWildcard(query)
    ensures NameMatches(name, query) <==> Contains(Lower(name), Lower(query))
  {
    LowerKeepsNoWildcard(query);
    LikeSubstring(Lower(name), Lower(query));
  }

  // ---------------------------------------------------------------------
  // get_rankings / get_top_songs
  // ---------------------------------------------------------------------

  /** The song columns a ranking can be sorted by: every column of the song record. */
  datatype SortField =
    | SongIdColumn | NameColumn | MusicUrlColumn | VideoIdColumn | YoutubeUrlColumn | ThumbnailColumn
    | IsOriginalColumn | OriginalIdColumn | VariantTypeColumn | LanguageColumn
    | DurationMsColumn | DurationSecondsColumn | CategoryColumn | ArtistColumn
    | RatingColumn | RdColumn | VolatilityColumn | CiLowerColumn | CiUpperColumn
    | GamesColumn | WinsColumn | LossesColumn | DrawsColumn
    | LastComparedColumn | IsLikedColumn | IsFamiliarColumn

  /** The column's attribute name on the song record. */
  function ColumnName(f: SortField): string
  {
    match f
    case SongIdColumn => "song_id"
    case NameColumn => "canonical_name"
    case MusicUrlColumn => "youtube_music_url"
    case VideoIdColumn => "youtube_video_id"
    case YoutubeUrlColumn => "youtube_url"
    case ThumbnailColumn => "thumbnail_url"
    case IsOriginalColumn => "is_original"
    case OriginalIdColumn => "original_song_id"
    case VariantTypeColumn => "variant_type"
    case LanguageColumn => "language"
    case DurationMsColumn => "duration_ms"
    case DurationSecondsColumn => "duration_seconds"
    case CategoryColumn => "category"
    case ArtistColumn => "artist_name"
    case RatingColumn => "rating"
    case RdColumn => "rating_deviation"
    case VolatilityColumn => "volatility"
    case CiLowerColumn => "confidence_interval_lower"
    case CiUpperColumn => "confidence_interval_upper"
    case GamesColumn => "games_played"
    case WinsColumn => "wins"
    case LossesColumn => "losses"
    case DrawsColumn => "draws"
    case LastComparedColumn => "last_compared"
    case IsLikedColumn => "is_liked"
    case IsFamiliarColumn => "is_familiar"
  }

  /** All the columns, rating first. */
  const Columns: seq<SortField> := [
    RatingColumn, DurationSecondsColumn, SongIdColumn, NameColumn,
    MusicUrlColumn, VideoIdColumn, YoutubeUrlColumn, ThumbnailColumn,
    IsOriginalColumn, OriginalIdColumn, VariantTypeColumn, LanguageColumn,
    DurationMsColumn, CategoryColumn, ArtistColumn, RdColumn,
    VolatilityColumn, CiLowerColumn, CiUpperColumn, GamesColumn,
    WinsColumn, LossesColumn, DrawsColumn, LastComparedColumn,
    IsLikedColumn, IsFamiliarColumn]

  /** The names of all the columns. */
  const ColumnNames: set<string> := set c | c in Columns :: ColumnName(c)

  /** Every column is listed, so every column's name is a column name. */
  lemma ColumnsListed()
    ensures forall c :: c in Columns
    ensures forall c :: ColumnName(c) in ColumnNames
  {
    forall c ensures c in Columns {
      match c {
        case RatingColumn =>
        case DurationSecondsColumn =>
        case SongIdColumn =>
        case NameColumn =>
        case MusicUrlColumn =>
        case VideoIdColumn =>
        case YoutubeUrlColumn =>
        case ThumbnailColumn =>
        case IsOriginalColumn =>
        case OriginalIdColumn =>
        case VariantTypeColumn =>
        case LanguageColumn =>
        case DurationMsColumn =>
        case CategoryColumn =>
        case ArtistColumn =>
        case RdColumn =>
        case VolatilityColumn =>
        case CiLowerColumn =>
        case CiUpperColumn =>
        case GamesColumn =>
        case WinsColumn =>
        case LossesColumn =>
        case DrawsColumn =>
        case LastComparedColumn =>
        case IsLikedColumn =>
        case IsFamiliarColumn =>
      }
    }
  }

  /** The first of `cols` whose name is `name`, if any. */
  function FindColumn(name: string, cols: seq<SortField>): (r: Option<SortField>)
    ensures r.Some? ==> r.value in cols && ColumnName(r.value) == name
    ensures r.None? <==> forall c :: c in cols ==> ColumnName(c) != name
    decreases |cols|
  {
    if cols == [] then None
    else if ColumnName(cols[0]) == name then Some(cols[0])
    else FindColumn(name, cols[1..])
  }

  /** A name of some column selects that column; any other name selects rating. */
  lemma ParseSortFieldChoice(name: string)
    ensures name in ColumnNames ==> ColumnName(ParseSortField(name)) == name
    ensures name !in ColumnNames ==> ParseSortField(name) == RatingColumn
  {
    ColumnsListed();
  }

  /**
   * The attributes of the song class that are not columns of the song
   * record here: the enrichment and bookkeeping columns, the
   * relationships, the table name and the printing method. Sorting by one
   * of them is not part of this model. Attributes that every mapped class
   * inherits are not listed.
   */
  const UnmodelledAttributes: set<string> := {
    "release_date", "song_type", "featured_artists", "spotify_id", "musicbrainz_id",
    "valence", "energy", "danceability", "acousticness", "instrumentalness", "speechiness",
    "liveness", "tempo", "loudness", "key", "mode", "time_signature", "popularity",
    "notes", "created_at", "updated_at",
    "original", "variants", "album_appearances", "comparisons_as_a", "comparisons_as_b",
    "__tablename__", "__repr__"}

  /** `sort_by` names an attribute of the song class. */
  predicate IsSongAttribute(name: string)
  {
    name in ColumnNames || name in UnmodelledAttributes
  }

  /**
   * `getattr(Song, sort_by, Song.rating)`: the named column, or rating for
   * a name that is no attribute of the song class.
   */
  function ParseSortField(name: string): (f: SortField)
    ensures ColumnName(f) == name || (f == RatingColumn && name !in ColumnNames)
  {
    match FindColumn(name, Columns)
    case Some(c) => c
    case None => RatingColumn
  }

  /** "rating" names the rating column. */
  lemma ParseRating()
    ensures ParseSortField("rating") == RatingColumn
  {
  }

  /** A sort key: NULL before numbers, numbers before texts, as in SQLite; a boolean is 0 or 1. */
  datatype Key = Null | Num(x: real) | Str(t: string)

  function IntKey(v: Option<int>): Key
  {
    if v.Some? then Num(v.value as real) else Null
  }

  function RealKey(v: Option<real>): Key
  {
    if v.Some? then Num(v.value) else Null
  }

  function TextKey(v: Option<string>): Key
  {
    if v.Some? then Str(v.value) else Null
  }

  function BoolKey(b: bool): Key
  {
    if b then Num(1.0) else Num(0.0)
  }

  function KeyOf(s: Song, f: SortField): Key
  {
    match f
    case SongIdColumn => Num(s.songId as real)
    case NameColumn => Str(s.canonicalName)
    case MusicUrlColumn => TextKey(s.youtubeMusicUrl)
    case VideoIdColumn => TextKey(s.youtubeVideoId)
    case YoutubeUrlColumn => TextKey(s.youtubeUrl)
    case ThumbnailColumn => TextKey(s.thumbnailUrl)
    case IsOriginalColumn => BoolKey(s.isOriginal)
    case OriginalIdColumn => IntKey(s.originalSongId)
    case VariantTypeColumn => TextKey(s.variantType)
    case LanguageColumn => Str(s.language)
    case DurationMsColumn => IntKey(s.durationMs)
    case DurationSecondsColumn => IntKey(s.durationSeconds)
    case CategoryColumn => Str(s.category)
    case ArtistColumn => Str(s.artistName)
    case RatingColumn => Num(s.rating)
    case RdColumn => Num(s.ratingDeviation)
    case VolatilityColumn => Num(s.volatility)
    case CiLowerColumn => RealKey(s.ciLower)
    case CiUpperColumn => RealKey(s.ciUpper)
    case GamesColumn => Num(s.gamesPlayed as real)
    case WinsColumn => Num(s.wins as real)
    case LossesColumn => Num(s.losses as real)
    case DrawsColumn => Num(s.draws as real)
    case LastComparedColumn => IntKey(s.lastCompared)
    case IsLikedColumn => BoolKey(s.isLiked)
    case IsFamiliarColumn => BoolKey(s.isFamiliar)
  }

  /** SQLite's order on keys; texts compare by code point (the binary collation). */
  predicate KeyLe(a: Key, b: Key)
  {
    match (a, b)
    case (Null, _) => true
    case (_, Null) => false
    case (Num(x), Num(y)) => x <= y
    case (Num(_), Str(_)) => true
    case (Str(_), Num(_)) => false
    case (Str(s), Str(t)) => StrLe(s, t)
  }

  /** The order of a ranking: ascending or descending on the column's key. */
  function RankOrder(f: SortField, ascending: bool): (Song, Song) -> bool
  {
    (a: Song, b: Song) => if ascending then KeyLe(KeyOf(a, f), KeyOf(b, f)) else KeyLe(KeyOf(b, f), KeyOf(a, f))
  }

  /** Every ranking order is a total preorder, so sorting by it is well defined. */
  lemma RankOrderIsPreorder(f: SortField, ascending: bool)
    ensures Total(RankOrder(f, ascending)) && Transitive(RankOrder(f, ascending))
  {
    var le := RankOrder(f, ascending);
    forall a, b ensures le(a, b) || le(b, a) {
      KeyLeTotal(KeyOf(a, f), KeyOf(b, f));
    }
    forall a, b, c | le(a, b) && le(b, c) ensures le(a, c) {
      if ascending {
        KeyLeTransitive(KeyOf(a, f), KeyOf(b, f), KeyOf(c, f));
      } else {
        KeyLeTransitive(KeyOf(c, f), KeyOf(b, f), KeyOf(a, f));
      }
    }
  }

  lemma KeyLeTotal(a: Key, b: Key)
    ensures KeyLe(a, b) || KeyLe(b, a)
  {
    if a.Str? && b.Str? {
      StrLeTotal(a.t, b.t);
    }
  }

  lemma KeyLeTransitive(a: Key, b: Key, c: Key)
    requires KeyLe(a, b) && KeyLe(b, c)
    ensures KeyLe(a, c)
  {
    if a.Str? && b.Str? && c.Str? {
      StrLeTransitive(a.t, b.t, c.t);
    }
  }

  /** Keys are totally preordered: NULL first, then numbers, then texts, each in its own order. */
  lemma KeyLeIsPreorder()
    ensures forall a, b :: KeyLe(a, b) || KeyLe(b, a)
    ensures forall a, b, c :: KeyLe(a, b) && KeyLe(b, c) ==> KeyLe(a, c)
  {
    forall a: Key, b: Key ensures KeyLe(a, b) || KeyLe(b, a) {
      KeyLeTotal(a, b);
    }
    forall a: Key, b: Key, c: Key | KeyLe(a, b) && KeyLe(b, c) ensures KeyLe(a, c) {
      KeyLeTransitive(a, b, c);
    }
  }

  /** A column holding NULL ranks first ascending and last descending. */
  lemma NullRanksFirst(a: Song, b: Song, f: SortField)
    requires KeyOf(a, f) == Null && KeyOf(b, f) != Null
    ensures RankOrder(f, true)(a, b) && !RankOrder(f, true)(b, a)
    ensures RankOrder(f, false)(b, a) && !RankOrder(f, false)(a, b)
  {
  }

  /** The filters of `get_rankings`. */
  datatype RankingFilter = RankingFilter(
    language: Option<string>,
    category: Option<string>,
    includeVariants: bool,
    minGames: int)

  /** Originals only without variants; language and category when given; a game floor when positive. */
  predicate PassesRanking(s: Song, f: RankingFilter)
  {
    && (!f.includeVariants ==> s.isOriginal)
    && (Given(f.language) ==> s.language == f.language.value)
    && (Given(f.category) ==> s.category == f.category.value)
    && (f.minGames > 0 ==> s.gamesPlayed >= f.minGames)
  }

  /**
   * `get_rankings`: exactly the songs passing every filter, ordered on the
   * named column (rating for a name that is no attribute of the song class).
   * Ties keep table order.
   */
  function GetRankings(songs: seq<Song>, sortBy: string, ascending: bool, f: RankingFilter): (r: seq<Song>)
    ensures SortedBy(r, RankOrder(ParseSortField(sortBy), ascending))
    ensures forall i :: 0 <= i < |r| ==> PassesRanking(r[i], f)
    ensures forall x :: multiset(r)[x] == if PassesRanking(x, f) then multiset(songs)[x] else 0
  {
    RankOrderIsPreorder(ParseSortField(sortBy), ascending);
    var kept := Filter(songs, (x: Song) => PassesRanking(x, f));
    var r := Sort(kept, RankOrder(ParseSortField(sortBy), ascending));
    assert forall i :: 0 <= i < |r| ==> r[i] in multiset(kept);
    r
  }

  /** A sort field that is no attribute of the song class ranks exactly as rating does. */
  lemma UnknownSortFieldIsRating(songs: seq<Song>, sortBy: string, ascending: bool, f: RankingFilter)
    requires !IsSongAttribute(sortBy)
    ensures GetRankings(songs, sortBy, ascending, f) == GetRankings(songs, "rating", ascending, f)
  {
    ParseSortFieldChoice(sortBy);
    ParseRating();
    assert ParseSortField(sortBy) == RatingColumn;
  }

  /** The filter of `get_top_songs`: all songs, variants included, with a game floor. */
  function TopFilter(minGames: int): RankingFilter
  {
    RankingFilter(None, None, true, minGames)
  }

  /** `get_top_songs`: the first `limit` songs of the descending-rating ranking. */
  function GetTopSongs(songs: seq<Song>, limit: int, minGames: int): (r: seq<Song>)
    ensures r == Prefix(GetRankings(songs, "rating", false, TopFilter(minGames)), limit)
    ensures limit >= 0 ==> |r| <= limit
    ensures forall i, j :: 0 <= i < j < |r| ==> r[i].rating >= r[j].rating
    ensures minGames > 0 ==> forall i :: 0 <= i < |r| ==> r[i].gamesPlayed >= minGames
  {
    var ranking := GetRankings(songs, "rating", false, TopFilter(minGames));
    ParseRating();
    RatingDescending(ranking);
    TopPrefix(ranking, limit, minGames);
    Prefix(ranking, limit)
  }

  /** A prefix of a descending, filtered ranking is itself descending and filtered. */
  lemma TopPrefix(ranking: seq<Song>, limit: int, minGames: int)
    requires forall i, j :: 0 <= i < j < |ranking| ==> ranking[i].rating >= ranking[j].rating
    requires forall i :: 0 <= i < |ranking| ==> PassesRanking(ranking[i], TopFilter(minGames))
    ensures var r := Prefix(ranking, limit);
      && (forall i, j :: 0 <= i < j < |r| ==> r[i].rating >= r[j].rating)
      && (minGames > 0 ==> forall i :: 0 <= i < |r| ==> r[i].gamesPlayed >= minGames)
  {
    var r := Prefix(ranking, limit);
    assert forall i :: 0 <= i < |r| ==> r[i] == ranking[i];
  }

  /** A ranking sorted by the descending-rating order has non-increasing ratings. */
  lemma RatingDescending(ranking: seq<Song>)
    requires SortedBy(ranking, RankOrder(RatingColumn, false))
    ensures forall i, j :: 0 <= i < j < |ranking| ==> ranking[i].rating >= ranking[j].rating
  {
    forall i, j | 0 <= i < j < |ranking| ensures ranking[i].rating >= ranking[j].rating {
      assert RankOrder(RatingColumn, false)(ranking[i], ranking[j]);
    }
  }

  /** No song left out of the top list outrates one in it. */
  lemma TopSongsOutrankTheRest(songs: seq<Song>, limit: int, minGames: int, i: nat, j: nat)
    requires i < |GetTopSongs(songs, limit, minGames)|
    requires |GetTopSongs(songs, limit, minGames)| <= j < |GetRankings(songs, "rating", false, TopFilter(minGames))|
    ensures GetTopSongs(songs, limit, minGames)[i].rating
         >= GetRankings(songs, "rating", false, TopFilter(minGames))[j].rating
  {
    var ranking := GetRankings(songs, "rating", false, TopFilter(minGames));
    ParseRating();
    assert GetTopSongs(songs, limit, minGames)[i] == ranking[i];
    assert RankOrder(RatingColumn, false)(ranking[i], ranking[j]);
  }

  // ---------------------------------------------------------------------
  // Comparisons
  // ---------------------------------------------------------------------

  /** A comparison that has not been undone. */
  predicate Live(c: Comparison)
  {
    !c.isUndone
  }

  /** `get_comparison_count`: the number of comparisons not undone. */
  function GetComparisonCount(comparisons: seq<Comparison>): (n: nat)
    ensures n <= |comparisons|
    ensures n == |Filter(comparisons, Live)|
  {
    CountFilter(comparisons, Live);
    Count(comparisons, Live)
  }

  /** Newest first. */
  function NewerFirst(): (Comparison, Comparison) -> bool
  {
    (a: Comparison, b: Comparison) => a.timestamp >= b.timestamp
  }

  /** Every comparison not undone, newest first; ties keep table order. */
  function LiveNewestFirst(comparisons: seq<Comparison>): (r: seq<Comparison>)
    ensures forall i :: 0 <= i < |r| ==> Live(r[i])
    ensures forall i, j :: 0 <= i < j < |r| ==> r[i].timestamp >= r[j].timestamp
    ensures multiset(r) == multiset(Filter(comparisons, Live))
    ensures |r| == GetComparisonCount(comparisons)
  {
    var live := Filter(comparisons, Live);
    NewerFirstIsPreorder();
    var sorted := Sort(live, NewerFirst());
    PermutationKeeps(live, sorted, Live);
    NewestFirstOrder(sorted);
    sorted
  }

  /**
   * `get_recent_comparisons`: the first `limit` comparisons not undone,
   * newest first. A negative `limit` is no limit, as in SQLite.
   */
  function GetRecentComparisons(comparisons: seq<Comparison>, limit: int): (r: seq<Comparison>)
    ensures |r| <= |LiveNewestFirst(comparisons)| && r == LiveNewestFirst(comparisons)[..|r|]
    ensures forall i :: 0 <= i < |r| ==> Live(r[i])
    ensures forall i, j :: 0 <= i < j < |r| ==> r[i].timestamp >= r[j].timestamp
    ensures limit >= 0 ==> |r| == if limit < GetComparisonCount(comparisons) then limit else GetComparisonCount(comparisons)
    ensures limit < 0 ==> |r| == GetComparisonCount(comparisons)
    ensures multiset(r) <= multiset(comparisons)
  {
    var sorted := LiveNewestFirst(comparisons);
    var r := if limit < 0 then sorted else Prefix(sorted, limit);
    assert r == sorted[..|r|];
    PrefixSubMultiset(sorted, |r|);
    FilterSubMultiset(comparisons, Live);
    assert multiset(r) <= multiset(sorted) <= multiset(comparisons);
    r
  }

  lemma NewerFirstIsPreorder()
    ensures Total(NewerFirst()) && Transitive(NewerFirst())
  {
  }

  /** A sequence sorted newest first has non-increasing timestamps. */
  lemma NewestFirstOrder(cs: seq<Comparison>)
    requires SortedBy(cs, NewerFirst())
    ensures forall i, j :: 0 <= i < j < |cs| ==> cs[i].timestamp >= cs[j].timestamp
  {
    forall i, j | 0 <= i < j < |cs| ensures cs[i].timestamp >= cs[j].timestamp {
      assert NewerFirst()(cs[i], cs[j]);
    }
  }

  /** A live comparison missing from the recent list is no newer than any listed one. */
  lemma RecentAreNewest(comparisons: seq<Comparison>, limit: int, c: Comparison, i: nat)
    requires c in comparisons && Live(c)
    requires c !in GetRecentComparisons(comparisons, limit)
    requires i < |GetRecentComparisons(comparisons, limit)|
    ensures GetRecentComparisons(comparisons, limit)[i].timestamp >= c.timestamp
  {
    var all := LiveNewestFirst(comparisons);
    var r := GetRecentComparisons(comparisons, limit);
    assert multiset(Filter(comparisons, Live))[c] > 0;
    assert c in multiset(all);
    var j :| 0 <= j < |all| && all[j] == c;
    assert r[i] == all[i];
  }

  // ---------------------------------------------------------------------
  // get_statistics
  // ---------------------------------------------------------------------

  /** The summary of `get_statistics` (values before rounding to one decimal). */
  datatype Statistics = Statistics(
    totalSongs: nat,
    totalOriginals: nat,
    totalVariants: int,
    totalComparisons: nat,
    avgRating: real,
    maxRating: real,
    minRating: real,
    languageBreakdown: map<string, nat>)

  predicate IsOriginal(s: Song) { s.isOriginal }

  predicate IsVariant(s: Song) { !s.isOriginal }

  /** Originals and variants partition the table. */
  lemma {:induction false} OriginalsAndVariants(songs: seq<Song>)
    ensures Count(songs, IsOriginal) + Count(songs, IsVariant) == |songs|
  {
    if songs != [] {
      OriginalsAndVariants(songs[1..]);
    }
  }

  function SumRatings(songs: seq<Song>): real
  {
    if songs == [] then 0.0 else songs[0].rating + SumRatings(songs[1..])
  }

  /** `MAX(rating)` of a non-empty table. */
  function MaxRating(songs: seq<Song>): (m: real)
    requires songs != []
    ensures forall i :: 0 <= i < |songs| ==> songs[i].rating <= m
    ensures exists i :: 0 <= i < |songs| && songs[i].rating == m
  {
    if |songs| == 1 then songs[0].rating
    else
      var m := MaxRating(songs[1..]);
      assert forall i :: 1 <= i < |songs| ==> songs[i] == songs[1..][i - 1];
      if songs[0].rating >= m then songs[0].rating else m
  }

  /** `MIN(rating)` of a non-empty table. */
  function MinRating(songs: seq<Song>): (m: real)
    requires songs != []
    ensures forall i :: 0 <= i < |songs| ==> m <= songs[i].rating
    ensures exists i :: 0 <= i < |songs| && songs[i].rating == m
  {
    if |songs| == 1 then songs[0].rating
    else
      var m := MinRating(songs[1..]);
      assert forall i :: 1 <= i < |songs| ==> songs[i] == songs[1..][i - 1];
      if songs[0].rating <= m then songs[0].rating else m
  }

  /** The sum of n ratings lies between n times a lower and n times an upper bound. */
  lemma {:induction false} SumBetween(songs: seq<Song>, lo: real, hi: real)
    requires forall i :: 0 <= i < |songs| ==> lo <= songs[i].rating <= hi
    ensures |songs| as real * lo <= SumRatings(songs) <= |songs| as real * hi
  {
    if songs != [] {
      SumBetween(songs[1..], lo, hi);
    }
  }

  /** The number of songs in this language. */
  function CountLanguage(songs: seq<Song>, language: string): (n: nat)
    ensures n <= |songs|
  {
    if songs == [] then 0
    else (if songs[0].language == language then 1 else 0) + CountLanguage(songs[1..], language)
  }

  /** `GROUP BY language`: each language present, with its number of songs. */
  function LanguageBreakdown(songs: seq<Song>): (m: map<string, nat>)
    ensures forall l :: l in m <==> exists i :: 0 <= i < |songs| && songs[i].language == l
    ensures forall l :: l in m ==> m[l] == CountLanguage(songs, l)
  {
    if songs == [] then map[]
    else
      var rest := LanguageBreakdown(songs[1..]);
      var l := songs[0].language;
      BreakdownStep(songs, rest);
      rest[l := (if l in rest then rest[l] else 0) + 1]
  }

  /** Counting the first song on top of the breakdown of the others gives the breakdown of all. */
  lemma BreakdownStep(songs: seq<Song>, rest: map<string, nat>)
    requires songs != []
    requires forall l :: l in rest <==> exists i :: 0 <= i < |songs[1..]| && songs[1..][i].language == l
    requires forall l :: l in rest ==> rest[l] == CountLanguage(songs[1..], l)
    ensures var l := songs[0].language;
      var m := rest[l := (if l in rest then rest[l] else 0) + 1];
      && (forall k :: k in m <==> exists i :: 0 <= i < |songs| && songs[i].language == k)
      && (forall k :: k in m ==> m[k] == CountLanguage(songs, k))
  {
    var l := songs[0].language;
    var m := rest[l := (if l in rest then rest[l] else 0) + 1];
    forall k ensures k in m <==> exists i :: 0 <= i < |songs| && songs[i].language == k {
      if k in rest {
        var i :| 0 <= i < |songs[1..]| && songs[1..][i].language == k;
        assert songs[i + 1].language == k;
      }
      if exists i :: 0 <= i < |songs| && songs[i].language == k {
        var i :| 0 <= i < |songs| && songs[i].language == k;
        if i > 0 {
          assert songs[1..][i - 1].language == k;
        }
      }
    }
    forall k | k in m ensures m[k] == CountLanguage(songs, k) {
      if k !in rest {
        CountLanguageAbsent(songs[1..], k);
      }
    }
  }

  /** A language no song has counts zero. */
  lemma {:induction false} CountLanguageAbsent(songs: seq<Song>, language: string)
    requires forall i :: 0 <= i < |songs| ==> songs[i].language != language
    ensures CountLanguage(songs, language) == 0
  {
    if songs != [] {
      CountLanguageAbsent(songs[1..], language);
    }
  }

  /** `AVG(rating)` of a non-empty table: between the smallest and the largest rating. */
  function AverageRating(songs: seq<Song>): (avg: real)
    requires songs != []
    ensures MinRating(songs) <= avg <= MaxRating(songs)
  {
    MeanOfRatings(songs, MinRating(songs), MaxRating(songs));
    SumRatings(songs) / |songs| as real
  }

  /** Ratings between two bounds have their mean between the same bounds. */
  lemma {:induction false} MeanOfRatings(songs: seq<Song>, lo: real, hi: real)
    requires songs != []
    requires forall i :: 0 <= i < |songs| ==> lo <= songs[i].rating <= hi
    ensures lo <= SumRatings(songs) / |songs| as real <= hi
  {
    SumBetween(songs, lo, hi);
    MeanBetween(SumRatings(songs), |songs|, lo, hi);
  }

  /** A total between n times two bounds gives a mean between the bounds. */
  lemma MeanBetween(sum: real, n: int, lo: real, hi: real)
    requires n > 0 && n as real * lo <= sum <= n as real * hi
    ensures lo <= sum / n as real <= hi
  {
    var m := sum / n as real;
    assert m * n as real == sum;
  }

  /** `get_statistics` over the song and comparison tables; `or 0` makes an empty table report zeros. */
  function GetStatistics(songs: seq<Song>, comparisons: seq<Comparison>): (r: Statistics)
    ensures r.totalSongs == |songs|
    ensures r.totalOriginals == Count(songs, IsOriginal)
    ensures r.totalVariants == Count(songs, IsVariant)
    ensures r.totalComparisons == GetComparisonCount(comparisons)
    ensures songs == [] ==> r.avgRating == 0.0 && r.maxRating == 0.0 && r.minRating == 0.0
    ensures songs != [] ==> r.minRating <= r.avgRating <= r.maxRating
    ensures songs != [] ==> r.avgRating == SumRatings(songs) / |songs| as real
    ensures songs != [] ==> forall i :: 0 <= i < |songs| ==> r.minRating <= songs[i].rating <= r.maxRating
    ensures songs != [] ==> exists i :: 0 <= i < |songs| && songs[i].rating == r.maxRating
    ensures songs != [] ==> exists i :: 0 <= i < |songs| && songs[i].rating == r.minRating
    ensures forall l :: l in r.languageBreakdown <==> exists i :: 0 <= i < |songs| && songs[i].language == l
    ensures forall l :: l in r.languageBreakdown ==> 0 < r.languageBreakdown[l] == CountLanguage(songs, l)
  {
    OriginalsAndVariants(songs);
    BreakdownPositive(songs);
    var originals := Count(songs, IsOriginal);
    var breakdown := LanguageBreakdown(songs);
    if songs == [] then
      Statistics(0, 0, 0, GetComparisonCount(comparisons), 0.0, 0.0, 0.0, breakdown)
    else
      Statistics(|songs|, originals, |songs| - originals, GetComparisonCount(comparisons),
                 AverageRating(songs), MaxRating(songs), MinRating(songs), breakdown)
  }

  /** Every language in the breakdown has at least one song. */
  lemma BreakdownPositive(songs: seq<Song>)
    ensures forall l :: l in LanguageBreakdown(songs) ==> LanguageBreakdown(songs)[l] > 0
  {
    forall l | l in LanguageBreakdown(songs) ensures CountLanguage(songs, l) > 0 {
      var i :| 0 <= i < |songs| && songs[i].language == l;
      CountLanguagePresent(songs, l, i);
    }
  }

  /** A language some song has counts at least one. */
  lemma {:induction false} CountLanguagePresent(songs: seq<Song>, language: string, i: nat)
    requires i < |songs| && songs[i].language == language
    ensures CountLanguage(songs, language) > 0
  {
    if i > 0 {
      CountLanguagePresent(songs[1..], language, i - 1);
    }
  }
}
