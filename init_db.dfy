/**
 * The database initialisation step: the initial rating each song gets from
 * the user's preference lists, the category read from its artist name,
 * the song rows with their variant links, and the album rows with their
 * numbered tracks. The CSV files and the preference files are inputs.
 */
module InitDb {
  import opened Wrappers
  import opened Text
  import opened Seqs
  import opened Models
  import Operations

  // ---------------------------------------------------------------------
  // Initial rating
  // ---------------------------------------------------------------------

  /** The video ids of the three preference files; a missing file gives an empty set. */
  datatype Preferences = Preferences(liked: set<string>, familiar: set<string>, toListen: set<string>)

  /** `video_id in ids`: a missing video id is in no set. */
  predicate In(videoId: Option<string>, ids: set<string>)
  {
    videoId.Some? && videoId.value in ids
  }

  /** The source tags of `determine_initial_elo`. */
  const SourceTags: set<string> := {"user_liked", "user_familiar", "to_listen", "unknown"}

  /** `determine_initial_elo`: the first list holding the song decides, liked before familiar before to-listen. */
  function DetermineInitialElo(videoId: Option<string>, prefs: Preferences): (r: (int, string))
    ensures r.1 in SourceTags
    ensures r.1 == "user_liked" <==> In(videoId, prefs.liked)
    ensures r.1 == "user_familiar" <==> !In(videoId, prefs.liked) && In(videoId, prefs.familiar)
    ensures r.1 == "to_listen" <==>
      !In(videoId, prefs.liked) && !In(videoId, prefs.familiar) && In(videoId, prefs.toListen)
  {
    if In(videoId, prefs.liked) then (1600, "user_liked")
    else if In(videoId, prefs.familiar) then (1550, "user_familiar")
    else if In(videoId, prefs.toListen) then (1525, "to_listen")
    else (1500, "unknown")
  }

  /** The boost of one list when the song is in it, else the unknown rating. */
  function BoostIf(member: bool, boost: int): int
  {
    if member then boost else 1500
  }

  /**
   * The priority order gives every song the highest boost among the lists
   * that hold it, and 1500 when none does.
   */
  lemma InitialEloIsHighestBoost(videoId: Option<string>, prefs: Preferences)
    ensures var elo, liked, familiar, toListen :=
              DetermineInitialElo(videoId, prefs).0, BoostIf(In(videoId, prefs.liked), 1600),
              BoostIf(In(videoId, prefs.familiar), 1550), BoostIf(In(videoId, prefs.toListen), 1525);
      && liked <= elo && familiar <= elo && toListen <= elo
      && (elo == liked || elo == familiar || elo == toListen)
  {
  }

  /** The boost table keyed by list name, as the initialiser declares it. */
  function EloBoost(key: string): Option<int>
  {
    if key == "liked" then Some(1600)
    else if key == "familiar" then Some(1550)
    else if key == "to_listen" then Some(1525)
    else if key == "unknown" then Some(1500)
    else None
  }

  /** The rating logged next to a source tag in the distribution summary, as written: the tag is looked up directly. */
  function LoggedEloAsWritten(source: string): int
  {
    EloBoost(source).GetOr(1500)
  }

  /**
   * The summary logs 1500 for the liked songs, which were given 1600, and
   * for the familiar ones, which were given 1550.
   */
  lemma LoggedEloMisreportsPreferences(videoId: string, prefs: Preferences)
    requires videoId in prefs.liked || videoId in prefs.familiar
    ensures var r := DetermineInitialElo(Some(videoId), prefs);
      r.0 == (if videoId in prefs.liked then 1600 else 1550) && LoggedEloAsWritten(r.1) == 1500
  {
  }

  /** The boost key a source tag stands for. */
  function BoostKey(source: string): string
  {
    if source == "user_liked" then "liked"
    else if source == "user_familiar" then "familiar"
    else source
  }

  /** The rating the summary should log for a source tag. */
  function LoggedElo(source: string): int
  {
    EloBoost(BoostKey(source)).GetOr(1500)
  }

  /** With the tag mapped to its boost key, the logged rating is the rating every song of that tag got. */
  lemma LoggedEloMatches(videoId: Option<string>, prefs: Preferences)
    ensures var r := DetermineInitialElo(videoId, prefs);
      LoggedElo(r.1) == r.0
  {
  }

  // ---------------------------------------------------------------------
  // Category
  // ---------------------------------------------------------------------

  /** The nine member names checked for solo songs. */
  const SoloArtists: seq<string> :=
    ["nayeon", "jihyo", "sana", "momo", "dahyun", "chaeyoung", "tzuyu", "mina", "jeongyeon"]

  /** A collaboration mark: ',' or '&' in the name, or "feat" in the lower-cased name. */
  predicate CollaborationMark(artistName: string)
  {
    Contains(artistName, ",") || Contains(artistName, "&") || Contains(Lower(artistName), "feat")
  }

  /** `detect_category`: solo before subunit before collaboration, else TWICE. */
  function DetectCategory(artistName: string): (c: string)
    ensures c in {"Solo", "Subunit", "Collaboration", "TWICE"}
    ensures c == "Solo" <==> ContainsAny(Lower(artistName), SoloArtists)
    ensures c == "Subunit" <==>
      !ContainsAny(Lower(artistName), SoloArtists) && Contains(Lower(artistName), "misamo")
    ensures c == "Collaboration" <==>
      !ContainsAny(Lower(artistName), SoloArtists) && !Contains(Lower(artistName), "misamo")
      && CollaborationMark(artistName)
  {
    var artistLower := Lower(artistName);
    if ContainsAny(artistLower, SoloArtists) then "Solo"
    else if Contains(artistLower, "misamo") then "Subunit"
    else if CollaborationMark(artistName) then "Collaboration"
    else "TWICE"
  }

  /** Lower-casing never makes or removes a punctuation character. */
  lemma {:induction false} LowerKeepsMark(s: string, c: char)
    requires !IsUpperAscii(c) && !('a' <= c <= 'z')
    ensures Contains(Lower(s), [c]) <==> Contains(s, [c])
  {
    if s != [] {
      LowerKeepsMark(s[1..], c);
      assert Lower(s)[1..] == Lower(s[1..]);
      assert Lower(s)[..1] == [LowerChar(s[0])];
      assert s[..1] == [s[0]];
    }
  }

  /** The category does not depend on the case of the artist name. */
  lemma CategoryIgnoresCase(artistName: string)
    ensures DetectCategory(Lower(artistName)) == DetectCategory(artistName)
  {
    LowerIdempotent(artistName);
    LowerKeepsMark(artistName, ',');
    LowerKeepsMark(artistName, '&');
  }

  // ---------------------------------------------------------------------
  // Songs
  // ---------------------------------------------------------------------

  /**
   * A row of the songs file, as far as the initialiser reads it. An absent
   * column is None; `displayTitle` falls back to `canonicalName`, which falls
   * back to `title`. The file always has an artists column, so an `artists`
   * of None is an empty (NaN) value.
   */
  datatype SongRow = SongRow(
    videoId: Option<string>,
    title: string,
    displayTitle: Option<string>,
    canonicalName: Option<string>,
    youtubeMusicUrl: Option<string>,
    youtubeUrl: Option<string>,
    thumbnailUrl: Option<string>,
    isOriginal: Option<bool>,
    variantType: Option<string>,
    language: Option<string>,
    durationMs: Option<int>,
    durationSeconds: Option<int>,
    artists: Option<string>,
    originalVideoId: Option<string>,
    album: Option<string>)

  /** The name shown for a song. */
  function DisplayName(row: SongRow): string
  {
    row.displayTitle.GetOr(row.canonicalName.GetOr(row.title))
  }

  /**
   * The song row the initialiser creates for a file row, under id `songId`.
   * For a row without artists the source raises instead (`detect_category`
   * cannot lower-case NaN), so no such song is ever stored: `AddSongs` stops
   * at that row. The "TWICE" used then is the default of `row.get`.
   */
  function SongFor(row: SongRow, prefs: Preferences, songId: int): (s: Song)
    ensures s.songId == songId && s.youtubeVideoId == row.videoId
    ensures s.rating == DetermineInitialElo(row.videoId, prefs).0 as real
    ensures s.ratingDeviation == 350.0 && s.volatility == 0.06
    ensures s.isLiked <==> In(row.videoId, prefs.liked)
    ensures s.isFamiliar <==> In(row.videoId, prefs.familiar)
    ensures s.originalSongId.None? && s.gamesPlayed == 0
    ensures s.category == DetectCategory(row.artists.GetOr("TWICE"))
    ensures row.artists.Some? ==> s.artistName == row.artists.value
  {
    var initialElo := DetermineInitialElo(row.videoId, prefs).0;
    var artist := row.artists.GetOr("TWICE");
    Song(songId, DisplayName(row), row.youtubeMusicUrl, row.videoId, row.youtubeUrl, row.thumbnailUrl,
         row.isOriginal.GetOr(true), None, row.variantType, row.language.GetOr("korean"),
         row.durationMs, row.durationSeconds, DetectCategory(artist), artist,
         initialElo as real, 350.0, 0.06, None, None,
         0, 0, 0, 0, None, In(row.videoId, prefs.liked), In(row.videoId, prefs.familiar))
  }

  /** The songs created for `rows`, numbered from `firstId` in file order. */
  function Created(rows: seq<SongRow>, prefs: Preferences, firstId: int): (songs: seq<Song>)
    ensures |songs| == |rows|
  {
    MapNumbered(rows, SongMaker(prefs), firstId)
  }

  /** `SongFor` under fixed preferences. */
  function SongMaker(prefs: Preferences): (SongRow, int) -> Song
  {
    (row: SongRow, songId: int) => SongFor(row, prefs, songId)
  }

  /** The song created for row `k` has id `firstId + k`. */
  lemma CreatedAt(rows: seq<SongRow>, prefs: Preferences, firstId: int)
    ensures forall k :: 0 <= k < |rows| ==> Created(rows, prefs, firstId)[k] == SongFor(rows[k], prefs, firstId + k)
  {
    MapNumberedAt(rows, SongMaker(prefs), firstId);
  }

  /** The count recorded for a source tag, 0 when absent (`dict.get(tag, 0)`). */
  function Tally(dist: map<string, nat>, tag: string): nat
  {
    if tag in dist then dist[tag] else 0
  }

  /** The source tag of a row. */
  function SourceOf(prefs: Preferences): SongRow -> string
  {
    (row: SongRow) => DetermineInitialElo(row.videoId, prefs).1
  }

  /** The elements whose tag is `tag`. */
  function Tagged<T>(tagOf: T -> string, tag: string): T -> bool
  {
    (x: T) => tagOf(x) == tag
  }

  /** The rows whose source tag is `tag`. */
  function HasSource(prefs: Preferences, tag: string): SongRow -> bool
  {
    Tagged(SourceOf(prefs), tag)
  }

  /** `dist[tag] = dist.get(tag, 0) + 1`. */
  function Counted(dist: map<string, nat>, tag: string): (r: map<string, nat>)
    ensures Tally(r, tag) == Tally(dist, tag) + 1
    ensures forall t :: t != tag ==> Tally(r, t) == Tally(dist, t)
    ensures r.Keys == dist.Keys + {tag}
  {
    dist[tag := Tally(dist, tag) + 1]
  }

  /** The counts per tag after counting the tags of `xs` in order. */
  function Tallied<T>(xs: seq<T>, tagOf: T -> string): map<string, nat>
  {
    if xs == [] then map[]
    else Counted(Tallied(xs[..|xs| - 1], tagOf), tagOf(xs[|xs| - 1]))
  }

  /** `elo_distribution` after counting `rows`. */
  function Distribution(rows: seq<SongRow>, prefs: Preferences): map<string, nat>
  {
    Tallied(rows, SourceOf(prefs))
  }

  /** Every tag's count is the number of elements with that tag, and only tags of elements appear. */
  lemma {:induction false} TalliedCounts<T(!new)>(xs: seq<T>, tagOf: T -> string, tag: string, tags: set<string>)
    requires forall x :: tagOf(x) in tags
    ensures Tally(Tallied(xs, tagOf), tag) == Count(xs, Tagged(tagOf, tag))
    ensures Tallied(xs, tagOf).Keys <= tags
  {
    if xs != [] {
      var n := |xs|;
      var last := xs[n - 1];
      TalliedCounts(xs[..n - 1], tagOf, tag, tags);
      CountSnoc(xs[..n - 1], last, Tagged(tagOf, tag));
      assert xs[..n - 1] + [last] == xs;
      assert Tagged(tagOf, tag)(last) == (tagOf(last) == tag);
    }
  }

  /** Every tag's count is the number of rows with that tag, and only the four tags appear. */
  lemma DistributionCounts(rows: seq<SongRow>, prefs: Preferences, tag: string)
    ensures Tally(Distribution(rows, prefs), tag) == Count(rows, HasSource(prefs, tag))
    ensures Distribution(rows, prefs).Keys <= SourceTags
  {
    forall row: SongRow
      ensures SourceOf(prefs)(row) in SourceTags
    {
    }
    TalliedCounts(rows, SourceOf(prefs), tag, SourceTags);
  }

  /** The distribution's counts add up to the number of songs created. */
  lemma DistributionSums(rows: seq<SongRow>, prefs: Preferences)
    ensures var d := Distribution(rows, prefs);
      Tally(d, "user_liked") + Tally(d, "user_familiar") + Tally(d, "to_listen") + Tally(d, "unknown") == |rows|
  {
    DistributionCounts(rows, prefs, "user_liked");
    DistributionCounts(rows, prefs, "user_familiar");
    DistributionCounts(rows, prefs, "to_listen");
    DistributionCounts(rows, prefs, "unknown");
    CountFour(rows, prefs);
  }

  /** Every row has exactly one of the four tags. */
  lemma {:induction false} CountFour(rows: seq<SongRow>, prefs: Preferences)
    ensures Count(rows, HasSource(prefs, "user_liked")) + Count(rows, HasSource(prefs, "user_familiar"))
      + Count(rows, HasSource(prefs, "to_listen")) + Count(rows, HasSource(prefs, "unknown")) == |rows|
  {
    if rows != [] {
      var r := rows[0];
      var tag := DetermineInitialElo(r.videoId, prefs).1;
      CountFour(rows[1..], prefs);
      CountHead(rows, HasSource(prefs, "user_liked"));
      CountHead(rows, HasSource(prefs, "user_familiar"));
      CountHead(rows, HasSource(prefs, "to_listen"));
      CountHead(rows, HasSource(prefs, "unknown"));
      assert HasSource(prefs, "user_liked")(r) == (tag == "user_liked");
      assert HasSource(prefs, "user_familiar")(r) == (tag == "user_familiar");
      assert HasSource(prefs, "to_listen")(r) == (tag == "to_listen");
      assert HasSource(prefs, "unknown")(r) == (tag == "unknown");
    }
  }

  /**
   * The rows can all be stored: their present video ids differ from each
   * other and from those already stored (the unique constraint on the video
   * id column).
   */
  predicate Insertable(songs: seq<Song>, rows: seq<SongRow>)
  {
    && (forall i, j :: 0 <= i < j < |rows| && rows[i].videoId.Some? ==> rows[i].videoId != rows[j].videoId)
    && (forall i :: 0 <= i < |rows| && rows[i].videoId.Some? ==> FindSongByVideo(songs, rows[i].videoId.value).None?)
  }

  /** Storing insertable rows under fresh ids keeps the song table valid. */
  lemma CreatedValid(songs: seq<Song>, nextId: int, rows: seq<SongRow>, prefs: Preferences)
    requires 0 < nextId && SongsValid(songs, nextId) && Insertable(songs, rows)
    ensures SongsValid(songs + Created(rows, prefs, nextId), nextId + |rows|)
  {
    CreatedIds(songs, nextId, rows, prefs);
    CreatedVideos(songs, nextId, rows, prefs);
  }

  /** The fresh ids lie between the old counter and the new one. */
  lemma CreatedIds(songs: seq<Song>, nextId: int, rows: seq<SongRow>, prefs: Preferences)
    requires 0 < nextId && SongsValid(songs, nextId)
    ensures var all := songs + Created(rows, prefs, nextId);
      && (forall i :: 0 <= i < |all| ==> 0 < all[i].songId < nextId + |rows|)
      && (forall i, j :: 0 <= i < j < |all| ==> all[i].songId != all[j].songId)
  {
    CreatedAt(rows, prefs, nextId);
    NumberedAfter(songs, Created(rows, prefs, nextId), nextId);
  }

  /** Songs numbered on from the counter keep the ids positive, bounded and distinct. */
  lemma NumberedAfter(songs: seq<Song>, c: seq<Song>, nextId: int)
    requires 0 < nextId && SongsValid(songs, nextId)
    requires forall k :: 0 <= k < |c| ==> c[k].songId == nextId + k
    ensures var all := songs + c;
      && (forall i :: 0 <= i < |all| ==> 0 < all[i].songId < nextId + |c|)
      && (forall i, j :: 0 <= i < j < |all| ==> all[i].songId != all[j].songId)
  {
    var n := |songs|;
    var all := songs + c;
    forall i | 0 <= i < |all| ensures 0 < all[i].songId < nextId + |c| {
      if i >= n {
        assert all[i].songId == c[i - n].songId;
      } else {
        assert all[i].songId == songs[i].songId;
      }
    }
    forall i, j | 0 <= i < j < |all| ensures all[i].songId != all[j].songId {
      if j >= n {
        assert all[j].songId == c[j - n].songId;
        if i >= n {
          assert all[i].songId == c[i - n].songId;
        } else {
          assert all[i].songId == songs[i].songId;
        }
      } else {
        assert all[i].songId == songs[i].songId && all[j].songId == songs[j].songId;
      }
    }
  }

  /** The stored video ids stay unique. */
  lemma CreatedVideos(songs: seq<Song>, nextId: int, rows: seq<SongRow>, prefs: Preferences)
    requires SongsValid(songs, nextId) && Insertable(songs, rows)
    ensures var all := songs + Created(rows, prefs, nextId);
      forall i, j :: 0 <= i < j < |all| && all[i].youtubeVideoId.Some? ==>
        all[i].youtubeVideoId != all[j].youtubeVideoId
  {
    var n := |songs|;
    var c := Created(rows, prefs, nextId);
    var all := songs + c;
    CreatedAt(rows, prefs, nextId);
    assert forall k :: 0 <= k < |c| ==> c[k].youtubeVideoId == rows[k].videoId;
    forall i, j | 0 <= i < j < |all| && all[i].youtubeVideoId.Some?
      ensures all[i].youtubeVideoId != all[j].youtubeVideoId
    {
      if j >= n {
        assert all[j] == c[j - n];
        if i >= n {
          assert all[i] == c[i - n];
        } else if rows[j - n].videoId.Some? {
          assert FindSongByVideo(songs, rows[j - n].videoId.value).None?;
          assert songs[i] == all[i];
        }
      }
    }
  }

  /** Every row has artists (no NaN in the artists column). */
  predicate AllHaveArtists(rows: seq<SongRow>)
  {
    forall i :: 0 <= i < |rows| ==> rows[i].artists.Some?
  }

  /** The number of rows before the first one without artists. */
  function ArtistsPrefix(rows: seq<SongRow>): (n: nat)
    ensures n <= |rows|
    ensures forall i :: 0 <= i < n ==> rows[i].artists.Some?
    ensures n < |rows| ==> rows[n].artists.None?
    ensures n == |rows| <==> AllHaveArtists(rows)
  {
    if rows == [] || rows[0].artists.None? then 0 else 1 + ArtistsPrefix(rows[1..])
  }

  /**
   * `insert_songs`, first pass: one song per row, numbered in file order,
   * and the per-tag distribution. A row without artists raises, and a
   * repeated video id makes the commit fail; either way nothing is stored.
   */
  method InsertSongs(db: Database, rows: seq<SongRow>, prefs: Preferences)
    returns (committed: bool, distribution: map<string, nat>)
    requires db.Valid()
    modifies db`songs, db`nextSongId
    ensures db.Valid()
    ensures AllHaveArtists(rows) ==> distribution == Distribution(rows, prefs)
    ensures committed <==> AllHaveArtists(rows) && Insertable(old(db.songs), rows)
    ensures committed ==> db.songs == old(db.songs) + Created(rows, prefs, old(db.nextSongId))
    ensures committed ==> db.nextSongId == old(db.nextSongId) + |rows|
    ensures !committed ==> db.songs == old(db.songs) && db.nextSongId == old(db.nextSongId)
  {
    var pending, raised;
    pending, distribution, raised := AddSongs(rows, prefs, db.nextSongId);
    if raised || !Insertable(db.songs, rows) {
      return false, distribution;
    }
    assert rows[..ArtistsPrefix(rows)] == rows;
    CreatedValid(db.songs, db.nextSongId, rows, prefs);
    CommitSongs(db, pending);
    committed := true;
  }

  /** The commit of the first pass: the session's songs stored, the id counter moved past them. */
  method CommitSongs(db: Database, pending: seq<Song>)
    requires db.Valid() && SongsValid(db.songs + pending, db.nextSongId + |pending|)
    modifies db`songs, db`nextSongId
    ensures db.Valid()
    ensures db.songs == old(db.songs) + pending && db.nextSongId == old(db.nextSongId) + |pending|
  {
    db.songs := db.songs + pending;
    db.nextSongId := db.nextSongId + |pending|;
  }

  /**
   * The loop of the first pass: the songs added to the session, and the
   * distribution. Making the song of a row without artists raises: the loop
   * stops there, and the distribution is then never reported.
   */
  method AddSongs(rows: seq<SongRow>, prefs: Preferences, firstId: int)
    returns (pending: seq<Song>, distribution: map<string, nat>, raised: bool)
    ensures raised <==> !AllHaveArtists(rows)
    ensures pending == Created(rows[..ArtistsPrefix(rows)], prefs, firstId)
    ensures !raised ==> distribution == Distribution(rows, prefs)
  {
    pending := [];
    distribution := map[];
    raised := false;
    var i := 0;
    while i < |rows|
      invariant 0 <= i <= |rows|
      invariant AddedUpTo(rows, prefs, firstId, i, pending, distribution)
    {
      var row := rows[i];
      if row.artists.None? {
        PrefixEndsAt(rows, i);
        return pending, distribution, true;
      }
      AddStepAdds(rows, prefs, firstId, i, pending, distribution);
      distribution := Counted(distribution, DetermineInitialElo(row.videoId, prefs).1);
      pending := pending + [SongMaker(prefs)(row, firstId + i)];
      i := i + 1;
    }
    assert rows[..i] == rows;
  }

  /** After `i` rows: all had artists, their songs are pending and their tags are counted. */
  ghost predicate AddedUpTo(rows: seq<SongRow>, prefs: Preferences, firstId: int, i: nat,
                            pending: seq<Song>, distribution: map<string, nat>)
  {
    && i <= |rows|
    && (forall j :: 0 <= j < i ==> rows[j].artists.Some?)
    && pending == Created(rows[..i], prefs, firstId)
    && distribution == Tallied(rows[..i], SourceOf(prefs))
  }

  /** The rows before the first one without artists are the rows before `i` when row `i` is that one. */
  lemma PrefixEndsAt(rows: seq<SongRow>, i: nat)
    requires i < |rows| && rows[i].artists.None?
    requires forall j :: 0 <= j < i ==> rows[j].artists.Some?
    ensures ArtistsPrefix(rows) == i
  {
  }

  /** A pass over a row with artists: the row is counted and its song is added. */
  lemma AddStepAdds(rows: seq<SongRow>, prefs: Preferences, firstId: int, i: nat,
                    pending: seq<Song>, distribution: map<string, nat>)
    requires i < |rows| && rows[i].artists.Some? && AddedUpTo(rows, prefs, firstId, i, pending, distribution)
    ensures AddedUpTo(rows, prefs, firstId, i + 1, pending + [SongMaker(prefs)(rows[i], firstId + i)],
                      Counted(distribution, DetermineInitialElo(rows[i].videoId, prefs).1))
  {
    TalliedStep(rows, i, SourceOf(prefs));
    MapNumberedStep(rows, i, SongMaker(prefs), firstId);
    assert SourceOf(prefs)(rows[i]) == DetermineInitialElo(rows[i].videoId, prefs).1;
  }

  // ---------------------------------------------------------------------
  // Albums and their tracks
  // ---------------------------------------------------------------------

  /** A row of the albums file; absent columns are None. */
  datatype AlbumRow = AlbumRow(albumName: string, albumType: Option<string>, language: Option<string>)

  /**
   * The row is listed under its album: the album is a non-empty string and
   * the video id is truthy. A missing video id (NaN in the file) is truthy,
   * so it is listed, and later finds no song.
   */
  predicate Listed(row: SongRow)
  {
    Given(row.album) && (row.videoId.None? || row.videoId.value != "")
  }

  /** The `album_tracks` lookup: album name to the video ids listed under it, in file order. */
  function AlbumTracks(rows: seq<SongRow>): map<string, seq<Option<string>>>
  {
    if rows == [] then map[]
    else
      var m := AlbumTracks(rows[..|rows| - 1]);
      var last := rows[|rows| - 1];
      if Listed(last) then m[last.album.value := TrackList(m, last.album.value) + [last.videoId]] else m
  }

  /** The videos listed for an album, none when it is not a key. */
  function TrackList(m: map<string, seq<Option<string>>>, name: string): seq<Option<string>>
  {
    if name in m then m[name] else []
  }

  /** The video ids of the rows listed under album `name`, in file order. */
  function VideosOn(rows: seq<SongRow>, name: string): seq<Option<string>>
  {
    if rows == [] then []
    else
      var last := rows[|rows| - 1];
      VideosOn(rows[..|rows| - 1], name) + (if Listed(last) && last.album.value == name then [last.videoId] else [])
  }

  /** Each album's list holds the video ids of its rows, in songs-file order. */
  lemma {:induction false} AlbumTracksInFileOrder(rows: seq<SongRow>, name: string)
    ensures TrackList(AlbumTracks(rows), name) == VideosOn(rows, name)
  {
    if rows != [] {
      AlbumTracksInFileOrder(rows[..|rows| - 1], name);
    }
  }

  /** Filling the lookup, one songs-file row at a time. */
  method BuildAlbumTracks(rows: seq<SongRow>) returns (albumTracks: map<string, seq<Option<string>>>)
    ensures albumTracks == AlbumTracks(rows)
  {
    albumTracks := map[];
    var i := 0;
    while i < |rows|
      invariant 0 <= i <= |rows|
      invariant albumTracks == AlbumTracks(rows[..i])
    {
      assert rows[..i + 1][..i] == rows[..i];
      var row := rows[i];
      if Listed(row) {
        var album := row.album.value;
        if album !in albumTracks {
          albumTracks := albumTracks[album := []];
        }
        albumTracks := albumTracks[album := albumTracks[album] + [row.videoId]];
      }
      i := i + 1;
    }
    assert rows[..i] == rows;
  }

  /**
   * The album tracks for album `albumId` and its listed videos: the k-th
   * video gets number k, counting from 1, on disc 1; a video that finds no
   * song is skipped and its number is not reused.
   */
  function Numbered(albumId: int, videos: seq<Option<string>>, songs: seq<Song>): seq<AlbumTrack>
  {
    if videos == [] then []
    else
      var n := |videos|;
      Numbered(albumId, videos[..n - 1], songs) +
      match FindByVideo(songs, videos[n - 1])
      case Some(f) => [AlbumTrack(albumId, songs[f].songId, n, 1)]
      case None => []
  }

  /** Video `v` finds a song. */
  predicate Found(songs: seq<Song>, v: Option<string>)
  {
    FindByVideo(songs, v).Some?
  }

  /** Track `t` is the link for position `t.trackNumber` of `videos`. */
  predicate NumberedFrom(albumId: int, videos: seq<Option<string>>, songs: seq<Song>, t: AlbumTrack)
  {
    && t.albumId == albumId && t.discNumber == 1
    && 1 <= t.trackNumber <= |videos|
    && Found(songs, videos[t.trackNumber - 1])
    && t.songId == songs[FindByVideo(songs, videos[t.trackNumber - 1]).value].songId
  }

  /** Track numbers strictly increase. */
  predicate Increasing(tracks: seq<AlbumTrack>)
  {
    forall i, j :: 0 <= i < j < |tracks| ==> tracks[i].trackNumber < tracks[j].trackNumber
  }

  /**
   * Track numbering: every link carries the position of its video, counting
   * from 1, on disc 1, numbers increase, and every video that finds a song
   * has a link with its position's number.
   */
  lemma NumberedPositions(albumId: int, videos: seq<Option<string>>, songs: seq<Song>)
    ensures var ts := Numbered(albumId, videos, songs);
      && (forall j :: 0 <= j < |ts| ==> NumberedFrom(albumId, videos, songs, ts[j]))
      && Increasing(ts)
      && (forall k :: 0 <= k < |videos| && Found(songs, videos[k]) ==> exists j :: 0 <= j < |ts| && ts[j].trackNumber == k + 1)
  {
    NumberedLinks(albumId, videos, songs);
    NumberedIncreasing(albumId, videos, songs);
    NumberedCovers(albumId, videos, songs);
  }

  /** Numbering one more video keeps the earlier links. */
  lemma NumberedSnoc(albumId: int, videos: seq<Option<string>>, songs: seq<Song>)
    requires videos != []
    ensures var prev := Numbered(albumId, videos[..|videos| - 1], songs);
      var ts := Numbered(albumId, videos, songs);
      && |prev| <= |ts| <= |prev| + 1 && ts[..|prev|] == prev
      && (|ts| == |prev| + 1 <==> Found(songs, videos[|videos| - 1]))
      && (|ts| == |prev| + 1 ==> ts[|prev|].trackNumber == |videos|)
  {
  }

  /** Every link carries the position of its video. */
  lemma {:induction false} NumberedLinks(albumId: int, videos: seq<Option<string>>, songs: seq<Song>)
    ensures var ts := Numbered(albumId, videos, songs);
      forall j :: 0 <= j < |ts| ==> NumberedFrom(albumId, videos, songs, ts[j])
  {
    if videos != [] {
      var n := |videos|;
      var init := videos[..n - 1];
      var prev := Numbered(albumId, init, songs);
      var ts := Numbered(albumId, videos, songs);
      NumberedLinks(albumId, init, songs);
      NumberedSnoc(albumId, videos, songs);
      forall j | 0 <= j < |ts| ensures NumberedFrom(albumId, videos, songs, ts[j]) {
        if j < |prev| {
          assert ts[j] == prev[j];
          assert NumberedFrom(albumId, init, songs, prev[j]);
          assert videos[prev[j].trackNumber - 1] == init[prev[j].trackNumber - 1];
        }
      }
    }
  }

  /** Every link belongs to the album it was numbered for. */
  lemma {:induction false} NumberedAlbum(albumId: int, videos: seq<Option<string>>, songs: seq<Song>)
    ensures forall t :: 0 <= t < |Numbered(albumId, videos, songs)| ==> Numbered(albumId, videos, songs)[t].albumId == albumId
  {
    if videos != [] {
      NumberedAlbum(albumId, videos[..|videos| - 1], songs);
    }
  }

  /** Track numbers increase along the links. */
  lemma {:induction false} NumberedIncreasing(albumId: int, videos: seq<Option<string>>, songs: seq<Song>)
    ensures Increasing(Numbered(albumId, videos, songs))
  {
    if videos != [] {
      var n := |videos|;
      var init := videos[..n - 1];
      var prev := Numbered(albumId, init, songs);
      var ts := Numbered(albumId, videos, songs);
      NumberedIncreasing(albumId, init, songs);
      NumberedLinks(albumId, init, songs);
      NumberedSnoc(albumId, videos, songs);
      forall i, j | 0 <= i < j < |ts| ensures ts[i].trackNumber < ts[j].trackNumber {
        assert ts[i] == prev[i];
        if j < |prev| {
          assert ts[j] == prev[j];
        } else {
          assert NumberedFrom(albumId, init, songs, prev[i]);
        }
      }
    }
  }

  /** Every video that finds a song gets a link numbered with its position. */
  lemma {:induction false} NumberedCovers(albumId: int, videos: seq<Option<string>>, songs: seq<Song>)
    ensures var ts := Numbered(albumId, videos, songs);
      forall k :: 0 <= k < |videos| && Found(songs, videos[k]) ==> exists j :: 0 <= j < |ts| && ts[j].trackNumber == k + 1
  {
    if videos != [] {
      var n := |videos|;
      var init := videos[..n - 1];
      var prev := Numbered(albumId, init, songs);
      var ts := Numbered(albumId, videos, songs);
      NumberedCovers(albumId, init, songs);
      NumberedSnoc(albumId, videos, songs);
      forall k | 0 <= k < n && Found(songs, videos[k]) ensures exists j :: 0 <= j < |ts| && ts[j].trackNumber == k + 1 {
        if k < n - 1 {
          assert init[k] == videos[k];
          var j :| 0 <= j < |prev| && prev[j].trackNumber == k + 1;
          assert ts[j] == prev[j];
        } else {
          assert ts[|prev|].trackNumber == n;
        }
      }
    }
  }

  /** The inner loop of `insert_albums`: `enumerate(..., 1)` over one album's videos. */
  method NumberTracks(albumId: int, videos: seq<Option<string>>, songs: seq<Song>) returns (tracks: seq<AlbumTrack>)
    ensures tracks == Numbered(albumId, videos, songs)
  {
    tracks := [];
    var trackNum := 1;
    while trackNum <= |videos|
      invariant 1 <= trackNum <= |videos| + 1
      invariant tracks == Numbered(albumId, videos[..trackNum - 1], songs)
    {
      var videoId := videos[trackNum - 1];
      assert videos[..trackNum][..trackNum - 1] == videos[..trackNum - 1];
      var song := FindByVideo(songs, videoId);
      if song.Some? {
        tracks := tracks + [AlbumTrack(albumId, songs[song.value].songId, trackNum, 1)];
      }
      trackNum := trackNum + 1;
    }
    assert videos[..trackNum - 1] == videos;
  }

  /** The album rows created for the albums file, numbered from `firstId`; the type defaults to "ep", the language to "korean". */
  function NewAlbums(rows: seq<AlbumRow>, firstId: int): (albums: seq<Album>)
    ensures |albums| == |rows|
  {
    if rows == [] then []
    else
      var n := |rows|;
      var row := rows[n - 1];
      NewAlbums(rows[..n - 1], firstId) +
      [Album(firstId + n - 1, row.albumName, row.albumType.GetOr("ep"), row.language.GetOr("korean"))]
  }

  /** The album tracks created for the albums file, album by album. */
  function NewTracks(rows: seq<AlbumRow>, firstId: int, albumTracks: map<string, seq<Option<string>>>,
                     songs: seq<Song>): seq<AlbumTrack>
  {
    if rows == [] then []
    else
      var n := |rows|;
      NewTracks(rows[..n - 1], firstId, albumTracks, songs) +
      Numbered(firstId + n - 1, TrackList(albumTracks, rows[n - 1].albumName), songs)
  }

  /**
   * `insert_albums`: one album per row of the albums file, each with its
   * numbered tracks. The flush and the commit fail when a constraint is
   * broken (a repeated album name or track key), and then nothing is stored.
   */
  method InsertAlbums(db: Database, albumRows: seq<AlbumRow>, songRows: seq<SongRow>) returns (committed: bool)
    requires db.Valid()
    modifies db`albums, db`nextAlbumId, db`albumTracks
    ensures db.Valid()
    ensures var albums := old(db.albums) + NewAlbums(albumRows, old(db.nextAlbumId));
      var tracks := old(db.albumTracks) + NewTracks(albumRows, old(db.nextAlbumId), AlbumTracks(songRows), db.songs);
      && (committed <==> AlbumsValid(albums, old(db.nextAlbumId) + |albumRows|) && TrackKeysUnique(tracks))
      && (committed ==> db.albums == albums && db.albumTracks == tracks
                        && db.nextAlbumId == old(db.nextAlbumId) + |albumRows|)
      && (!committed ==> db.albums == old(db.albums) && db.albumTracks == old(db.albumTracks)
                         && db.nextAlbumId == old(db.nextAlbumId))
  {
    var albumTracks := BuildAlbumTracks(songRows);
    var pendingAlbums, pendingTracks := AddAlbums(albumRows, db.nextAlbumId, albumTracks, db.songs);
    var albums := db.albums + pendingAlbums;
    var tracks := db.albumTracks + pendingTracks;
    var nextId := db.nextAlbumId + |albumRows|;
    if !(AlbumsValid(albums, nextId) && TrackKeysUnique(tracks)) {
      return false;
    }
    db.albums, db.albumTracks, db.nextAlbumId := albums, tracks, nextId;
    committed := true;
  }

  /** The outer loop of `insert_albums`: the albums and tracks added to the session. */
  method AddAlbums(rows: seq<AlbumRow>, firstId: int, albumTracks: map<string, seq<Option<string>>>, songs: seq<Song>)
    returns (albums: seq<Album>, tracks: seq<AlbumTrack>)
    ensures albums == NewAlbums(rows, firstId)
    ensures tracks == NewTracks(rows, firstId, albumTracks, songs)
  {
    albums, tracks := [], [];
    var i := 0;
    while i < |rows|
      invariant 0 <= i <= |rows|
      invariant albums == NewAlbums(rows[..i], firstId)
      invariant tracks == NewTracks(rows[..i], firstId, albumTracks, songs)
    {
      assert rows[..i + 1][..i] == rows[..i];
      var albumRow := rows[i];
      var albumId := firstId + i;
      albums := albums + [Album(albumId, albumRow.albumName, albumRow.albumType.GetOr("ep"), albumRow.language.GetOr("korean"))];
      var albumName := albumRow.albumName;
      var linked: seq<AlbumTrack> := [];
      if albumName in albumTracks {
        linked := NumberTracks(albumId, albumTracks[albumName], songs);
      } else {
        assert Numbered(albumId, TrackList(albumTracks, albumName), songs) == [];
      }
      tracks := tracks + linked;
      i := i + 1;
    }
    assert rows[..i] == rows;
  }

  /** The album names of the file are distinct, and none is stored yet. */
  predicate FreshNames(albums: seq<Album>, rows: seq<AlbumRow>)
  {
    && (forall i, j :: 0 <= i < j < |rows| ==> rows[i].albumName != rows[j].albumName)
    && (forall i, k :: 0 <= i < |rows| && 0 <= k < |albums| ==> albums[k].albumName != rows[i].albumName)
  }

  /** The stored album tracks belong to stored albums' ids. */
  predicate TracksBelow(tracks: seq<AlbumTrack>, nextId: int)
  {
    forall t :: 0 <= t < |tracks| ==> tracks[t].albumId < nextId
  }

  /**
   * Albums with fresh names always commit: the new album ids are fresh and
   * the new track keys are distinct, from each other and from the stored ones.
   */
  lemma FreshAlbumsCommit(albums: seq<Album>, tracks: seq<AlbumTrack>, nextId: int, rows: seq<AlbumRow>,
                          albumTracks: map<string, seq<Option<string>>>, songs: seq<Song>)
    requires 0 < nextId && AlbumsValid(albums, nextId) && TrackKeysUnique(tracks) && TracksBelow(tracks, nextId)
    requires FreshNames(albums, rows)
    ensures AlbumsValid(albums + NewAlbums(rows, nextId), nextId + |rows|)
    ensures TrackKeysUnique(tracks + NewTracks(rows, nextId, albumTracks, songs))
  {
    NewAlbumsValid(albums, nextId, rows);
    var added := NewTracks(rows, nextId, albumTracks, songs);
    NewTracksKeys(rows, nextId, albumTracks, songs);
    NewTracksIds(rows, nextId, albumTracks, songs);
    SeparatedKeys(tracks, added, nextId);
  }

  /** The k-th new album has id `firstId + k` and the k-th row's name. */
  lemma {:induction false} NewAlbumsAt(rows: seq<AlbumRow>, firstId: int)
    ensures forall k :: 0 <= k < |rows| ==>
      NewAlbums(rows, firstId)[k].albumId == firstId + k && NewAlbums(rows, firstId)[k].albumName == rows[k].albumName
  {
    if rows != [] {
      NewAlbumsAt(rows[..|rows| - 1], firstId);
    }
  }

  /** Fresh names under fresh ids keep the album table valid. */
  lemma NewAlbumsValid(albums: seq<Album>, nextId: int, rows: seq<AlbumRow>)
    requires 0 < nextId && AlbumsValid(albums, nextId) && FreshNames(albums, rows)
    ensures AlbumsValid(albums + NewAlbums(rows, nextId), nextId + |rows|)
  {
    var added := NewAlbums(rows, nextId);
    var all := albums + added;
    var n := |albums|;
    NewAlbumsAt(rows, nextId);
    forall i | 0 <= i < |all| ensures 0 < all[i].albumId < nextId + |rows| {
      if i >= n {
        assert all[i] == added[i - n];
      }
    }
    forall i, j | 0 <= i < j < |all|
      ensures all[i].albumId != all[j].albumId && all[i].albumName != all[j].albumName
    {
      if j < n {
        assert all[i] == albums[i] && all[j] == albums[j];
      } else if i < n {
        assert all[i] == albums[i] && all[j] == added[j - n];
      } else {
        assert all[i] == added[i - n] && all[j] == added[j - n];
      }
    }
  }

  /** The new tracks belong to the new albums' ids. */
  lemma {:induction false} NewTracksIds(rows: seq<AlbumRow>, firstId: int, albumTracks: map<string, seq<Option<string>>>,
                                        songs: seq<Song>)
    ensures forall t :: 0 <= t < |NewTracks(rows, firstId, albumTracks, songs)| ==>
      firstId <= NewTracks(rows, firstId, albumTracks, songs)[t].albumId < firstId + |rows|
  {
    if rows != [] {
      var n := |rows|;
      var albumId := firstId + n - 1;
      var prev := NewTracks(rows[..n - 1], firstId, albumTracks, songs);
      var block := Numbered(albumId, TrackList(albumTracks, rows[n - 1].albumName), songs);
      var ts := prev + block;
      assert NewTracks(rows, firstId, albumTracks, songs) == ts;
      NewTracksIds(rows[..n - 1], firstId, albumTracks, songs);
      NumberedAlbum(albumId, TrackList(albumTracks, rows[n - 1].albumName), songs);
      forall t | 0 <= t < |ts| ensures firstId <= ts[t].albumId < firstId + n {
        if t >= |prev| {
          assert ts[t] == block[t - |prev|];
        } else {
          assert ts[t] == prev[t];
        }
      }
    }
  }

  /** The new track keys are distinct. */
  lemma {:induction false} NewTracksKeys(rows: seq<AlbumRow>, firstId: int, albumTracks: map<string, seq<Option<string>>>,
                                         songs: seq<Song>)
    ensures TrackKeysUnique(NewTracks(rows, firstId, albumTracks, songs))
  {
    if rows != [] {
      var n := |rows|;
      var albumId := firstId + n - 1;
      var videos := TrackList(albumTracks, rows[n - 1].albumName);
      var prev := NewTracks(rows[..n - 1], firstId, albumTracks, songs);
      var block := Numbered(albumId, videos, songs);
      NewTracksKeys(rows[..n - 1], firstId, albumTracks, songs);
      NewTracksIds(rows[..n - 1], firstId, albumTracks, songs);
      NumberedAlbum(albumId, videos, songs);
      NumberedIncreasing(albumId, videos, songs);
      assert NewTracks(rows, firstId, albumTracks, songs) == prev + block;
      SeparatedKeys(prev, block, albumId);
    }
  }

  /** Track lists on either side of an album id bound, each with unique keys, have unique keys together. */
  lemma SeparatedKeys(a: seq<AlbumTrack>, b: seq<AlbumTrack>, bound: int)
    requires TrackKeysUnique(a) && forall t :: 0 <= t < |a| ==> a[t].albumId < bound
    requires (forall t :: 0 <= t < |b| ==> bound <= b[t].albumId)
    requires TrackKeysUnique(b) || (Increasing(b) && forall t :: 0 <= t < |b| ==> b[t].albumId == bound)
    ensures TrackKeysUnique(a + b)
  {
    var all := a + b;
    forall i, j | 0 <= i < j < |all|
      ensures (all[i].albumId, all[i].songId, all[i].trackNumber) != (all[j].albumId, all[j].songId, all[j].trackNumber)
    {
      if j >= |a| {
        assert all[j] == b[j - |a|];
        if i >= |a| {
          assert all[i] == b[i - |a|];
        } else {
          assert all[i] == a[i];
        }
      } else {
        assert all[i] == a[i] && all[j] == a[j];
      }
    }
  }

  // ---------------------------------------------------------------------
  // The initialisation run
  // ---------------------------------------------------------------------

  /**
   * The data steps of the run: songs and their links, then albums. A failed
   * commit stops the run; what earlier steps committed stays.
   */
  method InsertAll(db: Database, songRows: seq<SongRow>, albumRows: seq<AlbumRow>, prefs: Preferences)
    returns (ok: bool)
    requires db.Valid()
    modifies db`songs, db`nextSongId, db`albums, db`nextAlbumId, db`albumTracks
    ensures db.Valid()
    ensures ok ==> |db.songs| == |old(db.songs)| + |songRows|
    ensures ok ==> |db.albums| == |old(db.albums)| + |albumRows|
  {
    var committed := InitializeSongs(db, songRows, prefs);
    if !committed {
      return false;
    }
    ok := InsertAlbums(db, albumRows, songRows);
  }

  /** `insert_songs`: both passes; the links are made only when the songs were committed. */
  method InitializeSongs(db: Database, songRows: seq<SongRow>, prefs: Preferences) returns (committed: bool)
    requires db.Valid()
    modifies db`songs, db`nextSongId
    ensures db.Valid()
    ensures committed <==> AllHaveArtists(songRows) && Insertable(old(db.songs), songRows)
    ensures committed ==> db.songs == LinkAll(old(db.songs) + Created(songRows, prefs, old(db.nextSongId)), songRows)
    ensures !committed ==> db.songs == old(db.songs)
    ensures |db.songs| == |old(db.songs)| + (if committed then |songRows| else 0)
  {
    var distribution;
    committed, distribution := InsertSongs(db, songRows, prefs);
    if committed {
      LinkAllOnlyLinks(db.songs, songRows);
      LinkVariants(db, songRows);
    }
  }

  /** One more element counts its tag. */
  lemma TalliedStep<T>(xs: seq<T>, i: nat, tagOf: T -> string)
    requires i < |xs|
    ensures Tallied(xs[..i + 1], tagOf) == Counted(Tallied(xs[..i], tagOf), tagOf(xs[i]))
  {
    assert xs[..i + 1][..i] == xs[..i];
  }

  /** Every created song starts at its initial rating with the initial deviation and volatility. */
  lemma CreatedInitialValues(rows: seq<SongRow>, prefs: Preferences, firstId: int)
    ensures var songs := Created(rows, prefs, firstId);
      forall k :: 0 <= k < |songs| ==>
        && songs[k].rating == DetermineInitialElo(rows[k].videoId, prefs).0 as real
        && songs[k].ratingDeviation == 350.0 && songs[k].volatility == 0.06
        && (songs[k].isLiked <==> In(rows[k].videoId, prefs.liked))
        && (songs[k].isFamiliar <==> In(rows[k].videoId, prefs.familiar))
  {
    CreatedAt(rows, prefs, firstId);
  }

  // ---------------------------------------------------------------------
  // Variant links
  // ---------------------------------------------------------------------

  /** The index of the first song the query for `videoId` finds; a missing video id finds none. */
  function FindByVideo(songs: seq<Song>, videoId: Option<string>): (r: Option<nat>)
    ensures r.Some? ==> r.value < |songs| && songs[r.value].youtubeVideoId == videoId
  {
    if videoId.None? then None else FindSongByVideo(songs, videoId.value)
  }

  /** The row asks for a link: it is not an original and names an original video. */
  predicate WantsLink(row: SongRow)
  {
    row.isOriginal == Some(false) && row.originalVideoId.Some?
  }

  /** One step of the second pass: when both songs are found, the variant points at the original. */
  function LinkOne(songs: seq<Song>, row: SongRow): seq<Song>
  {
    if !WantsLink(row) then songs
    else match (FindByVideo(songs, row.videoId), FindByVideo(songs, row.originalVideoId))
      case (Some(v), Some(o)) => songs[v := songs[v].(originalSongId := Some(songs[o].songId))]
      case _ => songs
  }

  /** The songs after the second pass over `rows`. */
  function LinkAll(songs: seq<Song>, rows: seq<SongRow>): seq<Song>
  {
    if rows == [] then songs else LinkOne(LinkAll(songs, rows[..|rows| - 1]), rows[|rows| - 1])
  }

  /** `row` links song `k` of `songs` to the song with id `id`. */
  predicate LinksTo(songs: seq<Song>, row: SongRow, k: int, id: int)
  {
    && WantsLink(row)
    && FindByVideo(songs, row.videoId) == Some(k)
    && FindByVideo(songs, row.originalVideoId).Some?
    && songs[FindByVideo(songs, row.originalVideoId).value].songId == id
  }

  /** Some row of `rows` links song `k` to the song with id `id`. */
  predicate LinkedBy(songs: seq<Song>, rows: seq<SongRow>, k: int, id: int)
  {
    exists i :: 0 <= i < |rows| && LinksTo(songs, rows[i], k, id)
  }

  /** Two tables differ at most in their original-song links. */
  predicate SameButLinks(a: seq<Song>, b: seq<Song>)
  {
    |a| == |b| && forall k :: 0 <= k < |a| ==> b[k] == a[k].(originalSongId := b[k].originalSongId)
  }

  /** Tables that differ only in links answer every video query alike. */
  lemma {:induction false} FindSame(a: seq<Song>, b: seq<Song>, videoId: string)
    requires SameButLinks(a, b)
    ensures FindSongByVideo(a, videoId) == FindSongByVideo(b, videoId)
  {
    if a != [] {
      assert SameButLinks(a[1..], b[1..]) by {
        forall k | 0 <= k < |a| - 1 ensures b[1..][k] == a[1..][k].(originalSongId := b[1..][k].originalSongId) {
          assert b[1..][k] == b[k + 1] && a[1..][k] == a[k + 1];
        }
      }
      FindSame(a[1..], b[1..], videoId);
      assert b[0].youtubeVideoId == a[0].youtubeVideoId;
    }
  }

  /**
   * The second pass changes only original-song links, and a changed link
   * points at the original some row named, found by video id among the
   * stored songs; every other song is untouched.
   */
  lemma {:induction false} LinkAllOnlyLinks(songs: seq<Song>, rows: seq<SongRow>)
    ensures SameButLinks(songs, LinkAll(songs, rows))
    ensures var r := LinkAll(songs, rows);
      forall k :: 0 <= k < |r| && r[k].originalSongId != songs[k].originalSongId ==>
        r[k].originalSongId.Some? && LinkedBy(songs, rows, k, r[k].originalSongId.value)
  {
    if rows != [] {
      var n := |rows|;
      var init, last := rows[..n - 1], rows[n - 1];
      var mid := LinkAll(songs, init);
      var r := LinkOne(mid, last);
      LinkAllOnlyLinks(songs, init);
      LinkOneOnlyLinks(mid, last);
      assert SameButLinks(songs, r);
      forall k | 0 <= k < |r| && r[k].originalSongId != songs[k].originalSongId
        ensures r[k].originalSongId.Some? && LinkedBy(songs, rows, k, r[k].originalSongId.value)
      {
        if r[k].originalSongId != mid[k].originalSongId {
          assert LinksTo(mid, last, k, r[k].originalSongId.value);
          LinksToSame(songs, mid, last, k, r[k].originalSongId.value);
          assert rows[n - 1] == last;
        } else {
          var i :| 0 <= i < |init| && LinksTo(songs, init[i], k, r[k].originalSongId.value);
          assert rows[i] == init[i];
        }
      }
    }
  }

  /** One linking step changes at most one link, to the original the row names. */
  lemma LinkOneOnlyLinks(songs: seq<Song>, row: SongRow)
    ensures SameButLinks(songs, LinkOne(songs, row))
    ensures var r := LinkOne(songs, row);
      forall k :: 0 <= k < |r| && r[k].originalSongId != songs[k].originalSongId ==>
        r[k].originalSongId.Some? && LinksTo(songs, row, k, r[k].originalSongId.value)
  {
  }

  /** A link read off one table is read off any table that differs from it only in links. */
  lemma LinksToSame(a: seq<Song>, b: seq<Song>, row: SongRow, k: int, id: int)
    requires SameButLinks(a, b) && LinksTo(b, row, k, id)
    ensures LinksTo(a, row, k, id)
  {
    FindSame(a, b, row.videoId.value);
    FindSame(a, b, row.originalVideoId.value);
  }

  /** A linking step keeps the song table valid. */
  lemma LinkOneValid(songs: seq<Song>, nextId: int, row: SongRow)
    requires SongsValid(songs, nextId)
    ensures SongsValid(LinkOne(songs, row), nextId)
  {
    if WantsLink(row) {
      match (FindByVideo(songs, row.videoId), FindByVideo(songs, row.originalVideoId))
      case (Some(v), Some(o)) =>
        Operations.SameKeysKeepValid(songs, nextId, v, songs[v].(originalSongId := Some(songs[o].songId)));
      case _ =>
    }
  }

  /** `insert_songs`, second pass: link each variant row's song to its original's. */
  method LinkVariants(db: Database, rows: seq<SongRow>)
    requires db.Valid()
    modifies db`songs
    ensures db.Valid()
    ensures db.songs == LinkAll(old(db.songs), rows)
  {
    var i := 0;
    while i < |rows|
      invariant 0 <= i <= |rows|
      invariant SongsValid(db.songs, db.nextSongId)
      invariant db.songs == LinkAll(old(db.songs), rows[..i])
    {
      assert rows[..i + 1][..i] == rows[..i];
      LinkRow(db, rows[i]);
      i := i + 1;
    }
    assert rows[..i] == rows;
  }

  /** One row of the second pass: when both songs are found, the variant's link is set. */
  method LinkRow(db: Database, row: SongRow)
    requires SongsValid(db.songs, db.nextSongId)
    modifies db`songs
    ensures SongsValid(db.songs, db.nextSongId)
    ensures db.songs == LinkOne(old(db.songs), row)
  {
    LinkOneValid(db.songs, db.nextSongId, row);
    if WantsLink(row) {
      var variantSong := FindByVideo(db.songs, row.videoId);
      var originalSong := FindByVideo(db.songs, row.originalVideoId);
      if variantSong.Some? && originalSong.Some? {
        var v := variantSong.value;
        db.songs := db.songs[v := db.songs[v].(originalSongId := Some(db.songs[originalSong.value].songId))];
      }
    }
  }
}
