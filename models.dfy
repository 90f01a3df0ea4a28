/**
 * The record shapes of the song database (songs, albums, album tracks,
 * comparisons, parameters) and an in-memory `Database` that holds one
 * table per record type, in row order. Also `initialize_parameters`.
 */
module Models {
  import opened Wrappers

  /** A (rating, rating deviation, volatility) triple on the Glicko scale. */
  datatype Snapshot = Snapshot(rating: real, rd: real, vol: real)

  /** A row of `songs`. Spotify enrichment columns, release dates, notes and row timestamps are not modelled. */
  datatype Song = Song(
    songId: int,
    canonicalName: string,
    youtubeMusicUrl: Option<string>,
    youtubeVideoId: Option<string>,
    youtubeUrl: Option<string>,
    thumbnailUrl: Option<string>,
    isOriginal: bool,
    originalSongId: Option<int>,
    variantType: Option<string>,
    language: string,
    durationMs: Option<int>,
    durationSeconds: Option<int>,
    category: string,
    artistName: string,
    rating: real,
    ratingDeviation: real,
    volatility: real,
    ciLower: Option<real>,
    ciUpper: Option<real>,
    gamesPlayed: int,
    wins: int,
    losses: int,
    draws: int,
    lastCompared: Option<int>,
    isLiked: bool,
    isFamiliar: bool)

  /** A row of `albums`. */
  datatype Album = Album(albumId: int, albumName: string, albumType: string, language: string)

  /** A row of `album_tracks`; its key is (albumId, songId, trackNumber). */
  datatype AlbumTrack = AlbumTrack(albumId: int, songId: int, trackNumber: int, discNumber: int)

  /** A row of `comparisons`: one judgment of song A against song B, outcome from A's side. */
  datatype Comparison = Comparison(
    comparisonId: int,
    timestamp: int,
    songAId: int,
    songBId: int,
    winnerId: Option<int>,
    outcome: real,
    outcomeType: string,
    comparisonMode: string,
    wasSequential: bool,
    aBefore: Snapshot,
    aAfter: Snapshot,
    bBefore: Snapshot,
    bAfter: Snapshot,
    expectedOutcome: Option<real>,
    ratingImpact: Option<real>,
    wasUpset: bool,
    userNotes: Option<string>,
    isUndone: bool)

  /** A row of `parameters`: a flat name to value table. */
  datatype Parameter = Parameter(name: string, value: real, description: string)

  /** An entry of the administrative action log. */
  datatype AdminAction = AdminAction(actionType: string, affectedSongIds: seq<int>)

  const DefaultRating: real := 1500.0
  const DefaultRd: real := 350.0
  const DefaultVolatility: real := 0.06

  /** A song row as the column defaults make it when only its name, artist and id are given. */
  function NewSong(songId: int, canonicalName: string, artistName: string): Song
  {
    Song(songId, canonicalName, None, None, None, None,
         true, None, None, "korean", None, None, "TWICE", artistName,
         DefaultRating, DefaultRd, DefaultVolatility, None, None,
         0, 0, 0, 0, None, false, false)
  }

  /** The column defaults of a new song: an original, unrated and never compared. */
  lemma NewSongDefaults(songId: int, name: string, artist: string)
    ensures var s := NewSong(songId, name, artist);
      && s.rating == 1500.0 && s.ratingDeviation == 350.0 && s.volatility == 0.06
      && s.gamesPlayed == 0 && s.wins == 0 && s.losses == 0 && s.draws == 0
      && s.isOriginal && s.originalSongId.None? && s.variantType.None?
      && s.language == "korean" && s.category == "TWICE"
  {
  }

  /** The index of the first song with this id (`filter_by(song_id=...).first()`). */
  function FindSong(songs: seq<Song>, id: int): (r: Option<nat>)
    ensures r.Some? ==> r.value < |songs| && songs[r.value].songId == id
    ensures r.Some? ==> forall k :: 0 <= k < r.value ==> songs[k].songId != id
    ensures r.None? ==> forall k :: 0 <= k < |songs| ==> songs[k].songId != id
  {
    if songs == [] then None
    else if songs[0].songId == id then Some(0)
    else match FindSong(songs[1..], id)
      case None => None
      case Some(i) => Some(i + 1)
  }

  /** The index of the first song with this YouTube video id. */
  function FindSongByVideo(songs: seq<Song>, videoId: string): (r: Option<nat>)
    ensures r.Some? ==> r.value < |songs| && songs[r.value].youtubeVideoId == Some(videoId)
    ensures r.Some? ==> forall k :: 0 <= k < r.value ==> songs[k].youtubeVideoId != Some(videoId)
    ensures r.None? ==> forall k :: 0 <= k < |songs| ==> songs[k].youtubeVideoId != Some(videoId)
  {
    if songs == [] then None
    else if songs[0].youtubeVideoId == Some(videoId) then Some(0)
    else match FindSongByVideo(songs[1..], videoId)
      case None => None
      case Some(i) => Some(i + 1)
  }

  /** The six named defaults of `initialize_parameters`, in order. */
  const DefaultParameters: seq<Parameter> := [
    Parameter("tau", 0.5, "System constant (constrains volatility changes)"),
    Parameter("epsilon", 0.000001, "Convergence tolerance"),
    Parameter("default_rd", 350.0, "Starting rating deviation"),
    Parameter("default_rating", 1500.0, "Starting rating"),
    Parameter("default_volatility", 0.06, "Starting volatility"),
    Parameter("rd_increase_per_day", 0.5, "RD increase when inactive")
  ]

  /** Some row of the table carries this name. */
  predicate HasParameter(rows: seq<Parameter>, name: string)
  {
    exists k :: 0 <= k < |rows| && rows[k].name == name
  }

  /** The table after inserting, in order, each default whose name is not yet present. */
  function WithDefaults(rows: seq<Parameter>, defaults: seq<Parameter>): (r: seq<Parameter>)
    ensures |rows| <= |r| && r[..|rows|] == rows
    ensures forall k :: 0 <= k < |defaults| ==> HasParameter(r, defaults[k].name)
    decreases |defaults|
  {
    if defaults == [] then rows
    else
      var next := if HasParameter(rows, defaults[0].name) then rows else rows + [defaults[0]];
      assert HasParameter(next, defaults[0].name) by {
        if !HasParameter(rows, defaults[0].name) {
          assert next[|rows|].name == defaults[0].name;
        }
      }
      var r := WithDefaults(next, defaults[1..]);
      assert HasParameter(r, defaults[0].name) by {
        var k :| 0 <= k < |next| && next[k].name == defaults[0].name;
        assert r[k] == next[k];
      }
      assert forall k :: 1 <= k < |defaults| ==> defaults[k] == defaults[1..][k - 1];
      r
  }

  /** When every default name is already present, inserting defaults changes nothing. */
  lemma {:induction false} WithDefaultsPresent(rows: seq<Parameter>, defaults: seq<Parameter>)
    requires forall k :: 0 <= k < |defaults| ==> HasParameter(rows, defaults[k].name)
    ensures WithDefaults(rows, defaults) == rows
    decreases |defaults|
  {
    if defaults != [] {
      assert HasParameter(rows, defaults[0].name);
      assert forall k :: 0 <= k < |defaults[1..]| ==> defaults[1..][k] == defaults[k + 1];
      WithDefaultsPresent(rows, defaults[1..]);
    }
  }

  /** `initialize_parameters` is idempotent: running it twice leaves the table of running it once. */
  lemma InitializeParametersIdempotent(rows: seq<Parameter>)
    ensures WithDefaults(WithDefaults(rows, DefaultParameters), DefaultParameters)
         == WithDefaults(rows, DefaultParameters)
  {
    WithDefaultsPresent(WithDefaults(rows, DefaultParameters), DefaultParameters);
  }

  /** An existing parameter keeps its value: defaults never overwrite. */
  lemma InitializeParametersKeepsValues(rows: seq<Parameter>, k: nat)
    requires k < |rows|
    ensures k < |WithDefaults(rows, DefaultParameters)|
    ensures WithDefaults(rows, DefaultParameters)[k] == rows[k]
  {
    var r := WithDefaults(rows, DefaultParameters);
    assert r[..|rows|][k] == rows[k];
  }

  /** Song ids are positive, below the counter and unique; a present video id is unique. */
  ghost predicate SongsValid(songs: seq<Song>, nextId: int)
  {
    && (forall i :: 0 <= i < |songs| ==> 0 < songs[i].songId < nextId)
    && (forall i, j :: 0 <= i < j < |songs| ==> songs[i].songId != songs[j].songId)
    && (forall i, j :: 0 <= i < j < |songs| && songs[i].youtubeVideoId.Some? ==>
          songs[i].youtubeVideoId != songs[j].youtubeVideoId)
  }

  /** Album ids are positive, below the counter and unique; album names are unique. */
  predicate AlbumsValid(albums: seq<Album>, nextId: int)
  {
    && (forall i :: 0 <= i < |albums| ==> 0 < albums[i].albumId < nextId)
    && (forall i, j :: 0 <= i < j < |albums| ==>
          albums[i].albumId != albums[j].albumId && albums[i].albumName != albums[j].albumName)
  }

  /** The composite key (album, song, track number) of `album_tracks` is unique. */
  predicate TrackKeysUnique(tracks: seq<AlbumTrack>)
  {
    forall i, j :: 0 <= i < j < |tracks| ==>
      (tracks[i].albumId, tracks[i].songId, tracks[i].trackNumber)
      != (tracks[j].albumId, tracks[j].songId, tracks[j].trackNumber)
  }

  /** Comparison ids are positive, below the counter and unique. */
  ghost predicate ComparisonsValid(comparisons: seq<Comparison>, nextId: int)
  {
    && (forall i :: 0 <= i < |comparisons| ==> 0 < comparisons[i].comparisonId < nextId)
    && (forall i, j :: 0 <= i < j < |comparisons| ==>
          comparisons[i].comparisonId != comparisons[j].comparisonId)
  }

  /** `param_name` is the primary key of `parameters`. */
  ghost predicate ParameterNamesUnique(rows: seq<Parameter>)
  {
    forall i, j :: 0 <= i < j < |rows| ==> rows[i].name != rows[j].name
  }

  /**
   * The database: one table per record type, each in row order, plus the
   * id counters that autoincrement primary keys draw from.
   */
  class Database {
    var songs: seq<Song>
    var albums: seq<Album>
    var albumTracks: seq<AlbumTrack>
    var comparisons: seq<Comparison>
    var parameters: seq<Parameter>
    var adminLog: seq<AdminAction>
    var nextSongId: int
    var nextAlbumId: int
    var nextComparisonId: int

    /** Primary keys and unique columns are unique; ids are below their counters. */
    ghost predicate Valid()
      reads this
    {
      && 0 < nextSongId && 0 < nextAlbumId && 0 < nextComparisonId
      && SongsValid(songs, nextSongId)
      && AlbumsValid(albums, nextAlbumId)
      && TrackKeysUnique(albumTracks)
      && ComparisonsValid(comparisons, nextComparisonId)
      && ParameterNamesUnique(parameters)
    }

    /** A freshly created, empty database. */
    constructor ()
      ensures Valid()
      ensures songs == [] && albums == [] && albumTracks == [] && comparisons == []
      ensures parameters == [] && adminLog == []
    {
      songs, albums, albumTracks, comparisons, parameters, adminLog := [], [], [], [], [], [];
      nextSongId, nextAlbumId, nextComparisonId := 1, 1, 1;
    }

    /** `initialize_parameters`: for each default, insert it when its name is absent. */
    method InitializeParameters()
      requires Valid()
      modifies this`parameters
      ensures Valid()
      ensures parameters == WithDefaults(old(parameters), DefaultParameters)
    {
      InsertMissing(DefaultParameters);
    }

    /** The loop of `initialize_parameters` over a list of defaults. */
    method InsertMissing(defaults: seq<Parameter>)
      requires Valid()
      modifies this`parameters
      ensures Valid()
      ensures parameters == WithDefaults(old(parameters), defaults)
    {
      var i := 0;
      while i < |defaults|
        invariant 0 <= i <= |defaults|
        invariant WithDefaults(parameters, defaults[i..]) == WithDefaults(old(parameters), defaults)
        invariant ParameterNamesUnique(parameters)
      {
        var param := defaults[i];
        var existing := FindParameter(parameters, param.name);
        InsertDefaultStep(parameters, defaults[i..]);
        assert defaults[i..][1..] == defaults[i + 1..];
        if existing.None? {
          parameters := parameters + [param];
        }
        i := i + 1;
      }
    }
  }

  /** One step of `WithDefaults`: the first default is inserted exactly when its name is absent. */
  lemma InsertDefaultStep(rows: seq<Parameter>, defaults: seq<Parameter>)
    requires defaults != []
    requires ParameterNamesUnique(rows)
    ensures var next := if HasParameter(rows, defaults[0].name) then rows else rows + [defaults[0]];
      && WithDefaults(rows, defaults) == WithDefaults(next, defaults[1..])
      && ParameterNamesUnique(next)
  {
  }

  /** The index of the parameter row with this name (`filter_by(param_name=...).first()`). */
  function FindParameter(rows: seq<Parameter>, name: string): (r: Option<nat>)
    ensures r.Some? <==> HasParameter(rows, name)
    ensures r.Some? ==> r.value < |rows| && rows[r.value].name == name
  {
    if rows == [] then None
    else if rows[0].name == name then Some(0)
    else match FindParameter(rows[1..], name)
      case None =>
        assert forall k :: 1 <= k < |rows| ==> rows[k] == rows[1..][k - 1];
        None
      case Some(i) => Some(i + 1)
  }
}
