/**
 * The user-playlist import step: the records built from the user's own
 * playlists and liked songs, and the matching of those records against the
 * song table by video id, which sorts each match into a boost level.
 * What the client returns is an input; None stands for a request that
 * raised.
 */
module UserImport {
  import opened Wrappers
  import opened Text
  import opened Seqs
  import Fetch

  /** One entry of a user playlist or of the liked songs, as the client returns it. */
  datatype Entry = Entry(
    videoId: Option<string>,
    title: Option<string>,
    artistNames: seq<Option<string>>,
    albumName: Option<string>,
    likeStatus: Option<string>)

  /** The record built for a kept entry. */
  datatype UserTrack = UserTrack(
    videoId: string,
    title: string,
    artists: string,
    album: string,
    likeStatus: string,
    isLiked: bool,
    playlistSource: string)

  /** An entry is kept only when it has a non-empty video id. */
  predicate HasVideo(e: Entry)
  {
    Given(e.videoId)
  }

  /** The record for an entry of the playlist `playlistName`: liked exactly when its like status is "LIKE". */
  function PlaylistTrack(e: Entry, id: string, playlistName: string): (t: UserTrack)
    ensures t.videoId == id && t.playlistSource == playlistName
    ensures e.likeStatus.None? ==> t.likeStatus == "INDIFFERENT"
    ensures e.likeStatus.Some? ==> t.likeStatus == e.likeStatus.value
    ensures t.isLiked <==> t.likeStatus == "LIKE"
  {
    var likeStatus := e.likeStatus.GetOr("INDIFFERENT");
    UserTrack(id, e.title.GetOr(""), Fetch.ArtistNames(e.artistNames), e.albumName.GetOr(""),
              likeStatus, likeStatus == "LIKE", playlistName)
  }

  /** The record for a liked song: always liked, from "Liked Music". */
  function LikedTrack(e: Entry, id: string): (t: UserTrack)
    ensures t.videoId == id
    ensures t.likeStatus == "LIKE" && t.isLiked && t.playlistSource == "Liked Music"
  {
    UserTrack(id, e.title.GetOr(""), Fetch.ArtistNames(e.artistNames), e.albumName.GetOr(""),
              "LIKE", true, "Liked Music")
  }

  /** The records `make` builds for the entries with a video id, in order. */
  function Built(entries: seq<Entry>, make: (Entry, string) -> UserTrack): seq<UserTrack>
  {
    if entries == [] then []
    else
      var init := entries[..|entries| - 1];
      var last := entries[|entries| - 1];
      Built(init, make) + (if HasVideo(last) then [make(last, last.videoId.value)] else [])
  }

  /** The loop both track builders run: skip entries without a video id, build a record for the rest. */
  method BuildTracks(entries: seq<Entry>, make: (Entry, string) -> UserTrack) returns (tracks: seq<UserTrack>)
    ensures tracks == Built(entries, make)
  {
    tracks := [];
    var i := 0;
    while i < |entries|
      invariant 0 <= i <= |entries|
      invariant tracks == Built(entries[..i], make)
    {
      var entry := entries[i];
      assert entries[..i + 1][..i] == entries[..i];
      if HasVideo(entry) {
        tracks := tracks + [make(entry, entry.videoId.value)];
      }
      i := i + 1;
    }
    assert entries[..i] == entries;
  }

  /** `get_playlist_tracks`. */
  method GetPlaylistTracks(playlist: Option<seq<Entry>>, playlistName: string) returns (tracks: seq<UserTrack>)
    ensures playlist.None? ==> tracks == []
    ensures playlist.Some? ==> tracks == Built(playlist.value, (e, id) => PlaylistTrack(e, id, playlistName))
  {
    if playlist.None? {
      return [];
    }
    tracks := BuildTracks(playlist.value, (e, id) => PlaylistTrack(e, id, playlistName));
  }

  /** `get_liked_music`. */
  method GetLikedMusic(liked: Option<seq<Entry>>) returns (tracks: seq<UserTrack>)
    ensures liked.None? ==> tracks == []
    ensures liked.Some? ==> tracks == Built(liked.value, LikedTrack)
  {
    if liked.None? {
      return [];
    }
    tracks := BuildTracks(liked.value, LikedTrack);
  }

  /** There is one record per entry with a video id. */
  lemma {:induction false} BuiltCount(entries: seq<Entry>, make: (Entry, string) -> UserTrack)
    ensures |Built(entries, make)| == Count(entries, HasVideo)
  {
    if entries != [] {
      var n := |entries|;
      BuiltCount(entries[..n - 1], make);
      CountSnoc(entries[..n - 1], entries[n - 1], HasVideo);
      assert entries[..n - 1] + [entries[n - 1]] == entries;
    }
  }

  /** Each record is the one `make` builds for an entry with a video id. */
  lemma {:induction false} BuiltFromEntries(entries: seq<Entry>, make: (Entry, string) -> UserTrack)
    ensures forall k :: 0 <= k < |Built(entries, make)| ==> FromEntry(entries, make, Built(entries, make)[k])
  {
    if entries != [] {
      var n := |entries|;
      var init := entries[..n - 1];
      var last := entries[n - 1];
      var prev := Built(init, make);
      BuiltFromEntries(init, make);
      forall k | 0 <= k < |prev| ensures FromEntry(entries, make, prev[k]) {
        assert FromEntry(init, make, prev[k]);
        var i :| 0 <= i < |init| && HasVideo(init[i]) && prev[k] == make(init[i], init[i].videoId.value);
        assert entries[i] == init[i];
      }
      if HasVideo(last) {
        assert FromEntry(entries, make, make(last, last.videoId.value));
      }
    }
  }

  /** `t` is the record `make` builds for some entry with a video id. */
  predicate FromEntry(entries: seq<Entry>, make: (Entry, string) -> UserTrack, t: UserTrack)
  {
    exists i :: 0 <= i < |entries| && HasVideo(entries[i]) && t == make(entries[i], entries[i].videoId.value)
  }

  /** Playlist records: liked exactly when the like status is "LIKE", which defaults to "INDIFFERENT". */
  lemma PlaylistTracksLikedIffLike(entries: seq<Entry>, playlistName: string)
    ensures var ts := Built(entries, (e, id) => PlaylistTrack(e, id, playlistName));
      && |ts| == Count(entries, HasVideo)
      && forall k :: 0 <= k < |ts| ==> (ts[k].isLiked <==> ts[k].likeStatus == "LIKE") && ts[k].playlistSource == playlistName
  {
    var make := (e, id) => PlaylistTrack(e, id, playlistName);
    BuiltCount(entries, make);
    BuiltFromEntries(entries, make);
    var ts := Built(entries, make);
    forall k | 0 <= k < |ts| ensures (ts[k].isLiked <==> ts[k].likeStatus == "LIKE") && ts[k].playlistSource == playlistName {
      assert FromEntry(entries, make, ts[k]);
    }
  }

  /** Liked-music records are all liked, with status "LIKE", from "Liked Music". */
  lemma LikedTracksAllLiked(entries: seq<Entry>)
    ensures var ts := Built(entries, LikedTrack);
      && |ts| == Count(entries, HasVideo)
      && forall k :: 0 <= k < |ts| ==> ts[k].isLiked && ts[k].likeStatus == "LIKE" && ts[k].playlistSource == "Liked Music"
  {
    BuiltCount(entries, LikedTrack);
    BuiltFromEntries(entries, LikedTrack);
    var ts := Built(entries, LikedTrack);
    forall k | 0 <= k < |ts| ensures ts[k].isLiked && ts[k].likeStatus == "LIKE" && ts[k].playlistSource == "Liked Music" {
      assert FromEntry(entries, LikedTrack, ts[k]);
    }
  }

  /** A row of the song table, as far as matching reads it; `canonicalName` is None when the column is absent. */
  datatype DbRow = DbRow(videoId: Option<string>, title: string, artists: string, canonicalName: Option<string>)

  /** What the lookup map holds for a video id. */
  datatype DbSong = DbSong(videoId: string, title: string, artists: string, canonicalName: string)

  /** The record kept for a matched user track. */
  datatype MatchInfo = MatchInfo(
    videoId: string,
    userTitle: string,
    dbTitle: string,
    canonicalName: string,
    artists: string,
    playlistSource: string,
    boostLevel: Boost)

  /** The boost levels 'liked', 'familiar' and 'to_listen'. */
  datatype Boost = Liked | Familiar | ToListen

  /** The three buckets of matches. */
  datatype Matches = Matches(liked: seq<MatchInfo>, familiar: seq<MatchInfo>, toListen: seq<MatchInfo>)

  const ToListenPlaylist: string := "TWICE - To Listen"

  /** The map entry for a row with a video id; the canonical name defaults to the title. */
  function SongOf(row: DbRow): (s: DbSong)
    requires row.videoId.Some?
    ensures s.videoId == row.videoId.value && s.title == row.title && s.artists == row.artists
    ensures s.canonicalName == if row.canonicalName.Some? then row.canonicalName.value else row.title
  {
    DbSong(row.videoId.value, row.title, row.artists, row.canonicalName.GetOr(row.title))
  }

  /** The lookup map built from the rows with a video id, later rows overwriting earlier ones. */
  function VideoMap(rows: seq<DbRow>): map<string, DbSong>
  {
    if rows == [] then map[]
    else
      var last := rows[|rows| - 1];
      var m := VideoMap(rows[..|rows| - 1]);
      if last.videoId.Some? then m[last.videoId.value := SongOf(last)] else m
  }

  /** Filling the lookup map row by row. */
  method BuildVideoMap(rows: seq<DbRow>) returns (m: map<string, DbSong>)
    ensures m == VideoMap(rows)
  {
    m := map[];
    var i := 0;
    while i < |rows|
      invariant 0 <= i <= |rows|
      invariant m == VideoMap(rows[..i])
    {
      assert rows[..i + 1][..i] == rows[..i];
      var row := rows[i];
      if row.videoId.Some? {
        m := m[row.videoId.value := SongOf(row)];
      }
      i := i + 1;
    }
    assert rows[..i] == rows;
  }

  /** Row `i` is the last row carrying video id `id`. */
  predicate LastWith(rows: seq<DbRow>, i: int, id: string)
  {
    0 <= i < |rows| && rows[i].videoId == Some(id) &&
    forall j :: i < j < |rows| ==> rows[j].videoId != Some(id)
  }

  /** A video id is a key exactly when some row carries it, and it maps to the entry of the last such row. */
  lemma VideoMapLastWins(rows: seq<DbRow>, id: string)
    ensures id in VideoMap(rows) <==> exists i :: 0 <= i < |rows| && rows[i].videoId == Some(id)
    ensures id in VideoMap(rows) ==> exists i :: LastWith(rows, i, id) && VideoMap(rows)[id] == SongOf(rows[i])
  {
    VideoMapKeys(rows, id);
    if id in VideoMap(rows) {
      VideoMapLast(rows, id);
    }
  }

  /** The keys of the lookup map are the video ids the rows carry. */
  lemma {:induction false} VideoMapKeys(rows: seq<DbRow>, id: string)
    ensures id in VideoMap(rows) <==> exists i :: 0 <= i < |rows| && rows[i].videoId == Some(id)
  {
    if rows != [] {
      var n := |rows|;
      var init := rows[..n - 1];
      VideoMapKeys(init, id);
      if rows[n - 1].videoId != Some(id) {
        assert id in VideoMap(rows) <==> id in VideoMap(init);
        if id in VideoMap(init) {
          var i :| 0 <= i < n - 1 && init[i].videoId == Some(id);
          assert rows[i] == init[i];
        }
        if exists i :: 0 <= i < n && rows[i].videoId == Some(id) {
          var i :| 0 <= i < n && rows[i].videoId == Some(id);
          assert init[i] == rows[i];
        }
      }
    }
  }

  /** A key of the lookup map holds the entry of the last row carrying it. */
  lemma {:induction false} VideoMapLast(rows: seq<DbRow>, id: string)
    requires id in VideoMap(rows)
    ensures exists i :: LastWith(rows, i, id) && VideoMap(rows)[id] == SongOf(rows[i])
  {
    var n := |rows|;
    var init := rows[..n - 1];
    if rows[n - 1].videoId == Some(id) {
      assert LastWith(rows, n - 1, id);
    } else {
      assert id in VideoMap(init) && VideoMap(rows)[id] == VideoMap(init)[id];
      VideoMapLast(init, id);
      var i :| LastWith(init, i, id) && VideoMap(init)[id] == SongOf(init[i]);
      assert rows[i] == init[i];
      assert LastWith(rows, i, id);
    }
  }

  /** The boost level: liked first, then the to-listen playlist, else familiar. */
  function BoostLevel(t: UserTrack): (level: Boost)
    ensures level == Liked <==> t.isLiked
    ensures level == ToListen <==> !t.isLiked && t.playlistSource == ToListenPlaylist
    ensures level == Familiar <==> !t.isLiked && t.playlistSource != ToListenPlaylist
  {
    if t.isLiked then Liked
    else if t.playlistSource == ToListenPlaylist then ToListen
    else Familiar
  }

  /** The match record for a user track and its database entry. */
  function InfoOf(t: UserTrack, s: DbSong): MatchInfo
  {
    MatchInfo(t.videoId, t.title, s.title, s.canonicalName, s.artists, t.playlistSource, BoostLevel(t))
  }

  /** Appending a match record to the bucket its boost level names. */
  function Add(ms: Matches, info: MatchInfo): (r: Matches)
    ensures |r.liked| + |r.familiar| + |r.toListen| == |ms.liked| + |ms.familiar| + |ms.toListen| + 1
  {
    match info.boostLevel
    case Liked => ms.(liked := ms.liked + [info])
    case ToListen => ms.(toListen := ms.toListen + [info])
    case Familiar => ms.(familiar := ms.familiar + [info])
  }

  /** The buckets after matching `tracks` in order against `m`. */
  function Bucketed(tracks: seq<UserTrack>, m: map<string, DbSong>): Matches
  {
    if tracks == [] then Matches([], [], [])
    else
      var last := tracks[|tracks| - 1];
      var prev := Bucketed(tracks[..|tracks| - 1], m);
      if last.videoId in m then Add(prev, InfoOf(last, m[last.videoId])) else prev
  }

  /** A user track is matched when its video id is a key of the lookup map. */
  function InMap(m: map<string, DbSong>): UserTrack -> bool
  {
    (t: UserTrack) => t.videoId in m
  }

  /** `match_to_database`: the buckets and the two counters. */
  method MatchToDatabase(userTracks: seq<UserTrack>, dbRows: seq<DbRow>)
    returns (matches: Matches, matched: nat, unmatched: nat)
    ensures matches == Bucketed(userTracks, VideoMap(dbRows))
    ensures matched == Count(userTracks, InMap(VideoMap(dbRows)))
    ensures matched + unmatched == |userTracks|
  {
    var videoMap := BuildVideoMap(dbRows);
    matches := Matches([], [], []);
    matched, unmatched := 0, 0;
    var i := 0;
    while i < |userTracks|
      invariant 0 <= i <= |userTracks|
      invariant matches == Bucketed(userTracks[..i], videoMap)
      invariant matched == Count(userTracks[..i], InMap(videoMap))
      invariant matched + unmatched == i
    {
      var track := userTracks[i];
      assert userTracks[..i + 1] == userTracks[..i] + [track];
      assert userTracks[..i + 1][..i] == userTracks[..i];
      CountSnoc(userTracks[..i], track, InMap(videoMap));
      assert InMap(videoMap)(track) == (track.videoId in videoMap);
      if track.videoId in videoMap {
        var dbMatch := videoMap[track.videoId];
        matches := Add(matches, InfoOf(track, dbMatch));
        matched := matched + 1;
      } else {
        unmatched := unmatched + 1;
      }
      i := i + 1;
    }
    assert userTracks[..i] == userTracks;
  }

  /** Each record sits in the bucket its boost level names. */
  predicate Labelled(ms: Matches)
  {
    (forall k :: 0 <= k < |ms.liked| ==> ms.liked[k].boostLevel == Liked) &&
    (forall k :: 0 <= k < |ms.familiar| ==> ms.familiar[k].boostLevel == Familiar) &&
    (forall k :: 0 <= k < |ms.toListen| ==> ms.toListen[k].boostLevel == ToListen)
  }

  /**
   * Every matched track lands in exactly one bucket, once per occurrence:
   * the bucket sizes add up to the number of matched tracks, and each
   * bucket holds only records of its own level.
   */
  lemma {:induction false} BucketsPartition(tracks: seq<UserTrack>, m: map<string, DbSong>)
    ensures var b := Bucketed(tracks, m);
      |b.liked| + |b.familiar| + |b.toListen| == Count(tracks, InMap(m)) && Labelled(b)
  {
    BucketSizes(tracks, m);
    BucketsLabelled(tracks, m);
  }

  /** The bucket sizes add up to the number of matched tracks. */
  lemma {:induction false} BucketSizes(tracks: seq<UserTrack>, m: map<string, DbSong>)
    ensures var b := Bucketed(tracks, m);
      |b.liked| + |b.familiar| + |b.toListen| == Count(tracks, InMap(m))
  {
    if tracks != [] {
      var n := |tracks|;
      var init, last := tracks[..n - 1], tracks[n - 1];
      var prev := Bucketed(init, m);
      BucketSizes(init, m);
      CountSnoc(init, last, InMap(m));
      assert init + [last] == tracks;
      assert InMap(m)(last) == (last.videoId in m);
      if last.videoId in m {
        var b := Add(prev, InfoOf(last, m[last.videoId]));
        assert Bucketed(tracks, m) == b;
        assert |b.liked| + |b.familiar| + |b.toListen| == |prev.liked| + |prev.familiar| + |prev.toListen| + 1;
      } else {
        assert Bucketed(tracks, m) == prev;
      }
    }
  }

  /** Each bucket holds only records of its own level. */
  lemma {:induction false} BucketsLabelled(tracks: seq<UserTrack>, m: map<string, DbSong>)
    ensures Labelled(Bucketed(tracks, m))
  {
    if tracks != [] {
      var n := |tracks|;
      var init, last := tracks[..n - 1], tracks[n - 1];
      BucketsLabelled(init, m);
      if last.videoId in m {
        AddLabelled(Bucketed(init, m), InfoOf(last, m[last.videoId]));
      }
    }
  }

  /** Adding a record keeps every bucket to its own level. */
  lemma AddLabelled(ms: Matches, info: MatchInfo)
    requires Labelled(ms)
    ensures Labelled(Add(ms, info))
  {
  }

  /**
   * The boost a playlist record gets: liked when its like status is "LIKE",
   * otherwise decided by the playlist it came from.
   */
  lemma PlaylistBoosts(entries: seq<Entry>, playlistName: string)
    ensures var ts := Built(entries, (e, id) => PlaylistTrack(e, id, playlistName));
      forall k :: 0 <= k < |ts| ==> BoostLevel(ts[k]) == PlaylistBoost(ts[k].likeStatus, playlistName)
  {
    PlaylistTracksLikedIffLike(entries, playlistName);
  }

  /** Liked for a "LIKE" status, otherwise what the playlist decides. */
  function PlaylistBoost(likeStatus: string, playlistName: string): Boost
  {
    if likeStatus == "LIKE" then Liked
    else if playlistName == ToListenPlaylist then ToListen
    else Familiar
  }

  /** Every liked-music record gets the liked boost, whatever else holds it. */
  lemma LikedMusicBoost(entries: seq<Entry>)
    ensures var ts := Built(entries, LikedTrack);
      forall k :: 0 <= k < |ts| ==> BoostLevel(ts[k]) == Liked
  {
    LikedTracksAllLiked(entries);
  }

  /**
   * The import run: the favourites playlist, the to-listen playlist and the
   * liked songs, in that order, matched against the song table.
   */
  method ImportAll(favourites: Option<seq<Entry>>, toListen: Option<seq<Entry>>, liked: Option<seq<Entry>>,
                   dbRows: seq<DbRow>)
    returns (matches: Matches)
    ensures var all := AllTracks(favourites, toListen, liked);
      matches == Bucketed(all, VideoMap(dbRows))
  {
    var favouriteTracks := GetPlaylistTracks(favourites, "TWICE - Favourites");
    var toListenTracks := GetPlaylistTracks(toListen, ToListenPlaylist);
    var likedTracks := GetLikedMusic(liked);
    var allUserTracks := favouriteTracks + toListenTracks + likedTracks;
    var matched, unmatched;
    matches, matched, unmatched := MatchToDatabase(allUserTracks, dbRows);
  }

  /** The records of one list, or none when its request raised. */
  function BuiltOr(entries: Option<seq<Entry>>, make: (Entry, string) -> UserTrack): (ts: seq<UserTrack>)
    ensures entries.None? ==> ts == []
  {
    if entries.Some? then Built(entries.value, make) else []
  }

  /** All user records, in the order the run collects them. */
  function AllTracks(favourites: Option<seq<Entry>>, toListen: Option<seq<Entry>>, liked: Option<seq<Entry>>): seq<UserTrack>
  {
    BuiltOr(favourites, (e, id) => PlaylistTrack(e, id, "TWICE - Favourites")) +
    BuiltOr(toListen, (e, id) => PlaylistTrack(e, id, ToListenPlaylist)) +
    BuiltOr(liked, LikedTrack)
  }
}
