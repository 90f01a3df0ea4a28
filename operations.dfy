/**
 * The writing operations of the database layer: adding a song, overwriting
 * a song's rating, bumping its win/loss/draw counters and recording a
 * comparison with its before/after snapshots. The clock is a parameter
 * (`now`), and the expected score of a comparison, which the Glicko-2
 * calculator computes, is an input (`expected`).
 */
module Operations {
  import opened Wrappers
  import opened Models

  // ---------------------------------------------------------------------
  // Song updates as functions on one row
  // ---------------------------------------------------------------------

  /** The song after `update_song_rating`: new triple, interval rating +- 2 rd, compared at `now`. */
  function Rerated(s: Song, rating: real, rd: real, volatility: real, now: int): (r: Song)
    ensures r.rating == rating && r.ratingDeviation == rd && r.volatility == volatility
    ensures r.ciLower == Some(rating - 2.0 * rd) && r.ciUpper == Some(rating + 2.0 * rd)
    ensures r.lastCompared == Some(now)
    ensures r.(rating := s.rating, ratingDeviation := s.ratingDeviation, volatility := s.volatility,
               ciLower := s.ciLower, ciUpper := s.ciUpper, lastCompared := s.lastCompared) == s
  {
    s.(rating := rating, ratingDeviation := rd, volatility := volatility,
       ciLower := Some(rating - 2.0 * rd), ciUpper := Some(rating + 2.0 * rd),
       lastCompared := Some(now))
  }

  /** The stored interval is centred on the rating and contains it when rd is non-negative. */
  lemma ReratedInterval(s: Song, rating: real, rd: real, volatility: real, now: int)
    ensures var r := Rerated(s, rating, rd, volatility, now);
      && (r.ciLower.value + r.ciUpper.value) / 2.0 == r.rating
      && r.ciUpper.value - r.ciLower.value == 4.0 * r.ratingDeviation
      && (rd >= 0.0 ==> r.ciLower.value <= r.rating <= r.ciUpper.value)
  {
  }

  /** Re-rating twice with the same values is re-rating once. */
  lemma ReratedIdempotent(s: Song, rating: real, rd: real, volatility: real, now: int)
    ensures Rerated(Rerated(s, rating, rd, volatility, now), rating, rd, volatility, now)
         == Rerated(s, rating, rd, volatility, now)
  {
  }

  /** The counters are consistent: every game is exactly one win, loss or draw. */
  predicate Tallied(s: Song)
  {
    s.wins + s.losses + s.draws == s.gamesPlayed
  }

  /** The song after `update_song_stats`: one more game, and one more win (1.0), loss (0.0) or draw (anything else). */
  function Tally(s: Song, outcome: real): (r: Song)
    ensures r.gamesPlayed == s.gamesPlayed + 1
    ensures r.wins >= s.wins && r.losses >= s.losses && r.draws >= s.draws
    ensures (r.wins - s.wins) + (r.losses - s.losses) + (r.draws - s.draws) == 1
    ensures r.wins > s.wins <==> outcome == 1.0
    ensures r.losses > s.losses <==> outcome == 0.0
    ensures r.(gamesPlayed := s.gamesPlayed, wins := s.wins, losses := s.losses, draws := s.draws) == s
  {
    var played := s.(gamesPlayed := s.gamesPlayed + 1);
    if outcome == 1.0 then played.(wins := s.wins + 1)
    else if outcome == 0.0 then played.(losses := s.losses + 1)
    else played.(draws := s.draws + 1)
  }

  /** Partial results such as 0.75 and 0.25 count as draws. */
  lemma PartialOutcomesAreDraws(s: Song)
    ensures Tally(s, 0.75).draws == s.draws + 1 && Tally(s, 0.25).draws == s.draws + 1
    ensures Tally(s, 0.5).draws == s.draws + 1
  {
  }

  /** Tallying keeps the counters consistent. */
  lemma TallyKeepsTallied(s: Song, outcome: real)
    requires Tallied(s)
    ensures Tallied(Tally(s, outcome))
  {
  }

  /** Replacing a song by one with the same id and video id keeps the table's keys valid. */
  lemma SameKeysKeepValid(songs: seq<Song>, nextId: int, i: nat, s: Song)
    requires SongsValid(songs, nextId) && i < |songs|
    requires s.songId == songs[i].songId && s.youtubeVideoId == songs[i].youtubeVideoId
    ensures SongsValid(songs[i := s], nextId)
  {
  }

  // ---------------------------------------------------------------------
  // Song operations on the store
  // ---------------------------------------------------------------------

  /**
   * `add_song`: stores the row under the next id. A video id already in
   * the table violates its unique constraint: nothing is stored.
   */
  method AddSong(db: Database, data: Song) returns (r: Option<Song>)
    requires db.Valid()
    modifies db`songs, db`nextSongId
    ensures db.Valid()
    ensures r.None? <==> data.youtubeVideoId.Some? && FindSongByVideo(old(db.songs), data.youtubeVideoId.value).Some?
    ensures r.None? ==> db.songs == old(db.songs) && db.nextSongId == old(db.nextSongId)
    ensures r.Some? ==> r.value == data.(songId := old(db.nextSongId))
    ensures r.Some? ==> db.songs == old(db.songs) + [r.value] && db.nextSongId == old(db.nextSongId) + 1
  {
    if data.youtubeVideoId.Some? && FindSongByVideo(db.songs, data.youtubeVideoId.value).Some? {
      return None;
    }
    var song := data.(songId := db.nextSongId);
    db.songs := db.songs + [song];
    db.nextSongId := db.nextSongId + 1;
    r := Some(song);
  }

  /** `update_song_rating`: re-rates the song with this id; an unknown id changes nothing. */
  method UpdateSongRating(db: Database, songId: int, rating: real, rd: real, volatility: real, now: int)
    requires db.Valid()
    modifies db`songs
    ensures db.Valid()
    ensures FindSong(old(db.songs), songId).None? ==> db.songs == old(db.songs)
    ensures FindSong(old(db.songs), songId).Some? ==>
      var i := FindSong(old(db.songs), songId).value;
      db.songs == old(db.songs)[i := Rerated(old(db.songs)[i], rating, rd, volatility, now)]
  {
    var found := FindSong(db.songs, songId);
    if found.Some? {
      var i := found.value;
      var updated := Rerated(db.songs[i], rating, rd, volatility, now);
      SameKeysKeepValid(db.songs, db.nextSongId, i, updated);
      db.songs := db.songs[i := updated];
    }
  }

  /** `update_song_stats`: tallies one game for the song with this id; an unknown id changes nothing. */
  method UpdateSongStats(db: Database, songId: int, outcome: real)
    requires db.Valid()
    modifies db`songs
    ensures db.Valid()
    ensures FindSong(old(db.songs), songId).None? ==> db.songs == old(db.songs)
    ensures FindSong(old(db.songs), songId).Some? ==>
      var i := FindSong(old(db.songs), songId).value;
      db.songs == old(db.songs)[i := Tally(old(db.songs)[i], outcome)]
  {
    var found := FindSong(db.songs, songId);
    if found.Some? {
      var i := found.value;
      var updated := Tally(db.songs[i], outcome);
      SameKeysKeepValid(db.songs, db.nextSongId, i, updated);
      db.songs := db.songs[i := updated];
    }
  }

  // ---------------------------------------------------------------------
  // record_comparison
  // ---------------------------------------------------------------------

  /** The winner: song A for an outcome of 1.0, song B for 0.0, nobody otherwise. */
  function Winner(songAId: int, songBId: int, outcome: real): (w: Option<int>)
    ensures outcome == 1.0 ==> w == Some(songAId)
    ensures outcome == 0.0 ==> w == Some(songBId)
    ensures outcome != 1.0 && outcome != 0.0 ==> w.None?
  {
    if outcome == 1.0 then Some(songAId)
    else if outcome == 0.0 then Some(songBId)
    else None
  }

  /** An upset: the song given less than 40% chance won outright. */
  predicate IsUpset(expected: real, outcome: real)
  {
    (expected < 0.4 && outcome == 1.0) || (expected > 0.6 && outcome == 0.0)
  }

  /** |after - before| of song A's rating. */
  function RatingImpact(before: real, after: real): (d: real)
    ensures d >= 0.0
    ensures d == 0.0 <==> before == after
    ensures d == after - before || d == before - after
  {
    if after >= before then after - before else before - after
  }

  /** The comparison row `record_comparison` stores under id `id` at time `now`. */
  function NewComparison(
    id: int, now: int, songAId: int, songBId: int, outcome: real, outcomeType: string,
    aBefore: Snapshot, aAfter: Snapshot, bBefore: Snapshot, bAfter: Snapshot,
    mode: string, sequential: bool, expected: real): (c: Comparison)
    ensures c.comparisonId == id && c.timestamp == now
    ensures c.songAId == songAId && c.songBId == songBId
    ensures c.winnerId == Winner(songAId, songBId, outcome)
    ensures c.outcome == outcome && c.outcomeType == outcomeType
    ensures c.aBefore == aBefore && c.aAfter == aAfter && c.bBefore == bBefore && c.bAfter == bAfter
    ensures c.comparisonMode == mode && c.wasSequential == sequential
    ensures c.expectedOutcome == Some(expected)
    ensures c.wasUpset <==> IsUpset(expected, outcome)
    ensures c.ratingImpact == Some(RatingImpact(aBefore.rating, aAfter.rating))
    ensures c.userNotes.None? && !c.isUndone
  {
    Comparison(id, now, songAId, songBId, Winner(songAId, songBId, outcome), outcome, outcomeType,
               mode, sequential, aBefore, aAfter, bBefore, bAfter,
               Some(expected), Some(RatingImpact(aBefore.rating, aAfter.rating)),
               IsUpset(expected, outcome), None, false)
  }

  /** An upset always has a winner, and the winner is the song that was expected to lose. */
  lemma UpsetHasUnderdogWinner(
    id: int, now: int, songAId: int, songBId: int, outcome: real, outcomeType: string,
    aBefore: Snapshot, aAfter: Snapshot, bBefore: Snapshot, bAfter: Snapshot,
    mode: string, sequential: bool, expected: real)
    ensures var c := NewComparison(id, now, songAId, songBId, outcome, outcomeType,
                                   aBefore, aAfter, bBefore, bAfter, mode, sequential, expected);
      c.wasUpset ==>
        && c.winnerId.Some?
        && ((c.winnerId.value == songAId && expected < 0.4 && outcome == 1.0)
            || (c.winnerId.value == songBId && expected > 0.6 && outcome == 0.0))
  {
  }

  /** A draw (any outcome strictly between 0 and 1) is never an upset and has no winner. */
  lemma DrawIsNoUpset(songAId: int, songBId: int, outcome: real, expected: real)
    requires 0.0 < outcome < 1.0
    ensures Winner(songAId, songBId, outcome).None? && !IsUpset(expected, outcome)
  {
  }

  /**
   * `record_comparison`: appends the comparison row under the next id. The
   * song ids are not checked against the song table.
   */
  method RecordComparison(
    db: Database, now: int, songAId: int, songBId: int, outcome: real, outcomeType: string,
    aBefore: Snapshot, aAfter: Snapshot, bBefore: Snapshot, bAfter: Snapshot,
    mode: string, sequential: bool, expected: real) returns (c: Comparison)
    requires db.Valid()
    modifies db`comparisons, db`nextComparisonId
    ensures db.Valid()
    ensures c == NewComparison(old(db.nextComparisonId), now, songAId, songBId, outcome, outcomeType,
                               aBefore, aAfter, bBefore, bAfter, mode, sequential, expected)
    ensures db.comparisons == old(db.comparisons) + [c]
    ensures db.nextComparisonId == old(db.nextComparisonId) + 1
  {
    c := NewComparison(db.nextComparisonId, now, songAId, songBId, outcome, outcomeType,
                       aBefore, aAfter, bBefore, bAfter, mode, sequential, expected);
    db.comparisons := db.comparisons + [c];
    db.nextComparisonId := db.nextComparisonId + 1;
  }
}
