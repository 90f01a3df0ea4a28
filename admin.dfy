/**
 * The administrative operations: the pairwise duplicate scan, the merge
 * preview and the merge itself (which averages two songs into the kept one,
 * points every comparison of the merged song at the kept one and marks the
 * merged song as its alias), reclassification, language correction and the
 * data quality report. Each write appends an entry to the admin log.
 */
module Admin {
  import opened Wrappers
  import opened Text
  import opened Seqs
  import opened Models
  import Operations
  import Queries

  // ---------------------------------------------------------------------
  // find_potential_duplicates
  // ---------------------------------------------------------------------

  /** The title as compared: lower-cased, then stripped. */
  function TitleKey(s: Song): string
  {
    Strip(Lower(s.canonicalName))
  }

  /** A title with every space and hyphen removed. */
  function Squeezed(t: string): string
  {
    RemoveChar(RemoveChar(t, ' '), '-')
  }

  /**
   * The score of a pair: 1.0 for the same artist and the same title, 0.95
   * for the same artist and titles equal once spaces and hyphens are
   * removed, and no score otherwise.
   */
  function PairScore(a: Song, b: Song): (r: Option<real>)
    ensures r == Some(1.0) <==> a.artistName == b.artistName && TitleKey(a) == TitleKey(b)
    ensures r == Some(0.95) <==>
      a.artistName == b.artistName && TitleKey(a) != TitleKey(b) && Squeezed(TitleKey(a)) == Squeezed(TitleKey(b))
    ensures r.Some? ==> r.value == 1.0 || r.value == 0.95
  {
    if a.artistName != b.artistName then None
    else if TitleKey(a) == TitleKey(b) then Some(1.0)
    else if Squeezed(TitleKey(a)) == Squeezed(TitleKey(b)) then Some(0.95)
    else None
  }

  /** The score does not depend on the order of the pair. */
  lemma PairScoreSymmetric(a: Song, b: Song)
    ensures PairScore(a, b) == PairScore(b, a)
  {
  }

  /** A reported pair: the indices of its two items in listing order, and its score. */
  datatype Candidate = Candidate(i: nat, j: nat, score: real)

  /** The pairs (i, j) with i < j < m that score, in increasing j. */
  function CandidatesWith<T>(xs: seq<T>, score: (T, T) -> Option<real>, i: nat, m: nat): (r: seq<Candidate>)
    requires i < m <= |xs|
    ensures forall k :: 0 <= k < |r| ==> r[k].i == i && i < r[k].j < m
    decreases m
  {
    if m == i + 1 then []
    else
      var prev := CandidatesWith(xs, score, i, m - 1);
      match score(xs[i], xs[m - 1])
      case None => prev
      case Some(s) => prev + [Candidate(i, m - 1, s)]
  }

  /** Listing order of pairs: by first index, then by second. */
  predicate Precedes(x: Candidate, y: Candidate)
  {
    x.i < y.i || (x.i == y.i && x.j < y.j)
  }

  /** Every listed pair is in range and scores what it says. */
  predicate ScoredAsListed<T>(xs: seq<T>, score: (T, T) -> Option<real>, cs: seq<Candidate>)
  {
    forall k :: 0 <= k < |cs| ==>
      cs[k].i < cs[k].j < |xs| && score(xs[cs[k].i], xs[cs[k].j]) == Some(cs[k].score)
  }

  /** The pairs are in strictly increasing listing order, so none is listed twice. */
  predicate InListingOrder(cs: seq<Candidate>)
  {
    forall k, l :: 0 <= k < l < |cs| ==> Precedes(cs[k], cs[l])
  }

  /** The pair (i, j) scores. */
  predicate Scores<T>(xs: seq<T>, score: (T, T) -> Option<real>, i: nat, j: nat)
    requires i < |xs| && j < |xs|
  {
    score(xs[i], xs[j]).Some?
  }

  /** Every pair i < j with i < n that scores is listed. */
  predicate ListsAllBelow<T>(xs: seq<T>, score: (T, T) -> Option<real>, cs: seq<Candidate>, n: nat)
  {
    forall i: nat, j: nat :: i < n && i < j < |xs| && Scores(xs, score, i, j) ==>
      exists k :: 0 <= k < |cs| && cs[k].i == i && cs[k].j == j
  }

  /** Every j with i < j < m whose pair with i scores is listed. */
  predicate ListsRow<T>(xs: seq<T>, score: (T, T) -> Option<real>, cs: seq<Candidate>, i: nat, m: nat)
    requires m <= |xs|
  {
    forall j: nat :: i < j < m && Scores(xs, score, i, j) ==>
      exists k :: 0 <= k < |cs| && cs[k].j == j
  }

  /**
   * Row i of the scan: every pair it lists scores what it says, the second
   * indices increase, and every j that scores is listed.
   */
  lemma {:induction false} CandidatesWithCorrect<T>(xs: seq<T>, score: (T, T) -> Option<real>, i: nat, m: nat)
    requires i < m <= |xs|
    ensures ScoredAsListed(xs, score, CandidatesWith(xs, score, i, m))
    ensures InListingOrder(CandidatesWith(xs, score, i, m))
    ensures ListsRow(xs, score, CandidatesWith(xs, score, i, m), i, m)
    decreases m
  {
    if m > i + 1 {
      CandidatesWithCorrect(xs, score, i, m - 1);
      CandidatesWithStep(xs, score, i, m);
    }
  }

  /** The step of `CandidatesWith`: pair (i, m - 1) is appended when it scores. */
  lemma CandidatesWithStep<T>(xs: seq<T>, score: (T, T) -> Option<real>, i: nat, m: nat)
    requires i + 1 < m <= |xs|
    requires var prev := CandidatesWith(xs, score, i, m - 1);
      ScoredAsListed(xs, score, prev) && InListingOrder(prev) && ListsRow(xs, score, prev, i, m - 1)
    ensures ScoredAsListed(xs, score, CandidatesWith(xs, score, i, m))
    ensures InListingOrder(CandidatesWith(xs, score, i, m))
    ensures ListsRow(xs, score, CandidatesWith(xs, score, i, m), i, m)
  {
    var prev := CandidatesWith(xs, score, i, m - 1);
    if score(xs[i], xs[m - 1]).Some? {
      var c := Candidate(i, m - 1, score(xs[i], xs[m - 1]).value);
      assert CandidatesWith(xs, score, i, m) == prev + [c];
      CandidateAppended(xs, score, i, m, prev, c);
    } else {
      assert !Scores(xs, score, i, m - 1);
    }
  }

  /** A scoring pair (i, m - 1) appended after row i's pairs below m - 1 keeps the row correct. */
  lemma CandidateAppended<T>(xs: seq<T>, score: (T, T) -> Option<real>, i: nat, m: nat,
                             prev: seq<Candidate>, c: Candidate)
    requires i + 1 < m <= |xs|
    requires forall k :: 0 <= k < |prev| ==> prev[k].i == i && i < prev[k].j < m - 1
    requires ScoredAsListed(xs, score, prev) && InListingOrder(prev) && ListsRow(xs, score, prev, i, m - 1)
    requires c == Candidate(i, m - 1, c.score) && score(xs[i], xs[m - 1]) == Some(c.score)
    ensures ScoredAsListed(xs, score, prev + [c])
    ensures InListingOrder(prev + [c])
    ensures ListsRow(xs, score, prev + [c], i, m)
  {
    var r := prev + [c];
    forall k, l | 0 <= k < l < |r| ensures Precedes(r[k], r[l]) {
      if l < |prev| {
        assert r[k] == prev[k] && r[l] == prev[l];
      } else {
        assert r[k] == prev[k] && r[l] == c;
      }
    }
    forall j: nat | i < j < m && Scores(xs, score, i, j)
      ensures exists k :: 0 <= k < |r| && r[k].j == j
    {
      if j == m - 1 {
        assert r[|prev|].j == j;
      } else {
        var k :| 0 <= k < |prev| && prev[k].j == j;
        assert r[k] == prev[k];
      }
    }
  }

  /** All scoring pairs whose first index is below `n`, row by row. */
  function CandidatesUpTo<T>(xs: seq<T>, score: (T, T) -> Option<real>, n: nat): (r: seq<Candidate>)
    requires n <= |xs|
    ensures forall k :: 0 <= k < |r| ==> r[k].i < n && r[k].i < r[k].j < |xs|
  {
    if n == 0 then []
    else CandidatesUpTo(xs, score, n - 1) + CandidatesWith(xs, score, n - 1, |xs|)
  }

  /**
   * The whole scan below row n: every listed pair scores what it says, the
   * pairs are in strictly increasing listing order (so none is listed
   * twice), and every pair i < j with i < n that scores is listed.
   */
  lemma {:induction false} CandidatesUpToCorrect<T>(xs: seq<T>, score: (T, T) -> Option<real>, n: nat)
    requires n <= |xs|
    ensures ScoredAsListed(xs, score, CandidatesUpTo(xs, score, n))
    ensures InListingOrder(CandidatesUpTo(xs, score, n))
    ensures ListsAllBelow(xs, score, CandidatesUpTo(xs, score, n), n)
  {
    if n > 0 {
      CandidatesUpToCorrect(xs, score, n - 1);
      CandidatesWithCorrect(xs, score, n - 1, |xs|);
      CandidatesStep(xs, score, n);
    }
  }

  /** The step of `CandidatesUpTo`, stated on the rows before n - 1 and row n - 1. */
  lemma CandidatesStep<T>(xs: seq<T>, score: (T, T) -> Option<real>, n: nat)
    requires 0 < n <= |xs|
    requires var prev := CandidatesUpTo(xs, score, n - 1);
      ScoredAsListed(xs, score, prev) && InListingOrder(prev) && ListsAllBelow(xs, score, prev, n - 1)
    requires var last := CandidatesWith(xs, score, n - 1, |xs|);
      ScoredAsListed(xs, score, last) && InListingOrder(last) && ListsRow(xs, score, last, n - 1, |xs|)
    ensures ScoredAsListed(xs, score, CandidatesUpTo(xs, score, n))
    ensures InListingOrder(CandidatesUpTo(xs, score, n))
    ensures ListsAllBelow(xs, score, CandidatesUpTo(xs, score, n), n)
  {
    CandidatesJoin(xs, score, n, CandidatesUpTo(xs, score, n - 1), CandidatesWith(xs, score, n - 1, |xs|));
  }

  /** The step of `CandidatesUpTo`: the pairs of row n - 1 follow those of the rows before. */
  lemma CandidatesJoin<T>(xs: seq<T>, score: (T, T) -> Option<real>, n: nat, prev: seq<Candidate>, last: seq<Candidate>)
    requires 0 < n <= |xs|
    requires forall k :: 0 <= k < |prev| ==> prev[k].i < n - 1
    requires ScoredAsListed(xs, score, prev) && InListingOrder(prev) && ListsAllBelow(xs, score, prev, n - 1)
    requires forall k :: 0 <= k < |last| ==> last[k].i == n - 1
    requires ScoredAsListed(xs, score, last) && InListingOrder(last) && ListsRow(xs, score, last, n - 1, |xs|)
    ensures ScoredAsListed(xs, score, prev + last)
    ensures InListingOrder(prev + last)
    ensures ListsAllBelow(xs, score, prev + last, n)
  {
    var r := prev + last;
    forall k | 0 <= k < |r|
      ensures r[k].i < r[k].j < |xs| && score(xs[r[k].i], xs[r[k].j]) == Some(r[k].score)
    {
      if k < |prev| {
        assert r[k] == prev[k];
      } else {
        assert r[k] == last[k - |prev|];
      }
    }
    forall k, l | 0 <= k < l < |r| ensures Precedes(r[k], r[l]) {
      if l < |prev| {
        assert r[k] == prev[k] && r[l] == prev[l];
      } else if k < |prev| {
        assert r[k] == prev[k] && r[l] == last[l - |prev|];
      } else {
        assert r[k] == last[k - |prev|] && r[l] == last[l - |prev|];
      }
    }
    forall i: nat, j: nat | i < n && i < j < |xs| && Scores(xs, score, i, j)
      ensures exists k :: 0 <= k < |r| && r[k].i == i && r[k].j == j
    {
      if i < n - 1 {
        var k :| 0 <= k < |prev| && prev[k].i == i && prev[k].j == j;
        assert r[k] == prev[k];
      } else {
        var k :| 0 <= k < |last| && last[k].j == j;
        assert r[|prev| + k] == last[k];
      }
    }
  }

  /** The items a list of candidates names, with the scores. */
  function PairsOf<T>(xs: seq<T>, cs: seq<Candidate>): (r: seq<(T, T, real)>)
    requires forall k :: 0 <= k < |cs| ==> cs[k].i < |xs| && cs[k].j < |xs|
    ensures |r| == |cs|
    ensures forall k :: 0 <= k < |cs| ==> r[k] == (xs[cs[k].i], xs[cs[k].j], cs[k].score)
  {
    seq(|cs|, k requires 0 <= k < |cs| => (xs[cs[k].i], xs[cs[k].j], cs[k].score))
  }

  /** Naming the pairs of two lists of candidates in turn names the pairs of the joined list. */
  lemma PairsOfAppend<T>(xs: seq<T>, a: seq<Candidate>, b: seq<Candidate>)
    requires forall k :: 0 <= k < |a| ==> a[k].i < |xs| && a[k].j < |xs|
    requires forall k :: 0 <= k < |b| ==> b[k].i < |xs| && b[k].j < |xs|
    ensures PairsOf(xs, a + b) == PairsOf(xs, a) + PairsOf(xs, b)
  {
  }

  /** What the scan has reported when it is at pair (i, j): rows before i, then row i up to j. */
  function Scanned<T>(xs: seq<T>, score: (T, T) -> Option<real>, i: nat, j: nat): seq<(T, T, real)>
    requires i < j <= |xs|
  {
    PairsOf(xs, CandidatesUpTo(xs, score, i) + CandidatesWith(xs, score, i, j))
  }

  /** One step of the inner scan: pair (i, j) is reported exactly when it scores. */
  lemma ScanStep<T>(xs: seq<T>, score: (T, T) -> Option<real>, i: nat, j: nat)
    requires i < j < |xs|
    ensures score(xs[i], xs[j]).None? ==> Scanned(xs, score, i, j + 1) == Scanned(xs, score, i, j)
    ensures score(xs[i], xs[j]).Some? ==>
      Scanned(xs, score, i, j + 1) == Scanned(xs, score, i, j) + [(xs[i], xs[j], score(xs[i], xs[j]).value)]
  {
    var upTo := CandidatesUpTo(xs, score, i);
    var with := CandidatesWith(xs, score, i, j);
    if score(xs[i], xs[j]).Some? {
      var c := Candidate(i, j, score(xs[i], xs[j]).value);
      assert CandidatesWith(xs, score, i, j + 1) == with + [c];
      assert upTo + (with + [c]) == (upTo + with) + [c];
      PairsOfAppend(xs, upTo + with, [c]);
    }
  }

  /** A row starts where the rows before it end, and a finished row is one more row done. */
  lemma ScanRows<T>(xs: seq<T>, score: (T, T) -> Option<real>, i: nat)
    requires i < |xs|
    ensures Scanned(xs, score, i, i + 1) == PairsOf(xs, CandidatesUpTo(xs, score, i))
    ensures Scanned(xs, score, i, |xs|) == PairsOf(xs, CandidatesUpTo(xs, score, i + 1))
  {
    assert CandidatesUpTo(xs, score, i) + [] == CandidatesUpTo(xs, score, i);
  }

  /**
   * What `find_potential_duplicates` returns for the song table in listing
   * order: every scoring pair i < j exactly once, by i and then j.
   */
  function PotentialDuplicates(songs: seq<Song>): (r: seq<DuplicatePair>)
    ensures forall k :: 0 <= k < |r| ==> r[k].0 in songs && r[k].1 in songs
    ensures forall k :: 0 <= k < |r| ==> PairScore(r[k].0, r[k].1) == Some(r[k].2)
  {
    CandidatesUpToCorrect(songs, PairScore, |songs|);
    PairsOf(songs, CandidatesUpTo(songs, PairScore, |songs|))
  }

  /** Every pair of songs i < j that scores is reported, with its score. */
  lemma PotentialDuplicatesComplete(songs: seq<Song>, i: nat, j: nat)
    requires i < j < |songs| && PairScore(songs[i], songs[j]).Some?
    ensures (songs[i], songs[j], PairScore(songs[i], songs[j]).value) in PotentialDuplicates(songs)
  {
    CandidatesUpToCorrect(songs, PairScore, |songs|);
    var cs := CandidatesUpTo(songs, PairScore, |songs|);
    assert Scores(songs, PairScore, i, j);
    var k :| 0 <= k < |cs| && cs[k].i == i && cs[k].j == j;
    assert PotentialDuplicates(songs)[k] == (songs[i], songs[j], PairScore(songs[i], songs[j]).value);
  }

  /** A duplicate report entry: (song_a, song_b, score). */
  type DuplicatePair = (Song, Song, real)

  /**
   * The nested loop of `find_potential_duplicates`: every pair i < j in
   * listing order, reporting the pairs `score` accepts.
   */
  method ScanPairs<T>(xs: seq<T>, score: (T, T) -> Option<real>) returns (found: seq<(T, T, real)>)
    ensures found == PairsOf(xs, CandidatesUpTo(xs, score, |xs|))
  {
    found := [];
    var i := 0;
    while i < |xs|
      invariant 0 <= i <= |xs|
      invariant found == PairsOf(xs, CandidatesUpTo(xs, score, i))
    {
      ScanRows(xs, score, i);
      found := ScanRow(xs, score, i, found);
      i := i + 1;
    }
  }

  /** The inner loop of the scan: the pairs of row i that `score` accepts, appended to `found`. */
  method ScanRow<T>(xs: seq<T>, score: (T, T) -> Option<real>, i: nat, found0: seq<(T, T, real)>)
    returns (found: seq<(T, T, real)>)
    requires i < |xs| && found0 == Scanned(xs, score, i, i + 1)
    ensures found == Scanned(xs, score, i, |xs|)
  {
    found := found0;
    var j := i + 1;
    while j < |xs|
      invariant i + 1 <= j <= |xs|
      invariant found == Scanned(xs, score, i, j)
    {
      ScanStep(xs, score, i, j);
      var s := score(xs[i], xs[j]);
      if s.Some? {
        found := found + [(xs[i], xs[j], s.value)];
      }
      j := j + 1;
    }
  }

  /** `find_potential_duplicates`: the scan over all songs with the title score. */
  method FindPotentialDuplicates(songs: seq<Song>) returns (dups: seq<DuplicatePair>)
    ensures dups == PotentialDuplicates(songs)
  {
    dups := ScanPairs(songs, PairScore);
  }

  // ---------------------------------------------------------------------
  // preview_merge
  // ---------------------------------------------------------------------

  function Max(x: real, y: real): real { if x >= y then x else y }

  function Min(x: real, y: real): real { if x <= y then x else y }

  /**
   * The combination rule: without games, the mean rating and the larger
   * (less confident) RD and volatility; with games, the games-weighted
   * rating, the smaller (more confident) RD and the mean volatility.
   */
  function CombinedRating(s1: Song, s2: Song): (r: Snapshot)
    ensures s1.gamesPlayed + s2.gamesPlayed == 0 ==>
      && r.rating - s1.rating == s2.rating - r.rating
      && r.rd >= s1.ratingDeviation && r.rd >= s2.ratingDeviation
      && (r.rd == s1.ratingDeviation || r.rd == s2.ratingDeviation)
      && r.vol >= s1.volatility && r.vol >= s2.volatility
      && (r.vol == s1.volatility || r.vol == s2.volatility)
    ensures s1.gamesPlayed + s2.gamesPlayed != 0 ==>
      && r.rating * (s1.gamesPlayed + s2.gamesPlayed) as real
         == s1.rating * s1.gamesPlayed as real + s2.rating * s2.gamesPlayed as real
      && r.rd <= s1.ratingDeviation && r.rd <= s2.ratingDeviation
      && (r.rd == s1.ratingDeviation || r.rd == s2.ratingDeviation)
      && r.vol - s1.volatility == s2.volatility - r.vol
  {
    var total := s1.gamesPlayed + s2.gamesPlayed;
    if total == 0 then
      Snapshot((s1.rating + s2.rating) / 2.0,
               Max(s1.ratingDeviation, s2.ratingDeviation),
               Max(s1.volatility, s2.volatility))
    else
      var weighted := s1.rating * s1.gamesPlayed as real + s2.rating * s2.gamesPlayed as real;
      var rating := weighted / total as real;
      assert rating * total as real == weighted;
      Snapshot(rating,
               Min(s1.ratingDeviation, s2.ratingDeviation),
               (s1.volatility + s2.volatility) / 2.0)
  }

  /** With non-negative game counts the merged rating lies between the two ratings. */
  lemma {:induction false} CombinedRatingBetween(s1: Song, s2: Song)
    requires s1.gamesPlayed >= 0 && s2.gamesPlayed >= 0
    ensures Min(s1.rating, s2.rating) <= CombinedRating(s1, s2).rating <= Max(s1.rating, s2.rating)
  {
    var g1, g2 := s1.gamesPlayed as real, s2.gamesPlayed as real;
    if s1.gamesPlayed + s2.gamesPlayed != 0 {
      var lo, hi := Min(s1.rating, s2.rating), Max(s1.rating, s2.rating);
      var sum := s1.rating * g1 + s2.rating * g2;
      assert lo * g1 <= s1.rating * g1 <= hi * g1;
      assert lo * g2 <= s2.rating * g2 <= hi * g2;
      var n := s1.gamesPlayed + s2.gamesPlayed;
      assert n as real * lo <= sum <= n as real * hi;
      Queries.MeanBetween(sum, n, lo, hi);
    }
  }

  /** The number of comparisons naming this song on either side, undone ones included. */
  function CountNaming(comparisons: seq<Comparison>, id: int): (n: nat)
    ensures n <= |comparisons|
    ensures n == 0 <==> forall k :: 0 <= k < |comparisons| ==> comparisons[k].songAId != id && comparisons[k].songBId != id
  {
    if comparisons == [] then 0
    else
      var c := comparisons[0];
      assert forall k :: 1 <= k < |comparisons| ==> comparisons[k] == comparisons[1..][k - 1];
      (if c.songAId == id || c.songBId == id then 1 else 0) + CountNaming(comparisons[1..], id)
  }

  /** What `preview_merge` reports. */
  datatype MergePreview = MergePreview(
    first: Song,
    second: Song,
    merged: Snapshot,
    games: int,
    wins: int,
    losses: int,
    draws: int,
    comparisonsAffected: nat)

  /**
   * `preview_merge`: nothing if either song is missing; otherwise the two
   * songs, their combined rating, the sums of their counters and the number
   * of comparisons naming the second song.
   */
  function PreviewMerge(songs: seq<Song>, comparisons: seq<Comparison>, id1: int, id2: int): (r: Option<MergePreview>)
    ensures r.None? <==> FindSong(songs, id1).None? || FindSong(songs, id2).None?
    ensures r.Some? ==>
      var s1 := songs[FindSong(songs, id1).value];
      var s2 := songs[FindSong(songs, id2).value];
      && r.value.first == s1 && r.value.second == s2
      && r.value.merged == CombinedRating(s1, s2)
      && r.value.games == s1.gamesPlayed + s2.gamesPlayed
      && r.value.wins == s1.wins + s2.wins
      && r.value.losses == s1.losses + s2.losses
      && r.value.draws == s1.draws + s2.draws
      && r.value.comparisonsAffected == CountNaming(comparisons, id2)
  {
    match (FindSong(songs, id1), FindSong(songs, id2))
    case (Some(i1), Some(i2)) =>
      var s1, s2 := songs[i1], songs[i2];
      Some(MergePreview(s1, s2, CombinedRating(s1, s2),
                        s1.gamesPlayed + s2.gamesPlayed, s1.wins + s2.wins,
                        s1.losses + s2.losses, s1.draws + s2.draws,
                        CountNaming(comparisons, id2)))
    case _ => None
  }

  /** Counters that were consistent stay consistent when two songs are merged. */
  lemma PreviewKeepsTallied(songs: seq<Song>, comparisons: seq<Comparison>, id1: int, id2: int)
    requires PreviewMerge(songs, comparisons, id1, id2).Some?
    requires Operations.Tallied(songs[FindSong(songs, id1).value])
    requires Operations.Tallied(songs[FindSong(songs, id2).value])
    ensures var p := PreviewMerge(songs, comparisons, id1, id2).value;
      p.wins + p.losses + p.draws == p.games
  {
  }

  // ---------------------------------------------------------------------
  // merge_songs
  // ---------------------------------------------------------------------

  /** The kept song after a merge: the preview's rating and counters, interval rating +- 2 rd. */
  function Absorbed(keep: Song, p: MergePreview): (r: Song)
    ensures r.rating == p.merged.rating && r.ratingDeviation == p.merged.rd && r.volatility == p.merged.vol
    ensures r.gamesPlayed == p.games && r.wins == p.wins && r.losses == p.losses && r.draws == p.draws
    ensures r.ciLower == Some(r.rating - 2.0 * r.ratingDeviation)
    ensures r.ciUpper == Some(r.rating + 2.0 * r.ratingDeviation)
    ensures r.(rating := keep.rating, ratingDeviation := keep.ratingDeviation, volatility := keep.volatility,
               gamesPlayed := keep.gamesPlayed, wins := keep.wins, losses := keep.losses, draws := keep.draws,
               ciLower := keep.ciLower, ciUpper := keep.ciUpper) == keep
  {
    keep.(rating := p.merged.rating, ratingDeviation := p.merged.rd, volatility := p.merged.vol,
          gamesPlayed := p.games, wins := p.wins, losses := p.losses, draws := p.draws,
          ciLower := Some(p.merged.rating - 2.0 * p.merged.rd),
          ciUpper := Some(p.merged.rating + 2.0 * p.merged.rd))
  }

  /** The merged song after a merge: a variant of type 'alias' pointing at the kept song. */
  function Aliased(s: Song, keepId: int): (r: Song)
    ensures !r.isOriginal && r.originalSongId == Some(keepId) && r.variantType == Some("alias")
    ensures r.(isOriginal := s.isOriginal, originalSongId := s.originalSongId, variantType := s.variantType) == s
  {
    s.(isOriginal := false, originalSongId := Some(keepId), variantType := Some("alias"))
  }

  /** One comparison after the two bulk updates: each side naming the merged song now names the kept one. */
  function Redirected(c: Comparison, mergeId: int, keepId: int): (r: Comparison)
    ensures r.songAId == (if c.songAId == mergeId then keepId else c.songAId)
    ensures r.songBId == (if c.songBId == mergeId then keepId else c.songBId)
    ensures r.(songAId := c.songAId, songBId := c.songBId) == c
  {
    c.(songAId := if c.songAId == mergeId then keepId else c.songAId,
       songBId := if c.songBId == mergeId then keepId else c.songBId)
  }

  /** Every comparison redirected. */
  function RedirectAll(cs: seq<Comparison>, mergeId: int, keepId: int): (r: seq<Comparison>)
    ensures |r| == |cs|
    ensures forall k :: 0 <= k < |cs| ==> r[k] == Redirected(cs[k], mergeId, keepId)
  {
    seq(|cs|, k requires 0 <= k < |cs| => Redirected(cs[k], mergeId, keepId))
  }

  /** After redirecting to a different song, no comparison names the merged song. */
  lemma RedirectRemovesMerged(cs: seq<Comparison>, mergeId: int, keepId: int)
    requires mergeId != keepId
    ensures forall k :: 0 <= k < |cs| ==>
      RedirectAll(cs, mergeId, keepId)[k].songAId != mergeId && RedirectAll(cs, mergeId, keepId)[k].songBId != mergeId
    ensures CountNaming(RedirectAll(cs, mergeId, keepId), mergeId) == 0
  {
  }

  /** A comparison not naming the merged song, undone or not, is left exactly as it was. */
  lemma RedirectKeepsOthers(cs: seq<Comparison>, mergeId: int, keepId: int, k: nat)
    requires k < |cs| && cs[k].songAId != mergeId && cs[k].songBId != mergeId
    ensures RedirectAll(cs, mergeId, keepId)[k] == cs[k]
  {
  }

  /** Redirecting keeps comparison ids, so the table's keys stay valid. */
  lemma RedirectKeepsValid(cs: seq<Comparison>, nextId: int, mergeId: int, keepId: int)
    requires ComparisonsValid(cs, nextId)
    ensures ComparisonsValid(RedirectAll(cs, mergeId, keepId), nextId)
  {
    var r := RedirectAll(cs, mergeId, keepId);
    assert forall k :: 0 <= k < |cs| ==> r[k].comparisonId == cs[k].comparisonId;
  }

  /**
   * The song table after `merge_songs(keepId, mergeId)`: the kept song
   * absorbs the preview, then the merged song (looked up in the updated
   * table) is marked as an alias of the kept one.
   */
  function MergedSongs(songs: seq<Song>, comparisons: seq<Comparison>, keepId: int, mergeId: int): (r: seq<Song>)
    requires FindSong(songs, keepId).Some? && FindSong(songs, mergeId).Some?
    ensures |r| == |songs|
  {
    var k := FindSong(songs, keepId).value;
    var m := FindSong(songs, mergeId).value;
    var p := PreviewMerge(songs, comparisons, keepId, mergeId).value;
    var absorbed := songs[k := Absorbed(songs[k], p)];
    absorbed[m := Aliased(absorbed[m], keepId)]
  }

  /** Merging two different songs: the kept one absorbs, the other becomes its alias, nothing else changes. */
  lemma MergeDistinctEffects(songs: seq<Song>, comparisons: seq<Comparison>, keepId: int, mergeId: int)
    requires FindSong(songs, keepId).Some? && FindSong(songs, mergeId).Some? && keepId != mergeId
    ensures var r := MergedSongs(songs, comparisons, keepId, mergeId);
      var k := FindSong(songs, keepId).value;
      var m := FindSong(songs, mergeId).value;
      var keep, gone := songs[k], songs[m];
      && r[k].gamesPlayed == keep.gamesPlayed + gone.gamesPlayed
      && r[k].wins == keep.wins + gone.wins
      && r[k].losses == keep.losses + gone.losses
      && r[k].draws == keep.draws + gone.draws
      && r[k].isOriginal == keep.isOriginal
      && r[m] == Aliased(gone, keepId)
      && (forall x :: 0 <= x < |songs| && x != k && x != m ==> r[x] == songs[x])
  {
  }

  /** Merging keeps every song id and video id, so the table's keys stay valid. */
  lemma MergedSongsKeepValid(songs: seq<Song>, comparisons: seq<Comparison>, nextId: int, keepId: int, mergeId: int)
    requires SongsValid(songs, nextId)
    requires FindSong(songs, keepId).Some? && FindSong(songs, mergeId).Some?
    ensures SongsValid(MergedSongs(songs, comparisons, keepId, mergeId), nextId)
  {
    var k := FindSong(songs, keepId).value;
    var m := FindSong(songs, mergeId).value;
    var p := PreviewMerge(songs, comparisons, keepId, mergeId).value;
    var absorbed := songs[k := Absorbed(songs[k], p)];
    Operations.SameKeysKeepValid(songs, nextId, k, Absorbed(songs[k], p));
    Operations.SameKeysKeepValid(absorbed, nextId, m, Aliased(absorbed[m], keepId));
  }

  /** The two bulk updates of `merge_songs` on the comparison table, row by row. */
  method RedirectComparisons(db: Database, mergeId: int, keepId: int)
    requires db.Valid() && ComparisonsValid(RedirectAll(db.comparisons, mergeId, keepId), db.nextComparisonId)
    modifies db`comparisons
    ensures db.comparisons == RedirectAll(old(db.comparisons), mergeId, keepId)
    ensures db.Valid()
    ensures db.songs == old(db.songs) && db.adminLog == old(db.adminLog)
  {
    var i := 0;
    while i < |db.comparisons|
      invariant 0 <= i <= |db.comparisons| == |old(db.comparisons)|
      invariant db.comparisons[..i] == RedirectAll(old(db.comparisons)[..i], mergeId, keepId)
      invariant db.comparisons[i..] == old(db.comparisons)[i..]
    {
      var c := db.comparisons[i];
      assert c == old(db.comparisons)[i];
      db.comparisons := db.comparisons[i := Redirected(c, mergeId, keepId)];
      i := i + 1;
    }
    assert db.comparisons == db.comparisons[..i];
    assert old(db.comparisons) == old(db.comparisons)[..i];
  }

  /**
   * `merge_songs`: false, and nothing changed, when either song is missing
   * or the transaction fails (`fails`: any error before the commit, which
   * rolls everything back). Otherwise the kept song absorbs the merged one,
   * every comparison naming the merged song is redirected, the merged song
   * becomes an alias, and the action is logged. Album links are untouched.
   */
  method MergeSongs(db: Database, keepId: int, mergeId: int, fails: bool) returns (ok: bool)
    requires db.Valid()
    modifies db`songs, db`comparisons, db`adminLog
    ensures db.Valid()
    ensures ok <==> FindSong(old(db.songs), keepId).Some? && FindSong(old(db.songs), mergeId).Some? && !fails
    ensures !ok ==> db.songs == old(db.songs) && db.comparisons == old(db.comparisons) && db.adminLog == old(db.adminLog)
    ensures ok ==> db.songs == MergedSongs(old(db.songs), old(db.comparisons), keepId, mergeId)
    ensures ok ==> db.comparisons == RedirectAll(old(db.comparisons), mergeId, keepId)
    ensures ok ==> db.adminLog == old(db.adminLog) + [AdminAction("merge_songs", [keepId, mergeId])]
  {
    var keep := FindSong(db.songs, keepId);
    var merge := FindSong(db.songs, mergeId);
    if keep.None? || merge.None? || fails {
      return false;
    }
    ApplyMerge(db, keepId, mergeId);
    ok := true;
  }

  /** The writes of a merge of two present songs, in the order `merge_songs` issues them. */
  method ApplyMerge(db: Database, keepId: int, mergeId: int)
    requires db.Valid()
    requires FindSong(db.songs, keepId).Some? && FindSong(db.songs, mergeId).Some?
    modifies db`songs, db`comparisons, db`adminLog
    ensures db.Valid()
    ensures db.songs == MergedSongs(old(db.songs), old(db.comparisons), keepId, mergeId)
    ensures db.comparisons == RedirectAll(old(db.comparisons), mergeId, keepId)
    ensures db.adminLog == old(db.adminLog) + [AdminAction("merge_songs", [keepId, mergeId])]
  {
    var absorbed, aliased := PlanMerge(db.songs, db.comparisons, db.nextSongId, keepId, mergeId);
    RedirectKeepsValid(db.comparisons, db.nextComparisonId, mergeId, keepId);
    StoreSongs(db, absorbed);
    RedirectComparisons(db, mergeId, keepId);
    StoreSongs(db, aliased);
    LogAction(db, AdminAction("merge_songs", [keepId, mergeId]));
  }

  /**
   * The two song updates of a merge: the kept song absorbs the preview's
   * counters and rating, then the merged song becomes its alias.
   */
  method PlanMerge(songs: seq<Song>, comparisons: seq<Comparison>, nextId: int, keepId: int, mergeId: int)
    returns (absorbed: seq<Song>, aliased: seq<Song>)
    requires SongsValid(songs, nextId)
    requires FindSong(songs, keepId).Some? && FindSong(songs, mergeId).Some?
    ensures SongsValid(absorbed, nextId) && SongsValid(aliased, nextId)
    ensures aliased == MergedSongs(songs, comparisons, keepId, mergeId)
  {
    var preview := PreviewMerge(songs, comparisons, keepId, mergeId).value;
    var k, m := FindSong(songs, keepId).value, FindSong(songs, mergeId).value;
    absorbed := songs[k := Absorbed(songs[k], preview)];
    aliased := absorbed[m := Aliased(absorbed[m], keepId)];
    MergedSongsKeepValid(songs, comparisons, nextId, keepId, mergeId);
    Operations.SameKeysKeepValid(songs, nextId, k, Absorbed(songs[k], preview));
  }

  /** Appends an entry to the administrative action log. */
  method LogAction(db: Database, action: AdminAction)
    requires db.Valid()
    modifies db`adminLog
    ensures db.Valid() && db.adminLog == old(db.adminLog) + [action]
  {
    db.adminLog := db.adminLog + [action];
  }

  /** Writes back the song table; the new rows keep the keys valid. */
  method StoreSongs(db: Database, songs: seq<Song>)
    requires db.Valid() && SongsValid(songs, db.nextSongId)
    modifies db`songs
    ensures db.Valid() && db.songs == songs
    ensures db.comparisons == old(db.comparisons) && db.adminLog == old(db.adminLog)
  {
    db.songs := songs;
  }

  /**
   * Merging a song into itself, as written: the song absorbs its own
   * counters (so every game is counted twice) and is then marked as an
   * alias of itself, an original that no longer is one.
   */
  lemma SelfMergeAsWritten(songs: seq<Song>, comparisons: seq<Comparison>, id: int)
    requires FindSong(songs, id).Some?
    ensures var k := FindSong(songs, id).value;
      var r := MergedSongs(songs, comparisons, id, id);
      && r[k].gamesPlayed == 2 * songs[k].gamesPlayed
      && r[k].wins == 2 * songs[k].wins
      && r[k].originalSongId == Some(r[k].songId)
      && !r[k].isOriginal
  {
  }

  /**
   * `merge_songs` with the two ids required to differ: merging a song into
   * itself is refused. After a merge no comparison names the merged song,
   * the kept song holds the counters of both, and the merged song is an
   * alias of a different song.
   */
  method MergeDistinctSongs(db: Database, keepId: int, mergeId: int, fails: bool) returns (ok: bool)
    requires db.Valid()
    modifies db`songs, db`comparisons, db`adminLog
    ensures db.Valid()
    ensures ok <==>
      keepId != mergeId && FindSong(old(db.songs), keepId).Some? && FindSong(old(db.songs), mergeId).Some? && !fails
    ensures !ok ==> db.songs == old(db.songs) && db.comparisons == old(db.comparisons) && db.adminLog == old(db.adminLog)
    ensures ok ==> db.songs == MergedSongs(old(db.songs), old(db.comparisons), keepId, mergeId)
    ensures ok ==> forall k :: 0 <= k < |db.comparisons| ==>
      db.comparisons[k].songAId != mergeId && db.comparisons[k].songBId != mergeId
    ensures ok ==>
      var k := FindSong(old(db.songs), keepId).value;
      var m := FindSong(old(db.songs), mergeId).value;
      && db.songs[k].gamesPlayed == old(db.songs)[k].gamesPlayed + old(db.songs)[m].gamesPlayed
      && db.songs[m].originalSongId == Some(keepId) && keepId != db.songs[m].songId
  {
    if keepId == mergeId || FindSong(db.songs, keepId).None? || FindSong(db.songs, mergeId).None? {
      return false;
    }
    MergeDistinctEffects(db.songs, db.comparisons, keepId, mergeId);
    RedirectRemovesMerged(db.comparisons, mergeId, keepId);
    ok := MergeSongs(db, keepId, mergeId, fails);
  }

  // ---------------------------------------------------------------------
  // update_variant_classification / update_song_language
  // ---------------------------------------------------------------------

  /** A song after reclassification: exactly the three classification fields replaced. */
  function Reclassified(s: Song, isOriginal: bool, variantType: Option<string>, originalSongId: Option<int>): (r: Song)
    ensures r.isOriginal == isOriginal && r.variantType == variantType && r.originalSongId == originalSongId
    ensures r.(isOriginal := s.isOriginal, variantType := s.variantType, originalSongId := s.originalSongId) == s
  {
    s.(isOriginal := isOriginal, variantType := variantType, originalSongId := originalSongId)
  }

  /**
   * `update_variant_classification`: false, and nothing changed, for an
   * unknown song or a failed transaction; otherwise the three fields are
   * overwritten and the action logged. The target id is not checked.
   */
  method UpdateVariantClassification(
    db: Database, songId: int, isOriginal: bool, variantType: Option<string>, originalSongId: Option<int>, fails: bool)
    returns (ok: bool)
    requires db.Valid()
    modifies db`songs, db`adminLog
    ensures db.Valid()
    ensures ok <==> FindSong(old(db.songs), songId).Some? && !fails
    ensures !ok ==> db.songs == old(db.songs) && db.adminLog == old(db.adminLog)
    ensures ok ==>
      var i := FindSong(old(db.songs), songId).value;
      && db.songs == old(db.songs)[i := Reclassified(old(db.songs)[i], isOriginal, variantType, originalSongId)]
      && db.adminLog == old(db.adminLog) + [AdminAction("update_classification", [songId])]
  {
    var found := FindSong(db.songs, songId);
    if found.None? || fails {
      return false;
    }
    var i := found.value;
    var updated := Reclassified(db.songs[i], isOriginal, variantType, originalSongId);
    Operations.SameKeysKeepValid(db.songs, db.nextSongId, i, updated);
    db.songs := db.songs[i := updated];
    LogAction(db, AdminAction("update_classification", [songId]));
    ok := true;
  }

  /**
   * `update_song_language`: false, and nothing changed, for an unknown song
   * or a failed transaction; otherwise only the language is replaced and the
   * action logged.
   */
  method UpdateSongLanguage(db: Database, songId: int, language: string, fails: bool) returns (ok: bool)
    requires db.Valid()
    modifies db`songs, db`adminLog
    ensures db.Valid()
    ensures ok <==> FindSong(old(db.songs), songId).Some? && !fails
    ensures !ok ==> db.songs == old(db.songs) && db.adminLog == old(db.adminLog)
    ensures ok ==>
      var i := FindSong(old(db.songs), songId).value;
      && db.songs == old(db.songs)[i := old(db.songs)[i].(language := language)]
      && db.adminLog == old(db.adminLog) + [AdminAction("update_language", [songId])]
  {
    var found := FindSong(db.songs, songId);
    if found.None? || fails {
      return false;
    }
    var i := found.value;
    var updated := db.songs[i].(language := language);
    Operations.SameKeysKeepValid(db.songs, db.nextSongId, i, updated);
    db.songs := db.songs[i := updated];
    LogAction(db, AdminAction("update_language", [songId]));
    ok := true;
  }

  // ---------------------------------------------------------------------
  // get_data_quality_report
  // ---------------------------------------------------------------------

  /** Still uncertain: RD above 250 after fewer than 5 games. */
  predicate HighUncertainty(s: Song)
  {
    s.ratingDeviation > 250.0 && s.gamesPlayed < 5
  }

  /** A variant that names no original. */
  predicate OrphanVariant(s: Song)
  {
    !s.isOriginal && s.originalSongId.None?
  }

  /** Some album track links this song. */
  predicate OnAlbum(tracks: seq<AlbumTrack>, songId: int)
  {
    exists k :: 0 <= k < |tracks| && tracks[k].songId == songId
  }

  /** The number of songs no album track links. */
  function CountWithoutAlbum(songs: seq<Song>, tracks: seq<AlbumTrack>): (n: nat)
    ensures n <= |songs|
  {
    if songs == [] then 0
    else (if OnAlbum(tracks, songs[0].songId) then 0 else 1) + CountWithoutAlbum(songs[1..], tracks)
  }

  /** When no album track exists, every song counts as without album. */
  lemma {:induction false} NoTracksNoAlbums(songs: seq<Song>)
    ensures CountWithoutAlbum(songs, []) == |songs|
  {
    if songs != [] {
      NoTracksNoAlbums(songs[1..]);
    }
  }

  /** What `get_data_quality_report` returns. */
  datatype QualityReport = QualityReport(
    highUncertainty: nat,
    potentialDuplicates: nat,
    orphanVariants: nat,
    noAlbum: nat,
    duplicatePairs: seq<DuplicatePair>)

  /** `get_data_quality_report`: the four counts and the first 20 duplicate pairs. */
  function DataQualityReport(songs: seq<Song>, tracks: seq<AlbumTrack>): (r: QualityReport)
    ensures r.highUncertainty == Count(songs, HighUncertainty)
    ensures r.orphanVariants == Count(songs, OrphanVariant)
    ensures r.noAlbum == CountWithoutAlbum(songs, tracks)
    ensures r.potentialDuplicates == |PotentialDuplicates(songs)|
    ensures |r.duplicatePairs| == if r.potentialDuplicates < 20 then r.potentialDuplicates else 20
    ensures r.duplicatePairs == PotentialDuplicates(songs)[..|r.duplicatePairs|]
  {
    var dups := PotentialDuplicates(songs);
    QualityReport(Count(songs, HighUncertainty), |dups|, Count(songs, OrphanVariant),
                  CountWithoutAlbum(songs, tracks), Prefix(dups, 20))
  }
}
