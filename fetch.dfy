/**
 * The fetch step of the import pipeline: duration parsing and the track
 * records built from a fetched playlist. The playlist itself (the network
 * call) is an input: a sequence of raw track entries as the YouTube Music
 * client returns them; the fetch time is a parameter.
 */
module Fetch {
  import opened Wrappers
  import opened Text
  import opened Seqs

  // ---------------------------------------------------------------------
  // parse_duration
  // ---------------------------------------------------------------------

  /** What one part contributes before weighting: `int(part)`, or 0 when `int` refuses it. */
  function PartValue(part: string): (v: int)
    ensures ParseInt(part).None? ==> v == 0
    ensures ParseInt(part).Some? ==> v == ParseInt(part).value
  {
    ParseInt(part).GetOr(0)
  }

  /** The value of every part, in order. */
  function PartValues(parts: seq<string>): (r: seq<int>)
    ensures |r| == |parts|
    ensures forall k :: 0 <= k < |parts| ==> r[k] == PartValue(parts[k])
  {
    seq(|parts|, k requires 0 <= k < |parts| => PartValue(parts[k]))
  }

  /** 60 to the power i. */
  function Pow60(i: nat): (p: nat)
    ensures p >= 1
  {
    if i == 0 then 1 else 60 * Pow60(i - 1)
  }

  /** The sum of values[i] * 60^i: the rightmost part of the duration comes first. */
  function WeightedSum(values: seq<int>): int
  {
    if values == [] then 0 else values[0] + 60 * WeightedSum(values[1..])
  }

  /** The number of seconds `parse_duration` computes: 0 for a missing or empty string. */
  function DurationSeconds(durationStr: Option<string>): (r: int)
    ensures !Given(durationStr) ==> r == 0
  {
    if !Given(durationStr) then 0 else WeightedSum(PartValues(Reverse(Split(durationStr.value, ':'))))
  }

  /** `parse_duration`: splits at ':', reverses, and sums the parts with their weights. */
  method ParseDuration(durationStr: Option<string>) returns (seconds: int)
    ensures seconds == DurationSeconds(durationStr)
  {
    if !Given(durationStr) {
      return 0;
    }
    var parts := Reverse(Split(durationStr.value, ':'));
    seconds := SumParts(parts);
  }

  /** The loop of `parse_duration`: adds `int(part) * 60 ** i`, skipping the parts `int` refuses. */
  method SumParts(parts: seq<string>) returns (seconds: int)
    ensures seconds == WeightedSum(PartValues(parts))
  {
    ghost var values := PartValues(parts);
    seconds := 0;
    var i := 0;
    assert values[0..] == values;
    while i < |parts|
      invariant 0 <= i <= |parts| && |values| == |parts|
      invariant seconds + Remaining(values, i) == WeightedSum(values)
    {
      WeightStep(values, i);
      // a part `int` refuses is worth 0, so adding it is the `continue` of the except branch
      var value := PartValue(parts[i]);
      seconds := seconds + value * Pow60(i);
      i := i + 1;
    }
    assert values[i..] == [];
  }

  /** What the values from position i on still add: Pow60(i) * WeightedSum(values[i..]). */
  function Remaining(values: seq<int>, i: nat): int
    requires i <= |values|
  {
    Pow60(i) * WeightedSum(values[i..])
  }

  /** Peeling the value at position i off what remains. */
  lemma WeightStep(values: seq<int>, i: nat)
    requires i < |values|
    ensures Remaining(values, i) == values[i] * Pow60(i) + Remaining(values, i + 1)
  {
    assert values[i..][1..] == values[i + 1..];
    Distribute(Pow60(i), values[i], WeightedSum(values[i + 1..]));
  }

  lemma Distribute(a: int, v: int, w: int)
    ensures a * (v + 60 * w) == v * a + (60 * a) * w
  {
  }

  /** The weighted sum is Horner's rule read from the left: a new rightmost part multiplies the rest by 60. */
  lemma AppendPart(parts: seq<string>, last: string)
    ensures WeightedSum(PartValues(Reverse(parts + [last])))
         == PartValue(last) + 60 * WeightedSum(PartValues(Reverse(parts)))
  {
    var r := PartValues(Reverse(parts + [last]));
    assert r[1..] == PartValues(Reverse(parts));
  }

  /** Zeroing the value at position i removes exactly its weighted contribution. */
  lemma {:induction false} ZeroKeepsWeights(values: seq<int>, i: nat)
    requires i < |values|
    ensures WeightedSum(values[i := 0]) == WeightedSum(values) - values[i] * Pow60(i)
  {
    if i == 0 {
      assert values[i := 0][1..] == values[1..];
    } else {
      ZeroKeepsWeights(values[1..], i - 1);
      assert values[i := 0][1..] == values[1..][i - 1 := 0];
      Distribute(60, 0, 0);
      assert values[i] * Pow60(i) == 60 * (values[1..][i - 1] * Pow60(i - 1));
    }
  }

  /**
   * A part `int` refuses contributes 0 and keeps its place: the other
   * parts' weights do not shift.
   */
  lemma RefusedPartKeepsWeights(reversed: seq<string>, i: nat, bad: string)
    requires i < |reversed| && ParseInt(bad).None?
    ensures WeightedSum(PartValues(reversed[i := bad]))
         == WeightedSum(PartValues(reversed)) - PartValue(reversed[i]) * Pow60(i)
  {
    assert PartValues(reversed[i := bad]) == PartValues(reversed)[i := 0];
    ZeroKeepsWeights(PartValues(reversed), i);
  }

  /** The documented examples: "3:45" is 225 seconds and "1:23:45" is 5025. */
  lemma DurationExamples()
    ensures DurationSeconds(Some("3:45")) == 225
    ensures DurationSeconds(Some("1:23:45")) == 5025
  {
    ShortExample();
    LongExample();
  }

  lemma ShortExample()
    ensures DurationSeconds(Some("3:45")) == 225
  {
    SplitShort();
    ReverseTwo("3", "45");
    assert PartValue("45") == 45 by { PartValueOf(4, 5); }
    assert PartValue("3") == 3 by { PartValueOf(0, 3); }
    ValuesTwo("45", "3");
  }

  lemma LongExample()
    ensures DurationSeconds(Some("1:23:45")) == 5025
  {
    SplitLong();
    ReverseThree("1", "23", "45");
    LongValues();
  }

  lemma LongValues()
    ensures WeightedSum(PartValues(["45", "23", "1"])) == 5025
  {
    ValuesThree("45", "23", "1");
    PartValueOf(4, 5);
    PartValueOf(2, 3);
    PartValueOf(0, 1);
  }

  lemma ReverseTwo<T>(a: T, b: T)
    ensures Reverse([a, b]) == [b, a]
  {
  }

  lemma ReverseThree<T>(a: T, b: T, c: T)
    ensures Reverse([a, b, c]) == [c, b, a]
  {
  }

  lemma ValuesTwo(a: string, b: string)
    ensures WeightedSum(PartValues([a, b])) == PartValue(a) + 60 * PartValue(b)
  {
    var v := PartValues([a, b]);
    assert v[0] == PartValue(a) && v[1] == PartValue(b);
    assert v[1..][1..] == [];
    assert WeightedSum(v[1..]) == v[1] + 60 * WeightedSum(v[1..][1..]);
  }

  lemma ValuesThree(a: string, b: string, c: string)
    ensures WeightedSum(PartValues([a, b, c])) == PartValue(a) + 60 * PartValue(b) + 3600 * PartValue(c)
  {
    var v := PartValues([a, b, c]);
    assert v[0] == PartValue(a) && v[1] == PartValue(b) && v[2] == PartValue(c);
    assert v[1..][1..][1..] == [];
    assert WeightedSum(v[1..][1..]) == v[2] + 60 * WeightedSum(v[1..][1..][1..]);
    assert WeightedSum(v[1..]) == v[1] + 60 * WeightedSum(v[1..][1..]);
  }

  /** A part of one or two decimal digits (tens, ones; no leading zero) is worth its number. */
  lemma PartValueOf(tens: nat, ones: nat)
    requires tens < 10 && ones < 10
    ensures tens == 0 ==> PartValue([DigitChar(ones)]) == ones
    ensures tens > 0 ==> PartValue([DigitChar(tens), DigitChar(ones)]) == 10 * tens + ones
  {
    if tens == 0 {
      assert Decimal(ones) == [DigitChar(ones)];
      ParseDecimal(ones);
    } else {
      var n := 10 * tens + ones;
      assert n / 10 == tens && n % 10 == ones;
      assert Digits(n) == Digits(tens) + [DigitChar(ones)];
      assert Digits(tens) == [DigitChar(tens)];
      assert Decimal(n) == [DigitChar(tens), DigitChar(ones)];
      ParseDecimal(n);
    }
  }

  lemma SplitShort()
    ensures Split("3:45", ':') == ["3", "45"]
  {
    assert "3:45" == "3" + [':'] + "45";
    SplitFirst("3", "45", ':');
    SplitNone("45", ':');
  }

  lemma SplitLong()
    ensures Split("1:23:45", ':') == ["1", "23", "45"]
  {
    assert "1:23:45" == "1" + [':'] + "23:45";
    assert "23:45" == "23" + [':'] + "45";
    SplitFirst("1", "23:45", ':');
    SplitFirst("23", "45", ':');
    SplitNone("45", ':');
  }

  // ---------------------------------------------------------------------
  // fetch_playlist: the per-track records
  // ---------------------------------------------------------------------

  /**
   * One entry of a fetched playlist, as the client returns it. A field the
   * entry lacks is None; each artist contributes its `name`, each thumbnail
   * its `url`.
   */
  datatype RawTrack = RawTrack(
    videoId: Option<string>,
    title: Option<string>,
    artistNames: seq<Option<string>>,
    albumName: Option<string>,
    thumbnailUrls: seq<Option<string>>,
    duration: Option<string>)

  /** The record `fetch_playlist` builds for a kept entry. */
  datatype Track = Track(
    videoId: string,
    title: string,
    artists: string,
    album: string,
    duration: string,
    durationSeconds: int,
    durationMs: int,
    thumbnailUrl: string,
    youtubeMusicUrl: string,
    youtubeUrl: string,
    playlistId: string,
    playlistName: string,
    position: nat,
    fetchedAt: string)

  const MusicWatchPrefix := "https://music.youtube.com/watch?v="
  const WatchPrefix := "https://www.youtube.com/watch?v="

  /** An entry is kept only when it has a non-empty video id. */
  predicate HasVideo(raw: RawTrack)
  {
    Given(raw.videoId)
  }

  /** The non-empty values among `xs`, in order. */
  function GivenValues(xs: seq<Option<string>>): (r: seq<string>)
    ensures |r| <= |xs|
    ensures forall k :: 0 <= k < |r| ==> r[k] != []
  {
    if xs == [] then []
    else if Given(xs[0]) then [xs[0].value] + GivenValues(xs[1..])
    else GivenValues(xs[1..])
  }

  /** Nothing is left exactly when no entry is given. */
  lemma {:induction false} GivenValuesEmpty(xs: seq<Option<string>>)
    ensures GivenValues(xs) == [] <==> forall k :: 0 <= k < |xs| ==> !Given(xs[k])
  {
    if xs != [] {
      GivenValuesEmpty(xs[1..]);
      if !Given(xs[0]) {
        forall k | 1 <= k < |xs| ensures Given(xs[k]) <==> Given(xs[1..][k - 1]) {
        }
      }
    }
  }

  /** The artist names joined by ", ", skipping artists without a name. */
  function ArtistNames(names: seq<Option<string>>): (r: string)
    ensures r == [] <==> forall k :: 0 <= k < |names| ==> !Given(names[k])
  {
    GivenValuesEmpty(names);
    Join(GivenValues(names), ", ")
  }

  /** The url of the last thumbnail (the highest quality one), or "" when there is none. */
  function ThumbnailUrl(urls: seq<Option<string>>): (r: string)
    ensures urls == [] ==> r == []
    ensures urls != [] && urls[|urls| - 1].Some? ==> r == urls[|urls| - 1].value
  {
    if urls == [] then "" else urls[|urls| - 1].GetOr("")
  }

  /** The record for the entry at 1-based `position`, whose video id is `id`. */
  function MakeTrack(raw: RawTrack, id: string, position: nat, playlistId: string, playlistName: string, fetchedAt: string): (t: Track)
    ensures t.videoId == id && t.position == position
    ensures t.durationSeconds == DurationSeconds(raw.duration) && t.durationMs == 1000 * t.durationSeconds
    ensures StartsWith(t.youtubeMusicUrl, MusicWatchPrefix) && t.youtubeMusicUrl[|MusicWatchPrefix|..] == id
    ensures StartsWith(t.youtubeUrl, WatchPrefix) && t.youtubeUrl[|WatchPrefix|..] == id
    ensures t.playlistId == playlistId && t.playlistName == playlistName && t.fetchedAt == fetchedAt
  {
    var seconds := DurationSeconds(raw.duration);
    Track(
      id,
      raw.title.GetOr(""),
      ArtistNames(raw.artistNames),
      raw.albumName.GetOr(""),
      raw.duration.GetOr(""),
      seconds,
      seconds * 1000,
      ThumbnailUrl(raw.thumbnailUrls),
      MusicWatchPrefix + id,
      WatchPrefix + id,
      playlistId,
      playlistName,
      position,
      fetchedAt)
  }

  /**
   * The records `fetch_playlist` returns for the entries `raw`: one per
   * entry with a video id, numbered by the entry's 1-based place in `raw`.
   * The source reads `datetime.utcnow()` afresh for every record it builds;
   * `stamps[n - 1]` is the reading taken while building the record of
   * entry n (the readings for entries without a video id go unused).
   */
  function Kept(raw: seq<RawTrack>, playlistId: string, playlistName: string, stamps: seq<string>): seq<Track>
    requires |raw| <= |stamps|
  {
    if raw == [] then []
    else
      var n := |raw|;
      var last := raw[n - 1];
      Kept(raw[..n - 1], playlistId, playlistName, stamps)
        + (if HasVideo(last) then [MakeTrack(last, last.videoId.value, n, playlistId, playlistName, stamps[n - 1])] else [])
  }

  /**
   * `fetch_playlist`. `playlist` is what the client returned: None when the
   * request raised, which yields no records. `stamps` holds one clock
   * reading per entry, as described at `Kept`.
   */
  method FetchPlaylist(playlist: Option<seq<RawTrack>>, playlistId: string, playlistName: string, stamps: seq<string>)
    returns (tracks: seq<Track>)
    requires playlist.Some? ==> |playlist.value| == |stamps|
    ensures playlist.None? ==> tracks == []
    ensures playlist.Some? ==> tracks == Kept(playlist.value, playlistId, playlistName, stamps)
  {
    if playlist.None? {
      return [];
    }
    var raw := playlist.value;
    tracks := [];
    var idx := 1;
    while idx <= |raw|
      invariant 1 <= idx <= |raw| + 1
      invariant tracks == Kept(raw[..idx - 1], playlistId, playlistName, stamps)
    {
      var track := raw[idx - 1];
      assert raw[..idx][..idx - 1] == raw[..idx - 1];
      if HasVideo(track) {
        tracks := tracks + [MakeTrack(track, track.videoId.value, idx, playlistId, playlistName, stamps[idx - 1])];
      }
      idx := idx + 1;
    }
    assert raw[..|raw|] == raw;
  }

  /**
   * Each record is the one built for the entry at its position, which has a
   * video id, stamped with that entry's clock reading.
   */
  predicate FromEntries(raw: seq<RawTrack>, ts: seq<Track>, playlistId: string, playlistName: string, stamps: seq<string>)
    requires |raw| <= |stamps|
  {
    forall k :: 0 <= k < |ts| ==>
      && 1 <= ts[k].position <= |raw|
      && HasVideo(raw[ts[k].position - 1])
      && ts[k] == MakeTrack(raw[ts[k].position - 1], raw[ts[k].position - 1].videoId.value,
                            ts[k].position, playlistId, playlistName, stamps[ts[k].position - 1])
  }

  /** Positions strictly increase. */
  predicate Increasing(ts: seq<Track>)
  {
    forall k, l :: 0 <= k < l < |ts| ==> ts[k].position < ts[l].position
  }

  /**
   * Every record comes from an entry with a video id at its position, and
   * positions lie in 1..|raw| and strictly increase (they may skip).
   */
  lemma {:induction false} KeptPositions(raw: seq<RawTrack>, playlistId: string, playlistName: string, stamps: seq<string>)
    requires |raw| <= |stamps|
    ensures FromEntries(raw, Kept(raw, playlistId, playlistName, stamps), playlistId, playlistName, stamps)
    ensures Increasing(Kept(raw, playlistId, playlistName, stamps))
  {
    if raw != [] {
      var n := |raw|;
      var init := raw[..n - 1];
      var last := raw[n - 1];
      var prev := Kept(init, playlistId, playlistName, stamps);
      var extra := if HasVideo(last) then [MakeTrack(last, last.videoId.value, n, playlistId, playlistName, stamps[n - 1])] else [];
      assert Kept(raw, playlistId, playlistName, stamps) == prev + extra;
      assert raw == init + [last];
      KeptPositions(init, playlistId, playlistName, stamps);
      KeptSnoc(init, last, prev, extra, playlistId, playlistName, stamps);
    }
  }

  /** Appending the record of one more entry keeps records tied to their entries and in order. */
  lemma KeptSnoc(init: seq<RawTrack>, last: RawTrack, prev: seq<Track>, extra: seq<Track>,
                 playlistId: string, playlistName: string, stamps: seq<string>)
    requires |init| < |stamps|
    requires FromEntries(init, prev, playlistId, playlistName, stamps) && Increasing(prev)
    requires extra == if HasVideo(last) then [MakeTrack(last, last.videoId.value, |init| + 1, playlistId, playlistName, stamps[|init|])] else []
    ensures FromEntries(init + [last], prev + extra, playlistId, playlistName, stamps)
    ensures Increasing(prev + extra)
  {
    EntriesGrow(init, last, prev, playlistId, playlistName, stamps);
    if HasVideo(last) {
      var t := extra[0];
      EntryAppended(init + [last], prev, t, playlistId, playlistName, stamps);
    } else {
      assert prev + extra == prev;
    }
  }

  /** Records tied to the entries stay tied when one more entry follows. */
  lemma EntriesGrow(init: seq<RawTrack>, last: RawTrack, prev: seq<Track>,
                    playlistId: string, playlistName: string, stamps: seq<string>)
    requires |init| < |stamps|
    requires FromEntries(init, prev, playlistId, playlistName, stamps)
    ensures FromEntries(init + [last], prev, playlistId, playlistName, stamps)
    ensures forall k :: 0 <= k < |prev| ==> prev[k].position <= |init|
  {
    var raw := init + [last];
    forall k | 0 <= k < |prev|
      ensures raw[prev[k].position - 1] == init[prev[k].position - 1]
    {
    }
  }

  /** A record for the entry after all earlier records' positions extends them in order. */
  lemma EntryAppended(raw: seq<RawTrack>, prev: seq<Track>, t: Track,
                      playlistId: string, playlistName: string, stamps: seq<string>)
    requires |raw| <= |stamps|
    requires FromEntries(raw, prev, playlistId, playlistName, stamps) && Increasing(prev)
    requires forall k :: 0 <= k < |prev| ==> prev[k].position < |raw|
    requires raw != [] && t.position == |raw| && HasVideo(raw[|raw| - 1])
    requires t == MakeTrack(raw[|raw| - 1], raw[|raw| - 1].videoId.value, |raw|, playlistId, playlistName, stamps[|raw| - 1])
    ensures FromEntries(raw, prev + [t], playlistId, playlistName, stamps)
    ensures Increasing(prev + [t])
  {
    var ts := prev + [t];
    forall k | 0 <= k < |ts|
      ensures 1 <= ts[k].position <= |raw|
      ensures HasVideo(raw[ts[k].position - 1])
      ensures ts[k] == MakeTrack(raw[ts[k].position - 1], raw[ts[k].position - 1].videoId.value,
                                 ts[k].position, playlistId, playlistName, stamps[ts[k].position - 1])
    {
      if k < |prev| {
        assert ts[k] == prev[k];
      } else {
        assert ts[k] == t;
      }
    }
    forall k, l | 0 <= k < l < |ts| ensures ts[k].position < ts[l].position {
      assert ts[k] == prev[k];
      if l < |prev| {
        assert ts[l] == prev[l];
      } else {
        assert ts[l] == t;
      }
    }
  }

  /** One record per entry with a video id. */
  lemma {:induction false} KeptCount(raw: seq<RawTrack>, playlistId: string, playlistName: string, stamps: seq<string>)
    requires |raw| <= |stamps|
    ensures |Kept(raw, playlistId, playlistName, stamps)| == Count(raw, HasVideo)
  {
    if raw != [] {
      var n := |raw|;
      KeptCount(raw[..n - 1], playlistId, playlistName, stamps);
      CountSnoc(raw[..n - 1], raw[n - 1], HasVideo);
      assert raw[..n - 1] + [raw[n - 1]] == raw;
    }
  }

  /**
   * Each record carries the clock reading of its own entry, so records of
   * one playlist may carry different timestamps.
   */
  lemma KeptStamps(raw: seq<RawTrack>, playlistId: string, playlistName: string, stamps: seq<string>, k: nat)
    requires |raw| <= |stamps|
    requires k < |Kept(raw, playlistId, playlistName, stamps)|
    ensures 1 <= Kept(raw, playlistId, playlistName, stamps)[k].position <= |raw|
    ensures Kept(raw, playlistId, playlistName, stamps)[k].fetchedAt
         == stamps[Kept(raw, playlistId, playlistName, stamps)[k].position - 1]
  {
    KeptPositions(raw, playlistId, playlistName, stamps);
    EntriesStamped(raw, Kept(raw, playlistId, playlistName, stamps), playlistId, playlistName, stamps);
  }

  /** Records tied to their entries carry their entries' clock readings. */
  lemma EntriesStamped(raw: seq<RawTrack>, ts: seq<Track>, playlistId: string, playlistName: string, stamps: seq<string>)
    requires |raw| <= |stamps|
    requires FromEntries(raw, ts, playlistId, playlistName, stamps)
    ensures forall k :: 0 <= k < |ts| ==> 1 <= ts[k].position <= |raw| && ts[k].fetchedAt == stamps[ts[k].position - 1]
  {
    forall k | 0 <= k < |ts|
      ensures 1 <= ts[k].position <= |raw| && ts[k].fetchedAt == stamps[ts[k].position - 1]
    {
      assert HasVideo(raw[ts[k].position - 1]);
      assert ts[k] == MakeTrack(raw[ts[k].position - 1], raw[ts[k].position - 1].videoId.value,
                                ts[k].position, playlistId, playlistName, stamps[ts[k].position - 1]);
    }
  }
}
