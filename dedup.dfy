/**
 * The de-duplication step of the import pipeline: variant classification
 * of a title, language detection, and the grouping of fetched tracks by
 * (canonical name, artists) with variant links to a reference row.
 *
 * The regular expressions of the variant table and of the canonical-name
 * extraction are not interpreted: `search(pattern, text)` stands for
 * `re.search(pattern, text)` and `canonical(title)` for the canonical-name
 * extraction. The language markers are plain substrings and are modelled
 * exactly.
 */
module Dedup {
  import opened Wrappers
  import opened Text
  import opened Seqs

  // ---------------------------------------------------------------------
  // detect_variant_type
  // ---------------------------------------------------------------------

  /** The variant table: each type with its patterns, in dictionary order. */
  const VariantPatterns: seq<(string, seq<string>)> := [
    ("japanese_version", ["japanese ver\\.?", "japan ver\\.?", "jpn ver\\.?", "日本語", "\\(jp\\)", "\\(japanese\\)"]),
    ("english_version", ["english ver\\.?", "eng ver\\.?", "\\(en\\)", "\\(english\\)"]),
    ("instrumental", ["instrumental", "inst\\.?\\s*$", "\\(inst\\)"]),
    ("remix", ["remix", "remixed by", "mix\\)", "edit\\)"]),
    ("live", ["\\blive\\b", "concert", "tour\\s+ver"]),
    ("acoustic", ["acoustic", "unplugged"]),
    ("sped_up", ["sped\\s*up", "speed\\s*up", "nightcore", "fast"]),
    ("slowed", ["slowed", "reverb", "slow"]),
    ("radio_edit", ["radio\\s+edit", "radio\\s+ver"])
  ]

  /** Some pattern of the list is found in `text`. */
  predicate AnyFound(patterns: seq<string>, text: string, search: (string, string) -> bool)
  {
    exists k :: 0 <= k < |patterns| && search(patterns[k], text)
  }

  /** The first type of `table` with a pattern found in `text`, or None. */
  function FirstVariant(table: seq<(string, seq<string>)>, text: string, search: (string, string) -> bool): Option<string>
  {
    if table == [] then None
    else if AnyFound(table[0].1, text, search) then Some(table[0].0)
    else FirstVariant(table[1..], text, search)
  }

  /**
   * FirstVariant is the first match in table order: a type is reported
   * exactly when one of its patterns is found and no earlier type's is, and
   * None exactly when no pattern of any type is found.
   */
  lemma {:induction false} FirstVariantMeans(table: seq<(string, seq<string>)>, text: string, search: (string, string) -> bool)
    ensures FirstVariant(table, text, search).None? <==>
      forall i :: 0 <= i < |table| ==> !AnyFound(table[i].1, text, search)
    ensures FirstVariant(table, text, search).Some? ==>
      exists i :: 0 <= i < |table|
        && FirstVariant(table, text, search).value == table[i].0
        && AnyFound(table[i].1, text, search)
        && forall j :: 0 <= j < i ==> !AnyFound(table[j].1, text, search)
  {
    if table != [] && !AnyFound(table[0].1, text, search) {
      FirstVariantMeans(table[1..], text, search);
      var r := FirstVariant(table, text, search);
      if r.Some? {
        var i :| 0 <= i < |table[1..]| && r.value == table[1..][i].0 && AnyFound(table[1..][i].1, text, search)
                 && forall j :: 0 <= j < i ==> !AnyFound(table[1..][j].1, text, search);
        assert forall j :: 0 <= j < i + 1 ==> !AnyFound(table[j].1, text, search) by {
          forall j | 0 <= j < i + 1 ensures !AnyFound(table[j].1, text, search) {
            if j > 0 {
              assert table[j] == table[1..][j - 1];
            }
          }
        }
        assert table[i + 1] == table[1..][i];
      } else {
        forall i | 0 <= i < |table| ensures !AnyFound(table[i].1, text, search) {
          if i > 0 {
            assert table[i] == table[1..][i - 1];
          }
        }
      }
    }
  }

  /** The nested loop of `detect_variant_type` over a table, returning at the first match. */
  method FirstMatch(table: seq<(string, seq<string>)>, text: string, search: (string, string) -> bool)
    returns (r: Option<string>)
    ensures r == FirstVariant(table, text, search)
  {
    var i := 0;
    while i < |table|
      invariant 0 <= i <= |table|
      invariant FirstVariant(table[i..], text, search) == FirstVariant(table, text, search)
    {
      var variantType := table[i].0;
      var patterns := table[i].1;
      var j := 0;
      while j < |patterns|
        invariant 0 <= j <= |patterns|
        invariant forall k :: 0 <= k < j ==> !search(patterns[k], text)
      {
        if search(patterns[j], text) {
          assert AnyFound(table[i..][0].1, text, search);
          return Some(variantType);
        }
        j := j + 1;
      }
      assert !AnyFound(table[i..][0].1, text, search);
      assert table[i..][1..] == table[i + 1..];
      i := i + 1;
    }
    r := None;
  }

  /** `detect_variant_type`: the first variant type with a pattern found in the lower-cased title. */
  method DetectVariantType(title: string, search: (string, string) -> bool) returns (r: Option<string>)
    ensures r == FirstVariant(VariantPatterns, Lower(title), search)
  {
    r := FirstMatch(VariantPatterns, Lower(title), search);
  }

  // ---------------------------------------------------------------------
  // detect_language
  // ---------------------------------------------------------------------

  /** Albums whose tracks are taken to be Japanese (matched as substrings). */
  const JapaneseAlbums: seq<string> := [
    "#twice", "bdz", "&twice", "candy pop", "wake me up", "one more time", "brand new girl",
    "#twice2", "#twice3", "#twice4", "breakthrough", "celebrate", "doughnut", "perfect world"]

  /** Albums whose tracks are taken to be English (matched as whole names). */
  const EnglishAlbums: seq<string> := ["the feels", "moonlight sunrise", "strategy", "i got you"]

  /**
   * The instrumental marker: "instrumental" or "(inst)" anywhere, or the
   * title ending in "inst" or "inst." followed only by white space.
   */
  predicate InstrumentalMarker(t: string)
  {
    Contains(t, "instrumental") || Contains(t, "(inst)")
    || EndsWith(TrimEnd(t), "inst") || EndsWith(TrimEnd(t), "inst.")
  }

  predicate JapaneseMarker(t: string)
  {
    ContainsAny(t, ["japanese ver", "japan ver", "jpn ver", "日本語", "(jp)"])
  }

  predicate EnglishMarker(t: string)
  {
    ContainsAny(t, ["english ver", "eng ver", "(en)"])
  }

  /** The languages `detect_language` can return. */
  predicate IsLanguage(s: string)
  {
    s == "instrumental" || s == "japanese" || s == "english" || s == "korean"
  }

  /**
   * `detect_language`: a missing album reads as "". The checks run in
   * priority order: instrumental marker, Japanese title marker, Japanese
   * album (unless the title says "ver"), English title marker, English
   * album (unless the title says "ver"), and Korean otherwise.
   */
  function DetectLanguage(title: string, album: Option<string>): (r: string)
    ensures IsLanguage(r)
    ensures r == "instrumental" <==> InstrumentalMarker(Lower(title))
    ensures JapaneseMarker(Lower(title)) ==> r == "instrumental" || r == "japanese"
    ensures r == "korean" ==> !JapaneseMarker(Lower(title)) && !EnglishMarker(Lower(title))
  {
    var t := Lower(title);
    var a := if album.Some? then Lower(album.value) else "";
    if InstrumentalMarker(t) then "instrumental"
    else if JapaneseMarker(t) then "japanese"
    else if ContainsAny(a, JapaneseAlbums) && !Contains(t, "ver") then "japanese"
    else if EnglishMarker(t) then "english"
    else if a in EnglishAlbums && !Contains(t, "ver") then "english"
    else "korean"
  }

  /** A title that says "ver" is classified by its title alone: the album is not consulted. */
  lemma VersionTitleIgnoresAlbum(title: string, album: Option<string>)
    requires Contains(Lower(title), "ver")
    ensures DetectLanguage(title, album) == DetectLanguage(title, None)
  {
  }

  /** Without an album, only the title markers decide, and a title without markers is Korean. */
  lemma NoAlbumNoMarkerIsKorean(title: string)
    requires !InstrumentalMarker(Lower(title)) && !JapaneseMarker(Lower(title)) && !EnglishMarker(Lower(title))
    ensures DetectLanguage(title, None) == "korean"
  {
    EmptyAlbumMatchesNothing();
  }

  /**
   * A title with no marker and no "ver" is classified by its album: Japanese
   * when the album holds a Japanese album name, else English when it is an
   * English album name, else Korean.
   */
  lemma UnmarkedTitleFollowsAlbum(title: string, album: Option<string>)
    requires !InstrumentalMarker(Lower(title)) && !JapaneseMarker(Lower(title)) && !EnglishMarker(Lower(title))
    requires !Contains(Lower(title), "ver")
    ensures var a := if album.Some? then Lower(album.value) else "";
      && (DetectLanguage(title, album) == "japanese" <==> ContainsAny(a, JapaneseAlbums))
      && (DetectLanguage(title, album) == "english" <==> !ContainsAny(a, JapaneseAlbums) && a in EnglishAlbums)
  {
  }

  /** The empty album name is on neither album list. */
  lemma EmptyAlbumMatchesNothing()
    ensures !ContainsAny("", JapaneseAlbums) && "" !in EnglishAlbums
  {
    EmptyContainsOnlyEmpty(JapaneseAlbums);
  }

  // ---------------------------------------------------------------------
  // group_duplicates
  // ---------------------------------------------------------------------

  /**
   * A fetched track, as far as the grouping reads it. A missing album or
   * artists value (NaN) is None; the empty artists field the fetch writes
   * for a track without named artists reads back as NaN.
   */
  datatype Track = Track(videoId: string, title: string, album: Option<string>, artists: Option<string>, position: int)

  /** A track with the columns `group_duplicates` adds before grouping. */
  datatype Classified = Classified(
    track: Track, canonicalName: string, variantType: Option<string>, language: string, isOriginal: bool)

  /** An output row: the classified track, the size of its group and its link to the group's reference. */
  datatype Deduplicated = Deduplicated(song: Classified, duplicateCount: nat, originalVideoId: Option<string>)

  /** The classification of one track; it is an original exactly when no variant type is detected. */
  function Classify(t: Track, canonical: string -> string, search: (string, string) -> bool): (c: Classified)
    ensures c.track == t && c.canonicalName == canonical(t.title)
    ensures c.isOriginal <==> c.variantType.None?
    ensures IsLanguage(c.language)
  {
    var variant := FirstVariant(VariantPatterns, Lower(t.title), search);
    Classified(t, canonical(t.title), variant, DetectLanguage(t.title, t.album), variant.None?)
  }

  function ClassifyAll(ts: seq<Track>, canonical: string -> string, search: (string, string) -> bool): (cs: seq<Classified>)
    ensures |cs| == |ts|
    ensures forall i :: 0 <= i < |ts| ==> cs[i] == Classify(ts[i], canonical, search)
  {
    seq(|ts|, i requires 0 <= i < |ts| => Classify(ts[i], canonical, search))
  }

  type Key = (string, string)

  /** `groupby` drops the rows whose key holds NaN: only rows with artists have a group. */
  predicate HasKey(c: Classified)
  {
    c.track.artists.Some?
  }

  /** The grouping key: (canonical name, artists); it is only read for rows with artists. */
  function KeyOf(c: Classified): Key
  {
    (c.canonicalName, c.track.artists.GetOr(""))
  }

  /** The order the groups are visited in: the keys sorted as Python tuples of strings. */
  predicate KeyLe(x: Key, y: Key)
  {
    (StrLe(x.0, y.0) && x.0 != y.0) || (x.0 == y.0 && StrLe(x.1, y.1))
  }

  lemma KeyLeIsOrder()
    ensures Total(KeyLe) && Transitive(KeyLe)
  {
    forall x: Key, y: Key ensures KeyLe(x, y) || KeyLe(y, x) {
      StrLeTotal(x.0, y.0);
      StrLeTotal(x.1, y.1);
    }
    forall x: Key, y: Key, z: Key | KeyLe(x, y) && KeyLe(y, z) ensures KeyLe(x, z) {
      if x.0 == y.0 {
        if y.0 == z.0 {
          StrLeTransitive(x.1, y.1, z.1);
        }
      } else if y.0 != z.0 {
        StrLeTransitive(x.0, y.0, z.0);
        if x.0 == z.0 {
          StrLeAntisymmetric(x.0, y.0);
        }
      }
    }
  }

  /** Within a group: originals first, then by playlist position. */
  predicate GroupLe(a: Classified, b: Classified)
  {
    (a.isOriginal && !b.isOriginal) || (a.isOriginal == b.isOriginal && a.track.position <= b.track.position)
  }

  lemma GroupLeIsOrder()
    ensures Total(GroupLe) && Transitive(GroupLe)
  {
  }

  /** The distinct keys of the rows of `cs` with artists, in first-seen order. */
  function DistinctKeys(cs: seq<Classified>): (ks: seq<Key>)
    ensures forall i, j :: 0 <= i < j < |ks| ==> ks[i] != ks[j]
    ensures forall k :: k in ks <==> exists i :: 0 <= i < |cs| && HasKey(cs[i]) && KeyOf(cs[i]) == k
  {
    if cs == [] then []
    else
      var init := DistinctKeys(cs[..|cs| - 1]);
      var last := cs[|cs| - 1];
      assert forall i :: 0 <= i < |cs| - 1 ==> cs[..|cs| - 1][i] == cs[i];
      if !HasKey(last) || KeyOf(last) in init then init else init + [KeyOf(last)]
  }

  /** The groups in the order `groupby` visits them. */
  function GroupOrder(cs: seq<Classified>): (ks: seq<Key>)
    ensures multiset(ks) == multiset(DistinctKeys(cs))
    ensures SortedBy(ks, KeyLe)
  {
    KeyLeIsOrder();
    Sort(DistinctKeys(cs), KeyLe)
  }

  /** The rows of the group with key `k` pass this test. */
  function SameKey(k: Key): Classified -> bool
  {
    c => HasKey(c) && KeyOf(c) == k
  }

  /** The rows of the group with key `k`, originals first, then by position; ties keep row order. */
  function SortedGroup(cs: seq<Classified>, k: Key): (g: seq<Classified>)
    ensures SortedBy(g, GroupLe)
    ensures multiset(g) == multiset(Filter(cs, SameKey(k)))
    ensures forall i :: 0 <= i < |g| ==> HasKey(g[i]) && KeyOf(g[i]) == k
  {
    GroupLeIsOrder();
    var g := Sort(Filter(cs, SameKey(k)), GroupLe);
    PermutationKeeps(Filter(cs, SameKey(k)), g, SameKey(k));
    g
  }

  /** The output rows of one sorted group, linked to its first row. */
  function GroupRows(g: seq<Classified>): (r: seq<Deduplicated>)
    requires g != []
    ensures |r| == |g|
    ensures forall i :: 0 <= i < |g| ==> r[i].song == g[i] && r[i].duplicateCount == |g|
    ensures forall i :: 0 <= i < |g| ==>
      r[i].originalVideoId == if g[i].track.videoId == g[0].track.videoId then None else Some(g[0].track.videoId)
  {
    seq(|g|, i requires 0 <= i < |g| =>
      Deduplicated(g[i], |g|, if g[i].track.videoId == g[0].track.videoId then None else Some(g[0].track.videoId)))
  }

  /** The rows of the groups `ks`, one group after another. */
  function Grouped(cs: seq<Classified>, ks: seq<Key>): seq<Deduplicated>
  {
    if ks == [] then []
    else
      var g := SortedGroup(cs, ks[0]);
      (if g == [] then [] else GroupRows(g)) + Grouped(cs, ks[1..])
  }

  /** A group of one row is kept as it is: count 1 and no link. */
  lemma SingletonGroupUnlinked(g: seq<Classified>)
    requires |g| == 1
    ensures GroupRows(g) == [Deduplicated(g[0], 1, None)]
  {
  }

  predicate IsOriginalRow(c: Classified)
  {
    c.isOriginal
  }

  /**
   * In a sorted group the first row is the reference the source looks for:
   * the first original by position when the group has an original, and
   * otherwise the first row by position.
   */
  lemma ReferenceIsFirst(g: seq<Classified>)
    requires g != [] && SortedBy(g, GroupLe)
    ensures Filter(g, IsOriginalRow) != [] ==> Filter(g, IsOriginalRow)[0] == g[0]
    ensures (exists i :: 0 <= i < |g| && g[i].isOriginal) <==> g[0].isOriginal
    ensures forall i :: 0 <= i < |g| && g[i].isOriginal == g[0].isOriginal ==> g[0].track.position <= g[i].track.position
  {
    if exists i :: 0 <= i < |g| && g[i].isOriginal {
      var i :| 0 <= i < |g| && g[i].isOriginal;
      if i > 0 {
        assert GroupLe(g[0], g[i]);
      }
    }
    forall i | 0 <= i < |g| && g[i].isOriginal == g[0].isOriginal
      ensures g[0].track.position <= g[i].track.position
    {
      if i > 0 {
        assert GroupLe(g[0], g[i]);
      }
    }
    if Filter(g, IsOriginalRow) != [] {
      var o := Filter(g, IsOriginalRow)[0];
      assert IsOriginalRow(o);
      FilterSubMultiset(g, IsOriginalRow);
      assert o in multiset(g);
      FilterHead(g, IsOriginalRow);
    }
  }

  /** The first element, when it passes, heads the filtered sequence. */
  lemma FilterHead<T(!new)>(s: seq<T>, p: T -> bool)
    requires s != [] && p(s[0])
    ensures Filter(s, p) != [] && Filter(s, p)[0] == s[0]
  {
  }

  /** The video id of an output row. */
  function VideoOf(d: Deduplicated): string
  {
    d.song.track.videoId
  }

  /** Some element of `s` has key `k`. */
  predicate KeyIn<T, K(==)>(s: seq<T>, key: T -> K, k: K)
  {
    exists i :: 0 <= i < |s| && key(s[i]) == k
  }

  /** `drop_duplicates(subset=key, keep='first')`: every element whose key an earlier element has is dropped. */
  function DropDuplicates<T, K(==)>(s: seq<T>, key: T -> K): (r: seq<T>)
    ensures |r| <= |s|
  {
    if s == [] then []
    else
      var init := s[..|s| - 1];
      var last := s[|s| - 1];
      DropDuplicates(init, key) + (if KeyIn(init, key, key(last)) then [] else [last])
  }

  /** No two elements share a key. */
  predicate UniqueKeys<T, K(==)>(r: seq<T>, key: T -> K)
  {
    forall i, j :: 0 <= i < j < |r| ==> key(r[i]) != key(r[j])
  }

  /** `s[i]` is the first element of `s` with its key. */
  predicate FirstWithKey<T, K(==)>(s: seq<T>, key: T -> K, i: int)
    requires 0 <= i < |s|
  {
    forall j :: 0 <= j < i ==> key(s[j]) != key(s[i])
  }

  /** Every element of `r` is an element of `s` that is the first with its key. */
  predicate FirstsOf<T(==), K(==)>(r: seq<T>, s: seq<T>, key: T -> K)
  {
    forall m :: 0 <= m < |r| ==> exists i :: 0 <= i < |s| && r[m] == s[i] && FirstWithKey(s, key, i)
  }

  /**
   * The keys left are unique, every key of the input is still present,
   * and each element kept is the first of its key.
   */
  lemma {:induction false} DropDuplicatesCorrect<T, K>(s: seq<T>, key: T -> K)
    ensures UniqueKeys(DropDuplicates(s, key), key)
    ensures forall k :: KeyIn(DropDuplicates(s, key), key, k) <==> KeyIn(s, key, k)
    ensures FirstsOf(DropDuplicates(s, key), s, key)
  {
    if s != [] {
      var init := s[..|s| - 1];
      var last := s[|s| - 1];
      var prev := DropDuplicates(init, key);
      var r := DropDuplicates(s, key);
      DropDuplicatesCorrect(init, key);
      forall k ensures KeyIn(s, key, k) <==> KeyIn(init, key, k) || key(last) == k {
        if KeyIn(s, key, k) {
          var i :| 0 <= i < |s| && key(s[i]) == k;
          if i < |s| - 1 {
            assert init[i] == s[i];
          }
        }
        if KeyIn(init, key, k) {
          var i :| 0 <= i < |init| && key(init[i]) == k;
          assert s[i] == init[i];
        }
      }
      forall m | 0 <= m < |prev| ensures exists i :: 0 <= i < |s| && prev[m] == s[i] && FirstWithKey(s, key, i) {
        var i :| 0 <= i < |init| && prev[m] == init[i] && FirstWithKey(init, key, i);
        assert s[i] == init[i];
        assert FirstWithKey(s, key, i) by {
          forall j | 0 <= j < i ensures key(s[j]) != key(s[i]) {
            assert s[j] == init[j];
          }
        }
      }
      if KeyIn(init, key, key(last)) {
        assert r == prev;
      } else {
        assert r == prev + [last];
        forall k ensures KeyIn(r, key, k) <==> KeyIn(prev, key, k) || key(last) == k {
          if KeyIn(r, key, k) {
            var i :| 0 <= i < |r| && key(r[i]) == k;
            if i < |prev| {
              assert r[i] == prev[i];
            }
          }
          if KeyIn(prev, key, k) {
            var i :| 0 <= i < |prev| && key(prev[i]) == k;
            assert r[i] == prev[i];
          }
          assert r[|prev|] == last;
        }
        forall m | 0 <= m < |prev| ensures key(prev[m]) != key(last) {
          assert KeyIn(prev, key, key(prev[m]));
        }
        assert FirstWithKey(s, key, |s| - 1) by {
          forall j | 0 <= j < |s| - 1 ensures key(s[j]) != key(last) {
            assert s[j] == init[j];
          }
        }
      }
    }
  }

  /** Every group `groupby` visits has at least one row. */
  lemma GroupNonEmpty(cs: seq<Classified>, k: Key)
    requires k in GroupOrder(cs)
    ensures SortedGroup(cs, k) != []
  {
    assert k in multiset(DistinctKeys(cs));
    assert k in DistinctKeys(cs);
    var i :| 0 <= i < |cs| && HasKey(cs[i]) && KeyOf(cs[i]) == k;
    assert cs[i] in multiset(cs);
    assert cs[i] in multiset(Filter(cs, SameKey(k)));
  }

  /** The output rows of one sorted group, as the source builds them around its reference row. */
  method LinkGroup(group: seq<Classified>) returns (rows: seq<Deduplicated>)
    requires group != [] && SortedBy(group, GroupLe)
    ensures rows == GroupRows(group)
  {
    if |group| == 1 {
      SingletonGroupUnlinked(group);
      return [Deduplicated(group[0], 1, None)];
    }
    var originals := Filter(group, IsOriginalRow);
    var reference := if |originals| > 0 then originals[0] else group[0];
    ReferenceIsFirst(group);
    assert reference == group[0];
    rows := LinkRows(group, reference.track.videoId);
  }

  /** The loop over a group's rows: each row links to the reference video unless it is that video. */
  method LinkRows(group: seq<Classified>, originalVideoId: string) returns (rows: seq<Deduplicated>)
    requires group != [] && originalVideoId == group[0].track.videoId
    ensures rows == GroupRows(group)
  {
    rows := [];
    var i := 0;
    while i < |group|
      invariant 0 <= i <= |group|
      invariant rows == GroupRows(group)[..i]
    {
      var link := if group[i].track.videoId == originalVideoId then None else Some(originalVideoId);
      GroupRowsStep(group, i);
      rows := rows + [Deduplicated(group[i], |group|, link)];
      i := i + 1;
    }
    assert GroupRows(group)[..i] == GroupRows(group);
  }

  /** One more row of a group, linked to the group's first row unless it has the same video. */
  lemma GroupRowsStep(g: seq<Classified>, i: nat)
    requires i < |g|
    ensures var link := if g[i].track.videoId == g[0].track.videoId then None else Some(g[0].track.videoId);
      GroupRows(g)[..i + 1] == GroupRows(g)[..i] + [Deduplicated(g[i], |g|, link)]
  {
    var r := GroupRows(g);
    assert r[..i + 1] == r[..i] + [r[i]];
  }

  /** The loop of `group_duplicates` over the groups, in key order, appending each group's rows. */
  method GroupAll(cs: seq<Classified>) returns (deduplicated: seq<Deduplicated>)
    ensures deduplicated == Grouped(cs, GroupOrder(cs))
  {
    var keys := GroupOrder(cs);
    deduplicated := [];
    var g := 0;
    while g < |keys|
      invariant 0 <= g <= |keys|
      invariant GroupedUpTo(cs, keys, g, deduplicated)
    {
      GroupAllStep(cs, keys, g, deduplicated);
      var group := SortedGroup(cs, keys[g]);
      var rows := LinkGroup(group);
      deduplicated := deduplicated + rows;
      g := g + 1;
    }
    assert keys[g..] == [];
  }

  /** `done` holds the rows of the groups before `g`: with those of the rest it makes all the grouped rows. */
  ghost predicate GroupedUpTo(cs: seq<Classified>, keys: seq<Key>, g: nat, done: seq<Deduplicated>)
  {
    g <= |keys| && done + Grouped(cs, keys[g..]) == Grouped(cs, keys)
  }

  /** One pass of the group loop: the next group is non-empty and its rows follow those already built. */
  lemma GroupAllStep(cs: seq<Classified>, keys: seq<Key>, g: nat, done: seq<Deduplicated>)
    requires keys == GroupOrder(cs) && g < |keys| && GroupedUpTo(cs, keys, g, done)
    ensures SortedGroup(cs, keys[g]) != []
    ensures GroupedUpTo(cs, keys, g + 1, done + GroupRows(SortedGroup(cs, keys[g])))
  {
    GroupNonEmpty(cs, keys[g]);
    GroupedFrom(cs, keys, g);
    AppendAssociative(done, GroupRows(SortedGroup(cs, keys[g])), Grouped(cs, keys[g + 1..]));
  }

  /** The rows of the groups from `g` on are those of group `g` followed by those of the later groups. */
  lemma GroupedFrom(cs: seq<Classified>, ks: seq<Key>, g: nat)
    requires g < |ks| && SortedGroup(cs, ks[g]) != []
    ensures Grouped(cs, ks[g..]) == GroupRows(SortedGroup(cs, ks[g])) + Grouped(cs, ks[g + 1..])
  {
    assert ks[g..][0] == ks[g];
    assert ks[g..][1..] == ks[g + 1..];
  }

  /**
   * `group_duplicates`: classifies every track, groups them, then keeps the
   * first row of each video id.
   */
  method GroupDuplicates(tracks: seq<Track>, canonical: string -> string, search: (string, string) -> bool)
    returns (result: seq<Deduplicated>)
    ensures result == Deduplicate(ClassifyAll(tracks, canonical, search))
  {
    var cs := ClassifyAll(tracks, canonical, search);
    var deduplicated := GroupAll(cs);
    result := DropDuplicates(deduplicated, VideoOf);
  }

  /** The rows `group_duplicates` returns for the classified tracks `cs`. */
  function Deduplicate(cs: seq<Classified>): seq<Deduplicated>
  {
    DropDuplicates(Grouped(cs, GroupOrder(cs)), VideoOf)
  }

  /** The classified tracks of output rows, in order. */
  function Songs(rows: seq<Deduplicated>): (r: seq<Classified>)
    ensures |r| == |rows| && forall i :: 0 <= i < |rows| ==> r[i] == rows[i].song
  {
    seq(|rows|, i requires 0 <= i < |rows| => rows[i].song)
  }

  /** Each group row counts the rows of its group, and every link names a video id among the rows. */
  predicate CountedAndLinked(cs: seq<Classified>, rows: seq<Deduplicated>)
  {
    forall m :: 0 <= m < |rows| ==>
      && rows[m].duplicateCount == Count(cs, SameKey(KeyOf(rows[m].song)))
      && (rows[m].originalVideoId.Some? ==> KeyIn(rows, VideoOf, rows[m].originalVideoId.value))
  }

  /** The rows of one group: counted, and linked to the group's first row. */
  lemma GroupRowsCountedAndLinked(cs: seq<Classified>, k: Key)
    requires SortedGroup(cs, k) != []
    ensures CountedAndLinked(cs, GroupRows(SortedGroup(cs, k)))
  {
    var g := SortedGroup(cs, k);
    var rows := GroupRows(g);
    CountFilter(cs, SameKey(k));
    assert |g| == |multiset(g)| == |multiset(Filter(cs, SameKey(k)))| == |Filter(cs, SameKey(k))|;
    assert VideoOf(rows[0]) == g[0].track.videoId;
  }

  /** Concatenating rows of groups keeps both facts. */
  lemma ConcatCountedAndLinked(cs: seq<Classified>, a: seq<Deduplicated>, b: seq<Deduplicated>)
    requires CountedAndLinked(cs, a) && CountedAndLinked(cs, b)
    ensures CountedAndLinked(cs, a + b)
  {
    var r := a + b;
    forall m | 0 <= m < |r| && r[m].originalVideoId.Some?
      ensures KeyIn(r, VideoOf, r[m].originalVideoId.value)
    {
      var v := r[m].originalVideoId.value;
      if m < |a| {
        assert r[m] == a[m];
        var i :| 0 <= i < |a| && VideoOf(a[i]) == v;
        assert r[i] == a[i];
      } else {
        assert r[m] == b[m - |a|];
        var i :| 0 <= i < |b| && VideoOf(b[i]) == v;
        assert r[|a| + i] == b[i];
      }
    }
  }

  lemma {:induction false} GroupedCountedAndLinked(cs: seq<Classified>, ks: seq<Key>)
    ensures CountedAndLinked(cs, Grouped(cs, ks))
  {
    if ks != [] {
      GroupedCountedAndLinked(cs, ks[1..]);
      var g := SortedGroup(cs, ks[0]);
      if g != [] {
        GroupRowsCountedAndLinked(cs, ks[0]);
        ConcatCountedAndLinked(cs, GroupRows(g), Grouped(cs, ks[1..]));
      } else {
        assert Grouped(cs, ks) == Grouped(cs, ks[1..]);
      }
    }
  }

  /**
   * The output of `group_duplicates`: video ids are unique, each row is the
   * first grouped row of its video id, each row's duplicate count is the
   * size of its (canonical name, artists) group, and every link names a
   * video id present in the output.
   */
  lemma DeduplicateCorrect(cs: seq<Classified>)
    ensures UniqueKeys(Deduplicate(cs), VideoOf)
    ensures FirstsOf(Deduplicate(cs), Grouped(cs, GroupOrder(cs)), VideoOf)
    ensures CountedAndLinked(cs, Deduplicate(cs))
  {
    var grouped := Grouped(cs, GroupOrder(cs));
    var r := Deduplicate(cs);
    DropDuplicatesCorrect(grouped, VideoOf);
    GroupedCountedAndLinked(cs, GroupOrder(cs));
    forall m | 0 <= m < |r|
      ensures r[m].duplicateCount == Count(cs, SameKey(KeyOf(r[m].song)))
      ensures r[m].originalVideoId.Some? ==> KeyIn(r, VideoOf, r[m].originalVideoId.value)
    {
      var i :| 0 <= i < |grouped| && r[m] == grouped[i] && FirstWithKey(grouped, VideoOf, i);
      if r[m].originalVideoId.Some? {
        assert KeyIn(grouped, VideoOf, r[m].originalVideoId.value);
      }
    }
  }

  /** No element occurs twice. */
  predicate Distinct<T(==)>(s: seq<T>)
  {
    forall i, j :: 0 <= i < j < |s| ==> s[i] != s[j]
  }

  /** An element occurs at most once in a sequence without repetitions. */
  lemma {:induction false} DistinctOnce<T>(s: seq<T>, x: T)
    requires Distinct(s)
    ensures multiset(s)[x] <= 1
  {
    if s != [] {
      DistinctOnce(s[1..], x);
      assert s == [s[0]] + s[1..];
      if s[0] == x {
        assert x !in s[1..];
      }
    }
  }

  /** A permutation of a sequence without repetitions has none either. */
  lemma DistinctPermutation<T>(a: seq<T>, b: seq<T>)
    requires Distinct(b) && multiset(a) == multiset(b)
    ensures Distinct(a)
  {
    forall i, j | 0 <= i < j < |a| ensures a[i] != a[j] {
      if a[i] == a[j] {
        assert a == a[..i] + [a[i]] + a[i + 1..j] + [a[j]] + a[j + 1..];
        assert multiset(a)[a[i]] >= 2;
        DistinctOnce(b, a[i]);
      }
    }
  }

  /** The rows of the groups `ks` hold each track of one of those groups exactly as often as `cs` does. */
  lemma {:induction false} GroupedMultiset(cs: seq<Classified>, ks: seq<Key>)
    requires Distinct(ks)
    ensures forall x :: multiset(Songs(Grouped(cs, ks)))[x] == if HasKey(x) && KeyOf(x) in ks then multiset(cs)[x] else 0
  {
    if ks != [] {
      assert Distinct(ks[1..]);
      GroupedMultiset(cs, ks[1..]);
      GroupedSongsStep(cs, ks);
      var g := SortedGroup(cs, ks[0]);
      var rest := Songs(Grouped(cs, ks[1..]));
      forall x ensures multiset(g + rest)[x] == if HasKey(x) && KeyOf(x) in ks then multiset(cs)[x] else 0 {
        assert multiset(g)[x] == if HasKey(x) && KeyOf(x) == ks[0] then multiset(cs)[x] else 0;
        assert KeyOf(x) in ks <==> KeyOf(x) == ks[0] || KeyOf(x) in ks[1..];
        if KeyOf(x) == ks[0] {
          assert KeyOf(x) !in ks[1..];
        }
      }
    }
  }

  /** The tracks of the first group come first. */
  lemma GroupedSongsStep(cs: seq<Classified>, ks: seq<Key>)
    requires ks != []
    ensures Songs(Grouped(cs, ks)) == SortedGroup(cs, ks[0]) + Songs(Grouped(cs, ks[1..]))
  {
    var g := SortedGroup(cs, ks[0]);
    var head := if g == [] then [] else GroupRows(g);
    var rest := Grouped(cs, ks[1..]);
    assert Songs(head) == g;
    SongsAppend(head, rest);
  }

  lemma SongsAppend(a: seq<Deduplicated>, b: seq<Deduplicated>)
    ensures Songs(a + b) == Songs(a) + Songs(b)
  {
  }

  /**
   * Grouping neither loses nor repeats a track with artists: the grouped rows
   * are a permutation of the input rows with artists. The rows whose artists
   * are NaN are dropped.
   */
  lemma GroupingIsPermutation(cs: seq<Classified>)
    ensures multiset(Songs(Grouped(cs, GroupOrder(cs)))) == multiset(Filter(cs, HasKey))
  {
    var ks := GroupOrder(cs);
    DistinctPermutation(ks, DistinctKeys(cs));
    GroupedMultiset(cs, ks);
    forall x ensures multiset(Songs(Grouped(cs, ks)))[x] == multiset(Filter(cs, HasKey))[x] {
      if x in cs && HasKey(x) {
        var i :| 0 <= i < |cs| && cs[i] == x;
        assert KeyOf(x) in DistinctKeys(cs);
        assert KeyOf(x) in multiset(ks);
      }
    }
  }

  /** A track whose artists are NaN is in no group, so `group_duplicates` drops it. */
  lemma NoArtistsDropped(cs: seq<Classified>, x: Classified)
    requires !HasKey(x)
    ensures x !in Songs(Deduplicate(cs))
  {
    var grouped := Grouped(cs, GroupOrder(cs));
    var r := Deduplicate(cs);
    GroupingIsPermutation(cs);
    DropDuplicatesCorrect(grouped, VideoOf);
    forall m | 0 <= m < |r| ensures HasKey(r[m].song) {
      var i :| 0 <= i < |grouped| && r[m] == grouped[i] && FirstWithKey(grouped, VideoOf, i);
      assert Songs(grouped)[i] in multiset(Songs(grouped));
    }
  }
}
