/**
 * The album step of the import pipeline: the album type and language read
 * off an album name, and the extraction of one album record per distinct
 * album name of the de-duplicated songs.
 */
module Albums {
  import opened Wrappers
  import opened Text

  // ---------------------------------------------------------------------
  // parse_album_type
  // ---------------------------------------------------------------------

  const SingleKeywords: seq<string> := ["single", "digital single"]
  const EpKeywords: seq<string> := ["ep", "mini"]
  const RepackageKeywords: seq<string> := ["repackage", "special"]
  const JapaneseKeywords: seq<string> := ["#twice", "bdz", "&twice", "candy pop", "wake me up",
                                          "one more time", "brand new girl", "breakthrough", "celebrate"]

  /** The types after the first three: "japanese", then "studio", which has no keywords. */
  const LaterTypes: seq<(string, seq<string>)> := [("japanese", JapaneseKeywords), ("studio", [])]

  /** The keyword table: each album type with its keywords, in dictionary order. */
  const AlbumTypeKeywords: seq<(string, seq<string>)> :=
    [("single", SingleKeywords), ("ep", EpKeywords), ("repackage", RepackageKeywords)] + LaterTypes

  /** The album types `parse_album_type` can return. */
  predicate IsAlbumType(s: string)
  {
    s == "single" || s == "ep" || s == "repackage" || s == "japanese" || s == "studio"
  }

  /** The first type of `table` with a keyword contained in `name`, or None. */
  function FirstKeywordType(table: seq<(string, seq<string>)>, name: string): (r: Option<string>)
    ensures r.Some? ==> exists i :: 0 <= i < |table| && r.value == table[i].0 && ContainsAny(name, table[i].1)
  {
    if table == [] then None
    else if ContainsAny(name, table[0].1) then Some(table[0].0)
    else
      var r := FirstKeywordType(table[1..], name);
      assert r.Some? ==> exists i :: 1 <= i < |table| && r.value == table[i].0 && ContainsAny(name, table[i].1) by {
        if r.Some? {
          var i :| 0 <= i < |table[1..]| && r.value == table[1..][i].0 && ContainsAny(name, table[1..][i].1);
          assert table[i + 1] == table[1..][i];
        }
      }
      r
  }

  /** The fallback for a name no keyword matches. */
  function FallbackType(lower: string): string
  {
    if Contains(lower, "twice") || Contains(lower, "formula") || Contains(lower, "eyes wide open") then "studio"
    else "ep"
  }

  /**
   * `parse_album_type` as written: "single" for a missing or empty name,
   * else the first type whose keyword occurs in the lower-cased name, else
   * the fallback.
   */
  function ParseAlbumType(albumName: Option<string>): (r: string)
    ensures IsAlbumType(r)
    ensures !Given(albumName) ==> r == "single"
  {
    if !Given(albumName) then "single"
    else
      var lower := Lower(albumName.value);
      var found := FirstKeywordType(AlbumTypeKeywords, lower);
      if found.Some? then found.value else FallbackType(lower)
  }

  /** The types are tried in table order: a name with a "single" keyword is always a single. */
  lemma SingleKeywordWins(albumName: string)
    requires albumName != [] && ContainsAny(Lower(albumName), SingleKeywords)
    ensures ParseAlbumType(Some(albumName)) == "single"
  {
  }

  /**
   * A name with no keyword at all gets the fallback: "studio" for names
   * mentioning twice, formula or eyes wide open, "ep" for the rest.
   */
  lemma NoKeywordFallsBack(albumName: string)
    requires albumName != []
    requires forall i :: 0 <= i < |AlbumTypeKeywords| ==> !ContainsAny(Lower(albumName), AlbumTypeKeywords[i].1)
    ensures ParseAlbumType(Some(albumName)) == FallbackType(Lower(albumName))
  {
    assert FirstKeywordType(AlbumTypeKeywords, Lower(albumName)).None?;
  }

  /** "ep" occurs inside "repackage": a name containing "repackage" matches the "ep" keyword first. */
  lemma RepackageContainsEp(s: string)
    requires Contains(s, "repackage")
    ensures Contains(s, "ep")
  {
    ContainsAt(s, "repackage");
    var i :| OccursAt(s, "repackage", i);
    var w := s[i..i + 9];
    assert w == "repackage";
    assert w[1] == 'e' && w[2] == 'p';
    assert s[i + 1..i + 3] == [w[1], w[2]] == "ep";
    assert OccursAt(s, "ep", i + 1);
    ContainsAt(s, "ep");
  }

  /**
   * As written, the "repackage" keyword can never decide the type: a name
   * saying "repackage" (and no "single" keyword) is typed "ep", because
   * "ep" is tried first and is a substring of "repackage".
   */
  lemma RepackageReadsAsEp(albumName: string)
    requires albumName != [] && Contains(Lower(albumName), "repackage")
    requires !ContainsAny(Lower(albumName), SingleKeywords)
    ensures ParseAlbumType(Some(albumName)) == "ep"
  {
    var lower := Lower(albumName);
    RepackageContainsEp(lower);
    assert ContainsAny(lower, EpKeywords) by {
      assert EpKeywords[0] == "ep";
    }
    SecondMatches(AlbumTypeKeywords, lower);
  }

  /** The album named "repackage" is typed "ep" as written. */
  lemma RepackageAsWritten()
    ensures ParseAlbumType(Some("repackage")) == "ep"
  {
    LowerUntouched("repackage");
    RepackageNotSingle();
    assert StartsWith("repackage", "repackage");
    RepackageReadsAsEp("repackage");
  }

  /** "repackage" holds no "single" keyword. */
  lemma RepackageNotSingle()
    ensures !ContainsAny("repackage", SingleKeywords)
  {
    MissingFirstChar("repackage", SingleKeywords[0]);
    LongerNotContained("repackage", SingleKeywords[1]);
  }

  /** When the first type does not match and the second does, the second is reported. */
  lemma SecondMatches(table: seq<(string, seq<string>)>, name: string)
    requires |table| >= 2 && !ContainsAny(name, table[0].1) && ContainsAny(name, table[1].1)
    ensures FirstKeywordType(table, name) == Some(table[1].0)
  {
    assert table[1..][0] == table[1];
  }

  /** The keyword table with the "repackage" type tried before "ep". */
  const CorrectedKeywords: seq<(string, seq<string>)> :=
    [("single", SingleKeywords), ("repackage", RepackageKeywords), ("ep", EpKeywords)] + LaterTypes

  /** The album type with repackages recognised: as ParseAlbumType, over CorrectedKeywords. */
  function AlbumType(albumName: Option<string>): (r: string)
    ensures IsAlbumType(r)
    ensures !Given(albumName) ==> r == "single"
  {
    if !Given(albumName) then "single"
    else
      var lower := Lower(albumName.value);
      var found := FirstKeywordType(CorrectedKeywords, lower);
      if found.Some? then found.value else FallbackType(lower)
  }

  /** With the corrected order, a name saying "repackage" (and no "single" keyword) is a repackage. */
  lemma RepackageRecognised(albumName: string)
    requires albumName != [] && Contains(Lower(albumName), "repackage")
    requires !ContainsAny(Lower(albumName), SingleKeywords)
    ensures AlbumType(Some(albumName)) == "repackage"
  {
    var lower := Lower(albumName);
    assert ContainsAny(lower, RepackageKeywords) by {
      assert RepackageKeywords[0] == "repackage";
    }
    SecondMatches(CorrectedKeywords, lower);
  }

  /** The two orders agree on every name without a "repackage" keyword. */
  lemma CorrectionOnlyAffectsRepackages(albumName: string)
    requires !ContainsAny(Lower(albumName), RepackageKeywords)
    ensures AlbumType(Some(albumName)) == ParseAlbumType(Some(albumName))
  {
    if albumName != [] {
      SwapUnmatched(("single", SingleKeywords), ("ep", EpKeywords), ("repackage", RepackageKeywords),
                    LaterTypes, Lower(albumName));
    }
  }

  /** Moving a type whose keywords do not match ahead of its neighbour changes nothing. */
  lemma SwapUnmatched(s: (string, seq<string>), e: (string, seq<string>), r: (string, seq<string>),
                      rest: seq<(string, seq<string>)>, name: string)
    requires !ContainsAny(name, r.1)
    ensures FirstKeywordType([s, e, r] + rest, name) == FirstKeywordType([s, r, e] + rest, name)
  {
    var a := [s, e, r] + rest;
    var b := [s, r, e] + rest;
    assert a[0] == s && a[1..] == [e, r] + rest && b[0] == s && b[1..] == [r, e] + rest;
    assert ([e, r] + rest)[0] == e && ([e, r] + rest)[1..] == [r] + rest;
    assert ([r, e] + rest)[0] == r && ([r, e] + rest)[1..] == [e] + rest;
    assert ([r] + rest)[0] == r && ([r] + rest)[1..] == rest;
    assert ([e] + rest)[0] == e && ([e] + rest)[1..] == rest;
    assert FirstKeywordType([r] + rest, name) == FirstKeywordType(rest, name);
    assert FirstKeywordType([r, e] + rest, name) == FirstKeywordType([e] + rest, name);
  }

  // ---------------------------------------------------------------------
  // detect_album_language
  // ---------------------------------------------------------------------

  /** Album names read as Japanese (matched as substrings). */
  const JapaneseAlbumMarkers: seq<string> := ["#twice", "bdz", "&twice", "candy pop", "wake me up", "breakthrough"]

  /** Album names read as English (matched as whole names). */
  const EnglishAlbumNames: seq<string> := ["the feels", "moonlight sunrise", "strategy", "i got you"]

  /** `detect_album_language`: Korean unless a Japanese marker or an English name says otherwise. */
  function DetectAlbumLanguage(albumName: Option<string>): (r: string)
    ensures r == "korean" || r == "japanese" || r == "english"
    ensures !Given(albumName) ==> r == "korean"
    ensures r == "japanese" <==> Given(albumName) && ContainsAny(Lower(albumName.value), JapaneseAlbumMarkers)
    ensures r == "english" <==> Given(albumName) && !ContainsAny(Lower(albumName.value), JapaneseAlbumMarkers)
                                && Lower(albumName.value) in EnglishAlbumNames
  {
    if !Given(albumName) then "korean"
    else
      var lower := Lower(albumName.value);
      if ContainsAny(lower, JapaneseAlbumMarkers) then "japanese"
      else if lower in EnglishAlbumNames then "english"
      else "korean"
  }

  // ---------------------------------------------------------------------
  // The album extraction loop of `run`
  // ---------------------------------------------------------------------

  /** A de-duplicated song row, as far as the album extraction reads it. A missing value is None. */
  datatype SongRow = SongRow(album: Option<string>, artists: Option<string>)

  /** An album record. */
  datatype AlbumInfo = AlbumInfo(albumName: string, albumType: string, language: string, artistName: Option<string>)

  /** The record built for the first row of album `name`, typed by `parse_album_type` as written. */
  function AlbumOf(name: string, row: SongRow): (a: AlbumInfo)
    ensures a.albumName == name && a.artistName == row.artists
    ensures a.albumType == ParseAlbumType(Some(name)) && IsAlbumType(a.albumType)
    ensures a.language == DetectAlbumLanguage(Some(name))
  {
    AlbumInfo(name, ParseAlbumType(Some(name)), DetectAlbumLanguage(Some(name)), row.artists)
  }

  /** Only albums named with "repackage" are typed differently from the corrected typing. */
  lemma AlbumOfTypeCorrectUnlessRepackage(name: string, row: SongRow)
    requires !ContainsAny(Lower(name), RepackageKeywords)
    ensures AlbumOf(name, row).albumType == AlbumType(Some(name))
  {
    CorrectionOnlyAffectsRepackages(name);
  }

  /** Some row of `rows` is on album `name`. */
  predicate OnAlbum(rows: seq<SongRow>, name: string)
  {
    exists i :: 0 <= i < |rows| && rows[i].album == Some(name)
  }

  /** The album records for `rows`: one per non-empty album name, at its first row. */
  function Extracted(rows: seq<SongRow>): seq<AlbumInfo>
  {
    if rows == [] then []
    else
      var init := rows[..|rows| - 1];
      var last := rows[|rows| - 1];
      Extracted(init)
        + (if Given(last.album) && !OnAlbum(init, last.album.value) then [AlbumOf(last.album.value, last)] else [])
  }

  /** One more row adds its album's record exactly when the name is given and not seen before. */
  lemma ExtractedSnoc(init: seq<SongRow>, last: SongRow)
    ensures Extracted(init + [last]) == Extracted(init)
      + (if Given(last.album) && !OnAlbum(init, last.album.value) then [AlbumOf(last.album.value, last)] else [])
  {
    assert (init + [last])[..|init|] == init;
  }

  /** `seen` holds exactly the non-empty album names of `rows`. */
  ghost predicate SeenExactly(seen: set<string>, rows: seq<SongRow>)
  {
    forall name :: name in seen <==> name != [] && OnAlbum(rows, name)
  }

  /** The set of names seen so far grows by the next row's album when it is given and new. */
  lemma SeenSnoc(init: seq<SongRow>, last: SongRow, seen: set<string>)
    requires SeenExactly(seen, init)
    ensures Given(last.album) ==> (last.album.value in seen <==> OnAlbum(init, last.album.value))
    ensures SeenExactly(if Given(last.album) && last.album.value !in seen then seen + {last.album.value} else seen, init + [last])
  {
    forall name ensures OnAlbum(init + [last], name) <==> OnAlbum(init, name) || last.album == Some(name) {
      OnAlbumAppend(init, last, name);
    }
  }

  /** One pass of the album loop: the row's album is recorded unless it is empty or already seen. */
  method VisitRow(ghost rows: seq<SongRow>, i: nat, row: SongRow, albums: seq<AlbumInfo>, seen: set<string>)
    returns (albums': seq<AlbumInfo>, seen': set<string>)
    requires i < |rows| && row == rows[i]
    requires albums == Extracted(rows[..i])
    requires SeenExactly(seen, rows[..i])
    ensures albums' == Extracted(rows[..i + 1])
    ensures SeenExactly(seen', rows[..i + 1])
  {
    ghost var init := rows[..i];
    assert rows[..i + 1] == init + [row];
    ExtractedSnoc(init, row);
    SeenSnoc(init, row, seen);
    if Given(row.album) && row.album.value !in seen {
      seen' := seen + {row.album.value};
      albums' := albums + [AlbumOf(row.album.value, row)];
    } else {
      albums', seen' := albums, seen;
    }
  }

  /** The album loop of `run`: skips empty names and names already seen. */
  method ExtractAlbums(rows: seq<SongRow>) returns (albums: seq<AlbumInfo>)
    ensures albums == Extracted(rows)
  {
    albums := [];
    var seen: set<string> := {};
    var i := 0;
    while i < |rows|
      invariant 0 <= i <= |rows|
      invariant albums == Extracted(rows[..i])
      invariant SeenExactly(seen, rows[..i])
    {
      albums, seen := VisitRow(rows, i, rows[i], albums, seen);
      i := i + 1;
    }
    assert rows[..i] == rows;
  }

  /** No two records share an album name. */
  predicate UniqueNames(albums: seq<AlbumInfo>)
  {
    forall k, l :: 0 <= k < l < |albums| ==> albums[k].albumName != albums[l].albumName
  }

  /** Some record has album name `name`. */
  predicate Named(albums: seq<AlbumInfo>, name: string)
  {
    exists k :: 0 <= k < |albums| && albums[k].albumName == name
  }

  /** Each record is built from the first row on its album. */
  predicate FromFirstRows(rows: seq<SongRow>, albums: seq<AlbumInfo>)
  {
    forall k :: 0 <= k < |albums| ==> FromFirstRow(rows, albums[k])
  }

  /** `a` is the record for the first row on its album. */
  predicate FromFirstRow(rows: seq<SongRow>, a: AlbumInfo)
  {
    exists i :: 0 <= i < |rows| && rows[i].album == Some(a.albumName) && !OnAlbum(rows[..i], a.albumName) && a == AlbumOf(a.albumName, rows[i])
  }

  /** A row appended to `init` adds its own album and nothing else. */
  lemma OnAlbumAppend(init: seq<SongRow>, last: SongRow, name: string)
    ensures OnAlbum(init + [last], name) <==> OnAlbum(init, name) || last.album == Some(name)
  {
    var rows := init + [last];
    if OnAlbum(rows, name) {
      var j :| 0 <= j < |rows| && rows[j].album == Some(name);
      if j < |init| {
        assert init[j] == rows[j];
      }
    }
    if OnAlbum(init, name) {
      var j :| 0 <= j < |init| && init[j].album == Some(name);
      assert rows[j] == init[j];
    }
    assert rows[|init|] == last;
  }

  /** The extracted records name every non-empty album name of the rows, no other, and none twice. */
  lemma {:induction false} ExtractedNames(rows: seq<SongRow>)
    ensures UniqueNames(Extracted(rows))
    ensures forall name :: Named(Extracted(rows), name) <==> name != [] && OnAlbum(rows, name)
  {
    if rows != [] {
      var init := rows[..|rows| - 1];
      ExtractedNames(init);
      ExtractedStep(init, rows[|rows| - 1]);
      assert init + [rows[|rows| - 1]] == rows;
    }
  }

  /** One more row keeps the names unique and adds its album name when it is new and non-empty. */
  lemma ExtractedStep(init: seq<SongRow>, last: SongRow)
    requires UniqueNames(Extracted(init))
    requires forall name :: Named(Extracted(init), name) <==> name != [] && OnAlbum(init, name)
    ensures UniqueNames(Extracted(init + [last]))
    ensures forall name :: Named(Extracted(init + [last]), name) <==> name != [] && OnAlbum(init + [last], name)
  {
    var prev := Extracted(init);
    assert (init + [last])[..|init|] == init;
    forall name ensures OnAlbum(init + [last], name) <==> OnAlbum(init, name) || last.album == Some(name) {
      OnAlbumAppend(init, last, name);
    }
    if Given(last.album) && !OnAlbum(init, last.album.value) {
      assert Extracted(init + [last]) == prev + [AlbumOf(last.album.value, last)];
      NamedSnoc(prev, AlbumOf(last.album.value, last));
    } else {
      assert Extracted(init + [last]) == prev;
    }
  }

  /** Appending a record with a new name adds exactly that name and keeps names unique. */
  lemma NamedSnoc(prev: seq<AlbumInfo>, a: AlbumInfo)
    requires UniqueNames(prev) && !Named(prev, a.albumName)
    ensures UniqueNames(prev + [a])
    ensures forall name :: Named(prev + [a], name) <==> Named(prev, name) || name == a.albumName
  {
    var r := prev + [a];
    forall name ensures Named(r, name) <==> Named(prev, name) || name == a.albumName {
      if Named(r, name) {
        var k :| 0 <= k < |r| && r[k].albumName == name;
        if k < |prev| {
          assert r[k] == prev[k];
        }
      }
      if Named(prev, name) {
        var k :| 0 <= k < |prev| && prev[k].albumName == name;
        assert r[k] == prev[k];
      }
      assert r[|prev|] == a;
    }
    forall k | 0 <= k < |prev| ensures prev[k].albumName != a.albumName {
      assert Named(prev, prev[k].albumName);
    }
  }

  /** Each extracted record is built from the first row on its album. */
  lemma {:induction false} ExtractedFromFirstRows(rows: seq<SongRow>)
    ensures FromFirstRows(rows, Extracted(rows))
  {
    if rows != [] {
      var init := rows[..|rows| - 1];
      ExtractedFromFirstRows(init);
      FirstRowsStep(init, rows[|rows| - 1]);
      assert init + [rows[|rows| - 1]] == rows;
    }
  }

  /** Records built from first rows stay so when a row is appended, and so does a record for the new row. */
  lemma FirstRowsStep(init: seq<SongRow>, last: SongRow)
    requires FromFirstRows(init, Extracted(init))
    ensures FromFirstRows(init + [last], Extracted(init + [last]))
  {
    var rows := init + [last];
    var prev := Extracted(init);
    assert rows[..|init|] == init;
    forall k | 0 <= k < |prev| ensures FromFirstRow(rows, prev[k]) {
      var name := prev[k].albumName;
      var i :| 0 <= i < |init| && init[i].album == Some(name) && !OnAlbum(init[..i], name) && prev[k] == AlbumOf(name, init[i]);
      assert rows[i] == init[i] && rows[..i] == init[..i];
    }
    if Given(last.album) && !OnAlbum(init, last.album.value) {
      var a := AlbumOf(last.album.value, last);
      assert Extracted(rows) == prev + [a];
      assert FromFirstRow(rows, a) by {
        assert rows[|init|] == last;
      }
      forall k | 0 <= k < |prev| + 1 ensures FromFirstRow(rows, (prev + [a])[k]) {
        if k < |prev| {
          assert (prev + [a])[k] == prev[k];
        }
      }
    } else {
      assert Extracted(rows) == prev;
    }
  }

  /**
   * Records come out in first-seen order: the records for any prefix of the
   * rows are a prefix of the records for all of them.
   */
  lemma {:induction false} ExtractedPrefix(rows: seq<SongRow>, i: nat)
    requires i <= |rows|
    ensures Extracted(rows[..i]) <= Extracted(rows)
  {
    if i < |rows| {
      var n := |rows|;
      ExtractedPrefix(rows[..n - 1], i);
      assert rows[..n - 1][..i] == rows[..i];
    } else {
      assert rows[..i] == rows;
    }
  }
}
