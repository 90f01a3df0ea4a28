/**
 * The input guards of the user-facing pages: HTML escaping, YouTube video id
 * validation (a full match of `^[A-Za-z0-9_-]{11}$` under Python's `re`
 * rules), the embed iframe built from a validated id, and search-query
 * truncation. A missing argument (`None`) and the empty string are both
 * "falsy" and take the same early exit.
 */
module Security {
  import opened Wrappers
  import opened Text
  import opened Seqs

  // ---------------------------------------------------------------------
  // escape_html
  // ---------------------------------------------------------------------

  /** The five characters `html.escape(quote=True)` replaces. */
  predicate Special(c: char)
  {
    c == '&' || c == '<' || c == '>' || c == '"' || c == '\''
  }

  /** The entity `html.escape(quote=True)` writes for one character, or the character itself. */
  function EscapeChar(c: char): (r: string)
    ensures !Special(c) ==> r == [c]
    ensures Special(c) ==> |r| > 1 && r[0] == '&'
    ensures '<' !in r && '>' !in r && '"' !in r && '\'' !in r
  {
    if c == '&' then "&amp;"
    else if c == '<' then "&lt;"
    else if c == '>' then "&gt;"
    else if c == '"' then "&quot;"
    else if c == '\'' then "&#x27;"
    else [c]
  }

  /** Escaping of a whole string, character by character. */
  function Escape(s: string): (r: string)
    ensures '<' !in r && '>' !in r && '"' !in r && '\'' !in r
    ensures (forall k :: 0 <= k < |s| ==> !Special(s[k])) ==> r == s
  {
    if s == [] then []
    else
      var r := EscapeChar(s[0]) + Escape(s[1..]);
      assert (forall k :: 0 <= k < |s| ==> !Special(s[k])) ==> r == [s[0]] + s[1..] == s;
      r
  }

  /** `escape_html`: "" for a missing or empty text, the escaped text otherwise. */
  function EscapeHtml(text: Option<string>): (r: string)
    ensures !Given(text) ==> r == ""
    ensures '<' !in r && '>' !in r && '"' !in r && '\'' !in r
    ensures Given(text) && (forall k :: 0 <= k < |text.value| ==> !Special(text.value[k])) ==> r == text.value
  {
    if !Given(text) then "" else Escape(text.value)
  }

  /** Reading the five entities back: the inverse of `Escape`. */
  function Unescape(s: string): string
  {
    if s == [] then []
    else if StartsWith(s, "&amp;") then "&" + Unescape(s[5..])
    else if StartsWith(s, "&lt;") then "<" + Unescape(s[4..])
    else if StartsWith(s, "&gt;") then ">" + Unescape(s[4..])
    else if StartsWith(s, "&quot;") then "\"" + Unescape(s[6..])
    else if StartsWith(s, "&#x27;") then "'" + Unescape(s[6..])
    else [s[0]] + Unescape(s[1..])
  }

  /** A string that differs from `p` at some position within both does not start with `p`. */
  lemma DiffersAt(s: string, p: string, i: nat)
    requires i < |p| && i < |s| && s[i] != p[i]
    ensures !StartsWith(s, p)
  {
  }

  /** Unescaping one escaped character in front of any text gives the character back. */
  lemma UnescapeChar(c: char, t: string)
    ensures Unescape(EscapeChar(c) + t) == [c] + Unescape(t)
  {
    var e := EscapeChar(c) + t;
    if c == '&' {
      assert e[..5] == "&amp;" && e[5..] == t;
    } else if c == '<' {
      DiffersAt(e, "&amp;", 1);
      assert e[..4] == "&lt;" && e[4..] == t;
    } else if c == '>' {
      DiffersAt(e, "&amp;", 1);
      DiffersAt(e, "&lt;", 1);
      assert e[..4] == "&gt;" && e[4..] == t;
    } else if c == '"' {
      DiffersAt(e, "&amp;", 1);
      DiffersAt(e, "&lt;", 1);
      DiffersAt(e, "&gt;", 1);
      assert e[..6] == "&quot;" && e[6..] == t;
    } else if c == '\'' {
      DiffersAt(e, "&amp;", 1);
      DiffersAt(e, "&lt;", 1);
      DiffersAt(e, "&gt;", 1);
      DiffersAt(e, "&quot;", 1);
      assert e[..6] == "&#x27;" && e[6..] == t;
    } else {
      DiffersAt(e, "&amp;", 0);
      DiffersAt(e, "&lt;", 0);
      DiffersAt(e, "&gt;", 0);
      DiffersAt(e, "&quot;", 0);
      DiffersAt(e, "&#x27;", 0);
      assert e[1..] == t;
    }
  }

  /** Escaping loses nothing: unescaping the result gives back the text. */
  lemma {:induction false} EscapeRoundTrip(s: string)
    ensures Unescape(Escape(s)) == s
  {
    if s != [] {
      EscapeRoundTrip(s[1..]);
      UnescapeChar(s[0], Escape(s[1..]));
      assert [s[0]] + s[1..] == s;
    }
  }

  // ---------------------------------------------------------------------
  // validate_youtube_video_id / sanitize_youtube_video_id
  // ---------------------------------------------------------------------

  /** The character class `[A-Za-z0-9_-]`. */
  predicate IsIdChar(c: char)
  {
    ('A' <= c <= 'Z') || ('a' <= c <= 'z') || ('0' <= c <= '9') || c == '_' || c == '-'
  }

  /** Exactly eleven id characters. */
  predicate IsPlainId(s: string)
  {
    |s| == 11 && forall k :: 0 <= k < 11 ==> IsIdChar(s[k])
  }

  /**
   * `validate_youtube_video_id`: a missing or empty id is refused; otherwise
   * the pattern must match from the start, and its `$` matches at the end or
   * just before one final newline.
   */
  function ValidateYoutubeVideoId(videoId: Option<string>): (ok: bool)
    ensures ok <==> Given(videoId) && (IsPlainId(videoId.value)
                    || (|videoId.value| == 12 && videoId.value[11] == '\n' && IsPlainId(videoId.value[..11])))
  {
    if !Given(videoId) then false
    else
      var s := videoId.value;
      IsPlainId(s) || (|s| == 12 && s[11] == '\n' && IsPlainId(s[..11]))
  }

  /** The documented examples, and the newline quirk of `$`. */
  lemma ValidateExamples()
    ensures ValidateYoutubeVideoId(Some("dQw4w9WgXcQ"))
    ensures !ValidateYoutubeVideoId(Some("invalid"))
    ensures !ValidateYoutubeVideoId(Some("<script>"))
    ensures !ValidateYoutubeVideoId(Some("")) && !ValidateYoutubeVideoId(None)
    ensures ValidateYoutubeVideoId(Some("dQw4w9WgXcQ\n"))
    ensures !ValidateYoutubeVideoId(Some("dQw4w9WgXcQ "))
  {
    assert IsPlainId("dQw4w9WgXcQ");
    assert "dQw4w9WgXcQ\n"[..11] == "dQw4w9WgXcQ";
    assert !IsIdChar(' ');
  }

  /** A valid id never holds a character that could end an HTML attribute or a URL path segment. */
  lemma ValidIdIsSafe(videoId: Option<string>)
    requires ValidateYoutubeVideoId(videoId)
    ensures forall k :: 0 <= k < |videoId.value| ==>
      !Special(videoId.value[k]) && videoId.value[k] != '/' && videoId.value[k] != '?' && videoId.value[k] != ' '
  {
  }

  /**
   * `sanitize_youtube_video_id`: the stripped id when it validates, nothing
   * otherwise (also for a missing or empty id).
   */
  function SanitizeYoutubeVideoId(videoId: Option<string>): (r: Option<string>)
    ensures r.Some? <==> Given(videoId) && ValidateYoutubeVideoId(Some(Strip(videoId.value)))
    ensures r.Some? ==> r.value == Strip(videoId.value)
  {
    if !Given(videoId) then None
    else
      var s := Strip(videoId.value);
      if ValidateYoutubeVideoId(Some(s)) then Some(s) else None
  }

  /** After stripping the newline quirk cannot occur: a sanitized id is exactly eleven id characters. */
  lemma SanitizedIsPlainId(videoId: Option<string>)
    requires SanitizeYoutubeVideoId(videoId).Some?
    ensures IsPlainId(SanitizeYoutubeVideoId(videoId).value)
  {
    StripIsTrimmedSlice(videoId.value);
  }

  /** Sanitizing a sanitized id returns it unchanged. */
  lemma SanitizeIdempotent(videoId: Option<string>)
    requires SanitizeYoutubeVideoId(videoId).Some?
    ensures SanitizeYoutubeVideoId(SanitizeYoutubeVideoId(videoId)) == SanitizeYoutubeVideoId(videoId)
  {
    StripIdempotent(videoId.value);
  }

  // ---------------------------------------------------------------------
  // create_safe_youtube_embed
  // ---------------------------------------------------------------------

  /** The part of the iframe source that names the video and the autoplay flag. */
  function EmbedSource(id: string, autoplay: bool): string
  {
    "youtube.com/embed/" + id + "?autoplay=" + (if autoplay then "1" else "0")
  }

  /** The text of the iframe after its opening `<iframe ` and before the video source. */
  function EmbedAttributes(width: string, height: int): string
  {
    "\n            width=\"" + width + "\" \n            height=\"" + Decimal(height)
    + "\" \n            src=\"https://www."
  }

  /** The text of the iframe after the video source and before its closing `</iframe>`. */
  const EmbedRest: string :=
    "\" \n            frameborder=\"0\" \n            allow=\"accelerometer; autoplay; clipboard-write; "
    + "encrypted-media; gyroscope; picture-in-picture\" \n            allowfullscreen>\n        "

  /** A string in the middle of a concatenation is contained in it. */
  lemma ContainsMiddle(a: string, b: string, c: string)
    ensures Contains(a + b + c, b)
  {
    var s := a + b + c;
    assert s[|a|..|a| + |b|] == b;
    assert OccursAt(s, b, |a|);
    ContainsAt(s, b);
  }

  /** An element built from five parts starts with the first, ends with the last and contains the middle one. */
  lemma EmbedShape(open: string, attributes: string, source: string, rest: string, close: string)
    ensures var s := (open + attributes) + source + (rest + close);
      StartsWith(s, open) && EndsWith(s, close) && Contains(s, source)
  {
    var s := (open + attributes) + source + (rest + close);
    ContainsMiddle(open + attributes, source, rest + close);
    assert s[..|open|] == open;
    assert s[|s| - |close|..] == close;
  }

  /**
   * `create_safe_youtube_embed`: nothing when the id does not sanitize;
   * otherwise the iframe, whose source names the sanitized id and the
   * autoplay flag. Width and height are inserted as given.
   */
  function CreateSafeYoutubeEmbed(videoId: Option<string>, width: string, height: int, autoplay: bool): (r: Option<string>)
    ensures r.None? <==> SanitizeYoutubeVideoId(videoId).None?
    ensures r.Some? ==> Contains(r.value, EmbedSource(SanitizeYoutubeVideoId(videoId).value, autoplay))
    ensures r.Some? ==> StartsWith(r.value, "<iframe ") && EndsWith(r.value, "</iframe>")
  {
    match SanitizeYoutubeVideoId(videoId)
    case None => None
    case Some(id) =>
      var head := "<iframe " + EmbedAttributes(width, height);
      var tail := EmbedRest + "</iframe>";
      var src := EmbedSource(id, autoplay);
      EmbedShape("<iframe ", EmbedAttributes(width, height), src, EmbedRest, "</iframe>");
      Some(head + src + tail)
  }

  /** The autoplay flag of the embed is 1 exactly when autoplay is requested. */
  lemma EmbedAutoplayFlag(id: string)
    ensures EndsWith(EmbedSource(id, true), "?autoplay=1") && EndsWith(EmbedSource(id, false), "?autoplay=0")
  {
  }

  // ---------------------------------------------------------------------
  // sanitize_search_query
  // ---------------------------------------------------------------------

  /** `sanitize_search_query`: "" for a missing or empty query, else the stripped query cut to `maxLength`. */
  function SanitizeSearchQuery(query: Option<string>, maxLength: int): (r: string)
    ensures !Given(query) ==> r == ""
    ensures Given(query) ==> StartsWith(Strip(query.value), r)
    ensures maxLength >= 0 ==> |r| <= maxLength
    ensures Given(query) && 0 <= |Strip(query.value)| <= maxLength ==> r == Strip(query.value)
    ensures Given(query) && 0 <= maxLength < |Strip(query.value)| ==> r == Strip(query.value)[..maxLength]
    ensures Given(query) && maxLength < 0 ==>
      r == Strip(query.value)[..if |Strip(query.value)| + maxLength > 0 then |Strip(query.value)| + maxLength else 0]
  {
    if !Given(query) then "" else Prefix(Strip(query.value), maxLength)
  }

  /** The default limit of 200 characters. */
  lemma SearchQueryDefaultLimit(query: Option<string>)
    ensures |SanitizeSearchQuery(query, 200)| <= 200
  {
  }
}
