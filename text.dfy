/**
 * Strings as `seq<char>` and the handful of Python string operations the
 * core uses: `str.lower` (ASCII letters only), `str.strip`, `in` on
 * strings, `str.replace(c, '')` and `', '.join(...)`.
 */
module Text {
  import opened Wrappers

  /**
   * Python truthiness of an optional string: present and non-empty. A text
   * argument that is `None` or "" takes the "not given" branch.
   */
  predicate Given(s: Option<string>)
  {
    s.Some? && s.value != []
  }

  /** The characters Python's `str.isspace` (and `str.strip()`) treats as white space. */
  predicate IsSpace(c: char)
  {
    c == ' ' || c == '\t' || c == '\n' || c == '\r' || c == '\U{B}' || c == '\U{C}'
    || ('\U{1C}' <= c <= '\U{1F}') || c == '\U{85}' || c == '\U{A0}' || c == '\U{1680}'
    || ('\U{2000}' <= c <= '\U{200A}') || c == '\U{2028}' || c == '\U{2029}' || c == '\U{202F}'
    || c == '\U{205F}' || c == '\U{3000}'
  }

  predicate IsUpperAscii(c: char) { 'A' <= c <= 'Z' }

  /** Lower-cases one character (ASCII letters; every other character is kept). */
  function LowerChar(c: char): (r: char)
    ensures IsUpperAscii(c) ==> 'a' <= r <= 'z' && r as int - c as int == 'a' as int - 'A' as int
    ensures !IsUpperAscii(c) ==> r == c
    ensures !IsUpperAscii(r)
  {
    if IsUpperAscii(c) then (c as int + 32) as char else c
  }

  /** `s.lower()`, for the ASCII letters. */
  function Lower(s: string): (r: string)
    ensures |r| == |s|
    ensures forall k :: 0 <= k < |s| ==> r[k] == LowerChar(s[k])
  {
    if s == [] then [] else [LowerChar(s[0])] + Lower(s[1..])
  }

  /** A text without upper-case letters is its own lower-case form. */
  lemma {:induction false} LowerUntouched(s: string)
    requires forall k :: 0 <= k < |s| ==> !IsUpperAscii(s[k])
    ensures Lower(s) == s
  {
    if s != [] {
      LowerUntouched(s[1..]);
    }
  }

  /** Lower-casing twice is lower-casing once. */
  lemma {:induction false} LowerIdempotent(s: string)
    ensures Lower(Lower(s)) == Lower(s)
  {
    if s != [] {
      LowerIdempotent(s[1..]);
      assert Lower(s)[1..] == Lower(s[1..]);
    }
  }

  /** `s.lstrip()`: drops the leading white space. */
  function TrimStart(s: string): (r: string)
    ensures |r| <= |s| && r == s[|s| - |r|..]
    ensures r == [] || !IsSpace(r[0])
    ensures forall k :: 0 <= k < |s| - |r| ==> IsSpace(s[k])
  {
    if s != [] && IsSpace(s[0]) then TrimStart(s[1..]) else s
  }

  /** `s.rstrip()`: drops the trailing white space. */
  function TrimEnd(s: string): (r: string)
    ensures |r| <= |s| && r == s[..|r|]
    ensures r == [] || !IsSpace(r[|r| - 1])
    ensures forall k :: |r| <= k < |s| ==> IsSpace(s[k])
  {
    if s != [] && IsSpace(s[|s| - 1]) then TrimEnd(s[..|s| - 1]) else s
  }

  /** `s.strip()`. */
  function Strip(s: string): (r: string)
  {
    TrimStart(TrimEnd(s))
  }

  /** The stripped string is a slice of the input that neither starts nor ends with white space. */
  lemma StripIsTrimmedSlice(s: string)
    ensures var r := Strip(s);
      (exists i :: OccursAt(s, r, i))
      && (r == [] || (!IsSpace(r[0]) && !IsSpace(r[|r| - 1])))
  {
    var e := TrimEnd(s);
    var r := TrimStart(e);
    assert r == s[|e| - |r|..|e|];
    assert OccursAt(s, r, |e| - |r|);
    assert Strip(s) == r;
    if r != [] {
      assert r[|r| - 1] == e[|e| - 1];
    }
  }

  /** Stripping twice is stripping once. */
  lemma StripIdempotent(s: string)
    ensures Strip(Strip(s)) == Strip(s)
  {
    StripIsTrimmedSlice(s);
    var r := Strip(s);
    assert TrimEnd(r) == r;
  }

  /** `p` is a prefix of `s`. */
  predicate StartsWith(s: string, p: string)
  {
    |p| <= |s| && s[..|p|] == p
  }

  /** `p` is a suffix of `s` (`s.endswith(p)`). */
  predicate EndsWith(s: string, p: string)
  {
    |p| <= |s| && s[|s| - |p|..] == p
  }

  /** `sub` occurs in `s` starting at index `i`. */
  predicate OccursAt(s: string, sub: string, i: int)
  {
    0 <= i <= |s| - |sub| && s[i..i + |sub|] == sub
  }

  /** Python's `sub in s` on strings. */
  predicate Contains(s: string, sub: string)
  {
    StartsWith(s, sub) || (s != [] && Contains(s[1..], sub))
  }

  /** `Contains` holds exactly when `sub` occurs at some position of `s`. */
  lemma {:induction false} ContainsAt(s: string, sub: string)
    ensures Contains(s, sub) <==> exists i :: OccursAt(s, sub, i)
  {
    if s == [] {
      if sub == [] {
        assert OccursAt(s, sub, 0);
      } else {
        assert forall i :: !OccursAt(s, sub, i);
      }
    } else if StartsWith(s, sub) {
      assert OccursAt(s, sub, 0);
    } else {
      ContainsAt(s[1..], sub);
      assert Contains(s, sub) == Contains(s[1..], sub);
      if Contains(s[1..], sub) {
        var i :| OccursAt(s[1..], sub, i);
        assert s[1..][i..i + |sub|] == s[i + 1..i + 1 + |sub|];
        assert OccursAt(s, sub, i + 1);
      } else {
        forall i | OccursAt(s, sub, i) ensures false {
          assert i != 0;
          assert s[1..][i - 1..i - 1 + |sub|] == s[i..i + |sub|];
          assert OccursAt(s[1..], sub, i - 1);
        }
      }
    }
  }

  /** A string without the first character of `sub` does not contain `sub`. */
  lemma MissingFirstChar(s: string, sub: string)
    requires sub != [] && sub[0] !in s
    ensures !Contains(s, sub)
  {
    ContainsAt(s, sub);
    forall i ensures !OccursAt(s, sub, i) {
      if 0 <= i <= |s| - |sub| {
        assert s[i..i + |sub|][0] == s[i];
      }
    }
  }

  /** Python's `any(k in s for k in keys)`. */
  predicate ContainsAny(s: string, keys: seq<string>)
  {
    exists k :: 0 <= k < |keys| && Contains(s, keys[k])
  }

  /** No text contains a longer one. */
  lemma {:induction false} LongerNotContained(s: string, sub: string)
    requires |sub| > |s|
    ensures !Contains(s, sub)
  {
    if s != [] {
      LongerNotContained(s[1..], sub);
    }
  }

  /** The empty text contains one of the keys exactly when the empty key is one of them. */
  lemma EmptyContainsOnlyEmpty(keys: seq<string>)
    ensures ContainsAny([], keys) <==> [] in keys
  {
  }

  /** `s.replace(c, '')`: every occurrence of `c` removed. */
  function RemoveChar(s: string, c: char): (r: string)
    ensures c !in r
    ensures forall d :: d != c ==> multiset(r)[d] == multiset(s)[d]
  {
    if s == [] then []
    else
      assert s == [s[0]] + s[1..];
      if s[0] == c then RemoveChar(s[1..], c)
    else [s[0]] + RemoveChar(s[1..], c)
  }

  /** `sep.join(parts)`. */
  function Join(parts: seq<string>, sep: string): (r: string)
    ensures parts == [] ==> r == []
    ensures |parts| == 1 ==> r == parts[0]
  {
    if parts == [] then []
    else if |parts| == 1 then parts[0]
    else parts[0] + sep + Join(parts[1..], sep)
  }

  /**
   * SQL `LIKE` matching of `s` against pattern `p`: `%` matches any run of
   * characters, `_` exactly one, every other character itself. No escape
   * character is in use.
   */
  predicate LikeMatch(s: string, p: string)
    decreases |s| + |p|
  {
    if p == [] then s == []
    else if p[0] == '%' then LikeMatch(s, p[1..]) || (s != [] && LikeMatch(s[1..], p))
    else if p[0] == '_' then s != [] && LikeMatch(s[1..], p[1..])
    else s != [] && s[0] == p[0] && LikeMatch(s[1..], p[1..])
  }

  /** The pattern has no `LIKE` wildcard. */
  predicate NoWildcard(q: string)
  {
    forall k :: 0 <= k < |q| ==> q[k] != '%' && q[k] != '_'
  }

  /** A lone `%` matches everything. */
  lemma {:induction false} LikeAnyMatches(s: string)
    ensures LikeMatch(s, "%")
  {
    if s != [] {
      LikeAnyMatches(s[1..]);
    }
  }

  /** A wildcard-free pattern followed by `%` matches exactly the strings it starts. */
  lemma {:induction false} LikePrefix(s: string, q: string)
    requires NoWildcard(q)
    ensures LikeMatch(s, q + "%") <==> StartsWith(s, q)
  {
    if q == [] {
      assert q + "%" == "%";
      LikeAnyMatches(s);
    } else {
      assert (q + "%")[0] == q[0];
      assert (q + "%")[1..] == q[1..] + "%";
      if s != [] {
        LikePrefix(s[1..], q[1..]);
        if StartsWith(s, q) {
          assert s[1..][..|q| - 1] == s[..|q|][1..];
        }
        if StartsWith(s[1..], q[1..]) && s[0] == q[0] {
          assert s[..|q|] == [s[0]] + s[1..][..|q| - 1];
        }
      }
    }
  }

  /** A leading `%` matches when the rest matches some suffix. */
  lemma {:induction false} LikeLeadingAny(s: string, p: string)
    ensures LikeMatch(s, "%" + p) <==> exists i :: 0 <= i <= |s| && LikeMatch(s[i..], p)
  {
    assert ("%" + p)[0] == '%' && ("%" + p)[1..] == p;
    if s == [] {
      assert s[0..] == s;
    } else {
      LikeLeadingAny(s[1..], p);
      assert s[0..] == s;
      if LikeMatch(s[1..], "%" + p) {
        var i :| 0 <= i <= |s[1..]| && LikeMatch(s[1..][i..], p);
        assert s[1..][i..] == s[i + 1..];
      }
      forall i | 1 <= i <= |s| && LikeMatch(s[i..], p)
        ensures LikeMatch(s[1..], "%" + p)
      {
        assert s[1..][i - 1..] == s[i..];
      }
    }
  }

  /** With a wildcard-free query, `LIKE '%q%'` is substring containment. */
  lemma LikeSubstring(s: string, q: string)
    requires NoWildcard(q)
    ensures LikeMatch(s, "%" + q + "%") <==> Contains(s, q)
  {
    assert "%" + q + "%" == "%" + (q + "%");
    LikeLeadingAny(s, q + "%");
    ContainsAt(s, q);
    forall i | 0 <= i <= |s|
      ensures LikeMatch(s[i..], q + "%") <==> OccursAt(s, q, i)
    {
      LikePrefix(s[i..], q);
      if StartsWith(s[i..], q) {
        assert s[i..][..|q|] == s[i..i + |q|];
      }
      if OccursAt(s, q, i) {
        assert s[i..][..|q|] == s[i..i + |q|];
      }
    }
  }

  /** The decimal digit of `d`. */
  function DigitChar(d: nat): (c: char)
    requires d < 10
    ensures '0' <= c <= '9' && c as int - '0' as int == d
  {
    ('0' as int + d) as char
  }

  /** `str(n)` for a natural number: its decimal digits, without leading zeros. */
  function Digits(n: nat): (r: string)
    ensures r != [] && (forall k :: 0 <= k < |r| ==> '0' <= r[k] <= '9')
    ensures |r| > 1 ==> r[0] != '0'
  {
    if n < 10 then [DigitChar(n)] else Digits(n / 10) + [DigitChar(n % 10)]
  }

  /** `str(n)` for an integer: a minus sign before the digits of a negative number. */
  function Decimal(n: int): (r: string)
    ensures r != []
    ensures n < 0 <==> r[0] == '-'
    ensures forall k :: 0 < k < |r| ==> '0' <= r[k] <= '9'
  {
    if n < 0 then "-" + Digits(-n) else Digits(n)
  }

  /** `s.split(sep)` for a one-character separator: the pieces between separators, at least one. */
  function Split(s: string, sep: char): (r: seq<string>)
    ensures |r| >= 1
    ensures forall k :: 0 <= k < |r| ==> sep !in r[k]
  {
    if s == [] then [""]
    else
      var rest := Split(s[1..], sep);
      if s[0] == sep then [""] + rest else [[s[0]] + rest[0]] + rest[1..]
  }

  /** Joining the pieces with the separator gives back the string. */
  lemma {:induction false} SplitJoin(s: string, sep: char)
    ensures Join(Split(s, sep), [sep]) == s
  {
    if s != [] {
      var rest := Split(s[1..], sep);
      SplitJoin(s[1..], sep);
      if s[0] == sep {
        assert ([""] + rest)[1..] == rest;
        assert Join([""] + rest, [sep]) == [sep] + Join(rest, [sep]);
        assert [sep] + s[1..] == s;
      } else {
        var parts := [[s[0]] + rest[0]] + rest[1..];
        assert parts[1..] == rest[1..];
        if |rest| == 1 {
          assert Join(rest, [sep]) == rest[0];
        } else {
          assert Join(rest, [sep]) == rest[0] + [sep] + Join(rest[1..], [sep]);
        }
        assert [s[0]] + s[1..] == s;
      }
    }
  }

  /** Without a separator there is one piece: the whole string. */
  lemma {:induction false} SplitNone(s: string, sep: char)
    requires sep !in s
    ensures Split(s, sep) == [s]
  {
    if s != [] {
      SplitNone(s[1..], sep);
      assert [s[0]] + s[1..] == s;
    }
  }

  /** The piece before the first separator comes first, then the pieces of the rest. */
  lemma {:induction false} SplitFirst(a: string, b: string, sep: char)
    requires sep !in a
    ensures Split(a + [sep] + b, sep) == [a] + Split(b, sep)
  {
    var s := a + [sep] + b;
    if a == [] {
      assert s[0] == sep && s[1..] == b;
    } else {
      SplitFirst(a[1..], b, sep);
      assert s[0] == a[0] && s[1..] == a[1..] + [sep] + b;
      assert [a[0]] + a[1..] == a;
    }
  }

  predicate IsDigit(c: char) { '0' <= c <= '9' }

  /**
   * The digit body `int()` accepts: decimal digits, with single underscores
   * allowed between two digits.
   */
  predicate DigitBody(s: string)
  {
    && s != [] && IsDigit(s[0]) && IsDigit(s[|s| - 1])
    && (forall k :: 0 <= k < |s| ==> IsDigit(s[k]) || s[k] == '_')
    && (forall k :: 0 <= k < |s| - 1 ==> s[k] == '_' ==> s[k + 1] != '_')
  }

  /** The value of a digit body, underscores skipped. */
  function DigitsValue(s: string): (n: nat)
    requires forall k :: 0 <= k < |s| ==> IsDigit(s[k]) || s[k] == '_'
  {
    if s == [] then 0
    else
      var prefix := DigitsValue(s[..|s| - 1]);
      var c := s[|s| - 1];
      assert IsDigit(c) || c == '_';
      if c == '_' then prefix else prefix * 10 + (c as int - '0' as int)
  }

  /**
   * Python's `int(s)` on a string: surrounding white space is ignored, one
   * optional sign, then a digit body; anything else is a `ValueError`
   * (nothing). Only ASCII digits are recognised.
   */
  function ParseInt(s: string): (r: Option<int>)
    ensures r.Some? ==> Strip(s) != []
  {
    var t := Strip(s);
    if t == [] then None
    else
      var negative := t[0] == '-';
      var body := if t[0] == '-' || t[0] == '+' then t[1..] else t;
      if DigitBody(body) then
        var v: int := DigitsValue(body);
        Some(if negative then -v else v)
      else None
  }

  /** A string without white space at either end is its own strip. */
  lemma StripUntouched(s: string)
    requires s != [] && !IsSpace(s[0]) && !IsSpace(s[|s| - 1])
    ensures Strip(s) == s
  {
  }

  /** The digits of n read back as n. */
  lemma {:induction false} DigitsRoundTrip(n: nat)
    ensures DigitBody(Digits(n)) && DigitsValue(Digits(n)) == n
  {
    var r := Digits(n);
    if n >= 10 {
      DigitsRoundTrip(n / 10);
      assert r[..|r| - 1] == Digits(n / 10);
    }
  }

  /** An unsigned digit body without surrounding white space reads as its value. */
  lemma ParseUnsigned(t: string)
    requires DigitBody(t) && Strip(t) == t
    ensures ParseInt(t) == Some(DigitsValue(t))
  {
  }

  /** A minus sign before a digit body, without surrounding white space, reads as the negated value. */
  lemma ParseNegative(t: string)
    requires t != [] && t[0] == '-' && DigitBody(t[1..]) && Strip(t) == t
    ensures var v: int := DigitsValue(t[1..]); ParseInt(t) == Some(-v)
  {
  }

  /** `int(str(n)) == n`. */
  lemma ParseDecimal(n: int)
    ensures ParseInt(Decimal(n)) == Some(n)
  {
    if n < 0 {
      ParseDecimalNegative(n);
    } else {
      ParseDecimalNatural(n);
    }
  }

  lemma ParseDecimalNegative(n: int)
    requires n < 0
    ensures ParseInt(Decimal(n)) == Some(n)
  {
    var d := Decimal(n);
    DecimalStripped(n);
    DigitsRoundTrip(-n);
    assert d[1..] == Digits(-n);
    assert DigitsValue(d[1..]) == -n;
    ParseNegative(d);
  }

  lemma ParseDecimalNatural(n: nat)
    ensures ParseInt(Decimal(n)) == Some(n)
  {
    var d := Decimal(n);
    DecimalStripped(n);
    DigitsRoundTrip(n);
    assert d == Digits(n);
    ParseUnsigned(d);
  }

  /** `str(n)` has no white space to strip. */
  lemma DecimalStripped(n: int)
    ensures Strip(Decimal(n)) == Decimal(n)
  {
    var d := Decimal(n);
    assert !IsSpace(d[0]) && !IsSpace(d[|d| - 1]);
    StripUntouched(d);
  }

  /** Python's `a <= b` on strings: code point by code point, a proper prefix first. */
  predicate StrLe(a: string, b: string)
  {
    a == [] || (b != [] && (a[0] < b[0] || (a[0] == b[0] && StrLe(a[1..], b[1..]))))
  }

  /** Any two strings are ordered one way or the other. */
  lemma {:induction false} StrLeTotal(a: string, b: string)
    ensures StrLe(a, b) || StrLe(b, a)
  {
    if a != [] && b != [] && a[0] == b[0] {
      StrLeTotal(a[1..], b[1..]);
    }
  }

  /** Strings ordered both ways are equal. */
  lemma {:induction false} StrLeAntisymmetric(a: string, b: string)
    requires StrLe(a, b) && StrLe(b, a)
    ensures a == b
  {
    if a != [] {
      StrLeAntisymmetric(a[1..], b[1..]);
      assert a == [a[0]] + a[1..] && b == [b[0]] + b[1..];
    }
  }

  lemma {:induction false} StrLeTransitive(a: string, b: string, c: string)
    requires StrLe(a, b) && StrLe(b, c)
    ensures StrLe(a, c)
  {
    if a != [] && a[0] == b[0] && b[0] == c[0] {
      StrLeTransitive(a[1..], b[1..], c[1..]);
    }
  }
}
