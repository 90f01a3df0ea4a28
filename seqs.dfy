/**
 * Sequence helpers shared by the queries and the scripts: Python's prefix
 * slice, order-preserving filtering, counting and a stable insertion sort
 * under a caller-given total preorder.
 */
module Seqs {

  /** Python's `s[:n]`: a negative `n` counts from the end. */
  function Prefix<T>(s: seq<T>, n: int): (r: seq<T>)
    ensures |r| <= |s| && r == s[..|r|]
    ensures n >= 0 ==> |r| == if n < |s| then n else |s|
    ensures n < 0 ==> |r| == if |s| + n > 0 then |s| + n else 0
  {
    if n >= 0 then (if n < |s| then s[..n] else s)
    else if |s| + n > 0 then s[..|s| + n]
    else []
  }

  /** The elements of `s` satisfying `p`, in their original order. */
  function Filter<T(==,!new)>(s: seq<T>, p: T -> bool): (r: seq<T>)
    ensures |r| <= |s|
    ensures forall i :: 0 <= i < |r| ==> p(r[i])
    ensures forall x :: multiset(r)[x] == if p(x) then multiset(s)[x] else 0
  {
    if s == [] then []
    else
      assert s == [s[0]] + s[1..];
      if p(s[0]) then [s[0]] + Filter(s[1..], p) else Filter(s[1..], p)
  }

  /** The number of elements of `s` satisfying `p`. */
  function Count<T(==,!new)>(s: seq<T>, p: T -> bool): (n: nat)
    ensures n <= |s|
  {
    if s == [] then 0 else (if p(s[0]) then 1 else 0) + Count(s[1..], p)
  }

  /** Counting is the length of the filtered sequence. */
  lemma {:induction false} CountFilter<T(!new)>(s: seq<T>, p: T -> bool)
    ensures Count(s, p) == |Filter(s, p)|
  {
    if s != [] {
      CountFilter(s[1..], p);
    }
  }

  /** Every pair is comparable. */
  ghost predicate Total<T(!new)>(le: (T, T) -> bool)
  {
    forall a, b :: le(a, b) || le(b, a)
  }

  /** The order is transitive. */
  ghost predicate Transitive<T(!new)>(le: (T, T) -> bool)
  {
    forall a, b, c :: le(a, b) && le(b, c) ==> le(a, c)
  }

  /** Each element comes no later than every element after it. */
  predicate SortedBy<T>(s: seq<T>, le: (T, T) -> bool)
  {
    forall i, j :: 0 <= i < j < |s| ==> le(s[i], s[j])
  }

  /** Inserts `x` before the first element it may precede. */
  function Insert<T(==,!new)>(x: T, s: seq<T>, le: (T, T) -> bool): (r: seq<T>)
    requires Total(le) && Transitive(le)
    ensures multiset(r) == multiset(s) + multiset{x}
    ensures SortedBy(s, le) ==> SortedBy(r, le)
  {
    if s == [] || le(x, s[0]) then
      SortedFront(x, s, le);
      [x] + s
    else
      assert s == [s[0]] + s[1..];
      var rest := Insert(x, s[1..], le);
      SortedBehind(x, s, rest, le);
      [s[0]] + rest
  }

  /** An element no later than the head of a sorted sequence may go in front of it. */
  lemma SortedFront<T(!new)>(x: T, s: seq<T>, le: (T, T) -> bool)
    requires Transitive(le) && (s == [] || le(x, s[0]))
    ensures SortedBy(s, le) ==> SortedBy([x] + s, le)
  {
    if SortedBy(s, le) && s != [] {
      forall i, j | 0 <= i < j < |[x] + s| ensures le(([x] + s)[i], ([x] + s)[j]) {
        if i == 0 && j > 1 {
          assert le(s[0], s[j - 1]);
        }
      }
    }
  }

  /** The head of a sorted sequence may go in front of the rest with an element after it inserted. */
  lemma SortedBehind<T(!new)>(x: T, s: seq<T>, rest: seq<T>, le: (T, T) -> bool)
    requires s != [] && le(s[0], x)
    requires multiset(rest) == multiset(s[1..]) + multiset{x}
    requires SortedBy(s[1..], le) ==> SortedBy(rest, le)
    ensures SortedBy(s, le) ==> SortedBy([s[0]] + rest, le)
  {
    if SortedBy(s, le) {
      forall j | 0 <= j < |rest| ensures le(s[0], rest[j]) {
        assert rest[j] in multiset(rest);
        if rest[j] != x {
          assert rest[j] in multiset(s[1..]);
          var k :| 0 <= k < |s[1..]| && s[1..][k] == rest[j];
          assert le(s[0], s[k + 1]);
        }
      }
      assert SortedBy(s[1..], le);
    }
  }

  /**
   * Stable insertion sort: the result is ordered by `le` and a permutation
   * of `s`; elements that tie keep their order in `s`.
   */
  function Sort<T(==,!new)>(s: seq<T>, le: (T, T) -> bool): (r: seq<T>)
    requires Total(le) && Transitive(le)
    ensures SortedBy(r, le)
    ensures multiset(r) == multiset(s)
    ensures |r| == |s|
  {
    if s == [] then []
    else
      assert s == [s[0]] + s[1..];
      assert multiset(s) == multiset(s[1..]) + multiset{s[0]};
      Insert(s[0], Sort(s[1..], le), le)
  }

  /** A prefix holds no element more often than the whole. */
  lemma PrefixSubMultiset<T>(s: seq<T>, n: nat)
    requires n <= |s|
    ensures multiset(s[..n]) <= multiset(s)
  {
    assert s == s[..n] + s[n..];
  }

  /** Filtering holds no element more often than the input. */
  lemma FilterSubMultiset<T(!new)>(s: seq<T>, p: T -> bool)
    ensures multiset(Filter(s, p)) <= multiset(s)
  {
  }

  /** A property of every element carries over to any permutation. */
  lemma PermutationKeeps<T(!new)>(a: seq<T>, b: seq<T>, p: T -> bool)
    requires multiset(a) == multiset(b)
    requires forall i :: 0 <= i < |a| ==> p(a[i])
    ensures forall i :: 0 <= i < |b| ==> p(b[i])
  {
    forall i | 0 <= i < |b| ensures p(b[i]) {
      assert b[i] in multiset(a);
      var k :| 0 <= k < |a| && a[k] == b[i];
    }
  }

  /** `list.reverse()`. */
  function Reverse<T>(s: seq<T>): (r: seq<T>)
    ensures |r| == |s|
    ensures forall k :: 0 <= k < |s| ==> r[k] == s[|s| - 1 - k]
  {
    if s == [] then [] else Reverse(s[1..]) + [s[0]]
  }

  /** Counting an appended element. */
  lemma {:induction false} CountSnoc<T(!new)>(s: seq<T>, x: T, p: T -> bool)
    ensures Count(s + [x], p) == Count(s, p) + (if p(x) then 1 else 0)
  {
    if s == [] {
      assert [x][1..] == [];
      assert Count([x], p) == (if p(x) then 1 else 0) + Count([x][1..], p);
    } else {
      CountSnoc(s[1..], x, p);
      assert (s + [x])[0] == s[0];
      assert (s + [x])[1..] == s[1..] + [x];
      assert Count(s + [x], p) == (if p(s[0]) then 1 else 0) + Count(s[1..] + [x], p);
    }
  }

  /** Counting from the first element. */
  lemma CountHead<T(!new)>(s: seq<T>, p: T -> bool)
    requires s != []
    ensures Count(s, p) == (if p(s[0]) then 1 else 0) + Count(s[1..], p)
  {
  }

  /** `[f(xs[k], first + k) for k in range(len(xs))]`: each element with its running number. */
  function MapNumbered<T, U>(xs: seq<T>, f: (T, int) -> U, first: int): (r: seq<U>)
    ensures |r| == |xs|
  {
    if xs == [] then [] else MapNumbered(xs[..|xs| - 1], f, first) + [f(xs[|xs| - 1], first + |xs| - 1)]
  }

  /** The k-th result is `f` of the k-th element and number `first + k`. */
  lemma {:induction false} MapNumberedAt<T, U>(xs: seq<T>, f: (T, int) -> U, first: int)
    ensures forall k :: 0 <= k < |xs| ==> MapNumbered(xs, f, first)[k] == f(xs[k], first + k)
  {
    if xs != [] {
      MapNumberedAt(xs[..|xs| - 1], f, first);
    }
  }

  /** Numbering one more element of a prefix appends its result. */
  lemma MapNumberedStep<T, U>(xs: seq<T>, i: nat, f: (T, int) -> U, first: int)
    requires i < |xs|
    ensures MapNumbered(xs[..i + 1], f, first) == MapNumbered(xs[..i], f, first) + [f(xs[i], first + i)]
  {
    assert xs[..i + 1][..i] == xs[..i];
  }

  /** Concatenation is associative. */
  lemma AppendAssociative<T>(a: seq<T>, b: seq<T>, c: seq<T>)
    ensures (a + b) + c == a + (b + c)
  {
  }
}
