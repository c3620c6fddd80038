/**
  The ordering and deduplication that `Validate` applies to the voice colours
  of a singer's sub-banks (`ToHashSet` followed by `OrderBy(c => c)`).
  Strings are compared ordinally: the first differing character decides and a
  proper prefix comes first.
*/
module Ordering {

  /** Ordinal "strictly less than" on strings. */
  predicate Less(a: string, b: string)
    decreases |a|
  {
    if a == [] then b != []
    else if b == [] then false
    else if a[0] == b[0] then Less(a[1..], b[1..])
    else a[0] < b[0]
  }

  lemma {:induction false} LessIrreflexive(a: string)
    ensures !Less(a, a)
    decreases |a|
  {
    if a != [] {
      LessIrreflexive(a[1..]);
    }
  }

  lemma {:induction false} LessAsymmetric(a: string, b: string)
    ensures Less(a, b) ==> !Less(b, a)
    decreases |a|
  {
    if a != [] && b != [] && a[0] == b[0] {
      LessAsymmetric(a[1..], b[1..]);
    }
  }

  lemma {:induction false} LessTransitive(a: string, b: string, c: string)
    requires Less(a, b) && Less(b, c)
    ensures Less(a, c)
    decreases |a|
  {
    if a != [] && a[0] == b[0] && b[0] == c[0] {
      LessTransitive(a[1..], b[1..], c[1..]);
    }
  }

  lemma {:induction false} LessTotal(a: string, b: string)
    requires a != b
    ensures Less(a, b) || Less(b, a)
    decreases |a|
  {
    if a != [] && b != [] && a[0] == b[0] {
      assert a == [a[0]] + a[1..] && b == [b[0]] + b[1..];
      LessTotal(a[1..], b[1..]);
    }
  }

  /** Every element is strictly below every later one: sorted, without duplicates. */
  ghost predicate StrictlyAscending(s: seq<string>) {
    forall i, j :: 0 <= i < j < |s| ==> Less(s[i], s[j])
  }

  /** The head of a strictly ascending sequence lies below everything after it. */
  lemma HeadBelowTail(s: seq<string>)
    requires StrictlyAscending(s) && s != []
    ensures forall y :: y in s[1..] ==> Less(s[0], y) && y != s[0]
  {
    forall y | y in s[1..] ensures Less(s[0], y) && y != s[0] {
      var k :| 0 <= k < |s[1..]| && s[1..][k] == y;
      assert s[k + 1] == y;
      LessIrreflexive(y);
    }
  }

  /** Anything below the head of a strictly ascending sequence lies below all of it. */
  lemma BelowHeadBelowAll(x: string, s: seq<string>)
    requires StrictlyAscending(s) && s != [] && Less(x, s[0])
    ensures forall y :: y in s ==> Less(x, y)
  {
    forall y | y in s ensures Less(x, y) {
      var k :| 0 <= k < |s| && s[k] == y;
      if k > 0 {
        LessTransitive(x, s[0], y);
      }
    }
  }

  lemma Prepend(h: string, t: seq<string>)
    requires StrictlyAscending(t)
    requires forall y :: y in t ==> Less(h, y)
    ensures StrictlyAscending([h] + t)
  {
    var s := [h] + t;
    forall i, j | 0 <= i < j < |s| ensures Less(s[i], s[j]) {
      assert s[j] == t[j - 1];
      if i > 0 {
        assert s[i] == t[i - 1];
      }
    }
  }

  /** Inserts `x` into a strictly ascending sequence, dropping it when it is already present. */
  function Insert(x: string, s: seq<string>): (r: seq<string>)
    requires StrictlyAscending(s)
    ensures StrictlyAscending(r)
    ensures forall y :: y in r <==> y == x || y in s
    decreases |s|
  {
    if s == [] then [x]
    else if x == s[0] then s
    else if Less(x, s[0]) then
      BelowHeadBelowAll(x, s);
      Prepend(x, s);
      [x] + s
    else
      LessTotal(x, s[0]);
      HeadBelowTail(s);
      var t := Insert(x, s[1..]);
      Prepend(s[0], t);
      assert s == [s[0]] + s[1..];
      [s[0]] + t
  }

  /**
    The distinct elements of `xs` in ascending order: the value of
    `xs.ToHashSet().OrderBy(c => c).ToArray()`.
  */
  function SortedDistinct(xs: seq<string>): (r: seq<string>)
    ensures StrictlyAscending(r)
    ensures forall y :: y in r <==> y in xs
    ensures |r| <= |xs|
    decreases |xs|
  {
    if xs == [] then []
    else
      var t := SortedDistinct(xs[1..]);
      var r := Insert(xs[0], t);
      assert xs == [xs[0]] + xs[1..];
      InsertLength(xs[0], t);
      r
  }

  lemma InsertLength(x: string, s: seq<string>)
    requires StrictlyAscending(s)
    ensures |Insert(x, s)| <= |s| + 1
    decreases |s|
  {
    if s != [] && x != s[0] && !Less(x, s[0]) {
      InsertLength(x, s[1..]);
    }
  }

  lemma EmptyTogether(a: seq<string>, b: seq<string>)
    requires forall y :: y in a <==> y in b
    ensures a == [] <==> b == []
  {
    if a != [] {
      assert a[0] in b;
    }
    if b != [] {
      assert b[0] in a;
    }
  }

  /** A value of a strictly ascending sequence is its head or lies above it. */
  lemma HeadIsLeast(s: seq<string>, y: string)
    requires StrictlyAscending(s) && y in s
    ensures y == s[0] || Less(s[0], y)
  {
    var k :| 0 <= k < |s| && s[k] == y;
  }

  /**
    Two strictly ascending sequences with the same elements are equal: the
    sorted, deduplicated form of a collection does not depend on the order
    or the repetitions in which its elements arrive.
  */
  lemma {:induction false} AscendingUnique(a: seq<string>, b: seq<string>)
    requires StrictlyAscending(a) && StrictlyAscending(b)
    requires forall y :: y in a <==> y in b
    ensures a == b
    decreases |a|
  {
    EmptyTogether(a, b);
    if a != [] {
      HeadIsLeast(a, b[0]);
      HeadIsLeast(b, a[0]);
      LessAsymmetric(a[0], b[0]);
      HeadBelowTail(a);
      HeadBelowTail(b);
      assert a == [a[0]] + a[1..] && b == [b[0]] + b[1..];
      forall y ensures y in a[1..] <==> y in b[1..] {
        assert y in a[1..] <==> y in a && y != a[0];
        assert y in b[1..] <==> y in b && y != b[0];
      }
      AscendingUnique(a[1..], b[1..]);
    }
  }

  /** `SortedDistinct` depends only on the set of elements of its argument. */
  lemma SortedDistinctOfSameElements(xs: seq<string>, ys: seq<string>)
    requires forall y :: y in xs <==> y in ys
    ensures SortedDistinct(xs) == SortedDistinct(ys)
  {
    AscendingUnique(SortedDistinct(xs), SortedDistinct(ys));
  }

  /** A sequence that is already strictly ascending comes back unchanged. */
  lemma SortedDistinctOfAscending(xs: seq<string>)
    requires StrictlyAscending(xs)
    ensures SortedDistinct(xs) == xs
  {
    AscendingUnique(SortedDistinct(xs), xs);
  }
}
