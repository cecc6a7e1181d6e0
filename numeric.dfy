/** Real-valued helpers shared by every subsystem of the simulation: the
    `min`/`max` caps, sums and means of balance lists, the ascending sort the
    Gini statistic runs over, and counting below a threshold. */
module Numeric {

  datatype Option<T> = None | Some(value: T)

  function Min(a: real, b: real): real { if a <= b then a else b }

  function Max(a: real, b: real): real { if a >= b then a else b }

  function Abs(a: real): real { if a < 0.0 then -a else a }

  /** No object (or value) occurs twice. */
  predicate Distinct<T(==)>(s: seq<T>) {
    forall i, j :: 0 <= i < j < |s| ==> s[i] != s[j]
  }

  /** Sum of a sequence, accumulated left to right as a running total is. */
  function Sum(s: seq<real>): real
    decreases |s|
  {
    if |s| == 0 then 0.0 else Sum(s[..|s| - 1]) + s[|s| - 1]
  }

  /** Arithmetic mean; the source divides by the length without a guard. */
  function Mean(s: seq<real>): real
    requires |s| > 0
  {
    Sum(s) / |s| as real
  }

  lemma SumStep(s: seq<real>, i: nat)
    requires i < |s|
    ensures Sum(s[..i + 1]) == Sum(s[..i]) + s[i]
  {
    assert s[..i + 1][..i] == s[..i];
  }

  lemma {:induction false} SumConcat(a: seq<real>, b: seq<real>)
    ensures Sum(a + b) == Sum(a) + Sum(b)
    decreases |b|
  {
    if |b| == 0 {
      assert a + b == a;
    } else {
      var b' := b[..|b| - 1];
      assert (a + b)[..|a + b| - 1] == a + b';
      SumConcat(a, b');
    }
  }

  /** Putting an element in front adds exactly that element to the sum. */
  lemma SumCons(x: real, s: seq<real>)
    ensures Sum([x] + s) == x + Sum(s)
  {
    var single: seq<real> := [x];
    assert Sum(single) == x by { assert single[..0] == []; }
    SumConcat(single, s);
  }

  /** Removing one element takes exactly that element off the sum. */
  lemma SumRemove(s: seq<real>, k: nat)
    requires k < |s|
    ensures Sum(s) == Sum(s[..k] + s[k + 1..]) + s[k]
  {
    var pre, post := s[..k], s[k + 1..];
    var single: seq<real> := [s[k]];
    assert Sum(single) == s[k] by { assert single[..0] == []; }
    SumConcat(pre, single);
    SumConcat(pre + single, post);
    SumConcat(pre, post);
    assert s == pre + single + post;
  }

  /** The sum does not depend on the order of the summands. */
  lemma {:induction false} SumPermutation(a: seq<real>, b: seq<real>)
    requires multiset(a) == multiset(b)
    ensures Sum(a) == Sum(b)
    decreases |a|
  {
    if |a| == 0 {
      assert |b| == |multiset(b)| == 0;
    } else {
      var x := a[|a| - 1];
      var a' := a[..|a| - 1];
      assert a == a' + [x];
      assert x in multiset(b);
      var k :| 0 <= k < |b| && b[k] == x;
      var rest := b[..k] + b[k + 1..];
      assert b == b[..k] + [x] + b[k + 1..];
      assert multiset(a') == multiset(rest) by {
        var ma, mr := multiset(a'), multiset(rest);
        assert multiset(a) == ma + multiset{x};
        assert multiset(b) == mr + multiset{x};
        forall y ensures ma[y] == mr[y] {
          assert (ma + multiset{x})[y] == (mr + multiset{x})[y];
        }
        assert ma == mr;
      }
      SumPermutation(a', rest);
      SumRemove(b, k);
    }
  }

  /** Summands that are each at most their partners sum to at most the
      partners' sum. */
  lemma {:induction false} SumPointwiseAtMost(a: seq<real>, b: seq<real>)
    requires |a| == |b|
    requires forall i :: 0 <= i < |a| ==> a[i] <= b[i]
    ensures Sum(a) <= Sum(b)
    decreases |a|
  {
    if |a| > 0 {
      SumPointwiseAtMost(a[..|a| - 1], b[..|b| - 1]);
    }
  }

  /** Every summand at most m bounds the sum of the n summands by n * m. */
  lemma {:induction false} SumAtMost(s: seq<real>, n: nat, m: real)
    requires n == |s|
    requires forall i :: 0 <= i < |s| ==> s[i] <= m
    ensures Sum(s) <= n as real * m
    decreases n
  {
    if n > 0 {
      SumAtMost(s[..n - 1], n - 1, m);
      assert (n - 1) as real * m + m == n as real * m;
    }
  }

  /** Every summand at least m bounds the sum of the n summands from below by n * m. */
  lemma {:induction false} SumAtLeast(s: seq<real>, n: nat, m: real)
    requires n == |s|
    requires forall i :: 0 <= i < |s| ==> m <= s[i]
    ensures n as real * m <= Sum(s)
    decreases n
  {
    if n > 0 {
      SumAtLeast(s[..n - 1], n - 1, m);
      assert (n - 1) as real * m + m == n as real * m;
    }
  }

  /** n summands all equal to x sum to n * x. */
  lemma SumConstant(s: seq<real>, n: nat, x: real)
    requires n == |s|
    requires forall i :: 0 <= i < |s| ==> s[i] == x
    ensures Sum(s) == n as real * x
  {
    SumAtMost(s, n, x);
    SumAtLeast(s, n, x);
  }

  /** Summing an affine image of n summands: Sum(a * s + c) == a * Sum(s) + n * c. */
  lemma {:induction false} SumAffine(s: seq<real>, t: seq<real>, n: nat, a: real, c: real)
    requires n == |s| == |t|
    requires forall i :: 0 <= i < |s| ==> t[i] == a * s[i] + c
    ensures Sum(t) == a * Sum(s) + n as real * c
    decreases n
  {
    if n > 0 {
      SumAffine(s[..n - 1], t[..n - 1], n - 1, a, c);
      assert (n - 1) as real * c + c == n as real * c;
      assert a * Sum(s[..n - 1]) + a * s[n - 1] == a * Sum(s);
    }
  }

  lemma MultiplyLeft(a: real, x: real, y: real)
    requires a >= 0.0 && x <= y
    ensures a * x <= a * y
  {
  }

  /** The step of the prefix-share bound: m of n elements summing to p, each
      at most t, and the other k = n - m summing to q, each at least t, give
      n * p <= m * (p + q). */
  lemma ShareArith(n: nat, m: nat, k: nat, p: real, q: real, t: real, total: real)
    requires m + k == n && p <= m as real * t && k as real * t <= q && total == p + q
    ensures n as real * p <= m as real * total
  {
    var mr, kr := m as real, k as real;
    MultiplyLeft(kr, p, mr * t);
    MultiplyLeft(mr, kr * t, q);
    assert kr * (mr * t) == mr * (kr * t);
    assert n as real == mr + kr;
  }

  lemma ZeroProducts(a: real, b: real, x: real, y: real)
    requires x == 0.0 && b == 0.0
    ensures a * x <= b * y
  {
  }

  lemma EqualProducts(a: real, b: real, x: real, y: real)
    requires a == b && x == y
    ensures a * x <= b * y
  {
  }

  lemma PositiveFactor(c: real, x: real)
    requires c > 0.0 && c * x >= 0.0
    ensures x >= 0.0
  {
  }

  /** Cross-multiplied comparison of two shares. */
  lemma ShareCompare(p: real, total: real, m: real, n: real)
    requires total > 0.0 && n > 0.0 && n * p <= m * total
    ensures p / total <= m / n
  {
    var a, b := p / total, m / n;
    assert a * total == p && b * n == m;
    assert (n * total) * (b - a) == m * total - n * p;
    PositiveFactor(n * total, b - a);
  }

  lemma SelfRatio(x: real)
    requires x != 0.0
    ensures x / x == 1.0
  {
  }

  /** p = m * b over total = n * b is m / n, and total is not zero. */
  lemma RatioOfScaled(p: real, total: real, m: real, n: real, b: real)
    requires n != 0.0 && b != 0.0 && p == m * b && total == n * b
    ensures total != 0.0
    ensures p / total == m / n
  {
  }

  lemma ZeroRatio(x: real, n: real)
    requires x == 0.0 && n != 0.0
    ensures x / n == 0.0
  {
  }

  lemma NonPositiveRatio(x: real, n: real)
    requires x <= 0.0 && n > 0.0
    ensures x / n <= 0.0
  {
  }

  /** Bounds on every summand bound the mean. */
  lemma MeanBounds(s: seq<real>, lo: real, hi: real)
    requires |s| > 0
    requires forall i :: 0 <= i < |s| ==> lo <= s[i] <= hi
    ensures lo <= Mean(s) <= hi
  {
    SumAtMost(s, |s|, hi);
    SumAtLeast(s, |s|, lo);
    var n := |s| as real;
    assert n * lo <= Sum(s) <= n * hi;
    assert Sum(s) / n <= hi by {
      assert Sum(s) / n * n == Sum(s);
    }
    assert lo <= Sum(s) / n by {
      assert Sum(s) / n * n == Sum(s);
    }
  }

  ghost predicate Ascending(s: seq<real>) {
    forall i, j :: 0 <= i < j < |s| ==> s[i] <= s[j]
  }

  /** A lower bound on every element carries over to a rearrangement. */
  lemma LowerBoundPermuted(lo: real, a: seq<real>, b: seq<real>)
    requires multiset(a) == multiset(b)
    requires forall k :: 0 <= k < |b| ==> lo <= b[k]
    ensures forall k :: 0 <= k < |a| ==> lo <= a[k]
  {
    forall k | 0 <= k < |a|
      ensures lo <= a[k]
    {
      assert a[k] in multiset(b);
      var j :| 0 <= j < |b| && b[j] == a[k];
    }
  }

  /** Prefixing a lower bound of an ascending sequence keeps it ascending. */
  lemma AscendingCons(h: real, t: seq<real>)
    requires Ascending(t)
    requires forall k :: 0 <= k < |t| ==> h <= t[k]
    ensures Ascending([h] + t)
  {
    var r := [h] + t;
    forall i, j | 0 <= i < j < |r|
      ensures r[i] <= r[j]
    {
      assert r[j] == t[j - 1];
      if i > 0 {
        assert r[i] == t[i - 1];
      }
    }
  }

  /** Insert x into an ascending sequence, before the first element not below it. */
  function InsertAscending(x: real, s: seq<real>): (r: seq<real>)
    requires Ascending(s)
    ensures Ascending(r)
    ensures multiset(r) == multiset(s) + multiset{x}
    ensures |r| == |s| + 1
  {
    if s == [] || x <= s[0] then
      AscendingCons(x, s);
      [x] + s
    else
      var rest := InsertAscending(x, s[1..]);
      assert s == [s[0]] + s[1..];
      LowerBoundPermuted(s[0], rest, s[1..] + [x]);
      AscendingCons(s[0], rest);
      [s[0]] + rest
  }

  /** The ascending sort of the Python built-in `sorted` (insertion sort). */
  function SortAscending(s: seq<real>): (r: seq<real>)
    ensures Ascending(r)
    ensures multiset(r) == multiset(s)
    ensures |r| == |s|
  {
    if s == [] then []
    else
      assert s == [s[0]] + s[1..];
      InsertAscending(s[0], SortAscending(s[1..]))
  }

  /** Some member of a non-empty set, as iterating over it first yields one. */
  method Pick<T>(s: set<T>) returns (x: T)
    requires s != {}
    ensures x in s
  {
    x :| x in s;
  }

  /** Number of entries strictly below the line. */
  function CountBelow(s: seq<real>, line: real): (r: nat)
    ensures r <= |s|
    ensures r == 0 <==> (forall i :: 0 <= i < |s| ==> s[i] >= line)
    ensures r == |s| <==> (forall i :: 0 <= i < |s| ==> s[i] < line)
    decreases |s|
  {
    if |s| == 0 then 0
    else
      var n := |s| - 1;
      assert forall i :: 0 <= i < n ==> s[..n][i] == s[i];
      CountBelow(s[..n], line) + if s[n] < line then 1 else 0
  }
}
