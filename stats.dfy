/** Column arithmetic the analysis borrows from pandas and Python:
    sums, means, minimum and maximum, boolean-mask filtering, sorting,
    consecutive differences and Python's `round`. */
module Stats {

  // ---------------------------------------------------------------- sums

  /** `Series.sum()` of a real column. */
  function Sum(s: seq<real>): real
  {
    if |s| == 0 then 0.0 else s[0] + Sum(s[1..])
  }

  /** `Series.sum()` of an integer column. */
  function SumInt(s: seq<int>): int
  {
    if |s| == 0 then 0 else s[0] + SumInt(s[1..])
  }

  /** `Series.mean()` of a non-empty real column. */
  function Mean(s: seq<real>): real
    requires |s| > 0
  {
    Sum(s) / |s| as real
  }

  lemma {:induction false} SumConcat(a: seq<real>, b: seq<real>)
    ensures Sum(a + b) == Sum(a) + Sum(b)
  {
    if |a| == 0 {
      assert a + b == b;
    } else {
      assert (a + b)[1..] == a[1..] + b;
      SumConcat(a[1..], b);
    }
  }

  lemma {:induction false} SumIntConcat(a: seq<int>, b: seq<int>)
    ensures SumInt(a + b) == SumInt(a) + SumInt(b)
  {
    if |a| == 0 {
      assert a + b == b;
    } else {
      assert (a + b)[1..] == a[1..] + b;
      SumIntConcat(a[1..], b);
    }
  }

  /** Multiplying every element of a column by `c` multiplies its sum by `c`. */
  lemma {:induction false} SumScaled(s: seq<real>, t: seq<real>, c: real)
    requires |t| == |s|
    requires forall i :: 0 <= i < |s| ==> t[i] == c * s[i]
    ensures Sum(t) == c * Sum(s)
  {
    if |s| > 0 {
      SumScaled(s[1..], t[1..], c);
    }
  }

  /** The sum of an element-wise sum of two columns. */
  lemma {:induction false} SumIntPointwise(a: seq<int>, b: seq<int>, c: seq<int>)
    requires |a| == |b| == |c|
    requires forall i :: 0 <= i < |c| ==> c[i] == a[i] + b[i]
    ensures SumInt(c) == SumInt(a) + SumInt(b)
  {
    if |c| > 0 {
      SumIntPointwise(a[1..], b[1..], c[1..]);
    }
  }

  /** The sum of a column whose values lie in `[lo, hi]` lies in `[|s|*lo, |s|*hi]`. */
  lemma {:induction false} SumIntBounds(s: seq<int>, lo: int, hi: int)
    requires forall i :: 0 <= i < |s| ==> lo <= s[i] <= hi
    ensures |s| * lo <= SumInt(s) <= |s| * hi
  {
    if |s| > 0 {
      SumIntBounds(s[1..], lo, hi);
      assert |s| * lo == lo + (|s| - 1) * lo;
      assert |s| * hi == hi + (|s| - 1) * hi;
    }
  }

  // ---------------------------------------------------- minimum and maximum

  /** `Series.min()` of a non-empty integer column. */
  function MinOf(s: seq<int>): (m: int)
    requires |s| > 0
    ensures m in s
    ensures forall i :: 0 <= i < |s| ==> m <= s[i]
  {
    if |s| == 1 then s[0]
    else
      var rest := MinOf(s[1..]);
      if s[0] <= rest then s[0] else rest
  }

  /** `Series.max()` of a non-empty integer column. */
  function MaxOf(s: seq<int>): (m: int)
    requires |s| > 0
    ensures m in s
    ensures forall i :: 0 <= i < |s| ==> s[i] <= m
  {
    if |s| == 1 then s[0]
    else
      var rest := MaxOf(s[1..]);
      if s[0] >= rest then s[0] else rest
  }

  // ----------------------------------------------------------- filtering

  /** `df[mask]`: the rows that satisfy `p`, in their original order. */
  function Filter<T>(s: seq<T>, p: T -> bool): (r: seq<T>)
    ensures |r| <= |s|
    ensures forall x :: x in r ==> x in s && p(x)
  {
    if |s| == 0 then []
    else (if p(s[0]) then [s[0]] else []) + Filter(s[1..], p)
  }

  /** Every row that satisfies the mask is kept. */
  lemma {:induction false} FilterKeeps<T>(s: seq<T>, p: T -> bool, x: T)
    requires x in s && p(x)
    ensures x in Filter(s, p)
  {
    if s[0] != x {
      FilterKeeps(s[1..], p, x);
    }
  }

  /** Filtering keeps the order: it distributes over concatenation. */
  lemma {:induction false} FilterConcat<T>(a: seq<T>, b: seq<T>, p: T -> bool)
    ensures Filter(a + b, p) == Filter(a, p) + Filter(b, p)
  {
    if |a| == 0 {
      assert a + b == b;
    } else {
      assert (a + b)[1..] == a[1..] + b;
      FilterConcat(a[1..], b, p);
    }
  }

  /** A mask no row satisfies keeps nothing. */
  lemma {:induction false} FilterNone<T>(s: seq<T>, p: T -> bool)
    requires forall i :: 0 <= i < |s| ==> !p(s[i])
    ensures Filter(s, p) == []
  {
    if |s| > 0 {
      FilterNone(s[1..], p);
    }
  }

  function Indicator(b: bool): int { if b then 1 else 0 }

  /** Three masks that classify every row exactly once split the rows. */
  lemma {:induction false} FilterPartition<T>(s: seq<T>, p: T -> bool, q: T -> bool, e: T -> bool)
    requires forall i :: 0 <= i < |s| ==> Indicator(p(s[i])) + Indicator(q(s[i])) + Indicator(e(s[i])) == 1
    ensures |Filter(s, p)| + |Filter(s, q)| + |Filter(s, e)| == |s|
  {
    if |s| > 0 {
      FilterPartition(s[1..], p, q, e);
    }
  }

  // ------------------------------------------------------------- sorting

  predicate Sorted(s: seq<int>)
  {
    forall i, j :: 0 <= i < j < |s| ==> s[i] <= s[j]
  }

  function Insert(x: int, s: seq<int>): (r: seq<int>)
    requires Sorted(s)
    ensures Sorted(r)
    ensures |r| == |s| + 1
    ensures forall k :: 0 <= k < |r| ==> r[k] == x || r[k] in s
    ensures multiset(r) == multiset(s) + multiset{x}
  {
    if |s| == 0 then [x]
    else if x <= s[0] then [x] + s
    else
      var rest := Insert(x, s[1..]);
      assert s == [s[0]] + s[1..];
      [s[0]] + rest
  }

  /** `Series.sort_values()`: a sorted permutation of the column. */
  function Sort(s: seq<int>): (r: seq<int>)
    ensures Sorted(r)
    ensures multiset(r) == multiset(s)
  {
    if |s| == 0 then []
    else
      assert s == [s[0]] + s[1..];
      Insert(s[0], Sort(s[1..]))
  }

  /** The first and last elements of a sorted permutation are the minimum and the maximum. */
  lemma SortedEnds(s: seq<int>, t: seq<int>)
    requires |s| > 0 && Sorted(t) && multiset(t) == multiset(s)
    ensures |t| == |s|
    ensures t[0] == MinOf(s) && t[|t| - 1] == MaxOf(s)
  {
    assert |t| == |multiset(t)| == |multiset(s)| == |s|;
    var lo, hi := MinOf(s), MaxOf(s);
    assert lo in multiset(t) && hi in multiset(t);
    assert t[0] in multiset(s) && t[|t| - 1] in multiset(s);
  }

  // ------------------------------------------------------- differences

  /** `Series.diff()` without its leading NaN. */
  function Diffs(s: seq<int>): (d: seq<int>)
    ensures |d| == if |s| == 0 then 0 else |s| - 1
  {
    if |s| < 2 then [] else [s[1] - s[0]] + Diffs(s[1..])
  }

  /** The consecutive differences telescope to last minus first. */
  lemma {:induction false} DiffsTelescope(s: seq<int>)
    requires |s| > 0
    ensures SumInt(Diffs(s)) == s[|s| - 1] - s[0]
  {
    if |s| >= 2 {
      DiffsTelescope(s[1..]);
    }
  }

  /** Consecutive differences of a sorted column are non-negative. */
  lemma {:induction false} DiffsOfSorted(s: seq<int>)
    requires Sorted(s)
    ensures forall i :: 0 <= i < |Diffs(s)| ==> Diffs(s)[i] >= 0
  {
    if |s| >= 2 {
      DiffsOfSorted(s[1..]);
    }
  }

  // ----------------------------------------------------------- rounding

  /** Python's `round(x)`: the nearest integer, ties going to the even one. */
  function RoundHalfEven(x: real): (r: int)
    ensures -(1.0 / 2.0) <= x - r as real <= 1.0 / 2.0
    ensures (x - r as real == 1.0 / 2.0 || r as real - x == 1.0 / 2.0) ==> r % 2 == 0
  {
    var f := x.Floor;
    var frac := x - f as real;
    if frac < 1.0 / 2.0 then f
    else if frac > 1.0 / 2.0 then f + 1
    else if f % 2 == 0 then f
    else f + 1
  }

  /** The two properties of RoundHalfEven determine it: it is Python's round. */
  lemma RoundHalfEvenUnique(x: real, k: int)
    requires -(1.0 / 2.0) <= x - k as real <= 1.0 / 2.0
    requires (x - k as real == 1.0 / 2.0 || k as real - x == 1.0 / 2.0) ==> k % 2 == 0
    ensures k == RoundHalfEven(x)
  {
  }

  /** Rounding is monotone. */
  lemma RoundMonotone(x: real, y: real)
    requires x <= y
    ensures RoundHalfEven(x) <= RoundHalfEven(y)
  {
  }

  // ------------------------------------------------------------ quotients

  /** A quotient by a positive number scales back to its numerator. */
  lemma QuotientTimesDivisor(a: real, b: real)
    requires b > 0.0
    ensures (a / b) * b == a
  {
  }

  /** A constant factor can be taken out of a quotient. */
  lemma ScaledQuotient(c: real, a: real, b: real)
    requires b > 0.0
    ensures (c * a) / b == c * (a / b)
  {
    var q, r := a / b, (c * a) / b;
    QuotientTimesDivisor(a, b);
    QuotientTimesDivisor(c * a, b);
    assert r * b == (c * q) * b;
  }

  /** Comparing a quotient by a positive number with `c` is comparing the
      numerator with `c` times the divisor. */
  lemma QuotientCompare(a: real, b: real, c: real)
    requires b > 0.0
    ensures a / b < c <==> a < c * b
    ensures a / b > c <==> a > c * b
  {
    var q := a / b;
    QuotientTimesDivisor(a, b);
    if q < c {
      assert (c - q) * b > 0.0;
    } else if q > c {
      assert (q - c) * b > 0.0;
    }
  }
}
