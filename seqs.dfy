/** Generic sequence operations shared by the store and the list views: the
    `filter`, `map`, `find`, `reduce` and `Array.from(new Set(..))` idioms of
    the dashboard, plus the guarded ratios and `Math.round` the statistic
    cards use. */
module Seqs {

  datatype Option<T> = None | Some(value: T)

  /** `sub` can be obtained from `s` by dropping elements, keeping the order. */
  predicate IsSubsequence<T(==)>(sub: seq<T>, s: seq<T>)
  {
    if sub == [] then true
    else if s == [] then false
    else (sub[0] == s[0] && IsSubsequence(sub[1..], s[1..])) || IsSubsequence(sub, s[1..])
  }

  /** `s.filter(keep)`: the elements satisfying `keep`, in their original order. */
  function Filter<T(==)>(s: seq<T>, keep: T -> bool): (r: seq<T>)
    ensures |r| <= |s|
    ensures forall x :: x in r ==> x in s && keep(x)
    ensures forall x :: x in s && keep(x) ==> x in r
    ensures IsSubsequence(r, s)
  {
    if s == [] then []
    else if keep(s[0]) then [s[0]] + Filter(s[1..], keep)
    else Filter(s[1..], keep)
  }

  /** When every element passes, filtering returns the whole sequence. */
  lemma {:induction false} FilterAll<T>(s: seq<T>, keep: T -> bool)
    requires forall x :: x in s ==> keep(x)
    ensures Filter(s, keep) == s
  {
    if s != [] {
      assert s == [s[0]] + s[1..];
      FilterAll(s[1..], keep);
    }
  }

  /** Filtering an already filtered sequence by the same predicate changes nothing. */
  lemma FilterIdempotent<T>(s: seq<T>, keep: T -> bool)
    ensures Filter(Filter(s, keep), keep) == Filter(s, keep)
  {
    FilterAll(Filter(s, keep), keep);
  }

  /** Filtering distributes over concatenation. */
  lemma {:induction false} FilterAppend<T>(a: seq<T>, b: seq<T>, keep: T -> bool)
    ensures Filter(a + b, keep) == Filter(a, keep) + Filter(b, keep)
  {
    if a == [] {
      assert a + b == b;
    } else {
      assert (a + b)[0] == a[0];
      assert (a + b)[1..] == a[1..] + b;
      FilterAppend(a[1..], b, keep);
    }
  }

  /** Filtering a non-empty sequence filters its last element on its own. */
  lemma FilterLast<T>(s: seq<T>, keep: T -> bool)
    requires s != []
    ensures var last := s[|s| - 1];
      Filter(s, keep) == Filter(s[..|s| - 1], keep) + (if keep(last) then [last] else [])
  {
    var last := s[|s| - 1];
    FilterAppend(s[..|s| - 1], [last], keep);
    assert [last][1..] == [];
    assert s == s[..|s| - 1] + [last];
  }

  /** Two filters in a row are one filter by both predicates. */
  lemma {:induction false} FilterFilter<T>(s: seq<T>, p: T -> bool, q: T -> bool, both: T -> bool)
    requires forall x :: both(x) == (p(x) && q(x))
    ensures Filter(Filter(s, p), q) == Filter(s, both)
  {
    if s != [] {
      FilterFilter(s[1..], p, q, both);
    }
  }

  /** Every element lands in exactly one of `filter(p)` and `filter(!p)`. */
  lemma {:induction false} FilterPartitionCount<T>(s: seq<T>, p: T -> bool, q: T -> bool)
    requires forall x :: q(x) == !p(x)
    ensures |Filter(s, p)| + |Filter(s, q)| == |s|
  {
    if s != [] {
      FilterPartitionCount(s[1..], p, q);
    }
  }

  /** When `b` keeps the elements of `a` that `q` selects and turns the others
      into ones `p` refuses, `b` keeps under `p` exactly the selected elements
      of `a` that `p` keeps, and the count drops by those `q` does not select. */
  lemma {:induction false} FilterPointwiseDrop<T>(a: seq<T>, b: seq<T>, p: T -> bool, q: T -> bool,
                                                  both: T -> bool, dropped: T -> bool)
    requires |a| == |b|
    requires forall i :: 0 <= i < |a| ==> if q(a[i]) then b[i] == a[i] else !p(b[i])
    requires forall x :: both(x) == (p(x) && q(x))
    requires forall x :: dropped(x) == (p(x) && !q(x))
    ensures Filter(b, p) == Filter(a, both)
    ensures |Filter(b, p)| + |Filter(a, dropped)| == |Filter(a, p)|
  {
    if a != [] {
      FilterPointwiseDrop(a[1..], b[1..], p, q, both, dropped);
    }
  }

  /** Filtering by a predicate no element satisfies yields nothing. */
  lemma {:induction false} FilterNone<T>(s: seq<T>, keep: T -> bool)
    requires forall x :: x in s ==> !keep(x)
    ensures Filter(s, keep) == []
  {
    if s != [] {
      FilterNone(s[1..], keep);
    }
  }

  /** Two predicates that agree on the elements filter the same way. */
  lemma {:induction false} FilterCongruent<T>(s: seq<T>, p: T -> bool, q: T -> bool)
    requires forall x :: x in s ==> p(x) == q(x)
    ensures Filter(s, p) == Filter(s, q)
  {
    if s != [] {
      FilterCongruent(s[1..], p, q);
    }
  }

  /** `s.map(x => sel(x) ? f(x) : x)`: rewrite the selected elements in place. */
  function MapWhere<T>(s: seq<T>, sel: T -> bool, f: T -> T): (r: seq<T>)
    ensures |r| == |s|
  {
    seq(|s|, i requires 0 <= i < |s| => if sel(s[i]) then f(s[i]) else s[i])
  }

  /** `s.map(f)`. */
  function Map<T, U>(s: seq<T>, f: T -> U): (r: seq<U>)
    ensures |r| == |s|
    ensures forall i :: 0 <= i < |s| ==> r[i] == f(s[i])
  {
    seq(|s|, i requires 0 <= i < |s| => f(s[i]))
  }

  /** `s.find(p)`: the first element satisfying `p`, if any. */
  function Find<T>(s: seq<T>, p: T -> bool): (r: Option<T>)
    ensures r.None? <==> forall i :: 0 <= i < |s| ==> !p(s[i])
    ensures r.Some? ==> exists i :: 0 <= i < |s| && s[i] == r.value && p(s[i]) &&
                                    forall j :: 0 <= j < i ==> !p(s[j])
  {
    if s == [] then None
    else if p(s[0]) then Some(s[0])
    else
      var r := Find(s[1..], p);
      assert r.Some? ==> exists i :: 0 <= i < |s[1..]| && s[1..][i] == r.value && p(s[1..][i]) &&
                                     forall j :: 0 <= j < i ==> !p(s[1..][j]);
      assert r.Some? ==> exists i :: 1 <= i < |s| && s[i] == r.value && p(s[i]) &&
                                     forall j :: 0 <= j < i ==> !p(s[j]);
      r
  }

  /** `s.reduce((sum, x) => sum + f(x), 0)`. */
  function Sum<T>(s: seq<T>, f: T -> int): int
  {
    if s == [] then 0 else f(s[0]) + Sum(s[1..], f)
  }

  /** Appending one element adds its term to the sum. */
  lemma {:induction false} SumAppend<T>(s: seq<T>, x: T, f: T -> int)
    ensures Sum(s + [x], f) == Sum(s, f) + f(x)
  {
    if s == [] {
      assert s + [x] == [x];
    } else {
      assert (s + [x])[1..] == s[1..] + [x];
      SumAppend(s[1..], x, f);
    }
  }

  /** A pointwise smaller term gives a smaller sum. */
  lemma {:induction false} SumMonotone<T>(s: seq<T>, f: T -> int, g: T -> int)
    requires forall x :: x in s ==> f(x) <= g(x)
    ensures Sum(s, f) <= Sum(s, g)
  {
    if s != [] {
      SumMonotone(s[1..], f, g);
    }
  }

  /** Sums of terms within [lo, hi] lie within [|s| * lo, |s| * hi]. */
  lemma {:induction false} SumBounds<T>(s: seq<T>, f: T -> int, lo: int, hi: int)
    requires forall x :: x in s ==> lo <= f(x) <= hi
    ensures |s| * lo <= Sum(s, f) <= |s| * hi
  {
    if s != [] {
      SumBounds(s[1..], f, lo, hi);
    }
  }

  /** Sums agree when the terms agree position by position. */
  lemma {:induction false} SumPointwise<T>(a: seq<T>, b: seq<T>, f: T -> int)
    requires |a| == |b|
    requires forall i :: 0 <= i < |a| ==> f(a[i]) == f(b[i])
    ensures Sum(a, f) == Sum(b, f)
  {
    if a != [] {
      SumPointwise(a[1..], b[1..], f);
    }
  }

  /** Filtering keeps no more of `b` than of `a` when every element of `b`
      that passes stands where an element of `a` passed. */
  lemma {:induction false} FilterCountPointwise<T>(a: seq<T>, b: seq<T>, p: T -> bool)
    requires |a| == |b|
    requires forall i :: 0 <= i < |a| ==> p(b[i]) ==> p(a[i])
    ensures |Filter(b, p)| <= |Filter(a, p)|
  {
    if a != [] {
      FilterCountPointwise(a[1..], b[1..], p);
    }
  }

  /** Sum of a real-valued field, as `reduce` over non-integral numbers. */
  function SumReal<T>(s: seq<T>, f: T -> real): real
  {
    if s == [] then 0.0 else f(s[0]) + SumReal(s[1..], f)
  }

  /** Real sums of terms within [lo, hi] lie within [|s| * lo, |s| * hi]. */
  lemma {:induction false} SumRealBounds<T>(s: seq<T>, f: T -> real, lo: real, hi: real)
    requires forall x :: x in s ==> lo <= f(x) <= hi
    ensures |s| as real * lo <= SumReal(s, f) <= |s| as real * hi
  {
    if s != [] {
      SumRealBounds(s[1..], f, lo, hi);
    }
  }

  /** `Array.from(new Set(s))`: each value once, in order of first occurrence. */
  function Distinct<T(==)>(s: seq<T>): (r: seq<T>)
    ensures forall x :: x in r ==> x in s
    ensures forall x :: x in s ==> x in r
    ensures forall i, j :: 0 <= i < j < |r| ==> r[i] != r[j]
    ensures IsSubsequence(r, s)
  {
    if s == [] then []
    else
      var d := Distinct(s[..|s| - 1]);
      var x := s[|s| - 1];
      assert s == s[..|s| - 1] + [x];
      SubsequenceExtend(d, s[..|s| - 1], x);
      if x in d then d
      else
        SubsequenceSnoc(d, s[..|s| - 1], x);
        d + [x]
  }

  /** A subsequence of `s` is a subsequence of `s + [x]`. */
  lemma {:induction false} SubsequenceExtend<T>(sub: seq<T>, s: seq<T>, x: T)
    requires IsSubsequence(sub, s)
    ensures IsSubsequence(sub, s + [x])
  {
    if sub != [] && s != [] {
      assert (s + [x])[0] == s[0];
      assert (s + [x])[1..] == s[1..] + [x];
      if sub[0] == s[0] && IsSubsequence(sub[1..], s[1..]) {
        SubsequenceExtend(sub[1..], s[1..], x);
      } else {
        SubsequenceExtend(sub, s[1..], x);
      }
    }
  }

  /** Appending the same element to both keeps the subsequence relation. */
  lemma {:induction false} SubsequenceSnoc<T>(sub: seq<T>, s: seq<T>, x: T)
    requires IsSubsequence(sub, s)
    ensures IsSubsequence(sub + [x], s + [x])
    decreases |s|
  {
    if sub == [] {
      assert sub + [x] == [x];
      SubsequenceOfSingle(s, x);
    } else {
      assert s != [];
      assert (s + [x])[0] == s[0];
      assert (s + [x])[1..] == s[1..] + [x];
      assert (sub + [x])[0] == sub[0];
      assert (sub + [x])[1..] == sub[1..] + [x];
      if sub[0] == s[0] && IsSubsequence(sub[1..], s[1..]) {
        SubsequenceSnoc(sub[1..], s[1..], x);
      } else {
        SubsequenceSnoc(sub, s[1..], x);
      }
    }
  }

  /** `[x]` is a subsequence of any sequence ending in `x`. */
  lemma {:induction false} SubsequenceOfSingle<T>(s: seq<T>, x: T)
    ensures IsSubsequence([x], s + [x])
  {
    if s != [] {
      assert (s + [x])[1..] == s[1..] + [x];
      SubsequenceOfSingle(s[1..], x);
    } else {
      assert [x][1..] == [];
    }
  }

  /** `s.indexOf(x)`: the position of the first occurrence of `x`. */
  function IndexOf<T(==)>(s: seq<T>, x: T): (r: nat)
    requires x in s
    ensures r < |s| && s[r] == x
    ensures forall k :: 0 <= k < r ==> s[k] != x
  {
    if s[0] == x then 0 else 1 + IndexOf(s[1..], x)
  }

  /** Extending a sequence does not move the first occurrence of a value it already holds. */
  lemma IndexOfPrefix<T>(s: seq<T>, x: T)
    requires |s| > 0 && x in s[..|s| - 1]
    ensures IndexOf(s, x) == IndexOf(s[..|s| - 1], x)
  {
    var p := s[..|s| - 1];
    var a := IndexOf(s, x);
    var b := IndexOf(p, x);
    assert s[b] == x;
    assert forall k :: 0 <= k < |p| ==> p[k] == s[k];
  }

  /** The values of `Distinct(s)` appear in the order of their first occurrence in `s`. */
  lemma {:induction false} DistinctFirstOccurrence<T>(s: seq<T>)
    ensures forall i, j :: 0 <= i < j < |Distinct(s)| ==>
      IndexOf(s, Distinct(s)[i]) < IndexOf(s, Distinct(s)[j])
  {
    if s != [] {
      var p := s[..|s| - 1];
      var x := s[|s| - 1];
      var d := Distinct(p);
      DistinctFirstOccurrence(p);
      forall y | y in d
        ensures IndexOf(s, y) == IndexOf(p, y) < |p|
      {
        IndexOfPrefix(s, y);
      }
      if x !in d {
        assert x !in p;
        assert IndexOf(s, x) == |p|;
        assert Distinct(s) == d + [x];
      }
    }
  }

  /** A set after the expand/collapse toggle of one card: `x` flips
      membership, every other element keeps it. */
  function Toggled<T(==,!new)>(expanded: set<T>, x: T): (r: set<T>)
    ensures x in r <==> x !in expanded
    ensures forall y :: y != x ==> (y in r <==> y in expanded)
  {
    if x in expanded then expanded - {x} else expanded + {x}
  }

  /** Two toggles of the same card restore the set. */
  lemma ToggledTwice<T(!new)>(expanded: set<T>, x: T)
    ensures Toggled(Toggled(expanded, x), x) == expanded
  {
  }

  /** `s.slice(0, n)`: at most the first `n` elements. */
  function Take<T>(s: seq<T>, n: nat): (r: seq<T>)
    ensures |r| <= n && |r| <= |s|
    ensures s == r + s[|r|..]
    ensures |r| < |s| <==> |s| > n
  {
    if |s| <= n then s else s[..n]
  }

  /** A ratio in percent, 0 when the denominator is 0 (never NaN). */
  function GuardedPercent(part: int, whole: int): (r: real)
    ensures whole <= 0 ==> r == 0.0
    ensures 0 <= part <= whole ==> 0.0 <= r <= 100.0
  {
    if whole > 0 then part as real / whole as real * 100.0 else 0.0
  }

  /** `Math.round(n / d)` for a positive divisor: the nearest integer, halves up. */
  function RoundDiv(n: int, d: int): (r: int)
    requires d > 0
    ensures 2 * d * r - d <= 2 * n < 2 * d * r + d
  {
    var q := (2 * n + d) / (2 * d);
    assert 2 * d * q <= 2 * n + d < 2 * d * q + 2 * d;
    q
  }

  /** Rounding a ratio of a part to its whole, in percent, stays within [0, 100]. */
  lemma RoundPercentBounds(part: int, whole: int)
    requires whole > 0 && 0 <= part <= whole
    ensures 0 <= RoundDiv(100 * part, whole) <= 100
  {
    var r := RoundDiv(100 * part, whole);
    assert 2 * whole * r - whole <= 200 * part < 2 * whole * r + whole;
    assert whole * (2 * r + 1) > 0;
    PositiveProduct(whole, 2 * r + 1);
    assert whole * (201 - 2 * r) >= 0;
    PositiveProduct(whole, 2 * r - 201);
  }

  /** A quotient lies between the bounds that scale its dividend. */
  lemma QuotientBounds(t: int, n: int, lo: int, hi: int)
    requires n > 0 && n * lo <= t <= n * hi
    ensures lo as real <= t as real / n as real <= hi as real
  {
    var q := t as real / n as real;
    assert q * n as real == t as real;
    assert (n * lo) as real == n as real * lo as real;
    assert (n * hi) as real == n as real * hi as real;
    assert q < lo as real ==> q * n as real < lo as real * n as real;
    assert q > hi as real ==> q * n as real > hi as real * n as real;
  }

  /** A mean of reals lies between the bounds that scale its total. */
  lemma MeanBounds(t: real, n: real, lo: real, hi: real)
    requires n > 0.0 && n * lo <= t <= n * hi
    ensures lo <= t / n <= hi
  {
    var q := t / n;
    assert q * n == t;
    assert q < lo ==> q * n < lo * n;
    assert q > hi ==> q * n > hi * n;
  }

  /** With a positive left factor, the product has the sign of the right one. */
  lemma PositiveProduct(a: int, b: int)
    requires a > 0
    ensures a * b > 0 <==> b > 0
  {
    if b > 0 {
      assert a * b >= b;
    } else {
      assert a * b <= 0;
    }
  }
}
