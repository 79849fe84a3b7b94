/** The NumPy statistics the pipeline applies, over `real`: `np.sum`,
    `np.mean`, `np.var` (population variance) and `np.median`. */
module Stats {

  function Sum(s: seq<real>): real {
    if |s| == 0 then 0.0 else Sum(s[..|s| - 1]) + s[|s| - 1]
  }

  /** `np.mean`; the empty mean (NaN in NumPy) is taken as 0. */
  function Mean(s: seq<real>): real {
    if |s| == 0 then 0.0 else Sum(s) / (|s| as real)
  }

  /** `np.abs` on one value. */
  function Abs(x: real): real {
    if x >= 0.0 then x else -x
  }

  /** Element-wise `a - b`. */
  function Subtract(a: seq<real>, b: seq<real>): (r: seq<real>)
    requires |a| == |b|
    ensures |r| == |a| && forall i :: 0 <= i < |a| ==> r[i] == a[i] - b[i]
  {
    seq(|a|, i requires 0 <= i < |a| => a[i] - b[i])
  }

  /** Every element minus `c`. */
  function Shift(s: seq<real>, c: real): (r: seq<real>)
    ensures |r| == |s|
  {
    seq(|s|, i requires 0 <= i < |s| => s[i] - c)
  }

  /** Every element times `c`. */
  function Scale(s: seq<real>, c: real): (r: seq<real>)
    ensures |r| == |s|
  {
    seq(|s|, i requires 0 <= i < |s| => s[i] * c)
  }

  lemma {:induction false} SumShift(s: seq<real>, c: real)
    ensures Sum(Shift(s, c)) == Sum(s) - (|s| as real) * c
  {
    if |s| > 0 {
      var n := |s|;
      assert Shift(s, c)[..n - 1] == Shift(s[..n - 1], c);
      SumShift(s[..n - 1], c);
    }
  }

  /** Subtracting a constant moves the mean by that constant. */
  lemma MeanShift(s: seq<real>, c: real)
    requires |s| > 0
    ensures Mean(Shift(s, c)) == Mean(s) - c
  {
    SumShift(s, c);
    var n := |s| as real;
    assert (Sum(s) - n * c) / n == Sum(s) / n - c;
  }

  lemma {:induction false} SumNonNegative(s: seq<real>)
    requires forall i :: 0 <= i < |s| ==> s[i] >= 0.0
    ensures Sum(s) >= 0.0
  {
    if |s| > 0 {
      SumNonNegative(s[..|s| - 1]);
    }
  }

  function Sq(x: real): real {
    x * x
  }

  lemma SqNonNegative(x: real)
    ensures Sq(x) >= 0.0
  {
    if x >= 0.0 {
      calc {
        Sq(x);
        x * x;
      >=
        0.0 * x;
      }
    } else {
      calc {
        Sq(x);
        (-x) * (-x);
      >
        0.0 * (-x);
      }
    }
  }

  /** Squared deviations from the mean. */
  function SquaredDeviations(s: seq<real>): (r: seq<real>)
    ensures |r| == |s|
    ensures forall i :: 0 <= i < |r| ==> r[i] >= 0.0
  {
    var m := Mean(s);
    var r := seq(|s|, i requires 0 <= i < |s| => Sq(s[i] - m));
    assert forall i :: 0 <= i < |r| ==> r[i] >= 0.0 by {
      forall i | 0 <= i < |r| ensures r[i] >= 0.0 {
        SqNonNegative(s[i] - m);
      }
    }
    r
  }

  /** `np.var`: the population variance (divisor n). */
  function Variance(s: seq<real>): (v: real)
    ensures v >= 0.0
  {
    var d := SquaredDeviations(s);
    SumNonNegative(d);
    Mean(d)
  }

  ghost predicate SortedReals(s: seq<real>) {
    forall i, j :: 0 <= i < j < |s| ==> s[i] <= s[j]
  }

  function InsertReal(x: real, s: seq<real>): (r: seq<real>)
    requires SortedReals(s)
    ensures SortedReals(r)
    ensures multiset(r) == multiset(s) + multiset{x}
  {
    if |s| == 0 || x <= s[0] then [x] + s
    else
      var t := InsertReal(x, s[1..]);
      forall k | 0 <= k < |t| ensures s[0] <= t[k] {
        LowerBoundOfInsert(s[0], x, s[1..], t, t[k]);
      }
      ConsSorted(s[0], t);
      assert s == [s[0]] + s[1..];
      [s[0]] + t
  }

  /** A lower bound of a sorted sequence can be put in front of it. */
  lemma ConsSorted(a: real, t: seq<real>)
    requires SortedReals(t) && forall k :: 0 <= k < |t| ==> a <= t[k]
    ensures SortedReals([a] + t)
  {
    var r := [a] + t;
    forall i, j | 0 <= i < j < |r| ensures r[i] <= r[j] {
      assert r[j] == t[j - 1];
      if i > 0 {
        assert r[i] == t[i - 1];
      }
    }
  }

  /** A lower bound of `x` and of every element of `s` bounds every element
      of a permutation of `s` with `x` added. */
  lemma LowerBoundOfInsert(lo: real, x: real, s: seq<real>, t: seq<real>, y: real)
    requires lo <= x && forall j :: 0 <= j < |s| ==> lo <= s[j]
    requires multiset(t) == multiset(s) + multiset{x} && y in t
    ensures lo <= y
  {
    assert y in multiset(t);
    if y != x {
      assert y in multiset(s);
      var j :| 0 <= j < |s| && s[j] == y;
    }
  }

  /** An ascending permutation of `s` (`np.sort`). */
  function SortReals(s: seq<real>): (r: seq<real>)
    ensures SortedReals(r)
    ensures multiset(r) == multiset(s)
  {
    if |s| == 0 then []
    else
      assert s == [s[0]] + s[1..];
      InsertReal(s[0], SortReals(s[1..]))
  }

  /** `np.median`: the middle of the sorted values, or the mean of the two
      middle ones when there is an even number of them. */
  function Median(s: seq<real>): real
    requires |s| > 0
  {
    var t := SortReals(s);
    assert |t| == |s| by {
      assert |multiset(t)| == |multiset(s)|;
    }
    var n := |t|;
    if n % 2 == 1 then t[n / 2] else (t[n / 2 - 1] + t[n / 2]) / 2.0
  }

  lemma SortedHeadIsLeast(s: seq<real>, y: real)
    requires SortedReals(s) && y in multiset(s)
    ensures s[0] <= y
  {
    var k :| 0 <= k < |s| && s[k] == y;
    assert k == 0 || s[0] <= s[k];
  }

  /** An ascending arrangement of a multiset of values is unique. */
  lemma {:induction false} SortedPermutationUnique(a: seq<real>, b: seq<real>)
    requires SortedReals(a) && SortedReals(b)
    requires multiset(a) == multiset(b)
    ensures a == b
  {
    assert |a| == |multiset(a)| == |multiset(b)| == |b|;
    if |a| > 0 {
      var x := a[0];
      assert x in multiset(b);
      assert b[0] in multiset(a);
      SortedHeadIsLeast(b, x);
      SortedHeadIsLeast(a, b[0]);
      assert b[0] == x;
      var a', b' := a[1..], b[1..];
      assert a == [x] + a';
      assert b == [x] + b';
      assert multiset(a) == multiset{x} + multiset(a');
      assert multiset(b) == multiset{x} + multiset(b');
      assert multiset(a') == multiset(a) - multiset{x};
      assert multiset(b') == multiset(b) - multiset{x};
      assert SortedReals(a') && SortedReals(b');
      SortedPermutationUnique(a', b');
    }
  }

  /** The median depends only on the values, not on their order. */
  lemma MedianIgnoresOrder(a: seq<real>, b: seq<real>)
    requires |a| > 0 && multiset(a) == multiset(b)
    ensures |b| > 0 && Median(a) == Median(b)
  {
    assert |a| == |multiset(a)| == |multiset(b)| == |b|;
    SortedPermutationUnique(SortReals(a), SortReals(b));
  }
}
