/** Python's `sorted(set(xs))`: the elements of `xs` without repetition, in
    ascending order, for any strict total order. */
module Ordering {
  import opened Text

  ghost predicate IsStrictTotalOrder<T(!new)>(lt: (T, T) -> bool) {
    && (forall x :: !lt(x, x))
    && (forall x, y, z :: lt(x, y) && lt(y, z) ==> lt(x, z))
    && (forall x, y :: x != y ==> lt(x, y) || lt(y, x))
  }

  /** Ascending without repetition. */
  ghost predicate StrictlySorted<T>(lt: (T, T) -> bool, s: seq<T>) {
    forall i, j :: 0 <= i < j < |s| ==> lt(s[i], s[j])
  }

  /** Adds `x` to a strictly sorted sequence, keeping it strictly sorted. */
  function Insert<T(!new)>(lt: (T, T) -> bool, x: T, s: seq<T>): (r: seq<T>)
    requires IsStrictTotalOrder(lt) && StrictlySorted(lt, s)
    ensures StrictlySorted(lt, r)
    ensures forall y :: y in r <==> y == x || y in s
  {
    if |s| == 0 then [x]
    else if lt(x, s[0]) then [x] + s
    else if lt(s[0], x) then
      var t := Insert(lt, x, s[1..]);
      assert forall k :: 0 <= k < |t| ==> lt(s[0], t[k]) by {
        forall k | 0 <= k < |t| ensures lt(s[0], t[k]) {
          assert t[k] == x || t[k] in s[1..];
        }
      }
      [s[0]] + t
    else
      s
  }

  /** `sorted(set(xs))` for the order `lt`. */
  function SortedSet<T(!new)>(lt: (T, T) -> bool, xs: seq<T>): (r: seq<T>)
    requires IsStrictTotalOrder(lt)
    ensures StrictlySorted(lt, r)
    ensures forall y :: y in r <==> y in xs
  {
    if |xs| == 0 then []
    else
      var init := xs[..|xs| - 1];
      assert xs == init + [xs[|xs| - 1]];
      Insert(lt, xs[|xs| - 1], SortedSet(lt, init))
  }

  lemma TailMembers<T(!new)>(lt: (T, T) -> bool, s: seq<T>, y: T)
    requires IsStrictTotalOrder(lt) && StrictlySorted(lt, s) && |s| > 0
    ensures y in s[1..] <==> y in s && y != s[0]
  {
    assert s == [s[0]] + s[1..];
    if y in s[1..] {
      var k :| 0 <= k < |s[1..]| && s[1..][k] == y;
      assert lt(s[0], s[k + 1]);
    }
  }

  lemma HeadIsLeast<T(!new)>(lt: (T, T) -> bool, s: seq<T>, y: T)
    requires StrictlySorted(lt, s) && y in s
    ensures y == s[0] || lt(s[0], y)
  {
    var k :| 0 <= k < |s| && s[k] == y;
    assert k == 0 || lt(s[0], s[k]);
  }

  /** The sorted set is determined by its elements: two strictly sorted
      sequences with the same members are equal. */
  lemma {:induction false} StrictlySortedUnique<T(!new)>(lt: (T, T) -> bool, a: seq<T>, b: seq<T>)
    requires IsStrictTotalOrder(lt) && StrictlySorted(lt, a) && StrictlySorted(lt, b)
    requires forall y :: y in a <==> y in b
    ensures a == b
  {
    assert |a| > 0 ==> a[0] in a;
    assert |b| > 0 ==> b[0] in b;
    if |a| > 0 && |b| > 0 {
      HeadIsLeast(lt, b, a[0]);
      HeadIsLeast(lt, a, b[0]);
      assert a[0] == b[0];
      forall y ensures y in a[1..] <==> y in b[1..] {
        TailMembers(lt, a, y);
        TailMembers(lt, b, y);
      }
      StrictlySortedUnique(lt, a[1..], b[1..]);
      assert a == [a[0]] + a[1..] && b == [b[0]] + b[1..];
    }
  }

  /** The order `sorted` uses on indices. */
  predicate NatLess(a: nat, b: nat) {
    a < b
  }

  /** A strictly sorted sequence lists each element once: it has as many
      entries as members. */
  lemma {:induction false} StrictlySortedCardinality<T(!new)>(lt: (T, T) -> bool, s: seq<T>)
    requires IsStrictTotalOrder(lt) && StrictlySorted(lt, s)
    ensures |set x | x in s| == |s|
  {
    if |s| > 0 {
      var n := |s| - 1;
      StrictlySortedCardinality(lt, s[..n]);
      assert s[n] !in s[..n] by {
        forall i | 0 <= i < n ensures s[..n][i] != s[n] {
          assert lt(s[i], s[n]);
        }
      }
      assert (set x | x in s) == (set x | x in s[..n]) + {s[n]} by {
        assert s == s[..n] + [s[n]];
      }
    }
  }

  /** In a strictly sorted sequence, the smaller of two entries comes first. */
  lemma StrictlySortedPositions<T(!new)>(lt: (T, T) -> bool, s: seq<T>, i: nat, j: nat)
    requires IsStrictTotalOrder(lt) && StrictlySorted(lt, s)
    requires i < |s| && j < |s| && lt(s[i], s[j])
    ensures i < j
  {
  }

  lemma NatLessIsStrictTotalOrder()
    ensures IsStrictTotalOrder(NatLess)
  {
  }

  lemma StrLessIsStrictTotalOrder()
    ensures IsStrictTotalOrder(StrLess)
  {
    forall x ensures !StrLess(x, x) {
      StrLessIrreflexive(x);
    }
    forall x, y, z | StrLess(x, y) && StrLess(y, z) ensures StrLess(x, z) {
      StrLessTransitive(x, y, z);
    }
    forall x, y | x != y ensures StrLess(x, y) || StrLess(y, x) {
      StrLessTotal(x, y);
    }
  }
}
