/** Step 2 of the pipeline (`src/step02_badchannels.py`): automatic marking
    of bad channels by two z-score criteria over the scalp EEG channels. */
module BadChannels {
  import opened Wrappers
  import opened Text
  import opened Ordering
  import opened Stats
  import opened Signals

  const BadChannelZThresh: real := 3.0
  const ExgPrefix: string := "EXG"
  const StatusPrefix: string := "Status"

  /** A channel detection looks at: type "eeg", upper-cased name not starting
      with "EXG", name not starting with "Status" (case-sensitive). */
  predicate Pickable(name: string, chType: string) {
    !StartsWith(Upper(name), ExgPrefix) && !StartsWith(name, StatusPrefix) && chType == "eeg"
  }

  /** `eeg_picks`: the indices of the pickable channels, ascending. */
  function EegPicks(names: seq<string>, types: seq<string>): (picks: seq<nat>)
    requires |types| == |names|
    ensures forall k :: 0 <= k < |picks| ==> picks[k] < |names| && Pickable(names[picks[k]], types[picks[k]])
    ensures forall i :: 0 <= i < |names| && Pickable(names[i], types[i]) ==> i in picks
    ensures forall k, l :: 0 <= k < l < |picks| ==> picks[k] < picks[l]
  {
    if |names| == 0 then []
    else
      var n := |names| - 1;
      var init := EegPicks(names[..n], types[..n]);
      assert forall k :: 0 <= k < |init| ==> init[k] < n;
      init + (if Pickable(names[n], types[n]) then [n] else [])
  }

  /** |z| > t for z = d / σ, given d and the variance v = σ², without a
      square root. When σ = 0 NumPy's z is NaN and every comparison fails. */
  predicate AbsZAbove(d: real, v: real, t: real) {
    v > 0.0 && (t < 0.0 || Sq(d) > Sq(t) * v)
  }

  /** z < -t for z = d / σ, given d and v = σ²; false when σ = 0 (NaN). */
  predicate ZBelow(d: real, v: real, t: real) {
    v > 0.0 && if t >= 0.0 then d < 0.0 && Sq(d) > Sq(t) * v else d <= 0.0 || Sq(d) < Sq(t) * v
  }

  lemma ProductPositive(a: real, b: real)
    requires a > 0.0 && b > 0.0
    ensures a * b > 0.0
  {
  }

  lemma SqPositive(x: real)
    requires x > 0.0
    ensures Sq(x) > 0.0
  {
    calc {
      Sq(x);
      x * x;
    >
      0.0 * x;
    }
  }

  lemma SqMonotone(a: real, b: real)
    requires 0.0 <= a < b
    ensures Sq(a) < Sq(b)
  {
    ProductPositive(b - a, b + a);
    assert b * b - a * a == (b - a) * (b + a);
  }

  /** Multiplying by c > 0 keeps a strict order, both ways. */
  lemma ScaleBy(a: real, b: real, c: real)
    requires c > 0.0
    ensures a < b <==> a * c < b * c
  {
    if a < b {
      ProductPositive(b - a, c);
      assert b * c - a * c == (b - a) * c;
    } else if b < a {
      ProductPositive(a - b, c);
      assert a * c - b * c == (a - b) * c;
    }
  }

  /** For σ > 0 and d = zσ, comparing d² with t²σ² compares z² with t², and
      d has the sign of z. */
  lemma SquaresCompare(d: real, z: real, sigma: real, t: real)
    requires sigma > 0.0 && d == z * sigma
    ensures Sq(d) > Sq(t) * Sq(sigma) <==> Sq(z) > Sq(t)
    ensures Sq(d) < Sq(t) * Sq(sigma) <==> Sq(z) < Sq(t)
    ensures (d > 0.0 <==> z > 0.0) && (d < 0.0 <==> z < 0.0)
  {
    assert Sq(d) == Sq(z) * Sq(sigma);
    SqPositive(sigma);
    ScaleBy(Sq(t), Sq(z), Sq(sigma));
    ScaleBy(Sq(z), Sq(t), Sq(sigma));
    if z > 0.0 { ProductPositive(z, sigma); }
    if z < 0.0 { ProductPositive(-z, sigma); }
  }

  /** AbsZAbove is the test `np.abs(z) > t` on the z-score d / σ. */
  lemma AbsZAboveIsZScoreTest(d: real, sigma: real, t: real)
    requires sigma > 0.0
    ensures AbsZAbove(d, Sq(sigma), t) <==> Abs(d / sigma) > t
  {
    var z := d / sigma;
    SqPositive(sigma);
    SquaresCompare(d, z, sigma, t);
    if t >= 0.0 {
      var a := Abs(z);
      assert Sq(z) == Sq(a);
      if a > t {
        SqMonotone(t, a);
      } else if a < t {
        SqMonotone(a, t);
      }
    }
  }

  /** ZBelow is the test `z < -t` on the z-score d / σ. */
  lemma ZBelowIsZScoreTest(d: real, sigma: real, t: real)
    requires sigma > 0.0
    ensures ZBelow(d, Sq(sigma), t) <==> d / sigma < -t
  {
    var z := d / sigma;
    SqPositive(sigma);
    SquaresCompare(d, z, sigma, t);
    if t >= 0.0 && z < 0.0 {
      assert Sq(z) == Sq(-z);
      if -z > t {
        SqMonotone(t, -z);
      } else if -z < t {
        SqMonotone(-z, t);
      }
    } else if t < 0.0 && z > 0.0 {
      assert Sq(t) == Sq(-t);
      if z < -t {
        SqMonotone(z, -t);
      } else if -t < z {
        SqMonotone(-t, z);
      }
    }
  }

  /** The correlation test never flags an abnormally high median correlation. */
  lemma HighCorrelationNeverFlagged(d: real, v: real, t: real)
    requires d >= 0.0 && t >= 0.0
    ensures !ZBelow(d, v, t)
  {
  }

  /** The elements of `xs` whose flag is set, in order: the comprehension
      `[c for c, z in zip(names, zs) if test(z)]`. */
  function Select<T(!new)>(xs: seq<T>, keep: seq<bool>): (r: seq<T>)
    requires |keep| == |xs|
    ensures |r| <= |xs|
    ensures forall x :: x in r <==> exists i :: 0 <= i < |xs| && keep[i] && xs[i] == x
  {
    if |xs| == 0 then []
    else
      var n := |xs| - 1;
      var init := Select(xs[..n], keep[..n]);
      assert forall x :: x in init <==> exists i :: 0 <= i < n && keep[i] && xs[i] == x by {
        forall x ensures x in init <==> exists i :: 0 <= i < n && keep[i] && xs[i] == x {
          if x in init {
            var i :| 0 <= i < n && keep[..n][i] && xs[..n][i] == x;
          }
        }
      }
      init + (if keep[n] then [xs[n]] else [])
  }

  /** `np.var(data, axis=1)`: one variance per channel. */
  function Variances(data: seq<seq<real>>): (v: seq<real>)
    ensures |v| == |data|
  {
    seq(|data|, i requires 0 <= i < |data| => Variance(data[i]))
  }

  /** For each value, whether its z-score within `v` is above t in absolute
      value. */
  function AbsZFlags(v: seq<real>, t: real): (f: seq<bool>)
    ensures |f| == |v|
  {
    seq(|v|, i requires 0 <= i < |v| => AbsZAbove(v[i] - Mean(v), Variance(v), t))
  }

  /** For each value, whether its z-score within `v` is below -t. */
  function LowZFlags(v: seq<real>, t: real): (f: seq<bool>)
    ensures |f| == |v|
  {
    seq(|v|, i requires 0 <= i < |v| => ZBelow(v[i] - Mean(v), Variance(v), t))
  }

  /** A value is flagged by AbsZFlags exactly when its z-score, over the
      standard deviation σ of the values, is above t in absolute value. */
  lemma AbsZFlagIsOutlier(v: seq<real>, t: real, i: nat, sigma: real)
    requires i < |v| && sigma > 0.0 && Sq(sigma) == Variance(v)
    ensures AbsZFlags(v, t)[i] <==> Abs((v[i] - Mean(v)) / sigma) > t
  {
    AbsZAboveIsZScoreTest(v[i] - Mean(v), sigma, t);
  }

  /** A value is flagged by LowZFlags exactly when its z-score, over the
      standard deviation σ of the values, is below -t. */
  lemma LowZFlagIsOutlier(v: seq<real>, t: real, i: nat, sigma: real)
    requires i < |v| && sigma > 0.0 && Sq(sigma) == Variance(v)
    ensures LowZFlags(v, t)[i] <==> (v[i] - Mean(v)) / sigma < -t
  {
    ZBelowIsZScoreTest(v[i] - Mean(v), sigma, t);
  }

  /** Which channels the variance criterion flags: |z| > t for the z-score of
      each channel's variance across channels. */
  function VarianceFlags(data: seq<seq<real>>, t: real): (f: seq<bool>)
    ensures |f| == |data|
  {
    AbsZFlags(Variances(data), t)
  }

  /** `_zscore_bad_channel_detection`. */
  function ZScoreBadChannels(data: seq<seq<real>>, names: seq<string>, t: real): (r: seq<string>)
    requires |names| == |data|
    ensures forall x :: x in r <==> exists i :: 0 <= i < |names| && VarianceFlags(data, t)[i] && names[i] == x
  {
    Select(names, VarianceFlags(data, t))
  }

  ghost predicate IsSquare(m: seq<seq<real>>, n: nat) {
    |m| == n && forall i :: 0 <= i < |m| ==> |m[i]| == n
  }

  /** Column `j` of a square matrix, its diagonal entry included. */
  function Column(m: seq<seq<real>>, j: nat): (c: seq<real>)
    requires IsSquare(m, |m|) && j < |m|
    ensures |c| == |m|
  {
    seq(|m|, i requires 0 <= i < |m| => m[i][j])
  }

  /** `np.median(corr_matrix, axis=0)`: the median of every column. */
  function MedianCorrelations(corr: seq<seq<real>>): (mc: seq<real>)
    requires IsSquare(corr, |corr|)
    ensures |mc| == |corr|
  {
    seq(|corr|, j requires 0 <= j < |corr| => Median(Column(corr, j)))
  }

  /** Which channels the correlation criterion flags: z < -t for the z-score
      of each channel's median correlation across channels. */
  function CorrelationFlags(corr: seq<seq<real>>, t: real): (f: seq<bool>)
    requires IsSquare(corr, |corr|)
    ensures |f| == |corr|
  {
    LowZFlags(MedianCorrelations(corr), t)
  }

  /** `_correlation_bad_channel_detection`, given `np.corrcoef(data)`. */
  function CorrelationBadChannels(corr: seq<seq<real>>, names: seq<string>, t: real): (r: seq<string>)
    requires IsSquare(corr, |corr|) && |names| == |corr|
    ensures forall x :: x in r <==> exists i :: 0 <= i < |names| && CorrelationFlags(corr, t)[i] && names[i] == x
  {
    Select(names, CorrelationFlags(corr, t))
  }

  /** The correlation matrix of the picked channels: the picked rows and
      columns of the matrix over all channels (correlation is pairwise). */
  function PickedCorrelations(corrAll: seq<seq<real>>, picks: seq<nat>): (c: seq<seq<real>>)
    requires IsSquare(corrAll, |corrAll|) && forall k :: 0 <= k < |picks| ==> picks[k] < |corrAll|
    ensures IsSquare(c, |picks|)
  {
    seq(|picks|, i requires 0 <= i < |picks| =>
      seq(|picks|, j requires 0 <= j < |picks| => corrAll[picks[i]][picks[j]]))
  }

  /** The entries of the picked channels, in pick order: their names or
      their sample rows. */
  function Picked<T>(xs: seq<T>, picks: seq<nat>): (r: seq<T>)
    requires forall k :: 0 <= k < |picks| ==> picks[k] < |xs|
    ensures |r| == |picks|
  {
    seq(|picks|, k requires 0 <= k < |picks| => xs[picks[k]])
  }

  /** `sorted(set(a + b))` on channel names. */
  function SortedUnion(a: seq<string>, b: seq<string>): (r: seq<string>)
    ensures StrictlySorted(StrLess, r)
    ensures forall x :: x in r <==> x in a || x in b
  {
    StrLessIsStrictTotalOrder();
    SortedSet(StrLess, a + b)
  }

  /** Whether no channel is flat. `np.corrcoef` divides by each row's
      standard deviation, so a flat row (variance 0) turns its whole row and
      column into NaN; then every column median and every z-score is NaN,
      and `z < -t` holds for none: the correlation criterion flags nothing. */
  predicate NoFlatChannel(data: seq<seq<real>>) {
    forall k :: 0 <= k < |data| ==> Variance(data[k]) > 0.0
  }

  /** The sorted union of what both criteria flag among the picked channels;
      the correlation criterion counts only when no picked channel is flat. */
  function Detected(names: seq<string>, data: seq<seq<real>>, corrAll: seq<seq<real>>, picks: seq<nat>)
    : (r: seq<string>)
    requires |data| == |names| && IsSquare(corrAll, |names|)
    requires forall k :: 0 <= k < |picks| ==> picks[k] < |names|
    ensures StrictlySorted(StrLess, r)
    ensures forall x :: x in r ==> x in Picked(names, picks)
  {
    var pickedNames := Picked(names, picks);
    var pickedData := Picked(data, picks);
    SortedUnion(ZScoreBadChannels(pickedData, pickedNames, BadChannelZThresh),
                if NoFlatChannel(pickedData)
                then CorrelationBadChannels(PickedCorrelations(corrAll, picks), pickedNames, BadChannelZThresh)
                else [])
  }

  /** What detection appends to the bad list of a recording with these
      channels, samples and channel-by-channel correlation matrix: nothing
      when no channel is picked. */
  function NewBads(names: seq<string>, types: seq<string>, data: seq<seq<real>>, corrAll: seq<seq<real>>)
    : seq<string>
    requires |types| == |names| && |data| == |names| && IsSquare(corrAll, |names|)
  {
    var picks := EegPicks(names, types);
    if |picks| == 0 then [] else Detected(names, data, corrAll, picks)
  }

  /** What NumPy raises when exactly one channel is picked: `np.corrcoef`
      of a single row is a 0-d array, which `np.median(..., axis=0)`
      rejects. */
  const SinglePickError: string := "AxisError: axis 0 is out of bounds for array of dimension 0"

  /** `detect_bad_channels`: extends the recording's bad list, in place, with
      the sorted union of both criteria over the picked channels (NewBads,
      empty when no channel is picked). With exactly one picked channel the
      correlation criterion raises before anything is marked. */
  method DetectBadChannels(raw: Recording, corrAll: seq<seq<real>>) returns (r: Result<Recording>)
    requires raw.Valid() && IsSquare(corrAll, |raw.chNames|)
    modifies raw
    ensures raw.Valid()
    ensures r.Err? <==> |EegPicks(old(raw.chNames), old(raw.chTypes))| == 1
    ensures r.Err? ==> r.error == SinglePickError && raw.bads == old(raw.bads)
    ensures r.Ok? ==> (r.value == raw
      && raw.bads == old(raw.bads) + NewBads(old(raw.chNames), old(raw.chTypes), old(raw.data), corrAll))
    ensures raw.chNames == old(raw.chNames) && raw.chTypes == old(raw.chTypes) && raw.data == old(raw.data)
    ensures raw.nTimes == old(raw.nTimes) && raw.annotations == old(raw.annotations)
    ensures raw.hasMontage == old(raw.hasMontage) && raw.transforms == old(raw.transforms)
  {
    var names, types, samples := raw.chNames, raw.chTypes, raw.data;
    var picks := EegPicks(names, types);
    if |picks| == 1 {
      return Err(SinglePickError);
    }
    raw.bads := raw.bads + NewBads(names, types, samples, corrAll);
    r := Ok(raw);
  }

  /** A channel is appended to the bad list exactly when it is a picked
      channel that the variance criterion flags among the picked channels,
      or that the correlation criterion flags while no picked channel is
      flat. */
  lemma NewBadsAreFlaggedChannels(names: seq<string>, types: seq<string>, data: seq<seq<real>>,
                                  corrAll: seq<seq<real>>, x: string)
    requires |types| == |names| && |data| == |names| && IsSquare(corrAll, |names|)
    ensures var picks := EegPicks(names, types);
      x in NewBads(names, types, data, corrAll) <==>
        exists k :: 0 <= k < |picks| && names[picks[k]] == x
          && (VarianceFlags(Picked(data, picks), BadChannelZThresh)[k]
              || (NoFlatChannel(Picked(data, picks))
                  && CorrelationFlags(PickedCorrelations(corrAll, picks), BadChannelZThresh)[k]))
  {
    var picks := EegPicks(names, types);
    DetectedIsFlagged(names, data, corrAll, picks, x);
  }

  /** Detected, over any choice of picks: a name is detected exactly when
      one of the picked channels bears it and either criterion flags it, the
      correlation criterion only while no picked channel is flat. */
  lemma DetectedIsFlagged(names: seq<string>, data: seq<seq<real>>, corrAll: seq<seq<real>>,
                          picks: seq<nat>, x: string)
    requires |data| == |names| && IsSquare(corrAll, |names|)
    requires forall k :: 0 <= k < |picks| ==> picks[k] < |names|
    ensures x in Detected(names, data, corrAll, picks) <==>
      exists k :: 0 <= k < |picks| && names[picks[k]] == x
        && (VarianceFlags(Picked(data, picks), BadChannelZThresh)[k]
            || (NoFlatChannel(Picked(data, picks))
                && CorrelationFlags(PickedCorrelations(corrAll, picks), BadChannelZThresh)[k]))
  {
    var pickedNames := Picked(names, picks);
    var pickedData := Picked(data, picks);
    var live := NoFlatChannel(pickedData);
    var vf := VarianceFlags(pickedData, BadChannelZThresh);
    var cf := seq(|picks|, k requires 0 <= k < |picks| =>
      live && CorrelationFlags(PickedCorrelations(corrAll, picks), BadChannelZThresh)[k]);
    var zs := ZScoreBadChannels(pickedData, pickedNames, BadChannelZThresh);
    var cs := if live
      then CorrelationBadChannels(PickedCorrelations(corrAll, picks), pickedNames, BadChannelZThresh)
      else [];
    assert Detected(names, data, corrAll, picks) == SortedUnion(zs, cs);
    assert forall y :: y in cs <==> exists i :: 0 <= i < |picks| && cf[i] && pickedNames[i] == y;
    FlaggedPickedName(names, picks, vf, x);
    FlaggedPickedName(names, picks, cf, x);
    if x in zs || x in cs {
      var k :| 0 <= k < |picks| && names[picks[k]] == x && (if x in zs then vf[k] else cf[k]);
      assert vf[k] || cf[k];
    } else {
      assert forall k :: 0 <= k < |picks| && names[picks[k]] == x ==> !vf[k] && !cf[k];
    }
  }

  /** A picked name carries a flag exactly when its channel does. */
  lemma FlaggedPickedName(names: seq<string>, picks: seq<nat>, flags: seq<bool>, x: string)
    requires forall k :: 0 <= k < |picks| ==> picks[k] < |names|
    requires |flags| == |picks|
    ensures (exists i :: 0 <= i < |picks| && flags[i] && Picked(names, picks)[i] == x)
        <==> (exists k :: 0 <= k < |picks| && names[picks[k]] == x && flags[k])
  {
    var pickedNames := Picked(names, picks);
    assert forall k :: 0 <= k < |picks| ==> pickedNames[k] == names[picks[k]];
  }

  /** One flat picked channel switches the correlation criterion off: a
      channel is then appended exactly when the variance criterion flags it. */
  lemma FlatChannelSilencesCorrelation(names: seq<string>, types: seq<string>, data: seq<seq<real>>,
                                       corrAll: seq<seq<real>>, x: string)
    requires |types| == |names| && |data| == |names| && IsSquare(corrAll, |names|)
    requires exists i :: 0 <= i < |names| && Pickable(names[i], types[i]) && Variance(data[i]) == 0.0
    ensures var picks := EegPicks(names, types);
      x in NewBads(names, types, data, corrAll) <==>
        exists k :: 0 <= k < |picks| && names[picks[k]] == x
          && VarianceFlags(Picked(data, picks), BadChannelZThresh)[k]
  {
    var picks := EegPicks(names, types);
    var i :| 0 <= i < |names| && Pickable(names[i], types[i]) && Variance(data[i]) == 0.0;
    assert i in picks;
    var k :| 0 <= k < |picks| && picks[k] == i;
    assert Picked(data, picks)[k] == data[i];
    assert !NoFlatChannel(Picked(data, picks));
    NewBadsAreFlaggedChannels(names, types, data, corrAll, x);
  }

  /** Every channel detection appends is a picked channel. */
  lemma NewBadIsPicked(names: seq<string>, types: seq<string>, data: seq<seq<real>>,
                       corrAll: seq<seq<real>>, x: string)
    requires |types| == |names| && |data| == |names| && IsSquare(corrAll, |names|)
    requires x in NewBads(names, types, data, corrAll)
    ensures exists i :: 0 <= i < |names| && names[i] == x && Pickable(names[i], types[i])
  {
    var picks := EegPicks(names, types);
    assert |picks| > 0;
    assert x in Picked(names, picks) by {
      assert NewBads(names, types, data, corrAll) == Detected(names, data, corrAll, picks);
    }
    PickedNameIsPicked(names, picks, x);
  }

  lemma PickedNameIsPicked(names: seq<string>, picks: seq<nat>, x: string)
    requires forall k :: 0 <= k < |picks| ==> picks[k] < |names|
    requires x in Picked(names, picks)
    ensures exists k :: 0 <= k < |picks| && names[picks[k]] == x
  {
    var k :| 0 <= k < |picks| && Picked(names, picks)[k] == x;
  }

  /** Everything detection appends is a picked channel flagged by at least
      one criterion, listed once, in ascending order. */
  lemma NewBadsArePickedChannels(names: seq<string>, types: seq<string>, data: seq<seq<real>>,
                                 corrAll: seq<seq<real>>)
    requires |types| == |names| && |data| == |names| && IsSquare(corrAll, |names|)
    ensures var nb := NewBads(names, types, data, corrAll);
      && StrictlySorted(StrLess, nb)
      && forall x :: x in nb ==> exists i :: 0 <= i < |names| && names[i] == x && Pickable(names[i], types[i])
  {
    var nb := NewBads(names, types, data, corrAll);
    forall x | x in nb
      ensures exists i :: 0 <= i < |names| && names[i] == x && Pickable(names[i], types[i])
    {
      NewBadIsPicked(names, types, data, corrAll, x);
    }
  }

  /** Existing entries are kept and nothing is removed; a channel already in
      the bad list that is flagged again is listed one more time. */
  lemma ExtendKeepsEveryEntry(old_bads: seq<string>, nb: seq<string>, x: string)
    requires StrictlySorted(StrLess, nb) && x in nb
    ensures multiset(old_bads + nb)[x] == multiset(old_bads)[x] + 1
  {
    var k :| 0 <= k < |nb| && nb[k] == x;
    StrLessIrreflexive(x);
    assert nb == nb[..k] + [x] + nb[k + 1..];
    assert x !in nb[..k] by {
      forall i | 0 <= i < k ensures nb[i] != x { assert StrLess(nb[i], nb[k]); }
    }
    assert x !in nb[k + 1..] by {
      forall i | k < i < |nb| ensures nb[i] != x { assert StrLess(nb[k], nb[i]); }
    }
    assert multiset(nb) == multiset(nb[..k]) + multiset{x} + multiset(nb[k + 1..]);
  }
}
