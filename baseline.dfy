/** Baseline correction as MNE performs it for `baseline=(bmin, bmax)`: the
    mean of the samples whose time lies in the closed window [bmin, bmax] is
    subtracted from every sample of the channel. */
module Baseline {
  import opened Stats

  /** The samples of `x` whose time stamp lies in [bmin, bmax], in order. */
  function WindowValues(x: seq<real>, times: seq<real>, bmin: real, bmax: real): (w: seq<real>)
    requires |x| == |times|
    ensures |w| <= |x|
  {
    if |x| == 0 then []
    else
      var n := |x| - 1;
      WindowValues(x[..n], times[..n], bmin, bmax)
        + (if bmin <= times[n] <= bmax then [x[n]] else [])
  }

  /** MNE's check on a baseline window: it starts no later than it ends and
      lies within the epoch's time axis; otherwise MNE raises `ValueError`. */
  predicate WindowWithin(times: seq<real>, bmin: real, bmax: real) {
    |times| > 0 && times[0] <= bmin <= bmax <= times[|times| - 1]
  }

  /** The window holds samples exactly when some time stamp falls in it; only
      then does a zero window mean speak about actual samples. */
  lemma {:induction false} WindowValuesNonEmpty(x: seq<real>, times: seq<real>, bmin: real, bmax: real)
    requires |x| == |times|
    ensures |WindowValues(x, times, bmin, bmax)| > 0
        <==> exists n :: 0 <= n < |times| && bmin <= times[n] <= bmax
  {
    if |x| > 0 {
      var n := |x| - 1;
      WindowValuesNonEmpty(x[..n], times[..n], bmin, bmax);
      if exists k :: 0 <= k < n && bmin <= times[..n][k] <= bmax {
        var k :| 0 <= k < n && bmin <= times[..n][k] <= bmax;
        assert bmin <= times[k] <= bmax;
      }
      if exists k :: 0 <= k < |times| && bmin <= times[k] <= bmax {
        var k :| 0 <= k < |times| && bmin <= times[k] <= bmax;
        if k < n {
          assert bmin <= times[..n][k] <= bmax;
        }
      }
    }
  }

  /** The window mean subtracted from every sample. */
  function BaselineCorrect(x: seq<real>, times: seq<real>, bmin: real, bmax: real): (r: seq<real>)
    requires |x| == |times|
    ensures |r| == |x|
  {
    Shift(x, Mean(WindowValues(x, times, bmin, bmax)))
  }

  /** Shifting the samples shifts the samples in the window alike. */
  lemma {:induction false} WindowOfShift(x: seq<real>, times: seq<real>, bmin: real, bmax: real, c: real)
    requires |x| == |times|
    ensures WindowValues(Shift(x, c), times, bmin, bmax) == Shift(WindowValues(x, times, bmin, bmax), c)
  {
    if |x| > 0 {
      var n := |x| - 1;
      assert Shift(x, c)[..n] == Shift(x[..n], c);
      WindowOfShift(x[..n], times[..n], bmin, bmax, c);
    }
  }

  /** After correction the mean over the baseline window is zero. */
  lemma BaselineWindowMeanIsZero(x: seq<real>, times: seq<real>, bmin: real, bmax: real)
    requires |x| == |times|
    ensures Mean(WindowValues(BaselineCorrect(x, times, bmin, bmax), times, bmin, bmax)) == 0.0
  {
    var w := WindowValues(x, times, bmin, bmax);
    var m := Mean(w);
    WindowOfShift(x, times, bmin, bmax, m);
    if |w| > 0 {
      MeanShift(w, m);
    }
  }

  /** Correcting an already corrected channel changes nothing. */
  lemma BaselineIdempotent(x: seq<real>, times: seq<real>, bmin: real, bmax: real)
    requires |x| == |times|
    ensures BaselineCorrect(BaselineCorrect(x, times, bmin, bmax), times, bmin, bmax)
         == BaselineCorrect(x, times, bmin, bmax)
  {
    var y := BaselineCorrect(x, times, bmin, bmax);
    BaselineWindowMeanIsZero(x, times, bmin, bmax);
    assert Shift(y, 0.0) == y;
  }

  /** Every epoch's data is channels by samples, on the shared time axis. */
  ghost predicate EpochShape(data: seq<seq<seq<real>>>, nChannels: nat, times: seq<real>) {
    forall e :: 0 <= e < |data| ==>
      |data[e]| == nChannels && forall c :: 0 <= c < |data[e]| ==> |data[e][c]| == |times|
  }

  /** The channel types that are neither data nor auxiliary channels in
      MNE. Baseline correction, in the `Epochs` constructor and in
      `apply_baseline`, rescales only data and auxiliary channels, so
      channels of these types (the BioSemi `Status` channel is "stim") keep
      their samples. */
  const UncorrectedTypes: set<string> :=
    {"stim", "misc", "resp", "syst", "chpi", "exci", "ias", "dipole", "gof"}

  predicate Corrected(chType: string) {
    chType !in UncorrectedTypes
  }

  /** Baseline correction per epoch and per channel, of the channels whose
      type MNE corrects; `types` holds the channel types in channel order. */
  function BaselineAll(data: seq<seq<seq<real>>>, types: seq<string>, times: seq<real>, bmin: real, bmax: real)
    : (r: seq<seq<seq<real>>>)
    requires EpochShape(data, |types|, times)
    ensures EpochShape(r, |types|, times) && |r| == |data|
  {
    seq(|data|, e requires 0 <= e < |data| =>
      seq(|data[e]|, c requires 0 <= c < |data[e]| =>
        if Corrected(types[c]) then BaselineCorrect(data[e][c], times, bmin, bmax) else data[e][c]))
  }

  /** Correction leaves the channels of uncorrected types exactly as they
      were, and corrects every other channel on its own. */
  lemma BaselineAllPerChannel(data: seq<seq<seq<real>>>, types: seq<string>, times: seq<real>,
                              bmin: real, bmax: real)
    requires EpochShape(data, |types|, times)
    ensures var r := BaselineAll(data, types, times, bmin, bmax);
      forall e, c :: 0 <= e < |r| && 0 <= c < |types| ==>
        r[e][c] == (if Corrected(types[c]) then BaselineCorrect(data[e][c], times, bmin, bmax) else data[e][c])
  {
    var r := BaselineAll(data, types, times, bmin, bmax);
    forall e, c | 0 <= e < |r| && 0 <= c < |types|
      ensures r[e][c] == (if Corrected(types[c]) then BaselineCorrect(data[e][c], times, bmin, bmax) else data[e][c])
    {
      assert |data[e]| == |types|;
    }
  }

  lemma BaselineAllIdempotent(data: seq<seq<seq<real>>>, types: seq<string>, times: seq<real>, bmin: real, bmax: real)
    requires EpochShape(data, |types|, times)
    ensures BaselineAll(BaselineAll(data, types, times, bmin, bmax), types, times, bmin, bmax)
         == BaselineAll(data, types, times, bmin, bmax)
  {
    var once := BaselineAll(data, types, times, bmin, bmax);
    var twice := BaselineAll(once, types, times, bmin, bmax);
    forall e | 0 <= e < |data| ensures twice[e] == once[e] {
      forall c | 0 <= c < |data[e]| ensures twice[e][c] == once[e][c] {
        if Corrected(types[c]) {
          BaselineIdempotent(data[e][c], times, bmin, bmax);
        }
      }
    }
  }

  /** After correcting every epoch, every corrected channel of every epoch
      has mean zero over the baseline window. */
  lemma BaselineAllWindowMeanIsZero(data: seq<seq<seq<real>>>, types: seq<string>, times: seq<real>,
                                    bmin: real, bmax: real)
    requires EpochShape(data, |types|, times)
    ensures var r := BaselineAll(data, types, times, bmin, bmax);
      forall e, c :: 0 <= e < |r| && 0 <= c < |types| && Corrected(types[c]) ==>
        Mean(WindowValues(r[e][c], times, bmin, bmax)) == 0.0
  {
    var r := BaselineAll(data, types, times, bmin, bmax);
    forall e, c | 0 <= e < |r| && 0 <= c < |types| && Corrected(types[c])
      ensures Mean(WindowValues(r[e][c], times, bmin, bmax)) == 0.0
    {
      assert |data[e]| == |types|;
      BaselineWindowMeanIsZero(data[e][c], times, bmin, bmax);
    }
  }
}
