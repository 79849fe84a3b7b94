/** The ICA stage of `src/step07_ica.py`: the guard on the number of good
    EEG channels, the choice of the eye channel, the correlation fallback,
    and the components excluded from the recording. */
module IcaStep {
  import opened Wrappers
  import opened Text
  import opened Ordering
  import opened Stats
  import opened Signals

  /** `ICA_N_COMPONENTS`: the share of variance the components must explain. */
  const IcaNComponents: real := 0.99

  /** The unmixing algorithm and random seed `run_ica` always uses. */
  const IcaMethod: string := "infomax"
  const IcaRandomState: int := 42

  /** A component is an eye component when its correlation with the eye
      channel exceeds this in absolute value. */
  const EogCorrelationThreshold: real := 0.3

  /** Names starting with this (upper-cased) are eye electrodes on BioSemi caps. */
  const ExgPrefix: string := "EXG"

  /** A fitted ICA decomposition: the channels it was fitted on, the
      settings it was made with (`n_components`, `method`, `random_state`),
      and the components marked for exclusion (`ica.exclude`, empty when the
      decomposition is made). */
  class Ica {
    var picks: seq<string>
    var nComponents: real
    var algorithm: string
    var randomState: int
    var exclude: seq<nat>

    constructor (fitted: seq<string>, n: real, algo: string, seed: int)
      ensures picks == fitted && nComponents == n && algorithm == algo && randomState == seed
      ensures exclude == []
    {
      picks, nComponents, algorithm, randomState, exclude := fitted, n, algo, seed, [];
    }

    /** `ica.exclude = components`. */
    method SetExclude(components: seq<nat>)
      modifies this
      ensures exclude == components && picks == old(picks) && nComponents == old(nComponents)
      ensures algorithm == old(algorithm) && randomState == old(randomState)
    {
      exclude := components;
    }
  }

  /** The names whose entry in `keep` is set, in channel order. */
  function Kept(names: seq<string>, keep: seq<bool>): (r: seq<string>)
    requires |keep| == |names|
    ensures forall i :: 0 <= i < |names| && keep[i] ==> names[i] in r
    ensures forall x :: x in r ==> exists i :: 0 <= i < |names| && keep[i] && names[i] == x
    ensures |r| > 0 ==> FirstKept(names, keep, r[0])
  {
    if |names| == 0 then []
    else
      var tail := Kept(names[1..], keep[1..]);
      forall i | 1 <= i < |names| && keep[i] ensures names[i] in tail {
        assert keep[1..][i - 1] && names[1..][i - 1] == names[i];
      }
      forall x | x in tail ensures exists i :: 0 <= i < |names| && keep[i] && names[i] == x {
        var i :| 0 <= i < |names| - 1 && keep[1..][i] && names[1..][i] == x;
        assert keep[i + 1] && names[i + 1] == x;
      }
      if keep[0] then
        assert FirstKept(names, keep, names[0]) by {
          assert keep[0] && names[0] == names[0];
        }
        [names[0]] + tail
      else
        if |tail| > 0 then
          var i :| 0 <= i < |names| - 1 && keep[1..][i] && names[1..][i] == tail[0]
            && forall j :: 0 <= j < i ==> !keep[1..][j];
          forall j | 0 <= j < i + 1 ensures !keep[j] {
            if j > 0 {
              assert keep[j] == keep[1..][j - 1];
            }
          }
          assert keep[i + 1] && names[i + 1] == tail[0];
          tail
        else tail
  }

  /** `x` is the name of the first channel whose entry in `keep` is set. */
  ghost predicate FirstKept(names: seq<string>, keep: seq<bool>, x: string)
    requires |keep| == |names|
  {
    exists i :: 0 <= i < |names| && keep[i] && names[i] == x && forall j :: 0 <= j < i ==> !keep[j]
  }

  /** Per channel: its type is "eog". */
  function TypedEog(types: seq<string>): (keep: seq<bool>)
    ensures |keep| == |types|
  {
    seq(|types|, i requires 0 <= i < |types| => types[i] == "eog")
  }

  /** Per channel: its upper-cased name starts with "EXG". */
  function NamedExg(names: seq<string>): (keep: seq<bool>)
    ensures |keep| == |names|
  {
    seq(|names|, i requires 0 <= i < |names| => StartsWith(Upper(names[i]), ExgPrefix))
  }

  /** The eye channels: those declared of type "eog", in channel order; only
      when there is none, those whose upper-cased name starts with "EXG". */
  function EogChannels(names: seq<string>, types: seq<string>): (r: seq<string>)
    requires |types| == |names|
    ensures (exists i :: 0 <= i < |names| && types[i] == "eog") ==>
      forall x :: x in r <==> exists i :: 0 <= i < |names| && types[i] == "eog" && names[i] == x
    ensures (forall i :: 0 <= i < |names| ==> types[i] != "eog") ==>
      forall x :: x in r <==> exists i :: 0 <= i < |names| && StartsWith(Upper(names[i]), ExgPrefix) && names[i] == x
    ensures (exists i :: 0 <= i < |names| && types[i] == "eog") ==> |r| > 0 && FirstKept(names, TypedEog(types), r[0])
    ensures (forall i :: 0 <= i < |names| ==> types[i] != "eog") && |r| > 0 ==> FirstKept(names, NamedExg(names), r[0])
  {
    var typed := Kept(names, TypedEog(types));
    if |typed| > 0 then
      assert forall x :: x in typed <==> exists i :: 0 <= i < |names| && types[i] == "eog" && names[i] == x by {
        forall x | x in typed ensures exists i :: 0 <= i < |names| && types[i] == "eog" && names[i] == x {
          var i :| 0 <= i < |names| && TypedEog(types)[i] && names[i] == x;
        }
      }
      typed
    else
      assert forall i :: 0 <= i < |names| ==> types[i] != "eog" by {
        forall i | 0 <= i < |names| ensures types[i] != "eog" {
          assert TypedEog(types)[i] == (types[i] == "eog");
        }
      }
      var named := Kept(names, NamedExg(names));
      assert forall x :: x in named <==> exists i :: (0 <= i < |names| && StartsWith(Upper(names[i]), ExgPrefix)
        && names[i] == x) by {
        forall x | x in named
          ensures exists i :: 0 <= i < |names| && StartsWith(Upper(names[i]), ExgPrefix) && names[i] == x
        {
          var i :| 0 <= i < |names| && NamedExg(names)[i] && names[i] == x;
        }
      }
      named
  }

  /** `list(np.where(np.abs(scores) > 0.3)[0])`: the components whose
      correlation with the eye channel exceeds 0.3 in absolute value,
      in increasing order. */
  function CorrelatedComponents(scores: seq<real>): (r: seq<nat>)
    ensures forall c: nat :: c in r <==> c < |scores| && Abs(scores[c]) > EogCorrelationThreshold
    ensures StrictlySorted(NatLess, r)
  {
    if |scores| == 0 then []
    else
      var n := |scores| - 1;
      var init := CorrelatedComponents(scores[..n]);
      assert forall k :: 0 <= k < |init| ==> init[k] < n by {
        forall k | 0 <= k < |init| ensures init[k] < n {
          assert init[k] in init;
        }
      }
      forall c: nat | c < n ensures scores[..n][c] == scores[c] {
      }
      init + (if Abs(scores[n]) > EogCorrelationThreshold then [n] else [])
  }

  /** The eye components: nothing without an eye channel; otherwise what the
      library's detector reports for the first eye channel, or, when the
      detector raises, the components correlated with that channel, or,
      when that raises as well, nothing. */
  function EogIndices(eyeChannels: seq<string>, detect: string -> Option<seq<nat>>,
                      scores: string -> Option<seq<real>>): (r: seq<nat>)
    ensures |eyeChannels| == 0 ==> r == []
    ensures |eyeChannels| > 0 && detect(eyeChannels[0]).Some? ==> r == detect(eyeChannels[0]).value
    ensures |eyeChannels| > 0 && detect(eyeChannels[0]).None? && scores(eyeChannels[0]).Some? ==>
      forall c: nat :: c in r <==>
        (c < |scores(eyeChannels[0]).value| && Abs(scores(eyeChannels[0]).value[c]) > EogCorrelationThreshold)
    ensures |eyeChannels| > 0 && detect(eyeChannels[0]).None? && scores(eyeChannels[0]).None? ==> r == []
  {
    if |eyeChannels| == 0 then []
    else
      match detect(eyeChannels[0])
      case Some(inds) => inds
      case None =>
        match scores(eyeChannels[0])
        case Some(s) => CorrelatedComponents(s)
        case None => []
  }

  /** `sorted(set(eog_inds + ecg_inds))`. */
  function ToRemove(eog: seq<nat>, ecg: seq<nat>): (r: seq<nat>)
    ensures StrictlySorted(NatLess, r)
    ensures forall c :: c in r <==> c in eog || c in ecg
  {
    NatLessIsStrictTotalOrder();
    SortedSet(NatLess, eog + ecg)
  }

  predicate Increasing(s: seq<nat>) {
    forall i, j :: 0 <= i < j < |s| ==> s[i] < s[j]
  }

  /** The distinct values of a sequence: Python's `set(s)`. */
  function Elements(s: seq<nat>): (e: set<nat>)
    ensures forall c :: c in e <==> c in s
  {
    set c | c in s
  }

  lemma {:induction false} DistinctCount(s: seq<nat>)
    requires Increasing(s)
    ensures |Elements(s)| == |s|
  {
    if |s| > 0 {
      var n := |s| - 1;
      var init := s[..n];
      assert Increasing(init) by {
        forall i, j | 0 <= i < j < |init| ensures init[i] < init[j] {
          assert init[i] == s[i] && init[j] == s[j];
        }
      }
      DistinctCount(init);
      assert s[n] !in Elements(init) by {
        forall i | 0 <= i < n ensures init[i] != s[n] {
          assert init[i] == s[i];
        }
      }
      assert s == init + [s[n]];
      assert Elements(s) == Elements(init) + {s[n]};
    }
  }

  /** The number of excluded components is the number of distinct indices
      the two detectors report together. */
  lemma ExcludedCountIsDistinct(eog: seq<nat>, ecg: seq<nat>)
    ensures |ToRemove(eog, ecg)| == |Elements(eog + ecg)|
  {
    var r := ToRemove(eog, ecg);
    assert Increasing(r) by {
      forall i, j | 0 <= i < j < |r| ensures r[i] < r[j] {
        assert NatLess(r[i], r[j]);
      }
    }
    DistinctCount(r);
    assert Elements(r) == Elements(eog + ecg);
  }

  /** The heart components: what the detector reports, nothing if it raises. */
  function OrNone(found: Option<seq<nat>>): seq<nat> {
    if found.Some? then found.value else []
  }

  /** The components `run_ica` excludes from a recording with these channels. */
  function Exclusion(names: seq<string>, types: seq<string>, detectEog: string -> Option<seq<nat>>,
                     eogScores: string -> Option<seq<real>>, detectEcg: Option<seq<nat>>): seq<nat>
    requires |types| == |names|
  {
    ToRemove(EogIndices(EogChannels(names, types), detectEog, eogScores), OrNone(detectEcg))
  }

  /** `run_ica`. The library's detectors are parameters: for an eye channel,
      the components `find_bads_eog` reports or None when it raises, and the
      components' correlations with that channel or None when computing them
      raises; for the heart, the components `find_bads_ecg` reports or None.
      `nComponents` is the caller's, `IcaNComponents` by default; the
      method and seed are fixed. With fewer than two good EEG channels
      nothing happens and no
      decomposition is returned; otherwise the excluded components are
      applied to the recording only when there are some, and their number is
      returned. */
  method RunIca(raw: Recording, nComponents: real, detectEog: string -> Option<seq<nat>>,
                eogScores: string -> Option<seq<real>>, detectEcg: Option<seq<nat>>)
    returns (ica: Option<Ica>, excluded: nat)
    requires raw.Valid()
    modifies raw
    ensures raw.Valid()
    ensures raw.chNames == old(raw.chNames) && raw.chTypes == old(raw.chTypes) && raw.data == old(raw.data)
    ensures raw.nTimes == old(raw.nTimes) && raw.bads == old(raw.bads)
    ensures raw.annotations == old(raw.annotations) && raw.hasMontage == old(raw.hasMontage)
    ensures |GoodEeg(raw.chNames, raw.chTypes, raw.bads)| < 2 ==>
      ica.None? && excluded == 0 && raw.transforms == old(raw.transforms)
    ensures |GoodEeg(raw.chNames, raw.chTypes, raw.bads)| >= 2 ==>
      var toRemove := Exclusion(raw.chNames, raw.chTypes, detectEog, eogScores, detectEcg);
      && ica.Some? && fresh(ica.value)
      && ica.value.picks == GoodEeg(raw.chNames, raw.chTypes, raw.bads)
      && ica.value.nComponents == nComponents
      && ica.value.algorithm == IcaMethod && ica.value.randomState == IcaRandomState
      && ica.value.exclude == toRemove && excluded == |toRemove|
      && raw.transforms == old(raw.transforms) + (if |toRemove| > 0 then [IcaApplied(toRemove)] else [])
  {
    var picksEeg := GoodEeg(raw.chNames, raw.chTypes, raw.bads);
    if |picksEeg| < 2 {
      return None, 0;
    }
    var fitted := new Ica(picksEeg, nComponents, IcaMethod, IcaRandomState);
    var eogChs := EogChannels(raw.chNames, raw.chTypes);
    var eogInds := EogIndices(eogChs, detectEog, eogScores);
    var ecgInds := OrNone(detectEcg);
    var toRemove := ToRemove(eogInds, ecgInds);
    if |toRemove| > 0 {
      fitted.SetExclude(toRemove);
      raw.ApplyIca(toRemove);
    }
    excluded := |fitted.exclude|;
    ica := Some(fitted);
  }

  /** `_run_ica`: a placeholder that returns the recording untouched and no
      decomposition. */
  method RunIcaStub(raw: Recording) returns (r: Recording, ica: Option<Ica>)
    ensures r == raw && ica.None?
  {
    r, ica := raw, None;
  }
}
