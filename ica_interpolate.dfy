/** The ICA stage of `src/ica.py`: eye channels found by name or built
    from frontal electrode pairs, the exclusion of eye (and optionally heart)
    components, and the interpolation of bad channels. */
module IcaInterpolate {
  import opened Wrappers
  import opened Text
  import opened Stats
  import opened Signals
  import opened IcaStep

  /** Names that mark a channel as an eye channel (compared case-insensitively). */
  const EogCandidates: seq<string> := ["EOG", "HEOG", "VEOG", "eog"]

  /** Electrode pairs for a horizontal eye channel, in order of preference. */
  const HorizontalPairs: seq<(string, string)> := [("Fp1", "Fp2"), ("F7", "F8"), ("F9", "F10")]

  /** Electrode pairs for a vertical eye channel, in order of preference. */
  const VerticalPairs: seq<(string, string)> := [("Fp1", "Oz"), ("Fp2", "Oz")]

  /** Frontal and occipital electrodes of the last-resort vertical channel. */
  const Frontal: seq<string> := ["Fp1", "Fp2"]
  const Occipital: seq<string> := ["Oz", "O1", "O2"]

  /** The caller's ICA settings: `n_components`, `method` and
      `random_state`. */
  datatype IcaSettings = IcaSettings(nComponents: real, algorithm: string, randomState: int)

  /** The settings `run_ica_and_interpolate` uses when the caller gives none. */
  const DefaultSettings: IcaSettings := IcaSettings(0.99, "fastica", 42)

  const HeogName: string := "HEOG_virtual"
  const VeogName: string := "VEOG_virtual"

  /** `any(c.lower() in ch.lower() for c in candidates)`. */
  predicate MatchesCandidate(ch: string) {
    exists c :: c in EogCandidates && Contains(Lower(ch), Lower(c))
  }

  /** Every candidate contains "eog" once lower-cased, so the candidate test
      is a case-insensitive search for "eog". */
  lemma CandidateTestIsEog(ch: string)
    ensures MatchesCandidate(ch) <==> Contains(Lower(ch), "eog")
  {
    var s := Lower(ch);
    assert Lower("eog") == "eog";
    assert Lower("EOG") == "eog";
    assert Lower("HEOG") == "heog";
    assert Lower("VEOG") == "veog";
    assert OccursAt("heog", "eog", 1) && OccursAt("veog", "eog", 1);
    if Contains(s, "heog") {
      var i :| 0 <= i <= |s| - 4 && OccursAt(s, "heog", i);
      OccursWithin(s, "heog", i, "eog", 1);
    }
    if Contains(s, "veog") {
      var i :| 0 <= i <= |s| - 4 && OccursAt(s, "veog", i);
      OccursWithin(s, "veog", i, "eog", 1);
    }
    if Contains(s, "eog") {
      assert "eog" in EogCandidates;
    }
  }

  /** The virtual channels' own names match a candidate, so they are never
      added to a recording that has no channel named like an eye channel. */
  lemma VirtualNamesMatch()
    ensures MatchesCandidate(HeogName) && MatchesCandidate(VeogName)
  {
    var h := Lower(HeogName);
    assert h[..4] == Lower("HEOG");
    assert OccursAt(h, Lower("HEOG"), 0);
    assert "HEOG" in EogCandidates;
    var v := Lower(VeogName);
    assert v[..4] == Lower("VEOG");
    assert OccursAt(v, Lower("VEOG"), 0);
    assert "VEOG" in EogCandidates;
  }

  /** The names that already mark eye channels, in channel order. */
  function EogNamed(names: seq<string>): (r: seq<string>)
    ensures forall x :: x in r <==> x in names && MatchesCandidate(x)
  {
    Kept(names, seq(|names|, i requires 0 <= i < |names| => MatchesCandidate(names[i])))
  }

  predicate BothPresent(p: (string, string), good: seq<string>) {
    p.0 in good && p.1 in good
  }

  /** The first pair whose two electrodes are both good EEG channels. */
  function FirstPair(pairs: seq<(string, string)>, good: seq<string>): (r: Option<(string, string)>)
    ensures r.None? <==> forall k :: 0 <= k < |pairs| ==> !BothPresent(pairs[k], good)
    ensures r.Some? ==> exists k :: (0 <= k < |pairs| && pairs[k] == r.value && BothPresent(pairs[k], good)
      && forall j :: 0 <= j < k ==> !BothPresent(pairs[j], good))
  {
    if |pairs| == 0 then None
    else if BothPresent(pairs[0], good) then Some(pairs[0])
    else
      var r := FirstPair(pairs[1..], good);
      if r.Some? then
        var k :| 0 <= k < |pairs| - 1 && pairs[1..][k] == r.value && BothPresent(pairs[1..][k], good)
          && forall j :: 0 <= j < k ==> !BothPresent(pairs[1..][j], good);
        assert forall j :: 0 <= j < k + 1 ==> !BothPresent(pairs[j], good) by {
          forall j | 0 <= j < k + 1 ensures !BothPresent(pairs[j], good) {
            if j > 0 {
              assert pairs[j] == pairs[1..][j - 1];
            }
          }
        }
        assert pairs[k + 1] == r.value;
        r
      else
        assert forall k :: 1 <= k < |pairs| ==> pairs[k] == pairs[1..][k - 1];
        r
  }

  /** The first of `names` that is a good EEG channel. */
  function FirstPresent(names: seq<string>, good: seq<string>): (r: Option<string>)
    ensures r.None? <==> forall k :: 0 <= k < |names| ==> names[k] !in good
    ensures r.Some? ==> exists k :: (0 <= k < |names| && names[k] == r.value && r.value in good
      && forall j :: 0 <= j < k ==> names[j] !in good)
  {
    if |names| == 0 then None
    else if names[0] in good then Some(names[0])
    else
      var r := FirstPresent(names[1..], good);
      assert forall k :: 1 <= k < |names| ==> names[k] == names[1..][k - 1];
      if r.Some? then
        var k :| 0 <= k < |names| - 1 && names[1..][k] == r.value && r.value in good
          && forall j :: 0 <= j < k ==> names[1..][j] !in good;
        assert names[k + 1] == r.value;
        r
      else r
  }

  /** A channel to add: its name and the electrodes it is the difference of. */
  datatype VirtualChannel = VirtualChannel(name: string, plus: string, minus: string)

  /** The virtual eye channel for these good EEG channels: the first
      horizontal pair; failing that, the first vertical pair; failing that,
      the first frontal electrode minus the first occipital one. */
  function VirtualEog(good: seq<string>): Option<VirtualChannel> {
    match FirstPair(HorizontalPairs, good)
    case Some(p) => Some(VirtualChannel(HeogName, p.0, p.1))
    case None =>
      match FirstPair(VerticalPairs, good)
      case Some(p) => Some(VirtualChannel(VeogName, p.0, p.1))
      case None =>
        match FirstPresent(Frontal, good)
        case None => None
        case Some(a) =>
          match FirstPresent(Occipital, good)
          case None => None
          case Some(o) => Some(VirtualChannel(VeogName, a, o))
  }

  /** A virtual eye channel is the difference of two distinct good EEG
      channels; it is horizontal exactly when some horizontal pair is
      present, and there is none exactly when no pair is present and the
      frontal or the occipital electrodes are all missing. */
  lemma VirtualEogFromGoodPair(good: seq<string>)
    ensures VirtualEog(good).Some? ==>
      var v := VirtualEog(good).value;
      && v.plus in good && v.minus in good && v.plus != v.minus
      && (v.name == HeogName <==> exists k :: 0 <= k < |HorizontalPairs| && BothPresent(HorizontalPairs[k], good))
      && (v.name == HeogName || v.name == VeogName)
    ensures VirtualEog(good).None? <==>
      && (forall k :: 0 <= k < |HorizontalPairs| ==> !BothPresent(HorizontalPairs[k], good))
      && (forall k :: 0 <= k < |VerticalPairs| ==> !BothPresent(VerticalPairs[k], good))
      && ((forall k :: 0 <= k < |Frontal| ==> Frontal[k] !in good)
          || (forall k :: 0 <= k < |Occipital| ==> Occipital[k] !in good))
  {
    var h := FirstPair(HorizontalPairs, good);
    if h.Some? {
      var k :| 0 <= k < |HorizontalPairs| && HorizontalPairs[k] == h.value;
      assert h.value.0 != h.value.1;
    } else {
      var v := FirstPair(VerticalPairs, good);
      if v.Some? {
        var k :| 0 <= k < |VerticalPairs| && VerticalPairs[k] == v.value;
        assert v.value.0 != v.value.1;
      }
    }
  }

  /** The channel `_ensure_eog_channels` adds to a recording with these
      channels, if any: none when some name already marks an eye channel. */
  function Added(names: seq<string>, types: seq<string>, bads: seq<string>): Option<VirtualChannel>
    requires |types| == |names|
  {
    if |EogNamed(names)| > 0 then None else VirtualEog(GoodEeg(names, types, bads))
  }

  /** What `_ensure_eog_channels` returns: the names that already mark eye
      channels, or else the name of the one channel it added, if any. */
  function CreatedEog(names: seq<string>, types: seq<string>, bads: seq<string>): (r: seq<string>)
    requires |types| == |names|
    ensures |EogNamed(names)| == 0 ==> |r| <= 1 && forall x :: x in r ==> x == HeogName || x == VeogName
    ensures |EogNamed(names)| > 0 ==> forall x :: x in r <==> x in names && MatchesCandidate(x)
  {
    if |EogNamed(names)| > 0 then EogNamed(names)
    else
      var v := VirtualEog(GoodEeg(names, types, bads));
      VirtualEogFromGoodPair(GoodEeg(names, types, bads));
      if v.Some? then [v.value.name] else []
  }

  /** The samples of the named channel. */
  function ChannelData(names: seq<string>, data: seq<seq<real>>, x: string): seq<real> {
    if x in names && |data| == |names| then data[IndexOf(names, x)] else []
  }

  /** Adds `name` as the difference of the first pair of good EEG channels,
      if there is one: the loop over candidate pairs with `break`. */
  method AddFirstPair(raw: Recording, pairs: seq<(string, string)>, good: seq<string>, name: string)
    returns (added: bool)
    requires raw.Valid() && name !in raw.chNames
    requires forall x :: x in good ==> x in raw.chNames
    modifies raw
    ensures raw.Valid()
    ensures added <==> FirstPair(pairs, good).Some?
    ensures !added ==> raw.chNames == old(raw.chNames) && raw.chTypes == old(raw.chTypes) && raw.data == old(raw.data)
    ensures added ==>
      var p := FirstPair(pairs, good).value;
      && raw.chNames == old(raw.chNames) + [name] && raw.chTypes == old(raw.chTypes) + ["eog"]
      && raw.data == old(raw.data)
         + [Subtract(ChannelData(old(raw.chNames), old(raw.data), p.0), ChannelData(old(raw.chNames), old(raw.data), p.1))]
    ensures raw.nTimes == old(raw.nTimes) && raw.bads == old(raw.bads) && raw.annotations == old(raw.annotations)
    ensures raw.hasMontage == old(raw.hasMontage) && raw.transforms == old(raw.transforms)
  {
    added := false;
    for k := 0 to |pairs|
      invariant forall j :: 0 <= j < k ==> !BothPresent(pairs[j], good)
    {
      var (a, b) := pairs[k];
      if a in good && b in good {
        var rowA := raw.data[IndexOf(raw.chNames, a)];
        var rowB := raw.data[IndexOf(raw.chNames, b)];
        raw.AddChannel(name, "eog", Subtract(rowA, rowB));
        added := true;
        assert pairs[k] == FirstPair(pairs, good).value;
        return;
      }
    }
  }

  /** Adds the vertical channel from the first good frontal electrode and
      the first good occipital one: the last-resort loop with `break`. */
  method AddFallback(raw: Recording, good: seq<string>) returns (added: bool)
    requires raw.Valid() && VeogName !in raw.chNames
    requires forall x :: x in good ==> x in raw.chNames
    modifies raw
    ensures raw.Valid()
    ensures added <==> FirstPresent(Frontal, good).Some? && FirstPresent(Occipital, good).Some?
    ensures !added ==> raw.chNames == old(raw.chNames) && raw.chTypes == old(raw.chTypes) && raw.data == old(raw.data)
    ensures added ==>
      && raw.chNames == old(raw.chNames) + [VeogName] && raw.chTypes == old(raw.chTypes) + ["eog"]
      && raw.data == old(raw.data)
         + [Subtract(ChannelData(old(raw.chNames), old(raw.data), FirstPresent(Frontal, good).value),
                     ChannelData(old(raw.chNames), old(raw.data), FirstPresent(Occipital, good).value))]
    ensures raw.nTimes == old(raw.nTimes) && raw.bads == old(raw.bads) && raw.annotations == old(raw.annotations)
    ensures raw.hasMontage == old(raw.hasMontage) && raw.transforms == old(raw.transforms)
  {
    added := false;
    for k := 0 to |Frontal|
      invariant forall j :: 0 <= j < k ==> Frontal[j] !in good || FirstPresent(Occipital, good).None?
    {
      var a := Frontal[k];
      if a in good {
        var occ := Kept(Occipital, seq(|Occipital|, i requires 0 <= i < |Occipital| => Occipital[i] in good));
        if |occ| > 0 {
          assert occ[0] == FirstPresent(Occipital, good).value;
          assert a == FirstPresent(Frontal, good).value;
          var rowA := raw.data[IndexOf(raw.chNames, a)];
          var rowO := raw.data[IndexOf(raw.chNames, occ[0])];
          raw.AddChannel(VeogName, "eog", Subtract(rowA, rowO));
          added := true;
          return;
        }
        assert Occipital[0] !in good && Occipital[1] !in good && Occipital[2] !in good;
      }
    }
  }

  /** The samples `_ensure_eog_channels` appends: the difference of the
      chosen electrodes, if a channel is added. */
  function DataAfter(names: seq<string>, types: seq<string>, bads: seq<string>, data: seq<seq<real>>, n: nat)
    : seq<seq<real>>
    requires |types| == |names| && |data| == |names|
    requires forall i :: 0 <= i < |data| ==> |data[i]| == n
  {
    match Added(names, types, bads)
    case None => data
    case Some(v) =>
      VirtualEogFromGoodPair(GoodEeg(names, types, bads));
      data + [Subtract(ChannelData(names, data, v.plus), ChannelData(names, data, v.minus))]
  }

  /** `_ensure_eog_channels`: with no channel named like an eye channel,
      adds at most one virtual eye channel built from good EEG channels. */
  method EnsureEogChannels(raw: Recording) returns (created: seq<string>)
    requires raw.Valid()
    modifies raw
    ensures raw.Valid()
    ensures created == CreatedEog(old(raw.chNames), old(raw.chTypes), old(raw.bads))
    ensures raw.chNames == NamesAfter(old(raw.chNames), old(raw.chTypes), old(raw.bads))
    ensures raw.chTypes == TypesAfter(old(raw.chNames), old(raw.chTypes), old(raw.bads))
    ensures raw.data == DataAfter(old(raw.chNames), old(raw.chTypes), old(raw.bads), old(raw.data), old(raw.nTimes))
    ensures raw.nTimes == old(raw.nTimes) && raw.bads == old(raw.bads) && raw.annotations == old(raw.annotations)
    ensures raw.hasMontage == old(raw.hasMontage) && raw.transforms == old(raw.transforms)
  {
    var present := EogNamed(raw.chNames);
    if |present| > 0 {
      return present;
    }
    VirtualNamesMatch();
    var chNames := GoodEeg(raw.chNames, raw.chTypes, raw.bads);
    created := [];
    var added := AddFirstPair(raw, HorizontalPairs, chNames, HeogName);
    if added {
      created := created + [HeogName];
    }
    if |created| == 0 {
      added := AddFirstPair(raw, VerticalPairs, chNames, VeogName);
      if added {
        created := created + [VeogName];
      }
    }
    if |created| == 0 {
      added := AddFallback(raw, chNames);
      if added {
        created := created + [VeogName];
      }
    }
  }

  /** The eye channels `run_ica_and_interpolate` looks at, in channel order:
      those of type "eog" and those `_ensure_eog_channels` returned. */
  function EogFound(names: seq<string>, types: seq<string>, created: seq<string>): (r: seq<string>)
    requires |types| == |names|
    ensures forall x :: x in r ==> x in names
    ensures |r| > 0 <==> exists i :: 0 <= i < |names| && (types[i] == "eog" || names[i] in created)
    ensures |r| > 0 ==> exists i :: (0 <= i < |names| && names[i] == r[0] && (types[i] == "eog" || names[i] in created)
      && forall j :: 0 <= j < i ==> !(types[j] == "eog" || names[j] in created))
  {
    var keep := seq(|names|, i requires 0 <= i < |names| => types[i] == "eog" || names[i] in created);
    var r := Kept(names, keep);
    forall x | x in r ensures x in names {
      var i :| 0 <= i < |names| && keep[i] && names[i] == x;
    }
    if |r| > 0 then
      var i :| 0 <= i < |names| && keep[i] && names[i] == r[0] && forall j :: 0 <= j < i ==> !keep[j];
      assert forall j :: 0 <= j < i ==> !(types[j] == "eog" || names[j] in created) by {
        forall j | 0 <= j < i ensures !(types[j] == "eog" || names[j] in created) {
          assert !keep[j];
        }
      }
      assert types[i] == "eog" || names[i] in created;
      r
    else
      assert forall i :: 0 <= i < |names| ==> !(types[i] == "eog" || names[i] in created) by {
        forall i | 0 <= i < |names| ensures !(types[i] == "eog" || names[i] in created) {
          assert !keep[i];
        }
      }
      r
  }

  /** The channel names and types after `_ensure_eog_channels`. */
  function NamesAfter(names: seq<string>, types: seq<string>, bads: seq<string>): seq<string>
    requires |types| == |names|
  {
    var a := Added(names, types, bads);
    names + (if a.Some? then [a.value.name] else [])
  }

  function TypesAfter(names: seq<string>, types: seq<string>, bads: seq<string>): seq<string>
    requires |types| == |names|
  {
    types + (if Added(names, types, bads).Some? then ["eog"] else [])
  }

  /** The components `run_ica_and_interpolate` removes from a recording with
      these channels: the eye components found through the first eye
      channel, and the heart components only when asked for. */
  function Removal(names: seq<string>, types: seq<string>, bads: seq<string>, rejectEcg: bool,
                   detectEog: string -> Option<seq<nat>>, eogScores: string -> Option<seq<real>>,
                   detectEcg: Option<seq<nat>>): seq<nat>
    requires |types| == |names|
  {
    var found := EogFound(NamesAfter(names, types, bads), TypesAfter(names, types, bads),
                          CreatedEog(names, types, bads));
    ToRemove(EogIndices(found, detectEog, eogScores), if rejectEcg then OrNone(detectEcg) else [])
  }

  /** Without heart detection the removal is exactly the eye components. */
  lemma NoEcgWithoutRequest(names: seq<string>, types: seq<string>, bads: seq<string>,
                            detectEog: string -> Option<seq<nat>>, eogScores: string -> Option<seq<real>>,
                            detectEcg: Option<seq<nat>>)
    requires |types| == |names|
    ensures forall c :: c in Removal(names, types, bads, false, detectEog, eogScores, detectEcg) <==>
      c in EogIndices(EogFound(NamesAfter(names, types, bads), TypesAfter(names, types, bads),
                               CreatedEog(names, types, bads)), detectEog, eogScores)
  {
  }

  /** The part of `run_ica_and_interpolate` after the channel check: fits
      ICA on `picks`, makes sure there is an eye channel, removes the eye
      components (and, when `rejectEcg`, the heart components) only when
      there are some, and interpolates the bad channels. */
  method FitAndClean(raw: Recording, picks: seq<string>, settings: IcaSettings, rejectEcg: bool,
                     detectEog: string -> Option<seq<nat>>, eogScores: string -> Option<seq<real>>,
                     detectEcg: Option<seq<nat>>)
    returns (ica: Ica)
    requires raw.Valid()
    modifies raw
    ensures raw.Valid()
    ensures raw.nTimes == old(raw.nTimes) && raw.bads == old(raw.bads) && raw.annotations == old(raw.annotations)
    ensures raw.hasMontage == old(raw.hasMontage)
    ensures
      var toRemove := Removal(old(raw.chNames), old(raw.chTypes), old(raw.bads), rejectEcg, detectEog, eogScores, detectEcg);
      && fresh(ica)
      && ica.picks == picks && ica.exclude == toRemove
      && ica.nComponents == settings.nComponents && ica.algorithm == settings.algorithm
      && ica.randomState == settings.randomState
      && raw.chNames == NamesAfter(old(raw.chNames), old(raw.chTypes), old(raw.bads))
      && raw.chTypes == TypesAfter(old(raw.chNames), old(raw.chTypes), old(raw.bads))
      && raw.data == DataAfter(old(raw.chNames), old(raw.chTypes), old(raw.bads), old(raw.data), old(raw.nTimes))
      && raw.transforms == old(raw.transforms)
         + (if |toRemove| > 0 then [IcaApplied(toRemove)] else []) + [BadsInterpolated(old(raw.bads))]
  {
    ica := new Ica(picks, settings.nComponents, settings.algorithm, settings.randomState);
    var eogChs := EnsureEogChannels(raw);
    var eogFound := EogFound(raw.chNames, raw.chTypes, eogChs);
    var eogInds := EogIndices(eogFound, detectEog, eogScores);
    var ecgInds: seq<nat> := [];
    if rejectEcg {
      ecgInds := OrNone(detectEcg);
    }
    var toRemove := ToRemove(eogInds, ecgInds);
    if |toRemove| > 0 {
      ica.SetExclude(toRemove);
      raw.ApplyIca(toRemove);
    }
    raw.InterpolateBads();
  }

  /** `run_ica_and_interpolate`. A missing montage is set first. With
      fewer than two good EEG channels it raises RuntimeError (after the
      montage has been set); otherwise it fits ICA on the good EEG channels
      and cleans the recording as `FitAndClean` says. */
  method RunIcaAndInterpolate(raw: Recording, settings: IcaSettings, rejectEcg: bool,
                              detectEog: string -> Option<seq<nat>>, eogScores: string -> Option<seq<real>>,
                              detectEcg: Option<seq<nat>>)
    returns (r: Result<Ica>)
    requires raw.Valid()
    modifies raw
    ensures raw.Valid() && raw.hasMontage
    ensures raw.nTimes == old(raw.nTimes) && raw.bads == old(raw.bads) && raw.annotations == old(raw.annotations)
    ensures r.Err? <==> |GoodEeg(old(raw.chNames), old(raw.chTypes), old(raw.bads))| < 2
    ensures r.Err? ==> (r.error == "RuntimeError: Not enough EEG channels for ICA."
      && raw.chNames == old(raw.chNames) && raw.chTypes == old(raw.chTypes) && raw.data == old(raw.data)
      && raw.transforms == old(raw.transforms))
    ensures r.Ok? ==>
      var toRemove := Removal(old(raw.chNames), old(raw.chTypes), old(raw.bads), rejectEcg, detectEog, eogScores, detectEcg);
      && fresh(r.value)
      && r.value.picks == GoodEeg(old(raw.chNames), old(raw.chTypes), old(raw.bads))
      && r.value.nComponents == settings.nComponents && r.value.algorithm == settings.algorithm
      && r.value.randomState == settings.randomState
      && r.value.exclude == toRemove
      && raw.chNames == NamesAfter(old(raw.chNames), old(raw.chTypes), old(raw.bads))
      && raw.chTypes == TypesAfter(old(raw.chNames), old(raw.chTypes), old(raw.bads))
      && raw.data == DataAfter(old(raw.chNames), old(raw.chTypes), old(raw.bads), old(raw.data), old(raw.nTimes))
      && raw.transforms == old(raw.transforms)
         + (if |toRemove| > 0 then [IcaApplied(toRemove)] else []) + [BadsInterpolated(old(raw.bads))]
  {
    if !raw.hasMontage {
      raw.SetStandardMontage();
    }
    var picksEeg := GoodEeg(raw.chNames, raw.chTypes, raw.bads);
    if |picksEeg| < 2 {
      return Err("RuntimeError: Not enough EEG channels for ICA.");
    }
    var ica := FitAndClean(raw, picksEeg, settings, rejectEcg, detectEog, eogScores, detectEcg);
    r := Ok(ica);
  }
}
