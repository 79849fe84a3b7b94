/** The two MNE objects the pipeline updates in place: the continuous
    recording (`Raw`) and the set of cut trials (`Epochs`). */
module Signals {
  import opened Baseline

  /** MNE's `Annotations`: onsets and durations in seconds, and labels. */
  datatype Annotations = Annotations(onsets: seq<real>, durations: seq<real>, descriptions: seq<string>)

  /** A library operation applied to the samples in place whose numeric
      effect is not modelled; the recording keeps them in order. */
  datatype Transform =
    | IcaApplied(exclude: seq<nat>)
    | BadsInterpolated(bads: seq<string>)

  /** A continuous recording: channel names and types, one row of samples per
      channel, the channels marked bad, the annotations, whether electrode
      positions are set, and the in-place library transforms applied so far. */
  class Recording {
    var chNames: seq<string>
    var chTypes: seq<string>
    var data: seq<seq<real>>
    var nTimes: nat
    var bads: seq<string>
    var annotations: Annotations
    var hasMontage: bool
    var transforms: seq<Transform>

    ghost predicate Valid()
      reads this
    {
      && |chTypes| == |chNames|
      && |data| == |chNames|
      && (forall i :: 0 <= i < |data| ==> |data[i]| == nTimes)
      && (forall i, j :: 0 <= i < j < |chNames| ==> chNames[i] != chNames[j])
    }

    constructor (names: seq<string>, types: seq<string>, samples: seq<seq<real>>, n: nat,
                 badNames: seq<string>, montage: bool)
      requires |types| == |names| && |samples| == |names|
      requires forall i :: 0 <= i < |samples| ==> |samples[i]| == n
      requires forall i, j :: 0 <= i < j < |names| ==> names[i] != names[j]
      ensures Valid()
      ensures chNames == names && chTypes == types && data == samples && nTimes == n
      ensures bads == badNames && hasMontage == montage
      ensures annotations == Annotations([], [], []) && transforms == []
    {
      chNames, chTypes, data, nTimes := names, types, samples, n;
      bads, hasMontage := badNames, montage;
      annotations, transforms := Annotations([], [], []), [];
    }

    /** `raw.set_annotations(a)`: replaces the annotations, nothing else. */
    method SetAnnotations(a: Annotations)
      modifies this
      ensures annotations == a
      ensures chNames == old(chNames) && chTypes == old(chTypes) && data == old(data)
      ensures nTimes == old(nTimes) && bads == old(bads) && hasMontage == old(hasMontage)
      ensures transforms == old(transforms)
    {
      annotations := a;
    }

    /** `raw.add_channels([...])`: appends one channel after the others. */
    method AddChannel(name: string, chType: string, samples: seq<real>)
      requires Valid() && name !in chNames && |samples| == nTimes
      modifies this
      ensures Valid()
      ensures chNames == old(chNames) + [name] && chTypes == old(chTypes) + [chType]
      ensures data == old(data) + [samples]
      ensures nTimes == old(nTimes) && bads == old(bads) && annotations == old(annotations)
      ensures hasMontage == old(hasMontage) && transforms == old(transforms)
    {
      chNames, chTypes, data := chNames + [name], chTypes + [chType], data + [samples];
    }

    /** `ica.apply(raw)` with the given components excluded: the cleaned
        samples are not modelled, the application is logged. */
    method ApplyIca(exclude: seq<nat>)
      modifies this
      ensures transforms == old(transforms) + [IcaApplied(exclude)]
      ensures chNames == old(chNames) && chTypes == old(chTypes) && data == old(data)
      ensures nTimes == old(nTimes) && bads == old(bads) && annotations == old(annotations)
      ensures hasMontage == old(hasMontage)
    {
      transforms := transforms + [IcaApplied(exclude)];
    }

    /** `raw.set_montage(make_standard_montage("standard_1020"))`: electrode
        positions become available. */
    method SetStandardMontage()
      modifies this
      ensures hasMontage
      ensures chNames == old(chNames) && chTypes == old(chTypes) && data == old(data)
      ensures nTimes == old(nTimes) && bads == old(bads) && annotations == old(annotations)
      ensures transforms == old(transforms)
    {
      hasMontage := true;
    }

    /** `raw.interpolate_bads(reset_bads=False)`: the bad channels are
        rebuilt from their neighbours (logged) and stay marked bad. */
    method InterpolateBads()
      modifies this
      ensures transforms == old(transforms) + [BadsInterpolated(old(bads))]
      ensures chNames == old(chNames) && chTypes == old(chTypes) && data == old(data)
      ensures nTimes == old(nTimes) && bads == old(bads) && annotations == old(annotations)
      ensures hasMontage == old(hasMontage)
    {
      transforms := transforms + [BadsInterpolated(bads)];
    }
  }

  /** Names of the channels of type "eeg" that are not marked bad, in channel
      order: `pick_types(info, eeg=True, meg=False, exclude="bads")`. */
  function GoodEeg(names: seq<string>, types: seq<string>, bads: seq<string>): (r: seq<string>)
    requires |types| == |names|
    ensures forall x :: x in r <==>
      exists i :: 0 <= i < |names| && names[i] == x && types[i] == "eeg" && x !in bads
  {
    if |names| == 0 then []
    else
      var n := |names| - 1;
      var init := GoodEeg(names[..n], types[..n], bads);
      assert forall x ::
        ((exists i :: 0 <= i < n && names[..n][i] == x && types[..n][i] == "eeg" && x !in bads)
          <==> (exists i :: 0 <= i < n && names[i] == x && types[i] == "eeg" && x !in bads));
      init + (if types[n] == "eeg" && names[n] !in bads then [names[n]] else [])
  }

  /** A set of trials cut from a recording. Every epoch has one row of samples
      per channel on the shared time axis `times`, from `tmin` to `tmax`
      seconds around its event. `labels` and `dropLog` have one entry per
      event: its condition label, and why it was dropped (empty = kept). */
  class Epochs {
    var chNames: seq<string>
    var chTypes: seq<string>
    var eventId: set<string>
    var labels: seq<string>
    var dropLog: seq<seq<string>>
    var times: seq<real>
    var data: seq<seq<seq<real>>>
    var tmin: real
    var tmax: real

    ghost predicate Valid()
      reads this
    {
      && |chTypes| == |chNames|
      && |dropLog| == |labels|
      && |data| == |labels|
      && EpochShape(data, |chNames|, times)
    }

    constructor (names: seq<string>, types: seq<string>, ids: set<string>, ls: seq<string>,
                 log: seq<seq<string>>, ts: seq<real>, samples: seq<seq<seq<real>>>,
                 start: real, stop: real)
      requires |types| == |names| && |log| == |ls| && |samples| == |ls|
      requires EpochShape(samples, |names|, ts)
      ensures Valid()
      ensures chNames == names && chTypes == types && eventId == ids && labels == ls
      ensures dropLog == log && times == ts && data == samples && tmin == start && tmax == stop
    {
      chNames, chTypes, eventId, labels := names, types, ids, ls;
      dropLog, times, data, tmin, tmax := log, ts, samples, start, stop;
    }

    /** `epochs.copy()`: a new object with the same contents. */
    method Copy() returns (c: Epochs)
      requires Valid()
      ensures fresh(c) && c.Valid()
      ensures c.chNames == chNames && c.chTypes == chTypes && c.eventId == eventId
      ensures c.labels == labels && c.dropLog == dropLog && c.times == times && c.data == data
      ensures c.tmin == tmin && c.tmax == tmax
    {
      c := new Epochs(chNames, chTypes, eventId, labels, dropLog, times, data, tmin, tmax);
    }

    /** `epochs.drop_bad(...)` given the library's verdict for every event:
        a kept epoch with a non-empty verdict is dropped for those reasons;
        epochs dropped before keep their earlier reasons. */
    method DropBad(verdicts: seq<seq<string>>)
      requires Valid() && |verdicts| == |dropLog|
      modifies this
      ensures Valid()
      ensures dropLog == AfterDrop(old(dropLog), verdicts)
      ensures chNames == old(chNames) && chTypes == old(chTypes) && eventId == old(eventId)
      ensures labels == old(labels) && times == old(times) && data == old(data)
      ensures tmin == old(tmin) && tmax == old(tmax)
    {
      dropLog := AfterDrop(dropLog, verdicts);
    }

    /** `epochs.apply_baseline((bmin, bmax))`: corrects the channels of the
        types MNE corrects and keeps the others. */
    method ApplyBaseline(bmin: real, bmax: real)
      requires Valid() && WindowWithin(times, bmin, bmax)
      modifies this
      ensures Valid()
      ensures data == BaselineAll(old(data), old(chTypes), old(times), bmin, bmax)
      ensures chNames == old(chNames) && chTypes == old(chTypes) && eventId == old(eventId)
      ensures labels == old(labels) && dropLog == old(dropLog) && times == old(times)
      ensures tmin == old(tmin) && tmax == old(tmax)
    {
      data := BaselineAll(data, chTypes, times, bmin, bmax);
    }
  }

  /** The drop log after `drop_bad` with the given verdicts. */
  function AfterDrop(log: seq<seq<string>>, verdicts: seq<seq<string>>): (r: seq<seq<string>>)
    requires |verdicts| == |log|
    ensures |r| == |log|
  {
    seq(|log|, i requires 0 <= i < |log| => if log[i] == [] then verdicts[i] else log[i])
  }
}
