/** Step 9 of the pipeline (`src/step09_epoching.py`): attach the translated
    events to the recording, cut a fixed window around every event, and
    baseline-correct each trial. */
module Epoching {
  import opened Signals
  import opened Baseline
  import opened Stats
  import opened EventAnnotations
  import opened Text
  import opened Ordering

  /** The epoch window, in seconds around each event. */
  const TMin: real := -0.5
  const TMax: real := 1.0

  /** `_load_events_from_bids`, this module's own copy of the translation. */
  method LoadEventsFromBids(rows: seq<EventRow>) returns (a: Annotations)
    ensures |a.onsets| == |rows| && |a.durations| == |rows| && |a.descriptions| == |rows|
    ensures forall i :: 0 <= i < |rows| ==>
      && a.onsets[i] == rows[i].onset
      && a.durations[i] == 0.0
      && a.descriptions[i] == Description(rows[i].value)
    ensures a == FromEvents(rows)
  {
    var onsets := seq(|rows|, i requires 0 <= i < |rows| => rows[i].onset);
    var durations := seq(|onsets|, i => 0.0);
    var values := seq(|rows|, i requires 0 <= i < |rows| => rows[i].value);
    var descriptions: seq<string> := [];
    for k := 0 to |values|
      invariant |descriptions| == k
      invariant forall i :: 0 <= i < k ==> descriptions[i] == Description(values[i])
    {
      descriptions := descriptions + [Description(values[k])];
    }
    a := Annotations(onsets, durations, descriptions);
  }

  /** `_load_and_attach_annotations`: replaces the annotations and returns
      the same recording object. */
  method LoadAndAttachAnnotations(rows: seq<EventRow>, raw: Recording) returns (r: Recording)
    modifies raw
    ensures r == raw
    ensures raw.annotations == FromEvents(rows)
    ensures raw.chNames == old(raw.chNames) && raw.chTypes == old(raw.chTypes)
    ensures raw.data == old(raw.data) && raw.nTimes == old(raw.nTimes) && raw.bads == old(raw.bads)
    ensures raw.hasMontage == old(raw.hasMontage) && raw.transforms == old(raw.transforms)
  {
    var annotations := LoadEventsFromBids(rows);
    raw.SetAnnotations(annotations);
    r := raw;
  }

  /** What MNE cuts from the recording for each event before any baseline
      correction: the event's label, whether it was dropped at cut time, and
      its samples on the shared time axis. */
  datatype Cut = Cut(labels: seq<string>, dropLog: seq<seq<string>>, times: seq<real>,
                     data: seq<seq<seq<real>>>)

  ghost predicate CutFits(cut: Cut, nChannels: nat) {
    |cut.dropLog| == |cut.labels| && |cut.data| == |cut.labels| && EpochShape(cut.data, nChannels, cut.times)
  }

  /** `_generate_epochs`: the `Epochs` constructor with the given window and
      baseline, which baseline-corrects the trials it cuts. The cut is what
      MNE makes for this event table and window: every label is a key of the
      table, and every sample time lies in [tmin, tmax]. MNE accepts the
      baseline only within the epoch's time axis. */
  method GenerateEpochs(raw: Recording, cut: Cut, eventId: set<string>, bmin: real, bmax: real,
                        tmin: real, tmax: real) returns (epochs: Epochs)
    requires raw.Valid() && CutFits(cut, |raw.chNames|)
    requires forall l :: l in cut.labels ==> l in eventId
    requires forall n :: 0 <= n < |cut.times| ==> tmin <= cut.times[n] <= tmax
    requires WindowWithin(cut.times, bmin, bmax)
    ensures fresh(epochs) && epochs.Valid()
    ensures forall e :: 0 <= e < |epochs.labels| ==> epochs.labels[e] in epochs.eventId
    ensures forall n :: 0 <= n < |epochs.times| ==> epochs.tmin <= epochs.times[n] <= epochs.tmax
    ensures epochs.tmin == tmin && epochs.tmax == tmax
    ensures epochs.chNames == raw.chNames && epochs.chTypes == raw.chTypes
    ensures epochs.eventId == eventId && epochs.labels == cut.labels
    ensures epochs.dropLog == cut.dropLog && epochs.times == cut.times
    ensures epochs.data == BaselineAll(cut.data, raw.chTypes, cut.times, bmin, bmax)
  {
    epochs := new Epochs(raw.chNames, raw.chTypes, eventId, cut.labels, cut.dropLog, cut.times,
                         cut.data, tmin, tmax);
    epochs.ApplyBaseline(bmin, bmax);
  }

  /** The event-id table `events_from_annotations` derives from the
      annotations: one key per distinct label. */
  function EventIds(a: Annotations): set<string> {
    set d | d in a.descriptions
  }

  /** `events_from_annotations`' automatic event table: every distinct
      label with a code, the labels numbered from 1 in ascending order. */
  function EventCodes(a: Annotations): (codes: map<string, nat>)
    ensures codes.Keys == EventIds(a)
  {
    StrLessIsStrictTotalOrder();
    Ranks(SortedSet(StrLess, a.descriptions))
  }

  /** The codes are the ranks of the labels: 1 to the number of labels, in
      the labels' ascending order. */
  lemma EventCodesAreRanks(a: Annotations)
    ensures var codes := EventCodes(a);
      && (forall l :: l in codes ==> 1 <= codes[l] <= |codes|)
      && (forall l, m :: l in codes && m in codes && StrLess(l, m) ==> codes[l] < codes[m])
  {
    StrLessIsStrictTotalOrder();
    var keys := SortedSet(StrLess, a.descriptions);
    assert EventCodes(a) == Ranks(keys);
    RanksAreRanks(keys);
  }

  /** Each entry of a sorted list of labels numbered by its place, from 1. */
  function Ranks(keys: seq<string>): (codes: map<string, nat>)
    ensures codes.Keys == set l | l in keys
  {
    map l | l in keys :: 1 + IndexOf(keys, l)
  }

  lemma RanksAreRanks(keys: seq<string>)
    requires IsStrictTotalOrder(StrLess) && StrictlySorted(StrLess, keys)
    ensures var codes := Ranks(keys);
      && (forall l :: l in codes ==> 1 <= codes[l] <= |codes|)
      && (forall l, m :: l in codes && m in codes && StrLess(l, m) ==> codes[l] < codes[m])
  {
    var codes := Ranks(keys);
    StrictlySortedCardinality(StrLess, keys);
    assert |codes| == |keys|;
    forall l, m | l in codes && m in codes && StrLess(l, m) ensures codes[l] < codes[m] {
      StrictlySortedPositions(StrLess, keys, IndexOf(keys, l), IndexOf(keys, m));
    }
  }

  /** The event table of a translated events file has exactly the labels of
      its rows as keys. */
  lemma EventIdsAreRowLabels(rows: seq<EventRow>, l: string)
    ensures l in EventIds(FromEvents(rows)) <==> exists j :: 0 <= j < |rows| && Description(rows[j].value) == l
  {
    var a := FromEvents(rows);
    if l in EventIds(a) {
      var i :| 0 <= i < |a.descriptions| && a.descriptions[i] == l;
      assert Description(rows[i].value) == l;
    }
    if exists j :: 0 <= j < |rows| && Description(rows[j].value) == l {
      var j :| 0 <= j < |rows| && Description(rows[j].value) == l;
      assert a.descriptions[j] == l;
    }
  }

  /** Labels drawn from the event table of a translated events file are each
      the label of one of its rows. */
  lemma TableLabelsAreRowLabels(labels: seq<string>, rows: seq<EventRow>)
    requires forall l :: l in labels ==> l in EventIds(FromEvents(rows))
    ensures forall e :: 0 <= e < |labels| ==> IsRowLabel(labels[e], rows)
  {
    forall e | 0 <= e < |labels| ensures IsRowLabel(labels[e], rows) {
      assert labels[e] in labels;
      EventIdsAreRowLabels(rows, labels[e]);
    }
  }

  /** The label is the translation of some row's code. */
  ghost predicate IsRowLabel(l: string, rows: seq<EventRow>) {
    exists j :: 0 <= j < |rows| && Description(rows[j].value) == l
  }

  /** `epoch_data`: attach the annotations, derive the event table, build
      the epochs on the fixed window with baseline correction, then apply
      the baseline once more. Because correction is idempotent, the trials
      are corrected exactly once:
      every channel of a corrected type has zero mean over the baseline
      window in every trial, and the other channels keep their samples. The
      cut is MNE's for the translated table on [TMin, TMax]: at most one
      trial per event, each labelled with a key of the table. */
  method EpochData(raw: Recording, rows: seq<EventRow>, cut: Cut, bmin: real, bmax: real)
    returns (epochs: Epochs, eventDict: map<string, nat>)
    requires raw.Valid() && CutFits(cut, |raw.chNames|)
    requires |cut.labels| <= |rows|
    requires forall l :: l in cut.labels ==> l in EventIds(FromEvents(rows))
    requires forall n :: 0 <= n < |cut.times| ==> TMin <= cut.times[n] <= TMax
    requires WindowWithin(cut.times, bmin, bmax)
    modifies raw
    ensures raw.Valid() && raw.annotations == FromEvents(rows)
    ensures raw.chNames == old(raw.chNames) && raw.bads == old(raw.bads) && raw.data == old(raw.data)
    ensures raw.chTypes == old(raw.chTypes) && raw.nTimes == old(raw.nTimes)
    ensures raw.hasMontage == old(raw.hasMontage) && raw.transforms == old(raw.transforms)
    ensures eventDict == EventCodes(FromEvents(rows)) && eventDict.Keys == EventIds(FromEvents(rows))
    ensures fresh(epochs) && epochs.Valid()
    ensures epochs.tmin == TMin && epochs.tmax == TMax
    ensures epochs.chNames == raw.chNames && epochs.chTypes == raw.chTypes
    ensures epochs.labels == cut.labels && epochs.times == cut.times && epochs.eventId == eventDict.Keys
    ensures epochs.dropLog == cut.dropLog
    ensures forall e :: 0 <= e < |epochs.labels| ==> IsRowLabel(epochs.labels[e], rows)
    ensures epochs.data == BaselineAll(cut.data, raw.chTypes, cut.times, bmin, bmax)
    ensures forall e, c :: 0 <= e < |epochs.data| && 0 <= c < |epochs.chTypes| && Corrected(epochs.chTypes[c]) ==>
      Mean(WindowValues(epochs.data[e][c], epochs.times, bmin, bmax)) == 0.0
    ensures forall e, c :: 0 <= e < |epochs.data| && 0 <= c < |epochs.chTypes| && !Corrected(epochs.chTypes[c]) ==>
      epochs.data[e][c] == cut.data[e][c]
  {
    var r := LoadAndAttachAnnotations(rows, raw);
    eventDict := EventCodes(r.annotations);
    epochs := GenerateEpochs(r, cut, eventDict.Keys, bmin, bmax, TMin, TMax);
    epochs.ApplyBaseline(bmin, bmax);
    BaselineAllIdempotent(cut.data, raw.chTypes, cut.times, bmin, bmax);
    BaselineAllWindowMeanIsZero(cut.data, raw.chTypes, cut.times, bmin, bmax);
    BaselineAllPerChannel(cut.data, raw.chTypes, cut.times, bmin, bmax);
    TableLabelsAreRowLabels(cut.labels, rows);
  }
}
