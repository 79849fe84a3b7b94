/** Translating a subject's events table (the BIDS `events.tsv` file: one row
    per event, with its onset in seconds and an integer code) into
    annotations of the recording, as `src/annotations.py` does. */
module EventAnnotations {
  import opened Signals

  /** One row of the events table: the `onset` and `value` columns. */
  datatype EventRow = EventRow(onset: real, value: int)

  /** The code-to-label dictionary. */
  const ValueMapping: map<int, string> := map[1 := "regular", 3 := "random"]

  /** `value_mapping.get(v, "event")`. */
  function Description(v: int): string {
    if v in ValueMapping then ValueMapping[v] else "event"
  }

  /** The label vocabulary is exactly "regular" for code 1, "random" for
      code 3 and "event" for every other code. */
  lemma DescriptionCases(v: int)
    ensures Description(v) == "regular" <==> v == 1
    ensures Description(v) == "random" <==> v == 3
    ensures Description(v) == "event" <==> v != 1 && v != 3
  {
  }

  /** The annotations a table translates to: one per row, in row order, with
      the row's onset unchanged, duration 0.0, and the row's label. */
  function FromEvents(rows: seq<EventRow>): Annotations {
    Annotations(
      seq(|rows|, i requires 0 <= i < |rows| => rows[i].onset),
      seq(|rows|, i requires 0 <= i < |rows| => 0.0),
      seq(|rows|, i requires 0 <= i < |rows| => Description(rows[i].value)))
  }

  /** Annotations laid end to end. */
  function Concat(a: Annotations, b: Annotations): Annotations {
    Annotations(a.onsets + b.onsets, a.durations + b.durations, a.descriptions + b.descriptions)
  }

  /** Translation works row by row: the annotations of two tables laid end to
      end are the two translations laid end to end, so order is kept. */
  lemma FromEventsConcat(r1: seq<EventRow>, r2: seq<EventRow>)
    ensures FromEvents(r1 + r2) == Concat(FromEvents(r1), FromEvents(r2))
  {
    var a, b, c := FromEvents(r1 + r2), FromEvents(r1), FromEvents(r2);
    assert a.onsets == b.onsets + c.onsets;
    assert a.durations == b.durations + c.durations;
    assert a.descriptions == b.descriptions + c.descriptions;
  }

  /** `load_events_from_bids`, given the table already read: the onset
      column, a zero duration per onset, and the labels filled in a loop. */
  method LoadEventsFromBids(rows: seq<EventRow>) returns (a: Annotations)
    ensures |a.onsets| == |rows| && |a.durations| == |rows| && |a.descriptions| == |rows|
    ensures forall i :: 0 <= i < |rows| ==>
      && a.onsets[i] == rows[i].onset
      && a.durations[i] == 0.0
      && a.descriptions[i] == Description(rows[i].value)
    ensures a == FromEvents(rows)
  {
    var onsets := seq(|rows|, i requires 0 <= i < |rows| => rows[i].onset);
    var durations := seq(|onsets|, i => 0.0);
    var values := seq(|rows|, i requires 0 <= i < |rows| => rows[i].value);
    var descriptions: seq<string> := [];
    for k := 0 to |values|
      invariant |descriptions| == k
      invariant forall i :: 0 <= i < k ==> descriptions[i] == Description(values[i])
    {
      descriptions := descriptions + [Description(values[k])];
    }
    a := Annotations(onsets, durations, descriptions);
  }

  /** `load_and_attach_annotations`: the recording's annotations become the
      translated table; nothing else about the recording changes. */
  method LoadAndAttachAnnotations(rows: seq<EventRow>, raw: Recording)
    modifies raw
    ensures raw.annotations == FromEvents(rows)
    ensures raw.chNames == old(raw.chNames) && raw.chTypes == old(raw.chTypes)
    ensures raw.data == old(raw.data) && raw.nTimes == old(raw.nTimes) && raw.bads == old(raw.bads)
    ensures raw.hasMontage == old(raw.hasMontage) && raw.transforms == old(raw.transforms)
  {
    var annotations := LoadEventsFromBids(rows);
    raw.SetAnnotations(annotations);
  }
}
