/** Step 10 of the pipeline (`src/step10_trialrejection.py`): dropping
    epochs whose peak-to-peak amplitude is too large or too flat, the counts
    kept for the report, and the per-reason summary of the drop log. */
module TrialRejection {
  import opened Wrappers
  import opened Signals

  const DefaultEegThreshold: real := 0.000150
  const DefaultEogThreshold: real := 0.000250
  const DefaultFlatThreshold: real := 0.000001
  /** Rejection rates above this percentage draw a warning. */
  const HighRejectionRate: real := 30.0
  /** The drop reason MNE records for epochs dropped by the user. */
  const UserReason: string := "USER"

  /** `len(epochs)`: the number of epochs still kept. */
  function KeptCount(log: seq<seq<string>>): nat {
    if |log| == 0 then 0
    else KeptCount(log[..|log| - 1]) + (if log[|log| - 1] == [] then 1 else 0)
  }

  /** `len(epochs[cond])`: the number of kept epochs with that condition. */
  function KeptWithLabel(labels: seq<string>, log: seq<seq<string>>, cond: string): nat
    requires |labels| == |log|
  {
    if |log| == 0 then 0
    else
      var n := |log| - 1;
      KeptWithLabel(labels[..n], log[..n], cond) + (if log[n] == [] && labels[n] == cond then 1 else 0)
  }

  lemma AfterDropPrefix(log: seq<seq<string>>, verdicts: seq<seq<string>>, n: nat)
    requires |verdicts| == |log| && n <= |log|
    ensures AfterDrop(log, verdicts)[..n] == AfterDrop(log[..n], verdicts[..n])
  {
  }

  /** Dropping never brings an epoch back: no count of kept epochs grows. */
  lemma {:induction false} DropNeverAddsEpochs(labels: seq<string>, log: seq<seq<string>>,
                                              verdicts: seq<seq<string>>, cond: string)
    requires |labels| == |log| && |verdicts| == |log|
    ensures KeptCount(AfterDrop(log, verdicts)) <= KeptCount(log)
    ensures KeptWithLabel(labels, AfterDrop(log, verdicts), cond) <= KeptWithLabel(labels, log, cond)
  {
    if |log| > 0 {
      var n := |log| - 1;
      AfterDropPrefix(log, verdicts, n);
      DropNeverAddsEpochs(labels[..n], log[..n], verdicts[..n], cond);
    }
  }

  /** When every epoch is either "random" or "regular", the kept epochs are
      the kept "random" ones plus the kept "regular" ones. */
  lemma {:induction false} KeptSplitsByCondition(labels: seq<string>, log: seq<seq<string>>)
    requires |labels| == |log|
    requires forall i :: 0 <= i < |labels| ==> labels[i] == "random" || labels[i] == "regular"
    ensures KeptCount(log) == KeptWithLabel(labels, log, "random") + KeptWithLabel(labels, log, "regular")
  {
    if |log| > 0 {
      var n := |log| - 1;
      KeptSplitsByCondition(labels[..n], log[..n]);
    }
  }

  /** The peak-to-peak rejection thresholds, per channel type present. */
  function RejectCriteria(types: seq<string>, eegThreshold: real, eogThreshold: real): (m: map<string, real>)
    ensures forall k :: k in m <==> (k == "eeg" || k == "eog") && k in types
    ensures "eeg" in m ==> m["eeg"] == eegThreshold
    ensures "eog" in m ==> m["eog"] == eogThreshold
  {
    var eeg: map<string, real> := if "eeg" in types then map["eeg" := eegThreshold] else map[];
    if "eog" in types then eeg["eog" := eogThreshold] else eeg
  }

  /** The flatness thresholds: for EEG only, never for EOG. */
  function FlatCriteria(types: seq<string>, flatThreshold: real): (m: map<string, real>)
    ensures forall k :: k in m <==> k == "eeg" && k in types
    ensures "eeg" in m ==> m["eeg"] == flatThreshold
  {
    if "eeg" in types then map["eeg" := flatThreshold] else map[]
  }

  /** The percentage of epochs rejected; 0 when there were none. */
  function RejectionRate(nRejected: int, nBefore: nat): real {
    if nBefore > 0 then (nRejected as real / nBefore as real) * 100.0 else 0.0
  }

  /** The rate is a percentage, and it is above 30 exactly when more than
      three in ten epochs were rejected. */
  lemma RejectionRateBounds(nRejected: int, nBefore: nat)
    requires 0 <= nRejected <= nBefore
    ensures 0.0 <= RejectionRate(nRejected, nBefore) <= 100.0
    ensures RejectionRate(nRejected, nBefore) > HighRejectionRate <==> 10 * nRejected > 3 * nBefore
  {
    if nBefore > 0 {
      var r, b := nRejected as real, nBefore as real;
      var q := r / b;
      assert RejectionRate(nRejected, nBefore) == q * 100.0;
      assert q * b == r;
      SignTimesPositive(q, b);
      assert 0.0 <= q;
      assert (q - 1.0) * b == r - b;
      SignTimesPositive(q - 1.0, b);
      assert q <= 1.0;
      var x := q - 0.3;
      assert x * b == r - 0.3 * b;
      SignTimesPositive(x, b);
      assert q * 100.0 > 30.0 <==> x * b > 0.0;
      assert x * b > 0.0 <==> 10.0 * r > 3.0 * b;
      assert (10 * nRejected) as real == 10.0 * r && (3 * nBefore) as real == 3.0 * b;
    }
  }

  /** Multiplying by a positive number keeps the sign. */
  lemma SignTimesPositive(x: real, b: real)
    requires b > 0.0
    ensures x * b > 0.0 <==> x > 0.0
    ensures x * b < 0.0 <==> x < 0.0
  {
    if x > 0.0 {
      assert x * b > 0.0;
    } else if x < 0.0 {
      assert (-x) * b > 0.0;
    }
  }

  /** The rejection report `reject_trials` returns beside the cleaned epochs. */
  datatype RejectLog = RejectLog(
    nEpochsBefore: nat,
    nEpochsAfter: nat,
    nEpochsRegularBefore: nat,
    nEpochsRandomBefore: nat,
    nRejected: int,
    nRejectedRandom: int,
    nRejectedRegular: int,
    rejectionRate: real,
    rejectCriteria: map<string, real>,
    flatCriteria: map<string, real>,
    dropLog: seq<seq<string>>)

  /** `reject_trials`. `dropBad` is the library's verdict per event for the
      given reject and flat criteria. Selecting a condition that is not an
      event id raises KeyError, modelled as Err. The input epochs are not
      modified; the cleaned ones are a fresh copy. `warning` is whether the
      high-rejection-rate warning is printed. */
  method RejectTrials(epochs: Epochs, dropBad: (map<string, real>, map<string, real>) -> seq<seq<string>>,
                      eegThreshold: real, eogThreshold: real, flatThreshold: real, verbose: bool)
    returns (r: Result<(Epochs, RejectLog)>, warning: bool)
    requires epochs.Valid()
    requires |dropBad(RejectCriteria(epochs.chTypes, eegThreshold, eogThreshold),
                      FlatCriteria(epochs.chTypes, flatThreshold))| == |epochs.dropLog|
    ensures r.Err? <==> "random" !in epochs.eventId || "regular" !in epochs.eventId
    ensures r.Err? ==> !warning
    ensures r.Ok? ==> var (clean, log) := r.value;
      && fresh(clean) && clean.Valid()
      && log.rejectCriteria == RejectCriteria(epochs.chTypes, eegThreshold, eogThreshold)
      && log.flatCriteria == FlatCriteria(epochs.chTypes, flatThreshold)
      && clean.dropLog == AfterDrop(epochs.dropLog, dropBad(log.rejectCriteria, log.flatCriteria))
      && clean.chNames == epochs.chNames && clean.chTypes == epochs.chTypes
      && clean.eventId == epochs.eventId && clean.labels == epochs.labels
      && clean.times == epochs.times && clean.data == epochs.data
      && clean.tmin == epochs.tmin && clean.tmax == epochs.tmax
      && log.dropLog == clean.dropLog
      && log.nEpochsBefore == KeptCount(epochs.dropLog)
      && log.nEpochsAfter == KeptCount(clean.dropLog)
      && log.nEpochsRandomBefore == KeptWithLabel(epochs.labels, epochs.dropLog, "random")
      && log.nEpochsRegularBefore == KeptWithLabel(epochs.labels, epochs.dropLog, "regular")
      && log.nRejected == log.nEpochsBefore - log.nEpochsAfter
      && 0 <= log.nRejected <= log.nEpochsBefore
      && 0 <= log.nRejectedRandom <= log.nEpochsRandomBefore
      && 0 <= log.nRejectedRegular <= log.nEpochsRegularBefore
      && log.nRejectedRandom == log.nEpochsRandomBefore - KeptWithLabel(clean.labels, clean.dropLog, "random")
      && log.nRejectedRegular == log.nEpochsRegularBefore - KeptWithLabel(clean.labels, clean.dropLog, "regular")
      && log.rejectionRate == RejectionRate(log.nRejected, log.nEpochsBefore)
      && 0.0 <= log.rejectionRate <= 100.0
      && (warning <==> verbose && 10 * log.nRejected > 3 * log.nEpochsBefore)
      && ((forall i :: 0 <= i < |epochs.labels| ==> epochs.labels[i] == "random" || epochs.labels[i] == "regular")
          ==> log.nRejected == log.nRejectedRandom + log.nRejectedRegular)
  {
    warning := false;
    var nEpochsBefore := KeptCount(epochs.dropLog);
    var reject := RejectCriteria(epochs.chTypes, eegThreshold, eogThreshold);
    var flat := FlatCriteria(epochs.chTypes, flatThreshold);
    if "random" !in epochs.eventId {
      return Err("KeyError: random"), false;
    }
    if "regular" !in epochs.eventId {
      return Err("KeyError: regular"), false;
    }
    var nRandom := KeptWithLabel(epochs.labels, epochs.dropLog, "random");
    var nRegular := KeptWithLabel(epochs.labels, epochs.dropLog, "regular");

    var clean := epochs.Copy();
    var verdicts := dropBad(reject, flat);
    clean.DropBad(verdicts);
    var nRandomClean := KeptWithLabel(clean.labels, clean.dropLog, "random");
    var nRegularClean := KeptWithLabel(clean.labels, clean.dropLog, "regular");

    var nEpochsAfter := KeptCount(clean.dropLog);
    var nRejected := nEpochsBefore as int - nEpochsAfter as int;
    var rate := RejectionRate(nRejected, nEpochsBefore);

    DropNeverAddsEpochs(epochs.labels, epochs.dropLog, verdicts, "random");
    DropNeverAddsEpochs(epochs.labels, epochs.dropLog, verdicts, "regular");
    RejectionRateBounds(nRejected, nEpochsBefore);
    if forall i :: 0 <= i < |epochs.labels| ==> epochs.labels[i] == "random" || epochs.labels[i] == "regular" {
      KeptSplitsByCondition(epochs.labels, epochs.dropLog);
      KeptSplitsByCondition(clean.labels, clean.dropLog);
    }

    var log := RejectLog(nEpochsBefore, nEpochsAfter, nRegular, nRandom, nRejected,
                         nRandom - nRandomClean, nRegular - nRegularClean, rate,
                         reject, flat, clean.dropLog);
    warning := verbose && rate > HighRejectionRate;
    r := Ok((clean, log));
  }

  /** A drop log entry that names the channels responsible. */
  predicate ChannelRejected(reasons: seq<string>) {
    reasons != [] && reasons != [UserReason]
  }

  /** The summary `get_rejection_summary` builds. */
  datatype Summary = Summary(kept: seq<nat>, rejectedByChannel: map<string, seq<nat>>, userRejected: seq<nat>)

  ghost predicate Ascending(s: seq<nat>) {
    forall j, l :: 0 <= j < l < |s| ==> s[j] < s[l]
  }

  ghost predicate NonDecreasing(s: seq<nat>) {
    forall j, l :: 0 <= j < l < |s| ==> s[j] <= s[l]
  }

  /** Appends `idx` to the bucket of every channel in `reasons`, in order,
      creating missing buckets. */
  method AddToBuckets(byChannel: map<string, seq<nat>>, reasons: seq<string>, idx: nat)
    returns (m: map<string, seq<nat>>)
    requires forall ch :: ch in byChannel ==> forall j :: 0 <= j < |byChannel[ch]| ==> byChannel[ch][j] <= idx
    requires forall ch :: ch in byChannel ==> NonDecreasing(byChannel[ch])
    ensures forall ch :: ch in m <==> ch in byChannel || ch in reasons
    ensures forall ch, i :: ch in m ==>
      (i in m[ch] <==> (ch in byChannel && i in byChannel[ch]) || (i == idx && ch in reasons))
    ensures forall ch :: ch in m ==> forall j :: 0 <= j < |m[ch]| ==> m[ch][j] <= idx
    ensures forall ch :: ch in m ==> NonDecreasing(m[ch])
  {
    m := byChannel;
    for k := 0 to |reasons|
      invariant forall ch :: ch in m <==> ch in byChannel || ch in reasons[..k]
      invariant forall ch, i :: ch in m ==>
        (i in m[ch] <==> (ch in byChannel && i in byChannel[ch]) || (i == idx && ch in reasons[..k]))
      invariant forall ch :: ch in m ==> forall j :: 0 <= j < |m[ch]| ==> m[ch][j] <= idx
      invariant forall ch :: ch in m ==> NonDecreasing(m[ch])
    {
      var channel := reasons[k];
      assert reasons[..k + 1] == reasons[..k] + [channel];
      if channel !in m {
        m := m[channel := []];
      }
      m := m[channel := m[channel] + [idx]];
    }
    assert reasons[..|reasons|] == reasons;
  }

  /** `get_rejection_summary`: every epoch index lands in exactly one place
      — kept, rejected by the user, or under each channel its drop reason
      names — and every list is in index order. */
  method GetRejectionSummary(dropLog: seq<seq<string>>) returns (s: Summary)
    ensures forall i: nat :: i in s.kept <==> i < |dropLog| && dropLog[i] == []
    ensures forall i: nat :: i in s.userRejected <==> i < |dropLog| && dropLog[i] == [UserReason]
    ensures forall ch :: ch in s.rejectedByChannel <==>
      exists i :: 0 <= i < |dropLog| && ChannelRejected(dropLog[i]) && ch in dropLog[i]
    ensures forall ch, i: nat :: ch in s.rejectedByChannel ==>
      (i in s.rejectedByChannel[ch] <==> i < |dropLog| && ChannelRejected(dropLog[i]) && ch in dropLog[i])
    ensures Ascending(s.kept) && Ascending(s.userRejected)
    ensures forall ch :: ch in s.rejectedByChannel ==> NonDecreasing(s.rejectedByChannel[ch])
  {
    var kept: seq<nat> := [];
    var byChannel: map<string, seq<nat>> := map[];
    var userRejected: seq<nat> := [];
    for idx := 0 to |dropLog|
      invariant forall i: nat :: i in kept <==> i < idx && dropLog[i] == []
      invariant forall i: nat :: i in userRejected <==> i < idx && dropLog[i] == [UserReason]
      invariant forall ch :: ch in byChannel <==>
        exists i :: 0 <= i < idx && ChannelRejected(dropLog[i]) && ch in dropLog[i]
      invariant forall ch, i: nat :: ch in byChannel ==>
        (i in byChannel[ch] <==> i < idx && ChannelRejected(dropLog[i]) && ch in dropLog[i])
      invariant forall j :: 0 <= j < |kept| ==> kept[j] < idx
      invariant forall j :: 0 <= j < |userRejected| ==> userRejected[j] < idx
      invariant forall ch :: ch in byChannel ==> forall j :: 0 <= j < |byChannel[ch]| ==> byChannel[ch][j] < idx
      invariant Ascending(kept) && Ascending(userRejected)
      invariant forall ch :: ch in byChannel ==> NonDecreasing(byChannel[ch])
    {
      var reasons := dropLog[idx];
      if |reasons| == 0 {
        kept := kept + [idx];
      } else if reasons == [UserReason] {
        userRejected := userRejected + [idx];
      } else {
        var old_byChannel := byChannel;
        byChannel := AddToBuckets(byChannel, reasons, idx);
        forall ch | ch in byChannel
          ensures ch in old_byChannel || ch in reasons
        {
        }
      }
    }
    s := Summary(kept, byChannel, userRejected);
  }
}
