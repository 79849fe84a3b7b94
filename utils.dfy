/** The aggregation helpers of `src/utils.py`: zero-padded subject IDs, the
    subject ID in an epochs file name, the grand average of one channel
    over subjects, and the element-wise mean of two lists. */
module Utils {
  import opened Wrappers
  import opened Text
  import opened Stats

  predicate IsDigit(c: char) {
    '0' <= c <= '9'
  }

  predicate AllDigits(s: string) {
    forall i :: 0 <= i < |s| ==> IsDigit(s[i])
  }

  function DigitValue(c: char): nat
    requires IsDigit(c)
  {
    c as int - '0' as int
  }

  function DigitChar(d: nat): (c: char)
    requires d < 10
    ensures IsDigit(c) && DigitValue(c) == d
  {
    ('0' as int + d) as char
  }

  /** The value of a string of decimal digits; leading zeros allowed. */
  function DigitsToNat(s: string): nat
    requires AllDigits(s)
  {
    if |s| == 0 then 0 else DigitsToNat(s[..|s| - 1]) * 10 + DigitValue(s[|s| - 1])
  }

  /** The decimal digits of `n`, without leading zeros. */
  function NatToDigits(n: nat): (s: string)
    ensures AllDigits(s) && |s| >= 1
  {
    if n < 10 then [DigitChar(n)] else NatToDigits(n / 10) + [DigitChar(n % 10)]
  }

  lemma {:induction false} DigitsRoundTrip(n: nat)
    ensures DigitsToNat(NatToDigits(n)) == n
  {
    if n >= 10 {
      var s := NatToDigits(n);
      assert s[..|s| - 1] == NatToDigits(n / 10);
      DigitsRoundTrip(n / 10);
    }
  }

  function Zeros(k: nat): (z: string)
    ensures |z| == k && AllDigits(z)
  {
    seq(k, _ => '0')
  }

  /** Leading zeros do not change the value. */
  lemma {:induction false} LeadingZeros(k: nat, s: string)
    requires AllDigits(s)
    ensures DigitsToNat(Zeros(k) + s) == DigitsToNat(s)
  {
    if |s| == 0 {
      assert Zeros(k) + s == Zeros(k);
      ZerosValue(k);
    } else {
      var n := |s| - 1;
      assert (Zeros(k) + s)[..k + n] == Zeros(k) + s[..n];
      LeadingZeros(k, s[..n]);
    }
  }

  lemma {:induction false} ZerosValue(k: nat)
    ensures DigitsToNat(Zeros(k)) == 0
  {
    if k > 0 {
      assert Zeros(k)[..k - 1] == Zeros(k - 1);
      ZerosValue(k - 1);
    }
  }

  /** `int(s)` on a subject label: an optional sign followed by ASCII
      digits; anything else raises ValueError. */
  function ParseInt(s: string): Result<int> {
    if |s| > 0 && (s[0] == '-' || s[0] == '+') then
      if |s| > 1 && AllDigits(s[1..]) then
        Ok(if s[0] == '-' then -(DigitsToNat(s[1..]) as int) else DigitsToNat(s[1..]))
      else Err("ValueError: invalid literal for int()")
    else if |s| > 0 && AllDigits(s) then Ok(DigitsToNat(s))
    else Err("ValueError: invalid literal for int()")
  }

  /** `s` left-padded with zeros to `width` characters. */
  function ZeroPad(s: string, width: nat): (r: string)
    ensures |r| == if |s| < width then width else |s|
  {
    Zeros(if |s| < width then width - |s| else 0) + s
  }

  /** `f"{n:03d}"`: at least three characters, zero-padded after the sign. */
  function Format03(n: int): string {
    if n >= 0 then ZeroPad(NatToDigits(n), 3) else "-" + ZeroPad(NatToDigits(-n), 2)
  }

  /** Reading back a formatted ID gives the number it was made from. */
  lemma ParseFormatRoundTrip(n: int)
    ensures ParseInt(Format03(n)) == Ok(n)
  {
    var m: nat := if n >= 0 then n else -n;
    var d := NatToDigits(m);
    var w := if n >= 0 then 3 else 2;
    var k := if |d| < w then w - |d| else 0;
    var t := Zeros(k) + d;
    assert ZeroPad(d, w) == t;
    DigitsConcat(Zeros(k), d);
    LeadingZeros(k, d);
    DigitsRoundTrip(m);
    assert DigitsToNat(t) == m;
    if n >= 0 {
      assert Format03(n) == t;
      assert IsDigit(t[0]);
    } else {
      assert Format03(n) == "-" + t;
      assert ("-" + t)[1..] == t;
    }
  }

  lemma DigitsConcat(a: string, b: string)
    requires AllDigits(a) && AllDigits(b)
    ensures AllDigits(a + b)
  {
    forall i | 0 <= i < |a + b| ensures IsDigit((a + b)[i]) {
      if i < |a| {
        assert (a + b)[i] == a[i];
      } else {
        assert (a + b)[i] == b[i - |a|];
      }
    }
  }

  /** Distinct subject numbers get distinct padded IDs. */
  lemma Format03Injective(a: int, b: int)
    requires Format03(a) == Format03(b)
    ensures a == b
  {
    ParseFormatRoundTrip(a);
    ParseFormatRoundTrip(b);
  }

  /** IDs of the numbers 0 to 999 are exactly three digits; larger ones are
      written in full. */
  lemma Format03Width(n: nat)
    ensures |Format03(n)| == if n < 1000 then 3 else |NatToDigits(n)|
  {
    if n >= 1000 {
      NatToDigitsLength(n);
    } else if n >= 100 {
      assert NatToDigits(n) == NatToDigits(n / 10) + [DigitChar(n % 10)];
      assert NatToDigits(n / 10) == NatToDigits(n / 100) + [DigitChar(n / 10 % 10)];
    } else if n >= 10 {
      assert NatToDigits(n) == NatToDigits(n / 10) + [DigitChar(n % 10)];
    }
  }

  lemma {:induction false} NatToDigitsLength(n: nat)
    requires n >= 1000
    ensures |NatToDigits(n)| >= 4
  {
    if n >= 10000 {
      NatToDigitsLength(n / 10);
    } else {
      assert |NatToDigits(n / 10)| >= 3 by {
        assert |NatToDigits(n / 100)| >= 2 by {
          assert n / 100 >= 10;
          assert |NatToDigits(n / 1000)| >= 1;
        }
      }
    }
  }

  /** `get_subjectlist`, given the subject labels the dataset lists: each
      label read as an integer and written back with at least three digits;
      the first label that is not an integer raises ValueError. */
  function GetSubjectList(labels: seq<string>): (r: Result<seq<string>>)
    ensures r.Ok? <==> forall i :: 0 <= i < |labels| ==> ParseInt(labels[i]).Ok?
    ensures r.Ok? ==> (|r.value| == |labels|
      && forall i :: 0 <= i < |labels| ==> r.value[i] == Format03(ParseInt(labels[i]).value))
  {
    if |labels| == 0 then Ok([])
    else
      var n := |labels| - 1;
      match GetSubjectList(labels[..n])
      case Err(e) => Err(e)
      case Ok(init) =>
        match ParseInt(labels[n])
        case Err(e) => Err(e)
        case Ok(v) => Ok(init + [Format03(v)])
  }

  /** Padded IDs read back to the numbers the labels denote: "1", "01" and
      "001" all become "001" and all read back as 1. */
  lemma SubjectListReadsBack(labels: seq<string>, i: nat)
    requires GetSubjectList(labels).Ok? && i < |labels|
    ensures ParseInt(GetSubjectList(labels).value[i]) == ParseInt(labels[i])
  {
    ParseFormatRoundTrip(ParseInt(labels[i]).value);
  }

  /** `s.split(sep)[0]`: the text before the first occurrence of `sep`, or
      all of `s` when there is none. */
  function BeforeFirst(s: string, sep: string): (r: string)
    requires |sep| > 0
    ensures StartsWith(s, r)
    ensures |r| == |s| || OccursAt(s, sep, |r|)
    ensures forall j :: 0 <= j < |r| ==> !OccursAt(s, sep, j)
  {
    if |s| < |sep| then s
    else if s[..|sep|] == sep then []
    else
      var t := BeforeFirst(s[1..], sep);
      forall j | 1 <= j <= |s| ensures OccursAt(s, sep, j) <==> OccursAt(s[1..], sep, j - 1) {
        OccursInTail(s, sep, j);
      }
      assert s[..|t| + 1] == [s[0]] + s[1..][..|t|];
      [s[0]] + t
  }

  /** An occurrence past the first character is an occurrence in the tail. */
  lemma OccursInTail(s: string, sub: string, j: int)
    requires 1 <= j && |s| > 0
    ensures OccursAt(s, sub, j) <==> OccursAt(s[1..], sub, j - 1)
  {
    if j + |sub| <= |s| {
      assert s[j..j + |sub|] == s[1..][j - 1..j - 1 + |sub|];
    }
  }

  /** `s.split(sep)[-1]`: the text after the last occurrence of `sep`, or
      all of `s` when there is none. (Python's split scans for
      non-overlapping occurrences from the left; for a separator that cannot
      overlap itself, such as "sub-", its last piece starts after the last
      occurrence.) */
  function AfterLast(s: string, sep: string): string
    requires |sep| > 0
  {
    s[LastEnd(s, sep, |s|)..]
  }

  /** AfterLast is a suffix of `s` that starts right after an occurrence of
      `sep` (or is all of `s`), and no occurrence starts later. */
  lemma AfterLastSpec(s: string, sep: string)
    requires |sep| > 0
    ensures var r := AfterLast(s, sep);
      && |r| <= |s| && s[|s| - |r|..] == r
      && (|r| == |s| || OccursAt(s, sep, |s| - |r| - |sep|))
      && forall j :: |s| - |r| - |sep| < j ==> !OccursAt(s, sep, j)
  {
    var e := LastEnd(s, sep, |s|);
    forall j | e - |sep| < j ensures !OccursAt(s, sep, j) {
      if j + |sep| > |s| {
        assert !OccursAt(s, sep, j);
      }
    }
  }

  /** Where the last occurrence of `sep` ending within the first `n`
      characters ends; 0 when there is none. */
  function LastEnd(s: string, sep: string, n: nat): (e: nat)
    requires |sep| > 0 && n <= |s|
    ensures e <= n
    ensures e == 0 || (|sep| <= e && OccursAt(s, sep, e - |sep|))
    ensures forall j :: e - |sep| < j && j + |sep| <= n ==> !OccursAt(s, sep, j)
  {
    if n < |sep| then 0
    else if OccursAt(s, sep, n - |sep|) then n
    else LastEnd(s, sep, n - 1)
  }

  /** `fpath.split("sub-")[-1].split("_epochs")[0]`. */
  function ParseSubjectId(path: string): string {
    BeforeFirst(AfterLast(path, "sub-"), "_epochs")
  }

  /** Text after a separator whose last character never occurs in it is
      what AfterLast returns. */
  lemma AfterLastOfSuffix(prefix: string, sep: string, rest: string)
    requires |sep| > 0 && sep[|sep| - 1] !in rest
    ensures AfterLast(prefix + sep + rest, sep) == rest
  {
    var s := prefix + sep + rest;
    var r := AfterLast(s, sep);
    AfterLastSpec(s, sep);
    assert OccursAt(s, sep, |prefix|) by {
      assert s[|prefix|..|prefix| + |sep|] == sep;
    }
    assert |r| == |rest|;
  }

  /** Text whose characters do not include the separator's first character,
      followed by the separator, is what BeforeFirst returns. */
  lemma BeforeFirstOfPrefix(head: string, sep: string, tail: string)
    requires |sep| > 0 && sep[0] !in head
    ensures BeforeFirst(head + sep + tail, sep) == head
  {
    var s := head + sep + tail;
    var r := BeforeFirst(s, sep);
    assert OccursAt(s, sep, |head|) by {
      assert s[|head|..|head| + |sep|] == sep;
    }
    assert |r| == |head|;
    assert s[..|head|] == head;
  }

  /** The subject ID of a processed epochs file, `<dir>sub-<id>_epochs.fif`,
      is `<id>` whenever the ID has no '-' and no '_' (the zero-padded
      numbers produced above, for instance). */
  lemma ParseSubjectIdOfFileName(dir: string, id: string)
    requires '-' !in id && '_' !in id
    ensures ParseSubjectId(dir + "sub-" + id + "_epochs.fif") == id
  {
    var rest := id + "_epochs.fif";
    FileNameParts(dir, id);
    AfterLastOfSuffix(dir, "sub-", rest);
    BeforeFirstOfPrefix(id, "_epochs", ".fif");
  }

  lemma FileNameParts(dir: string, id: string)
    requires '-' !in id
    ensures dir + "sub-" + id + "_epochs.fif" == dir + "sub-" + (id + "_epochs.fif")
    ensures "sub-"[3] !in id + "_epochs.fif"
    ensures "_epochs"[0] == '_'
    ensures id + "_epochs.fif" == id + "_epochs" + ".fif"
  {
    assert '-' !in "_epochs.fif";
  }

  /** One processed epochs file, as far as the grand average sees it: the
      channel names and, per condition, the evoked (trial-averaged) signal
      of every channel, on the file's time axis. */
  datatype SubjectFile = SubjectFile(
    path: string,
    chNames: seq<string>,
    random: seq<seq<real>>,
    regular: seq<seq<real>>,
    times: seq<real>)

  /** Every evoked array has one row per channel. */
  predicate Shaped(f: SubjectFile) {
    |f.random| == |f.chNames| && |f.regular| == |f.chNames|
  }

  /** Entry `t` of a row; NumPy refuses ragged arrays, here a missing entry
      reads as 0. */
  function At(row: seq<real>, t: nat): real {
    if t < |row| then row[t] else 0.0
  }

  /** Row `c` of an array, empty past its end. */
  function RowOf(rows: seq<seq<real>>, c: nat): seq<real> {
    if c < |rows| then rows[c] else []
  }

  /** `mne.combine_evoked([regular, random], weights=[1, -1])`: channel by
      channel and time point by time point, regular minus random. */
  function Difference(f: SubjectFile): (d: seq<seq<real>>)
    ensures |d| == |f.chNames|
  {
    seq(|f.chNames|, c requires 0 <= c < |f.chNames| =>
      RowDifference(RowOf(f.regular, c), RowOf(f.random, c), |f.times|))
  }

  /** `a - b` over the first `n` time points. */
  function RowDifference(a: seq<real>, b: seq<real>, n: nat): (d: seq<real>)
    ensures |d| == n
  {
    seq(n, t requires 0 <= t < n => At(a, t) - At(b, t))
  }

  /** The subjects that have the channel, in file order. */
  function Included(files: seq<SubjectFile>, channel: string): (inc: seq<SubjectFile>)
    ensures |inc| <= |files|
  {
    if |files| == 0 then []
    else
      var n := |files| - 1;
      Included(files[..n], channel) + (if channel in files[n].chNames then [files[n]] else [])
  }

  /** The included subjects are the files that have the channel. */
  lemma {:induction false} IncludedMembers(files: seq<SubjectFile>, channel: string)
    ensures forall f :: f in Included(files, channel) <==> f in files && channel in f.chNames
  {
    if |files| > 0 {
      var n := |files| - 1;
      IncludedMembers(files[..n], channel);
      assert files == files[..n] + [files[n]];
    }
  }

  /** The IDs of the subjects skipped for lacking the channel, in file order. */
  function SkippedIds(files: seq<SubjectFile>, channel: string): (ids: seq<string>)
    ensures |ids| + |Included(files, channel)| == |files|
  {
    if |files| == 0 then []
    else
      var n := |files| - 1;
      SkippedIds(files[..n], channel)
        + (if channel in files[n].chNames then [] else [ParseSubjectId(files[n].path)])
  }

  /** The signal of `channel` in one condition of one subject (nothing when
      the subject lacks the channel). */
  function ChannelRow(f: SubjectFile, channel: string, random: bool): seq<real> {
    if channel in f.chNames then
      RowOf(if random then f.random else f.regular, IndexOf(f.chNames, channel))
    else []
  }

  lemma ChannelRowOf(f: SubjectFile, channel: string)
    requires Shaped(f) && channel in f.chNames
    ensures IndexOf(f.chNames, channel) < |f.random| && IndexOf(f.chNames, channel) < |f.regular|
    ensures ChannelRow(f, channel, true) == f.random[IndexOf(f.chNames, channel)]
    ensures ChannelRow(f, channel, false) == f.regular[IndexOf(f.chNames, channel)]
  {
  }

  /** The signal of `channel` in one condition of every subject that has
      the channel, in file order. */
  function IncludedRows(files: seq<SubjectFile>, channel: string, random: bool): (rows: seq<seq<real>>)
    ensures |rows| == |Included(files, channel)|
  {
    if |files| == 0 then []
    else
      var n := |files| - 1;
      IncludedRows(files[..n], channel, random)
        + (if channel in files[n].chNames then [ChannelRow(files[n], channel, random)] else [])
  }

  /** Column `t` of a list of rows. */
  function ColumnOf(rows: seq<seq<real>>, t: nat): (c: seq<real>)
    ensures |c| == |rows|
  {
    seq(|rows|, k requires 0 <= k < |rows| => At(rows[k], t))
  }

  /** `np.mean(np.array(rows), axis=0)`: the mean of every column. */
  function ElementwiseMean(rows: seq<seq<real>>, n: nat): (m: seq<real>)
    ensures |m| == n
  {
    seq(n, t requires 0 <= t < n => Mean(ColumnOf(rows, t)))
  }

  /** The element-wise mean of two lists. */
  function PairwiseMean(a: seq<real>, b: seq<real>): (r: seq<real>)
    requires |a| == |b|
    ensures |r| == |a|
  {
    seq(|a|, i requires 0 <= i < |a| => (a[i] + b[i]) / 2.0)
  }

  /** `pairwise_average`: the lists must have the same length. */
  method PairwiseAverage(arr1: seq<real>, arr2: seq<real>) returns (result: seq<real>)
    requires |arr1| == |arr2|
    ensures |result| == |arr1|
    ensures forall i :: 0 <= i < |arr1| ==> result[i] == (arr1[i] + arr2[i]) / 2.0
  {
    result := [];
    for i := 0 to |arr1|
      invariant |result| == i
      invariant forall j :: 0 <= j < i ==> result[j] == (arr1[j] + arr2[j]) / 2.0
    {
      result := result + [(arr1[i] + arr2[i]) / 2.0];
    }
  }

  /** The pairwise average does not depend on the order of its arguments. */
  lemma PairwiseMeanSymmetric(a: seq<real>, b: seq<real>)
    requires |a| == |b|
    ensures PairwiseMean(a, b) == PairwiseMean(b, a)
  {
  }

  /** The pairwise average is the grand mean of two rows. */
  lemma PairwiseMeanIsGrandMean(a: seq<real>, b: seq<real>)
    requires |a| == |b|
    ensures ElementwiseMean([a, b], |a|) == PairwiseMean(a, b)
  {
    forall t | 0 <= t < |a|
      ensures ElementwiseMean([a, b], |a|)[t] == (a[t] + b[t]) / 2.0
    {
      var c := ColumnOf([a, b], t);
      assert c == [a[t], b[t]];
      assert c[..1] == [a[t]];
      assert c[..1][..0] == [];
      assert Sum(c[..1]) == a[t];
      assert Sum(c) == Sum(c[..1]) + b[t];
    }
  }

  /** The grand average of one subject is that subject's signal. */
  lemma GrandMeanOfOne(a: seq<real>)
    ensures ElementwiseMean([a], |a|) == a
  {
    forall t | 0 <= t < |a|
      ensures ElementwiseMean([a], |a|)[t] == a[t]
    {
      var c := ColumnOf([a], t);
      assert c == [a[t]];
      assert c[..0] == [];
      assert Sum(c) == a[t];
    }
  }

  /** What `average_channel` returns: nothing (`None, None, None`), or the
      grand averages in microvolts, the time axis, the subject count and
      the regular-minus-random evoked difference of the last subject. */
  datatype Average =
    | NoData
    | Average(random: seq<real>, regular: seq<real>, times: seq<real>, nSubjects: nat, diff: seq<seq<real>>)

  /** Volts to microvolts. */
  const MicroVolts: real := 1000000.0

  /** The last subject that has the channel, if any. */
  function LastIncluded(files: seq<SubjectFile>, channel: string): Option<SubjectFile> {
    if |files| == 0 then None
    else if channel in files[|files| - 1].chNames then Some(files[|files| - 1])
    else LastIncluded(files[..|files| - 1], channel)
  }

  /** The last subject with the channel is the last included subject. */
  lemma {:induction false} LastIncludedIsLast(files: seq<SubjectFile>, channel: string)
    ensures LastIncluded(files, channel).Some? <==> |Included(files, channel)| > 0
    ensures LastIncluded(files, channel).Some? ==>
      LastIncluded(files, channel).value == Included(files, channel)[|Included(files, channel)| - 1]
  {
    if |files| > 0 {
      LastIncludedIsLast(files[..|files| - 1], channel);
    }
  }

  /** The grand average the program computes from the included subjects:
      nothing when there are none, and otherwise the mean over subjects of
      each time point, in microvolts, on the time axis of the last one. */
  function GrandAverage(files: seq<SubjectFile>, channel: string): Average {
    match LastIncluded(files, channel)
    case None => NoData
    case Some(last) =>
      var n := |last.times|;
      Average(
        Scale(ElementwiseMean(IncludedRows(files, channel, true), n), MicroVolts),
        Scale(ElementwiseMean(IncludedRows(files, channel, false), n), MicroVolts),
        last.times, |Included(files, channel)|, Difference(last))
  }

  lemma IncludedStep(files: seq<SubjectFile>, k: nat, channel: string)
    requires k < |files|
    ensures SkippedIds(files[..k + 1], channel)
      == SkippedIds(files[..k], channel) + (if channel in files[k].chNames then [] else [ParseSubjectId(files[k].path)])
    ensures LastIncluded(files[..k + 1], channel)
      == if channel in files[k].chNames then Some(files[k]) else LastIncluded(files[..k], channel)
    ensures IncludedRows(files[..k + 1], channel, true) == IncludedRows(files[..k], channel, true)
      + (if channel in files[k].chNames then [ChannelRow(files[k], channel, true)] else [])
    ensures IncludedRows(files[..k + 1], channel, false) == IncludedRows(files[..k], channel, false)
      + (if channel in files[k].chNames then [ChannelRow(files[k], channel, false)] else [])
  {
    assert files[..k + 1][..k] == files[..k];
  }

  /** The loop of `average_channel`: walks the files in order, reporting
      the subjects without the channel and collecting the evoked signal of
      every other one, with the time axis and difference of the last. */
  method CollectEvokeds(channel: string, files: seq<SubjectFile>)
    returns (skipped: seq<string>, evokedsRandom: seq<seq<real>>, evokedsRegular: seq<seq<real>>,
             times: seq<real>, diff: seq<seq<real>>)
    requires forall k :: 0 <= k < |files| ==> Shaped(files[k])
    ensures skipped == SkippedIds(files, channel)
    ensures evokedsRandom == IncludedRows(files, channel, true)
    ensures evokedsRegular == IncludedRows(files, channel, false)
    ensures LastIncluded(files, channel).Some? ==>
      var last := LastIncluded(files, channel).value;
      times == last.times && diff == Difference(last)
  {
    skipped, evokedsRandom, evokedsRegular, times, diff := [], [], [], [], [];
    for k := 0 to |files|
      invariant skipped == SkippedIds(files[..k], channel)
      invariant evokedsRandom == IncludedRows(files[..k], channel, true)
      invariant evokedsRegular == IncludedRows(files[..k], channel, false)
      invariant LastIncluded(files[..k], channel).Some? ==>
        var last := LastIncluded(files[..k], channel).value;
        times == last.times && diff == Difference(last)
    {
      IncludedStep(files, k, channel);
      var f := files[k];
      var subjectId := ParseSubjectId(f.path);
      if channel !in f.chNames {
        skipped := skipped + [subjectId];
        continue;
      }
      var evokedDiff := Difference(f);
      var channelIdx := IndexOf(f.chNames, channel);
      ChannelRowOf(f, channel);
      evokedsRandom := evokedsRandom + [f.random[channelIdx]];
      evokedsRegular := evokedsRegular + [f.regular[channelIdx]];
      times := f.times;
      diff := evokedDiff;
    }
    assert files[..|files|] == files;
  }

  /** `average_channel`, given the processed epochs files in the order the
      program visits them (sorted by path). Files without the channel are
      skipped and reported in `skipped` by subject ID; the others each add
      their evoked signal of the channel to the grand mean. */
  method AverageChannel(channel: string, files: seq<SubjectFile>) returns (r: Average, skipped: seq<string>)
    requires forall k :: 0 <= k < |files| ==> Shaped(files[k])
    ensures skipped == SkippedIds(files, channel)
    ensures r == GrandAverage(files, channel)
  {
    var evokedsRandom, evokedsRegular, times, diff;
    skipped, evokedsRandom, evokedsRegular, times, diff := CollectEvokeds(channel, files);
    LastIncludedIsLast(files, channel);
    if |evokedsRandom| == 0 {
      return NoData, skipped;
    }
    var n := |times|;
    var dataRandom := Scale(ElementwiseMean(evokedsRandom, n), MicroVolts);
    var dataRegular := Scale(ElementwiseMean(evokedsRegular, n), MicroVolts);
    r := Average(dataRandom, dataRegular, times, |evokedsRandom|, diff);
  }

  /** No subject has the channel exactly when nothing is returned, and
      otherwise every subject not skipped is counted once. */
  lemma GrandAverageCounts(files: seq<SubjectFile>, channel: string)
    ensures GrandAverage(files, channel).NoData? <==> forall f :: f in files ==> channel !in f.chNames
    ensures GrandAverage(files, channel).Average? ==>
      GrandAverage(files, channel).nSubjects == |files| - |SkippedIds(files, channel)|
  {
    IncludedMembers(files, channel);
    LastIncludedIsLast(files, channel);
    var inc := Included(files, channel);
    if |inc| > 0 {
      assert inc[0] in inc;
    }
  }

  /** A subject lacking the channel changes nothing about the average:
      removing it from the list leaves the included subjects as they were. */
  lemma {:induction false} SkippingIgnoresSubject(files: seq<SubjectFile>, k: nat, channel: string)
    requires k < |files| && channel !in files[k].chNames
    ensures Included(files, channel) == Included(files[..k] + files[k + 1..], channel)
  {
    var n := |files| - 1;
    if k == n {
      assert files[..k] + files[k + 1..] == files[..n];
    } else {
      assert (files[..k] + files[k + 1..])[..n - 1] == files[..n][..k] + files[..n][k + 1..];
      SkippingIgnoresSubject(files[..n], k, channel);
    }
  }

  /** A single subject's grand average is its own signal in microvolts. */
  lemma AverageOfOneSubject(f: SubjectFile, channel: string)
    requires channel in f.chNames && Shaped(f)
    requires forall c :: 0 <= c < |f.chNames| ==> |f.random[c]| == |f.times| && |f.regular[c]| == |f.times|
    ensures var a := GrandAverage([f], channel);
      && a.Average? && a.nSubjects == 1
      && a.random == Scale(f.random[IndexOf(f.chNames, channel)], MicroVolts)
      && a.regular == Scale(f.regular[IndexOf(f.chNames, channel)], MicroVolts)
  {
    assert [f][..0] == [];
    assert Included([f], channel) == [f];
    assert IncludedRows([f], channel, true) == [ChannelRow(f, channel, true)];
    assert IncludedRows([f], channel, false) == [ChannelRow(f, channel, false)];
    GrandMeanOfOne(ChannelRow(f, channel, true));
    GrandMeanOfOne(ChannelRow(f, channel, false));
  }
}
