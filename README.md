# EEG preprocessing pipeline — decision and bookkeeping core

This project models the logic that an EEG preprocessing pipeline wraps around
its signal-processing library, and proves properties of that logic. The
pipeline reads a BIDS dataset, marks bad channels, removes eye and heart
artefacts with ICA, cuts epochs around "regular" and "random" stimuli,
rejects noisy trials, and averages one channel over subjects.

The library's numerical results are inputs to the model:

- variances and the channel-by-channel correlation matrix;
- ICA component indices, or `None` when the library raises;
- the per-epoch verdicts of `drop_bad`;
- per-subject evoked signals.

The library's in-place effects on the samples are kept as an ordered log of
transforms (`IcaApplied`, `BadsInterpolated`) on the recording.

Modules:

- `Signals` holds the two objects the pipeline changes in place.
  - `Recording` stands for MNE's `Raw`: channel names and types, sample rows, `bads`, annotations, montage and the transform log.
  - `Epochs` holds labels, the drop log, the time axis and the samples.
- `EventAnnotations` (`src/annotations.py`) and `Epoching` (`src/step09_epoching.py`) cover two things:
  - translating an events table into annotations with the code map 1 → "regular", 3 → "random", anything else → "event";
  - the epoch window, from -0.5 s to 1.0 s, and baseline correction, which lives in `Baseline`.
- `BadChannels` (`src/step02_badchannels.py`) covers bad-channel marking:
  - the pick filter;
  - the two-sided variance z-score test and the one-sided low median-correlation test, both at 3.0;
  - their sorted, duplicate-free union, appended to `bads`.
- `IcaStep` (`src/step07_ica.py`) covers component exclusion:
  - the guard of at least two good EEG channels;
  - the choice of eye channel: type "eog", else an "EXG" prefix;
  - the |correlation| > 0.3 fallback;
  - the sorted union of eye and heart components and its count.
- `IcaInterpolate` (`src/ica.py`) covers two functions:
  - `_ensure_eog_channels`: eye channels found by name, otherwise one virtual HEOG/VEOG channel built from frontal electrode pairs;
  - `run_ica_and_interpolate`.
- `TrialRejection` (`src/step10_trialrejection.py`) covers:
  - the criteria dictionaries;
  - the before/after and per-condition counts;
  - the guarded rejection rate and the warning;
  - the partition of the drop log into kept, user-rejected and per-channel buckets.
- `Utils` (`src/utils.py`) covers:
  - zero-padded subject IDs;
  - parsing the subject ID out of a file name;
  - the grand average over subjects that have the channel;
  - `pairwise_average`.
- Helper modules:
  - `Wrappers`: `Option`, `Result`;
  - `Text`: ASCII case mapping, prefixes, substrings, code-point order;
  - `Ordering`: `sorted(set(...))` for a strict total order;
  - `Stats`: sum, mean, variance, median over `real`.

## Model

| member | source | states |
|---|---|---|
| EventAnnotations.DescriptionCases | src/annotations.py:13-18 | the label is "regular" exactly for code 1, "random" exactly for code 3 and "event" for every other integer |
| EventAnnotations.FromEventsConcat | src/annotations.py:17-20 | translation works row by row: translating two tables one after the other gives the concatenation of their annotations, so output order follows input order |
| EventAnnotations.LoadEventsFromBids | src/annotations.py:4-20 | one annotation per row; the i-th onset is the i-th row's onset, its duration is 0.0 and its label is the i-th row's code translated; the result equals the reference translation `FromEvents` |
| EventAnnotations.LoadAndAttachAnnotations | src/annotations.py:23-26 | the recording's annotations become exactly the translated table; channels, samples, bads, montage and transforms are unchanged |
| Epoching.LoadEventsFromBids | src/step09_epoching.py:38-54 | same per-row facts as in annotations.py, and the same result `FromEvents(rows)`, so both copies of the translation agree on every table |
| Epoching.LoadAndAttachAnnotations | src/step09_epoching.py:28-35 | returns the same recording object, whose annotations are now the translated table and whose other state is unchanged |
| Epoching.GenerateEpochs | src/step09_epoching.py:57-71 | a fresh, well-shaped Epochs with the recording's channels, the given window and event ids, every label a key of the event ids, every sample time within [tmin, tmax], and every trial baseline-corrected on the channels of corrected types, the others kept; the baseline window must lie within the epoch's time axis |
| Epoching.EpochData | src/step09_epoching.py:11-25 | annotations are attached and the recording is otherwise unchanged; the returned event table is `EventCodes` of the translated annotations, keyed by their labels; epochs span T_MIN = -0.5 to T_MAX = 1.0 with the recording's channels and the cut's drop log; every trial's label is the label of some row of the events table; the second baseline correction leaves the data as corrected once; in every trial each channel of a data or auxiliary type has mean 0 over the baseline window, and stim, misc and the other uncorrected types keep their samples |
| Epoching.EventCodes | src/step09_epoching.py:19 | `events_from_annotations`' event table has exactly the distinct labels as keys |
| Epoching.EventCodesAreRanks | src/step09_epoching.py:19 | the codes run from 1 to the number of labels and increase with the labels' order, so each label's code is its rank in sorted order |
| Epoching.EventIdsAreRowLabels | src/step09_epoching.py:19 | the event ids derived from the attached annotations are exactly the labels of the table's rows |
| Epoching.TableLabelsAreRowLabels | src/step09_epoching.py:19-21 | labels drawn from the derived event ids are each the label of one of the table's rows |
| Baseline.WindowOfShift | src/step09_epoching.py:23 | shifting a signal by a constant shifts the samples in its baseline window by the same constant |
| Baseline.WindowValuesNonEmpty | src/step09_epoching.py:23 | the baseline window holds samples exactly when some sample time falls within [bmin, bmax] |
| Baseline.BaselineWindowMeanIsZero | src/step09_epoching.py:23 | after baseline correction the mean over the baseline window is 0 |
| Baseline.BaselineIdempotent | src/step09_epoching.py:21-23 | correcting a corrected signal again changes nothing |
| Baseline.BaselineAllPerChannel | src/step09_epoching.py:21-23 | correction works channel by channel: channels of uncorrected types (stim, misc, ...) keep their samples, the others are baseline-corrected |
| Baseline.BaselineAllIdempotent | src/step09_epoching.py:21-23 | over all trials and channels, correcting twice (in the Epochs constructor and by `apply_baseline`) equals correcting once |
| Baseline.BaselineAllWindowMeanIsZero | src/step09_epoching.py:23 | after correction every channel of a data or auxiliary type has zero mean over the baseline window in every trial |
| Signals.Recording.SetAnnotations | src/annotations.py:26 | `set_annotations` replaces the annotations and nothing else |
| Signals.Recording.AddChannel | src/ica.py:36 | `add_channels` appends one named, typed channel with its samples after the others; everything else unchanged |
| Signals.Recording.ApplyIca | src/step07_ica.py:74 | `ica.apply(raw)` logs the exclusion list it applied; channels and bads unchanged |
| Signals.Recording.SetStandardMontage | src/ica.py:89-93 | after `set_montage` electrode positions are available; nothing else changes |
| Signals.Recording.InterpolateBads | src/ica.py:162-163 | `interpolate_bads(reset_bads=False)` logs the bad channels it rebuilt and keeps them marked bad |
| Signals.GoodEeg | src/step07_ica.py:20 | a name is picked exactly when its channel has type "eeg" and is not in `bads` |
| Signals.Epochs.Copy | src/step10_trialrejection.py:65 | `epochs.copy()` is a fresh object with equal contents |
| Signals.Epochs.DropBad | src/step10_trialrejection.py:66 | `drop_bad` records the verdicts of still-kept epochs in the drop log; already dropped epochs keep their reasons; everything else unchanged |
| Signals.Epochs.ApplyBaseline | src/step09_epoching.py:23 | `apply_baseline` baseline-corrects the channels of data and auxiliary types and keeps stim, misc and other uncorrected channels; labels, drop log and times unchanged; accepted only for a window with bmin <= bmax inside the time axis |
| BadChannels.EegPicks | src/step02_badchannels.py:16-22 | exactly the indices of channels of type "eeg" whose upper-cased name does not start with "EXG" and whose name does not start with "Status", ascending |
| BadChannels.AbsZAboveIsZScoreTest | src/step02_badchannels.py:50-54 | the square-root-free variance test holds exactly when the absolute z-score exceeds the threshold, strictly |
| BadChannels.ZBelowIsZScoreTest | src/step02_badchannels.py:66-70 | the square-root-free correlation test holds exactly when the z-score is below minus the threshold, strictly |
| BadChannels.HighCorrelationNeverFlagged | src/step02_badchannels.py:70 | a median correlation at or above the mean is never flagged: the criterion is one-sided |
| BadChannels.AbsZFlagIsOutlier | src/step02_badchannels.py:49-55 | channel i is flagged by the variance criterion exactly when the absolute value of (v[i] - mean) / std is above the threshold t (3.0 in the pipeline), with std² the variance of the variances |
| BadChannels.LowZFlagIsOutlier | src/step02_badchannels.py:64-71 | channel i is flagged by the correlation criterion exactly when (m[i] - mean) / std is below -t (-3.0 in the pipeline), with std² the variance of the medians |
| BadChannels.Select | src/step02_badchannels.py:51-55 | the comprehension keeps exactly the names whose flag is set, no more names than it was given |
| BadChannels.ZScoreBadChannels | src/step02_badchannels.py:45-57 | a name is returned exactly when it is the name of a channel whose variance z-score exceeds the threshold in absolute value |
| BadChannels.CorrelationBadChannels | src/step02_badchannels.py:60-73 | a name is returned exactly when it is the name of a channel whose median-correlation z-score is below minus the threshold |
| BadChannels.SortedUnion | src/step02_badchannels.py:35 | `sorted(set(a + b))`: strictly ascending, so duplicate-free, and containing exactly the names in either list |
| BadChannels.Detected | src/step02_badchannels.py:30-35 | the union is strictly ascending and contains only picked channel names; the correlation list joins it only when no picked channel is flat |
| BadChannels.DetectBadChannels | src/step02_badchannels.py:10-42 | with exactly one picked channel it fails (NumPy's `AxisError` from the median of a 0-d correlation) and `bads` is unchanged; otherwise the recording is returned with `bads` extended by the new bad list, which is empty when nothing is picked; channels, samples and annotations unchanged |
| BadChannels.NewBadsAreFlaggedChannels | src/step02_badchannels.py:16-35 | a channel is appended to `bads` exactly when it is a picked channel that the variance criterion flags among the picked channels, or that the correlation criterion flags while no picked channel is flat (NumPy's NaN correlations otherwise flag nothing) |
| BadChannels.FlatChannelSilencesCorrelation | src/step02_badchannels.py:64-70 | when some picked channel has variance 0, a channel is appended exactly when the variance criterion flags it |
| BadChannels.DetectedIsFlagged | src/step02_badchannels.py:30-35 | for any picks, the sorted union holds a name exactly when a picked channel bears it and the variance criterion flags it, or the correlation criterion does while no picked channel is flat |
| BadChannels.NewBadIsPicked | src/step02_badchannels.py:16-35 | every channel appended to `bads` is a pickable channel of the recording |
| BadChannels.NewBadsArePickedChannels | src/step02_badchannels.py:16-35 | the appended list is strictly ascending and every entry is a pickable channel |
| BadChannels.ExtendKeepsEveryEntry | src/step02_badchannels.py:38 | `extend` removes nothing, and a channel already marked bad that is flagged again appears once more |
| Ordering.SortedSet | src/step02_badchannels.py:35 | strictly sorted in the given order, with exactly the members of the input |
| Ordering.StrictlySortedCardinality | src/step09_epoching.py:19 | a strictly sorted sequence has as many entries as distinct members |
| Ordering.StrictlySortedUnique | src/step07_ica.py:71 | two strictly sorted sequences with the same members are equal, so `sorted(set(...))` has one answer |
| Stats.MedianIgnoresOrder | src/step02_badchannels.py:65 | the median of a column depends only on its multiset of values |
| Stats.SortReals | src/step02_badchannels.py:65 | the sort used by the median is sorted and a permutation of its input |
| TrialRejection.RejectCriteria | src/step10_trialrejection.py:48-58 | keys are exactly those of "eeg" and "eog" that occur as channel types, mapped to the EEG and EOG thresholds |
| TrialRejection.FlatCriteria | src/step10_trialrejection.py:49-55 | the only possible key is "eeg", present exactly when an EEG channel exists, mapped to the flat threshold; never "eog" |
| TrialRejection.RejectionRateBounds | src/step10_trialrejection.py:72-97 | the rate is between 0 and 100, and it is above 30 exactly when 10 × rejected > 3 × before |
| TrialRejection.DropNeverAddsEpochs | src/step10_trialrejection.py:65-71 | dropping never increases the kept count, overall or per condition |
| TrialRejection.KeptSplitsByCondition | src/step10_trialrejection.py:74-81 | when every label is "random" or "regular", the kept count is the sum of the per-condition kept counts |
| TrialRejection.RejectTrials | src/step10_trialrejection.py:10-102 | KeyError unless both conditions are event ids. Otherwise: a fresh cleaned copy with the input untouched; the criteria built as above; before/after and per-condition counts with rejected = before - after; the guarded rate in [0, 100]; the warning exactly when verbose and rate > 30 |
| TrialRejection.AddToBuckets | src/step10_trialrejection.py:133-136 | each named channel gets a bucket if missing and the index appended; every other bucket is unchanged; buckets stay in index order |
| TrialRejection.GetRejectionSummary | src/step10_trialrejection.py:105-138 | index i is in `kept` exactly when its reasons are empty, and in `user_rejected` exactly when they are ("USER",). Otherwise it is in the bucket of each channel it names; the lists are ascending and the buckets non-decreasing |
| Utils.DigitsRoundTrip | src/utils.py:13 | reading back the decimal digits written for n gives n |
| Utils.ParseFormatRoundTrip | src/utils.py:13 | a formatted subject ID reads back as the integer it came from |
| Utils.Format03Injective | src/utils.py:13 | distinct integers give distinct subject IDs |
| Utils.Format03Width | src/utils.py:13 | IDs below 1000 are exactly 3 characters; larger ones are unpadded, at least 4 |
| Utils.GetSubjectList | src/utils.py:9-15 | succeeds exactly when every label is an integer; then the i-th ID is the 3-digit formatting of the i-th label's value |
| Utils.SubjectListReadsBack | src/utils.py:13 | each ID reads back as the same integer as its original label, so "0012" and "12" both give "012" |
| Utils.BeforeFirst | src/utils.py:67 | `split(sep)[0]`: a prefix of the input that contains no occurrence of the separator and is followed by one unless it is everything |
| Utils.AfterLastSpec | src/utils.py:67 | `split(sep)[-1]`: a suffix of the input, preceded by an occurrence of the separator unless it is everything, with no occurrence ending inside it |
| Utils.AfterLastOfSuffix | src/utils.py:67 | the text after a separator whose last character does not occur later is the text after its last occurrence |
| Utils.BeforeFirstOfPrefix | src/utils.py:67 | the text before a separator whose first character does not occur earlier is the text before its first occurrence |
| Utils.ParseSubjectIdOfFileName | src/utils.py:54-67 | for a file name `<dir>sub-<id>_epochs.fif` with no '-' or '_' in the id, the parsed subject ID is exactly the id |
| Utils.IncludedMembers | src/utils.py:72-77 | the included subjects are exactly the files that have the channel |
| Utils.SkippedIds | src/utils.py:73-77 | skipped plus included subjects account for every file |
| Utils.SkippingIgnoresSubject | src/utils.py:73-77 | removing a file that lacks the channel changes nothing about the included subjects |
| Utils.ChannelRowOf | src/utils.py:87-90 | the row taken for a subject is that of the first position of the channel among its names, in both conditions |
| Utils.LastIncludedIsLast | src/utils.py:81-92 | the last file that has the channel, whose `times` and `evoked_diff` survive the loop, exists exactly when some subject is included and is the last included subject |
| Utils.CollectEvokeds | src/utils.py:62-92 | the loop collects the skipped IDs and the channel rows of each included subject in file order, and keeps the times and regular-minus-random difference of the last included subject |
| Utils.AverageChannel | src/utils.py:33-110 | returns the skipped subject IDs and exactly the reference grand average `GrandAverage` |
| Utils.GrandAverageCounts | src/utils.py:94-99 | nothing is returned exactly when no file has the channel (including no file at all); otherwise the subject count is files minus skipped |
| Utils.AverageOfOneSubject | src/utils.py:99-104 | with one subject the grand averages are that subject's rows times 1e6 and the count is 1 |
| Utils.PairwiseAverage | src/utils.py:113-119 | the result has the common length and element i is (a[i] + b[i]) / 2 |
| Utils.PairwiseMeanSymmetric | src/utils.py:113-119 | the pairwise average does not depend on argument order |
| Utils.PairwiseMeanIsGrandMean | src/utils.py:113-119 | the pairwise average equals the element-wise grand mean of the two rows |
| Utils.GrandMeanOfOne | src/utils.py:103 | the element-wise mean of a single row is that row |
| Text.IndexOf | src/utils.py:87 | `list.index`: the position holds the name and no earlier position does |
| IcaStep.Ica.constructor | src/step07_ica.py:25-31 | a decomposition fitted on the given picks with the given `n_components`, `method` and `random_state`, and nothing excluded |
| IcaStep.Ica.SetExclude | src/step07_ica.py:73 | sets `exclude`; picks and settings unchanged |
| IcaStep.Kept | src/step07_ica.py:35 | the comprehension keeps exactly the names whose mask entry is set, and its first element is the first such name |
| IcaStep.EogChannels | src/step07_ica.py:34-38 | if some channel has type "eog", exactly those names, the first one first. Otherwise exactly the names whose upper-cased form starts with "EXG", the first one first |
| IcaStep.CorrelatedComponents | src/step07_ica.py:53-59 | component c is flagged exactly when the absolute value of its score is > 0.3, strictly; ascending |
| IcaStep.EogIndices | src/step07_ica.py:40-61 | nothing without eye channels. Otherwise the detector's answer for the first eye channel; if it raises, the correlation fallback for that same channel; if that raises too, nothing |
| IcaStep.ToRemove | src/step07_ica.py:71 | strictly ascending, with exactly the eye and heart components |
| IcaStep.DistinctCount | src/step07_ica.py:71-76 | a strictly ascending list has as many elements as distinct values |
| IcaStep.ExcludedCountIsDistinct | src/step07_ica.py:71-76 | the number of excluded components is the number of distinct eye and heart indices |
| IcaStep.RunIca | src/step07_ica.py:18-82 | fewer than 2 good EEG channels: no decomposition, count 0, recording untouched. Otherwise: a fresh ICA on the good EEG channels with the caller's `n_components`, method "infomax" and seed 42; `exclude` and one `apply` only when the removal list is non-empty; count = its length; channels and bads unchanged |
| IcaStep.RunIcaStub | src/step07_ica.py:11-15 | returns the recording itself and no decomposition |
| IcaInterpolate.CandidateTestIsEog | src/ica.py:14-17 | the candidate test is equivalent to "the lower-cased name contains eog" |
| IcaInterpolate.VirtualNamesMatch | src/ica.py:14-17 | both virtual channel names pass the candidate test, so a later call finds them by name |
| IcaInterpolate.EogNamed | src/ica.py:15-17 | exactly the channel names passing the candidate test |
| IcaInterpolate.FirstPair | src/ica.py:31-38 | none exactly when no pair has both channels good; otherwise the first pair in list order that does |
| IcaInterpolate.FirstPresent | src/ica.py:55-58 | none exactly when no listed electrode is good; otherwise the first good one in list order |
| IcaInterpolate.VirtualEogFromGoodPair | src/ica.py:21-66 | a virtual channel subtracts two distinct good channels. It is HEOG exactly when some horizontal pair is good, else VEOG. There is none exactly when no horizontal or vertical pair is good and the frontal or the occipital electrodes are all missing |
| IcaInterpolate.CreatedEog | src/ica.py:14-68 | with eye names present, exactly those names; otherwise at most one name, HEOG_virtual or VEOG_virtual |
| IcaInterpolate.AddFirstPair | src/ica.py:31-38 | adds a channel exactly when some pair is good, using the first such pair's difference; otherwise the recording is unchanged |
| IcaInterpolate.AddFallback | src/ica.py:54-66 | adds VEOG_virtual exactly when a frontal and an occipital electrode are good, as the difference between the first of each |
| IcaInterpolate.EnsureEogChannels | src/ica.py:8-68 | returns `CreatedEog`; the channels after it are the old ones plus the single added virtual channel, if any; bads, annotations and transforms unchanged |
| IcaInterpolate.EogFound | src/ica.py:110-114 | only channel names; non-empty exactly when some channel has type "eog" or is in the returned list; its head is the first such channel in channel order |
| IcaInterpolate.NoEcgWithoutRequest | src/ica.py:145-156 | without `reject_ecg` the removal is exactly the eye components |
| IcaInterpolate.FitAndClean | src/ica.py:99-170 | a fresh ICA on the given picks with the caller's `n_components`, `method` and `random_state` and exclude = the sorted union; eye channels ensured; `apply` logged only for a non-empty removal, then interpolation of the bads |
| IcaInterpolate.RunIcaAndInterpolate | src/ica.py:71-172 | the montage is set when missing. RuntimeError exactly when fewer than 2 good EEG channels remain, with nothing else changed. Otherwise it is `FitAndClean` on the good EEG channels, with the caller's settings (by default 0.99, "fastica", 42) recorded on the decomposition |

## Left out

- File and dataset I/O is not modelled: `read_raw_bids`, pandas `read_csv`, `glob` with `read_epochs`, and `save`.
  - The events table, the per-subject evoked signals and the sorted list of epoch files are inputs.
  - `get_entity_vals` is replaced by its list of subject labels.
- The library's numerics are not modelled. This covers filtering, resampling, referencing, the ICA fit and apply, `create_eog_epochs`/`create_ecg_epochs`, `find_bads_eog`/`find_bads_ecg`, `drop_bad`'s peak-to-peak test, `np.corrcoef` and the interpolation itself.
  - Their results are parameters.
  - `apply` and `interpolate_bads` are logged as transforms; the changed samples are not computed.
- ASR, plotting and the command-line orchestration are outside this core.
- Floating point is not modelled: all arithmetic is over `real`. NumPy's NaN z-scores when the standard deviation is 0 are modelled as "nothing flagged".
- Printing is not modelled. The high-rejection-rate warning is an output flag of `RejectTrials`.
- Case mapping and string order are ASCII and code-point based. Python's `int()` also accepts surrounding whitespace and digit underscores; that is not modelled.
- `set_montage` failing inside `run_ica_and_interpolate` is not modelled: the `try` is assumed to succeed.
- `interpolate_bads`' failure and the retry after setting a montage are not modelled: interpolation is assumed to succeed.
- A failing `ica.fit` is not modelled.
- `AverageChannel` returns a datatype (`NoData` or `Average`) in place of Python's 3-tuple of `None`s or 5-tuple. `evoke_channels` and `combine_evoked` are taken as the per-file evoked rows.
  - A sample missing from a ragged row reads as 0.
- IcaInterpolate.EogFound reads a channel's type at its own position rather than through `ch_names.index(ch)`. Channel names in a recording are distinct, so both give the same type.
- Utils.AfterLastSpec states last-occurrence semantics. For the separator "sub-", which cannot overlap itself, this is what `split("sub-")[-1]` gives.
- Signals.Recording.SetAnnotations assumes every onset lies within the recording. MNE's `set_annotations` drops or crops annotations outside the data span; that is not modelled, so both `LoadAndAttachAnnotations` promise the whole translated table.
- Epoching.GenerateEpochs takes MNE's event selection, its drops at the recording's edges and its sample cutting as the parameter `Cut`. The model promises only what MNE guarantees of that cut (labels are keys, times within the window), not how it is made.
- Epoching.EpochData: an empty baseline window (no sample time in [bmin, bmax]) leaves the samples unchanged, where NumPy's mean of nothing would give NaN. `WindowValuesNonEmpty` states when the window holds samples.
- BadChannels.CorrelationBadChannels on a single channel returns a result, where NumPy raises. Its only caller, `DetectBadChannels`, models that error.
- Utils.AverageChannel assumes the evoked rows are indexed by the epochs' channel list. `average()` keeps only data channels, so a channel present in the epochs but not a data channel of the evoked (the `Status` channel, say) makes `ch_names.index` raise `ValueError` in the program; that is not modelled.
- IcaStep.RunIca takes the heart detector's answer as a parameter, since `create_ecg_epochs` and `find_bads_ecg` are library calls. The `if True` branch is always taken.
- IcaStep.RunIca and IcaInterpolate.RunIcaAndInterpolate record `n_components` as a real number only (the variance share); an integer component count and `max_iter="auto"` change only the fit, which is not modelled.
- Epoching.EpochData returns the event table but not the `events` array. Its rows need the sample index of each onset, which depends on the sampling rate and the recording's first sample; the code column is `EventCodes` of each label.
- Baseline.UncorrectedTypes lists the channel types that are neither data nor auxiliary channels in MNE. Channel types outside MNE's vocabulary are treated as corrected.
