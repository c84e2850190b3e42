# SaccadePopulationAnalysis — trial alignment, Rp-peri baseline and permutation distributions in Dafny

This project models the sequential core of SaccadePopulationAnalysis, a
Python/numpy pipeline that analyses how saccades modulate visual responses
in recorded neural populations. It covers four pieces:

- **Trial alignment and demixing** (`saccadic_modulation.dfy`, with the
  trial records in `trials.dfy`). `SaccadicModulationTrialProcessor`
  places each saccade and probe timestamp in its firing-rate bin, using the
  bin rules of `numpy.histogram`. It builds a window of bins around the
  event bin. It keeps only the saccades that lie far enough from every
  probe. It merges each probe with the first saccade that collides with it,
  giving a *mixed* trial. Finally it sorts the demixed probes and the
  filtered saccades into one trial group by event time.
- **Rp-peri baseline subtraction** (`rp_peri.dfy`). `RpPeriCalculator`
  averages the saccade trials of every unit. For each mixed trial it
  subtracts a 35-bin snippet of that average from the trial's centre
  window. `calculate_static` reads the snippet at a fixed alignment.
  `calculate` shifts it by the trial's saccade–probe offset, clipped to
  35 bins.
- **The permutation-distribution engine** (`quantification.dfy`).
  `QuanDistribution` pools the trials of two classes, re-splits the pool
  by a permutation into groups of the original sizes, and evaluates a
  quantification at every timepoint. It does this NUM_SAMPLES = 10000
  times, spread over four partitions.
- **Pairwise distances** (`distance_plots.dfy`). `_pairwise_iter` pairs
  every named dataset with every other. `_calc_dists` computes a distance
  series for every pair, optionally after shuffling the trials of the pair.

`tensor.dfy` gives the numpy operations these pieces use, with numpy's
semantics. That covers indexing (units, trials, t) arrays, concatenating
along the trial axis, selecting trials by index, the clipping of a Python
slice to the axis length, the 1-D broadcasting of a subtraction, and
averaging over trials. `common.dfy` holds the exceptions the code raises,
carried in a `Result`.

Each loop of the source is a method, proved equal to a specification
function: `ProcessTimings` to `AlignEvents`, `DemixTrials` to `Demix`,
`RpPeri.Calculate` to `RpPeriOf`, `Quantification.Calculate` to the
per-sample rows, and `PairwiseIter` to `Pairwise`. The properties the code
promises are proved about those functions as lemmas. A quantification's
`get_name` is the `name` field of the `Quantification` datatype.
Arrays and records are values, so no operation can change its inputs. The
Python code relies on this too: `_calculate` works on a fresh copy of the
pool, and `_pairwise_iter` works on a list copy of the dictionary's items.

Three behaviours of the code are easy to misread, and the model follows
the code as written:

- The error raised when no bin holds a timestamp reads "Not enough
  recording!" (`saccadic_modulation/__init__.py:47`), but the test takes the
  truth value of the array of non-empty bin indices, so a timestamp that
  falls in bin 0 raises the same error (`BinZeroIsRejected`).
- The comments at `saccadic_modulation/__init__.py:92` and `:96` ("Only add
  if we have one collision", "Don't add multiple trial ones") describe a
  branch that drops a probe with several collisions. The scan breaks after
  the first collision, so that branch is dead: no probe is ever dropped, and
  a probe is merged with the first colliding saccade in list order
  (`DemixTrials`, `DemixOnePerProbe`).
- `rp_peri_calculator.py:11` computes `window_size` from the time axis, but
  the slices at `:21`, `:26`, `:49` and `:52` and the clip at `:47` use the
  literal 35 instead (`CentreStart`, `MaxShift`).

## Model

| member | source | states |
|---|---|---|
| SaccadicModulation.NewProcessor | src/population_analysis/processors/experiments/saccadic_modulation/__init__.py:24-36 | construction succeeds iff the three saccade arrays have equal length and the three probe arrays have equal length; otherwise AssertionError |
| SaccadicModulation.BinFrom | src/population_analysis/processors/experiments/saccadic_modulation/__init__.py:44-49 | the search returns the first bin from i that holds x under numpy.histogram's rules (half-open bins, the last one closed), or none when no later bin holds it |
| SaccadicModulation.InBinUnique | src/population_analysis/processors/experiments/saccadic_modulation/__init__.py:44-45 | with non-decreasing edges a timestamp lies in at most one bin, so the histogram has at most one non-zero count |
| SaccadicModulation.BinOfIsTheBin | src/population_analysis/processors/experiments/saccadic_modulation/__init__.py:44-49 | with non-decreasing edges, bin k holds x iff the lookup returns k |
| SaccadicModulation.AlignEvent | src/population_analysis/processors/experiments/saccadic_modulation/__init__.py:41-54 | one event succeeds iff the edges are non-decreasing and some bin k ≥ 1 holds it; the trial has event bin k, window [k-10, k+25], the timestamp, label, motion and block given, and no events; decreasing edges raise the histogram's ValueError, and otherwise the error is "not enough recording" |
| SaccadicModulation.AlignEvents | src/population_analysis/processors/experiments/saccadic_modulation/__init__.py:39-55 | on success, one trial per timestamp, in input order, trial i being event i aligned with motion i and block i |
| SaccadicModulation.AlignEventsFirstErrorWins | src/population_analysis/processors/experiments/saccadic_modulation/__init__.py:40-47 | once an event fails, later events do not change the error |
| SaccadicModulation.AlignEventsErrIff | src/population_analysis/processors/experiments/saccadic_modulation/__init__.py:40-47 | the alignment fails iff some event fails, and then with the error of the earliest failing event |
| SaccadicModulation.ProcessTimings | src/population_analysis/processors/experiments/saccadic_modulation/__init__.py:38-55 | the loop returns exactly the AlignEvents result over all timestamps |
| SaccadicModulation.AlignOne | src/population_analysis/processors/experiments/saccadic_modulation/__init__.py:41-54 | one loop pass (histogram, index of the non-zero count, truth test, window) equals AlignEvent |
| SaccadicModulation.BinZeroIsRejected | src/population_analysis/processors/experiments/saccadic_modulation/__init__.py:45-47 | a timestamp in the first bin is rejected although a bin holds it |
| SaccadicModulation.FilterSaccadesByTime | src/population_analysis/processors/experiments/saccadic_modulation/__init__.py:109-132 | the nested loop with its breaks returns exactly the saccades that are far from every probe, in saccade order |
| SaccadicModulation.PassingSaccadesSelection | src/population_analysis/processors/experiments/saccadic_modulation/__init__.py:114-132 | the result is an order-preserving subsequence of the saccades; saccade j is kept iff for every probe diff ≥ 20 or diff ≤ -10 bins |
| SaccadicModulation.FirstCollisionFrom | src/population_analysis/processors/experiments/saccadic_modulation/__init__.py:69-88 | the index found is the first saccade from i within 0.51 s of the probe; none found means no saccade from i collides |
| SaccadicModulation.DemixTrials | src/population_analysis/processors/experiments/saccadic_modulation/__init__.py:57-103 | the loop, with its found-saccade map, collision counter and duplicate counter, returns Demix: one trial per probe, then the unconsumed saccades when asked; the duplicate branch is proved unreachable |
| SaccadicModulation.AppendUnconsumed | src/population_analysis/processors/experiments/saccadic_modulation/__init__.py:98-101 | appends the saccades whose found flag is unset, in saccade index order |
| SaccadicModulation.DemixOnePerProbe | src/population_analysis/processors/experiments/saccadic_modulation/__init__.py:63-96 | without add_saccades, exactly one trial per probe in probe order, trial i being probe i demixed |
| SaccadicModulation.DemixProbeCharacterized | src/population_analysis/processors/experiments/saccadic_modulation/__init__.py:69-94 | a probe becomes mixed iff some saccade collides; the trial keeps the probe's window, bin, time, motion and block; a mixed trial records the probe and the first colliding saccade; otherwise the probe is unchanged |
| SaccadicModulation.DemixCountsAddUp | src/population_analysis/processors/experiments/saccadic_modulation/__init__.py:91-96 | from probe trials, the probe-labelled and mixed-labelled outputs together number exactly the probes, and none is a saccade |
| SaccadicModulation.DemixAppendsUnconsumed | src/population_analysis/processors/experiments/saccadic_modulation/__init__.py:98-101 | with add_saccades the probe-derived trials come first, then the saccades that were no probe's first collision, in increasing saccade index, and exactly those |
| SaccadicModulation.DemixExample | src/population_analysis/processors/experiments/saccadic_modulation/__init__.py:73-92 | a probe at 0.0 s with saccades at 0.3 s and 10.0 s gives one mixed trial, merged with the 0.3 s saccade |
| SaccadicModulation.BuildGroup | src/population_analysis/processors/experiments/saccadic_modulation/__init__.py:150-166 | the group is the sort of the demixed trials (without unconsumed saccades) followed by the latency-filtered saccades |
| SaccadicModulation.Calculate | src/population_analysis/processors/experiments/saccadic_modulation/__init__.py:144-166 | saccades are aligned first, then probes, and the first error is returned; otherwise the group of BuildGroup |
| SaccadicModulation.AlignedAreWindowed | src/population_analysis/processors/experiments/saccadic_modulation/__init__.py:51-54 | every aligned trial spans [event - 10, event + 25] |
| SaccadicModulation.CombinedWindowed | src/population_analysis/processors/experiments/saccadic_modulation/__init__.py:161-163 | demixing and filtering keep every trial's window |
| SaccadicModulation.GroupOfProperties | src/population_analysis/processors/experiments/saccadic_modulation/__init__.py:159-166 | the group is sorted by event time, is a permutation of demixed ++ filtered saccades, has one trial per probe plus one per passing saccade, and keeps every window |
| SaccadicModulation.TrialGroupProperties | src/population_analysis/processors/experiments/saccadic_modulation/__init__.py:144-166 | the same properties for the group calculate returns, over the aligned probe and saccade trials |
| Trials.LabelFilter | src/population_analysis/processors/experiments/saccadic_modulation/rp_peri_calculator.py:43 | get_trials_by_type keeps exactly the trials of the label, each as often as in the group |
| Trials.InsertByTimeSorted | src/population_analysis/processors/experiments/saccadic_modulation/__init__.py:105-107 | inserting into a time-sorted sequence keeps it sorted and adds one element |
| Trials.InsertByTimeMultiset | src/population_analysis/processors/experiments/saccadic_modulation/__init__.py:105-107 | insertion adds the new trial and keeps every other |
| Trials.SortByTimeIsSortedPermutation | src/population_analysis/processors/experiments/saccadic_modulation/__init__.py:105-107 | the sort by event time returns a non-decreasing permutation of its input |
| Trials.SortByTimeIsStable | src/population_analysis/processors/experiments/saccadic_modulation/__init__.py:105-107 | trials of equal event time keep their input order |
| Trials.SortByTimeOfSorted | src/population_analysis/processors/experiments/saccadic_modulation/__init__.py:105-107 | sorting an already sorted sequence changes nothing |
| RpPeri.NewRpPeriCalculator | src/population_analysis/processors/experiments/saccadic_modulation/rp_peri_calculator.py:8-14 | construction succeeds iff the last axis length is divisible by 3, with window size a third of it; a 0-dimensional array raises IndexError |
| RpPeri.CalculateStatic | src/population_analysis/processors/experiments/saccadic_modulation/rp_peri_calculator.py:16-33 | succeeds iff every saccade and mixed index is a valid trial; the result is (units, mixed indices, clipped length of 35:70) |
| RpPeri.CalculateStaticAt | src/population_analysis/processors/experiments/saccadic_modulation/rp_peri_calculator.py:21-31 | out[u,i,t] = fr[u, mix_idxs[i], 35+t] minus the saccade-trial average of unit u at 35+t |
| RpPeri.Shift | src/population_analysis/processors/experiments/saccadic_modulation/rp_peri_calculator.py:44-48 | the shift is the bin offset clipped to [-35, 35] and negated, so it lies in [-35, 35] |
| RpPeri.ShiftDirection | src/population_analysis/processors/experiments/saccadic_modulation/rp_peri_calculator.py:44-49 | the slice start 35 + shift lies in [0, 70]; a saccade after the probe moves the snippet earlier and one before it later; its size is min(|offset|, 35) |
| RpPeri.BroadcastSub | src/population_analysis/processors/experiments/saccadic_modulation/rp_peri_calculator.py:53 | numpy subtraction of 1-D arrays succeeds iff the lengths agree or one is 1, and gives the element-wise difference with the length-1 side stretched |
| RpPeri.PeriRow | src/population_analysis/processors/experiments/saccadic_modulation/rp_peri_calculator.py:49-53 | a unit's row exists iff the centre window and the shifted snippet can be broadcast together |
| RpPeri.PeriRowAt | src/population_analysis/processors/experiments/saccadic_modulation/rp_peri_calculator.py:49-53 | with at least 105 bins the row is 35 long, and element t is fr[u, m, 35+t] minus the average at 35 + shift + t |
| RpPeri.TrialRows | src/population_analysis/processors/experiments/saccadic_modulation/rp_peri_calculator.py:50-55 | a trial's rows are one per unit, all of one length |
| RpPeri.TrialPeri | src/population_analysis/processors/experiments/saccadic_modulation/rp_peri_calculator.py:43-55 | a mixed trial without events fails; otherwise its rows, one per unit and all of one length |
| RpPeri.AllPeri | src/population_analysis/processors/experiments/saccadic_modulation/rp_peri_calculator.py:43-56 | on success one entry per mixed trial, entry i being the rows of mixed trial i paired with index i |
| RpPeri.AllPeriFirstErrorWins | src/population_analysis/processors/experiments/saccadic_modulation/rp_peri_calculator.py:43-56 | once a mixed trial fails, later trials do not change the error |
| RpPeri.AllPeriUniform | src/population_analysis/processors/experiments/saccadic_modulation/rp_peri_calculator.py:50-56 | every trial of a successful pass has one row per unit, all of one length |
| RpPeri.StackSwapped | src/population_analysis/processors/experiments/saccadic_modulation/rp_peri_calculator.py:57 | np.array(...).swapaxes(0, 1): no trials is an AxisError; rows of different lengths are a ValueError; otherwise out[u,i,t] = all[i][u][t] with shape (units, trials, t) |
| RpPeri.MixedTrialPeri | src/population_analysis/processors/experiments/saccadic_modulation/rp_peri_calculator.py:44-55 | one pass of the mixed-trial loop equals TrialPeri |
| RpPeri.UnitRows | src/population_analysis/processors/experiments/saccadic_modulation/rp_peri_calculator.py:50-55 | the loop over units equals TrialRows, raising the index and broadcast errors inside the loop |
| RpPeri.TrialRowsAre | src/population_analysis/processors/experiments/saccadic_modulation/rp_peri_calculator.py:50-55 | rows computed unit by unit are the trial's rows |
| RpPeri.UnitRow | src/population_analysis/processors/experiments/saccadic_modulation/rp_peri_calculator.py:52-53 | one pass of the unit loop equals PeriRow |
| RpPeri.Calculate | src/population_analysis/processors/experiments/saccadic_modulation/rp_peri_calculator.py:36-59 | the method returns exactly RpPeriOf: saccade index check, then every mixed trial in group order, then the stack |
| RpPeri.MixedTrialsPeri | src/population_analysis/processors/experiments/saccadic_modulation/rp_peri_calculator.py:41-56 | the loop over mixed trials equals AllPeri |
| RpPeri.RpPeriShape | src/population_analysis/processors/experiments/saccadic_modulation/rp_peri_calculator.py:41-57 | a result has shape (units, mixed trials, 35); the i-th mixed trial has events and is paired with a valid mix_idxs[i] |
| RpPeri.TrialPeriAt | src/population_analysis/processors/experiments/saccadic_modulation/rp_peri_calculator.py:43-53 | a mixed trial that yields rows has events and a valid index, and row u, element t is fr[u, mix_idxs[i], 35+t] minus the average at 35 + shift + t |
| RpPeri.RpPeriAt | src/population_analysis/processors/experiments/saccadic_modulation/rp_peri_calculator.py:43-53 | out[u,i,t] = fr[u, mix_idxs[i], 35+t] - avgSac[u, 35 + shift_i + t], shift_i being that of the i-th mixed trial of the group |
| RpPeri.RpPeriIsTrialRows | src/population_analysis/processors/experiments/saccadic_modulation/rp_peri_calculator.py:56-57 | out[u,i,t] is element t of unit u's row of the i-th mixed trial |
| RpPeri.AllPeriOk | src/population_analysis/processors/experiments/saccadic_modulation/rp_peri_calculator.py:43-56 | every mixed trial with events and a valid index yields rows, 35 long |
| RpPeri.RpPeriOkIff | src/population_analysis/processors/experiments/saccadic_modulation/rp_peri_calculator.py:36-59 | calculate succeeds iff the saccade indices are valid, there is a mixed trial, and every mixed trial has events and a valid mixed index |
| RpPeri.NoMixedTrials | src/population_analysis/processors/experiments/saccadic_modulation/rp_peri_calculator.py:57 | a group without mixed trials makes swapaxes fail |
| RpPeri.ZeroShiftIsStatic | src/population_analysis/processors/experiments/saccadic_modulation/rp_peri_calculator.py:21-53 | a trial with zero shift gets the same row from calculate as from calculate_static |
| RpPeri.CombinedMixedHaveEvents | src/population_analysis/processors/experiments/saccadic_modulation/__init__.py:76-94 | every mixed-labelled trial of demixed ++ filtered saccades carries its probe and saccade events |
| RpPeri.GroupMixedTrialsHaveEvents | src/population_analysis/processors/experiments/saccadic_modulation/__init__.py:159-166 | every mixed trial of the sorted group carries its events |
| RpPeri.ProcessorMixedTrialsHaveEvents | src/population_analysis/processors/experiments/saccadic_modulation/__init__.py:144-166 | the group a processor builds has no mixed trial without events, so reading the offsets in calculate never fails on it |
| Quantification.NewQuanDistribution | src/population_analysis/quantification/__init__.py:51-58 | construction succeeds iff both inputs are 3-dimensional, else AssertionError |
| Quantification.SampleArgs | src/population_analysis/quantification/__init__.py:103-109 | one argument per partition; no partitions is a division by zero |
| Quantification.SampleArgsSplit | src/population_analysis/quantification/__init__.py:103-109 | the first p-1 counts are floor(N/p) without display; the last is floor(N/p) + N mod p with display on; only the last displays; the counts sum to N |
| Quantification.SampleRow | src/population_analysis/quantification/__init__.py:96-99 | one metric value per timepoint of the pool |
| Quantification.SampleRowIsResplit | src/population_analysis/quantification/__init__.py:69-98 | the new classes keep their original shapes, together hold each pooled trial once, trial j of each being the pooled trial the permutation puts there, and value t is the metric of the two classes at t |
| Quantification.IdentityKeepsClasses | src/population_analysis/quantification/__init__.py:69-95 | with the identity permutation the new classes are the original classes |
| Quantification.PartitionRows | src/population_analysis/quantification/__init__.py:69-101 | a partition fails iff the classes cannot be concatenated (ValueError), else one row per shuffle |
| Quantification.PartitionRowsAppend | src/population_analysis/quantification/__init__.py:126-128 | the rows of two runs of shuffles are the first run's rows followed by the second's |
| Quantification.CalculatePartition | src/population_analysis/quantification/__init__.py:63-101 | the nested loop returns exactly PartitionRows: num_samples rows, row i holding the metric at each timepoint for shuffle i |
| Quantification.Calculate | src/population_analysis/quantification/__init__.py:111-130 | succeeds iff the classes can be concatenated; N rows in all, row i being sample i, the partitions' rows concatenated in partition order |
| DistancePlots.PairwiseIter | plotting/distance_plots.py:40-50 | the pop-and-scan loop returns Pairwise: the last item against every earlier one in order, then the same for the rest |
| DistancePlots.PairsWithAll | plotting/distance_plots.py:46-49 | an item whose name is not among the others is paired with each of them, in order |
| DistancePlots.PairwiseCount | plotting/distance_plots.py:44-49 | with distinct names there are n(n-1)/2 results |
| DistancePlots.PairwiseOrder | plotting/distance_plots.py:44-49 | with distinct names, the call for items i > j is at position Tri(n) - Tri(i+1) + j: later items first, each against the earlier items in order |
| DistancePlots.PairwiseSkipsEqualNames | plotting/distance_plots.py:47-49 | every result is the call for a later item and an earlier item of different names |
| DistancePlots.PairsWithSource | plotting/distance_plots.py:46-49 | every result of one scan is the call with an earlier item of a different name |
| DistancePlots.DistFunc | plotting/distance_plots.py:20-35 | dist_func, with its optional shuffle and per-timepoint loop, equals DistPair |
| DistancePlots.DistPairOkIff | plotting/distance_plots.py:20-35 | a pair fails iff shuffled datasets cannot be pooled (ValueError) or a timepoint lies past a time axis (IndexError); otherwise its name is "name-name1" and it has NUM_FIRINGRATE_SAMPLES distances, the t-th between the (shuffled) pair's blocks at t |
| DistancePlots.ResplitKeepsTrials | plotting/distance_plots.py:23-28 | the shuffled split keeps each dataset's shape and trial count, the halves hold each pooled trial once, and trial j of the first half is pooled trial perm[j] |
| DistancePlots.UnshuffledBlocks | plotting/distance_plots.py:30-34 | unshuffled, the block at t is the dataset's (trials, units) slice at t |
| DistancePlots.Collect | plotting/distance_plots.py:36 | the results succeed together iff each succeeds, in order |
| DistancePlots.CollectFirstError | plotting/distance_plots.py:36 | the first failing pair in call order decides the error |
| DistancePlots.CalcDists | plotting/distance_plots.py:13-37 | _calc_dists returns the distance series of every pair in _pairwise_iter order, or the first pair's error |
| DistancePlots.CalcDistsLayout | plotting/distance_plots.py:13-37 | with distinct names, a result holds n(n-1)/2 series; the series of items i > j is named "name_i-name_j", sits at position Tri(n) - Tri(i+1) + j and has NUM_FIRINGRATE_SAMPLES values |
| Tensor.SliceLen | src/population_analysis/processors/experiments/saccadic_modulation/rp_peri_calculator.py:49 | a Python slice [lo:hi] is clipped to the axis: a non-empty slice fits inside the axis, and in-range bounds give hi - lo |
| Tensor.ShuffleSplitIsPermutation | src/population_analysis/quantification/__init__.py:91-95 | the permuted pool cut at the first class's size keeps both sizes and holds every pooled trial exactly once |

## Left out

- Result caching with pickle, the `os.path.exists` check and every `print` are file and console I/O. `SaccadicModulation.Calculate` always computes the group.
- `multiprocessing.Pool` is modelled as a sequential pass over the partitions, in partition order. `Pool.map` returns its results in that order too.
- `random.shuffle` and `np.random.shuffle` are not modelled. `Quantification.Calculate` takes one permutation per sample as an input. `DistancePlots` takes a `Shuffler`, which gives one permutation of range(n) for every pool size n.
- DistancePlots.CalcDists: every pair with the same pooled trial count is shuffled by the same permutation. `np.random.shuffle` draws afresh for each pair.
- Floating point is modelled with real numbers, so there is no rounding, NaN or infinity.
- The rounding of a second offset to bins (`round(offset, 3) * 1000 / SPIKE_BIN_MS`, rounded) is the function parameter `toBins`. `SPIKE_BIN_MS` is not part of this model.
- RpPeri.CalculateStatic, RpPeri.Calculate and every RpPeri member require at least one saccade index. numpy averages an empty trial axis to NaN with a warning, and reals have no NaN.
- RpPeri.Calculate and RpPeri.CalculateStatic require a (units, trials, t) firing-rate array. The constructor itself only checks that the last axis divides by 3.
- RpPeri.PeriRowAt, RpPeri.TrialPeriAt, RpPeri.RpPeriAt, RpPeri.RpPeriIsTrialRows, RpPeri.AllPeriOk, RpPeri.ZeroShiftIsStatic: the values are stated only for time axes of at least 105 bins. With fewer bins numpy clips the slices, and the general case is covered only by PeriRow's success condition.
- RpPeri.RpPeriOkIff, RpPeri.RpPeriShape: stated only for at least one unit. With no units the loop body never runs, and `StackSwapped` gives the (0, trials) array.
- Negative numpy indices are not modelled: trial indices are natural numbers, and an index past the axis is an IndexError.
- The grating direction and window arrays stored by the processor's constructor are never read by the core, so they are not modelled.
- `trials.py` (`ModulationTrial`, `ModulationTrialGroup`) is not part of this model. A trial is a record of the fields the core reads. `get_trials_by_type` is an order-preserving filter by label (`Trials.LabelFilter`).
- The concrete quantifications (`EuclidianQuantification` and others) and `NUM_FIRINGRATE_SAMPLES` are not part of this model. They are the `metric` and `numSamples` parameters.
- Quantification.Calculate, DistancePlots.CalcDists: a metric that raises is not modelled; the metric is total. The base `Quantification.calculate` raises `NotImplemented` (`quantification/__init__.py:17`) and a Euclidean metric on arrays of mismatched units raises in numpy; in Python either exception aborts `Pool.map` or `_pairwise_iter` with no result.
- `TestQuantification` (a random normal value) and `SlowQuantification` (a sleep) are not modelled. The metric is an arbitrary function.
- The progress display of `_calculate` (`one_tenth`, the percentage prints) is console output. Only the display flag is modelled (`Quantification.Displays`).
- `confidence_interval`, `calc_quandist`, `pairwise_mean_distances` and the other plotting functions and figure scripts are not modelled. They are histogram and CDF numerics, session and pickle I/O, and matplotlib.
