# avroVis analysis core in Dafny

avroVis loads a wearable-sensor recording (an Avro container holding
blood-volume-pulse, temperature and electrodermal channels), plots the chosen
channel over time and, for the pulse channel, estimates the heart rate. This
project models the computational layer of `avroVis.py` on exact `real`
arithmetic and proves what it promises:

- **Channel selection** (`records.dfy`, module `Records`): the decoded
  container is a sequence of `Record`s. Each record has a `RawData` with the
  three `ChannelGroup`s `bvp`, `temperature` and `eda`, and each group has
  `values` and `samplingFrequency`. The three value lookups and the
  sampling-frequency lookup always read the first record. An empty container
  is the failure `EmptyContainer` (Python's IndexError). In
  `get_sampling_frequency` the label is tested before any record is read, so
  a label other than "BVP", "Temperature" or "EDA" is the failure
  `UnknownLabel` (the local variable is never bound), even when the container
  is empty.
- **Time axis** (`signal.dfy`, module `Signal`): `t[i] = i / fs` for every
  sample index. Python divides only while it iterates, so a rate of zero
  fails (`ZeroSamplingRate`) only when there is at least one sample.
- **Lost-signal partition** of the pulse channel (`Signal`): a sample is
  "normal" when it is below -0.02 or above 0.02, and "lost" otherwise (the
  band edges included). The four series plotted are the normal times and
  values and the lost times and values. Each is a filter of the sample
  indices, so the time and value lists of a route stay paired and in order.
- **Heart rate** (`heart_rate.dfy`, module `HeartRate`): the band-pass design
  is checked first: edges 0.5 Hz and 5.0 Hz over the Nyquist frequency
  `fs / 2` must lie strictly inside (0, 1), which holds exactly when
  `fs > 10`. The peak indices are an input carrying the peak finder's
  promise: strictly increasing, with neighbours at least `fs / 2` samples
  apart. Then come `np.diff(peaks) / fs`, `60 / interval` and the mean.
  Fewer than two peaks is the failure `InsufficientPeaks`.

Failures are values of `Outcomes.Result` (`outcomes.dfy`); no operation
returns a default in place of a failure.

Points of the code's behaviour that the model keeps:
- A negative rate is not rejected and gives a decreasing axis. Only a rate
  of exactly zero fails, and only when there is a sample.
- An unknown label is `UnknownLabel`, raised before any record is read.
- The code builds four value lists. `RoutedIndices` gives the index view,
  and the contract of `Select` ties it to those lists.
- Only the mean of the instantaneous rates is computed.

## Model

| member | source | states |
|---|---|---|
| Records.GetBvpValues | avroVis.py:18-21 | succeeds exactly when the container is non-empty, returning the `bvp` group's values of the first record; an empty container is `EmptyContainer` |
| Records.GetTempValues | avroVis.py:25-28 | succeeds exactly when the container is non-empty, returning the `temperature` values of the first record; otherwise `EmptyContainer` |
| Records.GetEdaValues | avroVis.py:32-35 | succeeds exactly when the container is non-empty, returning the `eda` values of the first record; otherwise `EmptyContainer` |
| Records.GetSamplingFrequency | avroVis.py:39-47 | an unknown label is `UnknownLabel` whatever the records are; a known label on an empty container is `EmptyContainer`; it succeeds exactly for a known label and a non-empty container |
| Records.ParseLabel | avroVis.py:41-46 | recognises exactly the three labels the dispatch tests, and each recognised label is the label of the channel it yields |
| Records.LabelRoundTrip | avroVis.py:41-46 | parsing a channel's label gives back that channel |
| Records.SamplingFrequencySelectsGroup | avroVis.py:39-47 | "BVP", "Temperature" and "EDA" each read the `samplingFrequency` of their own group of the first record; any other label fails |
| Records.ValuesAndRateAgree | avroVis.py:174-179 | the values and the rate loaded for a channel come from the same group of the same record and succeed or fail together |
| Records.FirstRecordOnly | avroVis.py:18-47 | records after the first never change a lookup's result |
| Signal.GuardsAreComplements | avroVis.py:53-68 | a sample passes the "normal" guard exactly when it fails the "lost" guard; -0.02, 0.02 and 0 are lost |
| Signal.Axis | avroVis.py:52 | has one entry per sample and entry `i` is `i / fs` |
| Signal.TimeAxis | avroVis.py:52 | fails (`ZeroSamplingRate`) exactly when the rate is zero and there is a sample; otherwise has the samples' length with `t[i] == i / fs` (the same comprehension is at lines 100 and 122) |
| Signal.TimeAxisUniform | avroVis.py:52 | for a positive rate the axis exists, starts at 0, is strictly increasing and consecutive entries differ by `1 / fs` |
| Signal.RoutedIndices | avroVis.py:53-68 | yields exactly the indices whose sample passes a route's guard, each in range, in strictly increasing order, none missed |
| Signal.Select | avroVis.py:53-68 | each of the four filtered comprehensions has one entry per routed index, and entry `k` is the input entry at the `k`-th routed index, keeping the original order |
| Signal.RoutesPartition | avroVis.py:53-68 | the normal and lost index lists have lengths summing to the sample count |
| Signal.RoutesCover | avroVis.py:53-68 | every sample index is in exactly one of the normal and lost index lists |
| Signal.PartitionBvp | avroVis.py:51-68 | fails exactly as the time axis does; otherwise `|normal_bvp| + |lost_bvp| == |bvp|`, each time list has its value list's length, `normal_bvp[k]` is the sample at the `k`-th normal index and `normal_time[k]` is that index over `fs` (the same for the lost lists), and every index lies in exactly one route |
| HeartRate.NormalizedBand | avroVis.py:144-148 | a zero rate is `ZeroSamplingRate`; the band is accepted exactly when `fs > 10`, otherwise `InvalidFilterBand`; accepted edges are `1/fs` and `10/fs` and satisfy `0 < low < high < 1` |
| HeartRate.Diff | avroVis.py:158 | has one entry fewer than the peaks (none for no peaks), and entry `i` is `p[i+1] - p[i]` |
| HeartRate.Intervals | avroVis.py:158 | has one entry per difference, and entry `i` is that difference over `fs` in seconds |
| HeartRate.Rates | avroVis.py:159 | has one entry per interval, and entry `i` is `60 / interval[i]` |
| HeartRate.InstantaneousBpm | avroVis.py:157-159 | for `fs > 0` and strictly increasing peaks: `k - 1` rates for `k >= 1` peaks, and rate `i` is `60 * fs / (p[i+1] - p[i])`, which is positive |
| HeartRate.BpmCeiling | avroVis.py:157-159 | when neighbouring peaks are at least `fs / 2` samples apart, no instantaneous rate exceeds 120 BPM |
| HeartRate.MeanBetween | avroVis.py:160 | the mean of a non-empty sequence whose entries lie in `[lo, hi]` lies in `[lo, hi]` |
| HeartRate.Mean | avroVis.py:160 | the mean of a non-empty sequence lies between its smallest and its largest entry |
| HeartRate.MeanOfConstant | avroVis.py:160 | the mean of a constant sequence is that constant |
| HeartRate.CalcBpm | avroVis.py:143-160 | succeeds exactly when `fs > 10` and there are at least two peaks; band failures come first, then `InsufficientPeaks`; the result is the mean of the instantaneous rates, lies between their minimum and maximum, and is in `(0, 120]` |
| HeartRate.EvenPeaksAreValid | avroVis.py:157 | peaks evenly `gap >= fs / 2` samples apart are strictly increasing and at least the peak finder's `distance` apart |
| HeartRate.EvenPeaksGiveTheirRate | avroVis.py:156-160 | peaks evenly `gap >= fs / 2` samples apart at `fs > 10` satisfy the peak finder's promise and give exactly `60 * fs / gap` BPM |

## Left out

- Reading the container (`getRecords` with the Avro decoder) and writing the
  upload to `/tmp`: file I/O and a foreign decoder. A recording is given as
  the decoded `Recording` value.
- Missing keys in a record (a KeyError in Python): the container's schema
  fixes the record shape, so the datatype always has all three groups.
- The user interface (upload widget, dropdown, labels, dark mode, `ui.run`),
  the figure construction in the three plotting functions, the global
  session variables of `handle_upload` and `update_plot`, and the `print`:
  presentation glue with no behaviour to state. Channel values and rates
  are passed explicitly.
- The Butterworth design and the zero-phase filtering (`butter`, `filtfilt`):
  floating-point signal processing inside the numerical library. From the
  design only its documented refusal of band edges outside (0, 1) is
  modelled. The filtered waveform is not modelled, and neither is the
  filter's refusal of signals too short to pad.
- The peak finder (`find_peaks`): a foreign routine. Its peaks are an input,
  and its promise (strictly increasing, at least `fs / 2` apart) is a
  precondition of `CalcBpm`. Its own refusal of a distance below one sample
  cannot arise, because a valid band already needs `fs > 10`.
- Floating point: all samples, rates and times are exact `real`s, so the
  threshold 0.02 is exact and no rounding is modelled. A NaN sample fails
  both guards in Python and lands in neither list; the count equation of
  `RoutesPartition` holds because a `real` always passes one guard. The not-a-number
  result of averaging no intervals is `InsufficientPeaks`. An infinite rate
  from a zero interval cannot arise under strictly increasing peaks.
