/** The heart-rate tail of `calc_bpm`: the validity of the band-pass design,
    then peak intervals, instantaneous rates and their mean. The filter
    itself and the peak finder are outside the model; the peak indices are
    an input that satisfies the peak finder's promise. */
module HeartRate {
  import opened Outcomes

  /** Pass band of the pulse filter, in hertz. */
  const LowCut: real := 0.5
  const HighCut: real := 5.0

  /** The band edges as fractions of the Nyquist frequency, as the filter
      design receives them. The design accepts only edges strictly inside
      (0, 1), so the band can be built exactly when the rate exceeds
      twice the upper cut-off. */
  function NormalizedBand(fs: real): (band: Result<(real, real)>)
    ensures fs == 0.0 ==> band == Err(ZeroSamplingRate)
    ensures fs != 0.0 && fs <= 2.0 * HighCut ==> band == Err(InvalidFilterBand)
    ensures band.Ok? <==> fs > 2.0 * HighCut
    ensures band.Ok? ==>
      0.0 < band.value.0 < band.value.1 < 1.0 &&
      band.value.0 == 2.0 * LowCut / fs && band.value.1 == 2.0 * HighCut / fs
  {
    if fs == 0.0 then Err(ZeroSamplingRate)
    else
      var nyquist := 0.5 * fs;
      var low := LowCut / nyquist;
      var high := HighCut / nyquist;
      BandBounds(fs);
      if 0.0 < low && low < high && high < 1.0 then Ok((low, high)) else Err(InvalidFilterBand)
  }

  lemma BandBounds(fs: real)
    requires fs != 0.0
    ensures LowCut / (0.5 * fs) == 1.0 / fs && HighCut / (0.5 * fs) == 10.0 / fs
    ensures (0.0 < 1.0 / fs && 1.0 / fs < 10.0 / fs && 10.0 / fs < 1.0) <==> fs > 10.0
  {
    if fs > 10.0 {
      assert 10.0 / fs < fs / fs;
    } else if fs > 0.0 {
      assert 10.0 / fs >= fs / fs;
    } else {
      assert 1.0 / fs < 0.0;
    }
  }

  // ------------------------------------------------------------------ peaks

  /** What the peak finder promises of its output: increasing indices. */
  predicate StrictlyIncreasing(peaks: seq<nat>) {
    forall i :: 0 <= i < |peaks| - 1 ==> peaks[i] < peaks[i + 1]
  }

  /** ... and, for `distance = fs / 2`, neighbours at least that far apart. */
  predicate PeaksApart(peaks: seq<nat>, fs: real) {
    forall i :: 0 <= i < |peaks| - 1 ==> (peaks[i + 1] as int - peaks[i]) as real >= fs / 2.0
  }

  /** `np.diff`: differences of neighbours. */
  function Diff(p: seq<nat>): (d: seq<int>)
    ensures |d| == if |p| == 0 then 0 else |p| - 1
    ensures forall i :: 0 <= i < |d| ==> d[i] == p[i + 1] as int - p[i]
  {
    if |p| < 2 then [] else [p[1] as int - p[0]] + Diff(p[1..])
  }

  /** Element-wise division of differences by the rate: seconds per beat. */
  function Intervals(d: seq<int>, fs: real): (s: seq<real>)
    requires fs != 0.0
    ensures |s| == |d|
    ensures forall i :: 0 <= i < |d| ==> s[i] == d[i] as real / fs
  {
    if |d| == 0 then [] else [d[0] as real / fs] + Intervals(d[1..], fs)
  }

  /** Element-wise `60 / interval`: beats per minute. */
  function Rates(intervals: seq<real>): (bpm: seq<real>)
    requires forall i :: 0 <= i < |intervals| ==> intervals[i] != 0.0
    ensures |bpm| == |intervals|
    ensures forall i :: 0 <= i < |intervals| ==> bpm[i] == 60.0 / intervals[i]
  {
    if |intervals| == 0 then [] else [60.0 / intervals[0]] + Rates(intervals[1..])
  }

  lemma PositiveQuotient(a: real, b: real)
    requires a > 0.0 && b > 0.0
    ensures a / b > 0.0
  {
  }

  /** One rate: `60 / (gap / fs)` is `60 fs / gap`, and it is positive. */
  lemma RateOfGap(gap: real, fs: real)
    requires fs > 0.0 && gap > 0.0
    ensures gap / fs > 0.0
    ensures 60.0 / (gap / fs) == 60.0 * fs / gap > 0.0
  {
    var x := gap / fs;
    assert x * fs == gap;
    assert (60.0 / x) * gap == 60.0 * fs by {
      assert (60.0 / x) * gap == (60.0 / x) * x * fs;
    }
  }

  /** The instantaneous rates `60 / (np.diff(peaks) / fs)`: one per pair of
      neighbouring peaks, each positive and equal to `60 fs / gap`. */
  function InstantaneousBpm(peaks: seq<nat>, fs: real): (bpm: seq<real>)
    requires fs > 0.0 && StrictlyIncreasing(peaks)
    ensures |bpm| == if |peaks| == 0 then 0 else |peaks| - 1
    ensures forall i :: 0 <= i < |bpm| ==>
      bpm[i] == 60.0 * fs / (peaks[i + 1] as int - peaks[i]) as real && bpm[i] > 0.0
  {
    var d := Diff(peaks);
    var intervals := Intervals(d, fs);
    IntervalsPositive(peaks, d, intervals, fs);
    var bpm := Rates(intervals);
    RatesOfIntervals(peaks, d, intervals, bpm, fs);
    bpm
  }

  lemma IntervalsPositive(peaks: seq<nat>, d: seq<int>, intervals: seq<real>, fs: real)
    requires fs > 0.0 && StrictlyIncreasing(peaks)
    requires d == Diff(peaks) && intervals == Intervals(d, fs)
    ensures forall i :: 0 <= i < |intervals| ==> intervals[i] > 0.0
  {
    forall i | 0 <= i < |intervals| ensures intervals[i] > 0.0 {
      assert peaks[i] < peaks[i + 1];
      assert d[i] > 0;
      PositiveQuotient(d[i] as real, fs);
    }
  }

  lemma RatesOfIntervals(peaks: seq<nat>, d: seq<int>, intervals: seq<real>, bpm: seq<real>, fs: real)
    requires fs > 0.0 && StrictlyIncreasing(peaks)
    requires d == Diff(peaks) && intervals == Intervals(d, fs)
    requires forall i :: 0 <= i < |intervals| ==> intervals[i] > 0.0
    requires bpm == Rates(intervals)
    ensures forall i :: 0 <= i < |bpm| ==>
      bpm[i] == 60.0 * fs / (peaks[i + 1] as int - peaks[i]) as real && bpm[i] > 0.0
  {
    forall i | 0 <= i < |bpm|
      ensures bpm[i] == 60.0 * fs / (peaks[i + 1] as int - peaks[i]) as real && bpm[i] > 0.0
    {
      var gap := peaks[i + 1] as int - peaks[i];
      assert d[i] == gap && gap > 0;
      assert intervals[i] == gap as real / fs;
      assert bpm[i] == 60.0 / intervals[i];
      RateOfGap(gap as real, fs);
    }
  }

  /** With neighbours at least `fs / 2` samples apart no rate exceeds 120. */
  lemma {:induction false} BpmCeiling(peaks: seq<nat>, fs: real)
    requires fs > 0.0 && StrictlyIncreasing(peaks) && PeaksApart(peaks, fs)
    ensures forall i :: 0 <= i < |InstantaneousBpm(peaks, fs)| ==>
      InstantaneousBpm(peaks, fs)[i] <= 120.0
  {
    var bpm := InstantaneousBpm(peaks, fs);
    forall i | 0 <= i < |bpm| ensures bpm[i] <= 120.0 {
      var gap := (peaks[i + 1] as int - peaks[i]) as real;
      assert gap >= fs / 2.0;
      RateCeiling(gap, fs);
    }
  }

  lemma RateCeiling(gap: real, fs: real)
    requires fs > 0.0 && gap >= fs / 2.0
    ensures 60.0 * fs / gap <= 120.0
  {
    assert 60.0 * fs <= 120.0 * gap;
    assert 60.0 * fs / gap <= 120.0 * gap / gap;
  }

  // ------------------------------------------------------------- statistics

  function Sum(s: seq<real>): real {
    if |s| == 0 then 0.0 else s[0] + Sum(s[1..])
  }


  function Min(s: seq<real>): (m: real)
    requires |s| > 0
    ensures forall i :: 0 <= i < |s| ==> m <= s[i]
    ensures exists i :: 0 <= i < |s| && m == s[i]
  {
    if |s| == 1 then s[0]
    else
      var rest := Min(s[1..]);
      assert forall i :: 1 <= i < |s| ==> s[i] == s[1..][i - 1];
      if s[0] <= rest then s[0] else rest
  }

  function Max(s: seq<real>): (m: real)
    requires |s| > 0
    ensures forall i :: 0 <= i < |s| ==> s[i] <= m
    ensures exists i :: 0 <= i < |s| && m == s[i]
  {
    if |s| == 1 then s[0]
    else
      var rest := Max(s[1..]);
      assert forall i :: 1 <= i < |s| ==> s[i] == s[1..][i - 1];
      if rest <= s[0] then s[0] else rest
  }

  /** A sum of terms between `lo` and `hi` lies between `n lo` and `n hi`. */
  lemma {:induction false} SumBetween(s: seq<real>, lo: real, hi: real)
    requires forall i :: 0 <= i < |s| ==> lo <= s[i] <= hi
    ensures |s| as real * lo <= Sum(s) <= |s| as real * hi
  {
    if |s| > 0 {
      assert forall i :: 0 <= i < |s| - 1 ==> s[1..][i] == s[i + 1];
      SumBetween(s[1..], lo, hi);
    }
  }

  lemma QuotientBetween(total: real, n: real, lo: real, hi: real)
    requires n > 0.0 && n * lo <= total <= n * hi
    ensures lo <= total / n <= hi
  {
    assert total / n - lo == (total - n * lo) / n;
    assert hi - total / n == (n * hi - total) / n;
  }

  /** `np.mean` of a non-empty array; it lies between the smallest and the
      largest term. */
  function Mean(s: seq<real>): (m: real)
    requires |s| > 0
    ensures Min(s) <= m <= Max(s)
  {
    SumBetween(s, Min(s), Max(s));
    QuotientBetween(Sum(s), |s| as real, Min(s), Max(s));
    Sum(s) / |s| as real
  }

  /** The mean of a non-empty sequence of terms in `[lo, hi]` is in `[lo, hi]`. */
  lemma MeanBetween(s: seq<real>, lo: real, hi: real)
    requires |s| > 0
    requires forall i :: 0 <= i < |s| ==> lo <= s[i] <= hi
    ensures lo <= Mean(s) <= hi
  {
    var i :| 0 <= i < |s| && Min(s) == s[i];
    var j :| 0 <= j < |s| && Max(s) == s[j];
  }

  /** The mean of a constant sequence is that constant. */
  lemma MeanOfConstant(s: seq<real>, c: real)
    requires |s| > 0
    requires forall i :: 0 <= i < |s| ==> s[i] == c
    ensures Mean(s) == c
  {
    MeanBetween(s, c, c);
  }

  // ---------------------------------------------------------------- calc_bpm

  /** The tail of `calc_bpm` for the given peak indices: the filter design is
      checked first, then the mean of the instantaneous rates is taken; with
      fewer than two peaks there is no interval to average. */
  function CalcBpm(peaks: seq<nat>, fs: real): (r: Result<real>)
    requires StrictlyIncreasing(peaks) && PeaksApart(peaks, fs)
    ensures r.Ok? <==> fs > 2.0 * HighCut && |peaks| >= 2
    ensures fs <= 2.0 * HighCut ==> r == Err(if fs == 0.0 then ZeroSamplingRate else InvalidFilterBand)
    ensures fs > 2.0 * HighCut && |peaks| < 2 ==> r == Err(InsufficientPeaks)
    ensures r.Ok? ==>
      var bpm := InstantaneousBpm(peaks, fs);
      && r.value == Mean(bpm)
      && Min(bpm) <= r.value <= Max(bpm)
      && 0.0 < r.value <= 120.0
  {
    match NormalizedBand(fs)
    case Err(e) => Err(e)
    case Ok(_) =>
      if |peaks| < 2 then Err(InsufficientPeaks)
      else
        var bpm := InstantaneousBpm(peaks, fs);
        BpmCeiling(peaks, fs);
        assert 0.0 < Min(bpm) && Max(bpm) <= 120.0;
        Ok(Mean(bpm))
  }

  /** Evenly spaced peaks `gap >= fs / 2` apart keep the peak finder's promise. */
  lemma EvenPeaksAreValid(peaks: seq<nat>, fs: real, gap: nat)
    requires fs > 0.0 && gap as real >= fs / 2.0
    requires forall i :: 0 <= i < |peaks| - 1 ==> peaks[i + 1] == peaks[i] + gap
    ensures StrictlyIncreasing(peaks) && PeaksApart(peaks, fs)
  {
    forall i | 0 <= i < |peaks| - 1
      ensures peaks[i] < peaks[i + 1] && (peaks[i + 1] as int - peaks[i]) as real >= fs / 2.0
    {
      assert peaks[i + 1] as int - peaks[i] == gap;
    }
  }

  /** A pulse whose peaks are evenly `gap` samples apart reads as exactly
      `60 fs / gap` beats per minute. */
  lemma EvenPeaksGiveTheirRate(peaks: seq<nat>, fs: real, gap: nat)
    requires fs > 2.0 * HighCut && |peaks| >= 2 && gap as real >= fs / 2.0
    requires forall i :: 0 <= i < |peaks| - 1 ==> peaks[i + 1] == peaks[i] + gap
    ensures StrictlyIncreasing(peaks) && PeaksApart(peaks, fs)
    ensures CalcBpm(peaks, fs) == Ok(60.0 * fs / gap as real)
  {
    EvenPeaksAreValid(peaks, fs, gap);
    var bpm := InstantaneousBpm(peaks, fs);
    var rate := 60.0 * fs / gap as real;
    forall i | 0 <= i < |bpm| ensures bpm[i] == rate {
      assert peaks[i + 1] as int - peaks[i] == gap;
    }
    MeanOfConstant(bpm, rate);
  }
}
