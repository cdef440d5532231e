/** Time-axis reconstruction and the lost-signal partition of the pulse
    channel, as the plotting routines compute them before drawing. */
module Signal {
  import opened Outcomes

  /** Samples whose magnitude is at most this are drawn as lost signal. */
  const LostThreshold: real := 0.02

  /** The guard of the "normal" comprehensions. */
  predicate IsNormal(v: real) {
    v < -LostThreshold || v > LostThreshold
  }

  /** The guard of the "lost" comprehensions; the band edges are lost. */
  predicate IsLost(v: real) {
    -LostThreshold <= v <= LostThreshold
  }

  /** The two guards are exact complements: every sample takes one route. */
  lemma GuardsAreComplements(v: real)
    ensures IsNormal(v) <==> !IsLost(v)
    ensures IsLost(-LostThreshold) && IsLost(LostThreshold) && IsLost(0.0)
  {
  }

  // ---------------------------------------------------------------- time axis

  /** `[i / fs for i in range(n)]`, built one sample at a time. */
  function Axis(n: nat, fs: real): (t: seq<real>)
    requires fs != 0.0
    ensures |t| == n
    ensures forall i :: 0 <= i < n ==> t[i] == i as real / fs
  {
    if n == 0 then [] else Axis(n - 1, fs) + [(n - 1) as real / fs]
  }

  /** The time axis for a list of samples. Python divides only while it
      iterates, so an empty list gives an empty axis even at rate zero. */
  function TimeAxis(values: seq<real>, fs: real): (r: Result<seq<real>>)
    ensures r.Err? <==> fs == 0.0 && |values| > 0
    ensures r.Err? ==> r.error == ZeroSamplingRate
    ensures r.Ok? ==> |r.value| == |values|
    ensures r.Ok? ==> forall i :: 0 <= i < |values| ==> r.value[i] == i as real / fs
  {
    if fs == 0.0 then
      if |values| == 0 then Ok([]) else Err(ZeroSamplingRate)
    else
      Ok(Axis(|values|, fs))
  }

  lemma DivMonotone(a: real, b: real, fs: real)
    requires fs > 0.0 && a < b
    ensures a / fs < b / fs
  {
    assert b / fs - a / fs == (b - a) / fs;
  }

  /** For a positive rate the axis starts at zero, is strictly increasing and
      is uniformly spaced by one sampling period. */
  lemma TimeAxisUniform(values: seq<real>, fs: real)
    requires fs > 0.0
    ensures TimeAxis(values, fs).Ok?
    ensures |values| > 0 ==> TimeAxis(values, fs).value[0] == 0.0
    ensures forall i, j :: 0 <= i < j < |values| ==>
      TimeAxis(values, fs).value[i] < TimeAxis(values, fs).value[j]
    ensures forall i :: 0 <= i < |values| - 1 ==>
      TimeAxis(values, fs).value[i + 1] - TimeAxis(values, fs).value[i] == 1.0 / fs
  {
    var t := TimeAxis(values, fs).value;
    forall i, j | 0 <= i < j < |values| ensures t[i] < t[j] {
      DivMonotone(i as real, j as real, fs);
    }
    forall i | 0 <= i < |values| - 1 ensures t[i + 1] - t[i] == 1.0 / fs {
      assert (i + 1) as real / fs - i as real / fs == ((i + 1) as real - i as real) / fs;
    }
  }

  // ---------------------------------------------------------------- partition

  /** Which of the two plotted traces a sample is drawn in. */
  datatype Route = Normal | Lost

  predicate Takes(r: Route, v: real) {
    match r
    case Normal => IsNormal(v)
    case Lost => IsLost(v)
  }

  /** The indices `i in range(len(values))` whose sample passes the guard of
      route `r`, in increasing order. */
  function RoutedIndices(values: seq<real>, r: Route): (idx: seq<nat>)
    ensures forall k :: 0 <= k < |idx| ==> idx[k] < |values| && Takes(r, values[idx[k]])
    ensures forall k, l :: 0 <= k < l < |idx| ==> idx[k] < idx[l]
    ensures forall i :: 0 <= i < |values| && Takes(r, values[i]) ==> i in idx
  {
    if |values| == 0 then []
    else
      var n := |values| - 1;
      var prefix := RoutedIndices(values[..n], r);
      assert forall i :: 0 <= i < n ==> values[..n][i] == values[i];
      if Takes(r, values[n]) then prefix + [n] else prefix
  }

  /** `[xs[i] for i in range(len(values)) if guard(values[i])]`: one entry
      per routed index, entry `k` being the entry of `xs` at the `k`-th
      routed index, so the original order is kept. */
  function Select(values: seq<real>, xs: seq<real>, r: Route): (s: seq<real>)
    requires |xs| == |values|
    ensures |s| == |RoutedIndices(values, r)|
    ensures forall k :: 0 <= k < |s| ==> s[k] == xs[RoutedIndices(values, r)[k]]
  {
    if |values| == 0 then []
    else
      var n := |values| - 1;
      var s0, i0 := Select(values[..n], xs[..n], r), RoutedIndices(values[..n], r);
      assert forall k :: 0 <= k < |s0| ==> s0[k] == xs[i0[k]];
      assert RoutedIndices(values, r) == i0 + (if Takes(r, values[n]) then [n] else []);
      s0 + (if Takes(r, values[n]) then [xs[n]] else [])
  }

  /** The two index lists together are as long as the sample list. */
  lemma {:induction false} RoutesPartition(values: seq<real>)
    ensures |RoutedIndices(values, Normal)| + |RoutedIndices(values, Lost)| == |values|
  {
    if |values| > 0 {
      var n := |values| - 1;
      RoutesPartition(values[..n]);
      assert values[..n] == values[..|values| - 1];
      GuardsAreComplements(values[n]);
    }
  }

  /** Every index takes exactly one route. */
  lemma RoutesCover(values: seq<real>)
    ensures forall i :: 0 <= i < |values| ==>
      (i in RoutedIndices(values, Normal) <==> i !in RoutedIndices(values, Lost))
  {
    forall i | 0 <= i < |values|
      ensures i in RoutedIndices(values, Normal) <==> i !in RoutedIndices(values, Lost)
    {
      GuardsAreComplements(values[i]);
    }
  }

  /** The four series `plot_bvp_values` draws. */
  datatype BvpPartition = BvpPartition(
    normalTime: seq<real>, normalBvp: seq<real>,
    lostTime: seq<real>, lostBvp: seq<real>)

  /** The time axis and the four comprehensions of `plot_bvp_values`. */
  function PartitionBvp(bvp: seq<real>, fs: real): (r: Result<BvpPartition>)
    ensures r.Err? <==> fs == 0.0 && |bvp| > 0
    ensures r.Err? ==> r.error == ZeroSamplingRate
    ensures r.Ok? ==>
      var p := r.value;
      var normal := RoutedIndices(bvp, Normal);
      var lost := RoutedIndices(bvp, Lost);
      && |p.normalBvp| + |p.lostBvp| == |bvp|
      && |p.normalTime| == |p.normalBvp| == |normal|
      && |p.lostTime| == |p.lostBvp| == |lost|
      && (forall i :: 0 <= i < |bvp| ==> (i in normal <==> i !in lost))
      && (forall k :: 0 <= k < |normal| ==>
            p.normalBvp[k] == bvp[normal[k]] && p.normalTime[k] == normal[k] as real / fs)
      && (forall k :: 0 <= k < |lost| ==>
            p.lostBvp[k] == bvp[lost[k]] && p.lostTime[k] == lost[k] as real / fs)
  {
    match TimeAxis(bvp, fs)
    case Err(e) => Err(e)
    case Ok(t) =>
      RoutesPartition(bvp);
      RoutesCover(bvp);
      Ok(BvpPartition(Select(bvp, t, Normal), Select(bvp, bvp, Normal),
                      Select(bvp, t, Lost), Select(bvp, bvp, Lost)))
  }
}
