/**
 * Statistics over one closed window (backend/featureExtraction.js): per-sensor
 * pitch statistics, cross-sensor alignment and the data-quality class.
 *
 * Pitches are exact reals. The source rounds the reported values with
 * `toFixed` and reports the standard deviation as the square root of the
 * population variance; here the variance itself is carried and nothing is
 * rounded.
 */
module Features {
  import opened Wrappers
  import opened JsValues
  import opened Windows

  /** `SLOUCH_DEG`: a pitch at or above this many degrees counts as slouching. */
  const SlouchDeg: real := 15.0

  /** `minSamplesForQuality`: fewer samples than this on both sensors is a low-quality window. */
  const MinSamplesForQuality: nat := 50

  // ---------------------------------------------------------------------
  // Sequences of pitches

  /** The finite numeric pitches of `samples`, in order; every other sample is ignored. */
  function Pitches(samples: seq<Record>): (ps: seq<real>)
    ensures |ps| <= |samples|
    decreases |samples|
  {
    if samples == [] then []
    else
      var last := samples[|samples| - 1];
      Pitches(samples[..|samples| - 1]) + (match FinitePitch(last) case Some(p) => [p] case None => [])
  }

  /** Appending a sample adds its pitch at the end if it has a finite numeric one, and nothing otherwise. */
  lemma PitchesOfAppend(samples: seq<Record>, s: Record)
    ensures FinitePitch(s).None? ==> Pitches(samples + [s]) == Pitches(samples)
    ensures FinitePitch(s).Some? ==> Pitches(samples + [s]) == Pitches(samples) + [FinitePitch(s).value]
  {
    assert (samples + [s])[..|samples|] == samples;
  }

  /** There are no pitches exactly when no sample has a finite numeric pitch. */
  lemma {:induction false} NoPitchesIff(samples: seq<Record>)
    ensures Pitches(samples) == [] <==> forall i :: 0 <= i < |samples| ==> FinitePitch(samples[i]).None?
    decreases |samples|
  {
    if samples != [] {
      var init := samples[..|samples| - 1];
      NoPitchesIff(init);
      assert forall i :: 0 <= i < |init| ==> init[i] == samples[i];
    }
  }

  function Sum(ps: seq<real>): real
    decreases |ps|
  {
    if ps == [] then 0.0 else Sum(ps[..|ps| - 1]) + ps[|ps| - 1]
  }

  /** `Math.min(...ps)`. */
  function Min(ps: seq<real>): (m: real)
    requires ps != []
    ensures m in ps
    ensures forall i :: 0 <= i < |ps| ==> m <= ps[i]
    decreases |ps|
  {
    if |ps| == 1 then ps[0]
    else
      var m := Min(ps[..|ps| - 1]);
      if ps[|ps| - 1] < m then ps[|ps| - 1] else m
  }

  /** `Math.max(...ps)`. */
  function Max(ps: seq<real>): (m: real)
    requires ps != []
    ensures m in ps
    ensures forall i :: 0 <= i < |ps| ==> ps[i] <= m
    decreases |ps|
  {
    if |ps| == 1 then ps[0]
    else
      var m := Max(ps[..|ps| - 1]);
      if m < ps[|ps| - 1] then ps[|ps| - 1] else m
  }

  /** The sum of squared deviations from `mean`. */
  function SquaredDeviations(ps: seq<real>, mean: real): real
    decreases |ps|
  {
    if ps == [] then 0.0
    else SquaredDeviations(ps[..|ps| - 1], mean) + (ps[|ps| - 1] - mean) * (ps[|ps| - 1] - mean)
  }

  /** How many of `ps` are at or above `threshold`. */
  function CountAtLeast(ps: seq<real>, threshold: real): (c: nat)
    ensures c <= |ps|
    decreases |ps|
  {
    if ps == [] then 0
    else CountAtLeast(ps[..|ps| - 1], threshold) + (if ps[|ps| - 1] >= threshold then 1 else 0)
  }

  /** A sum lies between `n` times a lower bound and `n` times an upper bound of its terms. */
  lemma {:induction false} SumBetween(ps: seq<real>, lo: real, hi: real)
    requires forall i :: 0 <= i < |ps| ==> lo <= ps[i] <= hi
    ensures |ps| as real * lo <= Sum(ps) <= |ps| as real * hi
    decreases |ps|
  {
    if ps != [] {
      var init := ps[..|ps| - 1];
      assert forall i :: 0 <= i < |init| ==> init[i] == ps[i];
      SumBetween(init, lo, hi);
      assert |ps| as real * lo == |init| as real * lo + lo;
      assert |ps| as real * hi == |init| as real * hi + hi;
    }
  }

  lemma {:induction false} SquaredDeviationsNonNegative(ps: seq<real>, mean: real)
    ensures SquaredDeviations(ps, mean) >= 0.0
    decreases |ps|
  {
    if ps != [] {
      SquaredDeviationsNonNegative(ps[..|ps| - 1], mean);
      var d := ps[|ps| - 1] - mean;
      assert d * d >= 0.0;
    }
  }

  /** Nothing at or above a threshold every pitch is below, everything when every pitch reaches it. */
  lemma {:induction false} CountAtLeastExtremes(ps: seq<real>, threshold: real)
    ensures (forall i :: 0 <= i < |ps| ==> ps[i] < threshold) ==> CountAtLeast(ps, threshold) == 0
    ensures (forall i :: 0 <= i < |ps| ==> ps[i] >= threshold) ==> CountAtLeast(ps, threshold) == |ps|
    decreases |ps|
  {
    if ps != [] {
      var init := ps[..|ps| - 1];
      assert forall i :: 0 <= i < |init| ==> init[i] == ps[i];
      CountAtLeastExtremes(init, threshold);
    }
  }

  // ---------------------------------------------------------------------
  // Per-sensor statistics

  /**
   * `computeSensorStats`' result. `variancePitch` is the population variance
   * whose square root the source reports as `stdDevPitch`.
   */
  datatype SensorStats = SensorStats(
    sampleCount: nat,
    meanPitch: Option<real>,
    variancePitch: Option<real>,
    minPitch: Option<real>,
    maxPitch: Option<real>,
    slouchPercent: real,
    hasData: bool)

  /** The statistics of a sensor without a single finite numeric pitch. */
  const NoData: SensorStats := SensorStats(0, None, None, None, None, 0.0, false)

  /** The share of `ps`, in percent, at or above the slouch threshold. */
  function SlouchPercent(ps: seq<real>): (pct: real)
    requires ps != []
    ensures 0.0 <= pct <= 100.0
    ensures (forall i :: 0 <= i < |ps| ==> ps[i] < SlouchDeg) ==> pct == 0.0
    ensures (forall i :: 0 <= i < |ps| ==> ps[i] >= SlouchDeg) ==> pct == 100.0
  {
    var c := CountAtLeast(ps, SlouchDeg);
    CountAtLeastExtremes(ps, SlouchDeg);
    PercentBounds(c, |ps|);
    (c as real / |ps| as real) * 100.0
  }

  lemma PercentBounds(c: nat, n: nat)
    requires 0 < n && c <= n
    ensures 0.0 <= (c as real / n as real) * 100.0 <= 100.0
  {
    assert c as real / n as real <= 1.0;
  }

  /** `mean` lies between the least and the greatest of `ps`. */
  lemma MeanBetweenMinAndMax(ps: seq<real>)
    requires ps != []
    ensures Min(ps) <= Sum(ps) / |ps| as real <= Max(ps)
  {
    MeanBetween(ps, Min(ps), Max(ps));
  }

  /** The mean of terms that all lie in [lo, hi] lies in [lo, hi]. */
  lemma MeanBetween(ps: seq<real>, lo: real, hi: real)
    requires ps != []
    requires forall i :: 0 <= i < |ps| ==> lo <= ps[i] <= hi
    ensures lo <= Sum(ps) / |ps| as real <= hi
  {
    SumBetween(ps, lo, hi);
    var n, s := |ps| as real, Sum(ps);
    assert n * lo <= s <= n * hi;
    DivideBetween(lo, s, hi, n);
  }

  lemma DivideBetween(lo: real, s: real, hi: real, n: real)
    requires n > 0.0 && n * lo <= s <= n * hi
    ensures lo <= s / n <= hi
  {
  }

  lemma DivideNonNegative(s: real, n: real)
    requires n > 0.0 && s >= 0.0
    ensures s / n >= 0.0
  {
  }

  /**
   * `computeSensorStats`: without a finite numeric pitch every statistic is
   * null and the slouch share is 0; otherwise the count is the number of
   * such pitches, the minimum, maximum and mean are theirs (so
   * min <= mean <= max), the variance is non-negative and the slouch share
   * is the percentage of them at or above the threshold.
   */
  function ComputeSensorStats(samples: seq<Record>): (st: SensorStats)
    ensures st.hasData <==> Pitches(samples) != []
    ensures st.sampleCount == |Pitches(samples)|
    ensures !st.hasData ==> st == NoData
    ensures st.hasData ==>
      && st.sampleCount > 0
      && st.meanPitch.Some? && st.variancePitch.Some? && st.minPitch.Some? && st.maxPitch.Some?
      && st.minPitch.value <= st.meanPitch.value <= st.maxPitch.value
      && st.variancePitch.value >= 0.0
      && 0.0 <= st.slouchPercent <= 100.0
    ensures st.hasData ==>
      && st.minPitch == Some(Min(Pitches(samples))) && st.maxPitch == Some(Max(Pitches(samples)))
      && st.meanPitch == Some(Sum(Pitches(samples)) / |Pitches(samples)| as real)
      && st.slouchPercent == SlouchPercent(Pitches(samples))
  {
    var ps := Pitches(samples);
    if |ps| == 0 then NoData
    else
      var n := |ps| as real;
      var mean := Sum(ps) / n;
      MeanBetweenMinAndMax(ps);
      SquaredDeviationsNonNegative(ps, mean);
      DivideNonNegative(SquaredDeviations(ps, mean), n);
      SensorStats(|ps|, Some(mean), Some(SquaredDeviations(ps, mean) / n), Some(Min(ps)), Some(Max(ps)),
                  SlouchPercent(ps), true)
  }

  /** Samples without a finite numeric pitch leave the statistics as they are. */
  lemma IgnoresSamplesWithoutPitch(samples: seq<Record>, s: Record)
    requires FinitePitch(s).None?
    ensures ComputeSensorStats(samples + [s]) == ComputeSensorStats(samples)
  {
    PitchesOfAppend(samples, s);
  }

  /** All pitches below the threshold give no slouching; all at or above it give 100 %. */
  lemma SlouchExtremes(samples: seq<Record>)
    requires Pitches(samples) != []
    ensures (forall i :: 0 <= i < |Pitches(samples)| ==> Pitches(samples)[i] < SlouchDeg) ==> ComputeSensorStats(samples).slouchPercent == 0.0
    ensures (forall i :: 0 <= i < |Pitches(samples)| ==> Pitches(samples)[i] >= SlouchDeg) ==> ComputeSensorStats(samples).slouchPercent == 100.0
  {
  }

  // ---------------------------------------------------------------------
  // Cross-sensor alignment

  datatype Alignment = Alignment(pitchDifference: Option<real>, alignmentScore: Option<real>, bothActive: bool)

  function Abs(x: real): real {
    if x < 0.0 then -x else x
  }

  /**
   * `computeAlignmentMetrics`: with both sensors active, the difference is
   * the distance between the means and the score is 100 less five points
   * per degree, never below 0. A null mean reads as 0 in the subtraction,
   * as JavaScript coerces it.
   */
  function ComputeAlignment(s1: SensorStats, s2: SensorStats): (a: Alignment)
    ensures a.bothActive <==> s1.hasData && s2.hasData
    ensures !a.bothActive ==> a.pitchDifference.None? && a.alignmentScore.None?
    ensures a.bothActive ==> a.pitchDifference.Some? && a.alignmentScore.Some?
    ensures a.bothActive ==> a.pitchDifference.value >= 0.0 && 0.0 <= a.alignmentScore.value <= 100.0
    ensures a.bothActive ==> (a.alignmentScore.value == 100.0 <==> a.pitchDifference.value == 0.0)
    ensures a.bothActive ==> (a.alignmentScore.value == 0.0 <==> a.pitchDifference.value >= 20.0)
    ensures a.bothActive ==>
      || a.pitchDifference.value == s1.meanPitch.GetOr(0.0) - s2.meanPitch.GetOr(0.0)
      || a.pitchDifference.value == s2.meanPitch.GetOr(0.0) - s1.meanPitch.GetOr(0.0)
    ensures a.bothActive ==>
      && a.alignmentScore.value >= 100.0 - 5.0 * a.pitchDifference.value
      && (a.alignmentScore.value == 0.0 || a.alignmentScore.value == 100.0 - 5.0 * a.pitchDifference.value)
  {
    if !s1.hasData || !s2.hasData then Alignment(None, None, false)
    else
      var diff := Abs(s1.meanPitch.GetOr(0.0) - s2.meanPitch.GetOr(0.0));
      var score := if 100.0 - diff * 5.0 < 0.0 then 0.0 else 100.0 - diff * 5.0;
      Alignment(Some(diff), Some(score), true)
  }

  /** The closer the two sensors' means, the higher the score. */
  lemma AlignmentScoreMonotone(a1: SensorStats, b1: SensorStats, a2: SensorStats, b2: SensorStats)
    requires ComputeAlignment(a1, b1).bothActive && ComputeAlignment(a2, b2).bothActive
    requires ComputeAlignment(a1, b1).pitchDifference.value <= ComputeAlignment(a2, b2).pitchDifference.value
    ensures ComputeAlignment(a2, b2).alignmentScore.value <= ComputeAlignment(a1, b1).alignmentScore.value
  {
  }

  // ---------------------------------------------------------------------
  // Data quality

  datatype DataQuality = Low | Partial | Good {
    /** The string the payload carries. */
    function Name(): string {
      match this
      case Low => "low"
      case Partial => "partial"
      case Good => "good"
    }
  }

  datatype Quality = Quality(
    lowSamples: bool,
    missingSensor1: bool,
    missingSensor2: bool,
    onlyOneSensor: bool,
    dataQuality: DataQuality)

  /**
   * `computeDataQuality` (its window argument is unused): low when both
   * sensors have fewer than 50 samples, else partial when exactly one has
   * data, else good.
   */
  function ComputeDataQuality(w: Window, s1: SensorStats, s2: SensorStats): (q: Quality)
    ensures q.lowSamples <==> s1.sampleCount < MinSamplesForQuality && s2.sampleCount < MinSamplesForQuality
    ensures q.missingSensor1 == !s1.hasData && q.missingSensor2 == !s2.hasData
    ensures q.onlyOneSensor <==> s1.hasData != s2.hasData
    ensures q.dataQuality == Low <==> q.lowSamples
    ensures q.dataQuality == Partial <==> !q.lowSamples && q.onlyOneSensor
    ensures q.dataQuality == Good <==> !q.lowSamples && !q.onlyOneSensor
  {
    var lowSamples := s1.sampleCount < MinSamplesForQuality && s2.sampleCount < MinSamplesForQuality;
    var onlyOneSensor := (s1.hasData && !s2.hasData) || (!s1.hasData && s2.hasData);
    Quality(lowSamples, !s1.hasData, !s2.hasData, onlyOneSensor,
            if lowSamples then Low else if onlyOneSensor then Partial else Good)
  }

  // ---------------------------------------------------------------------
  // The window's feature bundle

  /** `computeWindowFeatures`' result; the bounds are instants rather than ISO-8601 strings. */
  datatype WindowFeatures = WindowFeatures(
    windowStart: int,
    windowEnd: int,
    sensor1: SensorStats,
    sensor2: SensorStats,
    alignment: Alignment,
    quality: Quality,
    slouchThresholdDeg: real)

  /** `computeWindowFeatures`: sensor 1's samples give `sensor1`, sensor 2's give `sensor2`. */
  function ComputeWindowFeatures(w: Window): (f: WindowFeatures)
    ensures f.windowStart == w.start && f.windowEnd == w.end
    ensures f.sensor1 == ComputeSensorStats(w.sensor1) && f.sensor2 == ComputeSensorStats(w.sensor2)
    ensures f.alignment == ComputeAlignment(f.sensor1, f.sensor2)
    ensures f.quality == ComputeDataQuality(w, f.sensor1, f.sensor2)
    ensures f.slouchThresholdDeg == SlouchDeg
  {
    var s1 := ComputeSensorStats(w.sensor1);
    var s2 := ComputeSensorStats(w.sensor2);
    WindowFeatures(w.start, w.end, s1, s2, ComputeAlignment(s1, s2), ComputeDataQuality(w, s1, s2), SlouchDeg)
  }

  /** A window with no samples on either sensor is always of low quality, with no alignment. */
  lemma EmptyWindowIsLow(w: Window)
    requires w.sensor1 == [] && w.sensor2 == []
    ensures ComputeWindowFeatures(w).quality.dataQuality == Low
    ensures !ComputeWindowFeatures(w).alignment.bothActive
  {
  }

  /**
   * A good window has data on both sensors, at least 50 finite pitches on
   * one of them, and hence an alignment score.
   */
  lemma GoodWindowHasBothSensors(w: Window)
    requires ComputeWindowFeatures(w).quality.dataQuality == Good
    ensures ComputeWindowFeatures(w).sensor1.hasData && ComputeWindowFeatures(w).sensor2.hasData
    ensures |Pitches(w.sensor1)| >= MinSamplesForQuality || |Pitches(w.sensor2)| >= MinSamplesForQuality
    ensures ComputeWindowFeatures(w).alignment.bothActive
  {
    var f := ComputeWindowFeatures(w);
    assert f.sensor1.hasData || f.sensor2.hasData;
  }

  /** Twenty samples at 5 degrees, copies of `s`, on sensor 1 and none on sensor 2. */
  lemma {:induction false} QuietCopies(s: Record, k: nat)
    requires FinitePitch(s) == Some(5.0)
    ensures Pitches(seq(k, _ => s)) == seq(k, _ => 5.0)
    decreases k
  {
    if k > 0 {
      assert seq(k, _ => s)[..k - 1] == seq(k - 1, _ => s);
      QuietCopies(s, k - 1);
      assert seq(k - 1, _ => 5.0) + [5.0] == seq(k, _ => 5.0);
    }
  }

  /**
   * Twenty samples at 5 degrees on sensor 1 and none on sensor 2: no
   * slouching, no alignment, and, both counts being under 50, low quality.
   */
  lemma OneQuietSensor(s: Record, start: int, end: int)
    requires FinitePitch(s) == Some(5.0)
    ensures var f := ComputeWindowFeatures(Window(seq(20, _ => s), [], start, end));
      && f.sensor1.slouchPercent == 0.0
      && f.sensor1.sampleCount == 20
      && !f.alignment.bothActive
      && f.quality.dataQuality == Low
  {
    QuietCopies(s, 20);
    var ps := seq(20, _ => 5.0);
    assert forall i :: 0 <= i < |ps| ==> ps[i] < SlouchDeg;
  }
}
