/**
 * `calculateAudioStats` of the analysis worker: duration, RMS, peak,
 * dynamic range, zero-crossing rate and spectral centroid of one channel.
 * An empty buffer makes RMS, dynamic range and rate `NaN` (`None` here).
 */
module AudioStats {
  import opened Wrappers
  import opened Arith
  import opened Frames

  function Abs(x: real): real {
    if x < 0.0 then -x else x
  }

  /** The running `peak = Math.max(peak, Math.abs(x))` from 0: the largest magnitude, 0 for no samples. */
  function MaxAbs(s: seq<real>): (m: real)
    ensures m >= 0.0
    ensures forall i :: 0 <= i < |s| ==> Abs(s[i]) <= m
    ensures s != [] ==> exists i :: 0 <= i < |s| && m == Abs(s[i])
    ensures s == [] ==> m == 0.0
  {
    if s == [] then 0.0
    else
      var m := MaxAbs(s[..|s| - 1]);
      var a := Abs(s[|s| - 1]);
      if m > a then m else a
  }

  /** The peak loop. */
  method Peak(s: seq<real>) returns (peak: real)
    ensures peak == MaxAbs(s)
  {
    peak := 0.0;
    var i := 0;
    while i < |s|
      invariant i <= |s|
      invariant peak == MaxAbs(s[..i])
    {
      assert s[..i + 1][..i] == s[..i];
      var a := Abs(s[i]);
      peak := if peak > a then peak else a;
      i := i + 1;
    }
    assert s[..i] == s;
  }

  /** The RMS loop: `rmsSum += x * x`. */
  method SumOfSquares(s: seq<real>) returns (sum: real)
    ensures sum == Energy(s, 0, |s|)
  {
    sum := 0.0;
    var i := 0;
    while i < |s|
      invariant i <= |s|
      invariant sum == Energy(s, 0, i)
    {
      sum := sum + s[i] * s[i];
      i := i + 1;
    }
  }

  /** Samples `i - 1` and `i` lie on different sides of zero (0 counts as non-negative). */
  predicate Crosses(s: seq<real>, i: int)
    requires 1 <= i < |s|
  {
    (s[i] >= 0.0) != (s[i - 1] >= 0.0)
  }

  /** The zero crossings at positions `1 .. n - 1`. */
  function CrossingsBelow(s: seq<real>, n: nat): (c: nat)
    requires n <= |s|
    ensures n >= 1 ==> c <= n - 1
    ensures n == 0 ==> c == 0
  {
    if n <= 1 then 0 else CrossingsBelow(s, n - 1) + (if Crosses(s, n - 1) then 1 else 0)
  }

  /** The zero crossings of the whole buffer: fewer than its length, and even exactly when it ends on the side it started. */
  function Crossings(s: seq<real>): (c: nat)
    ensures |s| <= 1 ==> c == 0
    ensures |s| >= 1 ==> c <= |s| - 1 && (c % 2 == 0 <==> ((s[0] >= 0.0) == (s[|s| - 1] >= 0.0)))
  {
    var c := CrossingsBelow(s, |s|);
    assert |s| >= 1 ==> (c % 2 == 0 <==> ((s[0] >= 0.0) == (s[|s| - 1] >= 0.0))) by {
      if |s| >= 1 {
        CrossingsParity(s, |s|);
      }
    }
    c
  }

  /** The zero-crossing loop. */
  method ZeroCrossings(s: seq<real>) returns (zeroCrossings: nat)
    ensures zeroCrossings == Crossings(s)
  {
    zeroCrossings := 0;
    var i := 1;
    while i < |s|
      invariant 1 <= i && (i <= |s| || |s| == 0)
      invariant zeroCrossings == CrossingsBelow(s, if |s| == 0 then 0 else i)
    {
      if (s[i] >= 0.0) != (s[i - 1] >= 0.0) {
        zeroCrossings := zeroCrossings + 1;
      }
      i := i + 1;
    }
  }

  /** A buffer crosses zero an even number of times exactly when it ends on the side it started. */
  lemma {:induction false} CrossingsParity(s: seq<real>, n: nat)
    requires 1 <= n <= |s|
    ensures CrossingsBelow(s, n) % 2 == 0 <==> ((s[0] >= 0.0) == (s[n - 1] >= 0.0))
  {
    if n > 1 {
      CrossingsParity(s, n - 1);
    }
  }

  /** A buffer that never goes below zero never crosses it. */
  lemma {:induction false} NonNegativeNoCrossings(s: seq<real>, n: nat)
    requires n <= |s|
    requires forall i :: 0 <= i < |s| ==> s[i] >= 0.0
    ensures CrossingsBelow(s, n) == 0
  {
    if n > 1 {
      NonNegativeNoCrossings(s, n - 1);
    }
  }

  /** A silent buffer has peak 0 and no zero crossing. */
  lemma SilentBuffer(s: seq<real>)
    requires forall i :: 0 <= i < |s| ==> s[i] == 0.0
    ensures MaxAbs(s) == 0.0 && Crossings(s) == 0
  {
    NonNegativeNoCrossings(s, |s|);
    if s != [] {
      var i :| 0 <= i < |s| && MaxAbs(s) == Abs(s[i]);
    }
  }

  /** The centroid frame size and hop. */
  const CentroidFrame: nat := 2048

  /** `j * sampleRate / frameSize`: the frequency of bin `j` of a 2048-sample frame. */
  function CentroidFrequency(j: nat, sampleRate: nat): real {
    (j * sampleRate) as real / 2048.0
  }

  /** `weightedFreqSum` over the first `n` bins. */
  function WeightedSum(sp: seq<real>, sampleRate: nat, n: nat): real
    requires n <= |sp|
  {
    if n == 0 then 0.0 else WeightedSum(sp, sampleRate, n - 1) + CentroidFrequency(n - 1, sampleRate) * sp[n - 1]
  }

  /** `magnitudeSum` over the first `n` bins. */
  function MagnitudeSum(sp: seq<real>, n: nat): real
    requires n <= |sp|
  {
    if n == 0 then 0.0 else MagnitudeSum(sp, n - 1) + sp[n - 1]
  }

  /** The spectrum of centroid frame `f`, the samples `[2048 f, 2048 f + 2048)`. */
  function FrameSpectrum(s: seq<real>, dft: (seq<real>, nat) -> real, f: nat): (sp: seq<real>)
    requires f < FrameCount(|s|, CentroidFrame, CentroidFrame)
    ensures |sp| == CentroidFrame
  {
    FrameEnumeration(f, |s|, CentroidFrame, CentroidFrame);
    Fft(s[f * CentroidFrame .. f * CentroidFrame + CentroidFrame], dft)
  }

  /** The running centroid sum and the count of frames with a positive magnitude sum, over the first `n` frames. */
  function CentroidTotals(s: seq<real>, sampleRate: nat, dft: (seq<real>, nat) -> real, n: nat): (t: (real, nat))
    requires n <= FrameCount(|s|, CentroidFrame, CentroidFrame)
    ensures t.1 <= n
  {
    if n == 0 then (0.0, 0)
    else
      var (sum, count) := CentroidTotals(s, sampleRate, dft, n - 1);
      var sp := FrameSpectrum(s, dft, n - 1);
      var weighted := WeightedSum(sp, sampleRate, CentroidFrame / 2);
      var magnitude := MagnitudeSum(sp, CentroidFrame / 2);
      if magnitude > 0.0 then (sum + weighted / magnitude, count + 1) else (sum, count)
  }

  /** Centroid frame `g` has a positive magnitude sum over the lower half of its spectrum. */
  predicate PositiveFrame(s: seq<real>, dft: (seq<real>, nat) -> real, g: nat)
    requires g < FrameCount(|s|, CentroidFrame, CentroidFrame)
  {
    MagnitudeSum(FrameSpectrum(s, dft, g), CentroidFrame / 2) > 0.0
  }

  /**
   * The count of `CentroidTotals` is the number of the first `n` frames with
   * a positive magnitude sum: 0 exactly when none has one, `n` exactly when all do.
   */
  lemma {:induction false} CentroidCount(s: seq<real>, sampleRate: nat, dft: (seq<real>, nat) -> real, n: nat)
    requires n <= FrameCount(|s|, CentroidFrame, CentroidFrame)
    ensures CentroidTotals(s, sampleRate, dft, n).1 == 0 <==> forall g :: 0 <= g < n ==> !PositiveFrame(s, dft, g)
    ensures CentroidTotals(s, sampleRate, dft, n).1 == n <==> forall g :: 0 <= g < n ==> PositiveFrame(s, dft, g)
  {
    if n > 0 {
      CentroidCount(s, sampleRate, dft, n - 1);
      var before := CentroidTotals(s, sampleRate, dft, n - 1).1;
      assert CentroidTotals(s, sampleRate, dft, n).1 == if PositiveFrame(s, dft, n - 1) then before + 1 else before;
    }
  }

  /** The mean per-frame centroid over the frames with a positive magnitude sum, 0 when there is none. */
  function SpectralCentroid(s: seq<real>, sampleRate: nat, dft: (seq<real>, nat) -> real): (c: real)
    ensures c != 0.0 ==> |s| > CentroidFrame
    ensures c != 0.0 ==> CentroidTotals(s, sampleRate, dft, FrameCount(|s|, CentroidFrame, CentroidFrame)).1 >= 1
  {
    var (sum, count) := CentroidTotals(s, sampleRate, dft, FrameCount(|s|, CentroidFrame, CentroidFrame));
    if count > 0 then sum / count as real else 0.0
  }

  /** Centroid frames are enumerated while they end before the last sample, and never overlap. */
  lemma CentroidFrames(len: nat, f: nat, g: nat)
    requires f < g
    ensures g < FrameCount(len, CentroidFrame, CentroidFrame) <==> g * CentroidFrame + CentroidFrame < len
    ensures f * CentroidFrame + CentroidFrame <= g * CentroidFrame
  {
    FrameEnumeration(g, len, CentroidFrame, CentroidFrame);
    FramesDisjoint(f, g, CentroidFrame, CentroidFrame);
  }

  /** A buffer of at most 2048 samples has no centroid frame, so its centroid is 0. */
  lemma ShortBufferCentroid(s: seq<real>, sampleRate: nat, dft: (seq<real>, nat) -> real)
    requires |s| <= CentroidFrame
    ensures FrameCount(|s|, CentroidFrame, CentroidFrame) == 0
    ensures SpectralCentroid(s, sampleRate, dft) == 0.0
  {
  }

  /** The bin loop of one centroid frame: the sums over the lower half of its spectrum. */
  method BinSums(spectrum: seq<real>, sampleRate: nat) returns (weightedFreqSum: real, magnitudeSum: real)
    requires |spectrum| == CentroidFrame
    ensures weightedFreqSum == WeightedSum(spectrum, sampleRate, CentroidFrame / 2)
    ensures magnitudeSum == MagnitudeSum(spectrum, CentroidFrame / 2)
  {
    var frameSize := CentroidFrame;
    weightedFreqSum, magnitudeSum := 0.0, 0.0;
    var j := 0;
    while 2 * j < |spectrum|
      invariant j <= frameSize / 2
      invariant weightedFreqSum == WeightedSum(spectrum, sampleRate, j)
      invariant magnitudeSum == MagnitudeSum(spectrum, j)
    {
      var freq := (j * sampleRate) as real / frameSize as real;
      var magnitude := spectrum[j];
      weightedFreqSum := weightedFreqSum + freq * magnitude;
      magnitudeSum := magnitudeSum + magnitude;
      j := j + 1;
    }
  }

  /** The centroid loop over frames `i = 0, 2048, ...` below `len - 2048`, with the bin loop inside. */
  method ComputeSpectralCentroid(s: seq<real>, sampleRate: nat, dft: (seq<real>, nat) -> real) returns (spectralCentroid: real)
    ensures spectralCentroid == SpectralCentroid(s, sampleRate, dft)
  {
    var frameSize := CentroidFrame;
    spectralCentroid := 0.0;
    var frameCount := 0;
    var i := 0;
    ghost var f := 0;
    while i < |s| - frameSize
      invariant i == f * frameSize
      invariant f <= FrameCount(|s|, frameSize, frameSize)
      invariant (spectralCentroid, frameCount) == CentroidTotals(s, sampleRate, dft, f)
      decreases |s| - i
    {
      FrameEnumeration(f, |s|, frameSize, frameSize);
      var frame := s[i .. i + frameSize];
      var spectrum := Fft(frame, dft);
      assert spectrum == FrameSpectrum(s, dft, f);
      var weightedFreqSum, magnitudeSum := BinSums(spectrum, sampleRate);
      if magnitudeSum > 0.0 {
        spectralCentroid := spectralCentroid + weightedFreqSum / magnitudeSum;
        frameCount := frameCount + 1;
      }
      i := i + frameSize;
      f := f + 1;
    }
    FrameEnumeration(f, |s|, frameSize, frameSize);
    spectralCentroid := if frameCount > 0 then spectralCentroid / frameCount as real else 0.0;
  }

  /** The quotient of two positive numbers is positive. */
  lemma PositiveQuotient(a: real, b: real)
    requires a > 0.0 && b > 0.0
    ensures a / b > 0.0
  {
  }

  /** The statistics object (before rounding). */
  datatype Stats = Stats(
    duration: real,
    rms: Option<real>,
    peak: real,
    dynamicRange: Option<real>,
    zeroCrossingRate: Option<real>,
    spectralCentroid: real,
    sampleRate: nat)

  /**
   * The statistics of a buffer at `sampleRate` Hz, with `sqrt` standing for
   * `Math.sqrt`: an empty buffer has duration 0, peak 0, centroid 0 and no
   * RMS, dynamic range or zero-crossing rate.
   */
  method CalculateAudioStats(s: seq<real>, sampleRate: nat, sqrt: real -> real, dft: (seq<real>, nat) -> real)
    returns (st: Stats)
    requires sampleRate > 0
    ensures st.sampleRate == sampleRate
    ensures st.duration == |s| as real / sampleRate as real
    ensures st.peak == MaxAbs(s)
    ensures st.spectralCentroid == SpectralCentroid(s, sampleRate, dft)
    ensures s == [] ==> st == Stats(0.0, None, 0.0, None, None, 0.0, sampleRate)
    ensures s != [] ==>
      && st.duration > 0.0
      && st.rms == Some(sqrt(Energy(s, 0, |s|) / |s| as real))
      && st.dynamicRange == Some(MaxAbs(s) - st.rms.value)
      && st.zeroCrossingRate == Some(Crossings(s) as real / st.duration)
  {
    var length := |s|;
    var duration := length as real / sampleRate as real;
    var rmsSum := SumOfSquares(s);
    var rms := if length == 0 then None else Some(sqrt(rmsSum / length as real));
    var peak := Peak(s);
    var dynamicRange := if rms.None? then None else Some(peak - rms.value);
    if length > 0 {
      PositiveQuotient(length as real, sampleRate as real);
    }
    var zeroCrossings := ZeroCrossings(s);
    var zeroCrossingRate := if length == 0 then None else Some(zeroCrossings as real / duration);
    var spectralCentroid := ComputeSpectralCentroid(s, sampleRate, dft);
    if length == 0 {
      ShortBufferCentroid(s, sampleRate, dft);
    }
    st := Stats(duration, rms, peak, dynamicRange, zeroCrossingRate, spectralCentroid, sampleRate);
  }
}
