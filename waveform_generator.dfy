/**
 * The vendored `waveform-generator` package: the byte copy that hands a file
 * buffer to the audio decoder, and the unit conversions between samples,
 * seconds and pixels (one pixel spans `resolution` samples).
 */
module WaveformGenerator {
  import Arith

  newtype byte = x: int | 0 <= x < 256

  /** `Math.floor`. */
  function Floor(r: real): (f: int)
    ensures f as real <= r < f as real + 1.0
  {
    r.Floor
  }

  /** `Math.ceil`. */
  function Ceil(r: real): (c: int)
    ensures c as real - 1.0 < r <= c as real
  {
    -((-r).Floor)
  }

  /** `toArrayBuffer`: a fresh buffer of the same length holding the same bytes. */
  method ToArrayBuffer(buf: array<byte>) returns (ab: array<byte>)
    ensures fresh(ab)
    ensures ab.Length == buf.Length
    ensures forall i :: 0 <= i < buf.Length ==> ab[i] == buf[i]
  {
    ab := new byte[buf.Length](_ => 0);
    var i := 0;
    while i < buf.Length
      invariant 0 <= i <= buf.Length
      invariant forall k :: 0 <= k < i ==> ab[k] == buf[k]
    {
      ab[i] := buf[i];
      i := i + 1;
    }
  }

  /** `samplesToSeconds`: the duration of `samples` samples. */
  function SamplesToSeconds(samples: real, sampleRate: real): (seconds: real)
    requires sampleRate > 0.0
    ensures seconds * sampleRate == samples
  {
    samples / sampleRate
  }

  /** `secondsToSamples`: the least whole number of samples covering `seconds`. */
  function SecondsToSamples(seconds: real, sampleRate: real): (samples: int)
    ensures samples as real - 1.0 < seconds * sampleRate <= samples as real
  {
    Ceil(seconds * sampleRate)
  }

  /** `samplesToPixels`: the pixel that sample number `samples` falls in. */
  function SamplesToPixels(samples: real, resolution: real): (pixels: int)
    requires resolution > 0.0
    ensures pixels as real * resolution <= samples < (pixels as real + 1.0) * resolution
  {
    assert (samples / resolution) * resolution == samples;
    var pixels := Floor(samples / resolution);
    ScaleBounds(pixels as real, samples / resolution, pixels as real + 1.0, resolution);
    pixels
  }

  /** `pixelsToSamples`: the first sample of pixel `pixels`, rounded down. */
  function PixelsToSamples(pixels: real, resolution: real): (samples: int)
    ensures samples as real <= pixels * resolution < samples as real + 1.0
  {
    Floor(pixels * resolution)
  }

  /** `pixelsToSeconds`: the time at which pixel `pixels` starts. */
  function PixelsToSeconds(pixels: real, resolution: real, sampleRate: real): (seconds: real)
    requires sampleRate > 0.0
    ensures seconds * sampleRate == pixels * resolution
  {
    (pixels * resolution) / sampleRate
  }

  /** `secondsToPixels`: the least whole number of pixels covering `seconds`. */
  function SecondsToPixels(seconds: real, resolution: real, sampleRate: real): (pixels: int)
    requires resolution > 0.0
    ensures (pixels as real - 1.0) * resolution < seconds * sampleRate <= pixels as real * resolution
  {
    assert ((seconds * sampleRate) / resolution) * resolution == seconds * sampleRate;
    var pixels := Ceil((seconds * sampleRate) / resolution);
    ScaleBounds(pixels as real - 1.0, (seconds * sampleRate) / resolution, pixels as real, resolution);
    pixels
  }

  /** Multiplying by a positive scale keeps the order of both bounds. */
  lemma ScaleBounds(lo: real, x: real, hi: real, r: real)
    requires r > 0.0
    ensures lo <= x ==> lo * r <= x * r
    ensures lo < x ==> lo * r < x * r
    ensures x <= hi ==> x * r <= hi * r
    ensures x < hi ==> x * r < hi * r
  {
    assert x * r - lo * r == (x - lo) * r;
    assert hi * r - x * r == (hi - x) * r;
  }

  /** A whole pixel count survives the trip to samples and back. */
  lemma PixelsRoundTrip(p: nat, r: nat)
    requires r >= 1
    ensures SamplesToPixels(PixelsToSamples(p as real, r as real) as real, r as real) == p
  {
    CastProduct(p, r);
    var s := PixelsToSamples(p as real, r as real);
    assert s == p * r;
    var q := SamplesToPixels(s as real, r as real);
    WholeQuotient(q, p, r);
  }

  /** Casting to real commutes with multiplication. */
  lemma CastProduct(a: int, b: int)
    ensures (a as real) * (b as real) == (a * b) as real
  {
  }

  /** The only whole `q` with `q r <= p r < (q + 1) r` is `p`. */
  lemma WholeQuotient(q: int, p: int, r: int)
    requires r >= 1
    requires (q as real) * (r as real) <= (p * r) as real < (q as real + 1.0) * (r as real)
    ensures q == p
  {
    CastProduct(q, r);
    CastProduct(q + 1, r);
    assert q * r <= p * r < (q + 1) * r;
    Arith.MulLess(p, q, r);
    Arith.MulLess(p, q + 1, r);
  }

  /** A sample lies in the pixel it is mapped to: at most `r - 1` samples past that pixel's start. */
  lemma SamplesBracket(s: nat, r: nat)
    requires r >= 1
    ensures var start := PixelsToSamples(SamplesToPixels(s as real, r as real) as real, r as real);
      start <= s < start + r
  {
    var q := SamplesToPixels(s as real, r as real);
    assert (q as real) * (r as real) == (q * r) as real;
    assert (q as real + 1.0) * (r as real) == ((q + 1) * r) as real;
    var start := PixelsToSamples(q as real, r as real);
    assert start == q * r;
  }

  /** The start cue of `calculatePeaks` is sample 0. */
  lemma CueInIsZero(sampleRate: real)
    ensures SecondsToSamples(0.0, sampleRate) == 0
  {
  }

  /** Later times never map to earlier samples. */
  lemma SecondsToSamplesMonotone(s1: real, s2: real, sampleRate: real)
    requires s1 <= s2 && sampleRate >= 0.0
    ensures SecondsToSamples(s1, sampleRate) <= SecondsToSamples(s2, sampleRate)
  {
    assert s1 * sampleRate <= s2 * sampleRate;
  }

  /** Converting pixels to seconds goes through the pixel's first sample. */
  lemma PixelsToSecondsViaSamples(p: real, r: real, sampleRate: real)
    requires sampleRate > 0.0
    ensures PixelsToSeconds(p, r, sampleRate) == SamplesToSeconds(p * r, sampleRate)
  {
  }

  /** `secondsToPixels` is `secondsToSamples` measured in pixels, rounded up. */
  lemma SecondsToPixelsCovers(seconds: real, r: real, sampleRate: real)
    requires r > 0.0 && sampleRate > 0.0 && seconds >= 0.0
    ensures SecondsToPixels(seconds, r, sampleRate) as real >= (seconds * sampleRate) / r
    ensures SecondsToPixels(seconds, r, sampleRate) >= 0
  {
  }
}
