/**
 * The display series shared by the worker's progressive waveform and the
 * waveform of `sound.js`: every `df`-th sample, numbered 0, 1, 2, ...
 */
module Downsampling {
  import opened Arith

  /** One display point `{x, y}`. */
  datatype Point = Point(x: int, y: real)

  /** `Math.max(1, Math.floor(len / 4000))`. */
  function DownsampleFactor(len: nat): (df: nat)
    ensures df >= 1
    ensures df == 1 <==> len < 8000
  {
    DivLower(2, len, 4000);
    if len / 4000 > 1 then len / 4000 else 1
  }

  /** `w` is the series of every `df`-th sample of `s`, in order, with `x` its position. */
  predicate IsDownsampled(w: seq<Point>, s: seq<real>, df: nat)
    requires df >= 1
  {
    && |w| == CeilDiv(|s|, df)
    && forall k :: 0 <= k < |w| ==> k * df < |s| && w[k] == Point(k, s[k * df])
  }

  /** The series is determined by the samples and the stride. */
  lemma DownsampledUnique(w1: seq<Point>, w2: seq<Point>, s: seq<real>, df: nat)
    requires df >= 1
    requires IsDownsampled(w1, s, df) && IsDownsampled(w2, s, df)
    ensures w1 == w2
  {
  }

  /**
   * A buffer shorter than 4000 samples is shown whole; a longer one is shown
   * with at least 4000 and fewer than 8000 points.
   */
  lemma {:induction false} DownsampledCount(len: nat)
    ensures len < 4000 ==> CeilDiv(len, DownsampleFactor(len)) == len
    ensures len >= 4000 ==> 4000 <= CeilDiv(len, DownsampleFactor(len)) < 8000
  {
    var df := DownsampleFactor(len);
    if len < 4000 {
      DivLower(1, len, 4000);
      assert df == 1;
    } else {
      DivLower(1, len, 4000);
      assert df == len / 4000;
      DivLower(df, len, 4000);
      DivLower(df + 1, len, 4000);
      assert len < df * 4000 + 4000;
      CeilDivBelow(3999, len, df);
      MulMonotone(3999, 4000, df);
      CeilDivBelow(7999, len, df);
      if df >= 2 {
        MulMonotone(2, df, 2000);
        assert df * 4000 + 4000 <= df * 6000;
        MulMonotone(6000, 7999, df);
      }
    }
  }

  /** Below 4000 samples the display series is the buffer itself. */
  lemma WholeBufferBelow4000(w: seq<Point>, s: seq<real>)
    requires |s| < 4000
    requires IsDownsampled(w, s, DownsampleFactor(|s|))
    ensures |w| == |s|
    ensures forall k :: 0 <= k < |s| ==> w[k] == Point(k, s[k])
  {
    DownsampledCount(|s|);
  }
}
