/**
 * The pieces of the analysis worker (`audioWorker.js`) that several analyses
 * share: the magnitude spectrum `fft`, the enumeration of fixed-size frames
 * at a fixed hop, and the energy of a frame.
 */
module Frames {
  import opened Arith

  /**
   * `fft(signal)`: a signal of at most one sample is returned as it is;
   * otherwise bin `k` holds the DFT magnitude at `k`, which is the abstract
   * `dft(signal, k)` (the cos/sin sums are not modelled).
   */
  function Fft(signal: seq<real>, dft: (seq<real>, nat) -> real): (spectrum: seq<real>)
    ensures |spectrum| == |signal|
    ensures |signal| <= 1 ==> spectrum == signal
    ensures |signal| > 1 ==> forall k :: 0 <= k < |signal| ==> spectrum[k] == dft(signal, k)
  {
    if |signal| <= 1 then signal
    else seq(|signal|, k requires 0 <= k < |signal| => dft(signal, k))
  }

  /**
   * The number of frames of `for (i = 0; i < len - frameSize; i += hop)`:
   * frame `f` starts at `f * hop`.
   */
  function FrameCount(len: nat, frameSize: nat, hop: nat): (n: nat)
    requires hop >= 1
    ensures n >= 1 <==> len > frameSize
  {
    if len > frameSize then
      CeilDivBelow(0, len - frameSize, hop);
      CeilDiv(len - frameSize, hop)
    else 0
  }

  /** Frame `f` is enumerated exactly when it starts before `len - frameSize`, so it lies inside the buffer. */
  lemma FrameEnumeration(f: nat, len: nat, frameSize: nat, hop: nat)
    requires hop >= 1
    ensures f < FrameCount(len, frameSize, hop) <==> f * hop + frameSize < len
  {
    if len > frameSize {
      CeilDivBelow(f, len - frameSize, hop);
    }
  }

  /** With a hop no shorter than the frame, two different frames share no sample. */
  lemma FramesDisjoint(f: nat, g: nat, frameSize: nat, hop: nat)
    requires hop >= frameSize && hop >= 1
    requires f < g
    ensures f * hop + frameSize <= g * hop
  {
    MulMonotone(f + 1, g, hop);
    assert (f + 1) * hop == f * hop + hop;
  }

  /** The sum of the squares of `n` samples from `start`. */
  function Energy(s: seq<real>, start: nat, n: nat): (e: real)
    requires start + n <= |s|
    ensures e >= 0.0
  {
    if n == 0 then 0.0 else Energy(s, start, n - 1) + s[start + n - 1] * s[start + n - 1]
  }
}
