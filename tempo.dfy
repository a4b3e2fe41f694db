/**
 * `detectBPM` of the analysis worker: frame energies at a 100 ms frame and a
 * 50 ms hop, onsets as strict interior peaks of the energy, the intervals
 * between onsets rounded to 0.1 s, the most common interval, and the tempo
 * it gives when that lies between 60 and 200 BPM.
 */
module Tempo {
  import opened Arith
  import opened Frames

  /** `Math.floor(sampleRate * 0.1)`: samples in 100 ms. */
  function FrameSize(sampleRate: nat): (f: nat)
    ensures 10 * f <= sampleRate < 10 * f + 10
  {
    sampleRate / 10
  }

  /** `Math.floor(frameSize / 2)`: half a frame, rounded down. */
  function HopSize(sampleRate: nat): (h: nat)
    ensures 2 * h <= FrameSize(sampleRate) < 2 * h + 2
  {
    FrameSize(sampleRate) / 2
  }

  /** From 20 Hz up the hop is at least one sample, and never longer than a frame. */
  lemma HopBounds(sampleRate: nat)
    requires sampleRate >= 20
    ensures 1 <= HopSize(sampleRate) <= FrameSize(sampleRate)
  {
  }

  /** The energy of frame `f`, which lies inside the buffer. */
  function FrameEnergy(s: seq<real>, frameSize: nat, hop: nat, f: nat): real
    requires hop >= 1 && f < FrameCount(|s|, frameSize, hop)
  {
    FrameEnumeration(f, |s|, frameSize, hop);
    Energy(s, f * hop, frameSize)
  }

  /** The energies of all frames, in order. */
  function FrameEnergies(s: seq<real>, frameSize: nat, hop: nat): (e: seq<real>)
    requires hop >= 1
    ensures |e| == FrameCount(|s|, frameSize, hop)
    ensures forall f :: 0 <= f < |e| ==> e[f] >= 0.0
  {
    var n := FrameCount(|s|, frameSize, hop);
    seq(n, f requires 0 <= f < n => FrameEnergy(s, frameSize, hop, f))
  }

  /** The energy loop: one sum of squares per frame start `i = 0, hop, 2 hop, ...` below `len - frameSize`. */
  method ComputeEnergies(s: seq<real>, frameSize: nat, hop: nat) returns (energies: seq<real>)
    requires hop >= 1
    ensures energies == FrameEnergies(s, frameSize, hop)
  {
    energies := [];
    var i := 0;
    while i < |s| - frameSize
      invariant i == |energies| * hop
      invariant |energies| <= FrameCount(|s|, frameSize, hop)
      invariant energies == FrameEnergies(s, frameSize, hop)[..|energies|]
      decreases |s| - i
    {
      FrameEnumeration(|energies|, |s|, frameSize, hop);
      var energy := 0.0;
      var j := 0;
      while j < frameSize
        invariant j <= frameSize
        invariant energy == Energy(s, i, j)
      {
        energy := energy + s[i + j] * s[i + j];
        j := j + 1;
      }
      energies := energies + [energy];
      i := i + hop;
    }
    FrameEnumeration(|energies|, |s|, frameSize, hop);
  }

  /** Frame `i` is interior and strictly louder than both neighbours. */
  predicate IsPeak(e: seq<real>, i: int) {
    1 <= i < |e| - 1 && e[i] > e[i - 1] && e[i] > e[i + 1]
  }

  /** Frame `i` is an onset: a peak above 0.001. Neither neighbour of an onset is a peak. */
  predicate IsOnset(e: seq<real>, i: int): (b: bool)
    ensures b ==> !IsPeak(e, i - 1) && !IsPeak(e, i + 1)
  {
    IsPeak(e, i) && e[i] > 0.001
  }

  /** The onset frames below `n`, in increasing order. */
  function OnsetFramesBelow(e: seq<real>, n: nat): (fr: seq<nat>)
    requires n <= |e|
    ensures forall k :: 0 <= k < |fr| ==> fr[k] < n && IsOnset(e, fr[k])
    ensures forall i :: 0 <= i < n && IsOnset(e, i) ==> i in fr
    ensures forall a, b :: 0 <= a < b < |fr| ==> fr[a] < fr[b]
  {
    if n == 0 then []
    else OnsetFramesBelow(e, n - 1) + (if IsOnset(e, n - 1) then [n - 1] else [])
  }

  /** All onset frames, in increasing order. */
  function OnsetFrames(e: seq<real>): seq<nat> {
    OnsetFramesBelow(e, |e|)
  }

  /** A frame is listed exactly when it is an onset. */
  lemma OnsetFramesExact(e: seq<real>, i: int)
    ensures i in OnsetFrames(e) <==> IsOnset(e, i)
  {
  }

  /** Two onsets never come from adjacent frames. */
  lemma OnsetsNotAdjacent(e: seq<real>, k: nat)
    requires k + 1 < |OnsetFrames(e)|
    ensures OnsetFrames(e)[k] + 2 <= OnsetFrames(e)[k + 1]
  {
    var fr := OnsetFrames(e);
    assert IsOnset(e, fr[k]) && IsOnset(e, fr[k + 1]);
  }

  /** `i * hopSize / sampleRate`: the start of frame `i` in seconds. */
  function OnsetTime(i: nat, hop: nat, sampleRate: nat): real
    requires sampleRate > 0
  {
    (i * hop) as real / sampleRate as real
  }

  /** The start times of the frames `fr`. */
  function Times(fr: seq<nat>, hop: nat, sampleRate: nat): (t: seq<real>)
    requires sampleRate > 0
    ensures |t| == |fr|
  {
    seq(|fr|, k requires 0 <= k < |fr| => OnsetTime(fr[k], hop, sampleRate))
  }

  /** The onset times of the energies `e`. */
  function OnsetTimes(e: seq<real>, hop: nat, sampleRate: nat): seq<real>
    requires sampleRate > 0
  {
    Times(OnsetFrames(e), hop, sampleRate)
  }

  lemma TimesAppend(fr: seq<nat>, i: nat, hop: nat, sampleRate: nat)
    requires sampleRate > 0
    ensures Times(fr + [i], hop, sampleRate) == Times(fr, hop, sampleRate) + [OnsetTime(i, hop, sampleRate)]
  {
  }

  /** The onset frames below `i + 1` add frame `i` when it is an onset. */
  lemma OnsetStep(e: seq<real>, i: nat)
    requires i < |e|
    ensures OnsetFramesBelow(e, i + 1) == OnsetFramesBelow(e, i) + (if IsOnset(e, i) then [i] else [])
  {
  }

  /** The onset loop over the interior frames `1 .. |e| - 2`. */
  method PickOnsets(e: seq<real>, hop: nat, sampleRate: nat) returns (onsets: seq<real>)
    requires sampleRate > 0
    ensures onsets == OnsetTimes(e, hop, sampleRate)
  {
    onsets := [];
    ghost var frames: seq<nat> := [];
    var i := 1;
    while i < |e| - 1
      invariant 1 <= i && (i <= |e| - 1 || |e| <= 1)
      invariant frames == OnsetFramesBelow(e, if i <= |e| then i else |e|)
      invariant onsets == Times(frames, hop, sampleRate)
    {
      OnsetStep(e, i);
      if e[i] > e[i - 1] && e[i] > e[i + 1] && e[i] > 0.001 {
        TimesAppend(frames, i, hop, sampleRate);
        frames := frames + [i];
        onsets := onsets + [(i * hop) as real / sampleRate as real];
      }
      i := i + 1;
    }
  }

  /** Later frames start strictly later. */
  lemma OnsetTimeIncreasing(i: nat, j: nat, hop: nat, sampleRate: nat)
    requires sampleRate > 0 && hop >= 1 && i < j
    ensures OnsetTime(i, hop, sampleRate) < OnsetTime(j, hop, sampleRate)
  {
    MulLess(i, j, hop);
    var r := sampleRate as real;
    var a := (i * hop) as real / r;
    var b := (j * hop) as real / r;
    assert a * r == (i * hop) as real;
    assert b * r == (j * hop) as real;
  }

  /** Onset times are strictly increasing. */
  lemma OnsetTimesIncreasing(e: seq<real>, hop: nat, sampleRate: nat)
    requires sampleRate > 0 && hop >= 1
    ensures forall a, b :: 0 <= a < b < |OnsetTimes(e, hop, sampleRate)| ==>
      OnsetTimes(e, hop, sampleRate)[a] < OnsetTimes(e, hop, sampleRate)[b]
  {
    var fr := OnsetFrames(e);
    forall a, b | 0 <= a < b < |fr|
      ensures OnsetTimes(e, hop, sampleRate)[a] < OnsetTimes(e, hop, sampleRate)[b]
    {
      OnsetTimeIncreasing(fr[a], fr[b], hop, sampleRate);
    }
  }

  /** `onsets[i] - onsets[i - 1]` for `i = 1 .. |onsets| - 1`. */
  function IntervalsOf(t: seq<real>): (iv: seq<real>)
    ensures |iv| == if t == [] then 0 else |t| - 1
  {
    if t == [] then [] else seq(|t| - 1, k requires 0 <= k < |t| - 1 => t[k + 1] - t[k])
  }

  /** Between strictly increasing times every interval is positive. */
  lemma IntervalsPositive(t: seq<real>)
    requires forall a, b :: 0 <= a < b < |t| ==> t[a] < t[b]
    ensures forall k :: 0 <= k < |IntervalsOf(t)| ==> IntervalsOf(t)[k] > 0.0
  {
    forall k | 0 <= k < |IntervalsOf(t)|
      ensures IntervalsOf(t)[k] > 0.0
    {
      assert t[k] < t[k + 1];
    }
  }

  /** The interval loop. */
  method Intervals(onsets: seq<real>) returns (intervals: seq<real>)
    ensures intervals == IntervalsOf(onsets)
  {
    intervals := [];
    var i := 1;
    while i < |onsets|
      invariant 1 <= i <= if onsets == [] then 1 else |onsets|
      invariant |intervals| == i - 1
      invariant forall k :: 0 <= k < i - 1 ==> intervals[k] == onsets[k + 1] - onsets[k]
    {
      intervals := intervals + [onsets[i] - onsets[i - 1]];
      i := i + 1;
    }
    assert |intervals| == |IntervalsOf(onsets)|;
  }

  /** `Math.round(interval * 10)`: the interval in tenths of a second, which keys the count. */
  function Bucket(interval: real): (b: int)
    ensures b as real - 0.5 <= interval * 10.0 < b as real + 0.5
    ensures interval >= 0.0 ==> b >= 0
  {
    (interval * 10.0 + 0.5).Floor
  }

  /** The bucket of every interval. */
  function Buckets(intervals: seq<real>): (bs: seq<int>)
    ensures |bs| == |intervals|
  {
    seq(|intervals|, k requires 0 <= k < |intervals| => Bucket(intervals[k]))
  }

  /** How many of `bs` equal `b`. */
  function CountOf(bs: seq<int>, b: int): (n: nat)
    ensures n <= |bs|
  {
    if bs == [] then 0 else CountOf(bs[..|bs| - 1], b) + (if bs[|bs| - 1] == b then 1 else 0)
  }

  /** A bucket is counted at all only when some element falls in it. */
  lemma {:induction false} CountOfPositive(bs: seq<int>, b: int)
    ensures CountOf(bs, b) > 0 <==> b in bs
  {
    if bs != [] {
      CountOfPositive(bs[..|bs| - 1], b);
      assert bs == bs[..|bs| - 1] + [bs[|bs| - 1]];
    }
  }

  lemma CountOfAppend(bs: seq<int>, x: int, b: int)
    ensures CountOf(bs + [x], b) == CountOf(bs, b) + (if x == b then 1 else 0)
  {
    assert (bs + [x])[..|bs|] == bs;
  }

  /** `intervalCounts` after the first `n` intervals. */
  ghost predicate CountsOf(counts: map<int, nat>, bs: seq<int>) {
    forall b :: (b in counts <==> CountOf(bs, b) > 0) && (b in counts ==> counts[b] == CountOf(bs, b))
  }

  /** The counting loop: `intervalCounts[rounded] = (intervalCounts[rounded] || 0) + 1`. */
  method CountIntervals(intervals: seq<real>) returns (counts: map<int, nat>)
    ensures CountsOf(counts, Buckets(intervals))
  {
    var bs := Buckets(intervals);
    counts := map[];
    var i := 0;
    while i < |intervals|
      invariant i <= |intervals|
      invariant CountsOf(counts, bs[..i])
    {
      var rounded := Bucket(intervals[i]);
      var previous := if rounded in counts then counts[rounded] else 0;
      assert bs[..i + 1] == bs[..i] + [rounded];
      forall b
        ensures CountOf(bs[..i + 1], b) == CountOf(bs[..i], b) + (if rounded == b then 1 else 0)
      {
        CountOfAppend(bs[..i], rounded, b);
      }
      counts := counts[rounded := previous + 1];
      i := i + 1;
    }
    assert bs[..i] == bs;
  }

  /** `b` is a most common bucket of `bs`. */
  ghost predicate IsModeBucket(bs: seq<int>, b: int) {
    CountOf(bs, b) > 0 && forall c :: CountOf(bs, c) <= CountOf(bs, b)
  }

  lemma HasElement(s: set<int>)
    requires s != {}
    ensures exists x :: x in s
  {
    if forall x :: x !in s {
      assert false;
    }
  }

  /**
   * The mode loop over the entries of `intervalCounts`: the first entry with
   * the highest count wins. The order of the entries is left open, so the
   * winner is some bucket of highest count; with no entries it stays 0.
   */
  method MostCommon(counts: map<int, nat>) returns (best: int, maxCount: nat)
    requires forall b :: b in counts ==> counts[b] >= 1
    ensures counts == map[] ==> best == 0 && maxCount == 0
    ensures counts != map[] ==> best in counts && counts[best] == maxCount
    ensures forall b :: b in counts ==> counts[b] <= maxCount
  {
    best, maxCount := 0, 0;
    var remaining := counts.Keys;
    while remaining != {}
      invariant remaining <= counts.Keys
      invariant forall b :: b in counts && b !in remaining ==> counts[b] <= maxCount
      invariant maxCount == 0 ==> best == 0
      invariant maxCount > 0 ==> best in counts && counts[best] == maxCount
      decreases remaining
    {
      HasElement(remaining);
      var b :| b in remaining;
      if counts[b] > maxCount {
        best, maxCount := b, counts[b];
      }
      remaining := remaining - {b};
    }
    if counts != map[] {
      HasElement(counts.Keys);
      var b :| b in counts.Keys;
      assert counts[b] <= maxCount;
    }
  }

  /** The counts of a non-empty list of buckets are positive and not all absent. */
  lemma CountsNonEmpty(counts: map<int, nat>, bs: seq<int>)
    requires CountsOf(counts, bs) && bs != []
    ensures counts != map[]
    ensures forall b :: b in counts ==> counts[b] >= 1
  {
    assert bs[0] in bs;
    CountOfPositive(bs, bs[0]);
    assert bs[0] in counts;
  }

  /** A highest entry of the counts is a most common bucket. */
  lemma ModeOfCounts(counts: map<int, nat>, bs: seq<int>, best: int, maxCount: nat)
    requires CountsOf(counts, bs)
    requires best in counts && counts[best] == maxCount
    requires forall b :: b in counts ==> counts[b] <= maxCount
    ensures IsModeBucket(bs, best) && CountOf(bs, best) == maxCount
  {
    forall c
      ensures CountOf(bs, c) <= CountOf(bs, best)
    {
      if c in counts {
        assert counts[c] <= maxCount;
      }
    }
  }

  /** `Math.round(60 / mostCommonInterval)` for a bucket of `k` tenths of a second. */
  function BpmOf(k: int): (bpm: int)
    requires k > 0
    ensures bpm as real - 0.5 <= 600.0 / (k as real) < bpm as real + 0.5
  {
    assert 60.0 / (k as real / 10.0) == 600.0 / (k as real);
    (60.0 / (k as real / 10.0) + 0.5).Floor
  }

  lemma ProductNonNegative(a: real, b: real)
    requires a >= 0.0 && b >= 0.0
    ensures a * b >= 0.0
  {
  }

  /** Only intervals of 0.3 s to 1.0 s give a tempo between 60 and 200 BPM. */
  lemma BpmRange(k: int)
    requires k > 0
    ensures 60 <= BpmOf(k) <= 200 <==> 3 <= k <= 10
  {
    var q := k as real / 10.0;
    var x := 60.0 / q;
    assert x * q == 60.0;
    if k >= 11 {
      if x >= 59.5 {
        ProductNonNegative(x - 59.5, q - 1.1);
      }
      assert x + 0.5 < 60.0;
    } else if k <= 2 {
      assert k == 1 || k == 2;
    }
  }

  /** The result of `detectBPM`. */
  datatype BpmResult = BpmResult(bpm: int, confidence: real)

  /** The buckets of the intervals between the onsets found in `s`. */
  function TempoBuckets(s: seq<real>, sampleRate: nat): seq<int>
    requires sampleRate >= 20
  {
    var hop := HopSize(sampleRate);
    Buckets(IntervalsOf(OnsetTimes(FrameEnergies(s, FrameSize(sampleRate), hop), hop, sampleRate)))
  }

  /** The number of onsets found in `s`. */
  function OnsetCount(s: seq<real>, sampleRate: nat): nat
    requires sampleRate >= 20
  {
    |OnsetFrames(FrameEnergies(s, FrameSize(sampleRate), HopSize(sampleRate)))|
  }

  /**
   * The part of `detectBPM` after the intervals: a tempo, when given, lies in
   * 60..200 and comes from a most common bucket of 0.3 s to 1.0 s, with the
   * share of intervals in that bucket, in (0, 1], as confidence; no tempo is
   * given when the chosen most common bucket lies outside that range.
   */
  method TempoOfIntervals(intervals: seq<real>) returns (r: BpmResult)
    requires intervals != []
    ensures r.bpm == 0 ==> r.confidence == 0.0
    ensures r.bpm != 0 ==>
      && 60 <= r.bpm <= 200
      && 0.0 < r.confidence <= 1.0
      && (exists k :: 3 <= k <= 10 && IsModeBucket(Buckets(intervals), k)
           && r.bpm == BpmOf(k)
           && r.confidence == CountOf(Buckets(intervals), k) as real / |intervals| as real)
    ensures r.bpm == 0 ==> exists k :: !(3 <= k <= 10) && IsModeBucket(Buckets(intervals), k)
  {
    var counts := CountIntervals(intervals);
    CountsNonEmpty(counts, Buckets(intervals));
    var best, maxCount := MostCommon(counts);
    ModeOfCounts(counts, Buckets(intervals), best, maxCount);
    ghost var bs := Buckets(intervals);
    if best > 0 {
      var bpm := BpmOf(best);
      var confidence := maxCount as real / |intervals| as real;
      BpmRange(best);
      if 60 <= bpm <= 200 {
        ShareBounds(maxCount, |intervals|);
        assert 3 <= best <= 10 && IsModeBucket(bs, best);
        return BpmResult(bpm, confidence);
      }
    }
    assert !(3 <= best <= 10) && IsModeBucket(bs, best);
    return BpmResult(0, 0.0);
  }

  /** The share of `n` items that `a` of them make up. */
  lemma ShareBounds(a: nat, n: nat)
    requires 1 <= a <= n
    ensures 0.0 < a as real / n as real <= 1.0
  {
    var q := a as real / n as real;
    assert q * n as real == a as real;
  }

  /**
   * Fewer than two onsets give no tempo; otherwise the tempo is chosen from
   * the intervals between the onsets found in `channelData`. A buffer no
   * longer than one frame has no frame, hence no onset and no tempo; that is
   * also the only buffer accepted below 20 Hz, where the hop is 0.
   */
  method DetectBpm(channelData: seq<real>, sampleRate: nat) returns (r: BpmResult)
    requires sampleRate >= 20 || |channelData| <= FrameSize(sampleRate)
    ensures |channelData| <= FrameSize(sampleRate) ==> r == BpmResult(0, 0.0)
    ensures sampleRate >= 20 && OnsetCount(channelData, sampleRate) < 2 ==> r == BpmResult(0, 0.0)
    ensures r.bpm == 0 ==> r.confidence == 0.0
    ensures r.bpm != 0 ==>
      && sampleRate >= 20
      && 60 <= r.bpm <= 200
      && 0.0 < r.confidence <= 1.0
      && (exists k :: 3 <= k <= 10 && IsModeBucket(TempoBuckets(channelData, sampleRate), k)
           && r.bpm == BpmOf(k)
           && r.confidence == CountOf(TempoBuckets(channelData, sampleRate), k) as real
                / |TempoBuckets(channelData, sampleRate)| as real)
    ensures r.bpm == 0 && sampleRate >= 20 && OnsetCount(channelData, sampleRate) >= 2 ==>
      exists k :: !(3 <= k <= 10) && IsModeBucket(TempoBuckets(channelData, sampleRate), k)
  {
    var frameSize := FrameSize(sampleRate);
    var hop := HopSize(sampleRate);
    if hop == 0 {
      // Below 20 Hz the buffer is no longer than a frame: the energy loop
      // runs no iteration, so there is no onset.
      return BpmResult(0, 0.0);
    }
    var energies := ComputeEnergies(channelData, frameSize, hop);
    var onsets := PickOnsets(energies, hop, sampleRate);
    if |onsets| < 2 {
      return BpmResult(0, 0.0);
    }
    var intervals := Intervals(onsets);
    assert Buckets(intervals) == TempoBuckets(channelData, sampleRate);
    r := TempoOfIntervals(intervals);
  }
}
