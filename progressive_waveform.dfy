/**
 * `generateProgressiveWaveform` of the analysis worker: the display series
 * of every `downsampleFactor`-th sample, built chunk by chunk, with one
 * `waveform_progress` message posted per chunk. The posted messages are
 * returned as a trace.
 */
module ProgressiveWaveform {
  import opened Arith
  import opened Downsampling

  /** The `data` of one `waveform_progress` message. */
  datatype ChunkMessage = WaveformProgress(chunk: seq<Point>, progress: real, totalChunks: nat, currentChunk: nat)

  /** The points of all messages, in the order they were posted. */
  function Flatten(ms: seq<ChunkMessage>): seq<Point> {
    if ms == [] then [] else Flatten(ms[..|ms| - 1]) + ms[|ms| - 1].chunk
  }

  /** `((chunk + 1) / totalChunks) * 30`: the share of the first 30 percent reached after `done` chunks. */
  function Progress(done: nat, total: nat): (p: real)
    requires 1 <= done <= total
    ensures 0.0 < p <= 30.0
    ensures p == 30.0 <==> done == total
  {
    var f := done as real / total as real;
    assert f * (total as real) == done as real;
    f * 30.0
  }

  /** Progress grows strictly from one chunk to the next. */
  lemma ProgressIncreasing(a: nat, b: nat, total: nat)
    requires 1 <= a < b <= total
    ensures Progress(a, total) < Progress(b, total)
  {
    var t := total as real;
    var fa := a as real / t;
    var fb := b as real / t;
    assert fa * t == a as real;
    assert fb * t == b as real;
    assert fa < fb;
  }

  /** `cd[j]` is the point of sample `(base + j) * df`, numbered `base + j`, for samples below `bound`. */
  predicate Strided(cd: seq<Point>, s: seq<real>, df: nat, base: nat, bound: nat) {
    forall j :: 0 <= j < |cd| ==>
      (base + j) * df < bound <= |s| && cd[j] == Point(base + j, s[(base + j) * df])
  }

  lemma StridedAppend(cd: seq<Point>, s: seq<real>, df: nat, base: nat, bound: nat, i: nat)
    requires Strided(cd, s, df, base, bound)
    requires i == (base + |cd|) * df && i < bound <= |s|
    ensures Strided(cd + [Point(base + |cd|, s[i])], s, df, base, bound)
  {
  }

  lemma StridedConcat(w: seq<Point>, cd: seq<Point>, s: seq<real>, df: nat, bound: nat)
    requires Strided(w, s, df, 0, |s|)
    requires Strided(cd, s, df, |w|, bound) && bound <= |s|
    ensures Strided(w + cd, s, df, 0, |s|)
  {
    forall j | 0 <= j < |w| + |cd|
      ensures (0 + j) * df < |s| && (w + cd)[j] == Point(0 + j, s[(0 + j) * df])
    {
      if j >= |w| {
        var m := j - |w|;
        assert |w| + m == 0 + j;
        assert (w + cd)[j] == cd[m];
        assert (|w| + m) * df < bound && cd[m] == Point(|w| + m, s[(|w| + m) * df]);
      } else {
        assert (w + cd)[j] == w[j];
      }
    }
  }

  /** The display series is the strided samples, as many as `ceil(len / df)`. */
  lemma StridedIsDownsampled(w: seq<Point>, s: seq<real>, df: nat)
    requires df >= 1
    requires Strided(w, s, df, 0, |s|)
    requires |s| <= |w| * df
    ensures IsDownsampled(w, s, df)
  {
    if |w| > 0 {
      var last := w[|w| - 1];
      assert (0 + (|w| - 1)) * df < |s|;
    }
    CeilDivUnique(|w|, |s|, df);
    forall k | 0 <= k < |w|
      ensures k * df < |s| && w[k] == Point(k, s[k * df])
    {
      var p := w[k];
      assert (0 + k) * df < |s|;
    }
  }

  /**
   * The inner loop of one chunk: the points `x = i / df`, `y = channelData[i]`
   * for `i` from `base * df` below `endIdx` in steps of `df`.
   */
  method CollectChunk(channelData: seq<real>, df: nat, base: nat, chunkSize: nat, endIdx: nat)
    returns (chunkData: seq<Point>)
    requires df >= 1
    requires base * df < endIdx <= |channelData|
    requires endIdx <= (base + chunkSize) * df
    ensures 1 <= |chunkData| <= chunkSize
    ensures (base + |chunkData|) * df >= endIdx
    ensures Strided(chunkData, channelData, df, base, endIdx)
  {
    chunkData := [];
    var i := base * df;
    while i < endIdx
      invariant i == (base + |chunkData|) * df
      invariant |chunkData| <= chunkSize
      invariant Strided(chunkData, channelData, df, base, endIdx)
      decreases endIdx - i
    {
      MulDivCancel(base + |chunkData|, df);
      MulLess(base + |chunkData|, base + chunkSize, df);
      StridedAppend(chunkData, channelData, df, base, endIdx, i);
      chunkData := chunkData + [Point(i / df, channelData[i])];
      i := i + df;
    }
  }

  /** The messages posted for the first chunks of `total`: numbered from 1, non-empty, at most `chunkSize` points, all but the last full. */
  predicate Numbered(ms: seq<ChunkMessage>, total: nat, chunkSize: nat) {
    && |ms| <= total
    && (forall c :: 0 <= c < |ms| ==>
      && ms[c].currentChunk == c + 1
      && ms[c].totalChunks == total
      && 1 <= |ms[c].chunk| <= chunkSize
      && ms[c].progress == Progress(c + 1, total))
    && (forall c :: 0 <= c < |ms| && c + 1 < total ==> |ms[c].chunk| == chunkSize)
  }

  /** Before chunk `chunk`, exactly `chunk * chunkSize` points exist and the chunk starts inside the buffer. */
  lemma ChunkStart(chunk: nat, chunkSize: nat, df: nat, len: nat, count: nat)
    requires df >= 1 && chunkSize >= 1
    requires chunk < CeilDiv(len, chunkSize * df)
    requires count <= chunk * chunkSize
    requires count < chunk * chunkSize ==> count * df >= len
    ensures count == chunk * chunkSize
    ensures chunk * (chunkSize * df) == count * df < len
    ensures chunk * (chunkSize * df) + chunkSize * df == (count + chunkSize) * df
  {
    CeilDivBelow(chunk, len, chunkSize * df);
    MulAssoc(chunk, chunkSize, df);
    if count < chunk * chunkSize {
      MulLess(count, chunk * chunkSize, df);
    }
  }

  /** After chunk `chunk`, the count of points keeps the loop's bookkeeping. */
  lemma ChunkEnd(chunk: nat, chunkSize: nat, df: nat, len: nat, count: nat, n: nat, endIdx: nat)
    requires df >= 1 && chunkSize >= 1
    requires chunk < CeilDiv(len, chunkSize * df)
    requires count == chunk * chunkSize
    requires endIdx == if (count + chunkSize) * df < len then (count + chunkSize) * df else len
    requires n <= chunkSize && (count + n) * df >= endIdx
    ensures chunk + 1 < CeilDiv(len, chunkSize * df) ==> n == chunkSize
    ensures count + n <= (chunk + 1) * chunkSize
    ensures count + n < (chunk + 1) * chunkSize ==> (count + n) * df >= len
  {
    assert (chunk + 1) * chunkSize == count + chunkSize;
    if chunk + 1 < CeilDiv(len, chunkSize * df) {
      FullChunk(chunk, chunkSize, df, len, count);
      MulLess(count + n, count + chunkSize, df);
    }
    if n < chunkSize {
      MulLess(count + n, count + chunkSize, df);
    }
  }

  /** A chunk before the last one ends before the buffer does. */
  lemma FullChunk(chunk: nat, chunkSize: nat, df: nat, len: nat, count: nat)
    requires df >= 1 && chunkSize >= 1
    requires chunk + 1 < CeilDiv(len, chunkSize * df)
    requires count == chunk * chunkSize
    ensures (count + chunkSize) * df < len
  {
    CeilDivBelow(chunk + 1, len, chunkSize * df);
    MulAssoc(chunk + 1, chunkSize, df);
    assert (chunk + 1) * chunkSize == count + chunkSize;
  }

  /** Appending the message of the next chunk keeps the numbering. */
  lemma NumberedAppend(ms: seq<ChunkMessage>, total: nat, chunkSize: nat, cd: seq<Point>)
    requires Numbered(ms, total, chunkSize) && |ms| < total
    requires 1 <= |cd| <= chunkSize
    requires |ms| + 1 < total ==> |cd| == chunkSize
    ensures Numbered(ms + [WaveformProgress(cd, Progress(|ms| + 1, total), total, |ms| + 1)], total, chunkSize)
  {
  }

  /** The flattened points grow by the chunk of the appended message. */
  lemma FlattenAppend(ms: seq<ChunkMessage>, m: ChunkMessage)
    ensures Flatten(ms + [m]) == Flatten(ms) + m.chunk
  {
    assert (ms + [m])[..|ms|] == ms;
  }

  /** Appending a collected chunk and its message keeps the bookkeeping of the chunk loop. */
  lemma AfterChunk(w: seq<Point>, ms: seq<ChunkMessage>, s: seq<real>, df: nat, chunkSize: nat, chunk: nat,
                   cd: seq<Point>, endIdx: nat)
    requires df >= 1 && chunkSize >= 1
    requires chunk < CeilDiv(|s|, chunkSize * df) && |ms| == chunk
    requires Flatten(ms) == w && Strided(w, s, df, 0, |s|)
    requires Numbered(ms, CeilDiv(|s|, chunkSize * df), chunkSize)
    requires |w| == chunk * chunkSize
    requires endIdx == if (|w| + chunkSize) * df < |s| then (|w| + chunkSize) * df else |s|
    requires 1 <= |cd| <= chunkSize && (|w| + |cd|) * df >= endIdx
    requires Strided(cd, s, df, |w|, endIdx)
    ensures var total := CeilDiv(|s|, chunkSize * df);
      var ms' := ms + [WaveformProgress(cd, Progress(chunk + 1, total), total, chunk + 1)];
      && Flatten(ms') == w + cd
      && Strided(w + cd, s, df, 0, |s|)
      && |w + cd| <= (chunk + 1) * chunkSize
      && (|w + cd| < (chunk + 1) * chunkSize ==> |w + cd| * df >= |s|)
      && Numbered(ms', total, chunkSize)
  {
    var total := CeilDiv(|s|, chunkSize * df);
    ChunkEnd(chunk, chunkSize, df, |s|, |w|, |cd|, endIdx);
    StridedConcat(w, cd, s, df, endIdx);
    NumberedAppend(ms, total, chunkSize, cd);
    FlattenAppend(ms, WaveformProgress(cd, Progress(chunk + 1, total), total, chunk + 1));
  }

  /** When all chunks are done, the points collected are the whole display series. */
  lemma SeriesComplete(w: seq<Point>, s: seq<real>, df: nat, chunkSize: nat, total: nat)
    requires df >= 1 && chunkSize >= 1
    requires total == CeilDiv(|s|, chunkSize * df)
    requires Strided(w, s, df, 0, |s|)
    requires |w| <= total * chunkSize
    requires |w| < total * chunkSize ==> |w| * df >= |s|
    ensures IsDownsampled(w, s, df)
  {
    if |w| == total * chunkSize {
      CeilDivTimes(|s|, chunkSize * df);
      MulAssoc(total, chunkSize, df);
    }
    StridedIsDownsampled(w, s, df);
  }

  /** All `total` messages numbered: progress within (0, 30], strictly rising, 30 at the last. */
  lemma MessagesComplete(ms: seq<ChunkMessage>, total: nat, chunkSize: nat)
    requires Numbered(ms, total, chunkSize) && |ms| == total
    ensures forall c :: 0 <= c < |ms| ==> 0.0 < ms[c].progress <= 30.0
    ensures forall c, d :: 0 <= c < d < |ms| ==> ms[c].progress < ms[d].progress
    ensures |ms| > 0 ==> ms[|ms| - 1].progress == 30.0
  {
    forall c, d | 0 <= c < d < |ms|
      ensures ms[c].progress < ms[d].progress
    {
      ProgressIncreasing(c + 1, d + 1, total);
    }
  }

  /**
   * The series is every `df`-th sample numbered from 0; the messages carry it
   * in order, cut into `ceil(len / (chunkSize * df))` chunks numbered from 1,
   * each non-empty and at most `chunkSize` long, all but the last full; the
   * progress rises strictly to 30.
   */
  method GenerateProgressiveWaveform(channelData: seq<real>, chunkSize: nat)
    returns (waveformData: seq<Point>, messages: seq<ChunkMessage>)
    requires chunkSize >= 1
    ensures IsDownsampled(waveformData, channelData, DownsampleFactor(|channelData|))
    ensures Flatten(messages) == waveformData
    ensures |messages| == CeilDiv(|channelData|, chunkSize * DownsampleFactor(|channelData|))
    ensures forall c :: 0 <= c < |messages| ==>
      && messages[c].currentChunk == c + 1
      && messages[c].totalChunks == |messages|
      && 1 <= |messages[c].chunk| <= chunkSize
      && 0.0 < messages[c].progress <= 30.0
    ensures forall c :: 0 <= c < |messages| - 1 ==> |messages[c].chunk| == chunkSize
    ensures forall c, d :: 0 <= c < d < |messages| ==> messages[c].progress < messages[d].progress
    ensures |messages| > 0 ==> messages[|messages| - 1].progress == 30.0
    ensures channelData == [] ==> waveformData == [] && messages == []
  {
    var len := |channelData|;
    var df := DownsampleFactor(len);
    var span := chunkSize * df;
    var total := CeilDiv(len, span);
    waveformData := [];
    messages := [];
    var chunk := 0;
    while chunk < total
      invariant chunk <= total
      invariant |messages| == chunk
      invariant Flatten(messages) == waveformData
      invariant Strided(waveformData, channelData, df, 0, len)
      invariant |waveformData| <= chunk * chunkSize
      invariant |waveformData| < chunk * chunkSize ==> |waveformData| * df >= len
      invariant Numbered(messages, total, chunkSize)
    {
      var startIdx := chunk * span;
      var endIdx := if startIdx + span < len then startIdx + span else len;
      var base := |waveformData|;
      ChunkStart(chunk, chunkSize, df, len, base);

      var chunkData := CollectChunk(channelData, df, base, chunkSize, endIdx);
      AfterChunk(waveformData, messages, channelData, df, chunkSize, chunk, chunkData, endIdx);
      var message := WaveformProgress(chunkData, Progress(chunk + 1, total), total, chunk + 1);
      messages := messages + [message];
      waveformData := waveformData + chunkData;
      chunk := chunk + 1;
    }

    SeriesComplete(waveformData, channelData, df, chunkSize, total);
    MessagesComplete(messages, total, chunkSize);
    if len == 0 {
      CeilDivBelow(0, 0, span);
    }
  }
}
