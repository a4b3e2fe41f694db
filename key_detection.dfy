/**
 * `detectKey` of the analysis worker: the middle half of the buffer is
 * windowed and transformed, the strongest bin strictly between 80 Hz and
 * 2000 Hz is taken as the dominant frequency, and its semitone count above
 * C0 is named as a note and an octave.
 */
module KeyDetection {
  import opened Frames
  import opened JsNumbers

  /** `NOTES`: the pitch classes from C, in semitone order. */
  const Notes: seq<string> := ["C", "C#", "D", "D#", "E", "F", "F#", "G", "G#", "A", "A#", "B"]

  /** `A4 * Math.pow(2, -4.75)` with `A4 = 440`, as the double the source computes. */
  const C0: real := 16.351597831287414

  /** `channelData.slice(floor(len * 0.25), floor(len * 0.75))`. */
  function Segment(s: seq<real>): (seg: seq<real>)
    ensures |s| / 4 <= (3 * |s|) / 4 <= |s|
    ensures |seg| == (3 * |s|) / 4 - |s| / 4
    ensures forall i :: 0 <= i < |seg| ==> seg[i] == s[|s| / 4 + i]
  {
    s[|s| / 4 .. (3 * |s|) / 4]
  }

  /** The segment multiplied by the window `hann(i, n)` (the Hann coefficients are not modelled). */
  function Window(seg: seq<real>, hann: (nat, nat) -> real): (w: seq<real>)
    ensures |w| == |seg|
  {
    seq(|seg|, i requires 0 <= i < |seg| => seg[i] * hann(i, |seg|))
  }

  /** The magnitude spectrum the key is read from. */
  function KeySpectrum(s: seq<real>, hann: (nat, nat) -> real, dft: (seq<real>, nat) -> real): (sp: seq<real>)
    ensures |sp| == (3 * |s|) / 4 - |s| / 4
  {
    Fft(Window(Segment(s), hann), dft)
  }

  /** `freqBinSize = sampleRate / 2 / (n / 2)`: the width of one bin of an `n`-point spectrum. */
  function BinSize(sampleRate: nat, n: nat): real
    requires n > 0
  {
    (sampleRate as real / 2.0) / (n as real / 2.0)
  }

  /** `i * freqBinSize`: the frequency of bin `i`. */
  function BinFrequency(i: nat, sampleRate: nat, n: nat): real
    requires n > 0
  {
    i as real * BinSize(sampleRate, n)
  }

  /** Bin `i` of an `n`-point spectrum lies at `i * sampleRate / n` Hz. */
  lemma BinFrequencyValue(i: nat, sampleRate: nat, n: nat)
    requires n > 0
    ensures BinFrequency(i, sampleRate, n) * (n as real) == (i * sampleRate) as real
  {
    assert BinSize(sampleRate, n) * (n as real) == sampleRate as real;
  }

  /** Bin `i` is searched: `1 <= i < n / 2`, with a frequency strictly between 80 Hz and 2000 Hz. */
  predicate IsCandidate(sp: seq<real>, sampleRate: nat, i: int) {
    && 1 <= i
    && 2 * i < |sp|
    && 80.0 < BinFrequency(i, sampleRate, |sp|) < 2000.0
  }

  /** Bin `b` is the dominant one: a positive candidate of highest magnitude, and the first such. */
  ghost predicate IsDominantBin(sp: seq<real>, sampleRate: nat, b: int): (d: bool)
    ensures d ==> !NoDominantBin(sp, sampleRate)
  {
    && IsCandidate(sp, sampleRate, b)
    && sp[b] > 0.0
    && (forall j :: IsCandidate(sp, sampleRate, j) ==> sp[j] <= sp[b])
    && (forall j :: IsCandidate(sp, sampleRate, j) && j < b ==> sp[j] < sp[b])
  }

  /** No candidate has a positive magnitude. */
  ghost predicate NoDominantBin(sp: seq<real>, sampleRate: nat) {
    forall j :: IsCandidate(sp, sampleRate, j) ==> sp[j] <= 0.0
  }

  /** There is at most one dominant bin. */
  lemma DominantBinUnique(sp: seq<real>, sampleRate: nat, a: int, b: int)
    requires IsDominantBin(sp, sampleRate, a) && IsDominantBin(sp, sampleRate, b)
    ensures a == b
  {
  }

  /**
   * The bin the search has settled on after the bins below `n`: 0 while no
   * candidate beat the starting magnitude 0, else the latest candidate that
   * beat the previous choice.
   */
  function DominantBelow(sp: seq<real>, sampleRate: nat, n: nat): (b: nat)
    ensures b == 0 || (b < n && IsCandidate(sp, sampleRate, b) && sp[b] > 0.0)
  {
    if n <= 1 then 0
    else
      var b := DominantBelow(sp, sampleRate, n - 1);
      var best := if b == 0 then 0.0 else sp[b];
      if IsCandidate(sp, sampleRate, n - 1) && sp[n - 1] > best then n - 1 else b
  }

  /**
   * The settled bin beats every candidate below `n` and is strictly above
   * every candidate below itself; when it is 0, no candidate below `n` is positive.
   */
  lemma {:induction false} DominantBelowIsBest(sp: seq<real>, sampleRate: nat, n: nat)
    ensures var b := DominantBelow(sp, sampleRate, n);
      && (b == 0 ==> forall j :: IsCandidate(sp, sampleRate, j) && j < n ==> sp[j] <= 0.0)
      && (b != 0 ==>
        && (forall j :: IsCandidate(sp, sampleRate, j) && j < n ==> sp[j] <= sp[b])
        && (forall j :: IsCandidate(sp, sampleRate, j) && j < b ==> sp[j] < sp[b]))
  {
    if n > 1 {
      DominantBelowIsBest(sp, sampleRate, n - 1);
    }
  }

  /** One step of the search: bin `i` replaces the choice when it is a candidate above it. */
  lemma DominantStep(sp: seq<real>, sampleRate: nat, i: nat)
    requires 1 <= i && 2 * i < |sp|
    ensures var b := DominantBelow(sp, sampleRate, i);
      DominantBelow(sp, sampleRate, i + 1)
        == if IsCandidate(sp, sampleRate, i) && sp[i] > (if b == 0 then 0.0 else sp[b]) then i else b
  {
  }

  /** Once every candidate lies below `n`, the settled bin is the dominant bin, or there is none. */
  lemma DominantBelowAll(sp: seq<real>, sampleRate: nat, n: nat)
    requires 2 * n >= |sp|
    ensures DominantBelow(sp, sampleRate, n) == 0 ==> NoDominantBin(sp, sampleRate)
    ensures DominantBelow(sp, sampleRate, n) != 0 ==> IsDominantBin(sp, sampleRate, DominantBelow(sp, sampleRate, n))
  {
    DominantBelowIsBest(sp, sampleRate, n);
  }

  /** Exactly one of: no candidate is positive, or there is a dominant bin. */
  lemma DominantBinExists(sp: seq<real>, sampleRate: nat)
    ensures NoDominantBin(sp, sampleRate) <==> !exists b :: IsDominantBin(sp, sampleRate, b)
  {
    var n := |sp|;
    DominantBelowAll(sp, sampleRate, n);
    var b := DominantBelow(sp, sampleRate, n);
    if b != 0 {
      assert IsDominantBin(sp, sampleRate, b);
    }
  }

  /**
   * The search loop `for (i = 1; i < spectrum.length / 2; i++)`: a candidate
   * replaces the current choice when its magnitude is strictly greater. It
   * returns the magnitude and frequency found (both 0 when none) and the bin
   * (0 when none).
   */
  method FindDominant(sp: seq<real>, sampleRate: nat) returns (maxMagnitude: real, dominantFreq: real, bin: nat)
    ensures bin == 0 ==> NoDominantBin(sp, sampleRate) && maxMagnitude == 0.0 && dominantFreq == 0.0
    ensures bin != 0 ==>
      && IsDominantBin(sp, sampleRate, bin)
      && maxMagnitude == sp[bin]
      && dominantFreq == BinFrequency(bin, sampleRate, |sp|)
  {
    maxMagnitude, dominantFreq, bin := 0.0, 0.0, 0;
    // With an empty spectrum the loop does not run and the bin size is unused.
    var freqBinSize := if |sp| > 0 then BinSize(sampleRate, |sp|) else 0.0;
    var i := 1;
    while 2 * i < |sp|
      invariant 1 <= i
      invariant bin == DominantBelow(sp, sampleRate, i)
      invariant maxMagnitude == if bin == 0 then 0.0 else sp[bin]
      invariant dominantFreq == if bin == 0 then 0.0 else BinFrequency(bin, sampleRate, |sp|)
    {
      var frequency := i as real * freqBinSize;
      assert frequency == BinFrequency(i, sampleRate, |sp|);
      DominantStep(sp, sampleRate, i);
      if frequency > 80.0 && frequency < 2000.0 && sp[i] > maxMagnitude {
        maxMagnitude := sp[i];
        dominantFreq := frequency;
        bin := i;
      }
      i := i + 1;
    }
    DominantBelowAll(sp, sampleRate, i);
  }

  /** The result of `detectKey`. */
  datatype KeyResult = KeyResult(dominantFreq: real, note: string, noteOnly: string, octave: int, confidence: real)

  /** The result when no dominant frequency is found. */
  const UnknownKey := KeyResult(0.0, "Unknown", "Unknown", 0, 0.0)

  /** `${NOTES[halfSteps % 12]}${Math.floor(halfSteps / 12)}`: a letter from A to G, an optional `#`, then the octave digits. */
  function NoteName(halfSteps: nat): (name: string)
    ensures |name| >= 2 && 'A' <= name[0] <= 'G'
    ensures IsDigit(name[|name| - 1])
    ensures name[1] == '#' || IsDigit(name[1])
  {
    var note, octave := Notes[halfSteps % 12], NatToString(halfSteps / 12);
    assert (note + octave)[|note + octave| - 1] == octave[|octave| - 1];
    note + octave
  }

  /** The key reported for bin `b`, with `halfStepsOf(f)` standing for `Math.round(12 * Math.log2(f / C0))`. */
  function KeyOfBin(sp: seq<real>, sampleRate: nat, b: nat, halfStepsOf: real -> nat): (r: KeyResult)
    requires 0 < b < |sp|
    ensures r.dominantFreq * (|sp| as real) == (b * sampleRate) as real
    ensures r.noteOnly in Notes && r.octave >= 0
    ensures r.note == r.noteOnly + NatToString(r.octave)
    ensures r.confidence == sp[b]
  {
    var f := BinFrequency(b, sampleRate, |sp|);
    BinFrequencyValue(b, sampleRate, |sp|);
    var h := halfStepsOf(f);
    KeyResult(f, NoteName(h), Notes[h % 12], h / 12, sp[b])
  }

  /**
   * With no positive candidate the key is unknown; otherwise it is read from
   * the dominant bin, whose frequency always lies above C0.
   */
  method DetectKey(channelData: seq<real>, sampleRate: nat, hann: (nat, nat) -> real,
                   dft: (seq<real>, nat) -> real, halfStepsOf: real -> nat) returns (r: KeyResult)
    ensures NoDominantBin(KeySpectrum(channelData, hann, dft), sampleRate) ==> r == UnknownKey
    ensures !NoDominantBin(KeySpectrum(channelData, hann, dft), sampleRate) ==>
      exists b :: IsDominantBin(KeySpectrum(channelData, hann, dft), sampleRate, b)
        && r == KeyOfBin(KeySpectrum(channelData, hann, dft), sampleRate, b, halfStepsOf)
  {
    var segment := Segment(channelData);
    var windowed := Window(segment, hann);
    var spectrum := Fft(windowed, dft);
    var maxMagnitude, dominantFreq, bin := FindDominant(spectrum, sampleRate);
    if dominantFreq > 0.0 {
      if dominantFreq > C0 {
        var halfSteps := halfStepsOf(dominantFreq);
        var noteIndex := halfSteps % 12;
        var octave := halfSteps / 12;
        var note := Notes[noteIndex];
        return KeyResult(dominantFreq, note + NatToString(octave), note, octave, maxMagnitude);
      }
    }
    return UnknownKey;
  }

  /** The semitone count splits into octave and pitch class. */
  lemma NoteParts(halfSteps: nat)
    ensures 0 <= halfSteps % 12 < |Notes|
    ensures halfSteps == 12 * (halfSteps / 12) + halfSteps % 12
    ensures NoteName(halfSteps) == Notes[halfSteps % 12] + NatToString(halfSteps / 12)
  {
  }

  /** Different pitch classes differ in their letter or in being sharp. */
  lemma NotesDistinct(i: nat, j: nat)
    requires i < |Notes| && j < |Notes| && i != j
    ensures Notes[i][0] != Notes[j][0] || |Notes[i]| != |Notes[j]|
  {
  }

  /** Distinct semitone counts get distinct note names. */
  lemma NoteNameInjective(h1: nat, h2: nat)
    requires NoteName(h1) == NoteName(h2)
    ensures h1 == h2
  {
    var i1, i2 := h1 % 12, h2 % 12;
    var d1, d2 := NatToString(h1 / 12), NatToString(h2 / 12);
    var n1, n2 := Notes[i1], Notes[i2];
    var s := NoteName(h1);
    assert s == n1 + d1 && s == n2 + d2;
    assert 1 <= |n1| <= 2 && 1 <= |n2| <= 2;
    assert |n1| == 2 ==> n1[1] == '#';
    assert |n2| == 2 ==> n2[1] == '#';
    assert s[0] == n1[0] == n2[0];
    assert |n1| == 1 ==> s[1] == d1[0];
    assert |n2| == 1 ==> s[1] == d2[0];
    assert |n1| == |n2|;
    if i1 != i2 {
      NotesDistinct(i1, i2);
    }
    assert d1 == s[|n1|..] == d2;
    NatToStringValue(h1 / 12);
    NatToStringValue(h2 / 12);
  }
}
