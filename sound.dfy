/**
 * `generateWaveform` of `sound.js`: the display waveform of one audio file.
 * A file that is not `.wav` is first converted to a `.wav` beside it; the
 * decoded first channel is then thinned to every `df`-th sample.
 */
module Sound {
  import opened Wrappers
  import opened Arith
  import opened Downsampling
  import opened Paths

  const ErrorPrefix := "Failed to generate waveform: "

  /**
   * The path that is decoded: the input itself when its extension is `.wav`
   * in any letter case; otherwise the extension (as lower-cased, so only a
   * lower-case extension is actually removed) is replaced by `.wav` in the
   * same directory.
   */
  function WavPath(filePath: string): (p: string)
    ensures DirPrefix(p) == DirPrefix(filePath)
    ensures ToLower(Extname(filePath)) == ".wav" ==> p == filePath
    ensures ToLower(Extname(filePath)) != ".wav" ==>
      Basename(p) == BasenameWithout(filePath, ToLower(Extname(filePath))) + ".wav"
  {
    var ext := ToLower(Extname(filePath));
    if ext == ".wav" then filePath
    else
      var stem := BasenameWithout(filePath, ext);
      WavSiblingOf(filePath, stem);
      Sibling(filePath, stem + ".wav")
  }

  /** `stem.wav` next to `filePath` is in its directory and named `stem.wav`. */
  lemma WavSiblingOf(filePath: string, stem: string)
    requires '/' !in stem
    ensures DirPrefix(Sibling(filePath, stem + ".wav")) == DirPrefix(filePath)
    ensures Basename(Sibling(filePath, stem + ".wav")) == stem + ".wav"
  {
    assert '/' !in ".wav";
    NotInConcat(stem, ".wav", '/');
  }

  /** The stem kept by `WavPath` is never empty when the input names a file. */
  lemma WavStem(filePath: string)
    requires Basename(filePath) != []
    ensures var ext := ToLower(Extname(filePath));
      BasenameWithout(filePath, ext) != [] && '/' !in BasenameWithout(filePath, ext)
  {
    var ext := ToLower(Extname(filePath));
    assert |ext| < |Basename(filePath)|;
    StemNonEmpty(filePath, ext);
  }

  /**
   * Whatever the input, the decoded path has the extension `.wav` (in some
   * letter case) and lies in the input's directory.
   */
  lemma WavPathIsWav(filePath: string)
    requires Basename(filePath) != []
    ensures ToLower(Extname(WavPath(filePath))) == ".wav"
    ensures DirPrefix(WavPath(filePath)) == DirPrefix(filePath)
  {
    var ext := ToLower(Extname(filePath));
    if ext != ".wav" {
      var d, stem := DirPrefix(filePath), BasenameWithout(filePath, ext);
      WavStem(filePath);
      assert WavPath(filePath) == d + (stem + ".wav");
      WavSibling(d, stem);
    }
  }

  /** `stem.wav` in directory `d` has the extension `.wav` and stays in `d`. */
  lemma WavSibling(d: string, stem: string)
    requires d == [] || d[|d| - 1] == '/'
    requires stem != [] && '/' !in stem
    ensures ToLower(Extname(d + (stem + ".wav"))) == ".wav"
    ensures DirPrefix(d + (stem + ".wav")) == d
  {
    assert '.' !in ".wav"[1..] && '/' !in ".wav";
    ExtnameOfStemExt(d, stem, ".wav");
    LowerWav();
  }

  lemma LowerWav()
    ensures ToLower(".wav") == ".wav"
  {
    var l := ToLower(".wav");
    assert l[0] == '.' && l[1] == 'w' && l[2] == 'a' && l[3] == 'v';
  }

  /** Deriving the path twice changes nothing more. */
  lemma WavPathIdempotent(filePath: string)
    requires Basename(filePath) != []
    ensures WavPath(WavPath(filePath)) == WavPath(filePath)
  {
    WavPathIsWav(filePath);
  }

  /** A lower-case extension other than `.wav` is replaced: `dir/song.mp3` becomes `dir/song.wav`. */
  lemma WavPathReplacesLowerCaseExt(dir: string, stem: string, ext: string)
    requires dir == [] || dir[|dir| - 1] == '/'
    requires stem != [] && '/' !in stem
    requires |ext| >= 2 && ext[0] == '.' && '.' !in ext[1..] && '/' !in ext
    requires ToLower(ext) == ext && ext != ".wav"
    ensures WavPath(dir + (stem + ext)) == dir + (stem + ".wav")
  {
    ExtnameOfStemExt(dir, stem, ext);
    BasenameWithoutExt(dir, stem, ext, ext);
  }

  /**
   * An extension with an upper-case letter is not removed, since the
   * lower-cased extension is not a suffix of the name: `dir/Song.MP3`
   * becomes `dir/Song.MP3.wav`.
   */
  lemma WavPathKeepsUpperCaseExt(dir: string, stem: string, ext: string)
    requires dir == [] || dir[|dir| - 1] == '/'
    requires stem != [] && '/' !in stem
    requires |ext| >= 2 && ext[0] == '.' && '.' !in ext[1..] && '/' !in ext
    requires ToLower(ext) != ext && ToLower(ext) != ".wav"
    ensures WavPath(dir + (stem + ext)) == dir + (stem + ext + ".wav")
  {
    ExtnameOfStemExt(dir, stem, ext);
    BasenameWithoutExt(dir, stem, ext, ToLower(ext));
    assert stem + ext + ".wav" == (stem + ext) + ".wav";
  }

  /** The stride loop: every `df`-th sample from the first on. */
  method StrideSamples(channelData: seq<real>, df: nat) returns (values: seq<real>)
    requires df >= 1
    ensures |values| == CeilDiv(|channelData|, df)
    ensures forall k :: 0 <= k < |values| ==> k * df < |channelData| && values[k] == channelData[k * df]
  {
    values := [];
    var i := 0;
    while i < |channelData|
      invariant i == |values| * df
      invariant |values| == 0 || (|values| - 1) * df < |channelData|
      invariant forall k :: 0 <= k < |values| ==> k * df < |channelData| && values[k] == channelData[k * df]
      decreases |channelData| - i
    {
      values := values + [channelData[i]];
      assert (|values| - 1) * df == i;
      i := i + df;
      assert i == |values| * df;
    }
    CeilDivUnique(|values|, |channelData|, df);
  }

  /** The `map` that numbers the values: point `k` is `{x: k, y: values[k]}`. */
  function ToPoints(values: seq<real>): (points: seq<Point>)
    ensures |points| == |values|
    ensures forall k :: 0 <= k < |values| ==> points[k] == Point(k, values[k])
  {
    seq(|values|, k requires 0 <= k < |values| => Point(k, values[k]))
  }

  /**
   * `generateWaveform`. The file system and the decoder are parameters:
   * `fileExists` is the existence check, and `load(p)` stands for producing
   * `p` (by conversion when it is not the input) and decoding its first
   * channel, or the message of the error that this throws.
   */
  method GenerateWaveform(filePath: string, fileExists: bool, load: string -> Result<seq<real>, string>)
    returns (r: Result<seq<Point>, string>)
    ensures !fileExists ==> r == Failure(ErrorPrefix + "File does not exist: " + filePath)
    ensures fileExists && load(WavPath(filePath)).Failure? ==>
      r == Failure(ErrorPrefix + load(WavPath(filePath)).error)
    ensures fileExists && load(WavPath(filePath)).Success? ==>
      var channelData := load(WavPath(filePath)).value;
      r.Success? && IsDownsampled(r.value, channelData, DownsampleFactor(|channelData|))
    ensures r.Failure? ==> ErrorPrefix <= r.error
  {
    if !fileExists {
      return Failure(ErrorPrefix + "File does not exist: " + filePath);
    }
    var processedFilePath := WavPath(filePath);
    var decoded := load(processedFilePath);
    if decoded.Failure? {
      return Failure(ErrorPrefix + decoded.error);
    }
    var channelData := decoded.value;
    var downsampleFactor := DownsampleFactor(|channelData|);
    var waveformData := StrideSamples(channelData, downsampleFactor);
    r := Success(ToPoints(waveformData));
  }
}
