/**
 * `AudioTransformer` (`audioTransformer.js`): the export-settings validator,
 * the list of supported formats, the `configure*` steps that set up an
 * ffmpeg command from the settings, the loudness target clamp, and the
 * output path of a transformation.
 */
module Transformer {
  import opened Wrappers
  import opened JsNumbers
  import opened Paths

  /** The export settings; every field but `normalize` may be absent. */
  datatype Settings = Settings(
    outputFormat: Option<string>,
    outputName: Option<string>,
    sampleRate: Option<string>,
    bitDepth: Option<string>,
    channelConfig: Option<string>,
    normalize: bool,
    targetLevel: Option<string>)

  datatype SupportedFormats = SupportedFormats(input: seq<string>, output: seq<string>)

  /** `getSupportedFormats()`: every output format can also be read. */
  function GetSupportedFormats(): (f: SupportedFormats)
    ensures forall x :: x in f.output ==> x in f.input
    ensures "wav" in f.output && "wav" in f.input
  {
    SupportedFormats(["wav", "mp3", "flac", "aiff", "ogg", "m4a", "wma"], ["wav", "mp3", "flac", "aiff"])
  }

  /** An optional string inside a template literal: its text, or `undefined`. */
  function Text(x: Option<string>): string {
    if x.Some? then x.value else "undefined"
  }

  /** The validator's checks, in the order it runs them. */
  datatype Check = MissingFormat | MissingName | UnsupportedFormat | BadSampleRate | BadBitDepth | BadTargetLevel

  const CheckOrder: seq<Check> := [MissingFormat, MissingName, UnsupportedFormat, BadSampleRate, BadBitDepth, BadTargetLevel]

  /** `parseFloat(targetLevel)` is a number in [-30, 0] (not `NaN`, not above 0, not below -30). */
  predicate LevelInRange(p: Option<JsNumber>) {
    p.Some? && p.value.Finite? && -30.0 <= p.value.value <= 0.0
  }

  /** A sample rate that is absent, empty, or parses to 44100, 48000 or 96000. */
  predicate RateAccepted(sampleRate: Option<string>) {
    !Truthy(sampleRate) || ParseInt(sampleRate.value) in [Some(44100), Some(48000), Some(96000)]
  }

  /** A bit depth that is absent, empty, or one of `16`, `24`, `32`. */
  predicate DepthAccepted(bitDepth: Option<string>) {
    !Truthy(bitDepth) || bitDepth.value in ["16", "24", "32"]
  }

  /** A target level that is not checked (normalisation off, or no level) or lies in [-30, 0]. */
  predicate LevelAccepted(normalize: bool, targetLevel: Option<string>) {
    !normalize || !Truthy(targetLevel) || LevelInRange(ParseFloat(targetLevel.value))
  }

  /** Check `c` reports an error for settings `s`. */
  predicate Fails(s: Settings, c: Check) {
    match c
    case MissingFormat => !Truthy(s.outputFormat)
    case MissingName => !Truthy(s.outputName)
    case UnsupportedFormat => Truthy(s.outputFormat) && s.outputFormat.value !in GetSupportedFormats().output
    case BadSampleRate => !RateAccepted(s.sampleRate)
    case BadBitDepth => !DepthAccepted(s.bitDepth)
    case BadTargetLevel => !LevelAccepted(s.normalize, s.targetLevel)
  }

  /** The message check `c` pushes. */
  function Message(s: Settings, c: Check): string {
    match c
    case MissingFormat => "Output format is required"
    case MissingName => "Output name is required"
    case UnsupportedFormat => "Unsupported output format: " + Text(s.outputFormat)
    case BadSampleRate => "Invalid sample rate: " + Text(s.sampleRate)
    case BadBitDepth => "Invalid bit depth: " + Text(s.bitDepth)
    case BadTargetLevel => "Target level must be between -30 and 0 dB"
  }

  /** The messages of the failing checks among `checks`, in order. */
  function Report(s: Settings, checks: seq<Check>): (errors: seq<string>)
    ensures |errors| <= |checks|
  {
    if checks == [] then []
    else
      Report(s, checks[..|checks| - 1]) + Outcome(s, checks[|checks| - 1])
  }

  /** Settings the validator accepts, stated field by field. */
  predicate Acceptable(s: Settings) {
    && Truthy(s.outputFormat) && Truthy(s.outputName)
    && s.outputFormat.value in GetSupportedFormats().output
    && RateAccepted(s.sampleRate)
    && DepthAccepted(s.bitDepth)
    && LevelAccepted(s.normalize, s.targetLevel)
  }

  /** `validateSettings` returns no error exactly for acceptable settings. */
  lemma ValidExactlyWhenAcceptable(s: Settings)
    ensures Report(s, CheckOrder) == [] <==> Acceptable(s)
  {
    ReportSixEmpty(s, MissingFormat, MissingName, UnsupportedFormat, BadSampleRate, BadBitDepth, BadTargetLevel);
  }

  /** A missing format is reported first and only as missing, never also as unsupported. */
  lemma MissingFormatReportedOnce(s: Settings)
    requires !Truthy(s.outputFormat)
    ensures Report(s, CheckOrder) != [] && Report(s, CheckOrder)[0] == "Output format is required"
    ensures !Fails(s, UnsupportedFormat)
  {
    ReportSix(s, MissingFormat, MissingName, UnsupportedFormat, BadSampleRate, BadBitDepth, BadTargetLevel);
  }

  /** `validateSettings`: the checks run in order and each failing one pushes its message. */
  method ValidateSettings(settings: Settings) returns (errors: seq<string>)
    ensures errors == Report(settings, CheckOrder)
    ensures errors == [] <==> Acceptable(settings)
  {
    errors := [];
    if !Truthy(settings.outputFormat) {
      errors := errors + ["Output format is required"];
    }
    if !Truthy(settings.outputName) {
      errors := errors + ["Output name is required"];
    }
    var supportedFormats := GetSupportedFormats().output;
    if Truthy(settings.outputFormat) && settings.outputFormat.value !in supportedFormats {
      errors := errors + ["Unsupported output format: " + settings.outputFormat.value];
    }
    assert errors == Outcome(settings, MissingFormat) + Outcome(settings, MissingName) + Outcome(settings, UnsupportedFormat);
    var sampleRateErrors := CheckSampleRate(settings);
    var bitDepthErrors := CheckBitDepth(settings);
    var targetLevelErrors := CheckTargetLevel(settings);
    errors := errors + sampleRateErrors + bitDepthErrors + targetLevelErrors;
    ReportSix(settings, MissingFormat, MissingName, UnsupportedFormat, BadSampleRate, BadBitDepth, BadTargetLevel);
    ValidExactlyWhenAcceptable(settings);
  }

  /** The sample-rate rule of `validateSettings`: a given rate must parse to 44100, 48000 or 96000. */
  method CheckSampleRate(settings: Settings) returns (errors: seq<string>)
    ensures errors == Outcome(settings, BadSampleRate)
  {
    errors := [];
    if Truthy(settings.sampleRate) {
      var validSampleRates := [Some(44100), Some(48000), Some(96000)];
      var sampleRate := ParseInt(settings.sampleRate.value);
      if sampleRate !in validSampleRates {
        errors := errors + ["Invalid sample rate: " + settings.sampleRate.value];
      }
    }
    SampleRateOutcome(settings);
  }

  /** The bit-depth rule of `validateSettings`: a given depth must be `16`, `24` or `32`. */
  method CheckBitDepth(settings: Settings) returns (errors: seq<string>)
    ensures errors == Outcome(settings, BadBitDepth)
  {
    errors := [];
    if Truthy(settings.bitDepth) {
      var validBitDepths := ["16", "24", "32"];
      if settings.bitDepth.value !in validBitDepths {
        errors := errors + ["Invalid bit depth: " + settings.bitDepth.value];
      }
    }
  }

  /** The target-level rule of `validateSettings`: with normalisation on, a given level must lie in [-30, 0]. */
  method CheckTargetLevel(settings: Settings) returns (errors: seq<string>)
    ensures errors == Outcome(settings, BadTargetLevel)
  {
    errors := [];
    if settings.normalize && Truthy(settings.targetLevel) {
      var targetLevel := ParseFloat(settings.targetLevel.value);
      if !LevelInRange(targetLevel) {
        errors := errors + ["Target level must be between -30 and 0 dB"];
      }
    }
    TargetLevelOutcome(settings);
  }

  /** The outcome of the target-level rule, spelled out. */
  lemma TargetLevelOutcome(s: Settings)
    ensures Outcome(s, BadTargetLevel) == if !s.normalize || !Truthy(s.targetLevel) || LevelInRange(ParseFloat(s.targetLevel.value)) then [] else ["Target level must be between -30 and 0 dB"]
  {
  }

  /** The outcome of the sample-rate rule, spelled out. */
  lemma SampleRateOutcome(s: Settings)
    ensures Outcome(s, BadSampleRate) == if !Truthy(s.sampleRate) || ParseInt(s.sampleRate.value) in [Some(44100), Some(48000), Some(96000)] then [] else ["Invalid sample rate: " + s.sampleRate.value]
  {
  }

  /** The outcome of one check as a piece of the report. */
  function Outcome(s: Settings, c: Check): seq<string> {
    if Fails(s, c) then [Message(s, c)] else []
  }

  /** The report over six checks, unfolded one check at a time. */
  lemma ReportSix(s: Settings, c0: Check, c1: Check, c2: Check, c3: Check, c4: Check, c5: Check)
    ensures Report(s, [c0, c1, c2, c3, c4, c5])
      == Outcome(s, c0) + Outcome(s, c1) + Outcome(s, c2) + Outcome(s, c3) + Outcome(s, c4) + Outcome(s, c5)
  {
    var p1 := [c0];
    var p2 := p1 + [c1];
    var p3 := p2 + [c2];
    var p4 := p3 + [c3];
    var p5 := p4 + [c4];
    assert [c0, c1, c2, c3, c4, c5] == p5 + [c5];
    assert p1[..0] == [] && p2[..1] == p1 && p3[..2] == p2 && p4[..3] == p3 && p5[..4] == p4;
    assert (p5 + [c5])[..5] == p5;
    assert Report(s, p1) == Outcome(s, c0);
    assert Report(s, p2) == Report(s, p1) + Outcome(s, c1);
    assert Report(s, p3) == Report(s, p2) + Outcome(s, c2);
    assert Report(s, p4) == Report(s, p3) + Outcome(s, c3);
    assert Report(s, p5) == Report(s, p4) + Outcome(s, c4);
  }

  /** A report over six checks is empty exactly when none of them fails. */
  lemma ReportSixEmpty(s: Settings, c0: Check, c1: Check, c2: Check, c3: Check, c4: Check, c5: Check)
    ensures Report(s, [c0, c1, c2, c3, c4, c5]) == []
      <==> !Fails(s, c0) && !Fails(s, c1) && !Fails(s, c2) && !Fails(s, c3) && !Fails(s, c4) && !Fails(s, c5)
  {
    ReportSix(s, c0, c1, c2, c3, c4, c5);
  }

  /** The codec names `configureBitDepth` spells out. */
  lemma PcmCodecNames()
    ensures "pcm_s" + "16" + "le" == "pcm_s16le" && "pcm_s" + "16" + "be" == "pcm_s16be"
    ensures "pcm_s" + "24" + "le" == "pcm_s24le" && "pcm_s" + "24" + "be" == "pcm_s24be"
    ensures "pcm_s" + "32" + "le" == "pcm_s32le" && "pcm_s" + "32" + "be" == "pcm_s32be"
  {
  }

  /** `parseFloat(settings.targetLevel) || -23`: `NaN` and 0 are falsy and fall back to -23. */
  function TargetLevel(targetLevel: Option<string>): (t: JsNumber)
    ensures t != Finite(0.0)
    ensures targetLevel.None? ==> t == Finite(-23.0)
    ensures targetLevel.Some? && ParseFloat(targetLevel.value).None? ==> t == Finite(-23.0)
    ensures targetLevel.Some? && ParseFloat(targetLevel.value).Some? && ParseFloat(targetLevel.value).value != Finite(0.0)
      ==> t == ParseFloat(targetLevel.value).value
  {
    var parsed := if targetLevel.Some? then ParseFloat(targetLevel.value) else None;
    match parsed
    case None => Finite(-23.0)
    case Some(x) => if x == Finite(0.0) then Finite(-23.0) else x
  }

  /** `Math.max(-70, Math.min(-5, targetLevel))`: the loudnorm `I`, always within [-70, -5]. */
  function IntegratedLoudness(t: JsNumber): (i: real)
    ensures -70.0 <= i <= -5.0
    ensures t.Finite? && -70.0 <= t.value <= -5.0 ==> i == t.value
    ensures t.Finite? && t.value > -5.0 ==> i == -5.0
    ensures t.Finite? && t.value < -70.0 ==> i == -70.0
    ensures t == PosInfinity ==> i == -5.0
    ensures t == NegInfinity ==> i == -70.0
  {
    var lowered := match t
      case Finite(v) => if v < -5.0 then v else -5.0
      case PosInfinity => -5.0
      case NegInfinity => -70.0;
    if lowered > -70.0 then lowered else -70.0
  }

  /** Clamping twice changes nothing. */
  lemma LoudnessIdempotent(t: JsNumber)
    ensures IntegratedLoudness(Finite(IntegratedLoudness(t))) == IntegratedLoudness(t)
  {
  }

  /** A target of `0` passes validation, yet normalisation falls back to -23, not to the nearest allowed -5. */
  lemma ZeroTargetFallsBack()
    ensures LevelInRange(ParseFloat("0"))
    ensures TargetLevel(Some("0")) == Finite(-23.0)
    ensures IntegratedLoudness(TargetLevel(Some("0"))) == -23.0
  {
    ParseFloatOfNatToString(0);
    assert NatToString(0) == "0";
  }

  /** For accepted settings the loudnorm `I` is the target, raised to -5 when above it, or -23 for 0 or no target. */
  lemma AcceptedLevelLoudness(s: Settings)
    requires Acceptable(s) && s.normalize
    ensures !Truthy(s.targetLevel) ==> IntegratedLoudness(TargetLevel(s.targetLevel)) == -23.0
    ensures Truthy(s.targetLevel) ==>
      var v := ParseFloat(s.targetLevel.value).value.value;
      IntegratedLoudness(TargetLevel(s.targetLevel)) == if v == 0.0 then -23.0 else if v > -5.0 then -5.0 else v
  {
  }

  /** The state of an ffmpeg command the configure steps touch. */
  datatype Frequency = NoFrequency | Frequency(rate: Option<int>)

  /** One `loudnorm` filter with its options. */
  datatype Loudnorm = Loudnorm(integrated: real, truePeak: real, loudnessRange: real, printFormat: string)

  /**
   * A fluent-ffmpeg command under construction: `format`, `audioCodec`,
   * `audioBitrate`, `audioChannels` and `audioFrequency` set a value (the
   * last call wins), `addOption` and `audioFilters` append.
   */
  class Command {
    var format: Option<string>
    var codec: Option<string>
    var bitrate: Option<string>
    var options: seq<string>
    var channels: Option<int>
    var frequency: Frequency
    var filters: seq<Loudnorm>

    /** `ffmpeg(inputFile)`: nothing set yet. */
    constructor ()
      ensures format == None && codec == None && bitrate == None && options == []
      ensures channels == None && frequency == NoFrequency && filters == []
    {
      format, codec, bitrate, options := None, None, None, [];
      channels, frequency, filters := None, NoFrequency, [];
    }
  }

  /** The codec `configureFormat` sets: none for mp3, flac, 16-bit big-endian PCM for aiff, little-endian for wav and anything else. */
  function FormatCodec(format: Option<string>): (c: Option<string>)
    ensures c.None? <==> format == Some("mp3")
    ensures c == Some("pcm_s16le") <==> format !in [Some("mp3"), Some("flac"), Some("aiff")]
  {
    if format == Some("mp3") then None
    else if format == Some("flac") then Some("flac")
    else if format == Some("aiff") then Some("pcm_s16be")
    else Some("pcm_s16le")
  }

  /**
   * The codec `configureBitDepth` sets: signed PCM of the requested width,
   * little-endian for wav and big-endian for aiff; nothing for other formats
   * or other widths.
   */
  function BitDepthCodec(format: Option<string>, bitDepth: Option<string>): (c: Option<string>)
    ensures c.Some? <==> bitDepth.Some? && bitDepth.value in ["16", "24", "32"] && format in [Some("wav"), Some("aiff")]
  {
    if bitDepth.Some? && bitDepth.value in ["16", "24", "32"] && format in [Some("wav"), Some("aiff")] then
      Some("pcm_s" + bitDepth.value + (if format == Some("wav") then "le" else "be"))
    else None
  }

  /** `configureChannels`: 1 for mono, 2 for stereo, otherwise not set. */
  function ChannelCount(channelConfig: Option<string>): (n: Option<int>)
    ensures n.Some? <==> channelConfig in [Some("mono"), Some("stereo")]
    ensures n.Some? ==> 1 <= n.value <= 2
  {
    if channelConfig == Some("mono") then Some(1)
    else if channelConfig == Some("stereo") then Some(2)
    else None
  }

  class AudioTransformer {
    /** The directory transformed files are written to. */
    const outputDir: string

    /** The output directory is a parameter (`path.join(__dirname, '..', 'sound', 'transformed')` in the source). */
    constructor (outputDir: string)
      ensures this.outputDir == outputDir
    {
      this.outputDir := outputDir;
    }

    /** `configureFormat`: the container, then the codec or bitrate of that format. */
    method ConfigureFormat(command: Command, settings: Settings)
      modifies command
      ensures command.format == settings.outputFormat
      ensures command.codec == if FormatCodec(settings.outputFormat).Some? then FormatCodec(settings.outputFormat) else old(command.codec)
      ensures command.bitrate == if settings.outputFormat == Some("mp3") then Some("320k") else old(command.bitrate)
      ensures command.options == old(command.options) + (if settings.outputFormat == Some("flac") then ["-compression_level", "5"] else [])
      ensures command.channels == old(command.channels) && command.frequency == old(command.frequency)
      ensures command.filters == old(command.filters)
    {
      command.format := settings.outputFormat;
      if settings.outputFormat == Some("mp3") {
        command.bitrate := Some("320k");
      } else if settings.outputFormat == Some("flac") {
        command.codec := Some("flac");
        command.options := command.options + ["-compression_level", "5"];
      } else if settings.outputFormat == Some("aiff") {
        command.codec := Some("pcm_s16be");
      } else {
        command.codec := Some("pcm_s16le");
      }
    }

    /** `configureChannels`: only `mono` and `stereo` set the channel count. */
    method ConfigureChannels(command: Command, settings: Settings)
      modifies command
      ensures command.channels == if ChannelCount(settings.channelConfig).Some? then ChannelCount(settings.channelConfig) else old(command.channels)
      ensures command.format == old(command.format) && command.codec == old(command.codec)
      ensures command.bitrate == old(command.bitrate) && command.options == old(command.options)
      ensures command.frequency == old(command.frequency) && command.filters == old(command.filters)
    {
      if settings.channelConfig == Some("mono") {
        command.channels := Some(1);
      } else if settings.channelConfig == Some("stereo") {
        command.channels := Some(2);
      }
    }

    /** `configureSampleRate`: a truthy rate is passed through `parseInt` (`None` is `NaN`). */
    method ConfigureSampleRate(command: Command, settings: Settings)
      modifies command
      ensures command.frequency == if Truthy(settings.sampleRate) then Frequency(ParseInt(settings.sampleRate.value)) else old(command.frequency)
      ensures command.format == old(command.format) && command.codec == old(command.codec)
      ensures command.bitrate == old(command.bitrate) && command.options == old(command.options)
      ensures command.channels == old(command.channels) && command.filters == old(command.filters)
    {
      if Truthy(settings.sampleRate) {
        var sampleRate := ParseInt(settings.sampleRate.value);
        command.frequency := Frequency(sampleRate);
      }
    }

    /** `configureBitDepth`: for wav and aiff a 16, 24 or 32 bit depth replaces the codec. */
    method ConfigureBitDepth(command: Command, settings: Settings)
      modifies command
      ensures command.codec == if BitDepthCodec(settings.outputFormat, settings.bitDepth).Some?
        then BitDepthCodec(settings.outputFormat, settings.bitDepth) else old(command.codec)
      ensures command.format == old(command.format) && command.bitrate == old(command.bitrate)
      ensures command.options == old(command.options) && command.channels == old(command.channels)
      ensures command.frequency == old(command.frequency) && command.filters == old(command.filters)
    {
      PcmCodecNames();
      var format := settings.outputFormat;
      if Truthy(settings.bitDepth) && format in [Some("wav"), Some("flac"), Some("aiff")] {
        var depth := settings.bitDepth.value;
        if depth == "16" {
          if format == Some("wav") {
            command.codec := Some("pcm_s16le");
          } else if format == Some("aiff") {
            command.codec := Some("pcm_s16be");
          }
        } else if depth == "24" {
          if format == Some("wav") {
            command.codec := Some("pcm_s24le");
          } else if format == Some("aiff") {
            command.codec := Some("pcm_s24be");
          }
        } else if depth == "32" {
          if format == Some("wav") {
            command.codec := Some("pcm_s32le");
          } else if format == Some("aiff") {
            command.codec := Some("pcm_s32be");
          }
        }
      }
    }

    /** `configureNormalization`: when enabled, one loudnorm filter with the clamped target. */
    method ConfigureNormalization(command: Command, settings: Settings)
      modifies command
      ensures command.filters == old(command.filters)
        + (if settings.normalize then [Loudnorm(IntegratedLoudness(TargetLevel(settings.targetLevel)), -1.0, 11.0, "none")] else [])
      ensures command.format == old(command.format) && command.codec == old(command.codec)
      ensures command.bitrate == old(command.bitrate) && command.options == old(command.options)
      ensures command.channels == old(command.channels) && command.frequency == old(command.frequency)
    {
      if settings.normalize {
        var targetLevel := TargetLevel(settings.targetLevel);
        var integratedLoudness := IntegratedLoudness(targetLevel);
        command.filters := command.filters + [Loudnorm(integratedLoudness, -1.0, 11.0, "none")];
      }
    }

    /**
     * The set-up part of `transform`: the output path, and a fresh command
     * configured by the five steps in order. The bit-depth codec, when there
     * is one, overrides the format's codec.
     */
    method PrepareTransform(settings: Settings) returns (outputFile: string, command: Command)
      ensures fresh(command)
      ensures outputFile == OutputFile(outputDir, settings)
      ensures command.format == settings.outputFormat
      ensures command.codec == if BitDepthCodec(settings.outputFormat, settings.bitDepth).Some?
        then BitDepthCodec(settings.outputFormat, settings.bitDepth) else FormatCodec(settings.outputFormat)
      ensures command.bitrate == if settings.outputFormat == Some("mp3") then Some("320k") else None
      ensures command.options == if settings.outputFormat == Some("flac") then ["-compression_level", "5"] else []
      ensures command.channels == ChannelCount(settings.channelConfig)
      ensures command.frequency == if Truthy(settings.sampleRate) then Frequency(ParseInt(settings.sampleRate.value)) else NoFrequency
      ensures command.filters == if settings.normalize
        then [Loudnorm(IntegratedLoudness(TargetLevel(settings.targetLevel)), -1.0, 11.0, "none")] else []
    {
      outputFile := OutputFile(outputDir, settings);
      command := new Command();
      ConfigureFormat(command, settings);
      ConfigureChannels(command, settings);
      ConfigureSampleRate(command, settings);
      ConfigureBitDepth(command, settings);
      ConfigureNormalization(command, settings);
    }
  }

  /** `path.join(outputDir, `${outputName}.${outputFormat}`)`: a path under `outputDir` ending in `.` and the format. */
  function OutputFile(outputDir: string, settings: Settings): (p: string)
    ensures |outputDir| <= |p| && p[..|outputDir|] == outputDir
    ensures var ext := "." + Text(settings.outputFormat);
      |ext| <= |p| && p[|p| - |ext|..] == ext
  {
    var name := Text(settings.outputName) + "." + Text(settings.outputFormat);
    var ext := "." + Text(settings.outputFormat);
    var p := Join(outputDir, name);
    assert name[|name| - |ext|..] == ext;
    assert p[|p| - |ext|..] == p[|p| - |name|..][|name| - |ext|..];
    p
  }

  /** The output file lies in the output directory, named after the settings, with the format as extension. */
  lemma OutputFileNamed(outputDir: string, settings: Settings)
    requires Truthy(settings.outputName) && '/' !in settings.outputName.value
    requires Truthy(settings.outputFormat) && '/' !in settings.outputFormat.value && '.' !in settings.outputFormat.value
    ensures Basename(OutputFile(outputDir, settings)) == settings.outputName.value + "." + settings.outputFormat.value
    ensures Extname(OutputFile(outputDir, settings)) == "." + settings.outputFormat.value
  {
    var name, fmt := settings.outputName.value, settings.outputFormat.value;
    var ext := "." + fmt;
    assert ext[1..] == fmt;
    assert name + "." + fmt == name + ext;
    var d := JoinDirectory(outputDir, name + ext);
    ExtnameOfStemExt(d, name, ext);
  }
}
