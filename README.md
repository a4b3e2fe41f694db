# SoundStat audio inspection, modelled in Dafny

This project models the index-driven core of SoundStat, an audio
inspection tool. It covers four parts:

* the analysis worker (`audioWorker.js`): the progressive display waveform
  cut into numbered chunks; tempo detection from frame energies, onsets and
  the most common inter-onset interval; key detection from the dominant
  spectral bin of the middle half of the buffer; the audio statistics
  (peak, zero crossings, RMS sum, spectral-centroid frames);
* the export-settings side (`audioTransformer.js`): the settings validator,
  the list of supported formats, the five `configure*` steps that set up an
  ffmpeg command, the loudness-target clamp and the output path;
* the display waveform of `sound.js`: the `.wav` path a non-WAV input is
  converted to, and the stride loop that thins the decoded samples;
* the vendored `waveform-generator` package: the byte copy `toArrayBuffer`
  and the six conversions between samples, seconds and pixels.

Samples are `real`s. The magnitude spectrum is represented by the function
`dft`, the Hann coefficient by `hann`, `Math.sqrt` by `sqrt`, and the
rounded semitone count `Math.round(12 * Math.log2(f / C0))` by
`halfStepsOf`. All four are parameters. The file system and the WAV decoder
of `sound.js` are parameters as well: `fileExists`, and `load`, which
returns a `Result`. The
JavaScript pieces the code relies on are modelled as far as the code uses
them: truthiness of optional strings, `parseInt` (sign, `0x`
prefix, longest digit run), `parseFloat` (sign, `Infinity`, decimal with
fraction and exponent), the decimal rendering of whole numbers, and the
POSIX `path` functions `basename`, `extname`, `dirname` and `join` for
paths that do not end in `/` (the differences are listed under "Left out").

Loops in the source are `method`s with `while` loops, each proved against a
specification function (`Peak` against `MaxAbs`, `PickOnsets` against
`OnsetTimes`, `FindDominant` against `DominantBelow`, and so on). The
properties are proved about those functions. The ffmpeg command that the
`configure*` methods mutate is a `class` whose fields the methods assign.

Modules: `Wrappers` (Option, Result), `Arith` (ceiling division and
nonlinear helper facts), `JsNumbers`, `Paths`, `Downsampling`, `Frames`,
`ProgressiveWaveform`, `Tempo`, `KeyDetection`, `AudioStats`,
`Transformer`, `Sound`, `WaveformGenerator`.

## Model

| member | source | states |
|---|---|---|
| Downsampling.DownsampleFactor | audio_soft/lib/audioWorker.js:146 | the stride is at least 1, and it is exactly 1 when the buffer has fewer than 8000 samples |
| Downsampling.DownsampledUnique | audio_soft/lib/sound.js:54-62 | the display series of a buffer at a given stride is unique, so any two loops meeting `IsDownsampled` produce the same points |
| Downsampling.DownsampledCount | audio_soft/lib/sound.js:51-56 | a buffer under 4000 samples is shown point for point; a longer one gets at least 4000 and fewer than 8000 points |
| Downsampling.WholeBufferBelow4000 | audio_soft/lib/sound.js:51-62 | below 4000 samples, point k is `{x: k, y: channelData[k]}` for every sample |
| ProgressiveWaveform.Progress | audio_soft/lib/audioWorker.js:169 | the progress after `done` of `total` chunks lies in (0, 30] and reaches 30 exactly at the last chunk |
| ProgressiveWaveform.ProgressIncreasing | audio_soft/lib/audioWorker.js:169 | a later chunk always reports strictly more progress |
| ProgressiveWaveform.StridedIsDownsampled | audio_soft/lib/audioWorker.js:146-162 | points taken at the stride from index 0, and covering the buffer, are the display series of `ceil(len/df)` points |
| ProgressiveWaveform.CollectChunk | audio_soft/lib/audioWorker.js:154-160 | the inner loop yields 1 to `chunkSize` points, with `x = i/df` and `y = channelData[i]` for `i = base·df, base·df + df, …`, and stops at `endIdx` |
| ProgressiveWaveform.ChunkStart | audio_soft/lib/audioWorker.js:150-152 | when chunk `c` begins, exactly `c·chunkSize` points exist and `startIdx = c·chunkSize·df` lies inside the buffer |
| ProgressiveWaveform.ChunkEnd | audio_soft/lib/audioWorker.js:151-162 | every chunk but the last is full, and a short chunk means the buffer is exhausted |
| ProgressiveWaveform.FullChunk | audio_soft/lib/audioWorker.js:147-152 | for a chunk before the last, `startIdx + chunkSize·df` is below the buffer length, so `endIdx` is not clipped |
| ProgressiveWaveform.NumberedAppend | audio_soft/lib/audioWorker.js:165-173 | posting the next chunk's message keeps the message numbering 1, 2, … with the same `totalChunks` |
| ProgressiveWaveform.AfterChunk | audio_soft/lib/audioWorker.js:150-173 | one iteration of the chunk loop keeps all its invariants: the messages flatten to the points so far, the points are strided, and the messages are numbered |
| ProgressiveWaveform.SeriesComplete | audio_soft/lib/audioWorker.js:147-176 | after `ceil(len/(chunkSize·df))` chunks the returned points are the whole display series |
| ProgressiveWaveform.MessagesComplete | audio_soft/lib/audioWorker.js:165-173 | over all messages, progress stays in (0, 30], rises strictly and is 30 at the last message |
| ProgressiveWaveform.GenerateProgressiveWaveform | audio_soft/lib/audioWorker.js:145-177 | the result is every df-th sample numbered 0, 1, 2, …; the messages carry those points in order, one per chunk; there are `ceil(len/(chunkSize·df))` chunks numbered from 1, each non-empty, at most `chunkSize` long and all but the last full; progress rises strictly to 30; an empty buffer posts nothing and returns nothing |
| Frames.Fft | audio_soft/lib/audioWorker.js:126-141 | the spectrum has the signal's length; a signal of at most one sample comes back unchanged; otherwise bin k is the DFT magnitude at k |
| Frames.FrameEnumeration | audio_soft/lib/audioWorker.js:193 | frame f is visited exactly when `f·hop + frameSize < len`, so every visited frame lies inside the buffer |
| Frames.FrameCount | audio_soft/lib/audioWorker.js:193 | the frame loop runs at least once exactly when the buffer is longer than one frame |
| Frames.FramesDisjoint | audio_soft/lib/audioWorker.js:367-368 | with a hop no shorter than the frame, distinct frames do not overlap |
| Frames.Energy | audio_soft/lib/audioWorker.js:194-197 | the energy of a frame is never negative |
| Tempo.HopBounds | audio_soft/lib/audioWorker.js:188-189 | from a 20 Hz sample rate upward, the hop is at least one sample and at most one frame |
| Tempo.FrameSize | audio_soft/lib/audioWorker.js:188 | `Math.floor(sampleRate·0.1)` is the whole number f with `10·f ≤ sampleRate < 10·f + 10`: the samples in 100 ms, rounded down |
| Tempo.HopSize | audio_soft/lib/audioWorker.js:189 | the hop h is half a frame rounded down: `2·h ≤ frameSize < 2·h + 2` |
| Tempo.FrameEnergies | audio_soft/lib/audioWorker.js:193-199 | there is one energy per frame start `0, hop, 2·hop, …` below `len - frameSize`, and every energy is ≥ 0 |
| Tempo.ComputeEnergies | audio_soft/lib/audioWorker.js:190-199 | the energy loop produces exactly those frame energies, in order |
| Tempo.OnsetFramesBelow | audio_soft/lib/audioWorker.js:203-207 | the onset list holds only onset frames, holds every onset frame, and is strictly increasing |
| Tempo.OnsetFramesExact | audio_soft/lib/audioWorker.js:203-207 | a frame is listed exactly when it is interior, louder than both neighbours and above 0.001 |
| Tempo.IsOnset | audio_soft/lib/audioWorker.js:204 | an onset is an interior frame louder than both neighbours and above 0.001, and neither of its neighbours is such a peak |
| Tempo.OnsetsNotAdjacent | audio_soft/lib/audioWorker.js:204 | consecutive onsets are at least two frames apart |
| Tempo.OnsetStep | audio_soft/lib/audioWorker.js:203-206 | examining frame i appends i to the onset list exactly when it is an onset |
| Tempo.PickOnsets | audio_soft/lib/audioWorker.js:202-207 | the onset loop returns the start time `i·hop/sampleRate` of every onset frame, in order |
| Tempo.OnsetTimeIncreasing | audio_soft/lib/audioWorker.js:205 | a later frame starts strictly later |
| Tempo.OnsetTimesIncreasing | audio_soft/lib/audioWorker.js:202-207 | the onset times are strictly increasing |
| Tempo.IntervalsOf | audio_soft/lib/audioWorker.js:212-215 | there is one interval fewer than there are onsets, and none for no onset |
| Tempo.IntervalsPositive | audio_soft/lib/audioWorker.js:212-215 | between strictly increasing times every interval is positive |
| Tempo.Intervals | audio_soft/lib/audioWorker.js:212-215 | the interval loop returns the differences of consecutive onsets |
| Tempo.Times | audio_soft/lib/audioWorker.js:205 | there is one onset time per onset frame |
| Tempo.Buckets | audio_soft/lib/audioWorker.js:219-220 | there is one bucket per interval |
| Tempo.CountOf | audio_soft/lib/audioWorker.js:221 | a bucket's count is at most the number of intervals |
| Tempo.Bucket | audio_soft/lib/audioWorker.js:220 | `Math.round(interval·10)` is the whole number of tenths nearest the interval, halves rounded up, and never negative for a non-negative interval |
| Tempo.CountOfPositive | audio_soft/lib/audioWorker.js:218-222 | a bucket has a count exactly when some interval rounds into it |
| Tempo.CountIntervals | audio_soft/lib/audioWorker.js:218-222 | the counting loop yields a map with an entry for exactly the buckets that occur, each holding that bucket's number of intervals |
| Tempo.MostCommon | audio_soft/lib/audioWorker.js:224-231 | the winner is an entry of highest count, and no entry counts more; with no entries the winner is 0 with count 0 |
| Tempo.CountsNonEmpty | audio_soft/lib/audioWorker.js:218-222 | with at least one interval the counts are non-empty and every count is ≥ 1 |
| Tempo.ModeOfCounts | audio_soft/lib/audioWorker.js:224-231 | the entry of highest count is a most common bucket of the intervals |
| Tempo.BpmRange | audio_soft/lib/audioWorker.js:233-240 | `Math.round(60 / interval)` lies in 60..200 exactly for intervals of 0.3 s to 1.0 s |
| Tempo.ShareBounds | audio_soft/lib/audioWorker.js:235 | the confidence `maxCount / intervals.length` lies in (0, 1] |
| Tempo.BpmOf | audio_soft/lib/audioWorker.js:234 | `Math.round(60 / (k/10))` is the whole number nearest `600/k`, halves rounded up |
| Tempo.TempoOfIntervals | audio_soft/lib/audioWorker.js:217-243 | a nonzero tempo lies in 60..200 and comes from a most common bucket of 0.3 to 1.0 s, with that bucket's share as confidence in (0, 1]; a zero tempo has confidence 0 and means the chosen most common bucket lies outside that range |
| Tempo.DetectBpm | audio_soft/lib/audioWorker.js:180-248 | a buffer no longer than one frame, at any rate, and fewer than two onsets give `{bpm: 0, confidence: 0}`; otherwise the result is the one `TempoOfIntervals` gives for the buckets of the intervals between the onsets found in the buffer |
| KeyDetection.Segment | audio_soft/lib/audioWorker.js:259-261 | the segment is the samples from `floor(len/4)` up to `floor(3·len/4)` |
| KeyDetection.Window | audio_soft/lib/audioWorker.js:264-267 | windowing keeps the segment's length |
| KeyDetection.KeySpectrum | audio_soft/lib/audioWorker.js:259-270 | the spectrum has as many bins as the segment has samples |
| KeyDetection.DominantBinUnique | audio_soft/lib/audioWorker.js:278-284 | there is at most one dominant bin |
| KeyDetection.IsDominantBin | audio_soft/lib/audioWorker.js:278-284 | a dominant bin is a candidate of positive, highest magnitude, the first such; where one exists, some candidate is positive |
| KeyDetection.BinFrequencyValue | audio_soft/lib/audioWorker.js:270-279 | `i · (sampleRate/2) / (n/2)` is `i·sampleRate/n`: bin i of an n-point spectrum lies at `i·sampleRate/n` Hz |
| KeyDetection.DominantBelow | audio_soft/lib/audioWorker.js:278-284 | the bin the search has settled on is 0 or a positive candidate below the bound |
| KeyDetection.DominantBelowIsBest | audio_soft/lib/audioWorker.js:278-284 | the settled bin beats every candidate examined so far, and beats strictly every candidate before it; when it is 0, no candidate examined so far is positive |
| KeyDetection.DominantStep | audio_soft/lib/audioWorker.js:279-283 | bin i replaces the choice exactly when it is a candidate louder than the current maximum |
| KeyDetection.DominantBelowAll | audio_soft/lib/audioWorker.js:278-284 | after the whole search, the settled bin is the dominant bin, or 0 when no candidate is positive |
| KeyDetection.DominantBinExists | audio_soft/lib/audioWorker.js:278-287 | either no candidate is positive or a dominant bin exists, and never both |
| KeyDetection.FindDominant | audio_soft/lib/audioWorker.js:271-284 | the search returns the first bin of highest positive magnitude among bins 1 ≤ i < N/2 with frequency strictly in (80, 2000), with its magnitude and frequency; when no such bin is positive it returns 0, 0, 0 |
| KeyDetection.DetectKey | audio_soft/lib/audioWorker.js:251-313 | with no positive candidate the result is `Unknown` with frequency 0 and confidence 0; otherwise it is the note of the dominant bin, with its magnitude as confidence |
| KeyDetection.NoteParts | audio_soft/lib/audioWorker.js:292-299 | `noteIndex = halfSteps % 12` lies in 0..11, `halfSteps = 12·octave + noteIndex`, and the note is `NOTES[noteIndex]` followed by the octave |
| KeyDetection.NotesDistinct | audio_soft/lib/audioWorker.js:16 | two different pitch classes differ in their letter or in carrying a sharp |
| KeyDetection.NoteName | audio_soft/lib/audioWorker.js:293-299 | a note name is a letter from A to G, then `#` or a digit, and it ends in a digit of the octave |
| KeyDetection.KeyOfBin | audio_soft/lib/audioWorker.js:287-303 | the reported frequency is `b·sampleRate/n`, `noteOnly` is one of the twelve names, the octave is ≥ 0, `note` is `noteOnly` followed by the octave's digits, and the confidence is the bin's magnitude |
| KeyDetection.NoteNameInjective | audio_soft/lib/audioWorker.js:292-299 | different semitone counts get different note names |
| AudioStats.MaxAbs | audio_soft/lib/audioWorker.js:345-348 | the peak is ≥ the magnitude of every sample, equals the magnitude of some sample, and is 0 for no samples |
| AudioStats.Peak | audio_soft/lib/audioWorker.js:345-348 | the peak loop computes that largest magnitude |
| AudioStats.SumOfSquares | audio_soft/lib/audioWorker.js:338-341 | the RMS loop computes the sum of squares of all samples |
| AudioStats.CrossingsBelow | audio_soft/lib/audioWorker.js:354-359 | there are at most `len - 1` zero crossings |
| AudioStats.ZeroCrossings | audio_soft/lib/audioWorker.js:354-359 | the loop counts the positions where the sign changes, with 0 counted as non-negative |
| AudioStats.CrossingsParity | audio_soft/lib/audioWorker.js:354-359 | the count is even exactly when the buffer ends on the side of zero it started on |
| AudioStats.Crossings | audio_soft/lib/audioWorker.js:354-359 | a buffer of at most one sample has no crossing; otherwise there are at most `len - 1`, and their number is even exactly when the last sample is on the side of zero the first is on |
| AudioStats.NonNegativeNoCrossings | audio_soft/lib/audioWorker.js:356 | a buffer that never goes below zero has no crossing, since 0 counts as non-negative |
| AudioStats.SilentBuffer | audio_soft/lib/audioWorker.js:345-359 | an all-zero buffer has peak 0 and no zero crossing |
| AudioStats.FrameSpectrum | audio_soft/lib/audioWorker.js:368-369 | every centroid frame yields a 2048-bin spectrum |
| AudioStats.CentroidTotals | audio_soft/lib/audioWorker.js:367-385 | no more frames are counted than were visited |
| AudioStats.CentroidCount | audio_soft/lib/audioWorker.js:381-384 | `frameCount` over the first n frames is 0 exactly when no frame has a positive magnitude sum, and n exactly when every frame has one |
| AudioStats.CentroidFrames | audio_soft/lib/audioWorker.js:367-368 | frame g is visited exactly when `2048·g + 2048 < len`, and frames never overlap |
| AudioStats.ShortBufferCentroid | audio_soft/lib/audioWorker.js:363-387 | a buffer of at most 2048 samples has no frame and centroid 0 |
| AudioStats.SpectralCentroid | audio_soft/lib/audioWorker.js:363-387 | a nonzero centroid needs a buffer longer than 2048 samples and at least one frame with a positive magnitude sum |
| AudioStats.BinSums | audio_soft/lib/audioWorker.js:371-379 | the bin loop sums `j·sampleRate/2048·magnitude` and the magnitudes over the lower half of the spectrum |
| AudioStats.ComputeSpectralCentroid | audio_soft/lib/audioWorker.js:362-387 | the centroid is the mean of the per-frame centroids over the frames with a positive magnitude sum, and 0 when there is no such frame |
| AudioStats.CalculateAudioStats | audio_soft/lib/audioWorker.js:327-397 | duration is `len/sampleRate`; peak, RMS, dynamic range, zero-crossing rate and centroid follow their definitions; an empty buffer has duration, peak and centroid 0, and RMS, dynamic range and rate NaN |
| Transformer.GetSupportedFormats | audio_soft/lib/audioTransformer.js:189-194 | every output format is also an input format, and wav is both |
| Transformer.Report | audio_soft/lib/audioTransformer.js:197-241 | there is at most one error per check |
| Transformer.ValidExactlyWhenAcceptable | audio_soft/lib/audioTransformer.js:197-241 | there is no error exactly when: format and name are given; the format is wav, mp3, flac or aiff; a given sample rate parses to 44100, 48000 or 96000; a given bit depth is 16, 24 or 32; and, with normalisation on, a given target level parses into [-30, 0] |
| Transformer.MissingFormatReportedOnce | audio_soft/lib/audioTransformer.js:201-213 | a missing format is the first error, and the format is then not also reported as unsupported |
| Transformer.ReportSix | audio_soft/lib/audioTransformer.js:198-240 | the errors are the messages of the failing checks, in check order |
| Transformer.ReportSixEmpty | audio_soft/lib/audioTransformer.js:198-240 | the report is empty exactly when no check fails |
| Transformer.ValidateSettings | audio_soft/lib/audioTransformer.js:197-241 | the method returns the messages of the failing checks in check order, and returns no error exactly for acceptable settings |
| Transformer.CheckSampleRate | audio_soft/lib/audioTransformer.js:216-222 | a given sample rate that does not parse to 44100, 48000 or 96000 gives `Invalid sample rate: …` |
| Transformer.CheckBitDepth | audio_soft/lib/audioTransformer.js:225-230 | a given bit depth other than 16, 24 or 32 gives `Invalid bit depth: …` |
| Transformer.CheckTargetLevel | audio_soft/lib/audioTransformer.js:233-238 | with normalisation on, a given target level that is NaN or outside [-30, 0] gives the target-level error |
| Transformer.TargetLevel | audio_soft/lib/audioTransformer.js:138 | the target is never 0; it is -23 when the level is missing or not a number, and the parsed level otherwise |
| Transformer.IntegratedLoudness | audio_soft/lib/audioTransformer.js:142 | the loudnorm `I` always lies in [-70, -5]; it is the target inside that range, and the nearer bound outside it, infinities included |
| Transformer.LoudnessIdempotent | audio_soft/lib/audioTransformer.js:142 | clamping an already clamped value changes nothing |
| Transformer.ZeroTargetFallsBack | audio_soft/lib/audioTransformer.js:136-157 | a target of `0` passes validation, but normalisation then uses -23 instead of 0 |
| Transformer.AcceptedLevelLoudness | audio_soft/lib/audioTransformer.js:136-157 | for accepted settings with normalisation on, `I` is -23 for no target or a target of 0, -5 for a target above -5, and the target otherwise |
| Transformer.Command.constructor | audio_soft/lib/audioTransformer.js:21 | a fresh command has nothing set |
| Transformer.BitDepthCodec | audio_soft/lib/audioTransformer.js:108-134 | the bit depth selects a codec exactly for depths 16, 24 and 32 with format wav or aiff |
| Transformer.FormatCodec | audio_soft/lib/audioTransformer.js:66-91 | no codec is set exactly for mp3, and `pcm_s16le` is set exactly for formats other than mp3, flac and aiff |
| Transformer.ChannelCount | audio_soft/lib/audioTransformer.js:93-99 | a channel count is set exactly for `mono` and `stereo`, and it is then 1 or 2 |
| Transformer.AudioTransformer.constructor | audio_soft/lib/audioTransformer.js:6-9 | the transformer keeps the output directory it is given |
| Transformer.AudioTransformer.ConfigureFormat | audio_soft/lib/audioTransformer.js:66-91 | the format is set; mp3 sets bitrate 320k and no codec; flac sets codec flac and appends `-compression_level 5`; aiff sets pcm_s16be; wav and anything else set pcm_s16le; nothing else changes |
| Transformer.AudioTransformer.ConfigureChannels | audio_soft/lib/audioTransformer.js:93-99 | mono sets 1 channel, stereo sets 2, anything else leaves the channel count as it was; nothing else changes |
| Transformer.AudioTransformer.ConfigureSampleRate | audio_soft/lib/audioTransformer.js:101-106 | a truthy sample rate sets the frequency to `parseInt` of it (possibly NaN); otherwise the frequency is left alone; nothing else changes |
| Transformer.AudioTransformer.ConfigureBitDepth | audio_soft/lib/audioTransformer.js:108-134 | for wav and aiff a depth of 16, 24 or 32 replaces the codec by the matching little- or big-endian PCM codec; flac, mp3, other formats and other depths leave it; nothing else changes |
| Transformer.AudioTransformer.ConfigureNormalization | audio_soft/lib/audioTransformer.js:136-157 | with normalisation on, one loudnorm filter (I clamped, TP -1, LRA 11, print_format none) is appended; with it off, no filter is added; nothing else changes |
| Transformer.AudioTransformer.PrepareTransform | audio_soft/lib/audioTransformer.js:17-28 | the output path is `outputDir` joined with `name.format`; the fresh command, configured in order, carries a bit-depth codec when there is one, else the format's codec, and each other setting as the steps set it |
| Transformer.OutputFileNamed | audio_soft/lib/audioTransformer.js:18 | the output file's base name is `outputName.outputFormat` and its extension is `.outputFormat` |
| Transformer.OutputFile | audio_soft/lib/audioTransformer.js:18 | the output path, as a string, starts with the output directory and ends in `.` and the format (`undefined` when none is given) |
| JsNumbers.TrimStart | audio_soft/lib/audioTransformer.js:103 | trimming removes a prefix and leaves text that starts with no white space |
| JsNumbers.TrimStartRemovesWhiteSpace | audio_soft/lib/audioTransformer.js:103 | everything trimmed off is white space |
| JsNumbers.NatToString | audio_soft/lib/audioWorker.js:299 | a whole number prints as a non-empty run of digits with no superfluous leading zero |
| JsNumbers.DigitPrefix | audio_soft/lib/audioTransformer.js:103 | `parseInt` reads the longest run of digits at the front of the text |
| JsNumbers.NatToStringValue | audio_soft/lib/audioWorker.js:299 | reading the decimal digits of a whole number back gives the number |
| JsNumbers.ParseIntOfNatToString | audio_soft/lib/audioTransformer.js:216-222 | `parseInt` reads back a printed whole number, with or without a minus sign, followed by anything that is not a digit or `x` |
| JsNumbers.ParseInt | audio_soft/lib/audioTransformer.js:218 | `parseInt` gives a number whenever the trimmed text starts with a digit and not with `0x`/`0X`, and only when it starts with a digit or a sign; a negative number only after a `-` |
| JsNumbers.ParseFloatOfNatToString | audio_soft/lib/audioTransformer.js:233-238 | `parseFloat` reads back a printed whole number |
| JsNumbers.ParseFloat | audio_soft/lib/audioTransformer.js:234 | `parseFloat` gives a finite number ≥ 0 whenever the trimmed text starts with a digit, a number only when it starts with a digit, a sign, a `.` or `I`, and a negative value only after a `-` |
| JsNumbers.ParseSkipsWhiteSpace | audio_soft/lib/audioTransformer.js:101-106 | leading white space changes neither `parseInt` nor `parseFloat` |
| Paths.Basename | audio_soft/lib/sound.js:38 | the base name is what follows the directory part, and it holds no `/` |
| Paths.DirPrefix | audio_soft/lib/sound.js:38 | the directory part is a prefix of the path that is empty or ends in `/` |
| Paths.ToLower | audio_soft/lib/sound.js:33 | lower-casing keeps the length and maps every character on its own |
| Paths.SegmentExt | audio_soft/lib/sound.js:33 | the extension is empty, or a final part of the base name that starts with its one and only dot and is shorter than the name |
| Paths.Extname | audio_soft/lib/sound.js:33 | the extension is empty or a `.` with no other `.`; it ends the base name, is shorter than it, and holds no `/` |
| Paths.StripSuffix | audio_soft/lib/sound.js:38 | `basename(p, ext)` removes `ext` when it is a suffix, and leaves the name as it is otherwise |
| Paths.BasenameWithout | audio_soft/lib/sound.js:38 | `basename(p, suffix)` is a prefix of the base name holding no `/`: the base name itself, the base name less the suffix, or empty |
| Paths.Sibling | audio_soft/lib/sound.js:38 | a name without `/` placed beside `p` lies in the directory of `p` and is the base name of the result |
| Paths.Join | audio_soft/lib/audioTransformer.js:18 | a join is the directory, a separator when needed, then the name |
| Paths.JoinDirectory | audio_soft/lib/audioTransformer.js:18 | a join is a directory that is empty or ends in `/`, followed by the name |
| Paths.BasenameOfJoin | audio_soft/lib/sound.js:38 | joining a name without `/` to a directory gives back that name as base name |
| Paths.ExtnameOfStemExt | audio_soft/lib/sound.js:33-38 | for `dir/stem.ext`, the directory is `dir`, the base name is `stem.ext` and the extension is `.ext` |
| Paths.BasenameWithoutExt | audio_soft/lib/sound.js:38 | `basename(dir/stem.ext, suffix)` is `stem` when the suffix is `.ext` and `stem.ext` otherwise |
| Sound.WavStem | audio_soft/lib/sound.js:38 | the stem kept for the `.wav` name is non-empty and contains no `/` |
| Sound.WavPath | audio_soft/lib/sound.js:33-41 | the decoded path lies in the input's directory; an input whose extension is `.wav` in any letter case is kept; otherwise the base name is `basename(p, ext)` followed by `.wav`, with `ext` the lower-cased extension |
| Sound.WavPathIsWav | audio_soft/lib/sound.js:33-41 | the decoded path always has extension `.wav` (case-insensitively) and lies in the input's directory |
| Sound.WavSibling | audio_soft/lib/sound.js:38 | `stem.wav` in directory `d` has extension `.wav` and stays in `d` |
| Sound.WavPathIdempotent | audio_soft/lib/sound.js:33-41 | deriving the path of an already derived path changes nothing |
| Sound.WavPathReplacesLowerCaseExt | audio_soft/lib/sound.js:33-41 | a lower-case non-`.wav` extension is replaced: `dir/song.mp3` becomes `dir/song.wav` |
| Sound.WavPathKeepsUpperCaseExt | audio_soft/lib/sound.js:33-41 | an extension with an upper-case letter is kept and `.wav` is appended: `dir/Song.MP3` becomes `dir/Song.MP3.wav` |
| Sound.StrideSamples | audio_soft/lib/sound.js:51-56 | the stride loop keeps `ceil(len/df)` samples, value k being `channelData[k·df]` |
| Sound.ToPoints | audio_soft/lib/sound.js:59-62 | point k is `{x: k, y: values[k]}`, and no point is added or dropped |
| Sound.GenerateWaveform | audio_soft/lib/sound.js:24-69 | a missing file gives `Failed to generate waveform: File does not exist: …`; a failing load gives its message behind the same prefix; otherwise the result is the display series of the decoded samples at the stride `max(1, floor(len/4000))` |
| WaveformGenerator.Floor | audio_soft/node_modules/waveform-generator/index.js:63 | `Math.floor(r)` is the whole number `f` with `f ≤ r < f + 1` |
| WaveformGenerator.Ceil | audio_soft/node_modules/waveform-generator/index.js:59 | `Math.ceil(r)` is the whole number `c` with `c - 1 < r ≤ c` |
| WaveformGenerator.ToArrayBuffer | audio_soft/node_modules/waveform-generator/index.js:45-52 | the copy is a new buffer of the same length whose byte i is `buf[i]` |
| WaveformGenerator.SamplesToSeconds | audio_soft/node_modules/waveform-generator/index.js:54-56 | seconds times the sample rate gives back the samples |
| WaveformGenerator.SecondsToSamples | audio_soft/node_modules/waveform-generator/index.js:58-60 | the result is the least whole number of samples covering `seconds·sampleRate` |
| WaveformGenerator.SamplesToPixels | audio_soft/node_modules/waveform-generator/index.js:62-64 | the result is the pixel whose span of `resolution` samples contains the sample |
| WaveformGenerator.PixelsToSamples | audio_soft/node_modules/waveform-generator/index.js:66-68 | the result is `pixels·resolution` rounded down |
| WaveformGenerator.PixelsToSeconds | audio_soft/node_modules/waveform-generator/index.js:70-72 | the result times the sample rate gives `pixels·resolution` |
| WaveformGenerator.SecondsToPixels | audio_soft/node_modules/waveform-generator/index.js:74-76 | the result is the least whole number of pixels whose samples cover `seconds·sampleRate` |
| WaveformGenerator.PixelsRoundTrip | audio_soft/node_modules/waveform-generator/index.js:62-68 | `samplesToPixels(pixelsToSamples(p, r), r) = p` for whole p ≥ 0 and r ≥ 1 |
| WaveformGenerator.SamplesBracket | audio_soft/node_modules/waveform-generator/index.js:62-68 | a sample s lies in its pixel: `pixelsToSamples(samplesToPixels(s, r), r) ≤ s < that + r` |
| WaveformGenerator.CueInIsZero | audio_soft/node_modules/waveform-generator/index.js:40 | the start cue `secondsToSamples(0, sampleRate)` is 0 |
| WaveformGenerator.SecondsToSamplesMonotone | audio_soft/node_modules/waveform-generator/index.js:58-60 | a later time never maps to an earlier sample |
| WaveformGenerator.PixelsToSecondsViaSamples | audio_soft/node_modules/waveform-generator/index.js:70-72 | `pixelsToSeconds(p, r, sr) = samplesToSeconds(p·r, sr)` |
| WaveformGenerator.SecondsToPixelsCovers | audio_soft/node_modules/waveform-generator/index.js:74-76 | `secondsToPixels(s, r, sr)` is ≥ 0 and ≥ `s·sr/r` |

## Left out

- FFmpeg discovery and transcoding are not modelled: `checkFFmpegAvailability` and `convertToWav` in `audioWorker.js`, `convertToWav` in `sound.js`, and `ffmpegInstaller.js`. They run child processes and probe the file system. In `sound.js` the conversion is folded into the `load` parameter.
- `processAudioFile` (`audioWorker.js`:413-528) is not modelled. It does worker-thread messaging, node-wav decoding and temp-file deletion. So are the `analysis_progress` messages that open `detectBPM`, `detectKey` and `calculateAudioStats`. The `waveform_progress` messages are kept, as the returned trace `messages`.
- In `AudioTransformer.transform`, the ffmpeg progress, end and error events, the promise and `command.save` are not modelled. Only the output path and the five configure steps are (`PrepareTransform`). `cleanup` is left out because it deletes files by wall-clock age. `ensureOutputDirectory` is left out because it creates directories. The output directory is a constructor parameter.
- The fluent-ffmpeg builder is modelled as a record of assignments: `format`, `audioCodec`, `audioBitrate`, `audioChannels` and `audioFrequency` set a field (the last call wins), while `addOption` and `audioFilters` append. How ffmpeg reads the result is not modelled.
- Electron IPC, dialogs and folder handling (`main.js`), DOM and canvas code (`ui.js`), the waveform-generator CLI, its `AudioContext` decoding and `extractPeaks` are left out as UI and foreign calls.
- Floating point is not modelled: arithmetic is exact over `real`. This covers the DFT sums (`dft`), the Hann window (`hann`), `Math.sqrt` (`sqrt`), `Math.log2` with `Math.round` in the semitone count (`halfStepsOf`), and the rounding of results to 2–3 decimals, which is left out. `C0` is the double the source computes, written as a decimal.
- Tempo.FrameSize: `Math.floor(sampleRate * 0.1)` is modelled as the whole-number division `sampleRate / 10`. The double nearest 0.1 lies slightly above 0.1, so no product is rounded below the whole number it should reach, and the two agree for every whole sample rate.
- Tempo.DetectBpm: below 20 Hz it accepts only a buffer no longer than one frame, and for such a buffer it gives `{bpm: 0, confidence: 0}` as the source does. A longer buffer at such a rate is excluded. There the hop is 0 and the source's energy loop does not terminate.
- Tempo.MostCommon: the order of `Object.entries` is left open. The winner is some bucket of highest count, not the first in JavaScript key order. The bucket key `Math.round(interval * 10) / 10`, read back with `parseFloat`, is kept as the whole number of tenths. So `BpmOf(k)` divides 60 by `k/10` exactly.
- AudioStats.CalculateAudioStats and the tempo functions require a positive sample rate. With a rate of 0 the source divides by zero.
- WaveformGenerator.SamplesToSeconds: requires a positive sample rate. With a rate of 0 the JavaScript gives `Infinity` or `NaN`, which is not modelled.
- WaveformGenerator.PixelsToSeconds: requires a positive sample rate, for the same reason.
- WaveformGenerator.SamplesToPixels: requires a positive resolution. With a resolution of 0 the JavaScript gives `Infinity` or `NaN`, which is not modelled.
- WaveformGenerator.SecondsToPixels: requires a positive resolution, for the same reason.
- ProgressiveWaveform.GenerateProgressiveWaveform: requires `chunkSize ≥ 1`. The source is only called with its default of 1000, and a chunk size of 0 divides by zero.
- The `catch` blocks of `detectBPM`, `detectKey` and `calculateAudioStats` are left out. The modelled code cannot throw once the spectrum and the other parameters are total functions.
- Paths: only POSIX paths are modelled, so `/` is the only separator.
- Paths.Basename: a trailing `/` is not skipped the way Node's `path.basename` and `path.dirname` skip it. For `d/x.mp3/` the model gives an empty base name where Node gives `x.mp3`. Paths that do not end in `/` are modelled as Node treats them.
- Paths.Extname: for the same reason the extension of `d/x.mp3/` is empty, where Node gives `.mp3`.
- Sound.WavPath: follows from the two lines above. It maps `d/x.mp3/` to `d/x.mp3/.wav`, where the source derives `d/x.wav`.
- Paths.Join: does not normalise `.`, `..` or repeated `/` anywhere in the joined path, neither in the directory nor in the name, the way `path.join` does.
- Transformer.OutputFile: keeps any `.`, `..` or `//` in `outputName` as written, because `validateSettings` does not reject them and the join is not normalised. Its prefix claim is about the model's string only. For outputDir `/o/t` and outputName `../x` the model gives `/o/t/../x.wav`, where Node gives `/o/x.wav`, which lies outside the output directory.
- Transformer.AudioTransformer.PrepareTransform: its output path is `OutputFile`, so `.`, `..` and `//` in `outputName` are kept unresolved, as on the line above.
- Paths.Sibling: keeps the directory part with its closing `/`. It matches `path.join(path.dirname(p), name)` for file paths, but the normalisation of `.` and `..` is not modelled.
- Paths.ToLower: lower-cases ASCII letters only. Unicode case mapping is not modelled.
- JsNumbers.ParseFloat: does not produce `-0`. A parsed `-0` becomes 0, which only matters to `parseFloat('-0') || -23`, and there both give -23.
- JsNumbers.ParseInt: does not model results beyond 2^53, where doubles lose precision.
