# Deepfake call detection: a verified model of the app's core logic

This project models in Dafny the sequential core of an Android app that warns a user when the
voice in a phone call may be synthetic. The app is written in Kotlin, and its training pipeline
in Python. The model covers six groups:

- **The audio-to-feature pipeline** (`pcm.dfy`, `audio_decoding.dfy`, `audio_preprocessor.dfy`,
  `audio_feature_extractor.dfy`, `audio_test_processor.dfy`).
  - Decoding a 44-byte-header 16-bit PCM WAV, downmixing it to mono and resampling it to 16 kHz.
  - Trimming silence at −40 dB and padding or cropping to 48 000 samples.
  - The 64-band mel spectrogram (1024-point frames, hop 256), power-to-dB and global normalisation.
  - The energy and zero-crossing features, and the second loader used by the audio-test screen, whose placeholder classifier scores every file 0.
- **The training-side counterparts** (`preprocess_audio.dfy`, `dataset.dfy`, `split_asvspoof.dfy`).
  - The Python VAD, pad/crop and standardisation.
  - The dataset's item labelling and fixed-length window.
  - The ASVspoof metadata parser and staging counts.
  Lemmas relate each step to its on-device counterpart.
- **The classifier adapter** (`model_runner.dfy`).
  - Packing the spectrogram into a band-major `[1, 1, 64, T]` tensor.
  - Picking one logit out of the session output, and the clamped sigmoid.
  - Null propagation through every `infer*` entry point.
- **The alert and monitoring state machines** (`call_monitor_service.dfy`, `app_main_view_model.dfy`,
  `save_detection_alert.dfy`).
  - The capture service's start/stop state and its threshold-and-cooldown alert gate.
  - The view model's detection toggle, login monitoring gate, logout and model-test flow.
  - The construction of an alert record.
- **The domain values and their storage mappers** (`entities.dfy`, `normalized_call_mappers.dfy`,
  `call_record_mappers.dfy`, `alert_event_mappers.dfy`, `user_mappers.dfy`). These give the call
  durations, detection history and the round trips between domain and row forms.
- **Aggregation and small utilities** (`summary_utils.dfy`, `call_analysis_card.dfy`,
  `user_repository.dfy`, `password_hasher.dfy`, `user_role_mapper.dfy`, `device_compatibility.dfy`,
  `system_uptime.dfy`, `in_memory_repos.dfy`).

Each source file takes its own form in the model:

- Index loops that fill arrays are methods with loop invariants, proved against specification
  functions.
- Expression code is functions and lemmas.
- Objects whose fields change are classes with `modifies` clauses: the capture service, the view
  model, the user repository and the in-memory repositories.

The app's immutable UI state is a datatype that the view model class replaces on every update.
Outward calls are logged in sequence fields of the class. These calls are starting or stopping
monitoring, writing settings, saving a call, and saving or displaying an alert.

Kotlin `Float` and Python floats are modelled as `real`. `Int`/`Long` are `int`, with the 32- and
64-bit wrap-around written out where it changes a result (module `Ints`). `log10`, `sqrt`, `exp`,
`cos` and the FFT are parameters carrying only the range facts the code relies on.

The app has two copies of several domain and mapper files: `entity/...`, and `domain/...` or
`data/...`. One model covers both copies of each, and the table cites one of them. The copies
differ as follows:

- The call record, detection session and alert timestamps are named in seconds in one copy and
  in milliseconds in the other. The model uses unit-neutral field names.
- The `data/mappers` alert mapper takes a detection id and stores it; the `entity/data/mappers`
  copy has no such column. The model's `detectionId` is an `Option`, `None` for the entity copy.
- `domain/entities/UserSettings.kt` has three fields; `entity/domain/entities/UserSettings.kt`
  has those three and five more, among them the real-time detection flag. The model uses the
  eight-field class, because the view model and the settings mapper use that flag.

## Model

| member | source | states |
|---|---|---|
| Pcm.SignedByte | app/src/main/java/com/example/fyp_25_s4_23/entity/ml/AudioPreprocessor.kt:317-318 | `Byte.toInt()` is the value in [-128, 128) congruent to the byte modulo 256 |
| Pcm.ShortLE | app/src/main/java/com/example/fyp_25_s4_23/entity/ml/AudioPreprocessor.kt:316-320 | the little-endian short is a signed 16-bit value congruent to `lo + 256·hi` modulo 2^16 |
| Pcm.ShortLERoundTrip | app/src/main/java/com/example/fyp_25_s4_23/entity/ml/AudioPreprocessor.kt:316-320 | decoding the two little-endian bytes of any short gives that short back |
| Pcm.ShortLEInjective | app/src/main/java/com/example/fyp_25_s4_23/entity/ml/AudioPreprocessor.kt:316-320 | encoding undoes decoding, so distinct byte pairs decode to distinct shorts |
| Pcm.IntLE | app/src/main/java/com/example/fyp_25_s4_23/entity/ml/AudioPreprocessor.kt:322-326 | the little-endian int is a signed 32-bit value congruent to `b0 + 2^8·b1 + 2^16·b2 + 2^24·b3` |
| AudioDecoding.SampleAtBounds | app/src/main/java/com/example/fyp_25_s4_23/entity/ml/AudioPreprocessor.kt:306-308 | every sample scaled by 1/32768 lies in [-1, 1) |
| AudioDecoding.ChannelSumBounds | app/src/main/java/com/example/fyp_25_s4_23/entity/ml/AudioPreprocessor.kt:304-309 | the sum of k scaled channel samples lies in [-k, k] |
| AudioDecoding.SumFrame | app/src/main/java/com/example/fyp_25_s4_23/entity/ml/AudioPreprocessor.kt:304-309 | the per-frame `repeat(channels)` loop stays in bounds iff the frame fits in the data, and then sums exactly the frame's channel samples |
| AudioDecoding.DivExact | app/src/main/java/com/example/fyp_25_s4_23/entity/ml/AudioPreprocessor.kt:299 | for whole frames `size / 2 / channels` is the frame count |
| AudioDecoding.FrameFailure | app/src/main/java/com/example/fyp_25_s4_23/entity/ml/AudioPreprocessor.kt:303-311 | a frame that overruns the data, or one frame more than the output holds, means the data is not whole frames |
| AudioDecoding.DownmixFinish | app/src/main/java/com/example/fyp_25_s4_23/entity/ml/AudioPreprocessor.kt:303-311 | leaving the loop at the end of the data means every output sample was written |
| AudioDecoding.ShortsToMonoFloats | app/src/main/java/com/example/fyp_25_s4_23/entity/ml/AudioPreprocessor.kt:298-314 | returns (no exception) iff the data is empty or the channel count is positive and the data is whole frames; the output is one mean over channels of the scaled samples per frame |
| AudioDecoding.DownmixedInUnitRange | app/src/main/java/com/example/fyp_25_s4_23/entity/ml/AudioPreprocessor.kt:298-314 | every downmixed sample lies in [-1, 1] |
| AudioDecoding.ResampleLinear | app/src/main/java/com/example/fyp_25_s4_23/entity/ml/AudioPreprocessor.kt:282-296 | unchanged at equal rates; otherwise fails exactly when the output length is negative or exactly `Int.MAX_VALUE`, and each output sample interpolates its two neighbours at source position `i / ratio`, with reads past the end giving 0 |
| AudioDecoding.ResampledLengthFloor | app/src/main/java/com/example/fyp_25_s4_23/entity/ml/AudioPreprocessor.kt:284-285 | with a positive source rate the output has `floor(n·dst/src)` samples |
| AudioDecoding.ResampleNegativeRate | app/src/main/java/com/example/fyp_25_s4_23/entity/ml/AudioPreprocessor.kt:284-286 | a negative source rate fails exactly when `n·dst ≥ -src` (negative array size) |
| AudioDecoding.NegativeRateEmpty | app/src/main/java/com/example/fyp_25_s4_23/entity/ml/AudioPreprocessor.kt:284-286 | a negative source rate that does not fail yields no samples |
| AudioDecoding.InterpolatedBounds | app/src/main/java/com/example/fyp_25_s4_23/entity/ml/AudioPreprocessor.kt:288-293 | interpolating between samples in [-1, 1] stays in [-1, 1] |
| AudioDecoding.ResampledInUnitRange | app/src/main/java/com/example/fyp_25_s4_23/entity/ml/AudioPreprocessor.kt:282-296 | resampling keeps every sample in [-1, 1] |
| AudioDecoding.DecodeWav16Mono | app/src/main/java/com/example/fyp_25_s4_23/entity/ml/AudioPreprocessor.kt:68-92 | returns iff the 44 header bytes are present, bits per sample (offset 34) is 16, the data downmixes with the channel count at offset 22 and resampling from the rate at offset 24 succeeds; the result is the downmixed data resampled to 16 kHz |
| AudioDecoding.DecodedWavInUnitRange | app/src/main/java/com/example/fyp_25_s4_23/entity/ml/AudioPreprocessor.kt:68-92 | every decoded sample lies in [-1, 1] |
| AudioDecoding.MonoHeaderFields | app/src/main/java/com/example/fyp_25_s4_23/entity/ml/AudioPreprocessor.kt:70-75 | a canonical mono 16 kHz 16-bit header is read back as 1 channel, 16 bits and 16 000 Hz, with the data after byte 44 |
| AudioDecoding.DownmixedMono | app/src/main/java/com/example/fyp_25_s4_23/entity/ml/AudioPreprocessor.kt:298-314 | with one channel the downmix is each sample scaled by 1/32768 |
| AudioDecoding.DecodeEncodedWav | app/src/main/java/com/example/fyp_25_s4_23/entity/ml/AudioPreprocessor.kt:68-92 | a canonical 16 kHz mono WAV decodes to its samples scaled by 1/32768, without resampling |
| AudioPreprocessor.IndexOfFirstLoud | app/src/main/java/com/example/fyp_25_s4_23/entity/ml/AudioPreprocessor.kt:173-176 | `indexOfFirst` over the loudness mask: -1 iff every sample is quiet, otherwise a loud sample with only quiet ones before it |
| AudioPreprocessor.IndexOfLastLoud | app/src/main/java/com/example/fyp_25_s4_23/entity/ml/AudioPreprocessor.kt:173-177 | `indexOfLast`: -1 iff every sample is quiet, otherwise a loud sample with only quiet ones after it |
| AudioPreprocessor.FirstBeforeLast | app/src/main/java/com/example/fyp_25_s4_23/entity/ml/AudioPreprocessor.kt:176-179 | with a loud sample the first loud index is at most the last, so the copied range is valid |
| AudioPreprocessor.SimpleVad | app/src/main/java/com/example/fyp_25_s4_23/entity/ml/AudioPreprocessor.kt:173-180 | unchanged when no sample is above -40 dB; otherwise a slice that starts and ends with a loud sample; never longer than the input and never empty for non-empty input |
| AudioPreprocessor.VadCutsOnlyQuiet | app/src/main/java/com/example/fyp_25_s4_23/entity/ml/AudioPreprocessor.kt:173-180 | the result is a contiguous slice of the input and every dropped sample is quiet |
| AudioPreprocessor.VadIdempotent | app/src/main/java/com/example/fyp_25_s4_23/entity/ml/AudioPreprocessor.kt:173-180 | trimming a trimmed signal changes nothing |
| AudioPreprocessor.PadOrCrop | app/src/main/java/com/example/fyp_25_s4_23/entity/ml/AudioPreprocessor.kt:182-187 | exactly `target` samples: the input followed by zeros when shorter, its first `target` samples when longer |
| AudioPreprocessor.PadOrCropIdempotent | app/src/main/java/com/example/fyp_25_s4_23/entity/ml/AudioPreprocessor.kt:182-187 | padding or cropping twice is the same as once |
| AudioPreprocessor.HannWindow | app/src/main/java/com/example/fyp_25_s4_23/entity/ml/AudioPreprocessor.kt:254-255 | the window has `size` coefficients, each in [0, 1] |
| AudioPreprocessor.MelBins | app/src/main/java/com/example/fyp_25_s4_23/entity/ml/AudioPreprocessor.kt:258-263 | 66 integer bin edges, one per mel point |
| AudioPreprocessor.FilterWeightRange | app/src/main/java/com/example/fyp_25_s4_23/entity/ml/AudioPreprocessor.kt:265-275 | every filter weight lies in [0, 1]; the `max(1, ·)` divisors are never zero |
| AudioPreprocessor.FilterTriangle | app/src/main/java/com/example/fyp_25_s4_23/entity/ml/AudioPreprocessor.kt:265-275 | for strictly rising edges the weight is 1 at the centre bin and 0 outside `[bins[m-1], bins[m+1])` |
| AudioPreprocessor.MelFilterBank | app/src/main/java/com/example/fyp_25_s4_23/entity/ml/AudioPreprocessor.kt:257-277 | the filled array is the 64 × 513 triangular filter matrix of the bin edges |
| AudioPreprocessor.FillBand | app/src/main/java/com/example/fyp_25_s4_23/entity/ml/AudioPreprocessor.kt:265-275 | one band's two ramp loops set that row to the filter weights and leave the other rows alone |
| AudioPreprocessor.FrameCount | app/src/main/java/com/example/fyp_25_s4_23/entity/ml/AudioPreprocessor.kt:192 | `1 + (n - 1024) / 256` with Kotlin's truncating division; non-negative for signals longer than 512 |
| AudioPreprocessor.ClipFrameCount | app/src/main/java/com/example/fyp_25_s4_23/entity/ml/AudioPreprocessor.kt:192 | the 48 000-sample window has 184 frames |
| AudioPreprocessor.FramesInsideSignal | app/src/main/java/com/example/fyp_25_s4_23/entity/ml/AudioPreprocessor.kt:196-202 | for signals of at least 1024 samples every frame lies inside the signal |
| AudioPreprocessor.FrameBuffer | app/src/main/java/com/example/fyp_25_s4_23/entity/ml/AudioPreprocessor.kt:198-202 | the interleaved FFT buffer holds 2 × 1024 values, windowed samples with zero imaginary parts and reads past the end giving 0 |
| AudioPreprocessor.FramePower | app/src/main/java/com/example/fyp_25_s4_23/entity/ml/AudioPreprocessor.kt:203-209 | each frame has 1024/2 + 1 = 513 power bins |
| AudioPreprocessor.MelSpec | app/src/main/java/com/example/fyp_25_s4_23/entity/ml/AudioPreprocessor.kt:189-219 | the spectrogram is 64 rows of `1 + (n - 1024)/256` columns |
| AudioPreprocessor.MelSpecNonNegative | app/src/main/java/com/example/fyp_25_s4_23/entity/ml/AudioPreprocessor.kt:210-215 | every mel energy is non-negative (non-negative weights times non-negative powers) |
| AudioPreprocessor.MelSpectrogram | app/src/main/java/com/example/fyp_25_s4_23/entity/ml/AudioPreprocessor.kt:189-219 | the nested frame and band loops compute exactly the spectrogram function |
| AudioPreprocessor.FramePowerInto | app/src/main/java/com/example/fyp_25_s4_23/entity/ml/AudioPreprocessor.kt:197-209 | one frame's buffer fill, FFT and power loop give that frame's power spectrum |
| AudioPreprocessor.PowerSpectrum | app/src/main/java/com/example/fyp_25_s4_23/entity/ml/AudioPreprocessor.kt:204-209 | `re² + im²` for each of the 513 bins |
| AudioPreprocessor.MelColumn | app/src/main/java/com/example/fyp_25_s4_23/entity/ml/AudioPreprocessor.kt:210-216 | one frame's column holds each band's weighted sum and no other column changes |
| AudioPreprocessor.BandEnergy | app/src/main/java/com/example/fyp_25_s4_23/entity/ml/AudioPreprocessor.kt:211-214 | the accumulator loop computes the band's weighted sum |
| AudioPreprocessor.DbMatrix | app/src/main/java/com/example/fyp_25_s4_23/entity/ml/AudioPreprocessor.kt:221-230 | the dB matrix has the shape of its input |
| AudioPreprocessor.DbFloor | app/src/main/java/com/example/fyp_25_s4_23/entity/ml/AudioPreprocessor.kt:226 | `10·log10(max(v, 1e-9))` is at least -90 |
| AudioPreprocessor.AmplitudeToDb | app/src/main/java/com/example/fyp_25_s4_23/entity/ml/AudioPreprocessor.kt:221-230 | the loops compute the dB matrix and every value is at least -90 |
| AudioPreprocessor.StdDev | app/src/main/java/com/example/fyp_25_s4_23/entity/ml/AudioPreprocessor.kt:243-244 | the divisor `sqrt(max(meanSq - mean², 1e-5))` is at least 1/320 (just below sqrt(1e-5)), so never zero |
| AudioPreprocessor.Normalized | app/src/main/java/com/example/fyp_25_s4_23/entity/ml/AudioPreprocessor.kt:232-252 | normalising keeps the shape |
| AudioPreprocessor.Normalize | app/src/main/java/com/example/fyp_25_s4_23/entity/ml/AudioPreprocessor.kt:232-252 | the two passes compute the global mean and divisor and standardise every cell |
| AudioPreprocessor.SumAndSumOfSquares | app/src/main/java/com/example/fyp_25_s4_23/entity/ml/AudioPreprocessor.kt:233-242 | the first pass accumulates the sum and the sum of squares of every cell |
| AudioPreprocessor.Standardize | app/src/main/java/com/example/fyp_25_s4_23/entity/ml/AudioPreprocessor.kt:245-251 | the second pass maps every cell to `(v - mean) / std` |
| AudioPreprocessor.NormalizeConstant | app/src/main/java/com/example/fyp_25_s4_23/entity/ml/AudioPreprocessor.kt:232-252 | an all-equal input (e.g. silence) normalises to all zeros, with no division by zero |
| AudioPreprocessor.PreprocessedShape | app/src/main/java/com/example/fyp_25_s4_23/entity/ml/AudioPreprocessor.kt:59-65 | the pipeline always yields 64 × 184 features |
| AudioPreprocessor.Preprocess | app/src/main/java/com/example/fyp_25_s4_23/entity/ml/AudioPreprocessor.kt:59-65 | VAD, pad/crop to 48 000, mel spectrogram, dB and normalisation in that order, giving 64 × 184 |
| AudioFeatureExtractor.Norm | app/src/main/java/com/example/fyp_25_s4_23/entity/ml/AudioFeatureExtractor.kt:11 | `sample / 32768` lies in [-1, 1) |
| AudioFeatureExtractor.Energy | app/src/main/java/com/example/fyp_25_s4_23/entity/ml/AudioFeatureExtractor.kt:7-16 | the loop computes the energy: 0 for an empty frame, otherwise `-10·log10(max(mean square, 1e-8))` |
| AudioFeatureExtractor.SumSquaresBounds | app/src/main/java/com/example/fyp_25_s4_23/entity/ml/AudioFeatureExtractor.kt:10-13 | the sum of k squared normalised samples lies in [0, k] |
| AudioFeatureExtractor.EnergyRange | app/src/main/java/com/example/fyp_25_s4_23/entity/ml/AudioFeatureExtractor.kt:8-15 | the energy of any frame lies in [0, 80], because the mean square is at most 1 |
| AudioFeatureExtractor.SilentEnergy | app/src/main/java/com/example/fyp_25_s4_23/entity/ml/AudioFeatureExtractor.kt:14-15 | an all-zero frame hits the 1e-8 floor, giving `-10·log10(1e-8)` |
| AudioFeatureExtractor.ZeroCrossRate | app/src/main/java/com/example/fyp_25_s4_23/entity/ml/AudioFeatureExtractor.kt:18-27 | the loop computes the crossing count over the frame size, 0 for an empty frame |
| AudioFeatureExtractor.CrossingsBound | app/src/main/java/com/example/fyp_25_s4_23/entity/ml/AudioFeatureExtractor.kt:21-25 | at most k - 1 adjacent pairs among k samples change sign class |
| AudioFeatureExtractor.ZeroCrossRateRange | app/src/main/java/com/example/fyp_25_s4_23/entity/ml/AudioFeatureExtractor.kt:18-27 | 0 for an empty frame, otherwise in [0, 1) |
| AudioFeatureExtractor.NoCrossingsIffOneSide | app/src/main/java/com/example/fyp_25_s4_23/entity/ml/AudioFeatureExtractor.kt:21-25 | no crossing among the first k samples iff they all share the first sample's sign class (≥ 0 or < 0) |
| AudioFeatureExtractor.ZeroRateIffOneSide | app/src/main/java/com/example/fyp_25_s4_23/entity/ml/AudioFeatureExtractor.kt:18-27 | for a non-empty frame the rate is 0 iff all samples are ≥ 0 or all are < 0 |
| ModelRunner.Unflatten | app/src/main/java/com/example/fyp_25_s4_23/entity/ml/ModelRunner.kt:87-94 | a flat buffer of `64·T` values splits into 64 rows of T |
| ModelRunner.UnflattenConcat | app/src/main/java/com/example/fyp_25_s4_23/entity/ml/ModelRunner.kt:87-94 | flattening band by band then splitting gives the 64 × T input back: `flat[m·T + t] = input[m][t]` |
| ModelRunner.Flatten | app/src/main/java/com/example/fyp_25_s4_23/entity/ml/ModelRunner.kt:88-94 | the nested loop writes the rows one after another, band-major |
| ModelRunner.CopyBand | app/src/main/java/com/example/fyp_25_s4_23/entity/ml/ModelRunner.kt:91-93 | the inner loop appends band m after what was already written |
| ModelRunner.FirstOf | app/src/main/java/com/example/fyp_25_s4_23/entity/ml/ModelRunner.kt:99-109 | `firstOrNull`: none iff the array is empty, otherwise its first element |
| ModelRunner.LogitShapesAgree | app/src/main/java/com/example/fyp_25_s4_23/entity/ml/ModelRunner.kt:97-115 | a FloatArray, a first row and a tensor buffer give the same logit, their first element, and none when empty; a null first row or any other output type gives none |
| ModelRunner.Sigmoid | app/src/main/java/com/example/fyp_25_s4_23/entity/ml/ModelRunner.kt:146 | the clamped sigmoid lies in [0, 1] |
| ModelRunner.SigmoidHalf | app/src/main/java/com/example/fyp_25_s4_23/entity/ml/ModelRunner.kt:146 | for a finite exponential the sigmoid lies in (0, 1) and is ≥ 0.5 iff the logit is ≥ 0 |
| ModelRunner.Score | app/src/main/java/com/example/fyp_25_s4_23/entity/ml/ModelRunner.kt:85-120 | any score the run yields lies in [0, 1]; a failed run or a missing logit gives none |
| ModelRunner.InferTensor | app/src/main/java/com/example/fyp_25_s4_23/entity/ml/ModelRunner.kt:85-120 | flattening, running and sigmoid give the score of the input's rows, which lies in [0, 1] |
| ModelRunner.Window | app/src/main/java/com/example/fyp_25_s4_23/entity/ml/ModelRunner.kt:74-81 | the copied input is rows 0..63 and columns 0..T-1 of the mel matrix, T = `mel[0].size` |
| ModelRunner.InferMel | app/src/main/java/com/example/fyp_25_s4_23/entity/ml/ModelRunner.kt:74-83 | the score is that of the 64 × T window of the mel matrix |
| ModelRunner.WindowOfMatrix | app/src/main/java/com/example/fyp_25_s4_23/entity/ml/ModelRunner.kt:74-81 | for a 64 × T matrix the copied window is the matrix itself |
| ModelRunner.WarmUp | app/src/main/java/com/example/fyp_25_s4_23/entity/ml/ModelRunner.kt:28-33 | warm-up runs a 64 × 10 all-zero tensor and never raises |
| ModelRunner.Inferred | app/src/main/java/com/example/fyp_25_s4_23/entity/ml/ModelRunner.kt:46-72 | none exactly when decoding fails; otherwise the 64 × 184 preprocessed mel with its (possibly missing) score |
| ModelRunner.InferFromDecoded | app/src/main/java/com/example/fyp_25_s4_23/entity/ml/ModelRunner.kt:46-72 | every `infer*` entry point returns the result of preprocessing and scoring what its loader decoded |
| ModelRunner.InferFromStream | app/src/main/java/com/example/fyp_25_s4_23/entity/ml/ModelRunner.kt:67-72 | none iff the WAV stream does not decode; otherwise the mel of the decoded signal and its score |
| AudioTestProcessor.ClipOrPad | app/src/main/java/com/example/fyp_25_s4_23/boundary/audio/AudioTestProcessor.kt.kt:55-63 | exactly `target` samples: the input as a prefix with zeros after it when shorter, the first `target` when longer |
| AudioTestProcessor.ClipOrPadIsPadOrCrop | app/src/main/java/com/example/fyp_25_s4_23/boundary/audio/AudioTestProcessor.kt.kt:55-63 | on scaled samples `clipOrPad` agrees with the preprocessor's `padOrCrop` |
| AudioTestProcessor.Offset | app/src/main/java/com/example/fyp_25_s4_23/boundary/audio/AudioTestProcessor.kt.kt:68-69 | the header offset is 44 or 0 |
| AudioTestProcessor.DecodeShorts | app/src/main/java/com/example/fyp_25_s4_23/boundary/audio/AudioTestProcessor.kt.kt:70-74 | `(size - offset) / 2` little-endian signed shorts read from the offset; a trailing odd byte is ignored |
| AudioTestProcessor.LoadPcm16 | app/src/main/java/com/example/fyp_25_s4_23/boundary/audio/AudioTestProcessor.kt.kt:65-78 | `max(0, size - offset) / 2` samples, a missing stream read as no bytes, and the name falls back to "audio" without a last path segment |
| AudioTestProcessor.DecodeEncoded | app/src/main/java/com/example/fyp_25_s4_23/boundary/audio/AudioTestProcessor.kt.kt:70-74 | decoding the little-endian bytes of any shorts after any prefix gives the shorts back |
| AudioTestProcessor.RawRoundTrip | app/src/main/java/com/example/fyp_25_s4_23/boundary/audio/AudioTestProcessor.kt.kt:65-78 | raw PCM whose first sample is not the bytes 'R','I' (or that is at most 44 bytes long) loads back unchanged |
| AudioTestProcessor.WavRoundTrip | app/src/main/java/com/example/fyp_25_s4_23/boundary/audio/AudioTestProcessor.kt.kt:65-78 | a 44-byte header starting with 'R','I' followed by data is skipped and the data loads back |
| AudioTestProcessor.RawMistakenForWav | app/src/main/java/com/example/fyp_25_s4_23/boundary/audio/AudioTestProcessor.kt.kt:68-69 | raw PCM whose first sample happens to be 'R','I' loses its first 22 samples as a presumed header |
| AudioTestProcessor.Decide | app/src/main/java/com/example/fyp_25_s4_23/boundary/audio/AudioTestProcessor.kt.kt:40-51 | `isDeepfake` iff prob ≥ 0.5, and the explanation is the "high" text exactly when `isDeepfake` |
| AudioTestProcessor.PlaceholderInfer | app/src/main/java/com/example/fyp_25_s4_23/ml/ModelRunner.kt:16-19 | the placeholder classifier's score is a probability below the 0.5 threshold |
| AudioTestProcessor.Analyze | app/src/main/java/com/example/fyp_25_s4_23/boundary/audio/AudioTestProcessor.kt.kt:28-53 | the result is the decision for the placeholder classifier's score on the energy and zero-cross rate of the loaded, clipped or padded samples; so every file is reported as not a deepfake, with the "low" text and a confidence below 0.5 |
| AudioTestProcessor.SpecFrames | app/src/main/java/com/example/fyp_25_s4_23/boundary/audio/AudioTestProcessor.kt.kt:85 | `max(1, (n - 256) / 128)` with truncating division, at least 1 |
| AudioTestProcessor.ClipSpecFrames | app/src/main/java/com/example/fyp_25_s4_23/boundary/audio/AudioTestProcessor.kt.kt:85 | the 48 000-sample clip gives 373 rows |
| AudioTestProcessor.FilledRowsAll | app/src/main/java/com/example/fyp_25_s4_23/boundary/audio/AudioTestProcessor.kt.kt:89-96 | for at least 256 samples the loop fills every row; for fewer it fills none of the single row |
| AudioTestProcessor.FrameInside | app/src/main/java/com/example/fyp_25_s4_23/boundary/audio/AudioTestProcessor.kt.kt:91-92 | every filled frame lies inside the signal |
| AudioTestProcessor.FillSpectrogram | app/src/main/java/com/example/fyp_25_s4_23/boundary/audio/AudioTestProcessor.kt.kt:84-96 | the array has the frame count and row f is the DFT magnitude of the f-th windowed frame, or zeros when unfilled |
| PreprocessAudio.LoudIndices | ml/training/src/preprocess_audio.py:23-26 | the indices above -40 dB, and only those |
| PreprocessAudio.SeqMin | ml/training/src/preprocess_audio.py:27 | `indices.min()` is an index no greater than any other |
| PreprocessAudio.SeqMax | ml/training/src/preprocess_audio.py:27 | `indices.max()` is an index no smaller than any other |
| PreprocessAudio.SimpleVad | ml/training/src/preprocess_audio.py:22-28 | unchanged when nothing is loud; otherwise a non-empty slice no longer than the input |
| PreprocessAudio.SimpleVadMatchesApp | ml/training/src/preprocess_audio.py:22-28 | the training VAD (min to max loud index, inclusive) equals the app's VAD on every signal |
| PreprocessAudio.QuietOutside | ml/training/src/preprocess_audio.py:25-27 | every sample before the first or after the last loud index is quiet |
| PreprocessAudio.PadOrCrop | ml/training/src/preprocess_audio.py:39-44 | exactly 48 000 samples: right-padded with zeros when shorter, the first 48 000 when longer |
| PreprocessAudio.PadOrCropMatchesApp | ml/training/src/preprocess_audio.py:39-44 | the training pad/crop equals the app's `padOrCrop` to 48 000 |
| PreprocessAudio.MeanOverChannels | ml/training/src/preprocess_audio.py:34-35 | the mono mean keeps the frame count |
| PreprocessAudio.Waveform | ml/training/src/preprocess_audio.py:30-44 | resample first, then average channels, then VAD, then pad/crop: always 48 000 samples |
| PreprocessAudio.WaveformMatchesApp | ml/training/src/preprocess_audio.py:30-44 | for mono audio at 16 kHz the training waveform is the app's VAD then pad/crop |
| PreprocessAudio.Divisor | ml/training/src/preprocess_audio.py:48 | `std + 1e-5` is at least 1e-5, so strictly positive |
| PreprocessAudio.Standardized | ml/training/src/preprocess_audio.py:48 | defined (not NaN) iff there are at least two cells, and then keeps the cell count |
| PreprocessAudio.SumSqDevExpand | ml/training/src/preprocess_audio.py:48 | the sum of squared deviations expands to `Σx² - 2μΣx + kμ²` |
| PreprocessAudio.VarianceRelation | ml/training/src/preprocess_audio.py:48 | the training (unbiased) variance times `n - 1` is `n` times the app's population variance |
| PreprocessAudio.StandardizedConstant | ml/training/src/preprocess_audio.py:48 | a constant input standardises to all zeros |
| PreprocessAudio.LoadAndProcess | ml/training/src/preprocess_audio.py:30-49 | the standardised features have as many cells as the mel/dB transform of the waveform |
| Dataset.Scanned | ml/training/src/dataset.py:17-21 | every real/ file labelled 0 followed by every fake/ file labelled 1 |
| Dataset.CountLabelAppend | ml/training/src/dataset.py:17-21 | label counts add over concatenation |
| Dataset.ScannedCounts | ml/training/src/dataset.py:17-21 | the scan has one 0 per real/ file and one 1 per fake/ file |
| Dataset.DeepfakeDataset.constructor | ml/training/src/dataset.py:16-23 | the given items when non-empty, otherwise the scanned directory |
| Dataset.DeepfakeDataset.Len | ml/training/src/dataset.py:29-30 | `len` is the item count |
| Dataset.CropStart | ml/training/src/dataset.py:46-50 | the crop start keeps the window in bounds; in eval mode it is `(n - 48000) // 2` |
| Dataset.Window | ml/training/src/dataset.py:42-51 | always 48 000 samples: zero right-padding when shorter, otherwise the crop at the chosen start |
| Dataset.EvalCropCentred | ml/training/src/dataset.py:49-51 | the eval crop is centred: the right margin equals the left or exceeds it by one |
| Dataset.AugmentStartRange | ml/training/src/dataset.py:47-48 | every start in `[0, n - 48000]` can be drawn and is used as drawn |
| Dataset.ItemWaveform | ml/training/src/dataset.py:34-51 | every branch of `__getitem__` yields exactly 48 000 samples before the mel transform |
| Dataset.TrainingCropDiffersFromApp | ml/training/src/dataset.py:50 | a long clip gives a different window in eval mode (centred) than in the app (first 48 000) |
| SplitAsvspoof.LStrip | ml/training/scripts/split_asvspoof.py:30 | the leading-whitespace strip removes only whitespace and leaves a suffix that does not start with whitespace |
| SplitAsvspoof.RStrip | ml/training/scripts/split_asvspoof.py:30 | the trailing strip leaves a prefix that does not end with whitespace |
| SplitAsvspoof.Strip | ml/training/scripts/split_asvspoof.py:30 | a non-empty stripped line starts and ends with a non-whitespace character |
| SplitAsvspoof.TokenLength | ml/training/scripts/split_asvspoof.py:33 | the first token runs up to the first whitespace character |
| SplitAsvspoof.TokensNonEmpty | ml/training/scripts/split_asvspoof.py:33 | `line.split()` never yields an empty token |
| SplitAsvspoof.TokensHead | ml/training/scripts/split_asvspoof.py:33 | on a line that opens with a non-whitespace character the first token is the line's leading run of non-whitespace |
| SplitAsvspoof.TokensOfFields | ml/training/scripts/split_asvspoof.py:33 | splitting whitespace-free fields joined by spaces gives back exactly those fields |
| SplitAsvspoof.UttId | ml/training/scripts/split_asvspoof.py:34 | the utterance id is the first token starting with "T_" (no earlier token starts with it) when there is one, otherwise the first token |
| SplitAsvspoof.FirstWithPrefix | ml/training/scripts/split_asvspoof.py:34 | `next(...)` returns the first token from the given position on that starts with "T_" (none before it does), or the fallback when there is none |
| SplitAsvspoof.ParseLine | ml/training/scripts/split_asvspoof.py:33-36 | the id is `UttId` of the stripped line's tokens and the label is the last token lowercased, hence non-empty with no upper-case ASCII letter |
| SplitAsvspoof.ParseFieldsLine | ml/training/scripts/split_asvspoof.py:30-36 | a line of whitespace-free fields joined by spaces, not opening with '#', is kept and yields the first "T_" field (or the first field) with the last field lowercased |
| SplitAsvspoof.Entries | ml/training/scripts/split_asvspoof.py:26-37 | at most one entry per line |
| SplitAsvspoof.LineEntry | ml/training/scripts/split_asvspoof.py:30-36 | a line blank after stripping or starting with '#' gives no entry; every other line gives exactly its parsed entry |
| SplitAsvspoof.ParseMetadata | ml/training/scripts/split_asvspoof.py:26-37 | the loop collects exactly the entries of the kept lines, in order |
| SplitAsvspoof.EntriesSound | ml/training/scripts/split_asvspoof.py:26-37 | every entry is the parse of some kept line |
| SplitAsvspoof.EntriesComplete | ml/training/scripts/split_asvspoof.py:29-36 | every kept line contributes its entry, appended after those of the lines before it |
| SplitAsvspoof.EntriesPrefix | ml/training/scripts/split_asvspoof.py:26-37 | the entries of a prefix of the file are a prefix of the file's entries |
| SplitAsvspoof.LabelMap | ml/training/scripts/split_asvspoof.py:17-23 | bonafide, genuine and real map to real; spoof and fake to fake; nothing else maps |
| SplitAsvspoof.StageSubset | ml/training/scripts/split_asvspoof.py:50-79 | the staging loop computes the statistics and conversions of the staging function from zero counts |
| SplitAsvspoof.StageCounts | ml/training/scripts/split_asvspoof.py:59-78 | real + fake + skipped never exceeds the entry count, and equals it without a limit; one conversion per converted entry; counts only grow |
| SplitAsvspoof.StageRespectsLimit | ml/training/scripts/split_asvspoof.py:77-78 | with a non-zero limit the loop stops as soon as real + fake reaches it, so it never exceeds `max(limit, 1)` |
| SplitAsvspoof.StageConvertsOnlyKnown | ml/training/scripts/split_asvspoof.py:63-76 | every conversion comes from an entry with a known label whose source file exists |
| CallMonitorService.StepEffect | app/src/main/java/com/example/fyp_25_s4_23/boundary/handlers/CallMonitorService.kt:99-116 | a frame that fires (read > 0, probability ≥ 0.75, more than 10 000 ms since the last alert) posts exactly one alert with the next id and moves `lastAlertTime` to now; any other frame changes nothing |
| CallMonitorService.StepConsistent | app/src/main/java/com/example/fyp_25_s4_23/boundary/handlers/CallMonitorService.kt:97-116 | one loop pass keeps ids consecutive, alerts more than 10 s apart and `lastAlertTime` at the latest alert, and never removes an alert |
| CallMonitorService.RunGateConsistent | app/src/main/java/com/example/fyp_25_s4_23/boundary/handlers/CallMonitorService.kt:98-117 | the whole read loop keeps that invariant |
| CallMonitorService.AlertsSpacedAndNumbered | app/src/main/java/com/example/fyp_25_s4_23/boundary/handlers/CallMonitorService.kt:97-117 | from a fresh job the k-th alert has id 2001 + k, consecutive alerts are strictly more than 10 s apart, and the next id is one past the last |
| CallMonitorService.CooldownSuppresses | app/src/main/java/com/example/fyp_25_s4_23/boundary/handlers/CallMonitorService.kt:104-106 | two qualifying frames at most 10 s apart give one alert |
| CallMonitorService.EmptyReadsIgnored | app/src/main/java/com/example/fyp_25_s4_23/boundary/handlers/CallMonitorService.kt:99-100 | reads returning nothing change nothing |
| CallMonitorService.CallMonitorService.constructor | app/src/main/java/com/example/fyp_25_s4_23/boundary/handlers/CallMonitorService.kt:71-127 | no recorder, no job, `lastAlertTime` 0 and nothing posted |
| CallMonitorService.CallMonitorService.StartCapture | app/src/main/java/com/example/fyp_25_s4_23/boundary/handlers/CallMonitorService.kt:71-97 | a no-op when a recorder exists; without permission no recorder is created and the service stops itself; otherwise a started recorder with a buffer of at least 16 000 and a job whose ids restart at 2001 |
| CallMonitorService.CallMonitorService.ReadFrame | app/src/main/java/com/example/fyp_25_s4_23/boundary/handlers/CallMonitorService.kt:99-116 | one loop pass updates the gate as the gate step says |
| CallMonitorService.CallMonitorService.Monitor | app/src/main/java/com/example/fyp_25_s4_23/boundary/handlers/CallMonitorService.kt:98-117 | the loop updates the gate as the run over all frames says |
| CallMonitorService.CallMonitorService.StopCapture | app/src/main/java/com/example/fyp_25_s4_23/boundary/handlers/CallMonitorService.kt:121-127 | the job is cancelled, the recorder released once if present and both cleared; safe when nothing is capturing |
| CallMonitorService.StartTwice | app/src/main/java/com/example/fyp_25_s4_23/boundary/handlers/CallMonitorService.kt:72 | a second start returns the recorder of the first, so repeated starts never create a second one |
| Domain.ParseStatus | app/src/main/java/com/example/fyp_25_s4_23/entity/data/mappers/NormalizedCallMappers.kt:33 | `valueOf` with an UNKNOWN default: a stored status name is read as the status of that name, any other string as UNKNOWN |
| Domain.StatusRoundTrip | app/src/main/java/com/example/fyp_25_s4_23/entity/domain/valueobjects/CallStatus.kt:3-10 | every call status read back from its stored name is itself |
| Domain.ParseDirection | app/src/main/java/com/example/fyp_25_s4_23/entity/data/mappers/NormalizedCallMappers.kt:23-25 | a stored direction name is read as that direction, any other string as UNKNOWN |
| Domain.DirectionRoundTrip | app/src/main/java/com/example/fyp_25_s4_23/entity/data/mappers/CallRecordMappers.kt:16 | every direction read back from its stored name is itself |
| Domain.ParseSeverity | app/src/main/java/com/example/fyp_25_s4_23/data/mappers/AlertEventMappers.kt:12 | a severity name is read as that severity, any other string as WARNING |
| Domain.ActionName | app/src/main/java/com/example/fyp_25_s4_23/data/mappers/AlertEventMappers.kt:30 | an action's stored name is non-empty and has no comma, so it survives the comma join |
| Domain.ParseAction | app/src/main/java/com/example/fyp_25_s4_23/data/mappers/AlertEventMappers.kt:16 | a piece parses to an action exactly when it is some action's name, and then to that action |
| Domain.ParseRole | app/src/main/java/com/example/fyp_25_s4_23/entity/data/mappers/UserMappers.kt:11 | `UserRole.valueOf` succeeds exactly on a role's name and returns that role; any other string is an error |
| Domain.Duration | app/src/main/java/com/example/fyp_25_s4_23/entity/domain/entities/CallMetadata.kt:19-23 | no end time gives no duration; a duration that exists is never negative |
| Domain.DurationExact | app/src/main/java/com/example/fyp_25_s4_23/entity/domain/entities/CallMetadata.kt:19-23 | for clock readings the duration is end − start when the end is not before the start, and absent otherwise |
| Domain.DurationWraps | app/src/main/java/com/example/fyp_25_s4_23/entity/domain/entities/CallMetadata.kt:21 | the `Long` subtraction wraps: start −1 and end 2^63−1 give no duration although the end is later |
| Domain.NewDetection | app/src/main/java/com/example/fyp_25_s4_23/entity/domain/entities/DetectionResult.kt:3-8 | a detection built with defaults carries the clock reading and model version "0.0.1" |
| Domain.NewCallMetadata | app/src/main/java/com/example/fyp_25_s4_23/entity/domain/entities/CallMetadata.kt:9-17 | metadata built with defaults has no name, end, location, carrier or label and an UNKNOWN direction |
| Domain.CallDuration | app/src/main/java/com/example/fyp_25_s4_23/entity/domain/entities/CallMetadata.kt:19-23 | a call without an end time has no duration; a duration that exists is never negative |
| Domain.NewCallRecord | app/src/main/java/com/example/fyp_25_s4_23/entity/domain/entities/CallRecord.kt:8-16 | a new record has status UNKNOWN, no detections, no notes, and both timestamps at the clock reading |
| Domain.LastDetection | app/src/main/java/com/example/fyp_25_s4_23/entity/domain/entities/CallRecord.kt:17-18 | the last detection is absent exactly when there are none, and otherwise is the final element |
| Domain.AppendDetection | app/src/main/java/com/example/fyp_25_s4_23/entity/domain/entities/CallRecord.kt:20-23 | appending keeps the earlier history as a prefix, adds one detection and changes only the update time besides |
| Domain.LastAfterAppend | app/src/main/java/com/example/fyp_25_s4_23/entity/domain/entities/CallRecord.kt:17-23 | after an append, the last detection is the appended one |
| Domain.AppendAllKeepsHistory | app/src/main/java/com/example/fyp_25_s4_23/entity/domain/entities/CallRecord.kt:20-23 | appending several detections in turn gives the old history followed by them, in order |
| Domain.NewSession | app/src/main/java/com/example/fyp_25_s4_23/entity/domain/entities/DetectionSession.kt:8-16 | a new session is RUNNING from the clock reading, with no probabilities, no end and no final result |
| Domain.SessionDuration | app/src/main/java/com/example/fyp_25_s4_23/entity/domain/entities/DetectionSession.kt:18-22 | a session that has not ended has no duration; a duration that exists is never negative |
| Domain.NewSessionHasNoDuration | app/src/main/java/com/example/fyp_25_s4_23/entity/domain/entities/DetectionSession.kt:11-22 | a freshly started session has no duration |
| Domain.MakeFeatureVector | app/src/main/java/com/example/fyp_25_s4_23/entity/domain/entities/FeatureVector.kt:13-18 | the `init` check as written compares the value count with the 32-bit wrapped product, so it fails whenever that product is negative |
| Domain.FeatureVectorWrapAccepted | app/src/main/java/com/example/fyp_25_s4_23/entity/domain/entities/FeatureVector.kt:14-15 | 65536 × 65536 frames wraps to 0, so an empty array is accepted for a shape that needs 2^32 values |
| Domain.MakeFeatureVectorExact | app/src/main/java/com/example/fyp_25_s4_23/entity/domain/entities/FeatureVector.kt:13-18 | with the exact product the check accepts exactly the values whose count matches the shape |
| Domain.ExactAgreesWithoutOverflow | app/src/main/java/com/example/fyp_25_s4_23/entity/domain/entities/FeatureVector.kt:13-18 | when the product fits in 32 bits, the as-written check and the exact check agree |
| NormalizedCallMappers.ConfidenceLevel | app/src/main/java/com/example/fyp_25_s4_23/entity/data/mappers/NormalizedCallMappers.kt:108-112 | the stored confidence is HIGH exactly from 0.8, MEDIUM exactly in [0.5, 0.8), LOW exactly below 0.5 |
| NormalizedCallMappers.DetectionToDomain | app/src/main/java/com/example/fyp_25_s4_23/entity/data/mappers/NormalizedCallMappers.kt:88-95 | the read detection keeps probability, flag, timestamp and model version |
| NormalizedCallMappers.DetectionToEntity | app/src/main/java/com/example/fyp_25_s4_23/entity/data/mappers/NormalizedCallMappers.kt:100-114 | the stored detection row carries the given ids and the confidence band of its probability |
| NormalizedCallMappers.DetectionRoundTrip | app/src/main/java/com/example/fyp_25_s4_23/entity/data/mappers/NormalizedCallMappers.kt:88-114 | a detection stored and read back is unchanged |
| NormalizedCallMappers.CompleteToDomain | app/src/main/java/com/example/fyp_25_s4_23/entity/data/mappers/NormalizedCallMappers.kt:17-39 | without a metadata row the phone is "Unknown", the start is the creation time and the direction UNKNOWN; detections are read one for one, in order |
| NormalizedCallMappers.DetectionIdsDistinct | app/src/main/java/com/example/fyp_25_s4_23/entity/data/mappers/NormalizedCallMappers.kt:68 | the row ids `<id>_detection_<n>` of different detections of one call differ |
| NormalizedCallMappers.StoredDurationSeconds | app/src/main/java/com/example/fyp_25_s4_23/entity/data/mappers/NormalizedCallMappers.kt:61-63 | the stored duration exists exactly when there is an end time and is an `Int` |
| NormalizedCallMappers.StoredDurationWholeSeconds | app/src/main/java/com/example/fyp_25_s4_23/entity/data/mappers/NormalizedCallMappers.kt:61-63 | for an ordinary call the stored duration is the whole seconds elapsed |
| NormalizedCallMappers.ToEntities | app/src/main/java/com/example/fyp_25_s4_23/entity/data/mappers/NormalizedCallMappers.kt:44-83 | the three row kinds carry the record's fields; detection rows keep their order, each tied to the call and numbered by position |
| NormalizedCallMappers.RecordRoundTrip | app/src/main/java/com/example/fyp_25_s4_23/entity/data/mappers/NormalizedCallMappers.kt:17-83 | storing a record and reading back its rows gives the record back, when it has no location, carrier or call-type label (no column holds them, so a record with any of them does not come back whole) |
| CallRecordMappers.FlatToDomain | app/src/main/java/com/example/fyp_25_s4_23/entity/data/mappers/CallRecordMappers.kt:10-29 | a flat row reads as a record with exactly one detection, flagged exactly from 0.7, with model version "unknown" when none is stored |
| CallRecordMappers.FlatToEntity | app/src/main/java/com/example/fyp_25_s4_23/entity/data/mappers/CallRecordMappers.kt:31-43 | the flat row keeps the last detection's probability and version, or 0 and none with no detections |
| CallRecordMappers.FlatRoundTrip | app/src/main/java/com/example/fyp_25_s4_23/entity/data/mappers/CallRecordMappers.kt:10-43 | a row with a model version and valid enum names survives a read and a write |
| CallRecordMappers.FlatVersionDefaulted | app/src/main/java/com/example/fyp_25_s4_23/entity/data/mappers/CallRecordMappers.kt:21 | a row without a model version comes back with "unknown" |
| CallRecordMappers.FlatKeepsLatest | app/src/main/java/com/example/fyp_25_s4_23/entity/data/mappers/CallRecordMappers.kt:40-41 | writing a record after an append stores the appended detection's probability and version |
| AlertEventMappers.ActionNames | app/src/main/java/com/example/fyp_25_s4_23/data/mappers/AlertEventMappers.kt:30 | one name per action, in iteration order |
| AlertEventMappers.ActionsOf | app/src/main/java/com/example/fyp_25_s4_23/data/mappers/AlertEventMappers.kt:15-17 | an action is in the parsed set exactly when some non-blank piece names it |
| AlertEventMappers.AlertToDomain | app/src/main/java/com/example/fyp_25_s4_23/data/mappers/AlertEventMappers.kt:8-20 | every field is carried over; the severity and action set are parsed from their stored strings |
| AlertEventMappers.AlertToEntity | app/src/main/java/com/example/fyp_25_s4_23/data/mappers/AlertEventMappers.kt:22-33 | every field is carried over; the severity is stored by name and the actions as their comma-joined names |
| AlertEventMappers.ActionNameNotBlank | app/src/main/java/com/example/fyp_25_s4_23/data/mappers/AlertEventMappers.kt:15 | no action's name is dropped as blank |
| AlertEventMappers.ListedActionParsed | app/src/main/java/com/example/fyp_25_s4_23/data/mappers/AlertEventMappers.kt:15-17 | each listed action is recovered from its name |
| AlertEventMappers.ParsedActionListed | app/src/main/java/com/example/fyp_25_s4_23/data/mappers/AlertEventMappers.kt:15-17 | every recovered action was listed |
| AlertEventMappers.ActionsOfNames | app/src/main/java/com/example/fyp_25_s4_23/data/mappers/AlertEventMappers.kt:15-17 | the names of a list of actions parse to exactly the set of those actions |
| AlertEventMappers.ParseJoinedActions | app/src/main/java/com/example/fyp_25_s4_23/data/mappers/AlertEventMappers.kt:15-17 | splitting the comma-joined names gives back exactly the set that was joined |
| AlertEventMappers.AlertRoundTrip | app/src/main/java/com/example/fyp_25_s4_23/entity/data/mappers/AlertEventMappers.kt:8-32 | every alert survives a write and a read, whatever order its action set iterates in |
| AlertEventMappers.EmptyActions | app/src/main/java/com/example/fyp_25_s4_23/data/mappers/AlertEventMappers.kt:15-17 | an empty action set is stored as "" and "" reads back as the empty set |
| AlertEventMappers.UnknownAndBlankDropped | app/src/main/java/com/example/fyp_25_s4_23/data/mappers/AlertEventMappers.kt:15-16 | blank pieces and unknown names are dropped: `ParseActions` of the string ",, ,BOGUS,CALL_FLAGGED" is the single action CALL_FLAGGED |
| AlertEventMappers.SplitFive | app/src/main/java/com/example/fyp_25_s4_23/data/mappers/AlertEventMappers.kt:15 | five pieces without the separator, joined by it, split back into exactly those five pieces |
| UserMappers.UserToDomain | app/src/main/java/com/example/fyp_25_s4_23/entity/data/mappers/UserMappers.kt:7-13 | a user row reads as an account exactly when its role column names a role; every other field is carried over |
| UserMappers.UserToEntity | app/src/main/java/com/example/fyp_25_s4_23/entity/data/mappers/UserMappers.kt:15-22 | the row stores the given password hash and the role by name, with the account's other fields |
| UserMappers.RoleNameInjective | app/src/main/java/com/example/fyp_25_s4_23/entity/data/mappers/UserMappers.kt:20 | different roles are stored under different names |
| UserMappers.UserRoundTrip | app/src/main/java/com/example/fyp_25_s4_23/entity/data/mappers/UserMappers.kt:7-22 | every account written with a hash reads back as itself |
| UserMappers.UserRowRoundTrip | app/src/main/java/com/example/fyp_25_s4_23/entity/data/mappers/UserMappers.kt:7-22 | every readable row, read and written with its own hash, is unchanged |
| UserMappers.SettingsToDomain | app/src/main/java/com/example/fyp_25_s4_23/entity/data/mappers/UserSettingsMappers.kt:6-8 | a settings row gives the detection flag and leaves every other setting at its default |
| UserMappers.SettingsToEntity | app/src/main/java/com/example/fyp_25_s4_23/entity/data/mappers/UserSettingsMappers.kt:10-13 | the row holds the user id and the detection flag |
| UserMappers.SettingsRowRoundTrip | app/src/main/java/com/example/fyp_25_s4_23/entity/data/mappers/UserSettingsMappers.kt:6-13 | a settings row read and written back is unchanged |
| UserMappers.SettingsKeepOnlyFlag | app/src/main/java/com/example/fyp_25_s4_23/entity/data/mappers/UserSettingsMappers.kt:6-13 | settings survive a write and a read exactly when every setting but the flag is at its default |
| UserRoleMapper.AsWrittenAlwaysRegistered | app/src/main/java/com/example/fyp_25_s4_23/util/UserRoleMapper.kt:5-10 | as written, the lower-cased input is compared with upper-case names, so every string maps to REGISTERED |
| UserRoleMapper.MapUserRole | app/src/main/java/com/example/fyp_25_s4_23/util/UserRoleMapper.kt:5-10 | corrected: ADMIN exactly when the lower-cased string is "admin", REGISTERED otherwise |
| UserRoleMapper.MapUserRoleRecognisesNames | app/src/main/java/com/example/fyp_25_s4_23/util/UserRoleMapper.kt:5-10 | corrected: each role's name, in upper or lower case, maps to that role |
| PasswordHasher.HexDigit | app/src/main/java/com/example/fyp_25_s4_23/util/PasswordHasher.kt:10 | every digit value below 16 is written as a lower-case hex character |
| PasswordHasher.ToHexString | app/src/main/java/com/example/fyp_25_s4_23/util/PasswordHasher.kt:10 | `toString(16)` gives a non-empty string of lower-case hex characters |
| PasswordHasher.Unsigned | app/src/main/java/com/example/fyp_25_s4_23/util/PasswordHasher.kt:10 | `byte.toInt() and 0xFF` is the byte read as unsigned: itself when non-negative, itself + 256 otherwise |
| PasswordHasher.ByteHexDigits | app/src/main/java/com/example/fyp_25_s4_23/util/PasswordHasher.kt:10 | `(u + 0x100).toString(16).substring(1)` is exactly the two hex digits of the unsigned byte, high first |
| PasswordHasher.HexEncode | app/src/main/java/com/example/fyp_25_s4_23/util/PasswordHasher.kt:9-11 | the encoding has two characters per digest byte |
| PasswordHasher.Hash | app/src/main/java/com/example/fyp_25_s4_23/util/PasswordHasher.kt:6-12 | a SHA-256 digest is rendered as 64 lower-case hex characters |
| PasswordHasher.HexEncodeLowerHex | app/src/main/java/com/example/fyp_25_s4_23/util/PasswordHasher.kt:9-11 | every character of the encoding is a lower-case hex digit |
| PasswordHasher.DigitValue | app/src/main/java/com/example/fyp_25_s4_23/util/PasswordHasher.kt:10 | (reference inverse for the proofs, not app code) a character has a digit value exactly when it is a lower-case hex digit, and that value writes back to it |
| PasswordHasher.HexDecode | app/src/main/java/com/example/fyp_25_s4_23/util/PasswordHasher.kt:9-11 | (reference decoder for the proofs, not app code) a decodable string has two characters per decoded byte |
| PasswordHasher.UnsignedAll | app/src/main/java/com/example/fyp_25_s4_23/util/PasswordHasher.kt:10 | each byte is read as unsigned, position by position |
| PasswordHasher.HexDigitInjective | app/src/main/java/com/example/fyp_25_s4_23/util/PasswordHasher.kt:10 | different digit values give different characters |
| PasswordHasher.ByteHexDecodes | app/src/main/java/com/example/fyp_25_s4_23/util/PasswordHasher.kt:10 | the two characters of a byte decode to its high and low nibble |
| PasswordHasher.HexRoundTrip | app/src/main/java/com/example/fyp_25_s4_23/util/PasswordHasher.kt:9-11 | decoding the encoding of a digest gives its unsigned bytes back |
| PasswordHasher.HexEncodeInjective | app/src/main/java/com/example/fyp_25_s4_23/util/PasswordHasher.kt:9-11 | different digests give different hex strings, so the hex form loses nothing of the digest |
| UserRepository.RegisterError | app/src/main/java/com/example/fyp_25_s4_23/data/repositories/UserRepository.kt:31-37 | registration is refused exactly for a blank name, a password under 4 characters, a blank display name or a taken name, with the checks' messages in that order |
| UserRepository.LoginOutcome | app/src/main/java/com/example/fyp_25_s4_23/data/repositories/UserRepository.kt:50-57 | "User not found" for an unknown name, "Invalid credentials" for a mismatching hash, and success only when the stored hash matches |
| UserRepository.RegisterThenLogin | app/src/main/java/com/example/fyp_25_s4_23/data/repositories/UserRepository.kt:39-56 | an account just stored with hash(password) logs in with that password and returns the account |
| UserRepository.WrongPasswordRejected | app/src/main/java/com/example/fyp_25_s4_23/data/repositories/UserRepository.kt:52-55 | a password whose hash differs from the stored one is refused |
| UserRepository.UserRepository.constructor | app/src/main/java/com/example/fyp_25_s4_23/data/repositories/UserRepository.kt:10 | a new repository has an empty user table and will hand out id 1 first |
| UserRepository.UserRepository.EnsureDefaultAdmin | app/src/main/java/com/example/fyp_25_s4_23/data/repositories/UserRepository.kt:12-23 | an existing "admin" row is returned and nothing changes; otherwise one ADMIN row with hash("admin") is inserted under the next id and returned |
| UserRepository.UserRepository.Register | app/src/main/java/com/example/fyp_25_s4_23/data/repositories/UserRepository.kt:25-48 | a refused registration changes nothing; an accepted one inserts exactly one row holding hash(password), never the password, and returns the account with the new id |
| UserRepository.UserRepository.Login | app/src/main/java/com/example/fyp_25_s4_23/data/repositories/UserRepository.kt:50-57 | the result is the login outcome over the current table; a successful login returns the account of the name given |
| UserRepository.EnsureDefaultAdminTwice | app/src/main/java/com/example/fyp_25_s4_23/data/repositories/UserRepository.kt:12-14 | seeding the administrator twice returns the same account and leaves the table as the first call left it |
| InMemoryRepos.TrustedContactsRepo.constructor | app/src/main/java/com/example/fyp_25_s4_23/data/repositories/TrustedContactsRepo.kt:6 | the contact list starts empty and without duplicates |
| InMemoryRepos.TrustedContactsRepo.Add | app/src/main/java/com/example/fyp_25_s4_23/data/repositories/TrustedContactsRepo.kt:8-10 | a new contact is appended after the earlier ones, a stored contact changes nothing; no contact is ever listed twice and the number is trusted afterwards |
| InMemoryRepos.Without | app/src/main/java/com/example/fyp_25_s4_23/data/repositories/TrustedContactsRepo.kt:13 | the contacts kept by `removeAll` are exactly those with another number, none twice when none was twice before |
| InMemoryRepos.TrustedContactsRepo.Remove | app/src/main/java/com/example/fyp_25_s4_23/data/repositories/TrustedContactsRepo.kt:12-14 | the remaining contacts are the others in their order; the number is no longer trusted, and every other number keeps its status |
| InMemoryRepos.TrustedContactsRepo.GetAll | app/src/main/java/com/example/fyp_25_s4_23/data/repositories/TrustedContactsRepo.kt:20 | the list is the contacts in insertion order, each exactly once |
| InMemoryRepos.AddedContactListedLast | app/src/main/java/com/example/fyp_25_s4_23/data/repositories/TrustedContactsRepo.kt:6-20 | a contact added to a repository that does not hold it is listed last, after the earlier contacts in their order |
| InMemoryRepos.DetectionsRepo.constructor | app/src/main/java/com/example/fyp_25_s4_23/entity/data/repositories/DetectionsRepo.kt:9 | the repository starts empty |
| InMemoryRepos.DetectionsRepo.Add | app/src/main/java/com/example/fyp_25_s4_23/entity/data/repositories/DetectionsRepo.kt:10 | the result is appended after the earlier ones |
| InMemoryRepos.DetectionsRepo.All | app/src/main/java/com/example/fyp_25_s4_23/entity/data/repositories/DetectionsRepo.kt:11 | the snapshot is the stored list, in insertion order |
| SystemUptime.UptimeParts | app/src/main/java/com/example/fyp_25_s4_23/control/usecases/GetSystemUptime.kt:10-12 | minutes and seconds are below 60 and hours, minutes and seconds together make up the whole seconds of uptime |
| SystemUptime.FormatUptimeReadsBack | app/src/main/java/com/example/fyp_25_s4_23/control/usecases/GetSystemUptime.kt:7-15 | under 100 hours the text is exactly "hh:mm:ss" and its three fields read back as the whole seconds of uptime |
| DeviceCompatibility.Messages | app/src/main/java/com/example/fyp_25_s4_23/util/DeviceCompatibilityChecker.kt:44-63 | one message per finding, in order |
| DeviceCompatibility.CollectFindings | app/src/main/java/com/example/fyp_25_s4_23/util/DeviceCompatibilityChecker.kt:36-65 | the four checks, in turn, collect exactly the expected issues and warnings, in the source's order |
| DeviceCompatibility.CheckCompatibility | app/src/main/java/com/example/fyp_25_s4_23/util/DeviceCompatibilityChecker.kt:36-71 | the result lists the expected issue and warning messages, and the device is compatible exactly when there is no issue |
| DeviceCompatibility.CompatibleIffRequirementsMet | app/src/main/java/com/example/fyp_25_s4_23/util/DeviceCompatibilityChecker.kt:28-32 | there is no issue exactly when SDK ≥ 26, total RAM ≥ 2048 MB and free storage ≥ 1 GB; cores and recommendations never block |
| DeviceCompatibility.IssueOrWarningNotBoth | app/src/main/java/com/example/fyp_25_s4_23/util/DeviceCompatibilityChecker.kt:43-54 | an old SDK or too little RAM is an issue exactly below the minimum, and then never also a warning |
| DeviceCompatibility.BytesToMB | app/src/main/java/com/example/fyp_25_s4_23/util/DeviceCompatibilityChecker.kt:81-82 | the whole mebibytes: the largest count not exceeding the bytes |
| DeviceCompatibility.AvailableStorageGB | app/src/main/java/com/example/fyp_25_s4_23/util/DeviceCompatibilityChecker.kt:89-93 | when the `Long` product does not overflow, the whole gibibytes of free space |
| DeviceCompatibility.StorageProductWraps | app/src/main/java/com/example/fyp_25_s4_23/util/DeviceCompatibilityChecker.kt:91 | the block-count × block-size product can wrap: 2^63−1 blocks of 2 bytes report less than 1 GB free |
| SaveDetectionAlert.AlertPercentInRange | app/src/main/java/com/example/fyp_25_s4_23/control/usecases/SaveDetectionAlertUseCase.kt:14 | for a probability in [0, 1] the percentage in the message lies in 0..100 and is its whole part |
| SaveDetectionAlert.BuildAlert | app/src/main/java/com/example/fyp_25_s4_23/control/usecases/SaveDetectionAlertUseCase.kt:13-26 | the alert is CRITICAL, unacknowledged, with only NOTIFIED_USER taken, the clock time and the percentage message |
| SaveDetectionAlert.BuiltAlertStoresExactly | app/src/main/java/com/example/fyp_25_s4_23/control/usecases/SaveDetectionAlertUseCase.kt:13-27 | the alert is stored with actions "NOTIFIED_USER" and severity "CRITICAL", and reads back unchanged |
| SaveDetectionAlert.AlertRepository.constructor | app/src/main/java/com/example/fyp_25_s4_23/control/usecases/SaveDetectionAlertUseCase.kt:10 | the alert table starts empty |
| SaveDetectionAlert.AlertRepository.Upsert | app/src/main/java/com/example/fyp_25_s4_23/control/usecases/SaveDetectionAlertUseCase.kt:27 | the alert replaces any alert with its id, and nothing else changes |
| SaveDetectionAlert.SaveDetectionAlertUseCase.constructor | app/src/main/java/com/example/fyp_25_s4_23/control/usecases/SaveDetectionAlertUseCase.kt:9-11 | the use case holds the repository it is given |
| SaveDetectionAlert.SaveDetectionAlertUseCase.Invoke | app/src/main/java/com/example/fyp_25_s4_23/control/usecases/SaveDetectionAlertUseCase.kt:12-28 | exactly one alert, the built one, is upserted under the new id |
| SummaryUtils.CountStatus | app/src/main/java/com/example/fyp_25_s4_23/presentation/ui/dashboard/SummaryUtils.kt:55-58 | a status count never exceeds the number of records |
| SummaryUtils.CountSuspicious | app/src/main/java/com/example/fyp_25_s4_23/presentation/ui/dashboard/SummaryUtils.kt:57 | the suspicious count never exceeds the number of records |
| SummaryUtils.Confidences | app/src/main/java/com/example/fyp_25_s4_23/presentation/ui/dashboard/SummaryUtils.kt:61 | one confidence per suspicious record |
| SummaryUtils.WarnedSplitsSuspicious | app/src/main/java/com/example/fyp_25_s4_23/presentation/ui/dashboard/SummaryUtils.kt:57-59 | warned and suspicious-blocked calls split the suspicious ones, and suspicious-blocked calls are among the blocked |
| SummaryUtils.StatusCountsBounded | app/src/main/java/com/example/fyp_25_s4_23/presentation/ui/dashboard/SummaryUtils.kt:55-58 | answered + missed + blocked ≤ total |
| SummaryUtils.ConfidencesBounded | app/src/main/java/com/example/fyp_25_s4_23/presentation/ui/dashboard/SummaryUtils.kt:61 | with probabilities in [0, 1], the confidences sum to between 0 and their count |
| SummaryUtils.SumAppend | app/src/main/java/com/example/fyp_25_s4_23/presentation/ui/dashboard/SummaryUtils.kt:62 | the sum of a concatenation is the sum of the parts |
| SummaryUtils.MeanBounds | app/src/main/java/com/example/fyp_25_s4_23/presentation/ui/dashboard/SummaryUtils.kt:62 | the mean times the count is the total, and a total within [0, count] gives a mean within [0, 1] |
| SummaryUtils.MeanConfidence | app/src/main/java/com/example/fyp_25_s4_23/presentation/ui/dashboard/SummaryUtils.kt:61-62 | −1 with no suspicious call; otherwise the mean of the suspicious calls' probabilities, within [0, 1] for valid probabilities |
| SummaryUtils.SummarizeRecords | app/src/main/java/com/example/fyp_25_s4_23/presentation/ui/dashboard/SummaryUtils.kt:53-74 | total is the record count, answered + missed + blocked ≤ total, warned ≤ suspicious ≤ total, suspicious − blocked ≤ warned, and the average is −1 exactly when nothing is suspicious |
| SummaryUtils.Keys | app/src/main/java/com/example/fyp_25_s4_23/presentation/ui/dashboard/SummaryUtils.kt:24-26 | `groupBy` keys are distinct and every record's key is among them |
| SummaryUtils.Group | app/src/main/java/com/example/fyp_25_s4_23/presentation/ui/dashboard/SummaryUtils.kt:24-26 | a group never has more records than the list |
| SummaryUtils.GroupOfAbsentKey | app/src/main/java/com/example/fyp_25_s4_23/presentation/ui/dashboard/SummaryUtils.kt:24-26 | a key no record has groups no record |
| SummaryUtils.GroupTotalAddRecord | app/src/main/java/com/example/fyp_25_s4_23/presentation/ui/dashboard/SummaryUtils.kt:24-26 | adding a record adds one to the group total exactly when its key is listed |
| SummaryUtils.GroupsCoverRecords | app/src/main/java/com/example/fyp_25_s4_23/presentation/ui/dashboard/SummaryUtils.kt:24-26 | the groups together hold every record exactly once |
| SummaryUtils.Rows | app/src/main/java/com/example/fyp_25_s4_23/presentation/ui/dashboard/SummaryUtils.kt:28-30 | one row per key: the summary of that key's group under its label |
| SummaryUtils.SumTotalsAppend | app/src/main/java/com/example/fyp_25_s4_23/presentation/ui/dashboard/SummaryUtils.kt:28-30 | the call totals of concatenated rows add up |
| SummaryUtils.RowsTotal | app/src/main/java/com/example/fyp_25_s4_23/presentation/ui/dashboard/SummaryUtils.kt:28-30 | the rows' call totals add up to the group total |
| SummaryUtils.StringLeTotal | app/src/main/java/com/example/fyp_25_s4_23/presentation/ui/dashboard/SummaryUtils.kt:31 | string order compares any two labels |
| SummaryUtils.StringLeTransitive | app/src/main/java/com/example/fyp_25_s4_23/presentation/ui/dashboard/SummaryUtils.kt:31 | string order is transitive |
| SummaryUtils.Insert | app/src/main/java/com/example/fyp_25_s4_23/presentation/ui/dashboard/SummaryUtils.kt:31 | inserting adds exactly the one element |
| SummaryUtils.SortDescending | app/src/main/java/com/example/fyp_25_s4_23/presentation/ui/dashboard/SummaryUtils.kt:31 | `sortedByDescending` is a permutation of its input |
| SummaryUtils.InsertSorted | app/src/main/java/com/example/fyp_25_s4_23/presentation/ui/dashboard/SummaryUtils.kt:31 | inserting into a descending list keeps it descending |
| SummaryUtils.SortSorted | app/src/main/java/com/example/fyp_25_s4_23/presentation/ui/dashboard/SummaryUtils.kt:31 | the sorted list is descending for any total order |
| SummaryUtils.InsertTotal | app/src/main/java/com/example/fyp_25_s4_23/presentation/ui/dashboard/SummaryUtils.kt:31 | inserting a row adds its call total |
| SummaryUtils.SortTotal | app/src/main/java/com/example/fyp_25_s4_23/presentation/ui/dashboard/SummaryUtils.kt:31 | sorting keeps the call total |
| SummaryUtils.RowLabelOrder | app/src/main/java/com/example/fyp_25_s4_23/presentation/ui/dashboard/SummaryUtils.kt:31 | ordering rows by label is a total order |
| SummaryUtils.Metrics | app/src/main/java/com/example/fyp_25_s4_23/presentation/ui/dashboard/SummaryUtils.kt:28-31 | the list of summaries keeps the rows' order |
| SummaryUtils.BuildSummaryProperties | app/src/main/java/com/example/fyp_25_s4_23/presentation/ui/dashboard/SummaryUtils.kt:22-32 | one summary per distinct key, labels in descending order, and every record counted in exactly one summary |
| SummaryUtils.RowWeekOrder | app/src/main/java/com/example/fyp_25_s4_23/presentation/ui/dashboard/SummaryUtils.kt:38-43 | the chronological order of (year, week) keys is a total order |
| SummaryUtils.WeeklySummaryNewestFirst | app/src/main/java/com/example/fyp_25_s4_23/presentation/ui/dashboard/SummaryUtils.kt:34-51 | corrected: weekly rows newest week first, every record counted once |
| SummaryUtils.StringLeCommonPrefix | app/src/main/java/com/example/fyp_25_s4_23/presentation/ui/dashboard/SummaryUtils.kt:47-50 | a shared prefix does not change how two labels compare |
| SummaryUtils.Week10LabelBelowWeek9 | app/src/main/java/com/example/fyp_25_s4_23/presentation/ui/dashboard/SummaryUtils.kt:47-50 | as strings, "Week 10 of 2024" sorts below "Week 9 of 2024" |
| SummaryUtils.WeekLabelsMisordered | app/src/main/java/com/example/fyp_25_s4_23/presentation/ui/dashboard/SummaryUtils.kt:47-50 | as written, the label sort puts week 9 above week 10 of the same year, where chronological order puts week 10 first |
| CallAnalysisCard.AnalysisTimes | app/src/main/java/com/example/fyp_25_s4_23/boundary/dashboard/CallAnalysisCard.kt:136-146 | at most one analysis time per record |
| CallAnalysisCard.Probabilities | app/src/main/java/com/example/fyp_25_s4_23/boundary/dashboard/CallAnalysisCard.kt:162-164 | at most one probability per record |
| CallAnalysisCard.AverageOr | app/src/main/java/com/example/fyp_25_s4_23/boundary/dashboard/CallAnalysisCard.kt:148-152 | −1 for no data; otherwise the mean of the values |
| CallAnalysisCard.AverageAnalysisTime | app/src/main/java/com/example/fyp_25_s4_23/boundary/dashboard/CallAnalysisCard.kt:133-153 | −1 when no record has both an end and a detection; otherwise the mean of those records' detection-minus-start times |
| CallAnalysisCard.AverageProbability | app/src/main/java/com/example/fyp_25_s4_23/boundary/dashboard/CallAnalysisCard.kt:159-171 | −1 when no record has a detection; otherwise the mean of the last detections' probabilities |
| CallAnalysisCard.ProbabilitiesBounded | app/src/main/java/com/example/fyp_25_s4_23/boundary/dashboard/CallAnalysisCard.kt:162-167 | probabilities in [0, 1] sum to between 0 and their count |
| CallAnalysisCard.ProbabilitiesPresent | app/src/main/java/com/example/fyp_25_s4_23/boundary/dashboard/CallAnalysisCard.kt:162-164 | some probability is present exactly when some record has a detection |
| CallAnalysisCard.AnalysisTimeText | app/src/main/java/com/example/fyp_25_s4_23/boundary/dashboard/CallAnalysisCard.kt:55 | "N/A" is shown exactly when the average is negative |
| CallAnalysisCard.ProbabilityText | app/src/main/java/com/example/fyp_25_s4_23/boundary/dashboard/CallAnalysisCard.kt:73 | "N/A" is shown exactly when the average is negative |
| CallAnalysisCard.ProbabilityShownAsPercent | app/src/main/java/com/example/fyp_25_s4_23/boundary/dashboard/CallAnalysisCard.kt:73 | with a detection present and valid probabilities, a percentage in 0..100 is shown rather than "N/A" |
| CallAnalysisCard.FlaggedCount | app/src/main/java/com/example/fyp_25_s4_23/boundary/dashboard/CallAnalysisCard.kt:30-32 | flagged calls never outnumber the records nor the records with a detection |
| CallAnalysisCard.FlaggedWithinDetections | app/src/main/java/com/example/fyp_25_s4_23/boundary/dashboard/CallAnalysisCard.kt:30-32 | every flagged call has a detection |
| CallAnalysisCard.AlertHighlight | app/src/main/java/com/example/fyp_25_s4_23/boundary/dashboard/CallAnalysisCard.kt:84 | the flagged count is highlighted exactly when some record's last detection is a deepfake |
| AppMainViewModel.ToggleDecision | app/src/main/java/com/example/fyp_25_s4_23/control/viewmodel/AppMainViewModel.kt:350-373 | the flag is kept on exactly when enabling with permission; monitoring starts exactly then, stops exactly when disabling, and the permission warning is shown exactly when enabling without permission, with no controller call |
| AppMainViewModel.LoginDecision | app/src/main/java/com/example/fyp_25_s4_23/control/viewmodel/AppMainViewModel.kt:286-299 | after sign-in, monitoring starts exactly when detection is enabled and permission is granted; the permission prompt appears exactly when it is enabled, permission is missing and the user is not an admin; never both |
| AppMainViewModel.ModelTestProbability | app/src/main/java/com/example/fyp_25_s4_23/control/viewmodel/AppMainViewModel.kt:122-126 | the model's score when inference ran and produced one, 0 otherwise |
| AppMainViewModel.ModelTestDecision | app/src/main/java/com/example/fyp_25_s4_23/control/viewmodel/AppMainViewModel.kt:126-128 | deepfake exactly when the probability reaches the user's threshold; alert exactly for a saved deepfake; refresh exactly after a save; "Done" only when inference ran; the alert message exactly for a deepfake |
| AppMainViewModel.FailedRunNeverAlerts | app/src/main/java/com/example/fyp_25_s4_23/control/viewmodel/AppMainViewModel.kt:122-128 | a run whose inference failed scores 0, so under a positive threshold it raises no alert, shows no message and reports "Failed (see logcat)" |
| AppMainViewModel.UnsavedDeepfakeStillReported | app/src/main/java/com/example/fyp_25_s4_23/control/viewmodel/AppMainViewModel.kt:172-199 | a deepfake whose call record failed to save raises no alert and no refresh, yet the alert message is still shown |
| AppMainViewModel.TestPhoneNumberReadsBack | app/src/main/java/com/example/fyp_25_s4_23/control/viewmodel/AppMainViewModel.kt:133-136 | the random test number "+1 AAA PPP LLLL" is 15 characters whose space-separated fields read back as the three random parts |
| AppMainViewModel.TestCallRecord | app/src/main/java/com/example/fyp_25_s4_23/control/viewmodel/AppMainViewModel.kt:139-159 | the test call is a COMPLETED incoming call whose only detection is the test result, lasting 30 seconds for any ordinary clock reading |
| AppMainViewModel.ProfileToAccount | app/src/main/java/com/example/fyp_25_s4_23/control/viewmodel/AppMainViewModel.kt:263-269 | the account takes the profile's hashed id, names and creation time; with the corrected role mapper it is an admin exactly when the role reads "admin" ignoring case |
| AppMainViewModel.AdminPromptedAsWritten | app/src/main/java/com/example/fyp_25_s4_23/control/viewmodel/AppMainViewModel.kt:267-296 | with the role mapper as written an administrator without microphone permission is shown the permission prompt meant only for other users; the corrected mapper suppresses it |
| AppMainViewModel.AggregateToMetrics | app/src/main/java/com/example/fyp_25_s4_23/control/viewmodel/AppMainViewModel.kt:380-390 | every count is carried over; warned = max(suspicious − blocked, 0), so it lies in [0, suspicious] and is 0 exactly when blocked ≥ suspicious; a missing average becomes −1 |
| AppMainViewModel.AggregateWarnedIsLowerBound | app/src/main/java/com/example/fyp_25_s4_23/control/viewmodel/AppMainViewModel.kt:388 | on the same records the aggregate's warned figure never exceeds the per-record count of suspicious calls that were not blocked |
| AppMainViewModel.AggregateSummary | app/src/main/java/com/example/fyp_25_s4_23/control/viewmodel/AppMainViewModel.kt:377-392 | one summary per aggregate row, in order |
| AppMainViewModel.AppMainViewModel.constructor | app/src/main/java/com/example/fyp_25_s4_23/control/viewmodel/AppMainViewModel.kt:91 | the state starts as the default UI state (loading screen, no user, default settings) and nothing has been called or saved |
| AppMainViewModel.AppMainViewModel.Initialized | app/src/main/java/com/example/fyp_25_s4_23/control/viewmodel/AppMainViewModel.kt:96-101 | once the administrator is seeded the screen becomes Login; nothing else in the state changes and nothing is started, written, saved or displayed |
| AppMainViewModel.AppMainViewModel.RefreshDashboard | app/src/main/java/com/example/fyp_25_s4_23/control/viewmodel/AppMainViewModel.kt:340-347 | with no user nothing happens; otherwise the state turns busy and one reload is requested |
| AppMainViewModel.AppMainViewModel.DashboardLoaded | app/src/main/java/com/example/fyp_25_s4_23/control/viewmodel/AppMainViewModel.kt:343-346 | the loaded calls are installed, the user list only for an administrator, and the state is no longer busy; nothing is started, written, saved or displayed |
| AppMainViewModel.AppMainViewModel.SetRealTimeDetection | app/src/main/java/com/example/fyp_25_s4_23/control/viewmodel/AppMainViewModel.kt:350-373 | with no user nothing changes; otherwise the settings take the decided flag, the controller gets the decided call, the warning appears as decided, and the settings are written once for the user; the flag is never switched on without permission |
| AppMainViewModel.AppMainViewModel.Login | app/src/main/java/com/example/fyp_25_s4_23/control/viewmodel/AppMainViewModel.kt:246-306 | a failure shows its message and changes nothing else; a success installs the account (its role read by the corrected mapper) and settings on the dashboard, runs the monitoring gate and requests one reload |
| AppMainViewModel.AppMainViewModel.Register | app/src/main/java/com/example/fyp_25_s4_23/control/viewmodel/AppMainViewModel.kt:308-325 | success returns to Login with the registration message; failure shows the error; neither starts monitoring nor writes settings, calls or alerts |
| AppMainViewModel.AppMainViewModel.NavigateTo | app/src/main/java/com/example/fyp_25_s4_23/control/viewmodel/AppMainViewModel.kt:226-244 | the screen changes to the target and the message is cleared; nothing else in the state changes and nothing is started, written, saved or displayed |
| AppMainViewModel.AppMainViewModel.Logout | app/src/main/java/com/example/fyp_25_s4_23/control/viewmodel/AppMainViewModel.kt:327-338 | monitoring is stopped, settings go back to the defaults, the screen is Login with "Logged out" and the call list is emptied; no settings, calls or alerts are written |
| AppMainViewModel.AppMainViewModel.RunModelTest | app/src/main/java/com/example/fyp_25_s4_23/control/viewmodel/AppMainViewModel.kt:105-207 | the test call is saved exactly when the save succeeds; the alert is saved and displayed exactly for a saved deepfake; the dashboard reloads after a save; the final state shows the decided status, score and message and is not busy, and every other field of the state (user, settings, screen, user list, call list) is as before; monitoring and settings are untouched |

## Left out

- Platform audio decoding (MediaExtractor/MediaCodec), AudioRecord capture, notifications, vibration, toasts and telephony are Android I/O. What they deliver enters as parameters: decoded samples, a read count per frame, the permission state.
- The ONNX Runtime session, the FFT, `log10`, `sqrt`, `exp` and `cos` are foreign or floating-point calls. They are parameters carrying only range facts, so nothing about numeric accuracy is proved.
- Float rounding is not modelled: `Float` is an exact `real`. NaN and infinities are not modelled.
- The streaming probability in the capture loop is a hard-coded placeholder in the source. It is a per-frame input here.
- The second clock read that sets `lastAlertTime` is taken to be the frame's own time.
- Coroutine launches, dispatchers and StateFlow emission order are not modelled. Each view model and service action is one atomic step.
- `refreshDashboard` is split into the request (`RefreshDashboard`) and its completion (`DashboardLoaded`), whose loaded lists are parameters.
- The remote login (ApiClient, TokenStore, profile request) and the settings lookup enter `Login` as one outcome value.
- `RegisterUser` and `LogoutUser` enter as an error value and a signed-out account. These use cases are not part of this model.
- `hasRecordAudioPermission`, the clock, UUIDs and `random()` are parameters.
- AppMainViewModel.AppMainViewModel.RunModelTest: the `catch` path is not modelled. That path shows "Error: …" and status "Failed" when an exception escapes (AppMainViewModel.kt:208-222). Inference and save failures are modelled, since the source catches them itself.
- AppMainViewModel.AppMainViewModel.Login: uses the corrected role mapper `UserRoleMapper.MapUserRole` (through `ProfileToAccount`), so an "admin" profile signs in as ADMIN. As written (AppMainViewModel.kt:267), every profile signs in as REGISTERED. An administrator with detection on and no microphone permission therefore gets the permission prompt (AppMainViewModel.kt:291-293), and never gets the user list on the dashboard (AppMainViewModel.kt:344). `AppMainViewModel.AdminPromptedAsWritten` states the prompt difference.
- SHA-256 (FIPS 180-4) is not modelled. `PasswordHasher.Hash` is given the 32 digest bytes, and `UserRepository` takes the hash as a function parameter.
- `UserRepository.listUsers` is a plain DAO query. It appears only as the user list loaded into the dashboard.
- The Room DAOs and entities, the SQL aggregate queries behind `aggregateSummary`, and the repository wrappers are persistence. Only the rows they return are modelled (`AggregateResult`, the mapper row datatypes).
- The calendar functions that give a record's local date, week and week-based year are a key-function parameter of the summaries. The ISO date text of the daily labels is a parameter too.
- The bitmap drawn by `renderSpectrogram` is not modelled. Only its frame count and fill loop are.
- AudioTestProcessor.Analyze: the source imports `ml.AudioFeatureExtractor` (AudioTestProcessor.kt.kt:6), which is not part of this model. The model computes energy and zero-crossing rate with the `entity.ml` extractor instead. The placeholder classifier ignores its features, so the result does not depend on this choice.
- The torchaudio resampler and the mel/dB transforms are parameters in the training code, and so are the random gain and noise of augmentation.
- The file conversion in `split_asvspoof.py` is not performed. The conversions are returned in order, and the file system enters as an existence test.
- The enums CallDirection, AlertSeverity, AlertAction, UserRole and DetectionSessionStatus are not part of the source files modelled. Their constants are taken from their uses in the mappers, screens and use cases.
- Unicode whitespace and case folding are not modelled. `isBlank`, `strip` and `split` know only the whitespace characters below U+0080, and `lowercase` changes only the letters A–Z.
- UserRepository.RegisterError: strings are sequences of code points, not of UTF-16 units, so the model counts a password's length in code points where Kotlin's `password.length` (UserRepository.kt:32) counts UTF-16 units. A password of two emoji is accepted by the app and refused by the model.
- AudioDecoding.ResampleLinear: an output array too large for the heap is a failure only at exactly `Int.MAX_VALUE` floats. Smaller arrays that exceed the available memory are not modelled, since heap size is not modelled.
- Several mappers read fields under names the domain classes do not declare. Examples are `startTimeSeconds` against `startTimeMillis` in the entity call-record mappers, and `detectionThreshold` against the settings' threshold. The model reads the field that evidently carries the value.
- A 64 × 188 spectrogram is sometimes quoted for the 48 000-sample window. The code gives 1 + (48000 − 1024) / 256 = 184 frames, and the model follows the code.
- The duplicate `presentation/viewmodel/AppMainViewModel.kt` repeats the control view model's toggle and logout rules. It is not modelled separately.

## Findings

| source | as written | input that shows it | evidently intended | confidence | as-written member | corrected member |
|---|---|---|---|---|---|---|
| app/src/main/java/com/example/fyp_25_s4_23/entity/domain/entities/FeatureVector.kt:14-15 | the expected size `frameCount * featureDimension` is a 32-bit `Int` product, which wraps | frameCount = featureDimension = 65536 with an empty value array: the product wraps to 0, so the check passes | reject every array whose size is not the true product | high (not executed) | Domain.FeatureVectorWrapAccepted | Domain.MakeFeatureVectorExact |
| app/src/main/java/com/example/fyp_25_s4_23/util/UserRoleMapper.kt:6-8 | the lower-cased role is compared with the upper-case literals "ADMIN" and "REGISTERED", so every role maps to REGISTERED | "admin" or "ADMIN" from the profile maps to REGISTERED; an administrator without microphone permission then gets the prompt meant for other users (AppMainViewModel.kt:291) | compare with lower-case literals, so "admin" in any case maps to ADMIN | high (not executed) | UserRoleMapper.AsWrittenAlwaysRegistered | UserRoleMapper.MapUserRole |
| app/src/main/java/com/example/fyp_25_s4_23/presentation/ui/dashboard/SummaryUtils.kt:47-50 | weekly summaries are sorted by the label text "Week $week of $year" | weeks 9 and 10 of 2024: "Week 9 of 2024" sorts above "Week 10 of 2024", so week 9 is listed first | newest week first, as the daily list (ISO dates) is | high (not executed) | SummaryUtils.WeekLabelsMisordered | SummaryUtils.WeeklySummaryNewestFirst |
