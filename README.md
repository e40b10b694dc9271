# stem-splitter core, modelled in Dafny

stem-splitter-core separates a song into four stems: vocals, drums, bass and
other. This project models its core and proves properties of that model:

- **`split_file`** (`src/core/splitter.rs`). It validates the model manifest
  and the decoded audio, and converts the audio to planar stereo. It walks
  the song in windows of `window` frames, `hop` frames apart, and runs the
  separation engine on each window. The outputs are overlap-added with
  Hann² weights and normalised by the weight sum. The four stems are
  written as WAV files in the output directory, named after the input's
  file stem.
- **The Demucs window engine** (`src/core/engine.rs`). It checks the
  window length, builds the time and spectrogram inputs, picks the
  session's `output` and `add_67` outputs, checks their shapes, and adds
  the time branch to the iSTFT of the frequency branch. It also covers the
  identity mock used when the `engine-mock` feature is on.
- **`to_planar_stereo` and `hann2`** (`src/core/dsp.rs`).
- **`resolve_manifest_url`** (`src/registry.rs`): looks up a model name in
  the embedded registry table.
- **The two `ensure_model` versions**:
  - `src/model/model_manager.rs` checks the primary artifact's checksum and
    its size;
  - the older `src/model_manager.rs` names every cache file `.onnx`.

  Both share the download/verify step over a model cache directory.
- **`verify_sha256`** (`src/io/crypto.rs`): the chunked read loop and the
  case-insensitive hex comparison.
- **`SplitConfig`'s default and builder methods** (`src/types.rs`).
- **`demucs_runner.py`**: the Python script that runs Demucs directly and
  saves four stems.

Modules, one per file:

| file | module | models |
|---|---|---|
| `errors.dfy` | `Errors` | the `Result` of the source and its panics |
| `arith.dfy` | `Arith` | recursive multiplication for index arithmetic |
| `text.dfy` | `Text` | ASCII case, hex encoding, path joining and file names |
| `types.dfy` | `Types` | the records and the `SplitConfig` builder |
| `dsp.dfy` | `Dsp` | the DSP helpers |
| `schedule.dfy` | `Schedule` | the window start positions |
| `engine.dfy` | `Engine` | the window engine |
| `splitter.dfy` | `Splitter` | `split_file` |
| `registry.dfy` | `ModelRegistry` | the registry lookup |
| `crypto.dfy` | `Crypto` | checksum verification |
| `cache.dfy` | `Cache` | the model cache directory and its download/verify step |
| `model_manager.dfy` | `ModelManager` | the current model manager |
| `legacy_model_manager.dfy` | `LegacyModelManager` | the older model manager |
| `runner.dfy` | `Runner` | the Python runner |

How the model represents the source:

- **Outcomes.** A call that returns `Result` or panics yields an
  `Outcome`:
  - `Ok(value)`;
  - `Err(error)`, one of the `StemError` kinds;
  - `Panic(message)`, for an `expect` that fails or an index out of
    bounds.
- **`?`.** It becomes `Propagate`, which passes an error or panic on
  unchanged.
- **Samples.** Audio samples are `real`.
- **State updated in place.** This becomes classes and arrays:
  - the overlap-add accumulators are `array2<real>`, the weight sum
    `array<real>`;
  - a file reader and a hasher are classes with a cursor and a buffer;
  - the model cache directory and the runner's disk are classes holding
    maps from paths to contents.
- **Parameters.** Everything behind I/O or a library becomes a parameter.
  That covers:
  - the ONNX session;
  - the STFT and iSTFT;
  - SHA-256;
  - the HTTP transfers;
  - the registry JSON;
  - the decoded audio;
  - the cache directory lookup;
  - the Hann² sample values;
  - the PyTorch model.

## Model

| member | source | states |
|---|---|---|
| Errors.Propagate | src/core/splitter.rs:20-29 | `?` on a failure passes the same error or the same panic to the caller |
| Types.DefaultConfig | src/types.rs:22-28 | the default configuration uses model "demucs" and output directory "." |
| Types.WithModel | src/types.rs:32-35 | `model` sets the model name and leaves the output directory as it was |
| Types.WithOutputDir | src/types.rs:37-40 | `output_dir` sets the output directory and leaves the model name as it was |
| Types.BuilderCallsCommute | src/types.rs:32-40 | the two builder calls give the same configuration in either order |
| Types.LastModelWins | src/types.rs:32-35 | of two `model` calls, only the second has an effect |
| Types.LastOutputDirWins | src/types.rs:37-40 | of two `output_dir` calls, only the second has an effect |
| Types.BothFieldsDetermineConfig | src/types.rs:22-40 | after both builder calls, the configuration is exactly the given name and directory, whatever it started from |
| Dsp.Duplicated | src/core/dsp.rs:2-3 | mono input gives one frame per sample, with the sample on both channels |
| Dsp.PairsAt | src/core/dsp.rs:4-12 | non-mono input gives ⌊len/2⌋ frames, and frame i is (x[2i], x[2i+1]) |
| Dsp.ToPlanarStereo | src/core/dsp.rs:1-13 | the loop's output: for 1 channel every sample doubled, otherwise consecutive pairs with a trailing odd sample dropped; equal to the `Planar` specification |
| Dsp.NonMonoCountsAgree | src/core/dsp.rs:4-12 | every channel count other than 1 is read as 2 (interleaved pairs), so 2, 6 or 0 channels give the same frames |
| Dsp.TrailingOddSampleDropped | src/core/dsp.rs:7-10 | a final unpaired sample adds no frame |
| Dsp.PairsAppend | src/core/dsp.rs:7-10 | appending one more pair of samples appends exactly one frame |
| Dsp.Hann2 | src/core/dsp.rs:15-22 | the weight vector has exactly n entries |
| Schedule.StartsFrom | src/core/splitter.rs:58-110 | the window walk from p visits at least one position, starting at p |
| Schedule.StartsFromOffsets | src/core/splitter.rs:106-109 | the k-th window of a walk from p starts at p + k·hop |
| Schedule.StartsFromStop | src/core/splitter.rs:60-109 | every window starts before n; every window but the last has its successor before n; the last window's successor would not be before n (`pos + hop >= n` breaks) |
| Schedule.StartsFromNext | src/core/splitter.rs:106-109 | another window follows exactly when the current start plus hop is below n, and it starts hop later |
| Schedule.StartsAreMultiples | src/core/splitter.rs:58-110 | the windows of `split_file` start at 0, hop, 2·hop, … all below n, and the walk stops at the first start whose successor reaches n |
| Schedule.StartsFromCount | src/core/splitter.rs:58-110 | a walk from p of c windows satisfies (c−1)·hop < n−p ≤ c·hop |
| Schedule.CeilingDivision | src/core/splitter.rs:58-110 | that bound pins c to ⌈(n−p)/hop⌉ |
| Schedule.WindowCount | src/core/splitter.rs:58-110 | `split_file` runs the engine ⌈n/hop⌉ times |
| Schedule.StartsFromCover | src/core/splitter.rs:58-110 | with hop ≤ window, every frame from p to n−1 lies in some window of the walk |
| Schedule.WindowsCoverFrames | src/core/splitter.rs:40-110 | with 0 < hop ≤ window, every frame of the song lies in some window, so every frame receives engine output |
| Engine.FlatTwoChannels | src/core/engine.rs:187 | the row-major offset of (s, c, i) in an [S, 2, T] array is s·2·T + c·T + i |
| Engine.FlatBelow | src/core/engine.rs:187 | every in-bounds index of a [d0, d1, d2] array has a flat offset below d0·d1·d2 |
| Engine.SourceOffset | src/core/engine.rs:174 | the time-branch offset of source s, `s * 2 * t`, is the product s·(2·t) |
| Engine.StftDimsOfDemucsWindow | src/core/engine.rs:80-90 | a window of `DEMUCS_T` samples gives exactly `DEMUCS_F` bins and `DEMUCS_FRAMES` frames, so the dimension check cannot fail |
| Engine.TimeInput | src/core/engine.rs:73-77 | the time input has shape [1, 2, T] and holds the left samples followed by the right samples |
| Engine.LastNamed | src/core/engine.rs:120-129 | the value kept for an output name is that of its last occurrence, and none exactly when the name never occurs |
| Engine.LastNamedSkipsLast | src/core/engine.rs:123-129 | an output of another name at the end leaves the kept value as it was |
| Engine.MatchPrefix | src/core/engine.rs:144-149 | the shape check passes exactly when the shape starts with the expected dimensions; it indexes out of bounds only on a shorter shape |
| Engine.PushSource | src/core/engine.rs:173-184 | one source appends 2·T samples: for each i, left time plus left iSTFT, then right time plus right iSTFT; the earlier result is kept |
| Engine.CombineSources | src/core/engine.rs:160-188 | the combination succeeds exactly when both buffers hold every source's block, else it panics on a slice; on success the result has S·2·T samples, each the time sample plus the iSTFT sample |
| Engine.WellFormedSizes | src/core/engine.rs:137-167 | outputs of the documented shapes hold exactly S·2·T and S·4·F·Frames values |
| Engine.PickOutputs | src/core/engine.rs:120-129 | the loop keeps the last `output` as the frequency output and the last `add_67` as the time output |
| Engine.CombineOutputs | src/core/engine.rs:131-188 | a missing `output` or `add_67` is its own error; a freq shape not matching [1, S, 4, F, Frames] is the shape error; success combines the two; well-formed outputs always succeed |
| Engine.RunWindowDemucs | src/core/engine.rs:64-189 | unequal channel lengths and a window length other than `DEMUCS_T` are errors, in that order; success means both model inputs exist and the session ran, and the result combines its last `add_67` and `output`; well-formed outputs always give success |
| Engine.MockFilledStep | src/core/engine.rs:210-216 | filling source s's two rows extends the filled prefix from s sources to s+1 |
| Engine.CopyRows | src/core/engine.rs:211-215 | one source's rows are the left input then the right input, and the earlier sources are untouched |
| Engine.MockRunWindowDemucs | src/core/engine.rs:206-218 | the mock always succeeds with 4 sources × 2 channels × min(len L, len R) samples, and every source is the input itself |
| Splitter.AccOverSnoc | src/core/splitter.rs:83-104 | one more window adds its contribution to every accumulator cell and its squared weight to every weight-sum cell |
| Splitter.ChunkLeft | src/core/splitter.rs:61-71 | the left chunk has `win` samples: the song's left channel from pos on, and 0.0 past the song's end |
| Splitter.ChunkRight | src/core/splitter.rs:61-71 | the right chunk has `win` samples: the song's right channel from pos on, and 0.0 past the song's end |
| Splitter.AccOver | src/core/splitter.rs:83-96 | a frame that no window covers accumulates nothing |
| Splitter.WeightOver | src/core/splitter.rs:97-104 | the weight sum of a frame is never negative, and is 0 for a frame no window covers |
| Splitter.Scan | src/core/splitter.rs:58-110 | the walk over the window starts succeeds exactly when no window's engine call fails or panics |
| Splitter.ScanStopsAtFirstFailure | src/core/splitter.rs:58-110 | a walk that does not succeed returns the failure of the first failing window, every earlier window having succeeded (`?` at line 74) |
| Splitter.FillChunk | src/core/splitter.rs:61-71 | the chunk buffers hold the song's frames from pos on, zero-padded past the end |
| Splitter.RunWindow | src/core/splitter.rs:61-74 | the engine is called on exactly that padded window |
| Splitter.AccumulateWindow | src/core/splitter.rs:84-96 | overlap-add of one window: each stem's cell gains output·weight for in-window frames below t_out and is unchanged elsewhere; it panics exactly when the output has too few stems or channels |
| Splitter.AddWeights | src/core/splitter.rs:97-104 | each frame in the window gains its squared Hann² weight, the others nothing |
| Splitter.Normalise | src/core/splitter.rs:112-118 | the first n frames of every stem are divided by max(weight sum, 1e-8), the rest unchanged |
| Splitter.StemNames | src/core/splitter.rs:120-129 | the manifest's stem names, or vocals, drums, bass, other when it lists none |
| Splitter.LastMatch | src/core/splitter.rs:130-133 | the index kept for a lower-cased name is its last occurrence, and none when no name lowers to it |
| Splitter.GetIdx | src/core/splitter.rs:153-158 | a name in the index gives its stored index; any other gives the fallback when below the stem count, stems−1 when not, and 0 with no stems |
| Splitter.BuildNameIndex | src/core/splitter.rs:130-133 | the map has exactly the lower-cased names as keys, each mapped to the last index that lowers to it |
| Splitter.StemIndex | src/core/splitter.rs:153-158 | a known name gives the last index whose name lower-cases to it; an unknown name gives the fallback when it is below the stem count, otherwise stems−1, and 0 when there are no stems (min(fallback, stems.saturating_sub(1))) |
| Splitter.GetIdxIsStemIndex | src/core/splitter.rs:153-158 | the map lookup agrees with the specification: a known name gives an index whose name lowers to it, an unknown one the clamped fallback |
| Splitter.DefaultNamesResolveInOrder | src/core/splitter.rs:120-129 | with the default names, vocals, drums, bass and other resolve to stems 0, 1, 2, 3 |
| Splitter.StemIndexInRange | src/core/splitter.rs:153-163 | when the names are no more than the stems, every label resolves to an existing stem |
| Splitter.StemToWav | src/core/splitter.rs:137-151 | the stem becomes interleaved 2-channel audio at the model rate with 2n samples, L then R for each frame; an absent stem panics |
| Splitter.SuffixedPathsDistinct | src/core/splitter.rs:171-174 | the four `_stem.wav` names of one base are pairwise different and extend the base |
| Splitter.OutputBase | src/core/splitter.rs:165-169 | the base ends with the input's file stem (or `output`), is that name alone for an empty output directory, and otherwise starts with the directory |
| Splitter.OutputPaths | src/core/splitter.rs:171-174 | the four output paths are the base followed by `_vocals.wav`, `_drums.wav`, `_bass.wav` and `_other.wav` |
| Splitter.OutputPathsDistinct | src/core/splitter.rs:165-174 | the four output paths are pairwise different, and each of the four starts with the output directory when that is not empty |
| Splitter.OutputFallbackName | src/core/splitter.rs:165-174 | for any output directory, an input without a file stem gets the base `output` joined onto the directory, and the four paths are that base plus `_vocals.wav`, `_drums.wav`, `_bass.wav`, `_other.wav`; with an empty directory the vocals file is `output_vocals.wav` |
| Splitter.InterleavedIsStem | src/core/splitter.rs:137-147 | audio interleaving the normalised values of a stem is that stem's output |
| Splitter.AddWindow | src/core/splitter.rs:83-104 | one window's overlap-add keeps the accumulators equal to the specification over one more window, unless it panics |
| Splitter.NewAccumulators | src/core/splitter.rs:77-81 | the first window allocates zeroed accumulators for every stem of its output |
| Splitter.ScanAt | src/core/splitter.rs:58-110 | the walk from window k ends at k when that window fails or panics, and otherwise continues from k+1 |
| Splitter.WalkStep | src/core/splitter.rs:61-104 | one loop iteration: it stops with the engine's failure or the indexing panic, or it adds the window, allocating on the first pass |
| Splitter.OverlapAdd | src/core/splitter.rs:46-110 | the loop ends as the specification walk over all window starts does, and on success the accumulators and weight sum are the overlap-add over every window |
| Splitter.FourFiles | src/core/splitter.rs:160-181 | four stem files written under the four output paths satisfy the result's specification |
| Splitter.StemFile | src/core/splitter.rs:137-151 | a stem file holds the normalised overlap-add of its stem; an absent stem panics |
| Splitter.NormaliseStems | src/core/splitter.rs:112-118 | after normalisation every stem frame equals the accumulated sum divided by max(weight sum, 1e-8) |
| Splitter.ResolveLabels | src/core/splitter.rs:160-163 | the four labels resolve to the stems the index specification names |
| Splitter.WriteStems | src/core/splitter.rs:112-181 | it succeeds exactly when all four labels name existing stems, else it panics and writes nothing; on success the four output paths hold the four stems' normalised audio |
| Splitter.SplitFile | src/core/splitter.rs:19-182 | the errors in source order: model, sample rate ≠ 44100, audio, empty audio, bad window/hop; then the walk's engine error or panic; success exactly when every label has a stem, and then the four files hold the normalised overlap-add of the right stems |
| ModelRegistry.Target | src/registry.rs:20-24 | an empty name looks up the registry's default, any other name itself |
| ModelRegistry.FindManifest | src/registry.rs:26-29 | a manifest found belongs to an entry of the table whose name is exactly the target |
| ModelRegistry.ResolveManifestUrl | src/registry.rs:18-31 | a parse error is returned as is; with a table, the result is a URL or the `Registry` error naming the target |
| ModelRegistry.FindManifestIsFirstMatch | src/registry.rs:26-30 | the lookup yields the manifest of the first entry with exactly the target's name, and nothing exactly when no entry has it |
| ModelRegistry.ResolvesToFirstMatch | src/registry.rs:18-31 | the first entry with the target's name decides the URL |
| ModelRegistry.ResolvedComesFromFirstMatch | src/registry.rs:18-31 | every URL returned is the manifest of the first entry with the target's name |
| ModelRegistry.UnknownNameIsRegistryError | src/registry.rs:26-30 | a name no entry has exactly, including one differing only in case, gives the `not found in registry` error |
| ModelRegistry.EmptyNameIsDefault | src/registry.rs:20-24 | an empty name resolves exactly as the default model's name |
| Text.LowerChar | src/io/crypto.rs:17 | ASCII lower-casing of one character: A–Z shift by 32, others are kept |
| Text.UpperChar | src/io/crypto.rs:17 | ASCII upper-casing of one character: a–z shift by 32, others are kept |
| Text.EqIgnoreAsciiCase | src/io/crypto.rs:17 | equal texts compare equal, and texts that compare equal have the same length |
| Text.Lower | src/core/splitter.rs:132 | lower-casing keeps the length and lowers each character |
| Text.Upper | src/io/crypto.rs:17 | upper-casing keeps the length and uppers each character |
| Text.EqIgnoreAsciiCaseIsLowerEquality | src/io/crypto.rs:17 | two texts are equal ignoring ASCII case exactly when their lower-cased forms are equal |
| Text.HexDigit | src/io/crypto.rs:16 | a nibble is written as a lower-case hex digit |
| Text.HexEncode | src/io/crypto.rs:16 | the digest's hex has two lower-case hex digits per byte |
| Text.LowerOfLowerHex | src/io/crypto.rs:16-17 | lower-casing leaves lower-case hex unchanged |
| Text.HexMatchIffLoweredEqual | src/io/crypto.rs:16-17 | the digest matches the expected text exactly when the lower-cased expected text equals the digest's hex |
| Text.UppercaseDigestMatches | src/io/crypto.rs:16-17 | an upper-case rendering of the digest matches |
| Text.WrongLengthNeverMatches | src/io/crypto.rs:16-17 | an expected text of the wrong length never matches |
| Text.NonHexNeverMatches | src/io/crypto.rs:16-17 | an expected text with a non-hex character never matches |
| Text.Join | src/model/model_manager.rs:44 | joining onto an empty directory gives the name; otherwise the path starts with the directory and ends with the name, with one separator added when the directory lacks one |
| Text.LastIndexOf | src/model/model_manager.rs:37-42 | the position of the last occurrence of the character, or none when it does not occur |
| Text.TrimTrailingSlashes | src/core/splitter.rs:165-166 | the path without its trailing separators, as a prefix of it |
| Text.TrimCurDirs | src/core/splitter.rs:165-166 | the path without trailing separators and trailing `/.` components, as a prefix of it that ends in neither |
| Text.CurDirIgnored | src/core/splitter.rs:165-166 | a trailing `/.` does not change the final component, as `Path::file_name` normalises it away |
| Text.FileName | src/core/splitter.rs:165-166 | a final component is non-empty, has no separator, and is neither `.` nor `..` |
| Text.FileStem | src/core/splitter.rs:165-168 | a file stem is non-empty and has no separator, and exists exactly when the path has a final component |
| Text.ConcatSplits | src/model/model_manager.rs:43 | equal formatted names with equal-length middle parts have equal middles and equal tails |
| Text.JoinInjective | src/model/model_manager.rs:44 | joining different names onto one directory gives different paths |
| Crypto.ReadLimit | src/io/crypto.rs:9-15 | reads stop at the end of the data or at the read fault, never past the data |
| Crypto.Reader.Read | src/io/crypto.rs:10 | a read copies the next min(buffer, remaining) bytes and advances the cursor by that; 0 only at the end or for an empty buffer; an error exactly at a faulty end |
| Crypto.Hasher.Update | src/io/crypto.rs:14 | the hasher has been fed the earlier bytes followed by the chunk |
| Crypto.Hasher.Finalize | src/io/crypto.rs:16 | the digest is SHA-256 of every byte fed so far, in order |
| Crypto.Verdict | src/io/crypto.rs:5-18 | a missing file is an error and it never panics; true exactly when the file reads fully and its digest's hex equals the expected text ignoring ASCII case |
| Crypto.VerifySha256 | src/io/crypto.rs:5-18 | the chunked read loop feeds every byte once, in order, and returns the specification's verdict |
| Crypto.UppercaseExpectedMatches | src/io/crypto.rs:16-17 | an expected checksum written in upper case verifies |
| Crypto.MalformedExpectedIsFalse | src/io/crypto.rs:16-17 | an expected checksum of the wrong length or with a non-hex character gives false, not an error |
| Cache.CacheDir.Download | src/io/net.rs:19-51 | a failed transfer leaves the directory unchanged and passes the error on; after a transfer the old destination is removed, so a failed rename returns its I/O error with no file left at the destination; otherwise the fetched bytes are at the destination, with the given read-back fault |
| Cache.SyncArtifact | src/model/model_manager.rs:46-64 | it downloads exactly when the cached file does not verify. Without a download it succeeds and changes nothing. A failed transfer passes its error on and changes nothing; a failed rename passes its error on and leaves no cached file. After a download, a read error of the re-check is returned as the I/O error, a checksum mismatch is the `Checksum` error naming the path, and the size warning fires exactly on success with a declared size different from the bytes |
| Cache.SuccessLeavesVerifiedFile | src/model/model_manager.rs:46-53 | after a successful step the cached file verifies |
| Cache.SecondStepHitsCache | src/model/model_manager.rs:46-47 | a second step after a successful one downloads nothing, succeeds, changes nothing and warns about nothing |
| ModelManager.ManifestUrl | src/model/model_manager.rs:20-22 | the override wins; otherwise the registry's URL, or a panic when the lookup fails, never an error |
| ModelManager.Ext | src/model/model_manager.rs:37-42 | the extension is `.` plus the text after the last `.` of the file name (the whole name when there is none), and is a suffix of it |
| ModelManager.CacheFileName | src/model/model_manager.rs:43 | the file name panics exactly on a checksum shorter than 8 characters, and otherwise is name, `-`, 8 characters and the extension long |
| ModelManager.CacheFileNameDetermines | src/model/model_manager.rs:43 | for one model name, two cache file names are equal exactly when the checksums' first 8 characters and the extensions are |
| ModelManager.Prepare | src/model/model_manager.rs:19-44 | a URL panic is a panic; a failed manifest fetch is passed on; an unresolvable primary artifact is the `Manifest` error with its reason; after that a cache-directory failure is passed on and a checksum shorter than 8 characters panics; success means the manifest was fetched from the URL and the path is the cache directory joined with the cache file name |
| ModelManager.EnsureModel | src/model/model_manager.rs:19-71 | a failure before the cache check is passed on, with the cache unchanged; otherwise one cache step with the artifact's URL, checksum and declared size, and success returns the manifest and the local path |
| ModelManager.SizeToCheck | src/model/model_manager.rs:54 | the size is checked exactly when the manifest declares a positive one |
| LegacyModelManager.ManifestUrl | src/model_manager.rs:33-37 | the override wins; otherwise the registry lookup, whose failure is returned as an error; with a parsed table it never panics |
| LegacyModelManager.CacheFileName | src/model_manager.rs:48 | the file name panics exactly on a checksum shorter than 8 characters, and otherwise has name length + 14 characters and ends in `.onnx` |
| LegacyModelManager.CacheFileNameDetermines | src/model_manager.rs:48 | for one model name, two cache file names are equal exactly when the checksums' first 8 characters are |
| LegacyModelManager.Prepare | src/model_manager.rs:32-49 | a URL failure is passed on; a failed manifest fetch is passed on; a cache-directory failure is passed on; a checksum shorter than 8 characters panics; success means the manifest was fetched from the URL and the path is the cache directory joined with the `.onnx` cache file name |
| LegacyModelManager.EnsureModel | src/model_manager.rs:32-69 | a failure before the cache check is passed on, with the cache unchanged; otherwise one cache step with the manifest's URL and checksum and no size check, and success returns the manifest and the local path |
| Runner.DirsOf | demucs_runner.py:15-16 | creating the output directory with its parents makes the directory itself exist |
| Runner.Disk.MakeDirs | demucs_runner.py:16 | the output directory and its ancestors are added, and the files are untouched |
| Runner.Disk.Save | demucs_runner.py:43 | a save that completes writes the waveform at the given rate to the path; one that raises before writing changes nothing; one that raises part-way leaves an incomplete file at the path |
| Runner.StemPath | demucs_runner.py:41 | a stem file is `name.wav` inside the output directory: the name alone for an empty directory, one `/` added when the directory lacks it, and always starting with the directory |
| Runner.StemPathsDistinct | demucs_runner.py:39-41 | the four stem files are different paths |
| Runner.SavedUpToElsewhere | demucs_runner.py:39-46 | paths other than the stem files are untouched by the save loop |
| Runner.SavedUpToAt | demucs_runner.py:39-46 | after the loop, a stem whose save completed holds its source at 44100 Hz; one whose save raised part-way holds an incomplete file; one whose save raised before writing, or whose source is missing, holds what was there before |
| Runner.Run | demucs_runner.py:15-48 | exit status 1 exactly when loading fails, the rate is not 44100, the model does not load, or inference fails, and then no file changes; otherwise status 0, with each stem saved unless its own save raises (then as that save leaves it) |

## Left out

- Floating point. Samples and weights are exact reals, with no f32
  rounding, NaN or infinity. The `1e-8` floor of the weight sum is the
  only constant the model uses.
- Dsp.Hann2: the sine formula is not modelled. The weights are a
  parameter and only the vector's length is stated, because `sin` over
  f32 has no exact counterpart here.
- The STFT and iSTFT (`stft_cac_stereo_centered`, `istft_cac_stereo`) are
  parameters of the engine; only their dimensions are modelled.
- The ONNX Runtime session is a parameter. Left out with it are session
  creation, `engine::preload`, the `OnceCell`/`Mutex` statics and the
  panics when they are missing or poisoned.
- Tensor value types other than f32 are modelled only as "not f32"; the
  extraction error text is not modelled.
- `ensure_model`, `engine::preload` and `engine::manifest` in
  `split_file` are one `model` parameter holding the manifest or the
  failure.
- `read_audio` and `write_audio` are not modelled: decoded audio is a
  parameter and WAV encoding is left out. A written stem is the
  `AudioData` record.
- The failures of `tempdir`, `create_dir_all`, `write_audio` and
  `fs::copy` in `split_file` are left out. Each stem is written once,
  straight to its output path, so the temporary copy is not modelled.
- HTTP is a `fetch` parameter from URL to bytes or error. Left out with it
  are the client, status codes, JSON decoding of the manifest (a
  `fetchManifest` parameter) and download progress events.
- Cache.CacheDir.Download: the `.part` temporary file is not modelled, so
  a failed transfer or rename that leaves a `.part` file behind is not
  represented. A failing `remove_file` (whose error the source ignores) is
  not modelled: the old destination is always removed before the rename.
- Cache.SyncArtifact: a failing `fs::metadata` in the size check is not
  modelled. The size compared is always the length of the downloaded
  bytes.
- SHA-256 is a `sha` parameter from bytes to digest; `hex::encode` is
  modelled.
- `models_cache_dir` and the cache directory's `create_dir_all` are one
  `cacheDir` parameter.
- The contents of `models/registry.json` are not part of this model; the
  parsed table is a parameter.
- `resolve_primary_artifact` is not part of this model. Its outcome is the
  `primary` field of the manifest record.
- Text.Lower: `to_lowercase` is modelled on ASCII letters only. Full
  Unicode lower-casing is left out.
- ModelManager.CacheFileName: only the length of the name is stated;
  which text it is, is given by CacheFileNameDetermines. The `sha256[..8]`
  slice is taken on characters, so a checksum whose eighth byte falls
  inside a multi-byte character (another panic in the source) is not
  modelled.
- LegacyModelManager.CacheFileName: slices the same way, with the same
  gap.
- Path semantics are reduced to `/` separators:
  - no Windows paths;
  - no absolute path replacing the base in `Path::join`;
  - no `to_string_lossy` replacement of invalid UTF-8.
- Integer widths (`u16` channels, `u32` rates, `usize`, `u64` sizes) are
  unbounded naturals. None of the modelled arithmetic is near those
  limits.
- The command-line front end, console messages, `eprintln!` warnings
  (the size warning is a boolean) and progress reporting are not
  modelled.
- The legacy manifest's fields other than `name`, `url` and `sha256` are
  carried but never read, as in the source.
- Runner: the following are not modelled:
  - the argument parsing;
  - `Path.resolve()` and symbolic links;
  - a failing `mkdir`;
  - the printed messages.

  `torchaudio.load`, the model download and `apply_model` are parameters.
- Runner.Disk.Save: what an incomplete file holds is not modelled. Every
  file a save leaves behind after raising part-way is the one value
  `Partial`, whatever bytes reached the disk.
- Runner.Run: the source's final line always prints success, even when
  some save failed. The exit status is 0 in that case too, and the model
  states that status without modelling the message.
- Splitter.SplitFile: the Hann weight values are a parameter. A window
  length of 1 gives `hann2(1)` a 0/0 in the source, which real arithmetic
  does not capture.
