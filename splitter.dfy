/**
 * `split_file`: validate the manifest and the audio, walk the frame buffer
 * in windows of `win` frames advancing by `hop`, run the engine on each
 * zero-padded window, overlap-add the stems with Hann² weights, normalise
 * by the summed weights and write four stereo stems.
 *
 * The sample arithmetic is kept as real arithmetic over abstract Hann
 * weights; what the model pins down is the index structure: which window
 * contributes which output sample to which stem and frame.
 */
module Splitter {
  import opened Errors
  import opened Arith
  import opened Types
  import opened Text
  import opened Dsp
  import opened Engine
  import opened Schedule

  const ExpectedRate: nat := 44100
  const WrongRate: string := "Currently expecting 44.1k model"
  const EmptyAudio: string := "Empty audio"
  const BadWinHop: string := "Bad win/hop in manifest"
  /** The floor of the normalisation divisor, 1e-8. */
  const Floor: real := 0.00000001
  /** Stem names used when the manifest lists none. */
  const DefaultNames: seq<string> := ["vocals", "drums", "bass", "other"]

  /** `engine::run_window_demucs` as seen by the splitter. */
  type WindowEngine = (seq<real>, seq<real>) -> Outcome<Array3>

  // ---------------------------------------------------------------------
  // Windows

  /** The left channel of the window at pos: the song's frames, zero
      past its end. */
  function ChunkLeft(stereo: seq<Frame<real>>, pos: nat, win: nat): (r: seq<real>)
    ensures |r| == win
    ensures forall i | 0 <= i < win && pos + i < |stereo| :: r[i] == stereo[pos + i].left
    ensures forall i | 0 <= i < win && pos + i >= |stereo| :: r[i] == 0.0
  {
    seq(win, i requires 0 <= i < win => if pos + i < |stereo| then stereo[pos + i].left else 0.0)
  }

  /** The right channel of the window at pos, zero-padded the same way. */
  function ChunkRight(stereo: seq<Frame<real>>, pos: nat, win: nat): (r: seq<real>)
    ensures |r| == win
    ensures forall i | 0 <= i < win && pos + i < |stereo| :: r[i] == stereo[pos + i].right
    ensures forall i | 0 <= i < win && pos + i >= |stereo| :: r[i] == 0.0
  {
    seq(win, i requires 0 <= i < win => if pos + i < |stereo| then stereo[pos + i].right else 0.0)
  }

  /** The engine's answer for the window starting at frame p. */
  function WindowOut(stereo: seq<Frame<real>>, win: nat, engine: WindowEngine, p: nat): Outcome<Array3>
  {
    engine(ChunkLeft(stereo, p, win), ChunkRight(stereo, p, win))
  }

  /** The overlap-add of one window indexes a stem or a channel its output
      lacks: some sample i < min(win, t_out) of some stem st < stems is read
      while st >= S or the output has fewer than two channels. */
  predicate WindowPanics(out: Array3, stems: nat, win: nat)
  {
    stems > 0 && win > 0 && out.d2 > 0 && (out.d0 < stems || out.d1 < 2)
  }

  /** What the window starting at pos adds to (stem st, frame f, channel c):
      the weighted output sample when f lies in the window and below t_out,
      nothing otherwise. */
  function Contribution(out: Array3, pos: nat, w: seq<real>, st: nat, f: nat, c: nat): real
  {
    if pos <= f < pos + |w| && f - pos < out.d2 && st < out.d0 && c < out.d1
    then At(out, st, c, f - pos) * w[f - pos]
    else 0.0
  }

  /** What a window adds to the weight sum at frame f. */
  function WeightAt(pos: nat, w: seq<real>, f: nat): real
  {
    if pos <= f < pos + |w| then w[f - pos] * w[f - pos] else 0.0
  }

  /** The accumulator after the windows starting at `starts`. */
  function AccOver(stereo: seq<Frame<real>>, win: nat, engine: WindowEngine, w: seq<real>,
                   starts: seq<nat>, st: nat, f: nat, c: nat): (r: real)
    ensures (forall k | 0 <= k < |starts| :: !(starts[k] <= f < starts[k] + |w|)) ==> r == 0.0
  {
    if starts == [] then 0.0
    else
      var p := starts[|starts| - 1];
      var o := WindowOut(stereo, win, engine, p);
      AccOver(stereo, win, engine, w, starts[..|starts| - 1], st, f, c)
        + (if o.Ok? then Contribution(o.value, p, w, st, f, c) else 0.0)
  }

  /** The weight sum after the windows starting at `starts`. */
  function WeightOver(w: seq<real>, starts: seq<nat>, f: nat): (r: real)
    ensures r >= 0.0
    ensures (forall k | 0 <= k < |starts| :: !(starts[k] <= f < starts[k] + |w|)) ==> r == 0.0
  {
    if starts == [] then 0.0
    else WeightOver(w, starts[..|starts| - 1], f) + WeightAt(starts[|starts| - 1], w, f)
  }

  function MaxFloor(x: real): real
  {
    if x >= Floor then x else Floor
  }

  /** Output sample (stem st, frame f, channel c) after normalisation. */
  function Normalised(stereo: seq<Frame<real>>, win: nat, engine: WindowEngine, w: seq<real>,
                      starts: seq<nat>, st: nat, f: nat, c: nat): real
  {
    AccOver(stereo, win, engine, w, starts, st, f, c) / MaxFloor(WeightOver(w, starts, f))
  }

  /** How the window walk ends. */
  datatype Windows = WindowsOk | WindowsErr(error: StemError) | WindowsPanic(message: string)

  /** The walk over `starts`, with the stem count fixed: the first window
      whose engine call fails ends it with that failure, and a window whose
      output is too small for the stem count panics. */
  function Scan(stereo: seq<Frame<real>>, win: nat, engine: WindowEngine, starts: seq<nat>, stems: nat): (r: Windows)
    ensures r.WindowsOk? <==>
              forall k | 0 <= k < |starts| :: WindowVerdict(WindowOut(stereo, win, engine, starts[k]), stems, win).None?
  {
    if starts == [] then WindowsOk
    else
      match WindowOut(stereo, win, engine, starts[0])
      case Err(e) => WindowsErr(e)
      case Panic(m) => WindowsPanic(m)
      case Ok(o) => if WindowPanics(o, stems, win) then WindowsPanic(OutOfBounds) else Scan(stereo, win, engine, starts[1..], stems)
  }

  /** The stem count: the first dimension of the first window's output. */
  function FirstStems(stereo: seq<Frame<real>>, win: nat, engine: WindowEngine): nat
  {
    var o := WindowOut(stereo, win, engine, 0);
    if o.Ok? then o.value.d0 else 0
  }

  lemma AccOverSnoc(stereo: seq<Frame<real>>, win: nat, engine: WindowEngine, w: seq<real>,
                    starts: seq<nat>, p: nat, st: nat, f: nat, c: nat)
    requires WindowOut(stereo, win, engine, p).Ok?
    ensures AccOver(stereo, win, engine, w, starts + [p], st, f, c)
            == AccOver(stereo, win, engine, w, starts, st, f, c) + Contribution(WindowOut(stereo, win, engine, p).value, p, w, st, f, c)
    ensures WeightOver(w, starts + [p], f) == WeightOver(w, starts, f) + WeightAt(p, w, f)
  {
    assert (starts + [p])[..|starts|] == starts;
  }

  // ---------------------------------------------------------------------
  // One window

  /** Step 1 of the loop: copy frames pos .. pos+win-1 into the two raw
      buffers, zero past the end of the audio. */
  method FillChunk(stereo: seq<Frame<real>>, pos: nat, leftRaw: array<real>, rightRaw: array<real>)
    requires leftRaw != rightRaw && leftRaw.Length == rightRaw.Length
    modifies leftRaw, rightRaw
    ensures forall i: nat | i < leftRaw.Length ::
              if pos + i < |stereo| then leftRaw[i] == stereo[pos + i].left && rightRaw[i] == stereo[pos + i].right
              else leftRaw[i] == 0.0 && rightRaw[i] == 0.0
    ensures leftRaw[..] == ChunkLeft(stereo, pos, leftRaw.Length)
    ensures rightRaw[..] == ChunkRight(stereo, pos, rightRaw.Length)
  {
    var win := leftRaw.Length;
    var i := 0;
    while i < win
      invariant i <= win
      invariant forall j: nat | j < i ::
                  if pos + j < |stereo| then leftRaw[j] == stereo[pos + j].left && rightRaw[j] == stereo[pos + j].right
                  else leftRaw[j] == 0.0 && rightRaw[j] == 0.0
    {
      var idx := pos + i;
      var l, r;
      if idx < |stereo| {
        l, r := stereo[idx].left, stereo[idx].right;
      } else {
        l, r := 0.0, 0.0;
      }
      leftRaw[i] := l;
      rightRaw[i] := r;
      i := i + 1;
    }
  }

  /** Steps 1 and 2: build the window's chunk and run the engine on it. */
  method RunWindow(stereo: seq<Frame<real>>, pos: nat, leftRaw: array<real>, rightRaw: array<real>, engine: WindowEngine)
    returns (out: Outcome<Array3>)
    requires leftRaw != rightRaw && leftRaw.Length == rightRaw.Length
    modifies leftRaw, rightRaw
    ensures out == WindowOut(stereo, leftRaw.Length, engine, pos)
  {
    FillChunk(stereo, pos, leftRaw, rightRaw);
    out := engine(leftRaw[..], rightRaw[..]);
  }

  /** Step 3: overlap-add one window's output into the accumulators. Reports
      whether the indexing of the output panicked. */
  method AccumulateWindow(accL: array2<real>, accR: array2<real>, out: Array3, pos: nat, w: seq<real>, stems: nat)
    returns (panicked: bool)
    requires accL != accR
    requires accL.Length0 == stems && accR.Length0 == stems && accL.Length1 == accR.Length1
    requires pos + |w| <= accL.Length1
    modifies accL, accR
    ensures panicked <==> WindowPanics(out, stems, |w|)
    ensures !panicked ==> forall st: nat, f: nat | st < stems && f < accL.Length1 ::
              accL[st, f] == old(accL[st, f]) + Contribution(out, pos, w, st, f, 0)
              && accR[st, f] == old(accR[st, f]) + Contribution(out, pos, w, st, f, 1)
  {
    var st := 0;
    while st < stems
      invariant st <= stems
      invariant st > 0 && |w| > 0 && out.d2 > 0 ==> st <= out.d0 && out.d1 >= 2
      invariant forall s: nat, f: nat | s < stems && f < accL.Length1 ::
                  accL[s, f] == old(accL[s, f]) + (if s < st then Contribution(out, pos, w, s, f, 0) else 0.0)
                  && accR[s, f] == old(accR[s, f]) + (if s < st then Contribution(out, pos, w, s, f, 1) else 0.0)
    {
      var i := 0;
      while i < |w|
        invariant i <= |w|
        invariant st > 0 && |w| > 0 && out.d2 > 0 ==> st <= out.d0 && out.d1 >= 2
        invariant i > 0 && out.d2 > 0 ==> st < out.d0 && out.d1 >= 2
        invariant forall s: nat, f: nat | s < stems && f < accL.Length1 ::
                    accL[s, f] == old(accL[s, f]) + (if s < st || (s == st && f < pos + i) then Contribution(out, pos, w, s, f, 0) else 0.0)
                    && accR[s, f] == old(accR[s, f]) + (if s < st || (s == st && f < pos + i) then Contribution(out, pos, w, s, f, 1) else 0.0)
      {
        var dst := pos + i;
        if dst >= accL.Length1 {
          break;
        }
        var ww := w[i];
        if i < out.d2 {
          if st >= out.d0 || out.d1 < 2 {
            return true;
          }
          accL[st, dst] := accL[st, dst] + At(out, st, 0, i) * ww;
          accR[st, dst] := accR[st, dst] + At(out, st, 1, i) * ww;
        }
        i := i + 1;
      }
      st := st + 1;
    }
    panicked := false;
  }

  /** Step 3, second half: add the squared weights of one window. */
  method AddWeights(wsum: array<real>, pos: nat, w: seq<real>)
    requires pos + |w| <= wsum.Length
    modifies wsum
    ensures forall f: nat | f < wsum.Length :: wsum[f] == old(wsum[f]) + WeightAt(pos, w, f)
  {
    var i := 0;
    while i < |w|
      invariant i <= |w|
      invariant forall f: nat | f < wsum.Length ::
                  wsum[f] == old(wsum[f]) + (if f < pos + i then WeightAt(pos, w, f) else 0.0)
    {
      var dst := pos + i;
      if dst >= wsum.Length {
        break;
      }
      var ww := w[i];
      wsum[dst] := wsum[dst] + ww * ww;
      i := i + 1;
    }
  }

  /** Divide the first n frames of every stem by max(wsum, 1e-8). */
  method Normalise(accL: array2<real>, accR: array2<real>, wsum: array<real>, n: nat)
    requires accL != accR && accL.Length0 == accR.Length0 && accL.Length1 == accR.Length1
    requires n <= accL.Length1 && n <= wsum.Length
    modifies accL, accR
    ensures forall st: nat, f: nat | st < accL.Length0 && f < accL.Length1 ::
              accL[st, f] == (if f < n then old(accL[st, f]) / MaxFloor(wsum[f]) else old(accL[st, f]))
              && accR[st, f] == (if f < n then old(accR[st, f]) / MaxFloor(wsum[f]) else old(accR[st, f]))
  {
    var i := 0;
    while i < n
      invariant i <= n
      invariant forall st: nat, f: nat | st < accL.Length0 && f < accL.Length1 ::
                  accL[st, f] == (if f < i then old(accL[st, f]) / MaxFloor(wsum[f]) else old(accL[st, f]))
                  && accR[st, f] == (if f < i then old(accR[st, f]) / MaxFloor(wsum[f]) else old(accR[st, f]))
    {
      var d := MaxFloor(wsum[i]);
      var st := 0;
      while st < accL.Length0
        invariant st <= accL.Length0
        invariant forall s: nat, f: nat | s < accL.Length0 && f < accL.Length1 ::
                    accL[s, f] == (if f < i || (f == i && s < st) then old(accL[s, f]) / MaxFloor(wsum[f]) else old(accL[s, f]))
                    && accR[s, f] == (if f < i || (f == i && s < st) then old(accR[s, f]) / MaxFloor(wsum[f]) else old(accR[s, f]))
      {
        accL[st, i] := accL[st, i] / d;
        accR[st, i] := accR[st, i] / d;
        st := st + 1;
      }
      i := i + 1;
    }
  }

  // ---------------------------------------------------------------------
  // Stem names and output files

  /** The names looked up: the manifest's, or the default four. */
  function StemNames(stems: seq<string>): (names: seq<string>)
    ensures stems != [] ==> names == stems
    ensures stems == [] ==> names == ["vocals", "drums", "bass", "other"]
  {
    if stems == [] then DefaultNames else stems
  }

  /** The index of the last name whose lower-case form is `key`. */
  function LastMatch(names: seq<string>, key: string): (r: Option<nat>)
    ensures r.Some? ==> r.value < |names| && Lower(names[r.value]) == key
    ensures r.Some? ==> forall j | r.value < j < |names| :: Lower(names[j]) != key
    ensures r.None? <==> forall j | 0 <= j < |names| :: Lower(names[j]) != key
  {
    if names == [] then None
    else if Lower(names[|names| - 1]) == key then Some(|names| - 1)
    else LastMatch(names[..|names| - 1], key)
  }

  /** `name_idx`: lower-cased name to index, a later name replacing an
      earlier one with the same lower-case form. */
  method BuildNameIndex(names: seq<string>) returns (index: map<string, nat>)
    ensures forall key :: key in index <==> LastMatch(names, key).Some?
    ensures forall key | key in index :: index[key] == LastMatch(names, key).value
  {
    index := map[];
    var i := 0;
    while i < |names|
      invariant i <= |names|
      invariant forall key :: key in index <==> LastMatch(names[..i], key).Some?
      invariant forall key | key in index :: index[key] == LastMatch(names[..i], key).value
    {
      assert names[..i + 1][..i] == names[..i];
      index := index[Lower(names[i]) := i];
      i := i + 1;
    }
    assert names[..i] == names;
  }

  /** `get_idx`: the indexed name, else the fallback clamped to the last stem. */
  function GetIdx(index: map<string, nat>, key: string, fallback: nat, stems: nat): (r: nat)
    ensures key in index ==> r == index[key]
    ensures key !in index && stems == 0 ==> r == 0
    ensures key !in index && fallback < stems ==> r == fallback
    ensures key !in index && 0 < stems <= fallback ==> r == stems - 1
  {
    if key in index then index[key] else Min(fallback, if stems == 0 then 0 else stems - 1)
  }

  /** The stem a label resolves to, stated on the names. */
  function StemIndex(names: seq<string>, key: string, fallback: nat, stems: nat): (r: nat)
    ensures LastMatch(names, key).Some? ==>
              r < |names| && Lower(names[r]) == key && forall j | r < j < |names| :: Lower(names[j]) != key
    ensures LastMatch(names, key).None? && stems == 0 ==> r == 0
    ensures LastMatch(names, key).None? && fallback < stems ==> r == fallback
    ensures LastMatch(names, key).None? && 0 < stems <= fallback ==> r == stems - 1
  {
    match LastMatch(names, key)
    case Some(i) => i
    case None => Min(fallback, if stems == 0 then 0 else stems - 1)
  }

  /** `get_idx` over the index built from `names` is `StemIndex`: the last
      lower-case match, otherwise min(fallback, stems - 1) with saturating
      subtraction. */
  lemma GetIdxIsStemIndex(names: seq<string>, index: map<string, nat>, key: string, fallback: nat, stems: nat)
    requires forall k :: k in index <==> LastMatch(names, k).Some?
    requires forall k | k in index :: index[k] == LastMatch(names, k).value
    ensures GetIdx(index, key, fallback, stems) == StemIndex(names, key, fallback, stems)
    ensures key in index ==> GetIdx(index, key, fallback, stems) < |names| && Lower(names[GetIdx(index, key, fallback, stems)]) == key
    ensures key !in index ==> GetIdx(index, key, fallback, stems) == (if stems == 0 then 0 else Min(fallback, stems - 1))
  {
    if key in index {
      assert LastMatch(names, key).Some?;
    } else {
      assert LastMatch(names, key).None?;
    }
  }

  function Min(a: nat, b: nat): nat
  {
    if a <= b then a else b
  }

  /** With no names in the manifest, the four labels resolve to 0, 1, 2, 3. */
  lemma DefaultNamesResolveInOrder(stems: nat)
    ensures StemIndex(StemNames([]), "vocals", 0, stems) == 0
    ensures StemIndex(StemNames([]), "drums", 1, stems) == 1
    ensures StemIndex(StemNames([]), "bass", 2, stems) == 2
    ensures StemIndex(StemNames([]), "other", 3, stems) == 3
  {
    var names := StemNames([]);
    assert Lower("vocals") == "vocals" && Lower("drums") == "drums" && Lower("bass") == "bass" && Lower("other") == "other";
    assert names[3] == "other" && names[2] == "bass" && names[1] == "drums" && names[0] == "vocals";
  }

  /** When the model produces at least as many stems as there are names, and
      at least one, every label resolves to an existing stem. */
  lemma StemIndexInRange(names: seq<string>, key: string, fallback: nat, stems: nat)
    requires 0 < stems && |names| <= stems
    ensures StemIndex(names, key, fallback, stems) < stems
  {
  }

  /** All four labels resolve to a stem the accumulators hold. */
  predicate AllStemsPresent(names: seq<string>, stems: nat)
  {
    && StemIndex(names, "vocals", 0, stems) < stems
    && StemIndex(names, "drums", 1, stems) < stems
    && StemIndex(names, "bass", 2, stems) < stems
    && StemIndex(names, "other", 3, stems) < stems
  }

  /** `stem_to_wav`: interleave stem st's first n frames; indexing a stem
      the accumulators lack panics. */
  method StemToWav(accL: array2<real>, accR: array2<real>, st: nat, n: nat, rate: nat)
    returns (r: Outcome<AudioData>)
    requires accL.Length0 == accR.Length0 && n <= accL.Length1 && n <= accR.Length1
    ensures r.Ok? <==> st < accL.Length0
    ensures r.Ok? || r.Panic?
    ensures r.Ok? ==> r.value.channels == 2 && r.value.sampleRate == rate && |r.value.samples| == 2 * n
    ensures r.Ok? ==> forall f: nat | f < n ::
              r.value.samples[2 * f] == accL[st, f] && r.value.samples[2 * f + 1] == accR[st, f]
  {
    if st >= accL.Length0 {
      return Panic(OutOfBounds);
    }
    var inter: seq<real> := [];
    var i := 0;
    while i < n
      invariant i <= n
      invariant |inter| == 2 * i
      invariant forall f: nat | f < i :: inter[2 * f] == accL[st, f] && inter[2 * f + 1] == accR[st, f]
    {
      inter := inter + [accL[st, i]];
      inter := inter + [accR[st, i]];
      i := i + 1;
    }
    r := Ok(AudioData(inter, rate, 2));
  }

  /** `{output_dir}/{file_stem}`, the stem falling back to "output". */
  function OutputBase(outputDir: string, inputPath: string): (r: string)
    ensures var name := BaseName(inputPath);
            && |r| >= |name| && r[|r| - |name|..] == name
            && (outputDir == "" ==> r == name)
            && (outputDir != "" ==> |r| >= |outputDir| && r[..|outputDir|] == outputDir)
  {
    Join(outputDir, BaseName(inputPath))
  }

  /** The input's file stem, or "output" when it has none. */
  function BaseName(inputPath: string): string
  {
    match FileStem(inputPath) case Some(s) => s case None => "output"
  }

  /** `format!("{}_{stem}.wav", base)`. */
  function Suffixed(base: string, stem: string): string
  {
    base + ("_" + stem + ".wav")
  }

  function OutputPath(outputDir: string, inputPath: string, stem: string): string
  {
    Suffixed(OutputBase(outputDir, inputPath), stem)
  }

  /** The four output paths. */
  function OutputPaths(outputDir: string, inputPath: string): (r: SplitResult)
    ensures var b := OutputBase(outputDir, inputPath);
            && r.vocalsPath == b + "_vocals.wav" && r.drumsPath == b + "_drums.wav"
            && r.bassPath == b + "_bass.wav" && r.otherPath == b + "_other.wav"
  {
    assert "_" + "vocals" + ".wav" == "_vocals.wav" && "_" + "drums" + ".wav" == "_drums.wav";
    assert "_" + "bass" + ".wav" == "_bass.wav" && "_" + "other" + ".wav" == "_other.wav";
    SplitResult(OutputPath(outputDir, inputPath, "vocals"), OutputPath(outputDir, inputPath, "drums"),
                OutputPath(outputDir, inputPath, "bass"), OutputPath(outputDir, inputPath, "other"))
  }

  /** Four different labels after the same base give four different paths. */
  lemma SuffixedPathsDistinct(base: string)
    ensures var v, d, b, o := Suffixed(base, "vocals"), Suffixed(base, "drums"), Suffixed(base, "bass"), Suffixed(base, "other");
            v != d && v != b && v != o && d != b && d != o && b != o
    ensures Suffixed(base, "vocals")[..|base|] == base
  {
    var v, d, b, o := Suffixed(base, "vocals"), Suffixed(base, "drums"), Suffixed(base, "bass"), Suffixed(base, "other");
    assert v[|base| + 1] == 'v' && d[|base| + 1] == 'd' && b[|base| + 1] == 'b' && o[|base| + 1] == 'o';
  }

  /** The four outputs are pairwise distinct and sit in the output
      directory. */
  lemma OutputPathsDistinct(outputDir: string, inputPath: string)
    ensures var o := OutputPaths(outputDir, inputPath);
            && o.vocalsPath != o.drumsPath && o.vocalsPath != o.bassPath && o.vocalsPath != o.otherPath
            && o.drumsPath != o.bassPath && o.drumsPath != o.otherPath && o.bassPath != o.otherPath
    ensures var o := OutputPaths(outputDir, inputPath);
            outputDir != "" ==>
              && o.vocalsPath[..|outputDir|] == outputDir && o.drumsPath[..|outputDir|] == outputDir
              && o.bassPath[..|outputDir|] == outputDir && o.otherPath[..|outputDir|] == outputDir
  {
    var b := OutputBase(outputDir, inputPath);
    var o := OutputPaths(outputDir, inputPath);
    SuffixedPathsDistinct(b);
    if outputDir != "" {
      assert o.vocalsPath[..|outputDir|] == b[..|outputDir|];
      assert o.drumsPath[..|outputDir|] == b[..|outputDir|];
      assert o.bassPath[..|outputDir|] == b[..|outputDir|];
      assert o.otherPath[..|outputDir|] == b[..|outputDir|];
    }
  }

  /** An input path without a file name yields `{output_dir}/output_<stem>.wav`. */
  lemma OutputFallbackName(outputDir: string, inputPath: string)
    requires FileStem(inputPath).None?
    ensures OutputBase(outputDir, inputPath) == Join(outputDir, "output")
    ensures var o := OutputPaths(outputDir, inputPath);
            && o.vocalsPath == Join(outputDir, "output") + "_vocals.wav"
            && o.drumsPath == Join(outputDir, "output") + "_drums.wav"
            && o.bassPath == Join(outputDir, "output") + "_bass.wav"
            && o.otherPath == Join(outputDir, "output") + "_other.wav"
    ensures outputDir == "" ==> OutputPaths(outputDir, inputPath).vocalsPath == "output_vocals.wav"
  {
    assert BaseName(inputPath) == "output";
    assert "output" + "_vocals.wav" == "output_vocals.wav";
  }

  /** `a` holds stem st of the normalised accumulation, interleaved. */
  predicate IsStemAudio(a: AudioData, rate: nat, stereo: seq<Frame<real>>,
                        win: nat, engine: WindowEngine, w: seq<real>, starts: seq<nat>, st: nat)
  {
    && a.channels == 2 && a.sampleRate == rate
    && |a.samples| == 2 * |stereo|
    && forall f: nat, c: nat | f < |stereo| && c < 2 ::
         a.samples[2 * f + c] == Normalised(stereo, win, engine, w, starts, st, f, c)
  }

  lemma InterleavedIsStem(a: AudioData, rate: nat, stereo: seq<Frame<real>>,
                          win: nat, engine: WindowEngine, w: seq<real>, starts: seq<nat>, st: nat)
    requires a.channels == 2 && a.sampleRate == rate && |a.samples| == 2 * |stereo|
    requires forall f: nat | f < |stereo| ::
               a.samples[2 * f] == Normalised(stereo, win, engine, w, starts, st, f, 0)
               && a.samples[2 * f + 1] == Normalised(stereo, win, engine, w, starts, st, f, 1)
    ensures IsStemAudio(a, rate, stereo, win, engine, w, starts, st)
  {
    forall f: nat, c: nat | f < |stereo| && c < 2
      ensures a.samples[2 * f + c] == Normalised(stereo, win, engine, w, starts, st, f, c)
    {
      if c == 0 {
        assert a.samples[2 * f + c] == a.samples[2 * f];
      }
    }
  }

  // ---------------------------------------------------------------------
  // The window walk and split_file

  /** The accumulators and the weight sum hold the overlap-add of the
      windows starting at `done`. */
  ghost predicate AccState(accL: array2<real>, accR: array2<real>, wsum: array<real>, stems: nat, size: nat,
                           stereo: seq<Frame<real>>, win: nat, engine: WindowEngine, w: seq<real>, done: seq<nat>)
    reads accL, accR, wsum
  {
    && accL != accR
    && accL.Length0 == stems == accR.Length0 && accL.Length1 == size == accR.Length1 && wsum.Length == size
    && (forall st: nat, f: nat | st < stems && f < size ::
          accL[st, f] == AccOver(stereo, win, engine, w, done, st, f, 0)
          && accR[st, f] == AccOver(stereo, win, engine, w, done, st, f, 1))
    && (forall f: nat | f < size :: wsum[f] == WeightOver(w, done, f))
  }

  /** Step 3 for the window at pos whose engine call succeeded: overlap-add
      it and add its weights, unless indexing its output panics. */
  method AddWindow(accL: array2<real>, accR: array2<real>, wsum: array<real>, stems: nat,
                   stereo: seq<Frame<real>>, win: nat, engine: WindowEngine, w: seq<real>,
                   ghost done: seq<nat>, pos: nat, out: Array3)
    returns (panicked: bool)
    requires AccState(accL, accR, wsum, stems, accL.Length1, stereo, win, engine, w, done)
    requires |w| == win && pos + win <= accL.Length1
    requires WindowOut(stereo, win, engine, pos) == Ok(out)
    modifies accL, accR, wsum
    ensures panicked <==> WindowPanics(out, stems, win)
    ensures !panicked ==> AccState(accL, accR, wsum, stems, accL.Length1, stereo, win, engine, w, done + [pos])
  {
    panicked := AccumulateWindow(accL, accR, out, pos, w, stems);
    if panicked {
      return;
    }
    AddWeights(wsum, pos, w);
    forall st: nat, f: nat | st < stems && f < accL.Length1
      ensures accL[st, f] == AccOver(stereo, win, engine, w, done + [pos], st, f, 0)
      ensures accR[st, f] == AccOver(stereo, win, engine, w, done + [pos], st, f, 1)
    {
      AccOverSnoc(stereo, win, engine, w, done, pos, st, f, 0);
      AccOverSnoc(stereo, win, engine, w, done, pos, st, f, 1);
    }
    forall f: nat | f < wsum.Length ensures wsum[f] == WeightOver(w, done + [pos], f) {
      AccOverSnoc(stereo, win, engine, w, done, pos, 0, f, 0);
    }
  }

  /** `acc = vec![vec![[0f32; 2]; n + win]; stems_count]`: zeroed
      accumulators, which hold the overlap-add of no window while the weight
      sum is still zero. */
  method NewAccumulators(wsum: array<real>, stems: nat, ghost stereo: seq<Frame<real>>, ghost win: nat,
                         ghost engine: WindowEngine, ghost w: seq<real>)
    returns (accL: array2<real>, accR: array2<real>)
    requires forall f: nat | f < wsum.Length :: wsum[f] == 0.0
    ensures fresh(accL) && fresh(accR)
    ensures AccState(accL, accR, wsum, stems, wsum.Length, stereo, win, engine, w, [])
  {
    accL := new real[stems, wsum.Length]((_, _) => 0.0);
    accR := new real[stems, wsum.Length]((_, _) => 0.0);
  }

  /** How one pass of the loop body ends. */
  datatype Pass = Stopped(status: Windows) | Accumulated

  /** The walk's verdict on one window: its engine failure, or its indexing
      panic, or nothing. */
  function WindowVerdict(o: Outcome<Array3>, stems: nat, win: nat): Option<Windows>
  {
    if o.Err? then Some(WindowsErr(o.error))
    else if o.Panic? then Some(WindowsPanic(o.message))
    else if WindowPanics(o.value, stems, win) then Some(WindowsPanic(OutOfBounds))
    else None
  }

  /** A walk that does not finish stops at its first failing window, with
      that window's verdict. */
  lemma {:induction false} ScanStopsAtFirstFailure(stereo: seq<Frame<real>>, win: nat, engine: WindowEngine,
                                                   starts: seq<nat>, stems: nat)
    ensures var r := Scan(stereo, win, engine, starts, stems);
            !r.WindowsOk? ==>
              exists k :: 0 <= k < |starts|
                          && WindowVerdict(WindowOut(stereo, win, engine, starts[k]), stems, win) == Some(r)
                          && forall j | 0 <= j < k :: WindowVerdict(WindowOut(stereo, win, engine, starts[j]), stems, win).None?
  {
    if starts != [] && WindowVerdict(WindowOut(stereo, win, engine, starts[0]), stems, win).None? {
      var r := Scan(stereo, win, engine, starts, stems);
      ScanStopsAtFirstFailure(stereo, win, engine, starts[1..], stems);
      if !r.WindowsOk? {
        var k :| 0 <= k < |starts[1..]|
                 && WindowVerdict(WindowOut(stereo, win, engine, starts[1..][k]), stems, win) == Some(r)
                 && forall j | 0 <= j < k :: WindowVerdict(WindowOut(stereo, win, engine, starts[1..][j]), stems, win).None?;
        assert starts[k + 1] == starts[1..][k];
        forall j | 0 <= j < k + 1
          ensures WindowVerdict(WindowOut(stereo, win, engine, starts[j]), stems, win).None?
        {
          if j > 0 {
            assert starts[j] == starts[1..][j - 1];
          }
        }
      }
    }
  }

  /** The walk from window k on, one window unfolded. */
  lemma ScanAt(stereo: seq<Frame<real>>, win: nat, engine: WindowEngine, starts: seq<nat>, k: nat, stems: nat)
    requires k < |starts|
    ensures var v := WindowVerdict(WindowOut(stereo, win, engine, starts[k]), stems, win);
            && (v.Some? ==> Scan(stereo, win, engine, starts[k..], stems) == v.value)
            && (v.None? ==> Scan(stereo, win, engine, starts[k..], stems) == Scan(stereo, win, engine, starts[k + 1..], stems))
  {
    assert starts[k..][0] == starts[k];
    assert starts[k..][1..] == starts[k + 1..];
  }

  /** One pass of the loop body for the window at pos: steps 1 and 2, the
      first-pass sizing of the accumulators, and step 3. */
  method WalkStep(stereo: seq<Frame<real>>, win: nat, engine: WindowEngine, w: seq<real>, pos: nat,
                  leftRaw: array<real>, rightRaw: array<real>, wsum: array<real>,
                  accL0: array2<real>, accR0: array2<real>, stems0: nat, sized: bool,
                  ghost done: seq<nat>, ghost fs: nat)
    returns (pass: Pass, stems: nat, accL: array2<real>, accR: array2<real>)
    requires leftRaw != rightRaw && leftRaw.Length == win == rightRaw.Length && |w| == win
    requires wsum != leftRaw && wsum != rightRaw && pos + win <= wsum.Length
    requires fs == FirstStems(stereo, win, engine)
    requires !sized ==> pos == 0 && done == [] && forall f: nat | f < wsum.Length :: wsum[f] == 0.0
    requires sized ==> stems0 == fs && AccState(accL0, accR0, wsum, fs, wsum.Length, stereo, win, engine, w, done)
    modifies leftRaw, rightRaw, wsum, accL0, accR0
    ensures var v := WindowVerdict(WindowOut(stereo, win, engine, pos), fs, win);
            && (pass.Stopped? <==> v.Some?)
            && (pass.Stopped? ==> pass.status == v.value)
    ensures pass.Accumulated? ==> stems == fs
    ensures pass.Accumulated? ==> AccState(accL, accR, wsum, fs, wsum.Length, stereo, win, engine, w, done + [pos])
    ensures pass.Accumulated? && sized ==> accL == accL0 && accR == accR0
    ensures pass.Accumulated? && !sized ==> fresh(accL) && fresh(accR)
  {
    stems, accL, accR := stems0, accL0, accR0;
    var out := RunWindow(stereo, pos, leftRaw, rightRaw, engine);
    if out.Err? {
      return Stopped(WindowsErr(out.error)), stems, accL, accR;
    }
    if out.Panic? {
      return Stopped(WindowsPanic(out.message)), stems, accL, accR;
    }
    var o := out.value;
    if !sized {
      stems := o.d0;
      accL, accR := NewAccumulators(wsum, stems, stereo, win, engine, w);
    }
    var panicked := AddWindow(accL, accR, wsum, stems, stereo, win, engine, w, done, pos, o);
    if panicked {
      return Stopped(WindowsPanic(OutOfBounds)), stems, accL, accR;
    }
    pass := Accumulated;
  }

  /** The `while pos < n` loop of `split_file`: build each window's chunk,
      run the engine, fix the stem count and size the accumulators on the
      first window, overlap-add, and stop at the first start p with
      p + hop >= n. */
  method OverlapAdd(stereo: seq<Frame<real>>, win: nat, hop: nat, engine: WindowEngine, w: seq<real>, initialStems: nat)
    returns (status: Windows, stems: nat, accL: array2<real>, accR: array2<real>, wsum: array<real>)
    requires |stereo| > 0 && 0 < hop <= win && |w| == win
    ensures status == Scan(stereo, win, engine, WindowStarts(|stereo|, hop), FirstStems(stereo, win, engine))
    ensures status.WindowsOk? ==> stems == FirstStems(stereo, win, engine)
    ensures status.WindowsOk? ==> fresh(accL) && fresh(accR)
    ensures status.WindowsOk? ==> AccState(accL, accR, wsum, stems, |stereo| + win, stereo, win, engine, w,
                                           WindowStarts(|stereo|, hop))
  {
    var n := |stereo|;
    stems := initialStems;
    accL := new real[0, 0];
    accR := new real[0, 0];
    wsum := new real[n + win](_ => 0.0);
    var leftRaw := new real[win](_ => 0.0);
    var rightRaw := new real[win](_ => 0.0);
    var sized := false;
    var pos := 0;
    ghost var all := WindowStarts(n, hop);
    ghost var k := 0;
    ghost var fs := FirstStems(stereo, win, engine);
    while pos < n
      invariant k < |all| && pos == all[k] && pos < n
      invariant fresh(accL) && fresh(accR) && wsum.Length == n + win
      invariant !sized ==> k == 0 && forall f: nat | f < n + win :: wsum[f] == 0.0
      invariant sized ==> stems == fs && AccState(accL, accR, wsum, fs, n + win, stereo, win, engine, w, all[..k])
      invariant Scan(stereo, win, engine, all, fs) == Scan(stereo, win, engine, all[k..], fs)
      decreases n - pos
    {
      var pass;
      pass, stems, accL, accR := WalkStep(stereo, win, engine, w, pos, leftRaw, rightRaw, wsum,
                                          accL, accR, stems, sized, all[..k], fs);
      ScanAt(stereo, win, engine, all, k, fs);
      StartsFromNext(0, n, hop, k);
      if pass.Stopped? {
        return pass.status, stems, accL, accR, wsum;
      }
      sized := true;
      assert all[..k] + [pos] == all[..k + 1];
      if pos + hop >= n {
        assert k + 1 == |all|;
        break;
      }
      pos := pos + hop;
      k := k + 1;
    }
    assert all[..k + 1] == all;
    assert Scan(stereo, win, engine, all[k + 1..], fs) == WindowsOk;
    status := WindowsOk;
  }

  /** `path` was written with stem st of the normalised accumulation. */
  predicate HoldsStem(written: map<string, AudioData>, path: string, rate: nat, stereo: seq<Frame<real>>,
                      win: nat, engine: WindowEngine, w: seq<real>, starts: seq<nat>, st: nat)
  {
    path in written && IsStemAudio(written[path], rate, stereo, win, engine, w, starts, st)
  }

  /** The output files of a successful split: the four suffixed paths and,
      under each, the normalised stem its label resolves to. */
  ghost predicate StemsWritten(res: SplitResult, written: map<string, AudioData>, outputDir: string, inputPath: string,
                               rate: nat, stereo: seq<Frame<real>>, win: nat, engine: WindowEngine, w: seq<real>,
                               starts: seq<nat>, names: seq<string>, stems: nat)
  {
    && res == OutputPaths(outputDir, inputPath)
    && written.Keys == {res.vocalsPath, res.drumsPath, res.bassPath, res.otherPath}
    && HoldsStem(written, res.vocalsPath, rate, stereo, win, engine, w, starts, StemIndex(names, "vocals", 0, stems))
    && HoldsStem(written, res.drumsPath, rate, stereo, win, engine, w, starts, StemIndex(names, "drums", 1, stems))
    && HoldsStem(written, res.bassPath, rate, stereo, win, engine, w, starts, StemIndex(names, "bass", 2, stems))
    && HoldsStem(written, res.otherPath, rate, stereo, win, engine, w, starts, StemIndex(names, "other", 3, stems))
  }

  /** The accumulators hold the normalised stems over the first |stereo|
      frames. */
  ghost predicate NormalisedState(accL: array2<real>, accR: array2<real>, stereo: seq<Frame<real>>,
                                  win: nat, engine: WindowEngine, w: seq<real>, starts: seq<nat>)
    reads accL, accR
  {
    && accL.Length0 == accR.Length0 && |stereo| <= accL.Length1 && |stereo| <= accR.Length1
    && forall st: nat, f: nat | st < accL.Length0 && f < |stereo| ::
         accL[st, f] == Normalised(stereo, win, engine, w, starts, st, f, 0)
         && accR[st, f] == Normalised(stereo, win, engine, w, starts, st, f, 1)
  }

  /** Four stem files under the four suffixed paths make a successful split. */
  lemma FourFiles(outputDir: string, inputPath: string, v: AudioData, d: AudioData, b: AudioData, o: AudioData,
                  rate: nat, stereo: seq<Frame<real>>, win: nat, engine: WindowEngine, w: seq<real>,
                  starts: seq<nat>, names: seq<string>, stems: nat)
    requires IsStemAudio(v, rate, stereo, win, engine, w, starts, StemIndex(names, "vocals", 0, stems))
    requires IsStemAudio(d, rate, stereo, win, engine, w, starts, StemIndex(names, "drums", 1, stems))
    requires IsStemAudio(b, rate, stereo, win, engine, w, starts, StemIndex(names, "bass", 2, stems))
    requires IsStemAudio(o, rate, stereo, win, engine, w, starts, StemIndex(names, "other", 3, stems))
    ensures var res := OutputPaths(outputDir, inputPath);
            StemsWritten(res, map[res.vocalsPath := v, res.drumsPath := d, res.bassPath := b, res.otherPath := o],
                         outputDir, inputPath, rate, stereo, win, engine, w, starts, names, stems)
  {
    var res := OutputPaths(outputDir, inputPath);
    OutputPathsDistinct(outputDir, inputPath);
    var written := map[res.vocalsPath := v, res.drumsPath := d, res.bassPath := b, res.otherPath := o];
    assert written[res.vocalsPath] == v && written[res.drumsPath] == d;
    assert written[res.bassPath] == b && written[res.otherPath] == o;
  }

  /** `stem_to_wav` on normalised accumulators yields the normalised stem. */
  method StemFile(accL: array2<real>, accR: array2<real>, st: nat, rate: nat, stereo: seq<Frame<real>>,
                  ghost win: nat, ghost engine: WindowEngine, ghost w: seq<real>, ghost starts: seq<nat>)
    returns (r: Outcome<AudioData>)
    requires accL.Length0 == accR.Length0 && |stereo| <= accL.Length1 && |stereo| <= accR.Length1
    requires NormalisedState(accL, accR, stereo, win, engine, w, starts)
    ensures r.Ok? <==> st < accL.Length0
    ensures r.Ok? || r.Panic?
    ensures r.Ok? ==> IsStemAudio(r.value, rate, stereo, win, engine, w, starts, st)
  {
    r := StemToWav(accL, accR, st, |stereo|, rate);
    if r.Ok? {
      InterleavedIsStem(r.value, rate, stereo, win, engine, w, starts, st);
    }
  }

  /** Step 4 over the whole accumulators: each stem sample becomes its
      normalised value. */
  method NormaliseStems(accL: array2<real>, accR: array2<real>, wsum: array<real>, stems: nat,
                        stereo: seq<Frame<real>>, ghost win: nat, ghost engine: WindowEngine, ghost w: seq<real>,
                        ghost starts: seq<nat>)
    requires AccState(accL, accR, wsum, stems, |stereo| + win, stereo, win, engine, w, starts)
    modifies accL, accR
    ensures NormalisedState(accL, accR, stereo, win, engine, w, starts)
  {
    Normalise(accL, accR, wsum, |stereo|);
  }

  /** Steps 5 and 6: the stem index of each of the four labels. */
  method ResolveLabels(names: seq<string>, stems: nat) returns (v: nat, d: nat, b: nat, o: nat)
    ensures v == StemIndex(names, "vocals", 0, stems) && d == StemIndex(names, "drums", 1, stems)
    ensures b == StemIndex(names, "bass", 2, stems) && o == StemIndex(names, "other", 3, stems)
  {
    var nameIdx := BuildNameIndex(names);
    v := GetIdx(nameIdx, "vocals", 0, stems);
    d := GetIdx(nameIdx, "drums", 1, stems);
    b := GetIdx(nameIdx, "bass", 2, stems);
    o := GetIdx(nameIdx, "other", 3, stems);
    GetIdxIsStemIndex(names, nameIdx, "vocals", 0, stems);
    GetIdxIsStemIndex(names, nameIdx, "drums", 1, stems);
    GetIdxIsStemIndex(names, nameIdx, "bass", 2, stems);
    GetIdxIsStemIndex(names, nameIdx, "other", 3, stems);
  }

  /** The tail of `split_file` once every window is in: normalise, resolve
      the four labels, interleave each stem and name its file. */
  method WriteStems(accL: array2<real>, accR: array2<real>, wsum: array<real>, stems: nat, rate: nat,
                    stereo: seq<Frame<real>>, win: nat, ghost engine: WindowEngine, ghost w: seq<real>,
                    ghost starts: seq<nat>, stemNames: seq<string>, outputDir: string, inputPath: string)
    returns (r: Outcome<SplitResult>, written: map<string, AudioData>)
    requires AccState(accL, accR, wsum, stems, |stereo| + win, stereo, win, engine, w, starts)
    modifies accL, accR
    ensures r.Ok? || r.Panic?
    ensures !r.Ok? ==> written == map[]
    ensures r.Ok? <==> AllStemsPresent(StemNames(stemNames), stems)
    ensures r.Ok? ==> StemsWritten(r.value, written, outputDir, inputPath, rate, stereo, win, engine, w, starts,
                                   StemNames(stemNames), stems)
  {
    written := map[];
    NormaliseStems(accL, accR, wsum, stems, stereo, win, engine, w, starts);
    var vIdx, dIdx, bIdx, oIdx := ResolveLabels(StemNames(stemNames), stems);

    var v := StemFile(accL, accR, vIdx, rate, stereo, win, engine, w, starts);
    if v.Panic? {
      return Panic(v.message), written;
    }
    var d := StemFile(accL, accR, dIdx, rate, stereo, win, engine, w, starts);
    if d.Panic? {
      return Panic(d.message), written;
    }
    var b := StemFile(accL, accR, bIdx, rate, stereo, win, engine, w, starts);
    if b.Panic? {
      return Panic(b.message), written;
    }
    var o := StemFile(accL, accR, oIdx, rate, stereo, win, engine, w, starts);
    if o.Panic? {
      return Panic(o.message), written;
    }

    var res := OutputPaths(outputDir, inputPath);
    FourFiles(outputDir, inputPath, v.value, d.value, b.value, o.value, rate, stereo, win, engine, w, starts,
              StemNames(stemNames), stems);
    written := map[res.vocalsPath := v.value, res.drumsPath := d.value, res.bassPath := b.value, res.otherPath := o.value];
    r := Ok(res);
  }

  /** The planar frames `split_file` works on. */
  function StereoOf(a: AudioData): seq<Frame<real>>
  {
    Planar(a.samples, a.channels)
  }

  /** The manifest and the audio pass every check before the window walk. */
  predicate Accepted(mf: ModelManifest, a: AudioData)
  {
    mf.sampleRate == ExpectedRate && |StereoOf(a)| > 0 && 0 < mf.hop <= mf.window
  }

  /** The result of a successful split: the four paths, exactly four files,
      and each file the normalised accumulation of the stem its label
      resolves to. */
  ghost predicate WroteStems(res: SplitResult, written: map<string, AudioData>, outputDir: string, inputPath: string,
                             mf: ModelManifest, a: AudioData, engine: WindowEngine, hann: (nat, nat) -> real)
    requires Accepted(mf, a)
  {
    var stereo := StereoOf(a);
    StemsWritten(res, written, outputDir, inputPath, mf.sampleRate, stereo, mf.window, engine, Hann2(mf.window, hann),
                 WindowStarts(|stereo|, mf.hop), StemNames(mf.stems), FirstStems(stereo, mf.window, engine))
  }

  /** `split_file`. `model` is what `ensure_model`, `engine::preload` and
      `engine::manifest` yield, `audio` what `read_audio` yields, `engine`
      the window engine and `hann` the Hann weights; `written` is the set of
      output files the call leaves behind. */
  method SplitFile(inputPath: string, opts: SplitOptions, model: Outcome<ModelManifest>,
                   audio: Outcome<AudioData>, engine: WindowEngine, hann: (nat, nat) -> real)
    returns (r: Outcome<SplitResult>, written: map<string, AudioData>)
    ensures !r.Ok? ==> written == map[]
    ensures model.Err? ==> r == Err(model.error)
    ensures model.Panic? ==> r.Panic?
    ensures model.Ok? && model.value.sampleRate != ExpectedRate ==> r == Err(Anyhow(WrongRate))
    ensures model.Ok? && model.value.sampleRate == ExpectedRate && audio.Err? ==> r == Err(audio.error)
    ensures model.Ok? && model.value.sampleRate == ExpectedRate && audio.Panic? ==> r.Panic?
    ensures model.Ok? && model.value.sampleRate == ExpectedRate && audio.Ok? && |StereoOf(audio.value)| == 0
            ==> r == Err(Anyhow(EmptyAudio))
    ensures model.Ok? && model.value.sampleRate == ExpectedRate && audio.Ok? && |StereoOf(audio.value)| > 0
            && !(0 < model.value.hop <= model.value.window)
            ==> r == Err(Anyhow(BadWinHop))
    ensures r.Ok? ==> model.Ok? && audio.Ok? && Accepted(model.value, audio.value)
    ensures model.Ok? && audio.Ok? && Accepted(model.value, audio.value) ==>
              var mf := model.value;
              var stereo := StereoOf(audio.value);
              var stems := FirstStems(stereo, mf.window, engine);
              var scan := Scan(stereo, mf.window, engine, WindowStarts(|stereo|, mf.hop), stems);
              && (scan.WindowsErr? ==> r == Err(scan.error))
              && (scan.WindowsPanic? ==> r.Panic?)
              && (scan.WindowsOk? ==> !r.Err? && (r.Ok? <==> AllStemsPresent(StemNames(mf.stems), stems)))
    ensures r.Ok? ==> WroteStems(r.value, written, opts.outputDir, inputPath, model.value, audio.value, engine, hann)
  {
    written := map[];
    if model.Err? {
      return Err(model.error), written;
    }
    if model.Panic? {
      return Panic(model.message), written;
    }
    var mf := model.value;
    if mf.sampleRate != ExpectedRate {
      return Err(Anyhow(WrongRate)), written;
    }
    if audio.Err? {
      return Err(audio.error), written;
    }
    if audio.Panic? {
      return Panic(audio.message), written;
    }
    var stereo := ToPlanarStereo(audio.value.samples, audio.value.channels);
    var n := |stereo|;
    if n == 0 {
      return Err(Anyhow(EmptyAudio)), written;
    }
    var win := mf.window;
    var hop := mf.hop;
    if !(win > 0 && hop > 0 && hop <= win) {
      return Err(Anyhow(BadWinHop)), written;
    }
    var w := Hann2(win, hann);
    var stemsNames := mf.stems;
    var initialStems := if |stemsNames| > 1 then |stemsNames| else 1;
    var status, stems, accL, accR, wsum := OverlapAdd(stereo, win, hop, engine, w, initialStems);
    if status.WindowsErr? {
      return Err(status.error), written;
    }
    if status.WindowsPanic? {
      return Panic(status.message), written;
    }
    r, written := WriteStems(accL, accR, wsum, stems, mf.sampleRate, stereo, win, engine, w, WindowStarts(n, hop),
                             stemsNames, opts.outputDir, inputPath);
  }
}
