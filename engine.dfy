/**
 * The window contract of the separation engine (src/core/engine.rs): the
 * real `run_window_demucs`, which checks its input, feeds a time branch and
 * a spectral branch to the ONNX session and adds the spectral result (after
 * an inverse STFT) to the time result source by source; and the mock, which
 * returns the input on every stem.
 *
 * The ONNX session, the STFT data and the inverse STFT are foreign code; a
 * `Backend` value stands for them.
 */
module Engine {
  import opened Errors
  import opened Arith

  const DemucsT: nat := 343980
  const DemucsF: nat := 2048
  const DemucsFrames: nat := 336
  const DemucsNfft: nat := 4096
  const DemucsHop: nat := 1024

  /** Length of one source's spectral block `[4, F, Frames]`. */
  const SpecBlock: nat := 4 * DemucsF * DemucsFrames

  const LengthMismatch: string := "L/R length mismatch"
  const BadWindowLength: string := "Bad window length"
  const SpecDimsMismatch: string := "Spec dims mismatch"
  const BadTensorData: string := "tensor data does not match its shape"
  const MissingTimeInput: string := "Model missing input 'input'"
  const MissingSpecInput: string := "Model missing input 'x'"
  const MissingFreqOutput: string := "Model did not return 'output' (freq domain)"
  const MissingTimeOutput: string := "Model did not return 'add_67' (time domain)"
  const NotF32: string := "output is not an f32 tensor"
  const BadFreqShape: string := "Unexpected freq output shape"
  const OutOfBounds: string := "index out of bounds"

  /** Row-major offset of element (s, c, i) in an array of shape (_, d1, d2). */
  function Flat(s: nat, c: nat, i: nat, d1: nat, d2: nat): nat
  {
    Mul(s, Mul(d1, d2)) + Mul(c, d2) + i
  }

  /** In a (_, 2, t) array, (s, c, i) sits at s·2t + c·t + i. */
  lemma {:induction false} FlatTwoChannels(s: nat, c: nat, i: nat, t: nat)
    ensures Flat(s, c, i, 2, t) == s * 2 * t + c * t + i
  {
    MulSmall(t);
    MulIsProduct(s, t + t);
    MulIsProduct(c, t);
  }

  /** Every in-range index lands inside the data. */
  lemma {:induction false} FlatBelow(s: nat, c: nat, i: nat, d0: nat, d1: nat, d2: nat)
    requires s < d0 && c < d1 && i < d2
    ensures Flat(s, c, i, d1, d2) < Mul(d0, Mul(d1, d2))
  {
    MulMono(c + 1, d1, d2);
    MulMono(s + 1, d0, Mul(d1, d2));
  }

  /** The offset of source s's rows as the source computes it, `s * 2 * t`. */
  lemma {:induction false} SourceOffset(s: nat, t: nat)
    ensures s * 2 * t == Mul(s, Mul(2, t))
  {
    MulSmall(t);
    MulIsProduct(s, t + t);
  }

  /** An `ndarray::Array3<f32>`: a shape and its row-major data. */
  datatype Tensor3 = Tensor3(d0: nat, d1: nat, d2: nat, data: seq<real>)

  /** Array3 values always hold exactly as many elements as their shape says. */
  type Array3 = a: Tensor3 | |a.data| == Mul(a.d0, Mul(a.d1, a.d2)) witness Tensor3(0, 0, 0, [])

  /** `a[(s, c, i)]`. */
  function At(a: Array3, s: nat, c: nat, i: nat): real
    requires s < a.d0 && c < a.d1 && i < a.d2
  {
    FlatBelow(s, c, i, a.d0, a.d1, a.d2);
    a.data[Flat(s, c, i, a.d1, a.d2)]
  }

  /** An ONNX value: an f32 tensor (shape, data) or something else. */
  datatype Value = F32(shape: seq<nat>, data: seq<real>) | NonF32

  datatype Named = Named(name: string, value: Value)

  /** The outcome of `session.run`. */
  datatype RunResult = RunFailed(reason: string) | RunOk(outputs: seq<Named>)

  /** The foreign parts: the session's input names, the STFT data of a
      window, the session run, and sample i of channel c of the inverse STFT
      of one source's spectral block. */
  datatype Backend = Backend(
    inputNames: seq<string>,
    stft: (seq<real>, seq<real>) -> seq<real>,
    run: (Value, Value) -> RunResult,
    istft: (seq<real>, nat, nat) -> real)

  /** Dimensions of the centred STFT of t samples: n_fft/2 bins and
      1 + t/hop frames (the reference dimensions its tests assert). */
  function StftDims(t: nat): (nat, nat)
  {
    (DemucsNfft / 2, 1 + t / DemucsHop)
  }

  /** For the one accepted window length the spectral check always passes. */
  lemma StftDimsOfDemucsWindow()
    ensures StftDims(DemucsT) == (DemucsF, DemucsFrames)
  {
  }

  /** The time-branch input `[1, 2, t]`: the left channel then the right. */
  function TimeInput(left: seq<real>, right: seq<real>): (v: Value)
    ensures v.F32? && v.shape == [1, 2, |left|] && |v.data| == |left| + |right|
    ensures v.data[..|left|] == left && v.data[|left|..] == right
  {
    F32([1, 2, |left|], left + right)
  }

  /** The spectral-branch input `[1, 4, F, Frames]`. */
  function SpecInput(spec: seq<real>): Value
  {
    F32([1, 4, DemucsF, DemucsFrames], spec)
  }

  /** The value of the last output called `name`: later outputs overwrite earlier ones. */
  function LastNamed(outputs: seq<Named>, name: string): (r: Option<Value>)
    ensures r.None? <==> forall j :: 0 <= j < |outputs| ==> outputs[j].name != name
    ensures r.Some? ==> exists j :: 0 <= j < |outputs| && outputs[j] == Named(name, r.value)
                          && forall k :: j < k < |outputs| ==> outputs[k].name != name
  {
    if outputs == [] then None
    else if outputs[|outputs| - 1].name == name then
      assert outputs[|outputs| - 1] == Named(name, outputs[|outputs| - 1].value);
      Some(outputs[|outputs| - 1].value)
    else
      var r := LastNamed(outputs[..|outputs| - 1], name);
      LastNamedSkipsLast(outputs, name, r);
      r
  }

  /** An answer about all outputs but the last, whose name differs, is an
      answer about all of them. */
  lemma LastNamedSkipsLast(outputs: seq<Named>, name: string, r: Option<Value>)
    requires outputs != [] && outputs[|outputs| - 1].name != name
    requires var init := outputs[..|outputs| - 1];
             && (r.None? <==> forall j :: 0 <= j < |init| ==> init[j].name != name)
             && (r.Some? ==> exists j :: 0 <= j < |init| && init[j] == Named(name, r.value)
                                         && forall k :: j < k < |init| ==> init[k].name != name)
    ensures r.None? <==> forall j :: 0 <= j < |outputs| ==> outputs[j].name != name
    ensures r.Some? ==> exists j :: 0 <= j < |outputs| && outputs[j] == Named(name, r.value)
                          && forall k :: j < k < |outputs| ==> outputs[k].name != name
  {
    var init := outputs[..|outputs| - 1];
    assert forall j :: 0 <= j < |init| ==> init[j] == outputs[j];
    if r.Some? {
      var j :| 0 <= j < |init| && init[j] == Named(name, r.value)
               && forall k :: j < k < |init| ==> init[k].name != name;
      assert outputs[j] == Named(name, r.value);
    }
  }

  datatype ShapeCheck = ShapeOk | ShapeMismatch | ShapeIndexPanic

  /** The chained comparison `shape[0] != e[0] || shape[1] != e[1] || ...`:
      it stops at the first difference and indexes past the end of a short shape. */
  function MatchPrefix(shape: seq<nat>, expected: seq<nat>): (r: ShapeCheck)
    ensures r == ShapeOk <==> |shape| >= |expected| && shape[..|expected|] == expected
    ensures r == ShapeIndexPanic ==> |shape| < |expected|
    decreases |expected|
  {
    if expected == [] then ShapeOk
    else if shape == [] then ShapeIndexPanic
    else if shape[0] != expected[0] then ShapeMismatch
    else
      var r := MatchPrefix(shape[1..], expected[1..]);
      assert |shape| >= |expected| ==> shape[..|expected|] == [shape[0]] + shape[1..][..|expected| - 1];
      r
  }

  /** Element (s, c, i) of the combined result is the time output at the same
      offset plus the inverse STFT of source s's spectral block. */
  ghost predicate CombinedAt(res: seq<real>, time: seq<real>, freq: seq<real>,
                             s: nat, c: nat, i: nat, t: nat, istft: (seq<real>, nat, nat) -> real)
  {
    var k := Flat(s, c, i, 2, t);
    var lo := Mul(s, SpecBlock);
    && k < |res| && k < |time| && lo + SpecBlock <= |freq|
    && res[k] == time[k] + istft(freq[lo..lo + SpecBlock], c, i)
  }

  /** One source's part of the combining loop: push its left row, then its
      right row, each sample being time + iSTFT. */
  method PushSource(result: seq<real>, time: seq<real>, block: seq<real>, timeOffset: nat, t: nat,
                    istft: (seq<real>, nat, nat) -> real)
    returns (res: seq<real>)
    requires timeOffset + 2 * t <= |time|
    ensures |res| == |result| + 2 * t && res[..|result|] == result
    ensures forall j: nat | j < t :: res[|result| + j] == time[timeOffset + j] + istft(block, 0, j)
    ensures forall j: nat | j < t :: res[|result| + t + j] == time[timeOffset + t + j] + istft(block, 1, j)
  {
    res := result;
    var i := 0;
    while i < t
      invariant i <= t
      invariant |res| == |result| + i && res[..|result|] == result
      invariant forall j: nat | j < i :: res[|result| + j] == time[timeOffset + j] + istft(block, 0, j)
    {
      res := res + [time[timeOffset + i] + istft(block, 0, i)];
      i := i + 1;
    }
    i := 0;
    while i < t
      invariant i <= t
      invariant |res| == |result| + t + i && res[..|result|] == result
      invariant forall j: nat | j < t :: res[|result| + j] == time[timeOffset + j] + istft(block, 0, j)
      invariant forall j: nat | j < i :: res[|result| + t + j] == time[timeOffset + t + j] + istft(block, 1, j)
    {
      res := res + [time[timeOffset + t + i] + istft(block, 1, i)];
      i := i + 1;
    }
  }

  /** The combining loop of `run_window_demucs`: for each source, slice its
      spectral block and its two time rows and push time + iSTFT sample by
      sample, left row first. A slice past the end of a buffer panics. */
  method CombineSources(time: seq<real>, freq: seq<real>, sources: nat, t: nat,
                        istft: (seq<real>, nat, nat) -> real)
    returns (r: Outcome<seq<real>>)
    ensures r.Ok? || r.Panic?
    ensures r.Ok? <==> Mul(sources, Mul(2, t)) <= |time| && Mul(sources, SpecBlock) <= |freq|
    ensures r.Ok? ==> |r.value| == Mul(sources, Mul(2, t))
    ensures r.Ok? ==> forall s: nat, c: nat, i: nat | s < sources && c < 2 && i < t ::
                        CombinedAt(r.value, time, freq, s, c, i, t, istft)
  {
    MulSmall(t);
    var result: seq<real> := [];
    var src := 0;
    while src < sources
      invariant src <= sources
      invariant |result| == Mul(src, Mul(2, t))
      invariant Mul(src, Mul(2, t)) <= |time| && Mul(src, SpecBlock) <= |freq|
      invariant forall s: nat, c: nat, i: nat | s < src && c < 2 && i < t :: CombinedAt(result, time, freq, s, c, i, t, istft)
    {
      var freqOffset := src * SpecBlock;
      MulIsProduct(src, SpecBlock);
      if freqOffset + SpecBlock > |freq| {
        MulMono(src + 1, sources, SpecBlock);
        return Panic(OutOfBounds);
      }
      var block := freq[freqOffset..freqOffset + SpecBlock];
      var timeOffset := src * 2 * t;
      SourceOffset(src, t);
      if timeOffset + 2 * t > |time| {
        MulMono(src + 1, sources, Mul(2, t));
        return Panic(OutOfBounds);
      }
      var next := PushSource(result, time, block, timeOffset, t, istft);
      forall s: nat, c: nat, i: nat | s <= src && c < 2 && i < t
        ensures CombinedAt(next, time, freq, s, c, i, t, istft)
      {
        if s < src {
          assert CombinedAt(result, time, freq, s, c, i, t, istft);
          assert next[Flat(s, c, i, 2, t)] == result[Flat(s, c, i, 2, t)];
        } else if c == 0 {
          assert Flat(s, c, i, 2, t) == |result| + i;
        } else {
          assert Flat(s, c, i, 2, t) == |result| + t + i;
        }
      }
      result := next;
      src := src + 1;
    }
    r := Ok(result);
  }

  /** What an accepted window returns, given the session's two outputs: both
      are f32 tensors, the source count comes from the time output, the
      frequency shape starts with [1, S, 4, F, Frames], and every element is
      the combination of the two outputs. */
  ghost predicate CombinesOutputs(time: Option<Value>, freq: Option<Value>, t: nat,
                                  istft: (seq<real>, nat, nat) -> real, a: Array3)
  {
    && time.Some? && time.value.F32? && |time.value.shape| >= 2
    && freq.Some? && freq.value.F32?
    && a.d0 == time.value.shape[1] && a.d1 == 2 && a.d2 == t
    && MatchPrefix(freq.value.shape, [1, a.d0, 4, DemucsF, DemucsFrames]) == ShapeOk
    && forall s: nat, c: nat, i: nat | s < a.d0 && c < 2 && i < t ::
         CombinedAt(a.data, time.value.data, freq.value.data, s, c, i, t, istft)
  }

  function Product(dims: seq<nat>): nat
  {
    if dims == [] then 1 else Mul(dims[0], Product(dims[1..]))
  }

  /** Both outputs present as f32 tensors with the shapes the model declares
      ([1, S, 2, t] and [1, S, 4, F, Frames]), each holding as many elements
      as its shape. */
  ghost predicate OutputsWellFormed(time: Option<Value>, freq: Option<Value>, t: nat)
  {
    && time.Some? && time.value.F32? && freq.Some? && freq.value.F32?
    && |time.value.shape| == 4 && time.value.shape == [1, time.value.shape[1], 2, t]
    && freq.value.shape == [1, time.value.shape[1], 4, DemucsF, DemucsFrames]
    && |time.value.data| == Product(time.value.shape)
    && |freq.value.data| == Product(freq.value.shape)
  }

  lemma ProductOfFour(a: nat, b: nat, c: nat, d: nat)
    ensures Product([a, b, c, d]) == Mul(a, Mul(b, Mul(c, Mul(d, 1))))
  {
    assert [a, b, c, d][1..] == [b, c, d] && [b, c, d][1..] == [c, d] && [c, d][1..] == [d] && [d][1..] == [];
    assert Product([d]) == Mul(d, 1);
    assert Product([c, d]) == Mul(c, Mul(d, 1));
    assert Product([b, c, d]) == Mul(b, Mul(c, Mul(d, 1)));
  }

  lemma ProductOfFive(a: nat, b: nat, c: nat, d: nat, e: nat)
    ensures Product([a, b, c, d, e]) == Mul(a, Product([b, c, d, e]))
  {
    assert [a, b, c, d, e][1..] == [b, c, d, e];
  }

  /** The element counts the declared output shapes imply. */
  lemma WellFormedSizes(time: Value, freq: Value, sources: nat, t: nat)
    requires time.F32? && time.shape == [1, sources, 2, t] && |time.data| == Product(time.shape)
    requires freq.F32? && freq.shape == [1, sources, 4, DemucsF, DemucsFrames] && |freq.data| == Product(freq.shape)
    ensures |time.data| == Mul(sources, Mul(2, t))
    ensures |freq.data| == Mul(sources, SpecBlock)
  {
    ProductOfFour(1, sources, 2, t);
    MulOneRight(t);
    MulSmall(Mul(sources, Mul(2, t)));
    ProductOfFive(1, sources, 4, DemucsF, DemucsFrames);
    ProductOfFour(sources, 4, DemucsF, DemucsFrames);
    MulOneRight(DemucsFrames);
    MulIsProduct(DemucsF, DemucsFrames);
    MulIsProduct(4, DemucsF * DemucsFrames);
    MulSmall(Mul(sources, SpecBlock));
  }

  /** The part of `run_window_demucs` after the session ran: pick the two
      outputs (a later output of the same name replaces an earlier one). */
  method PickOutputs(outputs: seq<Named>) returns (freq: Option<Value>, time: Option<Value>)
    ensures freq == LastNamed(outputs, "output")
    ensures time == LastNamed(outputs, "add_67")
  {
    freq, time := None, None;
    var k := 0;
    while k < |outputs|
      invariant k <= |outputs|
      invariant freq == LastNamed(outputs[..k], "output")
      invariant time == LastNamed(outputs[..k], "add_67")
    {
      assert outputs[..k + 1][..k] == outputs[..k];
      var out := outputs[k];
      if out.name == "output" {
        freq := Some(out.value);
      } else if out.name == "add_67" {
        time := Some(out.value);
      }
      k := k + 1;
    }
    assert outputs[..k] == outputs;
  }

  /** Extract both tensors, validate the frequency shape against the source
      count of the time output, and combine. */
  method CombineOutputs(time: Option<Value>, freq: Option<Value>, t: nat,
                        istft: (seq<real>, nat, nat) -> real)
    returns (r: Outcome<Array3>)
    ensures freq.None? ==> r == Err(Anyhow(MissingFreqOutput))
    ensures freq.Some? && time.None? ==> r == Err(Anyhow(MissingTimeOutput))
    ensures (freq.Some? && time.Some? && time.value.F32? && |time.value.shape| >= 2 && freq.value.F32?
             && MatchPrefix(freq.value.shape, [1, time.value.shape[1], 4, DemucsF, DemucsFrames]) == ShapeMismatch)
            ==> r == Err(Anyhow(BadFreqShape))
    ensures r.Ok? ==> CombinesOutputs(time, freq, t, istft, r.value)
    ensures OutputsWellFormed(time, freq, t) ==> r.Ok?
  {
    if freq.None? {
      return Err(Anyhow(MissingFreqOutput));
    }
    if time.None? {
      return Err(Anyhow(MissingTimeOutput));
    }
    if time.value.NonF32? {
      return Err(Anyhow(NotF32));
    }
    var shapeTime := time.value.shape;
    if |shapeTime| < 2 {
      return Panic(OutOfBounds);
    }
    var sources := shapeTime[1];
    if freq.value.NonF32? {
      return Err(Anyhow(NotF32));
    }
    var check := MatchPrefix(freq.value.shape, [1, sources, 4, DemucsF, DemucsFrames]);
    if check == ShapeIndexPanic {
      return Panic(OutOfBounds);
    } else if check == ShapeMismatch {
      return Err(Anyhow(BadFreqShape));
    }
    if OutputsWellFormed(time, freq, t) {
      WellFormedSizes(time.value, freq.value, sources, t);
    }
    var combined := CombineSources(time.value.data, freq.value.data, sources, t, istft);
    if combined.Panic? {
      return Panic(combined.message);
    }
    r := Ok(Tensor3(sources, 2, t, combined.value));
  }

  /** The session's outputs for one window. */
  function SessionRun(left: seq<real>, right: seq<real>, b: Backend): RunResult
  {
    b.run(TimeInput(left, right), SpecInput(b.stft(left, right)))
  }

  /** `run_window_demucs` of the ONNX engine. */
  method RunWindowDemucs(left: seq<real>, right: seq<real>, b: Backend) returns (r: Outcome<Array3>)
    ensures |left| != |right| ==> r == Err(Anyhow(LengthMismatch))
    ensures |left| == |right| && |left| != DemucsT ==> r == Err(Anyhow(BadWindowLength))
    ensures r.Ok? ==> |left| == |right| == DemucsT
    ensures r.Ok? ==> "input" in b.inputNames && "x" in b.inputNames && SessionRun(left, right, b).RunOk?
    ensures r.Ok? ==> var outs := SessionRun(left, right, b).outputs;
                      CombinesOutputs(LastNamed(outs, "add_67"), LastNamed(outs, "output"), |left|, b.istft, r.value)
    ensures (|left| == |right| == DemucsT && "input" in b.inputNames && "x" in b.inputNames
             && |b.stft(left, right)| == SpecBlock && SessionRun(left, right, b).RunOk?
             && var outs := SessionRun(left, right, b).outputs;
                OutputsWellFormed(LastNamed(outs, "add_67"), LastNamed(outs, "output"), |left|))
            ==> r.Ok?
  {
    if |left| != |right| {
      return Err(Anyhow(LengthMismatch));
    }
    var t := |left|;
    if t != DemucsT {
      return Err(Anyhow(BadWindowLength));
    }
    var planar := left + right;
    var timeValue := F32([1, 2, t], planar);
    var spec := b.stft(left, right);
    var (fBins, frames) := StftDims(t);
    StftDimsOfDemucsWindow();
    assert fBins == DemucsF && frames == DemucsFrames;
    if fBins != DemucsF || frames != DemucsFrames {
      return Err(Anyhow(SpecDimsMismatch));
    }
    if |spec| != 4 * fBins * frames {
      return Err(Anyhow(BadTensorData));
    }
    var specValue := F32([1, 4, fBins, frames], spec);
    if "input" !in b.inputNames {
      return Err(Anyhow(MissingTimeInput));
    }
    if "x" !in b.inputNames {
      return Err(Anyhow(MissingSpecInput));
    }
    var run := b.run(timeValue, specValue);
    if run.RunFailed? {
      return Err(Anyhow(run.reason));
    }
    var outputFreq, outputTime := PickOutputs(run.outputs);
    r := CombineOutputs(outputTime, outputFreq, t, b.istft);
  }

  /** Sources 0 .. s-1 of a (_, 2, t) buffer each hold a copy of the input. */
  ghost predicate MockFilled(a: seq<real>, s: nat, t: nat, left: seq<real>, right: seq<real>)
  {
    forall s': nat, j: nat | s' < s && j < t ::
      && Flat(s', 1, j, 2, t) < |a| && j < |left| && j < |right|
      && a[Flat(s', 0, j, 2, t)] == left[j] && a[Flat(s', 1, j, 2, t)] == right[j]
  }

  /** Copying source s's two rows, leaving the earlier ones alone, extends
      `MockFilled` by one source. */
  lemma MockFilledStep(a: seq<real>, b: seq<real>, s: nat, t: nat, left: seq<real>, right: seq<real>)
    requires MockFilled(a, s, t, left, right)
    requires Mul(s, Mul(2, t)) <= |a| && Mul(s, Mul(2, t)) + 2 * t <= |b| && t <= |left| && t <= |right|
    requires b[..Mul(s, Mul(2, t))] == a[..Mul(s, Mul(2, t))]
    requires forall j: nat | j < t ::
               b[Mul(s, Mul(2, t)) + j] == left[j] && b[Mul(s, Mul(2, t)) + t + j] == right[j]
    ensures MockFilled(b, s + 1, t, left, right)
  {
    MulSmall(t);
    forall s': nat, j: nat | s' <= s && j < t
      ensures Flat(s', 1, j, 2, t) < |b|
      ensures b[Flat(s', 0, j, 2, t)] == left[j] && b[Flat(s', 1, j, 2, t)] == right[j]
    {
      if s' < s {
        FlatBelow(s', 0, j, s, 2, t);
        FlatBelow(s', 1, j, s, 2, t);
        assert b[Flat(s', 0, j, 2, t)] == b[..Mul(s, Mul(2, t))][Flat(s', 0, j, 2, t)];
        assert b[Flat(s', 1, j, 2, t)] == b[..Mul(s, Mul(2, t))][Flat(s', 1, j, 2, t)];
      }
    }
  }

  /** Copy both input rows into one source's slot of the buffer. */
  method CopyRows(out: array<real>, base: nat, t: nat, left: seq<real>, right: seq<real>)
    requires base + 2 * t <= out.Length && t <= |left| && t <= |right|
    modifies out
    ensures out[..base] == old(out[..base])
    ensures forall j: nat | j < t :: out[base + j] == left[j] && out[base + t + j] == right[j]
  {
    var i := 0;
    while i < t
      invariant i <= t
      invariant out[..base] == old(out[..base])
      invariant forall j: nat | j < i :: out[base + j] == left[j] && out[base + t + j] == right[j]
    {
      out[base + i] := left[i];
      out[base + t + i] := right[i];
      i := i + 1;
    }
  }

  /** `run_window_demucs` of the mock engine: never fails, t is the shorter
      channel's length, and each of the four stems is the input itself. */
  method MockRunWindowDemucs(left: seq<real>, right: seq<real>) returns (r: Outcome<Array3>)
    ensures r.Ok?
    ensures r.value.d0 == 4 && r.value.d1 == 2
    ensures r.value.d2 == if |left| < |right| then |left| else |right|
    ensures forall s: nat, i: nat | s < 4 && i < r.value.d2 ::
              At(r.value, s, 0, i) == left[i] && At(r.value, s, 1, i) == right[i]
  {
    var t := if |left| < |right| then |left| else |right|;
    var sources := 4;
    var out := new real[sources * 2 * t](_ => 0.0);
    SourceOffset(sources, t);
    var s := 0;
    while s < sources
      invariant s <= sources
      invariant MockFilled(out[..], s, t, left, right)
    {
      var base := s * 2 * t;
      SourceOffset(s, t);
      MulMono(s + 1, sources, Mul(2, t));
      MulSmall(t);
      ghost var before := out[..];
      CopyRows(out, base, t, left, right);
      MockFilledStep(before, out[..], s, t, left, right);
      s := s + 1;
    }
    r := Ok(Tensor3(sources, 2, t, out[..]));
  }
}
