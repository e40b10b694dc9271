/**
 * The Python runner script (demucs_runner.py): create the output directory,
 * load the input, stop with exit status 1 on a failed load, a sample rate
 * other than 44100 Hz or a failed inference, then save the four sources
 * under fixed labels, reporting (not stopping at) a failed save. Audio
 * loading, the model and the inference are parameters; what is observable
 * is the exit status and the files on disk.
 */
module Runner {
  import opened Errors
  import opened Text

  /** A tensor of channels × samples; its values are opaque here. */
  type Waveform = seq<seq<real>>

  /** What `torchaudio.load` returns. */
  datatype Loaded = Loaded(waveform: Waveform, rate: nat)

  /** An audio file on disk: one written in full, holding the tensor and
      the rate it was written at, or one a failing save left incomplete. */
  datatype AudioFile = Wav(waveform: Waveform, rate: nat) | Partial

  /** How a call of `torchaudio.save` ends: it writes the file, it raises
      before touching the path (an unwritable directory, a rejected
      tensor), or it raises part-way through writing (a full disk, an
      encoder error), leaving an incomplete file behind. */
  datatype SaveOutcome = Saved | RaisedBeforeWrite | RaisedMidWrite

  const ExpectedRate: nat := 44100

  /** The label of each source index, in the model's output order. */
  const Labels: seq<string> := ["drums", "bass", "other", "vocals"]

  /** `output_dir / f"{name}.wav"`. */
  function StemPath(dir: string, name: string): (p: string)
    ensures dir == "" ==> p == name + ".wav"
    ensures dir != "" && dir[|dir| - 1] != '/' ==> p == dir + "/" + name + ".wav"
    ensures dir != "" ==> |p| >= |dir| && p[..|dir|] == dir
  {
    Join(dir, name + ".wav")
  }

  /** The directories `mkdir(parents=True)` leaves in place: the path and
      each of its ancestors ending before a '/'. */
  function DirsOf(path: string): (ds: set<string>)
    ensures path != "" ==> path in ds
  {
    assert path[..|path|] == path;
    set i: nat | 0 < i <= |path| && (i == |path| || path[i] == '/') :: path[..i]
  }

  /** The file system the script touches. */
  class Disk {
    var dirs: set<string>
    var files: map<string, AudioFile>

    constructor (dirs: set<string>, files: map<string, AudioFile>)
      ensures this.dirs == dirs && this.files == files
    {
      this.dirs := dirs;
      this.files := files;
    }

    /** `Path.mkdir(parents=True, exist_ok=True)`: existing directories are
        no error. */
    method MakeDirs(path: string)
      modifies this
      ensures dirs == old(dirs) + DirsOf(path) && files == old(files)
    {
      dirs := dirs + DirsOf(path);
    }

    /** `torchaudio.save`, ending as `outcome` says; `saved` is false
        when it raises. */
    method Save(path: string, waveform: Waveform, rate: nat, outcome: SaveOutcome) returns (saved: bool)
      modifies this
      ensures saved == outcome.Saved? && dirs == old(dirs)
      ensures outcome.Saved? ==> files == old(files)[path := Wav(waveform, rate)]
      ensures outcome.RaisedBeforeWrite? ==> files == old(files)
      ensures outcome.RaisedMidWrite? ==> files == old(files)[path := Partial]
    {
      match outcome
      case Saved =>
        files := files[path := Wav(waveform, rate)];
        saved := true;
      case RaisedBeforeWrite =>
        saved := false;
      case RaisedMidWrite =>
        files := files[path := Partial];
        saved := false;
    }
  }

  /** Source i reaches its file: the model produced it (indexing a missing
      source raises inside the `try`) and its save does not fail. */
  predicate Written(dir: string, sources: seq<Waveform>, save: string -> SaveOutcome, i: nat)
    requires i < |Labels|
  {
    i < |sources| && save(StemPath(dir, Labels[i])).Saved?
  }

  /** The save of source i starts writing and then raises. */
  predicate Truncated(dir: string, sources: seq<Waveform>, save: string -> SaveOutcome, i: nat)
    requires i < |Labels|
  {
    i < |sources| && save(StemPath(dir, Labels[i])).RaisedMidWrite?
  }

  /** The files after the first k iterations of the save loop. */
  function SavedUpTo(files: map<string, AudioFile>, dir: string, sources: seq<Waveform>,
                     save: string -> SaveOutcome, k: nat): map<string, AudioFile>
    requires k <= |Labels|
  {
    if k == 0 then files
    else
      var before := SavedUpTo(files, dir, sources, save, k - 1);
      if Written(dir, sources, save, k - 1)
      then before[StemPath(dir, Labels[k - 1]) := Wav(sources[k - 1], ExpectedRate)]
      else if Truncated(dir, sources, save, k - 1)
      then before[StemPath(dir, Labels[k - 1]) := Partial]
      else before
  }

  /** The four stem paths are distinct. */
  lemma StemPathsDistinct(dir: string, i: nat, j: nat)
    requires i < j < |Labels|
    ensures StemPath(dir, Labels[i]) != StemPath(dir, Labels[j])
  {
    JoinInjective(dir, Labels[i] + ".wav", Labels[j] + ".wav");
    assert (Labels[i] + ".wav")[..|Labels[i]|] == Labels[i];
    assert (Labels[j] + ".wav")[..|Labels[j]|] == Labels[j];
  }

  /** A path that is not among the first k stem paths is untouched. */
  lemma {:induction false} SavedUpToElsewhere(files: map<string, AudioFile>, dir: string, sources: seq<Waveform>,
                                              save: string -> SaveOutcome, k: nat, p: string)
    requires k <= |Labels|
    requires forall j | 0 <= j < k :: p != StemPath(dir, Labels[j])
    ensures p in SavedUpTo(files, dir, sources, save, k) <==> p in files
    ensures p in files ==> SavedUpTo(files, dir, sources, save, k)[p] == files[p]
  {
    if k > 0 {
      SavedUpToElsewhere(files, dir, sources, save, k - 1, p);
    }
  }

  /** After the first k iterations, the file of label i < k holds source i
      when it was written, an incomplete file when its save raised part-way,
      and otherwise whatever was there before. */
  lemma {:induction false} SavedUpToAt(files: map<string, AudioFile>, dir: string, sources: seq<Waveform>,
                                       save: string -> SaveOutcome, k: nat, i: nat)
    requires i < k <= |Labels|
    ensures var path := StemPath(dir, Labels[i]);
            var after := SavedUpTo(files, dir, sources, save, k);
            && (Written(dir, sources, save, i) ==> path in after && after[path] == Wav(sources[i], ExpectedRate))
            && (Truncated(dir, sources, save, i) ==> path in after && after[path] == Partial)
            && (!Written(dir, sources, save, i) && !Truncated(dir, sources, save, i) ==>
                  (path in after <==> path in files) && (path in files ==> after[path] == files[path]))
  {
    var path := StemPath(dir, Labels[i]);
    SavedUpToStep(files, dir, sources, save, k);
    if i == k - 1 {
      forall j | 0 <= j < k - 1
        ensures path != StemPath(dir, Labels[j])
      {
        StemPathsDistinct(dir, j, i);
      }
      SavedUpToElsewhere(files, dir, sources, save, k - 1, path);
    } else {
      SavedUpToAt(files, dir, sources, save, k - 1, i);
      StemPathsDistinct(dir, i, k - 1);
    }
  }

  /** One more iteration of the save loop writes at most the next stem's file. */
  lemma SavedUpToStep(files: map<string, AudioFile>, dir: string, sources: seq<Waveform>,
                      save: string -> SaveOutcome, k: nat)
    requires 0 < k <= |Labels|
    ensures var before := SavedUpTo(files, dir, sources, save, k - 1);
            var q := StemPath(dir, Labels[k - 1]);
            SavedUpTo(files, dir, sources, save, k)
            == if Written(dir, sources, save, k - 1) then before[q := Wav(sources[k - 1], ExpectedRate)]
               else if Truncated(dir, sources, save, k - 1) then before[q := Partial]
               else before
  {
  }

  /** The script. `load` is what `torchaudio.load` yields (None when it
      raises), `modelLoads` whether `get_model` succeeds, `infer` what
      `apply_model` yields (None when it raises), `save` how saving
      to a path ends. The result is the exit status. */
  method Run(disk: Disk, outputDir: string, load: Option<Loaded>, modelLoads: bool,
             infer: Waveform -> Option<seq<Waveform>>, save: string -> SaveOutcome) returns (status: nat)
    modifies disk
    ensures disk.dirs == old(disk.dirs) + DirsOf(outputDir)
    ensures status == 0 || status == 1
    ensures status == 1 <==>
              || load.None? || load.value.rate != ExpectedRate || !modelLoads
              || infer(load.value.waveform).None?
    ensures status == 1 ==> disk.files == old(disk.files)
    ensures status == 0 ==>
              disk.files == SavedUpTo(old(disk.files), outputDir, infer(load.value.waveform).value, save, |Labels|)
  {
    disk.MakeDirs(outputDir);
    if load.None? {
      return 1;
    }
    if load.value.rate != ExpectedRate {
      return 1;
    }
    // an exception from `get_model` is not caught: the interpreter exits with status 1
    if !modelLoads {
      return 1;
    }
    var sources := infer(load.value.waveform);
    if sources.None? {
      return 1;
    }
    var i := 0;
    while i < |Labels|
      invariant i <= |Labels|
      invariant disk.dirs == old(disk.dirs) + DirsOf(outputDir)
      invariant disk.files == SavedUpTo(old(disk.files), outputDir, sources.value, save, i)
    {
      var path := StemPath(outputDir, Labels[i]);
      if i < |sources.value| {
        var saved := disk.Save(path, sources.value[i], ExpectedRate, save(path));
      }
      i := i + 1;
    }
    status := 0;
  }
}
