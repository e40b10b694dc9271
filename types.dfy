/**
 * Plain records of the crate (src/types.rs and the manifest records that
 * the model manager and the splitter read), and the `SplitConfig` builder.
 */
module Types {
  import opened Errors

  /** `SplitConfig`: which model to use and where stems go. */
  datatype SplitConfig = SplitConfig(modelName: string, outputDir: string)

  /** `SplitConfig::default()`. */
  function DefaultConfig(): (c: SplitConfig)
    ensures c.modelName == "demucs" && c.outputDir == "."
  {
    SplitConfig("demucs", ".")
  }

  /** `SplitConfig::model(self, name)`: a functional update of one field. */
  function WithModel(c: SplitConfig, name: string): (r: SplitConfig)
    ensures r.modelName == name
    ensures r.outputDir == c.outputDir
  {
    c.(modelName := name)
  }

  /** `SplitConfig::output_dir(self, dir)`. */
  function WithOutputDir(c: SplitConfig, dir: string): (r: SplitConfig)
    ensures r.outputDir == dir
    ensures r.modelName == c.modelName
  {
    c.(outputDir := dir)
  }

  /** Builder calls on different fields commute. */
  lemma BuilderCallsCommute(c: SplitConfig, name: string, dir: string)
    ensures WithOutputDir(WithModel(c, name), dir) == WithModel(WithOutputDir(c, dir), name)
  {
  }

  /** Of two calls on the same field, the last one wins. */
  lemma LastModelWins(c: SplitConfig, first: string, second: string)
    ensures WithModel(WithModel(c, first), second) == WithModel(c, second)
  {
  }

  lemma LastOutputDirWins(c: SplitConfig, first: string, second: string)
    ensures WithOutputDir(WithOutputDir(c, first), second) == WithOutputDir(c, second)
  {
  }

  /** Setting both fields makes the starting configuration irrelevant. */
  lemma BothFieldsDetermineConfig(c: SplitConfig, name: string, dir: string)
    ensures WithOutputDir(WithModel(c, name), dir) == SplitConfig(name, dir)
  {
  }

  /** Interleaved samples of a decoded file (`AudioData`); `channels` is a u16. */
  datatype AudioData = AudioData(samples: seq<real>, sampleRate: nat, channels: nat)

  /** One downloadable artifact of a manifest. */
  datatype Artifact = Artifact(file: string, url: string, sha256: string, sizeBytes: nat)

  /** The outcome of `ModelManifest::resolve_primary_artifact`, whose body is
      not part of this model. */
  datatype PrimaryArtifact = Resolved(artifact: Artifact) | Unresolvable(reason: string)

  /** The fields of the model manifest that the core reads. */
  datatype ModelManifest = ModelManifest(
    name: string,
    sampleRate: nat,
    window: nat,
    hop: nat,
    stems: seq<string>,
    primary: PrimaryArtifact)

  /** Options of `split_file`. */
  datatype SplitOptions = SplitOptions(
    modelName: string,
    manifestUrlOverride: Option<string>,
    outputDir: string)

  /** The four stem files `split_file` produces. */
  datatype SplitResult = SplitResult(
    vocalsPath: string,
    drumsPath: string,
    bassPath: string,
    otherPath: string)
}
