/**
 * The older `ensure_model` (src/model_manager.rs), with its own manifest
 * record that carries the artifact's URL and checksum directly. It differs
 * from the current one in three decisions: a registry failure is returned
 * as an error, the cache file always ends in ".onnx", and the declared file
 * size is never looked at.
 */
module LegacyModelManager {
  import opened Errors
  import opened Text
  import opened ModelRegistry
  import opened Crypto
  import opened Cache

  /** The manifest record of src/model_manager.rs. */
  datatype Manifest = Manifest(
    name: string,
    version: string,
    backend: string,
    sampleRate: nat,
    window: nat,
    hop: nat,
    stems: seq<string>,
    inputLayout: string,
    outputLayout: string,
    url: string,
    sha256: string,
    filesize: nat)

  datatype ModelHandle = ModelHandle(manifest: Manifest, localPath: string)

  /** The panic of slicing `sha256[..8]` out of a shorter string. */
  const ShortChecksum: string := "byte index 8 is out of range"

  /** The manifest URL: the override when given, else the registry's, whose
      failure is passed on as the error of the call. */
  function ManifestUrl(modelName: string, urlOverride: Option<string>, registry: Outcome<Table>): (r: Outcome<string>)
    ensures urlOverride.Some? ==> r == Ok(urlOverride.value)
    ensures urlOverride.None? ==> r == ResolveManifestUrl(registry, modelName)
    ensures registry.Ok? ==> !r.Panic?
  {
    if urlOverride.Some? then Ok(urlOverride.value) else ResolveManifestUrl(registry, modelName)
  }

  /** The cache file name `{name}-{sha256[..8]}.onnx`. */
  function CacheFileName(name: string, sha256: string): (r: Outcome<string>)
    ensures r.Panic? <==> |sha256| < 8
    ensures !r.Err?
    ensures r.Ok? ==> |r.value| == |name| + 14 && r.value[|r.value| - 5..] == ".onnx"
  {
    if |sha256| < 8 then Panic(ShortChecksum)
    else
      var s := (name + "-" + sha256[..8]) + ".onnx";
      assert s[|s| - 5..] == ".onnx";
      Ok(s)
  }

  /** For one model name, the cache file name is determined by, and
      determines, the first 8 characters of the checksum. */
  lemma CacheFileNameDetermines(name: string, sha1: string, sha2: string)
    requires |sha1| >= 8 && |sha2| >= 8
    ensures CacheFileName(name, sha1) == CacheFileName(name, sha2) <==> sha1[..8] == sha2[..8]
  {
    if CacheFileName(name, sha1) == CacheFileName(name, sha2) {
      ConcatSplits(name + "-", sha1[..8], ".onnx", sha2[..8], ".onnx");
    }
  }

  /** What `ensure_model` settles before it touches the cache. */
  datatype Target = Target(manifest: Manifest, localPath: string)

  /** The steps before the cache check: URL, manifest request, cache
      directory (`models_cache_dir` and `create_dir_all`), file name. */
  function Prepare(modelName: string, urlOverride: Option<string>, registry: Outcome<Table>,
                   fetchManifest: string -> Outcome<Manifest>, cacheDir: Outcome<string>): (r: Outcome<Target>)
    ensures !ManifestUrl(modelName, urlOverride, registry).Ok? ==> r == Propagate(ManifestUrl(modelName, urlOverride, registry))
    ensures r.Ok? ==> ManifestUrl(modelName, urlOverride, registry).Ok?
                      && fetchManifest(ManifestUrl(modelName, urlOverride, registry).value).Ok?
                      && r.value.manifest == fetchManifest(ManifestUrl(modelName, urlOverride, registry).value).value
                      && cacheDir.Ok? && |r.value.manifest.sha256| >= 8
                      && r.value.localPath == Join(cacheDir.value, CacheFileName(r.value.manifest.name, r.value.manifest.sha256).value)
    ensures var url := ManifestUrl(modelName, urlOverride, registry);
            url.Ok? && !fetchManifest(url.value).Ok? ==> r == Propagate(fetchManifest(url.value))
    ensures var url := ManifestUrl(modelName, urlOverride, registry);
            url.Ok? && fetchManifest(url.value).Ok? ==>
              && (!cacheDir.Ok? ==> r == Propagate(cacheDir))
              && (cacheDir.Ok? && |fetchManifest(url.value).value.sha256| < 8 ==> r.Panic?)
  {
    var url := ManifestUrl(modelName, urlOverride, registry);
    if !url.Ok? then Propagate(url)
    else
      var fetched := fetchManifest(url.value);
      if !fetched.Ok? then Propagate(fetched)
      else
        var mf := fetched.value;
        if !cacheDir.Ok? then Propagate(cacheDir)
        else
          var name := CacheFileName(mf.name, mf.sha256);
          if !name.Ok? then Propagate(name)
          else Ok(Target(mf, Join(cacheDir.value, name.value)))
  }

  /** The outcome of `ensure_model` reduced to success or its failure. */
  function Status(r: Outcome<ModelHandle>): Outcome<()>
  {
    if r.Ok? then Ok(()) else Propagate(r)
  }

  /** `ensure_model`; `downloaded` tells whether the model was fetched,
      `faults` are the disk faults of a download (rename error, read-back
      fault). On success the handle holds the fetched manifest and the
      computed path. */
  method EnsureModel(cache: CacheDir, modelName: string, urlOverride: Option<string>, registry: Outcome<Table>,
                     fetchManifest: string -> Outcome<Manifest>, cacheDir: Outcome<string>,
                     fetch: string -> Outcome<seq<bv8>>, faults: DiskFaults, sha: seq<bv8> -> seq<bv8>)
    returns (r: Outcome<ModelHandle>, downloaded: bool)
    modifies cache
    ensures var t := Prepare(modelName, urlOverride, registry, fetchManifest, cacheDir);
            !t.Ok? ==> r == Propagate(t) && !downloaded && cache.files == old(cache.files)
    ensures var t := Prepare(modelName, urlOverride, registry, fetchManifest, cacheDir);
            t.Ok? ==>
              && CacheStep(old(cache.files), cache.files, t.value.manifest.url, t.value.manifest.sha256,
                           None, t.value.localPath, fetch, faults, sha, Status(r), downloaded, false)
              && (r.Ok? ==> r.value == ModelHandle(t.value.manifest, t.value.localPath))
  {
    var t := Prepare(modelName, urlOverride, registry, fetchManifest, cacheDir);
    if !t.Ok? {
      return Propagate(t), false;
    }
    var mf := t.value.manifest;
    var step, sizeWarning;
    step, downloaded, sizeWarning := SyncArtifact(cache, mf.url, mf.sha256, None, t.value.localPath, fetch, faults, sha);
    if !step.Ok? {
      return Propagate(step), downloaded;
    }
    r := Ok(ModelHandle(mf, t.value.localPath));
  }
}
