/**
 * `ensure_model` (src/model/model_manager.rs): find the manifest URL, fetch
 * the manifest, name the cache file after the model and the checksum of its
 * primary artifact, and download that artifact unless the cached copy
 * already verifies. The manifest request, the cache directory lookup and
 * the artifact transfer are parameters.
 */
module ModelManager {
  import opened Errors
  import opened Types
  import opened Text
  import opened ModelRegistry
  import opened Crypto
  import opened Cache

  /** `ModelHandle`. */
  datatype ModelHandle = ModelHandle(manifest: ModelManifest, localPath: string)

  /** The `expect` message when the registry lookup fails. */
  const ResolveFailed: string := "resolve_manifest_url failed"
  /** The panic of slicing `sha256[..8]` out of a shorter string. */
  const ShortChecksum: string := "byte index 8 is out of range"

  /** The manifest URL: the override when given, else the registry's; a
      registry failure panics instead of returning an error. */
  function ManifestUrl(modelName: string, urlOverride: Option<string>, registry: Outcome<Table>): (r: Outcome<string>)
    ensures urlOverride.Some? ==> r == Ok(urlOverride.value)
    ensures urlOverride.None? && ResolveManifestUrl(registry, modelName).Ok? ==> r == ResolveManifestUrl(registry, modelName)
    ensures urlOverride.None? && !ResolveManifestUrl(registry, modelName).Ok? ==> r.Panic?
    ensures !r.Err?
  {
    if urlOverride.Some? then Ok(urlOverride.value)
    else
      var resolved := ResolveManifestUrl(registry, modelName);
      if resolved.Ok? then resolved else Panic(ResolveFailed)
  }

  /** The extension of the cache file: "." and the text after the last '.'
      of the artifact's file name (`rsplit('.').next()`), which is the whole
      name when it has no '.'. */
  function Ext(file: string): (e: string)
    ensures |e| >= 1 && e[0] == '.' && '.' !in e[1..]
    ensures |e| - 1 <= |file| && e[1..] == file[|file| - (|e| - 1)..]
    ensures |e| - 1 < |file| ==> file[|file| - |e|] == '.'
  {
    match LastIndexOf(file, '.')
    case None => "." + file
    case Some(k) => "." + file[k + 1..]
  }

  /** The cache file name `{name}-{sha256[..8]}{ext}`; slicing a checksum of
      fewer than 8 characters panics. */
  function CacheFileName(name: string, sha256: string, file: string): (r: Outcome<string>)
    ensures r.Panic? <==> |sha256| < 8
    ensures !r.Err?
    ensures r.Ok? ==> |r.value| == |name| + 9 + |Ext(file)|
  {
    if |sha256| < 8 then Panic(ShortChecksum) else Ok(name + "-" + sha256[..8] + Ext(file))
  }

  /** For one model name, the cache file name tells the first 8 characters
      of the checksum and the extension apart, and depends on nothing else. */
  lemma CacheFileNameDetermines(name: string, sha1: string, file1: string, sha2: string, file2: string)
    requires |sha1| >= 8 && |sha2| >= 8
    ensures CacheFileName(name, sha1, file1) == CacheFileName(name, sha2, file2)
            <==> sha1[..8] == sha2[..8] && Ext(file1) == Ext(file2)
  {
    if CacheFileName(name, sha1, file1) == CacheFileName(name, sha2, file2) {
      ConcatSplits(name + "-", sha1[..8], Ext(file1), sha2[..8], Ext(file2));
    }
  }

  /** What `ensure_model` settles before it touches the cache. */
  datatype Target = Target(manifest: ModelManifest, artifact: Artifact, localPath: string)

  /** The steps before the cache check: URL, manifest request, primary
      artifact, cache directory (`models_cache_dir` and `create_dir_all`),
      file name. */
  function Prepare(modelName: string, urlOverride: Option<string>, registry: Outcome<Table>,
                   fetchManifest: string -> Outcome<ModelManifest>, cacheDir: Outcome<string>): (r: Outcome<Target>)
    ensures ManifestUrl(modelName, urlOverride, registry).Panic? ==> r.Panic?
    ensures r.Ok? ==> ManifestUrl(modelName, urlOverride, registry).Ok?
                      && fetchManifest(ManifestUrl(modelName, urlOverride, registry).value).Ok?
                      && r.value.manifest == fetchManifest(ManifestUrl(modelName, urlOverride, registry).value).value
                      && r.value.manifest.primary == Resolved(r.value.artifact)
                      && cacheDir.Ok? && |r.value.artifact.sha256| >= 8
                      && r.value.localPath == Join(cacheDir.value, CacheFileName(r.value.manifest.name, r.value.artifact.sha256, r.value.artifact.file).value)
    ensures ManifestUrl(modelName, urlOverride, registry).Ok?
            && fetchManifest(ManifestUrl(modelName, urlOverride, registry).value).Ok?
            && fetchManifest(ManifestUrl(modelName, urlOverride, registry).value).value.primary.Unresolvable?
            ==> r == Err(Manifest(fetchManifest(ManifestUrl(modelName, urlOverride, registry).value).value.primary.reason))
    ensures var url := ManifestUrl(modelName, urlOverride, registry);
            url.Ok? && !fetchManifest(url.value).Ok? ==> r == Propagate(fetchManifest(url.value))
    ensures var url := ManifestUrl(modelName, urlOverride, registry);
            url.Ok? && fetchManifest(url.value).Ok? && fetchManifest(url.value).value.primary.Resolved? ==>
              && (!cacheDir.Ok? ==> r == Propagate(cacheDir))
              && (cacheDir.Ok? && |fetchManifest(url.value).value.primary.artifact.sha256| < 8 ==> r.Panic?)
  {
    var url := ManifestUrl(modelName, urlOverride, registry);
    if !url.Ok? then Propagate(url)
    else
      var fetched := fetchManifest(url.value);
      if !fetched.Ok? then Propagate(fetched)
      else
        var mf := fetched.value;
        if mf.primary.Unresolvable? then Err(Manifest(mf.primary.reason))
        else
          var a := mf.primary.artifact;
          if !cacheDir.Ok? then Propagate(cacheDir)
          else
            var name := CacheFileName(mf.name, a.sha256, a.file);
            if !name.Ok? then Propagate(name)
            else Ok(Target(mf, a, Join(cacheDir.value, name.value)))
  }

  /** The outcome of `ensure_model` reduced to success or its failure. */
  function Status(r: Outcome<ModelHandle>): Outcome<()>
  {
    if r.Ok? then Ok(()) else Propagate(r)
  }

  /** `ensure_model`. `downloaded` tells whether the artifact was fetched,
      `sizeWarning` whether the size-mismatch warning was printed; `faults`
      are the disk faults of a download (rename error, read-back fault). */
  method EnsureModel(cache: CacheDir, modelName: string, urlOverride: Option<string>, registry: Outcome<Table>,
                     fetchManifest: string -> Outcome<ModelManifest>, cacheDir: Outcome<string>,
                     fetch: string -> Outcome<seq<bv8>>, faults: DiskFaults, sha: seq<bv8> -> seq<bv8>)
    returns (r: Outcome<ModelHandle>, downloaded: bool, sizeWarning: bool)
    modifies cache
    ensures var t := Prepare(modelName, urlOverride, registry, fetchManifest, cacheDir);
            !t.Ok? ==> r == Propagate(t) && !downloaded && !sizeWarning && cache.files == old(cache.files)
    ensures var t := Prepare(modelName, urlOverride, registry, fetchManifest, cacheDir);
            t.Ok? ==>
              && CacheStep(old(cache.files), cache.files, t.value.artifact.url, t.value.artifact.sha256,
                           SizeToCheck(t.value.artifact), t.value.localPath, fetch, faults, sha, Status(r), downloaded, sizeWarning)
              && (r.Ok? ==> r.value == ModelHandle(t.value.manifest, t.value.localPath))
  {
    var t := Prepare(modelName, urlOverride, registry, fetchManifest, cacheDir);
    if !t.Ok? {
      return Propagate(t), false, false;
    }
    var a := t.value.artifact;
    var step;
    step, downloaded, sizeWarning := SyncArtifact(cache, a.url, a.sha256, SizeToCheck(a), t.value.localPath, fetch, faults, sha);
    if !step.Ok? {
      return Propagate(step), downloaded, sizeWarning;
    }
    r := Ok(ModelHandle(t.value.manifest, t.value.localPath));
  }

  /** The size is compared only when the manifest gives one. */
  function SizeToCheck(a: Artifact): (s: Option<nat>)
    ensures s.Some? <==> a.sizeBytes > 0
    ensures s.Some? ==> s.value == a.sizeBytes
  {
    if a.sizeBytes > 0 then Some(a.sizeBytes) else None
  }
}
