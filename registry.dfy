/**
 * The model registry (src/registry.rs): a table of model names and their
 * manifest URLs, embedded in the binary as JSON, and the lookup that picks
 * the manifest URL for a model name.
 */
module ModelRegistry {
  import opened Errors

  /** `RegistryEntry`. */
  datatype Entry = Entry(name: string, manifest: string)

  /** `Registry`: the default model name and the entries, in file order. */
  datatype Table = Table(default: string, models: seq<Entry>)

  /** The name looked up: the default for an empty name, else the name itself. */
  function Target(reg: Table, modelName: string): (t: string)
    ensures modelName == "" ==> t == reg.default
    ensures modelName != "" ==> t == modelName
  {
    if modelName == "" then reg.default else modelName
  }

  /** `Iterator::find` on the entries, then the manifest of the match. */
  function FindManifest(models: seq<Entry>, target: string): (r: Option<string>)
    ensures r.Some? ==> exists e :: e in models && e.name == target && e.manifest == r.value
  {
    if models == [] then None
    else if models[0].name == target then Some(models[0].manifest)
    else FindManifest(models[1..], target)
  }

  /** The message of the error for a name that no entry has. */
  function NotFound(target: string): string
  {
    "Model `" + target + "` not found in registry"
  }

  /** `resolve_manifest_url`. `parsed` is the registry table as
      `serde_json::from_str` yields it from the embedded JSON. */
  function ResolveManifestUrl(parsed: Outcome<Table>, modelName: string): (r: Outcome<string>)
    ensures parsed.Err? ==> r == Err(parsed.error)
    ensures parsed.Ok? ==>
              (r.Ok? || r == Err(Registry(NotFound(Target(parsed.value, modelName)))))
    ensures r.Panic? <==> parsed.Panic?
  {
    match parsed
    case Err(e) => Err(e)
    case Panic(m) => Panic(m)
    case Ok(reg) =>
      var target := Target(reg, modelName);
      match FindManifest(reg.models, target)
      case Some(url) => Ok(url)
      case None => Err(Registry(NotFound(target)))
  }

  /** The lookup finds the FIRST entry with exactly the target name, and
      fails exactly when no entry has it. */
  lemma {:induction false} FindManifestIsFirstMatch(models: seq<Entry>, target: string)
    ensures FindManifest(models, target).None? <==> forall i | 0 <= i < |models| :: models[i].name != target
    ensures FindManifest(models, target).Some? ==>
              exists i :: 0 <= i < |models| && models[i].name == target
                          && FindManifest(models, target).value == models[i].manifest
                          && forall j | 0 <= j < i :: models[j].name != target
  {
    if models != [] && models[0].name != target {
      FindManifestIsFirstMatch(models[1..], target);
      if FindManifest(models, target).Some? {
        var i :| 0 <= i < |models[1..]| && models[1..][i].name == target
                 && FindManifest(models[1..], target).value == models[1..][i].manifest
                 && forall j | 0 <= j < i :: models[1..][j].name != target;
        assert models[i + 1] == models[1..][i];
        forall j | 0 <= j < i + 1
          ensures models[j].name != target
        {
          if j > 0 {
            assert models[j] == models[1..][j - 1];
          }
        }
      } else {
        forall i | 0 <= i < |models|
          ensures models[i].name != target
        {
          if i > 0 {
            assert models[i] == models[1..][i - 1];
          }
        }
      }
    }
  }

  /** The entry at i, preceded by no other entry of the target's name,
      decides the result. */
  lemma ResolvesToFirstMatch(reg: Table, modelName: string, i: nat)
    requires i < |reg.models| && reg.models[i].name == Target(reg, modelName)
    requires forall j | 0 <= j < i :: reg.models[j].name != Target(reg, modelName)
    ensures ResolveManifestUrl(Ok(reg), modelName) == Ok(reg.models[i].manifest)
  {
    var target := Target(reg, modelName);
    FindManifestIsFirstMatch(reg.models, target);
    var k :| 0 <= k < |reg.models| && reg.models[k].name == target
             && FindManifest(reg.models, target).value == reg.models[k].manifest
             && forall j | 0 <= j < k :: reg.models[j].name != target;
    assert k == i;
  }

  /** A successful lookup comes from an entry of the target's name, the
      first one. */
  lemma ResolvedComesFromFirstMatch(reg: Table, modelName: string)
    requires ResolveManifestUrl(Ok(reg), modelName).Ok?
    ensures exists i :: 0 <= i < |reg.models| && reg.models[i].name == Target(reg, modelName)
                        && ResolveManifestUrl(Ok(reg), modelName).value == reg.models[i].manifest
                        && forall j | 0 <= j < i :: reg.models[j].name != Target(reg, modelName)
  {
    FindManifestIsFirstMatch(reg.models, Target(reg, modelName));
  }

  /** A name no entry has (compared exactly, so also one differing only in
      letter case) is a `Registry` error naming it. */
  lemma UnknownNameIsRegistryError(reg: Table, modelName: string)
    requires forall i | 0 <= i < |reg.models| :: reg.models[i].name != Target(reg, modelName)
    ensures ResolveManifestUrl(Ok(reg), modelName) == Err(Registry(NotFound(Target(reg, modelName))))
  {
    FindManifestIsFirstMatch(reg.models, Target(reg, modelName));
  }

  /** An empty name looks up the default model, so it resolves exactly as
      the default's name does. */
  lemma EmptyNameIsDefault(reg: Table)
    requires reg.default != ""
    ensures ResolveManifestUrl(Ok(reg), "") == ResolveManifestUrl(Ok(reg), reg.default)
  {
  }
}
