/**
 * The model cache directory as the model managers see it: a map from
 * path to stored file, which `download_with_progress` (src/io/net.rs)
 * updates. The HTTP transfer is a parameter `fetch`: the bytes a URL
 * serves, or the error the request or the stream fails with.
 */
module Cache {
  import opened Errors
  import opened Crypto

  /** What can go wrong on disk once the bytes have been received:
      `renameError` is the I/O error of `fs::rename` moving the `.part`
      file over the destination, and `readFault` where reading the
      renamed file back fails (None for a sound copy). */
  datatype DiskFaults = DiskFaults(renameError: Option<string>, readFault: Option<nat>)

  class CacheDir {
    var files: map<string, StoredFile>

    constructor (files: map<string, StoredFile>)
      ensures this.files == files
    {
      this.files := files;
    }

    /** `download_with_progress`: the served bytes are written to a
        `.part` file, an existing dest is removed, and the `.part` file is
        renamed over dest. A failed transfer leaves dest as it was; a
        failed rename comes after the removal, so dest is then gone. */
    method Download(fetch: string -> Outcome<seq<bv8>>, url: string, dest: string, faults: DiskFaults)
      returns (r: Outcome<()>)
      modifies this
      ensures !fetch(url).Ok? ==> r == Propagate(fetch(url)) && files == old(files)
      ensures fetch(url).Ok? && faults.renameError.Some? ==>
                r == Err(Anyhow(faults.renameError.value)) && files == old(files) - {dest}
      ensures fetch(url).Ok? && faults.renameError.None? ==>
                r == Ok(()) && files == old(files)[dest := StoredFile(fetch(url).value, faults.readFault)]
    {
      var body := fetch(url);
      if !body.Ok? {
        return Propagate(body);
      }
      files := files - {dest};
      if faults.renameError.Some? {
        return Err(Anyhow(faults.renameError.value));
      }
      files := files[dest := StoredFile(body.value, faults.readFault)];
      r := Ok(());
    }
  }

  /** The cache step of `ensure_model`, from the files before it to the
      files after it: verify the cached copy, download on anything but
      `Ok(true)`, verify again (a read error of this second check is
      returned), and (when `expectedSize` is given) compare the size, which
      only warns. `faults` are the disk faults of the download. */
  ghost predicate CacheStep(before: map<string, StoredFile>, after: map<string, StoredFile>, url: string,
                            sha256: string, expectedSize: Option<nat>, path: string,
                            fetch: string -> Outcome<seq<bv8>>, faults: DiskFaults, sha: seq<bv8> -> seq<bv8>,
                            r: Outcome<()>, downloaded: bool, sizeWarning: bool)
  {
    && (downloaded <==> Verdict(before, path, sha256, sha) != Ok(true))
    && (!downloaded ==> r == Ok(()) && after == before && !sizeWarning)
    && (downloaded && !fetch(url).Ok? ==> r == Propagate(fetch(url)) && after == before && !sizeWarning)
    && (downloaded && fetch(url).Ok? && faults.renameError.Some? ==>
          r == Err(Anyhow(faults.renameError.value)) && after == before - {path} && !sizeWarning)
    && (downloaded && fetch(url).Ok? && faults.renameError.None? ==>
          var written := StoredFile(fetch(url).value, faults.readFault);
          && after == before[path := written]
          && (ReadFails(written) ==> r == Err(Anyhow(ReadFailed)))
          && (!ReadFails(written) ==>
                && (r.Ok? <==> Text.EqIgnoreAsciiCase(Text.HexEncode(sha(fetch(url).value)), sha256))
                && (!r.Ok? ==> r == Err(Checksum(path))))
          && (sizeWarning <==> r.Ok? && expectedSize.Some? && |fetch(url).value| != expectedSize.value))
  }

  /** The step the two `ensure_model` variants share; `downloaded` tells
      whether the artifact was fetched, `sizeWarning` whether the size
      warning was printed. */
  method SyncArtifact(cache: CacheDir, url: string, sha256: string, expectedSize: Option<nat>, path: string,
                      fetch: string -> Outcome<seq<bv8>>, faults: DiskFaults, sha: seq<bv8> -> seq<bv8>)
    returns (r: Outcome<()>, downloaded: bool, sizeWarning: bool)
    modifies cache
    ensures CacheStep(old(cache.files), cache.files, url, sha256, expectedSize, path, fetch, faults, sha, r, downloaded, sizeWarning)
  {
    sizeWarning := false;
    var cached := VerifySha256(cache.files, path, sha256, sha);
    downloaded := cached != Ok(true);
    if !downloaded {
      return Ok(()), downloaded, sizeWarning;
    }
    r := cache.Download(fetch, url, path, faults);
    if !r.Ok? {
      return;
    }
    var recheck := VerifySha256(cache.files, path, sha256, sha);
    if !recheck.Ok? {
      return Propagate(recheck), downloaded, sizeWarning;
    }
    if !recheck.value {
      return Err(Checksum(path)), downloaded, sizeWarning;
    }
    if expectedSize.Some? {
      var size := |cache.files[path].data|;
      sizeWarning := size != expectedSize.value;
    }
  }

  /** After a successful step the cached file verifies. */
  lemma SuccessLeavesVerifiedFile(before: map<string, StoredFile>, after: map<string, StoredFile>, url: string,
                                  sha256: string, expectedSize: Option<nat>, path: string,
                                  fetch: string -> Outcome<seq<bv8>>, faults: DiskFaults, sha: seq<bv8> -> seq<bv8>,
                                  r: Outcome<()>, downloaded: bool, sizeWarning: bool)
    requires CacheStep(before, after, url, sha256, expectedSize, path, fetch, faults, sha, r, downloaded, sizeWarning)
    requires r.Ok?
    ensures Verdict(after, path, sha256, sha) == Ok(true)
  {
    if downloaded {
      assert fetch(url).Ok?;
      assert after[path] == StoredFile(fetch(url).value, faults.readFault);
    }
  }

  /** A second step after a successful one fetches nothing and changes
      nothing: a model is downloaded at most once. */
  lemma SecondStepHitsCache(before: map<string, StoredFile>, mid: map<string, StoredFile>, after: map<string, StoredFile>,
                            url: string, sha256: string, expectedSize: Option<nat>, path: string,
                            fetch: string -> Outcome<seq<bv8>>, faults: DiskFaults, sha: seq<bv8> -> seq<bv8>,
                            r1: Outcome<()>, d1: bool, w1: bool, r2: Outcome<()>, d2: bool, w2: bool)
    requires CacheStep(before, mid, url, sha256, expectedSize, path, fetch, faults, sha, r1, d1, w1) && r1.Ok?
    requires CacheStep(mid, after, url, sha256, expectedSize, path, fetch, faults, sha, r2, d2, w2)
    ensures !d2 && r2 == Ok(()) && after == mid && !w2
  {
    SuccessLeavesVerifiedFile(before, mid, url, sha256, expectedSize, path, fetch, faults, sha, r1, d1, w1);
  }
}
