/**
 * Checksum verification of a cached file (src/io/crypto.rs): read the file
 * in 64 KiB chunks into a SHA-256 hasher, then compare the lower-case hex
 * of the digest with the expected text, ignoring ASCII case. SHA-256
 * itself is a parameter `sha`: a function of the whole byte sequence.
 */
module Crypto {
  import opened Errors
  import opened Text

  /** A file on disk: its bytes and, when reading it fails part-way (a bad
      sector, a file truncated under the reader), the offset of the fault. */
  datatype StoredFile = StoredFile(data: seq<bv8>, readFault: Option<nat>)

  /** The size of the read buffer. */
  const BufSize: nat := 64 * 1024

  /** The I/O error messages; their exact text belongs to the OS. */
  const OpenFailed: string := "No such file or directory (os error 2)"
  const ReadFailed: string := "Input/output error (os error 5)"

  /** Where the reads of f stop: at the end of its data or at the fault. */
  function ReadLimit(f: StoredFile): (l: nat)
    ensures l <= |f.data|
  {
    if f.readFault.Some? && f.readFault.value < |f.data| then f.readFault.value else |f.data|
  }

  /** Reading f to its end meets the fault. */
  predicate ReadFails(f: StoredFile)
  {
    f.readFault.Some? && f.readFault.value <= |f.data|
  }

  /** An open `File` and its read cursor. */
  class Reader {
    const file: StoredFile
    var pos: nat

    constructor (file: StoredFile)
      ensures this.file == file && pos == 0
    {
      this.file := file;
      pos := 0;
    }

    /** `Read::read` into buf: the bytes that fit and remain before the
        limit; at the limit, end of file (0) or, at a fault, an error. */
    method Read(buf: array<bv8>) returns (r: Outcome<nat>)
      requires pos <= ReadLimit(file)
      modifies this, buf
      ensures pos <= ReadLimit(file)
      ensures r.Err? <==> ReadFails(file) && old(pos) == ReadLimit(file)
      ensures r.Err? ==> r.error == Anyhow(ReadFailed) && pos == old(pos)
      ensures !r.Panic?
      ensures r.Ok? ==> r.value <= buf.Length && pos == old(pos) + r.value
                        && buf[..r.value] == file.data[old(pos)..pos]
      ensures r.Ok? && r.value == 0 ==> buf.Length == 0 || pos == ReadLimit(file)
    {
      if ReadFails(file) && pos == ReadLimit(file) {
        return Err(Anyhow(ReadFailed));
      }
      var n := if buf.Length < ReadLimit(file) - pos then buf.Length else ReadLimit(file) - pos;
      var i := 0;
      while i < n
        invariant i <= n && pos + n <= ReadLimit(file)
        invariant buf[..i] == file.data[pos..pos + i]
        modifies buf
      {
        buf[i] := file.data[pos + i];
        assert buf[..i + 1] == buf[..i] + [buf[i]];
        i := i + 1;
      }
      pos := pos + n;
      r := Ok(n);
    }
  }

  /** The incremental SHA-256 state: the bytes fed so far. */
  class Hasher {
    var fed: seq<bv8>

    constructor ()
      ensures fed == []
    {
      fed := [];
    }

    /** `Digest::update`. */
    method Update(chunk: seq<bv8>)
      modifies this
      ensures fed == old(fed) + chunk
    {
      fed := fed + chunk;
    }

    /** `Digest::finalize`: the digest of everything fed. */
    function Finalize(sha: seq<bv8> -> seq<bv8>): (d: seq<bv8>)
      reads this
      ensures d == sha(fed)
    {
      sha(fed)
    }
  }

  /** What `verify_sha256` answers for the file at `path` of `files`. */
  function Verdict(files: map<string, StoredFile>, path: string, expectedHex: string,
                   sha: seq<bv8> -> seq<bv8>): (r: Outcome<bool>)
    ensures path !in files ==> r.Err?
    ensures !r.Panic?
    ensures r == Ok(true) <==>
              path in files && !ReadFails(files[path])
              && EqIgnoreAsciiCase(HexEncode(sha(files[path].data)), expectedHex)
  {
    if path !in files then Err(Anyhow(OpenFailed))
    else if ReadFails(files[path]) then Err(Anyhow(ReadFailed))
    else Ok(EqIgnoreAsciiCase(HexEncode(sha(files[path].data)), expectedHex))
  }

  /** `verify_sha256`: the loop feeds every byte of the file to the hasher
      once, in order, and stops at the first empty read. */
  method VerifySha256(files: map<string, StoredFile>, path: string, expectedHex: string,
                      sha: seq<bv8> -> seq<bv8>) returns (r: Outcome<bool>)
    ensures r == Verdict(files, path, expectedHex, sha)
  {
    if path !in files {
      return Err(Anyhow(OpenFailed));
    }
    var f := new Reader(files[path]);
    var hasher := new Hasher();
    var buf := new bv8[BufSize];
    while true
      invariant f.file == files[path] && f.pos <= ReadLimit(f.file)
      invariant hasher.fed == f.file.data[..f.pos]
      decreases ReadLimit(f.file) - f.pos
    {
      var n := f.Read(buf);
      if n.Err? {
        return Err(n.error);
      }
      if n.value == 0 {
        break;
      }
      hasher.Update(buf[..n.value]);
    }
    assert hasher.fed == f.file.data;
    var got := HexEncode(hasher.Finalize(sha));
    r := Ok(EqIgnoreAsciiCase(got, expectedHex));
  }

  /** An expected digest written in upper case is accepted. */
  lemma UppercaseExpectedMatches(files: map<string, StoredFile>, path: string, sha: seq<bv8> -> seq<bv8>)
    requires path in files && !ReadFails(files[path])
    ensures Verdict(files, path, Upper(HexEncode(sha(files[path].data))), sha) == Ok(true)
  {
    UppercaseDigestMatches(sha(files[path].data));
  }

  /** An expected text of the wrong length, or with a character that is not
      a hex digit, yields `Ok(false)` on a readable file, not an error. */
  lemma MalformedExpectedIsFalse(files: map<string, StoredFile>, path: string, expectedHex: string,
                                 sha: seq<bv8> -> seq<bv8>, k: nat)
    requires path in files && !ReadFails(files[path])
    requires |expectedHex| != 2 * |sha(files[path].data)| || (k < |expectedHex| && LowerChar(expectedHex[k]) !in HexDigits)
    ensures Verdict(files, path, expectedHex, sha) == Ok(false)
  {
    var digest := sha(files[path].data);
    if |expectedHex| != 2 * |digest| {
      WrongLengthNeverMatches(digest, expectedHex);
    } else {
      NonHexNeverMatches(digest, expectedHex, k);
    }
  }
}
