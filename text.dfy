/**
 * String helpers shared by the core: ASCII case folding and comparison
 * (`to_lowercase`, `eq_ignore_ascii_case`), lowercase hex encoding
 * (`hex::encode`) and the two `std::path` operations the splitter uses
 * (`PathBuf::join` of a relative name and `Path::file_stem`).
 */
module Text {
  import opened Errors

  function LowerChar(c: char): (r: char)
    ensures 'A' <= c <= 'Z' ==> r as int == c as int + 32
    ensures !('A' <= c <= 'Z') ==> r == c
  {
    if 'A' <= c <= 'Z' then (c as int + 32) as char else c
  }

  function UpperChar(c: char): (r: char)
    ensures 'a' <= c <= 'z' ==> r as int == c as int - 32
    ensures !('a' <= c <= 'z') ==> r == c
  {
    if 'a' <= c <= 'z' then (c as int - 32) as char else c
  }

  /** Lower-cases every ASCII letter and leaves every other character alone. */
  function Lower(s: string): (r: string)
    ensures |r| == |s|
    ensures forall i :: 0 <= i < |s| ==> r[i] == LowerChar(s[i])
  {
    seq(|s|, i requires 0 <= i < |s| => LowerChar(s[i]))
  }

  function Upper(s: string): (r: string)
    ensures |r| == |s|
    ensures forall i :: 0 <= i < |s| ==> r[i] == UpperChar(s[i])
  {
    seq(|s|, i requires 0 <= i < |s| => UpperChar(s[i]))
  }

  /** `str::eq_ignore_ascii_case`: equal lengths and pairwise equal up to ASCII case. */
  function EqIgnoreAsciiCase(a: string, b: string): (r: bool)
    ensures a == b ==> r
    ensures r ==> |a| == |b|
  {
    |a| == |b| && forall i :: 0 <= i < |a| ==> LowerChar(a[i]) == LowerChar(b[i])
  }

  lemma EqIgnoreAsciiCaseIsLowerEquality(a: string, b: string)
    ensures EqIgnoreAsciiCase(a, b) <==> Lower(a) == Lower(b)
  {
    if Lower(a) == Lower(b) {
      forall i | 0 <= i < |a| ensures LowerChar(a[i]) == LowerChar(b[i]) {
        assert Lower(a)[i] == Lower(b)[i];
      }
    }
  }

  const HexDigits: string := "0123456789abcdef"

  predicate IsLowerHex(s: string)
  {
    forall i :: 0 <= i < |s| ==> s[i] in HexDigits
  }

  function HexDigit(v: bv8): (c: char)
    requires v < 16
    ensures c in HexDigits
  {
    HexDigits[v as int]
  }

  /** `hex::encode`: two lowercase hex digits per byte, high nibble first. */
  function HexEncode(bytes: seq<bv8>): (r: string)
    ensures |r| == 2 * |bytes|
    ensures IsLowerHex(r)
  {
    if bytes == [] then ""
    else [HexDigit(bytes[0] >> 4), HexDigit(bytes[0] & 15)] + HexEncode(bytes[1..])
  }

  lemma LowerOfLowerHex(s: string)
    requires IsLowerHex(s)
    ensures Lower(s) == s
  {
    forall i | 0 <= i < |s| ensures Lower(s)[i] == s[i] {
      assert s[i] in HexDigits;
    }
  }

  /** Comparing a digest's hex with an expected string ignoring case is the
      same as comparing it with the expected string lower-cased. */
  lemma {:induction false} HexMatchIffLoweredEqual(digest: seq<bv8>, expected: string)
    ensures EqIgnoreAsciiCase(HexEncode(digest), expected) <==> Lower(expected) == HexEncode(digest)
  {
    EqIgnoreAsciiCaseIsLowerEquality(HexEncode(digest), expected);
    LowerOfLowerHex(HexEncode(digest));
  }

  /** Upper-case expected digests match. */
  lemma {:induction false} UppercaseDigestMatches(digest: seq<bv8>)
    ensures EqIgnoreAsciiCase(HexEncode(digest), Upper(HexEncode(digest)))
  {
    var h := HexEncode(digest);
    forall i | 0 <= i < |h| ensures LowerChar(h[i]) == LowerChar(Upper(h)[i]) {
      assert h[i] in HexDigits;
    }
  }

  /** An expected string of the wrong length never matches. */
  lemma WrongLengthNeverMatches(digest: seq<bv8>, expected: string)
    requires |expected| != 2 * |digest|
    ensures !EqIgnoreAsciiCase(HexEncode(digest), expected)
  {
  }

  /** An expected string holding a character that is no hex digit in either case never matches. */
  lemma {:induction false} NonHexNeverMatches(digest: seq<bv8>, expected: string, k: nat)
    requires k < |expected| && LowerChar(expected[k]) !in HexDigits
    ensures !EqIgnoreAsciiCase(HexEncode(digest), expected)
  {
    var h := HexEncode(digest);
    if |h| == |expected| {
      assert h[k] in HexDigits;
      assert LowerChar(h[k]) == h[k];
    }
  }

  /** `PathBuf::from(dir).join(name)` for a relative `name` without separators. */
  function Join(dir: string, name: string): (p: string)
    ensures dir == "" ==> p == name
    ensures dir != "" ==> |p| >= |dir| + |name| && p[..|dir|] == dir && p[|p| - |name|..] == name
    ensures dir != "" && dir[|dir| - 1] != '/' ==> p == dir + "/" + name
  {
    if dir == "" then name
    else if dir[|dir| - 1] == '/' then dir + name
    else dir + "/" + name
  }

  /** Index of the last occurrence of `c` in `s`. */
  function LastIndexOf(s: string, c: char): (r: Option<nat>)
    ensures r.None? ==> c !in s
    ensures r.Some? ==> r.value < |s| && s[r.value] == c && c !in s[r.value + 1..]
  {
    if s == [] then None
    else if s[|s| - 1] == c then Some(|s| - 1)
    else
      var r := LastIndexOf(s[..|s| - 1], c);
      assert r.Some? ==> s[r.value + 1..] == s[..|s| - 1][r.value + 1..] + [s[|s| - 1]];
      assert r.None? ==> s == s[..|s| - 1] + [s[|s| - 1]];
      r
  }

  /** `path` without its trailing separators. */
  function TrimTrailingSlashes(path: string): (r: string)
    ensures r == [] || r[|r| - 1] != '/'
    ensures |r| <= |path| && r == path[..|r|]
  {
    if path != [] && path[|path| - 1] == '/' then TrimTrailingSlashes(path[..|path| - 1]) else path
  }

  /** `path` without trailing separators and trailing `.` components, which
      `Path::components` skips. */
  function TrimCurDirs(path: string): (r: string)
    ensures r == [] || r[|r| - 1] != '/'
    ensures |r| < 2 || r[|r| - 2..] != "/."
    ensures |r| <= |path| && r == path[..|r|]
    decreases |path|
  {
    var t := TrimTrailingSlashes(path);
    if |t| >= 2 && t[|t| - 2..] == "/." then
      var r := TrimCurDirs(t[..|t| - 1]);
      assert r == path[..|r|] by {
        assert t[..|t| - 1] == path[..|t| - 1];
      }
      r
    else t
  }

  /** `Path::file_name`: the last component, none when the path is empty,
      ends in a root, or ends in `..` (or is `.`); trailing `.` components
      are skipped. */
  function FileName(path: string): (r: Option<string>)
    ensures r.Some? ==> r.value != [] && '/' !in r.value && r.value != "." && r.value != ".."
  {
    var trimmed := TrimCurDirs(path);
    var name := match LastIndexOf(trimmed, '/')
      case None => trimmed
      case Some(k) => trimmed[k + 1..];
    if name == [] || name == "." || name == ".." then None else Some(name)
  }

  /** `Path::file_stem`: the file name without its last extension; a name
      whose only dot is its first character is kept whole. */
  function FileStem(path: string): (r: Option<string>)
    ensures r.Some? ==> r.value != [] && '/' !in r.value
    ensures FileName(path).None? <==> r.None?
  {
    match FileName(path)
    case None => None
    case Some(name) =>
      match LastIndexOf(name, '.')
      case None => Some(name)
      case Some(k) => if k == 0 then Some(name) else Some(name[..k])
  }

  /** A trailing `/.` does not change the file name. */
  lemma CurDirIgnored(path: string)
    ensures FileName(path + "/.") == FileName(path)
  {
    var p := path + "/.";
    assert TrimTrailingSlashes(p) == p;
    assert p[|p| - 2..] == "/.";
    assert p[..|p| - 1] == path + "/";
    assert (path + "/")[..|path|] == path;
    assert TrimTrailingSlashes(path + "/") == TrimTrailingSlashes(path);
    assert TrimCurDirs(p) == TrimCurDirs(path + "/");
    assert TrimCurDirs(path + "/") == TrimCurDirs(path);
  }

  /** Equal concatenations with a common head and middles of one length
      have equal middles and equal tails. */
  lemma ConcatSplits(head: string, x1: string, y1: string, x2: string, y2: string)
    requires |x1| == |x2| && head + x1 + y1 == head + x2 + y2
    ensures x1 == x2 && y1 == y2
  {
    var s := head + x1 + y1;
    assert x1 == s[|head|..|head| + |x1|];
    assert x2 == (head + x2 + y2)[|head|..|head| + |x2|];
    assert y1 == s[|head| + |x1|..];
    assert y2 == (head + x2 + y2)[|head| + |x2|..];
  }

  /** Joining two names onto one directory gives two paths, unless the names
      are equal. */
  lemma JoinInjective(dir: string, n1: string, n2: string)
    ensures Join(dir, n1) == Join(dir, n2) ==> n1 == n2
  {
    var p1, p2 := Join(dir, n1), Join(dir, n2);
    if p1 == p2 && dir != "" {
      var head := if dir[|dir| - 1] == '/' then dir else dir + "/";
      assert p1 == head + n1 && p2 == head + n2;
      assert n1 == p1[|head|..] && n2 == p2[|head|..];
    }
  }
}
