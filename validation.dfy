/**
 * The extension checks of backend/app/utils/validation.py: the extension of the lower-cased
 * filename, as POSIX `os.path.splitext` computes it, must be one of an allowed set.
 */
module Validation {
  import opened Wrappers
  import Strings

  const AllowedTiffExtensions: set<string> := {".tif", ".tiff"}
  const AllowedNetcdfExtensions: set<string> := {".nc", ".netcdf"}
  const TiffMessagePrefix := "File must be a TIFF file. Allowed extensions: "
  const NetcdfMessagePrefix := "File must be a NetCDF file. Allowed extensions: "

  /** `s.rfind(c)`: the last position of `c` in `s`, or -1. */
  function LastIndexOf(s: string, c: char): (i: int)
    ensures -1 <= i < |s|
    ensures i >= 0 ==> s[i] == c
    ensures forall j :: i < j < |s| ==> s[j] != c
  {
    if s == [] then -1
    else if s[|s| - 1] == c then |s| - 1
    else LastIndexOf(s[..|s| - 1], c)
  }

  /** The two properties of `LastIndexOf` determine it. */
  lemma LastIndexUnique(s: string, c: char, i: int)
    requires -1 <= i < |s| && (i >= 0 ==> s[i] == c)
    requires forall j :: i < j < |s| ==> s[j] != c
    ensures LastIndexOf(s, c) == i
  {
  }

  /** Some position in `[lo, hi)` of `p` holds a character other than a dot. */
  predicate HasNonDot(p: string, lo: int, hi: int)
    requires 0 <= lo && hi <= |p|
  {
    exists k :: lo <= k < hi && p[k] != '.'
  }

  /**
   * POSIX `os.path.splitext(p)`: the extension runs from the last dot of the final path
   * component to the end, provided that dot is not one of the component's leading dots;
   * otherwise there is none. The two parts always put `p` back together.
   */
  function Splitext(p: string): (r: (string, string))
    ensures r.0 + r.1 == p
    ensures r.1 != "" ==> r.1[0] == '.' && '.' !in r.1[1..] && '/' !in r.1
  {
    var sep := LastIndexOf(p, '/');
    var dot := LastIndexOf(p, '.');
    if dot > sep && HasNonDot(p, sep + 1, dot) then
      assert p[..dot] + p[dot..] == p;
      (p[..dot], p[dot..])
    else (p, "")
  }

  /**
   * A final component with something other than dots before its last dot has exactly that
   * dot's suffix as its extension.
   */
  lemma SplitSuffix(stem: string, ext: string)
    requires |ext| >= 1 && ext[0] == '.' && '.' !in ext[1..] && '/' !in ext
    requires HasNonDot(stem, LastIndexOf(stem, '/') + 1, |stem|)
    ensures Splitext(stem + ext) == (stem, ext)
  {
    var p := stem + ext;
    var sep := LastIndexOf(stem, '/');
    forall j | sep < j < |p|
      ensures p[j] != '/'
    {
      if j >= |stem| {
        assert p[j] == ext[j - |stem|];
      }
    }
    LastIndexUnique(p, '/', sep);
    forall j | |stem| < j < |p|
      ensures p[j] != '.'
    {
      assert p[j] == ext[1..][j - |stem| - 1];
    }
    LastIndexUnique(p, '.', |stem|);
    var k :| sep + 1 <= k < |stem| && stem[k] != '.';
    assert p[k] == stem[k];
    assert p[..|stem|] == stem;
    assert p[|stem|..] == ext;
  }

  /** A final component without a dot after its first character has no extension. */
  lemma NoSuffix(p: string)
    requires forall j :: LastIndexOf(p, '/') + 1 < j < |p| ==> p[j] != '.'
    ensures Splitext(p) == (p, "")
  {
    var sep := LastIndexOf(p, '/');
    var dot := LastIndexOf(p, '.');
    if dot > sep {
      assert dot == sep + 1;
    }
  }

  /** The extension `validate_*_file` tests: that of the lower-cased name, `""` for a missing one. */
  function Extension(filename: Option<string>): (r: string)
    ensures filename.None? ==> r == ""
    ensures r != "" ==> r[0] == '.' && '.' !in r[1..] && '/' !in r
  {
    Splitext(Strings.Lower(filename.GetOr(""))).1
  }

  /** `', '.join(parts)` */
  function JoinWith(parts: seq<string>, sep: string): string
  {
    if parts == [] then ""
    else if |parts| == 1 then parts[0]
    else parts[0] + sep + JoinWith(parts[1..], sep)
  }

  /** `shown` lists each member of `allowed` exactly once: one iteration order of the set. */
  predicate SetOrder(shown: seq<string>, allowed: set<string>)
  {
    && (forall i, j :: 0 <= i < j < |shown| ==> shown[i] != shown[j])
    && (set x | x in shown) == allowed
  }

  /**
   * The shared body of the two validators. `shown` is the order in which the set happens to
   * iterate when the message joins it.
   */
  function ValidateExtension(filename: Option<string>, allowed: set<string>, prefix: string, shown: seq<string>)
    : (r: (bool, string))
    requires SetOrder(shown, allowed)
    ensures r.0 <==> Extension(filename) in allowed
    ensures r.0 ==> r.1 == ""
    ensures !r.0 ==> r.1 == prefix + JoinWith(shown, ", ")
  {
    if Extension(filename) !in allowed then (false, prefix + JoinWith(shown, ", ")) else (true, "")
  }

  /** `validate_tiff_file(file)` */
  function ValidateTiffFile(filename: Option<string>, shown: seq<string>): (r: (bool, string))
    requires SetOrder(shown, AllowedTiffExtensions)
    ensures r.0 <==> Extension(filename) in AllowedTiffExtensions
    ensures r == if r.0 then (true, "") else (false, TiffMessagePrefix + JoinWith(shown, ", "))
  {
    ValidateExtension(filename, AllowedTiffExtensions, TiffMessagePrefix, shown)
  }

  /** `validate_netcdf_file(file)` */
  function ValidateNetcdfFile(filename: Option<string>, shown: seq<string>): (r: (bool, string))
    requires SetOrder(shown, AllowedNetcdfExtensions)
    ensures r.0 <==> Extension(filename) in AllowedNetcdfExtensions
    ensures r == if r.0 then (true, "") else (false, NetcdfMessagePrefix + JoinWith(shown, ", "))
  {
    ValidateExtension(filename, AllowedNetcdfExtensions, NetcdfMessagePrefix, shown)
  }

  /** A missing or empty name has no extension, so both validators reject it. */
  lemma EmptyNameRejected(filename: Option<string>)
    requires filename.None? || filename.value == ""
    ensures Extension(filename) == ""
    ensures Extension(filename) !in AllowedTiffExtensions && Extension(filename) !in AllowedNetcdfExtensions
  {
    assert Strings.Lower("") == "";
  }

  /** An accepted name is present and non-empty. */
  lemma AcceptedNameIsPresent(filename: Option<string>, allowed: set<string>)
    requires "" !in allowed && Extension(filename) in allowed
    ensures filename.Some? && filename.value != ""
  {
    if filename.None? || filename.value == "" {
      EmptyNameRejected(filename);
    }
  }

  /** The checks ignore case: a name and its lower-cased form get the same verdict. */
  lemma CaseInsensitive(name: string)
    ensures Extension(Some(name)) == Extension(Some(Strings.Lower(name)))
  {
    Strings.LowerIdempotent(name);
  }

  lemma LowerCaseUnchanged(s: string)
    requires forall i :: 0 <= i < |s| ==> !('A' <= s[i] <= 'Z')
    ensures Strings.Lower(s) == s
  {
    assert forall i :: 0 <= i < |s| ==> Strings.Lower(s)[i] == s[i];
  }

  /** `A.TIF` passes the TIFF check. */
  lemma UpperCaseTiffAccepted()
    ensures Extension(Some("A.TIF")) == ".tif"
  {
    var l := Strings.Lower("A.TIF");
    assert l == "a.tif";
    assert l == "a" + ".tif";
    assert LastIndexOf("a", '/') == -1;
    assert "a"[0] != '.';
    SplitSuffix("a", ".tif");
  }

  /** `x.tif.bak` has the extension `.bak`. */
  lemma BackupRejected()
    ensures Extension(Some("x.tif.bak")) == ".bak"
  {
    var stem := "x.tif";
    LowerCaseUnchanged("x.tif.bak");
    assert "x.tif.bak" == stem + ".bak";
    PlainStem(stem);
    BakSuffix();
    SplitSuffix(stem, ".bak");
  }

  /** A slash-free name starting with a character other than a dot can carry an extension. */
  lemma PlainStem(stem: string)
    requires |stem| >= 1 && stem[0] != '.' && '/' !in stem
    ensures LastIndexOf(stem, '/') == -1
    ensures HasNonDot(stem, LastIndexOf(stem, '/') + 1, |stem|)
  {
    LastIndexUnique(stem, '/', -1);
  }

  lemma BakSuffix()
    ensures |".bak"| >= 1 && ".bak"[0] == '.' && '.' !in ".bak"[1..] && '/' !in ".bak"
  {
    assert ".bak"[1..] == "bak";
  }

  /** A dot file such as `.tif` has no extension. */
  lemma DotFileRejected()
    ensures Extension(Some(".tif")) == ""
  {
    var l := ".tif";
    LowerCaseUnchanged(l);
    assert LastIndexOf(l, '/') == -1 by {
      LastIndexUnique(l, '/', -1);
    }
    NoSuffix(l);
  }
}
