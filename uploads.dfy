/**
 * Validation of the name of an uploaded image (`allowed_file` and
 * `ALLOWED_EXTENSIONS` in server.py).
 */
module Uploads {
  import opened Wrappers

  /** The extensions an upload may carry, compared after lower-casing. */
  const AllowedExtensions: set<string> := {"png", "jpg", "jpeg"}

  /** Lower-cases one character; only the ASCII letters A-Z change. */
  function LowerChar(c: char): char
  {
    if 'A' <= c <= 'Z' then (c as int + 32) as char else c
  }

  /** `str.lower()`, character by character. */
  function Lower(s: string): (r: string)
    ensures |r| == |s|
    ensures forall i :: 0 <= i < |s| ==> r[i] == LowerChar(s[i])
  {
    seq(|s|, i requires 0 <= i < |s| => LowerChar(s[i]))
  }

  /**
   * Position of the last '.' in `s`, if any: the place where
   * `s.rsplit('.', 1)` cuts.
   */
  function LastDot(s: string): (r: Option<nat>)
    ensures r.None? <==> '.' !in s
    ensures r.Some? ==> r.value < |s| && s[r.value] == '.' && '.' !in s[r.value + 1..]
  {
    if |s| == 0 then None
    else if s[|s| - 1] == '.' then Some(|s| - 1)
    else
      var r := LastDot(s[..|s| - 1]);
      assert r.Some? ==> s[r.value + 1..] == s[..|s| - 1][r.value + 1..] + [s[|s| - 1]];
      r
  }

  /** `filename.rsplit('.', 1)[1]`, or None when there is no '.'. */
  function Extension(filename: string): (r: Option<string>)
    ensures r.None? <==> '.' !in filename
    ensures r.Some? ==> '.' !in r.value
    ensures r.Some? ==>
      (|r.value| < |filename| && filename[|filename| - |r.value| - 1] == '.' &&
       r.value == filename[|filename| - |r.value|..])
  {
    match LastDot(filename)
    case None => None
    case Some(i) => Some(filename[i + 1..])
  }

  /** `s[i]` is a '.' and no '.' follows it. */
  predicate IsLastDot(s: string, i: int)
  {
    0 <= i < |s| && s[i] == '.' && '.' !in s[i + 1..]
  }

  /** A name has at most one last '.', and LastDot finds it. */
  lemma LastDotIsUnique(s: string)
    ensures forall j :: IsLastDot(s, j) ==> LastDot(s) == Some(j)
  {
  }

  /** `allowed_file(filename)`. */
  function AllowedFile(filename: string): (ok: bool)
    ensures ok <==> exists i :: IsLastDot(filename, i) && Lower(filename[i + 1..]) in AllowedExtensions
  {
    LastDotIsUnique(filename);
    match Extension(filename)
    case None => false
    case Some(ext) =>
      assert IsLastDot(filename, LastDot(filename).value);
      Lower(ext) in AllowedExtensions
  }

  /** A name without any '.' is always refused. */
  lemma NoDotRejected(filename: string)
    requires '.' !in filename
    ensures !AllowedFile(filename)
  {
  }

  /**
   * Every name that holds a '.' splits as stem + "." + ext with no '.' in
   * ext, and the answer depends only on ext, lower-cased.
   */
  lemma AllowedFileByExtension(stem: string, ext: string)
    requires '.' !in ext
    ensures AllowedFile(stem + "." + ext) <==> Lower(ext) in AllowedExtensions
  {
    var s := stem + "." + ext;
    assert s[|stem|] == '.';
    assert s[|stem| + 1..] == ext;
  }

  /** Conversely, every name holding a '.' has such a split. */
  lemma SplitAtLastDot(filename: string) returns (stem: string, ext: string)
    requires '.' in filename
    ensures filename == stem + "." + ext && '.' !in ext
    ensures AllowedFile(filename) <==> Lower(ext) in AllowedExtensions
  {
    var i := LastDot(filename).value;
    stem, ext := filename[..i], filename[i + 1..];
    assert filename == stem + "." + ext;
    AllowedFileByExtension(stem, ext);
  }

  /** Lower-casing keeps '.' where it is and adds none. */
  lemma LowerKeepsDots(s: string, t: string)
    requires Lower(s) == Lower(t)
    ensures |s| == |t|
    ensures forall i :: 0 <= i < |s| ==> (s[i] == '.' <==> t[i] == '.')
  {
    forall i | 0 <= i < |s|
      ensures s[i] == '.' <==> t[i] == '.'
    {
      assert Lower(s)[i] == Lower(t)[i];
    }
  }

  /** Names that only differ in letter case get the same answer. */
  lemma {:induction false} LastDotIgnoresCase(s: string, t: string)
    requires Lower(s) == Lower(t)
    ensures LastDot(s) == LastDot(t)
  {
    LowerKeepsDots(s, t);
    if |s| > 0 && s[|s| - 1] != '.' {
      var s', t' := s[..|s| - 1], t[..|t| - 1];
      assert Lower(s') == Lower(s)[..|s| - 1];
      assert Lower(t') == Lower(t)[..|t| - 1];
      LastDotIgnoresCase(s', t');
    }
  }

  /** Once the last '.' is known, the answer is read off the text after it. */
  lemma AllowedFileAt(filename: string, i: nat)
    requires LastDot(filename) == Some(i)
    ensures AllowedFile(filename) == (Lower(filename[i + 1..]) in AllowedExtensions)
  {
  }

  /** Lower-casing commutes with taking a suffix. */
  lemma LowerSuffix(s: string, k: nat)
    requires k <= |s|
    ensures Lower(s[k..]) == Lower(s)[k..]
  {
  }

  /** Changing the case of any letter of a name never changes `allowed_file`. */
  lemma CaseInsensitive(a: string, b: string)
    requires Lower(a) == Lower(b)
    ensures AllowedFile(a) == AllowedFile(b)
  {
    LastDotIgnoresCase(a, b);
    match LastDot(a)
    case None =>
    case Some(i) =>
      AllowedFileAt(a, i);
      AllowedFileAt(b, i);
      LowerSuffix(a, i + 1);
      LowerSuffix(b, i + 1);
  }

  /** A suffix after an inner '.' counts: "x.tar.PNG" is accepted. */
  lemma UpperCaseSuffixAccepted()
    ensures AllowedFile("x.tar.PNG")
  {
    AllowedFileByExtension("x.tar", "PNG");
    assert Lower("PNG") == "png";
  }

  /** An empty stem is fine: ".png" is accepted. */
  lemma EmptyStemAccepted()
    ensures AllowedFile(".png")
  {
    AllowedFileByExtension("", "png");
    assert Lower("png") == "png";
  }

  /** A trailing '.' leaves an empty extension: "png." is refused. */
  lemma TrailingDotRejected()
    ensures !AllowedFile("png.")
  {
    AllowedFileByExtension("png", "");
  }

  /** Only the text after the LAST '.' counts: "x.png.gif" is refused. */
  lemma InnerExtensionIgnored()
    ensures !AllowedFile("x.png.gif")
  {
    var f := "x.png.gif";
    assert IsLastDot(f, 5);
    LastDotIsUnique(f);
    AllowedFileAt(f, 5);
    assert Lower(f[6..])[0] == 'g';
  }

  /** A bare extension without a '.' is refused: "png". */
  lemma BareExtensionRejected()
    ensures !AllowedFile("png")
  {
    NoDotRejected("png");
  }

  /** The empty name is refused by `allowed_file` as well. */
  lemma EmptyNameRejected()
    ensures !AllowedFile("")
  {
  }
}
