/** File contents, file paths and the URL pieces the downloader derives file
    names from. Paths are POSIX strings; `urlparse` is approximated (see
    `UrlPath`). */
module Paths {
  import opened Text

  type Bytes = seq<bv8>

  /** One `open(path, "wb").write(content)`. */
  datatype FileWrite = FileWrite(path: string, content: Bytes)

  /** `os.path.join(a, b)` / `Path(a) / b` for POSIX paths. */
  function Join(a: string, b: string): string {
    if b != [] && b[0] == '/' then b
    else if a == [] || a[|a| - 1] == '/' then a + b
    else a + "/" + b
  }

  // ---------------------------------------------------------------------------
  // Last path segment and extension

  /** The text after the last `/` (all of `s` when it has none). */
  function LastSegment(s: string): string
    decreases |s|
  {
    if s == [] || s[|s| - 1] == '/' then [] else LastSegment(s[..|s| - 1]) + [s[|s| - 1]]
  }

  /** The last segment is a suffix without `/`. */
  lemma {:induction false} LastSegmentSpec(s: string)
    ensures '/' !in LastSegment(s)
    ensures EndsWith(s, LastSegment(s))
    decreases |s|
  {
    if s != [] && s[|s| - 1] != '/' {
      var init := s[..|s| - 1];
      var r := LastSegment(init);
      LastSegmentSpec(init);
      assert s == init + [s[|s| - 1]];
      assert init[|init| - |r|..] == r;
      assert s[|s| - |r| - 1..] == init[|init| - |r|..] + [s[|s| - 1]];
      assert forall c :: c in r + [s[|s| - 1]] ==> c in r || c == s[|s| - 1];
    }
  }

  lemma {:induction false} LastSegmentAppend(a: string, s: string)
    requires '/' !in s
    ensures LastSegment(a + s) == LastSegment(a) + s
    decreases |s|
  {
    if s == [] {
      assert a + s == a;
    } else {
      var s' := s[..|s| - 1];
      assert (a + s)[..|a + s| - 1] == a + s';
      LastSegmentAppend(a, s');
      assert s == s' + [s[|s| - 1]];
    }
  }

  /** A separator followed by a slash-free name: that name is the last segment. */
  lemma LastSegmentAfterSlash(a: string, name: string)
    requires '/' !in name
    ensures LastSegment(a + "/" + name) == name
  {
    LastSegmentAppend(a + "/", name);
  }

  /** Index of the last `.` in `b`, or -1. */
  function LastDot(b: string): (k: int)
    ensures -1 <= k < |b|
    decreases |b|
  {
    if b == [] then -1
    else if b[|b| - 1] == '.' then |b| - 1
    else LastDot(b[..|b| - 1])
  }

  lemma {:induction false} LastDotSpec(b: string)
    ensures LastDot(b) >= 0 ==> b[LastDot(b)] == '.' && forall j :: LastDot(b) < j < |b| ==> b[j] != '.'
    ensures LastDot(b) == -1 ==> '.' !in b
    decreases |b|
  {
    if b != [] && b[|b| - 1] != '.' {
      LastDotSpec(b[..|b| - 1]);
      assert forall c :: c in b ==> c in b[..|b| - 1] || c == b[|b| - 1];
    }
  }

  predicate HasNonDot(s: string) {
    exists i :: 0 <= i < |s| && s[i] != '.'
  }

  /** `os.path.splitext(p)[1]`: from the last `.` of the last segment on,
      provided that segment has a character other than `.` before it. */
  function Extension(p: string): string {
    var base := LastSegment(p);
    var k := LastDot(base);
    if k > 0 && HasNonDot(base[..k]) then base[k..] else []
  }

  /** An extension is empty or a `.` and what follows it in the last segment:
      a slash-free suffix of the path. */
  lemma ExtensionSpec(p: string)
    ensures var e := Extension(p); e == [] || (e[0] == '.' && '/' !in e && EndsWith(p, e))
  {
    var base := LastSegment(p);
    LastSegmentSpec(p);
    LastDotSpec(base);
    var k := LastDot(base);
    if k > 0 && HasNonDot(base[..k]) {
      assert EndsWith(base, base[k..]);
      assert forall c :: c in base[k..] ==> c in base;
    }
  }

  /** The extensions the subreddit pass accepts, in lower case. */
  const ImageExtensions: seq<string> := [".jpg", ".jpeg", ".png", ".gif"]

  lemma LowerDotSlash(c: char)
    ensures LowerChar(c) == '.' <==> c == '.'
    ensures LowerChar(c) == '/' <==> c == '/'
  {
  }

  /** A `.` followed by characters that are neither `.` nor `/`. */
  predicate IsDotSuffix(s: string) {
    s != [] && s[0] == '.' && forall i :: 0 < i < |s| ==> s[i] != '.' && s[i] != '/'
  }

  lemma ImageExtensionsAreDotSuffixes(x: string)
    requires x in ImageExtensions
    ensures IsDotSuffix(x)
  {
  }

  lemma {:induction false} LastDotOfDotSuffix(a: string, s: string)
    requires IsDotSuffix(s)
    ensures LastDot(a + s) == |a|
    decreases |s|
  {
    if |s| == 1 {
      assert (a + s)[|a + s| - 1] == '.';
    } else {
      var s' := s[..|s| - 1];
      assert (a + s)[..|a + s| - 1] == a + s';
      assert (a + s)[|a + s| - 1] == s[|s| - 1] != '.';
      LastDotOfDotSuffix(a, s');
    }
  }

  /** The extension of a name ending in a dot suffix is that suffix. */
  lemma ExtensionOfDotSuffix(a: string, s: string)
    requires IsDotSuffix(s)
    requires HasNonDot(LastSegment(a))
    ensures Extension(a + s) == s
  {
    assert '/' !in s;
    LastSegmentAppend(a, s);
    var la := LastSegment(a);
    var base := la + s;
    LastDotOfDotSuffix(la, s);
    assert base[..|la|] == la;
    assert base[|la|..] == s;
  }

  /** Lower-casing neither creates nor removes a `.` or a `/`. */
  lemma LowerKeepsDotSuffix(s: string)
    requires IsDotSuffix(Lower(s))
    ensures IsDotSuffix(s)
  {
    forall i | 0 <= i < |s| ensures (s[i] == '.' <==> Lower(s)[i] == '.') && (s[i] == '/' <==> Lower(s)[i] == '/') {
      LowerDotSlash(s[i]);
    }
  }

  /** A path that ends, up to case, in one of the image extensions keeps that
      extension (in its own case) as its `splitext` extension, provided the
      file name has something other than dots before it. */
  lemma ImageExtension(u: string, x: string)
    requires x in ImageExtensions
    requires EndsWith(Lower(u), x)
    requires HasNonDot(LastSegment(u[..|u| - |x|]))
    ensures Lower(Extension(u)) == x
  {
    ImageExtensionsAreDotSuffixes(x);
    var m := |u| - |x|;
    var a, s := u[..m], u[m..];
    assert u == a + s;
    assert Lower(s) == Lower(u)[m..] == x;
    LowerKeepsDotSuffix(s);
    ExtensionOfDotSuffix(a, s);
  }

  // ---------------------------------------------------------------------------
  // URL pieces (an approximation of `urllib.parse.urlparse`)

  /** Everything before the first `?` or `#`. */
  function BeforeQuery(s: string): (r: string)
    ensures IsPrefix(r, s)
    decreases |s|
  {
    if s == [] || s[0] == '?' || s[0] == '#' then [] else [s[0]] + BeforeQuery(s[1..])
  }

  /** Length of the authority part: up to the first `/`, `?` or `#`. */
  function AuthorityLen(s: string): (n: nat)
    ensures n <= |s|
    decreases |s|
  {
    if s == [] || s[0] == '/' || s[0] == '?' || s[0] == '#' then 0 else 1 + AuthorityLen(s[1..])
  }

  /** Index just past the first `://`, if any. */
  function SchemeEnd(s: string): (k: int)
    ensures k == -1 || 3 <= k <= |s|
    decreases |s|
  {
    if |s| < 3 then -1
    else if s[..3] == "://" then 3
    else
      var k := SchemeEnd(s[1..]);
      if k == -1 then -1 else k + 1
  }

  /** The `path` part of a URL. */
  function UrlPath(url: string): string {
    var k := SchemeEnd(url);
    if k == -1 then BeforeQuery(url)
    else BeforeQuery(url[k..][AuthorityLen(url[k..])..])
  }

  /** Everything before the first `;`. */
  function BeforeSemicolon(s: string): (r: string)
    ensures IsPrefix(r, s) && ';' !in r
    decreases |s|
  {
    if s == [] || s[0] == ';' then [] else [s[0]] + BeforeSemicolon(s[1..])
  }

  /** `urlparse` moves `;params` out of the path: the path ends at the first
      `;` after its last `/`. */
  function WithoutParams(path: string): (r: string)
    ensures LastSegment(r) == BeforeSemicolon(LastSegment(path))
  {
    var seg := LastSegment(path);
    LastSegmentSpec(path);
    var dir := path[..|path| - |seg|];
    assert path == dir + seg;
    assert dir == [] || dir[|dir| - 1] == '/' by {
      LastSegmentStart(path);
    }
    LastSegmentAppend(dir, BeforeSemicolon(seg));
    LastSegmentOfDir(dir);
    dir + BeforeSemicolon(seg)
  }

  /** The text before the last segment ends in `/` (or is empty). */
  lemma {:induction false} LastSegmentStart(s: string)
    ensures |LastSegment(s)| <= |s|
    ensures var d := s[..|s| - |LastSegment(s)|]; d == [] || d[|d| - 1] == '/'
    decreases |s|
  {
    LastSegmentSpec(s);
    if s != [] && s[|s| - 1] != '/' {
      var init := s[..|s| - 1];
      LastSegmentStart(init);
      assert s[..|s| - |LastSegment(s)|] == init[..|init| - |LastSegment(init)|];
    }
  }

  lemma LastSegmentOfDir(d: string)
    requires d == [] || d[|d| - 1] == '/'
    ensures LastSegment(d) == []
  {
  }

  /** `pathlib` drops trailing `/` and `.` segments before it names a path. */
  function TrimTail(p: string): (r: string)
    ensures IsPrefix(r, p)
    ensures r == [] || (r[|r| - 1] != '/' && !(r[|r| - 1] == '.' && (|r| == 1 || r[|r| - 2] == '/')))
    decreases |p|
  {
    if p != [] && (p[|p| - 1] == '/' || (p[|p| - 1] == '.' && (|p| == 1 || p[|p| - 2] == '/')))
    then TrimTail(p[..|p| - 1])
    else p
  }

  /** A one-character last segment is the whole string or follows a `/`. */
  lemma LastSegmentSingle(s: string)
    requires |LastSegment(s)| == 1
    ensures s[|s| - 1] == LastSegment(s)[0] && (|s| == 1 || s[|s| - 2] == '/')
  {
    var init := s[..|s| - 1];
    assert LastSegment(init) == [];
  }

  /** A path that does not end in `/` or in a `.` segment does not have `.`
      as its last segment. */
  lemma LastSegmentNotDot(p: string)
    requires p == [] || (p[|p| - 1] != '/' && !(p[|p| - 1] == '.' && (|p| == 1 || p[|p| - 2] == '/')))
    ensures LastSegment(p) != "."
  {
    if LastSegment(p) == "." {
      LastSegmentSingle(p);
    }
  }

  /** `Path(urlparse(url).path).name`: the last segment of the path once the
      parameters and any trailing `/` and `.` segments are gone. */
  function BaseName(url: string): (r: string)
    ensures '/' !in r
    ensures r != "."
  {
    var p := TrimTail(WithoutParams(UrlPath(url)));
    assert LastSegment(p) != "." by {
      LastSegmentNotDot(p);
    }
    assert '/' !in LastSegment(p) by {
      LastSegmentSpec(p);
    }
    LastSegment(p)
  }
}
