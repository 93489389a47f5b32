/**
 * The path arithmetic the server relies on: POSIX `os.path.dirname`,
 * `os.path.basename`, `os.path.join`, and the `stem` and `suffix` of a
 * `pathlib` path's final component.
 */
module Paths {

  /** Position of the last occurrence of `c` in `s`, or -1 when there is none. */
  function LastIndexOf(s: string, c: char): (r: int)
    ensures -1 <= r < |s|
    ensures r >= 0 ==> s[r] == c
    ensures forall j :: r < j < |s| ==> s[j] != c
  {
    if |s| == 0 then -1
    else if s[|s| - 1] == c then |s| - 1
    else LastIndexOf(s[..|s| - 1], c)
  }

  predicate AllSlashes(s: string)
  {
    forall i :: 0 <= i < |s| ==> s[i] == '/'
  }

  function RStripSlashes(s: string): string
  {
    if |s| > 0 && s[|s| - 1] == '/' then RStripSlashes(s[..|s| - 1]) else s
  }

  /** `os.path.basename`: everything after the last slash. */
  function Basename(p: string): string
  {
    p[LastIndexOf(p, '/') + 1..]
  }

  /**
   * `os.path.dirname`: everything up to and including the last slash, with the
   * trailing slashes stripped unless that prefix is made of slashes only.
   */
  function Dirname(p: string): string
  {
    var head := p[..LastIndexOf(p, '/') + 1];
    if head != "" && !AllSlashes(head) then RStripSlashes(head) else head
  }

  /** `os.path.join(a, b)` for two components. */
  function Join(a: string, b: string): string
  {
    if |b| > 0 && b[0] == '/' then b
    else if a == "" || a[|a| - 1] == '/' then a + b
    else a + "/" + b
  }

  /** `pathlib.PurePath.suffix` of a final component `name`. */
  function Suffix(name: string): string
  {
    var i := LastIndexOf(name, '.');
    if 0 < i < |name| - 1 then name[i..] else ""
  }

  /** `pathlib.PurePath.stem` of a final component `name`. */
  function Stem(name: string): string
  {
    var i := LastIndexOf(name, '.');
    if 0 < i < |name| - 1 then name[..i] else name
  }

  predicate EndsWith(s: string, tail: string)
  {
    |tail| <= |s| && s[|s| - |tail|..] == tail
  }

  /** The shapes `Dirname` can return: empty, all slashes, or not ending in a slash. */
  predicate IsDirname(d: string)
  {
    d == "" || AllSlashes(d) || d[|d| - 1] != '/'
  }

  /** Paths with different endings of the same length are different paths. */
  lemma DistinctEndings(a: string, b: string, x: string, y: string)
    requires |x| == |y| && x != y && EndsWith(a, x) && EndsWith(b, y)
    ensures a != b
  {
  }

  lemma {:induction false} LastIndexOfAppend(x: string, y: string, c: char)
    requires c !in y
    ensures LastIndexOf(x + y, c) == LastIndexOf(x, c)
    decreases |y|
  {
    if y == [] {
      assert x + y == x;
    } else {
      var y' := y[..|y| - 1];
      assert (x + y)[..|x + y| - 1] == x + y';
      assert y[|y| - 1] in y;
      LastIndexOfAppend(x, y', c);
    }
  }

  lemma {:induction false} RStripSlashesShape(s: string)
    ensures !AllSlashes(s) ==> RStripSlashes(s) != "" && RStripSlashes(s)[|RStripSlashes(s)| - 1] != '/'
    decreases |s|
  {
    if |s| > 0 && s[|s| - 1] == '/' {
      var s' := s[..|s| - 1];
      if !AllSlashes(s) {
        assert !AllSlashes(s');
      }
      RStripSlashesShape(s');
    }
  }

  /** Whatever `Dirname` returns has one of the shapes of `IsDirname`. */
  lemma DirnameShape(p: string)
    ensures IsDirname(Dirname(p))
  {
    var head := p[..LastIndexOf(p, '/') + 1];
    RStripSlashesShape(head);
  }

  /** A joined path ends with its second component unless that component is absolute. */
  lemma JoinEndsWith(a: string, b: string, tail: string)
    requires EndsWith(b, tail)
    ensures EndsWith(Join(a, b), tail)
  {
    var j := Join(a, b);
    assert j == b || j == a + b || j == a + "/" + b;
    assert j[|j| - |b|..] == b;
    assert j[|j| - |tail|..] == b[|b| - |tail|..];
  }

  lemma JoinEmptyDir(n: string)
    requires n != "" && '/' !in n
    ensures Dirname(Join("", n)) == "" && Basename(Join("", n)) == n
  {
    assert n[0] in n;
    assert Join("", n) == n;
    assert LastIndexOf(n, '/') == -1;
    assert n[..0] == "";
  }

  lemma JoinSlashDir(d: string, n: string)
    requires d != "" && AllSlashes(d) && n != "" && '/' !in n
    ensures Dirname(Join(d, n)) == d && Basename(Join(d, n)) == n
  {
    assert n[0] in n;
    assert Join(d, n) == d + n;
    LastIndexOfAppend(d, n, '/');
    assert LastIndexOf(d, '/') == |d| - 1;
    assert (d + n)[..|d|] == d;
    assert (d + n)[|d|..] == n;
  }

  lemma JoinPlainDir(d: string, n: string)
    requires d != "" && d[|d| - 1] != '/' && n != "" && '/' !in n
    ensures Dirname(Join(d, n)) == d && Basename(Join(d, n)) == n
  {
    assert n[0] in n;
    var x := d + "/";
    assert Join(d, n) == x + n;
    LastIndexOfAppend(x, n, '/');
    assert LastIndexOf(x, '/') == |d|;
    assert (x + n)[..|d| + 1] == x;
    assert (x + n)[|d| + 1..] == n;
    assert !AllSlashes(x) by { assert x[|d| - 1] != '/'; }
    assert x[..|x| - 1] == d;
    assert RStripSlashes(x) == d;
  }

  /**
   * Joining a well-formed directory with a slash-free, non-empty name: the
   * directory and the name are recovered by `Dirname` and `Basename`.
   */
  lemma JoinParts(d: string, n: string)
    requires IsDirname(d) && n != "" && '/' !in n
    ensures Dirname(Join(d, n)) == d
    ensures Basename(Join(d, n)) == n
  {
    if d == "" {
      JoinEmptyDir(n);
    } else if AllSlashes(d) {
      JoinSlashDir(d, n);
    } else {
      JoinPlainDir(d, n);
    }
  }

  /** `os.path.join(dir, name + ext)`: a file named `name` with extension `ext` in `dir`. */
  function WithExtension(dir: string, name: string, ext: string): (p: string)
    ensures EndsWith(p, ext)
  {
    JoinEndsWith(dir, name + ext, ext);
    Join(dir, name + ext)
  }

  /** For a well-formed directory and a slash-free name, the directory and `name + ext` come back. */
  lemma WithExtensionParts(dir: string, name: string, ext: string)
    requires IsDirname(dir) && name + ext != "" && '/' !in name + ext
    ensures Dirname(WithExtension(dir, name, ext)) == dir
    ensures Basename(WithExtension(dir, name, ext)) == name + ext
  {
    JoinParts(dir, name + ext);
  }

  lemma BasenameSlashFree(p: string)
    ensures '/' !in Basename(p)
  {
    var k := LastIndexOf(p, '/') + 1;
    var b := p[k..];
    forall j | 0 <= j < |b| ensures b[j] != '/' {
      assert b[j] == p[k + j];
    }
  }

  lemma StemSlashFree(name: string)
    requires '/' !in name
    ensures '/' !in Stem(name)
  {
    var i := LastIndexOf(name, '.');
    if 0 < i < |name| - 1 {
      var s := name[..i];
      forall j | 0 <= j < |s| ensures s[j] != '/' {
        assert s[j] == name[j];
        assert name[j] in name;
      }
    }
  }

  /** The last component never holds a slash, and neither does its stem. */
  lemma BasenameHasNoSlash(p: string)
    ensures '/' !in Basename(p) && '/' !in Stem(Basename(p))
  {
    BasenameSlashFree(p);
    StemSlashFree(Basename(p));
  }

  /** `stem` and `suffix` split a final component without losing anything. */
  lemma StemSuffix(name: string)
    ensures Stem(name) + Suffix(name) == name
  {
  }

  lemma StemNonEmpty(name: string)
    requires name != ""
    ensures Stem(name) != ""
  {
  }

  /** Appending an extension to a non-empty, dot-free-tail stem: the stem and the suffix come back. */
  lemma StemOfExtended(s: string, ext: string)
    requires s != "" && |ext| >= 2 && ext[0] == '.' && '.' !in ext[1..]
    ensures Stem(s + ext) == s && Suffix(s + ext) == ext
  {
    var n := s + ext;
    var i := LastIndexOf(n, '.');
    assert n[|s|] == '.';
    forall j | |s| < j < |n| ensures n[j] != '.' {
      assert n[j] == ext[1..][j - |s| - 1];
    }
    assert i == |s|;
  }

  /** A non-empty stem with `.wav` appended: stem and suffix come back. */
  lemma StemOfWav(s: string)
    requires s != ""
    ensures Stem(s + ".wav") == s && Suffix(s + ".wav") == ".wav"
  {
    assert ".wav"[1..] == "wav";
    StemOfExtended(s, ".wav");
  }

  /** A non-empty stem with `.mp4` appended: stem and suffix come back. */
  lemma StemOfMp4(s: string)
    requires s != ""
    ensures Stem(s + ".mp4") == s && Suffix(s + ".mp4") == ".mp4"
  {
    assert ".mp4"[1..] == "mp4";
    StemOfExtended(s, ".mp4");
  }
}
