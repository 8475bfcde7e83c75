/** POSIX `os.path` string functions used by the core: `splitext`, `basename`,
    `dirname` and two-argument `join`. The separator is '/'. */
module Paths {

  /** `s.rfind(c)`: the last index holding `c`, or -1. */
  function LastIndexOf(s: string, c: char): (i: int)
    ensures -1 <= i < |s|
    ensures i >= 0 ==> s[i] == c
    ensures forall j :: i < j < |s| ==> s[j] != c
  {
    if s == [] then -1
    else if s[|s| - 1] == c then |s| - 1
    else LastIndexOf(s[..|s| - 1], c)
  }

  /** True when some character of `p[lo..hi]` is not a dot. */
  predicate HasNonDot(p: string, lo: int, hi: int)
    requires 0 <= lo <= hi <= |p|
  {
    exists j :: lo <= j < hi && p[j] != '.'
  }

  /** `os.path.splitext(p)`: the extension starts at the last dot of the last path
      component, unless that component is only leading dots before it. */
  function Splitext(p: string): (r: (string, string))
    ensures r.0 + r.1 == p
    ensures r.1 == [] || (r.1[0] == '.' && '/' !in r.1 && '.' !in r.1[1..])
  {
    var sepIndex := LastIndexOf(p, '/');
    var dotIndex := LastIndexOf(p, '.');
    if dotIndex > sepIndex && HasNonDot(p, sepIndex + 1, dotIndex) then
      assert p[..dotIndex] + p[dotIndex..] == p;
      (p[..dotIndex], p[dotIndex..])
    else
      (p, "")
  }

  /** `os.path.basename(p)`: everything after the last '/'. */
  function Basename(p: string): (b: string)
    ensures '/' !in b
    ensures |b| <= |p| && b == p[|p| - |b|..]
  {
    p[LastIndexOf(p, '/') + 1..]
  }

  predicate AllSlashes(s: string) {
    forall i :: 0 <= i < |s| ==> s[i] == '/'
  }

  function RStripSlashes(s: string): (r: string)
    ensures |r| <= |s| && r == s[..|r|]
  {
    if s != [] && s[|s| - 1] == '/' then RStripSlashes(s[..|s| - 1]) else s
  }

  /** `os.path.dirname(p)`: everything before the last '/', with trailing slashes
      removed unless the head is made of slashes only. */
  function Dirname(p: string): string {
    var head := p[..LastIndexOf(p, '/') + 1];
    if head != [] && !AllSlashes(head) then RStripSlashes(head) else head
  }

  /** `os.path.join(a, b)` for two components. */
  function Join2(a: string, b: string): (r: string)
    ensures |b| <= |r| && r[|r| - |b|..] == b
  {
    if |b| > 0 && b[0] == '/' then b
    else if a == [] || a[|a| - 1] == '/' then a + b
    else a + "/" + b
  }

  lemma LastIndexOfSuffix(a: string, b: string, c: char)
    requires c !in b && (exists i :: 0 <= i < |a| && a[i] == c)
    ensures LastIndexOf(a + b, c) == LastIndexOf(a, c)
  {
    var s := a + b;
    var i := LastIndexOf(s, c);
    var j :| 0 <= j < |a| && a[j] == c;
    assert s[j] == c;
    assert i >= 0;
    assert forall t :: |a| <= t < |s| ==> s[t] == b[t - |a|];
    var k := LastIndexOf(a, c);
    assert s[k] == c;
  }

  /** Joining a directory and a plain file name, then taking the basename, gives the
      file name back. */
  lemma BasenameJoin(dir: string, name: string)
    requires '/' !in name && name != []
    ensures Basename(Join2(dir, name)) == name
  {
    var r := Join2(dir, name);
    if dir == [] {
      assert r == name;
      assert LastIndexOf(r, '/') == -1;
    } else if dir[|dir| - 1] == '/' {
      assert r == dir + name;
      LastIndexOfSuffix(dir, name, '/');
      assert LastIndexOf(r, '/') == |dir| - 1;
      assert r[|dir|..] == name;
    } else {
      assert r == (dir + "/") + name;
      assert (dir + "/")[|dir|] == '/';
      LastIndexOfSuffix(dir + "/", name, '/');
      assert LastIndexOf(dir + "/", '/') == |dir|;
      assert r[|dir| + 1..] == name;
    }
  }

  /** A stem whose last character is neither a dot nor a separator, followed by
      an extension, splits back into that stem and that extension. */
  lemma SplitextExtension(a: string, e: string)
    requires |a| > 0 && a[|a| - 1] != '.' && a[|a| - 1] != '/'
    requires |e| > 0 && e[0] == '.' && '/' !in e && '.' !in e[1..]
    ensures Splitext(a + e) == (a, e)
  {
    var p := a + e;
    assert p[|a|] == '.';
    assert forall t :: |a| < t < |p| ==> p[t] == e[1..][t - |a| - 1];
    assert LastIndexOf(p, '.') == |a|;
    assert forall t :: |a| <= t < |p| ==> p[t] == e[t - |a|];
    assert p[|a| - 1] != '/';
    assert LastIndexOf(p, '/') < |a| - 1;
    assert HasNonDot(p, LastIndexOf(p, '/') + 1, |a|) by {
      assert p[|a| - 1] != '.';
    }
    assert p[..|a|] == a && p[|a|..] == e;
  }
}
