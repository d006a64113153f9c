/**
 The string operations behind the upload keys: `str.rstrip('/')`, and the
 POSIX `os.path.join` (two arguments) and `os.path.basename`.
 */
module Paths {

  predicate NoSlash(t: string) {
    forall k :: 0 <= k < |t| ==> t[k] != '/'
  }

  lemma ConcatHasNoSlash(a: string, b: string)
    requires NoSlash(a) && NoSlash(b)
    ensures NoSlash(a + b)
  {
    assert forall k :: |a| <= k < |a + b| ==> (a + b)[k] == b[k - |a|];
  }

  function Slashes(n: nat): (t: string)
    ensures |t| == n && forall k :: 0 <= k < n ==> t[k] == '/'
  {
    seq(n, _ => '/')
  }

  /** `s.rstrip('/')`: the longest prefix of `s` not ending in `/` whose
      removed tail is all `/`. */
  function RStripSlashes(s: string): (r: string)
    ensures r <= s
    ensures |r| == 0 || r[|r| - 1] != '/'
    ensures forall k :: |r| <= k < |s| ==> s[k] == '/'
    decreases |s|
  {
    if |s| > 0 && s[|s| - 1] == '/' then RStripSlashes(s[..|s| - 1]) else s
  }

  /** The three properties above determine `rstrip('/')` completely. */
  lemma RStripSlashesUnique(s: string, t: string)
    requires t <= s
    requires |t| == 0 || t[|t| - 1] != '/'
    requires forall k :: |t| <= k < |s| ==> s[k] == '/'
    ensures t == RStripSlashes(s)
  {
    var r := RStripSlashes(s);
    assert |t| == |r|;
    assert t == s[..|t|] && r == s[..|r|];
  }

  /** Trailing slashes do not matter: `"a/"`, `"a//"` and `"a"` strip alike. */
  lemma RStripIgnoresTrailingSlashes(s: string, n: nat)
    ensures RStripSlashes(s + Slashes(n)) == RStripSlashes(s)
  {
    var r := RStripSlashes(s);
    var s' := s + Slashes(n);
    assert r <= s';
    assert forall k :: |r| <= k < |s'| ==> s'[k] == '/' by {
      forall k | |r| <= k < |s'|
        ensures s'[k] == '/'
      {
        if k >= |s| {
          assert s'[k] == Slashes(n)[k - |s|];
        }
      }
    }
    RStripSlashesUnique(s', r);
  }

  lemma RStripIdempotent(s: string)
    ensures RStripSlashes(RStripSlashes(s)) == RStripSlashes(s)
  {
    var r := RStripSlashes(s);
    RStripSlashesUnique(r, r);
  }

  /** `posixpath.join(a, b)`: an absolute `b` replaces `a`; otherwise a `/` is
      inserted unless `a` is empty or already ends in one. */
  function Join(a: string, b: string): string {
    if |b| > 0 && b[0] == '/' then b
    else if |a| == 0 || a[|a| - 1] == '/' then a + b
    else a + "/" + b
  }

  /** `p.rfind('/') + 1`: where the last path component starts. */
  function LastComponentStart(p: string): (i: nat)
    ensures i <= |p|
    ensures i > 0 ==> p[i - 1] == '/'
    ensures forall k :: i <= k < |p| ==> p[k] != '/'
    decreases |p|
  {
    if |p| == 0 then 0
    else if p[|p| - 1] == '/' then |p|
    else LastComponentStart(p[..|p| - 1])
  }

  /** `posixpath.basename(p)`: everything after the last `/`. */
  function Basename(p: string): (r: string)
    ensures NoSlash(r)
    ensures |r| <= |p| && r == p[|p| - |r|..]
    ensures |r| < |p| ==> p[|p| - |r| - 1] == '/'
  {
    p[LastComponentStart(p)..]
  }

  /** A path ending in `/` followed by a single component has that component
      as its basename. */
  lemma BasenameAfterSlash(q: string, name: string)
    requires NoSlash(name)
    requires |q| == 0 || q[|q| - 1] == '/'
    ensures Basename(q + name) == name
  {
    var p := q + name;
    var i := LastComponentStart(p);
    assert forall k :: |q| <= k < |p| ==> p[k] == name[k - |q|];
    assert |q| > 0 ==> p[|q| - 1] == '/';
    assert i == |q|;
    assert p[i..] == name;
  }

  /** Joining a single component onto a directory and taking the basename
      gives the component back. */
  lemma BasenameOfJoin(dir: string, name: string)
    requires NoSlash(name)
    ensures Basename(Join(dir, name)) == name
  {
    if |dir| == 0 || dir[|dir| - 1] == '/' {
      BasenameAfterSlash(dir, name);
    } else {
      assert dir + "/" + name == (dir + "/") + name;
      BasenameAfterSlash(dir + "/", name);
    }
  }
}
