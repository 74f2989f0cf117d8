/**
 * POSIX path manipulation as Python's `os.path` does it on strings: `join`
 * of two components, `basename` and `dirname`. No file system is consulted.
 */
module Paths {
  import opened Text

  /** Python `os.path.join(a, b)`: an absolute `b` wins; otherwise one `/` separates the two. */
  function PathJoin(a: string, b: string): (p: string)
    ensures |b| <= |p| && p[|p| - |b|..] == b
    ensures b == [] || b[0] != '/' ==> |a| + |b| <= |p| && p[..|a|] == a
    ensures (b == [] || b[0] != '/') && a != [] ==> p[|p| - |b| - 1] == '/'
  {
    if |b| > 0 && b[0] == '/' then b
    else if a == [] || a[|a| - 1] == '/' then a + b
    else a + "/" + b
  }

  /** Python `os.path.basename(p)`: the text after the last `/`. */
  function Basename(p: string): (name: string)
    ensures '/' !in name
    ensures |name| <= |p| && p[|p| - |name|..] == name
  {
    LastSegment(p, '/')
  }

  /** Drops every `/` at the end of `s` (Python `s.rstrip("/")`). */
  function RStripSlashes(s: string): (r: string)
    ensures |r| <= |s| && s[..|r|] == r
    ensures r == [] || r[|r| - 1] != '/'
    ensures forall i :: |r| <= i < |s| ==> s[i] == '/'
    decreases |s|
  {
    if s != [] && s[|s| - 1] == '/' then RStripSlashes(s[..|s| - 1]) else s
  }

  /**
   * Python `os.path.dirname(p)`: everything up to the last `/`, with the
   * trailing slashes removed unless the head consists of slashes only.
   */
  function Dirname(p: string): (d: string)
    ensures |d| <= |p| && p[..|d|] == d
    ensures d == [] || d[|d| - 1] != '/' || forall k :: 0 <= k < |d| ==> d[k] == '/'
  {
    var head := p[..|p| - |Basename(p)|];
    if head != [] && exists k :: 0 <= k < |head| && head[k] != '/' then RStripSlashes(head)
    else head
  }

  /** A relative name joined to a directory is what `basename` gives back. */
  lemma BasenameOfJoin(dir: string, name: string)
    requires '/' !in name
    ensures Basename(PathJoin(dir, name)) == name
  {
    var p := PathJoin(dir, name);
    if dir == [] {
      assert p == name;
      SplitNoSep(name, '/');
    } else {
      var pre := p[..|p| - |name| - 1];
      assert p == pre + ['/'] + name;
      SplitAtSep(pre, name, '/');
      SplitNoSep(name, '/');
    }
  }

  /** The directory of a joined path is the directory it was joined to. */
  lemma DirnameOfJoin(dir: string, name: string)
    requires dir != [] && dir[|dir| - 1] != '/'
    requires '/' !in name
    ensures Dirname(PathJoin(dir, name)) == dir
  {
    var p := PathJoin(dir, name);
    BasenameOfJoin(dir, name);
    assert p == dir + "/" + name;
    var head := p[..|p| - |name|];
    assert head == dir + "/";
    assert head[|dir| - 1] != '/';
    assert head != [] && exists k :: 0 <= k < |head| && head[k] != '/';
    assert head[..|head| - 1] == dir;
    assert RStripSlashes(dir) == dir;
    assert RStripSlashes(head) == RStripSlashes(dir);
  }

  /** Joining one directory to two different relative names gives two different paths. */
  lemma PathJoinInjective(dir: string, n1: string, n2: string)
    requires '/' !in n1 && '/' !in n2
    requires PathJoin(dir, n1) == PathJoin(dir, n2)
    ensures n1 == n2
  {
    BasenameOfJoin(dir, n1);
    BasenameOfJoin(dir, n2);
  }

  /** Paths whose file names start with different characters are different, whatever their directories. */
  lemma JoinsDiffer(d1: string, n1: string, d2: string, n2: string)
    requires '/' !in n1 && '/' !in n2
    requires n1 != [] && n2 != [] && n1[0] != n2[0]
    ensures PathJoin(d1, n1) != PathJoin(d2, n2)
  {
    BasenameOfJoin(d1, n1);
    BasenameOfJoin(d2, n2);
  }
}
