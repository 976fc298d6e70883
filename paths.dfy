/** POSIX path strings as Python's `str.startswith`, `str.endswith`,
    `os.path.join` and `os.path.relpath` treat them. */
module Paths {

  predicate StartsWith(s: string, prefix: string)
  {
    |prefix| <= |s| && s[..|prefix|] == prefix
  }

  predicate EndsWith(s: string, suffix: string)
  {
    |suffix| <= |s| && s[|s| - |suffix|..] == suffix
  }

  /** `os.path.join(a, b)`: an absolute `b` replaces `a`; otherwise a `/` is
      inserted unless `a` is empty or already ends in one. */
  function Join(a: string, b: string): string
  {
    if StartsWith(b, "/") then b
    else if a == [] || a[|a| - 1] == '/' then a + b
    else a + "/" + b
  }

  /** The joined path ends in `b`; a relative `b` is appended to `a`, behind
      a separator when `a` does not end in one. */
  lemma JoinParts(a: string, b: string)
    ensures var r := Join(a, b);
      EndsWith(r, b) &&
      (!StartsWith(b, "/") ==> StartsWith(r, a)) &&
      (!StartsWith(b, "/") && a != [] && a[|a| - 1] != '/' ==> |r| == |a| + 1 + |b| && r[|a|] == '/')
  {
    var r := Join(a, b);
    if !StartsWith(b, "/") && !(a == [] || a[|a| - 1] == '/') {
      assert r[|r| - |b|..] == b;
      assert r[..|a|] == a;
    }
  }

  /** A relative name joined under a directory not ending in `/` gets a
      separator of its own, and the result ends as the name does. */
  lemma JoinBelow(a: string, b: string)
    requires a != [] && a[|a| - 1] != '/' && b != [] && b[0] != '/'
    ensures Join(a, b) == a + "/" + b
    ensures var r := Join(a, b); r[|r| - 1] == b[|b| - 1]
  {
  }

  /** `p` names a directory in component `j..` of the path: it is `.` or `..`. */
  predicate IsDotComponent(p: string, j: nat)
  {
    (j < |p| && p[j] == '.' && (j + 1 == |p| || p[j + 1] == '/')) ||
    (j + 1 < |p| && p[j] == '.' && p[j + 1] == '.' && (j + 2 == |p| || p[j + 2] == '/'))
  }

  /** An absolute path as `os.path.abspath` would leave it: no empty, `.` or
      `..` components and no trailing `/` (except the root `/` itself). */
  predicate NormalPath(p: string)
  {
    0 < |p| && p[0] == '/' &&
    (|p| == 1 || (p[|p| - 1] != '/' && forall i :: 0 <= i < |p| - 1 ==> StartsComponent(p, i)))
  }

  /** A `/` at index `i` of `p` is followed by a component that is neither
      empty, `.` nor `..`. */
  predicate StartsComponent(p: string, i: nat)
    requires i < |p| - 1
  {
    p[i] == '/' ==> p[i + 1] != '/' && !IsDotComponent(p, i + 1)
  }

  /** Index of the last `/` in `s`. */
  function LastSlash(s: string): (k: nat)
    requires 0 < |s| && s[0] == '/'
    ensures k < |s| && s[k] == '/'
    ensures forall i :: k < i < |s| ==> s[i] != '/'
    decreases |s|
  {
    if s[|s| - 1] == '/' then |s| - 1 else LastSlash(s[..|s| - 1])
  }

  /** `os.path.dirname` of a normal absolute path. */
  function Dirname(s: string): string
    requires 0 < |s| && s[0] == '/'
  {
    var k := LastSlash(s);
    if k == 0 then "/" else s[..k]
  }

  /** `os.path.relpath(path, start)` for normal absolute paths where `path`
      has `start` as a string prefix. The prefix either ends at a component
      boundary (the result descends from `start`) or splits the last
      component of `start` (the result climbs out of it with `..`). */
  function RelPath(path: string, start: string): string
    requires NormalPath(path) && NormalPath(start) && StartsWith(path, start)
  {
    if path == start then "."
    else if start == "/" then path[1..]
    else if path[|start|] == '/' then path[|start| + 1..]
    else "../" + path[LastSlash(start) + 1..]
  }

  /** The part of a normal path after one of its separators is an ordinary
      relative path: it starts with neither `/`, `./` nor `../`. */
  lemma TailAfterSeparator(path: string, j: nat)
    requires NormalPath(path) && j + 1 < |path| && path[j] == '/'
    ensures var r := path[j + 1..];
      r != "." && r != "" && !StartsWith(r, "/") && !StartsWith(r, "../")
  {
    assert StartsComponent(path, j);
    assert path[j + 1..][0] == path[j + 1];
  }

  /** Resolving the relative path against `start` gives `path` back. */
  lemma RelPathResolves(path: string, start: string)
    requires NormalPath(path) && NormalPath(start) && StartsWith(path, start)
    ensures RelPath(path, start) == "." <==> path == start
    ensures var r := RelPath(path, start);
      r != "." && !StartsWith(r, "../") ==> path == Join(start, r)
    ensures var r := RelPath(path, start);
      StartsWith(r, "../") ==> path == Join(Dirname(start), r[3..])
  {
    if path == start {
    } else if start == "/" {
      RelPathBelowRoot(path);
    } else if path[|start|] == '/' {
      RelPathBelow(path, start);
    } else {
      RelPathBeside(path, start);
    }
  }

  lemma RelPathBelowRoot(path: string)
    requires NormalPath(path) && path != "/"
    ensures var r := RelPath(path, "/");
      r != "." && !StartsWith(r, "../") && path == Join("/", r)
  {
    var r := RelPath(path, "/");
    TailAfterSeparator(path, 0);
    assert path == "/" + r;
  }

  lemma RelPathBelow(path: string, start: string)
    requires NormalPath(path) && NormalPath(start) && StartsWith(path, start)
    requires path != start && start != "/" && path[|start|] == '/'
    ensures var r := RelPath(path, start);
      r != "." && !StartsWith(r, "../") && path == Join(start, r)
  {
    var r := RelPath(path, start);
    var j := |start|;
    assert path[..j] == start;
    TailAfterSeparator(path, j);
    assert path == start + "/" + r;
  }

  lemma RelPathBeside(path: string, start: string)
    requires NormalPath(path) && NormalPath(start) && StartsWith(path, start)
    requires path != start && start != "/" && path[|start|] != '/'
    ensures var r := RelPath(path, start);
      StartsWith(r, "../") && path == Join(Dirname(start), r[3..])
  {
    var k := LastSlash(start);
    LastComponent(start);
    assert path[..|start|] == start;
    var tail := path[k + 1..];
    assert path[k] == '/' && tail[0] == start[k + 1];
    assert path == path[..k] + "/" + tail;
    if k == 0 {
      assert path[..k] + "/" == "/";
    } else {
      assert path[..k] == start[..k];
    }
    assert RelPath(path, start)[3..] == tail;
  }

  /** The last component of a normal path other than `/` is not empty, and
      the `/` before it is not doubled. */
  lemma LastComponent(p: string)
    requires NormalPath(p) && p != "/"
    ensures var k := LastSlash(p);
      k + 1 < |p| && p[k + 1] != '/' && (k > 0 ==> p[k - 1] != '/')
  {
    var k := LastSlash(p);
    assert StartsComponent(p, k);
    if k > 0 {
      assert StartsComponent(p, k - 1);
    }
  }


}
