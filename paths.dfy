/**
  The two `os.path` operations the configuration search relies on, with
  POSIX semantics: `basename` and a two-argument `join`.
 */
module Paths {

  /** `os.path.basename`: everything after the last '/' of `p`. */
  function Basename(p: string): (b: string)
    ensures |b| <= |p| && b == p[|p| - |b|..]
    ensures '/' !in b
    ensures |b| < |p| ==> p[|p| - |b| - 1] == '/'
    decreases |p|
  {
    if p == [] || p[|p| - 1] == '/' then []
    else Basename(p[..|p| - 1]) + [p[|p| - 1]]
  }

  /** `os.path.join(dir, name)` for one component, as `posixpath.join` does it. */
  function Join(dir: string, name: string): string
  {
    if |name| > 0 && name[0] == '/' then name
    else if dir == [] || dir[|dir| - 1] == '/' then dir + name
    else dir + "/" + name
  }

  /** Joining a directory with a plain file name yields a path whose basename is that name. */
  lemma BasenameOfJoin(dir: string, name: string)
    requires name != [] && '/' !in name
    ensures Basename(Join(dir, name)) == name
  {
    var p := Join(dir, name);
    assert name[0] != '/';
    assert p[|p| - |name|..] == name;
    assert |p| > |name| ==> p[|p| - |name| - 1] == '/';
    var b := Basename(p);
    assert |b| >= |name| ==> b[|b| - |name|..] == name;
  }
}
