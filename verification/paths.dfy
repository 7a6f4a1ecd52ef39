/**
 * The two `os.path` operations the upload workflow relies on, with the
 * POSIX semantics of Python's `posixpath` module.
 */
module Paths {

  predicate Absolute(p: string) {
    |p| > 0 && p[0] == '/'
  }

  /** `os.path.join(a, b)` for exactly two components. */
  function Join(a: string, b: string): (r: string)
    ensures |b| <= |r| && r[|r| - |b|..] == b
    ensures Absolute(b) ==> r == b
    ensures !Absolute(b) ==> a <= r && |r| <= |a| + |b| + 1
    ensures !Absolute(b) && |r| == |a| + |b| + 1 ==> r[|a|] == '/' && a != [] && a[|a| - 1] != '/'
    ensures !Absolute(b) && a != [] && a[|a| - 1] != '/' ==> |r| == |a| + |b| + 1
    ensures !Absolute(b) && a != [] ==> |a| + |b| <= |r| && '/' in r[|a| - 1..|r| - |b|]
  {
    if Absolute(b) then b
    else if a == [] || a[|a| - 1] == '/' then a + b
    else
      var r := a + "/" + b;
      assert r[|a|] == '/';
      r
  }

  /**
   * `os.path.basename(p)`: everything after the last '/', or the whole
   * path when it holds no '/'.
   */
  function Basename(p: string): (r: string)
    ensures '/' !in r
    ensures |r| <= |p| && p[|p| - |r|..] == r
    ensures |r| < |p| ==> p[|p| - |r| - 1] == '/'
    decreases |p|
  {
    if |p| == 0 || p[|p| - 1] == '/' then ""
    else
      var q := p[..|p| - 1];
      var r := Basename(q) + [p[|p| - 1]];
      assert p[|p| - |r|..] == q[|q| - |r| + 1..] + [p[|p| - 1]];
      r
  }

  /**
   * A slash-free name that follows a separator (or starts the path) is
   * exactly what `Basename` returns.
   */
  lemma BasenameOfName(prefix: string, name: string)
    requires '/' !in name
    requires prefix == [] || prefix[|prefix| - 1] == '/'
    ensures Basename(prefix + name) == name
  {
    var p := prefix + name;
    var r := Basename(p);
    assert r == p[|p| - |name|..] == name;
  }

  /** The file name put into a directory with `Join` is recovered by `Basename`. */
  lemma BasenameOfJoin(dir: string, name: string)
    requires '/' !in name
    ensures Basename(Join(dir, name)) == name
  {
    if dir == [] || dir[|dir| - 1] == '/' {
      BasenameOfName(dir, name);
    } else {
      assert dir + "/" + name == (dir + "/") + name;
      BasenameOfName(dir + "/", name);
    }
  }
}
