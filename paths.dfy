/** Paths of the build output, seen as lists of segments, and the path shapes
    the change dispatcher classifies by. */
module Paths {

  /** An absolute path as its list of segments: ["app", "dist", "ipc", "a.js"]
      stands for /app/dist/ipc/a.js, and [] for the root directory /. */
  type Path = seq<string>

  /** path.join(dir, name) for a name that is one plain segment. */
  function Join(dir: Path, name: string): (p: Path)
    ensures |p| == |dir| + 1 && p[..|dir|] == dir && p[|dir|] == name
  {
    dir + [name]
  }

  /** path.parse(p).dir: the path without its last segment (the root is its own dir). */
  function Dir(p: Path): (d: Path)
    ensures p != [] ==> |d| == |p| - 1 && p == d + [p[|p| - 1]]
    ensures p == [] ==> d == []
  {
    if p == [] then [] else p[..|p| - 1]
  }

  predicate EndsWith(s: string, suffix: string)
  {
    |suffix| <= |s| && s[|s| - |suffix|..] == suffix
  }

  /** The test /\.js$/ on the path, read off its last segment. */
  predicate IsJs(p: Path)
    ensures IsJs(p) <==>
              p != [] && |p[|p| - 1]| >= 3 && p[|p| - 1] == p[|p| - 1][..|p[|p| - 1]| - 3] + ".js"
  {
    p != [] && EndsWith(p[|p| - 1], ".js")
  }

  /** The fixed files of the build output directory `root`. */
  function Entry(root: Path): (p: Path)
    ensures |p| == |root| + 1 && Dir(p) == root && p[|root|] == "index.js" && IsJs(p)
  {
    Join(root, "index.js")
  }

  function Preload(root: Path): (p: Path)
    ensures |p| == |root| + 1 && Dir(p) == root && p[|root|] == "preload.js" && IsJs(p)
  {
    Join(root, "preload.js")
  }

  function Config(root: Path): (p: Path)
    ensures |p| == |root| + 1 && Dir(p) == root && p[|root|] == "config.js" && IsJs(p)
  {
    Join(root, "config.js")
  }

  /** `join(src, 'ipc')`. */
  function IpcDir(root: Path): (d: Path)
    ensures |d| == |root| + 1 && d[..|root|] == root && d[|root|] == "ipc"
  {
    Join(root, "ipc")
  }

  /** isIpcFile: the file sits directly in root/ipc and its name ends in ".js". */
  predicate IsIpcFile(root: Path, p: Path)
    ensures IsIpcFile(root, p) <==>
              |p| == |root| + 2 && p[..|root|] == root && p[|root|] == "ipc" && EndsWith(p[|p| - 1], ".js")
  {
    Dir(p) == IpcDir(root) && IsJs(p)
  }

  /** No segment contains the separator. */
  predicate PlainSegments(p: Path)
  {
    forall i :: 0 <= i < |p| ==> '/' !in p[i]
  }

  /** The path as the string the watcher reports. */
  function Render(p: Path): string
  {
    if p == [] then "/" else RenderSegments(p)
  }

  function RenderSegments(p: Path): string
  {
    if p == [] then "" else RenderSegments(p[..|p| - 1]) + "/" + p[|p| - 1]
  }

  /** A suffix without the separator can only come from the last segment. */
  lemma SuffixAfterSeparator(pre: string, last: string)
    requires '/' !in last
    ensures EndsWith(pre + "/" + last, ".js") <==> EndsWith(last, ".js")
  {
    var s := pre + "/" + last;
    if |last| >= 3 {
      assert s[|s| - 3..] == last[|last| - 3..];
    } else if |s| >= 3 {
      var k := 3 - |last| - 1;
      assert s[|s| - 3..][k] == s[|pre|] == '/';
      assert ".js"[k] != '/';
    }
  }

  /** Reading ".js" off the last segment agrees with matching /\.js$/ against
      the whole rendered path string. */
  lemma RenderedJsSuffix(p: Path)
    requires PlainSegments(p)
    ensures IsJs(p) <==> EndsWith(Render(p), ".js")
  {
    if p != [] {
      assert Render(p) == RenderSegments(p[..|p| - 1]) + "/" + p[|p| - 1];
      SuffixAfterSeparator(RenderSegments(p[..|p| - 1]), p[|p| - 1]);
    }
  }

  /** The four fixed classifications never overlap, so the order of the
      dispatcher's tests only matters for the fallback. */
  lemma RoutesDisjoint(root: Path)
    ensures Preload(root) != Config(root) && Preload(root) != Entry(root) && Config(root) != Entry(root)
    ensures !IsIpcFile(root, Preload(root)) && !IsIpcFile(root, Config(root)) && !IsIpcFile(root, Entry(root))
  {
    assert Dir(Entry(root)) == root;
    assert Dir(Preload(root)) == root;
    assert Dir(Config(root)) == root;
  }
}
