/** The server's fixed directories and the path arithmetic it does with
    `path.join`. A path is a string; `Join` puts one separator between a
    directory and a name, which is what `path.join` yields for a normalised
    directory without a trailing separator and a name without separators. */
module Paths {
  import opened Text

  const Separator: char := '/'

  /** The last component of a path: everything after its last separator. */
  function BaseName(p: string): (b: string)
    ensures Separator !in b
    ensures EndsWith(p, b)
    ensures |b| == |p| || p[|p| - |b| - 1] == Separator
    decreases |p|
  {
    if |p| == 0 || p[|p| - 1] == Separator then ""
    else
      var init := BaseName(p[..|p| - 1]);
      assert p == p[..|p| - 1] + [p[|p| - 1]];
      assert p[|p| - (|init| + 1)..] == p[..|p| - 1][|p| - 1 - |init|..] + [p[|p| - 1]];
      assert |init| < |p| - 1 ==> p[|p| - |init| - 2] == p[..|p| - 1][|p| - 1 - |init| - 1];
      init + [p[|p| - 1]]
  }

  /** `path.join(dir, name)`: the directory, one separator, the name; both
      parts can be read back from the joined path. */
  function Join(dir: string, name: string): (p: string)
    ensures |p| == |dir| + 1 + |name|
    ensures StartsWith(p, dir) && p[|dir|] == Separator && p[|dir| + 1..] == name
  {
    dir + [Separator] + name
  }

  /** Joining a name without separators onto a directory and taking the last
      component gives the name back. */
  lemma {:induction false} BaseNameOfJoin(dir: string, name: string)
    requires Separator !in name
    ensures BaseName(Join(dir, name)) == name
    decreases |name|
  {
    if |name| > 0 {
      var p := Join(dir, name);
      var name' := name[..|name| - 1];
      assert p[..|p| - 1] == Join(dir, name');
      assert p[|p| - 1] == name[|name| - 1];
      BaseNameOfJoin(dir, name');
      assert name == name' + [name[|name| - 1]];
    } else {
      assert Join(dir, name)[|Join(dir, name)| - 1] == Separator;
    }
  }

  /** `OUTPUT_DIR`: `<server dir>/output`, where artifacts are written and listed. */
  function OutputDir(serverDir: string): (d: string)
    ensures BaseName(d) == "output"
  {
    BaseNameOfJoin(serverDir, "output");
    Join(serverDir, "output")
  }

  /** The worker's working directory, `<server dir>/yolov9`: a directory other
      than the output directory. */
  function WorkerDir(serverDir: string): (d: string)
    ensures BaseName(d) == "yolov9"
    ensures d != OutputDir(serverDir)
  {
    BaseNameOfJoin(serverDir, "yolov9");
    Join(serverDir, "yolov9")
  }
}
