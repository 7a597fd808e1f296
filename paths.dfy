/**
 * File locations and the window title derived from them.
 *
 * A location is the path of a file URL. `URL.lastPathComponent` is Foundation
 * code; here it is the characters after the last '/'.
 */
module Paths {
  import opened Wrappers

  type Path = string

  /** Shown when there is no document or the document has no location. */
  const Untitled: string := "Untitled"

  /** The longest suffix of `p` that contains no '/'. */
  function LastPathComponent(p: Path): (r: string)
    ensures '/' !in r
    ensures |r| <= |p| && r == p[|p| - |r|..]
    ensures |r| < |p| ==> p[|p| - |r| - 1] == '/'
  {
    if p == [] || p[|p| - 1] == '/' then []
    else LastPathComponent(p[..|p| - 1]) + [p[|p| - 1]]
  }

  /** The file name written after a directory is what the title shows. */
  lemma {:induction false} LastPathComponentOfJoin(dir: Path, name: string)
    requires '/' !in name
    ensures LastPathComponent(dir + "/" + name) == name
  {
    var p := dir + "/" + name;
    if name != [] {
      var init := name[..|name| - 1];
      assert p[..|p| - 1] == dir + "/" + init;
      assert p[|p| - 1] == name[|name| - 1];
      LastPathComponentOfJoin(dir, init);
      assert init + [name[|name| - 1]] == name;
    }
  }

  /** The window title: the location's last path component, or "Untitled". */
  function Title(url: Option<Path>): string
  {
    match url
    case Some(p) => LastPathComponent(p)
    case None => Untitled
  }

  lemma TitleOfTmpTestTxt()
    ensures Title(Some("/tmp/test.txt")) == "test.txt"
    ensures Title(None) == "Untitled"
  {
    LastPathComponentOfJoin("/tmp", "test.txt");
  }
}
