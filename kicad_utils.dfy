/** Project naming: the project name is the `.kicad_pro` file's base name
    without that extension. */
module KicadUtils {
  import opened Common

  const ProjectExtension: string := ".kicad_pro"

  /** Index just after the last '/' in `path[..end]`, or 0 when there is none. */
  function BaseNameStart(path: string, end: nat): (i: nat)
    requires end <= |path|
    ensures i <= end
    ensures forall k :: i <= k < end ==> path[k] != '/'
    ensures i > 0 ==> path[i - 1] == '/'
  {
    if end == 0 then 0
    else if path[end - 1] == '/' then end
    else BaseNameStart(path, end - 1)
  }

  /** POSIX `os.path.basename`: the text after the last '/'. */
  function BaseName(path: string): (r: string)
    ensures forall k :: 0 <= k < |r| ==> r[k] != '/'
  {
    path[BaseNameStart(path, |path|)..]
  }

  /** `basename[: -len(".kicad_pro")]`: Python's negative slice end clamps at 0. */
  function ProjectNameFromPath(path: string): (name: string)
    ensures StartsWith(BaseName(path), name)
    ensures |name| == if |BaseName(path)| <= |ProjectExtension| then 0 else |BaseName(path)| - |ProjectExtension|
  {
    var b := BaseName(path);
    if |b| <= |ProjectExtension| then [] else b[..|b| - |ProjectExtension|]
  }

  lemma ProjectNameLength(path: string)
    ensures |ProjectNameFromPath(path)| == if |BaseName(path)| <= 10 then 0 else |BaseName(path)| - 10
  {
  }

  /** For a `.kicad_pro` base name, adding the extension back gives the base name. */
  lemma ProjectNameRestoresBaseName(path: string)
    requires EndsWith(BaseName(path), ProjectExtension)
    ensures ProjectNameFromPath(path) + ProjectExtension == BaseName(path)
  {
    var b := BaseName(path);
    assert b == b[..|b| - 10] + b[|b| - 10..];
  }

  /** The name holds no directory part: it is a prefix of the base name and has no '/'. */
  lemma ProjectNameHasNoDirectory(path: string)
    ensures StartsWith(BaseName(path), ProjectNameFromPath(path))
    ensures forall k :: 0 <= k < |ProjectNameFromPath(path)| ==> ProjectNameFromPath(path)[k] != '/'
  {
  }
}
