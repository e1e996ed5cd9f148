/** The registry of temporary directories to clean up at exit. */
module TempDirManager {
  import opened Common

  /** `registered` extended by `dir` unless it is already there. */
  function Registered(registered: seq<string>, dir: string): (r: seq<string>)
  {
    if dir in registered then registered else registered + [dir]
  }

  lemma RegisterIdempotent(registered: seq<string>, dir: string)
    ensures Registered(Registered(registered, dir), dir) == Registered(registered, dir)
  {
  }

  /** After registering, `dir` is present, the earlier order is kept as a
      prefix, and no entry is duplicated. */
  lemma RegisterKeepsOrder(registered: seq<string>, dir: string)
    requires Distinct(registered)
    ensures dir in Registered(registered, dir)
    ensures Registered(registered, dir)[..|registered|] == registered
    ensures Distinct(Registered(registered, dir))
  {
  }

  /** The module-level `_temp_dirs` list. */
  class TempDirRegistry {
    var dirs: seq<string>

    ghost predicate Valid()
      reads this
    {
      Distinct(dirs)
    }

    constructor()
      ensures dirs == [] && Valid()
    {
      dirs := [];
    }

    /** `register_temp_dir`. */
    method RegisterTempDir(dir: string)
      requires Valid()
      modifies this
      ensures Valid()
      ensures dirs == Registered(old(dirs), dir)
    {
      if dir !in dirs {
        dirs := dirs + [dir];
      }
    }

    /** `get_temp_dirs`: a copy equal to the registry (sequences are values,
        so changing the copy cannot change the registry). */
    method GetTempDirs() returns (r: seq<string>)
      ensures r == dirs
    {
      r := dirs;
    }
  }
}
