/** Discovery of the files that belong to a KiCad project. The file system is
    given explicitly: `present` answers `os.path.exists`, and `listing` is the
    result of `os.listdir` on the project directory (None when it raises). */
module FileUtils {
  import opened Common
  import KicadUtils

  /** The KiCad file types, in dictionary order, with their file suffixes. */
  const KicadExtensions: seq<(string, string)> := [
    ("project", ".kicad_pro"),
    ("pcb", ".kicad_pcb"),
    ("schematic", ".kicad_sch"),
    ("design_rules", ".kicad_dru"),
    ("worksheet", ".kicad_wks"),
    ("footprint", ".kicad_mod"),
    ("netlist", "_netlist.net"),
    ("kibot_config", ".kibot.yaml")
  ]

  /** The recognised data-file extensions, in the order they are scanned. */
  const DataExtensions: seq<string> := [".csv", ".pos", ".net", ".zip", ".drl"]

  // ---------------------------------------------------------------------
  // POSIX path helpers

  predicate AllSlashes(s: string) {
    forall k :: 0 <= k < |s| ==> s[k] == '/'
  }

  function TrimTrailingSlashes(s: string): (r: string)
    ensures StartsWith(s, r)
    ensures r == [] || r[|r| - 1] != '/'
  {
    if s != [] && s[|s| - 1] == '/' then TrimTrailingSlashes(s[..|s| - 1]) else s
  }

  /** `os.path.dirname`: everything up to the last '/', with trailing slashes
      removed unless the head consists of slashes only. */
  function DirName(p: string): (r: string)
    ensures StartsWith(p, r)
    ensures r != [] && !AllSlashes(r) ==> r[|r| - 1] != '/'
  {
    var head := p[..KicadUtils.BaseNameStart(p, |p|)];
    if head != [] && !AllSlashes(head) then TrimTrailingSlashes(head) else head
  }

  /** `os.path.join(dir, name)` for two components. */
  function JoinPath(dir: string, name: string): (r: string)
    ensures EndsWith(r, name)
    ensures name != [] && name[0] == '/' ==> r == name
    ensures (name == [] || name[0] != '/') && dir != [] && dir[|dir| - 1] != '/' ==> r == dir + "/" + name
  {
    if name != [] && name[0] == '/' then name
    else if dir == [] || dir[|dir| - 1] == '/' then dir + name
    else dir + "/" + name
  }

  // ---------------------------------------------------------------------
  // KiCad files (file_utils.py lines 29-37)

  /** The path probed for a KiCad file with suffix `ext`. */
  function Candidate(projectPath: string, ext: string): string {
    JoinPath(DirName(projectPath), KicadUtils.ProjectNameFromPath(projectPath) + ext)
  }

  /** What the KiCad loop records for file type `t`: the project path itself
      for "project", otherwise the candidate when it exists. */
  function KicadEntry(projectPath: string, present: string -> bool, t: string, ext: string): (r: Option<string>)
    ensures t == "project" ==> r == Some(projectPath)
    ensures t != "project" ==> (r.Some? <==> present(Candidate(projectPath, ext)))
    ensures t != "project" && r.Some? ==> r.value == Candidate(projectPath, ext)
  {
    if t == "project" then Some(projectPath)
    else if present(Candidate(projectPath, ext)) then Some(Candidate(projectPath, ext))
    else None
  }

  /** The dictionary after the KiCad loop has visited `exts`. */
  function KicadFiles(projectPath: string, present: string -> bool, exts: seq<(string, string)>): Dict<string, string>
  {
    if exts == [] then []
    else
      var d := KicadFiles(projectPath, present, exts[..|exts| - 1]);
      var (t, ext) := exts[|exts| - 1];
      match KicadEntry(projectPath, present, t, ext)
      case Some(f) => Put(d, t, f)
      case None => d
  }

  lemma KicadFilesStep(projectPath: string, present: string -> bool, exts: seq<(string, string)>, i: nat)
    requires i < |exts|
    ensures KicadFiles(projectPath, present, exts[..i + 1])
         == var e := KicadEntry(projectPath, present, exts[i].0, exts[i].1);
            if e.Some? then Put(KicadFiles(projectPath, present, exts[..i]), exts[i].0, e.value)
            else KicadFiles(projectPath, present, exts[..i])
  {
    assert exts[..i + 1][..i] == exts[..i];
  }

  /** Every recorded type is one of the visited types. */
  lemma {:induction false} KicadFilesAbsent(projectPath: string, present: string -> bool, exts: seq<(string, string)>, t: string)
    requires t !in Keys(exts)
    ensures Lookup(KicadFiles(projectPath, present, exts), t) == None
  {
    if exts != [] {
      var init := exts[..|exts| - 1];
      assert Keys(init) == Keys(exts)[..|exts| - 1];
      KicadFilesAbsent(projectPath, present, init, t);
      var d := KicadFiles(projectPath, present, init);
      var (t', ext) := exts[|exts| - 1];
      assert t' == Keys(exts)[|exts| - 1];
      match KicadEntry(projectPath, present, t', ext)
      case Some(f) => LookupPut(d, t', f, t);
      case None =>
    }
  }

  /** With distinct type names, each type's lookup is exactly its own entry. */
  lemma {:induction false} KicadFilesAt(projectPath: string, present: string -> bool, exts: seq<(string, string)>, i: nat)
    requires Distinct(Keys(exts)) && i < |exts|
    ensures Lookup(KicadFiles(projectPath, present, exts), exts[i].0)
         == KicadEntry(projectPath, present, exts[i].0, exts[i].1)
  {
    var n := |exts| - 1;
    var init := exts[..n];
    var d := KicadFiles(projectPath, present, init);
    var (t, ext) := exts[n];
    assert Keys(init) == Keys(exts)[..n];
    if i == n {
      forall j | 0 <= j < |Keys(init)| ensures Keys(init)[j] != t {
        assert Keys(exts)[j] != Keys(exts)[n];
      }
      KicadFilesAbsent(projectPath, present, init, t);
      match KicadEntry(projectPath, present, t, ext)
      case Some(f) => LookupPut(d, t, f, t);
      case None =>
    } else {
      assert Distinct(Keys(init)) by {
        forall a, b | 0 <= a < b < |Keys(init)| ensures Keys(init)[a] != Keys(init)[b] {
          assert Keys(exts)[a] != Keys(exts)[b];
        }
      }
      assert exts[i] == init[i];
      KicadFilesAt(projectPath, present, init, i);
      assert Keys(exts)[i] != Keys(exts)[n];
      match KicadEntry(projectPath, present, t, ext)
      case Some(f) => LookupPut(d, t, f, exts[i].0);
      case None =>
    }
  }

  const KicadTypeNames: seq<string> :=
    ["project", "pcb", "schematic", "design_rules", "worksheet", "footprint", "netlist", "kibot_config"]

  lemma KicadTypeNamesDistinct()
    ensures Distinct(KicadTypeNames)
  {
    var ks := KicadTypeNames;
    forall i, j | 0 <= i < j < |ks| ensures ks[i] != ks[j] {
      assert ks[i][0] != ks[j][0] || |ks[i]| != |ks[j]|;
    }
  }

  lemma KicadTypesAreNamed()
    ensures Keys(KicadExtensions) == KicadTypeNames
  {
  }

  /** The KiCad type names are pairwise different. */
  lemma KicadTypesDistinct()
    ensures Distinct(Keys(KicadExtensions))
  {
    KicadTypesAreNamed();
    KicadTypeNamesDistinct();
  }

  // ---------------------------------------------------------------------
  // Data files (file_utils.py lines 40-53)

  predicate IsDataFile(file: string, name: string, ext: string) {
    StartsWith(file, name) && EndsWith(file, ext)
  }

  /** The type a data file is filed under: the text after the project name,
      stripped of '-' and '_' at both ends and cut at the first '.'; the
      extension without its dot when that is empty. */
  function DataType(file: string, name: string, ext: string): (r: string)
    requires StartsWith(file, name)
    ensures r == [] ==> |ext| <= 1
    ensures '.' in r ==> ext != [] && r == ext[1..]
  {
    FirstPieceHasNoDot(StripChars(file[|name|..], {'-', '_'}));
    var t := Split(StripChars(file[|name|..], {'-', '_'}), ".")[0];
    if t != [] then t else if ext == [] then [] else ext[1..]
  }

  /** The first piece of a split on "." holds no '.'. */
  lemma FirstPieceHasNoDot(s: string)
    ensures '.' !in Split(s, ".")[0]
  {
    match Find(s, ".")
    case None =>
      if '.' in s {
        var k :| 0 <= k < |s| && s[k] == '.';
        assert OccursAt(s, ".", k);
      }
    case Some(i) =>
      if '.' in s[..i] {
        var k :| 0 <= k < i && s[k] == '.';
        assert OccursAt(s, ".", k);
      }
  }

  /** A derived type is never empty for a recognised extension, and holds no '.'. */
  lemma DataTypeShape(file: string, name: string, e: nat)
    requires e < |DataExtensions| && StartsWith(file, name)
    ensures DataType(file, name, DataExtensions[e]) != []
    ensures '.' !in DataType(file, name, DataExtensions[e])
  {
    FirstPieceHasNoDot(StripChars(file[|name|..], {'-', '_'}));
    var ext := DataExtensions[e];
    assert |ext| == 4 && ext[0] == '.';
    assert ext[1..] == [ext[1], ext[2], ext[3]];
    assert ext[1] != '.' && ext[2] != '.' && ext[3] != '.';
  }

  /** The recorded (type, path) pairs for one extension, in listing order. */
  function FilePairs(listing: seq<string>, dir: string, name: string, ext: string): (r: seq<(string, string)>)
    ensures |r| <= |listing|
  {
    if listing == [] then []
    else
      var file := listing[|listing| - 1];
      FilePairs(listing[..|listing| - 1], dir, name, ext)
        + (if IsDataFile(file, name, ext) then [(DataType(file, name, ext), JoinPath(dir, file))] else [])
  }

  /** The recorded pairs for all extensions in `exts`, in loop order. */
  function DataPairs(listing: seq<string>, dir: string, name: string, exts: seq<string>): seq<(string, string)>
  {
    if exts == [] then []
    else DataPairs(listing, dir, name, exts[..|exts| - 1]) + FilePairs(listing, dir, name, exts[|exts| - 1])
  }

  /** `d[k] = v` for each pair in order. */
  function Overlay(d: Dict<string, string>, ps: seq<(string, string)>): Dict<string, string>
  {
    if ps == [] then d else Put(Overlay(d, ps[..|ps| - 1]), ps[|ps| - 1].0, ps[|ps| - 1].1)
  }

  /** The value of the last pair with key k. */
  function LastFor(ps: seq<(string, string)>, k: string): (r: Option<string>)
    ensures r.None? <==> forall i :: 0 <= i < |ps| ==> ps[i].0 != k
    ensures r.Some? ==> exists i :: 0 <= i < |ps| && ps[i] == (k, r.value)
                                 && (forall j :: i < j < |ps| ==> ps[j].0 != k)
  {
    if ps == [] then None
    else if ps[|ps| - 1].0 == k then Some(ps[|ps| - 1].1)
    else LastFor(ps[..|ps| - 1], k)
  }

  /** Later pairs overwrite earlier ones: a key's value is its last pair's, and
      keys no pair names keep their old value. */
  lemma {:induction false} LookupOverlay(d: Dict<string, string>, ps: seq<(string, string)>, k: string)
    ensures Lookup(Overlay(d, ps), k) == if LastFor(ps, k).Some? then LastFor(ps, k) else Lookup(d, k)
  {
    if ps != [] {
      var init := ps[..|ps| - 1];
      LookupOverlay(d, init, k);
      LookupPut(Overlay(d, init), ps[|ps| - 1].0, ps[|ps| - 1].1, k);
    }
  }

  /** Listed file `f` with extension `ext` records the pair `p`. */
  predicate Records(f: string, name: string, dir: string, ext: string, p: (string, string)) {
    IsDataFile(f, name, ext) && p == (DataType(f, name, ext), JoinPath(dir, f))
  }

  /** Applying pairs in two runs is applying them in one. */
  lemma {:induction false} OverlayAppend(d: Dict<string, string>, a: seq<(string, string)>, b: seq<(string, string)>)
    ensures Overlay(d, a + b) == Overlay(Overlay(d, a), b)
  {
    if b != [] {
      var init := b[..|b| - 1];
      assert (a + b)[..|a + b| - 1] == a + init;
      OverlayAppend(d, a, init);
    } else {
      assert a + b == a;
    }
  }

  /** Every listed file matching the extension records its pair. */
  lemma {:induction false} FilePairsComplete(listing: seq<string>, dir: string, name: string, ext: string, f: string)
    requires f in listing && IsDataFile(f, name, ext)
    ensures (DataType(f, name, ext), JoinPath(dir, f)) in FilePairs(listing, dir, name, ext)
  {
    var init := listing[..|listing| - 1];
    assert listing == init + [listing[|listing| - 1]];
    if f != listing[|listing| - 1] {
      FilePairsComplete(init, dir, name, ext, f);
    }
  }

  /** Every recorded pair comes from a listed file matching the extension. */
  lemma {:induction false} FilePairsSound(listing: seq<string>, dir: string, name: string, ext: string, p: (string, string))
    requires p in FilePairs(listing, dir, name, ext)
    ensures exists f :: f in listing && Records(f, name, dir, ext, p)
  {
    var init := listing[..|listing| - 1];
    var last := listing[|listing| - 1];
    assert listing == init + [last];
    if p in FilePairs(init, dir, name, ext) {
      FilePairsSound(init, dir, name, ext, p);
      var f :| f in init && Records(f, name, dir, ext, p);
      assert f in listing;
    } else {
      assert Records(last, name, dir, ext, p);
    }
  }

  /** Every listed file matching one of the extensions records its pair. */
  lemma {:induction false} DataPairsComplete(listing: seq<string>, dir: string, name: string, exts: seq<string>, f: string, ext: string)
    requires f in listing && ext in exts && IsDataFile(f, name, ext)
    ensures (DataType(f, name, ext), JoinPath(dir, f)) in DataPairs(listing, dir, name, exts)
  {
    var init := exts[..|exts| - 1];
    assert exts == init + [exts[|exts| - 1]];
    if ext == exts[|exts| - 1] {
      FilePairsComplete(listing, dir, name, ext, f);
    } else {
      DataPairsComplete(listing, dir, name, init, f, ext);
    }
  }

  /** Every recorded pair comes from a listed file matching one of the extensions. */
  lemma {:induction false} DataPairsSound(listing: seq<string>, dir: string, name: string, exts: seq<string>, p: (string, string))
    requires p in DataPairs(listing, dir, name, exts)
    ensures exists f, ext :: f in listing && ext in exts && Records(f, name, dir, ext, p)
  {
    var init := exts[..|exts| - 1];
    var last := exts[|exts| - 1];
    assert exts == init + [last];
    if p in DataPairs(listing, dir, name, init) {
      DataPairsSound(listing, dir, name, init, p);
      var f, ext :| f in listing && ext in init && Records(f, name, dir, ext, p);
      assert ext in exts;
    } else {
      FilePairsSound(listing, dir, name, last, p);
      var f :| f in listing && Records(f, name, dir, last, p);
      assert last in exts;
    }
  }
  // ---------------------------------------------------------------------
  // get_project_files (file_utils.py lines 12-55)

  /** The dictionary `get_project_files` returns. */
  function ProjectFiles(projectPath: string, present: string -> bool, listing: Option<seq<string>>): (r: Dict<string, string>)
    ensures Lookup(r, "project").Some?
  {
    var kicad := KicadFiles(projectPath, present, KicadExtensions);
    KicadTypesDistinct();
    KicadFilesAt(projectPath, present, KicadExtensions, 0);
    match listing
    case None => kicad
    case Some(l) =>
      var pairs := DataPairs(l, DirName(projectPath), KicadUtils.ProjectNameFromPath(projectPath), DataExtensions);
      LookupOverlay(kicad, pairs, "project");
      Overlay(kicad, pairs)
  }

  /** The data pairs a successful listing contributes; none for a failed one. */
  function ListedPairs(projectPath: string, listing: Option<seq<string>>): seq<(string, string)> {
    match listing
    case None => []
    case Some(l) => DataPairs(l, DirName(projectPath), KicadUtils.ProjectNameFromPath(projectPath), DataExtensions)
  }

  lemma OverlayFileStep(files: Dict<string, string>, entries: seq<string>, j: nat, dir: string, name: string, ext: string)
    requires j < |entries|
    ensures Overlay(files, FilePairs(entries[..j + 1], dir, name, ext))
         == if IsDataFile(entries[j], name, ext)
            then Put(Overlay(files, FilePairs(entries[..j], dir, name, ext)), DataType(entries[j], name, ext), JoinPath(dir, entries[j]))
            else Overlay(files, FilePairs(entries[..j], dir, name, ext))
  {
    var ps := FilePairs(entries[..j + 1], dir, name, ext);
    assert entries[..j + 1][..j] == entries[..j];
    if IsDataFile(entries[j], name, ext) {
      assert ps[..|ps| - 1] == FilePairs(entries[..j], dir, name, ext);
    } else {
      assert ps == FilePairs(entries[..j], dir, name, ext);
    }
  }

  lemma OverlayDataStep(d: Dict<string, string>, listing: seq<string>, dir: string, name: string, exts: seq<string>, e: nat)
    requires e < |exts|
    ensures Overlay(d, DataPairs(listing, dir, name, exts[..e + 1]))
         == Overlay(Overlay(d, DataPairs(listing, dir, name, exts[..e])), FilePairs(listing, dir, name, exts[e]))
  {
    assert exts[..e + 1][..e] == exts[..e];
    OverlayAppend(d, DataPairs(listing, dir, name, exts[..e]), FilePairs(listing, dir, name, exts[e]));
  }

  /** The inner loop over the directory entries for one data extension. */
  method ScanEntries(files: Dict<string, string>, entries: seq<string>, dir: string, name: string, ext: string)
    returns (r: Dict<string, string>)
    ensures r == Overlay(files, FilePairs(entries, dir, name, ext))
  {
    r := files;
    var j := 0;
    while j < |entries|
      invariant j <= |entries|
      invariant r == Overlay(files, FilePairs(entries[..j], dir, name, ext))
    {
      var file := entries[j];
      OverlayFileStep(files, entries, j, dir, name, ext);
      if StartsWith(file, name) && EndsWith(file, ext) {
        var fileType := DataType(file, name, ext);
        r := Put(r, fileType, JoinPath(dir, file));
      }
      j := j + 1;
    }
    assert entries[..j] == entries;
  }

  method GetProjectFiles(projectPath: string, present: string -> bool, listing: Option<seq<string>>)
    returns (files: Dict<string, string>)
    ensures files == ProjectFiles(projectPath, present, listing)
  {
    var dir := DirName(projectPath);
    var name := KicadUtils.ProjectNameFromPath(projectPath);
    files := [];
    var i := 0;
    while i < |KicadExtensions|
      invariant i <= |KicadExtensions|
      invariant files == KicadFiles(projectPath, present, KicadExtensions[..i])
    {
      var (t, ext) := KicadExtensions[i];
      KicadFilesStep(projectPath, present, KicadExtensions, i);
      if t == "project" {
        files := Put(files, t, projectPath);
      } else {
        var path := JoinPath(dir, name + ext);
        if present(path) {
          files := Put(files, t, path);
        }
      }
      i := i + 1;
    }
    assert KicadExtensions[..i] == KicadExtensions;
    if listing.Some? {
      ghost var kicad := files;
      var e := 0;
      while e < |DataExtensions|
        invariant e <= |DataExtensions|
        invariant files == Overlay(kicad, DataPairs(listing.value, dir, name, DataExtensions[..e]))
      {
        OverlayDataStep(kicad, listing.value, dir, name, DataExtensions, e);
        files := ScanEntries(files, listing.value, dir, name, DataExtensions[e]);
        e := e + 1;
      }
      assert DataExtensions[..e] == DataExtensions;
    }
  }

  /** Lookup in the result: a key some listed data file maps to takes the last
      such file's path; every other key is what the KiCad loop recorded. */
  lemma LookupProjectFiles(projectPath: string, present: string -> bool, listing: Option<seq<string>>, t: string)
    ensures Lookup(ProjectFiles(projectPath, present, listing), t)
         == if LastFor(ListedPairs(projectPath, listing), t).Some? then LastFor(ListedPairs(projectPath, listing), t)
            else Lookup(KicadFiles(projectPath, present, KicadExtensions), t)
  {
    if listing.Some? {
      LookupOverlay(KicadFiles(projectPath, present, KicadExtensions), ListedPairs(projectPath, listing), t);
    }
  }

  /** "project" maps to the given path unless a listed data file shadows it. */
  lemma ProjectMapsToPath(projectPath: string, present: string -> bool, listing: Option<seq<string>>)
    requires forall i :: 0 <= i < |ListedPairs(projectPath, listing)| ==> ListedPairs(projectPath, listing)[i].0 != "project"
    ensures Lookup(ProjectFiles(projectPath, present, listing), "project") == Some(projectPath)
  {
    LookupProjectFiles(projectPath, present, listing, "project");
    KicadTypesDistinct();
    KicadFilesAt(projectPath, present, KicadExtensions, 0);
  }

  lemma ShadowExamplePath()
    ensures KicadUtils.ProjectNameFromPath("/x.kicad_pro") == "x"
    ensures DirName("/x.kicad_pro") == "/"
  {
    var path := "/x.kicad_pro";
    assert KicadUtils.BaseNameStart(path, |path|) == 1 by {
      assert path[0] == '/';
      forall k | 1 <= k < |path| ensures path[k] != '/' { }
    }
    assert path[..1] == "/" && AllSlashes("/");
  }

  lemma ShadowExampleStrip()
    ensures StripChars("-project.drl", {'-', '_'}) == "project.drl"
  {
    assert "-project.drl"[1..] == "project.drl";
  }

  lemma ShadowExampleFind()
    ensures Split("project.drl", ".")[0] == "project"
  {
    assert OccursAt("project.drl", ".", 7);
    forall k: nat | k < 7 ensures !OccursAt("project.drl", ".", k) {
      assert "project.drl"[k] != '.';
    }
    assert Find("project.drl", ".") == Some(7);
  }

  lemma ShadowExampleType()
    ensures IsDataFile("x-project.drl", "x", ".drl")
    ensures DataType("x-project.drl", "x", ".drl") == "project"
  {
    var file := "x-project.drl";
    assert file[..1] == "x" && file[|file| - 4..] == ".drl";
    assert file[1..] == "-project.drl";
    ShadowExampleStrip();
    ShadowExampleFind();
  }

  /** Data files can shadow the project entry: beside "/x.kicad_pro", a file
      "x-project.drl" is filed under "project". */
  lemma DataFileCanShadowProject(present: string -> bool)
    ensures Lookup(ProjectFiles("/x.kicad_pro", present, Some(["x-project.drl"])), "project")
         == Some(JoinPath("/", "x-project.drl"))
  {
    var path := "/x.kicad_pro";
    var file := "x-project.drl";
    ShadowExamplePath();
    ShadowExampleType();
    var last := FilePairs([file], "/", "x", ".drl");
    assert last == FilePairs([], "/", "x", ".drl") + [("project", JoinPath("/", file))] by {
      assert [file][..0] == [];
    }
    var pairs := ListedPairs(path, Some([file]));
    assert pairs == DataPairs([file], "/", "x", DataExtensions[..4]) + last;
    assert pairs[|pairs| - 1] == ("project", JoinPath("/", file));
    LookupProjectFiles(path, present, Some([file]), "project");
  }
  /** Each other KiCad type is present exactly when its candidate file exists
      (unless a data file of the same derived type shadows it). */
  lemma KicadFilePresence(projectPath: string, present: string -> bool, listing: Option<seq<string>>, i: nat)
    requires 0 < i < |KicadExtensions|
    requires LastFor(ListedPairs(projectPath, listing), KicadExtensions[i].0).None?
    ensures Lookup(ProjectFiles(projectPath, present, listing), KicadExtensions[i].0)
         == if present(Candidate(projectPath, KicadExtensions[i].1)) then Some(Candidate(projectPath, KicadExtensions[i].1)) else None
  {
    LookupProjectFiles(projectPath, present, listing, KicadExtensions[i].0);
    KicadTypesDistinct();
    KicadFilesAt(projectPath, present, KicadExtensions, i);
    assert KicadExtensions[i].0 != "project" by {
      assert Keys(KicadExtensions)[i] != Keys(KicadExtensions)[0];
    }
  }

  /** A listed file matching a data extension is found under its derived type,
      and the path recorded there is that of a listed data file of that type. */
  lemma DataFileRecorded(projectPath: string, present: string -> bool, l: seq<string>, f: string, e: nat)
    requires f in l && e < |DataExtensions|
    requires IsDataFile(f, KicadUtils.ProjectNameFromPath(projectPath), DataExtensions[e])
    ensures var name := KicadUtils.ProjectNameFromPath(projectPath);
            var t := DataType(f, name, DataExtensions[e]);
            var r := Lookup(ProjectFiles(projectPath, present, Some(l)), t);
            r.Some? && exists g, ext :: g in l && ext in DataExtensions && Records(g, name, DirName(projectPath), ext, (t, r.value))
  {
    var name := KicadUtils.ProjectNameFromPath(projectPath);
    var dir := DirName(projectPath);
    var t := DataType(f, name, DataExtensions[e]);
    var pairs := ListedPairs(projectPath, Some(l));
    DataPairsComplete(l, dir, name, DataExtensions, f, DataExtensions[e]);
    var v := LastFor(pairs, t).value;
    assert (t, v) in pairs;
    DataPairsSound(l, dir, name, DataExtensions, (t, v));
    LookupProjectFiles(projectPath, present, Some(l), t);
  }

  /** A failed listing leaves only KiCad-type entries, with "project" among them. */
  lemma FailedListingKeepsKicadEntries(projectPath: string, present: string -> bool, t: string)
    ensures Lookup(ProjectFiles(projectPath, present, None), "project") == Some(projectPath)
    ensures t !in Keys(KicadExtensions) ==> Lookup(ProjectFiles(projectPath, present, None), t) == None
  {
    ProjectMapsToPath(projectPath, present, None);
    if t !in Keys(KicadExtensions) {
      KicadFilesAbsent(projectPath, present, KicadExtensions, t);
    }
  }

  // ---------------------------------------------------------------------
  // load_project_json (file_utils.py lines 58-71)

  /** `content` is the file's text (None when it cannot be read) and `parse`
      the JSON decoder (None when the text is not valid JSON). */
  function LoadProjectJson<J>(content: Option<string>, parse: string -> Option<J>): (r: Option<J>)
    ensures r.None? <==> content.None? || parse(content.value).None?
    ensures r.Some? ==> r == parse(content.value)
  {
    match content
    case None => None
    case Some(text) => parse(text)
  }
}
