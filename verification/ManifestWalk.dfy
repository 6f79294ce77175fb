/** The manifest walk that prunes directories as it goes finds what filtering a full walk
    would (python/pydocs_mcp/deps.py, list_dependency_manifest_files). */
module ManifestWalk {
  import opened Common
  import opened Splitting
  import opened Excludes

  const SKIP_DIRS: set<string> :=
    {".git", ".venv", "venv", "__pycache__", "node_modules", ".tox", ".eggs", "build", "dist", ".mypy_cache", ".pytest_cache",
     ".ruff_cache", "htmlcov", ".nox"}

  /** A directory as the walk lists it: its files and its subdirectories, in listing order. */
  datatype Dir = Dir(files: seq<string>, dirs: seq<Child>)
  datatype Child = Child(name: string, dir: Dir)

  /** A file by the directories down to it. */
  datatype File = File(path: seq<string>, name: string)

  predicate IsManifest(name: string) {
    name == "pyproject.toml" || ("requirements" <= name && EndsWith(name, ".txt"))
  }

  predicate EndsWith(s: string, suffix: string) {
    |suffix| <= |s| && s[|s| - |suffix|..] == suffix
  }

  /** The walk-root-relative path; the root's own is ".". */
  function RelDir(path: seq<string>): string {
    if path == [] then "." else JoinedWith('/', path)
  }

  function ChildRelpath(relDir: string, name: string): string {
    if relDir == "." then name else relDir + "/" + name
  }

  /** No directory entry is named "." (a listing never has one). */
  predicate IsListing(d: Dir) {
    forall i :: 0 <= i < |d.dirs| ==> d.dirs[i].name != "." && IsListing(d.dirs[i].dir)
  }

  /** What is left out: the names skipped as such and the exclusion set. */
  datatype Rules = Rules(skip: set<string>, excludes: ProjectExcludes)

  function RulesFor(excludes: ProjectExcludes): Rules { Rules(SKIP_DIRS + excludes.names, excludes) }

  // ----- the full walk and the filter

  function FilesHere(path: seq<string>, names: seq<string>): seq<File> {
    seq(|names|, i requires 0 <= i < |names| => File(path, names[i]))
  }

  /** Every file below, each directory's own first, then its subdirectories in order. */
  function Walked(d: Dir, path: seq<string>): seq<File>
    decreases d, |d.dirs| + 1
  {
    FilesHere(path, d.files) + WalkedFirst(d, path, |d.dirs|)
  }

  /** Every file below the first `n` subdirectories. */
  function WalkedFirst(d: Dir, path: seq<string>, n: nat): seq<File>
    requires n <= |d.dirs|
    decreases d, n
  {
    if n == 0 then [] else WalkedFirst(d, path, n - 1) + Walked(d.dirs[n - 1].dir, path + [d.dirs[n - 1].name])
  }

  /** A directory left out: a component is skipped or the path is matched. */
  predicate IsExcluded(rules: Rules, path: seq<string>) {
    || (exists part :: part in path && part in rules.skip)
    || (path != [] && Matches(rules.excludes, RelDir(path)))
  }

  predicate IsWanted(rules: Rules, f: File) { IsManifest(f.name) && !IsExcluded(rules, f.path) }

  function Wanted(rules: Rules, files: seq<File>): seq<File> {
    if files == [] then []
    else Wanted(rules, files[..|files| - 1]) + if IsWanted(rules, files[|files| - 1]) then [files[|files| - 1]] else []
  }

  lemma {:induction false} WantedJoin(rules: Rules, a: seq<File>, b: seq<File>)
    ensures Wanted(rules, a + b) == Wanted(rules, a) + Wanted(rules, b)
  {
    if b == [] {
      assert a + b == a;
    } else {
      WantedJoin(rules, a, b[..|b| - 1]);
      assert (a + b)[..|a + b| - 1] == a + b[..|b| - 1];
    }
  }

  lemma {:induction false} NoneWanted(rules: Rules, files: seq<File>)
    requires forall f :: f in files ==> !IsWanted(rules, f)
    ensures Wanted(rules, files) == []
  {
    if files != [] {
      NoneWanted(rules, files[..|files| - 1]);
    }
  }

  // ----- exclusion is closed below

  lemma RelDirGrows(path: seq<string>, name: string)
    requires path != ["."]
    ensures RelDir(path + [name]) == ChildRelpath(RelDir(path), name)
  {
    if path != [] {
      JoinAppend('/', path, [name]);
      if |path| > 1 {
        assert '/' in JoinedWith('/', path);
      }
    }
  }

  lemma ExcludedBelow(rules: Rules, path: seq<string>, name: string)
    requires IsExcluded(rules, path)
    ensures IsExcluded(rules, path + [name])
  {
    if part :| part in path && part in rules.skip {
      assert part in path + [name];
    } else {
      JoinAppend('/', path, [name]);
      MatchesIsClosedBelow(rules.excludes, RelDir(path), name);
    }
  }

  /** Everything beneath an excluded directory is left out. */
  lemma {:induction false} NothingWantedBelow(rules: Rules, d: Dir, path: seq<string>, n: nat)
    requires IsExcluded(rules, path) && n <= |d.dirs|
    ensures forall f :: f in FilesHere(path, d.files) + WalkedFirst(d, path, n) ==> !IsWanted(rules, f)
    decreases d, n
  {
    if n > 0 {
      var child := d.dirs[n - 1];
      NothingWantedBelow(rules, d, path, n - 1);
      ExcludedBelow(rules, path, child.name);
      NothingWantedBelow(rules, child.dir, path + [child.name], |child.dir.dirs|);
    }
  }

  /** The pruning test agrees with exclusion for a child of a directory that is walked. */
  lemma PruneTestIsExclusion(rules: Rules, path: seq<string>, name: string)
    requires !IsExcluded(rules, path) && path != ["."]
    ensures IsExcluded(rules, path + [name])
            <==> name in rules.skip || Matches(rules.excludes, ChildRelpath(RelDir(path), name))
  {
    RelDirGrows(path, name);
    assert name in path + [name];
  }

  // ----- the walk

  predicate IsKept(rules: Rules, relDir: string, name: string) {
    name !in rules.skip && !Matches(rules.excludes, ChildRelpath(relDir, name))
  }

  /** The files wanted below the kept among the first `n` subdirectories. */
  lemma PrunedPrefix(rules: Rules, d: Dir, path: seq<string>, n: nat)
    requires n < |d.dirs| && !IsExcluded(rules, path) && path != ["."]
    ensures var child := d.dirs[n];
            Wanted(rules, WalkedFirst(d, path, n + 1))
            == Wanted(rules, WalkedFirst(d, path, n))
               + if IsKept(rules, RelDir(path), child.name) then Wanted(rules, Walked(child.dir, path + [child.name])) else []
  {
    var child := d.dirs[n];
    var below := Walked(child.dir, path + [child.name]);
    WantedJoin(rules, WalkedFirst(d, path, n), below);
    PruneTestIsExclusion(rules, path, child.name);
    if !IsKept(rules, RelDir(path), child.name) {
      NothingWantedBelow(rules, child.dir, path + [child.name], |child.dir.dirs|);
      NoneWanted(rules, below);
    }
  }

  /** The names left in `dirnames` after pruning, as a mark for each. */
  method PruneDirnames(dirs: seq<Child>, relDir: string, rules: Rules) returns (kept: seq<bool>)
    ensures |kept| == |dirs| && forall j :: 0 <= j < |dirs| ==> kept[j] == IsKept(rules, relDir, dirs[j].name)
  {
    kept := [];
    while |kept| < |dirs|
      invariant |kept| <= |dirs|
      invariant forall j :: 0 <= j < |kept| ==> kept[j] == IsKept(rules, relDir, dirs[j].name)
    {
      var name := dirs[|kept|].name;
      kept := kept + [name !in rules.skip && !Matches(rules.excludes, ChildRelpath(relDir, name))];
    }
  }

  method ManifestsHere(files: seq<string>, path: seq<string>, rules: Rules) returns (found: seq<File>)
    requires !IsExcluded(rules, path)
    ensures found == Wanted(rules, FilesHere(path, files))
  {
    ghost var all := FilesHere(path, files);
    found := [];
    var i := 0;
    while i < |files|
      invariant 0 <= i <= |files| && found == Wanted(rules, all[..i])
    {
      assert all[..i + 1][..i] == all[..i] && all[i] == File(path, files[i]);
      if files[i] == "pyproject.toml" || ("requirements" <= files[i] && EndsWith(files[i], ".txt")) {
        found := found + [File(path, files[i])];
      }
      i := i + 1;
    }
    assert all[..i] == all;
  }

  /** One directory of the walk and all it descends into: prunes the subdirectories, takes
      the manifests, then walks what is left. */
  method WalkFrom(d: Dir, path: seq<string>, rules: Rules) returns (found: seq<File>)
    requires IsListing(d) && !IsExcluded(rules, path) && path != ["."]
    ensures found == Wanted(rules, Walked(d, path))
    decreases d
  {
    var kept := PruneDirnames(d.dirs, RelDir(path), rules);
    var here := ManifestsHere(d.files, path, rules);
    var below: seq<File> := [];
    var i := 0;
    while i < |d.dirs|
      invariant 0 <= i <= |d.dirs| && below == Wanted(rules, WalkedFirst(d, path, i))
    {
      PrunedPrefix(rules, d, path, i);
      if kept[i] {
        ChildIsWalked(rules, path, d.dirs[i].name);
        var more := WalkFrom(d.dirs[i].dir, path + [d.dirs[i].name], rules);
        below := below + more;
      }
      i := i + 1;
    }
    WantedJoin(rules, FilesHere(path, d.files), WalkedFirst(d, path, |d.dirs|));
    found := here + below;
  }

  lemma ChildIsWalked(rules: Rules, path: seq<string>, name: string)
    requires !IsExcluded(rules, path) && path != ["."] && name != "." && IsKept(rules, RelDir(path), name)
    ensures !IsExcluded(rules, path + [name]) && path + [name] != ["."]
  {
    PruneTestIsExclusion(rules, path, name);
    assert (path + [name])[|path|] == name;
  }

  /** The pruned walk finds exactly the manifests no skipped component or match is above,
      in the order of the full walk. */
  method ListDependencyManifestFiles(root: Dir, excludes: ProjectExcludes) returns (found: seq<File>)
    requires IsListing(root)
    ensures found == Wanted(RulesFor(excludes), Walked(root, []))
    ensures forall f :: f in found <==> HasFile(root, f.path, f.name) && IsRequirementFile(f.name) && !IsLeftOut(excludes, f.path)
  {
    found := WalkFrom(root, [], RulesFor(excludes));
    forall f ensures f in found <==> HasFile(root, f.path, f.name) && IsRequirementFile(f.name) && !IsLeftOut(excludes, f.path) {
      FoundExactly(root, excludes, f);
    }
  }

  // ----- what is found, told from the tree of directories

  /** Going down the path from `d` leads to a directory that holds the file. */
  ghost predicate HasFile(d: Dir, path: seq<string>, name: string)
    decreases d
  {
    if path == [] then name in d.files
    else exists i :: 0 <= i < |d.dirs| && d.dirs[i].name == path[0] && HasFile(d.dirs[i].dir, path[1..], name)
  }

  /** `pyproject.toml`, or `requirements*.txt`. */
  predicate IsRequirementFile(name: string) {
    || name == "pyproject.toml"
    || (|name| >= |"requirements"| && name[..|"requirements"|] == "requirements" && |name| >= 4 && name[|name| - 4..] == ".txt")
  }

  /** A directory on the way has a name that is never entered or is excluded, or a
      directory from the root down is an excluded path. */
  ghost predicate IsLeftOut(excludes: ProjectExcludes, path: seq<string>) {
    || (exists i :: 0 <= i < |path| &&
          (path[i] in excludes.names
           || path[i] in {".git", ".venv", "venv", "__pycache__", "node_modules", ".tox", ".eggs", "build", "dist", ".mypy_cache",
                          ".pytest_cache", ".ruff_cache", "htmlcov", ".nox"}))
    || (path != [] && Matches(excludes, JoinedWith('/', path)))
  }

  /** The file is below the `i`-th subdirectory. */
  ghost predicate IsBelow(d: Dir, path: seq<string>, i: nat, f: File)
    requires i < |d.dirs|
  {
    path + [d.dirs[i].name] <= f.path && HasFile(d.dirs[i].dir, f.path[|path| + 1..], f.name)
  }

  lemma {:induction false} WalkedFirstHas(d: Dir, path: seq<string>, n: nat, f: File)
    requires n <= |d.dirs|
    ensures f in WalkedFirst(d, path, n) <==> exists i: nat :: i < n && IsBelow(d, path, i, f)
    decreases d, n
  {
    if n > 0 {
      WalkedFirstHas(d, path, n - 1, f);
      WalkedHas(d.dirs[n - 1].dir, path + [d.dirs[n - 1].name], f);
      assert |path + [d.dirs[n - 1].name]| == |path| + 1;
      assert f in Walked(d.dirs[n - 1].dir, path + [d.dirs[n - 1].name]) <==> IsBelow(d, path, n - 1, f);
      if i: nat :| i < n && IsBelow(d, path, i, f) {
        if i < n - 1 {
          assert f in WalkedFirst(d, path, n - 1);
        } else {
          assert i == n - 1;
        }
      }
    }
  }

  /** The full walk lists exactly what the tree holds. */
  lemma {:induction false} WalkedHas(d: Dir, path: seq<string>, f: File)
    ensures f in Walked(d, path) <==> path <= f.path && HasFile(d, f.path[|path|..], f.name)
    decreases d, |d.dirs| + 1
  {
    WalkedFirstHas(d, path, |d.dirs|, f);
    HereHas(d, path, f);
    if path <= f.path && f.path != path {
      var rest := f.path[|path|..];
      assert f.path == path + rest && rest[1..] == f.path[|path| + 1..];
      forall i: nat | i < |d.dirs| ensures IsBelow(d, path, i, f) <==> d.dirs[i].name == rest[0] && HasFile(d.dirs[i].dir, rest[1..], f.name) {
      }
    }
  }

  lemma HereHas(d: Dir, path: seq<string>, f: File)
    ensures f in FilesHere(path, d.files) <==> f.path == path && f.name in d.files
  {
    if f.path == path && f.name in d.files {
      var i :| 0 <= i < |d.files| && d.files[i] == f.name;
      assert FilesHere(path, d.files)[i] == f;
    }
  }

  lemma FoundExactly(root: Dir, excludes: ProjectExcludes, f: File)
    ensures f in Wanted(RulesFor(excludes), Walked(root, []))
            <==> HasFile(root, f.path, f.name) && IsRequirementFile(f.name) && !IsLeftOut(excludes, f.path)
  {
    WantedAre(RulesFor(excludes), Walked(root, []), f);
    WalkedHas(root, [], f);
    assert f.path[0..] == f.path;
    LeftOutIs(excludes, f.path);
  }

  lemma LeftOutIs(excludes: ProjectExcludes, path: seq<string>)
    ensures IsLeftOut(excludes, path) <==> IsExcluded(RulesFor(excludes), path)
  {
  }

  /** What is wanted is wanted for what it is: neither lost nor invented. */
  lemma {:induction false} WantedAre(rules: Rules, files: seq<File>, f: File)
    ensures f in Wanted(rules, files) <==> f in files && IsManifest(f.name) && !IsExcluded(rules, f.path)
  {
    if files != [] {
      WantedAre(rules, files[..|files| - 1], f);
      assert files == files[..|files| - 1] + [files[|files| - 1]];
    }
  }
}
