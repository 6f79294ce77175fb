/** The two module-id rules over one ref's layout: package rooting for Python files, and the
    dotted path for other files
    (python/pydocs_mcp/extraction/strategies/python_module_id.py, chunkers/_shared.py). */
module ModuleIds {
  import opened Common
  import opened Splitting

  // ----- the parts of a path

  /** How much of a file name its suffix takes, the dot included: the last dot, unless it is
      the first or the last character. */
  function SuffixLength(name: string): nat
    ensures SuffixLength(name) <= |name|
  {
    SuffixFrom(name, |name|)
  }

  /** The suffix if no dot stands at `end` or after it. */
  function SuffixFrom(name: string, end: nat): (length: nat)
    requires end <= |name|
    ensures length <= |name|
  {
    if end <= 1 then 0
    else if name[end - 1] == '.' then (if end == |name| then 0 else |name| - end + 1)
    else SuffixFrom(name, end - 1)
  }

  function Stem(name: string): string { name[..|name| - SuffixLength(name)] }

  function Dirs(path: string): seq<string> {
    var parts := SplitOn('/', path);
    parts[..|parts| - 1]
  }

  function FileName(path: string): string {
    var parts := SplitOn('/', path);
    parts[|parts| - 1]
  }

  // ----- Python files

  /** The directory holds an `__init__.py`. */
  predicate IsPackage(markers: set<string>, dirs: seq<string>) {
    JoinedWith('/', dirs + ["__init__.py"]) in markers
  }

  /** How many directories lead to the topmost of the consecutive packages above the file. */
  function TopPackage(markers: set<string>, dirs: seq<string>, depth: nat): nat
    requires depth <= |dirs|
  {
    if depth > 0 && IsPackage(markers, dirs[..depth - 1]) then TopPackage(markers, dirs, depth - 1) else depth
  }

  lemma {:induction false} TopPackageAbove(markers: set<string>, dirs: seq<string>, depth: nat)
    requires depth <= |dirs|
    ensures TopPackage(markers, dirs, depth) <= depth
  {
    if depth > 0 && IsPackage(markers, dirs[..depth - 1]) {
      TopPackageAbove(markers, dirs, depth - 1);
    }
  }

  /** The parts of the id: from the topmost package's own name, or from the root when the
      file's directory is no package; a root that is a package gives its own name. */
  function ModuleParts(root: string, markers: set<string>, path: string): seq<string> {
    var dirs, stem := Dirs(path), Stem(FileName(path));
    if !IsPackage(markers, dirs) then dirs + [stem]
    else
      var top := TopPackage(markers, dirs, |dirs|);
      TopPackageAbove(markers, dirs, |dirs|);
      (if top == 0 then [root] + dirs else dirs[top - 1..]) + [stem]
  }

  /** Joined by dots without a trailing `__init__` part; a bare stem when nothing is left. */
  function PackageRooted(root: string, markers: set<string>, path: string): string {
    var parts := ModuleParts(root, markers, path);
    var id := JoinedWith('.', if parts[|parts| - 1] == "__init__" then parts[..|parts| - 1] else parts);
    if id == [] then Stem(FileName(path)) else id
  }

  // ----- other files

  function Lower(s: string): string {
    seq(|s|, i requires 0 <= i < |s| => if 'A' <= s[i] <= 'Z' then s[i] - 'A' + 'a' else s[i])
  }

  function Suffix(name: string): string {
    if SuffixLength(name) == 0 then [] else Lower(name[|name| - SuffixLength(name) + 1..])
  }

  /** The path without its suffix, joined by dots, then the suffix as one more part. */
  function DocModule(path: string): string {
    var name := FileName(path);
    var base := JoinedWith('.', Dirs(path) + [Stem(name)]);
    if Suffix(name) == [] then base else base + "." + Suffix(name)
  }

  /** Slashes read as dots. */
  function Dotted(path: string): string {
    seq(|path|, i requires 0 <= i < |path| => if path[i] == '/' then '.' else path[i])
  }

  lemma {:induction false} JoinedByDots(path: string)
    ensures JoinedWith('.', SplitOn('/', path)) == Dotted(path)
  {
    if path == [] {
      assert Dotted(path) == [];
    } else {
      var parts := SplitOn('/', path[1..]);
      JoinedByDots(path[1..]);
      JoinsPushed(path[0], parts);
      assert Dotted(path) == [if path[0] == '/' then '.' else path[0]] + Dotted(path[1..]);
    }
  }

  lemma JoinsPushed(c: char, parts: seq<string>)
    requires parts != []
    ensures JoinedWith('.', Pushed('/', c, parts)) == [if c == '/' then '.' else c] + JoinedWith('.', parts)
  {
    var longer := Pushed('/', c, parts);
    if c == '/' {
      assert longer[1..] == parts;
    } else if |parts| > 1 {
      assert longer[1..] == parts[1..];
      assert [c] + (parts[0] + ['.'] + JoinedWith('.', parts[1..])) == ([c] + parts[0]) + ['.'] + JoinedWith('.', parts[1..]);
    }
  }

  /** What stands after the last part stands after the join. */
  lemma {:induction false} JoinExtends(parts: seq<string>, last: string, more: string)
    ensures JoinedWith('.', parts + [last]) + more == JoinedWith('.', parts + [last + more])
  {
    if parts != [] {
      JoinAppend('.', parts, [last]);
      JoinAppend('.', parts, [last + more]);
    }
  }

  /** A file that is not Python is named by its path, slashes read as dots and the suffix in
      lower case: two paths that differ only in slashes and dots share an id. */
  lemma DocModuleIsDotted(path: string)
    requires Lower(FileName(path)) == FileName(path)
    ensures DocModule(path) == Dotted(path)
  {
    var parts, name := SplitOn('/', path), FileName(path);
    JoinedByDots(path);
    assert parts == Dirs(path) + [name];
    if SuffixLength(name) == 0 {
      assert Stem(name) == name;
    } else {
      SplitsAtDot(name);
      JoinExtends(Dirs(path), Stem(name), "." + Suffix(name));
    }
  }

  lemma SplitsAtDot(name: string)
    requires SuffixLength(name) > 0 && Lower(name) == name
    ensures Suffix(name) != [] && name == Stem(name) + ("." + Suffix(name))
  {
    var k := |name| - SuffixLength(name);
    SuffixStartsWithDot(name, |name|);
    assert Lower(name)[k + 1..] == Lower(name[k + 1..]);
    assert name == name[..k] + ([name[k]] + name[k + 1..]);
  }

  lemma {:induction false} SuffixStartsWithDot(name: string, end: nat)
    requires end <= |name| && SuffixFrom(name, end) > 0
    ensures SuffixFrom(name, end) > 1 && name[|name| - SuffixFrom(name, end)] == '.'
  {
    if name[end - 1] != '.' {
      SuffixStartsWithDot(name, end - 1);
    }
  }

  // ----- files two directories down

  lemma TwoDown(dir: string, sub: string, name: string)
    requires '/' !in dir && '/' !in sub && '/' !in name
    ensures SplitOn('/', dir + "/" + sub + "/" + name) == [dir, sub, name]
    ensures Dirs(dir + "/" + sub + "/" + name) == [dir, sub] && FileName(dir + "/" + sub + "/" + name) == name
  {
    var path := dir + "/" + sub + "/" + name;
    SplitJoin('/', dir + "/" + sub, name);
    SplitJoin('/', dir, sub);
    OnePartWithoutSeparator('/', dir);
    OnePartWithoutSeparator('/', sub);
    OnePartWithoutSeparator('/', name);
    assert SplitOn('/', path) == [dir] + [sub] + [name];
  }

  lemma MarkerPath(dirs: seq<string>, dir: string, sub: string)
    requires dirs == [dir, sub]
    ensures JoinedWith('/', dirs + ["__init__.py"]) == dir + "/" + sub + "/" + "__init__.py"
  {
    assert dirs + ["__init__.py"] == [dir, sub, "__init__.py"];
    JoinThree('/', dir, sub, "__init__.py");
  }

  lemma UpperMarkerPath(dir: string)
    ensures JoinedWith('/', [dir] + ["__init__.py"]) == dir + "/" + "__init__.py"
  {
    assert [dir] + ["__init__.py"] == [dir, "__init__.py"];
    JoinTwo('/', dir, "__init__.py");
  }

  /** With no marker beside it a file is named by its whole path. */
  lemma AloneId(root: string, dir: string, sub: string, stem: string)
    requires '/' !in dir && '/' !in sub && '/' !in stem && '.' !in stem && stem !in {"", "__init__"}
    ensures PackageRooted(root, {}, dir + "/" + sub + "/" + (stem + ".py")) == dir + "." + sub + "." + stem
  {
    var path := dir + "/" + sub + "/" + (stem + ".py");
    StemOf(stem);
    TwoDown(dir, sub, stem + ".py");
    assert ModuleParts(root, {}, path) == [dir, sub, stem];
    JoinThree('.', dir, sub, stem);
  }

  /** With a marker beside it and none above, it is named from its package. */
  lemma PackagedId(root: string, markers: set<string>, dir: string, sub: string, stem: string)
    requires '/' !in dir && '/' !in sub && '/' !in stem && '.' !in stem && stem !in {"", "__init__"}
    requires dir + "/" + sub + "/" + "__init__.py" in markers && dir + "/" + "__init__.py" !in markers
    ensures PackageRooted(root, markers, dir + "/" + sub + "/" + (stem + ".py")) == sub + "." + stem
  {
    var path := dir + "/" + sub + "/" + (stem + ".py");
    var dirs := [dir, sub];
    StemOf(stem);
    TwoDown(dir, sub, stem + ".py");
    MarkerPath(dirs, dir, sub);
    UpperMarkerPath(dir);
    assert dirs[..1] == [dir] && dirs[1..] == [sub];
    assert TopPackage(markers, dirs, 2) == 2;
    assert ModuleParts(root, markers, path) == [sub, stem];
    JoinTwo('.', sub, stem);
  }

  lemma StemOf(stem: string)
    requires '.' !in stem && stem != ""
    ensures Stem(stem + ".py") == stem && ('/' !in stem ==> '/' !in stem + ".py")
  {
    var name := stem + ".py";
    var n := |stem|;
    assert name[n] == '.' && name[n + 1] == 'p' && name[n + 2] == 'y';
    assert SuffixFrom(name, n + 1) == 3;
    assert SuffixFrom(name, n + 2) == 3;
    assert SuffixFrom(name, n + 3) == 3;
    assert name[..n] == stem;
  }
}
