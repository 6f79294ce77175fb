/** Directory exclusions: the entry classifier, the matcher, the merge of the three sources
    and the fingerprint of the effective set (python/pydocs_mcp/project_toml.py). */
module Excludes {
  import opened Common
  import opened Splitting

  /** Bare names, matched at any depth, and anchored paths, matched as subtrees. */
  datatype ProjectExcludes = ProjectExcludes(names: set<string>, anchored: set<string>)

  // ----- paths

  /** Backslashes read as slashes. */
  function Slashed(s: string): string {
    seq(|s|, i requires 0 <= i < |s| => if s[i] == '\\' then '/' else s[i])
  }

  /** The components between slashes, empty ones included. */
  function Segments(path: string): (parts: seq<string>)
    ensures |parts| >= 1
  {
    SplitOn('/', path)
  }

  lemma SlashedJoin(a: string, b: string)
    ensures Slashed(a + "/" + b) == Slashed(a) + "/" + Slashed(b)
  {
  }

  // ----- matching

  predicate Matches(e: ProjectExcludes, relpath: string) {
    var path := Slashed(relpath);
    || (exists part :: part in Segments(path) && part in e.names)
    || (exists entry :: entry in e.anchored && (path == entry || entry + "/" <= path))
  }

  /** Everything beneath a match matches. */
  lemma MatchesIsClosedBelow(e: ProjectExcludes, above: string, below: string)
    requires Matches(e, above)
    ensures Matches(e, above + "/" + below)
  {
    var path, longer := Slashed(above), Slashed(above + "/" + below);
    SlashedJoin(above, below);
    SplitJoin('/', path, Slashed(below));
    if part :| part in Segments(path) && part in e.names {
      assert part in Segments(longer);
    } else {
      var entry :| entry in e.anchored && (path == entry || entry + "/" <= path);
      assert entry + "/" <= longer;
    }
  }

  /** The same path spelled by its first `k` components. */
  function Ancestor(path: string, k: nat): string
    requires 0 < k <= |Segments(path)|
  {
    JoinedWith('/', Segments(path)[..k])
  }

  predicate ExcludesAncestor(e: ProjectExcludes, path: string, k: nat)
    requires 0 < k <= |Segments(path)|
  {
    Segments(path)[k - 1] in e.names || Ancestor(path, k) in e.anchored
  }

  lemma AnchoredIsAncestor(path: string, entry: string)
    ensures (path == entry || entry + "/" <= path) <==> exists k :: 0 < k <= |Segments(path)| && Ancestor(path, k) == entry
  {
    JoinInvertsSplit('/', path);
    if path == entry {
      assert Segments(path)[..|Segments(path)|] == Segments(path);
      assert Ancestor(path, |Segments(path)|) == entry;
    } else if entry + "/" <= path {
      var rest := path[|entry| + 1..];
      assert path == entry + "/" + rest;
      SplitJoin('/', entry, rest);
      JoinInvertsSplit('/', entry);
      assert Segments(path)[..|Segments(entry)|] == Segments(entry);
      assert Ancestor(path, |Segments(entry)|) == entry;
    }
    if k :| 0 < k <= |Segments(path)| && Ancestor(path, k) == entry {
      var parts := Segments(path);
      if k == |parts| {
        assert parts[..k] == parts;
      } else {
        JoinAppend('/', parts[..k], parts[k..]);
        assert parts[..k] + parts[k..] == parts;
      }
    }
  }

  /** Component by component: a path matches exactly when it or a directory above it is
      named by a bare entry or is an anchored one. */
  lemma MatchesByAncestors(e: ProjectExcludes, relpath: string)
    ensures var path := Slashed(relpath);
            Matches(e, relpath)
            <==> exists k :: 0 < k <= |Segments(path)| && ExcludesAncestor(e, path, k)
  {
    var path := Slashed(relpath);
    if part :| part in Segments(path) && part in e.names {
      var i :| 0 <= i < |Segments(path)| && Segments(path)[i] == part;
      assert ExcludesAncestor(e, path, i + 1);
    }
    if entry :| entry in e.anchored && (path == entry || entry + "/" <= path) {
      AnchoredIsAncestor(path, entry);
      var k :| 0 < k <= |Segments(path)| && Ancestor(path, k) == entry;
      assert ExcludesAncestor(e, path, k);
    }
    if k :| 0 < k <= |Segments(path)| && ExcludesAncestor(e, path, k) {
      if Ancestor(path, k) in e.anchored {
        AnchoredIsAncestor(path, Ancestor(path, k));
      }
    }
  }

  // ----- entries

  /** A raw list entry: a string, or anything else the file holds. */
  datatype RawEntry = Text(s: string) | NotText

  datatype EntryError = NotAString | Absolute(raw: string) | Empty(raw: string) | BadSegment(raw: string)

  /** Trailing slashes dropped. */
  function Trimmed(s: string): string {
    if s != [] && s[|s| - 1] == '/' then Trimmed(s[..|s| - 1]) else s
  }

  predicate IsPlain(part: string) { part !in ["", ".", ".."] }

  /** Backslashes first, trailing slashes second, the checks after each. */
  function Normalized(raw: RawEntry): Result<string, EntryError> {
    if raw.NotText? then Err(NotAString)
    else
      var slashed := Slashed(raw.s);
      var entry := Trimmed(slashed);
      if "/" <= slashed then Err(Absolute(raw.s))
      else if entry == [] then Err(Empty(raw.s))
      else if exists part :: part in Segments(entry) && !IsPlain(part) then Err(BadSegment(raw.s))
      else Ok(entry)
  }

  lemma {:induction false} TrimmedIs(s: string)
    ensures |Trimmed(s)| <= |s| && s[..|Trimmed(s)|] == Trimmed(s) && forall i :: |Trimmed(s)| <= i < |s| ==> s[i] == '/'
    ensures Trimmed(s) != [] ==> Trimmed(s)[|Trimmed(s)| - 1] != '/'
  {
    if s != [] && s[|s| - 1] == '/' {
      TrimmedIs(s[..|s| - 1]);
    }
  }

  /** The entry a raw string stands for: its slashed text without the trailing slashes, not
      empty, not from the root, with no empty, `.` or `..` component. */
  ghost predicate IsEntryOf(raw: string, entry: string) {
    && entry != [] && |entry| <= |raw| && Slashed(raw)[..|entry|] == entry
    && entry[|entry| - 1] != '/' && (forall i :: |entry| <= i < |raw| ==> Slashed(raw)[i] == '/')
    && raw[0] != '/' && raw[0] != '\\'
    && forall part :: part in Segments(entry) ==> part != "" && part != "." && part != ".."
  }

  /** Which entry is accepted as what, and which refused as what. */
  lemma NormalizedExactly(raw: RawEntry)
    ensures Normalized(raw) == Err(NotAString) <==> raw.NotText?
    ensures raw.Text? ==> (Normalized(raw) == Err(Absolute(raw.s)) <==> raw.s != [] && (raw.s[0] == '/' || raw.s[0] == '\\'))
    ensures raw.Text? ==> (Normalized(raw) == Err(Empty(raw.s)) <==> raw.s == [])
    ensures raw.Text? ==> forall entry :: Normalized(raw) == Ok(entry) <==> IsEntryOf(raw.s, entry)
    ensures raw.Text? && Normalized(raw).Err? ==> Normalized(raw).error in {Absolute(raw.s), Empty(raw.s), BadSegment(raw.s)}
  {
    if raw.Text? {
      var slashed := Slashed(raw.s);
      TrimmedIs(slashed);
      StartsWithSlash(slashed);
      forall entry ensures Normalized(raw) == Ok(entry) <==> IsEntryOf(raw.s, entry) {
        if IsEntryOf(raw.s, entry) {
          OneTrimming(slashed, entry);
        }
      }
    }
  }

  lemma StartsWithSlash(s: string)
    ensures "/" <= s <==> s != [] && s[0] == '/'
  {
    if s != [] && s[0] == '/' {
      assert s == "/" + s[1..];
    }
  }

  lemma OneTrimming(s: string, entry: string)
    requires entry != [] && |entry| <= |s| && s[..|entry|] == entry && entry[|entry| - 1] != '/' && forall i :: |entry| <= i < |s| ==> s[i] == '/'
    ensures Trimmed(s) == entry
  {
    TrimmedIs(s);
    assert s[|entry| - 1] == entry[|entry| - 1];
    if Trimmed(s) != [] {
      assert s[|Trimmed(s)| - 1] == Trimmed(s)[|Trimmed(s)| - 1];
    }
  }

  /** The normalized entries of a list all of whose entries are sound. */
  function NormalizedAll(entries: seq<RawEntry>): set<string> {
    set raw | raw in entries && Normalized(raw).Ok? :: Normalized(raw).value
  }

  /** A list stands or falls with its first broken entry; a sound one is split by whether a
      slash is left. */
  ghost predicate IsSplit(entries: seq<RawEntry>, split: Result<ProjectExcludes, EntryError>) {
    match split
    case Ok(e) =>
      && (forall raw :: raw in entries ==> Normalized(raw).Ok?)
      && e.names + e.anchored == NormalizedAll(entries)
      && (forall entry :: entry in e.names ==> '/' !in entry) && (forall entry :: entry in e.anchored ==> '/' in entry)
    case Err(error) =>
      exists i :: 0 <= i < |entries| && Normalized(entries[i]) == Err(error) && forall j :: 0 <= j < i ==> Normalized(entries[j]).Ok?
  }

  method SplitExcludeEntries(entries: seq<RawEntry>) returns (split: Result<ProjectExcludes, EntryError>)
    ensures IsSplit(entries, split)
  {
    var names: set<string>, anchored: set<string> := {}, {};
    var i := 0;
    while i < |entries|
      invariant 0 <= i <= |entries|
      invariant forall j :: 0 <= j < i ==> Normalized(entries[j]).Ok?
      invariant names + anchored == NormalizedAll(entries[..i])
      invariant (forall entry :: entry in names ==> '/' !in entry) && (forall entry :: entry in anchored ==> '/' in entry)
    {
      assert entries[..i + 1] == entries[..i] + [entries[i]];
      if entries[i].NotText? {
        return Err(NotAString);
      }
      var raw := entries[i].s;
      var entry := Slashed(raw);
      if "/" <= entry {
        return Err(Absolute(raw));
      }
      entry := Trimmed(entry);
      if entry == [] {
        return Err(Empty(raw));
      }
      if exists part :: part in Segments(entry) && !IsPlain(part) {
        return Err(BadSegment(raw));
      }
      if '/' in entry {
        anchored := anchored + {entry};
      } else {
        names := names + {entry};
      }
      i := i + 1;
    }
    assert entries[..i] == entries;
    split := Ok(ProjectExcludes(names, anchored));
  }

  /** The split is a function of the list, and an accepted entry can match a real path: a
      name is one plain component, an anchored path several. */
  lemma SplitEntriesArePlain(entries: seq<RawEntry>, e: ProjectExcludes, entry: string)
    requires IsSplit(entries, Ok(e)) && entry in e.names + e.anchored
    ensures forall part :: part in Segments(entry) ==> IsPlain(part)
    ensures entry in e.names <==> |Segments(entry)| == 1
    ensures entry in e.anchored <==> |Segments(entry)| > 1
  {
    OnePartWithoutSeparator('/', entry);
  }

  lemma SplitIsUnique(entries: seq<RawEntry>, a: Result<ProjectExcludes, EntryError>, b: Result<ProjectExcludes, EntryError>)
    requires IsSplit(entries, a) && IsSplit(entries, b)
    ensures a == b
  {
    match (a, b)
    case (Ok(x), Ok(y)) =>
      assert x.names == set entry | entry in NormalizedAll(entries) && '/' !in entry;
      assert y.names == set entry | entry in NormalizedAll(entries) && '/' !in entry;
      assert x.anchored == set entry | entry in NormalizedAll(entries) && '/' in entry;
      assert y.anchored == set entry | entry in NormalizedAll(entries) && '/' in entry;
    case (Err(_), Err(_)) =>
      var i :| 0 <= i < |entries| && Normalized(entries[i]) == Err(a.error) && forall j :: 0 <= j < i ==> Normalized(entries[j]).Ok?;
      var k :| 0 <= k < |entries| && Normalized(entries[k]) == Err(b.error) && forall j :: 0 <= j < k ==> Normalized(entries[j]).Ok?;
      assert i == k;
    case _ =>
  }

  // ----- the three sources

  /** Union of the floor, the scope's entries and the loaded excludes; nothing subtracts. */
  method MergeExcludes(floor: set<string>, scopeEntries: seq<RawEntry>, loaded: ProjectExcludes) returns (merged: Result<ProjectExcludes, EntryError>)
    ensures merged.Err? ==> IsSplit(scopeEntries, merged)
    ensures merged.Ok? ==> floor <= merged.value.names
    ensures merged.Ok? ==> exists scope :: IsSplit(scopeEntries, Ok(scope)) && forall p ::
                Matches(merged.value, p) <==> Matches(ProjectExcludes(floor, {}), p) || Matches(scope, p) || Matches(loaded, p)
  {
    var split := SplitExcludeEntries(scopeEntries);
    if split.Err? {
      return split;
    }
    var scope := split.value;
    merged := Ok(ProjectExcludes(floor + scope.names + loaded.names, scope.anchored + loaded.anchored));
    forall p ensures Matches(merged.value, p) <==> Matches(ProjectExcludes(floor, {}), p) || Matches(scope, p) || Matches(loaded, p) {
      MatchesUnion(floor, scope, loaded, p);
    }
  }

  lemma MatchesUnion(floor: set<string>, scope: ProjectExcludes, loaded: ProjectExcludes, p: string)
    ensures Matches(ProjectExcludes(floor + scope.names + loaded.names, scope.anchored + loaded.anchored), p)
            <==> Matches(ProjectExcludes(floor, {}), p) || Matches(scope, p) || Matches(loaded, p)
  {
  }
}
