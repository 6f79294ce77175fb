/** The fingerprint of the effective exclusion set: sorted, tagged by kind, joined by NULs
    (python/pydocs_mcp/project_toml.py, exclusion_fingerprint). */
module Fingerprint {
  import opened Common
  import opened Splitting
  import opened Excludes

  // ----- sorting

  /** Strictly before, character by character. */
  predicate Before(a: string, b: string) {
    b != [] && (a == [] || a[0] < b[0] || (a[0] == b[0] && Before(a[1..], b[1..])))
  }

  lemma {:induction false} BeforeIsStrict(a: string, b: string)
    requires Before(a, b)
    ensures a != b && !Before(b, a)
  {
    if a != [] && a[0] == b[0] {
      BeforeIsStrict(a[1..], b[1..]);
    }
  }

  lemma {:induction false} BeforeIsTotal(a: string, b: string)
    ensures a == b || Before(a, b) || Before(b, a)
  {
    if a != [] && b != [] && a[0] == b[0] {
      BeforeIsTotal(a[1..], b[1..]);
      assert a == [a[0]] + a[1..] && b == [b[0]] + b[1..];
    }
  }

  lemma {:induction false} BeforeChains(a: string, b: string, c: string)
    requires Before(a, b) && Before(b, c)
    ensures Before(a, c)
  {
    if a != [] && a[0] == b[0] == c[0] {
      BeforeChains(a[1..], b[1..], c[1..]);
    }
  }

  predicate Ascending(xs: seq<string>) {
    forall i, j :: 0 <= i < j < |xs| ==> Before(xs[i], xs[j])
  }

  predicate IsSorting(xs: seq<string>, s: set<string>) { Elems(xs) == s && Ascending(xs) }

  /** A set sorts in one way. */
  lemma {:induction false} SortingIsUnique(a: seq<string>, b: seq<string>)
    requires Elems(a) == Elems(b) && Ascending(a) && Ascending(b)
    ensures a == b
  {
    EmptyElems(a);
    EmptyElems(b);
    if a != [] {
      HeadIsLeast(a, b);
      HeadIsLeast(b, a);
      assert a[0] == b[0] by {
        if a[0] != b[0] { BeforeIsStrict(a[0], b[0]); }
      }
      TailElems(a);
      TailElems(b);
      SortingIsUnique(a[1..], b[1..]);
      assert a == [a[0]] + a[1..] && b == [b[0]] + b[1..];
    }
  }

  lemma EmptyElems(xs: seq<string>)
    ensures Elems(xs) == {} <==> xs == []
  {
    if xs != [] {
      assert xs[0] in Elems(xs);
    }
  }

  lemma HeadIsLeast(a: seq<string>, b: seq<string>)
    requires a != [] && b != [] && Elems(a) == Elems(b) && Ascending(a)
    ensures a[0] == b[0] || Before(a[0], b[0])
  {
    assert b[0] in Elems(a);
  }

  lemma TailElems(xs: seq<string>)
    requires xs != [] && Ascending(xs)
    ensures Elems(xs[1..]) == Elems(xs) - {xs[0]}
  {
    forall x | x in Elems(xs[1..]) ensures x in Elems(xs) && x != xs[0] {
      var i :| 0 < i < |xs| && xs[i] == x;
      BeforeIsStrict(xs[0], xs[i]);
    }
  }

  function Inserted(xs: seq<string>, x: string): seq<string> {
    if xs == [] || Before(x, xs[0]) then [x] + xs else [xs[0]] + Inserted(xs[1..], x)
  }

  lemma ConsElems(x: string, xs: seq<string>)
    ensures Elems([x] + xs) == {x} + Elems(xs)
  {
    assert ([x] + xs)[0] == x;
    assert forall i :: 0 <= i < |xs| ==> ([x] + xs)[i + 1] == xs[i];
  }

  lemma {:induction false} InsertedElems(xs: seq<string>, x: string)
    ensures Elems(Inserted(xs, x)) == Elems(xs) + {x}
  {
    if xs != [] && !Before(x, xs[0]) {
      InsertedElems(xs[1..], x);
      ConsElems(xs[0], xs[1..]);
      ConsElems(xs[0], Inserted(xs[1..], x));
      assert xs == [xs[0]] + xs[1..];
    } else {
      ConsElems(x, xs);
    }
  }

  lemma {:induction false} InsertedAscends(xs: seq<string>, x: string)
    requires Ascending(xs) && x !in xs
    ensures Ascending(Inserted(xs, x))
  {
    if xs == [] {
    } else if Before(x, xs[0]) {
      forall j | 0 < j < |xs| ensures Before(x, xs[j]) {
        BeforeChains(x, xs[0], xs[j]);
      }
    } else {
      InsertedAscends(xs[1..], x);
      InsertedElems(xs[1..], x);
      BeforeIsTotal(x, xs[0]);
      var rest := Inserted(xs[1..], x);
      forall j | 0 <= j < |rest| ensures Before(xs[0], rest[j]) {
        assert rest[j] in Elems(rest);
      }
    }
  }

  method Sorted(s: set<string>) returns (xs: seq<string>)
    ensures IsSorting(xs, s)
  {
    xs := [];
    var left := s;
    while left != {}
      invariant left <= s && IsSorting(xs, s - left)
    {
      var x := PickOne(left);
      assert x !in Elems(xs);
      InsertedElems(xs, x);
      InsertedAscends(xs, x);
      xs := Inserted(xs, x);
      left := left - {x};
    }
  }

  // ----- the fingerprint

  function Tagged(tag: string, xs: seq<string>): seq<string> {
    seq(|xs|, i requires 0 <= i < |xs| => tag + xs[i])
  }

  function Printed(names: seq<string>, anchored: seq<string>): string {
    JoinedWith(NUL, Tagged("n:", names) + Tagged("a:", anchored))
  }

  ghost predicate IsFingerprint(e: ProjectExcludes, floor: set<string>, out: Option<string>) {
    if e.names == floor && e.anchored == {} then out == None
    else out.Some? && exists names, anchored :: Prints(e, names, anchored, out.value)
  }

  ghost predicate Prints(e: ProjectExcludes, names: seq<string>, anchored: seq<string>, s: string) {
    IsSorting(names, e.names) && IsSorting(anchored, e.anchored) && s == Printed(names, anchored)
  }

  method ExclusionFingerprint(e: ProjectExcludes, floor: set<string>) returns (out: Option<string>)
    ensures IsFingerprint(e, floor, out)
  {
    if e.names == floor && e.anchored == {} {
      return None;
    }
    var names := Sorted(e.names);
    var anchored := Sorted(e.anchored);
    out := Some(Printed(names, anchored));
    assert Prints(e, names, anchored, out.value);
  }

  lemma FingerprintIsUnique(e: ProjectExcludes, floor: set<string>, a: Option<string>, b: Option<string>)
    requires IsFingerprint(e, floor, a) && IsFingerprint(e, floor, b)
    ensures a == b
  {
    if a.Some? {
      var names, anchored :| Prints(e, names, anchored, a.value);
      var others, paths :| Prints(e, others, paths, b.value);
      SortingIsUnique(names, others);
      SortingIsUnique(anchored, paths);
    }
  }

  predicate NulFree(s: set<string>) { forall x :: x in s ==> NUL !in x }

  /** The tagged list comes back from its print. */
  lemma PrintSplits(names: seq<string>, anchored: seq<string>)
    requires NulFree(Elems(names)) && NulFree(Elems(anchored)) && names + anchored != []
    ensures SplitOn(NUL, Printed(names, anchored)) == Tagged("n:", names) + Tagged("a:", anchored)
  {
    var tagged := Tagged("n:", names) + Tagged("a:", anchored);
    forall part | part in tagged ensures NUL !in part {
      var i :| 0 <= i < |tagged| && tagged[i] == part;
      if i < |names| {
        assert names[i] in Elems(names) && part == "n:" + names[i];
      } else {
        assert anchored[i - |names|] in Elems(anchored) && part == "a:" + anchored[i - |names|];
      }
    }
    SplitInvertsJoin(NUL, tagged);
  }

  lemma PrintIsEmpty(names: seq<string>, anchored: seq<string>)
    requires NulFree(Elems(names)) && NulFree(Elems(anchored))
    ensures Printed(names, anchored) == [] <==> names + anchored == []
  {
    if names + anchored != [] {
      var tagged := Tagged("n:", names) + Tagged("a:", anchored);
      PrintSplits(names, anchored);
      assert |tagged[0]| >= 2;
      assert SplitOn(NUL, []) == [[]];
    }
  }

  /** The kind tag tells names from anchored paths. */
  lemma TagsTellApart(names: seq<string>, anchored: seq<string>, others: seq<string>, paths: seq<string>)
    requires Tagged("n:", names) + Tagged("a:", anchored) == Tagged("n:", others) + Tagged("a:", paths)
    ensures names == others && anchored == paths
  {
    var left, right := Tagged("n:", names) + Tagged("a:", anchored), Tagged("n:", others) + Tagged("a:", paths);
    NamesNotLonger(names, anchored, others, paths);
    NamesNotLonger(others, paths, names, anchored);
    forall i | 0 <= i < |names| ensures names[i] == others[i] {
      assert left[i] == "n:" + names[i] && right[i] == "n:" + others[i];
      assert left[i][2..] == names[i] && right[i][2..] == others[i];
    }
    assert |left| == |right|;
    forall i | 0 <= i < |anchored| ensures anchored[i] == paths[i] {
      assert left[|names| + i] == "a:" + anchored[i] && right[|names| + i] == "a:" + paths[i];
      assert left[|names| + i][2..] == anchored[i] && right[|names| + i][2..] == paths[i];
    }
  }

  lemma TagAt(names: seq<string>, anchored: seq<string>, i: nat)
    requires i < |names| + |anchored|
    ensures (Tagged("n:", names) + Tagged("a:", anchored))[i] == if i < |names| then "n:" + names[i] else "a:" + anchored[i - |names|]
    ensures (Tagged("n:", names) + Tagged("a:", anchored))[i][0] == if i < |names| then 'n' else 'a'
  {
  }

  lemma NamesNotLonger(names: seq<string>, anchored: seq<string>, others: seq<string>, paths: seq<string>)
    requires Tagged("n:", names) + Tagged("a:", anchored) == Tagged("n:", others) + Tagged("a:", paths)
    ensures |names| <= |others|
  {
    assert |Tagged("n:", names) + Tagged("a:", anchored)| == |Tagged("n:", others) + Tagged("a:", paths)|;
    var n := |others|;
    if n < |others| + |paths| {
      TagAt(others, paths, n);
      TagAt(names, anchored, n);
    }
  }

  /** None exactly for the bare floor; otherwise equal fingerprints mean equal sets. */
  lemma FingerprintIsFaithful(e: ProjectExcludes, f: ProjectExcludes, floor: set<string>, other: set<string>, out: Option<string>)
    requires IsFingerprint(e, floor, out) && IsFingerprint(f, other, out)
    requires NulFree(e.names) && NulFree(e.anchored) && NulFree(f.names) && NulFree(f.anchored)
    ensures out == None <==> e.names == floor && e.anchored == {}
    ensures out != None ==> e == f
  {
    if out.Some? {
      var names, anchored :| Prints(e, names, anchored, out.value);
      var others, paths :| Prints(f, others, paths, out.value);
      PrintIsEmpty(names, anchored);
      PrintIsEmpty(others, paths);
      if names + anchored == [] {
        assert others + paths == [];
        assert names == [] && anchored == [] && others == [] && paths == [];
      } else {
        PrintSplits(names, anchored);
        PrintSplits(others, paths);
        TagsTellApart(names, anchored, others, paths);
      }
    }
  }

  /** With a NUL inside an entry two different sets can print alike. */
  lemma NulEntriesCollide(out: Option<string>)
    requires out == Some("n:a" + [NUL] + "n:b")
    ensures IsFingerprint(ProjectExcludes({"a", "b"}, {}), {}, out)
    ensures IsFingerprint(ProjectExcludes({"a" + [NUL] + "n:b"}, {}), {}, out)
  {
    var two, one := ["a", "b"], ["a" + [NUL] + "n:b"];
    assert Tagged("n:", two) == ["n:" + "a", "n:" + "b"];
    assert Tagged("n:", one) == ["n:" + one[0]];
    assert Tagged("a:", []) == [];
    assert "n:" + "a" == "n:a" && "n:" + "b" == "n:b";
    JoinTwo(NUL, "n:a", "n:b");
    assert "n:" + one[0] == "n:a" + [NUL] + "n:b";
    assert Before("a", "b");
    assert Printed(two, []) == out.value by {
      assert Tagged("n:", two) + Tagged("a:", []) == ["n:a", "n:b"];
    }
    assert Elems(two) == {"a", "b"};
    assert Prints(ProjectExcludes({"a", "b"}, {}), two, [], out.value);
    assert Prints(ProjectExcludes({one[0]}, {}), one, [], out.value);
  }
}
