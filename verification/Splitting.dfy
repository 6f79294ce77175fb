/** Splitting a string at a separator and joining with it. */
module Splitting {

  /** The parts between separators, empty ones included. */
  function SplitOn(sep: char, s: string): (parts: seq<string>)
    ensures |parts| >= 1
  {
    if s == [] then [[]] else Pushed(sep, s[0], SplitOn(sep, s[1..]))
  }

  function Pushed(sep: char, c: char, parts: seq<string>): (longer: seq<string>)
    requires parts != []
    ensures longer != []
  {
    if c == sep then [[]] + parts else [[c] + parts[0]] + parts[1..]
  }

  function JoinedWith(sep: char, parts: seq<string>): string {
    if parts == [] then [] else if |parts| == 1 then parts[0] else parts[0] + [sep] + JoinedWith(sep, parts[1..])
  }

  lemma PushedJoin(sep: char, c: char, parts: seq<string>, more: seq<string>)
    requires parts != []
    ensures Pushed(sep, c, parts + more) == Pushed(sep, c, parts) + more
  {
    assert (parts + more)[1..] == parts[1..] + more;
    assert (parts + more)[0] == parts[0];
  }

  lemma {:induction false} SplitJoin(sep: char, a: string, b: string)
    ensures SplitOn(sep, a + [sep] + b) == SplitOn(sep, a) + SplitOn(sep, b)
  {
    var whole := a + [sep] + b;
    if a == [] {
      assert whole[0] == sep && whole[1..] == b;
    } else {
      SplitJoin(sep, a[1..], b);
      PushedJoin(sep, a[0], SplitOn(sep, a[1..]), SplitOn(sep, b));
      assert whole[1..] == a[1..] + [sep] + b && whole[0] == a[0];
    }
  }

  lemma {:induction false} JoinInvertsSplit(sep: char, s: string)
    ensures JoinedWith(sep, SplitOn(sep, s)) == s
  {
    if s != [] {
      JoinInvertsSplit(sep, s[1..]);
      JoinPushed(sep, s[0], SplitOn(sep, s[1..]));
    }
  }

  lemma JoinPushed(sep: char, c: char, parts: seq<string>)
    requires parts != []
    ensures JoinedWith(sep, Pushed(sep, c, parts)) == [c] + JoinedWith(sep, parts)
  {
    var longer := Pushed(sep, c, parts);
    if c == sep {
      assert longer[1..] == parts;
    } else if |parts| > 1 {
      assert longer[1..] == parts[1..];
      assert [c] + (parts[0] + [sep] + JoinedWith(sep, parts[1..])) == ([c] + parts[0]) + [sep] + JoinedWith(sep, parts[1..]);
    }
  }

  lemma {:induction false} OnePartWithoutSeparator(sep: char, s: string)
    ensures |SplitOn(sep, s)| == 1 <==> sep !in s
    ensures sep !in s ==> SplitOn(sep, s) == [s]
  {
    if s != [] {
      OnePartWithoutSeparator(sep, s[1..]);
      assert s == [s[0]] + s[1..];
    }
  }

  /** Parts without the separator come back from their join. */
  lemma {:induction false} SplitInvertsJoin(sep: char, parts: seq<string>)
    requires parts != [] && forall part :: part in parts ==> sep !in part
    ensures SplitOn(sep, JoinedWith(sep, parts)) == parts
  {
    OnePartWithoutSeparator(sep, parts[0]);
    if |parts| > 1 {
      SplitInvertsJoin(sep, parts[1..]);
      SplitJoin(sep, parts[0], JoinedWith(sep, parts[1..]));
      assert parts == [parts[0]] + parts[1..];
    }
  }

  lemma {:induction false} JoinAppend(sep: char, a: seq<string>, b: seq<string>)
    requires a != [] && b != []
    ensures JoinedWith(sep, a + b) == JoinedWith(sep, a) + [sep] + JoinedWith(sep, b)
  {
    if |a| == 1 {
      assert (a + b)[1..] == b;
    } else {
      JoinAppend(sep, a[1..], b);
      assert (a + b)[1..] == a[1..] + b;
      assert a[0] + [sep] + (JoinedWith(sep, a[1..]) + [sep] + JoinedWith(sep, b)) == a[0] + [sep] + JoinedWith(sep, a[1..]) + [sep] + JoinedWith(sep, b);
    }
  }

  lemma JoinTwo(sep: char, a: string, b: string)
    ensures JoinedWith(sep, [a, b]) == a + [sep] + b
  {
    assert [a, b][1..] == [b];
  }

  lemma JoinThree(sep: char, a: string, b: string, c: string)
    ensures JoinedWith(sep, [a, b, c]) == a + [sep] + b + [sep] + c
  {
    JoinTwo(sep, b, c);
    assert [a, b, c][1..] == [b, c];
    assert a + [sep] + (b + [sep] + c) == a + [sep] + b + [sep] + c;
  }
}
