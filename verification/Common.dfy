/** Values every module uses: optional values, results, and facts about sequences
    and the multisets of their elements. */
module Common {

  const NUL: char := '\0'

  datatype Option<+T> = None | Some(value: T)

  datatype Result<+T, +E> = Ok(value: T) | Err(error: E)

  /** Any element of a set. */
  method PickOne<T>(s: set<T>) returns (x: T)
    requires s != {}
    ensures x in s
  {
    x :| x in s;
  }

  /** A key with the newest stamp; a tie is any of them. ORDER BY ... DESC LIMIT 1. */
  method Newest<K(==)>(stamps: map<K, real>) returns (newest: Option<K>)
    ensures newest.None? <==> stamps == map[]
    ensures newest.Some? ==> newest.value in stamps && forall k :: k in stamps ==> stamps[k] <= stamps[newest.value]
  {
    var left := stamps.Keys;
    newest := None;
    while left != {}
      invariant left <= stamps.Keys && (newest.None? ==> left == stamps.Keys)
      invariant newest.Some? ==> newest.value in stamps && forall k :: k in stamps && k !in left ==> stamps[k] <= stamps[newest.value]
    {
      var k := PickOne(left);
      if newest.None? || stamps[newest.value] < stamps[k] {
        newest := Some(k);
      }
      left := left - {k};
    }
  }

  predicate Distinct<T(==)>(xs: seq<T>) {
    forall i, j :: 0 <= i < j < |xs| ==> xs[i] != xs[j]
  }

  /** The elements of `xs`, as a set. */
  function Elems<T>(xs: seq<T>): set<T> {
    set x | x in xs
  }

  lemma ElemsSnoc<T>(xs: seq<T>, x: T)
    ensures Elems(xs + [x]) == Elems(xs) + {x}
  {
  }

  /** A sequence is its first element and the rest; the multiset view of it. */
  lemma MultisetHead<T>(xs: seq<T>)
    requires xs != []
    ensures multiset(xs) == multiset{xs[0]} + multiset(xs[1..])
  {
    assert xs == [xs[0]] + xs[1..];
  }

  lemma MultisetLast<T>(xs: seq<T>)
    requires xs != []
    ensures multiset(xs) == multiset(xs[..|xs| - 1]) + multiset{xs[|xs| - 1]}
  {
    assert xs == xs[..|xs| - 1] + [xs[|xs| - 1]];
  }

  /** Distinctness read off the multiset: no element occurs twice. */
  lemma DistinctMultiset<T>(xs: seq<T>)
    ensures Distinct(xs) <==> forall x :: multiset(xs)[x] <= 1
  {
    if Distinct(xs) {
      forall x ensures multiset(xs)[x] <= 1 {
        CountAtMostOne(xs, x);
      }
    }
    if !Distinct(xs) {
      var i, j :| 0 <= i < j < |xs| && xs[i] == xs[j];
      assert xs == xs[..j] + [xs[j]] + xs[j + 1..];
      assert xs[i] in xs[..j];
      assert multiset(xs)[xs[i]] >= 2;
    }
  }

  lemma {:induction false} CountAtMostOne<T>(xs: seq<T>, x: T)
    requires Distinct(xs)
    ensures multiset(xs)[x] <= 1
  {
    if xs != [] {
      CountAtMostOne(xs[1..], x);
      MultisetHead(xs);
      if xs[0] == x {
        assert x !in xs[1..];
      }
    }
  }

  /** A duplicate-free sequence has as many elements as the set of them. */
  lemma {:induction false} DistinctSize<T>(xs: seq<T>)
    requires Distinct(xs)
    ensures |Elems(xs)| == |xs|
  {
    if xs == [] {
      assert Elems(xs) == {};
    } else {
      DistinctSize(xs[1..]);
      assert xs[0] !in xs[1..];
      assert Elems(xs) == {xs[0]} + Elems(xs[1..]);
    }
  }

  /** Two duplicate-free sequences with no element in common concatenate to one. */
  lemma DistinctAppend<T>(xs: seq<T>, ys: seq<T>)
    ensures Distinct(xs + ys) <==> Distinct(xs) && Distinct(ys) && Elems(xs) !! Elems(ys)
  {
    var zs := xs + ys;
    if Distinct(zs) {
      forall i, j | 0 <= i < j < |xs| ensures xs[i] != xs[j] {
        assert zs[i] == xs[i] && zs[j] == xs[j];
      }
      forall i, j | 0 <= i < j < |ys| ensures ys[i] != ys[j] {
        assert zs[|xs| + i] == ys[i] && zs[|xs| + j] == ys[j];
      }
      forall i, j | 0 <= i < |xs| && 0 <= j < |ys| ensures xs[i] != ys[j] {
        assert zs[i] == xs[i] && zs[|xs| + j] == ys[j];
      }
    }
    if Distinct(xs) && Distinct(ys) && Elems(xs) !! Elems(ys) {
      forall i, j | 0 <= i < j < |zs| ensures zs[i] != zs[j] {
        if i < |xs| <= j {
          assert xs[i] in Elems(xs) && ys[j - |xs|] in Elems(ys);
        }
      }
    }
  }

  /** Equal multisets drop one occurrence of the same element to equal multisets. */
  lemma RemoveAt<T>(xs: seq<T>, i: nat)
    requires i < |xs|
    ensures multiset(xs[..i] + xs[i + 1..]) + multiset{xs[i]} == multiset(xs)
  {
    assert xs == xs[..i] + [xs[i]] + xs[i + 1..];
  }

  /** The multiset of `f`'s values over a sequence. */
  function Image<T, U>(f: T -> U, xs: seq<T>): multiset<U> {
    if xs == [] then multiset{} else Image(f, xs[..|xs| - 1]) + multiset{f(xs[|xs| - 1])}
  }

  lemma {:induction false} ImageAppend<T, U>(f: T -> U, xs: seq<T>, ys: seq<T>)
    ensures Image(f, xs + ys) == Image(f, xs) + Image(f, ys)
  {
    if ys == [] {
      ImageAppendNothing(f, xs, ys);
    } else {
      LastApart(ys);
      ImageAppend(f, xs, ys[..|ys| - 1]);
      ImageAppendOne(f, xs, ys[..|ys| - 1], ys[|ys| - 1]);
    }
  }

  lemma ImageAppendNothing<T, U>(f: T -> U, xs: seq<T>, ys: seq<T>)
    requires ys == []
    ensures Image(f, xs + ys) == Image(f, xs) + Image(f, ys)
  {
    assert xs + ys == xs;
  }

  lemma LastApart<T>(xs: seq<T>)
    requires xs != []
    ensures xs == xs[..|xs| - 1] + [xs[|xs| - 1]]
  {
  }

  lemma ImageAppendOne<T, U>(f: T -> U, xs: seq<T>, ys: seq<T>, y: T)
    requires Image(f, xs + ys) == Image(f, xs) + Image(f, ys)
    ensures Image(f, xs + (ys + [y])) == Image(f, xs) + Image(f, ys + [y])
  {
    AppendAssociates(xs, ys, [y]);
    ImageSnoc(f, xs + ys, y);
    ImageSnoc(f, ys, y);
    SumAssociates(Image(f, xs), Image(f, ys), multiset{f(y)});
  }

  lemma AppendAssociates<T>(xs: seq<T>, ys: seq<T>, zs: seq<T>)
    ensures xs + (ys + zs) == xs + ys + zs
  {
  }

  lemma SumAssociates<T>(a: multiset<T>, b: multiset<T>, c: multiset<T>)
    ensures a + (b + c) == a + b + c
  {
  }

  lemma ImageSnoc<T, U>(f: T -> U, xs: seq<T>, x: T)
    ensures Image(f, xs + [x]) == Image(f, xs) + multiset{f(x)}
  {
    assert (xs + [x])[..|xs|] == xs;
  }

  /** The image depends on the multiset alone. */
  lemma {:induction false} ImagePermutes<T, U>(f: T -> U, xs: seq<T>, ys: seq<T>)
    requires multiset(xs) == multiset(ys)
    ensures Image(f, xs) == Image(f, ys)
  {
    if xs == [] {
      assert |multiset(ys)| == |ys|;
    } else {
      var n := |xs| - 1;
      MultisetLast(xs);
      assert xs[n] in multiset(ys);
      var i :| 0 <= i < |ys| && ys[i] == xs[n];
      SameWithout(xs, ys, i);
      ImagePermutes(f, xs[..n], ys[..i] + ys[i + 1..]);
      ImageWithout(f, ys, i);
    }
  }

  lemma SameWithout<T>(xs: seq<T>, ys: seq<T>, i: nat)
    requires multiset(xs) == multiset(ys) && xs != [] && i < |ys| && ys[i] == xs[|xs| - 1]
    ensures multiset(xs[..|xs| - 1]) == multiset(ys[..i] + ys[i + 1..])
  {
    MultisetLast(xs);
    RemoveAt(ys, i);
    assert multiset(xs[..|xs| - 1]) == multiset(xs) - multiset{xs[|xs| - 1]};
  }

  lemma ImageMiddle<T, U>(f: T -> U, l: seq<T>, x: T, r: seq<T>)
    ensures Image(f, l + [x] + r) == Image(f, l + r) + multiset{f(x)}
  {
    ImageAppend(f, l + [x], r);
    ImageSnoc(f, l, x);
    ImageAppend(f, l, r);
  }

  lemma ImageWithout<T, U>(f: T -> U, ys: seq<T>, i: nat)
    requires i < |ys|
    ensures Image(f, ys) == Image(f, ys[..i] + ys[i + 1..]) + multiset{f(ys[i])}
  {
    assert ys == ys[..i] + [ys[i]] + ys[i + 1..];
    ImageMiddle(f, ys[..i], ys[i], ys[i + 1..]);
  }

  /** Functions that agree on the elements have the same image. */
  lemma {:induction false} ImageAgrees<T, U>(f: T -> U, g: T -> U, xs: seq<T>)
    requires forall x :: x in xs ==> f(x) == g(x)
    ensures Image(f, xs) == Image(g, xs)
  {
    if xs != [] {
      ImageAgrees(f, g, xs[..|xs| - 1]);
    }
  }

  lemma {:induction false} ImageMember<T, U>(f: T -> U, xs: seq<T>, y: U)
    ensures y in Image(f, xs) <==> exists i :: 0 <= i < |xs| && f(xs[i]) == y
  {
    if xs != [] {
      var n := |xs| - 1;
      ImageMember(f, xs[..n], y);
      if i :| 0 <= i < |xs| && f(xs[i]) == y && i < n {
        assert f(xs[..n][i]) == y;
      }
    }
  }
}
