/** Strings ordered by code point, as Python orders them, and sorting by a string key. */
module Ordering {

  /** Lexicographic order by code point. */
  predicate Leq(a: string, b: string) {
    a == [] || (b != [] && (a[0] < b[0] || (a[0] == b[0] && Leq(a[1..], b[1..]))))
  }

  lemma {:induction false} LeqTotal(a: string, b: string)
    ensures Leq(a, b) || Leq(b, a)
    decreases |a|
  {
    if a != [] && b != [] && a[0] == b[0] {
      LeqTotal(a[1..], b[1..]);
    }
  }

  lemma {:induction false} LeqAntisymmetric(a: string, b: string)
    requires Leq(a, b) && Leq(b, a)
    ensures a == b
    decreases |a|
  {
    if a != [] {
      LeqAntisymmetric(a[1..], b[1..]);
      assert a == [a[0]] + a[1..] && b == [b[0]] + b[1..];
    }
  }

  lemma {:induction false} LeqTransitive(a: string, b: string, c: string)
    requires Leq(a, b) && Leq(b, c)
    ensures Leq(a, c)
    decreases |a|
  {
    if a != [] && a[0] == b[0] && b[0] == c[0] {
      LeqTransitive(a[1..], b[1..], c[1..]);
    }
  }

  lemma {:induction false} LeqReflexive(a: string)
    ensures Leq(a, a)
    decreases |a|
  {
    if a != [] {
      LeqReflexive(a[1..]);
    }
  }

  /** The first place at which two strings differ, within both. */
  ghost predicate DifferFirstAt(a: string, b: string, i: int) {
    0 <= i < |a| && i < |b| && a[..i] == b[..i] && a[i] != b[i]
  }

  /** The order of code points, said without recursion: a is a proper prefix of b, or at the first place
      where they differ a has the smaller character. */
  ghost predicate ComesBefore(a: string, b: string) {
    (a <= b && |a| < |b|) || exists i :: DifferFirstAt(a, b, i) && a[i] < b[i]
  }

  /** The recursive comparison decides exactly this order. */
  lemma {:induction false} LeqExactly(a: string, b: string)
    ensures Leq(a, b) <==> a == b || ComesBefore(a, b)
    decreases |a|
  {
    if a != [] && b != [] {
      if a[0] == b[0] {
        LeqExactly(a[1..], b[1..]);
        TailsCompare(a, b);
      } else {
        assert DifferFirstAt(a, b, 0);
      }
    }
  }

  lemma TailsCompare(a: string, b: string)
    requires a != [] && b != [] && a[0] == b[0]
    ensures a == b <==> a[1..] == b[1..]
    ensures ComesBefore(a, b) <==> ComesBefore(a[1..], b[1..])
  {
    assert a == [a[0]] + a[1..] && b == [b[0]] + b[1..];
    if i :| DifferFirstAt(a, b, i) && a[i] < b[i] {
      assert a[1..][..i - 1] == a[..i][1..] && b[1..][..i - 1] == b[..i][1..];
      assert DifferFirstAt(a[1..], b[1..], i - 1);
    }
    if i :| DifferFirstAt(a[1..], b[1..], i) && a[1..][i] < b[1..][i] {
      assert a[..i + 1] == [a[0]] + a[1..][..i] && b[..i + 1] == [b[0]] + b[1..][..i];
      assert DifferFirstAt(a, b, i + 1);
    }
  }

  /** The strings of a list stand in strictly ascending order of code points. */
  ghost predicate Ascending(xs: seq<string>) {
    forall i :: 0 <= i < |xs| - 1 ==> ComesBefore(xs[i], xs[i + 1])
  }

  /** The keys of a list. */
  function KeysBy<T>(xs: seq<T>, key: T -> string): (r: seq<string>)
    ensures |r| == |xs| && forall i :: 0 <= i < |r| ==> r[i] == key(xs[i])
  {
    seq(|xs|, i requires 0 <= i < |xs| => key(xs[i]))
  }

  /** Sorted with distinct keys means that the keys ascend. */
  lemma SortedAscends<T(!new)>(xs: seq<T>, key: T -> string)
    requires SortedBy(xs, key) && DistinctBy(xs, key)
    ensures Ascending(KeysBy(xs, key))
  {
    forall i | 0 <= i < |xs| - 1
      ensures ComesBefore(key(xs[i]), key(xs[i + 1]))
    {
      assert Leq(key(xs[i]), key(xs[i + 1])) && key(xs[i]) != key(xs[i + 1]);
      LeqExactly(key(xs[i]), key(xs[i + 1]));
    }
  }

  // ---------- sorting ----------

  ghost predicate SortedBy<T(!new)>(xs: seq<T>, key: T -> string) {
    forall i, j :: 0 <= i <= j < |xs| ==> Leq(key(xs[i]), key(xs[j]))
  }

  function Insert<T>(x: T, xs: seq<T>, key: T -> string): seq<T> {
    if xs == [] then [x]
    else if Leq(key(x), key(xs[0])) then [x] + xs
    else [xs[0]] + Insert(x, xs[1..], key)
  }

  /** The stable sorted rearrangement. */
  function SortBy<T>(xs: seq<T>, key: T -> string): seq<T> {
    if xs == [] then [] else Insert(xs[0], SortBy(xs[1..], key), key)
  }

  function Sort(xs: seq<string>): seq<string> {
    SortBy(xs, (s: string) => s)
  }

  lemma {:induction false} InsertAdds<T>(x: T, xs: seq<T>, key: T -> string)
    ensures multiset(Insert(x, xs, key)) == multiset(xs) + multiset{x}
    decreases |xs|
  {
    if xs != [] && !Leq(key(x), key(xs[0])) {
      InsertAdds(x, xs[1..], key);
      assert xs == [xs[0]] + xs[1..];
    }
  }

  /** A head that comes before everything in a sorted tail. */
  lemma ConsSorted<T(!new)>(x: T, xs: seq<T>, key: T -> string)
    requires SortedBy(xs, key) && forall y :: y in xs ==> Leq(key(x), key(y))
    ensures SortedBy([x] + xs, key)
  {
    LeqReflexive(key(x));
    forall i, j | 0 <= i <= j < |[x] + xs|
      ensures Leq(key(([x] + xs)[i]), key(([x] + xs)[j]))
    {
      if i > 0 {
        assert Leq(key(xs[i - 1]), key(xs[j - 1]));
      } else if j > 0 {
        assert xs[j - 1] in xs;
      }
    }
  }

  lemma TailSorted<T(!new)>(xs: seq<T>, key: T -> string)
    requires xs != [] && SortedBy(xs, key)
    ensures SortedBy(xs[1..], key) && forall y :: y in xs ==> Leq(key(xs[0]), key(y))
  {
    forall i, j | 0 <= i <= j < |xs[1..]|
      ensures Leq(key(xs[1..][i]), key(xs[1..][j]))
    {
      assert Leq(key(xs[i + 1]), key(xs[j + 1]));
    }
  }

  lemma {:induction false} InsertKeeps<T(!new)>(x: T, xs: seq<T>, key: T -> string)
    requires SortedBy(xs, key)
    ensures SortedBy(Insert(x, xs, key), key)
    decreases |xs|
  {
    if xs == [] {
      LeqReflexive(key(x));
    } else {
      TailSorted(xs, key);
      if Leq(key(x), key(xs[0])) {
        forall y | y in xs
          ensures Leq(key(x), key(y))
        {
          LeqTransitive(key(x), key(xs[0]), key(y));
        }
        ConsSorted(x, xs, key);
      } else {
        InsertKeeps(x, xs[1..], key);
        InsertBehind(x, xs, key);
        ConsSorted(xs[0], Insert(x, xs[1..], key), key);
      }
    }
  }

  lemma InsertBehind<T(!new)>(x: T, xs: seq<T>, key: T -> string)
    requires xs != [] && !Leq(key(x), key(xs[0])) && forall y :: y in xs ==> Leq(key(xs[0]), key(y))
    ensures forall y :: y in Insert(x, xs[1..], key) ==> Leq(key(xs[0]), key(y))
  {
    var tail := Insert(x, xs[1..], key);
    InsertAdds(x, xs[1..], key);
    LeqTotal(key(x), key(xs[0]));
    forall y | y in tail
      ensures Leq(key(xs[0]), key(y))
    {
      assert y in multiset(tail);
      assert y == x || y in xs[1..];
    }
  }

  lemma {:induction false} SortByKeeps<T(!new)>(xs: seq<T>, key: T -> string)
    ensures SortedBy(SortBy(xs, key), key)
    ensures multiset(SortBy(xs, key)) == multiset(xs)
    ensures |SortBy(xs, key)| == |xs|
    decreases |xs|
  {
    if xs != [] {
      SortByKeeps(xs[1..], key);
      InsertKeeps(xs[0], SortBy(xs[1..], key), key);
      InsertAdds(xs[0], SortBy(xs[1..], key), key);
      assert xs == [xs[0]] + xs[1..];
    }
    assert |multiset(SortBy(xs, key))| == |multiset(xs)|;
  }

  /** Elements with the same key are the same element. */
  ghost predicate KeyDetermines<T(!new)>(xs: seq<T>, key: T -> string) {
    forall x, y :: x in xs && y in xs && key(x) == key(y) ==> x == y
  }

  lemma HeadsAgree<T(!new)>(a: seq<T>, b: seq<T>, key: T -> string)
    requires SortedBy(a, key) && SortedBy(b, key) && multiset(a) == multiset(b) && KeyDetermines(a, key)
    requires a != [] && b != []
    ensures a[0] == b[0]
  {
    assert a[0] in multiset(a) && b[0] in multiset(b);
    var i :| 0 <= i < |b| && b[i] == a[0];
    var j :| 0 <= j < |a| && a[j] == b[0];
    assert Leq(key(b[0]), key(b[i])) && Leq(key(a[0]), key(a[j]));
    LeqAntisymmetric(key(a[0]), key(b[0]));
  }

  lemma TailLoses<T>(a: seq<T>)
    requires a != []
    ensures multiset(a[1..]) == multiset(a) - multiset{a[0]}
  {
    assert a == [a[0]] + a[1..];
  }

  /** A sorted arrangement of given elements is unique when the key determines the element. */
  lemma {:induction false} SortedUnique<T(!new)>(a: seq<T>, b: seq<T>, key: T -> string)
    requires SortedBy(a, key) && SortedBy(b, key) && multiset(a) == multiset(b) && KeyDetermines(a, key)
    ensures a == b
    decreases |a|
  {
    assert |multiset(a)| == |multiset(b)|;
    if a != [] {
      HeadsAgree(a, b, key);
      TailLoses(a);
      TailLoses(b);
      SortedUnique(a[1..], b[1..], key);
      assert a == [a[0]] + a[1..] && b == [b[0]] + b[1..];
    }
  }

  /** Sorting forgets the order of its input. */
  lemma SortByOrderFree<T(!new)>(a: seq<T>, b: seq<T>, key: T -> string)
    requires multiset(a) == multiset(b) && KeyDetermines(a, key)
    ensures SortBy(a, key) == SortBy(b, key)
  {
    SortByKeeps(a, key);
    SortByKeeps(b, key);
    forall x, y | x in SortBy(a, key) && y in SortBy(a, key) && key(x) == key(y)
      ensures x == y
    {
      assert x in multiset(SortBy(a, key)) && y in multiset(SortBy(a, key));
      assert x in multiset(a) && y in multiset(a);
    }
    SortedUnique(SortBy(a, key), SortBy(b, key), key);
  }

  // ---------- distinct keys ----------

  ghost predicate DistinctBy<T(!new)>(xs: seq<T>, key: T -> string) {
    forall i, j :: 0 <= i < j < |xs| ==> key(xs[i]) != key(xs[j])
  }

  lemma {:induction false} DistinctOnce<T(!new)>(xs: seq<T>, key: T -> string, x: T)
    requires DistinctBy(xs, key)
    ensures multiset(xs)[x] <= 1
    decreases |xs|
  {
    if xs != [] {
      var front, last := xs[..|xs| - 1], xs[|xs| - 1];
      assert xs == front + [last];
      DistinctOnce(front, key, x);
      assert last !in front;
      assert multiset(front)[last] == 0;
    }
  }

  lemma TwiceCounts<T>(xs: seq<T>, i: nat, j: nat)
    requires i < j < |xs| && xs[i] == xs[j]
    ensures multiset(xs)[xs[i]] >= 2
  {
    assert xs == xs[..j] + xs[j..];
    assert xs[i] in xs[..j] && xs[j] in xs[j..];
    assert multiset(xs) == multiset(xs[..j]) + multiset(xs[j..]);
  }

  lemma DistinctUnderPermutation<T(!new)>(xs: seq<T>, ys: seq<T>, key: T -> string)
    requires DistinctBy(xs, key) && multiset(xs) == multiset(ys)
    ensures DistinctBy(ys, key)
  {
    forall i, j | 0 <= i < j < |ys|
      ensures key(ys[i]) != key(ys[j])
    {
      assert ys[i] in multiset(xs) && ys[j] in multiset(xs);
      DistinctOnce(xs, key, ys[i]);
      if ys[i] == ys[j] {
        TwiceCounts(ys, i, j);
      }
    }
  }

  lemma DistinctDetermines<T(!new)>(xs: seq<T>, key: T -> string)
    requires DistinctBy(xs, key)
    ensures KeyDetermines(xs, key)
  {
  }

  lemma {:induction false} DistinctSize(xs: seq<string>)
    requires forall i, j :: 0 <= i < j < |xs| ==> xs[i] != xs[j]
    ensures |set x | x in xs| == |xs|
    decreases |xs|
  {
    if xs != [] {
      var n := |xs| - 1;
      DistinctSize(xs[..n]);
      assert (set x | x in xs) == (set x | x in xs[..n]) + {xs[n]};
    }
  }

  lemma DistinctWithin(a: seq<string>, b: seq<string>)
    requires DistinctBy(a, (s: string) => s) && forall x :: x in a ==> x in b
    ensures multiset(a) <= multiset(b)
  {
    forall x | x in multiset(a)
      ensures multiset(a)[x] <= multiset(b)[x]
    {
      DistinctOnce(a, (s: string) => s, x);
      assert x in b;
    }
  }

  /** A sorted list of distinct strings is determined by the set of its members. */
  lemma SortedSetUnique(a: seq<string>, b: seq<string>)
    requires SortedBy(a, (s: string) => s) && SortedBy(b, (s: string) => s)
    requires DistinctBy(a, (s: string) => s) && DistinctBy(b, (s: string) => s)
    requires forall x :: x in a <==> x in b
    ensures a == b
  {
    DistinctWithin(a, b);
    DistinctWithin(b, a);
    assert multiset(a) == multiset(b);
    SortedUnique(a, b, (s: string) => s);
  }

  // ---------- sets of strings in order ----------

  predicate IsLeast(x: string, s: set<string>) {
    x in s && forall y :: y in s ==> Leq(x, y)
  }

  lemma {:induction false} HasLeast(s: set<string>)
    requires s != {}
    ensures exists x :: IsLeast(x, s)
    decreases |s|
  {
    var x :| x in s;
    var rest := s - {x};
    assert s == rest + {x};
    LeqReflexive(x);
    if rest == {} {
      assert IsLeast(x, s);
    } else {
      HasLeast(rest);
      var y :| IsLeast(y, rest);
      LeqTotal(x, y);
      forall z | z in rest && Leq(x, y)
        ensures Leq(x, z)
      {
        LeqTransitive(x, y, z);
      }
      assert IsLeast(if Leq(x, y) then x else y, s);
    }
  }

  function Least(s: set<string>): (x: string)
    requires s != {}
    ensures IsLeast(x, s)
  {
    HasLeast(s);
    LeastUnique(s);
    var x :| x in s && IsLeast(x, s);
    x
  }

  lemma LeastUnique(s: set<string>)
    ensures forall x, y :: IsLeast(x, s) && IsLeast(y, s) ==> x == y
  {
    forall x, y | IsLeast(x, s) && IsLeast(y, s)
      ensures x == y
    {
      LeqAntisymmetric(x, y);
    }
  }

  /** The members of a set in sorted order. */
  function SortedSet(s: set<string>): (r: seq<string>)
    ensures forall x :: x in r <==> x in s
    ensures SortedBy(r, (x: string) => x) && DistinctBy(r, (x: string) => x)
    decreases |s|
  {
    if s == {} then []
    else
      var x := Least(s);
      LeqReflexive(x);
      [x] + SortedSet(s - {x})
  }
}
