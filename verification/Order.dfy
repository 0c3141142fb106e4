/** Strings by code point, and insertion sort by a string key. */
module Order {
  predicate Leq(a: string, b: string) {
    a == [] || (b != [] && (a[0] < b[0] || (a[0] == b[0] && Leq(a[1..], b[1..]))))
  }

  lemma {:induction false} LeqTotal(a: string, b: string)
    ensures Leq(a, b) || Leq(b, a)
  {
    if a != [] && b != [] && a[0] == b[0] { LeqTotal(a[1..], b[1..]); }
  }

  lemma {:induction false} LeqAntisymmetric(a: string, b: string)
    requires Leq(a, b) && Leq(b, a)
    ensures a == b
  {
    if a != [] && b != [] {
      LeqAntisymmetric(a[1..], b[1..]);
      assert a == [a[0]] + a[1..] && b == [b[0]] + b[1..];
    }
  }

  lemma {:induction false} LeqTransitive(a: string, b: string, c: string)
    requires Leq(a, b) && Leq(b, c)
    ensures Leq(a, c)
  {
    if a != [] && a[0] == b[0] && b[0] == c[0] { LeqTransitive(a[1..], b[1..], c[1..]); }
  }

  lemma {:induction false} LeqReflexive(a: string)
    ensures Leq(a, a)
  {
    if a != [] { LeqReflexive(a[1..]); }
  }

  predicate Sorted<T(!new)>(xs: seq<T>, key: T -> string) {
    forall i, j | 0 <= i < j < |xs| :: Leq(key(xs[i]), key(xs[j]))
  }

  function Insert<T>(x: T, xs: seq<T>, key: T -> string): seq<T> {
    if xs == [] then [x]
    else if Leq(key(x), key(xs[0])) then [x] + xs
    else [xs[0]] + Insert(x, xs[1..], key)
  }

  function Sort<T>(xs: seq<T>, key: T -> string): seq<T> {
    if xs == [] then [] else Insert(xs[0], Sort(xs[1..], key), key)
  }

  lemma {:induction false} InsertKeeps<T(!new)>(x: T, xs: seq<T>, key: T -> string)
    requires Sorted(xs, key)
    ensures Sorted(Insert(x, xs, key), key)
    ensures multiset(Insert(x, xs, key)) == multiset{x} + multiset(xs)
  {
    var r := Insert(x, xs, key);
    if xs != [] {
      assert xs == [xs[0]] + xs[1..];
      if Leq(key(x), key(xs[0])) {
        forall i, j | 0 <= i < j < |r|
          ensures Leq(key(r[i]), key(r[j]))
        {
          if i == 0 && j > 1 { LeqTransitive(key(x), key(xs[0]), key(xs[j - 1])); }
        }
      } else {
        InsertKeeps(x, xs[1..], key);
        LeqTotal(key(x), key(xs[0]));
        HeadStaysFirst(x, xs, Insert(x, xs[1..], key), key);
      }
    }
  }

  lemma HeadStaysFirst<T(!new)>(x: T, xs: seq<T>, rest: seq<T>, key: T -> string)
    requires xs != [] && Sorted(xs, key) && Sorted(rest, key) && Leq(key(xs[0]), key(x))
    requires multiset(rest) == multiset{x} + multiset(xs[1..])
    ensures Sorted([xs[0]] + rest, key)
  {
    forall j | 0 <= j < |rest|
      ensures Leq(key(xs[0]), key(rest[j]))
    {
      assert rest[j] in multiset(rest);
      assert rest[j] == x || rest[j] in xs[1..];
    }
  }

  /** Sorting gives a sorted permutation. */
  lemma {:induction false} SortSorts<T(!new)>(xs: seq<T>, key: T -> string)
    ensures Sorted(Sort(xs, key), key)
    ensures multiset(Sort(xs, key)) == multiset(xs)
  {
    if xs != [] {
      SortSorts(xs[1..], key);
      InsertKeeps(xs[0], Sort(xs[1..], key), key);
      assert xs == [xs[0]] + xs[1..];
    }
  }

  ghost predicate InjectiveOn<T(!new)>(xs: seq<T>, key: T -> string) {
    forall x, y | x in xs && y in xs && key(x) == key(y) :: x == y
  }

  lemma SmallestFirst<T(!new)>(xs: seq<T>, y: T, key: T -> string)
    requires Sorted(xs, key) && y in xs
    ensures Leq(key(xs[0]), key(y))
  {
    var j :| 0 <= j < |xs| && xs[j] == y;
    LeqReflexive(key(xs[0]));
  }

  lemma RestOf<T>(xs: seq<T>)
    requires xs != []
    ensures multiset(xs[1..]) == multiset(xs) - multiset{xs[0]}
  {
    assert xs == [xs[0]] + xs[1..];
  }

  lemma SortedRest<T(!new)>(xs: seq<T>, key: T -> string)
    requires xs != [] && Sorted(xs, key)
    ensures Sorted(xs[1..], key)
  {
  }

  lemma {:induction false} SortedIsUnique<T(!new)>(xs: seq<T>, ys: seq<T>, key: T -> string)
    requires Sorted(xs, key) && Sorted(ys, key) && multiset(xs) == multiset(ys) && InjectiveOn(xs, key)
    ensures xs == ys
  {
    assert |xs| == |multiset(xs)| == |multiset(ys)| == |ys|;
    if xs != [] {
      var x, y := xs[0], ys[0];
      assert x in multiset(ys) && y in multiset(xs);
      SmallestFirst(xs, y, key);
      SmallestFirst(ys, x, key);
      LeqAntisymmetric(key(x), key(y));
      assert x == y;
      RestOf(xs);
      RestOf(ys);
      SortedRest(xs, key);
      SortedRest(ys, key);
      SortedIsUnique(xs[1..], ys[1..], key);
    }
  }

  /** With a key that tells the elements apart, sorting forgets the order and nothing else. */
  lemma SortForgetsOrder<T(!new)>(xs: seq<T>, ys: seq<T>, key: T -> string)
    requires InjectiveOn(xs, key)
    ensures Sort(xs, key) == Sort(ys, key) <==> multiset(xs) == multiset(ys)
  {
    SortSorts(xs, key);
    SortSorts(ys, key);
    if multiset(xs) == multiset(ys) {
      forall x, y | x in Sort(xs, key) && y in Sort(xs, key) && key(x) == key(y)
        ensures x == y
      {
        assert x in multiset(xs) && y in multiset(xs);
      }
      SortedIsUnique(Sort(xs, key), Sort(ys, key), key);
    }
  }

  // ----- sorted, duplicate-free ids

  predicate Distinct<T(==)>(xs: seq<T>) {
    forall i, j | 0 <= i < j < |xs| :: xs[i] != xs[j]
  }

  ghost predicate Increasing(ids: seq<string>) {
    Distinct(ids) && forall i, j | 0 <= i < j < |ids| :: Leq(ids[i], ids[j])
  }
}
