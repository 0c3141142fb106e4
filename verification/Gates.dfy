/** The order-independent representation of a gate's scope. */
module Gates {
  import opened Wrappers
  import opened Json
  import Order
  import Permutations

  /** Objects with an empty key are not accepted. */
  predicate PlainKeys(v: Json) {
    match v
    case List(xs) => forall i | 0 <= i < |xs| :: PlainKeys(xs[i])
    case Obj(ps) => forall i | 0 <= i < |ps| :: ps[i].0 != [] && PlainKeys(ps[i].1)
    case _ => true
  }

  function NormalizeAll(v: Json): (r: seq<Json>)
    requires v.List?
    ensures |r| == |v.items| && forall i | 0 <= i < |r| :: r[i] == Normalize(v.items[i])
    decreases v, 0
  {
    seq(|v.items|, i requires 0 <= i < |v.items| => Normalize(v.items[i]))
  }

  function NormalizePairs(v: Json): (r: seq<(string, Json)>)
    requires v.Obj?
    ensures |r| == |v.pairs| && forall i | 0 <= i < |r| :: r[i] == (v.pairs[i].0, Normalize(v.pairs[i].1))
    decreases v, 0
  {
    seq(|v.pairs|, i requires 0 <= i < |v.pairs| => (v.pairs[i].0, Normalize(v.pairs[i].1)))
  }

  /** Keys in order, and every list sorted by the serialization of its normalized items. */
  function Normalize(v: Json): Json
    decreases v, 1
  {
    match v
    case List(_) => List(Order.Sort(NormalizeAll(v), DumpSorted))
    case Obj(_) => Obj(Order.Sort(NormalizePairs(v), KeyOf))
    case _ => v
  }

  function CanonicalScope(v: Json): Option<string> {
    if PlainKeys(v) then Some(DumpSorted(Normalize(v))) else None
  }

  /** Equal up to the order of list items and of object keys, at every depth. */
  ghost predicate Equivalent(v: Json, w: Json)
    decreases v
  {
    match v
    case List(xs) =>
      w.List? && |xs| == |w.items| &&
      exists p | Permutations.IsPermutation(p, |xs|) :: forall i | 0 <= i < |xs| :: Equivalent(xs[i], w.items[p[i]])
    case Obj(ps) =>
      w.Obj? && |ps| == |w.pairs| &&
      exists p | Permutations.IsPermutation(p, |ps|) ::
        forall i | 0 <= i < |ps| :: ps[i].0 == w.pairs[p[i]].0 && Equivalent(ps[i].1, w.pairs[p[i]].1)
    case _ => v == w
  }

  // ----- normalized values

  lemma SortMembers<T(!new)>(xs: seq<T>, key: T -> string)
    ensures Order.Sorted(Order.Sort(xs, key), key) && multiset(Order.Sort(xs, key)) == multiset(xs)
    ensures |Order.Sort(xs, key)| == |xs|
    ensures forall x :: x in Order.Sort(xs, key) <==> x in xs
  {
    Order.SortSorts(xs, key);
    assert |multiset(Order.Sort(xs, key))| == |multiset(xs)|;
    forall x: T
      ensures x in Order.Sort(xs, key) <==> x in xs
    {
      assert x in multiset(Order.Sort(xs, key)) <==> x in multiset(xs);
    }
  }

  lemma {:induction false} SortedIsFixed<T(!new)>(xs: seq<T>, key: T -> string)
    requires Order.Sorted(xs, key)
    ensures Order.Sort(xs, key) == xs
  {
    if xs != [] {
      SortedIsFixed(xs[1..], key);
      if |xs| > 1 { assert Order.Leq(key(xs[0]), key(xs[1])); }
    }
  }

  /** Keys are what the pairs' order and distinctness depend on. */
  lemma DistinctKeysByMembers(ps: seq<(string, Json)>, qs: seq<(string, Json)>)
    requires DistinctKeys(ps) && multiset(ps) == multiset(qs)
    ensures DistinctKeys(qs)
  {
    var p := Permutations.FindMatching(qs, ps);
    forall i, j | 0 <= i < j < |qs|
      ensures qs[i].0 != qs[j].0
    {
      assert p[i] != p[j];
      if p[i] < p[j] { assert ps[p[i]].0 != ps[p[j]].0; } else { assert ps[p[j]].0 != ps[p[i]].0; }
    }
  }

  lemma {:induction false} NormalizeIsGood(v: Json)
    requires Good(v)
    ensures Good(Normalize(v)) && SortKeys(Normalize(v)) == Normalize(v)
    decreases v
  {
    match v
    case List(xs) =>
      forall i | 0 <= i < |xs|
        ensures Good(Normalize(xs[i])) && SortKeys(Normalize(xs[i])) == Normalize(xs[i])
      {
        NormalizeIsGood(xs[i]);
      }
      SortMembers(NormalizeAll(v), DumpSorted);
      FixedItems(NormalizeAll(v), Order.Sort(NormalizeAll(v), DumpSorted));
    case Obj(ps) =>
      forall i | 0 <= i < |ps|
        ensures Good(Normalize(ps[i].1)) && SortKeys(Normalize(ps[i].1)) == Normalize(ps[i].1)
      {
        NormalizeIsGood(ps[i].1);
      }
      SortMembers(NormalizePairs(v), KeyOf);
      DistinctKeysByMembers(NormalizePairs(v), Order.Sort(NormalizePairs(v), KeyOf));
      FixedPairs(NormalizePairs(v), Order.Sort(NormalizePairs(v), KeyOf));
    case _ =>
  }

  lemma FixedItems(all: seq<Json>, xs: seq<Json>)
    requires forall x | x in xs :: x in all
    requires forall i | 0 <= i < |all| :: Good(all[i]) && SortKeys(all[i]) == all[i]
    ensures Good(List(xs)) && SortKeys(List(xs)) == List(xs)
  {
    forall i | 0 <= i < |xs|
      ensures Good(xs[i]) && SortKeys(xs[i]) == xs[i]
    {
      assert xs[i] in all;
    }
    assert SortKeys(List(xs)).items == xs;
  }

  lemma FixedPairs(all: seq<(string, Json)>, ps: seq<(string, Json)>)
    requires forall x | x in ps :: x in all
    requires forall i | 0 <= i < |all| :: Good(all[i].1) && SortKeys(all[i].1) == all[i].1
    requires DistinctKeys(ps) && Order.Sorted(ps, KeyOf)
    ensures Good(Obj(ps)) && SortKeys(Obj(ps)) == Obj(ps)
  {
    forall i | 0 <= i < |ps|
      ensures Good(ps[i].1) && SortKeys(ps[i].1) == ps[i].1
    {
      assert ps[i] in all;
    }
    var mapped := seq(|ps|, i requires 0 <= i < |ps| => (ps[i].0, SortKeys(ps[i].1)));
    assert mapped == ps;
    SortedIsFixed(ps, KeyOf);
  }

  /** Serializing normalized values loses nothing. */
  lemma NormalizedDumpInjective(v: Json, w: Json)
    requires Good(v) && Good(w) && DumpSorted(Normalize(v)) == DumpSorted(Normalize(w))
    ensures Normalize(v) == Normalize(w)
  {
    NormalizeIsGood(v);
    NormalizeIsGood(w);
    DumpInjective(Normalize(v), Normalize(w));
  }

  // ----- the normal form decides equivalence

  lemma ListsAgree(v: Json, w: Json)
    requires v.List? && w.List? && Good(v)
    ensures Normalize(v) == Normalize(w) <==> multiset(NormalizeAll(v)) == multiset(NormalizeAll(w))
  {
    var xs := NormalizeAll(v);
    forall x, y | x in xs && y in xs && DumpSorted(x) == DumpSorted(y)
      ensures x == y
    {
      var i, j :| 0 <= i < |xs| && xs[i] == x && 0 <= j < |xs| && xs[j] == y;
      NormalizedDumpInjective(v.items[i], v.items[j]);
    }
    Order.SortForgetsOrder(xs, NormalizeAll(w), DumpSorted);
  }

  lemma OneIndexPerKey(ps: seq<(string, Json)>, i: nat, j: nat)
    requires DistinctKeys(ps) && i < |ps| && j < |ps| && ps[i].0 == ps[j].0
    ensures i == j
  {
  }

  lemma ObjectsAgree(v: Json, w: Json)
    requires v.Obj? && w.Obj? && Good(v)
    ensures Normalize(v) == Normalize(w) <==> multiset(NormalizePairs(v)) == multiset(NormalizePairs(w))
  {
    var ps := NormalizePairs(v);
    forall x, y | x in ps && y in ps && KeyOf(x) == KeyOf(y)
      ensures x == y
    {
      var i, j :| 0 <= i < |ps| && ps[i] == x && 0 <= j < |ps| && ps[j] == y;
      OneIndexPerKey(v.pairs, i, j);
    }
    Order.SortForgetsOrder(ps, NormalizePairs(w), KeyOf);
  }

  /** Two values have the same normal form exactly when they are equal up to reordering at every depth. */
  lemma {:induction false} NormalizeDecides(v: Json, w: Json)
    requires Good(v) && Good(w)
    ensures Normalize(v) == Normalize(w) <==> Equivalent(v, w)
    decreases v
  {
    if v.List? && w.List? {
      forall i, j | 0 <= i < |v.items| && 0 <= j < |w.items|
        ensures Normalize(v.items[i]) == Normalize(w.items[j]) <==> Equivalent(v.items[i], w.items[j])
      {
        NormalizeDecides(v.items[i], w.items[j]);
      }
      ListsAgree(v, w);
      Permutations.RearrangedExactly(NormalizeAll(v), NormalizeAll(w));
      ListMatching(v, w);
    } else if v.Obj? && w.Obj? {
      forall i, j | 0 <= i < |v.pairs| && 0 <= j < |w.pairs|
        ensures Normalize(v.pairs[i].1) == Normalize(w.pairs[j].1) <==> Equivalent(v.pairs[i].1, w.pairs[j].1)
      {
        NormalizeDecides(v.pairs[i].1, w.pairs[j].1);
      }
      ObjectsAgree(v, w);
      Permutations.RearrangedExactly(NormalizePairs(v), NormalizePairs(w));
      ObjectMatching(v, w);
    }
  }

  lemma ListMatching(v: Json, w: Json)
    requires v.List? && w.List?
    requires forall i, j | 0 <= i < |v.items| && 0 <= j < |w.items| ::
               Normalize(v.items[i]) == Normalize(w.items[j]) <==> Equivalent(v.items[i], w.items[j])
    ensures (exists p :: Permutations.Matches(NormalizeAll(v), NormalizeAll(w), p)) <==> Equivalent(v, w)
  {
    var xs, ys := v.items, w.items;
    if exists p :: Permutations.Matches(NormalizeAll(v), NormalizeAll(w), p) {
      var p :| Permutations.Matches(NormalizeAll(v), NormalizeAll(w), p);
      forall i | 0 <= i < |xs|
        ensures Equivalent(xs[i], ys[p[i]])
      {
        assert NormalizeAll(v)[i] == NormalizeAll(w)[p[i]];
      }
    }
    if Equivalent(v, w) {
      var p :| Permutations.IsPermutation(p, |xs|) && forall i | 0 <= i < |xs| :: Equivalent(xs[i], ys[p[i]]);
      assert Permutations.Matches(NormalizeAll(v), NormalizeAll(w), p);
    }
  }

  lemma ObjectMatching(v: Json, w: Json)
    requires v.Obj? && w.Obj?
    requires forall i, j | 0 <= i < |v.pairs| && 0 <= j < |w.pairs| ::
               Normalize(v.pairs[i].1) == Normalize(w.pairs[j].1) <==> Equivalent(v.pairs[i].1, w.pairs[j].1)
    ensures (exists p :: Permutations.Matches(NormalizePairs(v), NormalizePairs(w), p)) <==> Equivalent(v, w)
  {
    var ps, qs := v.pairs, w.pairs;
    if exists p :: Permutations.Matches(NormalizePairs(v), NormalizePairs(w), p) {
      var p :| Permutations.Matches(NormalizePairs(v), NormalizePairs(w), p);
      forall i | 0 <= i < |ps|
        ensures ps[i].0 == qs[p[i]].0 && Equivalent(ps[i].1, qs[p[i]].1)
      {
        assert NormalizePairs(v)[i] == NormalizePairs(w)[p[i]];
      }
    }
    if Equivalent(v, w) {
      var p :| Permutations.IsPermutation(p, |ps|) &&
               forall i | 0 <= i < |ps| :: ps[i].0 == qs[p[i]].0 && Equivalent(ps[i].1, qs[p[i]].1);
      assert Permutations.Matches(NormalizePairs(v), NormalizePairs(w), p);
    }
  }

  /** Two plain scopes have the same canonical string exactly when they are equal up to reordering at every depth. */
  lemma CanonicalScopeDecides(v: Json, w: Json)
    requires Good(v) && Good(w) && PlainKeys(v) && PlainKeys(w)
    ensures CanonicalScope(v) == CanonicalScope(w) <==> Equivalent(v, w)
  {
    NormalizeDecides(v, w);
    if CanonicalScope(v) == CanonicalScope(w) { NormalizedDumpInjective(v, w); }
  }
}
