/** Rearrangements of a sequence as sequences of indices, and their relation to multisets. */
module Permutations {
  /** `p` lists the indices 0..n-1, each once. */
  predicate IsPermutation(p: seq<nat>, n: nat) {
    && |p| == n
    && (forall i | 0 <= i < n :: p[i] < n)
    && (forall i, j | 0 <= i < j < n :: p[i] != p[j])
  }

  function Remove<T>(xs: seq<T>, i: nat): (r: seq<T>)
    requires i < |xs|
    ensures |r| == |xs| - 1
    ensures forall k | 0 <= k < |r| :: r[k] == if k < i then xs[k] else xs[k + 1]
  {
    xs[..i] + xs[i + 1..]
  }

  lemma RemoveMultiset<T>(xs: seq<T>, i: nat)
    requires i < |xs|
    ensures multiset(xs) == multiset{xs[i]} + multiset(Remove(xs, i))
  {
    assert xs == xs[..i] + [xs[i]] + xs[i + 1..];
  }

  lemma TailMultiset<T>(xs: seq<T>)
    requires xs != []
    ensures multiset(xs) == multiset{xs[0]} + multiset(xs[1..])
  {
    assert xs == [xs[0]] + xs[1..];
  }

  lemma CancelOne<T>(x: T, a: multiset<T>, b: multiset<T>)
    requires multiset{x} + a == multiset{x} + b
    ensures a == b
  {
    assert a == (multiset{x} + a) - multiset{x} && b == (multiset{x} + b) - multiset{x};
  }

  /** Indices after the removed one move down by one, and back up. */
  function Lower(k: nat, removed: nat): nat {
    if k > removed then k - 1 else k
  }

  function Raise(k: nat, removed: nat): nat {
    if k >= removed then k + 1 else k
  }

  function LowerAll(p: seq<nat>, removed: nat): (r: seq<nat>)
    ensures |r| == |p| && forall i | 0 <= i < |p| :: r[i] == Lower(p[i], removed)
  {
    seq(|p|, i requires 0 <= i < |p| => Lower(p[i], removed))
  }

  function RaiseAll(p: seq<nat>, removed: nat): (r: seq<nat>)
    ensures |r| == |p| && forall i | 0 <= i < |p| :: r[i] == Raise(p[i], removed)
  {
    seq(|p|, i requires 0 <= i < |p| => Raise(p[i], removed))
  }

  ghost predicate Matches<T>(xs: seq<T>, ys: seq<T>, p: seq<nat>) {
    |xs| == |ys| && IsPermutation(p, |ys|) && forall i | 0 <= i < |xs| :: xs[i] == ys[p[i]]
  }

  lemma LoweredIsPermutation(p: seq<nat>, n: nat)
    requires IsPermutation(p, n) && n > 0
    ensures IsPermutation(LowerAll(p[1..], p[0]), n - 1)
  {
    var q := LowerAll(p[1..], p[0]);
    forall a | 0 <= a < n - 1
      ensures q[a] < n - 1
    {
      assert p[0] != p[a + 1];
    }
    forall a, b | 0 <= a < b < n - 1
      ensures q[a] != q[b]
    {
      assert p[a + 1] != p[b + 1] && p[0] != p[a + 1] && p[0] != p[b + 1];
    }
  }

  lemma LoweredMatches<T>(xs: seq<T>, ys: seq<T>, p: seq<nat>)
    requires Matches(xs, ys, p) && xs != []
    ensures Matches(xs[1..], Remove(ys, p[0]), LowerAll(p[1..], p[0]))
  {
    LoweredIsPermutation(p, |ys|);
    var q, rest := LowerAll(p[1..], p[0]), Remove(ys, p[0]);
    forall i | 0 <= i < |xs| - 1
      ensures xs[1..][i] == rest[q[i]]
    {
      assert p[0] != p[i + 1] && xs[i + 1] == ys[p[i + 1]];
    }
  }

  lemma {:induction false} MatchesMultiset<T>(xs: seq<T>, ys: seq<T>, p: seq<nat>)
    requires Matches(xs, ys, p)
    ensures multiset(xs) == multiset(ys)
  {
    if xs != [] {
      var rest := Remove(ys, p[0]);
      assert xs[0] == ys[p[0]];
      assert multiset(xs[1..]) == multiset(rest) by {
        LoweredMatches(xs, ys, p);
        MatchesMultiset(xs[1..], rest, LowerAll(p[1..], p[0]));
      }
      TailMultiset(xs);
      RemoveMultiset(ys, p[0]);
    }
  }

  lemma RaisedIsPermutation(q: seq<nat>, j: nat, n: nat)
    requires IsPermutation(q, n) && j <= n
    ensures IsPermutation([j] + RaiseAll(q, j), n + 1)
  {
    var p := [j] + RaiseAll(q, j);
    forall a, b | 0 <= a < b < n + 1
      ensures p[a] != p[b]
    {
      if a > 0 { assert q[a - 1] != q[b - 1]; }
    }
  }

  lemma RaisedMatches<T>(xs: seq<T>, ys: seq<T>, j: nat, q: seq<nat>)
    requires xs != [] && j < |ys| && ys[j] == xs[0] && Matches(xs[1..], Remove(ys, j), q)
    ensures Matches(xs, ys, [j] + RaiseAll(q, j))
  {
    RaisedIsPermutation(q, j, |ys| - 1);
    var p := [j] + RaiseAll(q, j);
    forall i | 0 <= i < |xs|
      ensures xs[i] == ys[p[i]]
    {
      if i > 0 { assert xs[1..][i - 1] == Remove(ys, j)[q[i - 1]]; }
    }
  }

  lemma {:induction false} FindMatching<T>(xs: seq<T>, ys: seq<T>) returns (p: seq<nat>)
    requires multiset(xs) == multiset(ys)
    ensures Matches(xs, ys, p)
  {
    assert |xs| == |multiset(xs)| == |multiset(ys)| == |ys|;
    if xs == [] {
      p := [];
    } else {
      TailMultiset(xs);
      assert xs[0] in multiset(ys);
      var j :| 0 <= j < |ys| && ys[j] == xs[0];
      RemoveMultiset(ys, j);
      CancelOne(xs[0], multiset(xs[1..]), multiset(Remove(ys, j)));
      var q := FindMatching(xs[1..], Remove(ys, j));
      RaisedMatches(xs, ys, j, q);
      p := [j] + RaiseAll(q, j);
    }
  }

  /** Two sequences have the same elements exactly when one is a rearrangement of the other. */
  lemma RearrangedExactly<T>(xs: seq<T>, ys: seq<T>)
    ensures multiset(xs) == multiset(ys) <==> exists p :: Matches(xs, ys, p)
  {
    if multiset(xs) == multiset(ys) { var p := FindMatching(xs, ys); }
    if exists p :: Matches(xs, ys, p) {
      var p :| Matches(xs, ys, p);
      MatchesMultiset(xs, ys, p);
    }
  }
}
