/** Counting the elements of a sequence that satisfy a predicate. */
module Seqs {

  function Count<T>(s: seq<T>, p: T -> bool): nat
  {
    if s == [] then 0 else Count(s[..|s| - 1], p) + (if p(s[|s| - 1]) then 1 else 0)
  }

  lemma {:induction false} CountAppend<T>(a: seq<T>, b: seq<T>, p: T -> bool)
    ensures Count(a + b, p) == Count(a, p) + Count(b, p)
    decreases |b|
  {
    if b == [] {
      assert a + b == a;
    } else {
      var b' := b[..|b| - 1];
      assert (a + b)[..|a + b| - 1] == a + b';
      CountAppend(a, b', p);
    }
  }

  lemma CountSingle<T>(x: T, p: T -> bool)
    ensures Count([x], p) == if p(x) then 1 else 0
  {
    assert [x][..0] == [];
  }

  /** No element occurs twice. */
  predicate Distinct<T(==)>(s: seq<T>)
  {
    forall i, j :: 0 <= i < j < |s| ==> Apart(s, i, j)
  }

  /** The elements at `i` and `j` differ. */
  predicate Apart<T(==)>(s: seq<T>, i: nat, j: nat)
    requires i < |s| && j < |s|
  {
    s[i] != s[j]
  }

  lemma DistinctAt<T>(s: seq<T>, i: nat, j: nat)
    requires Distinct(s) && i < |s| && j < |s| && i != j
    ensures s[i] != s[j]
  {
    if i < j {
      assert Apart(s, i, j);
    } else {
      assert Apart(s, j, i);
    }
  }

  lemma DistinctAppend<T>(a: seq<T>, b: seq<T>)
    requires Distinct(a) && Distinct(b)
    requires forall j :: 0 <= j < |b| ==> b[j] !in a
    ensures Distinct(a + b)
  {
    forall i, j | 0 <= i < j < |a + b|
      ensures Apart(a + b, i, j)
    {
      if j < |a| {
        assert Apart(a, i, j);
      } else if i >= |a| {
        assert Apart(b, i - |a|, j - |a|);
      } else {
        assert (a + b)[j] == b[j - |a|];
      }
    }
  }

  /** `c` holds, for each element of `xs`, how often it occurs in `bs`. */
  predicate Tallies<T(==)>(c: seq<nat>, xs: seq<T>, bs: seq<T>)
  {
    |c| == |xs| && forall j :: 0 <= j < |xs| ==> c[j] == multiset(bs)[xs[j]]
  }

  /** Reading one more element of `bs`, which is `xs[k]`, raises the tally of `xs[k]`, and
      only that tally, by one. */
  lemma TalliesStep<T>(c: seq<nat>, xs: seq<T>, bs: seq<T>, i: nat, k: nat)
    requires Distinct(xs) && i < |bs| && k < |xs| && bs[i] == xs[k]
    requires Tallies(c, xs, bs[..i])
    ensures Tallies(c[k := c[k] + 1], xs, bs[..i + 1])
  {
    forall j | 0 <= j < |xs| && j != k
      ensures xs[j] != xs[k]
    {
      DistinctAt(xs, j, k);
    }
    assert bs[..i + 1] == bs[..i] + [xs[k]];
    assert multiset(bs[..i + 1]) == multiset(bs[..i]) + multiset{xs[k]};
  }
}
