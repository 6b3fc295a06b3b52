/** Sums of an integer measure over a sequence, and the facts about them that the
    accumulator loops of the dashboard need. */
module Sums {

  /** The sum of `f` over `s`, accumulated from the front as a `forEach` does. */
  function Sum<T>(s: seq<T>, f: T -> int): int {
    if s == [] then 0 else Sum(s[..|s| - 1], f) + f(s[|s| - 1])
  }

  /** Summing a concatenation sums both parts. */
  lemma {:induction false} SumAppend<T>(a: seq<T>, b: seq<T>, f: T -> int)
    ensures Sum(a + b, f) == Sum(a, f) + Sum(b, f)
    decreases |b|
  {
    if b == [] {
      assert a + b == a;
    } else {
      var b' := b[..|b| - 1];
      assert (a + b)[..|a + b| - 1] == a + b';
      SumAppend(a, b', f);
    }
  }

  /** One element more at the end adds its measure: the step of an accumulator loop. */
  lemma SumSnoc<T>(s: seq<T>, x: T, f: T -> int)
    ensures Sum(s + [x], f) == Sum(s, f) + f(x)
  {
    assert (s + [x])[..|s|] == s;
  }

  /** One element more at the front adds its measure. */
  lemma SumCons<T>(x: T, s: seq<T>, f: T -> int)
    ensures Sum([x] + s, f) == f(x) + Sum(s, f)
  {
    SumAppend([x], s, f);
    assert [x][..0] == [];
  }

  /** A sum of non-negative measures is non-negative. */
  lemma {:induction false} SumNonNegative<T>(s: seq<T>, f: T -> int)
    requires forall x :: x in s ==> f(x) >= 0
    ensures Sum(s, f) >= 0
    decreases |s|
  {
    if s != [] {
      assert forall x :: x in s[..|s| - 1] ==> x in s;
      SumNonNegative(s[..|s| - 1], f);
    }
  }

  /** A sum of measures that are each at least 1 is at least the length. */
  lemma {:induction false} SumAtLeastLength<T>(s: seq<T>, f: T -> int)
    requires forall x :: x in s ==> f(x) >= 1
    ensures Sum(s, f) >= |s|
    decreases |s|
  {
    if s != [] {
      assert forall x :: x in s[..|s| - 1] ==> x in s;
      SumAtLeastLength(s[..|s| - 1], f);
    }
  }

  /** No element occurs twice. */
  predicate Distinct<T(==)>(s: seq<T>) {
    forall i, j :: 0 <= i < j < |s| ==> s[i] != s[j]
  }

  /** A sequence without repetitions counts every element at most once. */
  lemma {:induction false} DistinctCountsOnce<T>(s: seq<T>)
    ensures Distinct(s) <==> forall x :: multiset(s)[x] <= 1
    decreases |s|
  {
    if s != [] {
      var s' := s[..|s| - 1];
      var y := s[|s| - 1];
      assert s == s' + [y];
      DistinctCountsOnce(s');
      assert multiset(s) == multiset(s') + multiset{y};
      if Distinct(s) {
        assert Distinct(s');
        assert y !in s';
      }
      if forall x :: multiset(s)[x] <= 1 {
        assert forall x :: multiset(s')[x] <= 1 by {
          forall x ensures multiset(s')[x] <= 1 {
            assert multiset(s)[x] >= multiset(s')[x];
          }
        }
        assert multiset(s)[y] == multiset(s')[y] + 1 <= 1;
        forall i, j | 0 <= i < j < |s| ensures s[i] != s[j] {
          if j == |s| - 1 {
            assert s[i] in s';
          } else {
            assert s'[i] != s'[j];
          }
        }
      }
    }
  }

  /** Rearranging a sequence without repetitions leaves it without repetitions. */
  lemma DistinctPermutation<T>(s: seq<T>, r: seq<T>)
    requires multiset(r) == multiset(s) && Distinct(s)
    ensures Distinct(r)
  {
    DistinctCountsOnce(s);
    DistinctCountsOnce(r);
  }
}
