/** Grouping by a key, as the dashboard does with plain objects used as dictionaries
    (`map[key] ||= {...}; map[key].total += ...`) and with `Set`: the keys come out of
    `Object.values` / a `Set` in the order in which they were first seen. An element
    whose key is missing (`keyOf(x) == None`) is skipped. */
module Grouping {
  import opened Fallback
  import opened Sums

  /** The elements of `s` whose key is `k`, in their order in `s`. */
  function Group<T, K(==)>(s: seq<T>, keyOf: T -> Option<K>, k: K): (g: seq<T>)
    ensures |g| <= |s|
  {
    if s == [] then []
    else
      var x := s[|s| - 1];
      Group(s[..|s| - 1], keyOf, k) + (if keyOf(x) == Some(k) then [x] else [])
  }

  /** A group holds exactly the elements of `s` with key `k`. */
  lemma {:induction false} GroupMembers<T, K>(s: seq<T>, keyOf: T -> Option<K>, k: K)
    ensures forall x :: x in Group(s, keyOf, k) <==> x in s && keyOf(x) == Some(k)
    decreases |s|
  {
    if s != [] {
      var s' := s[..|s| - 1];
      var x := s[|s| - 1];
      assert s == s' + [x];
      GroupMembers(s', keyOf, k);
    }
  }

  /** The positions of the elements with key `k`, in increasing order. */
  function Positions<T, K(==)>(s: seq<T>, keyOf: T -> Option<K>, k: K): (ix: seq<nat>)
    ensures forall j :: 0 <= j < |ix| ==> ix[j] < |s|
    ensures forall j, l :: 0 <= j < l < |ix| ==> ix[j] < ix[l]
    ensures forall i :: 0 <= i < |s| ==> (i in ix <==> keyOf(s[i]) == Some(k))
  {
    if s == [] then []
    else
      var n := |s| - 1;
      var ix := Positions(s[..n], keyOf, k);
      assert forall i :: 0 <= i < n ==> s[..n][i] == s[i];
      ix + (if keyOf(s[n]) == Some(k) then [n] else [])
  }

  /** A group is an order-preserving selection, duplicates included: it is `s` read at
      the increasing positions whose element has key `k`, as `Array.prototype.filter`
      returns it. */
  lemma {:induction false} GroupIsSelection<T, K>(s: seq<T>, keyOf: T -> Option<K>, k: K)
    ensures |Group(s, keyOf, k)| == |Positions(s, keyOf, k)|
    ensures forall j :: 0 <= j < |Positions(s, keyOf, k)| ==> Group(s, keyOf, k)[j] == s[Positions(s, keyOf, k)[j]]
    decreases |s|
  {
    if s != [] {
      var n := |s| - 1;
      var front := s[..n];
      GroupIsSelection(front, keyOf, k);
      var g, ix := Group(front, keyOf, k), Positions(front, keyOf, k);
      var tail := if keyOf(s[n]) == Some(k) then [s[n]] else [];
      assert Group(s, keyOf, k) == g + tail;
      assert Positions(s, keyOf, k) == ix + (if tail == [] then [] else [n]);
      forall j | 0 <= j < |ix| ensures (g + tail)[j] == s[ix[j]] {
        assert front[ix[j]] == s[ix[j]];
      }
    }
  }

  /** The elements of `s` that have a key, in their order in `s`. */
  function Keyed<T, K>(s: seq<T>, keyOf: T -> Option<K>): seq<T> {
    if s == [] then []
    else
      var x := s[|s| - 1];
      Keyed(s[..|s| - 1], keyOf) + (if keyOf(x).Some? then [x] else [])
  }

  /** The distinct keys of `s` in the order in which they first appear. */
  function Keys<T, K(==, !new)>(s: seq<T>, keyOf: T -> Option<K>): (ks: seq<K>)
    ensures Distinct(ks)
  {
    if s == [] then []
    else
      var x := s[|s| - 1];
      var ks := Keys(s[..|s| - 1], keyOf);
      if keyOf(x).Some? && keyOf(x).value !in ks then ks + [keyOf(x).value] else ks
  }

  /** The keys are exactly those whose group is not empty. */
  lemma {:induction false} KeysAreGroups<T, K(!new)>(s: seq<T>, keyOf: T -> Option<K>)
    ensures forall k :: k in Keys(s, keyOf) <==> Group(s, keyOf, k) != []
    decreases |s|
  {
    if s != [] {
      var s' := s[..|s| - 1];
      KeysAreGroups(s', keyOf);
    }
  }

  /** The key of every element that has one is collected. */
  lemma KeyListed<T, K(!new)>(s: seq<T>, keyOf: T -> Option<K>, x: T)
    requires x in s && keyOf(x).Some?
    ensures keyOf(x).value in Keys(s, keyOf)
  {
    KeysAreGroups(s, keyOf);
    GroupMembers(s, keyOf, keyOf(x).value);
  }

  /** The elements at which a key is seen for the first time, in their order: the
      elements whose entry creates a dictionary key. */
  function FirstSeen<T, K(==, !new)>(s: seq<T>, keyOf: T -> Option<K>): seq<T> {
    if s == [] then []
    else
      var s', x := s[..|s| - 1], s[|s| - 1];
      FirstSeen(s', keyOf) + (if keyOf(x).Some? && keyOf(x).value !in Keys(s', keyOf) then [x] else [])
  }

  /** The `i`th collected key is the key of the `i`th first-seen element. */
  lemma {:induction false} FirstSeenKeys<T, K(!new)>(s: seq<T>, keyOf: T -> Option<K>)
    ensures |FirstSeen(s, keyOf)| == |Keys(s, keyOf)|
    ensures forall i :: 0 <= i < |Keys(s, keyOf)| ==>
      FirstSeen(s, keyOf)[i] in s && keyOf(FirstSeen(s, keyOf)[i]) == Some(Keys(s, keyOf)[i])
    decreases |s|
  {
    if s != [] {
      var s', x := s[..|s| - 1], s[|s| - 1];
      assert s == s' + [x];
      FirstSeenKeys(s', keyOf);
    }
  }

  /** Two keys that split the elements into the same classes create their dictionary
      entries at the same elements. */
  lemma {:induction false} SameClassesSameFirsts<T, K1(!new), K2(!new)>(s: seq<T>, a: T -> Option<K1>, b: T -> Option<K2>)
    requires forall x :: x in s ==> a(x).Some? && b(x).Some?
    requires forall x, y :: x in s && y in s ==> (a(x) == a(y) <==> b(x) == b(y))
    ensures FirstSeen(s, a) == FirstSeen(s, b)
    decreases |s|
  {
    if s != [] {
      var s', x := s[..|s| - 1], s[|s| - 1];
      assert s == s' + [x];
      assert forall y :: y in s' ==> y in s;
      SameClassesSameFirsts(s', a, b);
      forall y | y in s' ensures a(y) == a(x) <==> b(y) == b(x) {
        assert y in s;
      }
      SeenAlike(s', a, b, x);
    }
  }

  /** An element whose class is the same under both keys has its key collected under
      one exactly when under the other. */
  lemma SeenAlike<T, K1(!new), K2(!new)>(s: seq<T>, a: T -> Option<K1>, b: T -> Option<K2>, x: T)
    requires a(x).Some? && b(x).Some?
    requires forall y :: y in s ==> (a(y) == a(x) <==> b(y) == b(x))
    ensures a(x).value in Keys(s, a) <==> b(x).value in Keys(s, b)
  {
    KeysAreGroups(s, a);
    KeysAreGroups(s, b);
    var ga, gb := Group(s, a, a(x).value), Group(s, b, b(x).value);
    GroupMembers(s, a, a(x).value);
    GroupMembers(s, b, b(x).value);
    assert forall z :: z in ga <==> z in s && a(z) == a(x);
    assert forall z :: z in gb <==> z in s && b(z) == b(x);
    if ga != [] {
      assert ga[0] in ga;
      var y :| y in ga;
      assert y in gb;
    }
    if gb != [] {
      assert gb[0] in gb;
      var y :| y in gb;
      assert y in ga;
    }
  }

  /** Two keys that select the same elements select the same group. */
  lemma {:induction false} GroupsAgree<T, K1, K2>(s: seq<T>, a: T -> Option<K1>, b: T -> Option<K2>, ka: K1, kb: K2)
    requires forall y :: y in s ==> (a(y) == Some(ka) <==> b(y) == Some(kb))
    ensures Group(s, a, ka) == Group(s, b, kb)
    decreases |s|
  {
    if s != [] {
      var s', x := s[..|s| - 1], s[|s| - 1];
      assert forall y :: y in s' ==> y in s;
      GroupsAgree(s', a, b, ka, kb);
    }
  }

  /** Taking one element more: how a group grows in a `forEach` step. */
  lemma GroupSnoc<T, K>(s: seq<T>, x: T, keyOf: T -> Option<K>, k: K)
    ensures Group(s + [x], keyOf, k) == Group(s, keyOf, k) + (if keyOf(x) == Some(k) then [x] else [])
  {
    assert (s + [x])[..|s|] == s;
  }

  /** Taking one element more: a key is appended when it is seen for the first time. */
  lemma KeysSnoc<T, K(!new)>(s: seq<T>, x: T, keyOf: T -> Option<K>)
    ensures Keys(s + [x], keyOf)
         == if keyOf(x).Some? && keyOf(x).value !in Keys(s, keyOf)
            then Keys(s, keyOf) + [keyOf(x).value] else Keys(s, keyOf)
  {
    assert (s + [x])[..|s|] == s;
  }

  /** Taking one element more: it is kept when it has a key. */
  lemma KeyedSnoc<T, K>(s: seq<T>, x: T, keyOf: T -> Option<K>)
    ensures Keyed(s + [x], keyOf) == Keyed(s, keyOf) + (if keyOf(x).Some? then [x] else [])
  {
    assert (s + [x])[..|s|] == s;
  }

  /** `Object.values` of a dictionary whose keys were inserted in the order `ks`. */
  function Values<K, V>(m: map<K, V>, ks: seq<K>): (r: seq<V>)
    requires forall k :: k in ks ==> k in m
    ensures |r| == |ks|
    ensures forall i :: 0 <= i < |ks| ==> r[i] == m[ks[i]]
  {
    if ks == [] then []
    else Values(m, ks[..|ks| - 1]) + [m[ks[|ks| - 1]]]
  }

  /** The sum of `f` over each group, added up over the keys `ks`. */
  function SumOverKeys<T, K(==)>(ks: seq<K>, s: seq<T>, keyOf: T -> Option<K>, f: T -> int): int {
    if ks == [] then 0
    else SumOverKeys(ks[..|ks| - 1], s, keyOf, f) + Sum(Group(s, keyOf, ks[|ks| - 1]), f)
  }

  lemma {:induction false} SumOverKeysGrow<T, K>(ks: seq<K>, s: seq<T>, x: T, keyOf: T -> Option<K>, f: T -> int)
    requires Distinct(ks)
    ensures SumOverKeys(ks, s + [x], keyOf, f)
         == SumOverKeys(ks, s, keyOf, f) + (if keyOf(x).Some? && keyOf(x).value in ks then f(x) else 0)
    decreases |ks|
  {
    if ks != [] {
      var ks' := ks[..|ks| - 1];
      var k := ks[|ks| - 1];
      assert ks == ks' + [k];
      assert Distinct(ks');
      assert k !in ks';
      SumOverKeysGrow(ks', s, x, keyOf, f);
      assert (s + [x])[..|s|] == s;
      assert Group(s + [x], keyOf, k) == Group(s, keyOf, k) + (if keyOf(x) == Some(k) then [x] else []);
      SumAppend(Group(s, keyOf, k), if keyOf(x) == Some(k) then [x] else [], f);
      if keyOf(x) == Some(k) {
        SumSnoc([], x, f);
      }
    }
  }

  /** A dictionary whose entries each measure their group: its values, in key order,
      add up to the groups' measures. */
  lemma {:induction false} ValuesSum<T, K, V>(m: map<K, V>, ks: seq<K>, s: seq<T>, keyOf: T -> Option<K>, f: V -> int, g: T -> int)
    requires forall k :: k in ks ==> k in m && f(m[k]) == Sum(Group(s, keyOf, k), g)
    ensures Sum(Values(m, ks), f) == SumOverKeys(ks, s, keyOf, g)
    decreases |ks|
  {
    if ks != [] {
      var n := |ks| - 1;
      ValuesSum(m, ks[..n], s, keyOf, f, g);
      assert Values(m, ks) == Values(m, ks[..n]) + [m[ks[n]]];
      SumSnoc(Values(m, ks[..n]), m[ks[n]], f);
    }
  }

  /** The groups partition the keyed elements: summing a measure group by group gives
      the same total as summing it over every element that has a key. */
  lemma {:induction false} PartitionSum<T, K(!new)>(s: seq<T>, keyOf: T -> Option<K>, f: T -> int)
    ensures SumOverKeys(Keys(s, keyOf), s, keyOf, f) == Sum(Keyed(s, keyOf), f)
    decreases |s|
  {
    if s != [] {
      var s' := s[..|s| - 1];
      var x := s[|s| - 1];
      assert s == s' + [x];
      var ks' := Keys(s', keyOf);
      var fx := if keyOf(x).Some? then f(x) else 0;
      PartitionSum(s', keyOf, f);
      assert Sum(Keyed(s, keyOf), f) == Sum(Keyed(s', keyOf), f) + fx by {
        KeyedSnoc(s', x, keyOf);
        SumAppend(Keyed(s', keyOf), if keyOf(x).Some? then [x] else [], f);
        SumSnoc([], x, f);
      }
      SumOverKeysGrow(ks', s', x, keyOf, f);
      KeysSnoc(s', x, keyOf);
      if keyOf(x).Some? && keyOf(x).value !in ks' {
        var k := keyOf(x).value;
        assert Sum(Group(s, keyOf, k), f) == f(x) by {
          KeysAreGroups(s', keyOf);
          GroupSnoc(s', x, keyOf, k);
          SumSnoc([], x, f);
        }
        assert (ks' + [k])[..|ks'|] == ks';
      }
    }
  }

  /** With a non-negative measure, no group sums to more than the whole sequence. */
  lemma {:induction false} GroupSumAtMost<T, K>(s: seq<T>, keyOf: T -> Option<K>, k: K, f: T -> int)
    requires forall x :: x in s ==> f(x) >= 0
    ensures 0 <= Sum(Group(s, keyOf, k), f) <= Sum(s, f)
    decreases |s|
  {
    if s != [] {
      var s' := s[..|s| - 1];
      var x := s[|s| - 1];
      assert forall y :: y in s' ==> y in s;
      GroupSumAtMost(s', keyOf, k, f);
      SumAppend(Group(s', keyOf, k), if keyOf(x) == Some(k) then [x] else [], f);
      if keyOf(x) == Some(k) {
        SumSnoc([], x, f);
      }
    }
  }

  lemma {:induction false} GroupOfAbsentKey<T, K>(s: seq<T>, keyOf: T -> Option<K>, k: K)
    requires forall y :: y in s ==> keyOf(y) != Some(k)
    ensures Group(s, keyOf, k) == []
    decreases |s|
  {
    if s != [] {
      assert forall y :: y in s[..|s| - 1] ==> y in s;
      GroupOfAbsentKey(s[..|s| - 1], keyOf, k);
    }
  }

  /** The first element of a group is the first element of `s` with that key, so the
      first-seen entry of a dictionary decides whatever is copied from it. */
  lemma {:induction false} GroupHeadIsFirst<T, K>(s: seq<T>, keyOf: T -> Option<K>, k: K, i: nat)
    requires i < |s| && keyOf(s[i]) == Some(k)
    requires forall j :: 0 <= j < i ==> keyOf(s[j]) != Some(k)
    ensures Group(s, keyOf, k) != [] && Group(s, keyOf, k)[0] == s[i]
    decreases |s|
  {
    var s' := s[..|s| - 1];
    var x := s[|s| - 1];
    if i == |s| - 1 {
      forall y | y in s' ensures keyOf(y) != Some(k) {
        var j :| 0 <= j < |s'| && s'[j] == y;
        assert s[j] == y;
      }
      GroupOfAbsentKey(s', keyOf, k);
    } else {
      GroupHeadIsFirst(s', keyOf, k, i);
    }
  }

  /** When every element has a key, none is skipped. */
  lemma {:induction false} KeyedEverything<T, K>(s: seq<T>, keyOf: T -> Option<K>)
    requires forall x :: x in s ==> keyOf(x).Some?
    ensures Keyed(s, keyOf) == s
    decreases |s|
  {
    if s != [] {
      var s' := s[..|s| - 1];
      var x := s[|s| - 1];
      assert s == s' + [x];
      forall y | y in s' ensures keyOf(y).Some? {
        assert y in s;
      }
      KeyedEverything(s', keyOf);
      assert keyOf(x).Some?;
      assert Keyed(s, keyOf) == s' + [x];
    }
  }

  /** The number of elements that have a key equals the group sizes added up. */
  lemma CountIsSumOfOnes<T>(s: seq<T>)
    ensures Sum(s, One) == |s|
  {
    if s != [] {
      CountIsSumOfOnes(s[..|s| - 1]);
    }
  }

  function One<T>(x: T): int { 1 }
}
