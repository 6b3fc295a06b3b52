/** The two orderings the dashboard asks of `Array.prototype.sort`: descending by a
    numeric key (`(a, b) => key(b) - key(a)`), which ECMAScript requires to be
    stable, and the default ascending string order used for the category list. */
module Sorting {
  import opened Sums

  // ---------------------------------------------------------------- by numeric key

  /** Every element's key is at least that of every later element. */
  predicate SortedDesc<T>(s: seq<T>, key: T -> int) {
    forall i, j :: 0 <= i < j < |s| ==> key(s[i]) >= key(s[j])
  }

  /** Inserts `x` in front of the first element whose key does not exceed its own,
      so that `x` stays ahead of the equal keys that followed it in the input. */
  function Insert<T>(x: T, s: seq<T>, key: T -> int): (r: seq<T>)
    ensures multiset(r) == multiset(s) + multiset{x}
  {
    if s == [] then [x]
    else if key(s[0]) <= key(x) then [x] + s
    else
      assert s == [s[0]] + s[1..];
      [s[0]] + Insert(x, s[1..], key)
  }

  lemma {:induction false} InsertBelow<T>(x: T, s: seq<T>, key: T -> int, m: int)
    requires key(x) <= m
    requires forall i :: 0 <= i < |s| ==> key(s[i]) <= m
    ensures forall i :: 0 <= i < |Insert(x, s, key)| ==> key(Insert(x, s, key)[i]) <= m
    decreases |s|
  {
    if s != [] && key(s[0]) > key(x) {
      InsertBelow(x, s[1..], key, m);
    }
  }

  lemma {:induction false} InsertSorted<T>(x: T, s: seq<T>, key: T -> int)
    requires SortedDesc(s, key)
    ensures SortedDesc(Insert(x, s, key), key)
    decreases |s|
  {
    if s == [] {
    } else if key(s[0]) <= key(x) {
      ConsSorted(x, s, key);
    } else {
      InsertSorted(x, s[1..], key);
      InsertBelow(x, s[1..], key, key(s[0]));
      ConsSorted(s[0], Insert(x, s[1..], key), key);
    }
  }

  /** A head whose key is at least every key of a sorted tail keeps the list sorted. */
  lemma ConsSorted<T>(h: T, rest: seq<T>, key: T -> int)
    requires SortedDesc(rest, key)
    requires rest != [] ==> key(rest[0]) <= key(h)
    ensures SortedDesc([h] + rest, key)
  {
    var r := [h] + rest;
    forall i, j | 0 <= i < j < |r| ensures key(r[i]) >= key(r[j]) {
      assert r[j] == rest[j - 1];
      if i > 0 { assert r[i] == rest[i - 1]; }
    }
  }

  /** Stable sort, largest key first. */
  function SortDesc<T>(s: seq<T>, key: T -> int): (r: seq<T>)
    ensures multiset(r) == multiset(s)
    ensures |r| == |s|
  {
    if s == [] then []
    else
      assert s == [s[0]] + s[1..];
      Insert(s[0], SortDesc(s[1..], key), key)
  }

  /** The result of the sort is ordered. */
  lemma {:induction false} SortDescSorted<T>(s: seq<T>, key: T -> int)
    ensures SortedDesc(SortDesc(s, key), key)
    decreases |s|
  {
    if s != [] {
      SortDescSorted(s[1..], key);
      InsertSorted(s[0], SortDesc(s[1..], key), key);
    }
  }

  /** The elements of `s` whose key is `k`, in their order in `s`. */
  function WithKey<T>(s: seq<T>, key: T -> int, k: int): seq<T> {
    if s == [] then []
    else (if key(s[0]) == k then [s[0]] else []) + WithKey(s[1..], key, k)
  }

  lemma {:induction false} InsertKeepsTies<T>(x: T, s: seq<T>, key: T -> int, k: int)
    ensures WithKey(Insert(x, s, key), key, k)
         == (if key(x) == k then [x] else []) + WithKey(s, key, k)
    decreases |s|
  {
    if s == [] {
      assert Insert(x, s, key) == [x];
      assert [x][1..] == [];
    } else if key(s[0]) <= key(x) {
      var r := [x] + s;
      assert Insert(x, s, key) == r;
      assert r[0] == x && r[1..] == s;
    } else {
      var rest := Insert(x, s[1..], key);
      var r := [s[0]] + rest;
      assert Insert(x, s, key) == r;
      assert r[0] == s[0] && r[1..] == rest;
      InsertKeepsTies(x, s[1..], key, k);
      var tail := WithKey(s[1..], key, k);
      assert WithKey(s, key, k) == (if key(s[0]) == k then [s[0]] else []) + tail;
      if key(s[0]) == k {
        assert key(x) != k;
        calc {
          WithKey(r, key, k);
          [s[0]] + WithKey(rest, key, k);
          [s[0]] + tail;
        }
      } else {
        calc {
          WithKey(r, key, k);
          WithKey(rest, key, k);
        }
      }
    }
  }

  /** Stability: the elements that share a key keep the order they had. */
  lemma {:induction false} SortDescStable<T>(s: seq<T>, key: T -> int, k: int)
    ensures WithKey(SortDesc(s, key), key, k) == WithKey(s, key, k)
    decreases |s|
  {
    if s != [] {
      SortDescStable(s[1..], key, k);
      InsertKeepsTies(s[0], SortDesc(s[1..], key), key, k);
    }
  }

  /** Sorting does not change a sum taken over the elements. */
  lemma {:induction false} SortDescSum<T>(s: seq<T>, key: T -> int, f: T -> int)
    ensures Sum(SortDesc(s, key), f) == Sum(s, f)
    decreases |s|
  {
    if s != [] {
      SortDescSum(s[1..], key, f);
      InsertSum(s[0], SortDesc(s[1..], key), key, f);
      SumCons(s[0], s[1..], f);
      assert s == [s[0]] + s[1..];
    }
  }

  lemma {:induction false} InsertSum<T>(x: T, s: seq<T>, key: T -> int, f: T -> int)
    ensures Sum(Insert(x, s, key), f) == f(x) + Sum(s, f)
    decreases |s|
  {
    if s == [] {
      SumCons(x, [], f);
      assert [x] + [] == [x];
    } else if key(s[0]) <= key(x) {
      SumCons(x, s, f);
    } else {
      InsertSum(x, s[1..], key, f);
      SumCons(s[0], Insert(x, s[1..], key), f);
      SumCons(s[0], s[1..], f);
      assert s == [s[0]] + s[1..];
    }
  }

  // ---------------------------------------------------------------- strings

  /** The default order of `Array.prototype.sort` on strings: lexicographic by
      character, a proper prefix first. */
  predicate LexLe(a: string, b: string) {
    if a == [] then true
    else if b == [] then false
    else if a[0] != b[0] then a[0] < b[0]
    else LexLe(a[1..], b[1..])
  }

  lemma {:induction false} LexLeTotal(a: string, b: string)
    ensures LexLe(a, b) || LexLe(b, a)
    decreases |a|
  {
    if a != [] && b != [] && a[0] == b[0] {
      LexLeTotal(a[1..], b[1..]);
    }
  }

  lemma {:induction false} LexLeTransitive(a: string, b: string, c: string)
    requires LexLe(a, b) && LexLe(b, c)
    ensures LexLe(a, c)
    decreases |a|
  {
    if a != [] && b != [] && c != [] && a[0] == b[0] && b[0] == c[0] {
      LexLeTransitive(a[1..], b[1..], c[1..]);
    }
  }

  predicate SortedLex(s: seq<string>) {
    forall i, j :: 0 <= i < j < |s| ==> LexLe(s[i], s[j])
  }

  function InsertLex(x: string, s: seq<string>): (r: seq<string>)
    ensures multiset(r) == multiset(s) + multiset{x}
  {
    if s == [] then [x]
    else if LexLe(x, s[0]) then [x] + s
    else
      assert s == [s[0]] + s[1..];
      [s[0]] + InsertLex(x, s[1..])
  }

  lemma {:induction false} InsertLexSorted(x: string, s: seq<string>)
    requires SortedLex(s)
    ensures SortedLex(InsertLex(x, s))
    decreases |s|
  {
    if s == [] {
    } else if LexLe(x, s[0]) {
      forall y | y in s ensures LexLe(x, y) {
        var k :| 0 <= k < |s| && s[k] == y;
        if k > 0 { LexLeTransitive(x, s[0], y); }
      }
      ConsLexSorted(x, s);
    } else {
      LexLeTotal(x, s[0]);
      InsertLexSorted(x, s[1..]);
      InsertLexAbove(x, s);
      ConsLexSorted(s[0], InsertLex(x, s[1..]));
    }
  }

  /** Whatever goes into the tail of a sorted list lies above its head. */
  lemma InsertLexAbove(x: string, s: seq<string>)
    requires s != [] && SortedLex(s) && LexLe(s[0], x)
    ensures forall y :: y in InsertLex(x, s[1..]) ==> LexLe(s[0], y)
  {
    var rest := InsertLex(x, s[1..]);
    forall y | y in rest ensures LexLe(s[0], y) {
      assert y in multiset(rest);
      if y != x {
        assert y in multiset(s[1..]);
        var k :| 0 <= k < |s[1..]| && s[1..][k] == y;
        assert s[k + 1] == y;
      }
    }
  }

  /** A head no greater than anything in a sorted tail keeps the list sorted. */
  lemma ConsLexSorted(h: string, rest: seq<string>)
    requires SortedLex(rest)
    requires forall y :: y in rest ==> LexLe(h, y)
    ensures SortedLex([h] + rest)
  {
    var r := [h] + rest;
    forall i, j | 0 <= i < j < |r| ensures LexLe(r[i], r[j]) {
      assert r[j] == rest[j - 1];
      if i == 0 { assert r[j] in rest; }
      else { assert r[i] == rest[i - 1]; }
    }
  }

  /** Ascending sort of strings. */
  function SortLex(s: seq<string>): (r: seq<string>)
    ensures multiset(r) == multiset(s)
  {
    if s == [] then []
    else
      assert s == [s[0]] + s[1..];
      InsertLex(s[0], SortLex(s[1..]))
  }

  /** The result of the string sort is ordered. */
  lemma {:induction false} SortLexSorted(s: seq<string>)
    ensures SortedLex(SortLex(s))
    decreases |s|
  {
    if s != [] {
      SortLexSorted(s[1..]);
      InsertLexSorted(s[0], SortLex(s[1..]));
    }
  }
}
