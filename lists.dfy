/**
 * The list operations the tracker relies on: List.RemoveAt with an index
 * check, LINQ's Where and Sum, and LINQ's OrderByDescending, a stable sort
 * on a key.
 */
module Lists {

  /**
   * Removal guarded by `0 <= idx < Count`: an index in range deletes exactly
   * that element and keeps the others in order; any other index is a no-op.
   */
  function RemoveAt<T>(s: seq<T>, idx: int): (r: seq<T>)
    ensures 0 <= idx < |s| ==> |r| == |s| - 1
    ensures 0 <= idx < |s| ==> forall j :: 0 <= j < idx ==> r[j] == s[j]
    ensures 0 <= idx < |s| ==> forall j :: idx <= j < |r| ==> r[j] == s[j + 1]
    ensures 0 <= idx < |s| ==> multiset(r) + multiset{s[idx]} == multiset(s)
    ensures !(0 <= idx < |s|) ==> r == s
  {
    if 0 <= idx < |s| then
      assert s == s[..idx] + [s[idx]] + s[idx + 1..];
      s[..idx] + s[idx + 1..]
    else s
  }

  /**
   * LINQ's Where: the elements that satisfy `p`, each as often as in `s`
   * (FilterMultiset), in their order in `s` (FilterAppend).
   */
  function Filter<T(!new)>(s: seq<T>, p: T -> bool): (r: seq<T>)
    ensures |r| <= |s|
    ensures forall x :: x in r <==> x in s && p(x)
  {
    if s == [] then [] else (if p(s[0]) then [s[0]] else []) + Filter(s[1..], p)
  }

  /** Where keeps every selected element as often as it occurs, and drops every other one. */
  lemma {:induction false} FilterMultiset<T(!new)>(s: seq<T>, p: T -> bool)
    ensures forall x :: multiset(Filter(s, p))[x] == if p(x) then multiset(s)[x] else 0
  {
    if s != [] {
      FilterMultiset(s[1..], p);
      assert s == [s[0]] + s[1..];
    }
  }

  /** Filtering a concatenation filters each part and keeps them in order. */
  lemma {:induction false} FilterAppend<T(!new)>(a: seq<T>, b: seq<T>, p: T -> bool)
    ensures Filter(a + b, p) == Filter(a, p) + Filter(b, p)
  {
    if a == [] {
      assert a + b == b;
    } else {
      assert (a + b)[0] == a[0];
      assert (a + b)[1..] == a[1..] + b;
      FilterAppend(a[1..], b, p);
    }
  }

  /** Two conditions that agree on every element of `s` select the same elements. */
  lemma {:induction false} FilterAgree<T(!new)>(s: seq<T>, p: T -> bool, q: T -> bool)
    requires forall x :: x in s ==> p(x) == q(x)
    ensures Filter(s, p) == Filter(s, q)
  {
    if s != [] {
      FilterAgree(s[1..], p, q);
    }
  }

  /** LINQ's Sum over a selector. */
  function Sum<T>(s: seq<T>, f: T -> real): (r: real)
    ensures (forall i :: 0 <= i < |s| ==> 0.0 <= f(s[i])) ==> 0.0 <= r
  {
    if s == [] then 0.0 else f(s[0]) + Sum(s[1..], f)
  }

  lemma {:induction false} SumAppend<T>(a: seq<T>, b: seq<T>, f: T -> real)
    ensures Sum(a + b, f) == Sum(a, f) + Sum(b, f)
  {
    if a == [] {
      assert a + b == b;
    } else {
      assert (a + b)[0] == a[0];
      assert (a + b)[1..] == a[1..] + b;
      SumAppend(a[1..], b, f);
    }
  }

  lemma SumSingleton<T>(x: T, f: T -> real)
    ensures Sum([x], f) == f(x)
  {
    assert [x][1..] == [];
  }

  /** A sum of positive values is positive unless the list is empty. */
  lemma {:induction false} SumPositive<T>(s: seq<T>, f: T -> real)
    requires forall x :: x in s ==> 0.0 < f(x)
    ensures 0.0 <= Sum(s, f)
    ensures Sum(s, f) == 0.0 <==> s == []
  {
    if s != [] {
      assert s[0] in s;
      SumPositive(s[1..], f);
    }
  }

  /** Over non-negative values, the sum of a filtered list is at most the sum of the list. */
  lemma {:induction false} SumFilterAtMost<T(!new)>(s: seq<T>, f: T -> real, p: T -> bool)
    requires forall x :: x in s ==> 0.0 <= f(x)
    ensures Sum(Filter(s, p), f) <= Sum(s, f)
  {
    if s != [] {
      assert s[0] in s;
      SumFilterAtMost(s[1..], f, p);
      SumAppend(if p(s[0]) then [s[0]] else [], Filter(s[1..], p), f);
    }
  }

  /** The elements of `s` whose key is `v`, in their order in `s`. */
  function WithKey<T>(s: seq<T>, key: T -> real, v: real): (r: seq<T>)
    ensures |r| <= |s|
    ensures forall x :: x in r ==> x in s && key(x) == v
  {
    if s == [] then [] else (if key(s[0]) == v then [s[0]] else []) + WithKey(s[1..], key, v)
  }

  /** Every element's key is at least that of every later element. */
  ghost predicate SortedDesc<T>(s: seq<T>, key: T -> real)
  {
    forall i, j :: 0 <= i < j < |s| ==> key(s[j]) <= key(s[i])
  }

  /** Puts `x` after the leading elements whose key is larger and before all others. */
  function Insert<T>(x: T, s: seq<T>, key: T -> real): (r: seq<T>)
    ensures |r| == |s| + 1
  {
    if s == [] then [x]
    else if key(s[0]) <= key(x) then [x] + s
    else [s[0]] + Insert(x, s[1..], key)
  }

  /** OrderByDescending: a stable insertion sort, largest key first. */
  function SortDesc<T>(s: seq<T>, key: T -> real): (r: seq<T>)
    ensures |r| == |s|
  {
    if s == [] then [] else Insert(s[0], SortDesc(s[1..], key), key)
  }

  lemma {:induction false} WithKeyAppend<T>(a: seq<T>, b: seq<T>, key: T -> real, v: real)
    ensures WithKey(a + b, key, v) == WithKey(a, key, v) + WithKey(b, key, v)
  {
    if a == [] {
      assert a + b == b;
    } else {
      assert (a + b)[0] == a[0];
      assert (a + b)[1..] == a[1..] + b;
      WithKeyAppend(a[1..], b, key, v);
    }
  }

  lemma {:induction false} InsertPermutes<T>(x: T, s: seq<T>, key: T -> real)
    ensures multiset(Insert(x, s, key)) == multiset(s) + multiset{x}
  {
    if s != [] && key(x) < key(s[0]) {
      InsertPermutes(x, s[1..], key);
      assert s == [s[0]] + s[1..];
    }
  }

  /** No element's key exceeds `b`. */
  ghost predicate AllAtMost<T>(s: seq<T>, key: T -> real, b: real)
  {
    forall i :: 0 <= i < |s| ==> key(s[i]) <= b
  }

  lemma ConsSorted<T>(y: T, t: seq<T>, key: T -> real)
    requires SortedDesc(t, key) && AllAtMost(t, key, key(y))
    ensures SortedDesc([y] + t, key)
  {
    var r := [y] + t;
    forall i, j | 0 <= i < j < |r| ensures key(r[j]) <= key(r[i]) {
      assert r[j] == t[j - 1];
      if i > 0 { assert r[i] == t[i - 1]; }
    }
  }

  lemma {:induction false} InsertBounded<T>(x: T, s: seq<T>, key: T -> real, b: real)
    requires AllAtMost(s, key, b) && key(x) <= b
    ensures AllAtMost(Insert(x, s, key), key, b)
  {
    if s != [] && key(x) < key(s[0]) {
      InsertBounded(x, s[1..], key, b);
      var t := Insert(x, s[1..], key);
      assert Insert(x, s, key) == [s[0]] + t;
    }
  }

  lemma {:induction false} InsertSorted<T>(x: T, s: seq<T>, key: T -> real)
    requires SortedDesc(s, key)
    ensures SortedDesc(Insert(x, s, key), key)
  {
    if s == [] {
    } else if key(s[0]) <= key(x) {
      ConsSorted(x, s, key);
    } else {
      InsertSorted(x, s[1..], key);
      InsertBounded(x, s[1..], key, key(s[0]));
      ConsSorted(s[0], Insert(x, s[1..], key), key);
    }
  }

  lemma WithKeyCons<T>(x: T, s: seq<T>, key: T -> real, v: real)
    ensures WithKey([x] + s, key, v) == (if key(x) == v then [x] else []) + WithKey(s, key, v)
  {
    assert ([x] + s)[0] == x;
    assert ([x] + s)[1..] == s;
  }

  /** Inserting `x` places it ahead of every element with the same key. */
  lemma {:induction false} InsertStable<T>(x: T, s: seq<T>, key: T -> real, v: real)
    ensures WithKey(Insert(x, s, key), key, v) == (if key(x) == v then [x] else []) + WithKey(s, key, v)
  {
    if s == [] {
      WithKeyCons(x, [], key, v);
    } else if key(s[0]) <= key(x) {
      WithKeyCons(x, s, key, v);
    } else {
      var t := Insert(x, s[1..], key);
      InsertStable(x, s[1..], key, v);
      WithKeyCons(s[0], t, key, v);
      WithKeyCons(s[0], s[1..], key, v);
      assert s == [s[0]] + s[1..];
    }
  }

  /** SortDesc returns a permutation of its input. */
  lemma {:induction false} SortDescPermutes<T>(s: seq<T>, key: T -> real)
    ensures multiset(SortDesc(s, key)) == multiset(s)
  {
    if s != [] {
      SortDescPermutes(s[1..], key);
      InsertPermutes(s[0], SortDesc(s[1..], key), key);
      assert s == [s[0]] + s[1..];
    }
  }

  /** SortDesc returns its input ordered by key, largest first. */
  lemma {:induction false} SortDescSorted<T>(s: seq<T>, key: T -> real)
    ensures SortedDesc(SortDesc(s, key), key)
  {
    if s != [] {
      SortDescSorted(s[1..], key);
      InsertSorted(s[0], SortDesc(s[1..], key), key);
    }
  }

  /** SortDesc is stable: the elements sharing a key keep their relative order. */
  lemma {:induction false} SortDescStable<T>(s: seq<T>, key: T -> real, v: real)
    ensures WithKey(SortDesc(s, key), key, v) == WithKey(s, key, v)
  {
    if s != [] {
      SortDescStable(s[1..], key, v);
      InsertStable(s[0], SortDesc(s[1..], key), key, v);
    }
  }

  /** The first element with key `v` is preceded only by elements with other keys. */
  lemma {:induction false} FirstWithKey<T>(s: seq<T>, key: T -> real, v: real)
    requires WithKey(s, key, v) != []
    ensures exists k :: 0 <= k < |s| && s[k] == WithKey(s, key, v)[0] && key(s[k]) == v &&
                        forall j :: 0 <= j < k ==> key(s[j]) != v
  {
    if key(s[0]) != v {
      FirstWithKey(s[1..], key, v);
      var k :| 0 <= k < |s[1..]| && s[1..][k] == WithKey(s[1..], key, v)[0] && key(s[1..][k]) == v &&
               forall j :: 0 <= j < k ==> key(s[1..][j]) != v;
      assert s[k + 1] == s[1..][k];
      forall j | 0 <= j < k + 1 ensures key(s[j]) != v {
        if j > 0 { assert s[j] == s[1..][j - 1]; }
      }
    } else {
      assert WithKey(s, key, v)[0] == s[0];
    }
  }

  /**
   * The head of the descending sort has the largest key, and it is the
   * first element of the input with that key.
   */
  lemma SortDescHead<T>(s: seq<T>, key: T -> real)
    requires s != []
    ensures forall j :: 0 <= j < |s| ==> key(s[j]) <= key(SortDesc(s, key)[0])
    ensures exists k :: 0 <= k < |s| && s[k] == SortDesc(s, key)[0] &&
                        forall j :: 0 <= j < k ==> key(s[j]) < key(s[k])
  {
    var r := SortDesc(s, key);
    var v := key(r[0]);
    SortDescSorted(s, key);
    SortDescPermutes(s, key);
    forall j | 0 <= j < |s| ensures key(s[j]) <= v {
      assert s[j] in multiset(r);
      var i :| 0 <= i < |r| && r[i] == s[j];
      if i > 0 { assert key(r[i]) <= key(r[0]); }
    }
    SortDescStable(s, key, v);
    assert WithKey(r, key, v) == [r[0]] + WithKey(r[1..], key, v);
    FirstWithKey(s, key, v);
  }
}
