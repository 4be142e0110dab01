/**
 * `Array.prototype.sort` with a numeric comparator `(a, b) => key(a) - key(b)`:
 * the sort is stable, so it is the stable ascending sort by `key`. Descending
 * orders use the negated key.
 */
module Ranking {
  import opened Text

  /** Non-decreasing keys. */
  predicate SortedBy<T>(s: seq<T>, key: T -> int) {
    forall i, j :: 0 <= i < j < |s| ==> key(s[i]) <= key(s[j])
  }

  /** `x` placed after the elements of `s` with a smaller key and before the rest. */
  function Insert<T>(x: T, s: seq<T>, key: T -> int): (r: seq<T>)
    ensures |r| == |s| + 1
  {
    if s == [] || key(x) <= key(s[0]) then [x] + s else [s[0]] + Insert(x, s[1..], key)
  }

  /** The stable ascending sort by `key` (insertion from the back). */
  function SortBy<T>(s: seq<T>, key: T -> int): (r: seq<T>)
    ensures |r| == |s|
  {
    if s == [] then [] else Insert(s[0], SortBy(s[1..], key), key)
  }

  /** The elements of `s` whose key is `k`, in order. */
  function WithKey<T>(s: seq<T>, key: T -> int, k: int): seq<T> {
    if s == [] then [] else (if key(s[0]) == k then [s[0]] else []) + WithKey(s[1..], key, k)
  }

  lemma {:induction false} InsertPermutes<T>(x: T, s: seq<T>, key: T -> int)
    ensures multiset(Insert(x, s, key)) == multiset(s) + multiset{x}
  {
    if s != [] && key(x) > key(s[0]) {
      InsertPermutes(x, s[1..], key);
      assert s == [s[0]] + s[1..];
    }
  }

  lemma {:induction false} InsertKeys<T>(x: T, s: seq<T>, key: T -> int)
    ensures forall i :: 0 <= i < |Insert(x, s, key)| ==>
      key(Insert(x, s, key)[i]) == key(x) || exists j :: 0 <= j < |s| && key(Insert(x, s, key)[i]) == key(s[j])
  {
    if s != [] && key(x) > key(s[0]) {
      InsertKeys(x, s[1..], key);
      var r := Insert(x, s, key);
      forall i | 0 < i < |r|
        ensures key(r[i]) == key(x) || exists j :: 0 <= j < |s| && key(r[i]) == key(s[j])
      {
        assert r[i] == Insert(x, s[1..], key)[i - 1];
        if key(r[i]) != key(x) {
          var j :| 0 <= j < |s[1..]| && key(r[i]) == key(s[1..][j]);
          assert s[1..][j] == s[j + 1];
        }
      }
    }
  }

  lemma {:induction false} InsertSorted<T>(x: T, s: seq<T>, key: T -> int)
    requires SortedBy(s, key)
    ensures SortedBy(Insert(x, s, key), key)
  {
    if s != [] && key(x) > key(s[0]) {
      var t := Insert(x, s[1..], key);
      assert SortedBy(s[1..], key);
      InsertSorted(x, s[1..], key);
      InsertKeys(x, s[1..], key);
      forall i | 0 <= i < |t| ensures key(s[0]) <= key(t[i]) {
        if key(t[i]) != key(x) {
          var j :| 0 <= j < |s[1..]| && key(t[i]) == key(s[1..][j]);
          assert s[1..][j] == s[j + 1];
        }
      }
      var r := [s[0]] + t;
      assert forall i :: 0 < i < |r| ==> r[i] == t[i - 1];
    }
  }

  /** Into a sorted sequence, `x` goes before every element of its own key. */
  lemma {:induction false} InsertWithKey<T>(x: T, s: seq<T>, key: T -> int, k: int)
    requires SortedBy(s, key)
    ensures WithKey(Insert(x, s, key), key, k) == (if key(x) == k then [x] else []) + WithKey(s, key, k)
  {
    if s == [] || key(x) <= key(s[0]) {
      var r := [x] + s;
      assert r[1..] == s;
    } else {
      assert SortedBy(s[1..], key);
      InsertWithKey(x, s[1..], key, k);
      var r := [s[0]] + Insert(x, s[1..], key);
      assert r[1..] == Insert(x, s[1..], key);
      if key(x) == k {
        assert key(s[0]) != k;
      }
    }
  }

  /** The sort is sorted and a permutation of its input. */
  lemma {:induction false} SortByOrders<T>(s: seq<T>, key: T -> int)
    ensures SortedBy(SortBy(s, key), key)
    ensures multiset(SortBy(s, key)) == multiset(s)
  {
    if s != [] {
      SortByOrders(s[1..], key);
      InsertSorted(s[0], SortBy(s[1..], key), key);
      InsertPermutes(s[0], SortBy(s[1..], key), key);
      assert s == [s[0]] + s[1..];
    }
  }

  /** The sort is stable: the elements of each key keep their relative order. */
  lemma {:induction false} SortByStable<T>(s: seq<T>, key: T -> int, k: int)
    ensures WithKey(SortBy(s, key), key, k) == WithKey(s, key, k)
  {
    if s != [] {
      SortByStable(s[1..], key, k);
      SortByOrders(s[1..], key);
      InsertWithKey(s[0], SortBy(s[1..], key), key, k);
    }
  }

  /** In a sorted sequence every element of a prefix has a key at most that of every later element. */
  lemma SortedSplit<T>(s: seq<T>, key: T -> int, n: nat)
    requires SortedBy(s, key) && n <= |s|
    ensures forall i, j :: 0 <= i < n <= j < |s| ==> key(s[i]) <= key(s[j])
  {
  }

  /** `s.slice(0, n)`. */
  function Take<T>(s: seq<T>, n: nat): (r: seq<T>)
    ensures |r| == (if |s| <= n then |s| else n) && r <= s
  {
    if |s| <= n then s else s[..n]
  }

  /** The elements of a prefix with key `k` are the first elements of key `k` of the whole. */
  lemma {:induction false} WithKeyPrefix<T>(s: seq<T>, key: T -> int, k: int, m: nat)
    requires m <= |s|
    ensures WithKey(s[..m], key, k) <= WithKey(s, key, k)
  {
    if m > 0 {
      assert s[..m][1..] == s[1..][..m - 1];
      WithKeyPrefix(s[1..], key, k, m - 1);
    }
  }

  /** The `n` smallest by `key`, ties in input order: `s.sort(by key).slice(0, n)`. */
  function Top<T>(s: seq<T>, key: T -> int, n: nat): (r: seq<T>)
    ensures |r| == (if |s| <= n then |s| else n)
  {
    Take(SortBy(s, key), n)
  }

  /** The top of a repetition-free sequence is repetition-free, in key order, and drawn from it. */
  lemma TopFromInput<T>(s: seq<T>, key: T -> int, n: nat)
    requires Distinct(s)
    ensures Distinct(Top(s, key, n)) && SortedBy(Top(s, key, n), key)
    ensures forall x :: x in Top(s, key, n) ==> x in s
  {
    var t := SortBy(s, key);
    SortByOrders(s, key);
    PermutationDistinct(s, t);
    var top := Top(s, key, n);
    assert top == t[..|top|];
    forall x | x in top ensures x in s {
      assert x in multiset(t);
    }
  }

  /** Every element left out of the top has a key at least that of every element in it. */
  lemma TopIsBest<T>(s: seq<T>, key: T -> int, n: nat)
    requires Distinct(s)
    ensures forall x, y :: x in Top(s, key, n) && y in s && y !in Top(s, key, n) ==> key(x) <= key(y)
  {
    var t := SortBy(s, key);
    SortByOrders(s, key);
    var top := Top(s, key, n);
    assert top == t[..|top|];
    SortedSplit(t, key, |top|);
    forall x, y | x in top && y in s && y !in top ensures key(x) <= key(y) {
      assert y in multiset(t);
      var i :| 0 <= i < |top| && top[i] == x;
      var j :| 0 <= j < |t| && t[j] == y;
    }
  }

  /** Elements of equal key in the top are the first elements of that key in `s`, in order. */
  lemma TopIsStable<T>(s: seq<T>, key: T -> int, n: nat, k: int)
    ensures WithKey(Top(s, key, n), key, k) <= WithKey(s, key, k)
  {
    var t := SortBy(s, key);
    SortByStable(s, key, k);
    var top := Top(s, key, n);
    assert top == t[..|top|];
    WithKeyPrefix(t, key, k, |top|);
  }

  /** `s.filter(p)`. */
  function Keep<T>(s: seq<T>, p: T -> bool): (r: seq<T>)
    ensures |r| <= |s|
  {
    if s == [] then [] else (if p(s[0]) then [s[0]] else []) + Keep(s[1..], p)
  }

  lemma {:induction false} KeepMembers<T>(s: seq<T>, p: T -> bool)
    ensures forall x :: x in Keep(s, p) <==> x in s && p(x)
  {
    if s != [] {
      KeepMembers(s[1..], p);
      assert s == [s[0]] + s[1..];
    }
  }

  lemma {:induction false} KeepDistinct<T>(s: seq<T>, p: T -> bool)
    requires Distinct(s)
    ensures Distinct(Keep(s, p))
  {
    if s != [] {
      assert Distinct(s[1..]);
      KeepDistinct(s[1..], p);
      KeepMembers(s[1..], p);
      assert s[0] !in s[1..];
      var r := Keep(s, p);
      var rest := Keep(s[1..], p);
      if p(s[0]) {
        assert forall i :: 0 < i < |r| ==> r[i] == rest[i - 1];
      }
    }
  }
}
