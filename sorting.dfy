/** `result.sort((a, b) => key(a) - key(b))`: the ECMAScript sort is stable (ES2019), so a comparator that
    subtracts keys orders by ascending key and keeps equal keys in input order. It is modelled here by a stable
    insertion sort on values. */
module Sorting {
  import opened Seqs

  ghost predicate Sorted<T>(s: seq<T>, key: T -> real) {
    forall i, j :: 0 <= i < j < |s| ==> key(s[i]) <= key(s[j])
  }

  /** Puts x in front of the first element whose key is not smaller. */
  function Insert<T>(x: T, s: seq<T>, key: T -> real): (r: seq<T>)
    ensures multiset(r) == multiset(s) + multiset{x}
  {
    if s == [] then [x]
    else if key(x) <= key(s[0]) then [x] + s
    else
      assert s == [s[0]] + s[1..];
      [s[0]] + Insert(x, s[1..], key)
  }

  function SortBy<T>(s: seq<T>, key: T -> real): (r: seq<T>)
    ensures multiset(r) == multiset(s)
  {
    if s == [] then []
    else
      assert s == [s[0]] + s[1..];
      Insert(s[0], SortBy(s[1..], key), key)
  }

  /** The elements whose key is v. */
  function KeyIs<T>(key: T -> real, v: real): T -> bool {
    x => key(x) == v
  }

  /** Inserting adds no key below a bound that x and all of s respect. */
  lemma InsertBound<T>(x: T, s: seq<T>, key: T -> real, b: real)
    requires b <= key(x)
    requires forall i :: 0 <= i < |s| ==> b <= key(s[i])
    ensures forall y :: y in Insert(x, s, key) ==> b <= key(y)
  {
    var t := Insert(x, s, key);
    forall y | y in t ensures b <= key(y) {
      assert y in multiset(t);
      if y != x {
        assert y in multiset(s);
        var j :| 0 <= j < |s| && s[j] == y;
      }
    }
  }

  /** A head no larger than every key of a sorted tail gives a sorted sequence. */
  lemma ConsSorted<T>(h: T, t: seq<T>, key: T -> real)
    requires Sorted(t, key)
    requires forall y :: y in t ==> key(h) <= key(y)
    ensures Sorted([h] + t, key)
  {
    var u := [h] + t;
    forall i, j | 0 <= i < j < |u| ensures key(u[i]) <= key(u[j]) {
      assert u[j] == t[j - 1] && t[j - 1] in t;
      if i > 0 { assert u[i] == t[i - 1]; }
    }
  }

  lemma {:induction false} InsertSorted<T>(x: T, s: seq<T>, key: T -> real)
    requires Sorted(s, key)
    ensures Sorted(Insert(x, s, key), key)
  {
    if s == [] {
    } else if key(x) <= key(s[0]) {
      assert s == [s[0]] + s[1..];
      ConsSorted(x, s, key);
    } else {
      var tail := s[1..];
      assert Sorted(tail, key) by {
        forall i, j | 0 <= i < j < |tail| ensures key(tail[i]) <= key(tail[j]) {
          assert tail[i] == s[i + 1] && tail[j] == s[j + 1];
        }
      }
      InsertSorted(x, tail, key);
      assert forall i :: 0 <= i < |tail| ==> key(s[0]) <= key(tail[i]) by {
        forall i | 0 <= i < |tail| ensures key(s[0]) <= key(tail[i]) { assert tail[i] == s[i + 1]; }
      }
      InsertBound(x, tail, key, key(s[0]));
      ConsSorted(s[0], Insert(x, tail, key), key);
    }
  }

  /** The result of the sort is ordered by ascending key. */
  lemma {:induction false} SortBySorted<T>(s: seq<T>, key: T -> real)
    ensures Sorted(SortBy(s, key), key)
  {
    if s != [] {
      SortBySorted(s[1..], key);
      InsertSorted(s[0], SortBy(s[1..], key), key);
    }
  }

  /** Inserting x changes the elements of key v only by adding x in front of them, if its key is v. */
  lemma {:induction false} InsertKeepsEqualKeys<T>(x: T, s: seq<T>, key: T -> real, v: real)
    ensures Filter(Insert(x, s, key), KeyIs(key, v))
         == (if key(x) == v then [x] else []) + Filter(s, KeyIs(key, v))
  {
    if s == [] {
      FilterCons(x, [], KeyIs(key, v));
    } else if key(x) <= key(s[0]) {
      FilterCons(x, s, KeyIs(key, v));
    } else {
      var p, rest := KeyIs(key, v), Insert(x, s[1..], key);
      var front := if key(x) == v then [x] else [];
      assert Insert(x, s, key) == [s[0]] + rest;
      InsertKeepsEqualKeys(x, s[1..], key, v);
      assert Filter(rest, p) == front + Filter(s[1..], p);
      FilterCons(s[0], rest, p);
      FilterCons(s[0], s[1..], p);
      assert s == [s[0]] + s[1..];
      assert p(s[0]) == (key(s[0]) == v);
      if key(x) == v {
        assert !p(s[0]);
      } else {
        assert front == [];
      }
    }
  }

  /** Stability: the elements of any one key come out in the order they went in. */
  lemma {:induction false} SortByStable<T>(s: seq<T>, key: T -> real, v: real)
    ensures Filter(SortBy(s, key), KeyIs(key, v)) == Filter(s, KeyIs(key, v))
  {
    if s != [] {
      SortByStable(s[1..], key, v);
      InsertKeepsEqualKeys(s[0], SortBy(s[1..], key), key, v);
    }
  }

  /** A sequence already in key order is left as it is. */
  lemma {:induction false} SortBySortedIsIdentity<T>(s: seq<T>, key: T -> real)
    requires Sorted(s, key)
    ensures SortBy(s, key) == s
  {
    if s != [] {
      assert Sorted(s[1..], key) by {
        forall i, j | 0 <= i < j < |s[1..]| ensures key(s[1..][i]) <= key(s[1..][j]) {
          assert s[1..][i] == s[i + 1] && s[1..][j] == s[j + 1];
        }
      }
      SortBySortedIsIdentity(s[1..], key);
      assert s == [s[0]] + s[1..];
    }
  }
}
