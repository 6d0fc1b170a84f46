/** Array.prototype.filter, a stable Array.prototype.sort by a numeric key, and slice(-n). */
module Seqs {

  function Filter<T>(s: seq<T>, p: T -> bool): (r: seq<T>)
    ensures |r| <= |s|
    ensures multiset(r) <= multiset(s)
    decreases |s|
  {
    if s == [] then []
    else
      assert s == [s[0]] + s[1..];
      (if p(s[0]) then [s[0]] else []) + Filter(s[1..], p)
  }

  /** Filter keeps exactly the elements that satisfy p. */
  lemma {:induction false} FilterMembers<T>(s: seq<T>, p: T -> bool, x: T)
    ensures x in Filter(s, p) <==> x in s && p(x)
    decreases |s|
  {
    if s != [] {
      FilterMembers(s[1..], p, x);
      assert s == [s[0]] + s[1..];
    }
  }

  /** Sequences with the same multiset have the same members. */
  lemma SameMembers<T>(a: seq<T>, b: seq<T>)
    requires multiset(a) == multiset(b)
    ensures forall x :: x in a <==> x in b
  {
    forall x ensures x in a <==> x in b {
      assert x in a <==> x in multiset(a);
      assert x in b <==> x in multiset(b);
    }
  }

  /** Filtering a sequence with a given first element. */
  lemma FilterCons<T>(x: T, s: seq<T>, p: T -> bool)
    ensures Filter([x] + s, p) == (if p(x) then [x] else []) + Filter(s, p)
  {
    assert ([x] + s)[1..] == s;
  }

  lemma {:induction false} FilterAppend<T>(a: seq<T>, b: seq<T>, p: T -> bool)
    ensures Filter(a + b, p) == Filter(a, p) + Filter(b, p)
    decreases |a|, 1
  {
    if a != [] {
      FilterAppendCons(a, b, p);
    } else {
      assert a + b == b;
    }
  }

  lemma {:induction false} FilterAppendCons<T>(a: seq<T>, b: seq<T>, p: T -> bool)
    requires a != []
    ensures Filter(a + b, p) == Filter(a, p) + Filter(b, p)
    decreases |a|, 0
  {
    var x, t := a[0], a[1..];
    assert a == [x] + t;
    assert a + b == [x] + (t + b);
    FilterCons(x, t + b, p);
    FilterCons(x, t, p);
    FilterAppend(t, b, p);
    var h := if p(x) then [x] else [];
    assert h + (Filter(t, p) + Filter(b, p)) == (h + Filter(t, p)) + Filter(b, p);
  }

  ghost predicate SortedBy<T>(s: seq<T>, key: T -> int) {
    forall i, j :: 0 <= i < j < |s| ==> key(s[i]) <= key(s[j])
  }

  /** Puts x before the first element whose key is not smaller than x's. */
  function InsertBy<T>(x: T, s: seq<T>, key: T -> int): (r: seq<T>)
    ensures multiset(r) == multiset(s) + multiset{x}
    ensures |r| == |s| + 1
    decreases |s|
  {
    if s == [] || key(x) <= key(s[0]) then [x] + s
    else
      assert s == [s[0]] + s[1..];
      [s[0]] + InsertBy(x, s[1..], key)
  }

  /** Every key in s is at least b. */
  ghost predicate KeysFrom<T>(s: seq<T>, key: T -> int, b: int) {
    forall i :: 0 <= i < |s| ==> b <= key(s[i])
  }

  /** Inserting an element whose key is at least b keeps every key at least b. */
  lemma {:induction false} InsertByKeysFrom<T>(x: T, s: seq<T>, key: T -> int, b: int)
    requires KeysFrom(s, key, b) && b <= key(x)
    ensures KeysFrom(InsertBy(x, s, key), key, b)
    decreases |s|
  {
    if s != [] && key(x) > key(s[0]) {
      InsertByKeysFrom(x, s[1..], key, b);
      var r := InsertBy(x, s[1..], key);
      assert forall i :: 1 <= i < |r| + 1 ==> ([s[0]] + r)[i] == r[i - 1];
    }
  }

  lemma {:induction false} InsertBySorted<T>(x: T, s: seq<T>, key: T -> int)
    requires SortedBy(s, key)
    ensures SortedBy(InsertBy(x, s, key), key)
    decreases |s|
  {
    if s != [] && key(x) > key(s[0]) {
      var tail := s[1..];
      assert SortedBy(tail, key) by {
        forall i, j | 0 <= i < j < |tail| ensures key(tail[i]) <= key(tail[j]) {
          assert tail[i] == s[i + 1] && tail[j] == s[j + 1];
        }
      }
      InsertBySorted(x, tail, key);
      assert KeysFrom(tail, key, key(s[0])) by {
        forall i | 0 <= i < |tail| ensures key(s[0]) <= key(tail[i]) {
          assert tail[i] == s[i + 1];
        }
      }
      InsertByKeysFrom(x, tail, key, key(s[0]));
      var r := InsertBy(x, tail, key);
      var out := [s[0]] + r;
      assert out == InsertBy(x, s, key);
      forall i, j | 0 <= i < j < |out| ensures key(out[i]) <= key(out[j]) {
        assert out[j] == r[j - 1];
        if i > 0 {
          assert out[i] == r[i - 1];
        }
      }
    }
  }

  /** Insertion sort; like Array.prototype.sort with comparator `key(a) - key(b)` it is stable. */
  function SortBy<T>(s: seq<T>, key: T -> int): (r: seq<T>)
    ensures SortedBy(r, key)
    ensures multiset(r) == multiset(s)
    ensures |r| == |s|
    decreases |s|
  {
    if s == [] then []
    else
      var rest := SortBy(s[1..], key);
      InsertBySorted(s[0], rest, key);
      assert s == [s[0]] + s[1..];
      InsertBy(s[0], rest, key)
  }

  /** The elements of s whose key is t, in their order in s. */
  function WithKey<T>(s: seq<T>, key: T -> int, t: int): (r: seq<T>)
    ensures |r| <= |s|
    decreases |s|
  {
    if s == [] then [] else (if key(s[0]) == t then [s[0]] else []) + WithKey(s[1..], key, t)
  }

  lemma WithKeyCons<T>(x: T, s: seq<T>, key: T -> int, t: int)
    ensures WithKey([x] + s, key, t) == (if key(x) == t then [x] else []) + WithKey(s, key, t)
  {
    assert ([x] + s)[1..] == s;
  }

  /** Inserting x keeps the order among elements of any one key, x in front of its equals. */
  lemma {:induction false} InsertByStable<T>(x: T, s: seq<T>, key: T -> int, t: int)
    ensures WithKey(InsertBy(x, s, key), key, t) == WithKey([x] + s, key, t)
    decreases |s|
  {
    if s != [] && key(x) > key(s[0]) {
      var tail := s[1..];
      InsertByStable(x, tail, key, t);
      var r := InsertBy(x, tail, key);
      assert InsertBy(x, s, key) == [s[0]] + r;
      WithKeyCons(s[0], r, key, t);
      WithKeyCons(x, tail, key, t);
      assert [s[0]] + tail == s;
      WithKeyCons(s[0], tail, key, t);
      WithKeyCons(x, s, key, t);
      var w := WithKey(tail, key, t);
      if key(x) == t {
        assert WithKey([s[0]] + r, key, t) == [x] + w;
      } else if key(s[0]) == t {
        assert WithKey([s[0]] + r, key, t) == [s[0]] + w;
      } else {
        assert WithKey([s[0]] + r, key, t) == w;
      }
    }
  }

  /** SortBy is stable: the elements of each key keep the order they had in the input. */
  lemma {:induction false} SortByStable<T>(s: seq<T>, key: T -> int, t: int)
    ensures WithKey(SortBy(s, key), key, t) == WithKey(s, key, t)
    decreases |s|
  {
    if s != [] {
      var rest := SortBy(s[1..], key);
      InsertByStable(s[0], rest, key, t);
      SortByStable(s[1..], key, t);
      WithKeyCons(s[0], rest, key, t);
      WithKeyCons(s[0], s[1..], key, t);
      assert [s[0]] + s[1..] == s;
    }
  }

  /** `s.slice(-n)` when s is longer than n, s itself otherwise. */
  function LastN<T>(s: seq<T>, n: nat): (r: seq<T>)
    ensures |r| == if |s| <= n then |s| else n
    ensures r == s[|s| - |r|..]
  {
    if |s| <= n then s else s[|s| - n..]
  }

  /** Trimming after every append keeps exactly the n most recent elements of everything appended. */
  lemma {:induction false} LastNAppend<T>(h: seq<T>, x: T, n: nat)
    ensures LastN(LastN(h, n) + [x], n) == LastN(h + [x], n)
  {
    var l := LastN(h, n);
    var a := LastN(l + [x], n);
    var b := LastN(h + [x], n);
    assert |a| == |b|;
    forall i | 0 <= i < |a| ensures a[i] == b[i] {
      assert a[i] == (l + [x])[|l| + 1 - |a| + i];
      assert b[i] == (h + [x])[|h| + 1 - |b| + i];
    }
  }
}
