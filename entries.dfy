/** A JavaScript `Map` whose values carry their own key, as the sequence of its entries in insertion
    order: `set` on a new key appends, `set` on a present key replaces the value in place, `delete`
    drops the entry, and `values()` / `entries()` walk the sequence front to back. */
module Entries {
  import opened Types

  function SetOf(ks: seq<string>): set<string> {
    set k | k in ks
  }

  /** No two entries share a key. */
  ghost predicate DistinctKeys<T>(s: seq<T>, key: T -> string) {
    forall i, j :: 0 <= i < j < |s| ==> key(s[i]) != key(s[j])
  }

  /** `keys()` in order. */
  function Keys<T>(s: seq<T>, key: T -> string): (r: seq<string>)
    ensures |r| == |s|
    ensures forall i :: 0 <= i < |s| ==> r[i] == key(s[i])
  {
    seq(|s|, i requires 0 <= i < |s| => key(s[i]))
  }

  /** `get(k)`: the value stored under k, or None (undefined). */
  function Lookup<T>(s: seq<T>, key: T -> string, k: string): (r: Option<T>)
    ensures r.Some? <==> k in Keys(s, key)
    ensures r.Some? ==> r.value in s && key(r.value) == k
    decreases |s|
  {
    if s == [] then None
    else if key(s[0]) == k then Some(s[0])
    else
      var r := Lookup(s[1..], key, k);
      assert Keys(s, key) == [key(s[0])] + Keys(s[1..], key);
      r
  }

  /** `set(key(x), x)`. */
  function Put<T>(s: seq<T>, key: T -> string, x: T): (r: seq<T>)
    decreases |s|
  {
    if s == [] then [x]
    else if key(s[0]) == key(x) then [x] + s[1..]
    else [s[0]] + Put(s[1..], key, x)
  }

  /** `delete(k)`. */
  function Remove<T>(s: seq<T>, key: T -> string, k: string): (r: seq<T>)
    decreases |s|
  {
    if s == [] then []
    else if key(s[0]) == k then Remove(s[1..], key, k)
    else [s[0]] + Remove(s[1..], key, k)
  }

  /** The entries whose key is not in ks, in order: the map after deleting every key of ks. */
  function Without<T>(s: seq<T>, key: T -> string, ks: set<string>): (r: seq<T>)
    decreases |s|
  {
    if s == [] then []
    else if key(s[0]) in ks then Without(s[1..], key, ks)
    else [s[0]] + Without(s[1..], key, ks)
  }

  /** The keys of the entries whose owner is u, in order (`entries().filter(...).map(([id]) => id)`). */
  function OwnedKeys<T>(s: seq<T>, key: T -> string, owner: T -> string, u: string): (r: seq<string>)
    decreases |s|
  {
    if s == [] then []
    else (if owner(s[0]) == u then [key(s[0])] else []) + OwnedKeys(s[1..], key, owner, u)
  }

  /** The entries whose owner is not u, in order. */
  function NotOwnedBy<T>(s: seq<T>, owner: T -> string, u: string): (r: seq<T>)
    decreases |s|
  {
    if s == [] then []
    else (if owner(s[0]) != u then [s[0]] else []) + NotOwnedBy(s[1..], owner, u)
  }

  lemma KeysCons<T>(x: T, s: seq<T>, key: T -> string)
    ensures Keys([x] + s, key) == [key(x)] + Keys(s, key)
  {
  }

  /** Setting a key that is not present appends; setting a present key replaces its entry in place. */
  lemma {:induction false} PutShape<T>(s: seq<T>, key: T -> string, x: T)
    ensures key(x) !in Keys(s, key) ==> Put(s, key, x) == s + [x]
    ensures |Put(s, key, x)| == if key(x) in Keys(s, key) then |s| else |s| + 1
    ensures Keys(Put(s, key, x), key) == if key(x) in Keys(s, key) then Keys(s, key) else Keys(s, key) + [key(x)]
    decreases |s|
  {
    if s != [] {
      var t := s[1..];
      assert s == [s[0]] + t;
      KeysCons(s[0], t, key);
      if key(s[0]) != key(x) {
        PutShape(t, key, x);
        KeysCons(s[0], Put(t, key, x), key);
        if key(x) !in Keys(t, key) {
          assert [s[0]] + (t + [x]) == s + [x];
          assert [key(s[0])] + (Keys(t, key) + [key(x)]) == Keys(s, key) + [key(x)];
        }
      } else {
        KeysCons(x, t, key);
      }
    }
  }

  /** Each entry after a `set` has the key of x or the key of the entry at its place before. */
  lemma PutKeysFrom<T>(s: seq<T>, key: T -> string, x: T, j: nat)
    requires j < |Put(s, key, x)|
    ensures key(Put(s, key, x)[j]) == key(x) || (j < |s| && key(Put(s, key, x)[j]) == key(s[j]))
  {
    PutShape(s, key, x);
    var kt := Keys(Put(s, key, x), key);
    assert kt[j] == key(Put(s, key, x)[j]);
    if j < |s| {
      assert Keys(s, key)[j] == key(s[j]);
    }
  }

  /** After `set`, `get` of that key returns the value just set; the other keys are untouched. */
  lemma {:induction false} LookupPut<T>(s: seq<T>, key: T -> string, x: T, k: string)
    requires DistinctKeys(s, key)
    ensures Lookup(Put(s, key, x), key, k) == if k == key(x) then Some(x) else Lookup(s, key, k)
    decreases |s|
  {
    if s != [] && key(s[0]) != key(x) {
      LookupPut(s[1..], key, x, k);
    } else if s != [] && k != key(x) {
      assert Put(s, key, x)[1..] == s[1..];
    }
  }

  /** `set` keeps the keys distinct. */
  lemma {:induction false} PutDistinct<T>(s: seq<T>, key: T -> string, x: T)
    requires DistinctKeys(s, key)
    ensures DistinctKeys(Put(s, key, x), key)
    decreases |s|
  {
    if s != [] {
      var r := Put(s, key, x);
      if key(s[0]) == key(x) {
        forall i, j | 0 <= i < j < |r| ensures key(r[i]) != key(r[j]) {
          assert r[j] == s[j];
          if i > 0 {
            assert r[i] == s[i];
          }
        }
      } else {
        var tail := s[1..];
        assert DistinctKeys(tail, key) by {
          forall i, j | 0 <= i < j < |tail| ensures key(tail[i]) != key(tail[j]) {
            assert tail[i] == s[i + 1] && tail[j] == s[j + 1];
          }
        }
        PutDistinct(tail, key, x);
        var t := Put(tail, key, x);
        assert r == [s[0]] + t;
        forall i, j | 0 <= i < j < |r| ensures key(r[i]) != key(r[j]) {
          assert r[j] == t[j - 1];
          if i > 0 {
            assert r[i] == t[i - 1];
          } else {
            PutKeysFrom(tail, key, x, j - 1);
            if j - 1 < |tail| {
              assert tail[j - 1] == s[j];
            }
          }
        }
      }
    }
  }

  /** What a store relies on after `set(key(x), x)`: the keys stay distinct, a new key is appended,
      and `get` of the key returns x. */
  lemma PutFacts<T>(s: seq<T>, key: T -> string, x: T)
    requires DistinctKeys(s, key)
    ensures DistinctKeys(Put(s, key, x), key)
    ensures key(x) !in Keys(s, key) ==> Put(s, key, x) == s + [x]
    ensures Lookup(Put(s, key, x), key, key(x)) == Some(x)
  {
    PutDistinct(s, key, x);
    PutShape(s, key, x);
    LookupPut(s, key, x, key(x));
  }

  /** After `delete(k)` no entry has key k, and an absent key leaves the map as it was. */
  lemma {:induction false} RemoveShape<T>(s: seq<T>, key: T -> string, k: string)
    ensures k !in Keys(Remove(s, key, k), key)
    ensures k !in Keys(s, key) ==> Remove(s, key, k) == s
    ensures Remove(s, key, k) == Without(s, key, {k})
    decreases |s|
  {
    if s != [] {
      RemoveShape(s[1..], key, k);
      assert Keys(s, key) == [key(s[0])] + Keys(s[1..], key);
      if key(s[0]) != k {
        assert Keys(Remove(s, key, k), key) == [key(s[0])] + Keys(Remove(s[1..], key, k), key);
        assert [s[0]] + s[1..] == s;
      }
    }
  }

  /** Deleting keys keeps a subsequence of the entries, so the keys stay distinct. */
  lemma {:induction false} WithoutDistinct<T>(s: seq<T>, key: T -> string, ks: set<string>)
    requires DistinctKeys(s, key)
    ensures forall j :: 0 <= j < |Without(s, key, ks)| ==> Without(s, key, ks)[j] in s
    ensures DistinctKeys(Without(s, key, ks), key)
    decreases |s|
  {
    if s != [] {
      var t := s[1..];
      WithoutDistinct(t, key, ks);
      var w := Without(t, key, ks);
      forall j | 0 <= j < |w| ensures key(s[0]) != key(w[j]) {
        var m :| 0 <= m < |t| && t[m] == w[j];
        assert s[m + 1] == w[j];
      }
      if key(s[0]) !in ks {
        var r := [s[0]] + w;
        forall i, j | 0 <= i < j < |r| ensures key(r[i]) != key(r[j]) {
          if i == 0 {
            assert r[j] == w[j - 1];
          } else {
            assert r[i] == w[i - 1] && r[j] == w[j - 1];
          }
        }
      }
    }
  }

  /** Deleting no keys leaves every entry. */
  lemma {:induction false} WithoutNothing<T>(s: seq<T>, key: T -> string)
    ensures Without(s, key, {}) == s
    decreases |s|
  {
    if s != [] {
      WithoutNothing(s[1..], key);
      assert [s[0]] + s[1..] == s;
    }
  }

  /** Deleting one more key from a map that has had the keys ks deleted. */
  lemma {:induction false} RemoveWithout<T>(s: seq<T>, key: T -> string, ks: set<string>, k: string)
    ensures Remove(Without(s, key, ks), key, k) == Without(s, key, ks + {k})
    decreases |s|
  {
    if s != [] {
      RemoveWithout(s[1..], key, ks, k);
    }
  }

  /** Deleting every key of ks keeps exactly the entries whose key is outside ks. */
  lemma {:induction false} WithoutMembers<T>(s: seq<T>, key: T -> string, ks: set<string>, owner: T -> string, u: string)
    requires forall i :: 0 <= i < |s| ==> (key(s[i]) in ks <==> owner(s[i]) == u)
    ensures Without(s, key, ks) == NotOwnedBy(s, owner, u)
    decreases |s|
  {
    if s != [] {
      WithoutMembers(s[1..], key, ks, owner, u);
    }
  }

  /** The owned keys are the keys of the owned entries. */
  lemma {:induction false} OwnedKeysMembers<T>(s: seq<T>, key: T -> string, owner: T -> string, u: string, k: string)
    ensures k in OwnedKeys(s, key, owner, u) <==> exists i :: 0 <= i < |s| && owner(s[i]) == u && key(s[i]) == k
    decreases |s|
  {
    if s != [] {
      OwnedKeysMembers(s[1..], key, owner, u, k);
      if k in OwnedKeys(s[1..], key, owner, u) {
        var i :| 0 <= i < |s[1..]| && owner(s[1..][i]) == u && key(s[1..][i]) == k;
        assert owner(s[i + 1]) == u && key(s[i + 1]) == k;
      }
      if exists i :: 0 <= i < |s| && owner(s[i]) == u && key(s[i]) == k {
        var i :| 0 <= i < |s| && owner(s[i]) == u && key(s[i]) == k;
        if i > 0 {
          assert owner(s[1..][i - 1]) == u && key(s[1..][i - 1]) == k;
        }
      }
    }
  }

  /** With distinct keys, deleting the keys a user owns removes that user's entries and only those. */
  lemma WithoutOwnedKeys<T>(s: seq<T>, key: T -> string, owner: T -> string, u: string)
    requires DistinctKeys(s, key)
    ensures Without(s, key, SetOf(OwnedKeys(s, key, owner, u))) == NotOwnedBy(s, owner, u)
  {
    var ks := SetOf(OwnedKeys(s, key, owner, u));
    forall i | 0 <= i < |s| ensures key(s[i]) in ks <==> owner(s[i]) == u {
      OwnedKeysMembers(s, key, owner, u, key(s[i]));
    }
    WithoutMembers(s, key, ks, owner, u);
  }
}
