/**
 * What `list.sort((a, b) => key(b) - key(a)).slice(0, limit)` does.
 *
 * `Array.prototype.sort` is stable, so the comparator above yields the list
 * ordered by non-increasing key with ties kept in input order. `SortDesc` is a
 * stable insertion sort with exactly that result; `SortDescSpec` proves it
 * sorted, a permutation, and stable; `SortDescUnique` shows those three
 * properties pin the output down.
 */
module Ranking {

  /** `r` keeps some of the elements of `s`, in their order in `s`. */
  predicate IsSubsequence<T(==)>(r: seq<T>, s: seq<T>) {
    if r == [] then true
    else if s == [] then false
    else (r[0] == s[0] && IsSubsequence(r[1..], s[1..])) || IsSubsequence(r, s[1..])
  }

  /** A subsequence of the tail is a subsequence of the whole. */
  lemma SubsequenceSkip<T>(r: seq<T>, s: seq<T>)
    requires s != [] && IsSubsequence(r, s[1..])
    ensures IsSubsequence(r, s)
  {}

  lemma {:induction false} SubsequenceMembers<T>(r: seq<T>, s: seq<T>)
    requires IsSubsequence(r, s)
    ensures forall x :: x in r ==> x in s
    decreases |s|
  {
    if r != [] && s != [] {
      if r[0] == s[0] && IsSubsequence(r[1..], s[1..]) {
        SubsequenceMembers(r[1..], s[1..]);
        assert r == [r[0]] + r[1..];
      } else {
        SubsequenceMembers(r, s[1..]);
      }
      assert s == [s[0]] + s[1..];
    }
  }

  /** `s.filter(keep)`: the elements `keep` accepts, in their order in `s`. */
  function Filter<T(==,!new)>(s: seq<T>, keep: T -> bool): (r: seq<T>)
    ensures |r| <= |s| && IsSubsequence(r, s)
    ensures forall x :: x in r <==> x in s && keep(x)
  {
    if s == [] then []
    else
      var rest := Filter(s[1..], keep);
      assert s == [s[0]] + s[1..];
      if keep(s[0]) then
        assert ([s[0]] + rest)[1..] == rest;
        [s[0]] + rest
      else
        rest
  }

  /** Filtering one more element appends it exactly when it is accepted. */
  lemma {:induction false} FilterSnoc<T(!new)>(s: seq<T>, x: T, keep: T -> bool)
    ensures Filter(s + [x], keep) == Filter(s, keep) + (if keep(x) then [x] else [])
  {
    if s == [] {
      assert ([x])[1..] == [];
    } else {
      assert (s + [x])[0] == s[0];
      assert (s + [x])[1..] == s[1..] + [x];
      FilterSnoc(s[1..], x, keep);
    }
  }

  predicate SortedDesc<T>(s: seq<T>, key: T -> int) {
    forall i, j :: 0 <= i < j < |s| ==> key(s[i]) >= key(s[j])
  }

  /** The elements of `s` whose key is `k`, in their order in `s`. */
  function WithKey<T>(s: seq<T>, key: T -> int, k: int): seq<T> {
    if s == [] then [] else (if key(s[0]) == k then [s[0]] else []) + WithKey(s[1..], key, k)
  }

  /** Puts `x` in front of the first element whose key is not larger than its own. */
  function Insert<T>(x: T, s: seq<T>, key: T -> int): (r: seq<T>)
    ensures |r| == |s| + 1
  {
    if s == [] || key(x) >= key(s[0]) then [x] + s else [s[0]] + Insert(x, s[1..], key)
  }

  /** The stable sort by non-increasing key: a sorted permutation of its input. */
  function SortDesc<T>(s: seq<T>, key: T -> int): (r: seq<T>)
    ensures |r| == |s|
    ensures multiset(r) == multiset(s)
    ensures SortedDesc(r, key)
  {
    if s == [] then []
    else
      assert s == [s[0]] + s[1..];
      InsertElements(s[0], SortDesc(s[1..], key), key);
      InsertSorted(s[0], SortDesc(s[1..], key), key);
      Insert(s[0], SortDesc(s[1..], key), key)
  }

  /** `list.slice(0, n)` for `n >= 0`. */
  function Take<T>(s: seq<T>, n: nat): (r: seq<T>)
    ensures |r| == if n <= |s| then n else |s|
    ensures r == s[..|r|]
  {
    if n <= |s| then s[..n] else s
  }

  /** Inserting adds exactly the new element. */
  lemma {:induction false} InsertElements<T>(x: T, s: seq<T>, key: T -> int)
    ensures multiset(Insert(x, s, key)) == multiset([x] + s)
  {
    if s != [] && key(x) < key(s[0]) {
      InsertElements(x, s[1..], key);
      assert s == [s[0]] + s[1..];
    }
  }

  lemma {:induction false} InsertSorted<T>(x: T, s: seq<T>, key: T -> int)
    requires SortedDesc(s, key)
    ensures SortedDesc(Insert(x, s, key), key)
  {
    if s != [] && key(x) < key(s[0]) {
      var rest := Insert(x, s[1..], key);
      InsertSorted(x, s[1..], key);
      InsertElements(x, s[1..], key);
      forall i | 0 <= i < |rest| ensures key(s[0]) >= key(rest[i]) {
        assert rest[i] in multiset([x] + s[1..]);
        assert rest[i] == x || rest[i] in s[1..];
      }
    }
  }

  lemma WithKeyCons<T>(x: T, s: seq<T>, key: T -> int, k: int)
    ensures WithKey([x] + s, key, k) == (if key(x) == k then [x] else []) + WithKey(s, key, k)
  {
    assert ([x] + s)[1..] == s;
  }

  lemma {:induction false} InsertStable<T>(x: T, s: seq<T>, key: T -> int, k: int)
    ensures WithKey(Insert(x, s, key), key, k) == (if key(x) == k then [x] else []) + WithKey(s, key, k)
  {
    if s == [] || key(x) >= key(s[0]) {
      WithKeyCons(x, s, key, k);
    } else {
      var rest := Insert(x, s[1..], key);
      InsertStable(x, s[1..], key, k);
      WithKeyCons(s[0], rest, key, k);
      WithKeyCons(s[0], s[1..], key, k);
      assert s == [s[0]] + s[1..];
      var w := WithKey(s[1..], key, k);
      if key(x) == k {
        assert key(s[0]) != k;
        assert WithKey(Insert(x, s, key), key, k) == [x] + w;
      } else {
        assert WithKey(Insert(x, s, key), key, k) == (if key(s[0]) == k then [s[0]] else []) + w;
      }
    }
  }

  lemma {:induction false} SortDescSpec<T>(s: seq<T>, key: T -> int)
    ensures |SortDesc(s, key)| == |s|
    ensures SortedDesc(SortDesc(s, key), key)
    ensures multiset(SortDesc(s, key)) == multiset(s)
    ensures forall k :: WithKey(SortDesc(s, key), key, k) == WithKey(s, key, k)
  {
    if s != [] {
      SortDescSpec(s[1..], key);
      forall k ensures WithKey(SortDesc(s, key), key, k) == WithKey(s, key, k) {
        InsertStable(s[0], SortDesc(s[1..], key), key, k);
      }
      assert s == [s[0]] + s[1..];
    }
  }

  /** A sequence is rebuilt from its key classes: two sequences that are sorted
   *  by key and agree on every key class are equal. */
  lemma {:induction false} SortDescUnique<T>(r: seq<T>, t: seq<T>, key: T -> int)
    requires SortedDesc(r, key) && SortedDesc(t, key)
    requires forall k :: WithKey(r, key, k) == WithKey(t, key, k)
    ensures r == t
    decreases |r| + |t|
  {
    if r == [] && t == [] {
    } else if r == [] || t == [] {
      var u := if r == [] then t else r;
      HeadClass(u, key);
      assert false;
    } else {
      var kr, kt := key(r[0]), key(t[0]);
      HeadClass(r, key);
      HeadClass(t, key);
      if kr > kt {
        WithKeyAbsent(t, key, kr);
        assert false;
      } else if kt > kr {
        WithKeyAbsent(r, key, kt);
        assert false;
      } else {
        assert r[0] == t[0];
        TailClasses(r, t, key);
        SortDescUnique(r[1..], t[1..], key);
        assert r == [r[0]] + r[1..] && t == [t[0]] + t[1..];
      }
    }
  }

  /** Two sequences with the same first element and the same key classes have tails with the same key classes. */
  lemma TailClasses<T>(r: seq<T>, t: seq<T>, key: T -> int)
    requires r != [] && t != [] && r[0] == t[0]
    requires forall k :: WithKey(r, key, k) == WithKey(t, key, k)
    ensures forall k :: WithKey(r[1..], key, k) == WithKey(t[1..], key, k)
  {
    forall k ensures WithKey(r[1..], key, k) == WithKey(t[1..], key, k) {
      var p := if key(r[0]) == k then [r[0]] else [];
      var wr, wt := WithKey(r[1..], key, k), WithKey(t[1..], key, k);
      assert WithKey(r, key, k) == p + wr;
      assert WithKey(t, key, k) == p + wt;
      assert wr == (p + wr)[|p|..];
      assert wt == (p + wt)[|p|..];
    }
  }

  lemma HeadClass<T>(s: seq<T>, key: T -> int)
    requires s != []
    ensures WithKey(s, key, key(s[0])) != [] && WithKey(s, key, key(s[0]))[0] == s[0]
  {}

  /** In a sorted sequence no element has a key above the first one's. */
  lemma {:induction false} WithKeyAbsent<T>(s: seq<T>, key: T -> int, k: int)
    requires SortedDesc(s, key) && s != [] && k > key(s[0])
    ensures WithKey(s, key, k) == []
  {
    if s[1..] != [] {
      assert key(s[1..][0]) <= key(s[0]);
      WithKeyAbsent(s[1..], key, k);
    }
  }

  /** Every element of a prefix of the sorted list scores at least as much as any element left out. */
  lemma TakeKeepsBest<T>(s: seq<T>, n: nat, key: T -> int)
    requires SortedDesc(s, key)
    ensures SortedDesc(Take(s, n), key)
    ensures forall i, j :: 0 <= i < |Take(s, n)| <= j < |s| ==> key(s[i]) >= key(s[j])
  {}

  /** Of each key class, the first `m` elements keep a prefix of it. */
  lemma {:induction false} WithKeyPrefix<T>(s: seq<T>, m: nat, key: T -> int, k: int)
    requires m <= |s|
    ensures WithKey(s[..m], key, k) <= WithKey(s, key, k)
    decreases m
  {
    if m > 0 {
      WithKeyPrefix(s[1..], m - 1, key, k);
      assert s[..m] == [s[0]] + s[1..][..m - 1];
      WithKeyCons(s[0], s[1..][..m - 1], key, k);
      assert s == [s[0]] + s[1..];
      WithKeyCons(s[0], s[1..], key, k);
    }
  }

  /** Of the elements with equal keys, the top `n` of the sort keeps the first ones of `s`, in their order in `s`. */
  lemma TopKeepsFirstOfKey<T>(s: seq<T>, n: nat, key: T -> int)
    ensures forall k :: WithKey(Take(SortDesc(s, key), n), key, k) <= WithKey(s, key, k)
  {
    var sorted := SortDesc(s, key);
    SortDescSpec(s, key);
    forall k ensures WithKey(Take(sorted, n), key, k) <= WithKey(s, key, k) {
      WithKeyPrefix(sorted, |Take(sorted, n)|, key, k);
    }
  }

  /**
   * The top `n` of `s` by key: elements of `s`, none of those left out has a
   * larger key than one kept, and with `n >= |s|` all of `s`.
   */
  lemma {:induction false} TopByKey<T>(s: seq<T>, n: nat, key: T -> int)
    ensures forall x :: x in Take(SortDesc(s, key), n) ==> x in s
    ensures forall c, x :: c in s && c !in Take(SortDesc(s, key), n) && x in Take(SortDesc(s, key), n) ==> key(c) <= key(x)
    ensures n >= |s| ==> multiset(Take(SortDesc(s, key), n)) == multiset(s)
  {
    var sorted := SortDesc(s, key);
    var r := Take(sorted, n);
    SortDescSpec(s, key);
    forall x | x in r ensures x in s {
      assert x in multiset(sorted);
    }
    forall c, x | c in s && c !in r && x in r ensures key(c) <= key(x) {
      assert c in multiset(sorted);
      var j :| 0 <= j < |sorted| && sorted[j] == c;
      var i :| 0 <= i < |r| && r[i] == x;
      assert sorted[i] == x;
      assert j >= |r|;
    }
    if n >= |s| {
      assert r == sorted[..|sorted|] == sorted;
    }
  }
}
