/** Option and the sequence combinators the storefront's array code is built from
    (`filter`, `find`, `slice(0, n)`), with the facts about them the other modules use. */
module Seqs {

  datatype Option<+T> = None | Some(value: T)

  /** `Array.prototype.filter`: the elements of `s` that satisfy `f`, in order. */
  function Filter<T>(f: T -> bool, s: seq<T>): (r: seq<T>)
    ensures |r| <= |s|
    ensures forall i :: 0 <= i < |r| ==> f(r[i])
    ensures forall i :: 0 <= i < |r| ==> r[i] in s
    ensures forall i :: 0 <= i < |s| && f(s[i]) ==> s[i] in r
  {
    if s == [] then []
    else (if f(s[0]) then [s[0]] else []) + Filter(f, s[1..])
  }

  /** `Array.prototype.find` by index: the first position whose element satisfies `f`. */
  function FindIndex<T>(f: T -> bool, s: seq<T>): (r: Option<nat>)
    ensures r.Some? ==> r.value < |s| && f(s[r.value])
    ensures r.Some? ==> forall j :: 0 <= j < r.value ==> !f(s[j])
    ensures r.None? <==> forall j :: 0 <= j < |s| ==> !f(s[j])
  {
    if s == [] then None
    else if f(s[0]) then Some(0)
    else match FindIndex(f, s[1..])
      case None => None
      case Some(k) => Some(k + 1)
  }

  /** `Array.prototype.find`: the first element satisfying `f`, if any. */
  function Find<T>(f: T -> bool, s: seq<T>): (r: Option<T>)
    ensures r.Some? ==> f(r.value) && r.value in s
    ensures r.Some? ==> exists k :: 0 <= k < |s| && s[k] == r.value && forall j :: 0 <= j < k ==> !f(s[j])
    ensures r.None? <==> forall j :: 0 <= j < |s| ==> !f(s[j])
  {
    match FindIndex(f, s)
    case None => None
    case Some(k) => Some(s[k])
  }

  /** `s.slice(0, n)` for a non-negative `n`. */
  function Take<T>(s: seq<T>, n: nat): (r: seq<T>)
    ensures |r| == if n < |s| then n else |s|
    ensures r <= s
  {
    if n < |s| then s[..n] else s
  }

  /** The number of occurrences of `x` in `s`. */
  function Count<T(==)>(s: seq<T>, x: T): nat
  {
    multiset(s)[x]
  }

  predicate NoDuplicates<T(==)>(s: seq<T>)
  {
    forall i, j :: 0 <= i < j < |s| ==> s[i] != s[j]
  }

  lemma {:induction false} FilterAppend<T>(f: T -> bool, a: seq<T>, b: seq<T>)
    ensures Filter(f, a + b) == Filter(f, a) + Filter(f, b)
  {
    if a == [] {
      assert a + b == b;
    } else {
      assert (a + b)[1..] == a[1..] + b;
      FilterAppend(f, a[1..], b);
    }
  }

  /** Filtering by a predicate every element meets keeps the whole sequence. */
  lemma {:induction false} FilterKeepsAll<T>(f: T -> bool, s: seq<T>)
    requires forall i :: 0 <= i < |s| ==> f(s[i])
    ensures Filter(f, s) == s
  {
    if s != [] {
      FilterKeepsAll(f, s[1..]);
    }
  }

  /** Filtering by a predicate no element meets leaves nothing. */
  lemma {:induction false} FilterDropsAll<T>(f: T -> bool, s: seq<T>)
    requires forall i :: 0 <= i < |s| ==> !f(s[i])
    ensures Filter(f, s) == []
  {
    if s != [] {
      FilterDropsAll(f, s[1..]);
    }
  }

  /** Two predicates that agree on every element of `s` filter it alike. */
  lemma {:induction false} FilterExtensional<T>(f: T -> bool, g: T -> bool, s: seq<T>)
    requires forall i :: 0 <= i < |s| ==> f(s[i]) == g(s[i])
    ensures Filter(f, s) == Filter(g, s)
  {
    if s != [] {
      FilterExtensional(f, g, s[1..]);
    }
  }

  /** Filtering twice is filtering once by the conjunction. */
  lemma {:induction false} FilterFilter<T>(f: T -> bool, g: T -> bool, h: T -> bool, s: seq<T>)
    requires forall x :: h(x) == (f(x) && g(x))
    ensures Filter(g, Filter(f, s)) == Filter(h, s)
  {
    if s != [] {
      FilterFilter(f, g, h, s[1..]);
      var head := if f(s[0]) then [s[0]] else [];
      assert Filter(f, s) == head + Filter(f, s[1..]);
      FilterAppend(g, head, Filter(f, s[1..]));
    }
  }

  /** A filter of a duplicate-free sequence is duplicate-free. */
  lemma {:induction false} FilterNoDuplicates<T>(f: T -> bool, s: seq<T>)
    requires NoDuplicates(s)
    ensures NoDuplicates(Filter(f, s))
  {
    if s != [] {
      FilterNoDuplicates(f, s[1..]);
      assert forall k :: 0 <= k < |s[1..]| ==> s[1..][k] != s[0];
    }
  }

  /** No two elements of `s` share a key. */
  ghost predicate DistinctKeys<T, K>(key: T -> K, s: seq<T>)
  {
    forall i, j :: 0 <= i < j < |s| ==> key(s[i]) != key(s[j])
  }

  lemma DistinctKeysTail<T, K>(key: T -> K, s: seq<T>)
    requires DistinctKeys(key, s) && s != []
    ensures DistinctKeys(key, s[1..])
    ensures forall i :: 0 <= i < |s[1..]| ==> key(s[1..][i]) != key(s[0])
  {
    var tail := s[1..];
    forall i, j | 0 <= i < j < |tail| ensures key(tail[i]) != key(tail[j]) {
      assert tail[i] == s[i + 1] && tail[j] == s[j + 1];
    }
    forall i | 0 <= i < |tail| ensures key(tail[i]) != key(s[0]) {
      assert tail[i] == s[i + 1];
    }
  }

  lemma DistinctKeysCons<T, K>(key: T -> K, x: T, rest: seq<T>)
    requires DistinctKeys(key, rest)
    requires forall i :: 0 <= i < |rest| ==> key(rest[i]) != key(x)
    ensures DistinctKeys(key, [x] + rest)
  {
    var s := [x] + rest;
    forall i, j | 0 <= i < j < |s| ensures key(s[i]) != key(s[j]) {
      assert s[j] == rest[j - 1];
      if i > 0 {
        assert s[i] == rest[i - 1];
      }
    }
  }

  /** A filter of a sequence with distinct keys has distinct keys. */
  lemma {:induction false} FilterDistinctKeys<T, K>(f: T -> bool, key: T -> K, s: seq<T>)
    requires DistinctKeys(key, s)
    ensures DistinctKeys(key, Filter(f, s))
  {
    if s != [] {
      var tail := s[1..];
      DistinctKeysTail(key, s);
      FilterDistinctKeys(f, key, tail);
      var rest := Filter(f, tail);
      if f(s[0]) {
        forall i | 0 <= i < |rest| ensures key(rest[i]) != key(s[0]) {
          var j :| 0 <= j < |tail| && tail[j] == rest[i];
        }
        DistinctKeysCons(key, s[0], rest);
        assert Filter(f, s) == [s[0]] + rest;
      } else {
        assert Filter(f, s) == rest;
      }
    }
  }

  lemma CountAppend<T>(a: seq<T>, b: seq<T>, x: T)
    ensures Count(a + b, x) == Count(a, x) + Count(b, x)
  {
    assert multiset(a + b) == multiset(a) + multiset(b);
  }
}
