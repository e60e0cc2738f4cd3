/** Types and sequence operations that several components share. */
module Seqs {

  datatype Option<T> = None | Some(value: T)

  /** The elements of `s` that satisfy `p`, in order. */
  function Filter<T(!new)>(s: seq<T>, p: T -> bool): (r: seq<T>)
    ensures forall x :: x in r <==> x in s && p(x)
  {
    if s == [] then []
    else
      assert s == [s[0]] + s[1..];
      (if p(s[0]) then [s[0]] else []) + Filter(s[1..], p)
  }

  lemma {:induction false} FilterAppend<T(!new)>(a: seq<T>, b: seq<T>, p: T -> bool)
    ensures Filter(a + b, p) == Filter(a, p) + Filter(b, p)
  {
    if a == [] {
      assert a + b == b;
    } else {
      assert (a + b)[1..] == a[1..] + b;
      FilterAppend(a[1..], b, p);
    }
  }

  lemma FilterOne<T(!new)>(x: T, p: T -> bool)
    ensures Filter([x], p) == if p(x) then [x] else []
  {
    assert [x][1..] == [];
    assert Filter([x], p) == (if p(x) then [x] else []) + Filter([], p);
  }

  lemma {:induction false} FilterNone<T(!new)>(s: seq<T>, p: T -> bool)
    requires forall i :: 0 <= i < |s| ==> !p(s[i])
    ensures Filter(s, p) == []
  {
    if s != [] {
      FilterNone(s[1..], p);
    }
  }

  lemma {:induction false} FilterCounts<T(!new)>(s: seq<T>, p: T -> bool, x: T)
    ensures multiset(Filter(s, p))[x] == if p(x) then multiset(s)[x] else 0
  {
    if s != [] {
      assert s == [s[0]] + s[1..];
      FilterCounts(s[1..], p, x);
    }
  }

  /** Two filters after one another keep what passes both. */
  lemma {:induction false} FilterTwice<T(!new)>(s: seq<T>, p: T -> bool, q: T -> bool, both: T -> bool)
    requires forall x :: both(x) == (p(x) && q(x))
    ensures Filter(Filter(s, p), q) == Filter(s, both)
  {
    if s != [] {
      FilterTwice(s[1..], p, q, both);
      var rest := Filter(s[1..], p);
      if p(s[0]) {
        assert Filter(s, p) == [s[0]] + rest && ([s[0]] + rest)[1..] == rest;
      } else {
        assert Filter(s, p) == rest;
      }
    }
  }

  /** No two elements of `s` have the same key. */
  ghost predicate Distinct<T, K>(s: seq<T>, key: T -> K)
  {
    forall i, j :: 0 <= i < j < |s| ==> key(s[i]) != key(s[j])
  }

  lemma {:induction false} FilterDistinct<T(!new), K>(s: seq<T>, p: T -> bool, key: T -> K)
    requires Distinct(s, key)
    ensures Distinct(Filter(s, p), key)
  {
    if s != [] {
      FilterDistinct(s[1..], p, key);
      var rest := Filter(s[1..], p);
      forall i | 0 <= i < |rest|
        ensures key(rest[i]) != key(s[0])
      {
        assert rest[i] in s[1..];
      }
    }
  }

  /** With distinct keys, an element is the only one with its key. */
  lemma {:induction false} FilterStored<T(!new), K>(s: seq<T>, p: T -> bool, key: T -> K, x: T)
    requires Distinct(s, key) && x in s && forall y :: y in s ==> p(y) == (key(y) == key(x))
    ensures Filter(s, p) == [x]
  {
    assert s == [s[0]] + s[1..];
    if s[0] == x {
      forall i | 1 <= i < |s|
        ensures !p(s[i])
      {
        assert s[i] in s && key(s[i]) != key(s[0]);
      }
      FilterNone(s[1..], p);
    } else {
      var i :| 0 <= i < |s| && s[i] == x;
      assert s[1..][i - 1] == x;
      assert key(s[0]) != key(s[i]);
      FilterStored(s[1..], p, key, x);
    }
  }
}
