/** String operations that several components share: the byte order of Go strings,
    cutting at a separator, and trimming. */
module Text {

  // ----- Order -----

  /** `a < b` in the order Go gives to strings of code points. */
  predicate Less(a: string, b: string)
  {
    b != "" && (a == "" || a[0] < b[0] || (a[0] == b[0] && Less(a[1..], b[1..])))
  }

  /** The negation of Go's `a > b`. */
  predicate AtMost(a: string, b: string)
  {
    !Less(b, a)
  }

  /** The two agree before `n`, where `a` ends or has the smaller character. */
  ghost predicate DivergeAt(a: string, b: string, n: nat)
  {
    n <= |a| && n < |b| && a[..n] == b[..n] && (n == |a| || a[n] < b[n])
  }

  ghost predicate Precedes(a: string, b: string)
  {
    exists n: nat :: DivergeAt(a, b, n)
  }

  lemma {:induction false} LessMeaning(a: string, b: string)
    ensures Less(a, b) <==> Precedes(a, b)
  {
    if a == "" || b == "" || a[0] != b[0] {
      assert Less(a, b) ==> DivergeAt(a, b, 0);
    } else {
      LessMeaning(a[1..], b[1..]);
      if n: nat :| DivergeAt(a[1..], b[1..], n) {
        DivergeLater(a, b, n);
      }
      if n: nat :| DivergeAt(a, b, n) {
        DivergeEarlier(a, b, n);
      }
    }
  }

  lemma DivergeLater(a: string, b: string, n: nat)
    requires a != "" && b != "" && a[0] == b[0] && DivergeAt(a[1..], b[1..], n)
    ensures DivergeAt(a, b, n + 1)
  {
    assert a[..n + 1] == [a[0]] + a[1..][..n] && b[..n + 1] == [b[0]] + b[1..][..n];
  }

  lemma DivergeEarlier(a: string, b: string, n: nat)
    requires a != "" && b != "" && a[0] == b[0] && DivergeAt(a, b, n)
    ensures n > 0 && DivergeAt(a[1..], b[1..], n - 1)
  {
    assert a[1..][..n - 1] == a[..n][1..] && b[1..][..n - 1] == b[..n][1..];
  }

  lemma {:induction false} LessTransitive(a: string, b: string, c: string)
    requires Less(a, b) && Less(b, c)
    ensures Less(a, c)
  {
    if a != "" && a[0] == b[0] && b[0] == c[0] {
      LessTransitive(a[1..], b[1..], c[1..]);
    }
  }

  lemma {:induction false} LessTrichotomous(a: string, b: string)
    ensures !(Less(a, b) && Less(b, a))
    ensures a == b <==> !Less(a, b) && !Less(b, a)
  {
    if a != "" && b != "" && a[0] == b[0] {
      LessTrichotomous(a[1..], b[1..]);
      assert a == [a[0]] + a[1..] && b == [b[0]] + b[1..];
    }
  }

  lemma AtMostTransitive(a: string, b: string, c: string)
    requires AtMost(a, b) && AtMost(b, c)
    ensures AtMost(a, c)
  {
    LessTrichotomous(a, b);
    LessTrichotomous(b, c);
    if Less(c, a) {
      if Less(a, b) { LessTransitive(c, a, b); }
    }
  }

  // ----- Cancellation and maximal munch -----

  lemma CancelLeft<T>(a: seq<T>, t: seq<T>, u: seq<T>)
    requires a + t == a + u
    ensures t == u
  {
    assert t == (a + t)[|a|..];
    assert u == (a + u)[|a|..];
  }

  lemma Assoc<T>(a: seq<T>, b: seq<T>, c: seq<T>)
    ensures (a + b) + c == a + (b + c)
  {
  }

  ghost predicate All<T>(s: seq<T>, p: T -> bool)
  {
    forall i :: 0 <= i < |s| ==> p(s[i])
  }

  /** A run of `p` characters that is followed by none is as long as it can be, so it is determined. */
  lemma {:induction false} MaximalMunch<T>(p: T -> bool, a: seq<T>, t: seq<T>, b: seq<T>, u: seq<T>)
    requires All(a, p) && All(b, p)
    requires (t == [] || !p(t[0])) && (u == [] || !p(u[0]))
    requires a + t == b + u
    ensures a == b && t == u
  {
    if a == [] {
      assert a + t == t;
    }
    if b == [] {
      assert b + u == u;
    }
    if a != [] && b != [] {
      assert (a + t)[0] == a[0] && (b + u)[0] == b[0];
      assert a + t == [a[0]] + (a[1..] + t) && b + u == [b[0]] + (b[1..] + u);
      CancelLeft([a[0]], a[1..] + t, b[1..] + u);
      MaximalMunch(p, a[1..], t, b[1..], u);
      assert a == [a[0]] + a[1..] && b == [b[0]] + b[1..];
    }
  }

  // ----- Splitting -----

  ghost predicate Without<T>(s: seq<T>, c: T)
  {
    forall i :: 0 <= i < |s| ==> s[i] != c
  }

  /** The length of the longest prefix of `s` without `c`. */
  function IndexOf<T(==)>(s: seq<T>, c: T): (n: nat)
    ensures n <= |s| && forall i :: 0 <= i < n ==> s[i] != c
    ensures n < |s| ==> s[n] == c
  {
    if s == [] || s[0] == c then 0 else 1 + IndexOf(s[1..], c)
  }

  /** `strings.Split(s, c)`: the pieces of `s` between the separators, at least one. */
  function Split(s: string, c: char): (pieces: seq<string>)
    ensures pieces != []
    decreases |s|
  {
    var n := IndexOf(s, c);
    if n == |s| then [s] else [s[..n]] + Split(s[n + 1..], c)
  }

  lemma IndexOfUnique<T>(s: seq<T>, c: T, n: nat)
    requires n <= |s| && forall i :: 0 <= i < n ==> s[i] != c
    requires n < |s| ==> s[n] == c
    ensures IndexOf(s, c) == n
  {
  }

  lemma SplitLast(s: string, c: char)
    requires IndexOf(s, c) == |s|
    ensures Split(s, c) == [s]
  {
  }

  lemma SplitMore(s: string, c: char, n: nat)
    requires n == IndexOf(s, c) && n < |s|
    ensures Split(s, c) == [s[..n]] + Split(s[n + 1..], c)
  {
  }

  lemma SplitAt(head: string, c: char, rest: string)
    requires Without(head, c)
    ensures Split(head, c) == [head]
    ensures Split(head + ([c] + rest), c) == [head] + Split(rest, c)
  {
    IndexOfUnique(head, c, |head|);
    var s := head + ([c] + rest);
    assert s[..|head|] == head && s[|head| + 1..] == rest;
    IndexOfUnique(s, c, |head|);
  }

  // ----- Trimming -----

  predicate IsBlank(c: char)
  {
    c == ' ' || c == '\t'
  }

  function SkipBlanks(s: string): (r: string)
    ensures r == "" || !IsBlank(r[0])
  {
    if s != "" && IsBlank(s[0]) then SkipBlanks(s[1..]) else s
  }

  function TrimLeft(s: string, space: char -> bool): (r: string)
    ensures r == "" || !space(r[0])
  {
    if s != "" && space(s[0]) then TrimLeft(s[1..], space) else s
  }

  function TrimRight(s: string, space: char -> bool): (r: string)
    ensures r == "" || !space(r[|r| - 1])
  {
    if s != "" && space(s[|s| - 1]) then TrimRight(s[..|s| - 1], space) else s
  }

  function Trim(s: string, space: char -> bool): string
  {
    TrimRight(TrimLeft(s, space), space)
  }

  ghost predicate Spaces(s: string, space: char -> bool)
  {
    forall i :: 0 <= i < |s| ==> space(s[i])
  }

  /** Trimming takes white space off both ends and leaves none there. */
  lemma TrimMeaning(s: string, space: char -> bool) returns (a: string, b: string)
    ensures s == a + Trim(s, space) + b && Spaces(a, space) && Spaces(b, space)
    ensures Trim(s, space) != "" ==> !space(Trim(s, space)[0]) && !space(Trim(s, space)[|Trim(s, space)| - 1])
  {
    a := TrimmedLeft(s, space);
    b := TrimmedRight(TrimLeft(s, space), space);
  }

  lemma {:induction false} TrimmedLeft(s: string, space: char -> bool) returns (a: string)
    ensures s == a + TrimLeft(s, space) && Spaces(a, space)
  {
    a := "";
    if s != "" && space(s[0]) {
      a := TrimmedLeft(s[1..], space);
      a := [s[0]] + a;
    }
  }

  lemma {:induction false} TrimmedRight(s: string, space: char -> bool) returns (b: string)
    ensures s == TrimRight(s, space) + b && Spaces(b, space)
    ensures TrimRight(s, space) != "" ==> TrimRight(s, space)[0] == s[0]
  {
    b := "";
    if s != "" && space(s[|s| - 1]) {
      b := TrimmedRight(s[..|s| - 1], space);
      b := b + [s[|s| - 1]];
    }
  }

  lemma TrimKept(s: string, space: char -> bool)
    requires s != "" && !space(s[0]) && !space(s[|s| - 1])
    ensures Trim(s, space) == s
  {
    assert TrimLeft(s, space) == s;
  }
}
