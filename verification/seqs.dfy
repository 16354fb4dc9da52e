/** Sequence helpers standing for the JavaScript array idioms the application uses. */
module Seqs {

  /** No element occurs twice. */
  predicate NoDup<T(==,!new)>(s: seq<T>) {
    forall i, j :: 0 <= i < j < |s| ==> s[i] != s[j]
  }

  /** `[...new Set(s)]`: the first occurrence of each element, in order. */
  function Dedup<T(==,!new)>(s: seq<T>): (r: seq<T>)
    ensures NoDup(r)
    ensures forall x :: x in r <==> x in s
    ensures |r| <= |s|
  {
    if |s| == 0 then []
    else
      var d := Dedup(s[..|s| - 1]);
      assert forall x :: x in s <==> x in s[..|s| - 1] || x == s[|s| - 1];
      if s[|s| - 1] in d then d else d + [s[|s| - 1]]
  }

  /** Appending elements never changes what was already kept: `Dedup(s)` is a
      prefix of `Dedup(s + t)`. */
  lemma {:induction false} DedupPrefix<T(!new)>(s: seq<T>, t: seq<T>)
    ensures |Dedup(s)| <= |Dedup(s + t)|
    ensures Dedup(s + t)[..|Dedup(s)|] == Dedup(s)
    decreases |t|
  {
    if |t| > 0 {
      var u := s + t[..|t| - 1];
      DedupPrefix(s, t[..|t| - 1]);
      assert (s + t)[..|s + t| - 1] == u;
      var d := Dedup(u);
      assert Dedup(s + t) == d || Dedup(s + t) == d + [t[|t| - 1]];
      assert (d + [t[|t| - 1]])[..|d|] == d;
    } else {
      assert s + t == s;
    }
  }

  /** A sequence without duplicates is its own `Dedup`. */
  lemma {:induction false} DedupOfNoDup<T(!new)>(s: seq<T>)
    requires NoDup(s)
    ensures Dedup(s) == s
  {
    if |s| > 0 {
      var p := s[..|s| - 1];
      assert NoDup(p);
      DedupOfNoDup(p);
      assert s[|s| - 1] !in p;
      assert p + [s[|s| - 1]] == s;
    }
  }

  /** Padding a duplicate-free prefix with further elements and deduplicating
      keeps that prefix in front. */
  lemma DedupKeepsDistinctPrefix<T(!new)>(p: seq<T>, q: seq<T>)
    requires NoDup(p)
    ensures |p| <= |Dedup(p + q)|
    ensures Dedup(p + q)[..|p|] == p
  {
    DedupPrefix(p, q);
    DedupOfNoDup(p);
  }

  /** `s.filter(o => o !== x)`. */
  function Remove<T(==,!new)>(s: seq<T>, x: T): (r: seq<T>)
    ensures forall y :: y in r <==> y in s && y != x
    ensures |r| <= |s|
    ensures NoDup(s) ==> NoDup(r)
    ensures NoDup(s) && x in s ==> |r| == |s| - 1
    ensures x !in s ==> r == s
  {
    if |s| == 0 then []
    else
      var rest := Remove(s[1..], x);
      assert forall y :: y in s <==> y == s[0] || y in s[1..];
      assert NoDup(s) ==> NoDup(s[1..]) && s[0] !in s[1..];
      if s[0] == x then rest else [s[0]] + rest
  }

  /** Removal is computed piecewise: with the one-element cases the contract
      already fixes, this pins `Remove` down as an order-preserving filter. */
  lemma {:induction false} RemoveDistributes<T(!new)>(a: seq<T>, b: seq<T>, x: T)
    ensures Remove(a + b, x) == Remove(a, x) + Remove(b, x)
  {
    if |a| == 0 {
      assert a + b == b;
    } else {
      assert (a + b)[1..] == a[1..] + b;
      RemoveDistributes(a[1..], b, x);
    }
  }

  /** Removing the element that was just appended undoes the append. */
  lemma RemoveAppended<T(!new)>(s: seq<T>, x: T)
    requires x !in s
    ensures Remove(s + [x], x) == s
  {
    if |s| > 0 {
      assert (s + [x])[1..] == s[1..] + [x];
      RemoveAppended(s[1..], x);
    }
  }

  /** `s.filter(y => !excluded.includes(y))`. */
  function Without<T(==,!new)>(s: seq<T>, excluded: seq<T>): (r: seq<T>)
    ensures forall y :: y in r <==> y in s && y !in excluded
    ensures |r| <= |s|
    ensures NoDup(s) ==> NoDup(r)
  {
    if |s| == 0 then []
    else
      var rest := Without(s[1..], excluded);
      assert forall y :: y in s <==> y == s[0] || y in s[1..];
      assert NoDup(s) ==> NoDup(s[1..]) && s[0] !in s[1..];
      if s[0] in excluded then rest else [s[0]] + rest
  }

  /** Filtering is computed piecewise: this, with the one-element cases, pins
      `Without` down as an order-preserving filter. */
  lemma {:induction false} WithoutDistributes<T(!new)>(a: seq<T>, b: seq<T>, excluded: seq<T>)
    ensures Without(a + b, excluded) == Without(a, excluded) + Without(b, excluded)
  {
    if |a| == 0 {
      assert a + b == b;
    } else {
      assert (a + b)[1..] == a[1..] + b;
      WithoutDistributes(a[1..], b, excluded);
    }
  }

  /** `s.slice(0, n)`: the first `n` elements, or all of them when there are fewer. */
  function Take<T>(s: seq<T>, n: nat): (r: seq<T>)
    ensures |r| == if |s| < n then |s| else n
    ensures r == s[..|r|]
  {
    if |s| < n then s else s[..n]
  }
}
