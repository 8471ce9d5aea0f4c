/** Sequence operations standing for the array methods the source calls
    (`filter`, `findIndex`, `find`, `some`, `splice`, `Math.max(0, ...xs)`). */
module Seqs {
  import opened Base

  /** `xs.filter(p)`: the elements satisfying `p`, in their original order. */
  function Filter<T>(s: seq<T>, p: T -> bool): (r: seq<T>)
    ensures |r| <= |s|
    ensures forall x :: x in r ==> x in s && p(x)
    ensures forall i :: 0 <= i < |s| && p(s[i]) ==> s[i] in r
  {
    if s == [] then []
    else (if p(s[0]) then [s[0]] else []) + Filter(s[1..], p)
  }

  /** `r` is a subsequence of `s`: `r` is `s` with some elements dropped. */
  predicate Embeds<T(==)>(r: seq<T>, s: seq<T>)
    decreases |s|
  {
    if r == [] then true
    else if s == [] then false
    else if r[0] == s[0] then Embeds(r[1..], s[1..])
    else Embeds(r, s[1..])
  }

  /** Putting an element in front of `s` keeps `r` a subsequence of it. */
  lemma {:induction false} EmbedsInSkip<T>(r: seq<T>, x: T, s: seq<T>)
    requires Embeds(r, s)
    ensures Embeds(r, [x] + s)
    decreases |s|, 1
  {
    assert ([x] + s)[1..] == s;
    if r != [] && r[0] == x {
      EmbedsTail(r, s);
    }
  }

  /** Dropping the first element of `r` keeps it a subsequence. */
  lemma {:induction false} EmbedsTail<T>(r: seq<T>, s: seq<T>)
    requires r != [] && Embeds(r, s)
    ensures Embeds(r[1..], s)
    decreases |s|, 0
  {
    if r[0] == s[0] {
      EmbedsInSkip(r[1..], s[0], s[1..]);
    } else {
      EmbedsTail(r, s[1..]);
      EmbedsInSkip(r[1..], s[0], s[1..]);
    }
    assert [s[0]] + s[1..] == s;
  }

  /** Every sequence is a subsequence of itself. */
  lemma {:induction false} EmbedsRefl<T>(s: seq<T>)
    ensures Embeds(s, s)
  {
    if s != [] {
      EmbedsRefl(s[1..]);
    }
  }

  /** A subsequence of a subsequence is a subsequence. */
  lemma {:induction false} EmbedsTrans<T>(a: seq<T>, b: seq<T>, c: seq<T>)
    requires Embeds(a, b) && Embeds(b, c)
    ensures Embeds(a, c)
    decreases |c|
  {
    if a != [] && c != [] {
      if b[0] == c[0] {
        if a[0] == b[0] {
          EmbedsTrans(a[1..], b[1..], c[1..]);
        } else {
          EmbedsTrans(a, b[1..], c[1..]);
        }
      } else {
        EmbedsTrans(a, b, c[1..]);
        if a[0] == c[0] { EmbedsTail(a, c[1..]); }
      }
    }
  }

  /** Filtering a sequence with a given first element. */
  lemma FilterCons<T>(x: T, s: seq<T>, p: T -> bool)
    ensures Filter([x] + s, p) == (if p(x) then [x] else []) + Filter(s, p)
  {
    assert ([x] + s)[0] == x && ([x] + s)[1..] == s;
  }

  /** The result of `Filter` keeps the original order. */
  lemma {:induction false} FilterEmbeds<T>(s: seq<T>, p: T -> bool)
    ensures Embeds(Filter(s, p), s)
  {
    if s != [] {
      FilterEmbeds(s[1..], p);
      var rest := Filter(s[1..], p);
      if p(s[0]) {
        assert Filter(s, p) == [s[0]] + rest;
        assert (Filter(s, p))[1..] == rest;
      } else {
        assert Filter(s, p) == rest;
        EmbedsInSkip(rest, s[0], s[1..]);
        assert [s[0]] + s[1..] == s;
      }
    }
  }

  /** `Filter` neither invents nor duplicates: each element occurs as often
      as in the input when it passes, and not at all otherwise. */
  lemma {:induction false} FilterMultiset<T>(s: seq<T>, p: T -> bool, x: T)
    ensures multiset(Filter(s, p))[x] == if p(x) then multiset(s)[x] else 0
  {
    if s != [] {
      FilterMultiset(s[1..], p, x);
      assert s == [s[0]] + s[1..];
      assert multiset(s) == multiset{s[0]} + multiset(s[1..]);
    }
  }

  /** A filter keeps every element exactly when all of them pass. */
  lemma {:induction false} FilterAll<T>(s: seq<T>, p: T -> bool)
    requires forall i :: 0 <= i < |s| ==> p(s[i])
    ensures Filter(s, p) == s
  {
    if s != [] {
      FilterAll(s[1..], p);
      assert [s[0]] + s[1..] == s;
    }
  }

  /** `findIndex`: the first index whose element satisfies `p`, or -1. */
  function FindIndex<T>(s: seq<T>, p: T -> bool): (i: int)
    ensures -1 <= i < |s|
    ensures 0 <= i ==> p(s[i]) && forall j :: 0 <= j < i ==> !p(s[j])
    ensures i == -1 <==> forall j :: 0 <= j < |s| ==> !p(s[j])
  {
    if s == [] then -1
    else if p(s[0]) then 0
    else
      var k := FindIndex(s[1..], p);
      if k == -1 then -1 else k + 1
  }

  /** `findIndex(x => key(x) === k)`: the first index whose key is `k`, or -1. */
  function IndexBy<T>(s: seq<T>, key: T -> int, k: int): (i: int)
    ensures -1 <= i < |s|
    ensures 0 <= i ==> key(s[i]) == k && forall j :: 0 <= j < i ==> key(s[j]) != k
    ensures i == -1 <==> forall j :: 0 <= j < |s| ==> key(s[j]) != k
  {
    FindIndex(s, (x: T) => key(x) == k)
  }

  /** No two elements share a key. */
  ghost predicate DistinctBy<T>(s: seq<T>, key: T -> int) {
    forall i, j :: 0 <= i < j < |s| ==> key(s[i]) != key(s[j])
  }

  /** `find`: the first element satisfying `p`, if any. */
  function Find<T>(s: seq<T>, p: T -> bool): (r: Option<T>)
    ensures r.Some? <==> exists j :: 0 <= j < |s| && p(s[j])
    ensures r.Some? ==> r.value in s && p(r.value)
    ensures r.Some? ==> exists i :: 0 <= i < |s| && s[i] == r.value && p(s[i])
                          && forall j :: 0 <= j < i ==> !p(s[j])
  {
    var i := FindIndex(s, p);
    if i == -1 then None else Some(s[i])
  }

  /** `some`: whether an element satisfies `p`. */
  predicate Any<T>(s: seq<T>, p: T -> bool) {
    exists j :: 0 <= j < |s| && p(s[j])
  }

  /** `splice(i, 1)`: the sequence without its element at `i`. */
  function RemoveAt<T>(s: seq<T>, i: nat): (r: seq<T>)
    requires i < |s|
    ensures |r| == |s| - 1
    ensures forall j :: 0 <= j < i ==> r[j] == s[j]
    ensures forall j :: i <= j < |r| ==> r[j] == s[j + 1]
  {
    s[..i] + s[i + 1..]
  }

  /** `Math.max(0, ...xs)`: the largest of zero and the elements. */
  function MaxOr0(xs: seq<int>): (m: int)
    ensures 0 <= m
    ensures forall j :: 0 <= j < |xs| ==> xs[j] <= m
    ensures m == 0 || m in xs
  {
    if xs == [] then 0
    else
      var rest := MaxOr0(xs[1..]);
      if xs[0] > rest then xs[0] else rest
  }

  /** `xs.map(f)`: one image per element, position by position. */
  function Map<T, U>(s: seq<T>, f: T -> U): (r: seq<U>)
    ensures |r| == |s|
    ensures forall j :: 0 <= j < |s| ==> r[j] == f(s[j])
  {
    if s == [] then [] else [f(s[0])] + Map(s[1..], f)
  }
}
