/** `Array.prototype.sort(cmp)` on a copy of an array. The comparator
    follows the JavaScript convention: a positive result puts the first
    argument after the second. The sort is stable, as the language
    requires; it is written here as an insertion sort. */
module Sorting {
  import opened Seqs

  /** Every two elements are comparable. */
  ghost predicate Total<T(!new)>(cmp: (T, T) -> int) {
    forall a, b :: cmp(a, b) <= 0 || cmp(b, a) <= 0
  }

  /** "Not after" is transitive. */
  ghost predicate Transitive<T(!new)>(cmp: (T, T) -> int) {
    forall a, b, c :: cmp(a, b) <= 0 && cmp(b, c) <= 0 ==> cmp(a, c) <= 0
  }

  /** A comparator that describes a total preorder, so that sorting by it is defined. */
  ghost predicate Consistent<T(!new)>(cmp: (T, T) -> int) {
    Total(cmp) && Transitive(cmp)
  }

  /** No element comes after a later one. */
  ghost predicate SortedBy<T>(s: seq<T>, cmp: (T, T) -> int) {
    forall i, j :: 0 <= i < j < |s| ==> cmp(s[i], s[j]) <= 0
  }

  /** No element comes after its successor. */
  ghost predicate AdjacentSorted<T>(s: seq<T>, cmp: (T, T) -> int) {
    forall i :: 0 < i < |s| ==> cmp(s[i - 1], s[i]) <= 0
  }

  /** Places `x` before the first element it does not come after. */
  function Insert<T>(x: T, s: seq<T>, cmp: (T, T) -> int): (r: seq<T>)
    ensures multiset(r) == multiset{x} + multiset(s)
    ensures |r| == |s| + 1
    ensures r[0] == x || (s != [] && r[0] == s[0])
  {
    if s == [] then [x]
    else if cmp(x, s[0]) <= 0 then [x] + s
    else
      assert s == [s[0]] + s[1..];
      [s[0]] + Insert(x, s[1..], cmp)
  }

  /** The sorted copy. */
  function Sort<T>(s: seq<T>, cmp: (T, T) -> int): (r: seq<T>)
    ensures multiset(r) == multiset(s)
    ensures |r| == |s|
  {
    if s == [] then []
    else
      assert s == [s[0]] + s[1..];
      Insert(s[0], Sort(s[1..], cmp), cmp)
  }

  lemma {:induction false} InsertSorted<T(!new)>(x: T, s: seq<T>, cmp: (T, T) -> int)
    requires Total(cmp) && AdjacentSorted(s, cmp)
    ensures AdjacentSorted(Insert(x, s, cmp), cmp)
  {
    if s != [] && cmp(x, s[0]) > 0 {
      var rest := Insert(x, s[1..], cmp);
      assert AdjacentSorted(s[1..], cmp) by {
        forall i | 0 < i < |s[1..]| ensures cmp(s[1..][i - 1], s[1..][i]) <= 0 {
          assert s[1..][i - 1] == s[i] && s[1..][i] == s[i + 1];
        }
      }
      InsertSorted(x, s[1..], cmp);
      assert cmp(s[0], rest[0]) <= 0;
      var r := [s[0]] + rest;
      forall i | 0 < i < |r| ensures cmp(r[i - 1], r[i]) <= 0 {
        if i > 1 { assert r[i - 1] == rest[i - 2] && r[i] == rest[i - 1]; }
      }
    } else if s != [] {
      var r := [x] + s;
      forall i | 0 < i < |r| ensures cmp(r[i - 1], r[i]) <= 0 {
        if i > 1 { assert r[i - 1] == s[i - 2] && r[i] == s[i - 1]; }
      }
    }
  }

  /** With a transitive comparator, ordered neighbours mean an ordered sequence. */
  lemma {:induction false} AdjacentToSorted<T(!new)>(s: seq<T>, cmp: (T, T) -> int)
    requires Transitive(cmp) && AdjacentSorted(s, cmp)
    ensures SortedBy(s, cmp)
  {
    forall i, j | 0 <= i < j < |s| ensures cmp(s[i], s[j]) <= 0 {
      var k := i + 1;
      while k < j
        invariant i < k <= j
        invariant cmp(s[i], s[k]) <= 0
      {
        assert cmp(s[k], s[k + 1]) <= 0;
        k := k + 1;
      }
    }
  }

  /** Sorting by a consistent comparator yields a sorted permutation. */
  lemma {:induction false} SortSorted<T(!new)>(s: seq<T>, cmp: (T, T) -> int)
    requires Consistent(cmp)
    ensures AdjacentSorted(Sort(s, cmp), cmp)
    ensures SortedBy(Sort(s, cmp), cmp)
    ensures multiset(Sort(s, cmp)) == multiset(s)
  {
    if s != [] {
      SortSorted(s[1..], cmp);
      InsertSorted(s[0], Sort(s[1..], cmp), cmp);
    }
    AdjacentToSorted(Sort(s, cmp), cmp);
  }

  /** The elements that tie with `k`: neither comes after the other. */
  function Tied<T>(cmp: (T, T) -> int, k: T): T -> bool {
    (y: T) => cmp(y, k) <= 0 && cmp(k, y) <= 0
  }

  /** An element that `x` comes after does not tie with anything `x` ties with. */
  lemma TiedPassedOver<T(!new)>(x: T, y: T, cmp: (T, T) -> int, k: T)
    requires Transitive(cmp) && cmp(x, y) > 0 && Tied(cmp, k)(x)
    ensures !Tied(cmp, k)(y)
  {
  }

  /** Inserting `x` passes over only elements that `x` comes after; when
      `x` ties with `k`, none of them does, so the elements tied with `k`
      keep their order with `x` in front. */
  lemma {:induction false} InsertFilter<T(!new)>(x: T, s: seq<T>, cmp: (T, T) -> int, k: T)
    requires Transitive(cmp)
    ensures Filter(Insert(x, s, cmp), Tied(cmp, k)) == Filter([x] + s, Tied(cmp, k))
  {
    var p := Tied(cmp, k);
    if s != [] && cmp(x, s[0]) > 0 {
      var rest := Insert(x, s[1..], cmp);
      assert Insert(x, s, cmp) == [s[0]] + rest;
      InsertFilter(x, s[1..], cmp, k);
      assert s == [s[0]] + s[1..];
      FilterCons(s[0], rest, p);
      FilterCons(x, s[1..], p);
      FilterCons(x, s, p);
      FilterCons(s[0], s[1..], p);
      if p(x) {
        TiedPassedOver(x, s[0], cmp, k);
      }
    }
  }

  /** Sorting is stable: for every `k`, the elements tied with `k` come out
      in the order they went in. */
  lemma {:induction false} SortStable<T(!new)>(s: seq<T>, cmp: (T, T) -> int, k: T)
    requires Consistent(cmp)
    ensures Filter(Sort(s, cmp), Tied(cmp, k)) == Filter(s, Tied(cmp, k))
  {
    if s != [] {
      SortStable(s[1..], cmp, k);
      InsertFilter(s[0], Sort(s[1..], cmp), cmp, k);
      FilterCons(s[0], Sort(s[1..], cmp), Tied(cmp, k));
      FilterCons(s[0], s[1..], Tied(cmp, k));
      assert [s[0]] + s[1..] == s;
    }
  }
}
