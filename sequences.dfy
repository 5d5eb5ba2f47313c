/**
  * Sequence helpers: filtering and Python's stable sort.  `sorted(xs, key=k)`
  * and `xs.sort(key=k)` are modelled by SortBy with a comparator `leq` that is a
  * total preorder ("k(a) <= k(b)"); reverse=True is the comparator "k(a) >= k(b)",
  * which is also how Python orders ties under reverse (original order kept).
  */
module Sequences {

  /** `[x for x in s if p(x)]` */
  function Filter<T>(s: seq<T>, p: T -> bool): (r: seq<T>)
    ensures |r| <= |s|
    ensures forall i :: 0 <= i < |r| ==> r[i] in s && p(r[i])
    ensures forall x :: x in s && p(x) ==> x in r
  {
    if s == [] then [] else (if p(s[0]) then [s[0]] else []) + Filter(s[1..], p)
  }

  lemma {:induction false} FilterConcat<T>(a: seq<T>, b: seq<T>, p: T -> bool)
    ensures Filter(a + b, p) == Filter(a, p) + Filter(b, p)
  {
    if a != [] {
      assert (a + b)[1..] == a[1..] + b;
      FilterConcat(a[1..], b, p);
    } else {
      assert a + b == b;
    }
  }

  lemma {:induction false} FilterNone<T>(s: seq<T>, p: T -> bool)
    requires forall i :: 0 <= i < |s| ==> !p(s[i])
    ensures Filter(s, p) == []
  {
    if s != [] {
      FilterNone(s[1..], p);
    }
  }

  lemma {:induction false} FilterAll<T>(s: seq<T>, p: T -> bool)
    requires forall x :: x in s ==> p(x)
    ensures Filter(s, p) == s
  {
    if s != [] {
      assert forall x :: x in s[1..] ==> x in s;
      FilterAll(s[1..], p);
      assert [s[0]] + s[1..] == s;
    }
  }

  /** f applied to every element, in order. */
  function Map<A, B>(s: seq<A>, f: A -> B): (r: seq<B>)
    ensures |r| == |s| && forall i :: 0 <= i < |s| ==> r[i] == f(s[i])
  {
    seq(|s|, i requires 0 <= i < |s| => f(s[i]))
  }

  lemma MapConcat<A, B>(a: seq<A>, b: seq<A>, f: A -> B)
    ensures Map(a + b, f) == Map(a, f) + Map(b, f)
  {
  }

  /** f applied to the elements that satisfy p, in order: a list built by a loop with a test. */
  function FilterMap<A, B>(s: seq<A>, p: A -> bool, f: A -> B): seq<B> {
    if s == [] then []
    else FilterMap(s[..|s| - 1], p, f) + (if p(s[|s| - 1]) then [f(s[|s| - 1])] else [])
  }

  lemma {:induction false} FilterMapIsMapFilter<A, B>(s: seq<A>, p: A -> bool, f: A -> B)
    ensures FilterMap(s, p, f) == Map(Filter(s, p), f)
  {
    if s != [] {
      var init, last := s[..|s| - 1], s[|s| - 1];
      FilterMapIsMapFilter(init, p, f);
      var a, b := Filter(init, p), Filter([last], p);
      assert Filter(s, p) == a + b by {
        assert s == init + [last];
        FilterConcat(init, [last], p);
      }
      MapConcat(a, b, f);
      assert Map(b, f) == (if p(last) then [f(last)] else []) by {
        if p(last) {
          assert b == [last];
        } else {
          assert b == [];
        }
      }
    }
  }

  /** The loop that builds Map. */
  method MapEach<A, B>(s: seq<A>, f: A -> B) returns (r: seq<B>)
    ensures r == Map(s, f)
  {
    r := [];
    var i := 0;
    while i < |s|
      invariant 0 <= i <= |s|
      invariant |r| == i && forall k :: 0 <= k < i ==> r[k] == f(s[k])
    {
      r := r + [f(s[i])];
      i := i + 1;
    }
  }

  /** The loop that builds FilterMap. */
  method FilterMapEach<A, B>(s: seq<A>, p: A -> bool, f: A -> B) returns (r: seq<B>)
    ensures r == FilterMap(s, p, f)
  {
    r := [];
    var j := 0;
    while j < |s|
      invariant 0 <= j <= |s|
      invariant r == FilterMap(s[..j], p, f)
    {
      assert s[..j + 1][..j] == s[..j];
      if p(s[j]) {
        r := r + [f(s[j])];
      }
      j := j + 1;
    }
    assert s[..j] == s;
  }

  /** `len([x for x in s if p(x)])` */
  function Count<T>(s: seq<T>, p: T -> bool): nat {
    |Filter(s, p)|
  }

  /** Counting over one more element. */
  lemma {:induction false} CountSnoc<T>(s: seq<T>, x: T, p: T -> bool)
    ensures Count(s + [x], p) == Count(s, p) + (if p(x) then 1 else 0)
  {
    FilterConcat(s, [x], p);
  }

  /** Counting over a prefix one element longer: the loop step. */
  lemma {:induction false} CountStep<T>(s: seq<T>, i: nat, p: T -> bool)
    requires i < |s|
    ensures Count(s[..i + 1], p) == Count(s[..i], p) + (if p(s[i]) then 1 else 0)
  {
    assert s[..i + 1] == s[..i] + [s[i]];
    CountSnoc(s[..i], s[i], p);
  }

  /** The loop that counts: one pass, adding one for every element that passes the test. */
  method CountEach<T>(s: seq<T>, p: T -> bool) returns (n: nat)
    ensures n == Count(s, p)
  {
    n := 0;
    var i := 0;
    while i < |s|
      invariant 0 <= i <= |s|
      invariant n == Count(s[..i], p)
    {
      CountStep(s, i, p);
      if p(s[i]) {
        n := n + 1;
      }
      i := i + 1;
    }
    assert s[..i] == s;
  }

  ghost predicate TotalPreorder<T(!new)>(leq: (T, T) -> bool) {
    && (forall x, y :: leq(x, y) || leq(y, x))
    && (forall x, y, z :: leq(x, y) && leq(y, z) ==> leq(x, z))
  }

  predicate SortedBy<T>(s: seq<T>, leq: (T, T) -> bool) {
    forall i, j :: 0 <= i < j < |s| ==> leq(s[i], s[j])
  }

  /** Places x after every element that is not greater than it: where a stable sort puts a later element. */
  function Insert<T>(x: T, s: seq<T>, leq: (T, T) -> bool): seq<T> {
    if s == [] then [x]
    else if leq(s[0], x) then [s[0]] + Insert(x, s[1..], leq)
    else [x] + s
  }

  /** Stable insertion sort. */
  function SortBy<T>(s: seq<T>, leq: (T, T) -> bool): seq<T> {
    if s == [] then [] else Insert(s[|s| - 1], SortBy(s[..|s| - 1], leq), leq)
  }

  lemma {:induction false} InsertPermutes<T>(x: T, s: seq<T>, leq: (T, T) -> bool)
    ensures multiset(Insert(x, s, leq)) == multiset(s) + multiset{x}
  {
    if s != [] && leq(s[0], x) {
      InsertPermutes(x, s[1..], leq);
      assert s == [s[0]] + s[1..];
    }
  }

  lemma {:induction false} InsertSorted<T(!new)>(x: T, s: seq<T>, leq: (T, T) -> bool)
    requires TotalPreorder(leq) && SortedBy(s, leq)
    ensures SortedBy(Insert(x, s, leq), leq)
  {
    if s != [] && leq(s[0], x) {
      InsertSorted(x, s[1..], leq);
      InsertPermutes(x, s[1..], leq);
      var r := Insert(x, s[1..], leq);
      forall j | 0 <= j < |r| ensures leq(s[0], r[j]) {
        assert r[j] in multiset(r);
        assert r[j] == x || r[j] in multiset(s[1..]);
        if r[j] != x {
          assert r[j] in s[1..];
        }
      }
    }
  }

  /** Stable sorting permutes its input ... */
  lemma {:induction false} SortByPermutes<T>(s: seq<T>, leq: (T, T) -> bool)
    ensures multiset(SortBy(s, leq)) == multiset(s)
  {
    if s != [] {
      SortByPermutes(s[..|s| - 1], leq);
      InsertPermutes(s[|s| - 1], SortBy(s[..|s| - 1], leq), leq);
      assert s == s[..|s| - 1] + [s[|s| - 1]];
    }
  }

  /** ... and orders it. */
  lemma {:induction false} SortBySorted<T(!new)>(s: seq<T>, leq: (T, T) -> bool)
    requires TotalPreorder(leq)
    ensures SortedBy(SortBy(s, leq), leq)
  {
    if s != [] {
      SortBySorted(s[..|s| - 1], leq);
      InsertSorted(s[|s| - 1], SortBy(s[..|s| - 1], leq), leq);
    }
  }

  lemma {:induction false} SortByLength<T>(s: seq<T>, leq: (T, T) -> bool)
    ensures |SortBy(s, leq)| == |s|
  {
    SortByPermutes(s, leq);
    assert |multiset(SortBy(s, leq))| == |multiset(s)|;
  }

  lemma {:induction false} InsertAtEnd<T>(x: T, s: seq<T>, leq: (T, T) -> bool)
    requires forall k :: 0 <= k < |s| ==> leq(s[k], x)
    ensures Insert(x, s, leq) == s + [x]
  {
    if s != [] {
      InsertAtEnd(x, s[1..], leq);
      assert s == [s[0]] + s[1..];
    }
  }

  /** Sorting an already sorted sequence changes nothing. */
  lemma {:induction false} SortBySortedIdentity<T>(s: seq<T>, leq: (T, T) -> bool)
    requires SortedBy(s, leq)
    ensures SortBy(s, leq) == s
  {
    if s != [] {
      var init := s[..|s| - 1];
      SortBySortedIdentity(init, leq);
      InsertAtEnd(s[|s| - 1], init, leq);
      assert init + [s[|s| - 1]] == s;
    }
  }

  /** Appending one element to a sorted sequence and re-sorting is a single stable insertion. */
  lemma {:induction false} SortAfterAppend<T>(s: seq<T>, x: T, leq: (T, T) -> bool)
    requires SortedBy(s, leq)
    ensures SortBy(s + [x], leq) == Insert(x, s, leq)
  {
    assert (s + [x])[..|s|] == s;
    SortBySortedIdentity(s, leq);
  }

  /** The elements equivalent to y under the preorder. */
  function Equivalent<T>(y: T, leq: (T, T) -> bool): T -> bool {
    e => leq(e, y) && leq(y, e)
  }

  /** When x is equivalent to y and smaller than the head of s, nothing in sorted s is equivalent to y. */
  lemma {:induction false} NoneEquivalentAfter<T(!new)>(x: T, s: seq<T>, y: T, leq: (T, T) -> bool)
    requires TotalPreorder(leq) && SortedBy(s, leq)
    requires s != [] && !leq(s[0], x) && leq(x, y) && leq(y, x)
    ensures forall k :: 0 <= k < |s| ==> !Equivalent(y, leq)(s[k])
  {
    forall k | 0 <= k < |s| ensures !(leq(s[k], y) && leq(y, s[k])) {
      assert leq(s[0], s[k]);
    }
  }

  lemma {:induction false} InsertStable<T(!new)>(x: T, s: seq<T>, y: T, leq: (T, T) -> bool)
    requires TotalPreorder(leq) && SortedBy(s, leq)
    ensures Filter(Insert(x, s, leq), Equivalent(y, leq))
         == Filter(s, Equivalent(y, leq)) + Filter([x], Equivalent(y, leq))
  {
    var p := Equivalent(y, leq);
    if s == [] {
    } else if leq(s[0], x) {
      assert SortedBy(s[1..], leq);
      InsertStable(x, s[1..], y, leq);
      InsertPastStable(x, s, p, leq);
    } else {
      InsertFrontStable(x, s, y, leq);
    }
  }

  /** When x goes past the head of s, the head stays in front of what the insertion into the rest keeps. */
  lemma {:induction false} InsertPastStable<T>(x: T, s: seq<T>, p: T -> bool, leq: (T, T) -> bool)
    requires s != [] && leq(s[0], x)
    requires Filter(Insert(x, s[1..], leq), p) == Filter(s[1..], p) + Filter([x], p)
    ensures Filter(Insert(x, s, leq), p) == Filter(s, p) + Filter([x], p)
  {
    var rest, r := s[1..], Insert(x, s[1..], leq);
    calc {
      Filter(Insert(x, s, leq), p);
      Filter([s[0]] + r, p);
      { FilterConcat([s[0]], r, p); }
      Filter([s[0]], p) + Filter(r, p);
      Filter([s[0]], p) + (Filter(rest, p) + Filter([x], p));
      (Filter([s[0]], p) + Filter(rest, p)) + Filter([x], p);
      { FilterConcat([s[0]], rest, p); assert s == [s[0]] + rest; }
      Filter(s, p) + Filter([x], p);
    }
  }

  /** When x goes in front of s, either x is not equivalent to y or nothing in s is. */
  lemma {:induction false} InsertFrontStable<T(!new)>(x: T, s: seq<T>, y: T, leq: (T, T) -> bool)
    requires TotalPreorder(leq) && SortedBy(s, leq)
    requires s != [] && !leq(s[0], x)
    ensures Filter(Insert(x, s, leq), Equivalent(y, leq))
         == Filter(s, Equivalent(y, leq)) + Filter([x], Equivalent(y, leq))
  {
    var p := Equivalent(y, leq);
    assert Insert(x, s, leq) == [x] + s;
    FilterConcat([x], s, p);
    if p(x) {
      NoneEquivalentAfter(x, s, y, leq);
      FilterNone(s, p);
    } else {
      assert Filter([x], p) == [];
    }
  }

  /**
    * Stability: the elements equivalent to any y keep their relative order
    * (the subsequence of them is the same before and after sorting).
    */
  lemma {:induction false} SortByStable<T(!new)>(s: seq<T>, y: T, leq: (T, T) -> bool)
    requires TotalPreorder(leq)
    ensures Filter(SortBy(s, leq), Equivalent(y, leq)) == Filter(s, Equivalent(y, leq))
  {
    if s != [] {
      var init, last := s[..|s| - 1], s[|s| - 1];
      SortByStable(init, y, leq);
      SortBySorted(init, leq);
      InsertStable(last, SortBy(init, leq), y, leq);
      FilterConcat(init, [last], Equivalent(y, leq));
      assert init + [last] == s;
    }
  }
}
