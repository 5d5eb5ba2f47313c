/**
  * The orchestrator's bookkeeping rules that are the same for torrent
  * processes and copy operations (src/service.py): how many queued entries a
  * dispatch pass starts, and how the finished history kept in a running map is
  * pruned.  A running map is an insertion-ordered dict keyed by id; it is a
  * sequence of entries whose ids are distinct.
  */
module Bookkeeping {
  import opened Sequences

  // ------------------------------------------------------------ dispatch

  /**
    * How many entries `while len(running) < max and queue: queue.pop(0)`
    * starts, `occupied` being the entries already in the running map: it stops
    * when the map is full or the queue is empty, and never overfills the map.
    */
  function DispatchCount(occupied: int, queued: nat, max: int): (k: nat)
    ensures k <= queued
    ensures k == queued || occupied + k >= max
    ensures k > 0 ==> occupied + k <= max
  {
    if occupied >= max then 0
    else if max - occupied < queued then max - occupied
    else queued
  }

  /** The two stopping conditions and the bound determine the count. */
  lemma {:induction false} DispatchCountUnique(occupied: int, queued: nat, max: int, k: nat)
    requires k <= queued && (k == queued || occupied + k >= max) && (k > 0 ==> occupied + k <= max)
    ensures k == DispatchCount(occupied, queued, max)
  {
  }

  // ------------------------------------------------------------ ids

  predicate DistinctIds<T>(s: seq<T>, id: T -> string) {
    forall i, j :: 0 <= i < j < |s| ==> id(s[i]) != id(s[j])
  }

  function IdsOf<T>(s: seq<T>, id: T -> string): (r: set<string>)
    ensures forall i :: 0 <= i < |s| ==> id(s[i]) in r
  {
    set i | 0 <= i < |s| :: id(s[i])
  }

  /** The entries whose id is not in `drop`. */
  function OutsideOf<T>(drop: set<string>, id: T -> string): T -> bool {
    (x: T) => id(x) !in drop
  }

  lemma {:induction false} FilterKeepsDistinct<T>(s: seq<T>, p: T -> bool, id: T -> string)
    requires DistinctIds(s, id)
    ensures DistinctIds(Filter(s, p), id)
  {
    if s != [] {
      FilterKeepsDistinct(s[1..], p, id);
      var rest := Filter(s[1..], p);
      forall i | 0 <= i < |rest|
        ensures id(rest[i]) != id(s[0])
      {
        var j :| 0 <= j < |s[1..]| && s[1..][j] == rest[i];
        assert s[j + 1] == rest[i];
      }
    }
  }

  /** No entry repeats in a sequence with distinct ids. */
  lemma {:induction false} DistinctOnce<T>(s: seq<T>, id: T -> string, x: T)
    requires DistinctIds(s, id)
    ensures multiset(s)[x] <= 1
  {
    if s != [] {
      assert s == [s[0]] + s[1..];
      DistinctOnce(s[1..], id, x);
      forall j | 0 <= j < |s[1..]|
        ensures s[1..][j] != s[0]
      {
        assert s[1..][j] == s[j + 1];
      }
      assert s[0] !in s[1..];
    }
  }

  /** Reordering keeps ids distinct. */
  lemma {:induction false} PermutationKeepsDistinct<T>(a: seq<T>, b: seq<T>, id: T -> string)
    requires multiset(a) == multiset(b) && DistinctIds(a, id)
    ensures DistinctIds(b, id)
  {
    forall i, j | 0 <= i < j < |b|
      ensures id(b[i]) != id(b[j])
    {
      assert b == b[..j] + b[j..];
      assert b[i] == b[..j][i] && b[j] == b[j..][0];
      assert multiset(b)[b[j]] == multiset(b[..j])[b[j]] + multiset(b[j..])[b[j]];
      DistinctOnce(a, id, b[j]);
      assert b[i] != b[j];
      assert b[i] in multiset(a) && b[j] in multiset(a);
      var i' :| 0 <= i' < |a| && a[i'] == b[i];
      var j' :| 0 <= j' < |a| && a[j'] == b[j];
      assert i' != j';
    }
  }

  /** Filtering sequences with equal multisets gives sequences with equal multisets. */
  lemma {:induction false} FilterPermutation<T>(a: seq<T>, b: seq<T>, p: T -> bool)
    requires multiset(a) == multiset(b)
    ensures multiset(Filter(a, p)) == multiset(Filter(b, p))
    decreases |a|
  {
    if a == [] {
      assert |multiset(b)| == 0;
    } else {
      assert a[0] in multiset(b);
      var k :| 0 <= k < |b| && b[k] == a[0];
      RemoveMatched(a, b, k);
      FilterPermutation(a[1..], b[..k] + b[k + 1..], p);
      FilterHead(a, p);
      FilterAround(b, k, p);
    }
  }

  /** Taking the head of a and an equal element of b leaves equal multisets. */
  lemma {:induction false} RemoveMatched<T>(a: seq<T>, b: seq<T>, k: nat)
    requires multiset(a) == multiset(b) && a != [] && k < |b| && b[k] == a[0]
    ensures multiset(a[1..]) == multiset(b[..k] + b[k + 1..])
  {
    var x, b1, b2 := a[0], b[..k], b[k + 1..];
    assert b == b1 + [x] + b2;
    assert a == [x] + a[1..];
    assert multiset(a[1..]) == multiset(a) - multiset{x};
    assert multiset(b1 + b2) == multiset(b) - multiset{x};
  }

  /** Filtering b is filtering its k-th element and filtering the rest, as multisets. */
  lemma {:induction false} FilterAround<T>(b: seq<T>, k: nat, p: T -> bool)
    requires k < |b|
    ensures multiset(Filter(b, p)) == multiset(Filter([b[k]], p)) + multiset(Filter(b[..k] + b[k + 1..], p))
  {
    var b1, x, b2 := b[..k], b[k], b[k + 1..];
    assert Filter(b, p) == Filter(b1, p) + Filter([x], p) + Filter(b2, p) by {
      assert b == (b1 + [x]) + b2;
      FilterConcat(b1 + [x], b2, p);
      FilterConcat(b1, [x], p);
    }
    assert Filter(b1 + b2, p) == Filter(b1, p) + Filter(b2, p) by {
      FilterConcat(b1, b2, p);
    }
  }

  /** The head of a filter, as FilterConcat needs it. */
  lemma {:induction false} FilterHead<T>(s: seq<T>, p: T -> bool)
    requires s != []
    ensures Filter(s, p) == Filter([s[0]], p) + Filter(s[1..], p)
  {
    assert s == [s[0]] + s[1..];
    FilterConcat([s[0]], s[1..], p);
  }

  /** Filtering with q after p is filtering with q, when q implies p on the entries. */
  lemma {:induction false} FilterSubsumed<T>(s: seq<T>, p: T -> bool, q: T -> bool)
    requires forall i :: 0 <= i < |s| && q(s[i]) ==> p(s[i])
    ensures Filter(Filter(s, p), q) == Filter(s, q)
  {
    if s != [] {
      assert forall i :: 0 <= i < |s[1..]| ==> s[1..][i] == s[i + 1];
      FilterSubsumed(s[1..], p, q);
      FilterHead(s, p);
      FilterConcat(Filter([s[0]], p), Filter(s[1..], p), q);
    }
  }

  lemma {:induction false} FilterCommute<T>(s: seq<T>, p: T -> bool, q: T -> bool)
    ensures Filter(Filter(s, p), q) == Filter(Filter(s, q), p)
  {
    if s != [] {
      FilterCommute(s[1..], p, q);
      FilterHead(s, p);
      FilterHead(s, q);
      FilterConcat(Filter([s[0]], p), Filter(s[1..], p), q);
      FilterConcat(Filter([s[0]], q), Filter(s[1..], q), p);
    }
  }

  /** Deleting ids one set after another deletes their union. */
  lemma {:induction false} FilterOutsideTwice<T>(s: seq<T>, a: set<string>, b: set<string>, id: T -> string)
    ensures Filter(Filter(s, OutsideOf(a, id)), OutsideOf(b, id)) == Filter(s, OutsideOf(a + b, id))
  {
    if s != [] {
      FilterOutsideTwice(s[1..], a, b, id);
      FilterHead(s, OutsideOf(a, id));
      FilterConcat(Filter([s[0]], OutsideOf(a, id)), Filter(s[1..], OutsideOf(a, id)), OutsideOf(b, id));
    }
  }

  /** Deleting the ids of a prefix of a sequence with distinct ids leaves the rest. */
  lemma {:induction false} FilterPrefixOut<T>(s: seq<T>, m: nat, id: T -> string)
    requires m <= |s| && DistinctIds(s, id)
    ensures Filter(s, OutsideOf(IdsOf(s[..m], id), id)) == s[m..]
  {
    var drop := IdsOf(s[..m], id);
    assert s == s[..m] + s[m..];
    FilterConcat(s[..m], s[m..], OutsideOf(drop, id));
    FilterNone(s[..m], OutsideOf(drop, id));
    forall x | x in s[m..]
      ensures OutsideOf(drop, id)(x)
    {
      var i :| 0 <= i < |s[m..]| && s[m..][i] == x;
      forall j | 0 <= j < m
        ensures id(s[..m][j]) != id(x)
      {
        assert s[..m][j] == s[j] && x == s[m + i];
      }
    }
    FilterAll(s[m..], OutsideOf(drop, id));
  }

  lemma {:induction false} IdsOfSnoc<T>(s: seq<T>, x: T, id: T -> string)
    ensures IdsOf(s + [x], id) == IdsOf(s, id) + {id(x)}
  {
    var l, r := IdsOf(s + [x], id), IdsOf(s, id) + {id(x)};
    forall k | k in l
      ensures k in r
    {
      var i :| 0 <= i < |s + [x]| && id((s + [x])[i]) == k;
      if i < |s| {
        assert (s + [x])[i] == s[i];
      }
    }
    assert (s + [x])[|s|] == x;
    forall k | k in IdsOf(s, id)
      ensures k in l
    {
      var i :| 0 <= i < |s| && id(s[i]) == k;
      assert (s + [x])[i] == s[i];
    }
  }

  // ------------------------------------------------------------ the deletion loop

  /** `for old in oldest: del running[old.id]` */
  method DeleteEach<T>(rs: seq<T>, drop: seq<T>, id: T -> string) returns (out: seq<T>)
    ensures out == Filter(rs, OutsideOf(IdsOf(drop, id), id))
  {
    out := rs;
    FilterAll(rs, OutsideOf({}, id));
    assert IdsOf(drop[..0], id) == {};
    var j := 0;
    while j < |drop|
      invariant 0 <= j <= |drop|
      invariant out == Filter(rs, OutsideOf(IdsOf(drop[..j], id), id))
    {
      DeleteStep(rs, drop, j, id);
      out := Filter(out, OutsideOf({id(drop[j])}, id));
      j := j + 1;
    }
    assert drop[..j] == drop;
  }

  /** One deletion more: dropping the next id from what is left. */
  lemma {:induction false} DeleteStep<T>(rs: seq<T>, drop: seq<T>, j: nat, id: T -> string)
    requires j < |drop|
    ensures Filter(Filter(rs, OutsideOf(IdsOf(drop[..j], id), id)), OutsideOf({id(drop[j])}, id))
            == Filter(rs, OutsideOf(IdsOf(drop[..j + 1], id), id))
  {
    FilterOutsideTwice(rs, IdsOf(drop[..j], id), {id(drop[j])}, id);
    assert drop[..j + 1] == drop[..j] + [drop[j]];
    IdsOfSnoc(drop[..j], drop[j], id);
  }

  // ------------------------------------------------------------ pruning the finished history

  function ByStart<T>(start: T -> int): (T, T) -> bool {
    (a: T, b: T) => start(a) <= start(b)
  }

  lemma {:induction false} ByStartTotal<T(!new)>(start: T -> int)
    ensures TotalPreorder(ByStart(start))
  {
  }

  /** `sorted(finished, key=start)[:-keep]`, taken only when more than keep entries are finished. */
  function Oldest<T>(rs: seq<T>, finished: T -> bool, start: T -> int, keep: nat): (r: seq<T>)
    requires keep > 0
    ensures |Filter(rs, finished)| <= keep ==> r == []
  {
    var fin := Filter(rs, finished);
    if |fin| <= keep then []
    else
      SortByLength(fin, ByStart(start));
      SortBy(fin, ByStart(start))[..|fin| - keep]
  }

  /** The running map after the oldest finished entries beyond `keep` are deleted. */
  function Prune<T>(rs: seq<T>, id: T -> string, finished: T -> bool, start: T -> int, keep: nat): seq<T>
    requires keep > 0
  {
    Filter(rs, OutsideOf(IdsOf(Oldest(rs, finished, start, keep), id), id))
  }

  /** With no more than keep finished entries, nothing is deleted. */
  lemma {:induction false} SmallHistoryKept<T>(rs: seq<T>, id: T -> string, finished: T -> bool, start: T -> int, keep: nat)
    requires keep > 0 && Count(rs, finished) <= keep
    ensures Prune(rs, id, finished, start, keep) == rs
  {
    assert IdsOf(Oldest(rs, finished, start, keep), id) == {};
    FilterAll(rs, OutsideOf({}, id));
  }

  /** Every entry chosen for deletion is a finished entry of the map. */
  lemma {:induction false} OldestAreFinished<T>(rs: seq<T>, finished: T -> bool, start: T -> int, keep: nat, x: T)
    requires keep > 0 && x in Oldest(rs, finished, start, keep)
    ensures x in rs && finished(x)
  {
    var fin := Filter(rs, finished);
    SortByPermutes(fin, ByStart(start));
    var sorted := SortBy(fin, ByStart(start));
    assert x in sorted;
    assert x in multiset(fin);
  }

  function Unfinished<T>(finished: T -> bool): T -> bool {
    (x: T) => !finished(x)
  }

  /** Unfinished entries are never deleted, and keep their order. */
  lemma {:induction false} PruneKeepsUnfinished<T>(rs: seq<T>, id: T -> string, finished: T -> bool, start: T -> int, keep: nat)
    requires keep > 0 && DistinctIds(rs, id)
    ensures Filter(Prune(rs, id, finished, start, keep), Unfinished(finished)) == Filter(rs, Unfinished(finished))
  {
    var old_ := Oldest(rs, finished, start, keep);
    var unf := Unfinished(finished);
    var keepIt := OutsideOf(IdsOf(old_, id), id);
    forall i | 0 <= i < |rs| && unf(rs[i])
      ensures keepIt(rs[i])
    {
      forall t | 0 <= t < |old_|
        ensures id(old_[t]) != id(rs[i])
      {
        OldestAreFinished(rs, finished, start, keep, old_[t]);
        var j :| 0 <= j < |rs| && rs[j] == old_[t];
        assert i != j;
      }
    }
    FilterSubsumed(rs, keepIt, unf);
  }

  /** In a sorted sequence with distinct ids, deleting the ids of a prefix leaves the suffix, which starts no earlier. */
  lemma {:induction false} SortedPrefixOut<T(!new)>(fin: seq<T>, id: T -> string, start: T -> int, m: nat)
    requires DistinctIds(fin, id) && m <= |fin|
    ensures var sorted := SortBy(fin, ByStart(start));
      |sorted| == |fin| &&
      multiset(Filter(fin, OutsideOf(IdsOf(sorted[..m], id), id))) == multiset(sorted[m..]) &&
      forall i, j :: 0 <= i < m <= j < |sorted| ==> start(sorted[i]) <= start(sorted[j])
  {
    var sorted := SortBy(fin, ByStart(start));
    SortByPermutes(fin, ByStart(start));
    SortByLength(fin, ByStart(start));
    ByStartTotal(start);
    SortBySorted(fin, ByStart(start));
    PermutationKeepsDistinct(fin, sorted, id);
    FilterPrefixOut(sorted, m, id);
    FilterPermutation(fin, sorted, OutsideOf(IdsOf(sorted[..m], id), id));
  }

  /** The finished entries after pruning are the finished entries whose ids were not chosen. */
  lemma {:induction false} KeptFinished<T>(rs: seq<T>, id: T -> string, finished: T -> bool, start: T -> int, keep: nat)
    requires keep > 0
    ensures Filter(Prune(rs, id, finished, start, keep), finished)
         == Filter(Filter(rs, finished), OutsideOf(IdsOf(Oldest(rs, finished, start, keep), id), id))
  {
    FilterCommute(rs, OutsideOf(IdsOf(Oldest(rs, finished, start, keep), id), id), finished);
  }

  /**
    * The finished entries that remain are the newest `keep` of them, or all of
    * them when there are no more than `keep`.
    */
  lemma {:induction false} PruneKeepsNewest<T(!new)>(rs: seq<T>, id: T -> string, finished: T -> bool, start: T -> int, keep: nat)
    requires keep > 0 && DistinctIds(rs, id)
    ensures Count(Prune(rs, id, finished, start, keep), finished) == (if Count(rs, finished) <= keep then Count(rs, finished) else keep)
    ensures forall x, y :: x in Oldest(rs, finished, start, keep) && y in Filter(Prune(rs, id, finished, start, keep), finished) ==> start(x) <= start(y)
  {
    var fin := Filter(rs, finished);
    KeptFinished(rs, id, finished, start, keep);
    if |fin| <= keep {
      SmallHistoryKept(rs, id, finished, start, keep);
    } else {
      FilterKeepsDistinct(rs, finished, id);
      NewestRemain(fin, id, start, keep);
      assert Oldest(rs, finished, start, keep) == SortBy(fin, ByStart(start))[..|fin| - keep];
    }
  }

  lemma {:induction false} NewestRemain<T(!new)>(fin: seq<T>, id: T -> string, start: T -> int, keep: nat)
    requires keep > 0 && DistinctIds(fin, id) && |fin| > keep
    ensures |SortBy(fin, ByStart(start))| == |fin|
    ensures var sorted := SortBy(fin, ByStart(start));
      var kept := Filter(fin, OutsideOf(IdsOf(sorted[..|fin| - keep], id), id));
      |kept| == keep &&
      forall x, y :: x in sorted[..|fin| - keep] && y in kept ==> start(x) <= start(y)
  {
    var sorted := SortBy(fin, ByStart(start));
    var m := |fin| - keep;
    SortedPrefixOut(fin, id, start, m);
    var kept := Filter(fin, OutsideOf(IdsOf(sorted[..m], id), id));
    assert |kept| == keep by {
      assert |kept| == |multiset(kept)| == |multiset(sorted[m..])|;
    }
    forall x, y | x in sorted[..m] && y in kept
      ensures start(x) <= start(y)
    {
      assert y in sorted[m..] by {
        assert y in multiset(sorted[m..]);
      }
      var i :| 0 <= i < m && sorted[..m][i] == x;
      var j :| 0 <= j < |sorted[m..]| && sorted[m..][j] == y;
      assert sorted[i] == x && sorted[m + j] == y;
    }
  }
}
