/**
  * The helpers of util.py: the retry-with-backoff rule, directory statistics
  * over an abstract directory tree walked the way `os.walk(topdown=True)` does,
  * the copy-verification decision and the clean-up decision.
  */
module Util {
  import opened Wrappers
  import opened Values

  // ------------------------------------------------------------ retry_with_backoff

  function Pow2(n: nat): (r: nat)
    ensures r >= 1
  {
    if n == 0 then 1 else 2 * Pow2(n - 1)
  }

  lemma {:induction false} Pow2Monotone(m: nat, n: nat)
    requires m <= n
    ensures Pow2(m) <= Pow2(n)
  {
    if m < n {
      Pow2Monotone(m, n - 1);
    }
  }

  /** The sleep after failed attempt k (counting from 1): `min(base_delay * 2 ** (k - 1), max_delay)`. */
  function Delay(baseDelay: int, maxDelay: int, k: nat): (d: int)
    requires k >= 1
    ensures d <= maxDelay
    ensures d == maxDelay || d == baseDelay * Pow2(k - 1)
  {
    var grown := baseDelay * Pow2(k - 1);
    if grown < maxDelay then grown else maxDelay
  }

  /** The sleeps after the first n failed attempts. */
  function Delays(baseDelay: int, maxDelay: int, n: nat): (ds: seq<int>)
    ensures |ds| == n
    ensures forall i :: 0 <= i < n ==> ds[i] == Delay(baseDelay, maxDelay, i + 1)
  {
    if n == 0 then [] else Delays(baseDelay, maxDelay, n - 1) + [Delay(baseDelay, maxDelay, n)]
  }

  /** With a non-negative base the delays never decrease. */
  lemma {:induction false} DelayMonotone(baseDelay: int, maxDelay: int, j: nat, k: nat)
    requires baseDelay >= 0 && 1 <= j <= k
    ensures Delay(baseDelay, maxDelay, j) <= Delay(baseDelay, maxDelay, k)
  {
    Pow2Monotone(j - 1, k - 1);
    assert baseDelay * Pow2(j - 1) <= baseDelay * Pow2(k - 1) by {
      var d := Pow2(k - 1) - Pow2(j - 1);
      assert baseDelay * Pow2(k - 1) == baseDelay * Pow2(j - 1) + baseDelay * d;
    }
  }

  /** What `time.sleep` raises for a negative length. */
  const NegativeSleep: Error := ValueError("sleep length must be non-negative")

  /**
    * The wrapper `retry_with_backoff` puts around a call.  The k-th call of the
    * wrapped function (counting from 1) gives `attempt(k)`; the wrapper reports
    * its result, how many calls it made and the sleeps it took in between.
    * With `max_attempts <= 0` the loop never runs and `raise None` is a TypeError;
    * a negative delay makes `time.sleep` raise inside the handler, which ends the retries.
    */
  method RetryWithBackoff<T>(maxAttempts: int, baseDelay: int, maxDelay: int, attempt: nat -> Result<T, Error>)
    returns (r: Result<T, Error>, calls: nat, sleeps: seq<int>)
    ensures maxAttempts <= 0 ==> calls == 0 && sleeps == [] && r == Failure(TypeError("exceptions must derive from BaseException"))
    ensures maxAttempts > 0 ==> 1 <= calls <= maxAttempts
    ensures forall k :: 1 <= k < calls ==> attempt(k).Failure? && Delay(baseDelay, maxDelay, k) >= 0
    ensures calls > 0 ==> sleeps == Delays(baseDelay, maxDelay, calls - 1)
    ensures maxAttempts > 0 && (attempt(calls).Success? || calls == maxAttempts) ==> r == attempt(calls)
    ensures maxAttempts > 0 && attempt(calls).Failure? && calls < maxAttempts ==>
              Delay(baseDelay, maxDelay, calls) < 0 && r == Failure(NegativeSleep)
    ensures baseDelay >= 0 && maxDelay >= 0 && maxAttempts > 0 && r.Failure? ==> calls == maxAttempts && r == attempt(calls)
  {
    if maxAttempts <= 0 {
      return Failure(TypeError("exceptions must derive from BaseException")), 0, [];
    }
    var k := 1;
    sleeps := [];
    while true
      invariant 1 <= k <= maxAttempts
      invariant forall j :: 1 <= j < k ==> attempt(j).Failure? && Delay(baseDelay, maxDelay, j) >= 0
      invariant sleeps == Delays(baseDelay, maxDelay, k - 1)
      decreases maxAttempts - k
    {
      var outcome := attempt(k);
      if outcome.Success? || k == maxAttempts {
        return outcome, k, sleeps;
      }
      var delay := Delay(baseDelay, maxDelay, k);
      if delay < 0 {
        return Failure(NegativeSleep), k, sleeps;
      }
      sleeps := sleeps + [delay];
      k := k + 1;
    }
  }

  // ------------------------------------------------------------ get_dir_stats

  /**
    * A directory tree.  A symbolic link is a `File` with `isLink` set: `os.walk`
    * lists it without following it and `get_dir_stats` counts it but adds no
    * size for it, whether it points at a file or at a directory.
    */
  datatype Node =
    | File(name: string, size: nat, isLink: bool)
    | Dir(name: string, children: seq<Node>)

  /** One triple `(dirpath, dirnames, filenames)` of the walk, with each file's stat. */
  datatype WalkEntry = WalkEntry(dirnames: seq<string>, files: seq<Node>)

  function DirNames(cs: seq<Node>): (r: seq<string>)
    ensures |r| <= |cs|
  {
    if cs == [] then [] else (if cs[0].Dir? then [cs[0].name] else []) + DirNames(cs[1..])
  }

  function FileNodes(cs: seq<Node>): (r: seq<Node>)
    ensures forall i :: 0 <= i < |r| ==> r[i].File?
  {
    if cs == [] then [] else (if cs[0].File? then [cs[0]] else []) + FileNodes(cs[1..])
  }

  lemma {:induction false} EntrySplit(cs: seq<Node>)
    ensures |DirNames(cs)| + |FileNodes(cs)| == |cs|
  {
    if cs != [] {
      EntrySplit(cs[1..]);
    }
  }

  /** `os.walk(topdown=True)`: a directory's own entry, then the walk of each child in order. */
  function Walk(n: Node): seq<WalkEntry> {
    match n
    case File(_, _, _) => []
    case Dir(_, cs) => [WalkEntry(DirNames(cs), FileNodes(cs))] + WalkAll(cs)
  }

  function WalkAll(cs: seq<Node>): seq<WalkEntry> {
    if cs == [] then [] else Walk(cs[0]) + WalkAll(cs[1..])
  }

  /** The size `get_dir_stats` adds for a list of files: links contribute nothing. */
  function FilesSize(files: seq<Node>): nat {
    if files == [] then 0
    else
      var f := files[|files| - 1];
      FilesSize(files[..|files| - 1]) + (if f.File? && !f.isLink then f.size else 0)
  }

  function WalkCount(w: seq<WalkEntry>): nat {
    if w == [] then 0
    else WalkCount(w[..|w| - 1]) + |w[|w| - 1].dirnames| + |w[|w| - 1].files|
  }

  function WalkSize(w: seq<WalkEntry>): nat {
    if w == [] then 0 else WalkSize(w[..|w| - 1]) + FilesSize(w[|w| - 1].files)
  }

  /** Every node of the tree, the root included. */
  function TreeCount(n: Node): nat {
    match n
    case File(_, _, _) => 1
    case Dir(_, cs) => 1 + TreeCountAll(cs)
  }

  function TreeCountAll(cs: seq<Node>): nat {
    if cs == [] then 0 else TreeCount(cs[0]) + TreeCountAll(cs[1..])
  }

  /** The sizes of all regular files in the tree. */
  function TreeSize(n: Node): nat {
    match n
    case File(_, size, isLink) => if isLink then 0 else size
    case Dir(_, cs) => TreeSizeAll(cs)
  }

  function TreeSizeAll(cs: seq<Node>): nat {
    if cs == [] then 0 else TreeSize(cs[0]) + TreeSizeAll(cs[1..])
  }

  /** What `get_dir_stats(path)` promises: `(0, 0)` for a non-directory, else the tree's size and node count. */
  function DirStats(n: Node): (nat, nat) {
    if n.Dir? then (TreeSize(n), TreeCount(n)) else (0, 0)
  }

  lemma {:induction false} WalkCountConcat(a: seq<WalkEntry>, b: seq<WalkEntry>)
    ensures WalkCount(a + b) == WalkCount(a) + WalkCount(b)
  {
    if b == [] {
      assert a + b == a;
    } else {
      assert (a + b)[..|a + b| - 1] == a + b[..|b| - 1];
      WalkCountConcat(a, b[..|b| - 1]);
    }
  }

  lemma {:induction false} WalkSizeConcat(a: seq<WalkEntry>, b: seq<WalkEntry>)
    ensures WalkSize(a + b) == WalkSize(a) + WalkSize(b)
  {
    if b == [] {
      assert a + b == a;
    } else {
      assert (a + b)[..|a + b| - 1] == a + b[..|b| - 1];
      WalkSizeConcat(a, b[..|b| - 1]);
    }
  }

  lemma {:induction false} FilesSizeConcat(a: seq<Node>, b: seq<Node>)
    ensures FilesSize(a + b) == FilesSize(a) + FilesSize(b)
  {
    if b == [] {
      assert a + b == a;
    } else {
      assert (a + b)[..|a + b| - 1] == a + b[..|b| - 1];
      FilesSizeConcat(a, b[..|b| - 1]);
    }
  }

  lemma {:induction false} WalkOne(e: WalkEntry)
    ensures WalkCount([e]) == |e.dirnames| + |e.files|
    ensures WalkSize([e]) == FilesSize(e.files)
  {
    assert [e][..0] == [];
  }

  /** The walk visits every node but the root once: as a dirname or as a filename of its parent. */
  lemma {:induction false} WalkCountsNodes(n: Node)
    ensures WalkCount(Walk(n)) + 1 == TreeCount(n)
    ensures n.Dir? ==> WalkSize(Walk(n)) == TreeSize(n)
  {
    match n
    case File(_, _, _) =>
    case Dir(_, cs) =>
      var e := WalkEntry(DirNames(cs), FileNodes(cs));
      WalkAllCountsNodes(cs);
      EntrySplit(cs);
      WalkOne(e);
      WalkCountConcat([e], WalkAll(cs));
      WalkSizeConcat([e], WalkAll(cs));
  }

  lemma {:induction false} WalkAllCountsNodes(cs: seq<Node>)
    ensures WalkCount(WalkAll(cs)) + |cs| == TreeCountAll(cs)
    ensures WalkSize(WalkAll(cs)) + FilesSize(FileNodes(cs)) == TreeSizeAll(cs)
  {
    if cs != [] {
      var rest := cs[1..];
      WalkCountsNodes(cs[0]);
      WalkAllCountsNodes(rest);
      WalkCountConcat(Walk(cs[0]), WalkAll(rest));
      WalkSizeConcat(Walk(cs[0]), WalkAll(rest));
      if cs[0].File? {
        assert FileNodes(cs) == [cs[0]] + FileNodes(rest);
        FilesSizeConcat([cs[0]], FileNodes(rest));
        assert FilesSize([cs[0]]) == TreeSize(cs[0]) by {
          assert [cs[0]][..0] == [];
        }
      } else {
        assert FileNodes(cs) == FileNodes(rest);
      }
    }
  }

  /** `get_dir_stats`: the walk loop accumulating `total_size` and `item_count`. */
  method GetDirStats(root: Node) returns (totalSize: nat, itemCount: nat)
    ensures (totalSize, itemCount) == DirStats(root)
  {
    if !root.Dir? {
      return 0, 0;
    }
    var walk := Walk(root);
    totalSize, itemCount := 0, 1;
    var i := 0;
    while i < |walk|
      invariant 0 <= i <= |walk|
      invariant itemCount == 1 + WalkCount(walk[..i])
      invariant totalSize == WalkSize(walk[..i])
    {
      var entry := walk[i];
      assert walk[..i + 1][..i] == walk[..i];
      itemCount := itemCount + |entry.dirnames| + |entry.files|;
      var j := 0;
      var sizeBefore := totalSize;
      while j < |entry.files|
        invariant 0 <= j <= |entry.files|
        invariant totalSize == sizeBefore + FilesSize(entry.files[..j])
      {
        var f := entry.files[j];
        assert entry.files[..j + 1][..j] == entry.files[..j];
        if f.File? && !f.isLink {
          totalSize := totalSize + f.size;
        }
        j := j + 1;
      }
      assert entry.files[..j] == entry.files;
      i := i + 1;
    }
    assert walk[..i] == walk;
    WalkCountsNodes(root);
  }

  // ------------------------------------------------------------ verify_copy

  /** What the file system says about a path: missing, or present with what `os.path.getsize` reports (None when it raises) and the tree below it. */
  datatype PathState = Missing | Present(getsize: Option<nat>, tree: Node)

  /** The multi-file rule that accepts a copy, on `(size, count)` pairs. */
  predicate StatsMatch(src: (nat, nat), dst: (nat, nat)) {
    || (src.0 == dst.0 && src.1 == dst.1 && src.1 > 0)
    || (src.0 == 0 && dst.0 == 0 && src.1 == dst.1)
  }

  /** `verify_copy(src_path, dst_path, is_multi)`. */
  function VerifyCopy(srcPath: string, dstPath: string, isMulti: bool, src: PathState, dst: PathState): (r: bool)
    ensures srcPath == "" || dstPath == "" || src.Missing? || dst.Missing? ==> !r
    ensures srcPath != "" && dstPath != "" && src.Present? && dst.Present? && !isMulti ==>
              (r <==> src.getsize.Some? && dst.getsize == src.getsize)
    ensures srcPath != "" && dstPath != "" && src.Present? && dst.Present? && isMulti ==>
              (r <==> StatsMatch(DirStats(src.tree), DirStats(dst.tree)))
  {
    if srcPath == "" || dstPath == "" then false
    else if src.Missing? || dst.Missing? then false
    else if !isMulti then
      (match (src.getsize, dst.getsize)
       case (Some(s), Some(d)) => s == d
       case _ => false)
    else StatsMatch(DirStats(src.tree), DirStats(dst.tree))
  }

  /** A destination identical to its source always verifies. */
  lemma {:induction false} IdenticalCopyVerifies(srcPath: string, dstPath: string, isMulti: bool, src: PathState)
    requires srcPath != "" && dstPath != "" && src.Present?
    requires !isMulti ==> src.getsize.Some?
    ensures VerifyCopy(srcPath, dstPath, isMulti, src, src)
  {
    if isMulti && src.tree.Dir? {
      match src.tree
      case Dir(_, cs) => assert TreeCount(src.tree) == 1 + TreeCountAll(cs);
    }
  }

  /** A zero item count only comes from a non-directory, whose size is also reported as zero. */
  lemma {:induction false} DirStatsEmpty(n: Node)
    ensures DirStats(n).1 == 0 ==> DirStats(n).0 == 0
    ensures n.Dir? ==> DirStats(n).1 >= 1
  {
  }

  /**
    * On the pairs `get_dir_stats` can return, the two-branch rule accepts exactly
    * the copies whose size and item count both equal the source's.
    */
  lemma {:induction false} MultiCopyRuleIsEquality(a: Node, b: Node)
    ensures StatsMatch(DirStats(a), DirStats(b)) <==> DirStats(a) == DirStats(b)
  {
    DirStatsEmpty(a);
  }

  // ------------------------------------------------------------ cleanup_destination

  datatype Removal = NoRemoval | RemoveTree | RemoveFile

  /** What `cleanup_destination` removes: nothing in a dry run, a directory tree, a file, or nothing when the path is absent. */
  function CleanupDestination(dryRun: bool, isDir: bool, isFile: bool): (r: Removal)
    ensures dryRun ==> r == NoRemoval
    ensures r == RemoveTree <==> !dryRun && isDir
    ensures r == RemoveFile <==> !dryRun && !isDir && isFile
  {
    if dryRun then NoRemoval
    else if isDir then RemoveTree
    else if isFile then RemoveFile
    else NoRemoval
  }
}
