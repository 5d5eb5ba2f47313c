/**
  * Symlinks and hardlinks of the dual-path mode (src/symlink_utils.py): the
  * containment test, the rebasing of SSD link targets onto the HDD copy, the
  * replacement and clean-up counters, the directory mapping of a hardlink
  * tree and the link scans.  The file system is reached only through oracle
  * parameters: `isLink` is `os.path.islink`, `readLink` is `os.readlink`
  * (None when it raises), `exists_` is `os.path.exists`, and the outcome of
  * each replacement or unlink is a parameter as well.  Walk listings and the
  * output of `find` are parameters too.
  */
module Symlinks {
  import opened Wrappers
  import opened Text
  import opened Sequences
  import opened Paths

  // ------------------------------------------------------------ joining below a base

  /** `base if rel == '.' else os.path.join(base, rel)` */
  function Rejoin(base: string, rel: string): string {
    if rel == "." then base else PJoin(base, rel)
  }

  lemma {:induction false} JoinedNotAbsolute(rest: Path)
    requires IsNormal(rest) && rest != []
    ensures !StartsWith(Join(rest, "/"), "/")
    ensures Join(rest, "/") != "."
  {
    var c := rest[0];
    assert IsName(c);
    assert c[0] in c;
    if |rest| > 1 {
      assert Join(rest, "/") == c + "/" + Join(rest[1..], "/");
      assert Join(rest, "/")[0] == c[0];
    }
  }

  /** Joining the relative components of rest onto a rendered base renders the longer path. */
  lemma {:induction false} RenderAppend(q: Path, rest: Path)
    requires IsNormal(q) && IsNormal(rest) && rest != []
    ensures PJoin(Render(q), Join(rest, "/")) == Render(q + rest)
  {
    if q == [] {
      RenderAppendRoot(rest);
      assert q + rest == rest;
    } else {
      RenderAppendBelow(q, rest);
    }
  }

  lemma {:induction false} RenderAppendRoot(rest: Path)
    requires IsNormal(rest) && rest != []
    ensures PJoin("/", Join(rest, "/")) == Render(rest)
  {
    JoinedNotAbsolute(rest);
  }

  lemma {:induction false} RenderAppendBelow(q: Path, rest: Path)
    requires IsNormal(q) && IsNormal(rest) && q != [] && rest != []
    ensures PJoin(Render(q), Join(rest, "/")) == Render(q + rest)
  {
    var a, j, jq := Render(q), Join(rest, "/"), Join(q, "/");
    assert PJoin(a, j) == a + "/" + j by {
      JoinedNotAbsolute(rest);
      RenderLastChar(q);
    }
    assert Render(q + rest) == "/" + (jq + "/" + j) by {
      JoinAppend(q, rest, "/");
    }
    assert a + "/" + j == "/" + (jq + "/" + j) by {
      assert a == "/" + jq;
    }
  }

  /** A name joined onto a rendered path renders the child. */
  lemma {:induction false} RenderChild(q: Path, name: string)
    requires IsNormal(q) && IsName(name)
    ensures PJoin(Render(q), name) == Render(q + [name])
  {
    RenderAppend(q, [name]);
  }

  /** Re-joining `relpath(p, d)` onto a new base moves p from under d to under base. */
  lemma {:induction false} RejoinBelow(base: Path, p: Path, d: Path)
    requires IsNormal(base) && IsNormal(p) && IsNormal(d) && d <= p
    ensures Rejoin(Render(base), RelPath(p, d)) == Render(base + p[|d|..])
  {
    PrefixIffCommonLen(p, d);
    var rest := p[|d|..];
    assert RelParts(p, d) == rest;
    if rest == [] {
      assert base + rest == base;
    } else {
      JoinedNotAbsolute(rest);
      RenderAppend(base, rest);
    }
  }

  // ------------------------------------------------------------ SSD -> HDD rebasing

  /**
    * The HDD counterpart of a normalised link target: None when the target is
    * reported outside the SSD path, the HDD root for the SSD root itself, and
    * `join(hdd, relpath(target, ssd))` otherwise.
    */
  function RebaseToHdd(target: Path, ssd: Path, hdd: Path): Option<string> {
    var rel := RelPath(target, ssd);
    if StartsWith(rel, "..") then None else Some(Rejoin(Render(hdd), rel))
  }

  /** A target is rebased exactly when it lies within the SSD path, and then onto the same place under the HDD path. */
  lemma {:induction false} RebaseMeaning(target: Path, ssd: Path, hdd: Path)
    requires IsNormal(target) && IsNormal(ssd) && IsNormal(hdd)
    ensures RebaseToHdd(target, ssd, hdd).Some? <==> Within(target, ssd)
    ensures Within(target, ssd) ==> ssd <= target && RebaseToHdd(target, ssd, hdd) == Some(Render(hdd + target[|ssd|..]))
    ensures RebaseToHdd(ssd, ssd, hdd) == Some(Render(hdd))
  {
    WithinIff(target, ssd);
    ReportsOutsideIff(target, ssd);
    if Within(target, ssd) {
      RejoinBelow(hdd, target, ssd);
    }
    WithinIff(ssd, ssd);
    ReportsOutsideIff(ssd, ssd);
    RejoinBelow(hdd, ssd, ssd);
    assert ssd[|ssd|..] == [];
    assert hdd + [] == hdd;
  }

  // ------------------------------------------------------------ replace_symlinks_with_hardlinks

  /** The HDD path a listed link would be re-pointed at, when it is a readable link into the SSD path. */
  function HddTargetOf(cwd: Path, ssd: Path, hdd: Path, isLink: string -> bool,
                       readLink: string -> Option<string>, link: string): Option<string>
    requires IsNormal(cwd)
  {
    if !isLink(link) then None
    else match readLink(link)
      case None => None
      case Some(t) => RebaseToHdd(ResolveLinkTarget(cwd, link, t), ssd, hdd)
  }

  /** A listed path is counted when its HDD target exists and the single replacement succeeds. */
  predicate Replaced(cwd: Path, ssd: Path, hdd: Path, isLink: string -> bool,
                     readLink: string -> Option<string>, exists_: string -> bool,
                     replaceOk: (string, string) -> bool, link: string)
    requires IsNormal(cwd)
  {
    match HddTargetOf(cwd, ssd, hdd, isLink, readLink, link)
    case None => false
    case Some(h) => exists_(h) && replaceOk(link, h)
  }

  function ReplacedUnder(cwd: Path, ssd: Path, hdd: Path, isLink: string -> bool,
                         readLink: string -> Option<string>, exists_: string -> bool,
                         replaceOk: (string, string) -> bool): string -> bool
    requires IsNormal(cwd)
  {
    (link: string) => Replaced(cwd, ssd, hdd, isLink, readLink, exists_, replaceOk, link)
  }

  /**
    * `replace_symlinks_with_hardlinks`: the number of distinct listed paths that
    * were links into the SSD path whose HDD counterpart exists and was linked.
    * The oracles describe the file system before the loop; a path already
    * replaced is a hardlink by the time it is listed again, so the re-test of
    * `os.path.islink` skips it, which the set of replaced paths stands for.
    */
  method ReplaceSymlinksWithHardlinks(cwd: Path, links: seq<string>, ssdPath: string, hddPath: string,
                                      isLink: string -> bool, readLink: string -> Option<string>,
                                      exists_: string -> bool, replaceOk: (string, string) -> bool)
    returns (replaced: nat)
    requires IsNormal(cwd)
    ensures replaced == |set l | l in links && ReplacedUnder(cwd, AbsPath(cwd, ssdPath), AbsPath(cwd, hddPath),
                                                               isLink, readLink, exists_, replaceOk)(l)|
    ensures replaced <= |links|
    ensures links == [] ==> replaced == 0
  {
    replaced := 0;
    if links == [] {
      return;
    }
    var ssd := AbsPath(cwd, ssdPath);
    var hdd := AbsPath(cwd, hddPath);
    replaced := ReplaceEach(links, ReplacedUnder(cwd, ssd, hdd, isLink, readLink, exists_, replaceOk));
  }

  /**
    * The loop over the listed paths, given whether each path's replacement
    * succeeds on the file system as it was before the loop; `done` holds the
    * paths already replaced, which are hardlinks by now and fail `islink`.
    */
  method ReplaceEach(links: seq<string>, counted: string -> bool) returns (replaced: nat)
    ensures replaced == |set l | l in links && counted(l)|
    ensures replaced <= |links|
  {
    replaced := 0;
    var done: set<string> := {};
    var i := 0;
    while i < |links|
      invariant 0 <= i <= |links|
      invariant done == set l | l in links[..i] && counted(l)
      invariant replaced == |done| <= i
    {
      var link := links[i];
      ReplacedPathsStep(links, i, counted);
      if link !in done && counted(link) {
        done := done + {link};
        replaced := replaced + 1;
      }
      i := i + 1;
    }
    assert links[..i] == links;
  }

  /** One more listed path adds it to the replaced paths exactly when it is replaced. */
  lemma {:induction false} ReplacedPathsStep(links: seq<string>, i: nat, p: string -> bool)
    requires i < |links|
    ensures (set l | l in links[..i + 1] && p(l)) == (set l | l in links[..i] && p(l)) + (if p(links[i]) then {links[i]} else {})
  {
    assert links[..i + 1] == links[..i] + [links[i]];
  }

  /** With no path listed twice, every replaced path counts once: the count over the list. */
  lemma {:induction false} DistinctLinksCountedEach(links: seq<string>, p: string -> bool)
    requires forall i, j :: 0 <= i < j < |links| ==> links[i] != links[j]
    ensures |set l | l in links && p(l)| == Count(links, p)
  {
    if links != [] {
      var init, last := links[..|links| - 1], links[|links| - 1];
      assert links == init + [last];
      assert forall i, j :: 0 <= i < j < |init| ==> init[i] != init[j] by {
        forall i, j | 0 <= i < j < |init| ensures init[i] != init[j] {
          assert init[i] == links[i] && init[j] == links[j];
        }
      }
      DistinctLinksCountedEach(init, p);
      CountSnoc(init, last, p);
      assert last !in init by {
        forall k | 0 <= k < |init| ensures init[k] != last {
          assert links[k] == init[k];
        }
      }
      var before := set l | l in init && p(l);
      assert last !in before;
      var after := set l | l in links && p(l);
      if p(last) {
        assert after == before + {last};
      } else {
        assert after == before;
      }
    }
  }

  /** A path listed twice is replaced once. */
  lemma {:induction false} RepeatedLinkReplacedOnce(link: string, p: string -> bool)
    requires p(link)
    ensures |set l | l in [link, link] && p(l)| == 1
    ensures Count([link, link], p) == 2
  {
    assert (set l | l in [link, link] && p(l)) == {link};
    assert Filter([link, link], p) == [link, link];
  }

  /**
    * What the count counts: a path is replaced iff it is a readable link whose
    * resolved target lies within the SSD path, the same place under the HDD
    * path exists, and the replacement by that HDD path succeeds.
    */
  lemma {:induction false} ReplacedMeaning(cwd: Path, ssd: Path, hdd: Path, isLink: string -> bool,
                        readLink: string -> Option<string>, exists_: string -> bool,
                        replaceOk: (string, string) -> bool, link: string)
    requires IsNormal(cwd) && IsNormal(ssd) && IsNormal(hdd)
    ensures Replaced(cwd, ssd, hdd, isLink, readLink, exists_, replaceOk, link) <==>
      isLink(link) && readLink(link).Some? &&
      var target := ResolveLinkTarget(cwd, link, readLink(link).value);
      Within(target, ssd) && |ssd| <= |target| &&
      var h := Render(hdd + target[|ssd|..]);
      exists_(h) && replaceOk(link, h)
  {
    if isLink(link) && readLink(link).Some? {
      RebaseMeaning(ResolveLinkTarget(cwd, link, readLink(link).value), ssd, hdd);
    }
  }

  // ------------------------------------------------------------ _create_hardlink_directory_tree

  /** The directory of the new tree for a walked root: `target_dir` for the source root, else `join(target_dir, rel)`. */
  function TreeTargetRoot(sourceDir: Path, root: Path, targetDir: string): string {
    Rejoin(targetDir, RelPath(root, sourceDir))
  }

  /**
    * The tree mirrors the source: the walked root `sourceDir + sub` maps to
    * `target + sub`, and each of its files f is linked from `root/f` to
    * `target + sub + [f]`.
    */
  lemma {:induction false} TreeMirrorsSource(sourceDir: Path, sub: Path, target: Path, f: string)
    requires IsNormal(sourceDir) && IsNormal(sub) && IsNormal(target) && IsName(f)
    ensures TreeTargetRoot(sourceDir, sourceDir + sub, Render(target)) == Render(target + sub)
    ensures PJoin(Render(sourceDir + sub), f) == Render(sourceDir + sub + [f])
    ensures PJoin(TreeTargetRoot(sourceDir, sourceDir + sub, Render(target)), f) == Render(target + sub + [f])
  {
    var root := sourceDir + sub;
    assert root[|sourceDir|..] == sub;
    RejoinBelow(target, root, sourceDir);
    RenderChild(root, f);
    RenderChild(target + sub, f);
  }

  // ------------------------------------------------------------ walk listings

  /** One step of `os.walk`: the root as printed and the names of its sub-directories and files. */
  datatype WalkStep = WalkStep(root: string, dirs: seq<string>, files: seq<string>)

  /** `[os.path.join(root, n) for n in names]` */
  function JoinedNames(root: string, names: seq<string>): (r: seq<string>)
    ensures |r| == |names|
    ensures forall k :: 0 <= k < |names| ==> r[k] == PJoin(root, names[k])
  {
    seq(|names|, k requires 0 <= k < |names| => PJoin(root, names[k]))
  }

  /** The paths one walk step visits: its files first, then its directories. */
  function StepPaths(s: WalkStep): seq<string> {
    JoinedNames(s.root, s.files) + JoinedNames(s.root, s.dirs)
  }

  /** Every path the walk visits, in walk order. */
  function WalkPaths(steps: seq<WalkStep>): seq<string> {
    if steps == [] then [] else WalkPaths(steps[..|steps| - 1]) + StepPaths(steps[|steps| - 1])
  }

  // ------------------------------------------------------------ cleanup_broken_symlinks

  /** A dangling link that was unlinked without error. */
  predicate RemovedBroken(isLink: string -> bool, exists_: string -> bool, unlinkOk: string -> bool, p: string) {
    isLink(p) && !exists_(p) && unlinkOk(p)
  }

  function RemovedUnder(isLink: string -> bool, exists_: string -> bool, unlinkOk: string -> bool): string -> bool {
    (p: string) => RemovedBroken(isLink, exists_, unlinkOk, p)
  }

  /** The inner loops over one list of joined names. */
  method RemoveBrokenAmong(paths: seq<string>, isLink: string -> bool, exists_: string -> bool,
                           unlinkOk: string -> bool) returns (removed: nat)
    ensures removed == Count(paths, RemovedUnder(isLink, exists_, unlinkOk))
  {
    removed := 0;
    ghost var counted := RemovedUnder(isLink, exists_, unlinkOk);
    var i := 0;
    while i < |paths|
      invariant 0 <= i <= |paths|
      invariant removed == Count(paths[..i], counted)
    {
      var p := paths[i];
      CountSnoc(paths[..i], p, counted);
      assert paths[..i + 1] == paths[..i] + [p];
      if isLink(p) && !exists_(p) && unlinkOk(p) {
        removed := removed + 1;
      }
      i := i + 1;
    }
    assert paths[..i] == paths;
  }

  /**
    * `cleanup_broken_symlinks`: over the walk, files before directories in
    * each step, the number of dangling links that were unlinked.
    */
  method CleanupBrokenSymlinks(steps: seq<WalkStep>, isLink: string -> bool, exists_: string -> bool,
                               unlinkOk: string -> bool) returns (removed: nat)
    ensures removed == Count(WalkPaths(steps), RemovedUnder(isLink, exists_, unlinkOk))
    ensures removed <= |WalkPaths(steps)|
  {
    removed := 0;
    ghost var counted := RemovedUnder(isLink, exists_, unlinkOk);
    var i := 0;
    while i < |steps|
      invariant 0 <= i <= |steps|
      invariant removed == Count(WalkPaths(steps[..i]), counted)
    {
      var s := steps[i];
      var fromFiles := RemoveBrokenAmong(JoinedNames(s.root, s.files), isLink, exists_, unlinkOk);
      var fromDirs := RemoveBrokenAmong(JoinedNames(s.root, s.dirs), isLink, exists_, unlinkOk);
      assert steps[..i + 1][..i] == steps[..i];
      FilterConcat(JoinedNames(s.root, s.files), JoinedNames(s.root, s.dirs), counted);
      FilterConcat(WalkPaths(steps[..i]), StepPaths(s), counted);
      removed := removed + fromFiles + fromDirs;
      i := i + 1;
    }
    assert steps[..i] == steps;
  }

  /** A path is counted only if it is a dangling link; a live link or a plain file never is. */
  lemma {:induction false} CleanupCountsOnlyBroken(steps: seq<WalkStep>, isLink: string -> bool, exists_: string -> bool,
                                unlinkOk: string -> bool)
    ensures forall p :: p in Filter(WalkPaths(steps), RemovedUnder(isLink, exists_, unlinkOk)) ==>
      p in WalkPaths(steps) && isLink(p) && !exists_(p)
    ensures (forall p :: p in WalkPaths(steps) ==> unlinkOk(p) && (isLink(p) && !exists_(p))) ==>
      Count(WalkPaths(steps), RemovedUnder(isLink, exists_, unlinkOk)) == |WalkPaths(steps)|
  {
    var ps := WalkPaths(steps);
    var kept := Filter(ps, RemovedUnder(isLink, exists_, unlinkOk));
    forall p | p in kept
      ensures p in ps && isLink(p) && !exists_(p)
    {
      var i :| 0 <= i < |kept| && kept[i] == p;
    }
    if forall p :: p in ps ==> unlinkOk(p) && (isLink(p) && !exists_(p)) {
      FilterAll(ps, RemovedUnder(isLink, exists_, unlinkOk));
    }
  }

  // ------------------------------------------------------------ link scans

  /** The link points into the SSD path: its target, resolved from the link's directory, is within it. */
  predicate LinksInto(cwd: Path, ssd: Path, readLink: string -> Option<string>, p: string)
    requires IsNormal(cwd)
  {
    match readLink(p)
    case None => false
    case Some(t) => Within(ResolveLinkTarget(cwd, p, t), ssd)
  }

  /** `find_links_to_ssd_path`, a symlink line: non-empty, a link, and pointing into the SSD path. */
  function SymlinkHit(cwd: Path, ssd: Path, isLink: string -> bool, readLink: string -> Option<string>): string -> bool
    requires IsNormal(cwd)
  {
    (p: string) => p != "" && isLink(p) && LinksInto(cwd, ssd, readLink, p)
  }

  /** `find_links_to_ssd_path`, a hardlink line: a regular file that is not a link and shares an inode with a file under the HDD path. */
  function HardlinkHit(hdd: Path, isLink: string -> bool, isFile: string -> bool,
                       hardlinkToHdd: (string, Path) -> bool): string -> bool
  {
    (p: string) => p != "" && !isLink(p) && isFile(p) && hardlinkToHdd(p, hdd)
  }

  /** The lines `find` printed for a search directory: none when the directory is missing or find fails. */
  function FoundLines(exists_: string -> bool, find: string -> Option<string>): string -> seq<string> {
    (dir: string) =>
      if !exists_(dir) then []
      else match find(dir)
        case None => []
        case Some(out) => Split(Strip(out), '\n')
  }

  /** Everything listed, search directory after search directory. */
  function Listed(dirs: seq<string>, listing: string -> seq<string>): seq<string> {
    if dirs == [] then [] else Listed(dirs[..|dirs| - 1], listing) + listing(dirs[|dirs| - 1])
  }

  /** The per-line checks over the lines of one search directory. */
  method ScanLines(lines: seq<string>, symHit: string -> bool, hardHit: string -> bool)
    returns (symlinks: seq<string>, hardlinks: seq<string>)
    ensures symlinks == Filter(lines, symHit) && hardlinks == Filter(lines, hardHit)
  {
    symlinks, hardlinks := [], [];
    var i := |lines|;
    while i > 0
      invariant 0 <= i <= |lines|
      invariant symlinks == Filter(lines[i..], symHit) && hardlinks == Filter(lines[i..], hardHit)
    {
      i := i - 1;
      assert lines[i..][1..] == lines[i + 1..];
      if symHit(lines[i]) {
        symlinks := [lines[i]] + symlinks;
      }
      if hardHit(lines[i]) {
        hardlinks := [lines[i]] + hardlinks;
      }
    }
    assert lines[0..] == lines;
  }

  /**
    * `find_links_to_ssd_path`: the symlinks into the SSD path and the
    * hardlinks to HDD files among the lines `find` lists, in listing order.
    * `hardlinkToHdd` is `_is_hardlink_to_hdd_path`.
    */
  method FindLinksToSsdPath(cwd: Path, ssdPath: string, hddPath: string, searchDirs: seq<string>,
                            exists_: string -> bool, find: string -> Option<string>,
                            isLink: string -> bool, readLink: string -> Option<string>,
                            isFile: string -> bool, hardlinkToHdd: (string, Path) -> bool)
    returns (symlinks: seq<string>, hardlinks: seq<string>)
    requires IsNormal(cwd)
    ensures symlinks == Filter(Listed(searchDirs, FoundLines(exists_, find)),
                               SymlinkHit(cwd, AbsPath(cwd, ssdPath), isLink, readLink))
    ensures hardlinks == Filter(Listed(searchDirs, FoundLines(exists_, find)),
                                HardlinkHit(AbsPath(cwd, hddPath), isLink, isFile, hardlinkToHdd))
    ensures searchDirs == [] ==> symlinks == [] && hardlinks == []
  {
    symlinks, hardlinks := [], [];
    if searchDirs == [] {
      return;
    }
    var ssd := AbsPath(cwd, ssdPath);
    var hdd := AbsPath(cwd, hddPath);
    var symHit := SymlinkHit(cwd, ssd, isLink, readLink);
    var hardHit := HardlinkHit(hdd, isLink, isFile, hardlinkToHdd);
    var listing := FoundLines(exists_, find);
    var i := 0;
    while i < |searchDirs|
      invariant 0 <= i <= |searchDirs|
      invariant symlinks == Filter(Listed(searchDirs[..i], listing), symHit)
      invariant hardlinks == Filter(Listed(searchDirs[..i], listing), hardHit)
    {
      var lines := listing(searchDirs[i]);
      var s, h := ScanLines(lines, symHit, hardHit);
      assert searchDirs[..i + 1][..i] == searchDirs[..i];
      FilterConcat(Listed(searchDirs[..i], listing), lines, symHit);
      FilterConcat(Listed(searchDirs[..i], listing), lines, hardHit);
      symlinks, hardlinks := symlinks + s, hardlinks + h;
      i := i + 1;
    }
    assert searchDirs[..i] == searchDirs;
  }

  /** `find_symlinks_to_ssd_path`: `find -type l` lines whose link target lies within the SSD path. */
  function LinkLineHit(cwd: Path, ssd: Path, readLink: string -> Option<string>): string -> bool
    requires IsNormal(cwd)
  {
    (p: string) => p != "" && LinksInto(cwd, ssd, readLink, p)
  }

  method FindSymlinksToSsdPath(cwd: Path, ssdPath: string, searchDirs: seq<string>,
                               exists_: string -> bool, findLinks: string -> Option<string>,
                               readLink: string -> Option<string>)
    returns (symlinks: seq<string>)
    requires IsNormal(cwd)
    ensures symlinks == Filter(Listed(searchDirs, FoundLines(exists_, findLinks)),
                               LinkLineHit(cwd, AbsPath(cwd, ssdPath), readLink))
    ensures searchDirs == [] ==> symlinks == []
  {
    symlinks := [];
    if searchDirs == [] {
      return;
    }
    var hit := LinkLineHit(cwd, AbsPath(cwd, ssdPath), readLink);
    var listing := FoundLines(exists_, findLinks);
    var i := 0;
    while i < |searchDirs|
      invariant 0 <= i <= |searchDirs|
      invariant symlinks == Filter(Listed(searchDirs[..i], listing), hit)
    {
      var lines := listing(searchDirs[i]);
      var s, _ := ScanLines(lines, hit, (p: string) => false);
      assert searchDirs[..i + 1][..i] == searchDirs[..i];
      FilterConcat(Listed(searchDirs[..i], listing), lines, hit);
      symlinks := symlinks + s;
      i := i + 1;
    }
    assert searchDirs[..i] == searchDirs;
  }

  /** The fallback scan's test: a walked path that is a link into the SSD path. */
  function WalkedLinkHit(cwd: Path, ssd: Path, isLink: string -> bool, readLink: string -> Option<string>): string -> bool
    requires IsNormal(cwd)
  {
    (p: string) => isLink(p) && LinksInto(cwd, ssd, readLink, p)
  }

  /** The paths walked below an existing search directory; none for a missing one. */
  function WalkedLines(exists_: string -> bool, walk: string -> seq<WalkStep>): string -> seq<string> {
    (dir: string) => if exists_(dir) then WalkPaths(walk(dir)) else []
  }

  /**
    * `find_symlinks_to_ssd_path_python`: the same rule over an `os.walk`
    * listing, files before directories in each step.  Symlinked directories
    * are not descended into by the walk, so removing them from `dirs`
    * changes no listing.
    */
  method FindSymlinksToSsdPathPython(cwd: Path, ssdPath: string, searchDirs: seq<string>,
                                     exists_: string -> bool, walk: string -> seq<WalkStep>,
                                     isLink: string -> bool, readLink: string -> Option<string>)
    returns (symlinks: seq<string>)
    requires IsNormal(cwd)
    ensures symlinks == Filter(Listed(searchDirs, WalkedLines(exists_, walk)),
                               WalkedLinkHit(cwd, AbsPath(cwd, ssdPath), isLink, readLink))
    ensures searchDirs == [] ==> symlinks == []
  {
    symlinks := [];
    if searchDirs == [] {
      return;
    }
    var hit := WalkedLinkHit(cwd, AbsPath(cwd, ssdPath), isLink, readLink);
    var listing := WalkedLines(exists_, walk);
    var i := 0;
    while i < |searchDirs|
      invariant 0 <= i <= |searchDirs|
      invariant symlinks == Filter(Listed(searchDirs[..i], listing), hit)
    {
      var lines := listing(searchDirs[i]);
      var s, _ := ScanLines(lines, hit, (p: string) => false);
      assert searchDirs[..i + 1][..i] == searchDirs[..i];
      FilterConcat(Listed(searchDirs[..i], listing), lines, hit);
      symlinks := symlinks + s;
      i := i + 1;
    }
    assert searchDirs[..i] == searchDirs;
  }

  /**
    * Every reported symlink is a listed line, is a link, and its target,
    * resolved from the link's own directory when relative, is within the SSD
    * path.  For a link at the normalised path p with a relative target t, the
    * resolved target is t's pieces walked from p's parent.
    */
  lemma {:induction false} ReportedSymlinksPointIntoSsd(cwd: Path, ssd: Path, lines: seq<string>,
                                     isLink: string -> bool, readLink: string -> Option<string>)
    requires IsNormal(cwd)
    ensures forall q :: q in Filter(lines, SymlinkHit(cwd, ssd, isLink, readLink)) ==>
      q in lines && isLink(q) && readLink(q).Some? &&
      Within(ResolveLinkTarget(cwd, q, readLink(q).value), ssd)
  {
    var kept := Filter(lines, SymlinkHit(cwd, ssd, isLink, readLink));
    forall q | q in kept
      ensures q in lines && isLink(q) && readLink(q).Some? &&
              Within(ResolveLinkTarget(cwd, q, readLink(q).value), ssd)
    {
      var i :| 0 <= i < |kept| && kept[i] == q;
    }
  }

  /** A relative target is read from the link's own directory; an absolute one ignores it. */
  lemma {:induction false} LinkTargetResolution(cwd: Path, ssd: Path, readLink: string -> Option<string>, p: Path)
    requires IsNormal(cwd) && IsNormal(p) && p != [] && readLink(Render(p)).Some?
    ensures var t := readLink(Render(p)).value;
      LinksInto(cwd, ssd, readLink, Render(p)) <==>
        Within(if IsAbs(t) then Normalize([], Split(t, '/')) else Normalize(p[..|p| - 1], Split(t, '/')), ssd)
  {
    var t := readLink(Render(p)).value;
    if IsAbs(t) {
      ResolveAbsoluteTarget(cwd, Render(p), t);
    } else {
      ResolveRelativeTarget(cwd, p, t);
    }
  }
}
