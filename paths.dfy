/**
  * POSIX paths as the program handles them through `os.path`.  A normalised
  * absolute path, the result of `normpath(abspath(s))`, is the sequence of its
  * components; the root "/" is [].  The current directory is a parameter.
  */
module Paths {
  import opened Text

  type Path = seq<string>

  /** A component of a normalised path. */
  predicate IsName(c: string) {
    c != "" && c != "." && c != ".." && '/' !in c
  }

  predicate IsNormal(p: Path) {
    forall k :: 0 <= k < |p| ==> IsName(p[k])
  }

  predicate SlashFree(pieces: seq<string>) {
    forall k :: 0 <= k < |pieces| ==> '/' !in pieces[k]
  }

  /** Walks '/'-separated pieces from base: "" and "." stay, ".." climbs but never above the root. */
  function Normalize(base: Path, pieces: seq<string>): (r: Path)
    requires IsNormal(base) && SlashFree(pieces)
    ensures IsNormal(r)
    decreases |pieces|
  {
    if pieces == [] then base
    else
      var c := pieces[0];
      var next := if c == "" || c == "." then base
                  else if c == ".." then (if base == [] then [] else base[..|base| - 1])
                  else base + [c];
      Normalize(next, pieces[1..])
  }

  /** `normpath(abspath(s))` with current directory cwd. */
  function AbsPath(cwd: Path, s: string): Path
    requires IsNormal(cwd)
  {
    Normalize(if StartsWith(s, "/") then [] else cwd, Split(s, '/'))
  }

  /** The string of a normalised absolute path. */
  function Render(p: Path): string {
    if p == [] then "/" else "/" + Join(p, "/")
  }

  lemma {:induction false} NormalizeNames(base: Path, names: seq<string>)
    requires IsNormal(base) && IsNormal(names)
    ensures Normalize(base, names) == base + names
    decreases |names|
  {
    if names != [] {
      NormalizeNames(base + [names[0]], names[1..]);
      assert base + [names[0]] + names[1..] == base + names;
    }
  }

  lemma {:induction false} NormalizeConcat(base: Path, x: seq<string>, y: seq<string>)
    requires IsNormal(base) && SlashFree(x) && SlashFree(y)
    ensures SlashFree(x + y)
    ensures Normalize(base, x + y) == Normalize(Normalize(base, x), y)
    decreases |x|
  {
    assert SlashFree(x + y) by {
      forall k | 0 <= k < |x + y| ensures '/' !in (x + y)[k] {
        if k < |x| { assert (x + y)[k] == x[k]; } else { assert (x + y)[k] == y[k - |x|]; }
      }
    }
    if x != [] {
      assert (x + y)[1..] == x[1..] + y;
      var c := x[0];
      var next := if c == "" || c == "." then base
                  else if c == ".." then (if base == [] then [] else base[..|base| - 1])
                  else base + [c];
      NormalizeConcat(next, x[1..], y);
    } else {
      assert x + y == y;
    }
  }

  lemma {:induction false} SplitRender(p: Path)
    requires IsNormal(p) && p != []
    ensures Split(Render(p), '/') == [""] + p
  {
    SplitJoin(p, '/');
    SplitConcat("", Join(p, "/"), '/');
    assert "" + "/" + Join(p, "/") == Render(p);
  }

  /** Rendering a normalised path and reading it back gives the same path, so Render is injective. */
  lemma {:induction false} AbsPathRender(cwd: Path, p: Path)
    requires IsNormal(cwd) && IsNormal(p)
    ensures AbsPath(cwd, Render(p)) == p
  {
    if p == [] {
      assert "/"[1..] == "";
      assert Split("/", '/') == ["", ""];
      assert Normalize([], ["", ""]) == Normalize([], [""]) == Normalize([], []);
    } else {
      SplitRender(p);
      NormalizeNames([], p);
    }
  }

  lemma {:induction false} RenderInjective(p: Path, q: Path)
    requires IsNormal(p) && IsNormal(q) && Render(p) == Render(q)
    ensures p == q
  {
    AbsPathRender([], p);
    AbsPathRender([], q);
  }

  // ------------------------------------------------------------ relpath and containment

  /** Length of the longest common prefix of two paths (`commonprefix` on their components). */
  function CommonPrefixLen(a: Path, b: Path): (k: nat)
    ensures k <= |a| && k <= |b| && a[..k] == b[..k]
    ensures k < |a| && k < |b| ==> a[k] != b[k]
  {
    if a == [] || b == [] || a[0] != b[0] then 0
    else
      var k' := CommonPrefixLen(a[1..], b[1..]);
      assert a[..k' + 1] == [a[0]] + a[1..][..k'];
      assert b[..k' + 1] == [b[0]] + b[1..][..k'];
      1 + k'
  }

  lemma {:induction false} PrefixIffCommonLen(p: Path, d: Path)
    ensures d <= p <==> CommonPrefixLen(p, d) == |d|
  {
    var k := CommonPrefixLen(p, d);
    if d <= p {
      assert forall i :: 0 <= i < |d| ==> p[i] == d[i];
    }
  }

  /** The components of `relpath(p, start)`: one ".." per unshared start component, then the rest of p. */
  function RelParts(p: Path, start: Path): seq<string> {
    var k := CommonPrefixLen(p, start);
    seq(|start| - k, _ => "..") + p[k..]
  }

  /** `os.path.relpath(p, start)` on normalised absolute paths. */
  function RelPath(p: Path, start: Path): string {
    var rel := RelParts(p, start);
    if rel == [] then "." else Join(rel, "/")
  }

  /** `relpath(p, d).startswith('..')`: the test the program uses for "p is outside d". */
  predicate ReportsOutside(p: Path, d: Path) {
    StartsWith(RelPath(p, d), "..")
  }

  lemma {:induction false} JoinDotDot(parts: seq<string>)
    requires |parts| >= 1 && parts[0] != "" && '/' !in parts[0]
    ensures StartsWith(Join(parts, "/"), "..") <==> StartsWith(parts[0], "..")
  {
    var j := Join(parts, "/");
    var c := parts[0];
    if |parts| > 1 {
      assert j == c + "/" + Join(parts[1..], "/");
      if |c| == 1 {
        assert j[1] == '/';
      } else {
        assert j[..2] == c[..2];
      }
    }
  }

  /**
    * relpath(p, d) starts with ".." exactly when d is not a prefix of p, or the
    * first component of p below d itself starts with ".." (such as "..foo").
    */
  lemma {:induction false} ReportsOutsideIff(p: Path, d: Path)
    requires IsNormal(p) && IsNormal(d)
    ensures ReportsOutside(p, d) <==> !(d <= p) || (|p| > |d| && StartsWith(p[|d|], ".."))
  {
    var k := CommonPrefixLen(p, d);
    var rel := RelParts(p, d);
    PrefixIffCommonLen(p, d);
    if k < |d| {
      assert rel[0] == "..";
      JoinDotDot(rel);
    } else {
      assert rel == p[|d|..];
      if |p| > |d| {
        assert rel[0] == p[|d|];
        JoinDotDot(rel);
      }
    }
  }

  /** `_is_path_within_directory(p, d)`: equal, or relpath does not start with "..". */
  predicate Within(p: Path, d: Path) {
    p == d || !ReportsOutside(p, d)
  }

  /** Within holds iff d is a prefix of p whose next component, if any, does not start with "..". */
  lemma {:induction false} WithinIff(p: Path, d: Path)
    requires IsNormal(p) && IsNormal(d)
    ensures Within(p, d) <==> d <= p && (|p| == |d| || !StartsWith(p[|d|], ".."))
  {
    ReportsOutsideIff(p, d);
  }

  /** Every directory contains itself, and a path reported within d really lies under d. */
  lemma {:induction false} WithinReflexiveAndSound(p: Path, d: Path)
    requires IsNormal(p) && IsNormal(d)
    ensures Within(d, d)
    ensures Within(p, d) ==> d <= p
  {
    WithinIff(p, d);
  }

  /** The containment test is conservative: a child named like "..partial" is reported outside. */
  lemma {:induction false} DotDotNameReportedOutside()
    ensures IsNormal(["ssd", "..partial"]) && !Within(["ssd", "..partial"], ["ssd"])
  {
    assert IsName("..partial") by { assert "..partial"[0] != '/'; }
    WithinIff(["ssd", "..partial"], ["ssd"]);
    assert ["ssd", "..partial"][1] == "..partial";
  }

  /** `os.path.commonpath([a, b])` of two normalised absolute paths. */
  function CommonPath(a: Path, b: Path): Path {
    a[..CommonPrefixLen(a, b)]
  }

  /** `commonpath([p, d]) == d` holds exactly when p lies at or under d. */
  lemma {:induction false} CommonPathIff(p: Path, d: Path)
    ensures CommonPath(p, d) == d <==> d <= p
  {
    PrefixIffCommonLen(p, d);
  }

  // ------------------------------------------------------------ posixpath on strings

  /** `os.path.join(a, b)` */
  function PJoin(a: string, b: string): string {
    if StartsWith(b, "/") then b
    else if a == "" || EndsWith(a, "/") then a + b
    else a + "/" + b
  }

  /** Index one past the last '/', or 0 when there is none (`s.rfind('/') + 1`). */
  function SlashEnd(s: string): (i: nat)
    ensures i <= |s|
  {
    if s == [] then 0 else if s[|s| - 1] == '/' then |s| else SlashEnd(s[..|s| - 1])
  }

  predicate AllSlashes(s: string) {
    forall k :: 0 <= k < |s| ==> s[k] == '/'
  }

  /** `os.path.dirname(s)` */
  function Dirname(s: string): string {
    var head := s[..SlashEnd(s)];
    if head != "" && !AllSlashes(head) then RStripChar(head, '/') else head
  }

  /** `os.path.isabs(s)` */
  predicate IsAbs(s: string) {
    StartsWith(s, "/")
  }

  lemma {:induction false} SlashEndAfter(a: string, b: string)
    requires '/' !in b
    ensures SlashEnd(a + "/" + b) == |a| + 1
    decreases |b|
  {
    var s := a + "/" + b;
    if b == [] {
      assert s[|s| - 1] == '/';
    } else {
      assert s[|s| - 1] == b[|b| - 1];
      assert s[..|s| - 1] == a + "/" + b[..|b| - 1];
      SlashEndAfter(a, b[..|b| - 1]);
    }
  }

  lemma {:induction false} RenderSnoc(q: Path, x: string)
    requires q != []
    ensures Render(q + [x]) == Render(q) + "/" + x
  {
    JoinSnoc(q, x, "/");
  }

  lemma {:induction false} RenderLastChar(q: Path)
    requires IsNormal(q) && q != []
    ensures |Render(q)| > 1 && Render(q)[|Render(q)| - 1] != '/'
  {
    var last := q[|q| - 1];
    if |q| == 1 {
      assert Render(q) == "/" + last;
    } else {
      RenderSnoc(q[..|q| - 1], last);
      assert q[..|q| - 1] + [last] == q;
    }
    assert last[|last| - 1] in last;
  }

  /** The directory of a rendered path is the rendered parent. */
  lemma {:induction false} DirnameRender(p: Path)
    requires IsNormal(p) && p != []
    ensures Dirname(Render(p)) == Render(p[..|p| - 1])
  {
    var q, x := p[..|p| - 1], p[|p| - 1];
    assert q + [x] == p;
    if q == [] {
      assert Render(p) == "" + "/" + x;
      SlashEndAfter("", x);
      assert Render(p)[..1] == "/";
    } else {
      RenderSnoc(q, x);
      SlashEndAfter(Render(q), x);
      var head := Render(p)[..|Render(q)| + 1];
      assert head == Render(q) + "/";
      RenderLastChar(q);
      assert head[|head| - 2] != '/';
      var r := RStripChar(head, '/');
      assert |r| == |head| - 1;
      assert r == Render(q);
    }
  }

  /**
    * The link-target resolution of the link scans: a relative target is
    * joined to the link's own directory, then `normpath(abspath(...))`.
    */
  function ResolveLinkTarget(cwd: Path, link: string, target: string): Path
    requires IsNormal(cwd)
  {
    AbsPath(cwd, if IsAbs(target) then target else PJoin(Dirname(link), target))
  }

  lemma {:induction false} JoinedPiecesAtRoot(target: string)
    requires !IsAbs(target)
    ensures IsAbs(PJoin(Render([]), target))
    ensures Split(PJoin(Render([]), target), '/') == [""] + Split(target, '/')
  {
    assert PJoin(Render([]), target) == "" + "/" + target;
    SplitConcat("", target, '/');
  }

  lemma {:induction false} JoinedPiecesBelow(q: Path, target: string)
    requires IsNormal(q) && q != [] && !IsAbs(target)
    ensures IsAbs(PJoin(Render(q), target))
    ensures Split(PJoin(Render(q), target), '/') == [""] + q + Split(target, '/')
  {
    RenderLastChar(q);
    assert PJoin(Render(q), target) == Render(q) + "/" + target;
    SplitConcat(Render(q), target, '/');
    SplitRender(q);
  }

  /** A relative target of the link at p is read from p's parent directory. */
  lemma {:induction false} ResolveRelativeTarget(cwd: Path, p: Path, target: string)
    requires IsNormal(cwd) && IsNormal(p) && p != [] && !IsAbs(target)
    ensures ResolveLinkTarget(cwd, Render(p), target) == Normalize(p[..|p| - 1], Split(target, '/'))
  {
    var q := p[..|p| - 1];
    var joined := PJoin(Render(q), target);
    assert IsAbs(joined) && Split(joined, '/') == [""] + q + Split(target, '/') by {
      if q == [] {
        JoinedPiecesAtRoot(target);
      } else {
        JoinedPiecesBelow(q, target);
      }
    }
    assert ResolveLinkTarget(cwd, Render(p), target) == Normalize([], Split(joined, '/')) by {
      DirnameRender(p);
    }
    ReadFromRoot(q, Split(target, '/'));
  }

  /** Reading `/` followed by the names of q and then pieces is reading pieces from q. */
  lemma {:induction false} ReadFromRoot(q: Path, pieces: seq<string>)
    requires IsNormal(q) && SlashFree(pieces)
    ensures SlashFree([""] + q + pieces)
    ensures Normalize([], [""] + q + pieces) == Normalize(q, pieces)
  {
    assert ([""] + q)[1..] == q;
    assert SlashFree([""] + q);
    NormalizeConcat([], [""] + q, pieces);
    assert Normalize([], [""] + q) == Normalize([], q);
    NormalizeNames([], q);
    assert [] + q == q;
  }

  /** An absolute target ignores the link's location. */
  lemma {:induction false} ResolveAbsoluteTarget(cwd: Path, link: string, target: string)
    requires IsNormal(cwd) && IsAbs(target)
    ensures ResolveLinkTarget(cwd, link, target) == Normalize([], Split(target, '/'))
  {
  }
}
