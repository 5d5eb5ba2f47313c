/**
  * Plex streaming checks through Tautulli (tautulli.py): translating local
  * paths to the paths the Plex container sees, deciding whether two paths refer
  * to the same file, and finding which local files are being streamed.  The
  * Tautulli HTTP call is an oracle; the working directory is a parameter.
  */
module Tautulli {
  import opened Wrappers
  import opened Text
  import opened Sequences
  import opened Paths

  // ------------------------------------------------------------ convert_local_path_to_plex_path

  /** A `PLEX_PATH_MAPPINGS` entry: a local mount and the Plex mount it corresponds to. */
  datatype Mapping = Mapping(localMount: string, plexMount: string)

  /** `s.replace('\\', '/')` */
  function Slashed(s: string): (r: string)
    ensures |r| == |s| && '\\' !in r
    ensures forall i :: 0 <= i < |s| ==> r[i] == (if s[i] == '\\' then '/' else s[i])
  {
    seq(|s|, i requires 0 <= i < |s| => if s[i] == '\\' then '/' else s[i])
  }

  /** The sort order of the mappings: longest local mount first, ties in insertion order. */
  predicate LongerMount(a: Mapping, b: Mapping) {
    |a.localMount| >= |b.localMount|
  }

  function ByMountLength(mappings: seq<Mapping>): seq<Mapping> {
    SortBy(mappings, LongerMount)
  }

  /** The Plex path through one mapping, or None when the path is outside its local mount. */
  function ThroughMount(cwd: Path, local: Path, m: Mapping): Option<string>
    requires IsNormal(cwd)
  {
    var rel := RelPath(local, AbsPath(cwd, m.localMount));
    if StartsWith(rel, "..") then None
    else Some(Slashed(if rel == "." then m.plexMount else PJoin(m.plexMount, rel)))
  }

  /** What each mapping, in the order given, makes of the path. */
  function Translations(cwd: Path, local: Path, ms: seq<Mapping>): (r: seq<Option<string>>)
    requires IsNormal(cwd)
    ensures |r| == |ms| && forall j :: 0 <= j < |ms| ==> r[j] == ThroughMount(cwd, local, ms[j])
  {
    seq(|ms|, j requires 0 <= j < |ms| => ThroughMount(cwd, local, ms[j]))
  }

  /** The index of the first translation there is. */
  function FirstSome(xs: seq<Option<string>>): (r: Option<nat>)
    ensures r.Some? ==> r.value < |xs| && xs[r.value].Some?
    ensures r.Some? ==> forall j :: 0 <= j < r.value ==> xs[j].None?
    ensures r.None? ==> forall j :: 0 <= j < |xs| ==> xs[j].None?
  {
    if xs == [] then None
    else if xs[0].Some? then Some(0)
    else match FirstSome(xs[1..]) case None => None case Some(k) => Some(k + 1)
  }

  lemma {:induction false} FirstSomeIs(xs: seq<Option<string>>, i: nat)
    requires i < |xs| && xs[i].Some? && forall j :: 0 <= j < i ==> xs[j].None?
    ensures FirstSome(xs) == Some(i)
  {
  }

  lemma {:induction false} FirstSomeNone(xs: seq<Option<string>>)
    requires forall j :: 0 <= j < |xs| ==> xs[j].None?
    ensures FirstSome(xs) == None
  {
    if xs != [] {
      FirstSomeNone(xs[1..]);
    }
  }

  /** The first mapping that accepts the path decides the translation; none accepting leaves it alone. */
  lemma {:induction false} FirstTranslation(cwd: Path, local: Path, ms: seq<Mapping>, i: nat)
    requires IsNormal(cwd) && i <= |ms|
    requires forall j :: 0 <= j < i ==> ThroughMount(cwd, local, ms[j]).None?
    ensures i < |ms| && ThroughMount(cwd, local, ms[i]).Some? ==>
              FirstSome(Translations(cwd, local, ms)) == Some(i) && Translations(cwd, local, ms)[i] == ThroughMount(cwd, local, ms[i])
    ensures i == |ms| ==> FirstSome(Translations(cwd, local, ms)) == None
  {
    var ts := Translations(cwd, local, ms);
    assert forall j :: 0 <= j < i ==> ts[j].None?;
    if i < |ms| && ThroughMount(cwd, local, ms[i]).Some? {
      FirstSomeIs(ts, i);
    }
  }

  /** What `convert_local_path_to_plex_path` returns. */
  function PlexPathOf(cwd: Path, mappings: seq<Mapping>, local: string): string
    requires IsNormal(cwd)
  {
    var ts := Translations(cwd, AbsPath(cwd, local), ByMountLength(mappings));
    match FirstSome(ts)
    case None => local
    case Some(k) => ts[k].value
  }

  /** `convert_local_path_to_plex_path(local_path)`: the mappings longest mount first, then the loop over them. */
  method ConvertLocalPathToPlexPath(cwd: Path, mappings: seq<Mapping>, local: string) returns (plex: string)
    requires IsNormal(cwd)
    ensures plex == PlexPathOf(cwd, mappings, local)
  {
    var order := ByMountLength(mappings);
    var found := FirstMount(cwd, AbsPath(cwd, local), order);
    plex := if found.Some? then found.value else local;
  }

  /** The mapping loop with its early return: the first translation any mapping gives, in order. */
  method FirstMount(cwd: Path, absLocal: Path, order: seq<Mapping>) returns (r: Option<string>)
    requires IsNormal(cwd)
    ensures var ts := Translations(cwd, absLocal, order);
      match FirstSome(ts)
      case None => r.None?
      case Some(k) => r == ts[k]
  {
    var through := (m: Mapping) => ThroughMount(cwd, absLocal, m);
    assert Translations(cwd, absLocal, order) == Applied(through, order);
    r := FirstAccepted(through, order);
  }

  /** What f makes of each mapping, in order. */
  ghost function Applied(f: Mapping -> Option<string>, ms: seq<Mapping>): (r: seq<Option<string>>)
    ensures |r| == |ms| && forall j :: 0 <= j < |ms| ==> r[j] == f(ms[j])
  {
    seq(|ms|, j requires 0 <= j < |ms| => f(ms[j]))
  }

  /** The loop itself, for any translation: it returns the first one that exists. */
  method FirstAccepted(f: Mapping -> Option<string>, order: seq<Mapping>) returns (r: Option<string>)
    ensures match FirstSome(Applied(f, order))
      case None => r.None?
      case Some(k) => r == f(order[k])
  {
    ghost var ts := Applied(f, order);
    var i := 0;
    while i < |order|
      invariant 0 <= i <= |order|
      invariant forall j :: 0 <= j < i ==> ts[j].None?
    {
      var mapped := f(order[i]);
      if mapped.Some? {
        FirstSomeIs(ts, i);
        return mapped;
      }
      i := i + 1;
    }
    FirstSomeNone(ts);
    r := None;
  }

  /** The mappings are tried longest local mount first, keeping every mapping. */
  lemma {:induction false} MountOrder(mappings: seq<Mapping>)
    ensures var order := ByMountLength(mappings);
            && multiset(order) == multiset(mappings)
            && (forall i, j :: 0 <= i < j < |order| ==> |order[i].localMount| >= |order[j].localMount|)
  {
    SortByPermutes(mappings, LongerMount);
    SortBySorted(mappings, LongerMount);
  }

  /**
    * The mapping used is the first, longest mount first, whose mount contains
    * the path; with no containing mount the path is returned unchanged.
    */
  lemma {:induction false} MostSpecificMountWins(cwd: Path, mappings: seq<Mapping>, local: string, k: nat)
    requires IsNormal(cwd)
    ensures var order := ByMountLength(mappings);
            var p := AbsPath(cwd, local);
            && ((forall j :: 0 <= j < |order| ==> ThroughMount(cwd, p, order[j]).None?) ==> PlexPathOf(cwd, mappings, local) == local)
            && (k < |order| && ThroughMount(cwd, p, order[k]).Some? && (forall j :: 0 <= j < k ==> ThroughMount(cwd, p, order[j]).None?) ==>
                  PlexPathOf(cwd, mappings, local) == ThroughMount(cwd, p, order[k]).value)
  {
    var order := ByMountLength(mappings);
    var p := AbsPath(cwd, local);
    if k < |order| && ThroughMount(cwd, p, order[k]).Some? && (forall j :: 0 <= j < k ==> ThroughMount(cwd, p, order[j]).None?) {
      FirstTranslation(cwd, p, order, k);
    }
    if forall j :: 0 <= j < |order| ==> ThroughMount(cwd, p, order[j]).None? {
      FirstTranslation(cwd, p, order, |order|);
    }
  }

  /** A mount's directory itself maps to the Plex mount, and a mapped path lies within the local mount. */
  lemma {:induction false} ThroughMountMeaning(cwd: Path, local: Path, m: Mapping)
    requires IsNormal(cwd) && IsNormal(local)
    ensures local == AbsPath(cwd, m.localMount) ==> ThroughMount(cwd, local, m) == Some(Slashed(m.plexMount))
    ensures ThroughMount(cwd, local, m).Some? <==> Within(local, AbsPath(cwd, m.localMount))
  {
    var mount := AbsPath(cwd, m.localMount);
    if local == mount {
      assert RelParts(local, mount) == [];
    }
  }

  // ------------------------------------------------------------ paths_refer_to_same_file_with_mapping

  /** `normpath(s).replace('\\', '/')`, the path resolved against the working directory. */
  function NormalPathString(cwd: Path, s: string): string
    requires IsNormal(cwd)
  {
    Slashed(Render(AbsPath(cwd, s)))
  }

  /** `paths_refer_to_same_file_with_mapping(local_path, plex_path)` */
  function SameFile(cwd: Path, mappings: seq<Mapping>, local: string, plex: string): bool
    requires IsNormal(cwd)
  {
    var mapped := NormalPathString(cwd, PlexPathOf(cwd, mappings, local));
    var other := NormalPathString(cwd, plex);
    mapped == other
    || !ReportsOutside(AbsPath(cwd, other), AbsPath(cwd, mapped))
    || !ReportsOutside(AbsPath(cwd, mapped), AbsPath(cwd, other))
  }

  lemma {:induction false} RelPathSelf(p: Path)
    ensures RelPath(p, p) == "."
  {
    assert RelParts(p, p) == [];
  }

  /** Two paths refer to the same file exactly when one of them lies within the other (the mapped path first). */
  lemma {:induction false} SameFileIff(cwd: Path, mappings: seq<Mapping>, local: string, plex: string)
    requires IsNormal(cwd)
    ensures var m := AbsPath(cwd, NormalPathString(cwd, PlexPathOf(cwd, mappings, local)));
            var p := AbsPath(cwd, NormalPathString(cwd, plex));
            SameFile(cwd, mappings, local, plex) <==> Within(p, m) || Within(m, p)
  {
    var m := AbsPath(cwd, NormalPathString(cwd, PlexPathOf(cwd, mappings, local)));
    RelPathSelf(m);
  }

  /** Containment in either direction means one path is a prefix of the other. */
  lemma {:induction false} SameFileMeansNested(cwd: Path, mappings: seq<Mapping>, local: string, plex: string)
    requires IsNormal(cwd) && SameFile(cwd, mappings, local, plex)
    ensures var m := AbsPath(cwd, NormalPathString(cwd, PlexPathOf(cwd, mappings, local)));
            var p := AbsPath(cwd, NormalPathString(cwd, plex));
            m <= p || p <= m
  {
    var m := AbsPath(cwd, NormalPathString(cwd, PlexPathOf(cwd, mappings, local)));
    var p := AbsPath(cwd, NormalPathString(cwd, plex));
    SameFileIff(cwd, mappings, local, plex);
    WithinReflexiveAndSound(p, m);
    WithinReflexiveAndSound(m, p);
  }

  // ------------------------------------------------------------ get_currently_streaming_files

  /** One Tautulli activity session; a missing `file` or `state` is "". */
  datatype Session = Session(file: string, state: string)

  /** The answer to `get_activity`: the request failed, or `response.result` and `response.data.sessions`. */
  datatype Activity = RequestFailed | Answer(result: string, sessions: seq<Session>)

  predicate ActiveSession(s: Session) {
    s.file != "" && (s.state == "playing" || s.state == "paused" || s.state == "buffering")
  }

  function FilesOf(ss: seq<Session>): (r: seq<string>)
    ensures |r| == |ss| && forall i :: 0 <= i < |ss| ==> r[i] == ss[i].file
  {
    if ss == [] then [] else FilesOf(ss[..|ss| - 1]) + [ss[|ss| - 1].file]
  }

  lemma {:induction false} FilesOfSnoc(ss: seq<Session>, s: Session)
    ensures FilesOf(ss + [s]) == FilesOf(ss) + [s.file]
  {
    assert (ss + [s])[..|ss|] == ss;
  }

  /** One more session adds its file exactly when it is active. */
  lemma {:induction false} ActiveFilesSnoc(ss: seq<Session>, s: Session)
    ensures FilesOf(Filter(ss + [s], ActiveSession)) == FilesOf(Filter(ss, ActiveSession)) + (if ActiveSession(s) then [s.file] else [])
  {
    FilterConcat(ss, [s], ActiveSession);
    if ActiveSession(s) {
      assert Filter([s], ActiveSession) == [s];
      FilesOfSnoc(Filter(ss, ActiveSession), s);
    } else {
      assert Filter([s], ActiveSession) == [];
      assert Filter(ss, ActiveSession) + [] == Filter(ss, ActiveSession);
    }
  }

  lemma {:induction false} ActiveFilesStep(ss: seq<Session>, i: nat)
    requires i < |ss|
    ensures FilesOf(Filter(ss[..i + 1], ActiveSession)) == FilesOf(Filter(ss[..i], ActiveSession)) + (if ActiveSession(ss[i]) then [ss[i].file] else [])
  {
    assert ss[..i + 1] == ss[..i] + [ss[i]];
    ActiveFilesSnoc(ss[..i], ss[i]);
  }

  /** The streamed files Tautulli reports: the active sessions' files, in session order. */
  function StreamedFiles(url: string, apiKey: string, activity: Activity): seq<string> {
    if url == "" || apiKey == "" then []
    else if activity.RequestFailed? || activity.result != "success" then []
    else FilesOf(Filter(activity.sessions, ActiveSession))
  }

  /** The session loop: the files of the active sessions, in order. */
  method ActiveFiles(sessions: seq<Session>) returns (files: seq<string>)
    ensures files == FilesOf(Filter(sessions, ActiveSession))
  {
    files := [];
    var i := 0;
    while i < |sessions|
      invariant 0 <= i <= |sessions|
      invariant files == FilesOf(Filter(sessions[..i], ActiveSession))
    {
      var s := sessions[i];
      ActiveFilesStep(sessions, i);
      if s.file != "" && (s.state == "playing" || s.state == "paused" || s.state == "buffering") {
        files := files + [s.file];
      }
      i := i + 1;
    }
    assert sessions[..i] == sessions;
  }

  /**
    * `get_currently_streaming_files(tautulli_url, tautulli_api_key)`; `fetch`
    * answers the activity request made to its URL.
    */
  method GetCurrentlyStreamingFiles(url: string, apiKey: string, fetch: string -> Activity)
    returns (files: seq<string>, requested: Option<string>)
    ensures files == StreamedFiles(url, apiKey, fetch(RStripChar(url, '/') + "/api/v2"))
    ensures requested.Some? <==> url != "" && apiKey != ""
    ensures requested.Some? ==> requested.value == RStripChar(url, '/') + "/api/v2"
  {
    if url == "" || apiKey == "" {
      return [], None;
    }
    var endpoint := RStripChar(url, '/') + "/api/v2";
    requested := Some(endpoint);
    var activity := fetch(endpoint);
    if activity.RequestFailed? || activity.result != "success" {
      return [], requested;
    }
    files := ActiveFiles(activity.sessions);
  }

  /** A file is reported as streamed exactly when some active session plays it. */
  lemma {:induction false} StreamedFilesMeaning(sessions: seq<Session>, f: string)
    ensures f in FilesOf(Filter(sessions, ActiveSession)) <==> exists s :: s in sessions && ActiveSession(s) && s.file == f
  {
    var active := Filter(sessions, ActiveSession);
    if f in FilesOf(active) {
      var i :| 0 <= i < |active| && FilesOf(active)[i] == f;
      assert active[i] in sessions && ActiveSession(active[i]);
    }
    if exists s :: s in sessions && ActiveSession(s) && s.file == f {
      var s :| s in sessions && ActiveSession(s) && s.file == f;
      var k :| 0 <= k < |sessions| && sessions[k] == s;
      assert s in active;
      var j :| 0 <= j < |active| && active[j] == s;
      assert FilesOf(active)[j] == f;
    }
  }

  // ------------------------------------------------------------ is_file_currently_streaming

  /** The same-file test under the configured mappings. */
  function SameFileUnder(cwd: Path, mappings: seq<Mapping>): (string, string) -> bool
    requires IsNormal(cwd)
  {
    (local: string, plex: string) => SameFile(cwd, mappings, local, plex)
  }

  /** Some streamed file passes the same-file test against local file f. */
  predicate StreamedAmong(same: (string, string) -> bool, f: string, streaming: seq<string>) {
    exists j :: 0 <= j < |streaming| && same(f, streaming[j])
  }

  function IsStreamedUnder(same: (string, string) -> bool, streaming: seq<string>): string -> bool {
    f => StreamedAmong(same, f, streaming)
  }

  /** The inner search: the first streamed file that refers to f ends it. */
  method AnyMatch(same: (string, string) -> bool, f: string, streaming: seq<string>) returns (found: bool)
    ensures found <==> StreamedAmong(same, f, streaming)
  {
    var j := 0;
    while j < |streaming|
      invariant 0 <= j <= |streaming|
      invariant forall k :: 0 <= k < j ==> !same(f, streaming[k])
    {
      if same(f, streaming[j]) {
        return true;
      }
      j := j + 1;
    }
    return false;
  }

  /** `is_file_currently_streaming(file_path, tautulli_url, tautulli_api_key)` */
  method IsFileCurrentlyStreaming(cwd: Path, mappings: seq<Mapping>, f: string, url: string, apiKey: string,
                                  fetch: string -> Activity)
    returns (streamed: bool)
    requires IsNormal(cwd)
    ensures streamed <==>
              StreamedAmong(SameFileUnder(cwd, mappings), f, StreamedFiles(url, apiKey, fetch(RStripChar(url, '/') + "/api/v2")))
  {
    var streaming, _ := GetCurrentlyStreamingFiles(url, apiKey, fetch);
    streamed := AnyMatch(SameFileUnder(cwd, mappings), f, streaming);
  }

  // ------------------------------------------------------------ get_streaming_status_for_directory

  datatype DirectoryStatus = DirectoryStatus(
    directory: string, anyStreaming: bool, streamingFiles: seq<string>, totalChecked: nat, error: Option<string>)

  /** The matching loop: each local file is listed once when some streamed file refers to it. */
  method StreamedLocalFiles(same: (string, string) -> bool, local: seq<string>, streaming: seq<string>)
    returns (listed: seq<string>)
    ensures listed == Filter(local, IsStreamedUnder(same, streaming))
  {
    listed := [];
    var i := 0;
    while i < |local|
      invariant 0 <= i <= |local|
      invariant listed == Filter(local[..i], IsStreamedUnder(same, streaming))
    {
      var f := local[i];
      assert local[..i + 1] == local[..i] + [f];
      FilterConcat(local[..i], [f], IsStreamedUnder(same, streaming));
      var found := AnyMatch(same, f, streaming);
      if found {
        listed := listed + [f];
      } else {
        assert Filter([f], IsStreamedUnder(same, streaming)) == [];
      }
      i := i + 1;
    }
    assert local[..i] == local;
  }

  /**
    * `get_streaming_status_for_directory`.  `exists_` and `isFile` describe the
    * path; `walked` is the list of file paths the walk of a directory yields.
    */
  method GetStreamingStatusForDirectory(cwd: Path, mappings: seq<Mapping>, dir: string, exists_: bool, isFile: bool,
                                        walked: seq<string>, url: string, apiKey: string, fetch: string -> Activity)
    returns (status: DirectoryStatus)
    requires IsNormal(cwd)
    ensures status.directory == dir
    ensures !exists_ ==> status == DirectoryStatus(dir, false, [], 0, Some("Directory does not exist"))
    ensures exists_ ==>
              var streaming := StreamedFiles(url, apiKey, fetch(RStripChar(url, '/') + "/api/v2"));
              var local := if isFile then [dir] else walked;
              && status.error.None?
              && (streaming == [] ==> status == DirectoryStatus(dir, false, [], 0, None))
              && (streaming != [] ==> status.totalChecked == |local| &&
                                      status.streamingFiles == Filter(local, IsStreamedUnder(SameFileUnder(cwd, mappings), streaming)))
              && (status.anyStreaming <==> status.streamingFiles != [])
  {
    if !exists_ {
      return DirectoryStatus(dir, false, [], 0, Some("Directory does not exist"));
    }
    var streaming, _ := GetCurrentlyStreamingFiles(url, apiKey, fetch);
    if streaming == [] {
      return DirectoryStatus(dir, false, [], 0, None);
    }
    var local := if isFile then [dir] else walked;
    var listed := StreamedLocalFiles(SameFileUnder(cwd, mappings), local, streaming);
    status := DirectoryStatus(dir, listed != [], listed, |local|, None);
  }
}
