/**
  * The data model: info-hash validation, the torrent record with its derived
  * properties, factories and dict round trip, and the process and queue records
  * of the orchestrator.  Times are whole seconds.
  */
module Classes {
  import opened Wrappers
  import opened Text
  import opened Values
  import opened Sequences
  import Paths

  // ------------------------------------------------------------ BTIH

  predicate IsHexChar(c: char) {
    '0' <= c <= '9' || 'a' <= c <= 'f' || 'A' <= c <= 'F'
  }

  predicate IsHex(s: string) {
    forall k :: 0 <= k < |s| ==> IsHexChar(s[k])
  }

  /** What `BTIH(s)` accepts: 32, 40 or 64 hexadecimal characters. */
  predicate IsBtih(s: string) {
    (|s| == 32 || |s| == 40 || |s| == 64) && IsHex(s)
  }

  /** `BTIH(value)`: TypeError for a non-string, ValueError for a bad length or a non-hex character. */
  function Btih(v: Value): (r: Result<string, Error>)
    ensures r.Success? <==> v.VStr? && IsBtih(v.s)
    ensures r.Success? ==> r.value == v.s
    ensures !v.VStr? ==> r.Failure? && r.error.TypeError?
    ensures v.VStr? && !IsBtih(v.s) ==> r.Failure? && r.error.ValueError?
  {
    match v
    case VStr(s) =>
      if |s| == 32 || |s| == 40 || |s| == 64 then
        if IsHex(s) then Success(s)
        else Failure(ValueError("BTIH must contain only hexadecimal characters"))
      else Failure(ValueError("BTIH must be 32, 40, or 64 characters long"))
    case _ => Failure(TypeError("Expected a string for BTIH"))
  }

  /** The check is for hex, not for the "alphanumeric" characters the class documentation mentions. */
  lemma {:induction false} AlphanumericNotEnough()
    ensures Btih(VStr(seq(40, _ => 'z'))).Failure?
    ensures Btih(VStr(seq(40, _ => 'z'))).error == ValueError("BTIH must contain only hexadecimal characters")
  {
    var s := seq(40, _ => 'z');
    assert !IsHexChar(s[0]);
  }

  // ------------------------------------------------------------ TorrentInfo

  datatype TorrentInfo = TorrentInfo(
    hashV1: string,
    name: string,
    contentPath: string,
    savePath: string,
    size: int,
    numFiles: int,
    rootPath: string,
    category: string,
    tags: string,
    currentTracker: string,
    hashV2: Option<string>,
    torrentId: string)
  {
    /** The `hash` property. */
    function Hash(): string {
      hashV1
    }

    /** The `path` property. */
    function Path(): string {
      contentPath
    }

    /** The `directory` property: "" without a content path, else its dirname. */
    function Directory(): string {
      if contentPath == "" then "" else Paths.Dirname(contentPath)
    }

    /** The `is_multi_file` property. */
    predicate IsMultiFile() {
      numFiles > 1
    }
  }

  /** The records a successful factory call can produce. */
  predicate ValidInfo(t: TorrentInfo) {
    IsBtih(t.hashV1) && (t.hashV2.Some? ==> IsBtih(t.hashV2.value))
  }

  /** For a content path naming a file or folder below the root, the directory is its parent path. */
  lemma {:induction false} DirectoryIsParent(t: TorrentInfo, p: Paths.Path)
    requires Paths.IsNormal(p) && p != [] && t.contentPath == Paths.Render(p)
    ensures t.Directory() == Paths.Render(p[..|p| - 1])
    ensures t.Path() == t.contentPath && t.Hash() == t.hashV1
  {
    Paths.DirnameRender(p);
  }

  lemma {:induction false} DirectoryOfNoPath(t: TorrentInfo)
    requires t.contentPath == ""
    ensures t.Directory() == ""
  {
  }

  /** A validated hash as an optional one. */
  function LiftSome(r: Result<string, Error>): Result<Option<string>, Error> {
    match r
    case Success(h) => Success(Some(h))
    case Failure(e) => Failure(e)
  }

  /** The hash_v2 sentinels that mean "no v2 hash". */
  predicate IsHashV2Sentinel(v: Value) {
    v == VStr("") || v == VStr("-") || v == VStr("None") || v == VStr("null")
  }

  /** `len(v)` for hash_v2 candidates: defined on strings and containers; a number raises TypeError. */
  function PyLen(v: Value): Result<nat, Error> {
    match v
    case VStr(s) => Success(|s|)
    case VList(xs) => Success(|xs|)
    case VDict(m) => Success(|m|)
    case _ => Failure(TypeError("object has no len()"))
  }

  /**
    * The optional v2 hash as both factories read it: set only when the value is
    * truthy, not one of the sentinels and at least 32 long, and then validated.
    */
  function HashV2Of(v: Value): (r: Result<Option<string>, Error>)
    ensures r.Success? && r.value.Some? ==>
              v.VStr? && r.value.value == v.s && |v.s| >= 32 && !IsHashV2Sentinel(v) && IsBtih(v.s)
    ensures v.VStr? && 0 < |v.s| < 32 ==> r == Success(None)
    ensures v.VStr? && |v.s| >= 32 ==> r == LiftSome(Btih(v))
    ensures !Truthy(v) ==> r == Success(None)
  {
    if !Truthy(v) || IsHashV2Sentinel(v) then Success(None)
    else
      match PyLen(v)
      case Failure(e) => Failure(e)
      case Success(n) =>
        if n < 32 then Success(None)
        else
          LiftSome(Btih(v))
  }

  /** A present hash_v2 field of 32 to 63 characters other than 32 or 40 is rejected, not ignored. */
  lemma {:induction false} OddLengthHashV2Rejected(s: string)
    requires 32 < |s| < 40
    ensures HashV2Of(VStr(s)).Failure? && HashV2Of(VStr(s)).error.ValueError?
  {
  }

  /** `','.join(tags)` when the API gives a list, else the tags string. */
  function TagsOf(d: Dict): (r: Result<string, Error>)
    ensures "tags" !in d ==> r == Success("")
    ensures "tags" in d && d["tags"].VStr? ==> r == Success(d["tags"].s)
    ensures "tags" in d && d["tags"].VList? ==>
              (r.Success? <==> forall k :: 0 <= k < |d["tags"].items| ==> d["tags"].items[k].VStr?)
  {
    match Get(d, "tags", VStr(""))
    case VStr(s) => Success(s)
    case VList(xs) =>
      if forall k :: 0 <= k < |xs| ==> xs[k].VStr? then Success(Join(StrsOf(xs), ","))
      else Failure(TypeError("sequence item: expected str instance"))
    case _ => Failure(TypeError("tags"))
  }

  /** A non-empty tag list without commas in its tags is recovered by splitting the joined string. */
  lemma {:induction false} TagListRecoverable(d: Dict)
    requires "tags" in d && d["tags"].VList? && |d["tags"].items| > 0
    requires forall k :: 0 <= k < |d["tags"].items| ==> d["tags"].items[k].VStr? && ',' !in d["tags"].items[k].s
    ensures TagsOf(d).Success? && Split(TagsOf(d).value, ',') == StrsOf(d["tags"].items)
  {
    SplitJoin(StrsOf(d["tags"].items), ',');
  }

  function StrsOf(xs: seq<Value>): (r: seq<string>)
    requires forall k :: 0 <= k < |xs| ==> xs[k].VStr?
    ensures |r| == |xs| && forall k :: 0 <= k < |xs| ==> r[k] == xs[k].s
  {
    if xs == [] then [] else [xs[0].s] + StrsOf(xs[1..])
  }

  /** `TorrentInfo.from_qbittorrent_api(torrent_dict, files_count)` */
  function FromQbittorrentApi(d: Dict, filesCount: Option<int>): (r: Result<TorrentInfo, Error>)
    ensures r.Success? ==> ValidInfo(r.value)
    ensures r.Success? ==> VStr(r.value.hashV1) == Get(d, "hash", VStr(""))
    ensures r.Success? && filesCount.Some? ==> r.value.numFiles == filesCount.value
    ensures r.Success? && filesCount.None? && "num_complete" !in d ==> r.value.numFiles == 1
    ensures r.Success? && filesCount.None? && "num_complete" in d ==> VInt(r.value.numFiles) == d["num_complete"]
    ensures !Btih(Get(d, "hash", VStr(""))).Success? ==> r.Failure?
  {
    var h :- Btih(Get(d, "hash", VStr("")));
    var name :- GetStr(d, "name", "");
    var contentPath :- GetStr(d, "content_path", "");
    var savePath :- GetStr(d, "save_path", "");
    var rootPath :- GetStr(d, "root_path", "");
    var size :- GetInt(d, "size", 0);
    var numFiles :- if filesCount.Some? then Success(filesCount.value) else GetInt(d, "num_complete", 1);
    var category :- GetStr(d, "category", "");
    var tags :- TagsOf(d);
    var tracker :- GetStr(d, "tracker", "");
    var h2 :- HashV2Of(Get(d, "hash_v2", VNone));
    var id :- ToStr(Get(d, "id", VStr("")));
    Success(TorrentInfo(h, name, contentPath, savePath, size, numFiles, rootPath, category, tags, tracker, h2, id))
  }

  /** `TorrentInfo.from_qbittorrent_params(params)`: the external-program parameters, numbers given as text. */
  function FromQbittorrentParams(p: Dict): (r: Result<TorrentInfo, Error>)
    ensures r.Success? ==> ValidInfo(r.value)
    ensures r.Success? && "hash" in p ==> VStr(r.value.hashV1) == p["hash"]
    ensures r.Success? && "hash" !in p ==> VStr(r.value.hashV1) == Get(p, "hash_v1", VStr(""))
    ensures r.Success? && "num_files" in p && p["num_files"].VStr? ==> Some(r.value.numFiles) == ParseInt(p["num_files"].s)
    ensures r.Success? && "num_files" !in p ==> r.value.numFiles == 1 && !r.value.IsMultiFile()
    ensures r.Success? && "size" !in p ==> r.value.size == 0
  {
    var h :- Btih(Get(p, "hash", Get(p, "hash_v1", VStr(""))));
    var name :- GetStr(p, "name", "");
    var contentPath :- GetStr(p, "content_path", "");
    var savePath :- GetStr(p, "save_path", "");
    var rootPath :- GetStr(p, "root_path", "");
    var size :- ToInt(Get(p, "size", VInt(0)));
    var numFiles :- ToInt(Get(p, "num_files", VInt(1)));
    var category :- GetStr(p, "category", "");
    var tags :- GetStr(p, "tags", "");
    var tracker :- GetStr(p, "tracker", "");
    var h2 :- HashV2Of(Get(p, "hash_v2", VNone));
    var id :- GetStr(p, "torrent_id", "");
    Success(TorrentInfo(h, name, contentPath, savePath, size, numFiles, rootPath, category, tags, tracker, h2, id))
  }

  /** `TorrentInfo.from_hash_only(h)`: a placeholder record that only carries the hash. */
  function FromHashOnly(h: string): (r: Result<TorrentInfo, Error>)
    ensures r.Success? <==> IsBtih(h)
    ensures r.Success? ==> r.value == TorrentInfo(h, "", "", "", 0, 1, "", "", "", "", None, "")
    ensures r.Success? ==> !r.value.IsMultiFile() && r.value.Directory() == ""
    ensures r.Failure? ==> r.error.ValueError?
  {
    var v :- Btih(VStr(h));
    Success(TorrentInfo(v, "", "", "", 0, 1, "", "", "", "", None, ""))
  }

  /** `t.to_dict()` */
  function ToDict(t: TorrentInfo): (d: Dict)
    ensures d.Keys == {"hash_v1", "name", "content_path", "save_path", "root_path", "size", "num_files",
                       "category", "tags", "current_tracker", "hash_v2", "torrent_id"}
    ensures d["hash_v1"] == VStr(t.hashV1) && d["size"] == VInt(t.size)
  {
    map["hash_v1" := VStr(t.hashV1),
        "name" := VStr(t.name),
        "content_path" := VStr(t.contentPath),
        "save_path" := VStr(t.savePath),
        "root_path" := VStr(t.rootPath),
        "size" := VInt(t.size),
        "num_files" := VInt(t.numFiles),
        "category" := VStr(t.category),
        "tags" := VStr(t.tags),
        "current_tracker" := VStr(t.currentTracker),
        "hash_v2" := if t.hashV2.Some? && t.hashV2.value != "" then VStr(t.hashV2.value) else VNone,
        "torrent_id" := VStr(t.torrentId)]
  }

  /** `TorrentInfo.from_dict(data)`: a missing hash_v1 is a KeyError. */
  function FromDict(d: Dict): (r: Result<TorrentInfo, Error>)
    ensures "hash_v1" !in d ==> r == Failure(KeyError("hash_v1"))
    ensures r.Success? ==> ValidInfo(r.value) && VStr(r.value.hashV1) == d["hash_v1"]
  {
    if "hash_v1" !in d then Failure(KeyError("hash_v1"))
    else
      var h :- Btih(d["hash_v1"]);
      var name :- GetStr(d, "name", "");
      var contentPath :- GetStr(d, "content_path", "");
      var savePath :- GetStr(d, "save_path", "");
      var rootPath :- GetStr(d, "root_path", "");
      var size :- GetInt(d, "size", 0);
      var numFiles :- GetInt(d, "num_files", 1);
      var category :- GetStr(d, "category", "");
      var tags :- GetStr(d, "tags", "");
      var tracker :- GetStr(d, "current_tracker", "");
      var h2 :- if Truthy(Get(d, "hash_v2", VNone)) then LiftSome(Btih(d["hash_v2"])) else Success(None);
      var id :- GetStr(d, "torrent_id", "");
      Success(TorrentInfo(h, name, contentPath, savePath, size, numFiles, rootPath, category, tags, tracker, h2, id))
  }

  /** A record with valid hashes survives serialisation field by field. */
  lemma {:induction false} FromDictToDict(t: TorrentInfo)
    requires ValidInfo(t)
    ensures FromDict(ToDict(t)) == Success(t)
  {
    var d := ToDict(t);
    assert Btih(d["hash_v1"]) == Success(t.hashV1);
    assert GetStr(d, "name", "") == Success(t.name);
    assert GetStr(d, "content_path", "") == Success(t.contentPath);
    assert GetStr(d, "save_path", "") == Success(t.savePath);
    assert GetStr(d, "root_path", "") == Success(t.rootPath);
    assert GetInt(d, "size", 0) == Success(t.size);
    assert GetInt(d, "num_files", 1) == Success(t.numFiles);
    assert GetStr(d, "category", "") == Success(t.category);
    assert GetStr(d, "tags", "") == Success(t.tags);
    assert GetStr(d, "current_tracker", "") == Success(t.currentTracker);
    assert GetStr(d, "torrent_id", "") == Success(t.torrentId);
    var h2 := if Truthy(Get(d, "hash_v2", VNone)) then LiftSome(Btih(d["hash_v2"])) else Success(None);
    assert h2 == Success(t.hashV2) by {
      if t.hashV2.Some? && t.hashV2.value != "" {
        assert d["hash_v2"] == VStr(t.hashV2.value);
      } else {
        assert d["hash_v2"] == VNone;
      }
    }
  }

  /** Serialising a record with a malformed primary hash cannot be read back. */
  lemma {:induction false} FromDictRejectsBadHash(t: TorrentInfo)
    requires !IsBtih(t.hashV1)
    ensures FromDict(ToDict(t)).Failure?
  {
  }

  // ------------------------------------------------------------ orchestrator records

  datatype ServiceStatus = Running | Completed | Failed
  {
    /** The enum's `.value`. */
    function Value(): string {
      match this
      case Running => "running"
      case Completed => "completed"
      case Failed => "failed"
    }
  }

  /** What a finished worker reports: `{'success': ..., 'torrent_hash': ..., 'error': ...}`. */
  datatype ProcessResult = ProcessResult(success: bool, torrentHash: Option<string>, error: Option<string>)

  datatype ProcessInfo = ProcessInfo(
    id: string,
    torrentHash: string,
    startTime: int,
    status: ServiceStatus,
    result: Option<ProcessResult>,
    endTime: Option<int>,
    duration: Option<int>)

  datatype QueueItem = QueueItem(id: string, torrent: TorrentInfo, queuedTime: int, priority: int)

  /** The queue's sort key `(-priority, queued_time)` as a comparator. */
  predicate QueueLeq(a: QueueItem, b: QueueItem) {
    a.priority > b.priority || (a.priority == b.priority && a.queuedTime <= b.queuedTime)
  }

  lemma {:induction false} QueueLeqTotalPreorder()
    ensures TotalPreorder(QueueLeq)
  {
  }

  /** Sorting the queue puts a higher priority first and, within a priority, the older item first. */
  lemma {:induction false} QueueOrderMeaning(q: seq<QueueItem>, i: int, j: int)
    requires SortedBy(q, QueueLeq) && 0 <= i < j < |q|
    ensures q[i].priority >= q[j].priority
    ensures q[i].priority == q[j].priority ==> q[i].queuedTime <= q[j].queuedTime
  {
  }
}
