/**
  * Snapshot and restore of the orchestrator across restarts
  * (src/persistence.py).  The state file is the JSON document StateDict of a
  * ServiceState; reading and writing the file are left to the caller, which
  * passes whether the file exists and the parsed document (None when it could
  * not be read or parsed).  Times are whole seconds.
  */
module Persistence {
  import opened Wrappers
  import opened Values
  import opened Sequences
  import opened Classes

  /** The only snapshot version the loader accepts. */
  const StateVersion: string := "1.0"

  /** The oldest snapshot the loader accepts: 24 hours. */
  const MaxStateAge: int := 24 * 3600

  /** Priority given to a process that was interrupted by the shutdown. */
  const RestoredPriority: int := 10

  datatype PersistedQueueItem = PersistedQueueItem(id: string, torrentData: Dict, queuedTime: int, priority: int)

  datatype PersistedProcessInfo = PersistedProcessInfo(id: string, torrentHash: string, startTime: int, status: string, result: Value)

  datatype ServiceState = ServiceState(
    queueItems: seq<PersistedQueueItem>,
    runningProcesses: seq<PersistedProcessInfo>,
    statistics: Dict,
    shutdownTime: int,
    version: string)

  // ------------------------------------------------------------ save_orchestrator_state

  function PersistItem(q: QueueItem): PersistedQueueItem {
    PersistedQueueItem(q.id, ToDict(q.torrent), q.queuedTime, q.priority)
  }

  /** A worker result as the JSON object it was built as. */
  function ResultValue(r: Option<ProcessResult>): Value {
    match r
    case None => VNone
    case Some(pr) =>
      VDict(map["success" := VBool(pr.success)]
            + (if pr.torrentHash.Some? then map["torrent_hash" := VStr(pr.torrentHash.value)] else map[])
            + (if pr.error.Some? then map["error" := VStr(pr.error.value)] else map[]))
  }

  function PersistProcess(p: ProcessInfo): PersistedProcessInfo {
    PersistedProcessInfo(p.id, p.torrentHash, p.startTime, p.status.Value(), ResultValue(p.result))
  }

  /** `process.status.value == 'running'` */
  predicate StillRunning(p: ProcessInfo) {
    p.status.Value() == "running"
  }

  /** The snapshot of the queue: every item, in queue order. */
  function PersistedItems(queue: seq<QueueItem>): seq<PersistedQueueItem> {
    Map(queue, PersistItem)
  }

  /** The snapshot of the process table: the running entries only, in table order. */
  function PersistedRunning(procs: seq<ProcessInfo>): seq<PersistedProcessInfo> {
    FilterMap(procs, StillRunning, PersistProcess)
  }

  /** The persisted processes are exactly the running entries of the table, in order; finished ones are dropped. */
  lemma {:induction false} PersistedRunningIsFilter(procs: seq<ProcessInfo>)
    ensures PersistedRunning(procs) == Map(Filter(procs, StillRunning), PersistProcess)
    ensures |PersistedRunning(procs)| == Count(procs, StillRunning)
  {
    FilterMapIsMapFilter(procs, StillRunning, PersistProcess);
  }

  /**
    * `save_orchestrator_state`: a loop over the queue keeping every item, a
    * loop over the process table keeping the entries whose status is
    * `running`; the time of the snapshot is now.
    */
  method SaveOrchestratorState(queue: seq<QueueItem>, procs: seq<ProcessInfo>, statistics: Dict, now: int)
    returns (state: ServiceState)
    ensures state == ServiceState(PersistedItems(queue), PersistedRunning(procs), statistics, now, StateVersion)
  {
    var items := MapEach(queue, PersistItem);
    var running := FilterMapEach(procs, StillRunning, PersistProcess);
    state := ServiceState(items, running, statistics, now, StateVersion);
  }

  // ------------------------------------------------------------ the state document

  function ItemDict(p: PersistedQueueItem): Dict {
    map["id" := VStr(p.id), "torrent_data" := VDict(p.torrentData),
        "queued_time" := VInt(p.queuedTime), "priority" := VInt(p.priority)]
  }

  function ProcessDict(p: PersistedProcessInfo): Dict {
    map["id" := VStr(p.id), "torrent_hash" := VStr(p.torrentHash), "start_time" := VInt(p.startTime),
        "status" := VStr(p.status), "result" := p.result]
  }

  function ItemValues(ps: seq<PersistedQueueItem>): (r: seq<Value>)
    ensures |r| == |ps| && forall i :: 0 <= i < |ps| ==> r[i] == VDict(ItemDict(ps[i]))
  {
    seq(|ps|, i requires 0 <= i < |ps| => VDict(ItemDict(ps[i])))
  }

  function ProcessValues(ps: seq<PersistedProcessInfo>): (r: seq<Value>)
    ensures |r| == |ps| && forall i :: 0 <= i < |ps| ==> r[i] == VDict(ProcessDict(ps[i]))
  {
    seq(|ps|, i requires 0 <= i < |ps| => VDict(ProcessDict(ps[i])))
  }

  /** The JSON document written to the state file. */
  function StateDict(s: ServiceState): Dict {
    map["queue_items" := VList(ItemValues(s.queueItems)),
        "running_processes" := VList(ProcessValues(s.runningProcesses)),
        "statistics" := VDict(s.statistics),
        "shutdown_time" := VInt(s.shutdownTime),
        "version" := VStr(s.version)]
  }

  // ------------------------------------------------------------ load_orchestrator_state

  /**
    * `PersistedQueueItem(**item_dict)`: the keyword arguments must be the
    * dataclass fields, with `priority` optional; anything else is a TypeError.
    */
  function ParseItem(v: Value): Option<PersistedQueueItem> {
    match v
    case VDict(d) =>
      if !(d.Keys <= {"id", "torrent_data", "queued_time", "priority"}) then None
      else if !("id" in d && "torrent_data" in d && "queued_time" in d) then None
      else
        (match (d["id"], d["torrent_data"], d["queued_time"], Get(d, "priority", VInt(0)))
         case (VStr(id), VDict(td), VInt(t), VInt(pr)) => Some(PersistedQueueItem(id, td, t, pr))
         case _ => None)
    case _ => None
  }

  /** `PersistedProcessInfo(**proc_dict)`: `result` is optional. */
  function ParseProcess(v: Value): Option<PersistedProcessInfo> {
    match v
    case VDict(d) =>
      if !(d.Keys <= {"id", "torrent_hash", "start_time", "status", "result"}) then None
      else if !("id" in d && "torrent_hash" in d && "start_time" in d && "status" in d) then None
      else
        (match (d["id"], d["torrent_hash"], d["start_time"], d["status"])
         case (VStr(id), VStr(h), VInt(t), VStr(st)) => Some(PersistedProcessInfo(id, h, t, st, Get(d, "result", VNone)))
         case _ => None)
    case _ => None
  }

  /** Every element read in order; one that cannot be read rejects the whole document. */
  function ParsedAll<T>(vs: seq<Value>, parse: Value -> Option<T>): (r: Option<seq<T>>)
    ensures r.Some? ==> |r.value| == |vs|
  {
    if vs == [] then Some([])
    else
      match ParsedAll(vs[..|vs| - 1], parse)
      case None => None
      case Some(init) =>
        match parse(vs[|vs| - 1])
        case None => None
        case Some(x) => Some(init + [x])
  }

  /**
    * The entries a `for` loop visits in a field, absent meaning empty: the
    * elements of a list; an empty string or object visits nothing; any other
    * value either cannot be iterated or yields keys or characters that are not
    * keyword mappings, which fails.
    */
  function ListField(d: Dict, k: string): (r: Option<seq<Value>>)
    ensures k !in d ==> r == Some([])
    ensures k in d && d[k].VList? ==> r == Some(d[k].items)
  {
    match Get(d, k, VList([]))
    case VList(xs) => Some(xs)
    case VStr(str) => if str == "" then Some([]) else None
    case VDict(m) => if m == map[] then Some([]) else None
    case _ => None
  }

  /** The age test: `(now - shutdown_time) / 3600 > 24` on whole seconds. */
  predicate TooOld(shutdownTime: int, now: int) {
    now - shutdownTime > MaxStateAge
  }

  /**
    * The state `load_orchestrator_state` returns: none without a state file,
    * for an unreadable document, another version, a snapshot older than 24
    * hours, or an entry that does not fit its dataclass.
    */
  function Loaded(fileExists: bool, doc: Option<Value>, now: int): (r: Option<ServiceState>)
    ensures r.Some? ==> fileExists && r.value.version == StateVersion && !TooOld(r.value.shutdownTime, now)
    ensures r.Some? ==> doc.Some? && doc.value.VDict? && Get(doc.value.entries, "version", VStr(StateVersion)) == VStr(StateVersion)
  {
    if !fileExists then None
    else match doc
      case Some(VDict(d)) =>
        if Get(d, "version", VStr(StateVersion)) != VStr(StateVersion) then None
        else
          (match Get(d, "shutdown_time", VInt(0))
           case VInt(t) =>
             if TooOld(t, now) then None
             else
               (match (ListField(d, "queue_items"), ListField(d, "running_processes"), Get(d, "statistics", VDict(map[])))
                case (Some(qs), Some(ps), VDict(st)) =>
                  (match (ParsedAll(qs, ParseItem), ParsedAll(ps, ParseProcess))
                   case (Some(items), Some(procs)) => Some(ServiceState(items, procs, st, t, StateVersion))
                   case _ => None)
                case _ => None)
           case _ => None)
      case _ => None
  }

  /** The reconstruction loop over one list. */
  method ParseEach<T>(vs: seq<Value>, parse: Value -> Option<T>) returns (r: Option<seq<T>>)
    ensures r == ParsedAll(vs, parse)
  {
    var acc: seq<T> := [];
    var i := 0;
    while i < |vs|
      invariant 0 <= i <= |vs|
      invariant ParsedAll(vs[..i], parse) == Some(acc)
    {
      assert vs[..i + 1][..i] == vs[..i];
      match parse(vs[i]) {
        case None =>
          ParsedStaysNone(vs, i + 1, parse);
          return None;
        case Some(x) =>
          acc := acc + [x];
      }
      i := i + 1;
    }
    assert vs[..i] == vs;
    return Some(acc);
  }

  /** Once an element cannot be read, no longer list can be read either. */
  lemma {:induction false} ParsedStaysNone<T>(vs: seq<Value>, i: nat, parse: Value -> Option<T>)
    requires i <= |vs| && ParsedAll(vs[..i], parse).None?
    ensures ParsedAll(vs, parse).None?
    decreases |vs| - i
  {
    if i < |vs| {
      assert vs[..i + 1][..i] == vs[..i];
      ParsedStaysNone(vs, i + 1, parse);
    } else {
      assert vs[..i] == vs;
    }
  }

  /** `load_orchestrator_state` */
  method LoadOrchestratorState(fileExists: bool, doc: Option<Value>, now: int) returns (state: Option<ServiceState>)
    ensures state == Loaded(fileExists, doc, now)
  {
    if !fileExists || doc.None? || !doc.value.VDict? {
      return None;
    }
    var d := doc.value.entries;
    if Get(d, "version", VStr(StateVersion)) != VStr(StateVersion) {
      return None;
    }
    var st := Get(d, "shutdown_time", VInt(0));
    if !st.VInt? || TooOld(st.i, now) {
      return None;
    }
    var qs := ListField(d, "queue_items");
    var ps := ListField(d, "running_processes");
    var stats := Get(d, "statistics", VDict(map[]));
    if qs.None? || ps.None? || !stats.VDict? {
      return None;
    }
    var items := ParseEach(qs.value, ParseItem);
    if items.None? {
      return None;
    }
    var procs := ParseEach(ps.value, ParseProcess);
    if procs.None? {
      return None;
    }
    return Some(ServiceState(items.value, procs.value, stats.entries, st.i, StateVersion));
  }

  lemma {:induction false} ParseItemDict(p: PersistedQueueItem)
    ensures ParseItem(VDict(ItemDict(p))) == Some(p)
  {
    var d := ItemDict(p);
    assert d.Keys == {"id", "torrent_data", "queued_time", "priority"};
  }

  lemma {:induction false} ParseProcessDict(p: PersistedProcessInfo)
    ensures ParseProcess(VDict(ProcessDict(p))) == Some(p)
  {
    var d := ProcessDict(p);
    assert d.Keys == {"id", "torrent_hash", "start_time", "status", "result"};
  }

  lemma {:induction false} ParsedItemValues(ps: seq<PersistedQueueItem>)
    ensures ParsedAll(ItemValues(ps), ParseItem) == Some(ps)
  {
    if ps != [] {
      var init := ps[..|ps| - 1];
      ParsedItemValues(init);
      assert ItemValues(ps)[..|ps| - 1] == ItemValues(init);
      ParseItemDict(ps[|ps| - 1]);
      assert init + [ps[|ps| - 1]] == ps;
    }
  }

  lemma {:induction false} ParsedProcessValues(ps: seq<PersistedProcessInfo>)
    ensures ParsedAll(ProcessValues(ps), ParseProcess) == Some(ps)
  {
    if ps != [] {
      var init := ps[..|ps| - 1];
      ParsedProcessValues(init);
      assert ProcessValues(ps)[..|ps| - 1] == ProcessValues(init);
      ParseProcessDict(ps[|ps| - 1]);
      assert init + [ps[|ps| - 1]] == ps;
    }
  }

  /**
    * Round trip: a saved snapshot that is not older than 24 hours loads back
    * as itself; an older one is rejected.
    */
  lemma {:induction false} SavedStateLoads(s: ServiceState, now: int)
    requires s.version == StateVersion
    ensures !TooOld(s.shutdownTime, now) ==> Loaded(true, Some(VDict(StateDict(s))), now) == Some(s)
    ensures TooOld(s.shutdownTime, now) ==> Loaded(true, Some(VDict(StateDict(s))), now) == None
  {
    var d := StateDict(s);
    assert Get(d, "version", VStr(StateVersion)) == VStr(StateVersion);
    assert Get(d, "shutdown_time", VInt(0)) == VInt(s.shutdownTime);
    if !TooOld(s.shutdownTime, now) {
      assert ListField(d, "queue_items") == Some(ItemValues(s.queueItems));
      assert ListField(d, "running_processes") == Some(ProcessValues(s.runningProcesses));
      assert Get(d, "statistics", VDict(map[])) == VDict(s.statistics);
      ParsedItemValues(s.queueItems);
      ParsedProcessValues(s.runningProcesses);
    }
  }

  // ------------------------------------------------------------ restore_orchestrator_state

  /** A persisted queue item comes back with its own id, time and priority. */
  function RestoreItem(p: PersistedQueueItem): Result<QueueItem, Error> {
    var t :- FromDict(p.torrentData);
    Success(QueueItem(p.id, t, p.queuedTime, p.priority))
  }

  /** An interrupted process is queued again as `restored-<id>`, at priority 10, queued now, with a hash-only record. */
  function RequeueProcess(now: int, p: PersistedProcessInfo): Result<QueueItem, Error> {
    var t :- FromHashOnly(p.torrentHash);
    Success(QueueItem("restored-" + p.id, t, now, RestoredPriority))
  }

  function RequeueAt(now: int): PersistedProcessInfo -> Result<QueueItem, Error> {
    (p: PersistedProcessInfo) => RequeueProcess(now, p)
  }

  /**
    * Appending converted entries one by one: the converted prefix, and whether
    * every entry converted (an exception stops the loop, and what was already
    * appended stays appended).
    */
  function Collected<A>(xs: seq<A>, convert: A -> Result<QueueItem, Error>): (r: (seq<QueueItem>, bool))
    ensures |r.0| <= |xs|
    ensures r.1 ==> |r.0| == |xs|
  {
    if xs == [] then ([], true)
    else
      var init := Collected(xs[..|xs| - 1], convert);
      if !init.1 then init
      else
        match convert(xs[|xs| - 1])
        case Failure(_) => (init.0, false)
        case Success(q) => (init.0 + [q], true)
  }

  lemma {:induction false} CollectedStaysFailed<A>(xs: seq<A>, i: nat, convert: A -> Result<QueueItem, Error>)
    requires i <= |xs| && !Collected(xs[..i], convert).1
    ensures Collected(xs, convert) == Collected(xs[..i], convert)
    decreases |xs| - i
  {
    if i < |xs| {
      assert xs[..i + 1][..i] == xs[..i];
      CollectedStaysFailed(xs, i + 1, convert);
    } else {
      assert xs[..i] == xs;
    }
  }

  /** One of the two restore loops. */
  method CollectEach<A>(xs: seq<A>, convert: A -> Result<QueueItem, Error>) returns (qs: seq<QueueItem>, ok: bool)
    ensures (qs, ok) == Collected(xs, convert)
  {
    qs := [];
    var i := 0;
    while i < |xs|
      invariant 0 <= i <= |xs|
      invariant Collected(xs[..i], convert) == (qs, true)
    {
      assert xs[..i + 1][..i] == xs[..i];
      match convert(xs[i]) {
        case Failure(_) =>
          CollectedStaysFailed(xs, i + 1, convert);
          return qs, false;
        case Success(q) =>
          qs := qs + [q];
      }
      i := i + 1;
    }
    assert xs[..i] == xs;
    ok := true;
  }

  /** Every item of a saved queue of well-formed records is restored as it was, in order. */
  lemma {:induction false} SavedQueueRestored(queue: seq<QueueItem>)
    requires forall i :: 0 <= i < |queue| ==> ValidInfo(queue[i].torrent)
    ensures Collected(PersistedItems(queue), RestoreItem) == (queue, true)
  {
    var saved := PersistedItems(queue);
    forall i | 0 <= i < |queue|
      ensures RestoreItem(saved[i]) == Success(queue[i])
    {
      RestoreItemPersisted(queue[i]);
    }
    CollectedAll(saved, RestoreItem, queue);
  }

  /** When every entry converts, the loop collects all of them, in order. */
  lemma {:induction false} CollectedAll<A>(xs: seq<A>, convert: A -> Result<QueueItem, Error>, ys: seq<QueueItem>)
    requires |xs| == |ys| && forall i :: 0 <= i < |xs| ==> convert(xs[i]) == Success(ys[i])
    ensures Collected(xs, convert) == (ys, true)
  {
    if xs != [] {
      var n := |xs| - 1;
      CollectedAll(xs[..n], convert, ys[..n]);
      assert convert(xs[n]) == Success(ys[n]);
      assert ys[..n] + [ys[n]] == ys;
    }
  }

  /** One saved item comes back as itself. */
  lemma {:induction false} RestoreItemPersisted(q: QueueItem)
    requires ValidInfo(q.torrent)
    ensures RestoreItem(PersistItem(q)) == Success(q)
  {
    FromDictToDict(q.torrent);
  }

  /** Interrupted processes with valid hashes all come back, each as `restored-<id>` at priority 10 queued now. */
  lemma {:induction false} InterruptedRequeued(ps: seq<PersistedProcessInfo>, now: int)
    requires forall i :: 0 <= i < |ps| ==> IsBtih(ps[i].torrentHash)
    ensures Collected(ps, RequeueAt(now)).1
    ensures var qs := Collected(ps, RequeueAt(now)).0;
      |qs| == |ps| &&
      forall i :: 0 <= i < |ps| ==>
        qs[i] == QueueItem("restored-" + ps[i].id, FromHashOnly(ps[i].torrentHash).value, now, RestoredPriority)
  {
    if ps != [] {
      var init := ps[..|ps| - 1];
      InterruptedRequeued(init, now);
      var last := ps[|ps| - 1];
      assert RequeueAt(now)(last) == RequeueProcess(now, last);
      assert Collected(ps, RequeueAt(now)).0 == Collected(init, RequeueAt(now)).0 + [RequeueProcess(now, last).value];
    }
  }

  /** A persisted process whose hash is not a valid info hash stops the restore. */
  lemma {:induction false} BadInterruptedHashStops(ps: seq<PersistedProcessInfo>, now: int)
    requires ps != [] && !IsBtih(ps[0].torrentHash)
    ensures !Collected(ps, RequeueAt(now)).1
    ensures |Collected(ps, RequeueAt(now)).0| == 0
  {
    assert RequeueAt(now)(ps[0]).Failure?;
    assert Collected(ps[..1], RequeueAt(now)) == ([], false) by {
      assert ps[..1][..0] == [];
    }
    CollectedStaysFailed(ps, 1, RequeueAt(now));
  }
}
