/**
  * The orchestrator of src/service.py: a priority-sorted queue of torrents to
  * process, a running map of processes that also keeps the recent finished
  * ones as history, a parallel copy queue with its own running map, and the
  * statistics counters.  Handing an item to the thread pool is inserting it
  * into the running map; a worker finishing is an explicit OnProcessComplete
  * or OnCopyComplete call.  uuid4 is a counter whose numbers are printed as
  * ids, and time.time() is the `now` argument, in whole seconds.
  */
module Service {
  import opened Wrappers
  import opened Text
  import opened Values
  import opened Sequences
  import opened Classes
  import opened Persistence
  import opened Bookkeeping

  /** Defaults of MAX_CONCURRENT_PROCESSES and MAX_CONCURRENT_COPY_OPERATIONS. */
  const DefaultMaxProcesses: int := 3
  const DefaultMaxCopies: int := 1

  /** How many finished entries the two running maps keep. */
  const ProcessHistory: nat := 10
  const CopyHistory: nat := 20

  datatype ServiceError =
    | ShuttingDown          // RuntimeError("Service is shutting down")
    | InvalidTorrent(err: Error)

  datatype Stats = Stats(
    serviceStartTime: int,
    torrentsProcessed: int,
    spaceManagementRuns: int,
    apiRequests: int,
    lastActivity: int,
    copyOperationsCompleted: int,
    copyOperationsFailed: int)

  /** `self.stats` as the dict that is snapshotted. */
  function StatsDict(s: Stats): (d: Dict)
    ensures d.Keys == {"service_start_time", "torrents_processed", "space_management_runs", "api_requests",
                       "last_activity", "copy_operations_completed", "copy_operations_failed"}
  {
    map["service_start_time" := VInt(s.serviceStartTime),
        "torrents_processed" := VInt(s.torrentsProcessed),
        "space_management_runs" := VInt(s.spaceManagementRuns),
        "api_requests" := VInt(s.apiRequests),
        "last_activity" := VInt(s.lastActivity),
        "copy_operations_completed" := VInt(s.copyOperationsCompleted),
        "copy_operations_failed" := VInt(s.copyOperationsFailed)]
  }

  /** What `future.result()` gives: the worker's dict, or the exception it raised. */
  datatype Outcome<R> = Returned(result: R) | Raised(message: string)

  // ------------------------------------------------------------ ids

  /** An id the counter has already handed out: the printed form of a number below `n`. */
  predicate IdBelow(id: string, n: nat) {
    n > 0 && (id == IntToString(n - 1) || IdBelow(id, n - 1))
  }

  lemma {:induction false} IdsDiffer(a: nat, b: nat)
    requires a != b
    ensures IntToString(a) != IntToString(b)
  {
    ParseIntToString(a);
    ParseIntToString(b);
  }

  /** No number from `n` on prints as an id handed out before `n`. */
  lemma {:induction false} NextIdFresh(n: nat, m: nat, id: string)
    requires IdBelow(id, n) && n <= m
    ensures IntToString(m) != id
  {
    if id == IntToString(n - 1) {
      IdsDiffer(n - 1, m);
    } else {
      NextIdFresh(n - 1, m, id);
    }
  }

  // ------------------------------------------------------------ processes

  function PId(p: ProcessInfo): string { p.id }
  function PStart(p: ProcessInfo): int { p.startTime }
  predicate IsRunning(p: ProcessInfo) { p.status == Running }
  /** `p.status in [ServiceStatus.COMPLETED, ServiceStatus.FAILED]` */
  predicate IsFinished(p: ProcessInfo) { p.status == Completed || p.status == Failed }

  /** `_start_torrent_processing`'s entry for a queue item. */
  function NewProcess(id: string, item: QueueItem, now: int): ProcessInfo {
    ProcessInfo(id, item.torrent.Hash(), now, Running, None, None, None)
  }

  /** The entries a dispatch pass adds for the items it pops, ids counted from `firstId`. */
  function Started(items: seq<QueueItem>, firstId: nat, now: int): (r: seq<ProcessInfo>)
    ensures |r| == |items|
    ensures forall i :: 0 <= i < |items| ==> r[i] == NewProcess(IntToString(firstId + i), items[i], now)
  {
    seq(|items|, i requires 0 <= i < |items| => NewProcess(IntToString(firstId + i), items[i], now))
  }

  lemma {:induction false} StartedSnoc(items: seq<QueueItem>, k: nat, firstId: nat, now: int)
    requires k < |items|
    ensures Started(items[..k + 1], firstId, now) == Started(items[..k], firstId, now) + [NewProcess(IntToString(firstId + k), items[k], now)]
  {
  }

  /** The entry once its worker is done: COMPLETED iff the worker reported success; an exception is FAILED. */
  function Finish(p: ProcessInfo, outcome: Outcome<ProcessResult>): (r: ProcessInfo)
    ensures r.id == p.id && r.startTime == p.startTime && r.torrentHash == p.torrentHash
    ensures r.status == Completed <==> outcome.Returned? && outcome.result.success
    ensures IsFinished(r)
    ensures outcome.Returned? ==> r.result == Some(outcome.result)
    ensures outcome.Raised? ==> r.result == Some(ProcessResult(false, None, Some(outcome.message)))
  {
    match outcome
    case Returned(res) => p.(status := if res.success then Completed else Failed, result := Some(res))
    case Raised(m) => p.(status := Failed, result := Some(ProcessResult(false, None, Some(m))))
  }

  predicate Succeeded(outcome: Outcome<ProcessResult>) {
    outcome.Returned? && outcome.result.success
  }

  /** The running map after `_on_process_complete` drops all but the 10 newest finished entries. */
  function PruneProcesses(procs: seq<ProcessInfo>): seq<ProcessInfo> {
    Prune(procs, PId, IsFinished, PStart, ProcessHistory)
  }

  /** Where the entry with this id is in a map modelled as a sequence of entries, if anywhere. */
  function FindById<T>(entries: seq<T>, key: T -> string, id: string): (r: Option<nat>)
    ensures r.Some? ==> r.value < |entries| && key(entries[r.value]) == id
    ensures r.None? ==> forall i :: 0 <= i < |entries| ==> key(entries[i]) != id
  {
    if entries == [] then None
    else if key(entries[|entries| - 1]) == id then Some(|entries| - 1)
    else FindById(entries[..|entries| - 1], key, id)
  }

  /** The torrent a new queue item carries: from the given parameters when they are non-empty, else from the hash alone. */
  function TorrentFor(hash: string, params: Option<Dict>): Result<TorrentInfo, Error> {
    if params.Some? && params.value != map[] then FromQbittorrentParams(params.value) else FromHashOnly(hash)
  }

  // ------------------------------------------------------------ copy operations

  /** An entry of the list `add_copy_operations` receives. */
  datatype CopyRequest = CopyRequest(hash: string, name: string, ssdPath: string, hddPath: string, size: Option<int>)

  /** A request in the copy queue, with the fields `add_copy_operations` sets on it. */
  datatype QueuedCopy = QueuedCopy(request: CopyRequest, batchId: string, queuedTime: int, id: string)

  datatype CopyResult = CopyResult(success: bool, torrentHash: Option<string>, torrentName: Option<string>, error: Option<string>)

  /** The dict `_start_copy_operation` tracks, with what `_on_copy_complete` adds. */
  datatype CopyInfo = CopyInfo(
    id: string,
    batchId: string,
    torrentHash: string,
    torrentName: string,
    startTime: int,
    status: ServiceStatus,
    ssdPath: string,
    hddPath: string,
    size: int,
    result: Option<CopyResult>,
    endTime: Option<int>,
    duration: Option<int>)

  function CId(c: CopyInfo): string { c.id }
  function CStart(c: CopyInfo): int { c.startTime }
  function QId(q: QueuedCopy): string { q.id }
  predicate CopyFinished(c: CopyInfo) { c.status == Completed || c.status == Failed }

  /** The requests of one call, in order, all in one batch; ids counted from `firstId`. */
  function Queued(ops: seq<CopyRequest>, batchId: string, now: int, firstId: nat): (r: seq<QueuedCopy>)
    ensures |r| == |ops|
    ensures forall i :: 0 <= i < |ops| ==> r[i] == QueuedCopy(ops[i], batchId, now, IntToString(firstId + i))
  {
    seq(|ops|, i requires 0 <= i < |ops| => QueuedCopy(ops[i], batchId, now, IntToString(firstId + i)))
  }

  lemma {:induction false} QueuedSnoc(ops: seq<CopyRequest>, i: nat, batchId: string, now: int, firstId: nat)
    requires i < |ops|
    ensures Queued(ops[..i + 1], batchId, now, firstId) == Queued(ops[..i], batchId, now, firstId) + [QueuedCopy(ops[i], batchId, now, IntToString(firstId + i))]
  {
  }

  /** All requests added in one call share the batch id, and each has an id of its own, none equal to the batch id. */
  lemma {:induction false} BatchIdsDistinct(ops: seq<CopyRequest>, n: nat, now: int)
    ensures var qs := Queued(ops, IntToString(n), now, n + 1);
      DistinctIds(qs, QId) &&
      (forall i :: 0 <= i < |qs| ==> qs[i].batchId == IntToString(n) && qs[i].id != IntToString(n))
  {
    var qs := Queued(ops, IntToString(n), now, n + 1);
    forall i, j | 0 <= i < j < |qs|
      ensures QId(qs[i]) != QId(qs[j])
    {
      assert qs[i].id == IntToString(n + 1 + i) && qs[j].id == IntToString(n + 1 + j);
      IdsDiffer(n + 1 + i, n + 1 + j);
    }
    forall i | 0 <= i < |qs|
      ensures qs[i].batchId == IntToString(n) && qs[i].id != IntToString(n)
    {
      assert qs[i].id == IntToString(n + 1 + i);
      IdsDiffer(n + 1 + i, n);
    }
  }

  function NewCopy(q: QueuedCopy, now: int): CopyInfo {
    CopyInfo(q.id, q.batchId, q.request.hash, q.request.name, now, Running, q.request.ssdPath, q.request.hddPath,
             (match q.request.size case Some(s) => s case None => 0), None, None, None)
  }

  function StartedCopies(qs: seq<QueuedCopy>, now: int): (r: seq<CopyInfo>)
    ensures |r| == |qs|
    ensures forall i :: 0 <= i < |qs| ==> r[i] == NewCopy(qs[i], now)
  {
    seq(|qs|, i requires 0 <= i < |qs| => NewCopy(qs[i], now))
  }

  lemma {:induction false} StartedCopiesSnoc(qs: seq<QueuedCopy>, k: nat, now: int)
    requires k < |qs|
    ensures StartedCopies(qs[..k + 1], now) == StartedCopies(qs[..k], now) + [NewCopy(qs[k], now)]
  {
  }

  /** The tracked copy once its worker is done, with its end time and duration. */
  function FinishCopy(c: CopyInfo, outcome: Outcome<CopyResult>, now: int): (r: CopyInfo)
    ensures r.id == c.id && r.batchId == c.batchId && r.startTime == c.startTime
    ensures r.status == Completed <==> outcome.Returned? && outcome.result.success
    ensures CopyFinished(r)
    ensures r.endTime == Some(now) && r.duration == Some(now - c.startTime)
  {
    match outcome
    case Returned(res) =>
      c.(status := if res.success then Completed else Failed, result := Some(res), endTime := Some(now), duration := Some(now - c.startTime))
    case Raised(m) =>
      c.(status := Failed, result := Some(CopyResult(false, None, None, Some(m))), endTime := Some(now), duration := Some(now - c.startTime))
  }

  function PruneCopies(cs: seq<CopyInfo>): seq<CopyInfo> {
    Prune(cs, CId, CopyFinished, CStart, CopyHistory)
  }

  // ------------------------------------------------------------ status reports

  function InBatch(b: string): CopyInfo -> bool { (c: CopyInfo) => c.batchId == b }
  function QueuedInBatch(b: string): QueuedCopy -> bool { (q: QueuedCopy) => q.batchId == b }
  predicate CopyRunning(c: CopyInfo) { c.status == Running }
  predicate CopyCompleted(c: CopyInfo) { c.status == Completed }
  predicate CopyFailed(c: CopyInfo) { c.status == Failed }

  /** One element of the `operations` list; the size is None where the report says "Unknown". */
  datatype OperationView = OperationView(
    id: string, batchId: string, torrentHash: string, torrentName: string, status: string,
    startTime: int, durationSeconds: int, size: Option<int>)

  datatype CopyStatus = CopyStatus(
    batchId: Option<string>, running: nat, completed: nat, failed: nat, queued: nat, operations: seq<OperationView>)

  function ViewOf(c: CopyInfo, now: int): OperationView {
    OperationView(c.id, c.batchId, c.torrentHash, c.torrentName, c.status.Value(), c.startTime,
                  (match c.duration case Some(d) => d case None => now - c.startTime),
                  if c.size != 0 then Some(c.size) else None)
  }

  function Views(cs: seq<CopyInfo>, now: int): (r: seq<OperationView>)
    ensures |r| == |cs| && forall i :: 0 <= i < |cs| ==> r[i] == ViewOf(cs[i], now)
  {
    seq(|cs|, i requires 0 <= i < |cs| => ViewOf(cs[i], now))
  }

  /** Every tracked copy is running, completed or failed, and only one of them. */
  lemma {:induction false} StatusPartition(cs: seq<CopyInfo>)
    ensures Count(cs, CopyRunning) + Count(cs, CopyCompleted) + Count(cs, CopyFailed) == |cs|
  {
    if cs != [] {
      var init, last := cs[..|cs| - 1], cs[|cs| - 1];
      assert cs == init + [last];
      StatusPartition(init);
      CountSnoc(init, last, CopyRunning);
      CountSnoc(init, last, CopyCompleted);
      CountSnoc(init, last, CopyFailed);
    }
  }

  datatype ProcessingStatus = ProcessingStatus(runningProcesses: nat, maxConcurrent: int, queueSize: nat, capacityAvailable: int)

  datatype CopyCapacity = CopyCapacity(runningCopies: nat, maxConcurrentCopies: int, copyQueueSize: nat, copyCapacityAvailable: int)

  datatype ProcessView = ProcessView(id: string, torrentHash: string, status: string, startTime: int, durationSeconds: int)

  datatype Status = Status(
    uptimeSeconds: int, lastActivity: int, processing: ProcessingStatus, copies: CopyCapacity,
    statistics: Stats, processes: seq<ProcessView>)

  function ProcessViews(ps: seq<ProcessInfo>, now: int): (r: seq<ProcessView>)
    ensures |r| == |ps|
    ensures forall i :: 0 <= i < |ps| ==> r[i].id == ps[i].id && r[i].status == ps[i].status.Value()
  {
    seq(|ps|, i requires 0 <= i < |ps| => ProcessView(ps[i].id, ps[i].torrentHash, ps[i].status.Value(), ps[i].startTime, now - ps[i].startTime))
  }

  // ------------------------------------------------------------ restore helpers

  /** `state.statistics.get(key, 0)`, kept only when it is an integer. */
  function RestoredCounter(st: Dict, key: string, current: int): int {
    match Get(st, key, VInt(0))
    case VInt(i) => i
    case _ => current
  }

  /**
    * The queue `restore_orchestrator_state` leaves: the saved items, then the
    * interrupted processes, appended up to the first failure, and the whole
    * queue re-sorted when nothing failed.
    */
  function RestoredQueue(queue: seq<QueueItem>, s: ServiceState, now: int): seq<QueueItem> {
    var a := Collected(s.queueItems, RestoreItem);
    var b := Collected(s.runningProcesses, RequeueAt(now));
    var appended := queue + a.0 + (if a.1 then b.0 else []);
    if a.1 && b.1 then SortBy(appended, QueueLeq) else appended
  }

  /** The statistics it leaves: the two counters are copied only when everything was appended and the dict is non-empty. */
  function RestoredStats(st: Stats, s: ServiceState, now: int): Stats {
    var a := Collected(s.queueItems, RestoreItem);
    var b := Collected(s.runningProcesses, RequeueAt(now));
    if a.1 && b.1 && s.statistics != map[]
    then st.(torrentsProcessed := RestoredCounter(s.statistics, "torrents_processed", st.torrentsProcessed),
             spaceManagementRuns := RestoredCounter(s.statistics, "space_management_runs", st.spaceManagementRuns))
    else st
  }

  // ------------------------------------------------------------ the dispatch bound

  /** The occupancy `_process_queue` compares with the maximum: every entry of the running map, history included. */
  function OccupiedAsWritten(procs: seq<ProcessInfo>): nat { |procs| }

  /** The occupancy evidently meant: the entries still running. */
  function Busy(procs: seq<ProcessInfo>): nat { Count(procs, IsRunning) }

  /** How many queued items a dispatch pass would start if it counted only running entries. */
  function CorrectedDispatch(procs: seq<ProcessInfo>, queued: nat, max: int): (k: nat)
    ensures k <= queued
    ensures k == queued || Busy(procs) + k >= max
    ensures Busy(procs) < max && queued > 0 ==> k > 0
  {
    DispatchCount(Busy(procs), queued, max)
  }

  function Done(id: string, start: int): ProcessInfo {
    ProcessInfo(id, "", start, Completed, None, None, None)
  }

  /**
    * As written, three finished torrents stop the queue for good under the
    * default maximum of three: the history keeps them (it keeps up to ten), so
    * the map never shrinks below three entries, and a dispatch pass starts
    * nothing although nothing is running.
    */
  lemma {:induction false} HistoryStallsDispatch(queued: nat)
    requires queued > 0
    ensures var procs := [Done("0", 0), Done("1", 1), Done("2", 2)];
      PruneProcesses(procs) == procs &&
      Busy(procs) == 0 &&
      DispatchCount(OccupiedAsWritten(procs), queued, DefaultMaxProcesses) == 0 &&
      CorrectedDispatch(procs, queued, DefaultMaxProcesses) > 0
  {
    var procs := [Done("0", 0), Done("1", 1), Done("2", 2)];
    assert PruneProcesses(procs) == procs by {
      assert Count(procs, IsFinished) == 3 by {
        assert Filter(procs, IsFinished) == procs by { FilterAll(procs, IsFinished); }
      }
      SmallHistoryKept(procs, PId, IsFinished, PStart, ProcessHistory);
    }
    assert Busy(procs) == 0 by {
      FilterNone(procs, IsRunning);
    }
    assert OccupiedAsWritten(procs) == DefaultMaxProcesses;
  }

  /** Once at least three entries are finished, every later prune keeps at least three, so the stall lasts. */
  lemma {:induction false} StallPersists(procs: seq<ProcessInfo>)
    requires DistinctIds(procs, PId) && Count(procs, IsFinished) >= DefaultMaxProcesses
    ensures OccupiedAsWritten(PruneProcesses(procs)) >= DefaultMaxProcesses
    ensures DispatchCount(OccupiedAsWritten(PruneProcesses(procs)), |procs|, DefaultMaxProcesses) == 0
  {
    PruneKeepsNewest(procs, PId, IsFinished, PStart, ProcessHistory);
  }

  /** Pruning never changes the corrected occupancy: it removes finished entries only. */
  lemma {:induction false} BusyAfterPrune(procs: seq<ProcessInfo>)
    requires DistinctIds(procs, PId)
    ensures Busy(PruneProcesses(procs)) == Busy(procs)
  {
    PruneKeepsUnfinished(procs, PId, IsFinished, PStart, ProcessHistory);
    FilterRunning(procs);
    FilterRunning(PruneProcesses(procs));
  }

  lemma {:induction false} FilterRunning(procs: seq<ProcessInfo>)
    ensures Filter(procs, IsRunning) == Filter(procs, Unfinished(IsFinished))
  {
    if procs != [] {
      assert IsRunning(procs[0]) == Unfinished(IsFinished)(procs[0]);
      FilterRunning(procs[1..]);
    }
  }

  /** How many queued copies a copy dispatch pass would start if it counted only running copies. */
  function CorrectedCopyDispatch(copies: seq<CopyInfo>, queued: nat, max: int): (k: nat)
    ensures k <= queued
    ensures k == queued || Count(copies, CopyRunning) + k >= max
    ensures Count(copies, CopyRunning) < max && queued > 0 ==> k > 0
  {
    DispatchCount(Count(copies, CopyRunning), queued, max)
  }

  function DoneCopy(id: string, start: int): CopyInfo {
    CopyInfo(id, "", "", "", start, Completed, "", "", 0, None, None, None)
  }

  /**
    * The copy queue stalls the same way: under the default maximum of one, a
    * single finished copy stays in the running map (the history keeps up to
    * twenty), and `_process_copy_queue` starts nothing although nothing is copying.
    */
  lemma {:induction false} CopyHistoryStallsDispatch(queued: nat)
    requires queued > 0
    ensures var copies := [DoneCopy("0", 0)];
      PruneCopies(copies) == copies &&
      Count(copies, CopyRunning) == 0 &&
      DispatchCount(|copies|, queued, DefaultMaxCopies) == 0 &&
      CorrectedCopyDispatch(copies, queued, DefaultMaxCopies) > 0
  {
    var copies := [DoneCopy("0", 0)];
    assert PruneCopies(copies) == copies by {
      assert Count(copies, CopyFinished) == 1 by {
        assert Filter(copies, CopyFinished) == copies by { FilterAll(copies, CopyFinished); }
      }
      SmallHistoryKept(copies, CId, CopyFinished, CStart, CopyHistory);
    }
    assert Count(copies, CopyRunning) == 0 by {
      FilterNone(copies, CopyRunning);
    }
  }

  /** Once a copy has finished, every later prune keeps one, so the copy queue stays stalled. */
  lemma {:induction false} CopyStallPersists(copies: seq<CopyInfo>, queued: nat)
    requires DistinctIds(copies, CId) && Count(copies, CopyFinished) >= DefaultMaxCopies
    ensures |PruneCopies(copies)| >= DefaultMaxCopies
    ensures DispatchCount(|PruneCopies(copies)|, queued, DefaultMaxCopies) == 0
  {
    PruneKeepsNewest(copies, CId, CopyFinished, CStart, CopyHistory);
  }

  // ------------------------------------------------------------ id invariants

  /** Every process entry has an id of its own, handed out before `n`. */
  predicate ProcessIdsOk(ps: seq<ProcessInfo>, n: nat) {
    DistinctIds(ps, PId) && forall i :: 0 <= i < |ps| ==> IdBelow(ps[i].id, n)
  }

  /** Tracked and queued copies have ids of their own, handed out before `n`. */
  predicate CopyIdsOk(cs: seq<CopyInfo>, qs: seq<QueuedCopy>, n: nat) {
    && DistinctIds(cs, CId)
    && DistinctIds(qs, QId)
    && (forall i, j :: 0 <= i < |cs| && 0 <= j < |qs| ==> cs[i].id != qs[j].id)
    && (forall i :: 0 <= i < |cs| ==> IdBelow(cs[i].id, n))
    && (forall j :: 0 <= j < |qs| ==> IdBelow(qs[j].id, n))
  }

  lemma {:induction false} IdsOkLater(ps: seq<ProcessInfo>, cs: seq<CopyInfo>, qs: seq<QueuedCopy>, n: nat)
    requires ProcessIdsOk(ps, n) && CopyIdsOk(cs, qs, n)
    ensures ProcessIdsOk(ps, n + 1) && CopyIdsOk(cs, qs, n + 1)
  {
  }

  lemma {:induction false} ProcessAdded(ps: seq<ProcessInfo>, n: nat, p: ProcessInfo)
    requires ProcessIdsOk(ps, n) && p.id == IntToString(n)
    ensures ProcessIdsOk(ps + [p], n + 1)
  {
    forall i | 0 <= i < |ps|
      ensures ps[i].id != p.id
    {
      NextIdFresh(n, n, ps[i].id);
    }
  }

  lemma {:induction false} ProcessesFiltered(ps: seq<ProcessInfo>, n: nat, keep: ProcessInfo -> bool)
    requires ProcessIdsOk(ps, n)
    ensures ProcessIdsOk(Filter(ps, keep), n)
  {
    FilterKeepsDistinct(ps, keep, PId);
  }

  lemma {:induction false} ProcessFinished(ps: seq<ProcessInfo>, n: nat, i: nat, outcome: Outcome<ProcessResult>)
    requires ProcessIdsOk(ps, n) && i < |ps|
    ensures ProcessIdsOk(ps[i := Finish(ps[i], outcome)], n)
  {
    var done := ps[i := Finish(ps[i], outcome)];
    forall j | 0 <= j < |done|
      ensures PId(done[j]) == PId(ps[j]) && done[j].id == ps[j].id
    {
    }
  }

  lemma {:induction false} CopyQueued(cs: seq<CopyInfo>, qs: seq<QueuedCopy>, n: nat, q: QueuedCopy)
    requires CopyIdsOk(cs, qs, n) && q.id == IntToString(n)
    ensures CopyIdsOk(cs, qs + [q], n + 1)
  {
    forall i | 0 <= i < |cs|
      ensures cs[i].id != q.id
    {
      NextIdFresh(n, n, cs[i].id);
    }
    forall j | 0 <= j < |qs|
      ensures qs[j].id != q.id
    {
      NextIdFresh(n, n, qs[j].id);
    }
  }

  lemma {:induction false} CopyStarted(cs: seq<CopyInfo>, qs: seq<QueuedCopy>, n: nat, now: int)
    requires CopyIdsOk(cs, qs, n) && qs != []
    ensures CopyIdsOk(cs + [NewCopy(qs[0], now)], qs[1..], n)
  {
    forall j | 0 <= j < |qs[1..]|
      ensures qs[1..][j].id != qs[0].id
    {
      assert qs[1..][j] == qs[j + 1];
    }
  }

  lemma {:induction false} CopiesFiltered(cs: seq<CopyInfo>, qs: seq<QueuedCopy>, n: nat, keep: CopyInfo -> bool)
    requires CopyIdsOk(cs, qs, n)
    ensures CopyIdsOk(Filter(cs, keep), qs, n)
  {
    FilterKeepsDistinct(cs, keep, CId);
  }

  lemma {:induction false} CopyFinishedKeepsIds(cs: seq<CopyInfo>, qs: seq<QueuedCopy>, n: nat, i: nat, outcome: Outcome<CopyResult>, now: int)
    requires CopyIdsOk(cs, qs, n) && i < |cs|
    ensures CopyIdsOk(cs[i := FinishCopy(cs[i], outcome, now)], qs, n)
  {
    var done := cs[i := FinishCopy(cs[i], outcome, now)];
    forall j | 0 <= j < |done|
      ensures CId(done[j]) == CId(cs[j]) && done[j].id == cs[j].id
    {
    }
  }

  // ------------------------------------------------------------ the orchestrator

  class Orchestrator {
    var runningProcesses: seq<ProcessInfo>
    var processQueue: seq<QueueItem>
    var runningCopies: seq<CopyInfo>
    var copyQueue: seq<QueuedCopy>
    var stats: Stats
    var shutdownInProgress: bool
    /** The next number the id source hands out. */
    var nextId: nat
    /** Space-management runs submitted to the executor. */
    var spaceManagementRequests: nat
    const maxProcesses: int
    const maxCopies: int

    /** Every tracked entry has an id of its own, handed out by the id source. */
    ghost predicate Valid()
      reads this
    {
      ProcessIdsOk(runningProcesses, nextId) && CopyIdsOk(runningCopies, copyQueue, nextId)
    }

    /** `__init__`, before it restores the previous state. */
    constructor (maxProcesses: int, maxCopies: int, now: int)
      ensures Valid()
      ensures this.maxProcesses == maxProcesses && this.maxCopies == maxCopies
      ensures runningProcesses == [] && processQueue == [] && runningCopies == [] && copyQueue == []
      ensures stats == Stats(now, 0, 0, 0, now, 0, 0)
      ensures !shutdownInProgress && nextId == 0 && spaceManagementRequests == 0
    {
      this.maxProcesses := maxProcesses;
      this.maxCopies := maxCopies;
      runningProcesses := [];
      processQueue := [];
      runningCopies := [];
      copyQueue := [];
      stats := Stats(now, 0, 0, 0, now, 0, 0);
      shutdownInProgress := false;
      nextId := 0;
      spaceManagementRequests := 0;
    }

    /** `str(uuid.uuid4())` */
    method NewId() returns (id: string)
      requires Valid()
      modifies this
      ensures Valid()
      ensures id == IntToString(old(nextId)) && nextId == old(nextId) + 1
      ensures runningProcesses == old(runningProcesses) && processQueue == old(processQueue)
      ensures runningCopies == old(runningCopies) && copyQueue == old(copyQueue)
      ensures stats == old(stats) && shutdownInProgress == old(shutdownInProgress)
      ensures spaceManagementRequests == old(spaceManagementRequests)
    {
      IdsOkLater(runningProcesses, runningCopies, copyQueue, nextId);
      id := IntToString(nextId);
      nextId := nextId + 1;
    }

    /** `_start_torrent_processing`: the item gets a new process entry, RUNNING. */
    method StartTorrentProcessing(item: QueueItem, now: int)
      requires Valid()
      modifies this
      ensures Valid()
      ensures runningProcesses == old(runningProcesses) + [NewProcess(IntToString(old(nextId)), item, now)]
      ensures nextId == old(nextId) + 1
      ensures processQueue == old(processQueue) && runningCopies == old(runningCopies) && copyQueue == old(copyQueue)
      ensures stats == old(stats) && shutdownInProgress == old(shutdownInProgress)
      ensures spaceManagementRequests == old(spaceManagementRequests)
    {
      ProcessAdded(runningProcesses, nextId, NewProcess(IntToString(nextId), item, now));
      var id := NewId();
      runningProcesses := runningProcesses + [NewProcess(id, item, now)];
    }

    /**
      * `_process_queue`: pops from the front while the running map holds
      * fewer entries than the maximum, then asks for space management when the
      * queue has emptied.  Afterwards the queue is empty or the map is full.
      */
    method ProcessQueue(now: int)
      requires Valid()
      modifies this
      ensures Valid()
      ensures var k := DispatchCount(OccupiedAsWritten(old(runningProcesses)), |old(processQueue)|, maxProcesses);
        && processQueue == old(processQueue)[k..]
        && runningProcesses == old(runningProcesses) + Started(old(processQueue)[..k], old(nextId), now)
        && nextId == old(nextId) + k
      ensures processQueue == [] || |runningProcesses| >= maxProcesses
      ensures spaceManagementRequests == old(spaceManagementRequests) + (if processQueue == [] then 1 else 0)
      ensures runningCopies == old(runningCopies) && copyQueue == old(copyQueue)
      ensures stats == old(stats) && shutdownInProgress == old(shutdownInProgress)
    {
      ghost var q0, p0, n0 := processQueue, runningProcesses, nextId;
      var k := 0;
      while |runningProcesses| < maxProcesses && processQueue != []
        invariant Valid()
        invariant 0 <= k <= |q0| && processQueue == q0[k..]
        invariant runningProcesses == p0 + Started(q0[..k], n0, now) && nextId == n0 + k
        invariant k > 0 ==> |p0| + k <= maxProcesses
        invariant runningCopies == old(runningCopies) && copyQueue == old(copyQueue)
        invariant stats == old(stats) && shutdownInProgress == old(shutdownInProgress)
        invariant spaceManagementRequests == old(spaceManagementRequests)
        decreases |processQueue|
      {
        var item := processQueue[0];
        assert item == q0[k];
        processQueue := processQueue[1..];
        StartTorrentProcessing(item, now);
        StartedSnoc(q0, k, n0, now);
        k := k + 1;
      }
      DispatchCountUnique(|p0|, |q0|, maxProcesses, k);
      if processQueue == [] {
        spaceManagementRequests := spaceManagementRequests + 1;
      }
    }

    /** The end of the space-management run `_trigger_space_management` submitted; an exception counts nothing. */
    method OnSpaceManagementComplete(succeeded: bool, now: int)
      modifies this
      ensures succeeded ==> stats == old(stats).(spaceManagementRuns := old(stats).spaceManagementRuns + 1, lastActivity := now)
      ensures !succeeded ==> stats == old(stats)
      ensures runningProcesses == old(runningProcesses) && processQueue == old(processQueue)
      ensures runningCopies == old(runningCopies) && copyQueue == old(copyQueue)
      ensures shutdownInProgress == old(shutdownInProgress) && nextId == old(nextId)
      ensures spaceManagementRequests == old(spaceManagementRequests)
    {
      if succeeded {
        stats := stats.(spaceManagementRuns := stats.spaceManagementRuns + 1, lastActivity := now);
      }
    }

    /**
      * `add_to_queue`: refused during shutdown; otherwise the new item is
      * appended, whatever hashes are already queued, the queue is re-sorted
      * and a dispatch pass runs.  The result is the new item's id.
      */
    method AddToQueue(hash: string, params: Option<Dict>, priority: int, now: int) returns (r: Result<string, ServiceError>)
      requires Valid()
      modifies this
      ensures Valid()
      ensures old(shutdownInProgress) ==> r == Failure(ShuttingDown)
      ensures !old(shutdownInProgress) && TorrentFor(hash, params).Failure? ==> r == Failure(InvalidTorrent(TorrentFor(hash, params).error))
      ensures r.Failure? ==> unchanged(this)
      ensures r.Success? ==>
        && !old(shutdownInProgress) && TorrentFor(hash, params).Success?
        && r.value == IntToString(old(nextId))
        && var q := SortBy(old(processQueue) + [QueueItem(r.value, TorrentFor(hash, params).value, now, priority)], QueueLeq);
           var k := DispatchCount(OccupiedAsWritten(old(runningProcesses)), |q|, maxProcesses);
           && processQueue == q[k..]
           && runningProcesses == old(runningProcesses) + Started(q[..k], old(nextId) + 1, now)
           && nextId == old(nextId) + 1 + k
      ensures r.Success? ==> SortedBy(processQueue, QueueLeq)
      ensures r.Success? ==> runningCopies == old(runningCopies) && copyQueue == old(copyQueue) && stats == old(stats)
      ensures r.Success? ==> !shutdownInProgress && spaceManagementRequests == old(spaceManagementRequests) + (if processQueue == [] then 1 else 0)
    {
      if shutdownInProgress {
        return Failure(ShuttingDown);
      }
      var t := TorrentFor(hash, params);
      if t.Failure? {
        return Failure(InvalidTorrent(t.error));
      }
      var id := NewId();
      var item := QueueItem(id, t.value, now, priority);
      processQueue := SortBy(processQueue + [item], QueueLeq);
      QueueLeqTotalPreorder();
      SortBySorted(old(processQueue) + [item], QueueLeq);
      ghost var q := processQueue;
      ProcessQueue(now);
      SortedSuffix(q, |q| - |processQueue|);
      r := Success(id);
    }

    /** `_start_copy_operation`: the request just popped becomes a RUNNING tracked copy under its own id. */
    method StartCopyOperation(q: QueuedCopy, now: int)
      requires ProcessIdsOk(runningProcesses, nextId) && CopyIdsOk(runningCopies + [NewCopy(q, now)], copyQueue, nextId)
      modifies this
      ensures Valid()
      ensures runningCopies == old(runningCopies) + [NewCopy(q, now)]
      ensures runningProcesses == old(runningProcesses) && processQueue == old(processQueue) && copyQueue == old(copyQueue)
      ensures stats == old(stats) && nextId == old(nextId) && shutdownInProgress == old(shutdownInProgress)
      ensures spaceManagementRequests == old(spaceManagementRequests)
    {
      runningCopies := runningCopies + [NewCopy(q, now)];
    }

    /** `_process_copy_queue`: pops requests while fewer than the maximum copies are tracked. */
    method ProcessCopyQueue(now: int)
      requires Valid()
      modifies this
      ensures Valid()
      ensures var k := DispatchCount(|old(runningCopies)|, |old(copyQueue)|, maxCopies);
        && copyQueue == old(copyQueue)[k..]
        && runningCopies == old(runningCopies) + StartedCopies(old(copyQueue)[..k], now)
      ensures copyQueue == [] || |runningCopies| >= maxCopies
      ensures runningProcesses == old(runningProcesses) && processQueue == old(processQueue)
      ensures stats == old(stats) && nextId == old(nextId) && shutdownInProgress == old(shutdownInProgress)
      ensures spaceManagementRequests == old(spaceManagementRequests)
    {
      ghost var q0, c0 := copyQueue, runningCopies;
      var k := 0;
      while |runningCopies| < maxCopies && copyQueue != []
        invariant Valid()
        invariant 0 <= k <= |q0| && copyQueue == q0[k..]
        invariant runningCopies == c0 + StartedCopies(q0[..k], now)
        invariant k > 0 ==> |c0| + k <= maxCopies
        invariant runningProcesses == old(runningProcesses) && processQueue == old(processQueue)
        invariant stats == old(stats) && nextId == old(nextId) && shutdownInProgress == old(shutdownInProgress)
        invariant spaceManagementRequests == old(spaceManagementRequests)
        decreases |copyQueue|
      {
        var q := copyQueue[0];
        assert q == q0[k];
        CopyStarted(runningCopies, copyQueue, nextId, now);
        copyQueue := copyQueue[1..];
        StartCopyOperation(q, now);
        StartedCopiesSnoc(q0, k, now);
        k := k + 1;
      }
      DispatchCountUnique(|c0|, |q0|, maxCopies, k);
    }

    /** `add_copy_operations`: refused during shutdown; otherwise one batch id for the call, a new id per request, then a dispatch pass. */
    method AddCopyOperations(ops: seq<CopyRequest>, now: int) returns (r: Result<string, ServiceError>)
      requires Valid()
      modifies this
      ensures Valid()
      ensures old(shutdownInProgress) ==> r == Failure(ShuttingDown) && unchanged(this)
      ensures !old(shutdownInProgress) ==>
        && r == Success(IntToString(old(nextId)))
        && var q := old(copyQueue) + Queued(ops, r.value, now, old(nextId) + 1);
           var k := DispatchCount(|old(runningCopies)|, |q|, maxCopies);
           && copyQueue == q[k..]
           && runningCopies == old(runningCopies) + StartedCopies(q[..k], now)
           && nextId == old(nextId) + 1 + |ops|
      ensures runningProcesses == old(runningProcesses) && processQueue == old(processQueue) && stats == old(stats)
      ensures shutdownInProgress == old(shutdownInProgress) && spaceManagementRequests == old(spaceManagementRequests)
    {
      if shutdownInProgress {
        return Failure(ShuttingDown);
      }
      var batchId := NewId();
      EnqueueCopies(ops, batchId, now);
      ProcessCopyQueue(now);
      r := Success(batchId);
    }

    /** The loop of `add_copy_operations`: each request joins the queue with the batch id, the time and an id of its own. */
    method EnqueueCopies(ops: seq<CopyRequest>, batchId: string, now: int)
      requires Valid()
      modifies this
      ensures Valid()
      ensures copyQueue == old(copyQueue) + Queued(ops, batchId, now, old(nextId))
      ensures nextId == old(nextId) + |ops|
      ensures runningProcesses == old(runningProcesses) && processQueue == old(processQueue) && stats == old(stats)
      ensures runningCopies == old(runningCopies) && shutdownInProgress == old(shutdownInProgress)
      ensures spaceManagementRequests == old(spaceManagementRequests)
    {
      ghost var q0, n0 := copyQueue, nextId;
      var i := 0;
      while i < |ops|
        invariant Valid()
        invariant 0 <= i <= |ops| && nextId == n0 + i
        invariant copyQueue == q0 + Queued(ops[..i], batchId, now, n0)
        invariant runningProcesses == old(runningProcesses) && processQueue == old(processQueue) && stats == old(stats)
        invariant runningCopies == old(runningCopies) && shutdownInProgress == old(shutdownInProgress)
        invariant spaceManagementRequests == old(spaceManagementRequests)
      {
        EnqueueCopy(ops[i], batchId, now);
        QueuedSnoc(ops, i, batchId, now, n0);
        i := i + 1;
      }
      assert ops[..i] == ops;
    }

    /** One step of that loop. */
    method EnqueueCopy(op: CopyRequest, batchId: string, now: int)
      requires Valid()
      modifies this
      ensures Valid()
      ensures copyQueue == old(copyQueue) + [QueuedCopy(op, batchId, now, IntToString(old(nextId)))]
      ensures nextId == old(nextId) + 1
      ensures runningProcesses == old(runningProcesses) && processQueue == old(processQueue) && stats == old(stats)
      ensures runningCopies == old(runningCopies) && shutdownInProgress == old(shutdownInProgress)
      ensures spaceManagementRequests == old(spaceManagementRequests)
    {
      CopyQueued(runningCopies, copyQueue, nextId, QueuedCopy(op, batchId, now, IntToString(nextId)));
      var id := NewId();
      copyQueue := copyQueue + [QueuedCopy(op, batchId, now, id)];
    }

    /**
      * `_on_process_complete`: an id not in the running map is ignored.
      * Otherwise the entry takes the worker's outcome, `torrents_processed`
      * grows by one exactly on success, all but the ten newest finished
      * entries are deleted, and a dispatch pass runs.
      */
    method OnProcessComplete(id: string, outcome: Outcome<ProcessResult>, now: int)
      requires Valid()
      modifies this
      ensures Valid()
      ensures FindById(old(runningProcesses), PId, id).None? ==> unchanged(this)
      ensures FindById(old(runningProcesses), PId, id).Some? ==>
        var i := FindById(old(runningProcesses), PId, id).value;
        var pruned := PruneProcesses(old(runningProcesses)[i := Finish(old(runningProcesses)[i], outcome)]);
        var k := DispatchCount(OccupiedAsWritten(pruned), |old(processQueue)|, maxProcesses);
        && processQueue == old(processQueue)[k..]
        && runningProcesses == pruned + Started(old(processQueue)[..k], old(nextId), now)
        && nextId == old(nextId) + k
        && stats == old(stats).(torrentsProcessed := old(stats).torrentsProcessed + (if Succeeded(outcome) then 1 else 0), lastActivity := now)
        && spaceManagementRequests == old(spaceManagementRequests) + (if processQueue == [] then 1 else 0)
      ensures runningCopies == old(runningCopies) && copyQueue == old(copyQueue)
      ensures shutdownInProgress == old(shutdownInProgress)
    {
      var found := FindById(runningProcesses, PId, id);
      if found.None? {
        return;
      }
      RecordProcessCompletion(found.value, outcome);
      ProcessQueue(now);
      stats := stats.(lastActivity := now);
    }

    /** The bookkeeping in `_on_process_complete` before its dispatch pass: the outcome is recorded, counted and the history pruned. */
    method RecordProcessCompletion(i: nat, outcome: Outcome<ProcessResult>)
      requires Valid() && i < |runningProcesses|
      modifies this
      ensures Valid()
      ensures runningProcesses == PruneProcesses(old(runningProcesses)[i := Finish(old(runningProcesses)[i], outcome)])
      ensures stats == old(stats).(torrentsProcessed := old(stats).torrentsProcessed + (if Succeeded(outcome) then 1 else 0))
      ensures processQueue == old(processQueue) && runningCopies == old(runningCopies) && copyQueue == old(copyQueue)
      ensures nextId == old(nextId) && shutdownInProgress == old(shutdownInProgress)
      ensures spaceManagementRequests == old(spaceManagementRequests)
    {
      MarkFinished(i, outcome);
      stats := stats.(torrentsProcessed := stats.torrentsProcessed + (if Succeeded(outcome) then 1 else 0));
      PruneProcessHistory();
    }

    /** The entry at `i` takes the worker's outcome. */
    method MarkFinished(i: nat, outcome: Outcome<ProcessResult>)
      requires Valid() && i < |runningProcesses|
      modifies this
      ensures Valid()
      ensures runningProcesses == old(runningProcesses)[i := Finish(old(runningProcesses)[i], outcome)]
      ensures processQueue == old(processQueue) && runningCopies == old(runningCopies) && copyQueue == old(copyQueue)
      ensures stats == old(stats) && nextId == old(nextId) && shutdownInProgress == old(shutdownInProgress)
      ensures spaceManagementRequests == old(spaceManagementRequests)
    {
      ProcessFinished(runningProcesses, nextId, i, outcome);
      runningProcesses := runningProcesses[i := Finish(runningProcesses[i], outcome)];
    }

    /** The clean-up in `_on_process_complete`: all but the ten newest finished entries are deleted. */
    method PruneProcessHistory()
      requires Valid()
      modifies this
      ensures Valid()
      ensures runningProcesses == PruneProcesses(old(runningProcesses))
      ensures processQueue == old(processQueue) && runningCopies == old(runningCopies) && copyQueue == old(copyQueue)
      ensures stats == old(stats) && nextId == old(nextId) && shutdownInProgress == old(shutdownInProgress)
      ensures spaceManagementRequests == old(spaceManagementRequests)
    {
      var oldest := Oldest(runningProcesses, IsFinished, PStart, ProcessHistory);
      var pruned := DeleteEach(runningProcesses, oldest, PId);
      ProcessesFiltered(runningProcesses, nextId, OutsideOf(IdsOf(oldest, PId), PId));
      runningProcesses := pruned;
    }

    /**
      * `_on_copy_complete`: an unknown id is ignored.  Otherwise the copy
      * takes its outcome, end time and duration, exactly one of the completed
      * and failed counters grows, all but the twenty newest finished copies
      * are deleted, and a copy dispatch pass runs.
      */
    method OnCopyComplete(id: string, outcome: Outcome<CopyResult>, now: int)
      requires Valid()
      modifies this
      ensures Valid()
      ensures FindById(old(runningCopies), CId, id).None? ==> unchanged(this)
      ensures FindById(old(runningCopies), CId, id).Some? ==>
        var i := FindById(old(runningCopies), CId, id).value;
        var success := outcome.Returned? && outcome.result.success;
        var pruned := PruneCopies(old(runningCopies)[i := FinishCopy(old(runningCopies)[i], outcome, now)]);
        var k := DispatchCount(|pruned|, |old(copyQueue)|, maxCopies);
        && copyQueue == old(copyQueue)[k..]
        && runningCopies == pruned + StartedCopies(old(copyQueue)[..k], now)
        && stats == old(stats).(copyOperationsCompleted := old(stats).copyOperationsCompleted + (if success then 1 else 0),
                                copyOperationsFailed := old(stats).copyOperationsFailed + (if success then 0 else 1),
                                lastActivity := now)
      ensures runningProcesses == old(runningProcesses) && processQueue == old(processQueue)
      ensures nextId == old(nextId) && shutdownInProgress == old(shutdownInProgress)
      ensures spaceManagementRequests == old(spaceManagementRequests)
    {
      var found := FindById(runningCopies, CId, id);
      if found.None? {
        return;
      }
      RecordCopyCompletion(found.value, outcome, now);
      ProcessCopyQueue(now);
      stats := stats.(lastActivity := now);
    }

    /** The bookkeeping in `_on_copy_complete` before its dispatch pass: the outcome is recorded, counted and the history pruned. */
    method RecordCopyCompletion(i: nat, outcome: Outcome<CopyResult>, now: int)
      requires Valid() && i < |runningCopies|
      modifies this
      ensures Valid()
      ensures runningCopies == PruneCopies(old(runningCopies)[i := FinishCopy(old(runningCopies)[i], outcome, now)])
      ensures var success := outcome.Returned? && outcome.result.success;
        stats == old(stats).(copyOperationsCompleted := old(stats).copyOperationsCompleted + (if success then 1 else 0),
                             copyOperationsFailed := old(stats).copyOperationsFailed + (if success then 0 else 1))
      ensures runningProcesses == old(runningProcesses) && processQueue == old(processQueue) && copyQueue == old(copyQueue)
      ensures nextId == old(nextId) && shutdownInProgress == old(shutdownInProgress)
      ensures spaceManagementRequests == old(spaceManagementRequests)
    {
      CopyFinishedKeepsIds(runningCopies, copyQueue, nextId, i, outcome, now);
      runningCopies := runningCopies[i := FinishCopy(runningCopies[i], outcome, now)];
      if outcome.Returned? && outcome.result.success {
        stats := stats.(copyOperationsCompleted := stats.copyOperationsCompleted + 1);
      } else {
        stats := stats.(copyOperationsFailed := stats.copyOperationsFailed + 1);
      }
      PruneCopyHistory();
    }

    /** The clean-up in `_on_copy_complete`: all but the twenty newest finished copies are deleted. */
    method PruneCopyHistory()
      requires Valid()
      modifies this
      ensures Valid()
      ensures runningCopies == PruneCopies(old(runningCopies))
      ensures runningProcesses == old(runningProcesses) && processQueue == old(processQueue) && copyQueue == old(copyQueue)
      ensures stats == old(stats) && nextId == old(nextId) && shutdownInProgress == old(shutdownInProgress)
      ensures spaceManagementRequests == old(spaceManagementRequests)
    {
      var oldest := Oldest(runningCopies, CopyFinished, CStart, CopyHistory);
      var pruned := DeleteEach(runningCopies, oldest, CId);
      CopiesFiltered(runningCopies, copyQueue, nextId, OutsideOf(IdsOf(oldest, CId), CId));
      runningCopies := pruned;
    }

    /**
      * `get_copy_operations_status`: a non-empty batch id restricts the report
      * to that batch; the running, completed and failed counts split the
      * reported operations.
      */
    function CopyOperationsStatus(batchId: Option<string>, now: int): (r: CopyStatus)
      reads this
      ensures r.running + r.completed + r.failed == |r.operations|
      ensures r.batchId == batchId
      ensures batchId.None? || batchId.value == "" ==> |r.operations| == |runningCopies| && r.queued == |copyQueue|
      ensures batchId.Some? && batchId.value != "" ==>
        (forall i :: 0 <= i < |r.operations| ==> r.operations[i].batchId == batchId.value) &&
        r.queued == Count(copyQueue, QueuedInBatch(batchId.value)) &&
        |r.operations| == Count(runningCopies, InBatch(batchId.value))
    {
      var filtered := batchId.Some? && batchId.value != "";
      var ops := if filtered then Filter(runningCopies, InBatch(batchId.value)) else runningCopies;
      var queued := if filtered then Count(copyQueue, QueuedInBatch(batchId.value)) else |copyQueue|;
      StatusPartition(ops);
      CopyStatus(batchId, Count(ops, CopyRunning), Count(ops, CopyCompleted), Count(ops, CopyFailed), queued, Views(ops, now))
    }

    /**
      * `get_status`.  The reported capacity is positive exactly when a
      * dispatch pass would start a queued item.
      */
    function GetStatus(now: int): (r: Status)
      reads this
      ensures r.processing.capacityAvailable > 0 <==> DispatchCount(OccupiedAsWritten(runningProcesses), 1, maxProcesses) == 1
      ensures r.processing.runningProcesses + r.processing.capacityAvailable == maxProcesses
      ensures r.copies.copyCapacityAvailable > 0 <==> DispatchCount(|runningCopies|, 1, maxCopies) == 1
      ensures |r.processes| == |runningProcesses| && r.processing.queueSize == |processQueue|
    {
      Status(now - stats.serviceStartTime, stats.lastActivity,
             ProcessingStatus(|runningProcesses|, maxProcesses, |processQueue|, maxProcesses - |runningProcesses|),
             CopyCapacity(|runningCopies|, maxCopies, |copyQueue|, maxCopies - |runningCopies|),
             stats, ProcessViews(runningProcesses, now))
    }

    /** `clear_queue`: empties the queue and reports how many items it held; nothing else changes. */
    method ClearQueue() returns (cleared: nat)
      requires Valid()
      modifies this
      ensures Valid()
      ensures cleared == |old(processQueue)| && processQueue == []
      ensures runningProcesses == old(runningProcesses) && runningCopies == old(runningCopies) && copyQueue == old(copyQueue)
      ensures stats == old(stats) && nextId == old(nextId) && shutdownInProgress == old(shutdownInProgress)
      ensures spaceManagementRequests == old(spaceManagementRequests)
    {
      cleared := |processQueue|;
      processQueue := [];
    }

    /** `shutdown`: no new work from now on, and the snapshot when one is asked for. */
    method Shutdown(saveState: bool, now: int) returns (snapshot: Option<ServiceState>)
      requires Valid()
      modifies this
      ensures Valid()
      ensures shutdownInProgress
      ensures saveState ==> snapshot == Some(ServiceState(PersistedItems(processQueue), PersistedRunning(runningProcesses), StatsDict(stats), now, StateVersion))
      ensures !saveState ==> snapshot == None
      ensures runningProcesses == old(runningProcesses) && processQueue == old(processQueue)
      ensures runningCopies == old(runningCopies) && copyQueue == old(copyQueue)
      ensures stats == old(stats) && nextId == old(nextId) && spaceManagementRequests == old(spaceManagementRequests)
    {
      shutdownInProgress := true;
      snapshot := None;
      if saveState {
        var s := SaveOrchestratorState(processQueue, runningProcesses, StatsDict(stats), now);
        snapshot := Some(s);
      }
    }

    /**
      * `restore_orchestrator_state`: the saved queue items, then the
      * interrupted processes, are appended one by one; a failure stops there,
      * leaving what was appended.  When all was appended the queue is
      * re-sorted and, for a non-empty statistics dict, the two counters are
      * copied.
      */
    method RestoreOrchestratorState(state: Option<ServiceState>, now: int)
      requires Valid()
      modifies this
      ensures Valid()
      ensures state.None? ==> unchanged(this)
      ensures state.Some? ==>
        && processQueue == RestoredQueue(old(processQueue), state.value, now)
        && stats == RestoredStats(old(stats), state.value, now)
      ensures runningProcesses == old(runningProcesses) && runningCopies == old(runningCopies) && copyQueue == old(copyQueue)
      ensures nextId == old(nextId) && shutdownInProgress == old(shutdownInProgress)
      ensures spaceManagementRequests == old(spaceManagementRequests)
    {
      if state.None? {
        return;
      }
      var s := state.value;
      var items, itemsOk := CollectEach(s.queueItems, RestoreItem);
      processQueue := processQueue + items;
      if !itemsOk {
        return;
      }
      var requeued, requeuedOk := CollectEach(s.runningProcesses, RequeueAt(now));
      processQueue := processQueue + requeued;
      if !requeuedOk {
        return;
      }
      processQueue := SortBy(processQueue, QueueLeq);
      if s.statistics != map[] {
        stats := stats.(torrentsProcessed := RestoredCounter(s.statistics, "torrents_processed", stats.torrentsProcessed),
                        spaceManagementRuns := RestoredCounter(s.statistics, "space_management_runs", stats.spaceManagementRuns));
      }
    }

    /**
      * `_restore_previous_state`: load the snapshot and, if it is accepted,
      * restore it and run a dispatch pass.  Without an accepted snapshot
      * nothing changes.
      */
    method RestorePreviousState(fileExists: bool, doc: Option<Value>, now: int)
      requires Valid()
      modifies this
      ensures Valid()
      ensures Loaded(fileExists, doc, now).None? ==> unchanged(this)
      ensures Loaded(fileExists, doc, now).Some? ==>
        var q := RestoredQueue(old(processQueue), Loaded(fileExists, doc, now).value, now);
        var k := DispatchCount(OccupiedAsWritten(old(runningProcesses)), |q|, maxProcesses);
        && processQueue == q[k..]
        && runningProcesses == old(runningProcesses) + Started(q[..k], old(nextId), now)
        && nextId == old(nextId) + k
        && stats == RestoredStats(old(stats), Loaded(fileExists, doc, now).value, now)
        && spaceManagementRequests == old(spaceManagementRequests) + (if processQueue == [] then 1 else 0)
      ensures Loaded(fileExists, doc, now).Some? ==> processQueue == [] || |runningProcesses| >= maxProcesses
      ensures runningCopies == old(runningCopies) && copyQueue == old(copyQueue)
      ensures shutdownInProgress == old(shutdownInProgress)
    {
      var state := LoadOrchestratorState(fileExists, doc, now);
      if state.Some? {
        RestoreOrchestratorState(state, now);
        ProcessQueue(now);
      }
    }
  }

  /** A suffix of a sorted queue is sorted. */
  lemma {:induction false} SortedSuffix(q: seq<QueueItem>, k: nat)
    requires SortedBy(q, QueueLeq) && k <= |q|
    ensures SortedBy(q[k..], QueueLeq)
  {
    forall i, j | 0 <= i < j < |q[k..]|
      ensures QueueLeq(q[k..][i], q[k..][j])
    {
      assert q[k..][i] == q[k + i] && q[k..][j] == q[k + j];
    }
  }

  /**
    * `add_to_queue` never de-duplicates: after the re-sort the queue holds
    * every earlier item and the new one, so the items for any hash grow by
    * exactly one.
    */
  lemma {:induction false} AddedWithoutDeduplication(queue: seq<QueueItem>, item: QueueItem, h: string)
    ensures var q := SortBy(queue + [item], QueueLeq);
      multiset(q) == multiset(queue) + multiset{item} &&
      Count(q, HashIs(h)) == Count(queue, HashIs(h)) + (if item.torrent.Hash() == h then 1 else 0)
  {
    var q := SortBy(queue + [item], QueueLeq);
    SortByPermutes(queue + [item], QueueLeq);
    FilterPermutation(queue + [item], q, HashIs(h));
    CountSnoc(queue, item, HashIs(h));
    assert |Filter(q, HashIs(h))| == |multiset(Filter(q, HashIs(h)))|;
  }

  function HashIs(h: string): QueueItem -> bool {
    (q: QueueItem) => q.torrent.Hash() == h
  }

  /**
    * When the saved records are valid, restoring a snapshot gives back every
    * saved queue item as it was and one restored item per interrupted process,
    * and the re-sorted queue holds all of them.
    */
  lemma {:induction false} SnapshotRequeuesEverything(queue: seq<QueueItem>, interrupted: seq<PersistedProcessInfo>, now: int)
    requires forall i :: 0 <= i < |queue| ==> ValidInfo(queue[i].torrent)
    requires forall i :: 0 <= i < |interrupted| ==> IsBtih(interrupted[i].torrentHash)
    ensures var a := Collected(PersistedItems(queue), RestoreItem);
      var b := Collected(interrupted, RequeueAt(now));
      a == (queue, true) && b.1 && |b.0| == |interrupted| &&
      |SortBy(a.0 + b.0, QueueLeq)| == |queue| + |interrupted|
  {
    SavedQueueRestored(queue);
    InterruptedRequeued(interrupted, now);
    var b := Collected(interrupted, RequeueAt(now));
    SortByLength(queue + b.0, QueueLeq);
  }
}
