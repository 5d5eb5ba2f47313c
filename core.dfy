/**
  * The relocation policy of core.py: notification of Sonarr/Radarr, the
  * relocate-and-delete sequence with its safety check, the copy-retry loop
  * of single-torrent processing, and SSD space management.  qBittorrent,
  * the file system and the clock are oracles passed in as parameters.
  * Sizes and thresholds are whole bytes, times whole seconds.
  */
module Core {
  import opened Wrappers
  import opened Text
  import opened Values
  import opened Sequences
  import opened Paths
  import opened Classes

  // ------------------------------------------------------------ notify_arr_scan_downloads

  /** `config.ARR_CONFIG` */
  datatype ArrConfig = ArrConfig(
    notifyEnabled: bool,
    sonarrUrl: string, sonarrApiKey: string,
    radarrUrl: string, radarrApiKey: string)

  /** The POST `notify_arr_scan_downloads` builds: endpoint, `X-Api-Key` header and JSON payload. */
  datatype ArrCommand = ArrCommand(
    endpoint: string, apiKey: string,
    name: string, downloadClientId: string, path: Option<string>)

  datatype NotifyOutcome = NotSent | WouldSend(command: ArrCommand) | Sent(command: ArrCommand)

  const CommandPath := "/api/v3/command"

  /**
    * `notify_arr_scan_downloads(service_type, download_id, arr_config, hdd_path)`
    * with `hdd_path` "" standing for both None and the empty string.
    */
  function NotifyArrScanDownloads(serviceType: string, downloadId: string, cfg: ArrConfig, hddPath: string, dryRun: bool)
    : (r: NotifyOutcome)
    ensures r != NotSent <==>
              && cfg.notifyEnabled
              && (serviceType == "sonarr" || serviceType == "radarr")
              && (if serviceType == "sonarr" then RStripChar(cfg.sonarrUrl, '/') != "" && cfg.sonarrApiKey != ""
                  else RStripChar(cfg.radarrUrl, '/') != "" && cfg.radarrApiKey != "")
    ensures r.WouldSend? <==> r != NotSent && dryRun
    ensures r != NotSent && serviceType == "sonarr" ==>
              r.command == ArrCommand(RStripChar(cfg.sonarrUrl, '/') + CommandPath, cfg.sonarrApiKey,
                                      "DownloadedEpisodesScan", downloadId, r.command.path)
    ensures r != NotSent && serviceType == "radarr" ==>
              r.command == ArrCommand(RStripChar(cfg.radarrUrl, '/') + CommandPath, cfg.radarrApiKey,
                                      "DownloadedMoviesScan", downloadId, r.command.path)
    ensures r != NotSent ==> r.command.path == (if hddPath != "" then Some(hddPath) else None)
    ensures r != NotSent ==> r.command.endpoint == Endpoint(ServiceUrl(serviceType, cfg))
  {
    if !cfg.notifyEnabled then NotSent
    else if serviceType != "sonarr" && serviceType != "radarr" then NotSent
    else
      var sonarr := serviceType == "sonarr";
      var baseUrl := RStripChar(if sonarr then cfg.sonarrUrl else cfg.radarrUrl, '/');
      var apiKey := if sonarr then cfg.sonarrApiKey else cfg.radarrApiKey;
      var command := if sonarr then "DownloadedEpisodesScan" else "DownloadedMoviesScan";
      if baseUrl == "" || apiKey == "" then NotSent
      else
        var cmd := ArrCommand(baseUrl + CommandPath, apiKey, command, downloadId,
                              if hddPath != "" then Some(hddPath) else None);
        if dryRun then WouldSend(cmd) else Sent(cmd)
  }

  /** The configured URL of the service a notification goes to. */
  function ServiceUrl(serviceType: string, cfg: ArrConfig): string {
    if serviceType == "sonarr" then cfg.sonarrUrl else cfg.radarrUrl
  }

  /** The command endpoint for a configured URL: trailing slashes dropped, then the command path. */
  function Endpoint(url: string): string {
    RStripChar(url, '/') + CommandPath
  }

  /**
    * However many slashes the configured URL ends with, the endpoint has exactly
    * one before `api`, and cutting the command path off gives back the base URL.
    */
  lemma {:induction false} EndpointJoinsOnce(serviceType: string, downloadId: string, cfg: ArrConfig, hddPath: string, dryRun: bool)
    requires NotifyArrScanDownloads(serviceType, downloadId, cfg, hddPath, dryRun) != NotSent
    ensures var e := NotifyArrScanDownloads(serviceType, downloadId, cfg, hddPath, dryRun).command.endpoint;
            var url := ServiceUrl(serviceType, cfg);
            var base := e[..|e| - |CommandPath|];
            |e| > |CommandPath| && e[|e| - |CommandPath|..] == CommandPath &&
            base == RStripChar(url, '/') && base != "" && base[|base| - 1] != '/' && base <= url
  {
    var r := NotifyArrScanDownloads(serviceType, downloadId, cfg, hddPath, dryRun);
    var url := ServiceUrl(serviceType, cfg);
    assert RStripChar(url, '/') != "" && r.command.endpoint == Endpoint(url);
    EndpointOf(url);
  }

  /** The endpoint built from a URL that is not all slashes. */
  lemma {:induction false} EndpointOf(url: string)
    requires RStripChar(url, '/') != ""
    ensures var base := RStripChar(url, '/'); var e := Endpoint(url);
            |e| > |CommandPath| && e[|e| - |CommandPath|..] == CommandPath && e[..|e| - |CommandPath|] == base &&
            base[|base| - 1] != '/' && base <= url
  {
    var base := RStripChar(url, '/');
    var e := base + CommandPath;
    assert e[..|base|] == base;
    assert e[|base|..] == CommandPath;
  }

  // ------------------------------------------------------------ routing in process_single_torrent_optimized

  /** The service a category is routed to: case-insensitive equality, the Sonarr tag checked first. */
  function ServiceFor(category: string, sonarrTag: string, radarrTag: string): (r: Option<string>)
    ensures r == Some("sonarr") <==> Lower(category) == Lower(sonarrTag)
    ensures r == Some("radarr") <==> Lower(category) != Lower(sonarrTag) && Lower(category) == Lower(radarrTag)
    ensures r.None? <==> Lower(category) != Lower(sonarrTag) && Lower(category) != Lower(radarrTag)
  {
    if Lower(category) == Lower(sonarrTag) then Some("sonarr")
    else if Lower(category) == Lower(radarrTag) then Some("radarr")
    else None
  }

  lemma {:induction false} LowerIdempotent(s: string)
    ensures Lower(Lower(s)) == Lower(s)
  {
    if s != [] {
      LowerIdempotent(s[1..]);
      assert Lower(s)[1..] == Lower(s[1..]);
    }
  }

  /** Routing ignores the case of the category. */
  lemma {:induction false} RoutingIgnoresCase(category: string, sonarrTag: string, radarrTag: string)
    ensures ServiceFor(Lower(category), sonarrTag, radarrTag) == ServiceFor(category, sonarrTag, radarrTag)
  {
    LowerIdempotent(category);
  }

  // ------------------------------------------------------------ process_single_torrent_optimized

  /** Where a torrent's data goes on the HDD: `join(join(FINAL_DEST_BASE_HDD, category), name.strip())`. */
  function HddDataPath(hddBase: string, t: TorrentInfo): string {
    PJoin(PJoin(hddBase, t.category), Strip(t.name))
  }

  /** `max(1, COPY_RETRY_ATTEMPTS)` */
  function MaxCopyAttempts(retryAttempts: int): (n: nat)
    ensures n >= 1 && n >= retryAttempts
  {
    if retryAttempts > 1 then retryAttempts else 1
  }

  /** Attempt k verifies when its copy raises nothing and then verification passes; a dry run assumes it does. */
  predicate AttemptVerified(k: nat, dryRun: bool, copyOk: nat -> bool, verifyOk: nat -> bool) {
    copyOk(k) && (dryRun || verifyOk(k))
  }

  /** The notification a verified copy leads to. */
  function NotificationFor(t: TorrentInfo, hddBase: string, sonarrTag: string, radarrTag: string, arr: ArrConfig, dryRun: bool)
    : Option<NotifyOutcome>
  {
    match ServiceFor(t.category, sonarrTag, radarrTag)
    case None => None
    case Some(service) => Some(NotifyArrScanDownloads(service, t.Hash(), arr, HddDataPath(hddBase, t), dryRun))
  }

  /**
    * `process_single_torrent_optimized`.  `destExists` and `existingVerifies`
    * describe a destination left by an earlier run; `copyOk(k)` and `verifyOk(k)`
    * are attempt k's copy (no exception) and verification.  The result says
    * whether the copy was verified, how many attempts were made, whether
    * `add_hdd_tag` was called, and the notification sent.
    */
  method ProcessSingleTorrentOptimized(
    t: TorrentInfo, hddBase: string, retryAttempts: int, dryRun: bool,
    sonarrTag: string, radarrTag: string, arr: ArrConfig,
    destExists: bool, existingVerifies: bool, copyOk: nat -> bool, verifyOk: nat -> bool)
    returns (success: bool, attempts: nat, hddTagged: bool, notification: Option<NotifyOutcome>)
    ensures destExists && existingVerifies ==> success && attempts == 0
    ensures !(destExists && existingVerifies) ==>
              && 1 <= attempts <= MaxCopyAttempts(retryAttempts)
              && (forall k :: 1 <= k < attempts ==> !AttemptVerified(k, dryRun, copyOk, verifyOk))
              && (success <==> AttemptVerified(attempts, dryRun, copyOk, verifyOk))
              && (!success ==> attempts == MaxCopyAttempts(retryAttempts))
    ensures hddTagged <==> success
    ensures notification == if success then NotificationFor(t, hddBase, sonarrTag, radarrTag, arr, dryRun) else None
  {
    var copyVerified := false;
    attempts := 0;
    if destExists && existingVerifies {
      copyVerified := true;
    }
    if !copyVerified {
      var maxAttempts := MaxCopyAttempts(retryAttempts);
      var attempt := 1;
      while attempt <= maxAttempts
        invariant 1 <= attempt <= maxAttempts + 1
        invariant attempts == attempt - 1
        invariant forall k :: 1 <= k < attempt ==> !AttemptVerified(k, dryRun, copyOk, verifyOk)
        invariant !copyVerified
      {
        attempts := attempt;
        var copySucceeded := copyOk(attempt);
        if copySucceeded {
          if dryRun {
            copyVerified := true;
            break;
          } else if verifyOk(attempt) {
            copyVerified := true;
            break;
          }
        }
        if attempt == maxAttempts {
          break;
        }
        attempt := attempt + 1;
      }
    }
    success := copyVerified;
    hddTagged := false;
    if success {
      hddTagged := true;
      notification := NotificationFor(t, hddBase, sonarrTag, radarrTag, arr, dryRun);
    } else {
      notification := None;
    }
  }

  // ------------------------------------------------------------ relocate_and_delete_ssd

  /** How the safety check before deletion ends. */
  datatype SafetyCheck =
    | Compared     // both paths were resolved and compared
    | PathMissing  // FileNotFoundError: the data counts as already gone
    | CheckRaised  // any other exception

  /** What qBittorrent and the file system answer during a relocation. */
  datatype RelocationFacts = RelocationFacts(
    found: bool,               // get_torrent_by_hash found the torrent
    active: bool,              // its state is one of the downloading/uploading/stalled/queued/checking/forced states
    pauseOk: bool,             // torrents_pause raised nothing
    setLocationOk: bool,       // torrents_set_location raised nothing
    destExists: bool,          // the expected HDD path already exists
    copyOk: bool,              // the fallback copy raised nothing
    copyVerified: bool,        // and verify_copy accepted it
    safety: SafetyCheck,       // how the safety check ended
    ssdRoot: Path,             // normpath(realpath(download_path_ssd))
    data: Path,                // normpath(realpath(torrent_info.path))
    dataExists: bool,          // os.path.exists(torrent_info.path) before deletion
    deleteOk: bool,            // rmtree/remove raised nothing
    resumeOk: bool,            // the torrents_resume call inside the main block raised nothing
    errorMentionsResume: bool) // the exception that reached the outer handler mentions "resume"

  /** The calls a relocation makes, in order, whether or not they raise. */
  datatype RelocationCall =
    | Pause
    | SetLocation(dir: string)
    | CopyToHdd(src: string, dst: string)
    | DeleteSsdData(path: string)
    | RemoveSsdTag
    | Resume

  /** The safety check: `commonpath([data, ssd_root]) == ssd_root`. */
  predicate DeletionSafe(ssdRoot: Path, data: Path) {
    CommonPath(data, ssdRoot) == ssdRoot
  }

  /** The safety check holds exactly for data at or below the SSD download root. */
  lemma {:induction false} DeletionSafeIff(ssdRoot: Path, data: Path)
    ensures DeletionSafe(ssdRoot, data) <==> ssdRoot <= data
  {
    CommonPathIff(data, ssdRoot);
  }

  /** The torrent was paused if it had to be, and its location was set. */
  predicate Located(f: RelocationFacts) {
    (!f.active || f.pauseOk) && f.setLocationOk
  }

  /** The data is on the HDD: it was there already, or a copy was made and verified. */
  predicate DestinationReady(f: RelocationFacts) {
    f.destExists || (f.copyOk && f.copyVerified)
  }

  /** `delete_successful`: the safety check found the path missing, or passed and the data is gone. */
  predicate SsdDataGone(f: RelocationFacts) {
    || f.safety == PathMissing
    || (f.safety == Compared && DeletionSafe(f.ssdRoot, f.data) && (f.dataExists ==> f.deleteOk))
  }

  /** The retry in the outer `except`: a started torrent is resumed once more unless the message mentions "resume". */
  function Retried(f: RelocationFacts): seq<RelocationCall> {
    if f.active && !f.errorMentionsResume then [Resume] else []
  }

  /** The outer `except`: failure, after the calls made so far and the retry. */
  function Aborted(calls: seq<RelocationCall>, f: RelocationFacts): (bool, seq<RelocationCall>) {
    (false, calls + Retried(f))
  }

  /** The calls of a failure exit that resumes a started torrent first; a resume that raises reaches the outer handler. */
  function ResumeThenFail(f: RelocationFacts): (r: seq<RelocationCall>)
    ensures forall i :: 0 <= i < |r| ==> r[i] == Resume
    ensures f.active <==> Resume in r
  {
    if !f.active then [] else [Resume] + (if f.resumeOk then [] else Retried(f))
  }

  /** The end of the main block: the SSD tag goes when the data is gone, then a started torrent is resumed. */
  function Concluded(deleted: bool, f: RelocationFacts): (r: (bool, seq<RelocationCall>))
    ensures r.0 <==> deleted && (!f.active || f.resumeOk)
    ensures RemoveSsdTag in r.1 <==> deleted
    ensures forall i :: 0 <= i < |r.1| ==> r.1[i].RemoveSsdTag? || r.1[i].Resume?
    ensures f.active <==> Resume in r.1
    ensures f.active ==> r.1[|r.1| - 1] == Resume
  {
    var tag := if deleted then [RemoveSsdTag] else [];
    if !f.active then (deleted, tag)
    else (deleted && f.resumeOk, tag + [Resume] + (if f.resumeOk then [] else Retried(f)))
  }

  /** A call the main block can make once the data is on the HDD. */
  predicate AfterMove(c: RelocationCall) {
    c.DeleteSsdData? || c.RemoveSsdTag? || c.Resume?
  }

  /**
    * The main block once the data is on the HDD: the safety check, the
    * deletion of the SSD data at `src`, the tag removal and the resume.
    * The result carries only the calls made from here on.
    */
  function Cleared(src: string, f: RelocationFacts): (r: (bool, seq<RelocationCall>))
    ensures r.0 <==> SsdDataGone(f) && (!f.active || f.resumeOk)
    ensures RemoveSsdTag in r.1 <==> SsdDataGone(f)
    ensures DeleteSsdData(src) in r.1 <==> f.safety == Compared && DeletionSafe(f.ssdRoot, f.data) && f.dataExists
    ensures forall i :: 0 <= i < |r.1| ==> AfterMove(r.1[i])
    ensures !f.active ==> Resume !in r.1
    ensures r.0 && f.active ==> r.1 != [] && r.1[|r.1| - 1] == Resume
    ensures f.active && Resume !in r.1 ==> f.errorMentionsResume || f.safety == CheckRaised
    ensures f.safety == CheckRaised ==> r == (false, [])
  {
    match f.safety
    case CheckRaised => (false, [])
    case PathMissing => Concluded(true, f)
    case Compared =>
      if !DeletionSafe(f.ssdRoot, f.data) then (false, ResumeThenFail(f))
      else
        var deletion := if f.dataExists then [DeleteSsdData(src)] else [];
        var c := Concluded(!f.dataExists || f.deleteOk, f);
        (c.0, deletion + c.1)
  }

  /**
    * The main block of `relocate_and_delete_ssd` for a torrent that was found,
    * with its data at `src`, the HDD category directory `dir` and the expected
    * HDD path `expected`: pause, move, fallback copy, safety check, deletion,
    * tag removal and resume, with every exit the source has.
    */
  function Moved(src: string, dir: string, expected: string, f: RelocationFacts): (r: (bool, seq<RelocationCall>))
    ensures r.0 <==> Located(f) && DestinationReady(f) && SsdDataGone(f) && (!f.active || f.resumeOk)
    ensures RemoveSsdTag in r.1 <==> Located(f) && DestinationReady(f) && SsdDataGone(f)
    ensures DeleteSsdData(src) in r.1 <==>
              Located(f) && DestinationReady(f) && f.safety == Compared && DeletionSafe(f.ssdRoot, f.data) && f.dataExists
  {
    var paused := if f.active then [Pause] else [];
    if f.active && !f.pauseOk then Aborted(paused, f)
    else
      var located := paused + [SetLocation(dir)];
      if !f.setLocationOk then Aborted(located, f)
      else
        var copied := located + (if f.destExists then [] else [CopyToHdd(src, expected)]);
        if !DestinationReady(f) then (false, copied + ResumeThenFail(f))
        else
          var c := Cleared(src, f);
          (c.0, copied + c.1)
  }

  /**
    * The order of the qBittorrent calls: the location is set unless the pause
    * raised, an active torrent is paused first and, on success, resumed last,
    * and an inactive torrent is neither paused nor resumed.
    */
  lemma {:induction false} MovedPausesFirst(src: string, dir: string, expected: string, f: RelocationFacts)
    ensures var r := Moved(src, dir, expected, f);
      && (SetLocation(dir) in r.1 <==> !f.active || f.pauseOk)
      && (f.active ==> r.1 != [] && r.1[0] == Pause)
      && (!f.active ==> Pause !in r.1 && Resume !in r.1)
      && (r.0 && f.active ==> r.1[|r.1| - 1] == Resume)
  {
  }

  /**
    * An active torrent is left paused only when the safety check raised
    * something other than FileNotFoundError, which returns without resuming,
    * or when the error that reached the outer handler mentions "resume".
    */
  lemma {:induction false} MovedLeavesPaused(src: string, dir: string, expected: string, f: RelocationFacts)
    ensures var r := Moved(src, dir, expected, f);
      && (f.active && Resume !in r.1 ==> f.errorMentionsResume || (Located(f) && DestinationReady(f) && f.safety == CheckRaised))
      && (Located(f) && DestinationReady(f) && f.safety == CheckRaised ==> !r.0 && Resume !in r.1)
  {
  }

  /** `relocate_and_delete_ssd`: the result and the calls made. */
  function RelocateAndDeleteSsd(t: TorrentInfo, hddBase: string, dryRun: bool, f: RelocationFacts)
    : (r: (bool, seq<RelocationCall>))
    ensures dryRun ==> r == (true, [])
    ensures !dryRun && !f.found ==> r == (false, [])
    ensures !dryRun && f.found ==>
              && (r.0 <==> Located(f) && DestinationReady(f) && SsdDataGone(f) && (!f.active || f.resumeOk))
              && (RemoveSsdTag in r.1 <==> Located(f) && DestinationReady(f) && SsdDataGone(f))
              && (DeleteSsdData(t.Path()) in r.1 ==> DeletionSafe(f.ssdRoot, f.data) && DestinationReady(f))
  {
    if dryRun then (true, [])
    else if !f.found then (false, [])
    else
      var hddBaseDir := PJoin(hddBase, t.category);
      Moved(t.Path(), hddBaseDir, PJoin(hddBaseDir, Strip(t.name)), f)
  }

  /** For a found torrent: Pause first when active, the move to `hdd/category`, Resume last on success, none after a safety check that raised. */
  lemma {:induction false} RelocationCallOrder(t: TorrentInfo, hddBase: string, f: RelocationFacts)
    requires f.found
    ensures var r := RelocateAndDeleteSsd(t, hddBase, false, f);
      && (SetLocation(PJoin(hddBase, t.category)) in r.1 <==> !f.active || f.pauseOk)
      && (f.active ==> r.1 != [] && r.1[0] == Pause)
      && (r.0 && f.active ==> r.1[|r.1| - 1] == Resume)
      && (Located(f) && DestinationReady(f) && f.safety == CheckRaised ==> Resume !in r.1)
  {
    var hddBaseDir := PJoin(hddBase, t.category);
    var expected := PJoin(hddBaseDir, Strip(t.name));
    assert RelocateAndDeleteSsd(t, hddBase, false, f) == Moved(t.Path(), hddBaseDir, expected, f);
    MovedPausesFirst(t.Path(), hddBaseDir, expected, f);
    MovedLeavesPaused(t.Path(), hddBaseDir, expected, f);
  }

  // ------------------------------------------------------------ manage_ssd_space

  /** The fields of a qBittorrent torrent record that space management reads. */
  datatype QbtTorrent = QbtTorrent(
    hash: string, name: string, contentPath: string, size: int,
    category: string, tags: string, completionOn: Value, lastActivity: Value)

  /** A relocation candidate: the record, its size and its completion timestamp. */
  datatype Candidate = Candidate(info: TorrentInfo, size: int, timestamp: int)

  /**
    * The completion timestamp: `completion_on`, else `last_activity`, else now;
    * a string that `int()` rejects becomes now; a value that is not positive
    * (or cannot be compared with 0) skips the torrent.
    */
  function CompletionTimestamp(completionOn: Value, lastActivity: Value, now: int): (r: Option<int>)
    ensures r.Some? ==> r.value > 0
    ensures Truthy(completionOn) && completionOn.VInt? ==>
              r == (if completionOn.i > 0 then Some(completionOn.i) else None)
    ensures !Truthy(completionOn) && Truthy(lastActivity) && lastActivity.VInt? ==>
              r == (if lastActivity.i > 0 then Some(lastActivity.i) else None)
    ensures !Truthy(completionOn) && !Truthy(lastActivity) ==> r == (if now > 0 then Some(now) else None)
    ensures Truthy(completionOn) && completionOn.VStr? && ParseInt(completionOn.s).None? ==>
              r == (if now > 0 then Some(now) else None)
  {
    var raw := if Truthy(completionOn) then completionOn else if Truthy(lastActivity) then lastActivity else VInt(now);
    var stamp: Option<int> :=
      match raw
      case VInt(i) => Some(i)
      case VBool(b) => Some(if b then 1 else 0)
      case VStr(s) => (match ParseInt(s) case Some(i) => Some(i) case None => Some(now))
      case _ => None;
    if stamp.Some? && stamp.value > 0 then stamp else None
  }

  /** Which torrents of the qBittorrent answer are considered at all. */
  predicate OnSsd(t: QbtTorrent, taggingEnabled: bool, hddTag: string, ssdPath: string) {
    if taggingEnabled then Contains(t.tags, hddTag)
    else t.contentPath != "" && StartsWith(t.contentPath, ssdPath)
  }

  /**
    * The record the loop builds for a torrent, as intended: a validated hash and
    * `num_files` from the file list (one file when the file list is unavailable).
    */
  function CandidateInfo(t: QbtTorrent, fileCount: Option<nat>): (r: Result<TorrentInfo, Error>)
    ensures r.Success? <==> IsBtih(t.hash)
    ensures r.Success? ==> r.value.Hash() == t.hash && r.value.contentPath == t.contentPath && r.value.size == t.size
    ensures r.Success? ==> (r.value.IsMultiFile() <==> fileCount.Some? && fileCount.value > 1)
    ensures r.Success? ==> r.value.name == t.name && r.value.category == t.category && r.value.tags == ""
  {
    var h :- Btih(VStr(t.hash));
    Success(TorrentInfo(h, t.name, t.contentPath, "", t.size, fileCount.GetOr(1), "", t.category, "", "", None, ""))
  }

  /**
    * The record the loop builds as written: `TorrentInfo(hash=..., path=...,
    * directory=..., is_multi_file=...)` names fields the dataclass does not
    * have, so construction raises TypeError once the BTIH argument is evaluated.
    */
  function CandidateInfoAsWritten(t: QbtTorrent, fileCount: Option<nat>): (r: Result<TorrentInfo, Error>)
    ensures r.Failure?
  {
    var h :- Btih(VStr(t.hash));
    Failure(TypeError("TorrentInfo.__init__() got an unexpected keyword argument 'hash'"))
  }

  /** The candidate (if any) one torrent contributes; a failed record construction is logged and skipped. */
  function CandidateOf(t: QbtTorrent, taggingEnabled: bool, hddTag: string, ssdPath: string,
                       fileCounts: string -> Option<nat>, now: int,
                       build: (QbtTorrent, Option<nat>) -> Result<TorrentInfo, Error>): seq<Candidate>
  {
    if !OnSsd(t, taggingEnabled, hddTag, ssdPath) then []
    else
      match CompletionTimestamp(t.completionOn, t.lastActivity, now)
      case None => []
      case Some(stamp) =>
        match build(t, fileCounts(t.hash))
        case Failure(_) => []
        case Success(info) => [Candidate(info, t.size, stamp)]
  }

  /** The list `sorted_torrents_on_ssd` holds before it is sorted. */
  function Candidates(ts: seq<QbtTorrent>, taggingEnabled: bool, hddTag: string, ssdPath: string,
                      fileCounts: string -> Option<nat>, now: int,
                      build: (QbtTorrent, Option<nat>) -> Result<TorrentInfo, Error>): seq<Candidate>
  {
    if ts == [] then []
    else Candidates(ts[..|ts| - 1], taggingEnabled, hddTag, ssdPath, fileCounts, now, build)
         + CandidateOf(ts[|ts| - 1], taggingEnabled, hddTag, ssdPath, fileCounts, now, build)
  }

  /** As written, no torrent ever becomes a candidate, so space management never relocates anything. */
  lemma {:induction false} CandidatesAsWrittenEmpty(ts: seq<QbtTorrent>, taggingEnabled: bool, hddTag: string, ssdPath: string,
                                                    fileCounts: string -> Option<nat>, now: int)
    ensures Candidates(ts, taggingEnabled, hddTag, ssdPath, fileCounts, now, CandidateInfoAsWritten) == []
  {
    if ts != [] {
      CandidatesAsWrittenEmpty(ts[..|ts| - 1], taggingEnabled, hddTag, ssdPath, fileCounts, now);
      var t := ts[|ts| - 1];
      assert CandidateInfoAsWritten(t, fileCounts(t.hash)).Failure?;
    }
  }

  /** With the intended record, every torrent on the SSD with a valid hash and a usable timestamp is a candidate. */
  lemma {:induction false} EligibleTorrentIsCandidate(ts: seq<QbtTorrent>, taggingEnabled: bool, hddTag: string, ssdPath: string,
                                                      fileCounts: string -> Option<nat>, now: int, i: nat)
    requires i < |ts| && OnSsd(ts[i], taggingEnabled, hddTag, ssdPath) && IsBtih(ts[i].hash)
    requires CompletionTimestamp(ts[i].completionOn, ts[i].lastActivity, now).Some?
    ensures exists c :: c in Candidates(ts, taggingEnabled, hddTag, ssdPath, fileCounts, now, CandidateInfo) &&
                        c.info.Hash() == ts[i].hash && c.info.name == ts[i].name && c.info.category == ts[i].category &&
                        c.info.contentPath == ts[i].contentPath &&
                        c.timestamp == CompletionTimestamp(ts[i].completionOn, ts[i].lastActivity, now).value
  {
    var init := ts[..|ts| - 1];
    var cs := Candidates(ts, taggingEnabled, hddTag, ssdPath, fileCounts, now, CandidateInfo);
    if i == |ts| - 1 {
      var last := CandidateOf(ts[i], taggingEnabled, hddTag, ssdPath, fileCounts, now, CandidateInfo);
      assert |last| == 1;
      assert last[0] in cs;
    } else {
      EligibleTorrentIsCandidate(init, taggingEnabled, hddTag, ssdPath, fileCounts, now, i);
      var c :| c in Candidates(init, taggingEnabled, hddTag, ssdPath, fileCounts, now, CandidateInfo) &&
               c.info.Hash() == ts[i].hash && c.info.name == ts[i].name && c.info.category == ts[i].category &&
               c.info.contentPath == ts[i].contentPath &&
               c.timestamp == CompletionTimestamp(ts[i].completionOn, ts[i].lastActivity, now).value;
      assert c in cs;
    }
  }

  /** Every candidate comes from a torrent on the SSD with a usable timestamp. */
  lemma {:induction false} CandidateHasSource(ts: seq<QbtTorrent>, taggingEnabled: bool, hddTag: string, ssdPath: string,
                                              fileCounts: string -> Option<nat>, now: int, c: Candidate)
    requires c in Candidates(ts, taggingEnabled, hddTag, ssdPath, fileCounts, now, CandidateInfo)
    ensures exists i :: 0 <= i < |ts| && OnSsd(ts[i], taggingEnabled, hddTag, ssdPath) &&
                        c.info.Hash() == ts[i].hash && c.size == ts[i].size && c.timestamp > 0
  {
    var n := |ts| - 1;
    var init := ts[..n];
    if c in Candidates(init, taggingEnabled, hddTag, ssdPath, fileCounts, now, CandidateInfo) {
      CandidateHasSource(init, taggingEnabled, hddTag, ssdPath, fileCounts, now, c);
      var i :| 0 <= i < |init| && OnSsd(init[i], taggingEnabled, hddTag, ssdPath) &&
               c.info.Hash() == init[i].hash && c.size == init[i].size && c.timestamp > 0;
      assert ts[i] == init[i];
    } else {
      assert c in CandidateOf(ts[n], taggingEnabled, hddTag, ssdPath, fileCounts, now, CandidateInfo);
    }
  }

  /** The loop over the qBittorrent answer that fills `sorted_torrents_on_ssd`. */
  method CollectCandidates(ts: seq<QbtTorrent>, taggingEnabled: bool, hddTag: string, ssdPath: string,
                           fileCounts: string -> Option<nat>, now: int)
    returns (cs: seq<Candidate>)
    ensures cs == Candidates(ts, taggingEnabled, hddTag, ssdPath, fileCounts, now, CandidateInfo)
  {
    cs := [];
    var i := 0;
    while i < |ts|
      invariant 0 <= i <= |ts|
      invariant cs == Candidates(ts[..i], taggingEnabled, hddTag, ssdPath, fileCounts, now, CandidateInfo)
    {
      var t := ts[i];
      assert ts[..i + 1][..i] == ts[..i];
      if OnSsd(t, taggingEnabled, hddTag, ssdPath) {
        var stamp := CompletionTimestamp(t.completionOn, t.lastActivity, now);
        if stamp.Some? {
          var info := CandidateInfo(t, fileCounts(t.hash));
          if info.Success? {
            cs := cs + [Candidate(info.value, t.size, stamp.value)];
          }
        }
      }
      i := i + 1;
    }
    assert ts[..i] == ts;
  }

  /** Oldest first: the sort key is the timestamp. */
  predicate OlderOrSame(a: Candidate, b: Candidate) {
    a.timestamp <= b.timestamp
  }

  lemma {:induction false} OlderOrSameTotalPreorder()
    ensures TotalPreorder(OlderOrSame)
  {
  }

  /** The sorted list is ordered oldest first, holds the same candidates, and keeps ties in collection order. */
  lemma {:induction false} OldestFirst(cs: seq<Candidate>, y: Candidate)
    ensures var s := SortBy(cs, OlderOrSame);
            && multiset(s) == multiset(cs)
            && (forall i, j :: 0 <= i < j < |s| ==> s[i].timestamp <= s[j].timestamp)
            && Filter(s, Equivalent(y, OlderOrSame)) == Filter(cs, Equivalent(y, OlderOrSame))
  {
    OlderOrSameTotalPreorder();
    SortByPermutes(cs, OlderOrSame);
    SortBySorted(cs, OlderOrSame);
    SortByStable(cs, y, OlderOrSame);
  }

  function SizeSum(cs: seq<Candidate>): int {
    if cs == [] then 0 else SizeSum(cs[..|cs| - 1]) + cs[|cs| - 1].size
  }

  /**
    * What the greedy loop achieves on `order` with `needed = threshold - available`:
    * the first `count` candidates were relocated, each while less than `needed`
    * had been freed; `freed` is their total size; and the loop stopped because
    * the list ran out, enough was freed, or the next relocation failed.
    */
  predicate GreedyOutcome(order: seq<Candidate>, needed: int, relocate: TorrentInfo -> bool, count: nat, freed: int, failed: bool) {
    && count <= |order|
    && freed == SizeSum(order[..count])
    && (forall k :: 0 <= k < count ==> relocate(order[k].info) && SizeSum(order[..k]) < needed)
    && (failed <==> count < |order| && freed < needed)
    && (failed ==> !relocate(order[count].info))
  }

  /** The relocation loop: stops once enough is freed or at the first failure. */
  method RelocateOldest(order: seq<Candidate>, needed: int, relocate: TorrentInfo -> bool)
    returns (count: nat, freed: int, failed: bool)
    ensures GreedyOutcome(order, needed, relocate, count, freed, failed)
  {
    count, freed, failed := 0, 0, false;
    while count < |order|
      invariant count <= |order|
      invariant freed == SizeSum(order[..count])
      invariant forall k :: 0 <= k < count ==> relocate(order[k].info) && SizeSum(order[..k]) < needed
      decreases |order| - count
    {
      if freed >= needed {
        break;
      }
      if relocate(order[count].info) {
        assert order[..count + 1][..count] == order[..count];
        freed := freed + order[count].size;
        count := count + 1;
      } else {
        failed := true;
        break;
      }
    }
  }

  /** The relocations attempted are a prefix of the order: the successes, plus the failure that stopped the loop. */
  lemma {:induction false} AttemptsFormPrefix(order: seq<Candidate>, needed: int, relocate: TorrentInfo -> bool, count: nat, freed: int, failed: bool)
    requires GreedyOutcome(order, needed, relocate, count, freed, failed)
    ensures var attempted := if failed then count + 1 else count;
            attempted <= |order| &&
            (forall k :: 0 <= k < attempted ==> (relocate(order[k].info) <==> k < count))
  {
  }

  /** With nothing needed (or already freed), nothing is relocated. */
  lemma {:induction false} NothingNeededNothingMoved(order: seq<Candidate>, needed: int, relocate: TorrentInfo -> bool, count: nat, freed: int, failed: bool)
    requires GreedyOutcome(order, needed, relocate, count, freed, failed) && needed <= 0
    ensures count == 0 && freed == 0 && !failed
  {
    assert order[..0] == [];
  }

  datatype SpaceReport =
    | SpaceUnknown
    | SpaceSufficient
    | NoCandidates
    | ListingFailed
    | Relocated(order: seq<Candidate>, count: nat, freed: int, stoppedOnFailure: bool)

  /**
    * `manage_ssd_space` (with the record construction as intended).
    * `available` is None when the free space cannot be read; `listing` is the
    * qBittorrent answer: completed torrents carrying the SSD tag when tagging is
    * enabled, all completed torrents otherwise, or the text of the exception the
    * request raised, after which nothing is relocated.  `relocate` is
    * `relocate_and_delete_ssd`'s result for a record.
    */
  method ManageSsdSpace(available: Option<int>, threshold: int, listing: Result<seq<QbtTorrent>, string>,
                        taggingEnabled: bool, hddTag: string, ssdPath: string,
                        fileCounts: string -> Option<nat>, now: int, relocate: TorrentInfo -> bool)
    returns (report: SpaceReport)
    ensures available.None? ==> report == SpaceUnknown
    ensures available.Some? && available.value >= threshold ==> report == SpaceSufficient
    ensures available.Some? && available.value < threshold && listing.Failure? ==> report == ListingFailed
    ensures available.Some? && available.value < threshold && listing.Success? ==>
              var order := SortBy(Candidates(listing.value, taggingEnabled, hddTag, ssdPath, fileCounts, now, CandidateInfo), OlderOrSame);
              && (order == [] ==> report == NoCandidates)
              && (order != [] ==> report.Relocated? && report.order == order &&
                                  GreedyOutcome(order, threshold - available.value, relocate,
                                                report.count, report.freed, report.stoppedOnFailure))
  {
    if available.None? {
      return SpaceUnknown;
    }
    if available.value >= threshold {
      return SpaceSufficient;
    }
    if listing.Failure? {
      return ListingFailed;
    }
    var needed := threshold - available.value;
    var collected := CollectCandidates(listing.value, taggingEnabled, hddTag, ssdPath, fileCounts, now);
    var order := SortBy(collected, OlderOrSame);
    if order == [] {
      return NoCandidates;
    }
    var count, freed, failed := RelocateOldest(order, needed, relocate);
    report := Relocated(order, count, freed, failed);
  }

  /** Anything relocated is the oldest part of the sorted list: no relocated candidate is newer than one left behind. */
  lemma {:induction false} RelocatedAreOldest(order: seq<Candidate>, cs: seq<Candidate>, needed: int, relocate: TorrentInfo -> bool,
                           count: nat, freed: int, failed: bool, i: nat, j: nat)
    requires order == SortBy(cs, OlderOrSame)
    requires GreedyOutcome(order, needed, relocate, count, freed, failed)
    requires i < count <= j < |order|
    ensures order[i].timestamp <= order[j].timestamp
  {
    OlderOrSameTotalPreorder();
    SortBySorted(cs, OlderOrSame);
  }
}
