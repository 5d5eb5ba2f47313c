# qbittorrent-manager, modelled in Dafny

qbittorrent-manager moves finished torrents from a fast SSD download cache to
a large HDD store. It copies a torrent's data, verifies the copy, points
qBittorrent at the new location and then deletes the SSD data. It notifies
Sonarr or Radarr, and it frees SSD space by relocating the oldest torrents
when free space falls below a threshold. A long-running orchestrator
serialises this work:
- a priority-sorted queue of torrents to process;
- a running map of processes that also keeps recent finished entries as history;
- a copy queue with its own running map;
- statistics counters, saved to a snapshot at shutdown and restored at start-up.

Around that core sit location tags (an SSD tag and an HDD tag), Plex path
mapping for the streaming check against Tautulli, and symlink/hardlink
maintenance for the import-script mode.

This project models that core and proves properties of the model. One Dafny
module corresponds to each source file:

| module | models |
|---|---|
| `Classes` | `src/classes.py` |
| `Util` | `src/util.py` |
| `Config` | `src/config.py` |
| `Core` | `src/core.py` |
| `Persistence` | `src/persistence.py` |
| `Service` | `src/service.py`; the orchestrator is the class `Service.Orchestrator` |
| `Tags` | `src/tags.py` |
| `Tautulli` | `src/tautulli.py` |
| `Symlinks` | `src/symlink_utils.py` |

Shared modules:
- `Bookkeeping`: the dispatch and history rules common to processes and copies.
- `Paths`: the `os.path` functions on normalised absolute paths, represented as sequences of components.
- `Text`: the Python string built-ins.
- `Sequences`: filtering, counting and Python's stable sort.
- `Values`: the dynamic dict and JSON values.
- `Wrappers`: Option and Result.

External systems are not called; the model takes what they return as
parameters:
- qBittorrent, Sonarr, Radarr and Tautulli;
- the file system (existence tests, link targets, copies and their outcomes, walk listings, `find` output);
- the clock (`now`, in whole seconds);
- the environment (a map).

The orchestrator's thread pools are represented by their bookkeeping:
- handing an item to a pool means inserting an entry into the running map;
- a worker finishing is an explicit `OnProcessComplete` or `OnCopyComplete` call carrying the worker's result or exception.

`uuid4` is modelled by a counter whose numbers are printed as ids.

## Model

| member | source | states |
|---|---|---|
| Classes.Btih | src/classes.py:29-50 | accepts exactly the strings of 32, 40 or 64 hex characters and returns them unchanged; a non-string is a TypeError, a bad length or character a ValueError |
| Classes.AlphanumericNotEnough | src/classes.py:16-17 | forty letters `z` are rejected: the check is for hex, not the alphanumerics the class text mentions |
| Classes.DirectoryIsParent | src/classes.py:135-139 | the `directory` of a normalised absolute content path is the path of its parent; `hash` and `path` are `hash_v1` and `content_path` |
| Classes.DirectoryOfNoPath | src/classes.py:139 | an empty content path has an empty directory |
| Classes.HashV2Of | src/classes.py:168 | hash_v2 is set only from a truthy, non-sentinel string of length at least 32, and then validated; shorter or falsy values give no v2 hash |
| Classes.OddLengthHashV2Rejected | src/classes.py:168 | a hash_v2 of 33 to 39 characters is rejected with ValueError rather than ignored |
| Classes.TagsOf | src/classes.py:166 | tags from a string are kept, from a list are comma-joined (failing iff an item is not a string), and default to "" |
| Classes.TagListRecoverable | src/classes.py:166 | splitting the joined tags on commas gives back a non-empty list of comma-free tags |
| Classes.FromQbittorrentApi | src/classes.py:146-170 | a successful result has valid hashes, the `hash` field as hash_v1, and num_files from `files_count`, else `num_complete`, else 1; a bad hash fails |
| Classes.FromQbittorrentParams | src/classes.py:172-196 | hash_v1 comes from `hash`, falling back to `hash_v1`; numbers are parsed from text; num_files defaults to 1 (not multi-file) and size to 0 |
| Classes.FromHashOnly | src/classes.py:198-217 | succeeds iff the hash is valid, giving the placeholder record with one file and no directory; otherwise ValueError |
| Classes.ToDict | src/classes.py:219-239 | the dictionary has exactly the twelve serialised keys |
| Classes.FromDict | src/classes.py:241-265 | a missing `hash_v1` is a KeyError; a success has valid hashes and the stored hash_v1 |
| Classes.FromDictToDict | src/classes.py:219-265 | every record with valid hashes survives `to_dict` then `from_dict` unchanged |
| Classes.FromDictRejectsBadHash | src/classes.py:253 | a record with a malformed primary hash cannot be read back |
| Classes.QueueLeqTotalPreorder | src/classes.py:76-82 | the queue order `(-priority, queued_time)` is a total preorder |
| Classes.QueueOrderMeaning | src/classes.py:82 | in a sorted queue higher priority comes first and, at equal priority, the older item |
| Util.Delay | src/util.py:58 | the sleep after failed attempt k never exceeds `max_delay` and is either that cap or `base_delay * 2 ** (k - 1)` |
| Util.Delays | src/util.py:49-60 | the sleeps after n failures are the n delays for attempts 1 to n, in order |
| Util.DelayMonotone | src/util.py:58 | with a non-negative base delay the sleeps never decrease between attempts |
| Util.RetryWithBackoff | src/util.py:42-64 | the wrapper returns the first successful attempt or, after `max_attempts` failures, the last failure; every earlier attempt failed and was followed by its backoff delay; a failure whose delay is negative ends the retries with the ValueError `time.sleep` raises; with non-negative delays a failure means all `max_attempts` calls failed; with `max_attempts <= 0` it makes no call and `raise None` is a TypeError |
| Util.EntrySplit | src/util.py:91 | a directory's entries split into its sub-directory names and its file names |
| Util.WalkCountsNodes | src/util.py:85-98 | the walk lists every node of a tree but the root exactly once, and the sizes it adds are those of the tree's regular files |
| Util.WalkAllCountsNodes | src/util.py:90-91 | the same, for the walks of a directory's children in order |
| Util.GetDirStats | src/util.py:85-98 | the walk loop returns `(0, 0)` for a non-directory, else the total size of the regular files (not of links) and the number of nodes, the root included |
| Util.VerifyCopy | src/util.py:129-169 | an empty path or a missing source or destination fails; a single file verifies iff both sizes can be read and are equal; a folder verifies iff its stats match by the two-branch rule |
| Util.IdenticalCopyVerifies | src/util.py:129-169 | a destination identical to its source always verifies |
| Util.DirStatsEmpty | src/util.py:87-88 | a zero item count comes only from a non-directory, whose size is also zero; a directory counts at least itself |
| Util.MultiCopyRuleIsEquality | src/util.py:158-163 | on values `get_dir_stats` can return, the two-branch rule that accepts a multi-file copy is exactly equality of size and item count |
| Util.CleanupDestination | src/util.py:100-126 | a dry run removes nothing; otherwise a directory is removed as a tree, else a file is removed, else nothing is |
| Config.ResolveConcat | src/config.py:62-73 | following a dotted path in two parts is following the first part, then the second from where it ends |
| Config.GetNested | src/config.py:62-73 | the loop returns the value reached by following each dot-separated key through nested tables, or the default as soon as a step is missing or not a table |
| Config.SingleKeyLookup | src/config.py:62-73 | a key without dots is a plain lookup of that key |
| Config.GetConfig | src/config.py:75-82 | fails with ValueError exactly when the value is required and resolves to None; otherwise returns the resolved value or the default |
| Config.ParseEnv | src/config.py:91-98 | a bool is true iff the lower-cased text is one of true/1/yes/on; an int parses or fails; other types keep the text |
| Config.EnvBoolExamples | src/config.py:93-94 | "TRUE" and "On" read as true; "y" and "" read as false |
| Config.EnvIntRoundTrip | src/config.py:95-96 | an integer written as decimal text reads back as the same integer |
| Config.GetEnvOverride | src/config.py:89-100 | a set environment variable wins and is parsed for its type; otherwise the table value or the default is used |
| Config.SplitRootFolders | src/config.py:171-175 | every folder in the list is non-empty, comma-free and already stripped |
| Config.StripNonEmpty | src/config.py:173 | keeping only non-blank stripped parts never lengthens the list and leaves only clean entries |
| Config.StripKeepsOut | src/config.py:173 | stripping adds no character that was not in the text |
| Config.StripIdempotent | src/config.py:173 | stripping twice is stripping once |
| Config.NoSpaceEnds | src/config.py:173 | text without whitespace at either end is unchanged by stripping |
| Config.RootFoldersRoundTrip | src/config.py:171-175 | a non-empty list of clean folders joined with commas reads back as the same list |
| Config.StripNonEmptyFixed | src/config.py:173 | a list of clean parts passes through the filter unchanged |
| Config.GetQbitConnectionInfo | src/config.py:215-234 | succeeds iff username, password and host are non-empty and the port is in 1..65535, carrying the credentials and the SSL flag; every failure is a ValueError |
| Config.ConnectionHostRoundTrip | src/config.py:229-230 | the `host` string splits at its colon back into the configured host and port |
| Config.BlankTagStrip | src/config.py:274-277 | `not t or not t.strip()` holds exactly for an all-whitespace tag |
| Config.CheckHttp | src/config.py:250-263 | reports the missing-key and port errors and the short-key and unusual-host warnings exactly when their conditions hold, and only HTTP findings |
| Config.CheckNotifications | src/config.py:265-270 | reports a missing Sonarr or Radarr key as a warning exactly when notifications are on and that key is empty |
| Config.CheckTagging | src/config.py:272-279 | reports a blank SSD tag, a blank HDD tag and equal tags exactly when tagging is on and each condition holds |
| Config.CheckImportScript | src/config.py:281-290 | reports each import-script warning exactly when the mode is on and its setting is empty |
| Config.CheckLimits | src/config.py:292-308 | a low or high threshold warns; fewer than one retry or process is an error, more than ten a warning |
| Config.CheckStorage | src/config.py:310-323 | in the container layout a missing or read-only storage path is an error; outside it (no /config) a warning |
| Config.CheckStateDirs | src/config.py:325-338 | a missing log or state directory that cannot be created gives a warning, only when /config exists |
| Config.ComposeErrors | src/config.py:245-340 | joining the sections' error lists keeps every section's rule true on the whole list |
| Config.InSection | src/config.py:245-340 | an error is in the joined list exactly when it is in its own section's list |
| Config.ComposeSettingsWarnings | src/config.py:245-340 | the same for the HTTP, notification and import-script warnings |
| Config.ComposeOtherWarnings | src/config.py:245-340 | the same for the limit, storage and directory warnings |
| Config.ValidateConfig | src/config.py:245-340 | every error and warning rule of the validation holds on the lists returned, in both directions |
| Config.DefaultsOnlyNeedApiKey | src/config.py:106-169 | with the shipped defaults and writable storage paths, the only error reported is the unset HTTP API key |
| Core.NotifyArrScanDownloads | src/core.py:35-115 | a command is built iff notifications are on, the service is sonarr or radarr, and its URL (without trailing slashes) and key are set; it names that service's scan command, the download id, and the path only when one is given; a dry run only logs it |
| Core.EndpointJoinsOnce | src/core.py:49-67 | however many slashes the URL ends with, the endpoint is the stripped base URL followed by the command path, with one slash between them |
| Core.EndpointOf | src/core.py:67 | the endpoint splits back into the stripped URL and `/api/v3/command` |
| Core.ServiceFor | src/core.py:351-355 | a category routes to sonarr iff it equals the Sonarr tag ignoring case, else to radarr iff it equals the Radarr tag, else nowhere |
| Core.LowerIdempotent | src/core.py:353-354 | lower-casing twice is lower-casing once |
| Core.RoutingIgnoresCase | src/core.py:353-354 | routing a lower-cased category gives the same service |
| Core.MaxCopyAttempts | src/core.py:297 | at least one attempt and at least the configured number |
| Core.ProcessSingleTorrentOptimized | src/core.py:261-370 | a verified leftover destination means success with no copy; otherwise attempts stop at the first verified one and fail only after `max(1, COPY_RETRY_ATTEMPTS)` unverified ones; a dry run counts as verified; the HDD tag is added and a notification sent exactly on success, the notification to the service the category routes to |
| Core.DeletionSafeIff | src/core.py:199-208 | the `commonpath` safety check holds exactly for data at or below the SSD download root |
| Core.ResumeThenFail | src/core.py:198-202 | a failure exit resumes exactly a started torrent, and makes no call but resumes |
| Core.Concluded | src/core.py:233-245 | success exactly when the data is gone and a started torrent's resume raised nothing; the SSD tag is removed exactly when the data is gone; a started torrent ends with a resume |
| Core.Cleared | src/core.py:206-245 | after the data reached the HDD: success exactly when the data is gone and the resume raised nothing; the SSD data is deleted exactly when the safety check passed and the data exists; a safety check that raised ends with no call and failure |
| Core.Moved | src/core.py:128-245 | the main block for a found torrent: success holds exactly when the pause (for an active torrent) and the move went through, the destination existed or a verified copy was made, the safety check found the data missing or passed with the data then gone, and the final resume raised nothing; the SSD tag is removed exactly when the data is gone; the SSD data is deleted exactly when it exists and the check passed |
| Core.MovedPausesFirst | src/core.py:141-152 | the location is set exactly when the pause did not raise; an active torrent is paused first and, on success, resumed last; an inactive one is neither paused nor resumed |
| Core.MovedLeavesPaused | src/core.py:206-255 | an active torrent is left paused only when the safety check raised something other than FileNotFoundError, which fails without resuming, or when the error reaching the outer handler mentions "resume" |
| Core.RelocateAndDeleteSsd | src/core.py:117-255 | a dry run succeeds with no call; a torrent not found fails with no call; otherwise success and the SSD-tag removal hold exactly under the conditions above, and deletion happens only for data at or below the SSD root with the HDD copy in place |
| Core.RelocationCallOrder | src/core.py:141-255 | for a found torrent: the location is set to `hdd/category` exactly when the pause did not raise, an active torrent is paused first and on success resumed last, and a safety check that raised leaves it without a resume |
| Core.CompletionTimestamp | src/core.py:434-452 | `completion_on`, else `last_activity`, else now; an unparsable string becomes now; a result is always positive, and a non-positive stamp skips the torrent |
| Core.CandidateInfo | src/core.py:464-472 | the intended record exists iff the hash is valid; it carries the hash, name, content path, size and category, no tags, and is multi-file iff more than one file was reported |
| Core.CandidateInfoAsWritten | src/core.py:464-472 | the record as written always fails: the dataclass has no `hash`, `path`, `directory` or `is_multi_file` parameters |
| Core.CandidatesAsWrittenEmpty | src/core.py:426-482 | as written, no torrent ever becomes a relocation candidate |
| Core.EligibleTorrentIsCandidate | src/core.py:400-482 | with the intended record, every torrent on the SSD with a valid hash and a usable timestamp becomes a candidate with that hash, name, content path, category and timestamp |
| Core.CandidateHasSource | src/core.py:400-482 | every candidate comes from a torrent on the SSD, with its hash and size and a positive timestamp |
| Core.CollectCandidates | src/core.py:426-482 | the collection loop builds exactly the candidate list the selection defines |
| Core.OlderOrSameTotalPreorder | src/core.py:485 | ordering by timestamp is a total preorder |
| Core.OldestFirst | src/core.py:484-485 | the sorted list is a permutation of the candidates, oldest first, with ties kept in collection order |
| Core.RelocateOldest | src/core.py:496-507 | the loop relocates a prefix of the order, each one while less than needed had been freed; freed is their total size; it stops at the end, when enough is freed, or at the first failure |
| Core.AttemptsFormPrefix | src/core.py:498-507 | the relocations attempted are a prefix of the order: the successes, then the one failure that stopped the loop |
| Core.NothingNeededNothingMoved | src/core.py:499-501 | when nothing needs freeing, nothing is relocated |
| Core.ManageSsdSpace | src/core.py:373-511 | unreadable free space or enough free space does nothing; a qBittorrent listing that raises relocates nothing; otherwise the candidates are sorted oldest first and relocated greedily until the shortfall is covered or a relocation fails |
| Core.RelocatedAreOldest | src/core.py:484-507 | no relocated candidate is newer than one left behind |
| Persistence.PersistedRunningIsFilter | src/persistence.py:86-98 | the persisted processes are exactly the running entries of the table, in order, one per running entry; finished ones are dropped |
| Persistence.SaveOrchestratorState | src/persistence.py:66-127 | the snapshot holds every queue item in order, the running processes only, the statistics, the shutdown time and version "1.0" |
| Persistence.ItemValues | src/persistence.py:115 | one JSON object per persisted queue item, in order |
| Persistence.ProcessValues | src/persistence.py:116 | one JSON object per persisted process, in order |
| Persistence.ParsedAll | src/persistence.py:163-173 | a list that can be read yields one record per entry |
| Persistence.ListField | src/persistence.py:165-171 | an absent field is an empty list; a list field yields its entries |
| Persistence.Loaded | src/persistence.py:133-188 | a state is returned only when the file exists, the document is an object of version "1.0" (the default), and the snapshot is at most 24 hours old |
| Persistence.ParseEach | src/persistence.py:163-173 | the reconstruction loop yields exactly what reading every entry in order defines |
| Persistence.ParsedStaysNone | src/persistence.py:163-173 | once an entry cannot be read, the whole list cannot be read |
| Persistence.LoadOrchestratorState | src/persistence.py:133-188 | the loader returns exactly the state the document defines, or none |
| Persistence.ParseItemDict | src/persistence.py:163-167 | a saved queue item reads back as itself |
| Persistence.ParseProcessDict | src/persistence.py:169-173 | a saved process reads back as itself |
| Persistence.ParsedItemValues | src/persistence.py:163-167 | every saved list of queue items reads back unchanged |
| Persistence.ParsedProcessValues | src/persistence.py:169-173 | every saved list of processes reads back unchanged |
| Persistence.SavedStateLoads | src/persistence.py:66-188 | a snapshot of version "1.0" loads back as itself when it is at most 24 hours old, and not at all when older |
| Persistence.Collected | src/persistence.py:206-232 | the restore loop never adds more items than entries, and all of them when every entry converts |
| Persistence.CollectedStaysFailed | src/persistence.py:201-247 | after a failed conversion the loop stops; what was appended before it stays |
| Persistence.CollectEach | src/persistence.py:206-232 | the restore loop appends exactly what the conversion rule defines |
| Persistence.SavedQueueRestored | src/persistence.py:206-216 | every item of a saved queue of well-formed records is restored as it was, in order |
| Persistence.CollectedAll | src/persistence.py:206-232 | when every entry converts, the loop collects all of them in order |
| Persistence.RestoreItemPersisted | src/persistence.py:208-215 | one saved queue item with valid hashes comes back as itself |
| Persistence.InterruptedRequeued | src/persistence.py:218-232 | interrupted processes with valid hashes all come back in order, each as `restored-<id>` with a hash-only record, queued now at priority 10 |
| Persistence.BadInterruptedHashStops | src/persistence.py:218-232 | an interrupted process with a malformed hash stops the restore before anything is added |
| Bookkeeping.DispatchCount | src/service.py:124-128 | a dispatch pass starts no more items than are queued, stops only when the queue is empty or the occupancy reaches the maximum, and never goes beyond the maximum |
| Bookkeeping.DispatchCountUnique | src/service.py:124-128 | those stopping conditions determine how many items a pass starts |
| Bookkeeping.DeleteEach | src/service.py:200-201 | the deletion loop leaves exactly the entries whose ids were not chosen, in order |
| Bookkeeping.Oldest | src/service.py:196-199 | nothing is chosen for deletion while no more than `keep` entries are finished |
| Bookkeeping.SmallHistoryKept | src/service.py:198 | with no more than `keep` finished entries the map is unchanged |
| Bookkeeping.OldestAreFinished | src/service.py:196-199 | every entry chosen for deletion is a finished entry of the map |
| Bookkeeping.PruneKeepsUnfinished | src/service.py:196-201 | running entries are never deleted and keep their order |
| Bookkeeping.PruneKeepsNewest | src/service.py:196-201 | after pruning `min(finished, keep)` finished entries remain, and none deleted started later than one kept |
| Bookkeeping.NewestRemain | src/service.py:199 | sorting by start time and dropping all but the last `keep` leaves exactly `keep` entries, none older than a dropped one |
| Service.StatsDict | src/service.py:69-77 | the statistics dict has exactly the seven counters |
| Service.IdsDiffer | src/service.py:106-136 | distinct counter values print as distinct ids |
| Service.NextIdFresh | src/service.py:106-136 | no id handed out later equals one handed out before |
| Service.Finish | src/service.py:177-193 | an entry becomes COMPLETED iff its worker returned success, otherwise FAILED, keeping its id, hash and start time and recording the result or the exception |
| Service.FindById | src/service.py:174-177 | finds the entry with the id in the running map (or, at src/service.py:353-356, among the tracked copies), or reports that none has it |
| Service.BatchIdsDistinct | src/service.py:233-239 | the requests of one call share the batch id and have pairwise distinct ids, none equal to the batch id |
| Service.FinishCopy | src/service.py:356-378 | a copy becomes COMPLETED iff its worker returned success, else FAILED, with its end time and duration |
| Service.StatusPartition | src/service.py:405-409 | every tracked copy is counted as exactly one of running, completed or failed |
| Service.CorrectedDispatch | src/service.py:124-128 | counting only running entries, a pass starts at most the queued items, stops only at the maximum or an empty queue, and starts something when below the maximum with work queued |
| Service.HistoryStallsDispatch | src/service.py:195-201 | with three finished entries kept as history and the default maximum of three, a pass starts nothing although nothing is running |
| Service.StallPersists | src/service.py:195-201 | once three entries are finished, every later prune keeps at least three, so the stall never ends |
| Service.CorrectedCopyDispatch | src/service.py:245-253 | counting only running copies, a copy pass starts at most the queued copies, stops only at the maximum or an empty queue, and starts something when below the maximum with copies queued |
| Service.CopyHistoryStallsDispatch | src/service.py:380-386 | with one finished copy kept as history and the default maximum of one copy, a copy pass starts nothing although nothing is copying |
| Service.CopyStallPersists | src/service.py:380-386 | once a copy has finished, every later prune keeps at least one, so the copy queue stays stalled |
| Service.BusyAfterPrune | src/service.py:195-201 | pruning the history never changes the number of running entries |
| Service.FilterRunning | src/service.py:196-197 | the running entries are exactly those neither COMPLETED nor FAILED |
| Service.IdsOkLater | src/service.py:106 | drawing an id keeps every tracked id older than the counter |
| Service.ProcessAdded | src/service.py:136-144 | adding an entry under a new id keeps the entries' ids distinct |
| Service.ProcessesFiltered | src/service.py:200-201 | deleting entries keeps the ids distinct |
| Service.ProcessFinished | src/service.py:181-193 | recording an outcome keeps the ids distinct |
| Service.CopyQueued | src/service.py:238-239 | queuing a request under a new id keeps copy ids distinct across the queue and the tracked copies |
| Service.CopyStarted | src/service.py:252-260 | moving a request from the queue to the tracked copies keeps the ids distinct |
| Service.CopiesFiltered | src/service.py:385-386 | deleting tracked copies keeps the ids distinct |
| Service.CopyFinishedKeepsIds | src/service.py:356-378 | recording a copy outcome keeps the ids distinct |
| Service.Orchestrator.constructor | src/service.py:55-77 | empty queues and maps, zero counters, start and activity times set to now, not shutting down |
| Service.Orchestrator.NewId | src/service.py:106 | a fresh id from the counter; nothing else changes |
| Service.Orchestrator.StartTorrentProcessing | src/service.py:134-155 | the item gets a new RUNNING entry under a fresh id; nothing else changes |
| Service.Orchestrator.ProcessQueue | src/service.py:121-132 | the pass pops exactly the dispatch count of items from the front, in order, each becoming a running entry; afterwards the queue is empty or the map is full; space management is requested iff the queue ended empty |
| Service.Orchestrator.OnSpaceManagementComplete | src/service.py:207-224 | a finished run counts one more run and stamps the activity time; a run that raised changes nothing |
| Service.Orchestrator.AddToQueue | src/service.py:90-119 | refused during shutdown with nothing changed; an invalid torrent is an error with nothing changed; otherwise the new item joins the queue under a fresh id, the queue is re-sorted by priority then age and stays sorted, a dispatch pass starts the first k items (k the dispatch count) under the next ids, space management is requested exactly when the queue ends empty, the service stays accepting, and the copy state and statistics are unchanged |
| Service.Orchestrator.StartCopyOperation | src/service.py:255-276 | the popped request becomes a RUNNING tracked copy; nothing else changes |
| Service.Orchestrator.ProcessCopyQueue | src/service.py:245-253 | the pass pops exactly the dispatch count of requests, in order; afterwards the copy queue is empty or the copy map is full |
| Service.Orchestrator.AddCopyOperations | src/service.py:226-243 | refused during shutdown with nothing changed; otherwise one batch id for the call, each request queued with its own id, then a copy dispatch pass; the batch id is returned; the process state, statistics, shutdown flag and space-management requests are unchanged |
| Service.Orchestrator.EnqueueCopies | src/service.py:235-239 | the loop appends every request, in order, with the batch id, the time and a fresh id each |
| Service.Orchestrator.EnqueueCopy | src/service.py:236-239 | one request appended under a fresh id |
| Service.Orchestrator.OnProcessComplete | src/service.py:171-205 | an unknown id changes nothing; otherwise the entry takes its outcome, `torrents_processed` grows by one exactly on success, the history is pruned to ten finished entries, a dispatch pass starts the first k queued items under ids from the id counter, which grows by k, space management is requested exactly when the queue ends empty, the activity time is stamped, and the copy state and shutdown flag are unchanged |
| Service.Orchestrator.RecordProcessCompletion | src/service.py:177-201 | the outcome is recorded and counted, then the history is pruned |
| Service.Orchestrator.MarkFinished | src/service.py:179-193 | only the completed entry changes, taking its outcome |
| Service.Orchestrator.PruneProcessHistory | src/service.py:195-201 | all but the ten newest finished entries are deleted |
| Service.Orchestrator.OnCopyComplete | src/service.py:350-390 | an unknown id changes nothing; otherwise the copy takes its outcome, exactly one of the completed and failed counters grows, the history is pruned to twenty, a copy dispatch pass runs, and the process state, id counter, shutdown flag and space-management requests are unchanged |
| Service.Orchestrator.RecordCopyCompletion | src/service.py:356-386 | the copy outcome is recorded and counted, then the copy history is pruned |
| Service.Orchestrator.PruneCopyHistory | src/service.py:380-386 | all but the twenty newest finished copies are deleted |
| Service.Orchestrator.CopyOperationsStatus | src/service.py:392-424 | running, completed and failed add up to the reported operations; a non-empty batch id reports only that batch's copies and queued requests, otherwise all of them |
| Service.Orchestrator.GetStatus | src/service.py:426-462 | the running count plus the reported capacity is the maximum; the capacity is positive exactly when a dispatch pass would start a queued item; one view per entry |
| Service.Orchestrator.ClearQueue | src/service.py:464-470 | the queue is emptied and its former length reported; nothing else changes |
| Service.Orchestrator.Shutdown | src/service.py:472-534 | no new work is accepted afterwards; when asked, the snapshot of the queue, the running entries and the statistics is taken; nothing else changes |
| Service.Orchestrator.RestoreOrchestratorState | src/persistence.py:190-247 | no state changes nothing; saved items, then interrupted processes, are appended until one fails; when all succeed the queue is re-sorted and a non-empty statistics dict restores the two counters |
| Service.Orchestrator.RestorePreviousState | src/service.py:536-561 | without an accepted snapshot nothing changes; otherwise the queue is the restored one (saved items and requeued processes, re-sorted) less the first k items a dispatch pass starts under the next k ids, the statistics are the restored ones, space management is requested exactly when the queue ends empty, and afterwards the queue is empty or the running map is full |
| Service.SortedSuffix | src/service.py:115-127 | popping from the front of a sorted queue leaves a sorted queue |
| Service.AddedWithoutDeduplication | src/service.py:90-119 | adding never removes or merges: the queue keeps every earlier item, and the items for any hash grow by exactly one when the new item has it |
| Service.SnapshotRequeuesEverything | src/persistence.py:206-235 | with valid saved records, every saved queue item and one item per interrupted process come back, and the re-sorted queue holds all of them |
| Tags.Converted | src/tags.py:30-76 | conversion keeps at most the given records, and every torrent it keeps is a valid one |
| Tags.ConvertQbtTorrents | src/tags.py:41-76 | the conversion loop keeps exactly the records the factory accepts, in order |
| Tags.ConvertedHashesValid | src/tags.py:56-70 | every converted torrent has a valid BTIH hash taken from one of the records |
| Tags.PlanForRules | src/tags.py:117-223 | per torrent: the SSD tag is planned iff it is under the SSD path without that tag; the HDD tag iff it lacks it and is under the HDD store, or under the SSD path with a category and an existing HDD copy; a copy iff it is under the SSD path with a category and no HDD copy; untaggable iff it has no content path, no category on the SSD, or is outside both locations; never both an HDD tag and a copy |
| Tags.ClassifyByLocation | src/tags.py:117-223 | the analysis loop appends each torrent's entries to the four lists, in order |
| Tags.ClassifyOne | src/tags.py:118-215 | one pass appends exactly that torrent's entries |
| Tags.PlanCounts | src/tags.py:117-232 | each of the four lists holds exactly as many entries as there are torrents satisfying its rule |
| Tags.CopiesTargetExpectedPath | src/tags.py:147-180 | every planned copy is of an SSD torrent with a category, from its content path to the category folder on the HDD store, and only where nothing exists there yet |
| Tags.AddTagEach | src/tags.py:282-301 | one tag call per hash, in order; the successes are the calls that succeed and every other call counts as failed |
| Tags.CopyAndTagEach | src/tags.py:304-355 | one copy per operation, then the HDD tag only when the copy verified; an operation succeeds iff copy, verification and tag all succeed, and every other one counts as failed |
| Tags.PerformOperations | src/tags.py:238-368 | a dry run calls nothing and reports the plan's sizes; otherwise the SSD tags, HDD tags and copies are performed in that order, successes plus failures make the total, and the report gives the four list sizes |
| Tags.TagExistingTorrentsByLocation | src/tags.py:82-372 | with tagging disabled it reports so and calls nothing; when `get_all_torrents` raises it reports that exception's text and calls nothing; otherwise, for the plan built from the converted torrents, a dry run calls nothing and reports the plan's total and list sizes, and a real run makes the SSD tag calls, the HDD tag calls and the copies in that order, counts as successful exactly the calls and copies that succeed, makes successes plus failures the total and reports the four list sizes |
| Tags.CountPlacements | src/tags.py:401-419 | every torrent is counted once, as dual-location, SSD only, HDD only or untagged by its hash's membership in the two tagged sets |
| Tags.GetLocationTagSummary | src/tags.py:374-433 | disabled gives the disabled error; when enabled it succeeds iff none of the three listings raised, and otherwise answers the text of the first one that raised (SSD-tagged, then HDD-tagged, then all); on success the total is the number of converted torrents and the four counts partition it by tag membership |
| Tags.AutoTagTorrent | src/tags.py:435-469 | a tag call is made iff tagging and auto-tagging are on, the tags hold neither location tag and the torrent is under the SSD path; the call adds the SSD tag; False comes only from that call failing |
| Tags.ChangeLocationTag | src/tags.py:471-516 | the call is made iff tagging is enabled, and False comes only from that call failing |
| Tautulli.Slashed | src/tautulli.py:119 | every backslash becomes a slash and nothing else changes |
| Tautulli.FirstSome | src/tautulli.py:102-125 | finds the first mapping that gives a translation, or reports that none does |
| Tautulli.FirstTranslation | src/tautulli.py:102-129 | the first mapping that accepts the path decides the translation; none accepting means none is found |
| Tautulli.ConvertLocalPathToPlexPath | src/tautulli.py:85-129 | the loop returns what the mappings, tried longest mount first, make of the absolute path, or the path unchanged |
| Tautulli.FirstMount | src/tautulli.py:102-125 | the loop with its early return gives the first translation of any mapping, in order |
| Tautulli.FirstAccepted | src/tautulli.py:102-125 | the early-return loop returns the first translation that exists |
| Tautulli.MountOrder | src/tautulli.py:100 | the mappings are tried longest local mount first, with every mapping kept |
| Tautulli.MostSpecificMountWins | src/tautulli.py:99-129 | the mapping used is the first, longest mount first, whose mount contains the path; with none the path comes back unchanged |
| Tautulli.ThroughMountMeaning | src/tautulli.py:106-121 | a mount's own directory maps to the Plex mount, and a mapping applies exactly when the path lies within its local mount |
| Tautulli.SameFileIff | src/tautulli.py:131-169 | two paths refer to the same file exactly when the Plex path lies within the mapped one or the mapped one within the Plex path |
| Tautulli.SameFileMeansNested | src/tautulli.py:131-169 | paths judged the same are prefixes of one another, component by component |
| Tautulli.ActiveFilesSnoc | src/tautulli.py:63-69 | one more session adds its file exactly when it names a file and is playing, paused or buffering |
| Tautulli.ActiveFiles | src/tautulli.py:60-72 | the session loop lists the active sessions' files, in session order |
| Tautulli.GetCurrentlyStreamingFiles | src/tautulli.py:26-79 | a request is made iff the URL and the key are both set, to the URL without trailing slashes plus `/api/v2`; the files are those of the active sessions of a successful answer, else none |
| Tautulli.StreamedFilesMeaning | src/tautulli.py:63-69 | a file is listed exactly when some active session plays it |
| Tautulli.AnyMatch | src/tautulli.py:189-195 | the search answers True exactly when some streamed file refers to the same file |
| Tautulli.IsFileCurrentlyStreaming | src/tautulli.py:175-195 | True exactly when some streamed file refers to the same file as the given path under the mappings |
| Tautulli.StreamedLocalFiles | src/tautulli.py:242-248 | each local file is listed once, in order, exactly when some streamed file refers to it |
| Tautulli.GetStreamingStatusForDirectory | src/tautulli.py:197-260 | a missing path reports the error; with nothing streamed nothing is checked; otherwise every local file is checked and the streamed ones are listed, and "any streaming" holds exactly when the list is non-empty |
| Paths.Normalize | src/symlink_utils.py:251-252 | normalisation of slash-separated pieces always yields a normal path |
| Paths.NormalizeNames | src/symlink_utils.py:251-252 | plain names are appended unchanged |
| Paths.NormalizeConcat | src/symlink_utils.py:283-285 | normalising two runs of pieces is normalising the first, then the second from there |
| Paths.AbsPathRender | src/symlink_utils.py:251-252 | a rendered normal path reads back as itself, whatever the working directory |
| Paths.RenderInjective | src/symlink_utils.py:251-252 | distinct normal paths render as distinct strings |
| Paths.CommonPrefixLen | src/symlink_utils.py:483 | the length of the longest shared leading run of components |
| Paths.PrefixIffCommonLen | src/symlink_utils.py:483 | a directory is a prefix of a path iff their shared run covers the whole directory |
| Paths.ReportsOutsideIff | src/symlink_utils.py:483-484 | `relpath` starts with ".." iff the directory is not a prefix of the path, or the next component itself starts with ".." |
| Paths.WithinIff | src/symlink_utils.py:466-487 | the containment test holds iff the directory is a prefix of the path whose next component, if any, does not start with ".." |
| Paths.WithinReflexiveAndSound | src/symlink_utils.py:478-484 | every directory contains itself, and a path reported within a directory lies under it |
| Paths.DotDotNameReportedOutside | src/symlink_utils.py:483-484 | a child named like "..partial" is reported outside its own parent |
| Paths.CommonPathIff | src/core.py:199-208 | the common path of a path and a directory is the directory iff the path lies at or under it |
| Paths.DirnameRender | src/symlink_utils.py:283 | the directory of a rendered path is its rendered parent |
| Paths.ResolveRelativeTarget | src/symlink_utils.py:281-285 | a relative link target is read from the link's own directory |
| Paths.ResolveAbsoluteTarget | src/symlink_utils.py:281-285 | an absolute link target ignores the link's location |
| Symlinks.RenderAppend | src/symlink_utils.py:587-592 | joining relative components onto a rendered base renders the longer path |
| Symlinks.RejoinBelow | src/symlink_utils.py:583-592 | re-joining `relpath(p, d)` onto a new base moves p from under d to the same place under the base |
| Symlinks.RebaseMeaning | src/symlink_utils.py:578-592 | a target is rebased exactly when it lies within the SSD path, onto the same place under the HDD path, and the SSD root itself onto the HDD root |
| Symlinks.ReplaceSymlinksWithHardlinks | src/symlink_utils.py:539-615 | the count is the number of distinct listed paths whose replacement was counted: a path listed again after it was replaced is no longer a link and is skipped; never more than the list, and 0 for an empty list |
| Symlinks.ReplaceEach | src/symlink_utils.py:566-612 | the loop counts each distinct listed path whose replacement succeeds once, skipping a path it has already replaced, and never more than the list |
| Symlinks.DistinctLinksCountedEach | src/symlink_utils.py:566-607 | with no path listed twice, the count is one per listed path whose replacement was counted |
| Symlinks.RepeatedLinkReplacedOnce | src/symlink_utils.py:566-607 | a replaceable path listed twice is counted once, where a per-entry count would give two |
| Symlinks.ReplacedMeaning | src/symlink_utils.py:565-612 | a path is counted iff it is a readable link whose resolved target lies within the SSD path, the same place under the HDD path exists, and replacing it by that path succeeds |
| Symlinks.TreeMirrorsSource | src/symlink_utils.py:137-157 | in the hardlink tree the walked root below the source maps to the same place below the target, and each file to the same name there |
| Symlinks.JoinedNames | src/symlink_utils.py:194-195 | one joined path per name, in order |
| Symlinks.RemoveBrokenAmong | src/symlink_utils.py:194-215 | the inner loop counts exactly the dangling links it unlinked without error |
| Symlinks.CleanupBrokenSymlinks | src/symlink_utils.py:179-224 | the count is the number of walked paths, files before directories at each step, that were dangling links unlinked without error, never more than the paths walked |
| Symlinks.CleanupCountsOnlyBroken | src/symlink_utils.py:192-215 | only dangling links are ever counted, and when every unlink succeeds every dangling link is |
| Symlinks.ScanLines | src/symlink_utils.py:272-300 | the lines of one search directory split into the symlink hits and the hardlink hits, in order |
| Symlinks.FindLinksToSsdPath | src/symlink_utils.py:230-308 | the symlinks and hardlinks reported are exactly the listed lines passing each test, over the existing search directories in order; no directories give nothing |
| Symlinks.FindSymlinksToSsdPath | src/symlink_utils.py:310-379 | the links reported are exactly the lines `find` lists whose target lies within the SSD path; no directories give nothing |
| Symlinks.FindSymlinksToSsdPathPython | src/symlink_utils.py:381-464 | the links reported are exactly the walked paths that are links into the SSD path; no directories give nothing |
| Symlinks.ReportedSymlinksPointIntoSsd | src/symlink_utils.py:277-289 | every reported symlink is a listed link whose resolved target is within the SSD path |
| Symlinks.LinkTargetResolution | src/symlink_utils.py:281-288 | a link points into the SSD path iff its target, read from the link's directory when relative, lies within it |
| Sequences.SortByPermutes | src/service.py:115 | the queue sort keeps every item, exactly as many times |
| Sequences.SortBySorted | src/service.py:115 | the queue sort orders the items (priority first, then age) |
| Sequences.SortByStable | src/service.py:115 | the sort is stable: items that compare equal keep their relative order |
| Sequences.SortBySortedIdentity | src/service.py:115 | sorting an already sorted queue changes nothing |
| Sequences.SortAfterAppend | src/service.py:113-115 | appending one item to a sorted queue and re-sorting inserts it after every item not greater than it |
| Text.StripEmptyIff | src/config.py:171-175 | a piece is dropped as blank exactly when it is all whitespace |
| Text.JoinSplit | src/config.py:171-175 | splitting on the comma and joining again gives the string back |
| Text.SplitJoin | src/config.py:171-175 | joining comma-free pieces and splitting again gives the pieces back |
| Text.ParseIntToString | src/config.py:96-97 | `int(str(n)) == n` |

## Left out

- RelocateAndDeleteSsd: an exception from `get_torrent_by_hash` other than ValueError is folded into `found` (both return False without a call); a copy exception other than `shutil.Error` or `OSError` is treated like a failed copy, so the model resumes through the copy-failure branch where the source would reach the outer handler
- Threads, executors, futures and the lock: completions are explicit method calls, and interleavings are not modelled.
- The shutdown wait loop with `time.sleep` is not modelled.
- The worker bodies `_process_torrent_worker` and `_copy_worker` are represented only by the outcome they hand back.
- The aiohttp server, its routes, authentication middleware and signal handlers are not modelled; they are HTTP and process plumbing.
- `src/main.py`, `src/qbit.py` and `src/tasks.py` are not part of this model.
- `find_config_file`, `load_config` and `show_config_summary` are not modelled, nor is the TOML loading.
- The module-level `validate_config` call at import time is not modelled; `Config.ValidateConfig` is the rule set itself.
- JSON file reading and writing, and the temp-file-then-rename write, are not modelled. The state file is represented by whether it exists and the parsed document.
- `cleanup_state_file` and `get_state_file_path` are file-system plumbing and are not modelled.
- HTTP requests to Sonarr, Radarr and Tautulli are not modelled. Their answers are parameters, and only gating and payloads are modelled.
- `timeout_context` (SIGALRM) and `get_available_space_gb` (`shutil.disk_usage`) are not modelled; free space is a parameter.
- File-system effects are oracles or outcomes passed in. These include copytree/copy2/rmtree, link/symlink/unlink/replace, makedirs, `os.walk` listings and the `find` subprocess.
- The removal of a failed copy in tagging is not modelled.
- Symlinks.ReplaceSymlinksWithHardlinks: the link, target and replacement oracles describe the file system before the loop; the only effect of the loop that is modelled is that a replaced path is no longer a link, and a failed replacement is taken to leave its path as it was.
- `os.path.getsize` errors inside `get_dir_stats` are not modelled; sizes come from the abstract tree.
- Floating-point GB figures and hour ages become whole bytes and whole seconds, and ISO time strings in reports become integer seconds.
- `lower()` and `strip()` follow Python only on ASCII text: whitespace is tab, line feed, vertical tab, form feed, carriage return, 0x1C-0x1F and space, and only A-Z are lowered; non-ASCII whitespace (such as U+0085 and U+00A0) and non-ASCII case mappings are not modelled.
- `int()` on strings accepts surrounding whitespace, a sign and decimal digits only; underscores and other bases are not modelled.
- `Paths.AbsPath` treats a leading "//" like "/" (POSIX `normpath` keeps exactly two leading slashes).
- Tautulli: `os.path.abspath` resolves against a working-directory parameter.
- Values: dict fields of the wrong JSON type are read as errors; the program would carry the ill-typed value on.
- The copy requests handed to `add_copy_operations` are values. The program mutates the caller's dicts in place, and that aliasing is not modelled.
- A copy request without a required key would raise `KeyError` in the program; in the model every request has every field.
- Statistics that are not a JSON object are not modelled; the model restores only from an object.
- Service.RestoredCounter: a saved counter that is not an integer leaves the current counter unchanged; the program would copy the ill-typed value.
- Persistence.LoadOrchestratorState: the saved `shutdown_time` must be an integer number of seconds; a float timestamp is not modelled.
- Service.Orchestrator.constructor: it does not restore the previous state itself. `Service.Orchestrator.RestorePreviousState` is the restore step that `__init__` runs next.
- The `dry_run` logging of `tag_existing_torrents_by_location` is not modelled, nor any other logging.

## Findings

| source | as written | input that shows it | evidently intended | confidence | as-written member | corrected member |
|---|---|---|---|---|---|---|
| src/core.py:464-472 | the candidate records are built with keyword arguments (`hash`, `path`, `directory`, `is_multi_file`) that `TorrentInfo` does not accept; the `TypeError` is swallowed, so no torrent is ever a relocation candidate | any completed torrent under the SSD path, with free space below the threshold | each eligible torrent on the SSD becomes a candidate carrying its hash, name, content path and category | not executed | Core.CandidatesAsWrittenEmpty | Core.EligibleTorrentIsCandidate |
| src/service.py:124-201 | the dispatch loop compares every entry of `running_processes` with the maximum, including the up to ten finished entries kept as history | three processes that have finished, with the default maximum of three and one item queued: nothing is running, yet nothing is started, now or later | only entries that are still running count against the maximum | not executed | Service.HistoryStallsDispatch | Service.CorrectedDispatch |
| src/service.py:245-386 | the copy dispatch loop compares every entry of `running_copy_operations` with the maximum, including the up to twenty finished copies kept as history | one copy that has finished, with the default maximum of one copy operation (config.py sets 1) and one copy queued: nothing is copying, yet nothing is started, now or later | only copies that are still running count against the maximum | not executed | Service.CopyHistoryStallsDispatch | Service.CorrectedCopyDispatch |
