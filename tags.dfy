/**
  * Location tagging (tags.py): a torrent whose data is on the SSD cache carries
  * the SSD tag, one whose data (also) exists on the HDD store carries the HDD
  * tag.  qBittorrent's tag calls, the copy and its verification, and
  * `os.path.exists` are oracles.
  */
module Tags {
  import opened Wrappers
  import opened Text
  import opened Values
  import opened Sequences
  import opened Classes
  import Core

  /** The configured locations and tag names. */
  datatype Locations = Locations(ssdPath: string, hddBase: string, ssdTag: string, hddTag: string)

  /** The qBittorrent calls tagging makes. */
  datatype TagCall = AddTag(tag: string, hash: string) | RemoveTag(tag: string, hash: string) | CopyData(src: string, dst: string)

  // ------------------------------------------------------------ _convert_qbt_torrents_to_torrent_info

  /**
    * The file count passed to the factory: 1 unless a client is given and its
    * file listing for the torrent succeeds.
    */
  function FilesCount(withClient: bool, listing: Option<nat>): nat {
    if withClient && listing.Some? then listing.value else 1
  }

  /**
    * The records conversion keeps: each dict (as built from a qBittorrent torrent)
    * that the factory accepts, in order; the others are logged and skipped.
    */
  function Converted(records: seq<Dict>, withClient: bool, files: Value -> Option<nat>): (r: seq<TorrentInfo>)
    ensures |r| <= |records|
    ensures forall i :: 0 <= i < |r| ==> ValidInfo(r[i])
  {
    if records == [] then []
    else
      var d := records[|records| - 1];
      var init := Converted(records[..|records| - 1], withClient, files);
      match FromQbittorrentApi(d, Some(FilesCount(withClient, files(Get(d, "hash", VStr(""))))))
      case Success(t) => init + [t]
      case Failure(_) => init
  }

  /** `_convert_qbt_torrents_to_torrent_info(torrents, client)` */
  method ConvertQbtTorrents(records: seq<Dict>, withClient: bool, files: Value -> Option<nat>) returns (infos: seq<TorrentInfo>)
    ensures infos == Converted(records, withClient, files)
  {
    infos := [];
    var i := 0;
    while i < |records|
      invariant 0 <= i <= |records|
      invariant infos == Converted(records[..i], withClient, files)
    {
      var d := records[i];
      assert records[..i + 1][..i] == records[..i];
      var filesCount := FilesCount(withClient, files(Get(d, "hash", VStr(""))));
      var t := FromQbittorrentApi(d, Some(filesCount));
      if t.Success? {
        infos := infos + [t.value];
      }
      i := i + 1;
    }
    assert records[..i] == records;
  }

  /** A record whose hash is not a valid BTIH is never converted. */
  lemma {:induction false} ConvertedHashesValid(records: seq<Dict>, withClient: bool, files: Value -> Option<nat>, t: TorrentInfo)
    requires t in Converted(records, withClient, files)
    ensures IsBtih(t.Hash())
    ensures exists i :: 0 <= i < |records| && Get(records[i], "hash", VStr("")) == VStr(t.Hash())
  {
    var n := |records| - 1;
    var init := records[..n];
    var d := records[n];
    if t in Converted(init, withClient, files) {
      ConvertedHashesValid(init, withClient, files, t);
      var i :| 0 <= i < |init| && Get(init[i], "hash", VStr("")) == VStr(t.Hash());
      assert records[i] == init[i];
    } else {
      var r := FromQbittorrentApi(d, Some(FilesCount(withClient, files(Get(d, "hash", VStr(""))))));
      assert r.Success? && r.value == t;
    }
  }

  // ------------------------------------------------------------ classification in tag_existing_torrents_by_location

  datatype Reason = NoContentPath | NoCategory | OutsideLocations

  /** An HDD tag to add; `hddPath` is the expected HDD copy for a torrent found on the SSD. */
  datatype HddCandidate = HddCandidate(info: TorrentInfo, hddPath: Option<string>)

  datatype CopyOp = CopyOp(info: TorrentInfo, ssdPath: string, hddPath: string)

  /** The four lists the analysis fills. */
  datatype Plan = Plan(
    ssd: seq<TorrentInfo>,
    hdd: seq<HddCandidate>,
    copies: seq<CopyOp>,
    untaggable: seq<(TorrentInfo, Reason)>)
  {
    function Then(next: Plan): Plan {
      Plan(ssd + next.ssd, hdd + next.hdd, copies + next.copies, untaggable + next.untaggable)
    }

    /** `total_operations` */
    function TotalOperations(): nat {
      |ssd| + |hdd| + |copies|
    }
  }

  const NoPlan := Plan([], [], [], [])

  predicate UnderSsd(t: TorrentInfo, loc: Locations) {
    StartsWith(t.contentPath, loc.ssdPath)
  }

  /** Under the HDD store and, the SSD prefix being checked first, not under the SSD cache. */
  predicate UnderHddOnly(t: TorrentInfo, loc: Locations) {
    !UnderSsd(t, loc) && StartsWith(t.contentPath, loc.hddBase)
  }

  /** Where the HDD copy of an SSD torrent is expected. */
  function ExpectedHddPath(t: TorrentInfo, loc: Locations): string {
    Core.HddDataPath(loc.hddBase, t)
  }

  predicate NeedsSsdTag(t: TorrentInfo, loc: Locations) {
    t.contentPath != "" && UnderSsd(t, loc) && !Contains(t.tags, loc.ssdTag)
  }

  predicate NeedsCopy(t: TorrentInfo, loc: Locations, exists_: string -> bool) {
    t.contentPath != "" && UnderSsd(t, loc) && t.category != "" && !exists_(ExpectedHddPath(t, loc))
  }

  predicate NeedsHddTag(t: TorrentInfo, loc: Locations, exists_: string -> bool) {
    && t.contentPath != ""
    && !Contains(t.tags, loc.hddTag)
    && ((UnderSsd(t, loc) && t.category != "" && exists_(ExpectedHddPath(t, loc))) || UnderHddOnly(t, loc))
  }

  predicate Untaggable(t: TorrentInfo, loc: Locations) {
    t.contentPath == "" || (UnderSsd(t, loc) && t.category == "") || (!UnderSsd(t, loc) && !UnderHddOnly(t, loc))
  }

  /** What the analysis adds to the four lists for one torrent. */
  function PlanFor(t: TorrentInfo, loc: Locations, exists_: string -> bool): Plan
  {
    if t.contentPath == "" then Plan([], [], [], [(t, NoContentPath)])
    else
      var hasSsd := Contains(t.tags, loc.ssdTag);
      var hasHdd := Contains(t.tags, loc.hddTag);
      if StartsWith(t.contentPath, loc.ssdPath) then
        var ssd := if !hasSsd then [t] else [];
        if t.category != "" then
          var expected := ExpectedHddPath(t, loc);
          if exists_(expected) then
            Plan(ssd, if !hasHdd then [HddCandidate(t, Some(expected))] else [], [], [])
          else
            Plan(ssd, [], [CopyOp(t, t.contentPath, expected)], [])
        else Plan(ssd, [], [], [(t, NoCategory)])
      else if StartsWith(t.contentPath, loc.hddBase) then
        Plan([], if !hasHdd then [HddCandidate(t, None)] else [], [], [])
      else Plan([], [], [], [(t, OutsideLocations)])
  }

  /** The per-torrent rules of the analysis. */
  lemma {:induction false} PlanForRules(t: TorrentInfo, loc: Locations, exists_: string -> bool)
    ensures var p := PlanFor(t, loc, exists_);
            && p.ssd == (if NeedsSsdTag(t, loc) then [t] else [])
            && |p.hdd| <= 1 && (p.hdd != [] <==> NeedsHddTag(t, loc, exists_))
            && (p.hdd != [] ==>
                  p.hdd[0].info == t && p.hdd[0].hddPath == (if UnderSsd(t, loc) then Some(ExpectedHddPath(t, loc)) else None))
            && p.copies == (if NeedsCopy(t, loc, exists_) then [CopyOp(t, t.contentPath, ExpectedHddPath(t, loc))] else [])
            && |p.untaggable| <= 1 && (p.untaggable != [] <==> Untaggable(t, loc))
            && (p.untaggable != [] ==> p.untaggable[0].0 == t && p.hdd == [] && p.copies == [])
            && !(p.hdd != [] && p.copies != [])
  {
    var p := PlanFor(t, loc, exists_);
    if t.contentPath == "" {
      assert p == Plan([], [], [], [(t, NoContentPath)]);
    } else if UnderSsd(t, loc) {
      assert StartsWith(t.contentPath, loc.ssdPath);
      if t.category == "" {
        assert p.hdd == [] && p.copies == [] && p.untaggable == [(t, NoCategory)];
      } else {
        var expected := ExpectedHddPath(t, loc);
        assert p.untaggable == [];
        if exists_(expected) {
          assert p.copies == [];
        } else {
          assert p.hdd == [] && p.copies == [CopyOp(t, t.contentPath, expected)];
        }
      }
    } else if UnderHddOnly(t, loc) {
      assert p.ssd == [] && p.copies == [] && p.untaggable == [];
    } else {
      assert p == Plan([], [], [], [(t, OutsideLocations)]);
    }
  }

  /** The lists after the analysis loop over `infos`. */
  function PlanAll(infos: seq<TorrentInfo>, loc: Locations, exists_: string -> bool): Plan {
    if infos == [] then NoPlan
    else PlanAll(infos[..|infos| - 1], loc, exists_).Then(PlanFor(infos[|infos| - 1], loc, exists_))
  }

  /** One pass of the analysis loop: the torrent's entries appended to the four lists. */
  method ClassifyOne(t: TorrentInfo, loc: Locations, exists_: string -> bool, before: Plan) returns (after: Plan)
    ensures after == before.Then(PlanFor(t, loc, exists_))
  {
    var ssd, hdd, copies, untaggable := before.ssd, before.hdd, before.copies, before.untaggable;
    if t.contentPath == "" {
      untaggable := untaggable + [(t, NoContentPath)];
    } else {
      var hasSsd := Contains(t.tags, loc.ssdTag);
      var hasHdd := Contains(t.tags, loc.hddTag);
      if StartsWith(t.contentPath, loc.ssdPath) {
        if !hasSsd {
          ssd := ssd + [t];
        }
        if t.category != "" {
          var expected := ExpectedHddPath(t, loc);
          if exists_(expected) {
            if !hasHdd {
              hdd := hdd + [HddCandidate(t, Some(expected))];
            }
          } else {
            copies := copies + [CopyOp(t, t.contentPath, expected)];
          }
        } else {
          untaggable := untaggable + [(t, NoCategory)];
        }
      } else if StartsWith(t.contentPath, loc.hddBase) {
        if !hasHdd {
          hdd := hdd + [HddCandidate(t, None)];
        }
      } else {
        untaggable := untaggable + [(t, OutsideLocations)];
      }
    }
    after := Plan(ssd, hdd, copies, untaggable);
  }

  /** The analysis loop of `tag_existing_torrents_by_location`. */
  method ClassifyByLocation(infos: seq<TorrentInfo>, loc: Locations, exists_: string -> bool) returns (plan: Plan)
    ensures plan == PlanAll(infos, loc, exists_)
  {
    plan := NoPlan;
    var i := 0;
    while i < |infos|
      invariant 0 <= i <= |infos|
      invariant plan == PlanAll(infos[..i], loc, exists_)
    {
      assert infos[..i + 1][..i] == infos[..i];
      plan := ClassifyOne(infos[i], loc, exists_, plan);
      i := i + 1;
    }
    assert infos[..i] == infos;
  }

  /** Each list holds exactly as many entries as there are torrents satisfying its rule. */
  lemma {:induction false} PlanCounts(infos: seq<TorrentInfo>, loc: Locations, exists_: string -> bool)
    ensures var p := PlanAll(infos, loc, exists_);
            && |p.ssd| == Count(infos, (t: TorrentInfo) => NeedsSsdTag(t, loc))
            && |p.hdd| == Count(infos, (t: TorrentInfo) => NeedsHddTag(t, loc, exists_))
            && |p.copies| == Count(infos, (t: TorrentInfo) => NeedsCopy(t, loc, exists_))
            && |p.untaggable| == Count(infos, (t: TorrentInfo) => Untaggable(t, loc))
  {
    if infos != [] {
      var init, last := infos[..|infos| - 1], infos[|infos| - 1];
      PlanCounts(init, loc, exists_);
      PlanForRules(last, loc, exists_);
      assert init + [last] == infos;
      CountSnoc(init, last, (t: TorrentInfo) => NeedsSsdTag(t, loc));
      CountSnoc(init, last, (t: TorrentInfo) => NeedsHddTag(t, loc, exists_));
      CountSnoc(init, last, (t: TorrentInfo) => NeedsCopy(t, loc, exists_));
      CountSnoc(init, last, (t: TorrentInfo) => Untaggable(t, loc));
    }
  }

  /** Every copy operation copies an SSD torrent's data to its expected HDD path. */
  lemma {:induction false} CopiesTargetExpectedPath(infos: seq<TorrentInfo>, loc: Locations, exists_: string -> bool, op: CopyOp)
    requires op in PlanAll(infos, loc, exists_).copies
    ensures op.info in infos && UnderSsd(op.info, loc) && op.info.category != ""
    ensures op.ssdPath == op.info.contentPath && op.hddPath == ExpectedHddPath(op.info, loc) && !exists_(op.hddPath)
  {
    var init, last := infos[..|infos| - 1], infos[|infos| - 1];
    PlanForRules(last, loc, exists_);
    if op in PlanAll(init, loc, exists_).copies {
      CopiesTargetExpectedPath(init, loc, exists_, op);
    }
  }

  // ------------------------------------------------------------ the operations of tag_existing_torrents_by_location

  /** A copy operation counts as successful when the copy, its verification and the HDD tag all succeed. */
  predicate CopySucceeds(op: CopyOp, loc: Locations, tagOk: (string, string) -> bool,
                         copyOk: CopyOp -> bool, verifyOk: CopyOp -> bool) {
    copyOk(op) && verifyOk(op) && tagOk(loc.hddTag, op.info.Hash())
  }

  function TagCalls(hashes: seq<string>, tag: string): (r: seq<TagCall>)
    ensures |r| == |hashes| && forall i :: 0 <= i < |r| ==> r[i] == AddTag(tag, hashes[i])
  {
    if hashes == [] then [] else TagCalls(hashes[..|hashes| - 1], tag) + [AddTag(tag, hashes[|hashes| - 1])]
  }

  function Hashes(ts: seq<TorrentInfo>): (r: seq<string>)
    ensures |r| == |ts| && forall i :: 0 <= i < |r| ==> r[i] == ts[i].Hash()
  {
    if ts == [] then [] else Hashes(ts[..|ts| - 1]) + [ts[|ts| - 1].Hash()]
  }

  function CandidateHashes(cs: seq<HddCandidate>): (r: seq<string>)
    ensures |r| == |cs| && forall i :: 0 <= i < |r| ==> r[i] == cs[i].info.Hash()
  {
    if cs == [] then [] else CandidateHashes(cs[..|cs| - 1]) + [cs[|cs| - 1].info.Hash()]
  }

  /** The calls the copy loop makes: a copy per operation and, when it verifies, the HDD tag. */
  function CopyCalls(ops: seq<CopyOp>, loc: Locations, copyOk: CopyOp -> bool, verifyOk: CopyOp -> bool): seq<TagCall> {
    if ops == [] then []
    else
      var op := ops[|ops| - 1];
      CopyCalls(ops[..|ops| - 1], loc, copyOk, verifyOk)
      + [CopyData(op.ssdPath, op.hddPath)]
      + (if copyOk(op) && verifyOk(op) then [AddTag(loc.hddTag, op.info.Hash())] else [])
  }

  datatype TagReport =
    | TaggingDisabled
    | WouldTag(total: nat, ssdOps: nat, hddOps: nat, copyOps: nat, untaggable: nat)
    | Tagged(total: nat, successful: nat, failed: nat, ssdOps: nat, hddOps: nat, copyOps: nat, untaggable: nat)
    | ListingFailed(error: string)

  /** A tag loop: one `torrents_add_tags` call per hash; a call that raises counts as failed. */
  method AddTagEach(hashes: seq<string>, tag: string, tagOk: (string, string) -> bool)
    returns (successful: nat, failed: nat, calls: seq<TagCall>)
    ensures successful == Count(hashes, (h: string) => tagOk(tag, h))
    ensures successful + failed == |hashes|
    ensures calls == TagCalls(hashes, tag)
  {
    successful, failed, calls := 0, 0, [];
    var i := 0;
    while i < |hashes|
      invariant 0 <= i <= |hashes|
      invariant successful == Count(hashes[..i], (h: string) => tagOk(tag, h))
      invariant successful + failed == i
      invariant calls == TagCalls(hashes[..i], tag)
    {
      var h := hashes[i];
      assert hashes[..i + 1] == hashes[..i] + [h];
      CountSnoc(hashes[..i], h, (h: string) => tagOk(tag, h));
      calls := calls + [AddTag(tag, h)];
      if tagOk(tag, h) {
        successful := successful + 1;
      } else {
        failed := failed + 1;
      }
      i := i + 1;
    }
    assert hashes[..i] == hashes;
  }

  /** The copy loop: copy, verify, then add the HDD tag; any step that fails counts the operation as failed. */
  method CopyAndTagEach(ops: seq<CopyOp>, loc: Locations, tagOk: (string, string) -> bool,
                        copyOk: CopyOp -> bool, verifyOk: CopyOp -> bool)
    returns (successful: nat, failed: nat, calls: seq<TagCall>)
    ensures successful == Count(ops, (op: CopyOp) => CopySucceeds(op, loc, tagOk, copyOk, verifyOk))
    ensures successful + failed == |ops|
    ensures calls == CopyCalls(ops, loc, copyOk, verifyOk)
  {
    successful, failed, calls := 0, 0, [];
    var i := 0;
    while i < |ops|
      invariant 0 <= i <= |ops|
      invariant successful == Count(ops[..i], (op: CopyOp) => CopySucceeds(op, loc, tagOk, copyOk, verifyOk))
      invariant successful + failed == i
      invariant calls == CopyCalls(ops[..i], loc, copyOk, verifyOk)
    {
      var op := ops[i];
      assert ops[..i + 1] == ops[..i] + [op];
      assert ops[..i + 1][..i] == ops[..i];
      CountSnoc(ops[..i], op, (op: CopyOp) => CopySucceeds(op, loc, tagOk, copyOk, verifyOk));
      calls := calls + [CopyData(op.ssdPath, op.hddPath)];
      if copyOk(op) {
        if verifyOk(op) {
          calls := calls + [AddTag(loc.hddTag, op.info.Hash())];
          if tagOk(loc.hddTag, op.info.Hash()) {
            successful := successful + 1;
          } else {
            failed := failed + 1;
          }
        } else {
          failed := failed + 1;
        }
      } else {
        failed := failed + 1;
      }
      i := i + 1;
    }
    assert ops[..i] == ops;
  }

  /** The tagging and copying phase; a dry run reports the plan and calls nothing. */
  method PerformOperations(plan: Plan, loc: Locations, dryRun: bool, tagOk: (string, string) -> bool,
                           copyOk: CopyOp -> bool, verifyOk: CopyOp -> bool)
    returns (report: TagReport, calls: seq<TagCall>)
    ensures dryRun ==> calls == [] &&
                       report == WouldTag(plan.TotalOperations(), |plan.ssd|, |plan.hdd|, |plan.copies|, |plan.untaggable|)
    ensures !dryRun ==> report.Tagged? && report.total == plan.TotalOperations()
    ensures !dryRun ==> report.successful + report.failed == report.total
    ensures !dryRun ==> report.successful ==
                          Count(Hashes(plan.ssd), (h: string) => tagOk(loc.ssdTag, h))
                          + Count(CandidateHashes(plan.hdd), (h: string) => tagOk(loc.hddTag, h))
                          + Count(plan.copies, (op: CopyOp) => CopySucceeds(op, loc, tagOk, copyOk, verifyOk))
    ensures !dryRun ==> calls == TagCalls(Hashes(plan.ssd), loc.ssdTag) + TagCalls(CandidateHashes(plan.hdd), loc.hddTag)
                                 + CopyCalls(plan.copies, loc, copyOk, verifyOk)
    ensures !dryRun ==> report.ssdOps == |plan.ssd| && report.hddOps == |plan.hdd| &&
                        report.copyOps == |plan.copies| && report.untaggable == |plan.untaggable|
  {
    if dryRun {
      return WouldTag(plan.TotalOperations(), |plan.ssd|, |plan.hdd|, |plan.copies|, |plan.untaggable|), [];
    }
    var s1, f1, c1 := AddTagEach(Hashes(plan.ssd), loc.ssdTag, tagOk);
    var s2, f2, c2 := AddTagEach(CandidateHashes(plan.hdd), loc.hddTag, tagOk);
    var s3, f3, c3 := CopyAndTagEach(plan.copies, loc, tagOk, copyOk, verifyOk);
    calls := c1 + c2 + c3;
    report := Tagged(plan.TotalOperations(), s1 + s2 + s3, f1 + f2 + f3,
                     |plan.ssd|, |plan.hdd|, |plan.copies|, |plan.untaggable|);
  }

  /**
    * `tag_existing_torrents_by_location(client, dry_run)` over the answer of
    * `get_all_torrents`: either the listed dicts or, when the listing raised,
    * the text of its exception, which the outer handler reports as the error.
    * With tagging disabled it reports so and lists nothing.
    */
  method TagExistingTorrentsByLocation(
    enabled: bool, listing: Result<seq<Dict>, string>, files: Value -> Option<nat>, loc: Locations,
    exists_: string -> bool, dryRun: bool, tagOk: (string, string) -> bool, copyOk: CopyOp -> bool,
    verifyOk: CopyOp -> bool)
    returns (report: TagReport, calls: seq<TagCall>)
    ensures !enabled ==> report == TaggingDisabled && calls == []
    ensures enabled && listing.Failure? ==> report == ListingFailed(listing.error) && calls == []
    ensures enabled && listing.Success? && dryRun ==>
              var plan := PlanAll(Converted(listing.value, true, files), loc, exists_);
              && calls == []
              && report == WouldTag(plan.TotalOperations(), |plan.ssd|, |plan.hdd|, |plan.copies|, |plan.untaggable|)
    ensures enabled && listing.Success? && !dryRun ==>
              var plan := PlanAll(Converted(listing.value, true, files), loc, exists_);
              && report.Tagged?
              && report.total == plan.TotalOperations()
              && report.successful + report.failed == report.total
              && report.successful ==
                   Count(Hashes(plan.ssd), (h: string) => tagOk(loc.ssdTag, h))
                   + Count(CandidateHashes(plan.hdd), (h: string) => tagOk(loc.hddTag, h))
                   + Count(plan.copies, (op: CopyOp) => CopySucceeds(op, loc, tagOk, copyOk, verifyOk))
              && calls == TagCalls(Hashes(plan.ssd), loc.ssdTag) + TagCalls(CandidateHashes(plan.hdd), loc.hddTag)
                          + CopyCalls(plan.copies, loc, copyOk, verifyOk)
              && report.ssdOps == |plan.ssd| && report.hddOps == |plan.hdd|
              && report.copyOps == |plan.copies| && report.untaggable == |plan.untaggable|
  {
    if !enabled {
      return TaggingDisabled, [];
    }
    if listing.Failure? {
      return ListingFailed(listing.error), [];
    }
    var infos := ConvertQbtTorrents(listing.value, true, files);
    var plan := ClassifyByLocation(infos, loc, exists_);
    report, calls := PerformOperations(plan, loc, dryRun, tagOk, copyOk, verifyOk);
  }

  // ------------------------------------------------------------ get_location_tag_summary

  datatype TagSummary = TagSummary(total: nat, ssdOnly: nat, hddOnly: nat, dualLocation: nat, untagged: nat)

  /** Where a torrent's hash is found among the SSD-tagged and the HDD-tagged ones. */
  datatype Placement = DualLocation | SsdOnly | HddOnly | Untagged

  function PlacementOf(h: string, ssd: set<string>, hdd: set<string>): Placement {
    if h in ssd && h in hdd then DualLocation
    else if h in ssd then SsdOnly
    else if h in hdd then HddOnly
    else Untagged
  }

  function Placed(all: seq<TorrentInfo>, ssd: set<string>, hdd: set<string>, p: Placement): nat {
    Count(all, (t: TorrentInfo) => PlacementOf(t.Hash(), ssd, hdd) == p)
  }

  /** The counting loop of the summary. */
  method CountPlacements(all: seq<TorrentInfo>, ssd: set<string>, hdd: set<string>) returns (summary: TagSummary)
    ensures summary.total == |all|
    ensures summary.ssdOnly + summary.hddOnly + summary.dualLocation + summary.untagged == summary.total
    ensures summary.dualLocation == Placed(all, ssd, hdd, DualLocation)
    ensures summary.ssdOnly == Placed(all, ssd, hdd, SsdOnly)
    ensures summary.hddOnly == Placed(all, ssd, hdd, HddOnly)
    ensures summary.untagged == Placed(all, ssd, hdd, Untagged)
  {
    var ssdOnly, hddOnly, dual, untagged := 0, 0, 0, 0;
    var i := 0;
    while i < |all|
      invariant 0 <= i <= |all|
      invariant dual == Placed(all[..i], ssd, hdd, DualLocation)
      invariant ssdOnly == Placed(all[..i], ssd, hdd, SsdOnly)
      invariant hddOnly == Placed(all[..i], ssd, hdd, HddOnly)
      invariant untagged == Placed(all[..i], ssd, hdd, Untagged)
      invariant ssdOnly + hddOnly + dual + untagged == i
    {
      var t := all[i];
      assert all[..i + 1] == all[..i] + [t];
      PlacedSnoc(all[..i], t, ssd, hdd);
      var hasSsd := t.Hash() in ssd;
      var hasHdd := t.Hash() in hdd;
      if hasSsd && hasHdd {
        dual := dual + 1;
      } else if hasSsd && !hasHdd {
        ssdOnly := ssdOnly + 1;
      } else if hasHdd && !hasSsd {
        hddOnly := hddOnly + 1;
      } else {
        untagged := untagged + 1;
      }
      i := i + 1;
    }
    assert all[..i] == all;
    summary := TagSummary(|all|, ssdOnly, hddOnly, dual, untagged);
  }

  lemma {:induction false} PlacedSnoc(all: seq<TorrentInfo>, t: TorrentInfo, ssd: set<string>, hdd: set<string>)
    ensures forall p :: Placed(all + [t], ssd, hdd, p) == Placed(all, ssd, hdd, p) + (if PlacementOf(t.Hash(), ssd, hdd) == p then 1 else 0)
  {
    forall p ensures Placed(all + [t], ssd, hdd, p) == Placed(all, ssd, hdd, p) + (if PlacementOf(t.Hash(), ssd, hdd) == p then 1 else 0) {
      CountSnoc(all, t, (t: TorrentInfo) => PlacementOf(t.Hash(), ssd, hdd) == p);
    }
  }

  /**
    * `get_location_tag_summary`: the three qBittorrent answers (SSD-tagged,
    * HDD-tagged, all), each either the listed dicts or the text of the exception
    * the listing raised, converted without a client; then every torrent counted
    * once by whether its hash is among the SSD-tagged and the HDD-tagged ones.
    * The listings are made in that order, so the first one that raised gives
    * the error.
    */
  method GetLocationTagSummary(enabled: bool, ssdListing: Result<seq<Dict>, string>,
                               hddListing: Result<seq<Dict>, string>, allListing: Result<seq<Dict>, string>,
                               files: Value -> Option<nat>)
    returns (r: Result<TagSummary, string>)
    ensures !enabled ==> r == Failure("Location tagging disabled")
    ensures enabled ==> (r.Success? <==> ssdListing.Success? && hddListing.Success? && allListing.Success?)
    ensures enabled && ssdListing.Failure? ==> r == Failure(ssdListing.error)
    ensures enabled && ssdListing.Success? && hddListing.Failure? ==> r == Failure(hddListing.error)
    ensures enabled && ssdListing.Success? && hddListing.Success? && allListing.Failure? ==> r == Failure(allListing.error)
    ensures enabled && r.Success? ==>
              var all := Converted(allListing.value, false, files);
              var ssd := set t | t in Converted(ssdListing.value, false, files) :: t.Hash();
              var hdd := set t | t in Converted(hddListing.value, false, files) :: t.Hash();
              && r.value.total == |all|
              && r.value.ssdOnly + r.value.hddOnly + r.value.dualLocation + r.value.untagged == r.value.total
              && r.value.dualLocation == Placed(all, ssd, hdd, DualLocation)
              && r.value.ssdOnly == Placed(all, ssd, hdd, SsdOnly)
              && r.value.hddOnly == Placed(all, ssd, hdd, HddOnly)
              && r.value.untagged == Placed(all, ssd, hdd, Untagged)
  {
    if !enabled {
      return Failure("Location tagging disabled");
    }
    if ssdListing.Failure? {
      return Failure(ssdListing.error);
    }
    if hddListing.Failure? {
      return Failure(hddListing.error);
    }
    if allListing.Failure? {
      return Failure(allListing.error);
    }
    var ssdInfos := ConvertQbtTorrents(ssdListing.value, false, files);
    var hddInfos := ConvertQbtTorrents(hddListing.value, false, files);
    var all := ConvertQbtTorrents(allListing.value, false, files);
    var ssd := set t | t in ssdInfos :: t.Hash();
    var hdd := set t | t in hddInfos :: t.Hash();
    var summary := CountPlacements(all, ssd, hdd);
    r := Success(summary);
  }

  /** The summary's placement is the hash-membership test. */
  lemma {:induction false} PlacementMeaning(h: string, ssd: set<string>, hdd: set<string>)
    ensures PlacementOf(h, ssd, hdd) == DualLocation <==> h in ssd && h in hdd
    ensures PlacementOf(h, ssd, hdd) == SsdOnly <==> h in ssd && h !in hdd
    ensures PlacementOf(h, ssd, hdd) == HddOnly <==> h !in ssd && h in hdd
    ensures PlacementOf(h, ssd, hdd) == Untagged <==> h !in ssd && h !in hdd
  {
  }

  // ------------------------------------------------------------ auto_tag_torrent, add_hdd_tag, remove_ssd_tag

  /**
    * `auto_tag_torrent`: the result and the calls made.  Only an untagged torrent
    * under the SSD path is tagged, and only a failure of that call gives False.
    */
  function AutoTagTorrent(enabled: bool, autoTag: bool, loc: Locations, t: TorrentInfo, currentTags: string, callOk: bool)
    : (r: (bool, seq<TagCall>))
    ensures r.1 != [] <==>
              enabled && autoTag && !Contains(currentTags, loc.ssdTag) && !Contains(currentTags, loc.hddTag) && UnderSsd(t, loc)
    ensures r.1 != [] ==> r.1 == [AddTag(loc.ssdTag, t.Hash())]
    ensures !r.0 <==> r.1 != [] && !callOk
  {
    if !enabled || !autoTag then (true, [])
    else if Contains(currentTags, loc.ssdTag) || Contains(currentTags, loc.hddTag) then (true, [])
    else if StartsWith(t.contentPath, loc.ssdPath) then (callOk, [AddTag(loc.ssdTag, t.Hash())])
    else (true, [])
  }

  /**
    * `add_hdd_tag` (with `AddTag(HDD tag, hash)`) and `remove_ssd_tag` (with
    * `RemoveTag(SSD tag, hash)`): the call is made only with tagging enabled, and
    * the result is False only when it fails.
    */
  function ChangeLocationTag(enabled: bool, call: TagCall, callOk: bool): (r: (bool, seq<TagCall>))
    ensures r.1 == (if enabled then [call] else [])
    ensures r.0 <==> !enabled || callOk
  {
    if !enabled then (true, []) else (callOk, [call])
  }
}
