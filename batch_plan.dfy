// How the orchestrator decides which files a run handles (handlers/batch_processing.py,
// `process_client` up to its processing loop): start mode scans the raw incoming folders and
// files each name under a configuration, restart mode rebuilds the list from the manifest
// and the audit log, reprocessing mode correlates Parquet artifacts with manifest entries.
module BatchPlan {
  import opened Optional
  import opened PyStrings
  import opened Json
  import opened BatchTokens
  import opened FileNames
  import opened BatchConfig
  import opened Manifest

  /** One file the processing loop will handle, with the configuration data it needs. */
  datatype Item = Item(origName: string, ss: Value, ext: Value, logical: Value, targetSchema: Value,
                       targetTable: Value, sourceConfig: Value, existingAudit: bool)

  /** A `tools.file_audit_log` row start mode inserts for a file no configuration accepts,
    * config validation FAILED. When its rename succeeds the file is moved, under `phys`, to
    * `raw/<schema>/<sourceSystem>/failed`; otherwise it stays where it was under its own name. */
  datatype Rejection = Rejection(phys: string, batchId: string, sourceType: Value, sourceSystem: string)

  /** The files of one raw incoming folder, in listing order; a missing folder lists none. */
  function Listing(incoming: map<string, seq<string>>, ss: string): seq<string> {
    if ss in incoming then incoming[ss] else []
  }

  // ----- start mode -----------------------------------------------------------------------

  /** What the start-mode scan collects. */
  datatype StartScan = StartScan(items: seq<Item>, rejected: seq<Rejection>)

  function StartItem(c: Config, ss: string, fn: string): Item {
    Item(fn, Str(ss), Str(FileExt(fn)), c.logical, c.targetSchema, c.targetTable, c.sourceConfig, false)
  }

  /** The audit row of a rejected file: renamed with the batch stamp unless renaming failed
    * (`renameFails`), type `None` for a file without extension, config validation FAILED. */
  function Rejected(ss: string, fn: string, batchId: string, renameFails: set<string>): Rejection {
    var ext := FileExt(fn);
    Rejection(if fn in renameFails then fn else RenameWithBatch(fn, batchId), batchId,
              if ext != "" then Str(ext) else Null, ss)
  }

  /** `it` is the item start mode makes for its file under the first configuration that
    * accepts the file. */
  predicate AcceptedItem(configs: seq<Config>, it: Item) {
    it.ss.Str? &&
    match StartConfig(configs, it.ss.s, it.origName)
    case None => false
    case Some(i) => it == StartItem(configs[i], it.ss.s, it.origName)
  }

  /** What start mode does with one file: keep it as an item, or reject it. */
  datatype Outcome = Keep(it: Item) | Reject(rej: Rejection)

  /** One file of the scan: accepted under its first matching configuration, or rejected. */
  function FileOutcome(configs: seq<Config>, ss: string, fn: string, batchId: string,
                       renameFails: set<string>): Outcome
  {
    match StartConfig(configs, ss, fn)
    case Some(i) => Keep(StartItem(configs[i], ss, fn))
    case None => Reject(Rejected(ss, fn, batchId, renameFails))
  }

  /** The outcome of each file of the folder of `ss`. */
  function OutcomeIn(configs: seq<Config>, ss: string, batchId: string, renameFails: set<string>): string -> Outcome {
    fn => FileOutcome(configs, ss, fn, batchId, renameFails)
  }

  /** A kept file is filed under the first configuration accepting it, as an item of its
    * own name and source system. */
  lemma FileOutcomeKept(configs: seq<Config>, ss: string, fn: string, batchId: string,
                        renameFails: set<string>, it: Item)
    requires FileOutcome(configs, ss, fn, batchId, renameFails) == Keep(it)
    ensures it.origName == fn && it.ss == Str(ss) && AcceptedItem(configs, it)
  {
  }

  /** A file is rejected exactly when no configuration accepts it. */
  lemma FileOutcomeRejected(configs: seq<Config>, ss: string, fn: string, batchId: string,
                            renameFails: set<string>)
    ensures FileOutcome(configs, ss, fn, batchId, renameFails).Reject? <==> StartConfig(configs, ss, fn).None?
  {
  }

  /** Recording one outcome on the scan so far. */
  function Record(acc: StartScan, o: Outcome): (r: StartScan)
    ensures |r.items| + |r.rejected| == |acc.items| + |acc.rejected| + 1
  {
    match o
    case Keep(it) => acc.(items := acc.items + [it])
    case Reject(rej) => acc.(rejected := acc.rejected + [rej])
  }

  /** The outcomes of `files` in order, recorded on `acc`. */
  function ScanBy(acc: StartScan, files: seq<string>, outcome: string -> Outcome): (r: StartScan)
    ensures |r.items| + |r.rejected| == |acc.items| + |acc.rejected| + |files|
    ensures |acc.items| <= |r.items| && r.items[..|acc.items|] == acc.items
    ensures |acc.rejected| <= |r.rejected| && r.rejected[..|acc.rejected|] == acc.rejected
    decreases |files|
  {
    if |files| == 0 then acc
    else
      var prev := ScanBy(acc, files[..|files| - 1], outcome);
      var r := Record(prev, outcome(files[|files| - 1]));
      PrefixChain(acc.items, prev.items, r.items);
      PrefixChain(acc.rejected, prev.rejected, r.rejected);
      r
  }

  lemma PrefixChain<T>(a: seq<T>, b: seq<T>, c: seq<T>)
    requires |a| <= |b| <= |c| && c[..|b|] == b && b[..|a|] == a
    ensures c[..|a|] == a
  {
    assert c[..|a|] == c[..|b|][..|a|];
  }

  /** Each item the scan adds is what some file of the listing was kept as. */
  lemma {:induction false} ScanByKeeps(acc: StartScan, files: seq<string>, outcome: string -> Outcome, k: nat)
    returns (j: nat)
    requires |acc.items| <= k < |ScanBy(acc, files, outcome).items|
    ensures j < |files| && outcome(files[j]) == Keep(ScanBy(acc, files, outcome).items[k])
    decreases |files|
  {
    var init := files[..|files| - 1];
    var prev := ScanBy(acc, init, outcome);
    var o := outcome(files[|files| - 1]);
    var r := Record(prev, o);
    assert r == ScanBy(acc, files, outcome);
    if k < |prev.items| {
      j := ScanByKeeps(acc, init, outcome, k);
      assert files[j] == init[j];
      assert r.items[k] == prev.items[k] by {
        if o.Keep? {
          assert r.items == prev.items + [o.it];
        }
      }
    } else {
      j := |files| - 1;
    }
  }

  /** Each file of the listing leaves an item or a rejection: together they number as many
    * as the files scanned. */
  function ScanFiles(acc: StartScan, configs: seq<Config>, ss: string, files: seq<string>, batchId: string,
                     renameFails: set<string>): (r: StartScan)
    ensures |r.items| + |r.rejected| == |acc.items| + |acc.rejected| + |files|
    ensures |acc.items| <= |r.items| && r.items[..|acc.items|] == acc.items
  {
    ScanBy(acc, files, OutcomeIn(configs, ss, batchId, renameFails))
  }

  /** The scan over the source systems in order. */
  function ScanSystems(configs: seq<Config>, systems: seq<string>, incoming: map<string, seq<string>>,
                       batchId: string, renameFails: set<string>): (r: StartScan)
    ensures |r.items| + |r.rejected| == SumListings(systems, incoming)
    decreases |systems|
  {
    if |systems| == 0 then StartScan([], [])
    else
      var prev := ScanSystems(configs, systems[..|systems| - 1], incoming, batchId, renameFails);
      var ss := systems[|systems| - 1];
      ScanFiles(prev, configs, ss, Listing(incoming, ss), batchId, renameFails)
  }

  /** Each item start mode collects comes from the incoming folder of one of the source
    * systems and is filed under the first configuration accepting it. */
  lemma {:induction false} ScanSystemsKeeps(configs: seq<Config>, systems: seq<string>,
                                            incoming: map<string, seq<string>>, batchId: string,
                                            renameFails: set<string>, k: nat)
    requires k < |ScanSystems(configs, systems, incoming, batchId, renameFails).items|
    ensures var it := ScanSystems(configs, systems, incoming, batchId, renameFails).items[k];
            it.ss.Str? && it.ss.s in systems && it.origName in Listing(incoming, it.ss.s)
            && AcceptedItem(configs, it)
    decreases |systems|
  {
    var init := systems[..|systems| - 1];
    var ss := systems[|systems| - 1];
    var prev := ScanSystems(configs, init, incoming, batchId, renameFails);
    var files := Listing(incoming, ss);
    var r := ScanFiles(prev, configs, ss, files, batchId, renameFails);
    assert r == ScanSystems(configs, systems, incoming, batchId, renameFails);
    if k < |prev.items| {
      ScanSystemsKeeps(configs, init, incoming, batchId, renameFails, k);
      assert r.items[k] == prev.items[k];
      assert prev.items[k].ss.s in systems;
    } else {
      var j := ScanByKeeps(prev, files, OutcomeIn(configs, ss, batchId, renameFails), k);
      FileOutcomeKept(configs, ss, files[j], batchId, renameFails, r.items[k]);
    }
  }

  /** Every item start mode collects is filed under the first configuration accepting it. */
  lemma ScanSystemsAccepted(configs: seq<Config>, systems: seq<string>, incoming: map<string, seq<string>>,
                            batchId: string, renameFails: set<string>)
    ensures var r := ScanSystems(configs, systems, incoming, batchId, renameFails);
            forall k :: 0 <= k < |r.items| ==> AcceptedItem(configs, r.items[k])
  {
    var r := ScanSystems(configs, systems, incoming, batchId, renameFails);
    forall k | 0 <= k < |r.items| ensures AcceptedItem(configs, r.items[k]) {
      ScanSystemsKeeps(configs, systems, incoming, batchId, renameFails, k);
    }
  }

  /** How many files the listed folders hold together. */
  function SumListings(systems: seq<string>, incoming: map<string, seq<string>>): nat
    decreases |systems|
  {
    if |systems| == 0 then 0
    else SumListings(systems[..|systems| - 1], incoming) + |Listing(incoming, systems[|systems| - 1])|
  }

  lemma ScanSystemsStep(configs: seq<Config>, systems: seq<string>, s: nat, incoming: map<string, seq<string>>,
                        batchId: string, renameFails: set<string>)
    requires s < |systems|
    ensures ScanSystems(configs, systems[..s + 1], incoming, batchId, renameFails)
            == ScanFiles(ScanSystems(configs, systems[..s], incoming, batchId, renameFails),
                         configs, systems[s], Listing(incoming, systems[s]), batchId, renameFails)
  {
    assert systems[..s + 1][..s] == systems[..s];
  }

  lemma ScanFilesStep(acc: StartScan, configs: seq<Config>, ss: string, files: seq<string>, i: nat,
                      batchId: string, renameFails: set<string>)
    requires i < |files|
    ensures ScanFiles(acc, configs, ss, files[..i + 1], batchId, renameFails)
            == Record(ScanFiles(acc, configs, ss, files[..i], batchId, renameFails),
                      FileOutcome(configs, ss, files[i], batchId, renameFails))
  {
    assert files[..i + 1][..i] == files[..i];
  }

  /** The scan loop of start mode: for each source system in order and each file of its
    * incoming folder, file it under its first matching configuration or reject it. */
  method PlanStart(configs: seq<Config>, incoming: map<string, seq<string>>, batchId: string,
                   renameFails: set<string>) returns (items: seq<Item>, rejected: seq<Rejection>)
    ensures StartScan(items, rejected) == ScanSystems(configs, SourceSystems, incoming, batchId, renameFails)
  {
    items, rejected := ScanFolders(configs, SourceSystems, incoming, batchId, renameFails);
  }

  /** The outer loop of the scan: the folders of `systems` in order. */
  method ScanFolders(configs: seq<Config>, systems: seq<string>, incoming: map<string, seq<string>>, batchId: string,
                     renameFails: set<string>) returns (items: seq<Item>, rejected: seq<Rejection>)
    ensures StartScan(items, rejected) == ScanSystems(configs, systems, incoming, batchId, renameFails)
  {
    items, rejected := [], [];
    var s := 0;
    while s < |systems|
      invariant 0 <= s <= |systems|
      invariant StartScan(items, rejected) == ScanSystems(configs, systems[..s], incoming, batchId, renameFails)
    {
      var ss := systems[s];
      ScanSystemsStep(configs, systems, s, incoming, batchId, renameFails);
      items, rejected := ScanFolder(items, rejected, configs, ss, Listing(incoming, ss), batchId, renameFails);
      s := s + 1;
    }
    assert systems[..s] == systems;
  }

  /** The inner loop of the scan: one folder's files in listing order. */
  method ScanFolder(items0: seq<Item>, rejected0: seq<Rejection>, configs: seq<Config>, ss: string,
                    files: seq<string>, batchId: string, renameFails: set<string>)
    returns (items: seq<Item>, rejected: seq<Rejection>)
    ensures StartScan(items, rejected) == ScanFiles(StartScan(items0, rejected0), configs, ss, files, batchId, renameFails)
  {
    ghost var acc := StartScan(items0, rejected0);
    items, rejected := items0, rejected0;
    var i := 0;
    while i < |files|
      invariant 0 <= i <= |files|
      invariant StartScan(items, rejected) == ScanFiles(acc, configs, ss, files[..i], batchId, renameFails)
    {
      items, rejected := ScanOne(items, rejected, configs, ss, files, i, batchId, renameFails, acc);
      i := i + 1;
    }
    assert files[..i] == files;
  }

  /** One file of the scan, `files[i]`: appended to the items under its first matching
    * configuration, or to the rejections. */
  method ScanOne(items0: seq<Item>, rejected0: seq<Rejection>, configs: seq<Config>, ss: string,
                 files: seq<string>, i: nat, batchId: string, renameFails: set<string>, ghost acc: StartScan)
    returns (items: seq<Item>, rejected: seq<Rejection>)
    requires i < |files| && StartScan(items0, rejected0) == ScanFiles(acc, configs, ss, files[..i], batchId, renameFails)
    ensures StartScan(items, rejected) == ScanFiles(acc, configs, ss, files[..i + 1], batchId, renameFails)
  {
    ScanFilesStep(acc, configs, ss, files, i, batchId, renameFails);
    items, rejected := items0, rejected0;
    match FileOutcome(configs, ss, files[i], batchId, renameFails) {
      case Keep(it) => items := items + [it];
      case Reject(rej) => rejected := rejected + [rej];
    }
  }


  // ----- restart mode ---------------------------------------------------------------------

  /** A file restart mode considers, as the manifest or the folder scan names it. */
  datatype Candidate = Candidate(phys: Value, ss: Value, st: Value)

  /** What the latest audit row for a file is, as `fetch_and_update_file_audit` queries it;
    * a file without an entry in the lookup map has no row. */
  datatype AuditLookup = AuditRow(logical: Value, ss: Value, st: Value) | LookupFailed(error: string)

  /** The update restart mode makes to a file's audit row. */
  datatype AuditUpdate = AuditUpdate(phys: string, configStatus: string, logical: Option<Value>)

  /** The verdict on one candidate. */
  datatype Checked = NoAuditRow | AuditError(message: string) | Checked(update: AuditUpdate, item: Option<Item>)

  /** The result of checking the candidates in order: how many lack an audit row, the items
    * to handle and the audit updates made, or the error that ended the run with the updates
    * already committed before it. */
  datatype RestartScan = Scanning(missing: nat, items: seq<Item>, updates: seq<AuditUpdate>)
                       | ScanFailed(message: string, updates: seq<AuditUpdate>)

  /** What planning decides: stop with one FAILED log, or handle these items. */
  datatype Decision = Abort(message: string) | Proceed(items: seq<Item>)

  /** The candidates the manifest names: every entry with a truthy physical name. */
  function ManifestCandidates(files: seq<Entry>): (r: seq<Candidate>)
    ensures |r| <= |files|
    ensures forall k :: 0 <= k < |r| ==> Truthy(r[k].phys)
    ensures r == [] <==> forall j :: 0 <= j < |files| ==> !Truthy(Get(files[j], PhysicalKey))
    decreases |files|
  {
    if |files| == 0 then []
    else
      var prev := ManifestCandidates(files[..|files| - 1]);
      var f := files[|files| - 1];
      var phys := Get(f, PhysicalKey);
      if Truthy(phys) then prev + [Candidate(phys, Get(f, "source_system"), Get(f, "source_type"))] else prev
  }

  /** The fallback candidates: every file of every raw incoming folder, with its folder's
    * source system and its extension as type. */
  function ScanCandidates(systems: seq<string>, incoming: map<string, seq<string>>): (r: seq<Candidate>)
    ensures forall k :: 0 <= k < |r| ==> r[k].phys.Str? && r[k].ss.Str? && r[k].ss.s in systems
                                         && r[k].phys.s in Listing(incoming, r[k].ss.s)
    decreases |systems|
  {
    if |systems| == 0 then []
    else
      var ss := systems[|systems| - 1];
      var files := Listing(incoming, ss);
      ScanCandidates(systems[..|systems| - 1], incoming)
        + seq(|files|, i requires 0 <= i < |files| => Candidate(Str(files[i]), Str(ss), Str(FileExt(files[i]))))
  }

  /** The candidate list: the manifest's files, or the folder scan only when they name none. */
  function RestartCandidates(files: seq<Entry>, incoming: map<string, seq<string>>): (r: seq<Candidate>)
    ensures (exists j :: 0 <= j < |files| && Truthy(Get(files[j], PhysicalKey))) ==> r == ManifestCandidates(files)
    ensures (forall j :: 0 <= j < |files| ==> !Truthy(Get(files[j], PhysicalKey))) ==> r == ScanCandidates(SourceSystems, incoming)
  {
    var m := ManifestCandidates(files);
    if |m| > 0 then m else ScanCandidates(SourceSystems, incoming)
  }

  /** The manifest loop that collects the candidates. */
  method CollectManifestCandidates(files: seq<Entry>) returns (cands: seq<Candidate>)
    ensures cands == ManifestCandidates(files)
  {
    cands := [];
    var i := 0;
    while i < |files|
      invariant 0 <= i <= |files|
      invariant cands == ManifestCandidates(files[..i])
    {
      var f := files[i];
      var phys := Get(f, PhysicalKey);
      if Truthy(phys) {
        cands := cands + [Candidate(phys, Get(f, "source_system"), Get(f, "source_type"))];
      }
      assert files[..i + 1][..i] == files[..i];
      i := i + 1;
    }
    assert files[..i] == files;
  }

  function TruthyOr(v: Value): (r: Value)
    ensures Truthy(v) ==> r == v
    ensures !Truthy(v) ==> r == Null
  {
    if Truthy(v) then v else Null
  }

  /** The first source system in scan order whose raw folders hold `phys`. */
  function FirstSystemHolding(phys: string, rawFiles: set<(string, string)>, from: nat): (r: Option<string>)
    requires from <= |SourceSystems|
    ensures r.Some? ==> (r.value, phys) in rawFiles && r.value in SourceSystems
    ensures r.None? ==> forall k :: from <= k < |SourceSystems| ==> (SourceSystems[k], phys) !in rawFiles
    decreases |SourceSystems| - from
  {
    if from == |SourceSystems| then None
    else if (SourceSystems[from], phys) in rawFiles then Some(SourceSystems[from])
    else FirstSystemHolding(phys, rawFiles, from + 1)
  }

  /** Where restart mode finds a file on disk: in its own source system's raw folders
    * (incoming, failed or success, given as `rawFiles`), else in the first system holding it. */
  function FoundSystem(ss: Value, phys: string, rawFiles: set<(string, string)>): (r: Option<string>)
    ensures r.Some? ==> (r.value, phys) in rawFiles
    ensures Truthy(ss) && (Text(ss), phys) in rawFiles ==> r == Some(Text(ss))
  {
    if Truthy(ss) && (Text(ss), phys) in rawFiles then Some(Text(ss))
    else FirstSystemHolding(phys, rawFiles, 0)
  }

  /** `fetch_and_update_file_audit` and the disk search for one candidate. */
  function CheckCandidate(c: Candidate, configs: seq<Config>, audit: map<string, AuditLookup>,
                          rawFiles: set<(string, string)>): (r: Checked)
    ensures r == NoAuditRow <==> Text(c.phys) !in audit
    ensures r.AuditError? <==> Text(c.phys) in audit && audit[Text(c.phys)].LookupFailed?
    ensures r.Checked? && r.item.Some? ==> r.item.value.origName == Text(c.phys) && r.item.value.existingAudit
  {
    var phys := Text(c.phys);
    var ss := TruthyOr(c.ss);
    var st := TruthyOr(c.st);
    if phys !in audit then NoAuditRow
    else
      match audit[phys]
      case LookupFailed(e) => AuditError("UPDATE_FILE_AUDIT_ERROR_" + phys + ": " + e)
      case AuditRow(lg, ssDb, stDb) =>
        var matched := RestartConfig(configs, phys, if Truthy(ss) then ss else ssDb,
                                     if Truthy(st) then st else if Truthy(stDb) then stDb else Str(""));
        var update := AuditUpdate(phys, if matched.Some? then "SUCCESS" else "FAILED",
                                  if matched.Some? && !Truthy(lg) then Some(configs[matched.value].logical) else None);
        var found := FoundSystem(ss, phys, rawFiles);
        if found.None? then Checked(update, None)
        else if matched.None? then
          Checked(update, Some(Item(phys, Str(found.value), st, if Truthy(lg) then lg else Null, Null, Null, Null, true)))
        else
          var cfg := configs[matched.value];
          Checked(update, Some(Item(phys, Str(found.value), st, cfg.logical, cfg.targetSchema, cfg.targetTable,
                                    cfg.sourceConfig, true)))
  }

  /** How many candidates lack an audit row. */
  function CountNoRow(cands: seq<Candidate>, audit: map<string, AuditLookup>): nat
    decreases |cands|
  {
    if |cands| == 0 then 0
    else CountNoRow(cands[..|cands| - 1], audit) + (if Text(cands[|cands| - 1].phys) !in audit then 1 else 0)
  }

  /** What one checked candidate does to the loop's state: a missing row is counted, an
    * audit error ends the loop, otherwise the update and the item (if any) are recorded. */
  function Advance(scan: RestartScan, v: Checked): RestartScan {
    match scan
    case ScanFailed(_, _) => scan
    case Scanning(n, items, updates) =>
      match v
      case NoAuditRow => Scanning(n + 1, items, updates)
      case AuditError(m) => ScanFailed(m, updates)
      case Checked(u, it) => Scanning(n, if it.Some? then items + [it.value] else items, updates + [u])
  }

  /** The candidate loop over any per-candidate check. */
  function CheckAllBy(cands: seq<Candidate>, check: Candidate -> Checked): (r: RestartScan)
    ensures r.Scanning? <==> forall k :: 0 <= k < |cands| ==> !check(cands[k]).AuditError?
    decreases |cands|
  {
    if |cands| == 0 then Scanning(0, [], [])
    else
      var init := cands[..|cands| - 1];
      assert forall k :: 0 <= k < |init| ==> init[k] == cands[k];
      Advance(CheckAllBy(init, check), check(cands[|cands| - 1]))
  }

  lemma CheckAllByStep(cands: seq<Candidate>, i: nat, check: Candidate -> Checked)
    requires i < |cands|
    ensures CheckAllBy(cands[..i + 1], check) == Advance(CheckAllBy(cands[..i], check), check(cands[i]))
  {
    assert cands[..i + 1][..i] == cands[..i];
  }

  /** Once the loop has failed, the candidates after it change nothing. */
  lemma {:induction false} CheckAllByStops(cands: seq<Candidate>, i: nat, check: Candidate -> Checked)
    requires i <= |cands| && CheckAllBy(cands[..i], check).ScanFailed?
    ensures CheckAllBy(cands, check) == CheckAllBy(cands[..i], check)
    decreases |cands| - i
  {
    if i < |cands| {
      CheckAllByStep(cands, i, check);
      CheckAllByStops(cands, i + 1, check);
    } else {
      assert cands[..i] == cands;
    }
  }

  /** A loop that failed did so at one candidate, after all the ones before it were checked
    * without error; it keeps the updates those earlier candidates made. */
  lemma {:induction false} CheckAllByFailedAt(cands: seq<Candidate>, check: Candidate -> Checked)
    requires CheckAllBy(cands, check).ScanFailed?
    ensures exists i :: 0 <= i < |cands| && check(cands[i]).AuditError? && CheckAllBy(cands[..i], check).Scanning?
                        && CheckAllBy(cands, check) == ScanFailed(check(cands[i]).message, CheckAllBy(cands[..i], check).updates)
    decreases |cands|
  {
    var n := |cands| - 1;
    var init := cands[..n];
    if CheckAllBy(init, check).ScanFailed? {
      CheckAllByFailedAt(init, check);
      var i :| 0 <= i < |init| && check(init[i]).AuditError? && CheckAllBy(init[..i], check).Scanning?
               && CheckAllBy(init, check) == ScanFailed(check(init[i]).message, CheckAllBy(init[..i], check).updates);
      assert init[..i] == cands[..i] && init[i] == cands[i];
    } else {
      assert CheckAllBy(cands[..n], check).Scanning?;
    }
  }

  /** A check that reports a missing row exactly for files without one, and only ever
    * yields items of files that have an audit row. */
  ghost predicate CountsAudit(check: Candidate -> Checked, audit: map<string, AuditLookup>) {
    forall c :: (check(c) == NoAuditRow <==> Text(c.phys) !in audit)
                && (check(c).Checked? && check(c).item.Some? ==> check(c).item.value.existingAudit)
  }

  lemma {:induction false} CheckAllByCounts(cands: seq<Candidate>, check: Candidate -> Checked,
                                            audit: map<string, AuditLookup>)
    requires CountsAudit(check, audit)
    ensures var r := CheckAllBy(cands, check);
            r.Scanning? ==> r.missing == CountNoRow(cands, audit)
                            && forall k :: 0 <= k < |r.items| ==> r.items[k].existingAudit
    decreases |cands|
  {
    if |cands| > 0 {
      var init := cands[..|cands| - 1];
      var last := cands[|cands| - 1];
      CheckAllByCounts(init, check, audit);
      var prev := CheckAllBy(init, check);
      var r := Advance(prev, check(last));
      assert r == CheckAllBy(cands, check);
      if r.Scanning? && check(last).Checked? && check(last).item.Some? {
        assert r.items == prev.items + [check(last).item.value];
      }
    }
  }

  /** `fetch_and_update_file_audit` with the loop's configuration, audit rows and disk. */
  function CheckIn(configs: seq<Config>, audit: map<string, AuditLookup>,
                   rawFiles: set<(string, string)>): Candidate -> Checked {
    c => CheckCandidate(c, configs, audit, rawFiles)
  }

  /** The candidate loop: every candidate is checked in order; an audit error ends it. */
  function CheckAll(cands: seq<Candidate>, configs: seq<Config>, audit: map<string, AuditLookup>,
                    rawFiles: set<(string, string)>): (r: RestartScan)
    ensures r.Scanning? <==> forall k :: 0 <= k < |cands| ==> !CheckCandidate(cands[k], configs, audit, rawFiles).AuditError?
    ensures r.Scanning? ==> r.missing == CountNoRow(cands, audit)
    ensures r.Scanning? ==> forall k :: 0 <= k < |r.items| ==> r.items[k].existingAudit
  {
    var check := CheckIn(configs, audit, rawFiles);
    CheckAllByCounts(cands, check, audit);
    CheckAllBy(cands, check)
  }

  /** When an audit lookup fails, the run stops at the first such candidate, and the updates
    * the candidates before it made stay committed. */
  lemma RestartFailureKeepsEarlierUpdates(cands: seq<Candidate>, configs: seq<Config>,
                                          audit: map<string, AuditLookup>, rawFiles: set<(string, string)>)
    requires CheckAll(cands, configs, audit, rawFiles).ScanFailed?
    ensures exists i :: 0 <= i < |cands| && CheckCandidate(cands[i], configs, audit, rawFiles).AuditError?
              && (forall k :: 0 <= k < i ==> !CheckCandidate(cands[k], configs, audit, rawFiles).AuditError?)
              && CheckAll(cands, configs, audit, rawFiles)
                 == ScanFailed(CheckCandidate(cands[i], configs, audit, rawFiles).message,
                               CheckAll(cands[..i], configs, audit, rawFiles).updates)
  {
    var check := CheckIn(configs, audit, rawFiles);
    CheckAllByFailedAt(cands, check);
    var i :| 0 <= i < |cands| && check(cands[i]).AuditError? && CheckAllBy(cands[..i], check).Scanning?
             && CheckAllBy(cands, check) == ScanFailed(check(cands[i]).message, CheckAllBy(cands[..i], check).updates);
    assert CheckAll(cands[..i], configs, audit, rawFiles) == CheckAllBy(cands[..i], check);
    forall k | 0 <= k < i
      ensures !CheckCandidate(cands[k], configs, audit, rawFiles).AuditError?
    {
      assert cands[..i][k] == cands[k];
    }
  }

  /** The gate after the candidate loop. */
  function RestartDecision(scan: RestartScan): (d: Decision)
    ensures scan.Scanning? && scan.missing > 0 ==>
            d == Abort("FILE_AUDIT_RECORD_NOT_FOUND for " + IntText(scan.missing) + " files")
    ensures d.Proceed? ==> scan.Scanning? && scan.missing == 0 && d.items == scan.items != []
  {
    match scan
    case ScanFailed(m, _) => Abort(m)
    case Scanning(n, items, _) =>
      if n > 0 then Abort("FILE_AUDIT_RECORD_NOT_FOUND for " + IntText(n) + " files")
      else if items == [] then Abort("NO_FILES_TO_PROCESS_ON_RESTART")
      else Proceed(items)
  }

  /** Restart planning from the manifest read. */
  function PlanRestartFrom(stored: Stored, batchId: string, incoming: map<string, seq<string>>,
                           configs: seq<Config>, audit: map<string, AuditLookup>,
                           rawFiles: set<(string, string)>): Decision
  {
    match stored
    case Missing => Abort("NO_BATCH_INFO_FOR_" + batchId)
    case Unreadable => Abort("INVALID_BATCH_INFO_" + batchId)
    case Stored(doc) =>
      RestartDecision(CheckAll(RestartCandidates(doc.files, incoming), configs, audit, rawFiles))
  }

  /** The audit updates restart planning commits: every checked candidate's, up to a failed
    * lookup; none when the manifest does not read. */
  function RestartUpdates(stored: Stored, incoming: map<string, seq<string>>, configs: seq<Config>,
                          audit: map<string, AuditLookup>, rawFiles: set<(string, string)>): (u: seq<AuditUpdate>)
    ensures !stored.Stored? ==> u == []
    ensures stored.Stored? ==> u == CheckAll(RestartCandidates(stored.doc.files, incoming), configs, audit, rawFiles).updates
  {
    if stored.Stored? then CheckAll(RestartCandidates(stored.doc.files, incoming), configs, audit, rawFiles).updates else []
  }

  /** The candidate loop of restart mode, returning at the first audit error. */
  method CheckCandidates(cands: seq<Candidate>, configs: seq<Config>, audit: map<string, AuditLookup>,
                         rawFiles: set<(string, string)>) returns (scan: RestartScan)
    ensures scan == CheckAll(cands, configs, audit, rawFiles)
  {
    ghost var check := CheckIn(configs, audit, rawFiles);
    var missing := 0;
    var items: seq<Item> := [];
    var updates: seq<AuditUpdate> := [];
    var i := 0;
    while i < |cands|
      invariant 0 <= i <= |cands|
      invariant CheckAllBy(cands[..i], check) == Scanning(missing, items, updates)
    {
      CheckAllByStep(cands, i, check);
      var verdict := CheckCandidate(cands[i], configs, audit, rawFiles);
      assert check(cands[i]) == verdict;
      if verdict.AuditError? {
        CheckAllByStops(cands, i + 1, check);
        return ScanFailed(verdict.message, updates);
      }
      missing, items, updates := RecordVerdict(missing, items, updates, verdict);
      i := i + 1;
    }
    assert cands[..i] == cands;
    scan := Scanning(missing, items, updates);
  }

  /** Recording a verdict other than an audit error on the loop's state. */
  method RecordVerdict(missing0: nat, items0: seq<Item>, updates0: seq<AuditUpdate>, verdict: Checked)
    returns (missing: nat, items: seq<Item>, updates: seq<AuditUpdate>)
    requires !verdict.AuditError?
    ensures Scanning(missing, items, updates) == Advance(Scanning(missing0, items0, updates0), verdict)
  {
    missing, items, updates := missing0, items0, updates0;
    match verdict {
      case NoAuditRow =>
        missing := missing + 1;
      case Checked(u, it) =>
        if it.Some? {
          items := items + [it.value];
        }
        updates := updates + [u];
    }
  }

  lemma {:induction false} CountNoRowPositive(cands: seq<Candidate>, audit: map<string, AuditLookup>, k: nat)
    requires k < |cands| && Text(cands[k].phys) !in audit
    ensures CountNoRow(cands, audit) > 0
    decreases |cands|
  {
    if k < |cands| - 1 {
      CountNoRowPositive(cands[..|cands| - 1], audit, k);
    }
  }

  lemma {:induction false} CountNoRowZero(cands: seq<Candidate>, audit: map<string, AuditLookup>)
    requires CountNoRow(cands, audit) == 0
    ensures forall k :: 0 <= k < |cands| ==> Text(cands[k].phys) in audit
    decreases |cands|
  {
    if |cands| > 0 {
      CountNoRowZero(cands[..|cands| - 1], audit);
      assert forall k :: 0 <= k < |cands| - 1 ==> cands[k] == cands[..|cands| - 1][k];
    }
  }

  /** The restart gate: when some candidate has no audit row (and no lookup fails), planning
    * stops with the one FAILED message counting those candidates, so no stage runs. */
  lemma RestartGateAborts(doc: Document, batchId: string, incoming: map<string, seq<string>>,
                          configs: seq<Config>, audit: map<string, AuditLookup>,
                          rawFiles: set<(string, string)>, k: nat)
    requires var cands := RestartCandidates(doc.files, incoming);
             k < |cands| && Text(cands[k].phys) !in audit
             && forall j :: 0 <= j < |cands| ==> !CheckCandidate(cands[j], configs, audit, rawFiles).AuditError?
    ensures var cands := RestartCandidates(doc.files, incoming);
            PlanRestartFrom(Stored(doc), batchId, incoming, configs, audit, rawFiles)
            == Abort("FILE_AUDIT_RECORD_NOT_FOUND for " + IntText(CountNoRow(cands, audit)) + " files")
  {
    CountNoRowPositive(RestartCandidates(doc.files, incoming), audit, k);
  }

  /** Conversely, restart proceeds only when the manifest reads and every candidate has an
    * audit row. */
  lemma RestartProceedsWithRecords(stored: Stored, batchId: string, incoming: map<string, seq<string>>,
                                   configs: seq<Config>, audit: map<string, AuditLookup>,
                                   rawFiles: set<(string, string)>)
    requires PlanRestartFrom(stored, batchId, incoming, configs, audit, rawFiles).Proceed?
    ensures stored.Stored?
    ensures var cands := RestartCandidates(stored.doc.files, incoming);
            forall k :: 0 <= k < |cands| ==> Text(cands[k].phys) in audit && audit[Text(cands[k].phys)].AuditRow?
  {
    var cands := RestartCandidates(stored.doc.files, incoming);
    CountNoRowZero(cands, audit);
    forall k | 0 <= k < |cands|
      ensures audit[Text(cands[k].phys)].AuditRow?
    {
      assert !CheckCandidate(cands[k], configs, audit, rawFiles).AuditError?;
    }
  }

  // ----- reprocessing mode ----------------------------------------------------------------

  /** `parquet_map`: parquet name to manifest entry, as an insertion-ordered dictionary. */
  type ParquetMap = seq<(string, Entry)>

  predicate UniqueKeys(m: ParquetMap) {
    forall i, j :: 0 <= i < j < |m| ==> m[i].0 != m[j].0
  }

  function KeyIndex(m: ParquetMap, k: string, from: nat): (r: Option<nat>)
    requires from <= |m|
    ensures r.Some? ==> from <= r.value < |m| && m[r.value].0 == k
    ensures r.None? ==> forall j :: from <= j < |m| ==> m[j].0 != k
    decreases |m| - from
  {
    if from == |m| then None
    else if m[from].0 == k then Some(from)
    else KeyIndex(m, k, from + 1)
  }

  /** `d[k] = v`: an existing key keeps its place and takes the new value; a new key goes last. */
  function Assign(m: ParquetMap, k: string, v: Entry): (r: ParquetMap)
    requires UniqueKeys(m)
    ensures |m| <= |r| <= |m| + 1
    ensures UniqueKeys(r)
    ensures exists j :: 0 <= j < |r| && r[j].0 == k
    ensures forall j :: 0 <= j < |r| && r[j].0 == k ==> r[j].1 == v
    ensures forall j :: 0 <= j < |m| && m[j].0 != k ==> r[j] == m[j]
    ensures forall j :: |m| <= j < |r| ==> r[j] == (k, v)
  {
    match KeyIndex(m, k, 0)
    case Some(i) => assert m[i := (k, v)][i].0 == k; m[i := (k, v)]
    case None => assert (m + [(k, v)])[|m|].0 == k; m + [(k, v)]
  }

  /** The parquet map of the manifest's files: each entry with a truthy parquet name under
    * that name as text, a later entry replacing an earlier one of the same name. */
  function ParquetMapOf(files: seq<Entry>): (r: ParquetMap)
    ensures UniqueKeys(r)
    ensures forall j :: 0 <= j < |r| ==> Truthy(Get(r[j].1, ParquetKey)) && Text(Get(r[j].1, ParquetKey)) == r[j].0
    decreases |files|
  {
    if |files| == 0 then []
    else
      var prev := ParquetMapOf(files[..|files| - 1]);
      var f := files[|files| - 1];
      var pn := Get(f, ParquetKey);
      if Truthy(pn) then Assign(prev, Text(pn), f) else prev
  }

  /** An entry with a parquet name that no later entry reuses is what the map holds under
    * that name. */
  lemma {:induction false} ParquetMapHolds(files: seq<Entry>, i: nat)
    requires i < |files| && Truthy(Get(files[i], ParquetKey))
    requires forall l :: i < l < |files| && Truthy(Get(files[l], ParquetKey))
                         ==> Text(Get(files[l], ParquetKey)) != Text(Get(files[i], ParquetKey))
    ensures exists j :: 0 <= j < |ParquetMapOf(files)|
                        && ParquetMapOf(files)[j] == (Text(Get(files[i], ParquetKey)), files[i])
    decreases |files|
  {
    var m := ParquetMapOf(files);
    var k := Text(Get(files[i], ParquetKey));
    if i == |files| - 1 {
      var j :| 0 <= j < |m| && m[j].0 == k;
      assert m[j] == (k, files[i]);
    } else {
      var front := files[..|files| - 1];
      assert front[i] == files[i];
      forall l | i < l < |front| && Truthy(Get(front[l], ParquetKey))
        ensures Text(Get(front[l], ParquetKey)) != k
      {
        assert front[l] == files[l];
      }
      ParquetMapHolds(front, i);
      var prev := ParquetMapOf(front);
      var j :| 0 <= j < |prev| && prev[j] == (k, files[i]);
      assert m[j] == (k, files[i]);
    }
  }

  method BuildParquetMap(files: seq<Entry>) returns (m: ParquetMap)
    ensures m == ParquetMapOf(files)
  {
    m := [];
    var i := 0;
    while i < |files|
      invariant 0 <= i <= |files|
      invariant m == ParquetMapOf(files[..i])
    {
      var f := files[i];
      var pn := Get(f, ParquetKey);
      if Truthy(pn) {
        m := Assign(m, Text(pn), f);
      }
      assert files[..i + 1][..i] == files[..i];
      i := i + 1;
    }
    assert files[..i] == files;
  }

  /** The value under the last key equal to `low` once lower-cased: the dictionary
    * `{k.lower(): v}` keeps the value of the last such key. */
  function LastLower(m: ParquetMap, low: string): (r: Option<Entry>)
    ensures r.Some? <==> exists j :: 0 <= j < |m| && Lower(m[j].0) == low
    ensures r.Some? ==> exists j :: 0 <= j < |m| && Lower(m[j].0) == low && r.value == m[j].1
                                    && forall l :: j < l < |m| ==> Lower(m[l].0) != low
    decreases |m|
  {
    if |m| == 0 then None
    else if Lower(m[|m| - 1].0) == low then Some(m[|m| - 1].1)
    else
      var r := LastLower(m[..|m| - 1], low);
      assert forall j :: 0 <= j < |m| - 1 ==> m[..|m| - 1][j] == m[j];
      r
  }

  /** The third correlation key: the lower-cased stem with every `_batch` deleted, stripped. */
  function BatchlessKey(name: string): string {
    Strip(Replace(Lower(SplitExt(name).0), "_batch", ""))
  }

  /** The batch-less keys of the map's names, computed once per scan. */
  function BaseKeys(m: ParquetMap): (r: seq<string>)
    ensures |r| == |m|
    ensures forall j :: 0 <= j < |m| ==> r[j] == BatchlessKey(m[j].0)
  {
    seq(|m|, j requires 0 <= j < |m| => BatchlessKey(m[j].0))
  }

  function FirstBase(keys: seq<string>, key: string, from: nat): (r: Option<nat>)
    requires from <= |keys|
    ensures r.Some? ==> from <= r.value < |keys| && keys[r.value] == key
    ensures r.Some? ==> forall j :: from <= j < r.value ==> keys[j] != key
    ensures r.None? ==> forall j :: from <= j < |keys| ==> keys[j] != key
    decreases |keys| - from
  {
    if from == |keys| then None
    else if keys[from] == key then Some(from)
    else FirstBase(keys, key, from + 1)
  }

  /** The manifest entry of a Parquet artifact: by exact name, else by the last name equal
    * ignoring case, else by the first name with the same batch-less stem. */
  function Correlate(m: ParquetMap, fn: string): (r: Option<Entry>)
    ensures KeyIndex(m, fn, 0).Some? ==> r == Some(m[KeyIndex(m, fn, 0).value].1)
    ensures KeyIndex(m, fn, 0).None? && LastLower(m, Lower(fn)).Some? ==> r == LastLower(m, Lower(fn))
    ensures r.None? <==> (forall j :: 0 <= j < |m| ==> m[j].0 != fn && Lower(m[j].0) != Lower(fn))
                         && FirstBase(BaseKeys(m), BatchlessKey(fn), 0).None?
  {
    match KeyIndex(m, fn, 0)
    case Some(i) => Some(m[i].1)
    case None =>
      match LastLower(m, Lower(fn))
      case Some(e) => Some(e)
      case None =>
        match FirstBase(BaseKeys(m), BatchlessKey(fn), 0)
        case Some(i) => Some(m[i].1)
        case None => None
  }

  /** The item reprocessing makes of a correlated entry: its physical name, the Parquet type,
    * and the entry's own audit flag. */
  function ReprocessItem(e: Entry): Item {
    Item(Text(Get(e, PhysicalKey)), TruthyOr(Get(e, "source_system")), Str("parquet"), Get(e, "logical_source_file"),
         Get(e, "target_schema"), Get(e, "target_table"), Get(e, "source_config"), Truthy(Get(e, "existing_audit")))
  }

  /** An artifact reprocessing takes: a `.parquet` file whose correlated manifest entry names
    * a physical file. */
  predicate Reprocessable(m: ParquetMap, fn: string) {
    EndsWith(Lower(fn), ".parquet") && Correlate(m, fn).Some? && Truthy(Get(Correlate(m, fn).value, PhysicalKey))
  }

  /** One artifact of the scan: the item of its correlated entry is appended exactly when it
    * is reprocessable, and it is skipped otherwise. */
  function ReprocessFile(acc: seq<Item>, m: ParquetMap, fn: string): (r: seq<Item>)
    ensures Reprocessable(m, fn) ==> r == acc + [ReprocessItem(Correlate(m, fn).value)]
                                     && r[|acc|].ext == Str("parquet")
                                     && r[|acc|].origName == Text(Get(Correlate(m, fn).value, PhysicalKey))
    ensures !Reprocessable(m, fn) ==> r == acc
  {
    if !EndsWith(Lower(fn), ".parquet") then acc
    else match Correlate(m, fn)
      case None => acc
      case Some(e) => if Truthy(Get(e, PhysicalKey)) then acc + [ReprocessItem(e)] else acc
  }

  /** The artifact scan over the listed names of the data folders, in order. */
  function ReprocessScan(m: ParquetMap, artifacts: seq<string>): (r: seq<Item>)
    ensures |r| <= |artifacts|
    ensures forall k :: 0 <= k < |r| ==> r[k].ext == Str("parquet")
    decreases |artifacts|
  {
    if |artifacts| == 0 then []
    else
      var prev := ReprocessScan(m, artifacts[..|artifacts| - 1]);
      var r := ReprocessFile(prev, m, artifacts[|artifacts| - 1]);
      if r == prev then prev
      else
        assert r == prev + [r[|prev|]];
        r
  }

  /** The item an artifact contributes to the scan, if any. */
  function ItemOf(m: ParquetMap, fn: string): (o: Option<Item>)
    ensures o.Some? <==> Reprocessable(m, fn)
    ensures o.Some? ==> o.value == ReprocessItem(Correlate(m, fn).value)
  {
    if Reprocessable(m, fn) then Some(ReprocessItem(Correlate(m, fn).value)) else None
  }

  /** `ItemOf` on this map, as a function of the artifact name. */
  function ItemPicker(m: ParquetMap): string -> Option<Item> {
    fn => ItemOf(m, fn)
  }

  /** `r` lists, in order, the values `f` gives the elements of `xs` it accepts: `r[k]` comes
    * from `xs[idx[k]]`, the indices increase, and every accepted element is among them. */
  ghost predicate Picks<T, U>(xs: seq<T>, f: T -> Option<U>, r: seq<U>, idx: seq<nat>) {
    && |idx| == |r|
    && (forall k :: 0 <= k < |idx| ==> idx[k] < |xs| && f(xs[idx[k]]).Some? && r[k] == f(xs[idx[k]]).value)
    && (forall k, l :: 0 <= k < l < |idx| ==> idx[k] < idx[l])
    && (forall j :: 0 <= j < |xs| && f(xs[j]).Some? ==> j in idx)
  }

  lemma PicksSnoc<T, U>(xs: seq<T>, x: T, f: T -> Option<U>, r: seq<U>, idx: seq<nat>)
    requires Picks(xs, f, r, idx)
    ensures f(x).Some? ==> Picks(xs + [x], f, r + [f(x).value], idx + [|xs|])
    ensures f(x).None? ==> Picks(xs + [x], f, r, idx)
  {
    var ys := xs + [x];
    assert forall j :: 0 <= j < |xs| ==> ys[j] == xs[j];
    if f(x).Some? {
      var idx' := idx + [|xs|];
      assert idx'[|idx|] == |xs|;
      assert forall j :: 0 <= j < |ys| && f(ys[j]).Some? ==> j in idx' by {
        forall j | 0 <= j < |ys| && f(ys[j]).Some? ensures j in idx' {
          if j < |xs| {
            assert j in idx;
          }
        }
      }
    }
  }

  /** The scan's items are exactly the reprocessable artifacts' items, in listing order. */
  lemma {:induction false} ReprocessScanExact(m: ParquetMap, artifacts: seq<string>)
    ensures exists idx :: Picks(artifacts, ItemPicker(m), ReprocessScan(m, artifacts), idx)
    decreases |artifacts|
  {
    var f := ItemPicker(m);
    if |artifacts| == 0 {
      assert Picks(artifacts, f, ReprocessScan(m, artifacts), []);
    } else {
      var n := |artifacts| - 1;
      var init, last := artifacts[..n], artifacts[n];
      assert artifacts == init + [last];
      var prev := ReprocessScan(m, init);
      ReprocessScanExact(m, init);
      var idx :| Picks(init, f, prev, idx);
      PicksSnoc(init, last, f, prev, idx);
      assert ReprocessScan(m, artifacts) == ReprocessFile(prev, m, last);
      if f(last).Some? {
        assert Picks(artifacts, f, ReprocessScan(m, artifacts), idx + [n]);
      } else {
        assert Picks(artifacts, f, ReprocessScan(m, artifacts), idx);
      }
    }
  }

  /** No artifact without a `.parquet` extension yields an item. */
  lemma {:induction false} ReprocessIgnoresOtherFiles(m: ParquetMap, artifacts: seq<string>)
    requires forall k :: 0 <= k < |artifacts| ==> !EndsWith(Lower(artifacts[k]), ".parquet")
    ensures ReprocessScan(m, artifacts) == []
    decreases |artifacts|
  {
    if |artifacts| > 0 {
      ReprocessIgnoresOtherFiles(m, artifacts[..|artifacts| - 1]);
    }
  }

  method ScanArtifacts(m: ParquetMap, artifacts: seq<string>) returns (items: seq<Item>)
    ensures items == ReprocessScan(m, artifacts)
  {
    items := [];
    var i := 0;
    while i < |artifacts|
      invariant 0 <= i <= |artifacts|
      invariant items == ReprocessScan(m, artifacts[..i])
    {
      var fn := artifacts[i];
      ghost var prev := items;
      assert ReprocessScan(m, artifacts[..i + 1]) == ReprocessFile(prev, m, fn) by {
        assert artifacts[..i + 1][..i] == artifacts[..i];
      }
      if EndsWith(Lower(fn), ".parquet") {
        var matched := Correlate(m, fn);
        if matched.Some? && Truthy(Get(matched.value, PhysicalKey)) {
          items := items + [ReprocessItem(matched.value)];
        }
      }
      i := i + 1;
    }
    assert artifacts[..i] == artifacts;
  }

  /** Reprocessing planning from the manifest read. */
  function PlanReprocessFrom(stored: Stored, batchId: string, artifacts: seq<string>): (d: Decision)
    ensures stored.Missing? ==> d == Abort("NO_BATCH_INFO_FOR_" + batchId)
    ensures stored.Unreadable? ==> d == Abort("INVALID_BATCH_INFO_" + batchId)
    ensures stored.Stored? ==> (d.Proceed? <==> ReprocessScan(ParquetMapOf(stored.doc.files), artifacts) != [])
    ensures stored.Stored? && ReprocessScan(ParquetMapOf(stored.doc.files), artifacts) == [] ==>
              d == Abort("FILES NOT FOUND TO REPROCESS")
    ensures d.Proceed? ==> stored.Stored? && d.items == ReprocessScan(ParquetMapOf(stored.doc.files), artifacts)
  {
    match stored
    case Missing => Abort("NO_BATCH_INFO_FOR_" + batchId)
    case Unreadable => Abort("INVALID_BATCH_INFO_" + batchId)
    case Stored(doc) =>
      var items := ReprocessScan(ParquetMapOf(doc.files), artifacts);
      if items == [] then Abort("FILES NOT FOUND TO REPROCESS") else Proceed(items)
  }

  /** Reprocessing proceeds exactly when the manifest reads and some listed artifact is
    * reprocessable; otherwise it stops with one FAILED message. */
  lemma ReprocessProceedsIff(stored: Stored, batchId: string, artifacts: seq<string>)
    ensures PlanReprocessFrom(stored, batchId, artifacts).Proceed?
            <==> stored.Stored? && exists j :: 0 <= j < |artifacts| && Reprocessable(ParquetMapOf(stored.doc.files), artifacts[j])
  {
    if stored.Stored? {
      var m := ParquetMapOf(stored.doc.files);
      var f := ItemPicker(m);
      ReprocessScanExact(m, artifacts);
      var r := ReprocessScan(m, artifacts);
      var idx :| Picks(artifacts, f, r, idx);
      if r != [] {
        assert f(artifacts[idx[0]]).Some?;
      }
      if exists j :: 0 <= j < |artifacts| && Reprocessable(m, artifacts[j]) {
        var j :| 0 <= j < |artifacts| && Reprocessable(m, artifacts[j]);
        assert f(artifacts[j]).Some?;
        assert j in idx;
      }
    }
  }

  /** Restart planning as `process_client` runs it: the manifest read, the candidate loops and
    * the gate. */
  method PlanRestart(stored: Stored, batchId: string, incoming: map<string, seq<string>>,
                     configs: seq<Config>, audit: map<string, AuditLookup>,
                     rawFiles: set<(string, string)>) returns (d: Decision, updates: seq<AuditUpdate>)
    ensures d == PlanRestartFrom(stored, batchId, incoming, configs, audit, rawFiles)
    ensures updates == RestartUpdates(stored, incoming, configs, audit, rawFiles)
  {
    updates := [];
    match stored {
      case Missing =>
        d := Abort("NO_BATCH_INFO_FOR_" + batchId);
      case Unreadable =>
        d := Abort("INVALID_BATCH_INFO_" + batchId);
      case Stored(doc) =>
        var cands := CollectManifestCandidates(doc.files);
        if cands == [] {
          cands := ScanCandidates(SourceSystems, incoming);
        }
        var scan := CheckCandidates(cands, configs, audit, rawFiles);
        updates := scan.updates;
        d := RestartDecision(scan);
    }
  }

  /** Reprocessing planning as `process_client` runs it. */
  method PlanReprocess(stored: Stored, batchId: string, artifacts: seq<string>) returns (d: Decision)
    ensures d == PlanReprocessFrom(stored, batchId, artifacts)
  {
    match stored {
      case Missing =>
        d := Abort("NO_BATCH_INFO_FOR_" + batchId);
      case Unreadable =>
        d := Abort("INVALID_BATCH_INFO_" + batchId);
      case Stored(doc) =>
        var pm := BuildParquetMap(doc.files);
        var items := ScanArtifacts(pm, artifacts);
        d := if items == [] then Abort("FILES NOT FOUND TO REPROCESS") else Proceed(items);
    }
  }
}
