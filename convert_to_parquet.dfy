// The conversion stage (handlers/convert_to_parquet.py): for one raw file of a batch it finds
// the file's entry in the batch manifest, converts the file to Parquet under a name built
// from its logical source name and the batch id, records that name in the manifest and logs
// the outcome.
module ConvertToParquet {
  import opened Optional
  import opened PyStrings
  import opened Json
  import opened BatchTokens
  import opened FileNames
  import opened Manifest

  /** Why the converter stops before or during conversion. */
  datatype Failure =
    | Usage
    | NoBatchId
    | ManifestMissing
    | ManifestUnreadable
    | NoClientId
    | NoSourceInfo
    | SourceMissing(clientId: Value, phys: string, batchId: string, message: string)
    | NoDatabase

  /** Everything the converter has settled once the checks pass. */
  datatype Job = Job(schema: string, phys: string, batchId: string, clientId: Value,
                     logical: Value, system: string, stype: string,
                     parquetName: string, srcPath: string, destPath: string)

  /** A row of `tools.job_execution_log` as this job writes it. */
  datatype JobLog = JobLog(clientId: Value, status: string, message: Option<string>, fileName: string, batchId: string)

  const JobName := "Convert to Parquet"
  const LogicalKey := "logical_source_file"

  function ExitCode(f: Failure): (code: int)
    ensures code == 2 <==> f.Usage?
    ensures code == 1 <==> !f.Usage?
  {
    if f.Usage? then 2 else 1
  }

  /** `(v or "").lower()` */
  function LowerOrEmpty(v: Value): (r: string)
    ensures !Truthy(v) ==> r == ""
  {
    Lower(TextOrEmpty(v))
  }

  /** `str(f.get(key, ""))`: a missing key reads as the empty text. */
  function TextAt(f: Entry, key: string): string { Text(GetOr(f, key, Str(""))) }

  /** The entry's physical name equals `phys` ignoring case. */
  predicate LooseName(f: Entry, phys: string) { Lower(TextAt(f, PhysicalKey)) == Lower(phys) }

  /** The entry's logical source name, lower-cased, is `logicalLower`. */
  predicate LogicalName(f: Entry, logicalLower: string) { Lower(TextAt(f, LogicalKey)) == logicalLower }

  /** The entry's matching key is non-empty and equals `target`. */
  predicate SameBase(f: Entry, target: string) {
    var b := NormalizeForMatch(Some(TextAt(f, PhysicalKey)));
    b != "" && b == target
  }

  /** The first entry at or after `from` that satisfies `p`. */
  function FirstWhere(files: seq<Entry>, p: Entry -> bool, from: nat): (r: Option<nat>)
    requires from <= |files|
    ensures r.Some? ==> from <= r.value < |files| && p(files[r.value])
    ensures r.Some? ==> forall j :: from <= j < r.value ==> !p(files[j])
    ensures r.None? ==> forall j :: from <= j < |files| ==> !p(files[j])
    decreases |files| - from
  {
    if from == |files| then None
    else if p(files[from]) then Some(from)
    else FirstWhere(files, p, from + 1)
  }

  function FirstLoose(files: seq<Entry>, phys: string, from: nat): (r: Option<nat>)
    requires from <= |files|
    ensures r.Some? ==> from <= r.value < |files| && LooseName(files[r.value], phys)
    ensures r.Some? ==> forall j :: from <= j < r.value ==> !LooseName(files[j], phys)
    ensures r.None? ==> forall j :: from <= j < |files| ==> !LooseName(files[j], phys)
  {
    FirstWhere(files, f => LooseName(f, phys), from)
  }

  function FirstLogical(files: seq<Entry>, logicalLower: string, from: nat): (r: Option<nat>)
    requires from <= |files|
    ensures r.Some? ==> from <= r.value < |files| && LogicalName(files[r.value], logicalLower)
    ensures r.Some? ==> forall j :: from <= j < r.value ==> !LogicalName(files[j], logicalLower)
    ensures r.None? ==> forall j :: from <= j < |files| ==> !LogicalName(files[j], logicalLower)
  {
    FirstWhere(files, f => LogicalName(f, logicalLower), from)
  }

  function FirstSameBase(files: seq<Entry>, target: string, from: nat): (r: Option<nat>)
    requires from <= |files|
    ensures r.Some? ==> from <= r.value < |files| && SameBase(files[r.value], target)
    ensures r.Some? ==> forall j :: from <= j < r.value ==> !SameBase(files[j], target)
    ensures r.None? ==> forall j :: from <= j < |files| ==> !SameBase(files[j], target)
  {
    FirstWhere(files, f => SameBase(f, target), from)
  }

  /** The logical name and the lower-cased source system and type of a file. */
  datatype SourceInfo = SourceInfo(logical: Value, system: string, stype: string)

  /** `find_file_entry` and the tolerant fallback: the entry named exactly `phys` supplies the
    * logical name, system and type; when system or type is still empty, the first entry
    * whose name matches ignoring case supplies them, and the logical name if none yet. */
  function LookupSource(files: seq<Entry>, phys: string): (r: SourceInfo)
    ensures var e := FirstNamed(files, phys, 0);
            e.Some? && LowerOrEmpty(Get(files[e.value], "source_system")) != ""
                    && LowerOrEmpty(Get(files[e.value], "source_type")) != ""
            ==> r == SourceInfo(Get(files[e.value], LogicalKey),
                                LowerOrEmpty(Get(files[e.value], "source_system")),
                                LowerOrEmpty(Get(files[e.value], "source_type")))
    ensures r.system != "" && r.stype != "" ==>
            exists i :: 0 <= i < |files| && LooseName(files[i], phys)
                     && r.system == LowerOrEmpty(Get(files[i], "source_system"))
                     && r.stype == LowerOrEmpty(Get(files[i], "source_type"))
  {
    var exact := match FirstNamed(files, phys, 0)
      case None => SourceInfo(Null, "", "")
      case Some(i) => SourceInfo(Get(files[i], LogicalKey),
                                 LowerOrEmpty(Get(files[i], "source_system")),
                                 LowerOrEmpty(Get(files[i], "source_type")));
    if exact.system != "" && exact.stype != "" then
      assert LooseName(files[FirstNamed(files, phys, 0).value], phys);
      exact
    else
      match FirstLoose(files, phys, 0)
      case None => exact
      case Some(j) =>
        SourceInfo(if Truthy(exact.logical) then exact.logical else Get(files[j], LogicalKey),
                   LowerOrEmpty(Get(files[j], "source_system")),
                   LowerOrEmpty(Get(files[j], "source_type")))
  }

  /** The Parquet artifact's name: the logical source name when there is one, else the
    * physical stem without its trailing batch token, followed by the batch id. */
  function ParquetName(phys: string, logical: Value, batchId: string): (r: string)
    ensures EndsWith(r, "_" + batchId + ".parquet")
    ensures Truthy(logical) ==> r == Text(logical) + "_" + batchId + ".parquet"
  {
    var parquetBase := if Truthy(logical) then Text(logical) else DropTrailingToken(SplitExt(phys).0);
    assert parquetBase + "_" + batchId + ".parquet" == parquetBase + ("_" + batchId + ".parquet");
    parquetBase + "_" + batchId + ".parquet"
  }

  /** The checks of `main` up to the database connection, in the order the script makes
    * them. `args` are the arguments after the script name; `sourceExists` is whether the raw
    * file is in its success directory and `dbUp` whether the connection opens. */
  function PlanConvert(args: seq<string>, stored: Stored, sourceExists: bool, dbUp: bool): (r: Result<Job, Failure>)
    ensures |args| != 2 <==> r == Err(Usage)
    ensures |args| == 2 && ExtractBatchId(args[1]).None? ==> r == Err(NoBatchId)
    ensures r.Ok? ==> |args| == 2 && r.value.schema == args[0] && r.value.phys == args[1]
                      && ExtractBatchId(args[1]) == Some(r.value.batchId)
                      && stored.Stored? && r.value.clientId == stored.doc.clientId != Null
                      && r.value.system != "" && r.value.stype != "" && sourceExists && dbUp
                      && r.value.parquetName == ParquetName(args[1], r.value.logical, r.value.batchId)
    ensures r == Err(NoClientId) <==> |args| == 2 && ExtractBatchId(args[1]).Some? && stored.Stored? && stored.doc.clientId == Null
  {
    if |args| != 2 then Err(Usage)
    else
      var schema := args[0];
      var phys := args[1];
      match ExtractBatchId(phys)
      case None => Err(NoBatchId)
      case Some(batchId) =>
        match stored
        case Missing => Err(ManifestMissing)
        case Unreadable => Err(ManifestUnreadable)
        case Stored(doc) =>
          if doc.clientId == Null then Err(NoClientId)
          else
            var info := LookupSource(doc.files, phys);
            if info.system == "" || info.stype == "" then Err(NoSourceInfo)
            else
              var src := Join("/", ["raw", schema, info.system, "success", phys]);
              if !sourceExists then
                Err(SourceMissing(doc.clientId, phys, batchId, "Source file not found at expected location: " + src))
              else if !dbUp then Err(NoDatabase)
              else
                var name := ParquetName(phys, info.logical, batchId);
                Ok(Job(schema, phys, batchId, doc.clientId, info.logical, info.system, info.stype,
                       name, src, Join("/", ["data", schema, info.system, "incoming", name])))
  }

  /** The log row a failed check leaves: only a missing source file is logged. */
  function FailureLog(f: Failure): (r: Option<JobLog>)
    ensures r.Some? <==> f.SourceMissing?
  {
    match f
    case SourceMissing(clientId, phys, batchId, message) => Some(JobLog(clientId, "FAILED", Some(message), phys, batchId))
    case _ => None
  }

  predicate SupportedType(t: string) {
    t == "csv" || t == "xlsx" || t == "xls" || t == "excel" || t == "json" || t == "parquet"
  }

  /** The error of `convert_to_parquet(src, dest, type)`, if any: an unsupported type, or
    * `ioError`, what reading or writing the data raised. */
  function ConversionError(stype: string, ioError: Option<string>): (r: Option<string>)
    ensures !SupportedType(stype) ==> r == Some("Unsupported source type for convert: " + stype)
    ensures SupportedType(stype) ==> r == ioError
  {
    if !SupportedType(stype) then Some("Unsupported source type for convert: " + stype) else ioError
  }

  /** Which entry receives the parquet name: the first whose physical name matches ignoring
    * case, else (with a logical name) the first whose logical name matches ignoring case,
    * else the first with the same non-empty matching key. */
  function RecordIndex(files: seq<Entry>, job: Job): (r: Option<nat>)
    ensures r.Some? ==> r.value < |files|
    ensures (exists i :: 0 <= i < |files| && LooseName(files[i], job.phys)) ==>
            r.Some? && LooseName(files[r.value], job.phys)
            && forall j :: 0 <= j < r.value ==> !LooseName(files[j], job.phys)
  {
    match FirstLoose(files, job.phys, 0)
    case Some(i) => Some(i)
    case None =>
      var logicalLower := LowerOrEmpty(job.logical);
      var byLogical := if logicalLower != "" then FirstLogical(files, logicalLower, 0) else None;
      if byLogical.Some? then byLogical
      else FirstSameBase(files, NormalizeForMatch(Some(job.phys)), 0)
  }

  /** The entry appended when nothing matches. */
  function NewEntry(job: Job): Entry {
    map[PhysicalKey := Str(job.phys), LogicalKey := job.logical,
        "source_system" := Str(job.system), "source_type" := Str(job.stype),
        ParquetKey := Str(job.parquetName)]
  }

  /** The file list after recording the parquet name. */
  function RecordParquet(files: seq<Entry>, job: Job): seq<Entry>
  {
    match RecordIndex(files, job)
    case Some(i) => files[i := files[i][ParquetKey := Str(job.parquetName)]]
    case None => files + [NewEntry(job)]
  }

  /** The document the converter's update starts from when it cannot read one. */
  function Skeleton(job: Job): Document {
    Document(Str(job.schema), job.clientId, Str(job.batchId), [])
  }

  /** The manifest update loop of `main`: up to six attempts, each reading the manifest (the
    * job's skeleton when it cannot), recording the parquet name and writing. */
  method RecordInManifest(m: ManifestFile, job: Job, writes: seq<bool>) returns (ok: bool)
    modifies m
    ensures ok <==> exists i :: 0 <= i < MaxUpsertAttempts && i < |writes| && writes[i]
    ensures ok ==> var cur := ReadOr(old(m.content), Skeleton(job));
                   m.content == Stored(cur.(files := RecordParquet(cur.files, job)))
    ensures !ok ==> m.content == old(m.content)
  {
    var attempt := 0;
    ok := false;
    while attempt < MaxUpsertAttempts && !ok
      invariant 0 <= attempt <= MaxUpsertAttempts
      invariant !ok ==> m.content == old(m.content)
      invariant ok ==> var cur := ReadOr(old(m.content), Skeleton(job));
                       m.content == Stored(cur.(files := RecordParquet(cur.files, job)))
      invariant ok <==> exists i :: 0 <= i < attempt && i < |writes| && writes[i]
    {
      var current := ReadOr(m.content, Skeleton(job));
      var next := current.(files := RecordParquet(current.files, job));
      if attempt < |writes| && writes[attempt] {
        m.content := Stored(next);
        ok := true;
      }
      attempt := attempt + 1;
    }
  }

  /** What one run of the converter reports. */
  datatype Outcome = Outcome(exitCode: int, convertStatus: Option<string>, log: Option<JobLog>)

  /** What one run of the converter does: its outcome and the manifest it leaves. `ioError`
    * is what reading or writing the data raises; `writes[i]` is whether the manifest write of
    * attempt `i` succeeds. A failed manifest write is only a warning. */
  function ConvertEffect(args: seq<string>, stored: Stored, sourceExists: bool, dbUp: bool,
                         ioError: Option<string>, writes: seq<bool>): (Outcome, Stored)
  {
    match PlanConvert(args, stored, sourceExists, dbUp)
    case Err(f) => (Outcome(ExitCode(f), None, FailureLog(f)), stored)
    case Ok(job) =>
      match ConversionError(job.stype, ioError)
      case Some(err) => (Outcome(1, Some("FAILED"), Some(JobLog(job.clientId, "FAILED", Some(err), job.phys, job.batchId))), stored)
      case None => ConvertRecorded(job, stored, writes)
  }

  function ConvertRecorded(job: Job, stored: Stored, writes: seq<bool>): (Outcome, Stored) {
    if exists i :: 0 <= i < MaxUpsertAttempts && i < |writes| && writes[i] then
      var cur := ReadOr(stored, Skeleton(job));
      (Outcome(0, Some("SUCCESS"), Some(JobLog(job.clientId, "SUCCESS", None, job.parquetName, job.batchId))),
       Stored(cur.(files := RecordParquet(cur.files, job))))
    else
      (Outcome(0, Some("SUCCESS"), Some(JobLog(job.clientId, "WARNING",
                                               Some("Failed to write batch_info after 6 attempts for " + job.phys),
                                               job.parquetName, job.batchId))),
       stored)
  }

  /** The three ways a run ends: a failed check (exit 2 for usage, else 1, manifest untouched),
    * a failed conversion (exit 1, manifest untouched), or a conversion (exit 0) whose log is
    * SUCCESS exactly when a manifest write lands, and then the manifest records the name. */
  lemma ConvertOutcomes(args: seq<string>, stored: Stored, sourceExists: bool, dbUp: bool,
                        ioError: Option<string>, writes: seq<bool>)
    ensures var plan := PlanConvert(args, stored, sourceExists, dbUp);
            var (out, after) := ConvertEffect(args, stored, sourceExists, dbUp, ioError, writes);
            && (plan.Err? ==> out == Outcome(ExitCode(plan.error), None, FailureLog(plan.error)) && after == stored)
            && (plan.Ok? && ConversionError(plan.value.stype, ioError).Some? ==>
                  out.exitCode == 1 && out.convertStatus == Some("FAILED") && after == stored)
            && (plan.Ok? && ConversionError(plan.value.stype, ioError).None? ==>
                  out.exitCode == 0 && out.convertStatus == Some("SUCCESS") && out.log.Some?
                  && out.log.value.fileName == plan.value.parquetName
                  && (out.log.value.status == "SUCCESS" <==> exists i :: 0 <= i < MaxUpsertAttempts && i < |writes| && writes[i])
                  && (out.log.value.status == "SUCCESS" ==>
                        var cur := ReadOr(stored, Skeleton(plan.value));
                        after == Stored(cur.(files := RecordParquet(cur.files, plan.value))))
                  && (out.log.value.status != "SUCCESS" ==> out.log.value.status == "WARNING" && after == stored))
            && (out.exitCode == 0 <==> plan.Ok? && ConversionError(plan.value.stype, ioError).None?)
  {
    var plan := PlanConvert(args, stored, sourceExists, dbUp);
    if plan.Err? {
      assert ExitCode(plan.error) != 0;
    }
  }

  /** `main`: the checks, the conversion, the audit status, the manifest update and the job
    * log, as `ConvertEffect` states them. */
  method RunStage(args: seq<string>, m: ManifestFile, sourceExists: bool, dbUp: bool,
              ioError: Option<string>, writes: seq<bool>) returns (out: Outcome)
    modifies m
    ensures (out, m.content) == ConvertEffect(args, old(m.content), sourceExists, dbUp, ioError, writes)
  {
    var plan := PlanConvert(args, m.content, sourceExists, dbUp);
    if plan.Err? {
      return Outcome(ExitCode(plan.error), None, FailureLog(plan.error));
    }
    var job := plan.value;
    var err := ConversionError(job.stype, ioError);
    if err.Some? {
      return Outcome(1, Some("FAILED"), Some(JobLog(job.clientId, "FAILED", err, job.phys, job.batchId)));
    }
    var ok := RecordInManifest(m, job, writes);
    if !ok {
      var warning := "Failed to write batch_info after 6 attempts for " + job.phys;
      out := Outcome(0, Some("SUCCESS"), Some(JobLog(job.clientId, "WARNING", Some(warning), job.parquetName, job.batchId)));
    } else {
      out := Outcome(0, Some("SUCCESS"), Some(JobLog(job.clientId, "SUCCESS", None, job.parquetName, job.batchId)));
    }
  }

  // ---------------------------------------------------------------------------------------

  /** Without a logical name, a batch-stamped file's artifact is named after its stem with
    * the stamp moved behind: `orders_BATCH000007.csv` becomes `orders_BATCH000007.parquet`. */
  lemma ParquetNameOfStamped(x: string, bid: string, e: string)
    requires IsBatchId(bid) && NoChar(x, '/') && (IsExtension(e) || (e == "" && NoChar(x, '.')))
    ensures ParquetName(x + "_" + bid + e, Null, bid) == x + "_" + bid + ".parquet"
  {
    BatchIdParts(bid);
    TokenNameSplit(x, bid[..5], bid[5..], e);
    assert x + "_" + bid[..5] + bid[5..] + e == x + "_" + bid + e;
    assert x + "_" + bid[..5] + bid[5..] == x + "_" + bid;
    DropStampedToken(x, bid);
  }

  /** An entry named exactly `phys` also matches it ignoring case. */
  lemma ExactIsLoose(f: Entry, phys: string)
    requires Get(f, PhysicalKey) == Str(phys)
    ensures LooseName(f, phys)
  {
    assert GetOr(f, PhysicalKey, Str("")) == Str(phys);
  }

  /** Recording always leaves an entry holding the parquet name; it changes no other entry
    * and appends at most the one new entry. */
  lemma RecordSetsParquetName(files: seq<Entry>, job: Job)
    ensures var r := RecordParquet(files, job);
            exists i :: 0 <= i < |r| && Get(r[i], ParquetKey) == Str(job.parquetName) &&
              (forall j :: 0 <= j < |files| && j != i ==> r[j] == files[j]) &&
              (|r| == |files| || (|r| == |files| + 1 && i == |files| && r[i] == NewEntry(job)))
  {
    var r := RecordParquet(files, job);
    match RecordIndex(files, job)
    case Some(i) =>
      assert Get(r[i], ParquetKey) == Str(job.parquetName);
    case None =>
      assert r[|files|] == NewEntry(job);
      assert Get(r[|files|], ParquetKey) == Str(job.parquetName);
  }

  /** The orchestrator's wait succeeds on what the converter records: when the manifest holds
    * an entry named exactly `phys` and every entry naming it up to case names it exactly,
    * the first entry named `phys` ends up with a truthy parquet name. */
  lemma RecordPublishes(d: Document, job: Job, k: nat)
    requires k < |d.files| && Get(d.files[k], PhysicalKey) == Str(job.phys)
    requires forall j :: 0 <= j < |d.files| && LooseName(d.files[j], job.phys) ==>
               Get(d.files[j], PhysicalKey) == Str(job.phys)
    requires job.parquetName != ""
    ensures Published(Stored(d.(files := RecordParquet(d.files, job))), job.phys)
  {
    var files := d.files;
    ExactIsLoose(files[k], job.phys);
    var i := FirstLoose(files, job.phys, 0).value;
    assert RecordIndex(files, job) == Some(i);
    var r := RecordParquet(files, job);
    assert r == files[i := files[i][ParquetKey := Str(job.parquetName)]];
    assert Get(r[i], PhysicalKey) == Str(job.phys);
    forall j | 0 <= j < i
      ensures Get(r[j], PhysicalKey) != Str(job.phys)
    {
      if Get(files[j], PhysicalKey) == Str(job.phys) {
        ExactIsLoose(files[j], job.phys);
      }
    }
    var n := FirstNamed(r, job.phys, 0);
    assert n.Some? && n.value <= i;
    assert n == Some(i);
    assert Truthy(Get(r[i], ParquetKey));
  }
}
