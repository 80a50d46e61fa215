// scripts/validate_mapping.py: the mapping check of one parquet file. The active mapping
// columns of the file's logical source and the parquet file's own columns are compared by
// normalised name; the file passes exactly when the two sets of names are equal. Any
// difference is reported as the sorted missing and extra names and fails the file.
module ValidateMapping {
  import opened Optional
  import opened PyStrings
  import opened Json
  import opened BatchTokens
  import opened Manifest
  import opened StageCommon
  import opened FileStages

  const JobName := "Mapping Validation"
  const NotFoundMessage := "Column Mapping Not Found"

  // ---------------------------------------------------------------------------------------
  // `sorted` of a set of strings

  /** Strictly increasing in Python's string order, hence without repeats. */
  predicate StrictlySorted(s: seq<string>) {
    forall i, j :: 0 <= i < j < |s| ==> StrLess(s[i], s[j])
  }

  /** `x` put in its place in a sorted list, unless it is there already. */
  function InsertSorted(x: string, s: seq<string>): (r: seq<string>)
    ensures |r| <= |s| + 1
  {
    if s == [] then [x]
    else if x == s[0] then s
    else if StrLess(x, s[0]) then [x] + s
    else [s[0]] + InsertSorted(x, s[1..])
  }

  lemma {:induction false} InsertSortedMembers(x: string, s: seq<string>, y: string)
    ensures y in InsertSorted(x, s) <==> y == x || y in s
  {
    if s != [] && x != s[0] && !StrLess(x, s[0]) {
      InsertSortedMembers(x, s[1..], y);
      assert s == [s[0]] + s[1..];
    }
  }

  lemma {:induction false} InsertSortedSorted(x: string, s: seq<string>)
    requires StrictlySorted(s)
    ensures StrictlySorted(InsertSorted(x, s))
  {
    if s == [] || x == s[0] {
    } else if StrLess(x, s[0]) {
      var r := [x] + s;
      forall i, j | 0 <= i < j < |r| ensures StrLess(r[i], r[j]) {
        if i == 0 && j > 1 {
          StrLessTransitive(x, s[0], s[j - 1]);
        }
      }
    } else {
      StrLessTotal(x, s[0]);
      var t := s[1..];
      InsertSortedSorted(x, t);
      var rest := InsertSorted(x, t);
      var r := [s[0]] + rest;
      forall k | 0 <= k < |rest| ensures StrLess(s[0], rest[k]) {
        InsertSortedMembers(x, t, rest[k]);
        if rest[k] != x {
          var m :| 0 <= m < |t| && t[m] == rest[k];
          assert s[m + 1] == rest[k];
        }
      }
      forall i, j | 0 <= i < j < |r| ensures StrLess(r[i], r[j]) {
        if i > 0 {
          assert r[i] == rest[i - 1] && r[j] == rest[j - 1];
        }
      }
    }
  }

  /** `sorted(set(xs))`: the distinct values of `xs` in increasing order. */
  function SortDistinct(xs: seq<string>): (r: seq<string>)
    ensures |r| <= |xs|
  {
    if xs == [] then [] else InsertSorted(xs[|xs| - 1], SortDistinct(xs[..|xs| - 1]))
  }

  /** The result is sorted and holds exactly the values of `xs`. */
  lemma {:induction false} SortDistinctSpec(xs: seq<string>)
    ensures StrictlySorted(SortDistinct(xs))
    ensures forall y :: y in SortDistinct(xs) <==> y in xs
  {
    if xs != [] {
      var init := xs[..|xs| - 1];
      var x := xs[|xs| - 1];
      SortDistinctSpec(init);
      InsertSortedSorted(x, SortDistinct(init));
      assert xs == init + [x];
      forall y ensures y in SortDistinct(xs) <==> y in xs {
        InsertSortedMembers(x, SortDistinct(init), y);
      }
    }
  }

  /** A set has one sorted listing: whatever sorted the values, the list is the same. */
  lemma {:induction false} SortedUnique(a: seq<string>, b: seq<string>)
    requires StrictlySorted(a) && StrictlySorted(b)
    requires forall y :: y in a <==> y in b
    ensures a == b
    decreases |a|
  {
    SameMembersEmpty(a, b);
    if a != [] {
      if a[0] != b[0] {
        assert b[0] in a && a[0] in b;
        var i :| 0 <= i < |a| && a[i] == b[0];
        var j :| 0 <= j < |b| && b[j] == a[0];
        assert i > 0 && j > 0;
        assert StrLess(a[0], b[0]) && StrLess(b[0], a[0]);
        StrLessAsymmetric(a[0], b[0]);
        assert false;
      }
      forall y ensures y in a[1..] <==> y in b[1..] {
        StrLessIrreflexive(a[0]);
        if y in a[1..] {
          var i :| 0 <= i < |a[1..]| && a[1..][i] == y;
          assert StrLess(a[0], a[i + 1]);
          assert y in b && y != b[0];
          var j :| 0 <= j < |b| && b[j] == y;
          assert b[1..][j - 1] == y;
        }
        if y in b[1..] {
          var j :| 0 <= j < |b[1..]| && b[1..][j] == y;
          assert StrLess(b[0], b[j + 1]);
          assert y in a && y != a[0];
          var i :| 0 <= i < |a| && a[i] == y;
          assert a[1..][i - 1] == y;
        }
      }
      SortedUnique(a[1..], b[1..]);
      assert a == [a[0]] + a[1..] && b == [b[0]] + b[1..];
    }
  }

  lemma SameMembersEmpty(a: seq<string>, b: seq<string>)
    requires forall y :: y in a <==> y in b
    ensures a == [] <==> b == []
  {
    if a != [] {
      assert a[0] in b;
    }
    if b != [] {
      assert b[0] in a;
    }
  }

  // ---------------------------------------------------------------------------------------
  // Comparing the two sets of names

  /** `key` of each column, in order. */
  function Keys(cols: seq<string>, key: string -> string): (r: seq<string>)
    ensures |r| == |cols|
  {
    seq(|cols|, i requires 0 <= i < |cols| => key(cols[i]))
  }

  /** `set(key(c) for c in cols)` */
  function KeySet(cols: seq<string>, key: string -> string): set<string> {
    set y | y in Keys(cols, key)
  }

  lemma KeySetHas(cols: seq<string>, key: string -> string, y: string)
    ensures y in KeySet(cols, key) <==> exists i :: 0 <= i < |cols| && key(cols[i]) == y
  {
    if y in KeySet(cols, key) {
      var i :| 0 <= i < |Keys(cols, key)| && Keys(cols, key)[i] == y;
    }
    if i :| 0 <= i < |cols| && key(cols[i]) == y {
      assert Keys(cols, key)[i] == y;
    }
  }

  /** The normalised names of a list of columns, in its order. */
  function Norms(cols: seq<string>): seq<string> {
    Keys(cols, Norm)
  }

  /** `set(normalize_name(c) for c in cols)` */
  function NormSet(cols: seq<string>): set<string> {
    KeySet(cols, Norm)
  }

  /** `sorted(a - b)` over normalised names. */
  function SortedDifference(a: seq<string>, b: seq<string>): seq<string> {
    SortDistinct(Unmatched(Norms(a), s => s, NormSet(b)))
  }

  /** `missing`: mapping names the parquet file lacks. */
  function Missing(mapping: seq<string>, parquet: seq<string>): seq<string> {
    SortedDifference(mapping, parquet)
  }

  /** `extra`: parquet names the mapping lacks. */
  function Extra(mapping: seq<string>, parquet: seq<string>): seq<string> {
    SortedDifference(parquet, mapping)
  }

  /** The difference is sorted and holds exactly the names of `a` that `b` does not have. */
  lemma SortedDifferenceSpec(a: seq<string>, b: seq<string>)
    ensures StrictlySorted(SortedDifference(a, b))
    ensures forall y :: y in SortedDifference(a, b) <==> y in NormSet(a) && y !in NormSet(b)
  {
    var u := Unmatched(Norms(a), s => s, NormSet(b));
    SortDistinctSpec(u);
    forall y ensures y in SortedDifference(a, b) <==> y in NormSet(a) && y !in NormSet(b) {
      UnmatchedMembers(Norms(a), s => s, NormSet(b), y);
    }
  }

  /** The difference is the one sorted listing of `NormSet(a) - NormSet(b)`. */
  lemma SortedDifferenceIsSorted(a: seq<string>, b: seq<string>, listing: seq<string>)
    requires StrictlySorted(listing)
    requires forall y :: y in listing <==> y in NormSet(a) && y !in NormSet(b)
    ensures SortedDifference(a, b) == listing
  {
    SortedDifferenceSpec(a, b);
    SortedUnique(SortedDifference(a, b), listing);
  }

  /** Validation passes, nothing missing and nothing extra, exactly when the mapping and
    * the parquet file have the same normalised names. */
  lemma PassesIffSameNames(mapping: seq<string>, parquet: seq<string>)
    ensures Missing(mapping, parquet) == [] && Extra(mapping, parquet) == [] <==> NormSet(mapping) == NormSet(parquet)
  {
    SortedDifferenceSpec(mapping, parquet);
    SortedDifferenceSpec(parquet, mapping);
    if Missing(mapping, parquet) != [] {
      assert Missing(mapping, parquet)[0] in NormSet(mapping) - NormSet(parquet);
    }
    if Extra(mapping, parquet) != [] {
      assert Extra(mapping, parquet)[0] in NormSet(parquet) - NormSet(mapping);
    }
    if NormSet(mapping) != NormSet(parquet) {
      if y :| y in NormSet(mapping) && y !in NormSet(parquet) {
        assert y in Missing(mapping, parquet);
      } else {
        var y :| y in NormSet(parquet) && y !in NormSet(mapping);
        assert y in Extra(mapping, parquet);
      }
    }
  }

  /** `",".join(sorted(names))`: the expected and received lists of the log row. */
  function NamesText(cols: seq<string>): string {
    Join(",", SortDistinct(Norms(cols)))
  }

  /** The job-log message of a mismatch. */
  function MismatchMessage(missing: seq<string>, extra: seq<string>): string {
    "Missing: " + Join(",", missing) + "; Extra: " + Join(",", extra)
  }

  // ---------------------------------------------------------------------------------------
  // One run

  /** A row of tools.mapping_validation_log: missing, extra, expected and received names,
    * each comma-joined, and the file name. */
  datatype MappingLog = MappingLog(missing: string, extra: string, expected: string, received: string,
                                   fileName: string)

  /** What a run reports and does: the exit code, the mapping-validation log row, the
    * `mapping_validation_status` set on the audit row, the job log, and the path handed to
    * `move_parquet_to_failed`. */
  datatype MappingRun = MappingRun(exitCode: int, mappingLog: Option<MappingLog>, audit: Option<string>,
                                   jobLog: Option<JobLog>, moved: Option<string>)

  /** What a run meets: the batch file at `BatchInfoPath` (None when absent or unreadable),
    * whether the parquet file exists, its column names (or the read error), the connection,
    * and the active mapping columns in `mapping_id` order (or the query error). */
  datatype MappingEnv = MappingEnv(batchInfo: Option<BatchInfo>, parquetExists: bool,
                                   parquetCols: Result<seq<string>, string>, connectError: Option<string>,
                                   mappingCols: Result<seq<string>, string>)

  /** What the checks before the parquet file find out. */
  datatype MappingJob = MappingJob(schema: string, phys: string, batchId: string, clientId: Value,
                                   parquetName: Value, system: string)

  function Log(job: MappingJob, status: string, message: Option<string>, fileName: string): JobLog {
    JobLog(JobName, job.clientId, status, message, fileName, Str(job.batchId))
  }

  function IncomingFolder(job: MappingJob): string {
    PathJoin(PathJoin(PathJoin("data", job.schema), job.system), "incoming")
  }

  /** `os.path.join("data", schema, source_system, "incoming", parquet_name or "")` */
  function ParquetPath(job: MappingJob): string {
    PathJoin(IncomingFolder(job), TextOrEmpty(job.parquetName))
  }

  /** Argument count (exit 2), batch identifier, batch file, entry and client id (exit 1,
    * nothing logged). `args` follow the script name. */
  function PlanMapping(args: seq<string>, info: Option<BatchInfo>): (r: Result<MappingJob, int>)
    ensures r == Err(2) <==> |args| != 2
    ensures r.Err? ==> r.error == 1 || r.error == 2
    ensures r.Ok? ==> |args| == 2 && r.value.phys == args[1] && r.value.clientId != Null
                      && ExtractBatchId(args[1]) == Some(r.value.batchId)
  {
    if |args| != 2 then Err(2)
    else
      match ExtractBatchId(args[1])
      case None => Err(1)
      case Some(bid) =>
        if info.None? then Err(1)
        else
          match FirstNamed(info.value.files, args[1], 0)
          case None => Err(1)
          case Some(i) =>
            var e := info.value.files[i];
            if info.value.clientId == Null then Err(1)
            else Ok(MappingJob(args[0], args[1], bid, info.value.clientId, Get(e, ParquetKey),
                               Lower(TextOrEmpty(Get(e, "source_system")))))
  }

  /** A failure before the mapping query: the job log and the move happen only when a
    * connection can be made. */
  function EarlyFailure(job: MappingJob, connectError: Option<string>, msg: string, move: bool): MappingRun {
    if connectError.Some? then MappingRun(1, None, None, None, None)
    else MappingRun(1, None, None, Some(Log(job, "FAILED", Some(msg), job.phys)),
                    if move then Some(ParquetPath(job)) else None)
  }

  /** The comparison once both lists of names are known. */
  function Compare(job: MappingJob, mapping: seq<string>, parquet: seq<string>): MappingRun {
    var missing := Missing(mapping, parquet);
    var extra := Extra(mapping, parquet);
    if missing != [] || extra != [] then
      var msg := MismatchMessage(missing, extra);
      MappingRun(1, Some(MappingLog(Join(",", missing), Join(",", extra), NamesText(mapping), NamesText(parquet),
                                    Text(job.parquetName))),
                 Some("FAILED"), Some(Log(job, "FAILED", Some(msg), job.phys)), Some(ParquetPath(job)))
    else
      MappingRun(0, None, Some("SUCCESS"), Some(Log(job, "SUCCESS", None, Text(job.parquetName))), None)
  }

  /** Everything after the batch file is read. */
  function Attempt(job: MappingJob, env: MappingEnv): MappingRun {
    if !Truthy(job.parquetName) then EarlyFailure(job, env.connectError, "parquet_name_missing", true)
    else if !env.parquetExists then EarlyFailure(job, env.connectError, "parquet_missing:" + ParquetPath(job), false)
    else if env.parquetCols.Err? then
      EarlyFailure(job, env.connectError, "parquet_read_error:" + env.parquetCols.error, true)
    else if env.connectError.Some? then MappingRun(1, None, None, None, None)
    else if env.mappingCols.Err? then
      MappingRun(1, None, None, Some(Log(job, "FAILED", Some("db_error:" + env.mappingCols.error), job.phys)), None)
    else if env.mappingCols.value == [] then
      MappingRun(1, Some(MappingLog("", "", "", "", job.phys)), Some("FAILED"),
                 Some(Log(job, "FAILED", Some(NotFoundMessage), job.phys)), Some(ParquetPath(job)))
    else Compare(job, env.mappingCols.value, env.parquetCols.value)
  }

  /** `main` */
  function MappingSpec(args: seq<string>, env: MappingEnv): MappingRun {
    match PlanMapping(args, env.batchInfo)
    case Err(code) => MappingRun(code, None, None, None, None)
    case Ok(job) => Attempt(job, env)
  }

  /** Every check before the comparison passes. */
  predicate Compared(job: MappingJob, env: MappingEnv) {
    && Truthy(job.parquetName) && env.parquetExists && env.parquetCols.Ok? && env.connectError.None?
    && env.mappingCols.Ok? && env.mappingCols.value != []
  }

  /** Exit 2 only for a wrong argument count; exit 0 exactly when every check passes and the
    * mapping and the parquet file have the same normalised names, and then the audit row
    * gets SUCCESS and the parquet file stays in place. */
  lemma MappingExitCodes(args: seq<string>, env: MappingEnv)
    ensures var out := MappingSpec(args, env);
            var plan := PlanMapping(args, env.batchInfo);
            && (out.exitCode == 2 <==> |args| != 2)
            && (out.exitCode == 0 || out.exitCode == 1 || out.exitCode == 2)
            && (out.exitCode == 0 <==>
                  plan.Ok? && Compared(plan.value, env)
                  && NormSet(env.mappingCols.value) == NormSet(env.parquetCols.value))
            && (out.exitCode == 0 ==> out.audit == Some("SUCCESS") && out.moved.None?)
  {
    var plan := PlanMapping(args, env.batchInfo);
    if plan.Ok? && Compared(plan.value, env) {
      PassesIffSameNames(env.mappingCols.value, env.parquetCols.value);
    }
  }

  /** An empty mapping fails the file: a blank log row, FAILED in the audit row and the job
    * log, and the parquet file moved to the failed folder. */
  lemma EmptyMappingFails(job: MappingJob, env: MappingEnv)
    requires Truthy(job.parquetName) && env.parquetExists && env.parquetCols.Ok? && env.connectError.None?
    requires env.mappingCols == Ok([])
    ensures Attempt(job, env).exitCode == 1 && Attempt(job, env).audit == Some("FAILED")
    ensures Attempt(job, env).mappingLog == Some(MappingLog("", "", "", "", job.phys))
    ensures Attempt(job, env).moved == Some(ParquetPath(job))
  {
  }

  /** A mismatch is logged with the sorted missing and extra names, each name once, and the
    * sorted expected and received lists; the parquet file is moved to the failed folder. */
  lemma MismatchLogged(job: MappingJob, mapping: seq<string>, parquet: seq<string>)
    requires NormSet(mapping) != NormSet(parquet)
    ensures var out := Compare(job, mapping, parquet);
            && out.exitCode == 1 && out.audit == Some("FAILED") && out.moved == Some(ParquetPath(job))
            && out.mappingLog == Some(MappingLog(Join(",", Missing(mapping, parquet)), Join(",", Extra(mapping, parquet)),
                                                 NamesText(mapping), NamesText(parquet), Text(job.parquetName)))
            && StrictlySorted(Missing(mapping, parquet)) && StrictlySorted(Extra(mapping, parquet))
            && (forall y :: y in Missing(mapping, parquet) <==> y in NormSet(mapping) && y !in NormSet(parquet))
            && (forall y :: y in Extra(mapping, parquet) <==> y in NormSet(parquet) && y !in NormSet(mapping))
  {
    PassesIffSameNames(mapping, parquet);
    SortedDifferenceSpec(mapping, parquet);
    SortedDifferenceSpec(parquet, mapping);
  }

  /** `main`, with the entry search it runs. */
  method RunStage(args: seq<string>, env: MappingEnv) returns (out: MappingRun)
    ensures out == MappingSpec(args, env)
  {
    if |args| != 2 {
      return MappingRun(2, None, None, None, None);
    }
    var phys := args[1];
    var bid := ExtractBatchId(phys);
    if bid.None? || env.batchInfo.None? {
      return MappingRun(1, None, None, None, None);
    }
    var info := env.batchInfo.value;
    var found := FindFileEntry(info.files, phys);
    if found.None? || info.clientId == Null {
      return MappingRun(1, None, None, None, None);
    }
    var e := info.files[found.value];
    var job := MappingJob(args[0], phys, bid.value, info.clientId, Get(e, ParquetKey),
                          Lower(TextOrEmpty(Get(e, "source_system"))));
    assert PlanMapping(args, env.batchInfo) == Ok(job);
    out := Attempt(job, env);
  }
}
