// scripts/validate_row.py: row validation of one parquet file. The required columns of the
// file's logical source are resolved against the parquet columns by normalised name; any
// missing one fails the file at once. Otherwise DuckDB counts, per required column, the rows
// whose value is null or blank, and the rows that repeat the combination of required values;
// the file fails when either is found. The counts are inputs here.
module ValidateRow {
  import opened Optional
  import opened PyStrings
  import opened Json
  import opened BatchTokens
  import opened Manifest
  import opened StageCommon
  import opened FileStages

  const JobName := "Row Validation"
  const NotFoundMessage := "Required Columns Not Found"
  const FailedType := "ROW_VALIDATION_FAILED"
  const NullIssue := "Null found in required column"
  const DuplicateIssue := "Duplicate Found in Required Column"

  // ---------------------------------------------------------------------------------------
  // SQL text

  /** `build_null_check_expression`: null, blank after trimming, or not equal to itself (NaN). */
  function NullCheckExpr(col: string): string {
    "(" + col + " IS NULL OR NULLIF(TRIM(CAST(" + col + " AS VARCHAR)), '') IS NULL OR " + col + " <> " + col + ")"
  }

  /** `build_normalized_expr`: the trimmed lower-case text of a value, `<NULL>` when blank. */
  function NormalizedExpr(col: string): string {
    "COALESCE(NULLIF(LOWER(TRIM(CAST(" + col + " AS VARCHAR))), ''), '<NULL>')"
  }

  /** Distinct columns get distinct null checks: the identifier can be read back. */
  lemma NullCheckExprInjective(a: string, b: string)
    requires NullCheckExpr(a) == NullCheckExpr(b)
    ensures a == b
  {
    var ea := NullCheckExpr(a);
    assert |ea| == 4 * |a| + 65;
    assert |NullCheckExpr(b)| == 4 * |b| + 65;
    assert ea[1..1 + |a|] == a;
    assert NullCheckExpr(b)[1..1 + |b|] == b;
  }

  /** Distinct columns get distinct normalising expressions. */
  lemma NormalizedExprInjective(a: string, b: string)
    requires NormalizedExpr(a) == NormalizedExpr(b)
    ensures a == b
  {
    var p := "COALESCE(NULLIF(LOWER(TRIM(CAST(";
    assert |NormalizedExpr(a)| == |a| + 62;
    assert |NormalizedExpr(b)| == |b| + 62;
    assert NormalizedExpr(a)[|p|..|p| + |a|] == a;
    assert NormalizedExpr(b)[|p|..|p| + |b|] == b;
  }

  /** The separator the duplicate key puts between values: the Python literal `'\\x1f'`
    * is the four characters backslash, `x`, `1`, `f`, which an SQL string keeps as they are. */
  const KeySeparator := " || '\\x1f' || "

  /** The duplicate query's key: the normalised required values joined by the separator. */
  function DuplicateKeyExpr(actualCols: seq<string>): string {
    Join(KeySeparator, seq(|actualCols|, i requires 0 <= i < |actualCols| => NormalizedExpr(QuoteIdent(actualCols[i]))))
  }

  // ---------------------------------------------------------------------------------------
  // Resolving required columns

  /** `required_to_actual`, keyed by normalised name: each normalised required name some
    * parquet column has, mapped to that column. */
  function ByNorm(required: seq<string>, index: map<string, string>): map<string, string> {
    MatchedKeys(required, Norm, index)
  }

  /** One turn of the resolution loop, for any normalisation `key`. */
  method ResolveOne(done: seq<string>, req: string, key: string -> string, index: map<string, string>,
                    byKey: map<string, string>, missing: seq<string>)
    returns (byKey': map<string, string>, missing': seq<string>)
    requires missing == Unmatched(done, key, index.Keys) && byKey == MatchedKeys(done, key, index)
    ensures missing' == Unmatched(done + [req], key, index.Keys)
    ensures byKey' == MatchedKeys(done + [req], key, index)
  {
    var k := key(req);
    UnmatchedSnoc(done, key, index.Keys, req);
    MatchedKeysSnoc(done, key, index, req);
    if k !in index {
      byKey', missing' := byKey, missing + [req];
    } else {
      byKey', missing' := byKey[k := index[k]], missing;
    }
  }

  /** The resolution loop of `main`, which fills `required_to_actual` and
    * `missing_required_cols`; `main` runs it with `key` the name normalisation, so that
    * `missing` is `MissingColumns(required, index)` and `byKey` is `ByNorm(required, index)`. */
  method ResolveRequired(required: seq<string>, key: string -> string, index: map<string, string>)
    returns (byKey: map<string, string>, missing: seq<string>)
    ensures missing == Unmatched(required, key, index.Keys)
    ensures byKey == MatchedKeys(required, key, index)
  {
    byKey := map[];
    missing := [];
    assert required[..0] == [];
    for i := 0 to |required|
      invariant missing == Unmatched(required[..i], key, index.Keys)
      invariant byKey == MatchedKeys(required[..i], key, index)
    {
      assert required[..i + 1] == required[..i] + [required[i]];
      byKey, missing := ResolveOne(required[..i], required[i], key, index, byKey, missing);
    }
    assert required[..|required|] == required;
  }

  /** With nothing missing, every required column has its parquet column in the map. */
  lemma ByNormCovers(required: seq<string>, index: map<string, string>)
    requires MissingColumns(required, index) == []
    ensures forall i :: 0 <= i < |required| ==>
              Norm(required[i]) in index && Norm(required[i]) in ByNorm(required, index)
              && ByNorm(required, index)[Norm(required[i])] == index[Norm(required[i])]
  {
    forall i | 0 <= i < |required|
      ensures Norm(required[i]) in index && Norm(required[i]) in ByNorm(required, index)
      ensures ByNorm(required, index)[Norm(required[i])] == index[Norm(required[i])]
    {
      UnmatchedMembers(required, Norm, index.Keys, required[i]);
      MatchedKeysHas(required, Norm, index, required[i]);
    }
  }

  /** `actual_required_cols_in_parquet`: the parquet column of each required column. */
  function ActualColumns(required: seq<string>, index: map<string, string>): (r: seq<string>)
    requires MissingColumns(required, index) == []
    ensures |r| == |required|
  {
    ByNormCovers(required, index);
    var m := ByNorm(required, index);
    seq(|required|, i requires 0 <= i < |required| => m[Norm(required[i])])
  }

  /** Each required column is checked in the parquet column that last carries its name. */
  lemma ActualColumnIsLastProducer(required: seq<string>, cols: seq<string>, i: nat)
    requires MissingColumns(required, ParquetIndex(cols)) == [] && i < |required|
    ensures exists j :: 0 <= j < |cols| && Norm(cols[j]) == Norm(required[i])
                        && ActualColumns(required, ParquetIndex(cols))[i] == cols[j]
                        && forall j' :: j < j' < |cols| ==> Norm(cols[j']) != Norm(required[i])
  {
    ByNormCovers(required, ParquetIndex(cols));
    ParquetIndexLastWins(cols, Norm(required[i]));
  }

  // ---------------------------------------------------------------------------------------
  // Nulls, duplicates and issues

  /** `cnt and int(cnt) > 0`: no row or a NULL count reads as none. */
  predicate NullFound(count: Option<int>) { count.Some? && count.value > 0 }

  /** The keys of the first `n` names whose count is positive. */
  function FoundKeys(xs: seq<string>, key: string -> string, counts: nat -> Option<int>, n: nat): set<string>
    requires n <= |xs|
  {
    set j | 0 <= j < n && NullFound(counts(j)) :: key(xs[j])
  }

  lemma FoundKeysNext(xs: seq<string>, key: string -> string, counts: nat -> Option<int>, n: nat)
    requires n < |xs|
    ensures FoundKeys(xs, key, counts, n + 1) ==
              FoundKeys(xs, key, counts, n) + (if NullFound(counts(n)) then {key(xs[n])} else {})
  {
  }

  /** `null_found_columns`: the normalised names of the required columns whose null count
    * (the i-th query's result) is positive. */
  function NullColumns(required: seq<string>, counts: nat -> Option<int>): set<string> {
    FoundKeys(required, Norm, counts, |required|)
  }

  /** The null loop of `main`. */
  method FindNulls(required: seq<string>, counts: nat -> Option<int>) returns (nulls: set<string>)
    ensures nulls == NullColumns(required, counts)
  {
    nulls := {};
    for i := 0 to |required|
      invariant nulls == FoundKeys(required, Norm, counts, i)
    {
      FoundKeysNext(required, Norm, counts, i);
      if NullFound(counts(i)) {
        nulls := nulls + {Norm(required[i])};
      }
    }
  }

  /** Some null is reported exactly when some required column's count is positive. */
  lemma NullColumnsNonEmpty(required: seq<string>, counts: nat -> Option<int>)
    ensures NullColumns(required, counts) != {} <==> exists i :: 0 <= i < |required| && NullFound(counts(i))
  {
    if exists i :: 0 <= i < |required| && NullFound(counts(i)) {
      var i :| 0 <= i < |required| && NullFound(counts(i));
      assert Norm(required[i]) in NullColumns(required, counts);
    }
  }

  /** `dup_count > 0`, a missing row or NULL count reading as 0. */
  predicate DuplicateFound(dupCount: Option<int>) { dupCount.Some? && dupCount.value > 0 }

  /** `issues`: the null issue when a null was found, then the duplicate issue. */
  function Issues(nullFound: bool, duplicateFound: bool): (r: seq<string>)
    ensures r == [] <==> !nullFound && !duplicateFound
    ensures NullIssue in r <==> nullFound
    ensures DuplicateIssue in r <==> duplicateFound
    ensures nullFound ==> r[0] == NullIssue
    ensures |r| <= 2
  {
    (if nullFound then [NullIssue] else []) + (if duplicateFound then [DuplicateIssue] else [])
  }

  // ---------------------------------------------------------------------------------------
  // One run

  /** A row of tools.row_validation_log: file, column(s), error type, detail. */
  datatype RowLog = RowLog(fileName: string, column: Option<string>, errorType: string, detail: string)

  /** What a run reports: exit code, the row-validation log row, the audit row's
    * `row_validation_status`, and the job log. */
  datatype RowRun = RowRun(exitCode: int, rowLog: Option<RowLog>, audit: Option<string>, jobLog: Option<JobLog>)

  /** What a run meets: the batch file (None when absent or unreadable), whether the parquet
    * file exists, the connection, the required-columns query (its columns, or the error it
    * raises), the parquet schema, DuckDB, the null count of the i-th required column and the
    * duplicate count. */
  datatype RowEnv = RowEnv(batchInfo: Option<BatchInfo>, parquetExists: bool, connectError: Option<string>,
                           required: Result<seq<string>, string>, parquetCols: Result<seq<string>, string>,
                           duckdbError: Option<string>, nullCounts: nat -> Option<int>, dupCount: Option<int>)

  /** What the checks before the connection find out. */
  datatype RowJob = RowJob(schema: string, phys: string, batchId: string, clientId: Value,
                           system: string, parquetName: Value)

  function ParquetPath(job: RowJob): string {
    PathJoin(PathJoin(PathJoin(PathJoin("data", job.schema), job.system), "incoming"), Text(job.parquetName))
  }

  function Log(job: RowJob, status: string, message: Option<string>, fileName: string): JobLog {
    JobLog(JobName, job.clientId, status, message, fileName, Str(job.batchId))
  }

  /** Argument count (exit 2), batch identifier, batch file, entry and client id (exit 1,
    * nothing logged). `args` follow the script name. */
  function PlanRow(args: seq<string>, info: Option<BatchInfo>): (r: Result<RowJob, int>)
    ensures r == Err(2) <==> |args| != 2
    ensures r.Err? ==> r.error == 1 || r.error == 2
    ensures r.Ok? ==> |args| == 2 && r.value.phys == args[1] && r.value.clientId != Null
  {
    if |args| != 2 then Err(2)
    else
      match ExtractBatchId(args[1])
      case None => Err(1)
      case Some(bid) =>
        if info.None? then Err(1)
        else
          match FirstNamed(info.value.files, args[1], 0)
          case None => Err(1)
          case Some(i) =>
            var e := info.value.files[i];
            if info.value.clientId == Null then Err(1)
            else Ok(RowJob(args[0], args[1], bid, info.value.clientId,
                           Lower(TextOrEmpty(Get(e, "source_system"))), Get(e, ParquetKey)))
  }

  /** A failure logged before the connection of `main` proper: one job log when a connection
    * can be made. */
  function EarlyFailure(job: RowJob, connectError: Option<string>, msg: string): RowRun {
    RowRun(1, None, None, if connectError.None? then Some(Log(job, "FAILED", Some(msg), job.phys)) else None)
  }

  /** The outcome once the required columns are resolved without anything missing. */
  function Checked(job: RowJob, env: RowEnv, required: seq<string>): RowRun {
    if env.duckdbError.Some? then
      RowRun(1, None, None, Some(Log(job, "FAILED", Some("error:" + env.duckdbError.value), Text(job.parquetName))))
    else
      var issues := Issues(NullColumns(required, env.nullCounts) != {}, DuplicateFound(env.dupCount));
      if issues != [] then
        var detail := Join("; ", issues);
        var columns := Join(",", seq(|required|, i requires 0 <= i < |required| => Norm(required[i])));
        RowRun(1, Some(RowLog(Text(job.parquetName), Some(columns), FailedType, detail)), Some("FAILED"),
               Some(Log(job, "FAILED", Some(detail), Text(job.parquetName))))
      else
        RowRun(0, None, Some("SUCCESS"), Some(Log(job, "SUCCESS", None, Text(job.parquetName))))
  }

  /** The exits before the null and duplicate queries, in the order `main` takes them:
    * the run they end, or `None` when every required column resolves. */
  function Precheck(job: RowJob, parquetExists: bool, connectError: Option<string>,
                    required: Result<seq<string>, string>, parquetCols: Result<seq<string>, string>): Option<RowRun>
  {
    if !Truthy(job.parquetName) then Some(EarlyFailure(job, connectError, "parquet_name_missing"))
    else if !parquetExists then Some(EarlyFailure(job, connectError, "parquet_missing:" + ParquetPath(job)))
    else if connectError.Some? then Some(RowRun(1, None, None, None))
    else if required.Err? then Some(QueryFailure(job, required.error))
    else if required.value == [] then
      Some(RowRun(1, Some(RowLog(Text(job.parquetName), None, NotFoundMessage, NotFoundMessage)), Some("FAILED"),
                  Some(Log(job, "FAILED", Some(NotFoundMessage), job.phys))))
    else if parquetCols.Err? then
      Some(RowRun(1, None, None, Some(Log(job, "FAILED", Some("parquet_schema_error:" + parquetCols.error), job.phys))))
    else
      var missing := MissingColumns(required.value, ParquetIndex(parquetCols.value));
      if missing != [] then Some(MissingRun(job, missing)) else None
  }

  /** The run when required columns are missing from the parquet file. */
  function MissingRun(job: RowJob, missing: seq<string>): RowRun {
    var msg := "Required columns missing in parquet: " + Join(",", missing);
    var missingNorm := Join(",", seq(|missing|, i requires 0 <= i < |missing| => Norm(missing[i])));
    RowRun(1, Some(RowLog(Text(job.parquetName), Some(missingNorm), FailedType, msg)), Some("FAILED"),
           Some(Log(job, "FAILED", Some(msg), Text(job.parquetName))))
  }

  /** An exception inside the `try` of `main` once connected: a FAILED job log `error:<e>`
    * under the parquet name, and nothing else. */
  function QueryFailure(job: RowJob, error: string): RowRun {
    RowRun(1, None, None, Some(Log(job, "FAILED", Some("error:" + error), Text(job.parquetName))))
  }

  function Attempt(job: RowJob, env: RowEnv): RowRun {
    match Precheck(job, env.parquetExists, env.connectError, env.required, env.parquetCols)
    case Some(r) => r
    case None => Checked(job, env, env.required.value)
  }

  /** `main` */
  function RowSpec(args: seq<string>, env: RowEnv): RowRun {
    match PlanRow(args, env.batchInfo)
    case Err(code) => RowRun(code, None, None, None)
    case Ok(job) => Attempt(job, env)
  }

  /** The run reaches the null and duplicate queries. */
  predicate Resolves(job: RowJob, env: RowEnv) {
    && Truthy(job.parquetName) && env.parquetExists && env.connectError.None?
    && env.required.Ok? && env.required.value != [] && env.parquetCols.Ok?
    && forall x :: x in env.required.value ==>
         exists j :: 0 <= j < |env.parquetCols.value| && Norm(env.parquetCols.value[j]) == Norm(x)
  }

  lemma ResolvesIff(job: RowJob, env: RowEnv)
    requires Truthy(job.parquetName) && env.parquetExists && env.connectError.None?
    requires env.required.Ok? && env.required.value != [] && env.parquetCols.Ok?
    ensures Resolves(job, env) <==> MissingColumns(env.required.value, ParquetIndex(env.parquetCols.value)) == []
  {
    var required := env.required.value;
    var cols := env.parquetCols.value;
    var missing := MissingColumns(required, ParquetIndex(cols));
    if missing != [] {
      MissingIffAbsent(required, cols, missing[0]);
    } else {
      forall x | x in required
        ensures exists j :: 0 <= j < |cols| && Norm(cols[j]) == Norm(x)
      {
        MissingIffAbsent(required, cols, x);
      }
    }
  }

  /**
   * The outcomes of a run: exit 2 only for a wrong argument count; exit 0 exactly when every
   * required column resolves, DuckDB runs and neither a null nor a duplicate is found, and
   * then the audit and the job log say SUCCESS. A failing required-columns query, once
   * connected, exits 1 with only a FAILED job log `error:<e>` under the parquet name. When
   * the checks run, the audit says FAILED exactly when the issues list is non-empty, with
   * the issues joined by "; " as detail.
   */
  lemma RowOutcomes(args: seq<string>, env: RowEnv)
    ensures var out := RowSpec(args, env);
            var plan := PlanRow(args, env.batchInfo);
            && (out.exitCode == 2 <==> |args| != 2)
            && (out.exitCode == 0 <==>
                  plan.Ok? && Resolves(plan.value, env) && env.duckdbError.None?
                  && NullColumns(env.required.value, env.nullCounts) == {} && !DuplicateFound(env.dupCount))
            && (out.exitCode == 0 ==> out.audit == Some("SUCCESS") && out.jobLog.Some? && out.jobLog.value.status == "SUCCESS")
            && (plan.Ok? && Truthy(plan.value.parquetName) && env.parquetExists && env.connectError.None?
                && env.required.Err? ==>
                  && out.exitCode == 1 && out.rowLog.None? && out.audit.None?
                  && out.jobLog == Some(JobLog(JobName, plan.value.clientId, "FAILED", Some("error:" + env.required.error),
                                               Text(plan.value.parquetName), Str(plan.value.batchId))))
            && (plan.Ok? && Resolves(plan.value, env) && env.duckdbError.None? ==>
                  var issues := Issues(NullColumns(env.required.value, env.nullCounts) != {}, DuplicateFound(env.dupCount));
                  && (out.audit == Some("FAILED") <==> issues != [])
                  && (issues != [] ==> out.rowLog.Some? && out.rowLog.value.detail == Join("; ", issues)
                                       && out.jobLog.Some? && out.jobLog.value.message == Some(Join("; ", issues))))
  {
    var plan := PlanRow(args, env.batchInfo);
    if plan.Ok? && Truthy(plan.value.parquetName) && env.parquetExists && env.connectError.None?
       && env.required.Ok? && env.required.value != [] && env.parquetCols.Ok? {
      ResolvesIff(plan.value, env);
    }
  }

  /** An empty list of required columns fails the file before the parquet file is read: the
    * outcome is the same whatever its schema, nulls and duplicates. */
  lemma NoRequiredColumnsFailsFirst(args: seq<string>, env: RowEnv, cols: Result<seq<string>, string>,
                                    counts: nat -> Option<int>, dup: Option<int>)
    requires env.required == Ok([])
    ensures RowSpec(args, env) == RowSpec(args, env.(parquetCols := cols, nullCounts := counts, dupCount := dup))
    ensures var plan := PlanRow(args, env.batchInfo);
            plan.Ok? && Truthy(plan.value.parquetName) && env.parquetExists && env.connectError.None? ==>
              RowSpec(args, env).audit == Some("FAILED") && RowSpec(args, env).exitCode == 1
  {
  }

  /** A missing required column fails the file before the null and duplicate checks: the
    * outcome is the same whatever DuckDB would report. */
  lemma MissingColumnFailsFirst(args: seq<string>, env: RowEnv, duck: Option<string>,
                                counts: nat -> Option<int>, dup: Option<int>)
    requires env.required.Ok? && env.parquetCols.Ok?
    requires MissingColumns(env.required.value, ParquetIndex(env.parquetCols.value)) != []
    ensures RowSpec(args, env) == RowSpec(args, env.(duckdbError := duck, nullCounts := counts, dupCount := dup))
    ensures RowSpec(args, env).exitCode != 0
  {
    var env2 := env.(duckdbError := duck, nullCounts := counts, dupCount := dup);
    assert env2.batchInfo == env.batchInfo;
    match PlanRow(args, env.batchInfo)
    case Err(_) =>
    case Ok(job) =>
      var pre := Precheck(job, env.parquetExists, env.connectError, env.required, env.parquetCols);
      assert pre.Some? && pre.value.exitCode == 1;
      assert Attempt(job, env) == pre.value == Attempt(job, env2);
  }

  /** `main`: the checks before the connection, then the rest. */
  method RunStage(args: seq<string>, env: RowEnv) returns (out: RowRun)
    ensures out == RowSpec(args, env)
  {
    if |args| != 2 {
      return RowRun(2, None, None, None);
    }
    var phys := args[1];
    var bid := ExtractBatchId(phys);
    if bid.None? || env.batchInfo.None? {
      return RowRun(1, None, None, None);
    }
    var info := env.batchInfo.value;
    var found := FindFileEntry(info.files, phys);
    if found.None? || info.clientId == Null {
      return RowRun(1, None, None, None);
    }
    var e := info.files[found.value];
    var job := RowJob(args[0], phys, bid.value, info.clientId, Lower(TextOrEmpty(Get(e, "source_system"))),
                      Get(e, ParquetKey));
    assert PlanRow(args, env.batchInfo) == Ok(job);
    out := RunAttempt(job, env);
  }

  /** From the parquet-name check to the resolution of the required columns. */
  method RunAttempt(job: RowJob, env: RowEnv) returns (out: RowRun)
    ensures out == Attempt(job, env)
  {
    if !Truthy(job.parquetName) {
      return EarlyFailure(job, env.connectError, "parquet_name_missing");
    }
    if !env.parquetExists {
      return EarlyFailure(job, env.connectError, "parquet_missing:" + ParquetPath(job));
    }
    if env.connectError.Some? {
      return RowRun(1, None, None, None);
    }
    if env.required.Err? {
      return QueryFailure(job, env.required.error);
    }
    var required := env.required.value;
    if required == [] {
      return RowRun(1, Some(RowLog(Text(job.parquetName), None, NotFoundMessage, NotFoundMessage)), Some("FAILED"),
                    Some(Log(job, "FAILED", Some(NotFoundMessage), job.phys)));
    }
    if env.parquetCols.Err? {
      return RowRun(1, None, None, Some(Log(job, "FAILED", Some("parquet_schema_error:" + env.parquetCols.error), job.phys)));
    }
    var index := ParquetIndex(env.parquetCols.value);
    var byNorm, missing := ResolveRequired(required, Norm, index);
    assert missing == MissingColumns(required, index);
    if missing != [] {
      return MissingRun(job, missing);
    }
    out := RunChecks(job, env, required);
  }

  /** The `issues` list of `main`. */
  method CollectIssues(nullFound: bool, duplicateFound: bool) returns (issues: seq<string>)
    ensures issues == Issues(nullFound, duplicateFound)
  {
    issues := [];
    if nullFound {
      issues := issues + [NullIssue];
    }
    if duplicateFound {
      issues := issues + [DuplicateIssue];
    }
  }

  /** The null and duplicate checks and the issues they give. */
  method RunChecks(job: RowJob, env: RowEnv, required: seq<string>) returns (out: RowRun)
    ensures out == Checked(job, env, required)
  {
    if env.duckdbError.Some? {
      return RowRun(1, None, None, Some(Log(job, "FAILED", Some("error:" + env.duckdbError.value), Text(job.parquetName))));
    }
    var nulls := FindNulls(required, env.nullCounts);
    var issues := CollectIssues(nulls != {}, DuplicateFound(env.dupCount));
    if issues != [] {
      var detail := Join("; ", issues);
      var columns := Join(",", seq(|required|, i requires 0 <= i < |required| => Norm(required[i])));
      out := RowRun(1, Some(RowLog(Text(job.parquetName), Some(columns), FailedType, detail)), Some("FAILED"),
                    Some(Log(job, "FAILED", Some(detail), Text(job.parquetName))));
    } else {
      out := RowRun(0, None, Some("SUCCESS"), Some(Log(job, "SUCCESS", None, Text(job.parquetName))));
    }
  }
}
