// scripts/load_to_bronze.py: loads one converted parquet file into its bronze table. The
// script resolves each mapped source column against the parquet columns by normalised name,
// checks the target table has every target column plus `dwh_batch_id`, builds the SELECT
// list (casting id-like columns by the table's column type) and copies the rows in the
// order of the mapping's target columns. Databases, DuckDB and the file system are inputs
// and recorded effects here.
module LoadToBronze {
  import opened Optional
  import opened PyStrings
  import opened Json
  import opened BatchTokens
  import opened Manifest
  import opened StageCommon
  import opened FileStages

  const JobName := "Load To Bronze"
  /** The column every bronze table carries the batch identifier in. */
  const BatchColumn := "dwh_batch_id"

  // ---------------------------------------------------------------------------------------
  // Id-like columns

  /** `id` or one ASCII letter followed by `id`. */
  predicate ShortId(t: string) {
    t == "id" || (|t| == 3 && IsAsciiLower(t[0]) && t[1..] == "id")
  }

  /** `re.match(r"^[a-z]{0,1}id$", c)`: `$` also matches just before one final newline. */
  predicate ShortIdMatch(c: string) {
    ShortId(c) || (|c| > 0 && c[|c| - 1] == '\n' && ShortId(c[..|c| - 1]))
  }

  /**
   * `is_id_candidate`: the trimmed lower-case name is `id`, ends in `_id`, starts with
   * `id_`, or is one letter followed by `id`. The name is stripped before the regular
   * expression sees it, so the newline `$` would admit never occurs.
   */
  function IsIdCandidate(name: string): (r: bool)
    ensures name == "" ==> !r
    ensures r <==> var c := Strip(Lower(name));
                   c == "id" || EndsWith(c, "_id") || StartsWith(c, "id_") || ShortId(c)
  {
    if name == "" then false
    else
      var c := Strip(Lower(name));
      if c == "id" then true
      else if EndsWith(c, "_id") then true
      else if StartsWith(c, "id_") then true
      else ShortIdMatch(c)
  }

  lemma LowerOfUpper(s: string)
    ensures Lower(Upper(s)) == Lower(s)
  {
  }

  /** Whether a column is id-like does not depend on the case it is written in. */
  lemma IdCandidateIgnoresCase(name: string)
    ensures IsIdCandidate(Upper(name)) == IsIdCandidate(name)
  {
    LowerOfUpper(name);
  }

  /** A name without surrounding space is judged as it stands, up to case. */
  lemma IdCandidateOfTrimmed(name: string)
    requires |name| > 0 && !IsSpace(name[0]) && !IsSpace(name[|name| - 1])
    ensures Strip(Lower(name)) == Lower(name)
  {
    StripNoop(Lower(name));
  }

  lemma IdLikeExamples()
    ensures IsIdCandidate("customer_id") && IsIdCandidate("ID") && IsIdCandidate("id_card") && IsIdCandidate("pid")
  {
    CustomerIdLike();
    UpperIdLike();
    IdCardLike();
    PidLike();
  }

  lemma CustomerIdLike()
    ensures IsIdCandidate("customer_id")
  {
    IdCandidateOfTrimmed("customer_id");
  }

  lemma UpperIdLike()
    ensures IsIdCandidate("ID")
  {
    IdCandidateOfTrimmed("ID");
    assert Lower("ID") == "id";
  }

  lemma IdCardLike()
    ensures IsIdCandidate("id_card")
  {
    IdCandidateOfTrimmed("id_card");
  }

  lemma PidLike()
    ensures IsIdCandidate("pid")
  {
    IdCandidateOfTrimmed("pid");
    assert Lower("pid") == "pid";
  }

  lemma NotIdLikeExamples()
    ensures !IsIdCandidate("uuid") && !IsIdCandidate("identity") && !IsIdCandidate("paid")
  {
    UuidNotIdLike();
    IdentityNotIdLike();
    PaidNotIdLike();
  }

  lemma UuidNotIdLike()
    ensures !IsIdCandidate("uuid")
  {
    IdCandidateOfTrimmed("uuid");
    assert Lower("uuid") == "uuid";
    assert !EndsWith("uuid", "_id") by { assert "uuid"[1] == 'u'; }
  }

  lemma IdentityNotIdLike()
    ensures !IsIdCandidate("identity")
  {
    IdCandidateOfTrimmed("identity");
    assert Lower("identity") == "identity";
    assert !StartsWith("identity", "id_") by { assert "identity"[..3][2] == 'e'; }
  }

  lemma PaidNotIdLike()
    ensures !IsIdCandidate("paid")
  {
    IdCandidateOfTrimmed("paid");
    assert Lower("paid") == "paid";
    assert !EndsWith("paid", "_id") by { assert "paid"[1] == 'a'; }
  }

  // ---------------------------------------------------------------------------------------
  // SELECT list and COPY columns

  /** How a mapped column is read into the CSV: as is, or through a cast. */
  datatype Cast = AsIs | BigIntCast | NumericCast

  predicate TextType(t: string) { Contains(t, "char") || Contains(t, "text") }
  predicate IntType(t: string) { Contains(t, "int") }
  predicate DecimalType(t: string) { Contains(t, "numeric") || Contains(t, "decimal") }

  /**
   * The cast for target column `target` (already lower-cased) given the table's column
   * types: none for a column that is not id-like or whose type is text; NUMERIC for a
   * numeric or decimal type; BIGINT for an integer type and for any other or unknown type.
   */
  function CastFor(target: string, types: map<string, string>): (r: Cast)
    ensures r == AsIs <==> !IsIdCandidate(target) || (target in types && TextType(types[target]))
    ensures r == NumericCast <==>
              && IsIdCandidate(target) && target in types
              && !TextType(types[target]) && !IntType(types[target]) && DecimalType(types[target])
  {
    if IsIdCandidate(target) then
      var t := if target in types then Some(types[target]) else None;
      if t.Some? && t.value != "" && TextType(t.value) then AsIs
      else if t.Some? && t.value != "" && IntType(t.value) then BigIntCast
      else if t.Some? && t.value != "" && DecimalType(t.value) then NumericCast
      else BigIntCast
    else AsIs
  }

  /** One SELECT expression: the parquet column, cast or not, aliased to the target column. */
  function SelectExpr(actual: string, target: string, cast: Cast): (r: string)
    ensures EndsWith(r, " AS " + QuoteIdent(target))
  {
    var alias := " AS " + QuoteIdent(target);
    var value := match cast
      case AsIs => QuoteIdent(actual)
      case BigIntCast => "CAST(ROUND(CAST(" + QuoteIdent(actual) + " AS DOUBLE)) AS BIGINT)"
      case NumericCast => "CAST(" + QuoteIdent(actual) + " AS NUMERIC)";
    assert (value + alias)[|value|..] == alias;
    value + alias
  }

  /** The batch identifier as a string literal, aliased to `dwh_batch_id`. */
  function BatchExpr(batchId: string): (r: string)
    ensures EndsWith(r, " AS " + QuoteIdent(BatchColumn))
  {
    var lit := "'" + batchId + "'";
    var alias := " AS " + QuoteIdent(BatchColumn);
    assert (lit + alias)[|lit|..] == alias;
    lit + alias
  }

  /** A row of tools.column_mapping: source column, target column. */
  type Mapping = (string, string)

  function Sources(ms: seq<Mapping>): (r: seq<string>)
    ensures |r| == |ms| && forall i :: 0 <= i < |ms| ==> r[i] == ms[i].0
  {
    seq(|ms|, i requires 0 <= i < |ms| => ms[i].0)
  }

  function Targets(ms: seq<Mapping>): (r: seq<string>)
    ensures |r| == |ms| && forall i :: 0 <= i < |ms| ==> r[i] == ms[i].1
  {
    seq(|ms|, i requires 0 <= i < |ms| => ms[i].1)
  }

  /** `target_cols + ["dwh_batch_id"]`: the columns the table must have, and the COPY order. */
  function CopyColumns(ms: seq<Mapping>): seq<string> {
    Targets(ms) + [BatchColumn]
  }

  /** The expression for mapping `i`. */
  function MappedExpr(ms: seq<Mapping>, resolved: map<string, string>, types: map<string, string>, i: nat): string
    requires i < |ms| && ms[i].0 in resolved
  {
    SelectExpr(resolved[ms[i].0], ms[i].1, CastFor(Lower(ms[i].1), types))
  }

  /** The expression of each mapping by position (nothing past the last mapping). */
  function ExprOf(ms: seq<Mapping>, resolved: map<string, string>, types: map<string, string>): nat -> string {
    (i: nat) => if i < |ms| && ms[i].0 in resolved then MappedExpr(ms, resolved, types, i) else ""
  }

  /** The first `n` values of `f`, in order. */
  function Firsts(n: nat, f: nat -> string): (r: seq<string>)
    ensures |r| == n
  {
    if n == 0 then [] else Firsts(n - 1, f) + [f(n - 1)]
  }

  lemma {:induction false} FirstsAt(n: nat, f: nat -> string, k: nat)
    requires k < n
    ensures Firsts(n, f)[k] == f(k)
  {
    if k < n - 1 {
      FirstsAt(n - 1, f, k);
    }
  }

  /** `select_exprs`: one expression per mapping, then the batch literal. */
  function SelectList(ms: seq<Mapping>, resolved: map<string, string>, types: map<string, string>,
                      batchId: string): (r: seq<string>)
    requires forall i :: 0 <= i < |ms| ==> ms[i].0 in resolved
    ensures |r| == |ms| + 1
  {
    Firsts(|ms|, ExprOf(ms, resolved, types)) + [BatchExpr(batchId)]
  }

  /** The i-th SELECT expression produces the column COPY loads into the i-th position. */
  lemma SelectAt(ms: seq<Mapping>, resolved: map<string, string>, types: map<string, string>,
                 batchId: string, i: nat)
    requires forall i :: 0 <= i < |ms| ==> ms[i].0 in resolved
    requires i <= |ms|
    ensures EndsWith(SelectList(ms, resolved, types, batchId)[i], " AS " + QuoteIdent(CopyColumns(ms)[i]))
  {
    var sel := SelectList(ms, resolved, types, batchId);
    if i < |ms| {
      FirstsAt(|ms|, ExprOf(ms, resolved, types), i);
      assert sel[i] == MappedExpr(ms, resolved, types, i);
      assert CopyColumns(ms)[i] == ms[i].1;
    } else {
      assert sel[i] == BatchExpr(batchId);
      assert CopyColumns(ms)[i] == BatchColumn;
    }
  }

  /** The SELECT list and the COPY columns line up position by position. */
  lemma SelectMatchesCopyOrder(ms: seq<Mapping>, resolved: map<string, string>, types: map<string, string>,
                               batchId: string)
    requires forall i :: 0 <= i < |ms| ==> ms[i].0 in resolved
    ensures |SelectList(ms, resolved, types, batchId)| == |CopyColumns(ms)|
    ensures forall i :: 0 <= i < |CopyColumns(ms)| ==>
              EndsWith(SelectList(ms, resolved, types, batchId)[i], " AS " + QuoteIdent(CopyColumns(ms)[i]))
  {
    forall i | 0 <= i < |CopyColumns(ms)|
      ensures EndsWith(SelectList(ms, resolved, types, batchId)[i], " AS " + QuoteIdent(CopyColumns(ms)[i]))
    {
      SelectAt(ms, resolved, types, batchId, i);
    }
  }

  /** The SELECT loop of `main`: appends one expression per mapping, then the batch literal. */
  method BuildSelect(ms: seq<Mapping>, resolved: map<string, string>, types: map<string, string>,
                     batchId: string) returns (exprs: seq<string>)
    requires forall i :: 0 <= i < |ms| ==> ms[i].0 in resolved
    ensures exprs == SelectList(ms, resolved, types, batchId)
  {
    exprs := AppendEach(|ms|, ExprOf(ms, resolved, types));
    exprs := exprs + [BatchExpr(batchId)];
  }

  /** Appends `f(0)`, ..., `f(n - 1)` to an empty list, one per iteration. */
  method AppendEach(n: nat, f: nat -> string) returns (exprs: seq<string>)
    ensures exprs == Firsts(n, f)
  {
    exprs := [];
    for i := 0 to n
      invariant exprs == Firsts(i, f)
    {
      exprs := exprs + [f(i)];
    }
  }

  // ---------------------------------------------------------------------------------------
  // Resolving source columns

  /** `required_to_actual`: each source column present in the parquet file, mapped to the
    * parquet column it resolves to. */
  function Resolved(sources: seq<string>, index: map<string, string>): map<string, string> {
    Matched(sources, Norm, index)
  }

  /** The resolution loop of `main`, which fills `required_to_actual` and `missing_sources`;
    * `main` runs it with `key` the name normalisation, so that `missing` is
    * `MissingColumns(sources, index)` and `resolved` is `Resolved(sources, index)`. */
  method ResolveSources(sources: seq<string>, key: string -> string, index: map<string, string>)
    returns (resolved: map<string, string>, missing: seq<string>)
    ensures missing == Unmatched(sources, key, index.Keys)
    ensures resolved == Matched(sources, key, index)
  {
    resolved := map[];
    missing := [];
    assert sources[..0] == [];
    for i := 0 to |sources|
      invariant missing == Unmatched(sources[..i], key, index.Keys)
      invariant resolved == Matched(sources[..i], key, index)
    {
      assert sources[..i + 1] == sources[..i] + [sources[i]];
      resolved, missing := ResolveOne(sources[..i], sources[i], key, index, resolved, missing);
    }
    assert sources[..|sources|] == sources;
  }

  /** One turn of the resolution loop. */
  method ResolveOne(done: seq<string>, src: string, key: string -> string, index: map<string, string>,
                    resolved: map<string, string>, missing: seq<string>)
    returns (resolved': map<string, string>, missing': seq<string>)
    requires missing == Unmatched(done, key, index.Keys) && resolved == Matched(done, key, index)
    ensures missing' == Unmatched(done + [src], key, index.Keys)
    ensures resolved' == Matched(done + [src], key, index)
  {
    var k := key(src);
    UnmatchedSnoc(done, key, index.Keys, src);
    MatchedSnoc(done, key, index, src);
    if k !in index {
      resolved', missing' := resolved, missing + [src];
    } else {
      resolved', missing' := resolved[src := index[k]], missing;
    }
  }

  /** A source column resolves exactly when it is not reported missing, and then to the last
    * parquet column with the same normalised name. */
  lemma ResolvedToLastProducer(sources: seq<string>, cols: seq<string>, s: string)
    ensures s in Resolved(sources, ParquetIndex(cols)) <==> s in sources && s !in MissingColumns(sources, ParquetIndex(cols))
    ensures s in Resolved(sources, ParquetIndex(cols)) ==>
              exists j :: 0 <= j < |cols| && Norm(cols[j]) == Norm(s) && Resolved(sources, ParquetIndex(cols))[s] == cols[j]
                          && forall j' :: j < j' < |cols| ==> Norm(cols[j']) != Norm(s)
  {
    ParquetIndexLastWins(cols, Norm(s));
    UnmatchedMembers(sources, Norm, ParquetIndex(cols).Keys, s);
    MatchedHas(sources, Norm, ParquetIndex(cols), s);
  }

  /** With nothing missing, every source column resolves. */
  lemma NothingMissingResolvesAll(sources: seq<string>, index: map<string, string>)
    requires MissingColumns(sources, index) == []
    ensures forall i :: 0 <= i < |sources| ==> sources[i] in Resolved(sources, index)
  {
    forall i | 0 <= i < |sources| ensures sources[i] in Resolved(sources, index) {
      UnmatchedMembers(sources, Norm, index.Keys, sources[i]);
      MatchedHas(sources, Norm, index, sources[i]);
    }
  }

  // ---------------------------------------------------------------------------------------
  // The target table

  /** A row of information_schema.columns: name, data type. */
  type TableColumn = (string, string)

  /** `col_types`: lower-case column name to lower-case type; a later row wins. */
  function ColumnTypes(rows: seq<TableColumn>): map<string, string> {
    if rows == [] then map[]
    else ColumnTypes(rows[..|rows| - 1])[Lower(rows[|rows| - 1].0) := Lower(rows[|rows| - 1].1)]
  }

  /** `existing`: the lower-case column names of the table. */
  function ExistingColumns(rows: seq<TableColumn>): set<string> {
    set i | 0 <= i < |rows| :: Lower(rows[i].0)
  }

  /** The types map has a type for exactly the existing columns. */
  lemma {:induction false} ColumnTypesKeys(rows: seq<TableColumn>)
    ensures ColumnTypes(rows).Keys == ExistingColumns(rows)
  {
    if rows != [] {
      var init := rows[..|rows| - 1];
      ColumnTypesKeys(init);
      assert ExistingColumns(rows) == ExistingColumns(init) + {Lower(rows[|rows| - 1].0)} by {
        forall x | x in ExistingColumns(rows) ensures x in ExistingColumns(init) + {Lower(rows[|rows| - 1].0)} {
          var i :| 0 <= i < |rows| && x == Lower(rows[i].0);
          if i < |init| {
            assert rows[i] == init[i];
          }
        }
        forall x | x in ExistingColumns(init) ensures x in ExistingColumns(rows) {
          var i :| 0 <= i < |init| && x == Lower(init[i].0);
          assert rows[i] == init[i];
        }
      }
    }
  }

  /** `missing` of validate_target_table_columns: the required columns, in order, whose
    * lower-case name the table lacks. */
  function MissingTargets(required: seq<string>, rows: seq<TableColumn>): seq<string> {
    Unmatched(required, Lower, ExistingColumns(rows))
  }

  /** A required column is missing iff no table column has its name up to case. */
  lemma MissingTargetIff(required: seq<string>, rows: seq<TableColumn>, x: string)
    ensures x in MissingTargets(required, rows) <==>
              x in required && forall i :: 0 <= i < |rows| ==> Lower(rows[i].0) != Lower(x)
  {
    UnmatchedMembers(required, Lower, ExistingColumns(rows), x);
    if x in required && Lower(x) in ExistingColumns(rows) {
      var i :| 0 <= i < |rows| && Lower(rows[i].0) == Lower(x);
    }
  }

  // ---------------------------------------------------------------------------------------
  // One run

  /** What the script learns before it connects, from its arguments and the batch file. */
  datatype LoadJob = LoadJob(schema: string, phys: string, batchId: string, clientId: Value,
                             logical: Value, system: string, stype: string, parquetName: string,
                             targetSchema: string, targetTable: string)

  /** What a run meets: the batch file at `BatchInfoPath` (None when there is none), whether
    * the parquet file exists, and what the connection, the mapping query, the parquet
    * schema, the table's columns, DuckDB and the export/COPY step give. */
  datatype LoadEnv = LoadEnv(batchInfo: Option<BatchInfo>, parquetExists: bool,
                             connectError: Option<string>, mappings: seq<Mapping>,
                             parquetCols: Result<seq<string>, string>, tableCols: seq<TableColumn>,
                             duckdbError: Option<string>, loadError: Option<string>, totalRows: nat)

  /** An update of the file's row in tools.file_audit_log. */
  datatype Audit = Audit(loadStatus: string, totalRows: Option<nat>)

  /** The statements the load runs: the SELECT list of the CSV export and the COPY columns. */
  datatype CopyPlan = CopyPlan(selectExprs: seq<string>, columns: seq<string>)

  /** What a run reports and does: the exit code, the tools.load_error_log detail, the audit
    * update, the job log, where the parquet file is moved, and the load it performs. */
  datatype LoadRun = LoadRun(exitCode: int, errorLog: Option<string>, audit: Option<Audit>,
                             jobLog: Option<JobLog>, movedTo: Option<string>, copy: Option<CopyPlan>)

  /** `os.path.join("data", schema, source_system, folder)` */
  function DataFolder(job: LoadJob, folder: string): string {
    PathJoin(PathJoin(PathJoin("data", job.schema), job.system), folder)
  }

  function ParquetPath(job: LoadJob): string {
    PathJoin(DataFolder(job, "incoming"), job.parquetName)
  }

  /** Where the parquet file goes: `data/<schema>/<system>/<folder>/<its base name>`. */
  function MovedPath(job: LoadJob, folder: string): string {
    PathJoin(DataFolder(job, folder), Basename(ParquetPath(job)))
  }

  /** The checks before the connection: argument count (exit 2), batch identifier in the
    * file name, batch file, entry for the file, parquet name and target table in the entry,
    * parquet file present (exit 1, nothing logged). `args` follow the script name. */
  function PlanLoad(args: seq<string>, info: Option<BatchInfo>, parquetExists: bool): (r: Result<LoadJob, int>)
    ensures r.Err? ==> r.error == 1 || r.error == 2
    ensures r == Err(2) <==> |args| != 2
    ensures r.Ok? ==> |args| == 2 && ExtractBatchId(args[1]) == Some(r.value.batchId)
                      && r.value.schema == args[0] && r.value.phys == args[1]
  {
    if |args| != 2 then Err(2)
    else
      match ExtractBatchId(args[1])
      case None => Err(1)
      case Some(bid) =>
        if info.None? then Err(1)
        else
          match FirstNamed(info.value.files, args[1], 0)
          case None => Err(1)
          case Some(i) =>
            var e := info.value.files[i];
            var pn := Get(e, ParquetKey);
            var ts := Get(e, "target_schema");
            var tt := Get(e, "target_table");
            if !Truthy(pn) || !Truthy(ts) || !Truthy(tt) then Err(1)
            else
              var job := LoadJob(args[0], args[1], bid, info.value.clientId, Get(e, "logical_source_file"),
                                 Lower(TextOrEmpty(Get(e, "source_system"))),
                                 Lower(TextOrEmpty(Get(e, "source_type"))), Text(pn), Text(ts), Text(tt));
              if !parquetExists then Err(1) else Ok(job)
  }

  function Quiet(code: int): LoadRun {
    LoadRun(code, None, None, None, None, None)
  }

  function Log(job: LoadJob, status: string, message: Option<string>): JobLog {
    JobLog(JobName, job.clientId, status, message, job.parquetName, Str(job.batchId))
  }

  /** A check inside the connection fails: error log, FAILED audit and job log, exit 1; the
    * parquet file stays where it is. */
  function Rejected(job: LoadJob, msg: string): LoadRun {
    LoadRun(1, Some(msg), Some(Audit("FAILED", None)), Some(Log(job, "FAILED", Some(msg))), None, None)
  }

  /** The exception handler: best-effort logging when connected, and the parquet file moved
    * to the failed folder. */
  function Unhandled(job: LoadJob, connected: bool, err: string): LoadRun {
    var msg := "Unhandled error in load_to_bronze: " + err;
    if connected then
      LoadRun(1, Some(msg), Some(Audit("FAILED", None)), Some(Log(job, "FAILED", Some(msg))),
              Some(MovedPath(job, "failed")), None)
    else LoadRun(1, None, None, None, Some(MovedPath(job, "failed")), None)
  }

  /** Everything after the connection is opened. */
  function Attempt(job: LoadJob, env: LoadEnv): LoadRun {
    if env.connectError.Some? then Unhandled(job, false, env.connectError.value)
    else if env.mappings == [] then Rejected(job, "Column mapping not found for this file")
    else if env.parquetCols.Err? then Rejected(job, "Failed to read parquet schema: " + env.parquetCols.error)
    else
      var index := ParquetIndex(env.parquetCols.value);
      var sources := Sources(env.mappings);
      var missing := MissingColumns(sources, index);
      if missing != [] then
        Rejected(job, "Source columns from mapping missing in parquet: " + Join(",", missing))
      else
        var missingTargets := MissingTargets(CopyColumns(env.mappings), env.tableCols);
        if missingTargets != [] then Rejected(job, "Target table missing columns: " + Join(",", missingTargets))
        else if env.duckdbError.Some? then Rejected(job, "Failed to start DuckDB: " + env.duckdbError.value)
        else if env.loadError.Some? then Unhandled(job, true, env.loadError.value)
        else
          NothingMissingResolvesAll(sources, index);
          var resolved := Resolved(sources, index);
          var plan := CopyPlan(SelectList(env.mappings, resolved, ColumnTypes(env.tableCols), job.batchId),
                               CopyColumns(env.mappings));
          LoadRun(0, None, Some(Audit("SUCCESS", Some(env.totalRows))), Some(Log(job, "SUCCESS", None)),
                  Some(MovedPath(job, "archive")), Some(plan))
  }

  /** `main` */
  function LoadSpec(args: seq<string>, env: LoadEnv): LoadRun {
    match PlanLoad(args, env.batchInfo, env.parquetExists)
    case Err(code) => Quiet(code)
    case Ok(job) => Attempt(job, env)
  }

  /** The run gets as far as the load exactly when every check passes. */
  predicate Checks(job: LoadJob, env: LoadEnv) {
    && env.connectError.None? && env.mappings != [] && env.parquetCols.Ok?
    && (forall s :: s in Sources(env.mappings) ==>
          exists j :: 0 <= j < |env.parquetCols.value| && Norm(env.parquetCols.value[j]) == Norm(s))
    && (forall c :: c in CopyColumns(env.mappings) ==>
          exists i :: 0 <= i < |env.tableCols| && Lower(env.tableCols[i].0) == Lower(c))
    && env.duckdbError.None?
  }

  lemma ChecksIff(job: LoadJob, env: LoadEnv)
    requires env.connectError.None? && env.mappings != [] && env.parquetCols.Ok? && env.duckdbError.None?
    ensures Checks(job, env) <==>
              && MissingColumns(Sources(env.mappings), ParquetIndex(env.parquetCols.value)) == []
              && MissingTargets(CopyColumns(env.mappings), env.tableCols) == []
  {
    var cols := env.parquetCols.value;
    var sources := Sources(env.mappings);
    var required := CopyColumns(env.mappings);
    var missing := MissingColumns(sources, ParquetIndex(cols));
    var missingTargets := MissingTargets(required, env.tableCols);
    if missing != [] {
      MissingIffAbsent(sources, cols, missing[0]);
    } else {
      forall s | s in sources
        ensures exists j :: 0 <= j < |cols| && Norm(cols[j]) == Norm(s)
      {
        MissingIffAbsent(sources, cols, s);
      }
    }
    if missingTargets != [] {
      MissingTargetIff(required, env.tableCols, missingTargets[0]);
    } else {
      forall c | c in required
        ensures exists i :: 0 <= i < |env.tableCols| && Lower(env.tableCols[i].0) == Lower(c)
      {
        MissingTargetIff(required, env.tableCols, c);
      }
    }
  }

  /** Exit 2 only for a wrong argument count; exit 0 exactly when the checks pass and the
    * load raises nothing. */
  lemma LoadExitCodes(args: seq<string>, env: LoadEnv)
    ensures var out := LoadSpec(args, env);
            var plan := PlanLoad(args, env.batchInfo, env.parquetExists);
            && (out.exitCode == 2 <==> |args| != 2)
            && (out.exitCode == 0 <==> plan.Ok? && Checks(plan.value, env) && env.loadError.None?)
  {
    var plan := PlanLoad(args, env.batchInfo, env.parquetExists);
    if plan.Ok? && env.connectError.None? && env.mappings != [] && env.parquetCols.Ok? {
      if env.duckdbError.None? {
        ChecksIff(plan.value, env);
      }
    }
  }

  /** On exit 0 the audit row gets SUCCESS with the row count, the job log SUCCESS, the file
    * goes to the archive folder and the i-th SELECT expression feeds the i-th COPY column
    * (the targets, then `dwh_batch_id`). */
  lemma LoadSucceeds(args: seq<string>, env: LoadEnv)
    requires LoadSpec(args, env).exitCode == 0
    ensures var out := LoadSpec(args, env);
            var plan := PlanLoad(args, env.batchInfo, env.parquetExists);
            && plan.Ok?
            && out.audit == Some(Audit("SUCCESS", Some(env.totalRows)))
            && out.jobLog == Some(Log(plan.value, "SUCCESS", None))
            && out.movedTo == Some(MovedPath(plan.value, "archive"))
            && out.copy.Some?
            && out.copy.value.columns == Targets(env.mappings) + [BatchColumn]
            && |out.copy.value.selectExprs| == |out.copy.value.columns|
            && (forall i :: 0 <= i < |out.copy.value.columns| ==>
                  EndsWith(out.copy.value.selectExprs[i], " AS " + QuoteIdent(out.copy.value.columns[i])))
  {
    var job := PlanLoad(args, env.batchInfo, env.parquetExists).value;
    assert LoadSpec(args, env) == Attempt(job, env);
    AttemptSucceeds(job, env);
  }

  lemma AttemptSucceeds(job: LoadJob, env: LoadEnv)
    requires Attempt(job, env).exitCode == 0
    ensures var out := Attempt(job, env);
            && out.audit == Some(Audit("SUCCESS", Some(env.totalRows)))
            && out.jobLog == Some(Log(job, "SUCCESS", None))
            && out.movedTo == Some(MovedPath(job, "archive"))
            && out.copy.Some?
            && out.copy.value.columns == Targets(env.mappings) + [BatchColumn]
            && |out.copy.value.selectExprs| == |out.copy.value.columns|
            && (forall i :: 0 <= i < |out.copy.value.columns| ==>
                  EndsWith(out.copy.value.selectExprs[i], " AS " + QuoteIdent(out.copy.value.columns[i])))
  {
    assert env.connectError.None? && env.mappings != [] && env.parquetCols.Ok?;
    var index := ParquetIndex(env.parquetCols.value);
    var sources := Sources(env.mappings);
    assert MissingColumns(sources, index) == [];
    assert MissingTargets(CopyColumns(env.mappings), env.tableCols) == [];
    assert env.duckdbError.None? && env.loadError.None?;
    NothingMissingResolvesAll(sources, index);
    var resolved := Resolved(sources, index);
    var types := ColumnTypes(env.tableCols);
    var plan := CopyPlan(SelectList(env.mappings, resolved, types, job.batchId), CopyColumns(env.mappings));
    assert Attempt(job, env) == LoadRun(0, None, Some(Audit("SUCCESS", Some(env.totalRows))),
                                        Some(Log(job, "SUCCESS", None)), Some(MovedPath(job, "archive")), Some(plan));
    SelectMatchesCopyOrder(env.mappings, resolved, types, job.batchId);
  }

  /** Every logged failure carries the same text in the error log and the job log; the file
    * leaves the incoming folder on failure only when an exception escapes to the handler. */
  lemma LoadFailures(args: seq<string>, env: LoadEnv)
    ensures var out := LoadSpec(args, env);
            var plan := PlanLoad(args, env.batchInfo, env.parquetExists);
            && (out.errorLog.Some? ==>
                  out.exitCode == 1 && out.audit == Some(Audit("FAILED", None))
                  && out.jobLog.Some? && out.jobLog.value.status == "FAILED" && out.jobLog.value.message == out.errorLog)
            && (out.exitCode != 0 && out.movedTo.Some? ==>
                  plan.Ok? && out.movedTo == Some(MovedPath(plan.value, "failed"))
                  && (env.connectError.Some? || (Checks(plan.value, env) && env.loadError.Some?)))
  {
    var plan := PlanLoad(args, env.batchInfo, env.parquetExists);
    if plan.Ok? && env.connectError.None? && env.mappings != [] && env.parquetCols.Ok? && env.duckdbError.None? {
      ChecksIff(plan.value, env);
    }
  }

  /** `main`, with the searches and the two column loops it runs. */
  method RunStage(args: seq<string>, env: LoadEnv) returns (out: LoadRun)
    ensures out == LoadSpec(args, env)
  {
    if |args| != 2 {
      return Quiet(2);
    }
    var phys := args[1];
    var bid := ExtractBatchId(phys);
    if bid.None? || env.batchInfo.None? {
      return Quiet(1);
    }
    var info := env.batchInfo.value;
    var found := FindFileEntry(info.files, phys);
    if found.None? {
      return Quiet(1);
    }
    var e := info.files[found.value];
    var pn := Get(e, ParquetKey);
    var ts := Get(e, "target_schema");
    var tt := Get(e, "target_table");
    if !Truthy(pn) || !Truthy(ts) || !Truthy(tt) || !env.parquetExists {
      return Quiet(1);
    }
    var job := LoadJob(args[0], phys, bid.value, info.clientId, Get(e, "logical_source_file"),
                       Lower(TextOrEmpty(Get(e, "source_system"))), Lower(TextOrEmpty(Get(e, "source_type"))),
                       Text(pn), Text(ts), Text(tt));
    assert PlanLoad(args, env.batchInfo, env.parquetExists) == Ok(job);
    if env.connectError.Some? {
      return Unhandled(job, false, env.connectError.value);
    }
    if env.mappings == [] {
      return Rejected(job, "Column mapping not found for this file");
    }
    if env.parquetCols.Err? {
      return Rejected(job, "Failed to read parquet schema: " + env.parquetCols.error);
    }
    var sources := Sources(env.mappings);
    var index := ParquetIndex(env.parquetCols.value);
    var resolved, missing := ResolveSources(sources, Norm, index);
    assert missing == MissingColumns(sources, index) && resolved == Resolved(sources, index);
    if missing != [] {
      return Rejected(job, "Source columns from mapping missing in parquet: " + Join(",", missing));
    }
    var required := CopyColumns(env.mappings);
    var missingTargets := MissingTargets(required, env.tableCols);
    if missingTargets != [] {
      return Rejected(job, "Target table missing columns: " + Join(",", missingTargets));
    }
    if env.duckdbError.Some? {
      return Rejected(job, "Failed to start DuckDB: " + env.duckdbError.value);
    }
    NothingMissingResolvesAll(sources, index);
    var selectExprs := BuildSelect(env.mappings, resolved, ColumnTypes(env.tableCols), job.batchId);
    if env.loadError.Some? {
      return Unhandled(job, true, env.loadError.value);
    }
    out := LoadRun(0, None, Some(Audit("SUCCESS", Some(env.totalRows))), Some(Log(job, "SUCCESS", None)),
                   Some(MovedPath(job, "archive")), Some(CopyPlan(selectExprs, required)));
  }
}
