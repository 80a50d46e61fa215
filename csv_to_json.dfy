// handlers/csv_to_json.py: turns one raw CSV file of a client into a JSON list of records.
// The client schema name must be a lower-case word; the batch identifier comes from the file
// name; the file must start with one of the client's active logical source names. Each record
// gets its row number, the source file, the logical source and the batch identifier. A file
// that does not match, or whose conversion fails, is moved to the client's failed folder; an
// existing JSON file is never overwritten. The database answers and the CSV contents are inputs.
module CsvToJson {
  import opened Optional
  import opened PyStrings
  import opened Json
  import opened BatchTokens
  import opened StageCommon

  const JobName := "csv_to_json.py"
  const ProcessedBy := "autoloader"
  const NotMatchedPrefix := "logical_source_file not found: "
  /** What pandas raises when the CSV already has a `csv_row_number` column. */
  const DuplicateRowNumber := "cannot insert csv_row_number, already exists"

  // ---------------------------------------------------------------------------------------
  // The client schema name

  /** One character of the class `[a-z0-9_]`. */
  predicate WordChar(c: char) { 'a' <= c <= 'z' || '0' <= c <= '9' || c == '_' }

  predicate Word(t: string) { |t| > 0 && forall i :: 0 <= i < |t| ==> WordChar(t[i]) }

  /**
   * `validate_client_name`: `re.match(r"^[a-z0-9_]+$", client)`. Python's `$` also matches
   * just before a newline that ends the string, so one trailing newline is admitted.
   */
  function ValidClientName(s: string): (r: bool)
    ensures r ==> |s| > 0 && forall i :: 0 <= i < |s| - 1 ==> WordChar(s[i])
    ensures r ==> WordChar(s[|s| - 1]) || s[|s| - 1] == '\n'
  {
    if |s| > 0 && s[|s| - 1] == '\n' then Word(s[..|s| - 1]) else Word(s)
  }

  /** Exactly the words of `[a-z0-9_]`, each with or without one trailing newline, pass. */
  lemma ClientNameForms(t: string)
    ensures Word(t) ==> ValidClientName(t)
    ensures ValidClientName(t + "\n") <==> Word(t)
    ensures !ValidClientName(t + "\n\n")
  {
    if Word(t) {
      assert !WordChar('\n');
    }
    assert (t + "\n")[..|t|] == t;
    assert (t + "\n\n")[..|t| + 1] == t + "\n";
    assert !WordChar((t + "\n")[|t|]);
  }

  /** A name that passes is already lower-case, so `client_schema.lower()` keeps it, and it
    * holds neither a path separator nor a dot, so the folders stay under `raw/` and `data/`. */
  lemma ValidClientNameIsPlain(s: string)
    requires ValidClientName(s)
    ensures Lower(s) == s
    ensures forall i :: 0 <= i < |s| ==> s[i] != '/' && s[i] != '.'
  {
  }

  // ---------------------------------------------------------------------------------------
  // The logical source of a file

  /** The set `get_logical_source_files` returns: every active configured name, lower-cased. */
  function LogicalSources(configured: seq<string>): (r: set<string>)
    ensures forall x :: x in r ==> Lower(x) == x
  {
    set x | x in configured :: Lower(x)
  }

  /**
   * `next((ls for ls in logical_sources if base_name.startswith(ls.lower())), None)`, with
   * `sources` the set in its iteration order: the first source whose lower-cased form starts
   * the base name.
   */
  function MatchLogical(sources: seq<string>, base: string): (r: Option<string>)
    ensures r.Some? ==> r.value in sources && StartsWith(base, Lower(r.value))
    ensures r.None? <==> forall k :: 0 <= k < |sources| ==> !StartsWith(base, Lower(sources[k]))
  {
    if sources == [] then None
    else if StartsWith(base, Lower(sources[0])) then Some(sources[0])
    else MatchLogical(sources[1..], base)
  }

  /** The match is the first source in iteration order that starts the name. */
  lemma {:induction false} MatchIsFirst(sources: seq<string>, base: string)
    ensures var r := MatchLogical(sources, base);
            r.Some? ==> exists k :: 0 <= k < |sources| && sources[k] == r.value
                                    && forall j :: 0 <= j < k ==> !StartsWith(base, Lower(sources[j]))
  {
    if sources != [] && !StartsWith(base, Lower(sources[0])) {
      var rest := MatchLogical(sources[1..], base);
      MatchIsFirst(sources[1..], base);
      if rest.Some? {
        var k :| 0 <= k < |sources[1..]| && sources[1..][k] == rest.value
                 && forall j :: 0 <= j < k ==> !StartsWith(base, Lower(sources[1..][j]));
        assert sources[k + 1] == rest.value;
        assert forall j :: 0 <= j < k + 1 ==> !StartsWith(base, Lower(sources[j])) by {
          forall j | 0 <= j < k + 1 ensures !StartsWith(base, Lower(sources[j])) {
            if j > 0 {
              assert sources[j] == sources[1..][j - 1];
            }
          }
        }
      }
    } else if sources != [] {
      assert sources[0] == MatchLogical(sources, base).value;
    }
  }

  /** Drawn from the lower-cased set, a match is itself a prefix of the lower-cased base name. */
  lemma MatchIsPrefix(configured: seq<string>, sources: seq<string>, fileName: string)
    requires forall k :: 0 <= k < |sources| ==> sources[k] in LogicalSources(configured)
    ensures var base := Lower(SplitExt(fileName).0);
            var m := MatchLogical(sources, base);
            m.Some? ==> StartsWith(base, m.value) && m.value in LogicalSources(configured)
  {
  }

  /** The iteration order decides between two sources that both start the name: the shorter
    * one wins when it comes first, the longer one otherwise. */
  lemma MatchDependsOnOrder()
    ensures MatchLogical(["cust", "cust_info"], "cust_info_batch000001") == Some("cust")
    ensures MatchLogical(["cust_info", "cust"], "cust_info_batch000001") == Some("cust_info")
  {
    assert Lower("cust") == "cust";
    assert Lower("cust_info") == "cust_info";
    assert "cust_info_batch000001"[..4] == "cust";
    assert "cust_info_batch000001"[..9] == "cust_info";
  }

  /** `if not matched_logical_file`: no match, or a match on an empty configured name, which
    * Python reads as false. */
  predicate Unmatched(m: Option<string>) { m.None? || m.value == "" }

  // ---------------------------------------------------------------------------------------
  // The JSON file name

  /** `file_name.replace(".csv", ".json")`: every occurrence, not only the extension. */
  function JsonName(fileName: string): string {
    Replace(fileName, ".csv", ".json")
  }

  /** A name ending in `.csv` that holds no other `.csv` becomes the same stem with `.json`. */
  lemma {:induction false} JsonNameOfCsv(stem: string)
    requires !Contains(stem, ".csv")
    ensures JsonName(stem + ".csv") == stem + ".json"
    decreases |stem|
  {
    var s := stem + ".csv";
    if stem == [] {
      assert s[..4] == ".csv";
      assert s[4..] == [];
      assert Replace([], ".csv", ".json") == [];
    } else {
      CsvNotAtFront(stem);
      if Contains(stem[1..], ".csv") {
        var i :| 0 <= i <= |stem[1..]| && OccursAt(stem[1..], ".csv", i);
        assert stem[i + 1..i + 5] == stem[1..][i..i + 4];
        assert OccursAt(stem, ".csv", i + 1);
      }
      JsonNameOfCsv(stem[1..]);
      assert s[1..] == stem[1..] + ".csv";
      assert [stem[0]] + (stem[1..] + ".json") == stem + ".json";
    }
  }

  /** Before the last four characters of `stem + ".csv"`, `.csv` cannot start: `.` occurs in
    * `.csv` only at its head. */
  lemma CsvNotAtFront(stem: string)
    requires stem != [] && !Contains(stem, ".csv")
    ensures (stem + ".csv")[..4] != ".csv"
  {
    var s := stem + ".csv";
    if |stem| >= 4 {
      assert s[..4] == stem[..4];
      assert !OccursAt(stem, ".csv", 0);
    } else {
      assert s[|stem|] == '.';
      assert ".csv"[|stem|] != '.';
    }
  }

  /** A name without `.csv` keeps its name, so the JSON file would overwrite nothing but
    * itself. */
  lemma JsonNameWithoutCsv(fileName: string)
    requires !Contains(fileName, ".csv")
    ensures JsonName(fileName) == fileName
  {
    ReplaceAbsent(fileName, ".csv", ".json");
  }

  // ---------------------------------------------------------------------------------------
  // The records

  /** `pd.read_csv(file_path, dtype=str).fillna("")`: the header and, per row, the text of
    * each column (a missing value is the empty string). */
  datatype Table = Table(columns: seq<string>, rows: seq<map<string, string>>)

  type Record = map<string, Value>

  /** One row as a record: its columns, then `csv_row_number`, `source_file`,
    * `logical_source_file` and `batch_id`; the last three replace columns of those names. */
  function ToRecord(row: map<string, string>, number: int, fileName: string, logical: string,
                    batchId: string): Record
  {
    (map k | k in row :: Str(row[k]))["csv_row_number" := Int(number)]["source_file" := Str(fileName)]
      ["logical_source_file" := Str(logical)]["batch_id" := Str(batchId)]
  }

  /** `df.to_dict(orient="records")` after the four columns are added. */
  function Records(t: Table, fileName: string, logical: string, batchId: string): seq<Record> {
    seq(|t.rows|, i requires 0 <= i < |t.rows| => ToRecord(t.rows[i], i + 1, fileName, logical, batchId))
  }

  predicate Added(k: string) {
    k == "csv_row_number" || k == "source_file" || k == "logical_source_file" || k == "batch_id"
  }

  /** One record per row, numbered 1, 2, 3, ..., every one naming the file, its logical
    * source and its batch. */
  lemma RecordsNumbered(t: Table, fileName: string, logical: string, batchId: string)
    ensures var rs := Records(t, fileName, logical, batchId);
            |rs| == |t.rows|
            && forall i :: 0 <= i < |rs| ==>
                 rs[i]["csv_row_number"] == Int(i + 1) && rs[i]["source_file"] == Str(fileName)
                 && rs[i]["logical_source_file"] == Str(logical) && rs[i]["batch_id"] == Str(batchId)
  {
  }

  /** Every other column keeps its text, and no record has a column the row did not have
    * besides the four added ones. */
  lemma RecordsKeepColumns(t: Table, fileName: string, logical: string, batchId: string)
    ensures var rs := Records(t, fileName, logical, batchId);
            forall i, k :: 0 <= i < |rs| && k in t.rows[i] && !Added(k) ==> k in rs[i] && rs[i][k] == Str(t.rows[i][k])
    ensures var rs := Records(t, fileName, logical, batchId);
            forall i, k :: 0 <= i < |rs| && k in rs[i] ==> k in t.rows[i] || Added(k)
  {
  }

  // ---------------------------------------------------------------------------------------
  // One run

  /** A row of tools.file_audit_log (times left out). */
  datatype FileAudit = FileAudit(clientId: Value, logical: string, physical: string, jsonName: string,
                                 totalRows: nat, status: string, processedBy: string, batchId: string)

  /** A file moved by `shutil.move`. */
  datatype Move = Move(from: string, to: string)

  /** What a run does: the exit code, the JSON records written, the audit row, the job log
    * and the move to the failed folder. */
  datatype CsvRun = CsvRun(exitCode: int, written: Option<seq<Record>>, audit: Option<FileAudit>,
                           jobLog: Option<JobLog>, moved: Option<Move>)

  /** What a run meets: whether the raw file exists, the connection, the client id
    * (None when the schema is not in tools.client_reference), the logical sources in set
    * iteration order, the CSV (or the read error), and whether the JSON file already exists. */
  datatype CsvEnv = CsvEnv(inputExists: bool, connectError: Option<string>, clientId: Option<Value>,
                           sources: seq<string>, csv: Result<Table, string>, outputExists: bool)

  /** A run that prints and returns without touching anything. */
  const Quiet := CsvRun(0, None, None, None, None)

  function Folder(schema: string, root: string, sub: string): string {
    PathJoin(PathJoin(root, schema), sub)
  }

  /** What the checks before the logical-source match establish. */
  datatype CsvJob = CsvJob(schema: string, fileName: string, batchId: string, clientId: Value)

  /** The client name, the raw file, the batch identifier (a missing one raises out of the
    * script), the connection and the client id, in the order the script checks them. */
  function Start(schema: string, fileName: string, env: CsvEnv): Result<CsvJob, CsvRun> {
    if !ValidClientName(schema) || !env.inputExists then Err(Quiet)
    else match ExtractBatchId(fileName)
      case None => Err(CsvRun(1, None, None, None, None))
      case Some(batchId) =>
        if env.connectError.Some? || env.clientId.None? then Err(Quiet)
        else Ok(CsvJob(Lower(schema), fileName, batchId, env.clientId.value))
  }

  function ToFailed(job: CsvJob): Move {
    Move(PathJoin(Folder(job.schema, "raw", "incoming"), job.fileName),
         PathJoin(Folder(job.schema, "raw", "failed"), job.fileName))
  }

  function BaseName(fileName: string): string { Lower(SplitExt(fileName).0) }

  /** Why the conversion raised, if it did: the CSV could not be read, or it already has a
    * `csv_row_number` column. */
  function ReadFailure(csv: Result<Table, string>): Option<string> {
    if csv.Err? then Some(csv.error)
    else if "csv_row_number" in csv.value.columns then Some(DuplicateRowNumber)
    else None
  }

  /** The match, the conversion and its logs. */
  function Convert(job: CsvJob, env: CsvEnv): CsvRun {
    var base := BaseName(job.fileName);
    var m := MatchLogical(env.sources, base);
    var log := (status: string, message: Option<string>) => JobLog(JobName, job.clientId, status, message, job.fileName, Str(job.batchId));
    if Unmatched(m) then
      CsvRun(0, None, None, Some(log("FAILED", Some(NotMatchedPrefix + base))), Some(ToFailed(job)))
    else
      var audit := (rows: nat, status: string) =>
        FileAudit(job.clientId, m.value, job.fileName, JsonName(job.fileName), rows, status, ProcessedBy, job.batchId);
      var failure := ReadFailure(env.csv);
      if failure.Some? then
        CsvRun(0, None, Some(audit(0, "FAILED")), Some(log("FAILED", failure)), Some(ToFailed(job)))
      else if env.outputExists then Quiet
      else
        CsvRun(0, Some(Records(env.csv.value, job.fileName, m.value, job.batchId)),
               Some(audit(|env.csv.value.rows|, "SUCCESS")), Some(log("SUCCESS", None)), None)
  }

  /** `convert_csv_to_json(client_schema, file_name)` */
  function ConvertCsvToJson(schema: string, fileName: string, env: CsvEnv): CsvRun {
    match Start(schema, fileName, env)
    case Err(run) => run
    case Ok(job) => Convert(job, env)
  }

  /** The script's `__main__`: argparse exits 2 unless exactly two arguments are given. */
  function CsvSpec(args: seq<string>, env: CsvEnv): CsvRun {
    if |args| != 2 then CsvRun(2, None, None, None, None) else ConvertCsvToJson(args[0], args[1], env)
  }

  // ---------------------------------------------------------------------------------------
  // What a run promises

  /** The checks before the match log nothing and move nothing; only a missing batch
    * identifier makes the script fail. When they pass, the job carries the name as given
    * (it is already lower-case), the batch identifier and the client id. */
  lemma StartOutcomes(schema: string, fileName: string, env: CsvEnv)
    ensures var st := Start(schema, fileName, env);
            st.Err? ==> st.error.written.None? && st.error.audit.None? && st.error.jobLog.None? && st.error.moved.None?
                        && (st.error.exitCode == 0 || st.error.exitCode == 1)
    ensures var st := Start(schema, fileName, env);
            st.Err? && st.error.exitCode == 1 <==> ValidClientName(schema) && env.inputExists && ExtractBatchId(fileName).None?
    ensures var st := Start(schema, fileName, env);
            st.Ok? <==> ValidClientName(schema) && env.inputExists && ExtractBatchId(fileName).Some?
                        && env.connectError.None? && env.clientId.Some?
    ensures var st := Start(schema, fileName, env);
            st.Ok? ==> st.value == CsvJob(schema, fileName, ExtractBatchId(fileName).value, env.clientId.value)
  {
    if ValidClientName(schema) {
      ValidClientNameIsPlain(schema);
    }
  }

  /** Past the checks the script returns normally; the JSON file is written exactly when the
    * job log says SUCCESS, and a file is moved exactly when it says FAILED. */
  lemma ConvertOutcomes(job: CsvJob, env: CsvEnv)
    ensures var run := Convert(job, env);
            run.exitCode == 0
            && (run.written.Some? <==> run.jobLog.Some? && run.jobLog.value.status == "SUCCESS")
            && (run.moved.Some? <==> run.jobLog.Some? && run.jobLog.value.status == "FAILED")
            && (run.moved.Some? ==> run.moved.value == ToFailed(job))
            && (run.written.Some? ==> run.audit.Some? && run.audit.value.status == "SUCCESS")
  {
  }

  /** Past the checks, what is written is one record per CSV row numbered from 1, and the
    * audit row counts them. */
  lemma ConvertWrites(job: CsvJob, env: CsvEnv)
    ensures var run := Convert(job, env);
            run.written.Some? ==>
              env.csv.Ok? && !env.outputExists
              && |run.written.value| == |env.csv.value.rows|
              && (forall i :: 0 <= i < |run.written.value| ==>
                    "csv_row_number" in run.written.value[i] && run.written.value[i]["csv_row_number"] == Int(i + 1))
              && run.audit.Some? && run.audit.value.totalRows == |run.written.value|
  {
    var m := MatchLogical(env.sources, BaseName(job.fileName));
    if !Unmatched(m) && ReadFailure(env.csv).None? && !env.outputExists {
      RecordsNumbered(env.csv.value, job.fileName, m.value, job.batchId);
    }
  }

  /** Only a file name without a batch identifier makes the script fail: `extract_batch_id`
    * raises out of the script. Every other outcome returns normally. */
  lemma CsvExitCodes(schema: string, fileName: string, env: CsvEnv)
    ensures var run := ConvertCsvToJson(schema, fileName, env);
            run.exitCode == 0 || run.exitCode == 1
    ensures var run := ConvertCsvToJson(schema, fileName, env);
            run.exitCode == 1 <==> ValidClientName(schema) && env.inputExists && ExtractBatchId(fileName).None?
  {
    StartOutcomes(schema, fileName, env);
    var st := Start(schema, fileName, env);
    if st.Ok? {
      ConvertOutcomes(st.value, env);
    }
  }

  /** An existing JSON file is never overwritten: nothing is written, and any audit row
    * records a failed read. */
  lemma NeverOverwrites(schema: string, fileName: string, env: CsvEnv)
    requires env.outputExists
    ensures var run := ConvertCsvToJson(schema, fileName, env);
            run.written.None? && (run.audit.Some? ==> run.audit.value.status == "FAILED")
  {
    StartOutcomes(schema, fileName, env);
    var st := Start(schema, fileName, env);
    if st.Ok? {
      ConvertWrites(st.value, env);
    }
  }

  /** What is written is one record per CSV row numbered from 1, and the audit row counts
    * them; it is written only for a file with a batch identifier. */
  lemma WrittenRecords(schema: string, fileName: string, env: CsvEnv)
    ensures var run := ConvertCsvToJson(schema, fileName, env);
            run.written.Some? ==>
              env.csv.Ok? && ExtractBatchId(fileName).Some? && !env.outputExists
              && |run.written.value| == |env.csv.value.rows|
              && (forall i :: 0 <= i < |run.written.value| ==>
                    "csv_row_number" in run.written.value[i] && run.written.value[i]["csv_row_number"] == Int(i + 1))
              && run.audit.Some? && run.audit.value.totalRows == |run.written.value|
  {
    StartOutcomes(schema, fileName, env);
    var st := Start(schema, fileName, env);
    if st.Ok? {
      ConvertWrites(st.value, env);
    }
  }

  /** The JSON file is written exactly when the job log says SUCCESS, and then the audit row
    * says SUCCESS too and nothing is moved. */
  lemma SuccessIffWritten(schema: string, fileName: string, env: CsvEnv)
    ensures var run := ConvertCsvToJson(schema, fileName, env);
            run.written.Some? <==> run.jobLog.Some? && run.jobLog.value.status == "SUCCESS"
    ensures var run := ConvertCsvToJson(schema, fileName, env);
            run.written.Some? ==> run.moved.None? && run.audit.Some? && run.audit.value.status == "SUCCESS"
  {
    StartOutcomes(schema, fileName, env);
    var st := Start(schema, fileName, env);
    if st.Ok? {
      ConvertOutcomes(st.value, env);
    }
  }

  /** A file is moved to the failed folder exactly when a FAILED job log is written, and it
    * moves from the client's raw incoming folder to its raw failed folder under its own name. */
  lemma FailedFilesMoved(schema: string, fileName: string, env: CsvEnv)
    ensures var run := ConvertCsvToJson(schema, fileName, env);
            run.moved.Some? <==> run.jobLog.Some? && run.jobLog.value.status == "FAILED"
    ensures var run := ConvertCsvToJson(schema, fileName, env);
            run.moved.Some? ==>
              run.moved.value == Move(PathJoin(Folder(schema, "raw", "incoming"), fileName),
                                      PathJoin(Folder(schema, "raw", "failed"), fileName))
  {
    StartOutcomes(schema, fileName, env);
    var st := Start(schema, fileName, env);
    if st.Ok? {
      ConvertOutcomes(st.value, env);
    }
  }

  /** A file that no logical source starts is moved and logged as not found, with no audit
    * row. */
  lemma UnmatchedFileRejected(schema: string, fileName: string, env: CsvEnv)
    requires ValidClientName(schema) && env.inputExists && ExtractBatchId(fileName).Some?
    requires env.connectError.None? && env.clientId.Some?
    requires forall k :: 0 <= k < |env.sources| ==> !StartsWith(BaseName(fileName), Lower(env.sources[k]))
    ensures var run := ConvertCsvToJson(schema, fileName, env);
            run.exitCode == 0 && run.written.None? && run.audit.None? && run.moved.Some?
            && run.jobLog.Some? && run.jobLog.value.message == Some(NotMatchedPrefix + BaseName(fileName))
  {
    StartOutcomes(schema, fileName, env);
  }

  /** Every audit row names a non-empty logical source that starts the file's lower-cased
    * base name, the batch identifier taken from the file name, and the JSON name. */
  lemma AuditNamesMatch(schema: string, fileName: string, env: CsvEnv)
    ensures var run := ConvertCsvToJson(schema, fileName, env);
            run.audit.Some? ==>
              run.audit.value.logical != "" && run.audit.value.logical in env.sources
              && StartsWith(BaseName(fileName), Lower(run.audit.value.logical))
              && Some(run.audit.value.batchId) == ExtractBatchId(fileName)
              && run.audit.value.jsonName == JsonName(fileName)
  {
    StartOutcomes(schema, fileName, env);
  }

  /** A failed conversion writes nothing, records zero rows and FAILED in both logs, with the
    * read error or the duplicate-column error as the message. */
  lemma ConversionFailure(schema: string, fileName: string, env: CsvEnv)
    ensures var run := ConvertCsvToJson(schema, fileName, env);
            run.audit.Some? && run.audit.value.status == "FAILED" ==>
              run.written.None? && run.audit.value.totalRows == 0 && run.moved.Some?
              && run.jobLog.Some? && run.jobLog.value.status == "FAILED"
              && (env.csv.Err? ==> run.jobLog.value.message == Some(env.csv.error))
              && (env.csv.Ok? ==> "csv_row_number" in env.csv.value.columns
                                  && run.jobLog.value.message == Some(DuplicateRowNumber))
  {
    StartOutcomes(schema, fileName, env);
  }
}
