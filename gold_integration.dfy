// The gold stage: runs every active dimension procedure of a client, then every fact
// procedure whose dimension dependencies all logged SUCCESS for the batch (the others
// are logged SKIPPED), and files the batch file under archive or failed.
module GoldIntegration {
  import opened Optional
  import opened PyStrings
  import opened Json
  import opened ProcedureKeys
  import opened StageCommon

  const JobName := "gold_integration.py"
  const SkipPrefix := "Skipped due to failed dependency"

  /** A row of tools.integration_config, in the order the query sorts them. */
  datatype Integration = Integration(procName: string, tableType: string)

  /** `[i["proc_name"] for i in integrations if i["table_type"] == t]` */
  function ProcsOfType(rows: seq<Integration>, t: string): (r: seq<string>)
    ensures |r| <= |rows|
    ensures forall p :: p in r <==> exists i :: 0 <= i < |rows| && rows[i].tableType == t && rows[i].procName == p
  {
    if rows == [] then []
    else
      var last := rows[|rows| - 1];
      ProcsOfType(rows[..|rows| - 1], t) + (if last.tableType == t then [last.procName] else [])
  }

  lemma ProcsOfTypeSnoc(rows: seq<Integration>, x: Integration, t: string)
    ensures ProcsOfType(rows + [x], t) == ProcsOfType(rows, t) + (if x.tableType == t then [x.procName] else [])
  {
    assert (rows + [x])[..|rows|] == rows;
  }

  function Dimensions(rows: seq<Integration>): seq<string> { ProcsOfType(rows, "dimension") }
  function Facts(rows: seq<Integration>): seq<string> { ProcsOfType(rows, "fact") }

  /** Rows of any other table type are never run, and no procedure is both. */
  lemma {:induction false} PartitionCounts(rows: seq<Integration>)
    ensures |Dimensions(rows)| + |Facts(rows)| <= |rows|
    ensures (forall i :: 0 <= i < |rows| ==> rows[i].tableType in {"dimension", "fact"}) ==>
              |Dimensions(rows)| + |Facts(rows)| == |rows|
  {
    if rows != [] {
      PartitionCounts(rows[..|rows| - 1]);
    }
  }

  /** run_procedure: `(is_success, error_message)`. */
  function RunProcedure(c: CallResult): (r: (bool, Value))
    ensures c.Raised? ==> r == (false, Str(c.message))
    ensures !r.0 <==>
              || c.Raised?
              || (c.Fetched? && c.row.Some? && |c.row.value| >= 2 && c.row.value[0] != Null
                  && !Truthy(c.row.value[0]))
    ensures (c.NoResultSet? || (c.Fetched? && (c.row.None? || |c.row.value| < 2))) ==> r == (true, Null)
  {
    match c
    case Raised(m) => (false, Str(m))
    case NoResultSet => (true, Null)
    case Fetched(row) =>
      if row.Some? && |row.value| >= 2 then
        (if row.value[0] == Null then true else Truthy(row.value[0]), row.value[1])
      else (true, Null)
  }

  /** `(proc_name, status)` from tools.integration_log; a NULL status is `None`. */
  type StatusRow = (string, Option<string>)

  /** `{r[0]: r[1] for r in rows}`: a later row for the same procedure wins. */
  function StatusMap(rows: seq<StatusRow>): (m: map<string, Option<string>>)
    ensures forall p :: p in m <==> exists i :: 0 <= i < |rows| && rows[i].0 == p
  {
    if rows == [] then map[]
    else
      var init := rows[..|rows| - 1];
      var last := rows[|rows| - 1];
      var m := StatusMap(init)[last.0 := last.1];
      assert forall p :: p in m <==> exists i :: 0 <= i < |rows| && rows[i].0 == p by {
        forall p | exists i :: 0 <= i < |rows| && rows[i].0 == p ensures p in m {
          var i :| 0 <= i < |rows| && rows[i].0 == p;
          if i < |init| {
            assert init[i] == rows[i];
          }
        }
        forall p | p in m ensures exists i :: 0 <= i < |rows| && rows[i].0 == p {
          if p != last.0 {
            var i :| 0 <= i < |init| && init[i].0 == p;
            assert rows[i] == init[i];
          }
        }
      }
      m
  }

  lemma StatusMapSnoc(rows: seq<StatusRow>, x: StatusRow)
    ensures StatusMap(rows + [x]) == StatusMap(rows)[x.0 := x.1]
  {
    assert (rows + [x])[..|rows|] == rows;
  }

  /** The status the map keeps for a procedure is the one of its last row. */
  lemma {:induction false} StatusMapLastWins(rows: seq<StatusRow>, i: nat)
    requires i < |rows|
    requires forall j :: i < j < |rows| ==> rows[j].0 != rows[i].0
    ensures StatusMap(rows)[rows[i].0] == rows[i].1
  {
    var init := rows[..|rows| - 1];
    if i < |init| {
      assert init[i] == rows[i];
      StatusMapLastWins(init, i);
    }
  }

  /** `status_map.get(dep)` */
  function StatusOf(m: map<string, Option<string>>, dep: string): Option<string> {
    if dep in m then m[dep] else None
  }

  predicate DepSucceeded(m: map<string, Option<string>>, dep: string) {
    StatusOf(m, dep) == Some("SUCCESS")
  }

  function StatusText(st: Option<string>): (r: string)
    ensures st.None? ==> r == "MISSING"
  {
    if st.Some? then st.value else "MISSING"
  }

  /** The dependencies that did not log SUCCESS for the batch, in dependency order. */
  function FailedDeps(deps: seq<string>, m: map<string, Option<string>>): (f: seq<FailedDep>)
    ensures |f| <= |deps|
    ensures f == [] <==> forall k :: 0 <= k < |deps| ==> DepSucceeded(m, deps[k])
  {
    if deps == [] then []
    else
      var d := deps[|deps| - 1];
      FailedDeps(deps[..|deps| - 1], m) + (if DepSucceeded(m, d) then [] else [FailedDep(d, StatusText(StatusOf(m, d)))])
  }

  /**
   * Each reported dependency is one that did not succeed, with its status (or MISSING),
   * and every dependency that did not succeed is reported.
   */
  lemma {:induction false} FailedDepsExact(deps: seq<string>, m: map<string, Option<string>>)
    ensures forall k :: 0 <= k < |FailedDeps(deps, m)| ==>
              var f := FailedDeps(deps, m)[k];
              f.proc in deps && !DepSucceeded(m, f.proc) && f.status == StatusText(StatusOf(m, f.proc))
    ensures forall d :: d in deps && !DepSucceeded(m, d) ==> FailedDep(d, StatusText(StatusOf(m, d))) in FailedDeps(deps, m)
  {
    if deps != [] {
      var init := deps[..|deps| - 1];
      FailedDepsExact(init, m);
      assert deps == init + [deps[|deps| - 1]];
    }
  }

  lemma FailedDepsSnoc(deps: seq<string>, d: string, m: map<string, Option<string>>)
    ensures FailedDeps(deps + [d], m)
            == FailedDeps(deps, m) + (if DepSucceeded(m, d) then [] else [FailedDep(d, StatusText(StatusOf(m, d)))])
  {
    assert (deps + [d])[..|deps|] == deps;
  }

  /** check_dependencies: whether every dependency succeeded, and the ones that did not. */
  method CheckDependencies(deps: seq<string>, rows: seq<StatusRow>) returns (ok: bool, failed: seq<FailedDep>)
    ensures failed == FailedDeps(deps, StatusMap(rows))
    ensures ok <==> forall k :: 0 <= k < |deps| ==> DepSucceeded(StatusMap(rows), deps[k])
  {
    if deps == [] {
      return true, [];
    }
    var statusMap := StatusMap(rows);
    failed := [];
    var i := 0;
    while i < |deps|
      invariant 0 <= i <= |deps|
      invariant failed == FailedDeps(deps[..i], statusMap)
    {
      var st := StatusOf(statusMap, deps[i]);
      if st != Some("SUCCESS") {
        failed := failed + [FailedDep(deps[i], StatusText(st))];
      }
      assert deps[..i + 1][..i] == deps[..i];
      i := i + 1;
    }
    assert deps[..i] == deps;
    ok := |failed| == 0;
  }

  function DepLabels(failed: seq<FailedDep>): (r: seq<string>)
    ensures |r| == |failed|
  {
    seq(|failed|, k requires 0 <= k < |failed| => failed[k].proc + "[" + failed[k].status + "]")
  }

  /** The message of the SKIPPED row, naming each failed dependency with its status. */
  function SkipMessage(failed: seq<FailedDep>): (msg: string)
    ensures StartsWith(msg, SkipPrefix)
    ensures failed == [] <==> msg == SkipPrefix
    ensures forall k :: 0 <= k < |failed| ==> Contains(msg, failed[k].proc + "[" + failed[k].status + "]")
  {
    if failed == [] then SkipPrefix
    else
      var labels := DepLabels(failed);
      var msg := SkipPrefix + ": " + Join(", ", labels);
      JoinContainsParts(", ", labels);
      forall k | 0 <= k < |failed| ensures Contains(msg, failed[k].proc + "[" + failed[k].status + "]") {
        assert labels[k] == failed[k].proc + "[" + failed[k].status + "]";
        ContainsAfterPrefix(SkipPrefix + ": ", Join(", ", labels), labels[k]);
      }
      StartsWithConcat(SkipPrefix, ": " + Join(", ", labels));
      assert msg == SkipPrefix + (": " + Join(", ", labels));
      assert |msg| > |SkipPrefix|;
      msg
  }

  /**
   * What the database and the procedures answer, by position: the i-th dimension CALL,
   * and for the j-th fact its dependencies, the integration_log rows found for them and
   * its CALL.
   */
  datatype Environment = Environment(dimCalls: nat -> CallResult, factDeps: nat -> seq<string>,
                                     statusRows: nat -> seq<StatusRow>, factCalls: nat -> CallResult)

  function RunRecord(name: string, c: CallResult): (r: ProcRecord)
    ensures r.Ran? && r.name == name && (r.ok <==> RunProcedure(c).0)
  {
    Ran(name, RunProcedure(c).0, RunProcedure(c).1)
  }

  function FactFailedDeps(env: Environment, j: nat): seq<FailedDep> {
    FailedDeps(env.factDeps(j), StatusMap(env.statusRows(j)))
  }

  function FactRecord(name: string, env: Environment, j: nat): ProcRecord {
    var failed := FactFailedDeps(env, j);
    if failed != [] then Skipped(name, failed) else RunRecord(name, env.factCalls(j))
  }

  /** One record per procedure, dimensions first, then facts. */
  function Records(dims: seq<string>, facts: seq<string>, env: Environment): (r: seq<ProcRecord>)
    ensures |r| == |dims| + |facts|
  {
    DimRecords(dims, env) + FactRecords(facts, env)
  }

  function DimRecords(dims: seq<string>, env: Environment): (r: seq<ProcRecord>)
    ensures |r| == |dims|
  {
    seq(|dims|, i requires 0 <= i < |dims| => RunRecord(dims[i], env.dimCalls(i)))
  }

  function FactRecords(facts: seq<string>, env: Environment): (r: seq<ProcRecord>)
    ensures |r| == |facts|
  {
    seq(|facts|, j requires 0 <= j < |facts| => FactRecord(facts[j], env, j))
  }

  lemma DimRecordAt(dims: seq<string>, facts: seq<string>, env: Environment, i: nat)
    requires i < |dims|
    ensures Records(dims, facts, env)[i] == RunRecord(dims[i], env.dimCalls(i))
  {
    var ds, fs := DimRecords(dims, env), FactRecords(facts, env);
    assert Records(dims, facts, env) == ds + fs;
    assert ds[i] == RunRecord(dims[i], env.dimCalls(i));
  }

  lemma FactRecordAt(dims: seq<string>, facts: seq<string>, env: Environment, j: nat)
    requires j < |facts|
    ensures Records(dims, facts, env)[|dims| + j] == FactRecord(facts[j], env, j)
  {
    var ds, fs := DimRecords(dims, env), FactRecords(facts, env);
    assert Records(dims, facts, env) == ds + fs;
    assert fs[j] == FactRecord(facts[j], env, j);
  }

  /**
   * Every procedure gets exactly one record, in `dims + facts` order (the list recorded in
   * the batch file): every dimension runs, and a fact is skipped exactly when one of its
   * dependencies did not log SUCCESS for the batch.
   */
  lemma RecordsShape(dims: seq<string>, facts: seq<string>, env: Environment)
    ensures forall i :: 0 <= i < |dims| + |facts| ==> Records(dims, facts, env)[i].name == (dims + facts)[i]
    ensures forall i :: 0 <= i < |dims| ==> Records(dims, facts, env)[i].Ran?
    ensures forall j :: 0 <= j < |facts| ==>
              (Records(dims, facts, env)[|dims| + j].Skipped? <==>
                 exists k :: 0 <= k < |env.factDeps(j)| && !DepSucceeded(StatusMap(env.statusRows(j)), env.factDeps(j)[k]))
  {
    forall i | 0 <= i < |dims| ensures Records(dims, facts, env)[i].Ran? && Records(dims, facts, env)[i].name == (dims + facts)[i] {
      DimRecordAt(dims, facts, env, i);
    }
    forall j | 0 <= j < |facts|
      ensures Records(dims, facts, env)[|dims| + j].name == (dims + facts)[|dims| + j]
      ensures Records(dims, facts, env)[|dims| + j].Skipped? <==> FactFailedDeps(env, j) != []
    {
      FactRecordAt(dims, facts, env, j);
    }
    forall i | |dims| <= i < |dims| + |facts| ensures Records(dims, facts, env)[i].name == (dims + facts)[i] {
      assert i == |dims| + (i - |dims|);
    }
  }

  /** A row of tools.integration_log written for a skipped fact. */
  datatype SkipLog = SkipLog(clientId: Value, status: string, procName: string, tableType: string,
                             batchId: Value, message: string)

  function SkipRow(clientId: Value, batchId: Value, name: string, failed: seq<FailedDep>): SkipLog {
    SkipLog(clientId, "SKIPPED", name, "fact", batchId, SkipMessage(failed))
  }

  /** The SKIPPED rows the run inserts, one per skipped fact, in run order. */
  function SkipLogs(clientId: Value, batchId: Value, recs: seq<ProcRecord>): (s: seq<SkipLog>)
    ensures |s| <= |recs|
    ensures forall k :: 0 <= k < |s| ==>
              s[k].status == "SKIPPED" && s[k].tableType == "fact" && StartsWith(s[k].message, SkipPrefix)
  {
    if recs == [] then []
    else
      var r := recs[|recs| - 1];
      SkipLogs(clientId, batchId, recs[..|recs| - 1]) + (if r.Skipped? then [SkipRow(clientId, batchId, r.name, r.failed)] else [])
  }

  /** Appending one record to the run extends its errors and SKIPPED rows by that record's. */
  lemma RecordSnoc(recs: seq<ProcRecord>, r: ProcRecord, clientId: Value, batchId: Value)
    ensures AllOk(recs + [r]) <==> AllOk(recs) && !Failed(r)
    ensures ErrorsOf(recs + [r]) == ErrorsOf(recs) + (if Failed(r) then [ProcError(r.name, r.err)] else [])
    ensures SkipLogs(clientId, batchId, recs + [r])
            == SkipLogs(clientId, batchId, recs) + (if r.Skipped? then [SkipRow(clientId, batchId, r.name, r.failed)] else [])
  {
    ErrorsSnoc(recs, r);
    assert (recs + [r])[..|recs|] == recs;
  }


  /**
   * The run succeeds exactly when every dimension succeeded and every fact that was not
   * skipped succeeded: a skipped fact does not fail the run.
   */
  lemma AllSuccessIff(dims: seq<string>, facts: seq<string>, env: Environment)
    ensures AllOk(Records(dims, facts, env)) <==>
              (forall i :: 0 <= i < |dims| ==> RunProcedure(env.dimCalls(i)).0)
              && (forall j :: 0 <= j < |facts| && FactFailedDeps(env, j) == [] ==> RunProcedure(env.factCalls(j)).0)
  {
    var r := Records(dims, facts, env);
    if AllOk(r) {
      forall j | 0 <= j < |facts| && FactFailedDeps(env, j) == [] ensures RunProcedure(env.factCalls(j)).0 {
        FactRecordAt(dims, facts, env, j);
      }
      forall i | 0 <= i < |dims| ensures RunProcedure(env.dimCalls(i)).0 {
        DimRecordAt(dims, facts, env, i);
      }
    } else {
      var i :| 0 <= i < |r| && Failed(r[i]);
      if i < |dims| {
        DimRecordAt(dims, facts, env, i);
      } else {
        FactRecordAt(dims, facts, env, i - |dims|);
      }
    }
  }

  /** The loops' bookkeeping agrees with the records so far: all_success, the error lines
    * and the SKIPPED rows. */
  predicate Booked(clientId: Value, batchId: Value, allSuccess: bool, errors: seq<string>,
                   records: seq<ProcRecord>, skips: seq<SkipLog>) {
    allSuccess == AllOk(records) && errors == ErrorsOf(records) && skips == SkipLogs(clientId, batchId, records)
  }

  /** The run's tiers: dimensions in order, then facts gated on their dependencies. */
  method RunTiers(dims: seq<string>, facts: seq<string>, env: Environment, clientId: Value, batchId: Value)
    returns (allSuccess: bool, errors: seq<string>, records: seq<ProcRecord>, skips: seq<SkipLog>)
    ensures records == Records(dims, facts, env)
    ensures allSuccess == AllOk(records)
    ensures errors == ErrorsOf(records)
    ensures skips == SkipLogs(clientId, batchId, records)
  {
    allSuccess, errors, records, skips := RunDimensionTier(dims, env, clientId, batchId);
    allSuccess, errors, records, skips := RunFactTier(facts, env, clientId, batchId, allSuccess, errors, records, skips);
  }

  /** The dimension loop: every dimension is CALLed, failures collected as error lines. */
  method RunDimensionTier(dims: seq<string>, env: Environment, clientId: Value, batchId: Value)
    returns (allSuccess: bool, errors: seq<string>, records: seq<ProcRecord>, skips: seq<SkipLog>)
    ensures records == DimRecords(dims, env)
    ensures Booked(clientId, batchId, allSuccess, errors, records, skips)
  {
    ghost var spec := DimRecords(dims, env);
    allSuccess, errors, records, skips := true, [], [], [];
    var i := 0;
    while i < |dims|
      invariant 0 <= i <= |dims|
      invariant records == spec[..i]
      invariant Booked(clientId, batchId, allSuccess, errors, records, skips)
    {
      allSuccess, errors, records, skips := DimStep(dims, env, clientId, batchId, i, allSuccess, errors, records, skips);
      i := i + 1;
    }
    assert spec[..i] == spec;
  }

  /** One pass of the dimension loop: the i-th dimension is CALLed and its record joins the run. */
  method DimStep(dims: seq<string>, env: Environment, clientId: Value, batchId: Value, i: nat,
                 allSuccess0: bool, errors0: seq<string>, recordsI: seq<ProcRecord>, skips0: seq<SkipLog>)
    returns (allSuccess: bool, errors: seq<string>, records: seq<ProcRecord>, skips: seq<SkipLog>)
    requires i < |dims| && recordsI == DimRecords(dims, env)[..i]
    requires Booked(clientId, batchId, allSuccess0, errors0, recordsI, skips0)
    ensures records == DimRecords(dims, env)[..i + 1]
    ensures Booked(clientId, batchId, allSuccess, errors, records, skips)
  {
    ghost var spec := DimRecords(dims, env);
    var res := RunProcedure(env.dimCalls(i));
    var rec := Ran(dims[i], res.0, res.1);
    assert spec[i] == rec;
    SliceSnoc([], spec, i);
    allSuccess, errors, records, skips := Account(rec, clientId, batchId, allSuccess0, errors0, recordsI, skips0);
  }

  /**
   * The fact loop, continuing the dimension tier's state: a fact whose dependencies did
   * not all succeed gets a SKIPPED row and leaves all_success as it was.
   */
  method RunFactTier(facts: seq<string>, env: Environment, clientId: Value, batchId: Value,
                     allSuccess0: bool, errors0: seq<string>, records0: seq<ProcRecord>, skips0: seq<SkipLog>)
    returns (allSuccess: bool, errors: seq<string>, records: seq<ProcRecord>, skips: seq<SkipLog>)
    requires Booked(clientId, batchId, allSuccess0, errors0, records0, skips0)
    ensures records == records0 + FactRecords(facts, env)
    ensures Booked(clientId, batchId, allSuccess, errors, records, skips)
  {
    ghost var spec := FactRecords(facts, env);
    allSuccess, errors, records, skips := allSuccess0, errors0, records0, skips0;
    var j := 0;
    while j < |facts|
      invariant 0 <= j <= |facts|
      invariant records == records0 + spec[..j]
      invariant Booked(clientId, batchId, allSuccess, errors, records, skips)
    {
      allSuccess, errors, records, skips := FactStep(facts, env, clientId, batchId, records0, j,
                                                     allSuccess, errors, records, skips);
      j := j + 1;
    }
    assert spec[..j] == spec;
  }

  /** One pass of the fact loop: the j-th fact's record joins the run. */
  method FactStep(facts: seq<string>, env: Environment, clientId: Value, batchId: Value,
                  ghost records0: seq<ProcRecord>, j: nat,
                  allSuccess0: bool, errors0: seq<string>, recordsJ: seq<ProcRecord>, skips0: seq<SkipLog>)
    returns (allSuccess: bool, errors: seq<string>, records: seq<ProcRecord>, skips: seq<SkipLog>)
    requires j < |facts| && recordsJ == records0 + FactRecords(facts, env)[..j]
    requires Booked(clientId, batchId, allSuccess0, errors0, recordsJ, skips0)
    ensures records == records0 + FactRecords(facts, env)[..j + 1]
    ensures Booked(clientId, batchId, allSuccess, errors, records, skips)
  {
    ghost var spec := FactRecords(facts, env);
    var rec := FactTurn(facts[j], env, j);
    assert spec[j] == rec;
    SliceSnoc(records0, spec, j);
    allSuccess, errors, records, skips := Account(rec, clientId, batchId, allSuccess0, errors0, recordsJ, skips0);
  }

  /** Books one procedure's record: a skipped fact's SKIPPED row, or the error line of a
    * procedure that failed. */
  method Account(rec: ProcRecord, clientId: Value, batchId: Value,
                 allSuccess0: bool, errors0: seq<string>, records0: seq<ProcRecord>, skips0: seq<SkipLog>)
    returns (allSuccess: bool, errors: seq<string>, records: seq<ProcRecord>, skips: seq<SkipLog>)
    requires Booked(clientId, batchId, allSuccess0, errors0, records0, skips0)
    ensures records == records0 + [rec]
    ensures Booked(clientId, batchId, allSuccess, errors, records, skips)
  {
    RecordSnoc(records0, rec, clientId, batchId);
    allSuccess, errors, records, skips := allSuccess0, errors0, records0 + [rec], skips0;
    if rec.Skipped? {
      skips := skips + [SkipRow(clientId, batchId, rec.name, rec.failed)];
    } else if !rec.ok {
      allSuccess := false;
      errors := errors + [ProcError(rec.name, rec.err)];
    }
  }

  /** One fact: check its dependencies, and either skip it or run it. */
  method FactTurn(name: string, env: Environment, j: nat) returns (rec: ProcRecord)
    ensures rec == FactRecord(name, env, j)
  {
    var okDeps, failed := CheckDependencies(env.factDeps(j), env.statusRows(j));
    if !okDeps {
      rec := Skipped(name, failed);
    } else {
      var res := RunProcedure(env.factCalls(j));
      rec := Ran(name, res.0, res.1);
    }
  }

  /** What one invocation of the stage leaves behind. */
  datatype GoldRun = GoldRun(exitCode: int, jobLog: Option<JobLog>, records: seq<ProcRecord>,
                             skipLogs: seq<SkipLog>, movedTo: Option<string>, recorded: Option<seq<string>>)

  const EarlyExit := GoldRun(1, None, [], [], None, None)

  /** The gate before any database work: argument, one batch file, a batch id in it. */
  predicate Loaded(args: seq<string>, successFiles: seq<string>, data: map<string, Value>) {
    && |args| >= 2
    && SingleBatchFile(BatchFolder(args[1], "success"), successFiles).Ok?
    && Truthy(Get(data, "batch_id"))
  }

  /** Whether the tiers run: the batch loaded, the client is known and has integrations. */
  predicate TiersRun(args: seq<string>, successFiles: seq<string>, data: map<string, Value>,
                     clientRow: Option<Value>, integrations: seq<Integration>) {
    Loaded(args, successFiles, data) && clientRow.Some? && integrations != []
  }

  /**
   * main(): the outcome of one run. `clientRow` is the client_reference lookup and
   * `integrations` the active integration rows, already in query order.
   */
  function GoldSpec(args: seq<string>, successFiles: seq<string>, data: map<string, Value>,
                    clientRow: Option<Value>, integrations: seq<Integration>, env: Environment): (out: GoldRun)
    ensures !Loaded(args, successFiles, data) ==> out == EarlyExit
    ensures out.exitCode == 0 || out.exitCode == 1
    ensures out.exitCode == 0 <==>
              TiersRun(args, successFiles, data, clientRow, integrations) && AllOk(out.records)
    ensures out.exitCode == 0 ==>
              && out.movedTo == Some("archive")
              && out.jobLog == Some(JobLog(JobName, clientRow.value, "SUCCESS", None,
                                           SingleBatchFile(BatchFolder(args[1], "success"), successFiles).value,
                                           Get(data, "batch_id")))
    ensures Loaded(args, successFiles, data) && out.exitCode == 1 ==>
              out.movedTo == Some("failed") && out.jobLog.Some? && out.jobLog.value.status == "FAILED"
              && out.jobLog.value.message.Some?
    ensures Loaded(args, successFiles, data) ==>
              out.recorded == Some(if clientRow.Some? && integrations != []
                                   then Dimensions(integrations) + Facts(integrations) else [])
    ensures TiersRun(args, successFiles, data, clientRow, integrations) ==>
              && out.records == Records(Dimensions(integrations), Facts(integrations), env)
              && out.skipLogs == SkipLogs(clientRow.value, Get(data, "batch_id"), out.records)
              && (out.exitCode == 1 ==> out.jobLog.value.message == JoinedErrors(ErrorsOf(out.records)))
  {
    if !Loaded(args, successFiles, data) then EarlyExit
    else
      var fileName := SingleBatchFile(BatchFolder(args[1], "success"), successFiles).value;
      var batchId := Get(data, "batch_id");
      if clientRow.None? then
        var msg := "client_schema '" + args[1] + "' tidak ditemukan di client_reference";
        GoldRun(1, Some(JobLog(JobName, Null, "FAILED", Some(msg), fileName, batchId)), [], [], Some("failed"), Some([]))
      else if integrations == [] then
        var msg := "Tidak ditemukan integrasi aktif untuk client_id " + Text(clientRow.value);
        GoldRun(1, Some(JobLog(JobName, clientRow.value, "FAILED", Some(msg), fileName, batchId)), [], [],
                Some("failed"), Some([]))
      else
        var dims := Dimensions(integrations);
        var facts := Facts(integrations);
        var recs := Records(dims, facts, env);
        var skips := SkipLogs(clientRow.value, batchId, recs);
        ErrorsEmptyIffAllOk(recs);
        if AllOk(recs) then
          GoldRun(0, Some(JobLog(JobName, clientRow.value, "SUCCESS", None, fileName, batchId)), recs, skips,
                  Some("archive"), Some(dims + facts))
        else
          GoldRun(1, Some(JobLog(JobName, clientRow.value, "FAILED", JoinedErrors(ErrorsOf(recs)), fileName, batchId)),
                  recs, skips, Some("failed"), Some(dims + facts))
  }

  /**
   * main() against the batch file it loads from the success folder: the run's outcome,
   * and the procedure list recorded in the batch file wherever the run filed it.
   */
  method RunStage(args: seq<string>, successFiles: seq<string>, file: BatchFile, clientRow: Option<Value>,
              integrations: seq<Integration>, env: Environment) returns (out: GoldRun)
    modifies file
    ensures out == GoldSpec(args, successFiles, old(file.data), clientRow, integrations, env)
    ensures out.recorded.Some? ==>
              file.data == old(file.data)[ProcedureKey(old(file.data).Keys, IntegrationKey) := Names(out.recorded.value)]
    ensures out.recorded.None? ==> file.data == old(file.data)
  {
    if |args| < 2 {
      return EarlyExit;
    }
    var loaded := SingleBatchFile(BatchFolder(args[1], "success"), successFiles);
    if loaded.Err? {
      return EarlyExit;
    }
    var fileName := loaded.value;
    var batchId := Get(file.data, "batch_id");
    if !Truthy(batchId) {
      return EarlyExit;
    }
    if clientRow.None? {
      var msg := "client_schema '" + args[1] + "' tidak ditemukan di client_reference";
      var _ := file.RecordProcedures(IntegrationKey, []);
      return GoldRun(1, Some(JobLog(JobName, Null, "FAILED", Some(msg), fileName, batchId)), [], [], Some("failed"), Some([]));
    }
    var clientId := clientRow.value;
    if integrations == [] {
      var msg := "Tidak ditemukan integrasi aktif untuk client_id " + Text(clientId);
      var _ := file.RecordProcedures(IntegrationKey, []);
      return GoldRun(1, Some(JobLog(JobName, clientId, "FAILED", Some(msg), fileName, batchId)), [], [],
                     Some("failed"), Some([]));
    }
    var dims := Dimensions(integrations);
    var facts := Facts(integrations);
    var allSuccess, errors, records, skips := RunTiers(dims, facts, env, clientId, batchId);
    var finalError := JoinedErrors(errors);
    var proceduresRun := dims + facts;
    ErrorsEmptyIffAllOk(records);
    if allSuccess {
      out := GoldRun(0, Some(JobLog(JobName, clientId, "SUCCESS", None, fileName, batchId)), records, skips,
                     Some("archive"), Some(proceduresRun));
    } else {
      out := GoldRun(1, Some(JobLog(JobName, clientId, "FAILED", finalError, fileName, batchId)), records, skips,
                     Some("failed"), Some(proceduresRun));
    }
    var _ := file.RecordProcedures(IntegrationKey, proceduresRun);
  }

  const ExampleRows := [Integration("D1", "dimension"), Integration("D2", "dimension"), Integration("F1", "fact")]

  lemma ExamplePartition()
    ensures Dimensions(ExampleRows) == ["D1", "D2"] && Facts(ExampleRows) == ["F1"]
  {
    var a, b, c := ExampleRows[0], ExampleRows[1], ExampleRows[2];
    assert [a] == [] + [a];
    assert [a, b] == [a] + [b];
    assert ExampleRows == [a, b] + [c];
    forall t | t in {"dimension", "fact"}
      ensures ProcsOfType(ExampleRows, t)
              == (if t == "dimension" then ["D1", "D2"] else ["F1"])
    {
      ProcsOfTypeSnoc([], a, t);
      ProcsOfTypeSnoc([a], b, t);
      ProcsOfTypeSnoc([a, b], c, t);
    }
  }

  lemma ExampleStatus(rows: seq<StatusRow>)
    requires rows == [("D1", Some("SUCCESS")), ("D2", Some("FAILED"))]
    ensures FailedDeps(["D1", "D2"], StatusMap(rows)) == [FailedDep("D2", "FAILED")]
  {
    assert [rows[0]] == [] + [rows[0]];
    assert rows == [rows[0]] + [rows[1]];
    StatusMapSnoc([], rows[0]);
    StatusMapSnoc([rows[0]], rows[1]);
    var m := StatusMap(rows);
    assert m == map["D1" := Some("SUCCESS"), "D2" := Some("FAILED")];
    assert ["D1"] == [] + ["D1"];
    assert ["D1", "D2"] == ["D1"] + ["D2"];
    FailedDepsSnoc([], "D1", m);
    FailedDepsSnoc(["D1"], "D2", m);
  }

  const ExampleRecords := [Ran("D1", true, Null), Ran("D2", false, Str("boom")), Skipped("F1", [FailedDep("D2", "FAILED")])]

  /** The SKIPPED message for a single failed dependency. */
  lemma ExampleSkipMessage()
    ensures SkipMessage([FailedDep("D2", "FAILED")]) == "Skipped due to failed dependency: D2[FAILED]"
  {
    var labels := DepLabels([FailedDep("D2", "FAILED")]);
    assert labels[0] == "D2[FAILED]";
    assert labels == ["D2[FAILED]"];
  }

  lemma ExampleErrors()
    ensures ErrorsOf(ExampleRecords) == ["D2 gagal: boom"]
  {
    var a, b, c := ExampleRecords[0], ExampleRecords[1], ExampleRecords[2];
    assert [a] == [] + [a];
    assert [a, b] == [a] + [b];
    assert ExampleRecords == [a, b] + [c];
    RecordSnoc([], a, Null, Null);
    RecordSnoc([a], b, Null, Null);
    RecordSnoc([a, b], c, Null, Null);
    assert ProcError("D2", Str("boom")) == "D2 gagal: boom";
  }

  lemma ExampleSkipLogs(clientId: Value, batchId: Value)
    ensures SkipLogs(clientId, batchId, ExampleRecords)
            == [SkipLog(clientId, "SKIPPED", "F1", "fact", batchId, "Skipped due to failed dependency: D2[FAILED]")]
  {
    var a, b, c := ExampleRecords[0], ExampleRecords[1], ExampleRecords[2];
    assert [a] == [] + [a];
    assert [a, b] == [a] + [b];
    assert ExampleRecords == [a, b] + [c];
    RecordSnoc([], a, clientId, batchId);
    RecordSnoc([a], b, clientId, batchId);
    RecordSnoc([a, b], c, clientId, batchId);
    ExampleSkipMessage();
  }

  lemma ExampleRun(env: Environment)
    requires env.dimCalls(0) == Fetched(Some([Bool(true), Null]))
    requires env.dimCalls(1) == Fetched(Some([Bool(false), Str("boom")]))
    requires env.factDeps(0) == ["D1", "D2"]
    requires env.statusRows(0) == [("D1", Some("SUCCESS")), ("D2", Some("FAILED"))]
    ensures Records(["D1", "D2"], ["F1"], env) == ExampleRecords
  {
    ExampleStatus(env.statusRows(0));
    var ds := DimRecords(["D1", "D2"], env);
    var fs := FactRecords(["F1"], env);
    assert ds[0] == Ran("D1", true, Null);
    assert ds[1] == Ran("D2", false, Str("boom"));
    assert fs[0] == Skipped("F1", [FailedDep("D2", "FAILED")]);
  }

  lemma ExampleBatchFile(folder: string)
    ensures SingleBatchFile(folder, ["b.json"]) == Ok("b.json")
  {
    assert ["b.json"][..0] == [];
    assert Lower("b.json") == "b.json";
    assert JsonNames(["b.json"]) == ["b.json"];
  }

  /**
   * The dependency example: D1 logged SUCCESS and D2 FAILED for the batch, and fact F1
   * depends on both. F1 is skipped with a message naming only D2, the run fails with
   * D2's error, and all three procedures are recorded in the failed batch file.
   */
  lemma DependencyExample(env: Environment, data: map<string, Value>)
    requires Get(data, "batch_id") == Str("BATCH000001")
    requires env.dimCalls(0) == Fetched(Some([Bool(true), Null]))
    requires env.dimCalls(1) == Fetched(Some([Bool(false), Str("boom")]))
    requires env.factDeps(0) == ["D1", "D2"]
    requires env.statusRows(0) == [("D1", Some("SUCCESS")), ("D2", Some("FAILED"))]
    ensures var out := GoldSpec(["gold_integration.py", "acme"], ["b.json"], data, Some(Int(7)), ExampleRows, env);
            && out.exitCode == 1
            && |out.records| == 3 && out.records[2] == Skipped("F1", [FailedDep("D2", "FAILED")])
            && out.skipLogs == [SkipLog(Int(7), "SKIPPED", "F1", "fact", Str("BATCH000001"),
                                        "Skipped due to failed dependency: D2[FAILED]")]
            && out.jobLog.value.message == Some("D2 gagal: boom")
            && out.recorded == Some(["D1", "D2", "F1"])
  {
    ExamplePartition();
    ExampleBatchFile(BatchFolder("acme", "success"));
    ExampleRun(env);
    ExampleErrors();
    ExampleSkipLogs(Int(7), Str("BATCH000001"));
    var recs := ExampleRecords;
    ErrorsEmptyIffAllOk(recs);
    var args := ["gold_integration.py", "acme"];
    assert TiersRun(args, ["b.json"], data, Some(Int(7)), ExampleRows);
    var out := GoldSpec(args, ["b.json"], data, Some(Int(7)), ExampleRows, env);
    assert out.records == recs;
    assert !AllOk(recs);
    assert out.exitCode == 1;
    assert Dimensions(ExampleRows) + Facts(ExampleRows) == ["D1", "D2", "F1"];
  }
}
