// The silver stage: runs every active transformation procedure of a client in order,
// records their names in the batch file and moves it from incoming to success or
// failed. A procedure failing is logged but does not change the exit status; only an
// exception (unknown client, no active procedure) ends the run with status 1.
module SilverCleanTransform {
  import opened Optional
  import opened PyStrings
  import opened Json
  import opened ProcedureKeys
  import opened StageCommon
  import GoldIntegration

  const JobName := "silver_clean_transform.py"

  /** psycopg2's message when a CALL produced no result set to fetch. */
  const NoResultsMessage := "no results to fetch"

  /** Python's message when a row of `n` values is unpacked into two names. */
  function UnpackMessage(n: nat): string {
    if n < 2 then "not enough values to unpack (expected 2, got " + ToDecimal(n) + ")"
    else "too many values to unpack (expected 2)"
  }

  /**
   * run_procedure as this stage writes it: a non-empty row is unpacked into
   * `(is_success, error_message)` as it is, so a row of any other width and a CALL with no
   * result set are failures, and a NULL flag is kept as `None`.
   */
  function RunProcedure(c: CallResult): (r: (Value, Value))
    ensures Truthy(r.0) <==>
              c.Fetched? && (c.row.None? || |c.row.value| == 0 || (|c.row.value| == 2 && Truthy(c.row.value[0])))
    ensures c.Raised? ==> r.1 == Str(c.message)
    ensures c.NoResultSet? ==> r.1 == Str(NoResultsMessage)
  {
    match c
    case Raised(m) => (Bool(false), Str(m))
    case NoResultSet => (Bool(false), Str(NoResultsMessage))
    case Fetched(row) =>
      if row.None? || |row.value| == 0 then (Bool(true), Null)
      else if |row.value| == 2 then (row.value[0], row.value[1])
      else (Bool(false), Str(UnpackMessage(|row.value|)))
  }

  /**
   * The two stages read the same CALL outcome differently: a CALL without a result set
   * and a NULL success flag pass in gold_integration and fail here.
   */
  lemma StagesReadOutcomesDifferently()
    ensures GoldIntegration.RunProcedure(NoResultSet).0 && !Truthy(RunProcedure(NoResultSet).0)
    ensures var c := Fetched(Some([Null, Null]));
            GoldIntegration.RunProcedure(c).0 && !Truthy(RunProcedure(c).0)
  {
  }

  /** `if not is_success:` decides the record of one procedure. */
  function ProcRun(name: string, c: CallResult): ProcRecord {
    var r := RunProcedure(c);
    Ran(name, Truthy(r.0), r.1)
  }

  /** One record per active procedure, in transform_id order; none is skipped. */
  function Records(procs: seq<string>, calls: nat -> CallResult): (r: seq<ProcRecord>)
    ensures |r| == |procs|
  {
    seq(|procs|, i requires 0 <= i < |procs| => ProcRun(procs[i], calls(i)))
  }

  lemma RecordAt(procs: seq<string>, calls: nat -> CallResult, i: nat)
    requires i < |procs|
    ensures Records(procs, calls)[i] == ProcRun(procs[i], calls(i))
  {
  }

  /** The run succeeds exactly when every procedure's flag is truthy. */
  lemma AllSuccessIff(procs: seq<string>, calls: nat -> CallResult)
    ensures AllOk(Records(procs, calls)) <==> forall i :: 0 <= i < |procs| ==> Truthy(RunProcedure(calls(i)).0)
  {
    var r := Records(procs, calls);
    if AllOk(r) {
      forall i | 0 <= i < |procs| ensures Truthy(RunProcedure(calls(i)).0) {
        RecordAt(procs, calls, i);
      }
    } else {
      var i :| 0 <= i < |r| && Failed(r[i]);
      RecordAt(procs, calls, i);
    }
  }

  /** One turn of the loop: `if not is_success:` clears all_success and adds the error line. */
  method Tally(name: string, c: CallResult, allSuccess0: bool, errors0: seq<string>, ghost done: seq<ProcRecord>)
    returns (allSuccess: bool, errors: seq<string>)
    requires allSuccess0 == AllOk(done) && errors0 == ErrorsOf(done)
    ensures allSuccess == AllOk(done + [ProcRun(name, c)])
    ensures errors == ErrorsOf(done + [ProcRun(name, c)])
  {
    var r := RunProcedure(c);
    ErrorsSnoc(done, Ran(name, Truthy(r.0), r.1));
    allSuccess, errors := allSuccess0, errors0;
    if !Truthy(r.0) {
      allSuccess := false;
      errors := errors + [ProcError(name, r.1)];
    }
  }

  /** The procedure loop of main(). */
  method RunProcedures(procs: seq<string>, calls: nat -> CallResult) returns (allSuccess: bool, errors: seq<string>)
    ensures allSuccess == AllOk(Records(procs, calls))
    ensures errors == ErrorsOf(Records(procs, calls))
  {
    ghost var spec := Records(procs, calls);
    ghost var done: seq<ProcRecord> := [];
    allSuccess, errors := true, [];
    var i := 0;
    while i < |procs|
      invariant 0 <= i <= |procs|
      invariant done == spec[..i]
      invariant allSuccess == AllOk(done) && errors == ErrorsOf(done)
    {
      allSuccess, errors := Tally(procs[i], calls(i), allSuccess, errors, done);
      RecordAt(procs, calls, i);
      SliceSnoc([], spec, i);
      done := done + [spec[i]];
      i := i + 1;
    }
    assert spec[..i] == spec;
  }

  /** move_file: where the batch file at `src` ends up for a run of the given status. */
  function MoveTarget(src: string, status: string): string {
    PathJoin(PathJoin(Dirname(Dirname(src)), Lower(status)), Basename(src))
  }

  predicate PlainName(s: string) {
    s != "" && forall i :: 0 <= i < |s| ==> s[i] != '/'
  }

  /** Dropping the last component of a path whose head is a plain relative folder. */
  lemma DirnameOfChild(a: string, b: string)
    requires PlainName(b) && a != "" && a[0] != '/' && a[|a| - 1] != '/'
    ensures Dirname(a + "/" + b) == a
    ensures Basename(a + "/" + b) == b
  {
    var p := a + "/" + b;
    assert p[|a|] == '/';
    assert forall i :: |a| < i < |p| ==> p[i] == b[i - |a| - 1];
    assert LastIndexOf(p, '/') == |a|;
    var head := p[..|a| + 1];
    assert head == a + "/";
    assert !AllSlashes(head) by { assert head[0] == a[0]; }
    assert head[..|a|] == a;
    assert RStripSlashes(head) == RStripSlashes(a);
  }

  lemma IncomingPath(schema: string, fileName: string)
    requires PlainName(schema) && PlainName(fileName)
    ensures PathJoin(BatchFolder(schema, "incoming"), fileName) == ("batch_info/" + schema) + "/" + "incoming" + "/" + fileName
  {
    var base := "batch_info/" + schema;
    assert !StartsWith(schema, "/") by { assert schema[0] != '/'; }
    assert !EndsWith(base, "/") by { assert base[|base| - 1] == schema[|schema| - 1]; }
    assert !StartsWith(fileName, "/") by { assert fileName[0] != '/'; }
    assert BatchFolder(schema, "incoming") == base + "/" + "incoming";
    assert !EndsWith(base + "/" + "incoming", "/");
  }

  /**
   * For a batch file in `batch_info/<schema>/incoming`, move_file lands it in the sibling
   * folder named after the lower-cased status (`success` or `failed`).
   */
  lemma LowerStatus(status: string)
    requires status == "SUCCESS" || status == "FAILED"
    ensures Lower(status) == (if status == "SUCCESS" then "success" else "failed")
  {
    var l := Lower(status);
    if status == "SUCCESS" {
      assert l[0] == 's' && l[1] == 'u' && l[2] == 'c' && l[3] == 'c' && l[4] == 'e' && l[5] == 's' && l[6] == 's';
    } else {
      assert l[0] == 'f' && l[1] == 'a' && l[2] == 'i' && l[3] == 'l' && l[4] == 'e' && l[5] == 'd';
    }
  }

  lemma MoveLandsBesideIncoming(schema: string, fileName: string, status: string)
    requires PlainName(schema) && PlainName(fileName)
    requires status == "SUCCESS" || status == "FAILED"
    ensures MoveTarget(PathJoin(BatchFolder(schema, "incoming"), fileName), status)
            == "batch_info/" + schema + "/" + (if status == "SUCCESS" then "success" else "failed") + "/" + fileName
  {
    var src := PathJoin(BatchFolder(schema, "incoming"), fileName);
    var base := "batch_info/" + schema;
    var low := if status == "SUCCESS" then "success" else "failed";
    IncomingParts(schema, fileName);
    LowerStatus(status);
    assert MoveTarget(src, status) == PathJoin(PathJoin(base, low), fileName);
    assert base[|base| - 1] == schema[|schema| - 1];
    FolderNamesPlain();
    FolderJoin(base, low, fileName);
  }

  lemma FolderNamesPlain()
    ensures PlainName("incoming") && PlainName("success") && PlainName("failed")
  {
  }

  /** The folder two levels up from a batch file in `incoming`, and its base name. */
  lemma IncomingParts(schema: string, fileName: string)
    requires PlainName(schema) && PlainName(fileName)
    ensures var src := PathJoin(BatchFolder(schema, "incoming"), fileName);
            Dirname(Dirname(src)) == "batch_info/" + schema && Basename(src) == fileName
  {
    var base := "batch_info/" + schema;
    var incoming := base + "/" + "incoming";
    var src := PathJoin(BatchFolder(schema, "incoming"), fileName);
    IncomingPath(schema, fileName);
    assert src == incoming + "/" + fileName;
    assert base[0] == 'b' && base[|base| - 1] == schema[|schema| - 1];
    assert incoming[0] == 'b' && incoming[|incoming| - 1] == 'g';
    DirnameOfChild(incoming, fileName);
    FolderNamesPlain();
    DirnameOfChild(base, "incoming");
    assert Dirname(src) == incoming;
  }

  /** Joining a folder, a plain sub-folder and a plain file name. */
  lemma FolderJoin(base: string, sub: string, fileName: string)
    requires base != "" && base[|base| - 1] != '/' && PlainName(sub) && PlainName(fileName)
    ensures PathJoin(PathJoin(base, sub), fileName) == base + "/" + sub + "/" + fileName
  {
    assert !EndsWith(base, "/");
    assert !StartsWith(sub, "/") by { assert sub[0] != '/'; }
    var mid := base + "/" + sub;
    assert PathJoin(base, sub) == mid;
    assert !EndsWith(mid, "/") by { assert mid[|mid| - 1] == sub[|sub| - 1]; }
    assert !StartsWith(fileName, "/") by { assert fileName[0] != '/'; }
  }

  /** What one invocation of the stage leaves behind. */
  datatype SilverRun = SilverRun(exitCode: int, jobLog: Option<JobLog>, records: seq<ProcRecord>,
                                 movedTo: Option<string>, recorded: Option<seq<string>>)

  const EarlyExit := SilverRun(1, None, [], None, None)

  predicate Loaded(args: seq<string>, incomingFiles: seq<string>, data: map<string, Value>) {
    && |args| >= 2
    && SingleBatchFile(BatchFolder(args[1], "incoming"), incomingFiles).Ok?
    && Truthy(Get(data, "batch_id"))
  }

  predicate ProceduresRun(args: seq<string>, incomingFiles: seq<string>, data: map<string, Value>,
                          clientRow: Option<Value>, procs: seq<string>) {
    Loaded(args, incomingFiles, data) && clientRow.Some? && procs != []
  }

  /**
   * main(): the outcome of one run. `clientRow` is the client_reference lookup, `procs`
   * the active procedures in transform_id order and `calls` what each CALL returned.
   */
  function SilverSpec(args: seq<string>, incomingFiles: seq<string>, data: map<string, Value>,
                      clientRow: Option<Value>, procs: seq<string>, calls: nat -> CallResult): (out: SilverRun)
    ensures !Loaded(args, incomingFiles, data) ==> out == EarlyExit
    ensures out.exitCode == 0 <==> ProceduresRun(args, incomingFiles, data, clientRow, procs)
    ensures out.exitCode == 1 || out.exitCode == 0
    ensures out.recorded.Some? <==> out.exitCode == 0
    ensures out.recorded.Some? ==> out.recorded.value == procs && out.records == Records(procs, calls)
    ensures Loaded(args, incomingFiles, data) ==>
              && out.jobLog.Some?
              && out.movedTo.Some?
              && (out.jobLog.value.status == "SUCCESS" <==> out.exitCode == 0 && AllOk(out.records))
              && (out.jobLog.value.status == "SUCCESS" ==> out.jobLog.value.message.None?)
              && (out.jobLog.value.status != "SUCCESS" ==> out.jobLog.value.status == "FAILED"
                                                           && out.jobLog.value.message.Some?)
  {
    if !Loaded(args, incomingFiles, data) then EarlyExit
    else
      var folder := BatchFolder(args[1], "incoming");
      var fileName := SingleBatchFile(folder, incomingFiles).value;
      var path := PathJoin(folder, fileName);
      var batchId := Get(data, "batch_id");
      if clientRow.None? then
        var msg := "client_schema '" + args[1] + "' tidak ditemukan di client_reference";
        SilverRun(1, Some(JobLog(JobName, Null, "FAILED", Some(msg), fileName, batchId)), [],
                  Some(MoveTarget(path, "FAILED")), None)
      else if procs == [] then
        var msg := "Tidak ditemukan procedure aktif untuk client_id " + Text(clientRow.value);
        SilverRun(1, Some(JobLog(JobName, clientRow.value, "FAILED", Some(msg), fileName, batchId)), [],
                  Some(MoveTarget(path, "FAILED")), None)
      else
        var recs := Records(procs, calls);
        ErrorsEmptyIffAllOk(recs);
        var status := if AllOk(recs) then "SUCCESS" else "FAILED";
        SilverRun(0, Some(JobLog(JobName, clientRow.value, status, JoinedErrors(ErrorsOf(recs)), fileName, batchId)),
                  recs, Some(MoveTarget(path, status)), Some(procs))
  }

  /**
   * main() against the batch file it loads from the incoming folder: the run's outcome,
   * and the procedure list recorded in the batch file before it is moved.
   */
  method RunStage(args: seq<string>, incomingFiles: seq<string>, file: BatchFile, clientRow: Option<Value>,
              procs: seq<string>, calls: nat -> CallResult) returns (out: SilverRun)
    modifies file
    ensures out == SilverSpec(args, incomingFiles, old(file.data), clientRow, procs, calls)
    ensures out.recorded.Some? ==>
              file.data == old(file.data)[ProcedureKey(old(file.data).Keys, TransformationKey) := Names(procs)]
    ensures out.recorded.None? ==> file.data == old(file.data)
  {
    if |args| < 2 {
      return EarlyExit;
    }
    var folder := BatchFolder(args[1], "incoming");
    var loaded := SingleBatchFile(folder, incomingFiles);
    if loaded.Err? {
      return EarlyExit;
    }
    var fileName := loaded.value;
    var path := PathJoin(folder, fileName);
    var batchId := Get(file.data, "batch_id");
    if !Truthy(batchId) {
      return EarlyExit;
    }
    if clientRow.None? {
      var msg := "client_schema '" + args[1] + "' tidak ditemukan di client_reference";
      return SilverRun(1, Some(JobLog(JobName, Null, "FAILED", Some(msg), fileName, batchId)), [],
                       Some(MoveTarget(path, "FAILED")), None);
    }
    var clientId := clientRow.value;
    if procs == [] {
      var msg := "Tidak ditemukan procedure aktif untuk client_id " + Text(clientId);
      return SilverRun(1, Some(JobLog(JobName, clientId, "FAILED", Some(msg), fileName, batchId)), [],
                       Some(MoveTarget(path, "FAILED")), None);
    }
    var allSuccess, errors := RunProcedures(procs, calls);
    var finalError := JoinedErrors(errors);
    var _ := file.RecordProcedures(TransformationKey, procs);
    ErrorsEmptyIffAllOk(Records(procs, calls));
    var status := if allSuccess then "SUCCESS" else "FAILED";
    out := SilverRun(0, Some(JobLog(JobName, clientId, status, if allSuccess then None else finalError, fileName, batchId)),
                     Records(procs, calls), Some(MoveTarget(path, status)), Some(procs));
  }
}
