// handlers/rerun_batch.py: re-runs the last three stages for every JSON file waiting in a
// client's `data/<schema>/incoming` folder. Per file: mapping validation, then required-column
// validation, then the bronze load, each a child process; the first non-zero exit moves the
// file to `failed` and skips the stages after it, and a file that passes all three moves to
// `archive`. Every file gets one job-log row with its outcome and the batch identifier read
// from its name. The child processes' exit codes and the folder listing are inputs.
module RerunBatch {
  import opened Optional
  import opened PyStrings

  const JobName := "rerun_batch"

  // ---------------------------------------------------------------------------------------
  // The stage chain

  datatype Stage = MappingStage | ReqColsStage | LoadStage

  /** The stages in the order the script runs them. */
  const Stages: seq<Stage> := [MappingStage, ReqColsStage, LoadStage]

  function Script(s: Stage): string {
    match s
    case MappingStage => "scripts/validate_mapping.py"
    case ReqColsStage => "scripts/validate_req_cols.py"
    case LoadStage => "scripts/load_to_bronze.py"
  }

  /** The `final_reason` a failing stage leaves. */
  function FailReason(s: Stage): string {
    match s
    case MappingStage => "FAILED on validate_mapping"
    case ReqColsStage => "FAILED on validate_req_cols"
    case LoadStage => "FAILED on load_to_bronze"
  }

  /** `subprocess.run(["python", script, client_schema, json_file])` */
  datatype Invocation = Invocation(script: string, schema: string, file: string)

  /** A `shutil.move`. */
  datatype Move = Move(from: string, to: string)

  /** A row of tools.job_execution_log as this script writes it (times left out). */
  datatype RerunLog = RerunLog(jobName: string, schema: string, status: string, message: Option<string>,
                               fileName: string, batchId: Option<string>)

  function Folder(schema: string, sub: string): string { "data/" + schema + "/" + sub }

  /** The stages from `k` on, stopping after the first that exits non-zero: the stages run
    * and the one that failed, if any. */
  function ChainFrom(k: nat, file: string, exitCode: (Stage, string) -> int): (seq<Stage>, Option<Stage>)
    requires k <= |Stages|
    decreases |Stages| - k
  {
    if k == |Stages| then ([], None)
    else if exitCode(Stages[k], file) != 0 then ([Stages[k]], Some(Stages[k]))
    else
      var rest := ChainFrom(k + 1, file, exitCode);
      ([Stages[k]] + rest.0, rest.1)
  }

  /** What one file's turn does: the invocations, the move, and the job-log row. */
  datatype FileTurn = FileTurn(invoked: seq<Invocation>, move: Move, log: RerunLog)

  function TurnOf(schema: string, file: string, exitCode: (Stage, string) -> int): FileTurn {
    var chain := ChainFrom(0, file, exitCode);
    var from := Folder(schema, "incoming") + "/" + file;
    var invoked := seq(|chain.0|, i requires 0 <= i < |chain.0| => Invocation(Script(chain.0[i]), schema, file));
    match chain.1
    case None =>
      FileTurn(invoked, Move(from, Folder(schema, "archive") + "/" + file),
               RerunLog(JobName, schema, "SUCCESS", None, file, RerunBatchId(file)))
    case Some(s) =>
      FileTurn(invoked, Move(from, Folder(schema, "failed") + "/" + file),
               RerunLog(JobName, schema, "FAILED", Some(FailReason(s)), file, RerunBatchId(file)))
  }

  /** One file's turn: the stages in order, leaving the chain at the first failure, then the
    * move and the log row. */
  method ProcessFile(schema: string, file: string, exitCode: (Stage, string) -> int) returns (turn: FileTurn)
    ensures turn == TurnOf(schema, file, exitCode)
  {
    var invoked: seq<Invocation> := [];
    var failed: Option<Stage> := None;
    var k := 0;
    while k < |Stages|
      invariant 0 <= k <= |Stages|
      invariant failed.None? && forall j :: 0 <= j < k ==> exitCode(Stages[j], file) == 0
      invariant |invoked| == k
      invariant forall i :: 0 <= i < k ==> invoked[i] == Invocation(Script(Stages[i]), schema, file)
    {
      var stage := Stages[k];
      invoked := invoked + [Invocation(Script(stage), schema, file)];
      if exitCode(stage, file) != 0 {
        ChainSkipsPassed(k, file, exitCode);
        assert Stages[..k + 1] == Stages[..k] + [stage];
        failed := Some(stage);
        k := k + 1;
        assert ChainFrom(0, file, exitCode) == (Stages[..k], failed);
        break;
      }
      k := k + 1;
    }
    if failed.None? {
      ChainSkipsPassed(|Stages|, file, exitCode);
      assert Stages[..|Stages|] + [] == Stages;
    }
    var from := Folder(schema, "incoming") + "/" + file;
    var status, reason, to := "SUCCESS", None, Folder(schema, "archive") + "/" + file;
    if failed.Some? {
      status, reason, to := "FAILED", Some(FailReason(failed.value)), Folder(schema, "failed") + "/" + file;
    }
    turn := FileTurn(invoked, Move(from, to), RerunLog(JobName, schema, status, reason, file, RerunBatchId(file)));
  }

  /** Stages that exit 0 only pass the chain on. */
  lemma {:induction false} ChainSkipsPassed(k: nat, file: string, exitCode: (Stage, string) -> int)
    requires k <= |Stages| && forall j :: 0 <= j < k ==> exitCode(Stages[j], file) == 0
    ensures ChainFrom(0, file, exitCode) == (Stages[..k] + ChainFrom(k, file, exitCode).0, ChainFrom(k, file, exitCode).1)
  {
    if k > 0 {
      ChainSkipsPassed(k - 1, file, exitCode);
      var rest := ChainFrom(k, file, exitCode);
      assert ChainFrom(k - 1, file, exitCode) == ([Stages[k - 1]] + rest.0, rest.1);
      assert Stages[..k] == Stages[..k - 1] + [Stages[k - 1]];
      assert Stages[..k - 1] + ([Stages[k - 1]] + rest.0) == Stages[..k] + rest.0;
    } else {
      assert Stages[..0] + ChainFrom(0, file, exitCode).0 == ChainFrom(0, file, exitCode).0;
    }
  }

  /** The chain ends without a failure exactly when every stage from `k` on exits 0, and
    * then it has run all of them. */
  lemma {:induction false} ChainPassesIffAllZero(k: nat, file: string, exitCode: (Stage, string) -> int)
    requires k <= |Stages|
    ensures var c := ChainFrom(k, file, exitCode);
            c.1.None? <==> forall j :: k <= j < |Stages| ==> exitCode(Stages[j], file) == 0
    ensures var c := ChainFrom(k, file, exitCode);
            c.1.None? ==> c.0 == Stages[k..]
    decreases |Stages| - k
  {
    if k < |Stages| && exitCode(Stages[k], file) == 0 {
      ChainPassesIffAllZero(k + 1, file, exitCode);
      assert Stages[k..] == [Stages[k]] + Stages[k + 1..];
    }
  }

  /** A failing chain runs the stages in order up to and including the first one that exits
    * non-zero, and names that one. */
  lemma {:induction false} ChainStopsAtFirstFailure(k: nat, file: string, exitCode: (Stage, string) -> int)
    requires k <= |Stages|
    ensures var c := ChainFrom(k, file, exitCode);
            c.1.Some? ==> exists j :: k <= j < |Stages| && c.0 == Stages[k..j + 1] && c.1 == Some(Stages[j])
                                      && exitCode(Stages[j], file) != 0
                                      && forall i :: k <= i < j ==> exitCode(Stages[i], file) == 0
    decreases |Stages| - k
  {
    if k < |Stages| && exitCode(Stages[k], file) == 0 {
      ChainStopsAtFirstFailure(k + 1, file, exitCode);
      var c := ChainFrom(k + 1, file, exitCode);
      if c.1.Some? {
        var j :| k + 1 <= j < |Stages| && c.0 == Stages[k + 1..j + 1] && c.1 == Some(Stages[j])
                 && exitCode(Stages[j], file) != 0
                 && forall i :: k + 1 <= i < j ==> exitCode(Stages[i], file) == 0;
        assert Stages[k..j + 1] == [Stages[k]] + Stages[k + 1..j + 1];
      }
    } else if k < |Stages| {
      assert Stages[k..k + 1] == [Stages[k]];
    }
  }

  /** A file moves to `archive` exactly when all three stages exit 0, to `failed` otherwise;
    * it is logged SUCCESS or FAILED accordingly, a failure naming the first stage that failed,
    * and the stages after that one never run. */
  lemma ArchivedIffAllPass(schema: string, file: string, exitCode: (Stage, string) -> int)
    ensures var t := TurnOf(schema, file, exitCode);
            var all := exitCode(MappingStage, file) == 0 && exitCode(ReqColsStage, file) == 0
                       && exitCode(LoadStage, file) == 0;
            (t.move.to == Folder(schema, "archive") + "/" + file <==> all)
            && (t.log.status == "SUCCESS" <==> all) && (t.log.message.None? <==> all)
            && (all ==> |t.invoked| == 3)
    ensures var t := TurnOf(schema, file, exitCode);
            exitCode(MappingStage, file) != 0 ==>
              |t.invoked| == 1 && t.log.message == Some("FAILED on validate_mapping")
              && t.move.to == Folder(schema, "failed") + "/" + file
    ensures var t := TurnOf(schema, file, exitCode);
            exitCode(MappingStage, file) == 0 && exitCode(ReqColsStage, file) != 0 ==>
              |t.invoked| == 2 && t.log.message == Some("FAILED on validate_req_cols")
    ensures var t := TurnOf(schema, file, exitCode);
            exitCode(MappingStage, file) == 0 && exitCode(ReqColsStage, file) == 0 && exitCode(LoadStage, file) != 0 ==>
              |t.invoked| == 3 && t.log.message == Some("FAILED on load_to_bronze")
  {
    ChainPassesIffAllZero(0, file, exitCode);
    ChainStopsAtFirstFailure(0, file, exitCode);
    var a := Folder(schema, "archive") + "/" + file;
    var f := Folder(schema, "failed") + "/" + file;
    assert a != f by {
      assert a[|Folder(schema, "")|] == 'a';
      assert f[|Folder(schema, "")|] == 'f';
    }
  }

  // ---------------------------------------------------------------------------------------
  // The batch identifier of a file name

  /** `"BATCH" + json_file.split("_BATCH")[-1].replace(".json", "")` when the name contains
    * `_BATCH`, None otherwise. */
  function RerunBatchId(file: string): (r: Option<string>)
    ensures r.Some? <==> Contains(file, "_BATCH")
    ensures r.Some? ==> StartsWith(r.value, "BATCH")
  {
    if Contains(file, "_BATCH") then Some("BATCH" + Replace(AfterLast(file, "_BATCH"), ".json", "")) else None
  }

  /** A tail without `_` follows the last occurrence of a separator that has `_` only at
    * its head. */
  lemma {:induction false} AfterLastMark(stem: string, sep: string, tail: string)
    requires |sep| > 0 && sep[0] == '_' && forall i :: 1 <= i < |sep| ==> sep[i] != '_'
    requires forall i :: 0 <= i < |tail| ==> tail[i] != '_'
    ensures AfterLast(stem + sep + tail, sep) == tail
    decreases |tail|
  {
    var s := stem + sep + tail;
    if tail == [] {
      assert s[|s| - |sep|..] == sep;
      assert EndsWith(s, sep);
    } else {
      var t0 := tail[..|tail| - 1];
      var init := s[..|s| - 1];
      assert init == stem + sep + t0;
      AfterLastMark(stem, sep, t0);
      MarkNotAtEnd(stem, sep, tail);
      AfterLastStep(s, sep);
      assert s[|s| - 1] == tail[|tail| - 1];
      assert t0 + [tail[|tail| - 1]] == tail;
    }
  }

  lemma MarkNotAtEnd(stem: string, sep: string, tail: string)
    requires |sep| > 0 && sep[0] == '_' && forall i :: 1 <= i < |sep| ==> sep[i] != '_'
    requires tail != [] && forall i :: 0 <= i < |tail| ==> tail[i] != '_'
    ensures !EndsWith(stem + sep + tail, sep)
  {
    var s := stem + sep + tail;
    if |tail| >= |sep| {
      assert s[|s| - |sep|] == tail[|tail| - |sep|];
    } else {
      assert s[|s| - |sep|] == sep[|tail|];
    }
    assert s[|s| - |sep|..][0] != sep[0];
  }

  /** A name in the pipeline's form `<stem>_BATCHdddddd.json` gives back `BATCHdddddd`. */
  lemma StampedNameGivesBatch(stem: string, digits: string)
    requires AllDigits(digits)
    ensures RerunBatchId(stem + "_BATCH" + digits + ".json") == Some("BATCH" + digits)
  {
    var tail := digits + ".json";
    assert forall i :: 0 <= i < |tail| ==> tail[i] != '_' by {
      forall i | 0 <= i < |tail| ensures tail[i] != '_' {
        if i < |digits| {
          assert IsAsciiDigit(digits[i]);
        } else {
          assert tail[i] == ".json"[i - |digits|];
        }
      }
    }
    var sep := "_BATCH";
    var s := stem + sep + tail;
    assert s == stem + "_BATCH" + digits + ".json";
    assert OccursAt(s, sep, |stem|);
    assert forall i :: 1 <= i < |sep| ==> sep[i] != '_';
    AfterLastMark(stem, sep, tail);
    assert forall i :: 0 <= i < |digits| ==> digits[i] != '.' by {
      forall i | 0 <= i < |digits| ensures digits[i] != '.' {
        assert IsAsciiDigit(digits[i]);
      }
    }
    ReplaceTail(digits, ".json", "");
    assert digits + "" == digits;
    assert Replace(tail, ".json", "") == digits;
    assert RerunBatchId(s) == Some("BATCH" + digits);
  }

  // ---------------------------------------------------------------------------------------
  // The run over the folder

  /** The names in `os.listdir(incoming_dir)` that end in `.json`, in listing order. */
  function JsonFiles(names: seq<string>): (r: seq<string>)
    ensures |r| <= |names|
    ensures forall f :: f in r <==> f in names && EndsWith(f, ".json")
  {
    if names == [] then []
    else JsonFiles(names[..|names| - 1]) + (if EndsWith(names[|names| - 1], ".json") then [names[|names| - 1]] else [])
  }

  /** What a run does: the exit code, and for every file in order its invocations, move and
    * job-log row. */
  datatype RerunRun = RerunRun(exitCode: int, turns: seq<FileTurn>)

  /** `main()`: no schema argument exits 1, a missing incoming folder raises out of the script
    * (`listing` is None), no JSON file returns without a log, and otherwise every JSON file
    * takes its turn. */
  function RerunSpec(args: seq<string>, listing: Option<seq<string>>, exitCode: (Stage, string) -> int): RerunRun {
    if |args| < 1 || listing.None? then RerunRun(1, [])
    else
      var files := JsonFiles(listing.value);
      RerunRun(0, seq(|files|, i requires 0 <= i < |files| => TurnOf(args[0], files[i], exitCode)))
  }

  method Rerun(args: seq<string>, listing: Option<seq<string>>, exitCode: (Stage, string) -> int)
    returns (run: RerunRun)
    ensures run == RerunSpec(args, listing, exitCode)
  {
    if |args| < 1 || listing.None? {
      return RerunRun(1, []);
    }
    var schema := args[0];
    var files := JsonFiles(listing.value);
    if files == [] {
      return RerunRun(0, []);
    }
    var turns: seq<FileTurn> := [];
    for i := 0 to |files|
      invariant turns == seq(i, j requires 0 <= j < i => TurnOf(schema, files[j], exitCode))
    {
      var turn := ProcessFile(schema, files[i], exitCode);
      turns := turns + [turn];
    }
    run := RerunRun(0, turns);
  }

  /** Exactly one log row per JSON file, in listing order, whatever the outcome; no JSON file
    * means no log at all. */
  lemma OneLogPerFile(args: seq<string>, listing: Option<seq<string>>, exitCode: (Stage, string) -> int)
    requires |args| >= 1 && listing.Some?
    ensures var run := RerunSpec(args, listing, exitCode);
            var files := JsonFiles(listing.value);
            run.exitCode == 0 && |run.turns| == |files|
            && (forall i :: 0 <= i < |files| ==> run.turns[i].log.fileName == files[i] && run.turns[i].log.jobName == JobName)
    ensures var run := RerunSpec(args, listing, exitCode);
            (forall f :: f in listing.value ==> !EndsWith(f, ".json")) ==> run.turns == []
  {
    var files := JsonFiles(listing.value);
    if forall f :: f in listing.value ==> !EndsWith(f, ".json") {
      NoJsonFiles(listing.value);
    }
  }

  /** A listing without a `.json` name has no JSON files. */
  lemma NoJsonFiles(names: seq<string>)
    requires forall f :: f in names ==> !EndsWith(f, ".json")
    ensures JsonFiles(names) == []
  {
  }

  /** Files are processed one after another and independently: each file's turn depends only
    * on its own stage exits. */
  lemma TurnsIndependent(args: seq<string>, listing: Option<seq<string>>, e1: (Stage, string) -> int,
                         e2: (Stage, string) -> int, f: string)
    requires |args| >= 1 && listing.Some?
    requires forall s :: e1(s, f) == e2(s, f)
    ensures var r1 := RerunSpec(args, listing, e1);
            var r2 := RerunSpec(args, listing, e2);
            forall i :: 0 <= i < |r1.turns| && JsonFiles(listing.value)[i] == f ==> r1.turns[i] == r2.turns[i]
  {
    forall k | 0 <= k <= |Stages| ensures ChainFrom(k, f, e1) == ChainFrom(k, f, e2) {
      ChainSameExits(k, f, e1, e2);
    }
  }

  lemma {:induction false} ChainSameExits(k: nat, f: string, e1: (Stage, string) -> int, e2: (Stage, string) -> int)
    requires k <= |Stages| && forall s :: e1(s, f) == e2(s, f)
    ensures ChainFrom(k, f, e1) == ChainFrom(k, f, e2)
    decreases |Stages| - k
  {
    if k < |Stages| {
      ChainSameExits(k + 1, f, e1, e2);
    }
  }
}
