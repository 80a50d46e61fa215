// The orchestrator's run (handlers/batch_processing.py, `process_client`): the batch identifier
// it works under, the planning of the mode, and the processing loop that takes each planned
// file through the stage scripts and aggregates one batch status, logged once.
module BatchRun {
  import opened Optional
  import opened PyStrings
  import opened Json
  import opened BatchTokens
  import opened FileNames
  import opened BatchConfig
  import opened Manifest
  import opened BatchPlan
  import ConvertToParquet

  datatype Mode = Start | Restart | Reprocessing

  function JobName(mode: Mode): (r: string)
    ensures mode == Start <==> r == "Batch Processing Start"
    ensures mode == Restart <==> r == "Batch Processing Restart"
    ensures mode == Reprocessing <==> r == "Batch Reprocessing"
  {
    match mode
    case Start => "Batch Processing Start"
    case Restart => "Batch Processing Restart"
    case Reprocessing => "Batch Reprocessing"
  }

  /** The stage scripts the loop runs, each on one file. */
  datatype Stage = ConvertStage | MappingStage | RowStage | LoadStage

  datatype Invocation = Invocation(stage: Stage, file: string)

  /** What the converter child meets when the loop runs it on a file: whether the raw file is
    * in its success folder, whether its database connection opens, what reading or writing the
    * data raises, whether each of its manifest write attempts succeeds, and the manifest of
    * another batch, which it opens instead of the loop's when the first batch token of the
    * file's name is not the loop's batch. */
  datatype ConvertFx = ConvertFx(sourceExists: bool, dbUp: bool, ioError: Option<string>, writes: seq<bool>,
                                 other: Stored)

  /** What the world outside the model does while one file is handled: the error the audit
    * insert raises (start mode), whether each write attempt of the loop's upsert succeeds,
    * what the converter child meets, and the exit codes of the other stages. */
  datatype Effects = Effects(auditError: Option<string>, upsertWrites: seq<bool>, convert: ConvertFx,
                             mappingCode: int, rowCode: int, loadCode: int)

  /** The `tools.file_audit_log` row start mode inserts for an accepted file. */
  datatype AuditInsert = AuditInsert(phys: string, batchId: string, logical: Value, sourceType: Value,
                                     sourceSystem: Value, configStatus: string)

  /** A `log_batch_status` row of `tools.job_execution_log`. */
  datatype BatchLog = BatchLog(clientId: Value, status: string, batchId: string, jobName: string, message: Option<string>)

  /** What handling one file amounts to: the stages run, the audit row inserted, the manifest
    * entry upserted, either the failure message or the name recorded as a success, and the
    * manifest the file leaves behind. */
  datatype FileRun = FileRun(invoked: seq<Invocation>, audit: Option<AuditInsert>, upsert: Option<Entry>,
                             failure: Option<string>, success: Option<string>, after: Stored)

  /** The stage chain's verdict on one file, and the manifest it leaves. */
  datatype Chain = Chain(invoked: seq<Invocation>, error: Option<string>, after: Stored)

  const ConvertFailed := "FAILED on convert_to_parquet"
  const ConvertTimeout := "FAILED: convert_to_parquet did not update batch_info with parquet_name within timeout"
  const MappingFailed := "FAILED on validate_mapping"
  const LoadFailed := "FAILED on load_to_bronze"

  /** `item["ss"] or "unknown"` */
  function SystemOf(ss: Value): (r: Value)
    ensures Truthy(r)
    ensures Truthy(ss) ==> r == ss
  {
    if Truthy(ss) then ss else Str("unknown")
  }

  /** `ext.lower()`: the lower-cased text, or the AttributeError a non-string raises. */
  function LowerOf(v: Value): (r: Result<string, string>)
    ensures v.Str? <==> r.Ok?
    ensures v.Str? ==> r.value == Lower(v.s)
  {
    match v
    case Str(s) => Ok(Lower(s))
    case Null => Err("'NoneType' object has no attribute 'lower'")
    case Int(_) => Err("'int' object has no attribute 'lower'")
    case Bool(_) => Err("'bool' object has no attribute 'lower'")
    case Names(_) => Err("'list' object has no attribute 'lower'")
  }

  /** `ext.lower() == "csv"` */
  predicate IsCsv(ext: Value) { ext.Str? && Lower(ext.s) == "csv" }

  /** The manifest skeleton of this batch: the client and batch named at top level. */
  function BatchSkeleton(schema: string, clientId: Value, batchId: string): (d: Document)
    ensures d.files == [] && d.clientId == clientId && d.batchId == Str(batchId)
  {
    Document(Str(schema), clientId, Str(batchId), [])
  }

  /** The entry the loop upserts for a file handled under `name`: the item's configuration,
    * its system and type, and no parquet name yet. */
  function EntryFor(name: string, it: Item, ss: Value): (e: Entry)
    ensures e.Keys == AllowedKeys
    ensures e[PhysicalKey] == Str(name) && e[ParquetKey] == Null
  {
    map[PhysicalKey := Str(name), "logical_source_file" := it.logical, "source_system" := ss,
        "source_type" := it.ext, "target_schema" := it.targetSchema, "target_table" := it.targetTable,
        "source_config" := it.sourceConfig, ParquetKey := Null]
  }

  /** Some write among the upsert's attempts succeeds. */
  predicate WriteLands(writes: seq<bool>) {
    exists i :: 0 <= i < MaxUpsertAttempts && i < |writes| && writes[i]
  }

  /** The manifest after one upsert with the given write outcomes. */
  function UpsertResult(s: Stored, skeleton: Document, e: Entry, writes: seq<bool>): (r: Stored)
    ensures !WriteLands(writes) ==> r == s
    ensures WriteLands(writes) ==> r == Stored(Upserted(s, skeleton, e))
  {
    if WriteLands(writes) then Stored(Upserted(s, skeleton, e)) else s
  }

  /** The converter opens the manifest of the first batch token in the file's name; that is
    * the loop's manifest exactly when the token is the loop's batch. */
  predicate OwnManifest(name: string, batchId: string) {
    ExtractBatchId(name) == Some(batchId)
  }

  /** The converter child run as `convert_to_parquet.py <schema> <name>` while the loop of
    * batch `batchId` holds the manifest `s`: its outcome and the loop's manifest after it. On
    * a name whose first token is another batch's it reads and records in that batch's
    * manifest, and the loop's is left as it was. */
  function Convert(schema: string, batchId: string, name: string, cx: ConvertFx, s: Stored): (r: (ConvertToParquet.Outcome, Stored))
    ensures OwnManifest(name, batchId) ==>
              r == ConvertToParquet.ConvertEffect([schema, name], s, cx.sourceExists, cx.dbUp, cx.ioError, cx.writes)
    ensures !OwnManifest(name, batchId) ==>
              r == (ConvertToParquet.ConvertEffect([schema, name], cx.other, cx.sourceExists, cx.dbUp, cx.ioError, cx.writes).0, s)
  {
    if OwnManifest(name, batchId) then
      ConvertToParquet.ConvertEffect([schema, name], s, cx.sourceExists, cx.dbUp, cx.ioError, cx.writes)
    else
      (ConvertToParquet.ConvertEffect([schema, name], cx.other, cx.sourceExists, cx.dbUp, cx.ioError, cx.writes).0, s)
  }

  /** The converter exits 0 and the loop's manifest after it publishes the parquet name of
    * `name`, which is what the wait polls for: every poll reads the loop's manifest as the
    * converter left it. */
  predicate Converted(schema: string, batchId: string, name: string, cx: ConvertFx, s: Stored) {
    var (out, after) := Convert(schema, batchId, name, cx, s);
    out.exitCode == 0 && Published(after, name)
  }

  /** Mapping validation, row validation (whose failure is only a warning) and the load, after
    * the stages `done`; none of them writes the manifest. */
  function Checks(done: seq<Invocation>, name: string, fx: Effects, s: Stored): (c: Chain)
    ensures c.after == s && |c.invoked| > |done| && c.invoked[..|done|] == done
    ensures c.error.None? <==> fx.mappingCode == 0 && fx.loadCode == 0
    ensures c.error.None? ==> Invocation(LoadStage, name) in c.invoked
    ensures Invocation(MappingStage, name) in c.invoked
    ensures forall k :: |done| <= k < |c.invoked| ==> c.invoked[k].file == name && c.invoked[k].stage != ConvertStage
  {
    var mapped := done + [Invocation(MappingStage, name)];
    if fx.mappingCode != 0 then Chain(mapped, Some(MappingFailed), s)
    else
      var loaded := mapped + [Invocation(RowStage, name), Invocation(LoadStage, name)];
      Chain(loaded, if fx.loadCode != 0 then Some(LoadFailed) else None, s)
  }

  /** The CSV stages from the manifest `s`: the converter child, which records the parquet
    * name in the manifest, the wait for that record, then the checks. */
  function ConvertChain(schema: string, batchId: string, name: string, fx: Effects, s: Stored): (c: Chain)
    ensures c.after == Convert(schema, batchId, name, fx.convert, s).1
    ensures c.invoked != [] && c.invoked[0] == Invocation(ConvertStage, name)
    ensures forall k :: 0 <= k < |c.invoked| ==> c.invoked[k].file == name
    ensures c.error.None? <==> fx.mappingCode == 0 && fx.loadCode == 0 && Converted(schema, batchId, name, fx.convert, s)
    ensures c.error.None? ==> Invocation(LoadStage, name) in c.invoked
    ensures Invocation(MappingStage, name) in c.invoked ==> Converted(schema, batchId, name, fx.convert, s)
    ensures Convert(schema, batchId, name, fx.convert, s).0.exitCode != 0 ==> c.error == Some(ConvertFailed)
  {
    var (out, after) := Convert(schema, batchId, name, fx.convert, s);
    var conv := [Invocation(ConvertStage, name)];
    if out.exitCode != 0 then Chain(conv, Some(ConvertFailed), after)
    else if !Published(after, name) then Chain(conv, Some(ConvertTimeout), after)
    else Checks(conv, name, fx, after)
  }

  /** The stages of restart and start mode on the file `name`, from the manifest `s` the
    * upsert left: for CSV the converter child, which records the parquet name in the manifest,
    * and the wait for that record; then mapping validation, row validation and the load,
    * stopping at the first failure. */
  function StageChain(schema: string, batchId: string, name: string, ext: Value, fx: Effects, s: Stored): (c: Chain)
    ensures c.error.None? ==> Invocation(LoadStage, name) in c.invoked && fx.mappingCode == 0 && fx.loadCode == 0
    ensures c.error.None? <==> ext.Str? && fx.mappingCode == 0 && fx.loadCode == 0
                               && (IsCsv(ext) ==> Converted(schema, batchId, name, fx.convert, s))
    ensures forall k :: 0 <= k < |c.invoked| ==> c.invoked[k].file == name
    ensures Invocation(MappingStage, name) in c.invoked ==> ext.Str? && (IsCsv(ext) ==> Converted(schema, batchId, name, fx.convert, s))
    ensures Invocation(ConvertStage, name) in c.invoked <==> IsCsv(ext)
    ensures IsCsv(ext) && Convert(schema, batchId, name, fx.convert, s).0.exitCode != 0 ==> c.error == Some(ConvertFailed)
    ensures c.after == if IsCsv(ext) then Convert(schema, batchId, name, fx.convert, s).1 else s
  {
    match LowerOf(ext)
    case Err(e) => Chain([], Some(e), s)
    case Ok(t) =>
      if t == "csv" then ConvertChain(schema, batchId, name, fx, s)
      else
        Checks([], name, fx, s)
  }

  /** A file's failure line: `<original name> - <reason>`. */
  function Failure(orig: string, reason: string): (r: string)
    ensures StartsWith(r, orig + " - ")
  {
    assert (orig + " - " + reason)[..|orig + " - "|] == orig + " - ";
    orig + " - " + reason
  }

  /** The name the stages see: start mode's batch-stamped name, else the original. */
  function WorkingName(mode: Mode, batchId: string, it: Item): string {
    if mode == Start then RenameWithBatch(it.origName, batchId) else it.origName
  }

  /** The loop's upsert of the file's entry under `name` into the manifest `s`, then the stage
    * chain on the manifest that leaves. */
  function Staged(schema: string, batchId: string, name: string, it: Item, fx: Effects, s: Stored): Chain {
    StageChain(schema, batchId, name, it.ext, fx, UpsertResult(s, NullSkeleton, EntryFor(name, it, SystemOf(it.ss)), fx.upsertWrites))
  }

  /** A file that reached its upsert, once its chain `c` has run: a failure under its original
    * name, or a success under `name`. */
  function Chained(orig: string, name: string, audit: Option<AuditInsert>, e: Entry, c: Chain): (f: FileRun)
    ensures f.invoked == c.invoked && f.audit == audit && f.upsert == Some(e) && f.after == c.after
    ensures f.failure.None? <==> c.error.None?
    ensures f.failure.Some? ==> f.failure.value == Failure(orig, c.error.value)
    ensures f.success == (if c.error.None? then Some(name) else None)
  {
    FileRun(c.invoked, audit, Some(e),
            if c.error.Some? then Some(Failure(orig, c.error.value)) else None,
            if c.error.Some? then None else Some(name), c.after)
  }

  /** One file of the loop (the restart guard aside), from the manifest `s` the files before it
    * left. Reprocessing validates and loads the artifact under its own name; restart upserts
    * the manifest entry and runs the chain; start stamps the name with the batch, inserts the
    * audit row, upserts and runs the chain. A failure is reported as `<original name> -
    * <reason>`. */
  function FileStep(mode: Mode, schema: string, batchId: string, it: Item, fx: Effects, s: Stored): (f: FileRun)
    ensures f.failure.None? <==> f.success.Some?
    ensures f.failure.Some? ==> StartsWith(f.failure.value, it.origName + " - ")
    ensures mode == Reprocessing ==> f.upsert.None? && f.audit.None?
    ensures mode != Reprocessing && f.invoked != [] ==> f.upsert.Some?
    ensures var name := WorkingName(mode, batchId, it);
            (forall k :: 0 <= k < |f.invoked| ==> f.invoked[k].file == name)
            && (f.success.Some? ==> f.success.value == name)
            && (f.upsert.Some? ==> f.upsert.value == EntryFor(name, it, SystemOf(it.ss))
                                   && f.after == Staged(schema, batchId, name, it, fx, s).after)
    ensures f.upsert.None? ==> f.after == s
    ensures f.audit.Some? ==> mode == Start && f.audit.value.phys == RenameWithBatch(it.origName, batchId)
                              && f.audit.value.configStatus == (if Truthy(it.logical) then "SUCCESS" else "FAILED")
  {
    var ss := SystemOf(it.ss);
    match mode
    case Reprocessing =>
      var name := it.origName;
      if fx.mappingCode != 0 then
        FileRun([Invocation(MappingStage, name)], None, None, Some(Failure(name, "validate_mapping failed")), None, s)
      else
        var invoked := [Invocation(MappingStage, name), Invocation(RowStage, name), Invocation(LoadStage, name)];
        if fx.loadCode != 0 then FileRun(invoked, None, None, Some(Failure(name, "load_to_bronze failed")), None, s)
        else FileRun(invoked, None, None, None, Some(name), s)
    case Restart =>
      Chained(it.origName, it.origName, None, EntryFor(it.origName, it, ss), Staged(schema, batchId, it.origName, it, fx, s))
    case Start =>
      var name := RenameWithBatch(it.origName, batchId);
      if fx.auditError.Some? then FileRun([], None, None, Some(Failure(it.origName, fx.auditError.value)), None, s)
      else
        var audit := AuditInsert(name, batchId, it.logical, it.ext, ss, if Truthy(it.logical) then "SUCCESS" else "FAILED");
        Chained(it.origName, name, Some(audit), EntryFor(name, it, ss), Staged(schema, batchId, name, it, fx, s))
  }

  /** The loop's state: the batch status and last error message, the files recorded as
    * successes, the stages run, the audit rows inserted, the manifest, and whether the
    * restart guard ended the run. */
  datatype Run = Run(status: string, error: Option<string>, succeeded: seq<string>, invoked: seq<Invocation>,
                     audits: seq<AuditInsert>, manifest: Stored, aborted: bool)

  /** The state before the first file, over the manifest `s`. */
  function Fresh(s: Stored): Run { Run("SUCCESS", None, [], [], [], s, false) }

  function Some1<T>(o: Option<T>): (r: seq<T>)
    ensures o.None? ==> r == []
    ensures o.Some? ==> r == [o.value]
  {
    if o.Some? then [o.value] else []
  }

  /** The restart guard fires on this item. */
  predicate Guarded(mode: Mode, it: Item) { mode == Restart && !it.existingAudit }

  /** What one turn of the loop meets: the guard firing with its message, or a file handled
    * with outcome `file`. */
  datatype Turn = Guard(message: string) | Handled(file: FileRun)

  function TurnOf(mode: Mode, schema: string, batchId: string, it: Item, fx: Effects, s: Stored): (t: Turn)
    ensures t.Guard? <==> Guarded(mode, it)
    ensures t.Handled? ==> t.file == FileStep(mode, schema, batchId, it, fx, s)
  {
    if Guarded(mode, it) then Guard(it.origName + " - FILE_AUDIT_RECORD_NOT_FOUND")
    else Handled(FileStep(mode, schema, batchId, it, fx, s))
  }

  /** The loop's state after handling one file with outcome `f`. */
  function Extend(prev: Run, f: FileRun): (r: Run)
    ensures f.failure.Some? ==> r.status == "FAILED" && r.error == f.failure
    ensures f.failure.None? ==> r.status == prev.status && r.error == prev.error
    ensures r.succeeded == prev.succeeded + Some1(f.success) && r.invoked == prev.invoked + f.invoked
    ensures r.audits == prev.audits + Some1(f.audit) && r.manifest == f.after && !r.aborted
  {
    Run(if f.failure.Some? then "FAILED" else prev.status,
        if f.failure.Some? then f.failure else prev.error,
        prev.succeeded + Some1(f.success), prev.invoked + f.invoked, prev.audits + Some1(f.audit), f.after, false)
  }

  /** The loop's state after one more turn. */
  function Apply(prev: Run, t: Turn): (r: Run)
    ensures t.Guard? ==> r == prev.(status := "FAILED", error := Some(t.message), aborted := true)
    ensures t.Handled? ==> r == Extend(prev, t.file)
  {
    match t
    case Guard(msg) => prev.(status := "FAILED", error := Some(msg), aborted := true)
    case Handled(f) => Extend(prev, f)
  }

  /** The loop over `items` from the manifest `s0`: `step(it, k, s)` is the turn of the `k`-th
    * item `it` when it meets the manifest `s`, the one the items before it left. Once the
    * guard fires, the later items are not taken. */
  function RunOver(step: (Item, nat, Stored) -> Turn, items: seq<Item>, s0: Stored): (r: Run)
    ensures r.status == "SUCCESS" || r.status == "FAILED"
    ensures r.status == "SUCCESS" ==> r.error.None? && !r.aborted
    decreases |items|
  {
    if |items| == 0 then Fresh(s0)
    else
      var n := |items| - 1;
      var prev := RunOver(step, items[..n], s0);
      if prev.aborted then prev else Apply(prev, step(items[n], n, prev.manifest))
  }

  /** The turn of the `k`-th item: its step over the manifest the items before it left. */
  function TurnIn(step: (Item, nat, Stored) -> Turn, items: seq<Item>, s0: Stored, k: nat): Turn
    requires k < |items|
  {
    step(items[k], k, RunOver(step, items[..k], s0).manifest)
  }

  /** The turn of the `k`-th item of the loop, as `process_client` takes it. */
  function StepOf(mode: Mode, schema: string, batchId: string, fx: nat -> Effects): (Item, nat, Stored) -> Turn {
    (it: Item, k: nat, s: Stored) => TurnOf(mode, schema, batchId, it, fx(k), s)
  }

  /** The processing loop over `items` from the manifest `s0`: `fx(k)` is what happens around
    * the `k`-th file. */
  function RunItems(mode: Mode, schema: string, batchId: string, items: seq<Item>, fx: nat -> Effects,
                    s0: Stored): Run {
    RunOver(StepOf(mode, schema, batchId, fx), items, s0)
  }

  /** The manifest the `k`-th file meets: the one the first `k` files left. */
  function Before(mode: Mode, schema: string, batchId: string, items: seq<Item>, fx: nat -> Effects,
                  s0: Stored, k: nat): Stored
    requires k <= |items|
  {
    RunItems(mode, schema, batchId, items[..k], fx, s0).manifest
  }

  /** The run over the first `i + 1` items is the run over the first `i` with item `i`'s turn
    * applied, unless the guard has already fired. */
  lemma RunNext(step: (Item, nat, Stored) -> Turn, items: seq<Item>, s0: Stored, i: nat)
    requires i < |items|
    ensures var prev := RunOver(step, items[..i], s0);
            RunOver(step, items[..i + 1], s0) == if prev.aborted then prev else Apply(prev, TurnIn(step, items, s0, i))
  {
    assert items[..i + 1][..i] == items[..i];
  }

  /** The run over all the items is the run over all but the last with the last item's turn
    * applied, unless the guard has already fired. */
  lemma RunLast(step: (Item, nat, Stored) -> Turn, items: seq<Item>, s0: Stored)
    requires |items| > 0
    ensures var prev := RunOver(step, items[..|items| - 1], s0);
            RunOver(step, items, s0) == if prev.aborted then prev else Apply(prev, TurnIn(step, items, s0, |items| - 1))
  {
  }

  /** A prefix of the items has the same turns as the whole. */
  lemma TurnInPrefix(step: (Item, nat, Stored) -> Turn, items: seq<Item>, s0: Stored, j: nat)
    requires j <= |items|
    ensures forall k :: 0 <= k < j ==> TurnIn(step, items[..j], s0, k) == TurnIn(step, items, s0, k)
  {
    forall k | 0 <= k < j
      ensures TurnIn(step, items[..j], s0, k) == TurnIn(step, items, s0, k)
    {
      assert items[..j][..k] == items[..k];
    }
  }

  /** Once the guard has fired, the later items change nothing. */
  lemma {:induction false} RunFrozen(step: (Item, nat, Stored) -> Turn, items: seq<Item>, s0: Stored, j: nat)
    requires j <= |items| && RunOver(step, items[..j], s0).aborted
    ensures RunOver(step, items, s0) == RunOver(step, items[..j], s0)
    decreases |items| - j
  {
    if j < |items| {
      var n := |items| - 1;
      assert items[..n][..j] == items[..j];
      RunFrozen(step, items[..n], s0, j);
    } else {
      assert items[..j] == items;
    }
  }

  /** Steps that agree make the same run. */
  lemma {:induction false} RunAgree(f: (Item, nat, Stored) -> Turn, g: (Item, nat, Stored) -> Turn,
                                    items: seq<Item>, s0: Stored)
    requires forall it, k, s :: f(it, k, s) == g(it, k, s)
    ensures RunOver(f, items, s0) == RunOver(g, items, s0)
    decreases |items|
  {
    if |items| > 0 {
      RunAgree(f, g, items[..|items| - 1], s0);
    }
  }

  /** A property of the manifest that every step keeps holds of the manifest the loop leaves. */
  lemma {:induction false} RunKeeps(step: (Item, nat, Stored) -> Turn, items: seq<Item>, s0: Stored,
                                    p: Stored -> bool)
    requires p(s0)
    requires forall it, k, s :: p(s) && step(it, k, s).Handled? ==> p(step(it, k, s).file.after)
    ensures p(RunOver(step, items, s0).manifest)
    decreases |items|
  {
    if |items| > 0 {
      RunKeeps(step, items[..|items| - 1], s0, p);
    }
  }

  /** The one `log_batch_status` row the loop ends with: the guard's message when it fired,
    * else the aggregated status and the last error. */
  function FinalLog(clientId: Value, mode: Mode, batchId: string, run: Run): BatchLog {
    BatchLog(clientId, run.status, batchId, JobName(mode), run.error)
  }

  /** The manifest after the upserts in order, with nothing else writing it. */
  function ApplyUpserts(s: Stored, skeleton: Document, ups: seq<(Entry, seq<bool>)>): Stored
    decreases |ups|
  {
    if |ups| == 0 then s
    else
      var last := ups[|ups| - 1];
      UpsertResult(ApplyUpserts(s, skeleton, ups[..|ups| - 1]), skeleton, last.0, last.1)
  }

  // ----- the loop as the orchestrator runs it --------------------------------------------

  /** Mapping validation, row validation and the load, each stopping the chain on failure
    * except row validation. */
  method RunChecks(done: seq<Invocation>, name: string, fx: Effects, after: Stored) returns (c: Chain)
    ensures c == Checks(done, name, fx, after)
  {
    var invoked := done + [Invocation(MappingStage, name)];
    if fx.mappingCode != 0 {
      return Chain(invoked, Some(MappingFailed), after);
    }
    invoked := invoked + [Invocation(RowStage, name)];
    // a non-zero exit of validate_row is only a warning
    invoked := invoked + [Invocation(LoadStage, name)];
    if fx.loadCode != 0 {
      return Chain(invoked, Some(LoadFailed), after);
    }
    c := Chain(invoked, None, after);
  }

  /** The CSV stages: the converter child, on `m` when the name's first batch token is the
    * loop's batch and on the other batch's manifest file otherwise; the wait, which polls `m`
    * as the child left it; and then the checks. */
  method RunConvertChain(m: ManifestFile, schema: string, batchId: string, name: string, fx: Effects) returns (c: Chain)
    modifies m
    ensures c == ConvertChain(schema, batchId, name, fx, old(m.content))
    ensures m.content == c.after
  {
    var conv := [Invocation(ConvertStage, name)];
    var cx := fx.convert;
    var out;
    if ExtractBatchId(name) == Some(batchId) {
      out := ConvertToParquet.RunStage([schema, name], m, cx.sourceExists, cx.dbUp, cx.ioError, cx.writes);
    } else {
      var other := new ManifestFile(cx.other);
      out := ConvertToParquet.RunStage([schema, name], other, cx.sourceExists, cx.dbUp, cx.ioError, cx.writes);
    }
    assert (out, m.content) == Convert(schema, batchId, name, cx, old(m.content));
    if out.exitCode != 0 {
      return Chain(conv, Some(ConvertFailed), m.content);
    }
    var published := WaitForParquetName([m.content], name);
    assert published == Published(m.content, name) by {
      assert [m.content][0] == m.content;
    }
    if !published {
      return Chain(conv, Some(ConvertTimeout), m.content);
    }
    c := RunChecks(conv, name, fx, m.content);
  }

  /** The stage chain with its early exits. */
  method RunChain(m: ManifestFile, schema: string, batchId: string, name: string, ext: Value, fx: Effects) returns (c: Chain)
    modifies m
    ensures c == StageChain(schema, batchId, name, ext, fx, old(m.content))
    ensures m.content == c.after
  {
    if !ext.Str? {
      return Chain([], Some(LowerOf(ext).error), m.content);
    }
    if Lower(ext.s) != "csv" {
      c := RunChecks([], name, fx, m.content);
      return;
    }
    c := RunConvertChain(m, schema, batchId, name, fx);
  }

  /** Reprocessing one artifact: mapping validation, row validation and the load under its
    * own name, with no audit row and no manifest write. */
  method ReprocessStages(schema: string, batchId: string, it: Item, fx: Effects, s: Stored) returns (f: FileRun)
    ensures f == FileStep(Reprocessing, schema, batchId, it, fx, s)
  {
    var name := it.origName;
    var invoked := [Invocation(MappingStage, name)];
    if fx.mappingCode != 0 {
      return FileRun(invoked, None, None, Some(Failure(name, "validate_mapping failed")), None, s);
    }
    invoked := invoked + [Invocation(RowStage, name), Invocation(LoadStage, name)];
    if fx.loadCode != 0 {
      return FileRun(invoked, None, None, Some(Failure(name, "load_to_bronze failed")), None, s);
    }
    f := FileRun(invoked, None, None, None, Some(name), s);
  }

  /** One file of the loop, the guard aside, on the manifest `m`: the upsert, then the chain. */
  method HandleFile(m: ManifestFile, mode: Mode, schema: string, batchId: string, it: Item, fx: Effects)
    returns (f: FileRun)
    requires !Guarded(mode, it)
    modifies m
    ensures f == FileStep(mode, schema, batchId, it, fx, old(m.content))
    ensures m.content == f.after
  {
    if mode == Reprocessing {
      f := ReprocessStages(schema, batchId, it, fx, m.content);
      return;
    }
    var ss := SystemOf(it.ss);
    var name := it.origName;
    var audit: Option<AuditInsert> := None;
    if mode == Start {
      name := RenameWithBatch(it.origName, batchId);
      if fx.auditError.Some? {
        return FileRun([], None, None, Some(Failure(it.origName, fx.auditError.value)), None, m.content);
      }
      audit := Some(AuditInsert(name, batchId, it.logical, it.ext, ss, if Truthy(it.logical) then "SUCCESS" else "FAILED"));
    }
    var c := UpsertAndRun(m, schema, batchId, name, it, fx);
    f := Chained(it.origName, name, audit, EntryFor(name, it, ss), c);
  }

  /** The upsert of the file's entry on `m` (a failed upsert is only a warning), then the
    * stage chain. */
  method UpsertAndRun(m: ManifestFile, schema: string, batchId: string, name: string, it: Item, fx: Effects) returns (c: Chain)
    modifies m
    ensures c == Staged(schema, batchId, name, it, fx, old(m.content))
    ensures m.content == c.after
  {
    var ok := m.UpsertFileEntry(EntryFor(name, it, SystemOf(it.ss)), fx.upsertWrites);
    c := RunChain(m, schema, batchId, name, it.ext, fx);
  }

  /** One turn of the loop on `m`, which holds the manifest of the loop's state `prev`. */
  method LoopTurn(m: ManifestFile, mode: Mode, schema: string, batchId: string, prev: Run, it: Item, fx: Effects)
    returns (run: Run)
    requires m.content == prev.manifest
    modifies m
    ensures run == Apply(prev, TurnOf(mode, schema, batchId, it, fx, old(m.content)))
    ensures m.content == run.manifest
  {
    if Guarded(mode, it) {
      return prev.(status := "FAILED", error := Some(it.origName + " - FILE_AUDIT_RECORD_NOT_FOUND"), aborted := true);
    }
    var f := HandleFile(m, mode, schema, batchId, it, fx);
    run := Extend(prev, f);
  }

  /** The processing loop: every file in order, each meeting the manifest its predecessors
    * left, each failure recorded without stopping its siblings, the restart guard ending the
    * run with its own log row, and exactly one `log_batch_status` row in every case. */
  method ProcessItems(m: ManifestFile, mode: Mode, schema: string, clientId: Value, batchId: string,
                      items: seq<Item>, fx: nat -> Effects) returns (run: Run, logs: seq<BatchLog>)
    modifies m
    ensures run == RunItems(mode, schema, batchId, items, fx, old(m.content))
    ensures m.content == run.manifest
    ensures logs == [FinalLog(clientId, mode, batchId, run)]
  {
    ghost var s0 := m.content;
    run := Fresh(m.content);
    var i := 0;
    while i < |items| && !run.aborted
      invariant 0 <= i <= |items|
      invariant run == RunItems(mode, schema, batchId, items[..i], fx, s0)
      invariant m.content == run.manifest
    {
      run := NextTurn(m, mode, schema, batchId, items, fx, s0, i, run);
      i := i + 1;
    }
    if i < |items| {
      RunFrozen(StepOf(mode, schema, batchId, fx), items, s0, i);
    } else {
      assert items[..i] == items;
    }
    logs := [FinalLog(clientId, mode, batchId, run)];
  }

  /** The turn of item `i`, after the run over the items before it. */
  method NextTurn(m: ManifestFile, mode: Mode, schema: string, batchId: string, items: seq<Item>,
                  fx: nat -> Effects, ghost s0: Stored, i: nat, run: Run) returns (next: Run)
    requires i < |items| && !run.aborted
    requires run == RunItems(mode, schema, batchId, items[..i], fx, s0) && m.content == run.manifest
    modifies m
    ensures next == RunItems(mode, schema, batchId, items[..i + 1], fx, s0)
    ensures m.content == next.manifest
  {
    ghost var step := StepOf(mode, schema, batchId, fx);
    RunNext(step, items, s0, i);
    assert TurnIn(step, items, s0, i) == TurnOf(mode, schema, batchId, items[i], fx(i), m.content);
    next := LoopTurn(m, mode, schema, batchId, run, items[i], fx(i));
  }

  // ----- what the loop guarantees --------------------------------------------------------

  /** A run the guard did not end met no guard. */
  lemma {:induction false} RunUnguarded(step: (Item, nat, Stored) -> Turn, items: seq<Item>, s0: Stored)
    ensures !RunOver(step, items, s0).aborted <==> forall k :: 0 <= k < |items| ==> TurnIn(step, items, s0, k).Handled?
    decreases |items|
  {
    if |items| > 0 {
      var n := |items| - 1;
      var prev := RunOver(step, items[..n], s0);
      RunUnguarded(step, items[..n], s0);
      TurnInPrefix(step, items, s0, n);
      RunLast(step, items, s0);
      if prev.aborted {
        var k :| 0 <= k < n && !TurnIn(step, items[..n], s0, k).Handled?;
        assert !TurnIn(step, items, s0, k).Handled?;
      } else if TurnIn(step, items, s0, n).Handled? {
        assert forall k :: 0 <= k < n ==> TurnIn(step, items, s0, k).Handled?;
      }
    }
  }

  /** A run the guard did not end is FAILED exactly when some handled file failed. */
  lemma RunFailedIff(step: (Item, nat, Stored) -> Turn, items: seq<Item>, s0: Stored)
    requires !RunOver(step, items, s0).aborted
    ensures RunOver(step, items, s0).status == "FAILED"
            <==> exists k :: 0 <= k < |items| && TurnIn(step, items, s0, k).Handled?
                              && TurnIn(step, items, s0, k).file.failure.Some?
  {
    if RunOver(step, items, s0).status == "FAILED" {
      RunFailedHasFile(step, items, s0);
    } else {
      forall k | 0 <= k < |items| && TurnIn(step, items, s0, k).Handled?
        ensures TurnIn(step, items, s0, k).file.failure.None?
      {
        RunFileFails(step, items, s0);
      }
    }
  }

  /** A FAILED run the guard did not end has a handled file that failed. */
  lemma {:induction false} RunFailedHasFile(step: (Item, nat, Stored) -> Turn, items: seq<Item>, s0: Stored)
    requires !RunOver(step, items, s0).aborted && RunOver(step, items, s0).status == "FAILED"
    ensures exists k :: 0 <= k < |items| && TurnIn(step, items, s0, k).Handled?
                        && TurnIn(step, items, s0, k).file.failure.Some?
    decreases |items|
  {
    var n := |items| - 1;
    var prev := RunOver(step, items[..n], s0);
    RunLast(step, items, s0);
    var t := TurnIn(step, items, s0, n);
    if t.file.failure.None? {
      RunFailedHasFile(step, items[..n], s0);
      TurnInPrefix(step, items, s0, n);
      var k :| 0 <= k < n && TurnIn(step, items[..n], s0, k).Handled? && TurnIn(step, items[..n], s0, k).file.failure.Some?;
      assert TurnIn(step, items, s0, k) == TurnIn(step, items[..n], s0, k);
    }
  }

  /** A handled file that fails makes a run the guard did not end FAILED. */
  lemma {:induction false} RunFileFails(step: (Item, nat, Stored) -> Turn, items: seq<Item>, s0: Stored)
    requires !RunOver(step, items, s0).aborted
    ensures forall k :: (0 <= k < |items| && TurnIn(step, items, s0, k).Handled?
                         && TurnIn(step, items, s0, k).file.failure.Some?) ==> RunOver(step, items, s0).status == "FAILED"
    decreases |items|
  {
    if |items| > 0 {
      var n := |items| - 1;
      RunLast(step, items, s0);
      RunFileFails(step, items[..n], s0);
      TurnInPrefix(step, items, s0, n);
      forall k | 0 <= k < n && TurnIn(step, items, s0, k).Handled? && TurnIn(step, items, s0, k).file.failure.Some?
        ensures RunOver(step, items[..n], s0).status == "FAILED"
      {
        assert TurnIn(step, items[..n], s0, k) == TurnIn(step, items, s0, k);
      }
    }
  }

  /** Once FAILED, the status stays FAILED whatever the later items are. */
  lemma {:induction false} RunFailedStays(step: (Item, nat, Stored) -> Turn, items: seq<Item>, s0: Stored, j: nat)
    requires j <= |items| && RunOver(step, items[..j], s0).status == "FAILED"
    ensures RunOver(step, items, s0).status == "FAILED"
    decreases |items| - j
  {
    if j < |items| {
      var n := |items| - 1;
      assert items[..n][..j] == items[..j];
      RunFailedStays(step, items[..n], s0, j);
    } else {
      assert items[..j] == items;
    }
  }

  /** Every handled file's stages and success are kept in the run, whatever its siblings do. */
  lemma {:induction false} RunKeepsFiles(step: (Item, nat, Stored) -> Turn, items: seq<Item>, s0: Stored)
    requires !RunOver(step, items, s0).aborted
    ensures var run := RunOver(step, items, s0);
            forall k :: 0 <= k < |items| && TurnIn(step, items, s0, k).Handled? ==>
              var f := TurnIn(step, items, s0, k).file;
              (f.success.Some? ==> f.success.value in run.succeeded)
              && forall inv :: inv in f.invoked ==> inv in run.invoked
    decreases |items|
  {
    if |items| > 0 {
      var n := |items| - 1;
      var prev := RunOver(step, items[..n], s0);
      var run := RunOver(step, items, s0);
      RunLast(step, items, s0);
      assert !prev.aborted && TurnIn(step, items, s0, n).Handled?;
      RunKeepsFiles(step, items[..n], s0);
      TurnInPrefix(step, items, s0, n);
      forall k | 0 <= k < n && TurnIn(step, items, s0, k).Handled?
        ensures var f := TurnIn(step, items, s0, k).file;
                (f.success.Some? ==> f.success.value in run.succeeded)
                && forall inv :: inv in f.invoked ==> inv in run.invoked
      {
        assert TurnIn(step, items[..n], s0, k) == TurnIn(step, items, s0, k);
      }
    }
  }

  /** Every audit row the run inserts is one of its handled files'. */
  lemma {:induction false} RunAuditsFromFiles(step: (Item, nat, Stored) -> Turn, items: seq<Item>, s0: Stored)
    ensures forall a :: a in RunOver(step, items, s0).audits ==>
              exists k :: 0 <= k < |items| && TurnIn(step, items, s0, k).Handled? && TurnIn(step, items, s0, k).file.audit == Some(a)
    decreases |items|
  {
    if |items| > 0 {
      var n := |items| - 1;
      var prev := RunOver(step, items[..n], s0);
      RunAuditsFromFiles(step, items[..n], s0);
      TurnInPrefix(step, items, s0, n);
      RunLast(step, items, s0);
      forall a | a in RunOver(step, items, s0).audits
        ensures exists k :: 0 <= k < |items| && TurnIn(step, items, s0, k).Handled? && TurnIn(step, items, s0, k).file.audit == Some(a)
      {
        if a in prev.audits {
          var k :| 0 <= k < n && TurnIn(step, items[..n], s0, k).Handled? && TurnIn(step, items[..n], s0, k).file.audit == Some(a);
          assert TurnIn(step, items, s0, k) == TurnIn(step, items[..n], s0, k);
        } else {
          assert TurnIn(step, items, s0, n).Handled? && TurnIn(step, items, s0, n).file.audit == Some(a);
        }
      }
    }
  }

  /** The guard ends the run FAILED, with nothing run after the state it met. */
  lemma RunGuardStops(step: (Item, nat, Stored) -> Turn, items: seq<Item>, s0: Stored, k: nat)
    requires k < |items| && TurnIn(step, items, s0, k).Guard?
    ensures RunOver(step, items, s0).aborted && RunOver(step, items, s0).status == "FAILED"
    ensures |RunOver(step, items, s0).invoked| <= |RunOver(step, items[..k], s0).invoked|
  {
    if RunOver(step, items[..k], s0).aborted {
      RunFrozen(step, items, s0, k);
    } else {
      RunNext(step, items, s0, k);
      RunFrozen(step, items, s0, k + 1);
    }
  }

  /** Turn `k` of the loop handles item `k` over the manifest the files before it left. */
  lemma RunTurnsAt(mode: Mode, schema: string, batchId: string, items: seq<Item>, fx: nat -> Effects, s0: Stored)
    ensures forall k :: 0 <= k < |items| ==>
              TurnIn(StepOf(mode, schema, batchId, fx), items, s0, k)
              == TurnOf(mode, schema, batchId, items[k], fx(k), Before(mode, schema, batchId, items, fx, s0, k))
  {
  }

  /** A run the guard did not end has status FAILED exactly when some file failed, each file
    * taken over the manifest the files before it left. */
  lemma FailedIffSomeFileFailed(mode: Mode, schema: string, batchId: string, items: seq<Item>,
                                fx: nat -> Effects, s0: Stored)
    requires !RunItems(mode, schema, batchId, items, fx, s0).aborted
    ensures RunItems(mode, schema, batchId, items, fx, s0).status == "FAILED"
            <==> exists k :: 0 <= k < |items| &&
                   FileStep(mode, schema, batchId, items[k], fx(k), Before(mode, schema, batchId, items, fx, s0, k)).failure.Some?
  {
    var step := StepOf(mode, schema, batchId, fx);
    RunTurnsAt(mode, schema, batchId, items, fx, s0);
    RunUnguarded(step, items, s0);
    RunFailedIff(step, items, s0);
    if RunItems(mode, schema, batchId, items, fx, s0).status == "FAILED" {
      var k :| 0 <= k < |items| && TurnIn(step, items, s0, k).Handled? && TurnIn(step, items, s0, k).file.failure.Some?;
      assert FileStep(mode, schema, batchId, items[k], fx(k), Before(mode, schema, batchId, items, fx, s0, k)).failure.Some?;
    }
    if exists k :: 0 <= k < |items| &&
         FileStep(mode, schema, batchId, items[k], fx(k), Before(mode, schema, batchId, items, fx, s0, k)).failure.Some? {
      var k :| 0 <= k < |items| &&
               FileStep(mode, schema, batchId, items[k], fx(k), Before(mode, schema, batchId, items, fx, s0, k)).failure.Some?;
      assert TurnIn(step, items, s0, k).Handled? && TurnIn(step, items, s0, k).file.failure.Some?;
    }
  }

  /** Once FAILED, the status stays FAILED whatever the later files do. */
  lemma FailedStaysFailed(mode: Mode, schema: string, batchId: string, items: seq<Item>, fx: nat -> Effects,
                          s0: Stored, j: nat)
    requires j <= |items| && RunItems(mode, schema, batchId, items[..j], fx, s0).status == "FAILED"
    ensures RunItems(mode, schema, batchId, items, fx, s0).status == "FAILED"
  {
    RunFailedStays(StepOf(mode, schema, batchId, fx), items, s0, j);
  }

  /** A failing file does not stop its siblings: unless the guard ends the run, every file's
    * stages are run and every file that passes them is recorded as a success. */
  lemma SiblingsKeepProcessing(mode: Mode, schema: string, batchId: string, items: seq<Item>,
                               fx: nat -> Effects, s0: Stored)
    requires !RunItems(mode, schema, batchId, items, fx, s0).aborted
    ensures var run := RunItems(mode, schema, batchId, items, fx, s0);
            forall k :: 0 <= k < |items| ==>
              var f := FileStep(mode, schema, batchId, items[k], fx(k), Before(mode, schema, batchId, items, fx, s0, k));
              (f.success.Some? ==> f.success.value in run.succeeded)
              && (forall inv :: inv in f.invoked ==> inv in run.invoked)
  {
    var step := StepOf(mode, schema, batchId, fx);
    RunTurnsAt(mode, schema, batchId, items, fx, s0);
    RunUnguarded(step, items, s0);
    RunKeepsFiles(step, items, s0);
  }

  /** A failing `validate_row` changes nothing: runs that differ only in its exit codes are
    * the same run, manifest included. */
  lemma RowValidationNonFatal(mode: Mode, schema: string, batchId: string, items: seq<Item>,
                              fx: nat -> Effects, gx: nat -> Effects, s0: Stored)
    requires forall k :: gx(k) == fx(k).(rowCode := gx(k).rowCode)
    ensures RunItems(mode, schema, batchId, items, gx, s0) == RunItems(mode, schema, batchId, items, fx, s0)
  {
    var f := StepOf(mode, schema, batchId, fx);
    var g := StepOf(mode, schema, batchId, gx);
    forall it, k, s ensures g(it, k, s) == f(it, k, s) {
      FileStepIgnoresRowCode(mode, schema, batchId, it, fx(k), gx(k).rowCode, s);
    }
    RunAgree(g, f, items, s0);
  }

  /** One file's stages do not depend on `validate_row`'s exit code. */
  lemma FileStepIgnoresRowCode(mode: Mode, schema: string, batchId: string, it: Item, fx: Effects, code: int, s: Stored)
    ensures FileStep(mode, schema, batchId, it, fx.(rowCode := code), s) == FileStep(mode, schema, batchId, it, fx, s)
  {
    match mode {
      case Reprocessing =>
      case Restart => StagedIgnoresRowCode(schema, batchId, it.origName, it, fx, code, s);
      case Start => StagedIgnoresRowCode(schema, batchId, RenameWithBatch(it.origName, batchId), it, fx, code, s);
    }
  }

  /** The upsert and the stage chain do not depend on `validate_row`'s exit code either. */
  lemma StagedIgnoresRowCode(schema: string, batchId: string, name: string, it: Item, fx: Effects, code: int, s: Stored)
    ensures Staged(schema, batchId, name, it, fx.(rowCode := code), s) == Staged(schema, batchId, name, it, fx, s)
  {
  }

  /** The restart guard: a file without an existing audit record ends the run FAILED, and no
    * stage runs on it or on any later file. */
  lemma GuardStopsRun(schema: string, batchId: string, items: seq<Item>, fx: nat -> Effects, s0: Stored, k: nat)
    requires k < |items| && !items[k].existingAudit
    ensures var run := RunItems(Restart, schema, batchId, items, fx, s0);
            run.aborted && run.status == "FAILED"
            && |run.invoked| <= |RunItems(Restart, schema, batchId, items[..k], fx, s0).invoked|
  {
    RunTurnsAt(Restart, schema, batchId, items, fx, s0);
    RunGuardStops(StepOf(Restart, schema, batchId, fx), items, s0, k);
  }

  /** Restart planning only passes files with an audit record, so the in-loop guard never
    * fires on a planned restart. */
  lemma PlannedRestartNeverGuarded(stored: Stored, batchId: string, incoming: map<string, seq<string>>,
                                   configs: seq<Config>, audit: map<string, AuditLookup>,
                                   rawFiles: set<(string, string)>, items: seq<Item>, schema: string,
                                   fx: nat -> Effects, s0: Stored)
    requires PlanRestartFrom(stored, batchId, incoming, configs, audit, rawFiles) == Proceed(items)
    ensures !RunItems(Restart, schema, batchId, items, fx, s0).aborted
  {
    RunTurnsAt(Restart, schema, batchId, items, fx, s0);
    RunUnguarded(StepOf(Restart, schema, batchId, fx), items, s0);
  }

  /** A file start mode accepts has a logical name: a configuration without one accepts
    * nothing. */
  lemma AcceptedHasLogical(rows: seq<ConfigRow>, configs: seq<Config>, it: Item)
    requires |rows| == |configs| && forall i :: 0 <= i < |rows| ==> configs[i] == ConfigOf(rows[i])
    requires AcceptedItem(configs, it)
    ensures Truthy(it.logical)
  {
    var i := StartConfig(configs, it.ss.s, it.origName).value;
    assert configs[i].logicalNorm.Some?;
  }

  /** Start mode inserts every accepted file's audit row with config validation SUCCESS. */
  lemma StartAuditsSucceed(rows: seq<ConfigRow>, configs: seq<Config>, schema: string, batchId: string,
                           items: seq<Item>, fx: nat -> Effects, s0: Stored)
    requires |rows| == |configs| && forall i :: 0 <= i < |rows| ==> configs[i] == ConfigOf(rows[i])
    requires forall k :: 0 <= k < |items| ==> AcceptedItem(configs, items[k])
    ensures forall a :: a in RunItems(Start, schema, batchId, items, fx, s0).audits ==> a.configStatus == "SUCCESS"
  {
    var step := StepOf(Start, schema, batchId, fx);
    RunTurnsAt(Start, schema, batchId, items, fx, s0);
    RunAuditsFromFiles(step, items, s0);
    forall a | a in RunOver(step, items, s0).audits
      ensures a.configStatus == "SUCCESS"
    {
      var k :| 0 <= k < |items| && TurnIn(step, items, s0, k).Handled? && TurnIn(step, items, s0, k).file.audit == Some(a);
      AcceptedHasLogical(rows, configs, items[k]);
    }
  }

  /** Every stage of a start-mode file gets the stamped name, which names the batch, so the
    * converter opens the loop's own manifest. */
  lemma StartStagesSeeTheBatch(b: string, e: string, schema: string, batchId: string, it: Item, fx: Effects, s: Stored)
    requires PlainStem(b) && (e == "" || IsExtension(e)) && IsBatchId(batchId) && ExtractBatchId(b).None?
    requires it.origName == b + e
    ensures var f := FileStep(Start, schema, batchId, it, fx, s);
            (forall inv :: inv in f.invoked ==> ExtractBatchId(inv.file) == Some(batchId))
            && (f.success.Some? ==> ExtractBatchId(f.success.value) == Some(batchId))
            && OwnManifest(WorkingName(Start, batchId, it), batchId)
  {
    RenamedFileNamesItsBatch(b, e, batchId);
    var f := FileStep(Start, schema, batchId, it, fx, s);
    forall inv | inv in f.invoked
      ensures ExtractBatchId(inv.file) == Some(batchId)
    {
      var k :| 0 <= k < |f.invoked| && f.invoked[k] == inv;
    }
  }

  /** A file whose name's first batch token is another batch's has its conversion recorded
    * in that batch's manifest: the loop's manifest after it is the one its upsert left, and
    * a CSV file passes only if that manifest already published its parquet name. */
  lemma ForeignTokenLeavesLoopManifest(mode: Mode, schema: string, batchId: string, it: Item, fx: Effects, s: Stored)
    requires !OwnManifest(WorkingName(mode, batchId, it), batchId)
    ensures var f := FileStep(mode, schema, batchId, it, fx, s);
            var name := WorkingName(mode, batchId, it);
            && (f.upsert.Some? ==> f.after == UpsertResult(s, NullSkeleton, f.upsert.value, fx.upsertWrites))
            && (f.upsert.None? ==> f.after == s)
            && (f.upsert.Some? && IsCsv(it.ext) && f.failure.None? ==> Published(f.after, name))
  {
    var f := FileStep(mode, schema, batchId, it, fx, s);
    if f.upsert.Some? {
      var name := WorkingName(mode, batchId, it);
      var u := UpsertResult(s, NullSkeleton, f.upsert.value, fx.upsertWrites);
      assert Convert(schema, batchId, name, fx.convert, u).1 == u;
    }
  }

  /** Start mode accepts a file that already carries an earlier batch's token, since its
    * match key drops the token; its stamped name then keeps that token first, and the
    * converter opens the earlier batch's manifest. */
  lemma RestampedNameOpensEarlierBatch()
    ensures ExtractBatchId("sales_BATCH000001_BATCH000002.csv") == Some("BATCH000001")
    ensures !OwnManifest("sales_BATCH000001_BATCH000002.csv", "BATCH000002")
  {
    var s := "sales_BATCH000001_BATCH000002.csv";
    RestampedNameTokens();
    var r := ExtractBatchId(s);
    var i :| TokenAt(s, i) && r.value == Upper(s[i..i + 11]) && forall j :: 0 <= j < i ==> !TokenAt(s, j);
    assert i == 6;
  }

  /** The first token of the restamped name is the earlier batch's, at index 6. */
  lemma RestampedNameTokens()
    ensures var s := "sales_BATCH000001_BATCH000002.csv";
            TokenAt(s, 6) && Upper(s[6..17]) == "BATCH000001" && forall j :: 0 <= j < 6 ==> !TokenAt(s, j)
  {
    var d := "000001";
    var id := "BATCH" + d;
    var s := "sales_" + id + "_BATCH000002.csv";
    assert id == "BATCH000001";
    assert s == "sales_BATCH000001_BATCH000002.csv";
    assert s[6..17] == id && s[6..11] == id[..5] == "BATCH" && s[11..17] == d;
    UpperOfBatchId(d);
    NoTokenInPrefix(s, "sales_");
  }

  lemma UpperOfBatchId(d: string)
    requires d == "000001"
    ensures Upper("BATCH" + d) == "BATCH" + d && Upper("BATCH") == "BATCH" && AllDigits(d)
  {
    var id := "BATCH" + d;
    forall k | 0 <= k < 11 ensures UpperChar(id[k]) == id[k] {
      assert id[k] in "BATCH0123456789";
    }
    forall k | 0 <= k < 6 ensures IsAsciiDigit(d[k]) {
      assert d[k] in "0123456789";
    }
  }

  lemma NoTokenInPrefix(s: string, p: string)
    requires p == "sales_" && |s| >= 11 && s[..6] == p
    ensures forall j :: 0 <= j < 6 ==> !TokenAt(s, j)
  {
    forall j | 0 <= j < 6
      ensures !TokenAt(s, j)
    {
      assert s[j] == p[j] && p[j] in p;
      assert Upper(s[j..j + 5])[0] == UpperChar(s[j]) != 'B';
    }
  }

  /** The manifest names no client: it is missing, unreadable, or its client id is null. */
  predicate NamesNoClient(s: Stored) { s.Stored? ==> s.doc.clientId == Null }

  /** As written, the loop's upsert starts a missing or unreadable manifest from the skeleton
    * with a null client id and keeps the client id of one it reads; and the converter refuses
    * such a manifest (missing, unreadable, or `client_id` None) with exit 1 and leaves it as it
    * is. So one file leaves a manifest that names no client as it found it. */
  lemma FileStepKeepsNoClient(mode: Mode, schema: string, batchId: string, it: Item, fx: Effects, s: Stored)
    requires NamesNoClient(s)
    ensures NamesNoClient(FileStep(mode, schema, batchId, it, fx, s).after)
  {
    var f := FileStep(mode, schema, batchId, it, fx, s);
    if f.upsert.Some? && IsCsv(it.ext) {
      var name := WorkingName(mode, batchId, it);
      var u := UpsertResult(s, NullSkeleton, f.upsert.value, fx.upsertWrites);
      assert NamesNoClient(u);
      var cx := fx.convert;
      if OwnManifest(name, batchId) {
        var plan := ConvertToParquet.PlanConvert([schema, name], u, cx.sourceExists, cx.dbUp);
        assert plan.Err?;
        assert Convert(schema, batchId, name, cx, u).1 == u;
      }
    }
  }

  /** And when the manifest the converter opens instead, that of the batch named by the
    * name's first token, names no client either (as written, none does), every conversion
    * the file runs fails. */
  lemma FileStepLacksClient(mode: Mode, schema: string, batchId: string, it: Item, fx: Effects, s: Stored)
    requires NamesNoClient(s) && NamesNoClient(fx.convert.other)
    ensures var f := FileStep(mode, schema, batchId, it, fx, s);
            && NamesNoClient(f.after)
            && (IsCsv(it.ext) && f.upsert.Some? ==> f.failure == Some(Failure(it.origName, ConvertFailed)))
  {
    FileStepKeepsNoClient(mode, schema, batchId, it, fx, s);
    var f := FileStep(mode, schema, batchId, it, fx, s);
    if f.upsert.Some? && IsCsv(it.ext) {
      var name := WorkingName(mode, batchId, it);
      var u := UpsertResult(s, NullSkeleton, f.upsert.value, fx.upsertWrites);
      assert NamesNoClient(u);
      var cx := fx.convert;
      var read := if OwnManifest(name, batchId) then u else cx.other;
      var plan := ConvertToParquet.PlanConvert([schema, name], read, cx.sourceExists, cx.dbUp);
      assert plan.Err? && plan.error != ConvertToParquet.Usage;
      assert ConvertToParquet.ExitCode(plan.error) == 1;
      assert Convert(schema, batchId, name, cx, u).0.exitCode == 1;
    }
  }

  /** So, as written, a manifest that names no client at the start of the loop names none
    * after any number of its files, nor at its end. A fresh start-mode batch begins with no
    * manifest at all. */
  lemma AsWrittenManifestLacksClient(mode: Mode, schema: string, batchId: string, items: seq<Item>,
                                     fx: nat -> Effects, s0: Stored)
    requires NamesNoClient(s0)
    ensures forall k :: 0 <= k <= |items| ==> NamesNoClient(Before(mode, schema, batchId, items, fx, s0, k))
    ensures NamesNoClient(RunItems(mode, schema, batchId, items, fx, s0).manifest)
  {
    var step := StepOf(mode, schema, batchId, fx);
    forall it, k, s | NamesNoClient(s) && step(it, k, s).Handled?
      ensures NamesNoClient(step(it, k, s).file.after)
    {
      FileStepKeepsNoClient(mode, schema, batchId, it, fx(k), s);
    }
    forall k | 0 <= k <= |items|
      ensures NamesNoClient(Before(mode, schema, batchId, items, fx, s0, k))
    {
      RunKeeps(step, items[..k], s0, NamesNoClient);
    }
    RunKeeps(step, items, s0, NamesNoClient);
  }

  /** Hence, as written, every conversion such a run starts fails: each CSV file that reaches
    * its upsert fails with `FAILED on convert_to_parquet`, given that the other batches'
    * manifests the converter may open name no client either. */
  lemma AsWrittenStartBlocksConversion(mode: Mode, schema: string, batchId: string, items: seq<Item>,
                                       fx: nat -> Effects, s0: Stored)
    requires NamesNoClient(s0) && forall k :: 0 <= k < |items| ==> NamesNoClient(fx(k).convert.other)
    ensures forall k :: 0 <= k < |items| ==>
              var f := FileStep(mode, schema, batchId, items[k], fx(k), Before(mode, schema, batchId, items, fx, s0, k));
              IsCsv(items[k].ext) && f.upsert.Some? ==> f.failure == Some(Failure(items[k].origName, ConvertFailed))
  {
    AsWrittenManifestLacksClient(mode, schema, batchId, items, fx, s0);
    forall k | 0 <= k < |items|
      ensures var f := FileStep(mode, schema, batchId, items[k], fx(k), Before(mode, schema, batchId, items, fx, s0, k));
              IsCsv(items[k].ext) && f.upsert.Some? ==> f.failure == Some(Failure(items[k].origName, ConvertFailed))
    {
      FileStepLacksClient(mode, schema, batchId, items[k], fx(k), Before(mode, schema, batchId, items, fx, s0, k));
    }
  }

  /** With the batch's skeleton instead (the corrected upsert,
    * `ManifestFile.UpsertFileEntryForBatch`), the manifest names the client and the batch
    * from its first write on. */
  lemma {:induction false} BatchManifestNamesClient(schema: string, clientId: Value, batchId: string,
                                                    ups: seq<(Entry, seq<bool>)>)
    ensures var c := ApplyUpserts(Missing, BatchSkeleton(schema, clientId, batchId), ups);
            c.Missing? || (c.Stored? && c.doc.clientId == clientId && c.doc.batchId == Str(batchId))
    decreases |ups|
  {
    if |ups| > 0 {
      BatchManifestNamesClient(schema, clientId, batchId, ups[..|ups| - 1]);
    }
  }

  /** So the converter's client check passes on it whenever the client id is known. */
  lemma CorrectedStartPassesClientCheck(schema: string, clientId: Value, batchId: string, name: string,
                                        ups: seq<(Entry, seq<bool>)>, sourceExists: bool, dbUp: bool)
    requires clientId != Null
    ensures var c := ApplyUpserts(Missing, BatchSkeleton(schema, clientId, batchId), ups);
            ConvertToParquet.PlanConvert([schema, name], c, sourceExists, dbUp) != Err(ConvertToParquet.NoClientId)
  {
    BatchManifestNamesClient(schema, clientId, batchId, ups);
  }

  // ----- process_client --------------------------------------------------------------------

  /** The batch identifier a run works under: start mode takes the next one after the client's
    * last (`BATCH000000` when it has none), the other modes reuse the last. */
  function RunBatchId(mode: Mode, lastBatch: Value): (b: string)
    ensures mode != Start ==> b == (if Truthy(lastBatch) then Text(lastBatch) else "BATCH000000")
    ensures mode == Start && !Truthy(lastBatch) ==> b == "BATCH000001"
  {
    var last := if Truthy(lastBatch) then Text(lastBatch) else "BATCH000000";
    if mode != Start then last
    else if Truthy(lastBatch) then IncrementBatchId(Some(last))
    else FirstBatchId(); IncrementBatchId(Some(last))
  }

  /** What start mode decides once the scan is done: with no accepted file it writes the
    * batch's skeleton manifest (`skeletonError` is what that write raises) and stops. */
  function StartDecision(items: seq<Item>, skeletonError: Option<string>): (d: Decision)
    ensures items != [] ==> d == Proceed(items)
    ensures items == [] ==> d.Abort?
  {
    if items != [] then Proceed(items)
    else if skeletonError.Some? then Abort("BATCHINFO_WRITE_FAILED: " + skeletonError.value)
    else Abort("FILE CONFIG NOT FOUND")
  }

  /** What a run of `process_client` decides before its loop. */
  function Planned(mode: Mode, batchId: string, stored: Stored, configs: seq<Config>,
                   incoming: map<string, seq<string>>, renameFails: set<string>, skeletonError: Option<string>,
                   audit: map<string, AuditLookup>, rawFiles: set<(string, string)>, artifacts: seq<string>): Decision
  {
    match mode
    case Start => StartDecision(ScanSystems(configs, SourceSystems, incoming, batchId, renameFails).items, skeletonError)
    case Restart => PlanRestartFrom(stored, batchId, incoming, configs, audit, rawFiles)
    case Reprocessing => PlanReprocessFrom(stored, batchId, artifacts)
  }

  /** The audit updates planning commits: restart mode's, none in the other modes. */
  function PlannedUpdates(mode: Mode, stored: Stored, configs: seq<Config>, incoming: map<string, seq<string>>,
                          audit: map<string, AuditLookup>, rawFiles: set<(string, string)>): seq<AuditUpdate>
  {
    if mode == Restart then RestartUpdates(stored, incoming, configs, audit, rawFiles) else []
  }

  /** The files start-mode planning rejects, each with its FAILED audit row and its move to
    * the raw failed folder; the other modes reject none. */
  function PlannedRejections(mode: Mode, configs: seq<Config>, incoming: map<string, seq<string>>, batchId: string,
                             renameFails: set<string>): seq<Rejection>
  {
    if mode == Start then ScanSystems(configs, SourceSystems, incoming, batchId, renameFails).rejected else []
  }

  /** Whether planning writes the skeleton manifest: a start run with no files, when the
    * write does not raise. */
  predicate WritesSkeleton(mode: Mode, configs: seq<Config>, incoming: map<string, seq<string>>, batchId: string,
                           renameFails: set<string>, skeletonError: Option<string>) {
    mode == Start && skeletonError.None? && ScanSystems(configs, SourceSystems, incoming, batchId, renameFails).items == []
  }

  /** The planning half of `process_client`: the mode's plan, the audit updates restart
    * planning commits, the files start mode rejects, and the skeleton manifest a start run
    * with no files writes. */
  method PlanFor(m: ManifestFile, mode: Mode, schema: string, clientId: Value, batchId: string,
                 configs: seq<Config>, incoming: map<string, seq<string>>, renameFails: set<string>,
                 skeletonError: Option<string>, audit: map<string, AuditLookup>,
                 rawFiles: set<(string, string)>, artifacts: seq<string>)
    returns (d: Decision, updates: seq<AuditUpdate>, rejected: seq<Rejection>)
    modifies m
    ensures d == Planned(mode, batchId, old(m.content), configs, incoming, renameFails, skeletonError, audit, rawFiles, artifacts)
    ensures updates == PlannedUpdates(mode, old(m.content), configs, incoming, audit, rawFiles)
    ensures rejected == PlannedRejections(mode, configs, incoming, batchId, renameFails)
    ensures WritesSkeleton(mode, configs, incoming, batchId, renameFails, skeletonError) ==>
              m.content == Stored(BatchSkeleton(schema, clientId, batchId))
    ensures !WritesSkeleton(mode, configs, incoming, batchId, renameFails, skeletonError) ==> m.content == old(m.content)
  {
    updates, rejected := [], [];
    match mode {
      case Start =>
        var items;
        items, rejected := PlanStart(configs, incoming, batchId, renameFails);
        if items == [] && skeletonError.None? {
          m.content := Stored(BatchSkeleton(schema, clientId, batchId));
        }
        d := StartDecision(items, skeletonError);
      case Restart =>
        d, updates := PlanRestart(m.content, batchId, incoming, configs, audit, rawFiles);
      case Reprocessing =>
        d := PlanReprocess(m.content, batchId, artifacts);
    }
  }

  /** What the run does after planning, from the manifest `before` the loop to the one
    * `after` it: an aborted plan logs its one FAILED row and touches nothing; otherwise the
    * loop runs over the planned items from `before`, logs once, and leaves the manifest as
    * its upserts and conversions wrote it. */
  predicate Concluded(mode: Mode, schema: string, clientId: Value, batchId: string, fx: nat -> Effects, d: Decision,
                      run: Option<Run>, logs: seq<BatchLog>, before: Stored, after: Stored) {
    match d
    case Abort(msg) => run.None? && logs == [BatchLog(clientId, "FAILED", batchId, JobName(mode), Some(msg))] && after == before
    case Proceed(items) => run == Some(RunItems(mode, schema, batchId, items, fx, before))
                           && logs == [FinalLog(clientId, mode, batchId, run.value)]
                           && after == run.value.manifest
  }

  /** The half of `process_client` after planning. */
  method Conclude(m: ManifestFile, mode: Mode, schema: string, clientId: Value, batchId: string, d: Decision,
                  fx: nat -> Effects) returns (run: Option<Run>, logs: seq<BatchLog>)
    modifies m
    ensures Concluded(mode, schema, clientId, batchId, fx, d, run, logs, old(m.content), m.content)
  {
    match d {
      case Abort(msg) =>
        run := None;
        logs := [BatchLog(clientId, "FAILED", batchId, JobName(mode), Some(msg))];
      case Proceed(items) =>
        var r;
        r, logs := ProcessItems(m, mode, schema, clientId, batchId, items, fx);
        run := Some(r);
    }
  }

  /** `process_client` for one client in one mode, from the client's reference row on: the
    * batch identifier, the plan with the audit updates it commits and the files it rejects
    * (start mode), and either the single FAILED log of an aborted plan or the processing
    * loop. `m` is the manifest of the batch the run works under; a start run that finds no
    * file writes its skeleton first. A manifest that names no client when the run begins (a
    * fresh batch has none at all) names none when it ends, unless planning wrote the
    * skeleton. */
  method ProcessClient(m: ManifestFile, mode: Mode, schema: string, clientId: Value, lastBatch: Value,
                       configs: seq<Config>, incoming: map<string, seq<string>>, renameFails: set<string>,
                       skeletonError: Option<string>, audit: map<string, AuditLookup>,
                       rawFiles: set<(string, string)>, artifacts: seq<string>, fx: nat -> Effects)
    returns (batchId: string, updates: seq<AuditUpdate>, rejected: seq<Rejection>, run: Option<Run>,
             logs: seq<BatchLog>)
    modifies m
    ensures batchId == RunBatchId(mode, lastBatch)
    ensures updates == PlannedUpdates(mode, old(m.content), configs, incoming, audit, rawFiles)
    ensures rejected == PlannedRejections(mode, configs, incoming, batchId, renameFails)
    ensures Concluded(mode, schema, clientId, batchId, fx,
                      Planned(mode, batchId, old(m.content), configs, incoming, renameFails, skeletonError, audit, rawFiles, artifacts),
                      run, logs,
                      if WritesSkeleton(mode, configs, incoming, batchId, renameFails, skeletonError)
                      then Stored(BatchSkeleton(schema, clientId, batchId)) else old(m.content),
                      m.content)
    ensures NamesNoClient(old(m.content)) && !WritesSkeleton(mode, configs, incoming, batchId, renameFails, skeletonError) ==>
              NamesNoClient(m.content)
  {
    batchId := RunBatchId(mode, lastBatch);
    var d;
    d, updates, rejected := PlanFor(m, mode, schema, clientId, batchId, configs, incoming, renameFails, skeletonError,
                                    audit, rawFiles, artifacts);
    ghost var mid := m.content;
    run, logs := Conclude(m, mode, schema, clientId, batchId, d, fx);
    if run.Some? && NamesNoClient(mid) {
      AsWrittenManifestLacksClient(mode, schema, batchId, d.items, fx, mid);
    }
  }
}
