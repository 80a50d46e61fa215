// Pieces the silver and gold stage scripts share: picking the one batch file out of a
// folder listing, the job_execution_log row, and the per-procedure error lines they
// join into one message.
module StageCommon {
  import opened Optional
  import opened PyStrings
  import opened Json

  /** `f.lower().endswith('.json')` */
  predicate IsJsonName(f: string) {
    EndsWith(Lower(f), ".json")
  }

  /** The JSON names of a folder listing, in listing order. */
  function JsonNames(names: seq<string>): (r: seq<string>)
    ensures |r| <= |names|
    ensures forall f :: f in r <==> f in names && IsJsonName(f)
  {
    if names == [] then []
    else JsonNames(names[..|names| - 1]) + (if IsJsonName(names[|names| - 1]) then [names[|names| - 1]] else [])
  }

  /** POSIX `os.path.join(a, b)`: an absolute `b` replaces `a`. */
  function PathJoin(a: string, b: string): (r: string)
    ensures a != "" && !EndsWith(a, "/") && !StartsWith(b, "/") ==> r == a + "/" + b
  {
    if StartsWith(b, "/") then b
    else if a == "" || EndsWith(a, "/") then a + b
    else a + "/" + b
  }

  /** `s.rstrip('/')` */
  function RStripSlashes(s: string): (r: string)
    ensures |r| <= |s| && r == s[..|r|]
    ensures r == "" || r[|r| - 1] != '/'
  {
    if s != [] && s[|s| - 1] == '/' then RStripSlashes(s[..|s| - 1]) else s
  }

  predicate AllSlashes(s: string) {
    forall i :: 0 <= i < |s| ==> s[i] == '/'
  }

  /** POSIX `os.path.dirname(p)` */
  function Dirname(p: string): string {
    var head := p[..LastIndexOf(p, '/') + 1];
    if head != "" && !AllSlashes(head) then RStripSlashes(head) else head
  }

  /** POSIX `os.path.basename(p)` */
  function Basename(p: string): string {
    p[LastIndexOf(p, '/') + 1..]
  }

  /** `os.path.join("batch_info", client_schema, sub)` */
  function BatchFolder(schema: string, sub: string): string {
    PathJoin(PathJoin("batch_info", schema), sub)
  }

  /**
   * load_single_batch_file: the name of the only JSON file in the folder, or the message
   * of the exception raised when there is none or more than one.
   */
  function SingleBatchFile(folder: string, names: seq<string>): (r: Result<string, string>)
    ensures r.Ok? <==> |JsonNames(names)| == 1
    ensures r.Ok? ==> r.value in names && IsJsonName(r.value)
    ensures r.Ok? ==> forall f :: f in names && IsJsonName(f) ==> f == r.value
  {
    var js := JsonNames(names);
    if |js| == 0 then Err("Tidak ada file JSON batch di folder " + folder)
    else if |js| > 1 then
      Err("Lebih dari 1 file JSON batch ditemukan di folder " + folder + ", harap hanya ada 1 file.")
    else Ok(js[0])
  }

  /** A row of tools.job_execution_log (times left out). */
  datatype JobLog = JobLog(jobName: string, clientId: Value, status: string, message: Option<string>,
                           fileName: string, batchId: Value)

  /** `f"{proc_name} gagal: {error_message}"` */
  function ProcError(name: string, err: Value): (r: string)
    ensures StartsWith(r, name + " gagal: ")
  {
    name + " gagal: " + Text(err)
  }

  /** `"\n".join(error_messages) if error_messages else None` */
  function JoinedErrors(errors: seq<string>): (r: Option<string>)
    ensures r.None? <==> errors == []
    ensures r.Some? ==> forall k :: 0 <= k < |errors| ==> Contains(r.value, errors[k])
  {
    if errors == [] then None
    else
      JoinContainsParts("\n", errors);
      Some(Join("\n", errors))
  }

  /** Every part of a join occurs in the joined text. */
  lemma {:induction false} JoinContainsParts(sep: string, parts: seq<string>)
    ensures forall k :: 0 <= k < |parts| ==> Contains(Join(sep, parts), parts[k])
  {
    if |parts| >= 2 {
      var init := parts[..|parts| - 1];
      var last := parts[|parts| - 1];
      var j := Join(sep, parts);
      JoinContainsParts(sep, init);
      assert j == Join(sep, init) + sep + last;
      forall k | 0 <= k < |parts| ensures Contains(j, parts[k]) {
        if k == |parts| - 1 {
          assert OccursAt(j, last, |j| - |last|);
        } else {
          assert parts[k] == init[k];
          var i :| 0 <= i <= |Join(sep, init)| && OccursAt(Join(sep, init), init[k], i);
          assert j[i..i + |init[k]|] == Join(sep, init)[i..i + |init[k]|];
          assert OccursAt(j, parts[k], i);
        }
      }
    } else if |parts| == 1 {
      assert OccursAt(Join(sep, parts), parts[0], 0);
    }
  }

  /**
   * What `CALL proc(...)` gave back: an exception (connection or SQL error), no result
   * set to fetch, or the row `fetchone()` returned (`None` when there was none).
   */
  datatype CallResult = Raised(message: string) | NoResultSet | Fetched(row: Option<seq<Value>>)

  /** A dependency that did not succeed, with its status or `MISSING`. */
  datatype FailedDep = FailedDep(proc: string, status: string)

  /** One more element of `s` after the first `j`, behind a fixed prefix `a`. */
  lemma SliceSnoc<T>(a: seq<T>, s: seq<T>, j: nat)
    requires j < |s|
    ensures a + s[..j + 1] == (a + s[..j]) + [s[j]]
  {
    assert s[..j + 1] == s[..j] + [s[j]];
  }

  /** What happened to one procedure of the run. */
  datatype ProcRecord = Ran(name: string, ok: bool, err: Value) | Skipped(name: string, failed: seq<FailedDep>)

  predicate Failed(r: ProcRecord) { r.Ran? && !r.ok }

  predicate AllOk(recs: seq<ProcRecord>) {
    forall i :: 0 <= i < |recs| ==> !Failed(recs[i])
  }

  /** `error_messages`: one line per procedure that ran and failed, in run order. */
  function ErrorsOf(recs: seq<ProcRecord>): (e: seq<string>)
    ensures |e| <= |recs|
  {
    if recs == [] then []
    else
      var r := recs[|recs| - 1];
      ErrorsOf(recs[..|recs| - 1]) + (if Failed(r) then [ProcError(r.name, r.err)] else [])
  }

  /** all_success stays true exactly while no error line is collected. */
  lemma {:induction false} ErrorsEmptyIffAllOk(recs: seq<ProcRecord>)
    ensures ErrorsOf(recs) == [] <==> AllOk(recs)
  {
    if recs != [] {
      var init := recs[..|recs| - 1];
      ErrorsEmptyIffAllOk(init);
      assert AllOk(recs) <==> AllOk(init) && !Failed(recs[|recs| - 1]) by {
        assert forall i :: 0 <= i < |init| ==> init[i] == recs[i];
      }
    }
  }

  /** Every failed procedure has its line among the errors. */
  lemma {:induction false} ErrorsNameEveryFailure(recs: seq<ProcRecord>)
    ensures forall i :: 0 <= i < |recs| && Failed(recs[i]) ==> ProcError(recs[i].name, recs[i].err) in ErrorsOf(recs)
  {
    if recs != [] {
      var init := recs[..|recs| - 1];
      ErrorsNameEveryFailure(init);
      forall i | 0 <= i < |recs| && Failed(recs[i])
        ensures ProcError(recs[i].name, recs[i].err) in ErrorsOf(recs)
      {
        if i < |init| {
          assert recs[i] == init[i];
        }
      }
    }
  }

  /** Appending one record extends the error lines by that record's own. */
  lemma ErrorsSnoc(recs: seq<ProcRecord>, r: ProcRecord)
    ensures AllOk(recs + [r]) <==> AllOk(recs) && !Failed(r)
    ensures ErrorsOf(recs + [r]) == ErrorsOf(recs) + (if Failed(r) then [ProcError(r.name, r.err)] else [])
  {
    var rs := recs + [r];
    assert rs[..|recs|] == recs;
    assert rs[|recs|] == r;
    assert forall i :: 0 <= i < |recs| ==> rs[i] == recs[i];
    if AllOk(recs) && !Failed(r) {
      forall i | 0 <= i < |rs| ensures !Failed(rs[i]) {
        if i < |recs| {
          assert rs[i] == recs[i];
        }
      }
    }
  }
}
