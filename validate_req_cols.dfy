// scripts/validate_req_cols.py: the required-columns check of one parquet file. The file's
// logical source and batch id are read from its first row. The required columns configured
// for that source are then checked record batch by record batch. Every blank value, and
// every row of a column the batch lacks, gets one row in tools.row_validation_log. Those rows
// are buffered and bulk-inserted, and the audit row gets the valid and invalid row counts.
// Database reads, the parquet reader and the clock are inputs here.
module ValidateReqCols {
  import opened Optional
  import opened PyStrings
  import opened Json
  import opened StageCommon

  /** `os.path.basename(__file__)` */
  const JobName := "validate_req_cols.py"
  const NullRequired := "NULL_REQUIRED_VALUE"
  /** The `flush_log_batch` the script runs with (the parameter's default). */
  const FlushLogBatch := 5000
  const ValidationFailed := "Validation failed: null or empty values found in required columns"
  const AuditNotFound := "Validation errors found, but file_audit_log not updated (record not found)"

  // ---------------------------------------------------------------------------------------
  // The audit-log update statement

  /** A piece of a parameterised statement: literal text or a `%s` placeholder. */
  datatype Piece = Lit(text: string) | Hole

  /** The number of placeholders. */
  function Holes(q: seq<Piece>): nat {
    if q == [] then 0 else (if q[0].Hole? then 1 else 0) + Holes(q[1..])
  }

  /**
   * How the driver binds a parameter list: each placeholder takes the next parameter. Each
   * bound value is paired with the literal text just before its placeholder, which names
   * the column it is compared with or assigned to.
   */
  function Bind(q: seq<Piece>, ps: seq<Value>, before: string): (r: seq<(string, Value)>)
    requires Holes(q) == |ps|
    ensures |r| == |ps|
  {
    if q == [] then []
    else if q[0].Lit? then Bind(q[1..], ps, q[0].text)
    else [(before, ps[0])] + Bind(q[1..], ps[1..], before)
  }

  lemma {:induction false} HolesConcat(a: seq<Piece>, b: seq<Piece>)
    ensures Holes(a + b) == Holes(a) + Holes(b)
  {
    if a == [] {
      assert a + b == b;
    } else {
      assert (a + b)[1..] == a[1..] + b;
      HolesConcat(a[1..], b);
    }
  }

  /** A statement that starts with literal text binds the same whatever came before it. */
  lemma BindFromLit(b: seq<Piece>, pb: seq<Value>, x: string, y: string)
    requires Holes(b) == |pb|
    requires b == [] || b[0].Lit?
    ensures Bind(b, pb, x) == Bind(b, pb, y)
  {
  }

  /** Binding a statement piece by piece: a piece that starts with literal text does not
    * depend on the text before it. */
  lemma {:induction false} BindConcat(a: seq<Piece>, b: seq<Piece>, pa: seq<Value>, pb: seq<Value>, before: string)
    requires Holes(a) == |pa| && Holes(b) == |pb|
    requires b == [] || b[0].Lit?
    ensures Holes(a + b) == |pa + pb|
    ensures Bind(a + b, pa + pb, before) == Bind(a, pa, before) + Bind(b, pb, "")
  {
    HolesConcat(a, b);
    if a == [] {
      assert a + b == b && pa + pb == pb;
      BindFromLit(b, pb, before, "");
    } else if a[0].Lit? {
      assert (a + b)[1..] == a[1..] + b;
      BindConcat(a[1..], b, pa, pb, a[0].text);
    } else {
      assert (a + b)[1..] == a[1..] + b;
      assert (pa + pb)[1..] == pa[1..] + pb;
      assert (pa + pb)[0] == pa[0];
      BindConcat(a[1..], b, pa[1..], pb, before);
      calc {
        Bind(a + b, pa + pb, before);
        [(before, pa[0])] + Bind(a[1..] + b, pa[1..] + pb, before);
        [(before, pa[0])] + (Bind(a[1..], pa[1..], before) + Bind(b, pb, ""));
        Bind(a, pa, before) + Bind(b, pb, "");
      }
    }
  }

  const StatusSet := "UPDATE tools.file_audit_log SET row_validation_status = "
  const ValidSet := ", valid_rows = "
  const InvalidSet := ", invalid_rows = "
  const ClientWhere := " WHERE client_id = "
  const NameWhere := " AND parquet_file_name = "
  const BatchWhere := " AND batch_id = "

  /** One `<text> %s` assignment or comparison. */
  function Assign(text: string): (q: seq<Piece>)
    ensures Holes(q) == 1
  {
    var q := [Lit(text), Hole];
    assert q[1..] == [Hole] && q[1..][1..] == [];
    assert Holes(q[1..][1..]) == 0;
    assert Holes(q[1..]) == 1;
    q
  }

  lemma BindAssign(text: string, v: Value, before: string)
    ensures Bind(Assign(text), [v], before) == [(text, v)]
  {
    var q := Assign(text);
    assert q[1..] == [Hole] && q[1..][1..] == [];
  }

  /** `valid_clause` / `invalid_clause`: the assignment when the count is given, else nothing. */
  function Clause(text: string, present: bool): (q: seq<Piece>)
    ensures Holes(q) == if present then 1 else 0
  {
    if present then Assign(text) else []
  }

  /** `query.format(...)` of `update_file_audit_log`, layout whitespace collapsed. */
  function AuditQuery(valid: Option<int>, invalid: Option<int>): seq<Piece> {
    Assign(StatusSet) + Clause(ValidSet, valid.Some?) + Clause(InvalidSet, invalid.Some?)
      + Assign(ClientWhere) + Assign(NameWhere) + Assign(BatchWhere)
  }

  /** The assignments and comparisons the update means: each column text with its value. */
  function Intended(clientId: Value, name: string, batchId: Value, status: string,
                    valid: Option<int>, invalid: Option<int>): seq<(string, Value)>
  {
    [(StatusSet, Str(status))]
      + (if valid.Some? then [(ValidSet, Int(valid.value))] else [])
      + (if invalid.Some? then [(InvalidSet, Int(invalid.value))] else [])
      + [(ClientWhere, clientId), (NameWhere, Str(name)), (BatchWhere, batchId)]
  }

  /** The valid-rows assignment is in the statement exactly when a count is given. */
  lemma ValidClauseIff(valid: Option<int>, invalid: Option<int>)
    ensures Lit(ValidSet) in AuditQuery(valid, invalid) <==> valid.Some?
    ensures Lit(InvalidSet) in AuditQuery(valid, invalid) <==> invalid.Some?
  {
    var q := AuditQuery(valid, invalid);
    assert ValidSet != StatusSet && ValidSet != InvalidSet && ValidSet != ClientWhere;
    assert ValidSet != NameWhere && ValidSet != BatchWhere;
    assert InvalidSet != StatusSet && InvalidSet != ClientWhere;
    assert InvalidSet != NameWhere && InvalidSet != BatchWhere;
    if valid.Some? {
      assert q[2] == Lit(ValidSet);
    }
    if invalid.Some? {
      assert q[if valid.Some? then 4 else 2] == Lit(InvalidSet);
    }
  }

  /**
   * `update_file_audit_log`'s statement and parameter list: `[status]`, then the counts that
   * are given, then client id, file name and batch id. There are as many parameters as
   * placeholders, and each one binds to the column the statement names for it.
   */
  method AuditUpdate(clientId: Value, name: string, batchId: Value, status: string,
                     valid: Option<int>, invalid: Option<int>)
    returns (query: seq<Piece>, params: seq<Value>)
    ensures query == AuditQuery(valid, invalid)
    ensures Holes(query) == |params|
    ensures Bind(query, params, "") == Intended(clientId, name, batchId, status, valid, invalid)
  {
    var vc := Clause(ValidSet, valid.Some?);
    var ic := Clause(InvalidSet, invalid.Some?);
    var head := Assign(StatusSet);
    var tail := Assign(ClientWhere) + Assign(NameWhere) + Assign(BatchWhere);
    query := head + vc + ic + tail;
    assert query == AuditQuery(valid, invalid);
    var pv: seq<Value> := [];
    if valid.Some? {
      pv := [Int(valid.value)];
      BindAssign(ValidSet, Int(valid.value), "");
    }
    var pi: seq<Value> := [];
    if invalid.Some? {
      pi := [Int(invalid.value)];
      BindAssign(InvalidSet, Int(invalid.value), "");
    }
    var pt := [clientId, Str(name), batchId];
    params := [Str(status)] + pv + pi + pt;
    BindAssign(StatusSet, Str(status), "");
    BindWhere(clientId, Str(name), batchId);
    BindConcat(head, vc, [Str(status)], pv, "");
    BindConcat(head + vc, ic, [Str(status)] + pv, pi, "");
    BindConcat(head + vc + ic, tail, [Str(status)] + pv + pi, pt, "");
  }

  /** The WHERE clause binds client id, file name and batch id, in that order. */
  lemma BindWhere(clientId: Value, name: Value, batchId: Value)
    ensures Holes(Assign(ClientWhere) + Assign(NameWhere) + Assign(BatchWhere)) == 3
    ensures Bind(Assign(ClientWhere) + Assign(NameWhere) + Assign(BatchWhere), [clientId, name, batchId], "")
         == [(ClientWhere, clientId), (NameWhere, name), (BatchWhere, batchId)]
  {
    BindAssign(ClientWhere, clientId, "");
    BindAssign(NameWhere, name, "");
    BindAssign(BatchWhere, batchId, "");
    BindConcat(Assign(ClientWhere), Assign(NameWhere), [clientId], [name], "");
    assert [clientId] + [name] + [batchId] == [clientId, name, batchId];
    BindConcat(Assign(ClientWhere) + Assign(NameWhere), Assign(BatchWhere), [clientId] + [name], [batchId], "");
  }

  /** `batch_insert_row_validation_log`: one bulk insert, nothing at all for an empty list. */
  function BatchInsert<T>(inserted: seq<seq<T>>, rows: seq<T>): (r: seq<seq<T>>)
    ensures rows == [] ==> r == inserted
    ensures rows != [] ==> r == inserted + [rows]
  {
    if rows == [] then inserted else inserted + [rows]
  }

  // ---------------------------------------------------------------------------------------
  // Checking one record batch

  /**
   * One record batch after `fillna("")`: its length, the text of each column, and the
   * `csv_row_number` column as integers when the batch has it.
   */
  datatype Chunk = Chunk(len: nat, cols: map<string, seq<string>>, csvRowNumbers: Option<seq<int>>)

  predicate WellFormed(c: Chunk) {
    (forall col :: col in c.cols ==> |c.cols[col]| == c.len) &&
    (c.csvRowNumbers.Some? ==> |c.csvRowNumbers.value| == c.len)
  }

  /** The row numbers of a batch: `csv_row_number` when present, else the running counter. */
  function RowNumbers(c: Chunk, processed: int): (r: seq<int>)
    requires WellFormed(c)
    ensures |r| == c.len
  {
    match c.csvRowNumbers
    case Some(ns) => ns
    case None => seq(c.len, i => processed + 1 + i)
  }

  /** A value made of whitespace only. */
  predicate Blank(v: string) {
    forall i :: 0 <= i < |v| ==> IsSpace(v[i])
  }

  /** `v.strip() == ""` holds exactly for the blank values. */
  lemma StripEmptyIffBlank(v: string)
    ensures Strip(v) == "" <==> Blank(v)
  {
  }

  /** `value.strip() == ""` */
  method IsBlankValue(v: string) returns (b: bool)
    ensures b == Blank(v)
  {
    StripEmptyIffBlank(v);
    b := Strip(v) == "";
  }

  /** Row `i` is logged for `col`: the column is absent, or its value is blank. */
  predicate Flagged(c: Chunk, col: string, i: nat)
    requires WellFormed(c) && i < c.len
  {
    col !in c.cols || Blank(c.cols[col][i])
  }

  /**
   * A row of tools.row_validation_log. Its `error_type` and `error_detail` columns are
   * determined by the others (`ErrorType`, `ErrorDetail`); the row records whether the
   * column was present, which picks the detail text.
   */
  datatype LogRow = LogRow(clientId: Value, fileName: string, rowNumber: int, column: string,
                           columnPresent: bool, batchId: Value)

  function ErrorType(e: LogRow): string {
    NullRequired
  }

  function ErrorDetail(e: LogRow): (r: string)
    ensures StartsWith(r, "Required column '" + e.column + "' is ")
  {
    var head := "Required column '" + e.column + "' is ";
    var r := if e.columnPresent then head + "null or empty at row " + IntText(e.rowNumber)
             else head + "missing in file at row " + IntText(e.rowNumber);
    assert r[..|head|] == head;
    r
  }

  /** The values every log row of one file shares. */
  datatype Context = Context(clientId: Value, fileName: string, batchId: Value)

  /** The log row for row number `rn` and required column `col` of a batch. */
  function ErrorRow(ctx: Context, c: Chunk, col: string, rn: int): LogRow {
    LogRow(ctx.clientId, ctx.fileName, rn, col, col in c.cols, ctx.batchId)
  }

  /** The log rows of one required column over the first `k` rows of a batch. */
  function ColumnLog(ctx: Context, c: Chunk, rns: seq<int>, col: string, k: nat): seq<LogRow>
    requires WellFormed(c) && |rns| == c.len && k <= c.len
  {
    if k == 0 then []
    else ColumnLog(ctx, c, rns, col, k - 1) + (if Flagged(c, col, k - 1) then [ErrorRow(ctx, c, col, rns[k - 1])] else [])
  }

  /** The log rows of a batch for the first `j` required columns, column by column. */
  function ChunkLog(ctx: Context, c: Chunk, rns: seq<int>, required: seq<string>, j: nat): seq<LogRow>
    requires WellFormed(c) && |rns| == c.len && j <= |required|
  {
    if j == 0 then []
    else ChunkLog(ctx, c, rns, required, j - 1) + ColumnLog(ctx, c, rns, required[j - 1], c.len)
  }

  /** `errors_found` for one column: it is absent (even from an empty batch), or a value is blank. */
  predicate ColumnErrors(c: Chunk, col: string)
    requires WellFormed(c)
  {
    col !in c.cols || exists i :: 0 <= i < c.len && Flagged(c, col, i)
  }

  /** `errors_found` after the first `j` required columns of a batch. */
  predicate ChunkErrors(c: Chunk, required: seq<string>, j: nat)
    requires WellFormed(c) && j <= |required|
  {
    j > 0 && (ChunkErrors(c, required, j - 1) || ColumnErrors(c, required[j - 1]))
  }

  /** The set of row numbers in some log rows: `chunk_invalid_rows`. */
  function Logged(log: seq<LogRow>): set<int> {
    set k | 0 <= k < |log| :: log[k].rowNumber
  }

  lemma LoggedSnoc(a: seq<LogRow>, e: LogRow)
    ensures Logged(a + [e]) == Logged(a) + {e.rowNumber}
  {
    LoggedConcat(a, [e]);
    assert Logged([e]) == {e.rowNumber} by {
      assert [e][0].rowNumber == e.rowNumber;
    }
  }

  lemma LoggedConcat(a: seq<LogRow>, b: seq<LogRow>)
    ensures Logged(a + b) == Logged(a) + Logged(b)
  {
    forall rn | rn in Logged(a + b)
      ensures rn in Logged(a) + Logged(b)
    {
      var k :| 0 <= k < |a + b| && (a + b)[k].rowNumber == rn;
      if k >= |a| {
        assert b[k - |a|].rowNumber == rn;
      }
    }
    forall rn | rn in Logged(b)
      ensures rn in Logged(a + b)
    {
      var k :| 0 <= k < |b| && b[k].rowNumber == rn;
      assert (a + b)[|a| + k] == b[k];
    }
    forall rn | rn in Logged(a)
      ensures rn in Logged(a + b)
    {
      var k :| 0 <= k < |a| && a[k].rowNumber == rn;
      assert (a + b)[k] == a[k];
    }
  }

  /** The loop over one column's rows: only blank rows, or every row when the column is absent. */
  method ScanColumn(ctx: Context, c: Chunk, rns: seq<int>, col: string)
    returns (log: seq<LogRow>, rows: set<int>, errors: bool)
    requires WellFormed(c) && |rns| == c.len
    ensures log == ColumnLog(ctx, c, rns, col, c.len)
    ensures rows == Logged(log)
    ensures errors == ColumnErrors(c, col)
  {
    if col in c.cols {
      log, rows, errors := ScanBlankRows(ctx, c, rns, col);
    } else {
      errors := true;
      log, rows := ScanEveryRow(ctx, c, rns, col);
    }
  }

  /** `mask = series.str.strip() == ""` and the loop over the rows it selects. */
  method ScanBlankRows(ctx: Context, c: Chunk, rns: seq<int>, col: string)
    returns (log: seq<LogRow>, rows: set<int>, errors: bool)
    requires WellFormed(c) && |rns| == c.len && col in c.cols
    ensures log == ColumnLog(ctx, c, rns, col, c.len)
    ensures rows == Logged(log)
    ensures errors == exists i :: 0 <= i < c.len && Flagged(c, col, i)
  {
    log, rows := [], {};
    var values := c.cols[col];
    errors := false;
    for i := 0 to c.len
      invariant log == ColumnLog(ctx, c, rns, col, i)
      invariant rows == Logged(log)
      invariant errors <==> exists k :: 0 <= k < i && Flagged(c, col, k)
    {
      var blank := IsBlankValue(values[i]);
      if blank {
        errors := true;
        LoggedSnoc(log, ErrorRow(ctx, c, col, rns[i]));
        log := log + [ErrorRow(ctx, c, col, rns[i])];
        rows := rows + {rns[i]};
      }
    }
  }

  /** A column missing from the batch: every row is logged. */
  method ScanEveryRow(ctx: Context, c: Chunk, rns: seq<int>, col: string)
    returns (log: seq<LogRow>, rows: set<int>)
    requires WellFormed(c) && |rns| == c.len && col !in c.cols
    ensures log == ColumnLog(ctx, c, rns, col, c.len)
    ensures rows == Logged(log)
  {
    log, rows := [], {};
    for i := 0 to c.len
      invariant log == ColumnLog(ctx, c, rns, col, i)
      invariant rows == Logged(log)
    {
      LoggedSnoc(log, ErrorRow(ctx, c, col, rns[i]));
      log := log + [ErrorRow(ctx, c, col, rns[i])];
      rows := rows + {rns[i]};
    }
  }

  /** The loop over the required columns of one batch. */
  method ScanChunk(ctx: Context, c: Chunk, rns: seq<int>, required: seq<string>)
    returns (log: seq<LogRow>, rows: set<int>, errors: bool)
    requires WellFormed(c) && |rns| == c.len
    ensures log == ChunkLog(ctx, c, rns, required, |required|)
    ensures rows == Logged(log)
    ensures errors == ChunkErrors(c, required, |required|)
  {
    log, rows, errors := [], {}, false;
    for j := 0 to |required|
      invariant log == ChunkLog(ctx, c, rns, required, j)
      invariant rows == Logged(log)
      invariant errors == ChunkErrors(c, required, j)
    {
      var colLog, colRows, colErrors := ScanColumn(ctx, c, rns, required[j]);
      LoggedConcat(log, colLog);
      log := log + colLog;
      rows := rows + colRows;
      errors := errors || colErrors;
    }
  }

  /** A missing required column fails the file even when the batch has no rows. */
  lemma MissingColumnFailsEmptyBatch(ctx: Context, col: string)
    ensures ChunkErrors(Chunk(0, map[], None), [col], 1)
    ensures ChunkLog(ctx, Chunk(0, map[], None), [], [col], 1) == []
  {
    assert ColumnErrors(Chunk(0, map[], None), col);
  }

  /** Every log row of a batch names a required column and a row of the batch that is blank
    * in (or absent from) that column, and every such pair is logged. */
  lemma {:induction false} ColumnLogMembers(ctx: Context, c: Chunk, rns: seq<int>, col: string, k: nat, e: LogRow)
    requires WellFormed(c) && |rns| == c.len && k <= c.len
    ensures e in ColumnLog(ctx, c, rns, col, k) <==>
            exists i :: 0 <= i < k && Flagged(c, col, i) && e == ErrorRow(ctx, c, col, rns[i])
  {
    if k > 0 {
      ColumnLogMembers(ctx, c, rns, col, k - 1, e);
      var prev := ColumnLog(ctx, c, rns, col, k - 1);
      var last := ErrorRow(ctx, c, col, rns[k - 1]);
      var add := if Flagged(c, col, k - 1) then [last] else [];
      assert ColumnLog(ctx, c, rns, col, k) == prev + add;
      if e in prev + add {
        if e in prev {
          var i :| 0 <= i < k - 1 && Flagged(c, col, i) && e == ErrorRow(ctx, c, col, rns[i]);
          assert 0 <= i < k;
        } else {
          assert e == last && Flagged(c, col, k - 1);
        }
      }
      if exists i :: 0 <= i < k && Flagged(c, col, i) && e == ErrorRow(ctx, c, col, rns[i]) {
        var i :| 0 <= i < k && Flagged(c, col, i) && e == ErrorRow(ctx, c, col, rns[i]);
        if i == k - 1 {
          assert e in add;
        } else {
          assert e in prev;
        }
      }
    }
  }

  lemma {:induction false} ChunkLogMembers(ctx: Context, c: Chunk, rns: seq<int>, required: seq<string>, j: nat, e: LogRow)
    requires WellFormed(c) && |rns| == c.len && j <= |required|
    ensures e in ChunkLog(ctx, c, rns, required, j) <==>
            exists q, i :: 0 <= q < j && 0 <= i < c.len && Flagged(c, required[q], i)
                           && e == ErrorRow(ctx, c, required[q], rns[i])
  {
    if j > 0 {
      ChunkLogMembers(ctx, c, rns, required, j - 1, e);
      ColumnLogMembers(ctx, c, rns, required[j - 1], c.len, e);
    }
  }

  /** Row `i` of a batch is blank in, or absent from, some required column. */
  predicate RowFlagged(c: Chunk, required: seq<string>, i: nat)
    requires WellFormed(c) && i < c.len
  {
    exists q :: 0 <= q < |required| && Flagged(c, required[q], i)
  }

  /** The row numbers of the flagged rows among the first `m` rows. */
  function FlaggedRows(c: Chunk, rns: seq<int>, required: seq<string>, m: nat): set<int>
    requires WellFormed(c) && |rns| == c.len && m <= c.len
  {
    set i | 0 <= i < m && RowFlagged(c, required, i) :: rns[i]
  }

  /** `chunk_invalid_rows` is the set of the row numbers of the flagged rows. */
  lemma ChunkInvalidRows(ctx: Context, c: Chunk, rns: seq<int>, required: seq<string>)
    requires WellFormed(c) && |rns| == c.len
    ensures Logged(ChunkLog(ctx, c, rns, required, |required|)) == FlaggedRows(c, rns, required, c.len)
  {
    var log := ChunkLog(ctx, c, rns, required, |required|);
    forall rn | rn in Logged(log)
      ensures rn in FlaggedRows(c, rns, required, c.len)
    {
      var k :| 0 <= k < |log| && log[k].rowNumber == rn;
      ChunkLogMembers(ctx, c, rns, required, |required|, log[k]);
      var q, i :| 0 <= q < |required| && 0 <= i < c.len && Flagged(c, required[q], i)
                  && log[k] == ErrorRow(ctx, c, required[q], rns[i]);
      assert RowFlagged(c, required, i);
    }
    forall rn | rn in FlaggedRows(c, rns, required, c.len)
      ensures rn in Logged(log)
    {
      var i :| 0 <= i < c.len && RowFlagged(c, required, i) && rns[i] == rn;
      var q :| 0 <= q < |required| && Flagged(c, required[q], i);
      var e := ErrorRow(ctx, c, required[q], rns[i]);
      ChunkLogMembers(ctx, c, rns, required, |required|, e);
      var k :| 0 <= k < |log| && log[k] == e;
      assert log[k].rowNumber == rn;
    }
  }

  /** A batch has at most as many invalid rows as rows. */
  lemma {:induction false} FlaggedRowsBound(c: Chunk, rns: seq<int>, required: seq<string>, m: nat)
    requires WellFormed(c) && |rns| == c.len && m <= c.len
    ensures |FlaggedRows(c, rns, required, m)| <= m
  {
    if m > 0 {
      FlaggedRowsBound(c, rns, required, m - 1);
      var prev := FlaggedRows(c, rns, required, m - 1);
      assert FlaggedRows(c, rns, required, m) <= prev + {rns[m - 1]};
      assert |prev + {rns[m - 1]}| <= |prev| + 1;
      SubsetCard(FlaggedRows(c, rns, required, m), prev + {rns[m - 1]});
    }
  }

  lemma SubsetCard(a: set<int>, b: set<int>)
    requires a <= b
    ensures |a| <= |b|
  {
    assert b == a + (b - a);
  }

  /** A column without blank values, present in the batch, logs nothing. */
  lemma {:induction false} QuietColumn(ctx: Context, c: Chunk, rns: seq<int>, col: string, k: nat)
    requires WellFormed(c) && |rns| == c.len && k <= c.len
    requires !ColumnErrors(c, col)
    ensures ColumnLog(ctx, c, rns, col, k) == []
  {
    if k > 0 {
      QuietColumn(ctx, c, rns, col, k - 1);
    }
  }

  lemma {:induction false} QuietChunk(ctx: Context, c: Chunk, rns: seq<int>, required: seq<string>, j: nat)
    requires WellFormed(c) && |rns| == c.len && j <= |required|
    requires !ChunkErrors(c, required, j)
    ensures ChunkLog(ctx, c, rns, required, j) == []
  {
    if j > 0 {
      QuietChunk(ctx, c, rns, required, j - 1);
      QuietColumn(ctx, c, rns, required[j - 1], c.len);
    }
  }

  // ---------------------------------------------------------------------------------------
  // The record-batch loop

  predicate AllWellFormed(chunks: seq<Chunk>) {
    forall k :: 0 <= k < |chunks| ==> WellFormed(chunks[k])
  }

  /** `rows_processed` after the first `n` batches. */
  function Processed(chunks: seq<Chunk>, n: nat): nat
    requires n <= |chunks|
  {
    if n == 0 then 0 else Processed(chunks, n - 1) + chunks[n - 1].len
  }

  /** The row numbers of batch `n`. */
  function RowsOf(chunks: seq<Chunk>, n: nat): (r: seq<int>)
    requires AllWellFormed(chunks) && n < |chunks|
    ensures |r| == chunks[n].len
  {
    RowNumbers(chunks[n], Processed(chunks, n))
  }

  /** The log rows of batch `n`. */
  function LogOf(ctx: Context, chunks: seq<Chunk>, required: seq<string>, n: nat): seq<LogRow>
    requires AllWellFormed(chunks) && n < |chunks|
  {
    ChunkLog(ctx, chunks[n], RowsOf(chunks, n), required, |required|)
  }

  /** Every log row of the first `n` batches, in order. */
  function StreamLog(ctx: Context, chunks: seq<Chunk>, required: seq<string>, n: nat): seq<LogRow>
    requires AllWellFormed(chunks) && n <= |chunks|
  {
    if n == 0 then [] else StreamLog(ctx, chunks, required, n - 1) + LogOf(ctx, chunks, required, n - 1)
  }

  /** `invalid_rows_total` after the first `n` batches. */
  function InvalidTotal(ctx: Context, chunks: seq<Chunk>, required: seq<string>, n: nat): nat
    requires AllWellFormed(chunks) && n <= |chunks|
  {
    if n == 0 then 0 else InvalidTotal(ctx, chunks, required, n - 1) + |Logged(LogOf(ctx, chunks, required, n - 1))|
  }

  /** `errors_found` after the first `n` batches. */
  predicate AnyErrors(chunks: seq<Chunk>, required: seq<string>, n: nat)
    requires AllWellFormed(chunks) && n <= |chunks|
  {
    n > 0 && (AnyErrors(chunks, required, n - 1) || ChunkErrors(chunks[n - 1], required, |required|))
  }

  /** The bulk inserts made and the pending `log_buffer` after the first `n` batches. */
  function Flushes(ctx: Context, chunks: seq<Chunk>, required: seq<string>, flush: int, n: nat)
    : (seq<seq<LogRow>>, seq<LogRow>)
    requires AllWellFormed(chunks) && n <= |chunks|
  {
    if n == 0 then ([], [])
    else FlushStep(Flushes(ctx, chunks, required, flush, n - 1), LogOf(ctx, chunks, required, n - 1), flush)
  }

  /** One batch's log rows join the buffer, which is inserted once it holds `flush` rows. */
  function FlushStep<T>(prev: (seq<seq<T>>, seq<T>), rows: seq<T>, flush: int): (seq<seq<T>>, seq<T>) {
    var buffer := prev.1 + rows;
    if |buffer| >= flush then (BatchInsert(prev.0, buffer), []) else (prev.0, buffer)
  }

  function Flatten<T>(bs: seq<seq<T>>): seq<T> {
    if bs == [] then [] else Flatten(bs[..|bs| - 1]) + bs[|bs| - 1]
  }

  lemma FlattenSnoc<T>(bs: seq<seq<T>>, b: seq<T>)
    ensures Flatten(bs + [b]) == Flatten(bs) + b
  {
    assert (bs + [b])[..|bs|] == bs;
  }

  /** The loop over the record batches, with the flush of a buffer that reached `flush`. */
  method ScanStream(ctx: Context, chunks: seq<Chunk>, required: seq<string>, flush: int)
    returns (inserted: seq<seq<LogRow>>, buffer: seq<LogRow>, invalidTotal: nat, processed: nat, errorsFound: bool)
    requires AllWellFormed(chunks)
    ensures (inserted, buffer) == Flushes(ctx, chunks, required, flush, |chunks|)
    ensures invalidTotal == InvalidTotal(ctx, chunks, required, |chunks|)
    ensures processed == Processed(chunks, |chunks|)
    ensures errorsFound == AnyErrors(chunks, required, |chunks|)
  {
    inserted, buffer, invalidTotal, processed, errorsFound := [], [], 0, 0, false;
    for n := 0 to |chunks|
      invariant (inserted, buffer) == Flushes(ctx, chunks, required, flush, n)
      invariant invalidTotal == InvalidTotal(ctx, chunks, required, n)
      invariant processed == Processed(chunks, n)
      invariant errorsFound == AnyErrors(chunks, required, n)
    {
      var c := chunks[n];
      var rns := RowNumbers(c, processed);
      var log, rows, errors := ScanChunk(ctx, c, rns, required);
      if errors {
        errorsFound := true;
      }
      invalidTotal := invalidTotal + |rows|;
      processed := processed + c.len;
      buffer := buffer + log;
      if |buffer| >= flush {
        inserted := BatchInsert(inserted, buffer);
        buffer := [];
      }
    }
  }

  /** Every log row reaches the buffer or an insert, in order. */
  lemma {:induction false} FlushesKeepEveryRow(ctx: Context, chunks: seq<Chunk>, required: seq<string>, flush: int, n: nat)
    requires AllWellFormed(chunks) && n <= |chunks|
    ensures var f := Flushes(ctx, chunks, required, flush, n);
            Flatten(f.0) + f.1 == StreamLog(ctx, chunks, required, n)
  {
    if n > 0 {
      FlushesKeepEveryRow(ctx, chunks, required, flush, n - 1);
      FlushStepKeeps(Flushes(ctx, chunks, required, flush, n - 1), LogOf(ctx, chunks, required, n - 1), flush);
    }
  }

  lemma FlushStepKeeps<T>(prev: (seq<seq<T>>, seq<T>), rows: seq<T>, flush: int)
    ensures var f := FlushStep(prev, rows, flush);
            Flatten(f.0) + f.1 == Flatten(prev.0) + prev.1 + rows
  {
    var buffer := prev.1 + rows;
    if |buffer| >= flush && buffer != [] {
      FlattenSnoc(prev.0, buffer);
    }
  }

  /** Every insert is non-empty and holds at least `flush` rows; what stays in the buffer is
    * shorter than `flush`. */
  lemma {:induction false} FlushedBatchesFull(ctx: Context, chunks: seq<Chunk>, required: seq<string>, flush: int, n: nat)
    requires AllWellFormed(chunks) && n <= |chunks|
    ensures var f := Flushes(ctx, chunks, required, flush, n);
            forall k :: 0 <= k < |f.0| ==> f.0[k] != [] && |f.0[k]| >= flush
    ensures var f := Flushes(ctx, chunks, required, flush, n);
            f.1 == [] || |f.1| < flush
  {
    if n > 0 {
      FlushedBatchesFull(ctx, chunks, required, flush, n - 1);
      FlushStepFull(Flushes(ctx, chunks, required, flush, n - 1), LogOf(ctx, chunks, required, n - 1), flush);
    }
  }

  lemma FlushStepFull<T>(prev: (seq<seq<T>>, seq<T>), rows: seq<T>, flush: int)
    requires forall k :: 0 <= k < |prev.0| ==> prev.0[k] != [] && |prev.0[k]| >= flush
    ensures var f := FlushStep(prev, rows, flush);
            (forall k :: 0 <= k < |f.0| ==> f.0[k] != [] && |f.0[k]| >= flush) && (f.1 == [] || |f.1| < flush)
  {
  }

  /** Without `csv_row_number`, the rows of the whole file are numbered 1, 2, 3, ... */
  function AllRows(chunks: seq<Chunk>, n: nat): seq<int>
    requires AllWellFormed(chunks) && n <= |chunks|
  {
    if n == 0 then [] else AllRows(chunks, n - 1) + RowsOf(chunks, n - 1)
  }

  lemma {:induction false} RunningRowNumbers(chunks: seq<Chunk>, n: nat)
    requires AllWellFormed(chunks) && n <= |chunks|
    requires forall k :: 0 <= k < n ==> chunks[k].csvRowNumbers.None?
    ensures AllRows(chunks, n) == seq(Processed(chunks, n), i => i + 1)
  {
    if n > 0 {
      RunningRowNumbers(chunks, n - 1);
      var p := Processed(chunks, n - 1);
      var r := RowsOf(chunks, n - 1);
      assert r == seq(chunks[n - 1].len, i => p + 1 + i);
      var whole := seq(Processed(chunks, n), i => i + 1);
      assert AllRows(chunks, n) == seq(p, i => i + 1) + r;
      assert seq(p, i => i + 1) + r == whole by {
        forall i | 0 <= i < |whole|
          ensures (seq(p, i => i + 1) + r)[i] == whole[i]
        {
          if i >= p {
            assert r[i - p] == i + 1;
          }
        }
      }
    }
  }

  /** The invalid rows never outnumber the rows processed. */
  lemma {:induction false} InvalidTotalBound(ctx: Context, chunks: seq<Chunk>, required: seq<string>, n: nat)
    requires AllWellFormed(chunks) && n <= |chunks|
    ensures InvalidTotal(ctx, chunks, required, n) <= Processed(chunks, n)
  {
    if n > 0 {
      InvalidTotalBound(ctx, chunks, required, n - 1);
      var c := chunks[n - 1];
      ChunkInvalidRows(ctx, c, RowsOf(chunks, n - 1), required);
      FlaggedRowsBound(c, RowsOf(chunks, n - 1), required, c.len);
    }
  }

  /** A file with no errors logs nothing and has no invalid rows. */
  lemma {:induction false} QuietStream(ctx: Context, chunks: seq<Chunk>, required: seq<string>, n: nat)
    requires AllWellFormed(chunks) && n <= |chunks|
    requires !AnyErrors(chunks, required, n)
    ensures StreamLog(ctx, chunks, required, n) == []
    ensures InvalidTotal(ctx, chunks, required, n) == 0
  {
    if n > 0 {
      QuietStream(ctx, chunks, required, n - 1);
      QuietChunk(ctx, chunks[n - 1], RowsOf(chunks, n - 1), required, |required|);
      assert Logged([]) == {};
    }
  }

  // ---------------------------------------------------------------------------------------
  // One run of the script

  /** The first row read for metadata: whether the sample has the `logical_source_file`
    * column, and its first row (None when the sample has no rows). */
  datatype Sample = Sample(hasLogicalColumn: bool, first: Option<Entry>)

  /**
   * What the script reads: the client id of the schema (None when client_reference has no
   * row), whether the parquet file exists, its row count from metadata (`Err` when the file
   * cannot be opened, `Ok(None)` when the count cannot be read), the sample, the
   * `required_column_version`, the required columns (a set, in iteration order), the record
   * batches, an error raised by the iteration after those batches, and the number of audit
   * rows an update matches.
   */
  datatype ReqEnv = ReqEnv(clientId: Option<Value>, parquetExists: bool, metadata: Result<Option<int>, string>,
                           sample: Result<Sample, string>, version: Value, required: seq<string>,
                           chunks: seq<Chunk>, streamError: Option<string>, affected: nat)

  /** The `update_file_audit_log` call made: status and the counts passed (None: not set). */
  datatype AuditCall = AuditCall(status: string, valid: Option<int>, invalid: Option<int>)

  /** The exit code, the audit update, the job-log row and the bulk inserts of a run. */
  datatype ReqRun = ReqRun(exitCode: int, audit: Option<AuditCall>, jobLog: Option<JobLog>,
                           inserted: seq<seq<LogRow>>)

  /** What the checks before the scan establish: client id, batch id and metadata row count. */
  datatype Prepared = Prepared(clientId: Value, batchId: Value, totalRows: Option<int>)

  function ParquetPath(schema: string, name: string): string {
    PathJoin(PathJoin(PathJoin("data", schema), "incoming"), name)
  }

  /** Why a run ends before the scan. */
  datatype Stop =
    | UnknownSchema                     // `get_client_id_by_schema` raised ValueError: no log
    | FileNotFound(clientId: Value)
    | MetadataUnreadable(clientId: Value, error: string)
    | SampleUnreadable(clientId: Value, error: string)
    | NoLogicalColumn(clientId: Value)
    | EmptySample                       // `sample_df.iloc[0]` raises IndexError, not caught
    | NoLogicalValue(clientId: Value, batchId: Value)
    | NoBatchValue(clientId: Value)
    | NoVersion(clientId: Value, batchId: Value)

  /** A run that ends before the scan, with a FAILED job-log row. */
  function Stopped(clientId: Value, name: string, batchId: Value, msg: string): ReqRun {
    ReqRun(1, None, Some(JobLog(JobName, clientId, "FAILED", Some(msg), name, batchId)), [])
  }

  /** A run that ends with an exception nobody catches, or an early `return False` without a log. */
  const Crashed := ReqRun(1, None, None, [])

  /** The run a stop makes: exit 1, no audit update, no log rows, and the job-log row. */
  function StopRun(stop: Stop, schema: string, name: string): (r: ReqRun)
    ensures r.exitCode == 1 && r.audit.None? && r.inserted == []
    ensures r.jobLog.None? <==> stop.UnknownSchema? || stop.EmptySample?
  {
    match stop
    case UnknownSchema => Crashed
    case FileNotFound(cid) => Stopped(cid, name, Null, "File not found: " + ParquetPath(schema, name))
    case MetadataUnreadable(cid, e) => Stopped(cid, name, Null, "Failed reading parquet metadata: " + e)
    case SampleUnreadable(cid, e) => Stopped(cid, name, Null, "Unable to read sample metadata from parquet: " + e)
    case NoLogicalColumn(cid) => Stopped(cid, name, Null, "Missing 'logical_source_file' in parquet metadata/columns")
    case EmptySample => Crashed
    case NoLogicalValue(cid, batchId) => Stopped(cid, name, batchId, "Missing logical_source_file value in parquet metadata")
    case NoBatchValue(cid) => Stopped(cid, name, Null, "Missing batch_id value in parquet metadata")
    case NoVersion(cid, batchId) =>
      Stopped(cid, name, batchId, "No required_column_version found for client_id '" + Text(cid) + "'")
  }

  /** The checks of `validate_required_columns` before the scan, in the script's order. */
  function Prepare(env: ReqEnv): Result<Prepared, Stop> {
    if env.clientId.None? then Err(UnknownSchema)
    else
      var cid := env.clientId.value;
      if !env.parquetExists then Err(FileNotFound(cid))
      else if env.metadata.Err? then Err(MetadataUnreadable(cid, env.metadata.error))
      else if env.sample.Err? then Err(SampleUnreadable(cid, env.sample.error))
      else if !env.sample.value.hasLogicalColumn then Err(NoLogicalColumn(cid))
      else if env.sample.value.first.None? then Err(EmptySample)
      else
        var row := env.sample.value.first.value;
        var batchId := Get(row, "batch_id");
        if !Truthy(Get(row, "logical_source_file")) then Err(NoLogicalValue(cid, batchId))
        else if !Truthy(batchId) then Err(NoBatchValue(cid))
        else if !Truthy(env.version) then Err(NoVersion(cid, batchId))
        else Ok(Prepared(cid, batchId, env.metadata.value))
  }

  /** The end of a run that scanned every batch without an iteration error. */
  function Verdict(p: Prepared, name: string, env: ReqEnv, inserted: seq<seq<LogRow>>, invalidTotal: nat,
                   processed: nat, errorsFound: bool): ReqRun
  {
    var total := if p.totalRows.Some? then p.totalRows.value else processed;
    var valid := total - invalidTotal;
    if errorsFound then
      var msg := if env.affected > 0 then ValidationFailed else AuditNotFound;
      ReqRun(1, Some(AuditCall("FAILED", Some(valid), Some(invalidTotal))),
             Some(JobLog(JobName, p.clientId, "FAILED", Some(msg), name, p.batchId)), inserted)
    else
      ReqRun(0, Some(AuditCall("SUCCESS", Some(valid), Some(0))),
             Some(JobLog(JobName, p.clientId, "SUCCESS", None, name, p.batchId)), inserted)
  }

  /** `validate_required_columns(schema, name, flush_log_batch=flush)`, exit code 0 for True. */
  function Validation(schema: string, name: string, env: ReqEnv, flush: int): ReqRun
    requires AllWellFormed(env.chunks)
  {
    match Prepare(env)
    case Err(stop) => StopRun(stop, schema, name)
    case Ok(p) => Checked(p, name, env, flush)
  }

  /** The rest of a run once the checks have passed. */
  function Checked(p: Prepared, name: string, env: ReqEnv, flush: int): ReqRun
    requires AllWellFormed(env.chunks)
  {
      if env.required == [] then
        ReqRun(0, Some(AuditCall("SUCCESS", None, None)),
               Some(JobLog(JobName, p.clientId, "SUCCESS", None, name, p.batchId)), [])
      else
        var ctx := Context(p.clientId, name, p.batchId);
        var n := |env.chunks|;
        var f := Flushes(ctx, env.chunks, env.required, flush, n);
        if env.streamError.Some? then
          ReqRun(1, None, Some(JobLog(JobName, p.clientId, "FAILED",
                                      Some("Error during parquet iteration/validation: " + env.streamError.value),
                                      name, p.batchId)), f.0)
        else
          Verdict(p, name, env, BatchInsert(f.0, f.1), InvalidTotal(ctx, env.chunks, env.required, n),
                  Processed(env.chunks, n), AnyErrors(env.chunks, env.required, n))
  }

  /** The script's `__main__`: fewer than two arguments exit 1 before anything is read. */
  function ReqColsSpec(args: seq<string>, env: ReqEnv): ReqRun
    requires AllWellFormed(env.chunks)
  {
    if |args| < 2 then Crashed else Validation(args[0], args[1], env, FlushLogBatch)
  }

  /** `validate_required_columns`, with the batch loop and the final flush. */
  method ValidateRequiredColumns(schema: string, name: string, env: ReqEnv, flush: int) returns (run: ReqRun)
    requires AllWellFormed(env.chunks)
    ensures run == Validation(schema, name, env, flush)
  {
    var pre := Prepare(env);
    if pre.Err? {
      return StopRun(pre.error, schema, name);
    }
    var p := pre.value;
    if env.required == [] {
      return ReqRun(0, Some(AuditCall("SUCCESS", None, None)),
                    Some(JobLog(JobName, p.clientId, "SUCCESS", None, name, p.batchId)), []);
    }
    var ctx := Context(p.clientId, name, p.batchId);
    var inserted, buffer, invalidTotal, processed, errorsFound := ScanStream(ctx, env.chunks, env.required, flush);
    if env.streamError.Some? {
      return ReqRun(1, None, Some(JobLog(JobName, p.clientId, "FAILED",
                                         Some("Error during parquet iteration/validation: " + env.streamError.value),
                                         name, p.batchId)), inserted);
    }
    if buffer != [] {
      inserted := inserted + [buffer];
    }
    run := Verdict(p, name, env, inserted, invalidTotal, processed, errorsFound);
  }

  /** The script's entry point. */
  method RunScript(args: seq<string>, env: ReqEnv) returns (run: ReqRun)
    requires AllWellFormed(env.chunks)
    ensures run == ReqColsSpec(args, env)
  {
    if |args| < 2 {
      return Crashed;
    }
    run := ValidateRequiredColumns(args[0], args[1], env, FlushLogBatch);
  }

  // ---------------------------------------------------------------------------------------
  // What a run promises

  /** The script exits 0 exactly when the checks pass and either nothing is required or the
    * scan ends without an iteration error and without errors. */
  lemma ReqExitCodes(schema: string, name: string, env: ReqEnv, flush: int)
    requires AllWellFormed(env.chunks)
    ensures var run := Validation(schema, name, env, flush);
            run.exitCode == 0 || run.exitCode == 1
    ensures var run := Validation(schema, name, env, flush);
            var pre := Prepare(env);
            run.exitCode == 0 <==>
              pre.Ok? && (env.required == [] || (env.streamError.None? && !AnyErrors(env.chunks, env.required, |env.chunks|)))
  {
  }

  /** No required columns: SUCCESS without reading a batch, and no counts in the audit row. */
  lemma NoRequiredColumnsSucceeds(schema: string, name: string, env: ReqEnv, flush: int)
    requires AllWellFormed(env.chunks)
    requires Prepare(env).Ok? && env.required == []
    ensures var run := Validation(schema, name, env, flush);
            run.exitCode == 0 && run.inserted == [] && run.audit == Some(AuditCall("SUCCESS", None, None))
            && run.jobLog.Some? && run.jobLog.value.status == "SUCCESS"
  {
  }

  /** A completed scan reports `invalid_rows`: the number of distinct invalid row numbers per
    * batch, summed. */
  lemma CountsReported(p: Prepared, name: string, env: ReqEnv, flush: int)
    requires AllWellFormed(env.chunks)
    requires env.required != [] && env.streamError.None?
    ensures var invalid := InvalidTotal(Context(p.clientId, name, p.batchId), env.chunks, env.required, |env.chunks|);
            var audit := Checked(p, name, env, flush).audit;
            audit.Some? && audit.value.invalid == Some(invalid)
  {
    var ctx := Context(p.clientId, name, p.batchId);
    var n := |env.chunks|;
    ScanCompletes(p, name, env, flush);
    if !AnyErrors(env.chunks, env.required, n) {
      QuietStream(ctx, env.chunks, env.required, n);
    }
  }

  /** A completed scan reports `valid_rows`: the metadata row count, or the rows processed
    * when the metadata has none, minus the invalid rows. */
  lemma ValidCountReported(p: Prepared, name: string, env: ReqEnv, flush: int)
    requires AllWellFormed(env.chunks)
    requires env.required != [] && env.streamError.None?
    ensures var n := |env.chunks|;
            var invalid := InvalidTotal(Context(p.clientId, name, p.batchId), env.chunks, env.required, n);
            var total := if p.totalRows.Some? then p.totalRows.value else Processed(env.chunks, n);
            var audit := Checked(p, name, env, flush).audit;
            audit.Some? && audit.value.valid == Some(total - invalid)
  {
    var ctx := Context(p.clientId, name, p.batchId);
    var n := |env.chunks|;
    var f := Flushes(ctx, env.chunks, env.required, flush, n);
    var invalid := InvalidTotal(ctx, env.chunks, env.required, n);
    var processed := Processed(env.chunks, n);
    var v := Verdict(p, name, env, BatchInsert(f.0, f.1), invalid, processed, AnyErrors(env.chunks, env.required, n));
    ScanCompletes(p, name, env, flush);
    assert Checked(p, name, env, flush) == v;
    VerdictValid(p, name, env, BatchInsert(f.0, f.1), invalid, processed, AnyErrors(env.chunks, env.required, n));
    assert v.audit.value.valid == Some((if p.totalRows.Some? then p.totalRows.value else processed) - invalid);
  }

  /** The verdict's `valid_rows` is the total minus the invalid rows, whatever was found. */
  lemma VerdictValid(p: Prepared, name: string, env: ReqEnv, inserted: seq<seq<LogRow>>, invalidTotal: nat,
                     processed: nat, errorsFound: bool)
    ensures var total := if p.totalRows.Some? then p.totalRows.value else processed;
            var audit := Verdict(p, name, env, inserted, invalidTotal, processed, errorsFound).audit;
            audit.Some? && audit.value.valid == Some(total - invalidTotal)
  {
  }

  /** A completed scan's audit status is FAILED exactly when errors were found, else SUCCESS. */
  lemma StatusReported(p: Prepared, name: string, env: ReqEnv, flush: int)
    requires AllWellFormed(env.chunks)
    requires env.required != [] && env.streamError.None?
    ensures var audit := Checked(p, name, env, flush).audit;
            audit.Some?
            && audit.value.status == (if AnyErrors(env.chunks, env.required, |env.chunks|) then "FAILED" else "SUCCESS")
  {
    ScanCompletes(p, name, env, flush);
  }

  /** With the checks passed, columns required and no iteration error, the run is the
    * verdict on the scan's totals. */
  lemma ScanCompletes(p: Prepared, name: string, env: ReqEnv, flush: int)
    requires AllWellFormed(env.chunks)
    requires env.required != [] && env.streamError.None?
    ensures var ctx := Context(p.clientId, name, p.batchId);
            var n := |env.chunks|;
            var f := Flushes(ctx, env.chunks, env.required, flush, n);
            Checked(p, name, env, flush)
              == Verdict(p, name, env, BatchInsert(f.0, f.1), InvalidTotal(ctx, env.chunks, env.required, n),
                         Processed(env.chunks, n), AnyErrors(env.chunks, env.required, n))
  {
  }

  /** Without a metadata row count, `valid_rows` is never negative. */
  lemma ValidRowsNonNegative(p: Prepared, name: string, env: ReqEnv, flush: int)
    requires AllWellFormed(env.chunks)
    requires env.required != [] && env.streamError.None? && p.totalRows.None?
    ensures var audit := Checked(p, name, env, flush).audit;
            audit.Some? && audit.value.valid.Some? && audit.value.valid.value >= 0
  {
    ValidCountReported(p, name, env, flush);
    InvalidTotalBound(Context(p.clientId, name, p.batchId), env.chunks, env.required, |env.chunks|);
  }

  /** A completed scan inserts every log row, in order, in non-empty bulk inserts of which
    * all but the last hold at least `flush` rows. */
  lemma EveryLogRowInserted(p: Prepared, name: string, env: ReqEnv, flush: int)
    requires AllWellFormed(env.chunks)
    requires env.required != [] && env.streamError.None?
    ensures var ctx := Context(p.clientId, name, p.batchId);
            var run := Checked(p, name, env, flush);
            Flatten(run.inserted) == StreamLog(ctx, env.chunks, env.required, |env.chunks|)
            && (forall k :: 0 <= k < |run.inserted| ==> run.inserted[k] != [])
            && (forall k :: 0 <= k < |run.inserted| - 1 ==> |run.inserted[k]| >= flush)
  {
    var ctx := Context(p.clientId, name, p.batchId);
    var n := |env.chunks|;
    var f := Flushes(ctx, env.chunks, env.required, flush, n);
    FlushesKeepEveryRow(ctx, env.chunks, env.required, flush, n);
    FlushedBatchesFull(ctx, env.chunks, env.required, flush, n);
    assert Checked(p, name, env, flush).inserted == BatchInsert(f.0, f.1);
    FinalFlush(f.0, f.1, flush);
  }

  /** The flush after the loop adds the rest of the buffer, if any, as a last insert. */
  lemma FinalFlush<T>(inserted: seq<seq<T>>, buffer: seq<T>, flush: int)
    requires forall k :: 0 <= k < |inserted| ==> inserted[k] != [] && |inserted[k]| >= flush
    ensures var r := BatchInsert(inserted, buffer);
            Flatten(r) == Flatten(inserted) + buffer
            && (forall k :: 0 <= k < |r| ==> r[k] != [])
            && (forall k :: 0 <= k < |r| - 1 ==> |r[k]| >= flush)
  {
    if buffer != [] {
      FlattenSnoc(inserted, buffer);
    }
  }

  /** An iteration error keeps the inserts already made: a prefix of the log rows. No audit
    * update is made and the run fails. */
  lemma StreamErrorKeepsFlushed(p: Prepared, name: string, env: ReqEnv, flush: int)
    requires AllWellFormed(env.chunks)
    requires env.required != [] && env.streamError.Some?
    ensures var ctx := Context(p.clientId, name, p.batchId);
            var run := Checked(p, name, env, flush);
            var all := StreamLog(ctx, env.chunks, env.required, |env.chunks|);
            run.exitCode == 1 && run.audit.None?
            && |Flatten(run.inserted)| <= |all| && Flatten(run.inserted) == all[..|Flatten(run.inserted)|]
  {
    var ctx := Context(p.clientId, name, p.batchId);
    FlushesKeepEveryRow(ctx, env.chunks, env.required, flush, |env.chunks|);
  }

  /** When errors are found, the job-log message says whether the audit row was found. */
  lemma FailedMessage(schema: string, name: string, env: ReqEnv, flush: int)
    requires AllWellFormed(env.chunks)
    requires Prepare(env).Ok? && env.required != [] && env.streamError.None?
    requires AnyErrors(env.chunks, env.required, |env.chunks|)
    ensures var run := Validation(schema, name, env, flush);
            run.jobLog.Some? && run.jobLog.value.status == "FAILED"
            && run.jobLog.value.message == Some(if env.affected > 0 then ValidationFailed else AuditNotFound)
  {
  }
}
