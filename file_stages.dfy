// Pieces the per-file stage scripts share (scripts/load_to_bronze.py, scripts/validate_row.py,
// scripts/validate_mapping.py): where the batch file of a batch lives, finding a file's entry
// in it, quoting names into SQL text, and matching mapping columns against the columns a
// parquet file actually has, by normalised name.
module FileStages {
  import opened Optional
  import opened PyStrings
  import opened Json
  import opened FileNames
  import opened Manifest
  import opened StageCommon

  /** `os.path.join("batch_info", schema, "incoming", f"batch_output_{schema}_{batch_id}.json")` */
  function BatchInfoPath(schema: string, batchId: string): string {
    PathJoin(BatchFolder(schema, "incoming"), "batch_output_" + schema + "_" + batchId + ".json")
  }

  /** What a stage reads from the batch file: its `client_id` and its `files` list (`[]` when
    * the key is absent). */
  datatype BatchInfo = BatchInfo(clientId: Value, files: seq<Entry>)

  /** `find_file_entry` and the equivalent inline searches: the first entry whose
    * `physical_file_name` equals `phys`, returned as its index. */
  method FindFileEntry(files: seq<Entry>, phys: string) returns (r: Option<nat>)
    ensures r == FirstNamed(files, phys, 0)
  {
    var i := 0;
    while i < |files|
      invariant 0 <= i <= |files|
      invariant FirstNamed(files, phys, 0) == FirstNamed(files, phys, i)
    {
      if Get(files[i], PhysicalKey) == Str(phys) {
        return Some(i);
      }
      i := i + 1;
    }
    return None;
  }

  // ---------------------------------------------------------------------------------------
  // Quoting

  /** `s.replace(c, c + c)` */
  function DoubleChar(s: string, c: char): (r: string)
    ensures |r| >= |s|
  {
    if s == [] then []
    else (if s[0] == c then [c, c] else [s[0]]) + DoubleChar(s[1..], c)
  }

  /** Reading an escaped text back: a doubled `c` stands for one `c`. */
  function UndoubleChar(t: string, c: char): string
    decreases |t|
  {
    if t == [] then []
    else if |t| >= 2 && t[0] == c && t[1] == c then [c] + UndoubleChar(t[2..], c)
    else [t[0]] + UndoubleChar(t[1..], c)
  }

  /** Every `c` in an escaped text belongs to a doubled pair, so it cannot end the literal. */
  predicate PairedOnly(t: string, c: char)
    decreases |t|
  {
    if t == [] then true
    else if t[0] == c then |t| >= 2 && t[1] == c && PairedOnly(t[2..], c)
    else PairedOnly(t[1..], c)
  }

  lemma {:induction false} DoubleCharRoundTrip(s: string, c: char)
    ensures UndoubleChar(DoubleChar(s, c), c) == s
    ensures PairedOnly(DoubleChar(s, c), c)
  {
    if s != [] {
      DoubleCharRoundTrip(s[1..], c);
      var rest := DoubleChar(s[1..], c);
      if s[0] == c {
        assert DoubleChar(s, c) == [c, c] + rest;
        assert ([c, c] + rest)[2..] == rest;
      } else {
        assert DoubleChar(s, c) == [s[0]] + rest;
        assert ([s[0]] + rest)[1..] == rest;
      }
      assert s == [s[0]] + s[1..];
    }
  }

  /** `quote_ident` / `quote_identifier_for_sql`: a double-quoted SQL identifier. */
  function QuoteIdent(name: string): (r: string)
    ensures |r| >= 2 && r[0] == '"' && r[|r| - 1] == '"'
  {
    "\"" + DoubleChar(name, '"') + "\""
  }

  /** How SQL reads a double-quoted identifier back. */
  function UnquoteIdent(q: string): Option<string> {
    if |q| >= 2 && q[0] == '"' && q[|q| - 1] == '"' && PairedOnly(q[1..|q| - 1], '"')
    then Some(UndoubleChar(q[1..|q| - 1], '"'))
    else None
  }

  /** A quoted identifier reads back as the very name quoted, whatever quotes it holds. */
  lemma QuoteIdentRoundTrip(name: string)
    ensures UnquoteIdent(QuoteIdent(name)) == Some(name)
  {
    var q := QuoteIdent(name);
    assert q[1..|q| - 1] == DoubleChar(name, '"');
    DoubleCharRoundTrip(name, '"');
  }

  /** `quote_path_literal`: the text placed between single quotes in a SQL literal. */
  function QuotePathLiteral(path: string): (r: string)
    ensures PairedOnly(r, '\'') && UndoubleChar(r, '\'') == path
  {
    DoubleCharRoundTrip(path, '\'');
    DoubleChar(path, '\'')
  }

  // ---------------------------------------------------------------------------------------
  // Column resolution

  /** `normalize_name` applied to a column name read from the database or the parquet schema. */
  function Norm(c: string): string { NormalizeColumnName(Some(c)) }

  /** `{key(c): c for c in cols}`: later columns overwrite earlier ones with the same key. */
  function KeyIndex(cols: seq<string>, key: string -> string): map<string, string> {
    if cols == [] then map[]
    else KeyIndex(cols[..|cols| - 1], key)[key(cols[|cols| - 1]) := cols[|cols| - 1]]
  }

  /** `{normalize_name(c): c for c in parquet_actual_cols}` */
  function ParquetIndex(cols: seq<string>): map<string, string> {
    KeyIndex(cols, Norm)
  }

  /** A key is present exactly when some column produces it, and it maps to the last such
    * column. */
  lemma {:induction false} KeyIndexLastWins(cols: seq<string>, key: string -> string, k: string)
    ensures k in KeyIndex(cols, key) <==> exists j :: 0 <= j < |cols| && key(cols[j]) == k
    ensures k in KeyIndex(cols, key) ==>
              exists j :: 0 <= j < |cols| && key(cols[j]) == k && KeyIndex(cols, key)[k] == cols[j]
                          && forall j' :: j < j' < |cols| ==> key(cols[j']) != k
  {
    if cols != [] {
      var init := cols[..|cols| - 1];
      var last := cols[|cols| - 1];
      KeyIndexLastWins(init, key, k);
      assert KeyIndex(cols, key) == KeyIndex(init, key)[key(last) := last];
      if key(last) == k {
        assert KeyIndex(cols, key)[k] == cols[|cols| - 1];
      } else {
        if exists j :: 0 <= j < |cols| && key(cols[j]) == k {
          var j :| 0 <= j < |cols| && key(cols[j]) == k;
          assert j < |init| && key(init[j]) == k;
        }
        if k in KeyIndex(cols, key) {
          var j :| 0 <= j < |init| && key(init[j]) == k && KeyIndex(init, key)[k] == init[j]
                   && forall j' :: j < j' < |init| ==> key(init[j']) != k;
          assert cols[j] == init[j];
          forall j' | j < j' < |cols| ensures key(cols[j']) != k {
            if j' < |init| {
              assert cols[j'] == init[j'];
            }
          }
        }
      }
    }
  }

  /** A normalised name is a key of the parquet index exactly when some parquet column
    * normalises to it, and it names the last such column. */
  lemma ParquetIndexLastWins(cols: seq<string>, k: string)
    ensures k in ParquetIndex(cols) <==> exists j :: 0 <= j < |cols| && Norm(cols[j]) == k
    ensures k in ParquetIndex(cols) ==>
              exists j :: 0 <= j < |cols| && Norm(cols[j]) == k && ParquetIndex(cols)[k] == cols[j]
                          && forall j' :: j < j' < |cols| ==> Norm(cols[j']) != k
  {
    KeyIndexLastWins(cols, Norm, k);
  }

  /** The wanted names whose key is not among `present`, in their own order. */
  function Unmatched(wanted: seq<string>, key: string -> string, present: set<string>): (r: seq<string>)
    ensures |r| <= |wanted|
  {
    if wanted == [] then []
    else
      var w := wanted[|wanted| - 1];
      Unmatched(wanted[..|wanted| - 1], key, present) + (if key(w) in present then [] else [w])
  }

  lemma {:induction false} UnmatchedMembers(wanted: seq<string>, key: string -> string, present: set<string>, x: string)
    ensures x in Unmatched(wanted, key, present) <==> x in wanted && key(x) !in present
  {
    if wanted != [] {
      var init := wanted[..|wanted| - 1];
      var w := wanted[|wanted| - 1];
      UnmatchedMembers(init, key, present, x);
      assert x in wanted <==> x in init || x == w by {
        if x in wanted {
          var i :| 0 <= i < |wanted| && wanted[i] == x;
          if i < |init| {
            assert init[i] == x;
          }
        }
        if x in init {
          var i :| 0 <= i < |init| && init[i] == x;
          assert wanted[i] == x;
        }
      }
    }
  }

  /** Every name is matched exactly when nothing is left unmatched. */
  lemma UnmatchedEmpty(wanted: seq<string>, key: string -> string, present: set<string>)
    ensures Unmatched(wanted, key, present) == [] <==> forall x :: x in wanted ==> key(x) in present
  {
    var r := Unmatched(wanted, key, present);
    if r != [] {
      UnmatchedMembers(wanted, key, present, r[0]);
    }
    forall x | x in wanted && key(x) !in present ensures r != [] {
      UnmatchedMembers(wanted, key, present, x);
    }
  }

  lemma UnmatchedSnoc(wanted: seq<string>, key: string -> string, present: set<string>, w: string)
    ensures Unmatched(wanted + [w], key, present) == Unmatched(wanted, key, present) + (if key(w) in present then [] else [w])
  {
    assert (wanted + [w])[..|wanted|] == wanted;
  }

  /** Each wanted name whose key the index has, mapped to what the index gives for it. */
  function Matched(wanted: seq<string>, key: string -> string, index: map<string, string>): map<string, string>
    decreases |wanted|
  {
    if wanted == [] then map[]
    else
      var m := Matched(wanted[..|wanted| - 1], key, index);
      var w := wanted[|wanted| - 1];
      if key(w) in index then m[w := index[key(w)]] else m
  }

  lemma {:induction false} MatchedHas(wanted: seq<string>, key: string -> string, index: map<string, string>, x: string)
    ensures x in Matched(wanted, key, index) <==> x in wanted && key(x) in index
    ensures x in Matched(wanted, key, index) ==> Matched(wanted, key, index)[x] == index[key(x)]
    decreases |wanted|
  {
    if wanted != [] {
      var init := wanted[..|wanted| - 1];
      MatchedHas(init, key, index, x);
      assert x in wanted <==> x in init || x == wanted[|wanted| - 1] by {
        assert wanted == init + [wanted[|wanted| - 1]];
      }
    }
  }

  lemma MatchedSnoc(wanted: seq<string>, key: string -> string, index: map<string, string>, w: string)
    ensures Matched(wanted + [w], key, index) ==
              if key(w) in index then Matched(wanted, key, index)[w := index[key(w)]] else Matched(wanted, key, index)
  {
    assert (wanted + [w])[..|wanted|] == wanted;
  }

  /** The index restricted to the keys of the wanted names. */
  function MatchedKeys(wanted: seq<string>, key: string -> string, index: map<string, string>): map<string, string>
    decreases |wanted|
  {
    if wanted == [] then map[]
    else
      var m := MatchedKeys(wanted[..|wanted| - 1], key, index);
      var k := key(wanted[|wanted| - 1]);
      if k in index then m[k := index[k]] else m
  }

  lemma {:induction false} MatchedKeysHas(wanted: seq<string>, key: string -> string, index: map<string, string>, x: string)
    ensures x in wanted && key(x) in index ==> key(x) in MatchedKeys(wanted, key, index)
    ensures forall k :: k in MatchedKeys(wanted, key, index) ==> k in index && MatchedKeys(wanted, key, index)[k] == index[k]
    decreases |wanted|
  {
    if wanted != [] {
      var init := wanted[..|wanted| - 1];
      MatchedKeysHas(init, key, index, x);
      assert x in wanted <==> x in init || x == wanted[|wanted| - 1] by {
        assert wanted == init + [wanted[|wanted| - 1]];
      }
    }
  }

  lemma MatchedKeysSnoc(wanted: seq<string>, key: string -> string, index: map<string, string>, w: string)
    ensures MatchedKeys(wanted + [w], key, index) ==
              if key(w) in index then MatchedKeys(wanted, key, index)[key(w) := index[key(w)]] else MatchedKeys(wanted, key, index)
  {
    assert (wanted + [w])[..|wanted|] == wanted;
  }

  /** The wanted columns whose normalised name no parquet column has, in their own order. */
  function MissingColumns(wanted: seq<string>, index: map<string, string>): (r: seq<string>)
    ensures |r| <= |wanted|
  {
    Unmatched(wanted, Norm, index.Keys)
  }

  /** A wanted column is reported missing iff no parquet column shares its normalised name. */
  lemma MissingIffAbsent(wanted: seq<string>, cols: seq<string>, x: string)
    ensures x in MissingColumns(wanted, ParquetIndex(cols)) <==>
              x in wanted && forall j :: 0 <= j < |cols| ==> Norm(cols[j]) != Norm(x)
  {
    ParquetIndexLastWins(cols, Norm(x));
    UnmatchedMembers(wanted, Norm, ParquetIndex(cols).Keys, x);
  }
}
