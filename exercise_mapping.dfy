// Exercise_Project_2/scripts/validate_mapping.py: an earlier, stand-alone key check for one
// JSON file. The logical source is the file name without its extension and without a trailing
// `_YYYYMMDD` date; every key of the file's first record must be one of the source columns
// mapped for that logical source under the client's active schema version, apart from the
// two bookkeeping keys the conversion adds. Unknown keys are logged; the script itself always
// exits 0 once it has its two arguments.
module ExerciseMapping {
  import opened Optional
  import opened PyStrings
  import opened Json
  import opened FileNames

  const ErrorType := "Mapping Validation"

  // ---------------------------------------------------------------------------------------
  // The logical source name

  /** A date part: eight ASCII digits. */
  predicate DatePart(d: string) { |d| == 8 && IsDigits(d) }

  /**
   * `extract_logical_source_name`: split the extension-less name on `_`, and drop the last
   * part when there are at least two parts and it is an eight-digit date.
   */
  function ExtractLogicalSourceName(fileName: string): string {
    var name := SplitExt(fileName).0;
    var parts := Split(name, '_');
    if |parts| > 1 && DatePart(parts[|parts| - 1]) then Join("_", parts[..|parts| - 1]) else name
  }

  /** What changes is exactly a trailing `_` and date: the result is either the name without
    * its extension, or that name less a final `_` followed by eight digits. */
  lemma LogicalNameDropsDate(fileName: string)
    ensures var name := SplitExt(fileName).0;
            var r := ExtractLogicalSourceName(fileName);
            r == name || (|name| == |r| + 9 && name == r + "_" + name[|r| + 1..] && DatePart(name[|r| + 1..]))
  {
    var name := SplitExt(fileName).0;
    var parts := Split(name, '_');
    JoinSplit(name, '_');
    if |parts| > 1 {
      assert Join("_", parts) == Join("_", parts[..|parts| - 1]) + "_" + parts[|parts| - 1];
    }
  }

  /** A name that ends in `_` and eight digits loses exactly that ending. */
  lemma DatedNameGivesStem(stem: string, date: string, ext: string)
    requires DatePart(date)
    requires SplitExt(stem + "_" + date + ext).0 == stem + "_" + date
    ensures ExtractLogicalSourceName(stem + "_" + date + ext) == stem
  {
    var name := stem + "_" + date;
    assert forall i :: 0 <= i < |date| ==> date[i] != '_' by {
      forall i | 0 <= i < |date| ensures date[i] != '_' {
        assert IsAsciiDigit(date[i]);
      }
    }
    SplitSnoc(stem, '_', date);
    assert stem + ['_'] + date == name;
    var parts := Split(name, '_');
    assert parts[..|parts| - 1] == Split(stem, '_');
    JoinSplit(stem, '_');
  }

  /** The documented example. */
  lemma CustInfoExample()
    ensures ExtractLogicalSourceName("cust_info_20250802.json") == "cust_info"
  {
    var stem, date, ext := "cust_info", "20250802", ".json";
    assert stem + "_" + date + ext == "cust_info_20250802.json";
    assert DatePart(date) by {
      forall i | 0 <= i < |date| ensures IsAsciiDigit(date[i]) {
      }
    }
    var name := stem + "_" + date;
    assert NoChar(name, '/') && name[0] != '.';
    SplitExtWithExtension(name, ext);
    DatedNameGivesStem(stem, date, ext);
  }

  // ---------------------------------------------------------------------------------------
  // The keys of the JSON file

  /** An element of a JSON list: an object with its keys, or anything else. */
  datatype Element = ObjectElement(keys: set<string>) | OtherElement

  /** What `json.load` gives: a list, an object with its keys, or a scalar. */
  datatype Document = ListDoc(elements: seq<Element>) | ObjectDoc(keys: set<string>) | ScalarDoc

  /** The keys the script reads: those of the first element of a non-empty list, those of an
    * object, none otherwise. A first element that is not an object has no `keys()`, which
    * raises; that is the error here. */
  function JsonKeys(doc: Document): Result<set<string>, string> {
    match doc
    case ListDoc(es) =>
      if es == [] then Ok({})
      else if es[0].ObjectElement? then Ok(es[0].keys)
      else Err("AttributeError: object has no attribute 'keys'")
    case ObjectDoc(ks) => Ok(ks)
    case ScalarDoc => Ok({})
  }

  /** Only the first record is read: keys that appear only in later records are never
    * checked. */
  lemma LaterRecordsUnread(first: Element, rest: seq<Element>)
    ensures JsonKeys(ListDoc([first] + rest)) == JsonKeys(ListDoc([first]))
    ensures first.ObjectElement? ==> JsonKeys(ListDoc([first] + rest)) == Ok(first.keys)
  {
    assert ([first] + rest)[0] == first;
  }

  /** The keys the conversion adds, which are not validated. */
  const Ignored: set<string> := {"csv_row_number", "source_file"}

  /** The keys left after the two `discard` calls. */
  function CheckedKeys(keys: set<string>): set<string> {
    keys - Ignored
  }

  /** `json_keys - mapping_keys` */
  function UnknownKeys(keys: set<string>, mapping: set<string>): (r: set<string>)
    ensures forall k :: k in r <==> k in keys && k != "csv_row_number" && k != "source_file" && k !in mapping
  {
    CheckedKeys(keys) - mapping
  }

  /** The check passes exactly when the remaining keys are among the mapped columns; mapped
    * columns that the file lacks do not matter. */
  lemma PassesIffSubset(keys: set<string>, mapping: set<string>)
    ensures UnknownKeys(keys, mapping) == {} <==> CheckedKeys(keys) <= mapping
  {
    if UnknownKeys(keys, mapping) != {} {
      var k :| k in UnknownKeys(keys, mapping);
      assert k in CheckedKeys(keys) && k !in mapping;
    }
  }

  /** More mapped columns never turn a pass into a failure. */
  lemma MoreMappingStillPasses(keys: set<string>, mapping: set<string>, more: set<string>)
    requires mapping <= more && UnknownKeys(keys, mapping) == {}
    ensures UnknownKeys(keys, more) == {}
  {
    PassesIffSubset(keys, mapping);
    PassesIffSubset(keys, more);
  }

  /** `csv_row_number` and `source_file` are never validated: with or without them, the same
    * keys are unknown. */
  lemma BookkeepingKeysIgnored(keys: set<string>, mapping: set<string>)
    ensures UnknownKeys(keys + Ignored, mapping) == UnknownKeys(keys, mapping)
    ensures "csv_row_number" !in UnknownKeys(keys, mapping) && "source_file" !in UnknownKeys(keys, mapping)
  {
  }

  // ---------------------------------------------------------------------------------------
  // One run

  /** A row of tools.error_log, and the matching local log file: the client schema, the error
    * type, the unknown keys (printed as a Python set), the file name. */
  datatype ErrorLog = ErrorLog(clientSchema: string, errorType: string, unknown: set<string>, fileName: string)

  /** What a run meets: whether the JSON file exists, what `json.load` gives (or its error),
    * the active schema version (`Null` when the client has no row), and the source columns
    * mapped for the client, that version and the file's logical source. */
  datatype ExerciseEnv = ExerciseEnv(jsonExists: bool, doc: Result<Document, string>, schemaVersion: Value,
                                     mapping: set<string>)

  /** What a run does: the exit code, the value `validate_json_keys` returned (None when it
    * raised), the logical source it looked up, and the error log it wrote. */
  datatype ExerciseRun = ExerciseRun(exitCode: int, passed: Option<bool>, logical: Option<string>,
                                     errorLog: Option<ErrorLog>)

  /** An exception out of the script. */
  const Raised := ExerciseRun(1, None, None, None)

  /** `validate_json_keys(client_schema, json_file_name)` */
  function ValidateJsonKeys(schema: string, fileName: string, env: ExerciseEnv): ExerciseRun {
    if !env.jsonExists then ExerciseRun(0, Some(false), None, None)
    else if env.doc.Err? then Raised
    else match JsonKeys(env.doc.value)
      case Err(_) => Raised
      case Ok(keys) =>
        if !Truthy(env.schemaVersion) then ExerciseRun(0, Some(false), None, None)
        else
          var logical := ExtractLogicalSourceName(fileName);
          var unknown := UnknownKeys(keys, env.mapping);
          if unknown != {} then
            ExerciseRun(0, Some(false), Some(logical), Some(ErrorLog(schema, ErrorType, unknown, fileName)))
          else ExerciseRun(0, Some(true), Some(logical), None)
  }

  /** The script's `__main__`: fewer than two arguments exit 1; otherwise the check runs and
    * the script ends normally whatever it found. */
  function ExerciseSpec(args: seq<string>, env: ExerciseEnv): ExerciseRun {
    if |args| < 2 then ExerciseRun(1, None, None, None) else ValidateJsonKeys(args[0], args[1], env)
  }

  // ---------------------------------------------------------------------------------------
  // What a run promises

  /** The check passes exactly when the file exists and loads, has keys, the client has an
    * active schema version, and every remaining key is mapped; a failure with keys to blame
    * logs exactly the unknown ones. */
  lemma ExercisePassesIffMapped(schema: string, fileName: string, env: ExerciseEnv)
    ensures var run := ValidateJsonKeys(schema, fileName, env);
            run.passed == Some(true) <==>
              env.jsonExists && env.doc.Ok? && JsonKeys(env.doc.value).Ok? && Truthy(env.schemaVersion)
              && CheckedKeys(JsonKeys(env.doc.value).value) <= env.mapping
    ensures var run := ValidateJsonKeys(schema, fileName, env);
            run.errorLog.Some? ==>
              run.passed == Some(false) && run.errorLog.value.unknown != {}
              && run.errorLog.value.unknown == CheckedKeys(JsonKeys(env.doc.value).value) - env.mapping
              && run.errorLog.value.fileName == fileName && run.errorLog.value.clientSchema == schema
  {
    if env.jsonExists && env.doc.Ok? && JsonKeys(env.doc.value).Ok? {
      PassesIffSubset(JsonKeys(env.doc.value).value, env.mapping);
    }
  }

  /** The mapping looked up is the one of the logical source named by the file. */
  lemma LooksUpFileSource(schema: string, fileName: string, env: ExerciseEnv)
    ensures var run := ValidateJsonKeys(schema, fileName, env);
            run.logical.Some? ==> run.logical.value == ExtractLogicalSourceName(fileName)
  {
  }

  /** The script exits 1 only for missing arguments or an exception; a failed check still
    * exits 0, so a caller cannot tell a pass from a failure by the exit code. */
  lemma ExerciseExitCodes(args: seq<string>, env: ExerciseEnv)
    ensures var run := ExerciseSpec(args, env);
            run.exitCode == 1 <==> |args| < 2 || run.passed.None?
    ensures var run := ExerciseSpec(args, env);
            run.passed == Some(false) ==> run.exitCode == 0
  {
  }
}
