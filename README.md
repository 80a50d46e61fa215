# A verified model of a client data-warehouse batch pipeline

The system loads client files into a PostgreSQL warehouse in batches. Each client has a schema
name, a `client_id`, active source configurations and a last batch identifier of the form
`BATCH` plus six digits.

An orchestrator (`handlers/batch_processing.py`) runs in one of three modes:

- **start** advances the batch identifier. It scans the raw `incoming` folders of the four
  source systems (`crm`, `erp`, `api`, `db`) and files each name under the first matching
  configuration. It then renames matched files with the batch identifier and records each in
  the batch manifest (`batch_info/<schema>/incoming/batch_output_<schema>_<batch>.json`).
- **restart** rebuilds the file list from the manifest and the audit log. It refuses to run
  when a file has no audit record.
- **reprocessing** correlates Parquet files found on disk with manifest entries.

Every planned file goes through four stage scripts in turn:

1. conversion to Parquet (`handlers/convert_to_parquet.py`), which records the Parquet name in the manifest;
2. mapping validation (`scripts/validate_mapping.py`);
3. row validation (`scripts/validate_row.py`), whose failure is not fatal;
4. the bronze load (`scripts/load_to_bronze.py`).

The batch ends SUCCESS or FAILED, and one batch log row records the outcome.

Downstream, `scripts/silver_clean_transform.py` runs the client's transformation procedures.
`scripts/gold_integration.py` then runs dimension procedures and, after them, every fact
procedure whose dimension dependencies logged SUCCESS. Each of them moves the batch file on and
records the procedures it ran under a key that never overwrites an earlier run's record.

Other pieces of the core:

- `handlers/csv_to_json.py` turns a raw CSV into JSON records.
- `scripts/validate_req_cols.py` logs blank required values chunk by chunk.
- `handlers/rerun_batch.py` re-runs the last three stages for files waiting in a data folder.
- `Exercise_Project_2/scripts/validate_mapping.py` is an earlier stand-alone JSON key check.

The model keeps each script's own form:

- pure name and set logic is written as functions with lemmas;
- loops are methods with invariants, proved equal to a specification function;
- the manifest and the batch file are classes whose methods update their content.

Databases, child processes, the file system and the clock are inputs (query rows, exit codes,
folder listings, manifest snapshots). What a script writes is returned as records: job logs,
audit rows, moves and manifest contents.

Two behaviours of the code that the model keeps as they are:

- The gold stage's SKIPPED message names only the dependencies that did not log SUCCESS, each
  as `name[status]` (`scripts/gold_integration.py:195-204`).
- The silver stage exits 0 even when a procedure fails; only an exception exits 1
  (`scripts/silver_clean_transform.py:174-214`).

The orchestrator's loop is modelled as written, including its manifest upsert, which creates a
missing manifest with a null client, schema and batch; "## Findings" records what that does to
a start run.

## Model

| member | source | states |
|---|---|---|
| PyStrings.Lower | handlers/batch_processing.py:63 | `str.lower()` on ASCII: same length, every character lower-cased, digits stay digits |
| PyStrings.Upper | handlers/batch_processing.py:72 | `str.upper()` on ASCII: same length, every character upper-cased, digits stay digits |
| PyStrings.Strip | handlers/batch_processing.py:63 | `str.strip()`: the result neither starts nor ends with Python whitespace |
| PyStrings.RStrip | handlers/batch_processing.py:63 | the result is a prefix of the input, and only whitespace was removed after it |
| PyStrings.LStrip | handlers/batch_processing.py:63 | the result is a suffix of the input, and only whitespace was removed before it |
| PyStrings.LStripChar | handlers/batch_processing.py:399 | `lstrip(".")`: a suffix that does not start with the character, and only that character was removed |
| PyStrings.ReplaceChar | handlers/batch_processing.py:63 | `replace(" ", "_")`: position by position, the one character is swapped and every other kept |
| PyStrings.SplitExt | handlers/batch_processing.py:62 | `os.path.splitext`: the two parts concatenate to the path, the extension is empty or a dot followed by no dot and no slash |
| PyStrings.LastIndexOf | handlers/batch_processing.py:76 | `rsplit("_", 1)`: the index found holds the character and no later index does |
| PyStrings.ToDecimal | handlers/batch_processing.py:56 | the decimal rendering of a number is a non-empty digit string whose value is that number |
| PyStrings.ToDecimalInjective | handlers/batch_processing.py:56 | two numbers with the same rendering are equal |
| PyStrings.Format06Digits | handlers/batch_processing.py:56 | `f"{n:06d}"` for 0 <= n < 10^6 is exactly six digits whose value is n |
| PyStrings.ZeroPadded | handlers/batch_processing.py:56 | zero padding keeps a digit string's value |
| PyStrings.PadLeft | handlers/batch_processing.py:56 | padding to a width: the pad character fills the front and the original ends the result |
| PyStrings.PyIntOfDigits | handlers/batch_processing.py:52 | `int()` of a non-empty ASCII digit string is its decimal value |
| PyStrings.RemoveUnderscoresNoop | handlers/batch_processing.py:52 | a plain digit string has no underscore for `int()` to drop |
| PyStrings.StrLessIrreflexive | scripts/validate_mapping.py:483-488 | the string order `sorted` uses is irreflexive |
| PyStrings.StrLessTransitive | scripts/validate_mapping.py:483-488 | the string order `sorted` uses is transitive |
| PyStrings.StrLessTotal | scripts/validate_mapping.py:483-488 | any two distinct strings are ordered one way |
| PyStrings.StrLessAsymmetric | scripts/validate_mapping.py:483-488 | no two strings are ordered both ways |
| PyStrings.LowerIdempotent | handlers/batch_processing.py:63 | lower-casing twice is lower-casing once |
| PyStrings.LowerConcat | handlers/batch_processing.py:63 | lower-casing distributes over concatenation |
| PyStrings.ReplaceAbsent | handlers/csv_to_json.py:124 | `replace` of a pattern the text does not contain leaves it unchanged |
| PyStrings.ReplaceTail | handlers/rerun_batch.py:105 | a pattern that occurs only at the end of a text is replaced there and nothing else changes |
| PyStrings.JoinSplit | Exercise_Project_2/scripts/validate_mapping.py:31-33 | `sep.join(s.split(sep))` gives back `s` for a one-character separator |
| PyStrings.SplitSnoc | Exercise_Project_2/scripts/validate_mapping.py:31 | splitting `p + sep + d`, where `d` has no separator, gives the pieces of `p` followed by `d` |
| PyStrings.AfterLast | handlers/rerun_batch.py:105 | the text after the last separator (`split(sep)[-1]`) is a suffix of the input |
| BatchTokens.FindToken | handlers/convert_to_parquet.py:82-84 | the search from a position returns the first position holding a case-insensitive `BATCH` and six digits, or none exists |
| BatchTokens.ExtractBatchId | handlers/convert_to_parquet.py:82-84 | `re.search(r"(BATCH\d{6})", …, re.IGNORECASE)`: a result exactly when a token occurs; it is the upper-cased leftmost token, `BATCH` and six digits |
| BatchTokens.KeptPrefixOfCanonical | handlers/batch_processing.py:50 | `batch_id[:-6]` of a prefix and six characters is the prefix |
| BatchTokens.CounterOfCanonical | handlers/batch_processing.py:51-54 | the counter read from six trailing digits is their value |
| BatchTokens.IncrementCanonical | handlers/batch_processing.py:49-56 | the next identifier keeps the prefix and writes the counter plus one with six digits |
| BatchTokens.DigitsValueBound | handlers/batch_processing.py:52 | a k-digit string has a value below 10^k |
| BatchTokens.IncrementKeepsShape | handlers/batch_processing.py:49-56 | below the 999999 roll-over the next identifier has the same prefix, six digits, and the counter plus one |
| BatchTokens.IncrementTwice | handlers/batch_processing.py:49-56 | two increments add two to the counter |
| BatchTokens.Format06One | handlers/batch_processing.py:56 | one renders as `000001` |
| BatchTokens.FirstBatchId | handlers/batch_processing.py:49-56 | `BATCH000000` is followed by `BATCH000001` |
| BatchTokens.IncrementFromCounter | handlers/batch_processing.py:49-56 | whatever counter the tail reads as, the next identifier writes it plus one |
| BatchTokens.IncrementFromNothing | handlers/batch_processing.py:50-52 | no identifier (None or empty) starts at `BATCH000001` |
| BatchTokens.IncrementNonNumericTail | handlers/batch_processing.py:51-54 | a tail that `int()` rejects counts as 0, so the next identifier ends in `000001` |
| Json.Get | handlers/convert_to_parquet.py:248 | reading an absent key gives None |
| Json.TextOrEmpty | handlers/batch_processing.py:548-549 | `(x or "")` is empty for a falsy value and the string itself for a string |
| FileNames.NormalizeFileName | handlers/batch_processing.py:59-63 | a normalised file name is empty for None and never holds a space, a hyphen or an upper-case letter |
| FileNames.NormalizeColumnName | scripts/load_to_bronze.py:47-50 | a normalised column name is empty for None and never holds a space, a hyphen or an upper-case letter |
| FileNames.NormalizeColumnEnds | scripts/load_to_bronze.py:47-50 | a normalised column name neither starts nor ends with white space |
| FileNames.NormalizeColumnIdempotent | scripts/load_to_bronze.py:47-50 | normalising a column name twice gives the same name as normalising it once |
| FileNames.StripBatchSuffixRemovesToken | handlers/batch_processing.py:66-79 | a name ending in `_BATCH` and at least six digits, before its extension, loses exactly that ending |
| FileNames.StripBatchSuffixNoToken | handlers/batch_processing.py:66-79 | a name whose stem holds no `_BATCH` is returned unchanged |
| FileNames.RenameOfPlain | handlers/batch_processing.py:421-424 | a renamed file is its standardised stem, `_`, the batch id, then its extension |
| FileNames.RenamedStripsToStem | handlers/batch_processing.py:66-79 | stripping the batch suffix of a renamed file gives back the standardised stem with the extension |
| FileNames.RenamedFileKeepsKey | handlers/batch_processing.py:398-400 | a file renamed with a batch id normalises to the same match key as the original incoming name |
| FileNames.RenamedFileNamesItsBatch | handlers/convert_to_parquet.py:82-84 | the batch id read back from a renamed file is the batch id it was stamped with |
| FileNames.StampedNameNamesItsBatch | handlers/convert_to_parquet.py:82-84 | any stem without a batch token, stamped with a batch id, yields that batch id |
| FileNames.NormalizeForMatch | handlers/convert_to_parquet.py:95-100 | the match name is empty for a missing or empty name and has no upper-case letter |
| FileNames.NormalizeForMatchIgnoresStamp | handlers/convert_to_parquet.py:95-100 | the match name of a stamped file is its stem, stripped and in lower case, without the batch token or extension |
| FileNames.CanonOfUnderscored | handlers/batch_processing.py:423 | replacing spaces and hyphens by `_` before normalising does not change the normalised name |
| StageCommon.JsonNames | scripts/silver_clean_transform.py:12 | the batch files considered are exactly the listed names ending in `.json`, ignoring case |
| StageCommon.PathJoin | scripts/silver_clean_transform.py:11 | joining a relative name to a directory without a trailing slash puts exactly one `/` between them |
| StageCommon.SingleBatchFile | scripts/silver_clean_transform.py:10-25 | a batch folder loads exactly when it holds one JSON file, and then that file is the one read |
| StageCommon.ProcError | scripts/gold_integration.py:272-274 | every error message starts with the procedure's name and ` gagal: ` |
| StageCommon.JoinedErrors | scripts/gold_integration.py:293 | the final error message is None exactly when there are no errors, and otherwise contains every one of them |
| StageCommon.ErrorsEmptyIffAllOk | scripts/silver_clean_transform.py:170-181 | the error list is empty exactly when no procedure failed |
| StageCommon.ErrorsNameEveryFailure | scripts/silver_clean_transform.py:170-178 | every failed procedure contributes its own error message |
| FileStages.FindFileEntry | scripts/validate_mapping.py:61-66 | the entry found is the first whose physical_file_name equals the given name, and none is found only when no entry has it |
| FileStages.DoubleCharRoundTrip | scripts/load_to_bronze.py:53-58 | doubling a quote character can be undone, and leaves that character only in pairs |
| FileStages.QuoteIdentRoundTrip | scripts/load_to_bronze.py:53-54 | a quoted identifier is wrapped in double quotes and unquotes back to the original name, whatever it contains |
| FileStages.QuotePathLiteral | scripts/validate_row.py:163-165 | a quoted path holds single quotes only in pairs and unquotes back to the original path |
| FileStages.KeyIndexLastWins | scripts/load_to_bronze.py:416 | a normalised key is in the column map exactly when some column normalises to it, and then maps to the last such column |
| FileStages.ParquetIndexLastWins | scripts/validate_row.py:348 | the parquet column map keeps, for each normalised name, the last parquet column with that name |
| FileStages.UnmatchedMembers | scripts/load_to_bronze.py:417-424 | a mapped column is reported missing exactly when its normalised name is absent from the parquet |
| FileStages.UnmatchedEmpty | scripts/load_to_bronze.py:426 | no column is missing exactly when every wanted column's normalised name is present |
| FileStages.MatchedHas | scripts/load_to_bronze.py:417-424 | a source column is resolved exactly when its normalised name is in the parquet map, and resolves to that map's column |
| FileStages.MatchedKeysHas | scripts/validate_row.py:350-356 | every present required column is resolved under its normalised name, to the parquet column the map gives |
| FileStages.MissingIffAbsent | scripts/validate_row.py:350-356 | a required column is missing exactly when no parquet column normalises to the same name |
| BatchConfig.ConfigOf | handlers/batch_processing.py:269-284 | a config row keeps its fields, its source type is lower case, and it has a normalised logical name exactly when the logical source file is truthy |
| BatchConfig.FileExt | handlers/batch_processing.py:398 | the extension compared is lower case and has no leading dot |
| BatchConfig.MatchStart | handlers/batch_processing.py:401-408 | start mode takes the first config with the same source system (ignoring case), extension and logical name, and finds none only when no config matches |
| BatchConfig.MatchRestart | handlers/batch_processing.py:540-553 | restart mode takes the first config whose logical name, source system (ignoring case) and source type match the physical file, and finds none only when no config matches |
| BatchConfig.NoLogicalNoStartMatch | handlers/batch_processing.py:281 | a config without a logical source file never matches an incoming file |
| BatchConfig.RenamedFileKeepsExt | handlers/batch_processing.py:421-424 | renaming with a batch id keeps the extension used for matching |
| BatchConfig.StartTestPassesRestartTest | handlers/batch_processing.py:540-553 | a config that matches a file in start mode also passes the restart test for the same key, system and type |
| BatchConfig.StartAcceptedRestartFinds | handlers/batch_processing.py:540-553 | a file matched at start still finds a config at restart under its batch-stamped name |
| Manifest.CleanEntry | handlers/batch_processing.py:169-181 | the cleaned entry keeps exactly the allowed keys of the new entry, with their values |
| Manifest.FirstMatch | handlers/batch_processing.py:199-202 | the entry updated is the first whose physical file name, as text, equals the new entry's; none matches when none is found |
| Manifest.ReadOr | handlers/batch_processing.py:184-207 | a missing or unreadable manifest is replaced by the skeleton; a readable one is used as it is |
| Manifest.ManifestFile.UpsertFileEntry | handlers/batch_processing.py:160-245 | the upsert succeeds exactly when one of the first six writes succeeds; then the manifest holds the merged document built on the null skeleton, otherwise it is unchanged |
| Manifest.ManifestFile.UpsertFileEntryForBatch | handlers/batch_processing.py:160-245 | the same upsert, creating a missing manifest with the batch's client schema, client id and batch id instead of nulls |
| Manifest.ManifestFile.UpsertWith | handlers/batch_processing.py:183-245 | the retry loop writes the merged document on the first successful attempt among six, and leaves the manifest unchanged when all fail |
| Manifest.WaitForParquetName | handlers/batch_processing.py:128-157 | waiting succeeds exactly when some poll reads a manifest whose first entry with that physical file name has a non-empty parquet_name |
| Manifest.UpsertRecordsEntry | handlers/batch_processing.py:196-210 | after an upsert the first entry with the new entry's name carries every cleaned value, except a null parquet_name over an existing one; every other entry is unchanged; the list grows by one, at the end, only when no entry matched |
| Manifest.UpsertKeepsParquetName | handlers/batch_processing.py:203-207 | an upsert whose parquet_name is absent or null never erases a parquet_name already recorded |
| Manifest.UpsertKeepsNamesUnique | handlers/batch_processing.py:196-210 | an upsert keeps physical file names unique in the manifest |
| Manifest.UpsertWritesAllowedKeys | handlers/batch_processing.py:169-181 | an upsert adds only allowed keys to existing entries, and a new entry has only allowed keys |
| Manifest.UpsertIdempotent | handlers/batch_processing.py:196-210 | upserting the same entry twice gives the same file list as upserting it once |
| ProcedureKeys.RerunKeyInjective | scripts/gold_integration.py:142-145 | different rerun numbers give different `<key>_rerunN` keys |
| ProcedureKeys.RerunKeysCount | scripts/gold_integration.py:142-145 | the first m rerun keys are m distinct keys |
| ProcedureKeys.ProcedureKey | scripts/gold_integration.py:138-145 | the key chosen is never already present; it is the base key when that is free, otherwise `<base>_rerunN` with every smaller rerun key taken |
| ProcedureKeys.SuccessiveRuns | scripts/silver_clean_transform.py:106-112 | on a fresh batch file, the first run writes the base key and the k-th rerun writes `<base>_rerun<k>` |
| ProcedureKeys.BatchFile.RecordProcedures | scripts/silver_clean_transform.py:102-115 | recording a procedure list adds it under the chosen free key and changes nothing else in the batch file |
| BatchPlan.FileOutcomeKept | handlers/batch_processing.py:401-419 | a kept incoming file becomes an item built from the first matching config, under its original name and source system |
| BatchPlan.FileOutcomeRejected | handlers/batch_processing.py:420-440 | an incoming file is rejected exactly when no config matches it |
| BatchPlan.ScanSystems | handlers/batch_processing.py:390-440 | every file listed in the incoming folders ends up either kept or rejected, none lost or added |
| BatchPlan.ScanSystemsKeeps | handlers/batch_processing.py:390-419 | every kept item comes from an incoming folder of a known source system and is accepted by the first matching config |
| BatchPlan.ScanSystemsAccepted | handlers/batch_processing.py:401-419 | every item start mode keeps is matched by a config |
| BatchPlan.PlanStart | handlers/batch_processing.py:390-440 | the start scan over the four source systems gives the kept items and rejected files of the specification |
| BatchPlan.ScanFolders | handlers/batch_processing.py:391-440 | the loop over source systems gives the scan of the specification |
| BatchPlan.ScanFolder | handlers/batch_processing.py:395-440 | the loop over one incoming folder appends each file's outcome in listing order |
| BatchPlan.ManifestCandidates | handlers/batch_processing.py:623-637 | restart candidates are the manifest entries with a truthy physical name, and there are none only when no entry has one |
| BatchPlan.ScanCandidates | handlers/batch_processing.py:640-655 | fallback candidates are files listed in an incoming folder of a known source system |
| BatchPlan.RestartCandidates | handlers/batch_processing.py:622-655 | restart uses the manifest's named entries, and scans the incoming folders only when the manifest names none |
| BatchPlan.CollectManifestCandidates | handlers/batch_processing.py:623-637 | the collecting loop gives the manifest candidates of the specification |
| BatchPlan.FirstSystemHolding | handlers/batch_processing.py:693-703 | the fallback search finds a source system whose raw folder holds the file, and fails only when none of the four does |
| BatchPlan.FoundSystem | handlers/batch_processing.py:684-703 | the candidate's own source system is used when its raw folder holds the file; any system found holds the file |
| BatchPlan.CheckCandidate | handlers/batch_processing.py:659-736 | a candidate without an audit row is counted as missing, a failed audit lookup aborts, and an item passed on carries the physical name and is marked as having an audit row |
| BatchPlan.CheckAllByStops | handlers/batch_processing.py:667-679 | once an audit lookup fails, the rest of the candidates change nothing |
| BatchPlan.CheckAll | handlers/batch_processing.py:659-736 | the check completes exactly when no audit lookup fails; it then counts the candidates without audit rows, and every item it passes on has one |
| BatchPlan.RestartFailureKeepsEarlierUpdates | handlers/batch_processing.py:659-681 | a failed lookup stops the scan at the first such candidate, after every earlier one checked without error, and the updates those earlier candidates committed are kept |
| BatchPlan.RestartDecision | handlers/batch_processing.py:741-773 | any file without an audit row aborts with `FILE_AUDIT_RECORD_NOT_FOUND for <n> files`; restart proceeds only with a non-empty list and no missing row |
| BatchPlan.RestartGateAborts | handlers/batch_processing.py:741-755 | one candidate without an audit row is enough to abort the restart, with the count of such candidates |
| BatchPlan.RestartProceedsWithRecords | handlers/batch_processing.py:741-758 | a restart that proceeds had a readable manifest, and every candidate had an audit row |
| BatchPlan.CheckCandidates | handlers/batch_processing.py:659-736 | the candidate loop, stopping at the first failed lookup, gives the check of the specification |
| BatchPlan.PlanRestart | handlers/batch_processing.py:502-773 | the restart plan is that of the specification, and the audit updates returned are every checked candidate's, up to a failed lookup, none when the manifest does not read |
| BatchPlan.Assign | handlers/batch_processing.py:821 | assigning a key keeps keys unique, maps the key to the new entry, leaves other keys and their order, and adds a new key at the end |
| BatchPlan.ParquetMapOf | handlers/batch_processing.py:815-821 | the parquet map has unique keys, each the truthy parquet name of the entry it maps to |
| BatchPlan.ParquetMapHolds | handlers/batch_processing.py:815-821 | an entry whose parquet name no later entry repeats is the one the map holds for it |
| BatchPlan.BuildParquetMap | handlers/batch_processing.py:815-821 | the building loop gives the parquet map of the specification |
| BatchPlan.LastLower | handlers/batch_processing.py:846-848 | the case-insensitive lookup finds an entry exactly when some key matches ignoring case, and then the last such one |
| BatchPlan.Correlate | handlers/batch_processing.py:843-862 | a parquet file is correlated by exact name first, then ignoring case, then by its name without `_batch`; it is unmatched only when all three fail |
| BatchPlan.ReprocessFile | handlers/batch_processing.py:835-880 | a listed file adds its correlated entry's parquet item, named after the entry's physical file, exactly when it ends in `.parquet` and correlates with an entry that names a physical file; otherwise it is skipped, not failed |
| BatchPlan.ReprocessScan | handlers/batch_processing.py:835-880 | reprocessing never yields more items than files, and every item is of type parquet |
| BatchPlan.ReprocessScanExact | handlers/batch_processing.py:835-880 | the items are exactly the reprocessable files' items, in listing order: each comes from a reprocessable file, the files' positions increase, and no reprocessable file is left out |
| BatchPlan.ReprocessIgnoresOtherFiles | handlers/batch_processing.py:837-838 | a folder without parquet files yields nothing to reprocess |
| BatchPlan.ScanArtifacts | handlers/batch_processing.py:835-880 | the scanning loop gives the reprocess items of the specification |
| BatchPlan.PlanReprocessFrom | handlers/batch_processing.py:776-895 | a missing manifest aborts with `NO_BATCH_INFO_FOR_<batch>`, an unreadable one with `INVALID_BATCH_INFO_<batch>`; with a manifest, it proceeds exactly when the scan is non-empty, with the scan's items, and aborts with `FILES NOT FOUND TO REPROCESS` otherwise |
| BatchPlan.ReprocessProceedsIff | handlers/batch_processing.py:776-895 | reprocessing proceeds exactly when the manifest reads and some listed file is reprocessable |
| BatchPlan.PlanReprocess | handlers/batch_processing.py:776-895 | the reprocess plan is that of the specification |
| BatchRun.JobName | handlers/batch_processing.py:370-379 | each mode has its own job name, and each job name identifies its mode |
| BatchRun.SystemOf | handlers/batch_processing.py:1117-1120 | the source system recorded is always truthy, and is the item's own when it has one |
| BatchRun.BatchSkeleton | handlers/batch_processing.py:466-471 | the batch skeleton has no files and carries the client id and batch id |
| BatchRun.EntryFor | handlers/batch_processing.py:1128-1140 | a manifest entry written before conversion has exactly the allowed keys, the file's name and a null parquet name |
| BatchRun.UpsertResult | handlers/batch_processing.py:1160-1167 | an upsert whose writes all fail leaves the manifest as it was, and otherwise stores the merged document |
| BatchRun.Checks | handlers/batch_processing.py:1195-1234 | mapping validation always runs; the checks pass exactly when mapping and load exit 0, whatever row validation returns; the load runs on success; they never write the manifest |
| BatchRun.ConvertChain | handlers/batch_processing.py:1169-1193 | the CSV stages start with the converter, which opens the loop's manifest only when the name's first batch token is the loop's batch (handlers/convert_to_parquet.py:226-236) and otherwise leaves it as it was; a non-zero converter exit fails with `FAILED on convert_to_parquet`; they pass exactly when the converter exits 0, the loop's manifest after it publishes the file's parquet name, and mapping and load exit 0 |
| BatchRun.StageChain | handlers/batch_processing.py:1169-1234 | the stage chain ends without error exactly when the extension is a string, mapping and load exit 0, and a CSV file was converted and its parquet name is published in the loop's manifest; the converter is called exactly for CSV files and leaves the manifest the chain ends with; every stage is called on the same file |
| BatchRun.Failure | handlers/batch_processing.py:1244-1245 | every per-file failure message starts with the file's original name and ` - ` |
| BatchRun.FileStep | handlers/batch_processing.py:911-1246 | a file either fails with a message naming it or succeeds under its working name; start mode renames and audits it, with SUCCESS exactly when it had a logical source; reprocessing never writes the manifest or the audit; a file that reaches its upsert leaves the manifest the upsert and its chain left, any other leaves it unchanged |
| BatchRun.TurnOf | handlers/batch_processing.py:921-935 | a restart item without an audit row stops the loop; every other item is handled by the per-file step |
| BatchRun.Extend | handlers/batch_processing.py:1240-1245 | a failed file sets the batch to FAILED with its message; a successful file keeps the status; successes, calls and audits accumulate; the manifest is the one the file left |
| BatchRun.Apply | handlers/batch_processing.py:921-935 | a guard turn marks the batch FAILED and aborted and keeps the manifest; a handled turn extends the run |
| BatchRun.RunOver | handlers/batch_processing.py:907-1246 | the batch ends SUCCESS or FAILED, and a SUCCESS batch has no error message and was not aborted |
| BatchRun.RunChecks | handlers/batch_processing.py:1195-1234 | the mapping, row and load calls give the checks of the specification |
| BatchRun.RunConvertChain | handlers/batch_processing.py:1169-1193 | running the converter on the loop's manifest file, or on the other batch's when the name's first token names another batch, then waiting on the loop's manifest, gives the CSV stages of the specification, and the loop's manifest is the one they leave |
| BatchRun.RunChain | handlers/batch_processing.py:1169-1234 | the subprocess chain gives the chain of the specification and leaves the manifest it names |
| BatchRun.ReprocessStages | handlers/batch_processing.py:943-997 | reprocessing one artifact gives the file step of the specification |
| BatchRun.HandleFile | handlers/batch_processing.py:1104-1246 | handling one file gives the file step of the specification, and the manifest afterwards is the one that step leaves: the upsert through `upsert_file_entry_batch_info` and then the converter's record of the parquet name |
| BatchRun.UpsertAndRun | handlers/batch_processing.py:1163-1234 | the upsert followed by the chain gives the chain of the specification over the upserted manifest |
| BatchRun.LoopTurn | handlers/batch_processing.py:911-1246 | one loop turn applies that item's turn, taken over the current manifest, to the run, and the manifest is the run's |
| BatchRun.NextTurn | handlers/batch_processing.py:911-1246 | after the run over the first `i` items, one turn gives the run over the first `i + 1` |
| BatchRun.ProcessItems | handlers/batch_processing.py:907-1254 | the file loop gives the run of the specification, in which each file meets the manifest the files before it left; the manifest ends as the run's; one batch log is written with the final status |
| BatchRun.RunNext | handlers/batch_processing.py:911-935 | the run over one more item is the previous run with that item's turn applied, unless the guard already fired |
| BatchRun.TurnInPrefix | handlers/batch_processing.py:911 | a file's turn does not depend on the files after it |
| BatchRun.RunFrozen | handlers/batch_processing.py:921-935 | once the loop is aborted, later items change nothing |
| BatchRun.RunAgree | handlers/batch_processing.py:911-1246 | two loops whose turns agree give the same run |
| BatchRun.RunKeeps | handlers/batch_processing.py:911-1246 | a property of the manifest that every handled file keeps holds of the manifest the loop leaves |
| BatchRun.RunUnguarded | handlers/batch_processing.py:921-935 | the loop is aborted exactly when some item hit the restart guard |
| BatchRun.RunFailedIff | handlers/batch_processing.py:1240-1245 | a loop that was not aborted is FAILED exactly when some handled file failed |
| BatchRun.RunFailedHasFile | handlers/batch_processing.py:1240-1245 | a FAILED loop that was not aborted has a handled file that failed |
| BatchRun.RunFileFails | handlers/batch_processing.py:1240-1245 | a handled file that fails makes a loop that was not aborted FAILED |
| BatchRun.RunFailedStays | handlers/batch_processing.py:1244-1245 | once the batch is FAILED it stays FAILED |
| BatchRun.RunKeepsFiles | handlers/batch_processing.py:1242-1246 | every handled file's calls and success are in the final run |
| BatchRun.RunAuditsFromFiles | handlers/batch_processing.py:1141 | every audit insert comes from a handled file |
| BatchRun.RunGuardStops | handlers/batch_processing.py:921-935 | a guard turn aborts the batch as FAILED, with no call made after it |
| BatchRun.FailedIffSomeFileFailed | handlers/batch_processing.py:907-1246 | a batch that ran to the end is FAILED exactly when some file failed, each taken over the manifest the files before it left |
| BatchRun.FailedStaysFailed | handlers/batch_processing.py:1244-1245 | a batch that failed on an earlier file is FAILED at the end |
| BatchRun.SiblingsKeepProcessing | handlers/batch_processing.py:1242-1246 | a failing file does not stop the others: every file's calls and success appear in the final run |
| BatchRun.RowValidationNonFatal | handlers/batch_processing.py:1209-1220 | the row validation's exit codes never change the batch's outcome or its manifest |
| BatchRun.FileStepIgnoresRowCode | handlers/batch_processing.py:1209-1220 | the row validation's exit code never changes a file's outcome |
| BatchRun.GuardStopsRun | handlers/batch_processing.py:921-935 | a restart item without an audit row aborts the batch as FAILED, with no stage called for it or any later item |
| BatchRun.PlannedRestartNeverGuarded | handlers/batch_processing.py:741-758 | the restart plan only passes on items with an audit row, so the guard in the loop never fires |
| BatchRun.AcceptedHasLogical | handlers/batch_processing.py:395-414 | a file start mode accepts has a logical source name |
| BatchRun.StartAuditsSucceed | handlers/batch_processing.py:1128-1141 | every audit row start mode writes for a matched file has config status SUCCESS |
| BatchRun.StartStagesSeeTheBatch | handlers/batch_processing.py:1111-1112 | in start mode, for a stem without a batch token, every stage is called on a file name from which the new batch id is read back, so the converter opens the loop's own manifest |
| BatchRun.ForeignTokenLeavesLoopManifest | handlers/convert_to_parquet.py:226-236 | when the working name's first batch token is another batch's, the loop's manifest after the file is what its upsert left, and a CSV file passes only if that manifest already published its parquet name |
| BatchRun.RestampedNameOpensEarlierBatch | handlers/convert_to_parquet.py:82-84 | `sales_BATCH000001_BATCH000002.csv`, the start-mode stamp of `sales_BATCH000001.csv` under `BATCH000002`, yields `BATCH000001`, so the converter does not open the loop's manifest |
| BatchRun.FileStepKeepsNoClient | handlers/batch_processing.py:160-194 | as written, a file that meets a manifest naming no client leaves one naming no client |
| BatchRun.FileStepLacksClient | handlers/batch_processing.py:160-194 | as written, when neither the loop's manifest nor the other batch's manifest the converter may open names a client, the file leaves a manifest naming no client and a CSV file that reaches its upsert fails at the converter |
| BatchRun.AsWrittenManifestLacksClient | handlers/batch_processing.py:183-194 | as written, a manifest that names no client when the loop starts (a fresh start has none) names none after any file, nor at the end |
| BatchRun.AsWrittenStartBlocksConversion | handlers/convert_to_parquet.py:255-258 | as written, when no manifest the converter may open names a client, every CSV file of such a run that reaches its upsert fails with `FAILED on convert_to_parquet` |
| BatchRun.BatchManifestNamesClient | handlers/batch_processing.py:466-471 | a manifest created with the batch skeleton (the corrected upsert) names the client and the batch |
| BatchRun.CorrectedStartPassesClientCheck | handlers/convert_to_parquet.py:255-258 | with the corrected upsert, conversion never stops for a missing client id |
| BatchRun.RunBatchId | handlers/batch_processing.py:359-388 | start runs under the incremented last batch id; restart and reprocessing reuse the last one, or BATCH000000 when there is none |
| BatchRun.StartDecision | handlers/batch_processing.py:459-500 | start proceeds exactly when some file matched a config |
| BatchRun.PlanFor | handlers/batch_processing.py:382-900 | the plan of each mode is that of its specification; restart returns the audit updates it committed, including those made before a failed lookup, and the other modes none; start returns the files it rejected, each with its FAILED audit row and its move to the raw failed folder, and the other modes none; a start with no matching file writes the batch skeleton, and otherwise the manifest is untouched |
| BatchRun.ProcessClient | handlers/batch_processing.py:355-1254 | each run returns the plan's committed audit updates and start's rejected files, and writes exactly one batch log: an aborted plan logs FAILED with its reason and leaves the manifest as planning left it; a plan that proceeds logs the loop's final status and leaves the manifest as the loop's upserts and conversions wrote it; a manifest naming no client at the start still names none at the end unless planning wrote the skeleton |
| BatchRun.Conclude | handlers/batch_processing.py:897-1254 | after planning, an abort logs one FAILED row and keeps the manifest; a plan that proceeds runs the loop from the current manifest, logs once and leaves the loop's manifest |
| ConvertToParquet.ExitCode | handlers/convert_to_parquet.py:214-335 | a usage error exits 2 and every other failure exits 1 |
| ConvertToParquet.FirstLoose | handlers/convert_to_parquet.py:426-431 | the first pass picks the first entry whose physical name equals the file's, ignoring case |
| ConvertToParquet.FirstLogical | handlers/convert_to_parquet.py:434-439 | the second pass picks the first entry whose logical source file equals the file's, ignoring case |
| ConvertToParquet.FirstSameBase | handlers/convert_to_parquet.py:442-448 | the third pass picks the first entry with the same non-empty name once batch token, extension and case are dropped |
| ConvertToParquet.LookupSource | handlers/convert_to_parquet.py:260-287 | an exact entry with a source system and type supplies them and its logical source; any system and type found come from an entry whose name matches ignoring case |
| ConvertToParquet.ParquetName | handlers/convert_to_parquet.py:319-325 | the parquet file is named after the logical source when there is one, and always ends in `_<batch id>.parquet` |
| ConvertToParquet.ParquetNameOfStamped | handlers/convert_to_parquet.py:319-325 | without a logical source, a stamped file's parquet name is its stem with the batch token once, then `.parquet` |
| ConvertToParquet.PlanConvert | handlers/convert_to_parquet.py:214-335 | anything but two arguments is a usage error; a name without a batch id fails; a manifest without client id fails, and only then; a planned job has the client id, a source system and type, an existing source file and a working database |
| ConvertToParquet.FailureLog | handlers/convert_to_parquet.py:294-317 | only a missing source file writes a FAILED job log before exiting |
| ConvertToParquet.ConversionError | handlers/convert_to_parquet.py:181-195 | an unsupported source type fails with its own message; a supported one fails only when reading or writing fails |
| ConvertToParquet.RecordIndex | handlers/convert_to_parquet.py:426-448 | the entry updated exists, and when some entry matches the file's name ignoring case it is the first such entry |
| ConvertToParquet.RecordSetsParquetName | handlers/convert_to_parquet.py:420-460 | after recording, one entry carries the parquet name and every other entry is unchanged; a new entry is appended at the end only when no entry matched |
| ConvertToParquet.RecordPublishes | handlers/convert_to_parquet.py:426-431 | recording the parquet name for a file the manifest lists makes the orchestrator's wait for that file succeed |
| ConvertToParquet.RecordInManifest | handlers/convert_to_parquet.py:398-470 | the manifest update succeeds exactly when one of six writes succeeds, then stores the recorded document, and otherwise leaves the manifest unchanged |
| ConvertToParquet.ConvertOutcomes | handlers/convert_to_parquet.py:214-512 | a planning failure exits with its code and changes nothing; a conversion failure exits 1 with status FAILED; a conversion that succeeds exits 0 with status SUCCESS and logs SUCCESS exactly when the manifest was written, WARNING otherwise |
| ConvertToParquet.RunStage | handlers/convert_to_parquet.py:214-512 | the script's outcome and the manifest it leaves are those of the specification |
| LoadToBronze.IsIdCandidate | scripts/load_to_bronze.py:246-262 | an empty name is never id-like; otherwise a name is id-like exactly when, lower-cased and stripped, it is `id`, ends in `_id`, starts with `id_`, or is one letter followed by `id` (with the one trailing newline `$` admits) |
| LoadToBronze.IdCandidateIgnoresCase | scripts/load_to_bronze.py:249 | upper-casing a name does not change whether it is id-like |
| LoadToBronze.IdCandidateOfTrimmed | scripts/load_to_bronze.py:249 | stripping does nothing to a lower-cased name with no outer whitespace |
| LoadToBronze.IdLikeExamples | scripts/load_to_bronze.py:246-262 | `customer_id`, `ID`, `id_card` and `pid` are id-like |
| LoadToBronze.NotIdLikeExamples | scripts/load_to_bronze.py:246-262 | `uuid`, `identity` and `paid` are not id-like |
| LoadToBronze.CastFor | scripts/load_to_bronze.py:529-555 | a column is copied as is exactly when it is not id-like or its target type is text; NUMERIC exactly when it is id-like with a numeric or decimal type that is neither text nor int; BIGINT otherwise |
| LoadToBronze.SelectExpr | scripts/load_to_bronze.py:537-555 | every select expression names its target column with `AS` |
| LoadToBronze.BatchExpr | scripts/load_to_bronze.py:559 | the batch expression fills `dwh_batch_id` |
| LoadToBronze.Sources | scripts/load_to_bronze.py:372 | the source columns, in mapping order |
| LoadToBronze.Targets | scripts/load_to_bronze.py:373 | the target columns, in mapping order |
| LoadToBronze.Firsts | scripts/load_to_bronze.py:528-556 | one expression per mapping |
| LoadToBronze.FirstsAt | scripts/load_to_bronze.py:528-556 | the expression at a position is the one built for that mapping |
| LoadToBronze.SelectList | scripts/load_to_bronze.py:528-560 | one expression per mapping plus the batch column |
| LoadToBronze.SelectAt | scripts/load_to_bronze.py:528-597 | the select expression at each position fills the copy column at that position |
| LoadToBronze.SelectMatchesCopyOrder | scripts/load_to_bronze.py:528-597 | the CSV written from the select lines up with the COPY column list: same length, each expression named after the column in its place |
| LoadToBronze.BuildSelect | scripts/load_to_bronze.py:528-560 | the loop builds the specified select list |
| LoadToBronze.AppendEach | scripts/load_to_bronze.py:528-556 | the append loop keeps the expressions in mapping order |
| LoadToBronze.ResolveSources | scripts/load_to_bronze.py:416-424 | the loop leaves the source columns no parquet column normalises to, in order, and resolves every other one |
| LoadToBronze.ResolveOne | scripts/load_to_bronze.py:419-424 | one more source column is either missing or resolved |
| LoadToBronze.ResolvedToLastProducer | scripts/load_to_bronze.py:416-424 | a source resolves exactly when it is not missing, and then to the last parquet column with its normalised name |
| LoadToBronze.NothingMissingResolvesAll | scripts/load_to_bronze.py:426-530 | with nothing missing, every source column resolves |
| LoadToBronze.ColumnTypesKeys | scripts/load_to_bronze.py:132-136 | the type lookup has exactly the table's lower-cased column names |
| LoadToBronze.MissingTargetIff | scripts/load_to_bronze.py:133-134 | a target is missing exactly when it is required and no table column matches it case-insensitively |
| LoadToBronze.PlanLoad | scripts/load_to_bronze.py:268-326 | exit 2 exactly for a wrong argument count; otherwise exit 1 unless the name has a batch identifier, the batch file lists it with parquet name and target, and the parquet file exists |
| LoadToBronze.ChecksIff | scripts/load_to_bronze.py:416-490 | the checks pass exactly when no source column is missing from the parquet file and no target column from the table |
| LoadToBronze.LoadExitCodes | scripts/load_to_bronze.py:268-745 | exit 2 exactly for a wrong argument count; exit 0 exactly when the job is planned, every check passes and the load raises nothing |
| LoadToBronze.LoadSucceeds | scripts/load_to_bronze.py:524-665 | a successful load audits SUCCESS with the row count, logs SUCCESS, archives the parquet file, and copies the mapped targets plus `dwh_batch_id` with a select that lines up |
| LoadToBronze.AttemptSucceeds | scripts/load_to_bronze.py:524-665 | the same for a planned job |
| LoadToBronze.LoadFailures | scripts/load_to_bronze.py:343-745 | a logged load error comes with exit 1, a FAILED audit and the same message in the job log; a failed run moves the parquet file only after a connection error or an error during the load itself |
| LoadToBronze.RunStage | scripts/load_to_bronze.py:268-745 | the script's run equals its specification |
| ValidateMapping.InsertSorted | scripts/validate_mapping.py:483-488 | inserting into a sorted listing adds at most one name |
| ValidateMapping.InsertSortedMembers | scripts/validate_mapping.py:483-488 | the listing after an insertion holds exactly the old names and the new one |
| ValidateMapping.InsertSortedSorted | scripts/validate_mapping.py:483-488 | insertion keeps a listing strictly sorted |
| ValidateMapping.SortDistinct | scripts/validate_mapping.py:483-488 | `sorted(set(…))` is no longer than its input |
| ValidateMapping.SortDistinctSpec | scripts/validate_mapping.py:483-488 | `sorted(set(…))` is strictly sorted and holds exactly the input's names |
| ValidateMapping.SortedUnique | scripts/validate_mapping.py:483-488 | two strictly sorted listings of the same names are equal, so the rendering does not depend on the set's iteration order |
| ValidateMapping.KeySetHas | scripts/validate_mapping.py:397-480 | a normalised name is in the set exactly when some column normalises to it |
| ValidateMapping.SortedDifferenceSpec | scripts/validate_mapping.py:483-484 | `missing` and `extra` are strictly sorted and hold exactly the normalised names on one side and not the other |
| ValidateMapping.SortedDifferenceIsSorted | scripts/validate_mapping.py:483-484 | any strictly sorted listing of that difference is the one reported |
| ValidateMapping.PassesIffSameNames | scripts/validate_mapping.py:483-492 | nothing is missing and nothing extra exactly when both sides have the same normalised names |
| ValidateMapping.PlanMapping | scripts/validate_mapping.py:246-298 | exit 2 exactly for a wrong argument count; otherwise exit 1 unless the name has a batch identifier, the batch file lists the file and names a client, and the job then carries those |
| ValidateMapping.MappingExitCodes | scripts/validate_mapping.py:246-596 | exit 2 exactly for a wrong argument count; exit 0 exactly when everything could be read, the mapping is non-empty and both sides have the same normalised names, and then the audit says SUCCESS and nothing moves |
| ValidateMapping.EmptyMappingFails | scripts/validate_mapping.py:435-478 | an empty mapping logs empty lists, audits FAILED, moves the parquet file and exits 1 |
| ValidateMapping.MismatchLogged | scripts/validate_mapping.py:480-555 | a mismatch exits 1, audits FAILED, moves the parquet file to `failed` and logs the sorted missing and extra names, which are exactly the two differences |
| ValidateMapping.RunStage | scripts/validate_mapping.py:246-596 | the script's run equals its specification |
| ValidateReqCols.Bind | scripts/validate_req_cols.py:97-120 | binding parameters to a query's placeholders pairs every parameter with one placeholder |
| ValidateReqCols.HolesConcat | scripts/validate_req_cols.py:110 | joining query pieces adds their placeholder counts |
| ValidateReqCols.BindConcat | scripts/validate_req_cols.py:110-118 | binding a joined query with joined parameters binds each piece with its own parameters |
| ValidateReqCols.Assign | scripts/validate_req_cols.py:97-105 | each `col = %s` piece has exactly one placeholder |
| ValidateReqCols.BindAssign | scripts/validate_req_cols.py:97-105 | a single assignment binds its one parameter to its column |
| ValidateReqCols.Clause | scripts/validate_req_cols.py:107-108 | an optional clause has a placeholder exactly when its count is given |
| ValidateReqCols.ValidClauseIff | scripts/validate_req_cols.py:107-108 | `valid_rows` and `invalid_rows` appear in the UPDATE exactly when their counts are given |
| ValidateReqCols.AuditUpdate | scripts/validate_req_cols.py:90-120 | the placeholders and parameters line up: status, the counts given, then client, file and batch, each bound to its own column |
| ValidateReqCols.BindWhere | scripts/validate_req_cols.py:102-118 | the three WHERE placeholders take client id, file name and batch id in that order |
| ValidateReqCols.BatchInsert | scripts/validate_req_cols.py:128-134 | an empty batch inserts nothing; any other batch is inserted as one call |
| ValidateReqCols.RowNumbers | scripts/validate_req_cols.py:312-316 | one row number per row of the chunk |
| ValidateReqCols.StripEmptyIffBlank | scripts/validate_req_cols.py:324-325 | `str.strip() == ""` exactly when every character is whitespace |
| ValidateReqCols.IsBlankValue | scripts/validate_req_cols.py:324-325 | the per-value test answers whether the value is blank |
| ValidateReqCols.ErrorDetail | scripts/validate_req_cols.py:338-352 | every error detail names the required column it is about |
| ValidateReqCols.LoggedSnoc | scripts/validate_req_cols.py:341 | adding a log row adds its row number to the invalid rows |
| ValidateReqCols.LoggedConcat | scripts/validate_req_cols.py:319-355 | the row numbers of joined logs are the union of their row numbers |
| ValidateReqCols.ScanColumn | scripts/validate_req_cols.py:320-355 | one required column's scan logs the specified rows, collects exactly their row numbers and reports whether it found any error |
| ValidateReqCols.ScanBlankRows | scripts/validate_req_cols.py:321-341 | a present column logs exactly its blank rows, in order, and reports an error exactly when one row is blank |
| ValidateReqCols.ScanEveryRow | scripts/validate_req_cols.py:342-355 | a missing column logs every row of the chunk |
| ValidateReqCols.ScanChunk | scripts/validate_req_cols.py:318-357 | a chunk's scan logs column by column, collects exactly the logged row numbers and reports whether any column failed |
| ValidateReqCols.MissingColumnFailsEmptyBatch | scripts/validate_req_cols.py:342-344 | a required column missing from an empty chunk still fails the file while logging nothing |
| ValidateReqCols.ColumnLogMembers | scripts/validate_req_cols.py:320-355 | a log row of one column exists exactly for each flagged row of that column |
| ValidateReqCols.ChunkLogMembers | scripts/validate_req_cols.py:318-355 | a chunk's log row exists exactly for each pair of required column and flagged row |
| ValidateReqCols.ChunkInvalidRows | scripts/validate_req_cols.py:319-357 | the invalid rows counted for a chunk are exactly the row numbers of rows flagged by some required column |
| ValidateReqCols.FlaggedRowsBound | scripts/validate_req_cols.py:357 | a chunk never counts more invalid rows than it has rows |
| ValidateReqCols.QuietColumn | scripts/validate_req_cols.py:326 | a column without errors logs nothing |
| ValidateReqCols.QuietChunk | scripts/validate_req_cols.py:318-355 | a chunk without errors logs nothing |
| ValidateReqCols.RowsOf | scripts/validate_req_cols.py:312-316 | the row numbers of a chunk, from `csv_row_number` or the running count, one per row |
| ValidateReqCols.FlattenSnoc | scripts/validate_req_cols.py:361-368 | the rows inserted by one more call follow the ones inserted before |
| ValidateReqCols.ScanStream | scripts/validate_req_cols.py:299-368 | the streaming loop leaves the inserted batches, the buffer, the invalid total, the rows processed and the error flag the specification gives |
| ValidateReqCols.FlushesKeepEveryRow | scripts/validate_req_cols.py:360-363 | flushing loses and reorders nothing: the inserted rows followed by the buffer are every log row in scan order |
| ValidateReqCols.FlushStepKeeps | scripts/validate_req_cols.py:360-363 | one flush step keeps every row in order |
| ValidateReqCols.FlushedBatchesFull | scripts/validate_req_cols.py:360-363 | every flush inserts a non-empty batch of at least `flush_log_batch` rows, and the buffer left is empty or shorter than that |
| ValidateReqCols.FlushStepFull | scripts/validate_req_cols.py:360-363 | one flush step keeps the batches full and the buffer short |
| ValidateReqCols.RunningRowNumbers | scripts/validate_req_cols.py:316-358 | without `csv_row_number` the rows are numbered 1, 2, … across all chunks |
| ValidateReqCols.InvalidTotalBound | scripts/validate_req_cols.py:357-358 | the invalid total never exceeds the rows processed |
| ValidateReqCols.QuietStream | scripts/validate_req_cols.py:299-368 | a stream without errors logs nothing and counts no invalid row |
| ValidateReqCols.StopRun | scripts/validate_req_cols.py:205-289 | every early stop exits 1 without an audit update or a row log; only an unknown schema and an empty sample leave no job log |
| ValidateReqCols.ValidateRequiredColumns | scripts/validate_req_cols.py:192-398 | the run equals its specification |
| ValidateReqCols.RunScript | scripts/validate_req_cols.py:405-420 | the script's run equals its specification: usage error, or the validation's outcome as exit code |
| ValidateReqCols.ReqExitCodes | scripts/validate_req_cols.py:192-420 | the script exits 0 or 1, and 0 exactly when the prechecks pass and either nothing is required or the stream completes without a blank or missing required value |
| ValidateReqCols.NoRequiredColumnsSucceeds | scripts/validate_req_cols.py:291-297 | no required column: SUCCESS audit without counts, SUCCESS job log, no row log |
| ValidateReqCols.CountsReported | scripts/validate_req_cols.py:357-395 | the audit update carries the invalid-row total of the scan |
| ValidateReqCols.ValidCountReported | scripts/validate_req_cols.py:377-395 | the audit update carries the valid rows: the metadata row count, or the rows processed, less the invalid total |
| ValidateReqCols.VerdictValid | scripts/validate_req_cols.py:377-379 | the verdict's valid count is the total less the invalid rows |
| ValidateReqCols.StatusReported | scripts/validate_req_cols.py:382-396 | the audit status is FAILED exactly when a required value was blank or missing |
| ValidateReqCols.ScanCompletes | scripts/validate_req_cols.py:299-398 | a completed stream flushes its remaining buffer and decides the verdict from the scan's totals |
| ValidateReqCols.ValidRowsNonNegative | scripts/validate_req_cols.py:377-379 | counted from the rows processed, the valid rows are never negative |
| ValidateReqCols.EveryLogRowInserted | scripts/validate_req_cols.py:360-368 | once the stream completes, every log row is inserted exactly once, in order, in non-empty batches that are all full except the last |
| ValidateReqCols.FinalFlush | scripts/validate_req_cols.py:365-368 | the final flush appends the buffer after the batches already inserted |
| ValidateReqCols.StreamErrorKeepsFlushed | scripts/validate_req_cols.py:370-375 | an error while streaming exits 1 without an audit update, and the rows already inserted are a prefix of the scan's log |
| ValidateReqCols.FailedMessage | scripts/validate_req_cols.py:382-392 | a failed validation's job log says validation failed when the audit row was updated and that it was not found otherwise |
| ValidateRow.NullCheckExprInjective | scripts/validate_row.py:168-169 | distinct columns give distinct null-check expressions |
| ValidateRow.NormalizedExprInjective | scripts/validate_row.py:172-173 | distinct columns give distinct normalised-value expressions |
| ValidateRow.ResolveOne | scripts/validate_row.py:352-357 | one more required column either joins the missing list or maps to its parquet column |
| ValidateRow.ResolveRequired | scripts/validate_row.py:348-357 | the loop leaves exactly the required columns no parquet column normalises to, in order, and maps every other one to its parquet column |
| ValidateRow.ByNormCovers | scripts/validate_row.py:350-395 | with nothing missing, every required column's normalised name is mapped to the parquet column of that name |
| ValidateRow.ActualColumns | scripts/validate_row.py:395 | one actual parquet column per required column |
| ValidateRow.ActualColumnIsLastProducer | scripts/validate_row.py:348-395 | the actual column of a required one is the last parquet column with its normalised name |
| ValidateRow.FoundKeysNext | scripts/validate_row.py:403-411 | one more column adds its normalised name exactly when its null count is positive |
| ValidateRow.FindNulls | scripts/validate_row.py:403-411 | the loop collects the normalised names of the columns with a positive null count |
| ValidateRow.NullColumnsNonEmpty | scripts/validate_row.py:403-430 | some column has nulls exactly when a required column's null count is positive |
| ValidateRow.Issues | scripts/validate_row.py:429-433 | no issue exactly when neither nulls nor duplicates were found; each issue appears exactly when found, nulls first |
| ValidateRow.PlanRow | scripts/validate_row.py:180-232 | exit 2 exactly for a wrong argument count; otherwise exit 1 unless the name has a batch identifier and the batch file lists it with a client |
| ValidateRow.ResolvesIff | scripts/validate_row.py:348-359 | every required column resolves exactly when none is reported missing |
| ValidateRow.RowOutcomes | scripts/validate_row.py:180-539 | exit 2 exactly for a wrong argument count; exit 0 exactly when everything resolves and no null or duplicate is found, with SUCCESS audit and log; a required-columns query that raises once connected exits 1 with only a FAILED job log `error:<e>` under the parquet name; once the checks run, the audit is FAILED exactly when an issue is found, and the row and job logs carry the joined issues |
| ValidateRow.NoRequiredColumnsFailsFirst | scripts/validate_row.py:294-326 | with no required column the outcome does not depend on the parquet file's contents, and it is a FAILED audit with exit 1 |
| ValidateRow.MissingColumnFailsFirst | scripts/validate_row.py:359-393 | a missing required column fails the file before any DuckDB check, whatever those would find |
| ValidateRow.RunStage | scripts/validate_row.py:180-539 | the script's run equals its specification, including the required-columns query that raises |
| ValidateRow.RunAttempt | scripts/validate_row.py:256-539 | the checks after the job is planned equal their specification, including the failing required-columns query caught by the handler |
| ValidateRow.CollectIssues | scripts/validate_row.py:429-433 | the issue list built equals the specified one |
| ValidateRow.RunChecks | scripts/validate_row.py:397-516 | the DuckDB checks and the verdict equal their specification |
| GoldIntegration.ProcsOfType | scripts/gold_integration.py:260-261 | the procedures of one table type are exactly the names of the rows of that type, never more than there are rows |
| GoldIntegration.PartitionCounts | scripts/gold_integration.py:42-65 | dimensions and facts together never exceed the active integrations, and cover all of them when every row is a dimension or a fact |
| GoldIntegration.RunProcedure | scripts/gold_integration.py:78-109 | a call fails exactly when it raised or returned a row whose non-null first column is falsy; a raised error becomes the message; no result set or a short row counts as success |
| GoldIntegration.StatusMap | scripts/gold_integration.py:184 | the status map has a key exactly for each procedure named by a log row |
| GoldIntegration.StatusMapLastWins | scripts/gold_integration.py:184 | when a procedure has several log rows, the last one gives its status |
| GoldIntegration.FailedDeps | scripts/gold_integration.py:186-190 | no dependency fails exactly when every dependency has status SUCCESS |
| GoldIntegration.FailedDepsExact | scripts/gold_integration.py:186-190 | every reported dependency is a dependency without SUCCESS, with its status or MISSING, and every such dependency is reported |
| GoldIntegration.CheckDependencies | scripts/gold_integration.py:166-192 | the dependency check reports the failed dependencies in order and passes exactly when all of them have status SUCCESS |
| GoldIntegration.SkipMessage | scripts/gold_integration.py:195-204 | the SKIPPED message starts with the fixed prefix, is the bare prefix exactly when nothing failed, and names every failed dependency with its status |
| GoldIntegration.ExampleSkipMessage | scripts/gold_integration.py:200-202 | one failed dependency gives `Skipped due to failed dependency: D2[FAILED]` |
| GoldIntegration.SkipLogs | scripts/gold_integration.py:195-215 | every skip row has status SKIPPED, table type fact and the skip prefix |
| GoldIntegration.RecordsShape | scripts/gold_integration.py:269-291 | dimensions run first, then facts, in order; every dimension runs; a fact is skipped exactly when one of its dependencies lacks SUCCESS |
| GoldIntegration.AllSuccessIff | scripts/gold_integration.py:266-291 | the run succeeds exactly when every dimension call and every fact call that was not skipped succeeds; a skipped fact does not fail the run |
| GoldIntegration.RunDimensionTier | scripts/gold_integration.py:269-274 | the dimension loop runs every dimension and keeps the success flag, the error list and the skip rows in step with its records |
| GoldIntegration.RunFactTier | scripts/gold_integration.py:276-291 | the fact loop appends one record per fact, skipping those whose dependencies failed, and keeps the flag, errors and skip rows in step |
| GoldIntegration.RunTiers | scripts/gold_integration.py:266-291 | the two loops together give the records of the specification, with the matching success flag, error messages and skip rows |
| GoldIntegration.GoldSpec | scripts/gold_integration.py:218-345 | a missing argument, an unreadable batch folder or a missing batch_id exit 1 with nothing done; the run exits 0 exactly when every procedure succeeded, then logs SUCCESS and archives the batch file; otherwise it logs FAILED with the joined errors and moves the file to failed; the procedures run are recorded in the batch file |
| GoldIntegration.RunStage | scripts/gold_integration.py:218-345 | the script's run equals its specification, and the batch file gains the procedure list under the first free integration_procedure key and changes in no other way |
| GoldIntegration.DependencyExample | scripts/gold_integration.py:266-312 | with D2 failing, fact F1 is skipped with a SKIPPED row naming D2[FAILED], the run exits 1 with `D2 gagal: boom`, and all three procedures are recorded |
| SilverCleanTransform.RunProcedure | scripts/silver_clean_transform.py:76-99 | a call counts as successful exactly when it returned no row, an empty row, or a two-column row with a truthy first column; a raised error and a call without a result set both fail with their message |
| SilverCleanTransform.StagesReadOutcomesDifferently | scripts/silver_clean_transform.py:87-91 | a call with no result set, or returning `(NULL, NULL)`, is a success for the gold stage and a failure for the silver stage |
| SilverCleanTransform.RecordAt | scripts/silver_clean_transform.py:169-173 | the i-th record is the i-th active procedure run with the i-th call outcome |
| SilverCleanTransform.AllSuccessIff | scripts/silver_clean_transform.py:166-173 | the stage succeeds exactly when every active procedure succeeds |
| SilverCleanTransform.Tally | scripts/silver_clean_transform.py:170-173 | one iteration keeps the success flag and the error list equal to those of the records so far |
| SilverCleanTransform.RunProcedures | scripts/silver_clean_transform.py:166-173 | the loop's success flag and `<proc> gagal: <message>` errors are those of all the records |
| SilverCleanTransform.MoveLandsBesideIncoming | scripts/silver_clean_transform.py:118-126 | a batch file in `batch_info/<schema>/incoming` moves to the `success` or `failed` folder of the same schema, under the same name |
| SilverCleanTransform.SilverSpec | scripts/silver_clean_transform.py:129-216 | a missing argument, an unreadable incoming folder or a missing batch_id exit 1 with nothing done; once loaded, a job log is always written and the file always moved; the log says SUCCESS, without a message, exactly when the procedures ran and all succeeded; the procedure list is recorded exactly when the run exits 0 |
| SilverCleanTransform.RunStage | scripts/silver_clean_transform.py:102-115 | the script's run equals its specification; the batch file gains the procedure list under the first free transformation_procedure key and changes in no other way |
| CsvToJson.ValidClientName | handlers/csv_to_json.py:14-15 | an accepted schema name is non-empty, made of lower-case letters, digits and `_`, with at most one trailing newline that `$` lets through |
| CsvToJson.ClientNameForms | handlers/csv_to_json.py:14-15 | every word of `[a-z0-9_]` is accepted; a word plus one newline is accepted exactly when the word is; two newlines never are |
| CsvToJson.ValidClientNameIsPlain | handlers/csv_to_json.py:14-90 | an accepted name is already lower-case and has no `/` or `.`, so the folders built from it stay inside the client's own folders |
| CsvToJson.LogicalSources | handlers/csv_to_json.py:29-40 | every configured logical source is kept lower-cased |
| CsvToJson.MatchLogical | handlers/csv_to_json.py:123-132 | a match is a configured source that the lower-cased base name starts with; there is none exactly when no source is such a prefix |
| CsvToJson.MatchIsFirst | handlers/csv_to_json.py:130-132 | the match is the first source in iteration order that is a prefix of the base name |
| CsvToJson.MatchIsPrefix | handlers/csv_to_json.py:121-132 | a matched source is a lower-cased configured source and a prefix of the file's lower-cased base name |
| CsvToJson.MatchDependsOnOrder | handlers/csv_to_json.py:130-132 | with two nested sources the result depends on iteration order: `cust` or `cust_info` for the same file |
| CsvToJson.JsonNameOfCsv | handlers/csv_to_json.py:124 | `<stem>.csv` with no other `.csv` inside becomes `<stem>.json` |
| CsvToJson.JsonNameWithoutCsv | handlers/csv_to_json.py:124 | a name without `.csv` keeps its name as the JSON name |
| CsvToJson.RecordsNumbered | handlers/csv_to_json.py:146-150 | one record per row; record i carries `csv_row_number` i+1, the file name, the matched source and the batch identifier |
| CsvToJson.RecordsKeepColumns | handlers/csv_to_json.py:146-150 | every CSV column other than the four added keys keeps its text; a record has no key beyond the row's columns and the added ones |
| CsvToJson.StartOutcomes | handlers/csv_to_json.py:82-119 | before the conversion, a bad schema name, a missing file, a DB connection error or an unknown client end quietly; only a missing batch identifier raises (exit 1); otherwise the job carries the batch identifier and client id |
| CsvToJson.ConvertOutcomes | handlers/csv_to_json.py:121-195 | after the prechecks the script exits 0; JSON is written exactly when SUCCESS is logged, the file is moved to `failed` exactly when FAILED is logged, and a write comes with a SUCCESS audit row |
| CsvToJson.ConvertWrites | handlers/csv_to_json.py:146-175 | a written file has one numbered record per CSV row, nothing was there before, and the audit row counts the records |
| CsvToJson.CsvExitCodes | handlers/csv_to_json.py:82-119 | the exit code is 0 or 1, and 1 exactly when a valid schema's existing file has no batch identifier |
| CsvToJson.NeverOverwrites | handlers/csv_to_json.py:152-155 | an existing JSON file is never overwritten and never audited as SUCCESS |
| CsvToJson.WrittenRecords | handlers/csv_to_json.py:100-173 | whatever the inputs, a written file comes from a readable CSV with a batch identifier, has one record per row numbered from 1, and its audit row counts them |
| CsvToJson.SuccessIffWritten | handlers/csv_to_json.py:157-175 | JSON is written exactly when SUCCESS is logged, and then the file stays and is audited SUCCESS |
| CsvToJson.FailedFilesMoved | handlers/csv_to_json.py:134-193 | the raw file moves from `raw/<schema>/incoming` to `raw/<schema>/failed` exactly when FAILED is logged |
| CsvToJson.UnmatchedFileRejected | handlers/csv_to_json.py:134-142 | a file no source prefixes is logged FAILED with `logical_source_file not found: <base>`, moved, not audited and not written |
| CsvToJson.AuditNamesMatch | handlers/csv_to_json.py:162-190 | an audit row names a configured source that prefixes the base name, the file's batch identifier and its JSON name |
| CsvToJson.ConversionFailure | handlers/csv_to_json.py:177-193 | a FAILED audit row has 0 rows, nothing is written, the file is moved, and the log carries the read error or the duplicate `csv_row_number` error |
| RerunBatch.ProcessFile | handlers/rerun_batch.py:66-117 | one file's turn (invocations, move, log row) is the one the stage chain specifies |
| RerunBatch.ChainSkipsPassed | handlers/rerun_batch.py:73-95 | stages that exit 0 are run and passed over: the chain is them followed by the chain of the rest |
| RerunBatch.ChainPassesIffAllZero | handlers/rerun_batch.py:73-98 | the chain ends without a failure exactly when every stage exits 0, and then it has run all three in order |
| RerunBatch.ChainStopsAtFirstFailure | handlers/rerun_batch.py:75-95 | a failing chain ran exactly the stages up to and including the first non-zero exit, and names that stage |
| RerunBatch.ArchivedIffAllPass | handlers/rerun_batch.py:72-98 | the file goes to `archive` and is logged SUCCESS with no message exactly when all three stages exit 0; the first failing stage decides the FAILED message, the `failed` folder and how many stages ran |
| RerunBatch.RerunBatchId | handlers/rerun_batch.py:103-106 | a batch identifier exactly when the name contains `_BATCH`, and it starts with `BATCH` |
| RerunBatch.AfterLastMark | handlers/rerun_batch.py:105 | the last piece of a split on `_BATCH` is what follows the last `_BATCH` when nothing after it has `_` |
| RerunBatch.StampedNameGivesBatch | handlers/rerun_batch.py:103-106 | `<stem>_BATCH<digits>.json` is logged with batch identifier `BATCH<digits>` |
| RerunBatch.JsonFiles | handlers/rerun_batch.py:61 | the files kept are exactly the listed names ending in `.json` |
| RerunBatch.Rerun | handlers/rerun_batch.py:48-117 | the script's run equals its specification: exit 1 without a schema argument or folder, otherwise one turn per JSON file in listing order |
| RerunBatch.OneLogPerFile | handlers/rerun_batch.py:61-117 | exactly one `rerun_batch` log row per JSON file, naming it, in order; a folder with no JSON file logs nothing |
| RerunBatch.TurnsIndependent | handlers/rerun_batch.py:66-117 | a file's turn depends only on its own stages' exit codes |
| RerunBatch.ChainSameExits | handlers/rerun_batch.py:73-95 | equal exit codes for a file give equal chains |
| ExerciseMapping.LogicalNameDropsDate | Exercise_Project_2/scripts/validate_mapping.py:25-35 | the logical source is the extension-less name, or that name less exactly a final `_` and eight digits |
| ExerciseMapping.DatedNameGivesStem | Exercise_Project_2/scripts/validate_mapping.py:25-35 | a name `<stem>_<8 digits><ext>` gives the stem |
| ExerciseMapping.CustInfoExample | Exercise_Project_2/scripts/validate_mapping.py:26-29 | the documented example: `cust_info_20250802.json` gives `cust_info` |
| ExerciseMapping.LaterRecordsUnread | Exercise_Project_2/scripts/validate_mapping.py:122-123 | only the first record's keys are read |
| ExerciseMapping.UnknownKeys | Exercise_Project_2/scripts/validate_mapping.py:129-146 | a key is unknown exactly when the file has it, it is neither bookkeeping key, and the mapping lacks it |
| ExerciseMapping.PassesIffSubset | Exercise_Project_2/scripts/validate_mapping.py:146-155 | no unknown key exactly when the checked keys are among the mapped columns |
| ExerciseMapping.MoreMappingStillPasses | Exercise_Project_2/scripts/validate_mapping.py:146-155 | mapping more columns never turns a pass into a failure |
| ExerciseMapping.BookkeepingKeysIgnored | Exercise_Project_2/scripts/validate_mapping.py:129-131 | `csv_row_number` and `source_file` are never unknown and never change the verdict |
| ExerciseMapping.ExercisePassesIffMapped | Exercise_Project_2/scripts/validate_mapping.py:107-155 | the check passes exactly when the file exists and loads, the client has an active schema version, and every checked key is mapped; a logged failure names exactly the unknown keys, the file and the schema |
| ExerciseMapping.LooksUpFileSource | Exercise_Project_2/scripts/validate_mapping.py:140-143 | the mapping is looked up for the logical source named by the file |
| ExerciseMapping.ExerciseExitCodes | Exercise_Project_2/scripts/validate_mapping.py:160-172 | exit 1 only for missing arguments or an exception; a failed check still exits 0 |

## Left out

- PostgreSQL is not modelled. Query results are inputs, and the rows the scripts write are returned as values. Commits, rollbacks and cursors are left out, and so are failures of log writes that the scripts swallow.
- Child processes are not run. Inside the batch loop, the converter child is modelled by its own model (`ConvertToParquet.ConvertEffect`), run against the manifest of the first batch token in the file's name: the loop's manifest when that token is the loop's batch, otherwise the other batch's manifest, which is an input per file because the model tracks only the loop's batch, with what it meets (source file present, database up, read or write error, manifest write outcomes) given per file. The mapping, row and load children read that manifest but do not write it; their exit codes are inputs per file.
- Within the loop, every poll of `wait_for_parquet_name` reads the loop's manifest as the converter left it (unchanged when the converter wrote another batch's manifest), because no other process writes it meanwhile.
- File-system calls are not modelled. Folder listings and file existence are inputs, and moves are returned as target folders.
- The atomicity of `write_json_atomic` (temporary file, `os.replace`, fsync) and cross-process races on the manifest are left out. So are `os.makedirs`, `ensure_raw_dirs` and `safe_move`'s retries.
- Manifest.WaitForParquetName: the 30-second deadline and the poll interval become a finite sequence of manifest snapshots, one per poll. Sleeps and backoff delays elsewhere are dropped.
- JSON parsing and serialisation are not modelled. A manifest read is missing, unreadable or a document; `read_json_retry`'s retries collapse into that one outcome; key order and indentation are left out.
- pandas, pyarrow and DuckDB internals are left out. Conversion to Parquet is an optional error message. The null, blank and duplicate counts of row validation and the Parquet row metadata are inputs. The effect of the `ROUND(CAST … AS DOUBLE)` expressions is not modelled, only which expression text is chosen.
- Printed messages, `.env` loading and the timestamps of log rows are left out.
- `main` of `handlers/batch_processing.py` is not modelled: neither its argument dispatch nor its loop running start mode for every client. `process_client` is modelled for one client and one mode. An unknown mode is rejected by `main` before it is called.
- ReprocessScan: its own contract states only the bound and the item type. Which listed files become items, and in which order, is stated by ReprocessScanExact.
- `get_client_info`, `get_client_id` and `find_client_configs`' query are inputs.
- A failed UPDATE of `last_batch_id` is not modelled.
- PyStrings.Lower: Python's `str.lower`/`str.upper` map every Unicode letter, but the model maps ASCII letters only. Names in this system are ASCII.
- Regular expressions such as `\d` are modelled as ASCII digits. Python also accepts other Unicode decimal digits.
- CsvToJson: database errors after the connection are not modelled. Neither is the file's modification time.
- CsvToJson: JSON key order and pandas' renaming of duplicate CSV headers are left out.
- CsvToJson.MatchIsFirst: the source names come from a Python set, whose iteration order is not specified. The model takes that order as an input sequence.
- ExerciseMapping: connection errors and the time-stamped local log file name are left out, and so is the exact `str(set)` rendering of the unknown keys.
- ExerciseMapping: `str.isdigit` is modelled as ASCII digits.
- RerunBatch: a move that raises inside the `try` is caught, and the file is still logged SUCCESS. This is not modelled: moves always succeed.
- RerunBatch: a child process that cannot be started is caught in the same way and is not modelled.
- RerunBatch: a failing job-log insert and the start times are left out.
- ValidateReqCols: pyarrow metadata details beyond the row count are left out, as is the `int()` conversion of `csv_row_number` values (row numbers are given as integers). A failing database update is not modelled.
- LoadToBronze: the COPY itself is left out. The model states which columns and expressions it is given, in which order, and what happens when it raises.
- ValidateRow: the SQL text of the null and duplicate queries is modelled as built, but their results are inputs.
- GoldIntegration and SilverCleanTransform: a `DB_PORT` missing from the environment raises before anything is read, which is not modelled. Connection failures outside `run_procedure` are not modelled either.

## Findings

| source | as written | input that shows it | evidently intended | confidence | as-written member | corrected member |
|---|---|---|---|---|---|---|
| handlers/batch_processing.py:183-194 | in start mode the manifest is first created by `upsert_file_entry_batch_info`, whose skeleton sets `client_id` to None; the conversion (handlers/convert_to_parquet.py:255-258) and mapping validation exit 1 when `client_id` is None | a start run with one matching CSV file whose name carries no batch token, and no manifest yet: the manifest gets `client_id: null`, so the conversion of that file exits 1 and the file fails with `FAILED on convert_to_parquet` | the manifest created for a batch names its client and batch, as the start skeleton for an empty batch does (handlers/batch_processing.py:466-471) | not executed | BatchRun.AsWrittenStartBlocksConversion | BatchRun.CorrectedStartPassesClientCheck |

The loop model (`BatchRun.ProcessItems`, `BatchRun.ProcessClient`) keeps the upsert as written and runs the converter against the manifest it builds. `BatchRun.AsWrittenManifestLacksClient` shows that such a manifest never names a client, and `BatchRun.AsWrittenStartBlocksConversion` shows that every CSV file that reaches its upsert then fails at the converter. The corrected upsert is `Manifest.ManifestFile.UpsertFileEntryForBatch`, which creates a missing manifest from the batch skeleton; `BatchRun.BatchManifestNamesClient` and `BatchRun.CorrectedStartPassesClientCheck` prove what it fixes.
