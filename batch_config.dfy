// Client configurations and the rule that decides which configuration a raw file belongs to
// (handlers/batch_processing.py: `find_client_configs`, the start-mode scan and
// `match_config_for_physical` of restart mode).
module BatchConfig {
  import opened Optional
  import opened PyStrings
  import opened Json
  import opened BatchTokens
  import opened FileNames

  /** A row of `tools.client_config` as the query returns it. */
  datatype ConfigRow = ConfigRow(configId: Value, sourceType: Value, targetSchema: Value, targetTable: Value,
                                 sourceConfig: Value, logical: Value, sourceSystem: Value)

  /** A configuration as the orchestrator holds it: the source type lower-cased and the
    * logical name's matching key precomputed (none without a logical name). */
  datatype Config = Config(configId: Value, sourceType: string, targetSchema: Value, targetTable: Value,
                           sourceConfig: Value, logical: Value, sourceSystem: Value, logicalNorm: Option<string>)

  /** The source systems, in the order the orchestrator scans them. */
  const SourceSystems: seq<string> := ["crm", "erp", "api", "db"]

  /** `(v or "")` for an optional key */
  function OrEmpty(o: Option<string>): (r: string)
    ensures o.None? ==> r == ""
    ensures o.Some? ==> r == o.value
  {
    if o.Some? then o.value else ""
  }

  function ConfigOf(r: ConfigRow): (c: Config)
    ensures forall i :: 0 <= i < |c.sourceType| ==> !IsAsciiUpper(c.sourceType[i])
    ensures c.logicalNorm.Some? <==> Truthy(r.logical)
    ensures c.logicalNorm.Some? ==> c.logicalNorm.value == NormalizeFileName(Some(Text(r.logical)))
    ensures (c.configId, c.targetSchema, c.targetTable, c.sourceConfig, c.logical, c.sourceSystem)
         == (r.configId, r.targetSchema, r.targetTable, r.sourceConfig, r.logical, r.sourceSystem)
  {
    Config(r.configId, Lower(TextOrEmpty(r.sourceType)), r.targetSchema, r.targetTable, r.sourceConfig,
           r.logical, r.sourceSystem,
           if Truthy(r.logical) then Some(NormalizeFileName(Some(Text(r.logical)))) else None)
  }

  /** The lower-cased extension without its leading dots. */
  function FileExt(fn: string): (r: string)
    ensures |r| == 0 || r[0] != '.'
    ensures forall i :: 0 <= i < |r| ==> !IsAsciiUpper(r[i])
  {
    LStripChar(Lower(SplitExt(fn).1), '.')
  }

  /** The key a file name is matched on: batch suffix stripped, then normalised. */
  function MatchKey(fn: string): string {
    NormalizeFileName(Some(StripBatchSuffix(fn)))
  }

  /** The start-mode test: same source system ignoring case, type equal to the file's
    * extension `ext`, and a logical key equal to the file's key `key`. */
  predicate StartMatches(c: Config, ss: string, ext: string, key: string) {
    Lower(TextOrEmpty(c.sourceSystem)) == Lower(ss) && c.sourceType == ext && c.logicalNorm == Some(key)
  }

  /** The first configuration accepting a file in start mode. */
  function MatchStart(configs: seq<Config>, ss: string, ext: string, key: string, from: nat): (r: Option<nat>)
    requires from <= |configs|
    ensures r.Some? ==> from <= r.value < |configs| && StartMatches(configs[r.value], ss, ext, key)
    ensures r.Some? ==> forall j :: from <= j < r.value ==> !StartMatches(configs[j], ss, ext, key)
    ensures r.None? <==> forall j :: from <= j < |configs| ==> !StartMatches(configs[j], ss, ext, key)
    decreases |configs| - from
  {
    if from == |configs| then None
    else if StartMatches(configs[from], ss, ext, key) then Some(from)
    else MatchStart(configs, ss, ext, key, from + 1)
  }

  /** The configuration start mode files `fn` from source system `ss` under, if any. */
  function StartConfig(configs: seq<Config>, ss: string, fn: string): Option<nat> {
    MatchStart(configs, ss, FileExt(fn), MatchKey(fn), 0)
  }

  /** The restart-mode test `match_config_for_physical`: the logical key (or "") equals the
    * file's key `key`, the source systems agree ignoring case and the types agree exactly. */
  predicate RestartMatches(c: Config, key: string, ss: Value, st: Value) {
    OrEmpty(c.logicalNorm) == key
    && Lower(TextOrEmpty(c.sourceSystem)) == Lower(TextOrEmpty(ss))
    && c.sourceType == TextOrEmpty(st)
  }

  function MatchRestart(configs: seq<Config>, key: string, ss: Value, st: Value, from: nat): (r: Option<nat>)
    requires from <= |configs|
    ensures r.Some? ==> from <= r.value < |configs| && RestartMatches(configs[r.value], key, ss, st)
    ensures r.Some? ==> forall j :: from <= j < r.value ==> !RestartMatches(configs[j], key, ss, st)
    ensures r.None? <==> forall j :: from <= j < |configs| ==> !RestartMatches(configs[j], key, ss, st)
    decreases |configs| - from
  {
    if from == |configs| then None
    else if RestartMatches(configs[from], key, ss, st) then Some(from)
    else MatchRestart(configs, key, ss, st, from + 1)
  }

  /** The configuration restart mode finds for `phys` with the given system and type. */
  function RestartConfig(configs: seq<Config>, phys: string, ss: Value, st: Value): Option<nat> {
    MatchRestart(configs, MatchKey(phys), ss, st, 0)
  }

  // ---------------------------------------------------------------------------------------

  /** A configuration without a logical name accepts no file in start mode. */
  lemma NoLogicalNoStartMatch(r: ConfigRow, ss: string, ext: string, key: string)
    requires !Truthy(r.logical)
    ensures !StartMatches(ConfigOf(r), ss, ext, key)
  {
  }

  /** The split of a renamed plain file: the stamped stem and the original extension. */
  lemma SplitRenamed(b: string, e: string, bid: string)
    requires PlainStem(b) && (e == "" || IsExtension(e)) && IsBatchId(bid)
    ensures SplitExt(b + e) == (b, e)
    ensures SplitExt(RenameWithBatch(b + e, bid)).1 == e
  {
    SplitPlain(b, e);
    var sb := StandardStem(b);
    RenameOfPlain(b, e, bid);
    SplitInside(sb + "_", bid, 5, e);
    assert NoChar(sb, '/') && NoChar(sb, '.') by {
      StandardStemOfPlain(b);
    }
    BatchIdParts(bid);
    TokenNameSplit(sb, bid[..5], bid[5..], e);
  }

  /** The extension survives the batch stamp: a renamed file has the type of the original. */
  lemma RenamedFileKeepsExt(b: string, e: string, bid: string)
    requires PlainStem(b) && (e == "" || IsExtension(e)) && IsBatchId(bid)
    ensures FileExt(RenameWithBatch(b + e, bid)) == FileExt(b + e)
  {
    SplitRenamed(b, e, bid);
  }

  /** A configuration accepting a file in start mode also passes the restart test for the
    * batch-stamped name, with the source system and type start mode records. */
  lemma StartAcceptedRestartMatches(c: Config, ss: string, b: string, e: string, bid: string)
    requires PlainStem(b) && (e == "" || IsExtension(e)) && IsBatchId(bid) && ss != ""
    requires StartMatches(c, ss, FileExt(b + e), MatchKey(b + e))
    ensures RestartMatches(c, MatchKey(RenameWithBatch(b + e, bid)), Str(ss), Str(FileExt(b + e)))
  {
    RenamedFileKeepsKey(b, e, bid);
    StartTestPassesRestartTest(c, ss, FileExt(b + e), MatchKey(b + e));
  }

  /** The start-mode test implies the restart-mode test on the same key, system and type. */
  lemma StartTestPassesRestartTest(c: Config, ss: string, ext: string, key: string)
    requires StartMatches(c, ss, ext, key) && ss != ""
    ensures RestartMatches(c, key, Str(ss), Str(ext))
  {
  }

  /** Hence restart mode finds some configuration for every file start mode accepted. */
  lemma StartAcceptedRestartFinds(configs: seq<Config>, ss: string, b: string, e: string, bid: string)
    requires PlainStem(b) && (e == "" || IsExtension(e)) && IsBatchId(bid) && ss != ""
    requires StartConfig(configs, ss, b + e).Some?
    ensures RestartConfig(configs, RenameWithBatch(b + e, bid), Str(ss), Str(FileExt(b + e))).Some?
  {
    var i := StartConfig(configs, ss, b + e).value;
    StartAcceptedRestartMatches(configs[i], ss, b, e, bid);
  }
}
