// How the pipeline turns file and column names into matching keys, and how it stamps a
// file with its batch (handlers/batch_processing.py, handlers/convert_to_parquet.py and the
// column-name normaliser shared by scripts/load_to_bronze.py, scripts/validate_mapping.py
// and scripts/validate_row.py).
module FileNames {
  import opened Optional
  import opened PyStrings
  import opened BatchTokens

  /** An extension as `os.path.splitext` returns it: one leading dot, no further dot or slash. */
  predicate IsExtension(e: string) {
    |e| > 0 && e[0] == '.' && forall i :: 1 <= i < |e| ==> e[i] != '.' && e[i] != '/'
  }

  predicate NoChar(s: string, c: char) { forall i :: 0 <= i < |s| ==> s[i] != c }

  /** Lower-case, then spaces and hyphens become underscores. */
  function Canon(s: string): (r: string)
    ensures |r| == |s|
    ensures forall i :: 0 <= i < |r| ==> r[i] != ' ' && r[i] != '-' && !IsAsciiUpper(r[i])
  {
    ReplaceChar(ReplaceChar(Lower(s), ' ', '_'), '-', '_')
  }

  /** `normalize_name` of the orchestrator: the stem without its extension, stripped,
    * lower-cased, with spaces and hyphens turned into underscores; `None` gives "". */
  function NormalizeFileName(s: Option<string>): (r: string)
    ensures s.None? ==> r == ""
    ensures forall i :: 0 <= i < |r| ==> r[i] != ' ' && r[i] != '-' && !IsAsciiUpper(r[i])
  {
    match s
    case None => ""
    case Some(x) => Canon(Strip(SplitExt(x).0))
  }

  /** `normalize_name` of the stage scripts: like the orchestrator's, but the extension is kept. */
  function NormalizeColumnName(s: Option<string>): (r: string)
    ensures s.None? ==> r == ""
    ensures forall i :: 0 <= i < |r| ==> r[i] != ' ' && r[i] != '-' && !IsAsciiUpper(r[i])
  {
    match s
    case None => ""
    case Some(x) => Canon(Strip(x))
  }

  /** The stem ends in `_BATCH` (any case). */
  predicate EndsWithBatchMark(name: string) { EndsWith(Upper(name), "_BATCH") }

  /** The stem holds `_BATCH` (any case) somewhere. */
  predicate HasBatchMark(name: string) { Contains(Upper(name), "_BATCH") }

  /** The text after the last underscore reads `BATCH` (any case) and at least six digits. */
  predicate IsBatchSuffix(suf: string) {
    |suf| >= 11 && StartsWith(Upper(suf), "BATCH") && IsDigits(suf[5..])
  }

  /** `strip_batch_suffix`: drop a trailing `_BATCH` + digits token from the stem, keeping
    * the extension; any name without such a token comes back unchanged. */
  function StripBatchSuffix(filename: string): string
  {
    if |filename| == 0 then filename
    else
      var parts := SplitExt(filename);
      StripStem(filename, parts.0, parts.1)
  }

  function StripStem(filename: string, name: string, ext: string): string
  {
    if EndsWithBatchMark(name) && |name| >= 12 then name[..|name| - 6] + ext
    else if HasBatchMark(name) then
      var k := LastIndexOf(name, '_');
      // `"_BATCH" in up` puts an underscore into `name`, so `k < 0` never happens; the
      // source's `rsplit("_", 1)` would raise there.
      if k >= 0 && IsBatchSuffix(name[k + 1..]) then name[..k] + ext else filename
    else filename
  }

  /** `t.replace(" ", "_").replace("-", "_")` */
  function Underscored(t: string): string
  {
    ReplaceChar(ReplaceChar(t, ' ', '_'), '-', '_')
  }

  /** `base.strip().replace(" ", "_").replace("-", "_")`, the stem a renamed file keeps. */
  function StandardStem(base: string): string
  {
    Underscored(Strip(base))
  }

  /** The name a file takes when the orchestrator stamps it with batch `batchId`:
    * standard stem, an underscore, the batch identifier, the original extension. */
  function RenameWithBatch(fn: string, batchId: string): string
  {
    var parts := SplitExt(fn);
    StandardStem(parts.0) + "_" + batchId + parts.1
  }

  /** The token `BATCH\d{6}` (any case) ends `s`. */
  predicate EndsWithToken(s: string) { |s| >= 11 && TokenAt(s, |s| - 11) }

  function CutToken(s: string): (r: string)
    requires EndsWithToken(s)
    ensures |r| <= |s| - 11 && r == s[..|r|]
  {
    var k := |s| - 11;
    if k > 0 && s[k - 1] == '_' then s[..k - 1] else s[..k]
  }

  /** `re.sub(r"_?BATCH\d{6}$", "", base, flags=re.IGNORECASE)`: `$` also matches just
    * before a final newline, which then stays. */
  function DropTrailingToken(base: string): string
  {
    if EndsWithToken(base) then CutToken(base)
    else if |base| > 0 && base[|base| - 1] == '\n' && EndsWithToken(base[..|base| - 1]) then
      CutToken(base[..|base| - 1]) + "\n"
    else base
  }

  /** `_normalize_name_for_match` of the converter: the stem without extension and without a
    * trailing batch token, stripped and lower-cased; no name gives "". */
  function NormalizeForMatch(name: Option<string>): (r: string)
    ensures (name.None? || name == Some("")) ==> r == ""
    ensures forall i :: 0 <= i < |r| ==> !IsAsciiUpper(r[i])
  {
    if name.None? || name.value == "" then ""
    else Lower(Strip(DropTrailingToken(SplitExt(name.value).0)))
  }

  // ---------------------------------------------------------------------------------------

  lemma SplitExtWithExtension(stem: string, e: string)
    requires IsExtension(e) && NoChar(stem, '/') && exists i :: 0 <= i < |stem| && stem[i] != '.'
    ensures SplitExt(stem + e) == (stem, e)
  {
    var p := stem + e;
    var sep := LastIndexOf(p, '/');
    var dot := LastIndexOf(p, '.');
    assert p[|stem|] == '.';
    assert dot == |stem|;
    assert sep == -1;
    var k :| 0 <= k < |stem| && stem[k] != '.';
    assert p[k] != '.';
    assert HasNonDotBetween(p, sep, dot);
    assert p[..dot] == stem && p[dot..] == e;
  }

  lemma SplitExtWithoutDot(stem: string)
    requires NoChar(stem, '.')
    ensures SplitExt(stem) == (stem, "")
  {
  }

  /** The characters of a `_BATCH` + digits tail: no dot, no slash, an underscore only first. */
  lemma TokenTailChars(b: string, d: string)
    requires Upper(b) == "BATCH" && AllDigits(d)
    ensures var t := "_" + b + d;
            forall i :: 0 <= i < |t| ==> t[i] != '.' && t[i] != '/' && (t[i] == '_' <==> i == 0)
  {
    var t := "_" + b + d;
    forall i | 0 <= i < |t| ensures t[i] != '.' && t[i] != '/' && (t[i] == '_' <==> i == 0) {
      if 1 <= i < 6 {
        assert t[i] == b[i - 1];
        assert UpperChar(b[i - 1]) == Upper(b)[i - 1];
        assert IsAsciiUpper(UpperChar(t[i]));
      } else if i >= 6 {
        assert t[i] == d[i - 6];
      }
    }
  }

  lemma NoCharConcat(x: string, t: string, c: char)
    requires NoChar(x, c) && NoChar(t, c)
    ensures NoChar(x + t, c)
  {
    assert forall i :: |x| <= i < |x + t| ==> (x + t)[i] == t[i - |x|];
  }

  lemma UpperTokenTail(x: string, b: string, d: string)
    requires Upper(b) == "BATCH" && IsDigits(d)
    ensures !EndsWithBatchMark(x + "_" + b + d) && HasBatchMark(x + "_" + b + d)
  {
    var name := x + "_" + b + d;
    var up := Upper(name);
    assert IsAsciiDigit(name[|name| - 1]);
    assert IsAsciiDigit(up[|up| - 1]);
    assert up[|x|..|x| + 6] == "_" + Upper(b) by {
      forall i | 0 <= i < 5 ensures up[|x| + 1 + i] == Upper(b)[i] {
        assert name[|x| + 1 + i] == b[i];
      }
    }
    assert "_" + Upper(b) == "_BATCH";
    assert OccursAt(up, "_BATCH", |x|);
  }

  lemma TokenNameSplit(x: string, b: string, d: string, e: string)
    requires Upper(b) == "BATCH" && IsDigits(d) && NoChar(x, '/')
    requires IsExtension(e) || (e == "" && NoChar(x, '.'))
    ensures SplitExt(x + "_" + b + d + e) == (x + "_" + b + d, e)
  {
    var t := "_" + b + d;
    var name := x + t;
    assert x + "_" + b + d + e == name + e && name == x + "_" + b + d;
    TokenTailChars(b, d);
    if e == "" {
      NoCharConcat(x, t, '.');
      SplitExtWithoutDot(name);
      assert name + e == name;
    } else {
      NoCharConcat(x, t, '/');
      assert name[|x|] != '.';
      SplitExtWithExtension(name, e);
    }
  }

  lemma TokenNameLastUnderscore(x: string, b: string, d: string)
    requires Upper(b) == "BATCH" && IsDigits(d) && |d| >= 6
    ensures var name := x + "_" + b + d;
            LastIndexOf(name, '_') == |x| && name[..|x|] == x && IsBatchSuffix(name[|x| + 1..])
  {
    var t := "_" + b + d;
    var name := x + t;
    assert name == x + "_" + b + d;
    TokenTailChars(b, d);
    assert name[|x|] == '_';
    assert forall i :: |x| < i < |name| ==> name[i] == t[i - |x|];
    assert name[..|x|] == x;
    assert name[|x| + 1..] == b + d;
    assert (b + d)[5..] == d;
    assert Upper(b + d)[..5] == Upper(b);
  }

  /** A name whose stem carries `_BATCH` + six or more digits (any case) loses exactly that
    * token and keeps its extension. */
  lemma StripBatchSuffixRemovesToken(x: string, b: string, d: string, e: string)
    requires Upper(b) == "BATCH" && IsDigits(d) && |d| >= 6 && NoChar(x, '/')
    requires IsExtension(e) || (e == "" && NoChar(x, '.'))
    ensures StripBatchSuffix(x + "_" + b + d + e) == x + e
  {
    TokenNameSplit(x, b, d, e);
    UpperTokenTail(x, b, d);
    TokenNameLastUnderscore(x, b, d);
  }

  /** A stem without `_BATCH` (any case) is left alone. */
  lemma StripBatchSuffixNoToken(fn: string)
    requires !HasBatchMark(SplitExt(fn).0)
    ensures StripBatchSuffix(fn) == fn
  {
    var name := SplitExt(fn).0;
    if EndsWithBatchMark(name) { EndsWithContains(Upper(name), "_BATCH"); }
  }

  /** A stem as file producers write it: non-empty, no dot or slash, no whitespace at its
    * ends, and no batch mark yet. */
  predicate PlainStem(b: string) {
    |b| > 0 && NoChar(b, '.') && NoChar(b, '/') && !IsSpace(b[0]) && !IsSpace(b[|b| - 1])
    && !HasBatchMark(b)
  }

  lemma SplitPlain(b: string, e: string)
    requires |b| > 0 && b[0] != '.' && NoChar(b, '.') && NoChar(b, '/') && (e == "" || IsExtension(e))
    ensures SplitExt(b + e) == (b, e)
  {
    if e == "" {
      assert b + e == b;
      SplitExtWithoutDot(b);
    } else {
      SplitExtWithExtension(b, e);
    }
  }

  lemma StandardStemOfPlain(b: string)
    requires |b| > 0 && NoChar(b, '.') && NoChar(b, '/') && !IsSpace(b[0]) && !IsSpace(b[|b| - 1])
    ensures var sb := StandardStem(b);
            |sb| == |b| && NoChar(sb, '.') && NoChar(sb, '/') && sb[0] != '.'
            && Strip(sb) == sb && Canon(sb) == Canon(b)
            && forall i :: 0 <= i < |b| ==> sb[i] == b[i] || sb[i] == '_'
  {
    StripNoop(b);
    assert StandardStem(b) == Underscored(b);
    UnderscoredKeepsShape(b);
    CanonOfUnderscored(b);
  }

  /** Underscoring keeps every other character, so no dot, slash or surrounding space appears. */
  lemma UnderscoredKeepsShape(b: string)
    requires |b| > 0 && NoChar(b, '.') && NoChar(b, '/') && !IsSpace(b[0]) && !IsSpace(b[|b| - 1])
    ensures var u := Underscored(b);
            NoChar(u, '.') && NoChar(u, '/') && u[0] != '.' && Strip(u) == u
            && forall i :: 0 <= i < |b| ==> u[i] == b[i] || u[i] == '_'
  {
    var u := Underscored(b);
    assert u[0] == b[0] || u[0] == '_';
    assert u[|u| - 1] == b[|b| - 1] || u[|u| - 1] == '_';
    StripNoop(u);
  }

  /** What canonicalising does to one character. */
  function CanonChar(c: char): char {
    var l := LowerChar(c);
    if l == ' ' || l == '-' then '_' else l
  }

  lemma CanonAt(s: string, i: nat)
    requires i < |s|
    ensures Canon(s)[i] == CanonChar(s[i])
  {
    var l := Lower(s);
    var u := ReplaceChar(l, ' ', '_');
    assert l[i] == LowerChar(s[i]);
    assert u[i] == if l[i] == ' ' then '_' else l[i];
  }

  /** Canonicalising already turns spaces and hyphens into underscores. */
  lemma CanonOfUnderscored(t: string)
    ensures Canon(Underscored(t)) == Canon(t)
  {
    var u := Underscored(t);
    forall i | 0 <= i < |t| ensures Canon(u)[i] == Canon(t)[i] {
      CanonAt(u, i);
      CanonAt(t, i);
    }
  }

  lemma BatchIdParts(bid: string)
    requires IsBatchId(bid)
    ensures bid == bid[..5] + bid[5..] && Upper(bid[..5]) == "BATCH" && IsDigits(bid[5..]) && |bid[5..]| == 6
  {
    UpperOfBatch();
  }

  lemma UpperOfBatch()
    ensures Upper("BATCH") == "BATCH"
  {
  }

  /** A file accepted in start mode keys to the same configuration when restart mode matches
    * it again under its batch-stamped name: stripping the batch suffix and normalising the
    * renamed file gives the key its original name gave. */
  lemma RenamedFileKeepsKey(b: string, e: string, bid: string)
    requires PlainStem(b) && (e == "" || IsExtension(e)) && IsBatchId(bid)
    ensures NormalizeFileName(Some(StripBatchSuffix(RenameWithBatch(b + e, bid))))
         == NormalizeFileName(Some(StripBatchSuffix(b + e)))
  {
    RenamedStripsToStem(b, e, bid);
    SplitPlain(b, e);
    StripBatchSuffixNoToken(b + e);
    StandardStemOfPlain(b);
    SplitPlain(StandardStem(b), e);
    StripNoop(b);
    NormalizeSameStem(StandardStem(b), b, e);
  }

  /** Stripping the batch token from a stamped name leaves the standard stem and extension. */
  lemma RenamedStripsToStem(b: string, e: string, bid: string)
    requires PlainStem(b) && (e == "" || IsExtension(e)) && IsBatchId(bid)
    ensures StripBatchSuffix(RenameWithBatch(b + e, bid)) == StandardStem(b) + e
  {
    var sb := StandardStem(b);
    RenameOfPlain(b, e, bid);
    SplitInside(sb + "_", bid, 5, e);
    assert NoChar(sb, '/') && NoChar(sb, '.') by {
      StandardStemOfPlain(b);
    }
    BatchIdParts(bid);
    StripBatchSuffixRemovesToken(sb, bid[..5], bid[5..], e);
  }

  lemma SplitInside(x: string, y: string, k: nat, z: string)
    requires k <= |y|
    ensures x + y + z == x + y[..k] + y[k..] + z
  {
    assert y == y[..k] + y[k..];
  }

  lemma NormalizeSameStem(sb: string, b: string, e: string)
    requires SplitExt(sb + e) == (sb, e) && SplitExt(b + e) == (b, e)
    requires Strip(sb) == sb && Strip(b) == b && Canon(sb) == Canon(b)
    ensures NormalizeFileName(Some(sb + e)) == NormalizeFileName(Some(b + e))
  {
    assert NormalizeFileName(Some(sb + e)) == Canon(Strip(sb));
    assert NormalizeFileName(Some(b + e)) == Canon(Strip(b));
  }

  /** No match of `BATCH\d{6}` can cover an underscore. */
  lemma NoTokenOverUnderscore(r: string, u: int, j: int)
    requires j <= u < j + 11
    ensures TokenAt(r, j) ==> r[u] != '_'
  {
    if TokenAt(r, j) {
      if u < j + 5 {
        var w := r[j..j + 5];
        assert w[u - j] == r[u];
        assert Upper(w)[u - j] == UpperChar(r[u]);
        assert "BATCH"[u - j] != '_';
      } else {
        assert r[j + 5..j + 11][u - j - 5] == r[u];
      }
    }
  }

  /** A match inside the standard stem is a match inside the original stem: the stem's
    * rewriting only produces underscores, which no match covers. */
  lemma TokenInStandardStem(sb: string, b: string, r: string, j: int)
    requires |sb| == |b| && (forall i :: 0 <= i < |b| ==> sb[i] == b[i] || sb[i] == '_')
    requires |sb| <= |r| && r[..|sb|] == sb
    requires 0 <= j && j + 11 <= |sb| && TokenAt(r, j)
    ensures TokenAt(b, j)
  {
    forall i | j <= i < j + 11 ensures r[i] == b[i] {
      assert r[i] == sb[i];
      NoTokenOverUnderscore(r, i, j);
    }
    assert r[j..j + 5] == b[j..j + 5] && r[j + 5..j + 11] == b[j + 5..j + 11];
  }

  lemma UpperOfBatchId(bid: string)
    requires IsBatchId(bid)
    ensures Upper(bid) == bid
  {
    forall i | 0 <= i < |bid| ensures UpperChar(bid[i]) == bid[i] {
      if i < 5 { assert bid[i] == "BATCH"[i]; } else { assert bid[5..][i - 5] == bid[i]; }
    }
  }

  lemma ExtractFirstToken(r: string, at: nat)
    requires TokenAt(r, at) && forall j :: 0 <= j < at ==> !TokenAt(r, j)
    ensures ExtractBatchId(r) == Some(Upper(r[at..at + 11]))
  {
    var found := FindToken(r, 0);
    assert found == Some(at);
  }

  lemma NoTokenInStampedStem(sb: string, b: string, r: string)
    requires |sb| == |b| && (forall i :: 0 <= i < |b| ==> sb[i] == b[i] || sb[i] == '_')
    requires ExtractBatchId(b).None? && |sb| < |r| && r[..|sb|] == sb && r[|sb|] == '_'
    ensures forall j :: 0 <= j <= |sb| ==> !TokenAt(r, j)
  {
    forall j | 0 <= j <= |sb| ensures !TokenAt(r, j) {
      if j + 11 <= |sb| {
        if TokenAt(r, j) { TokenInStandardStem(sb, b, r, j); }
      } else {
        NoTokenOverUnderscore(r, |sb|, j);
      }
    }
  }

  lemma TokenAtStamp(sb: string, bid: string, e: string)
    requires IsBatchId(bid)
    ensures var r := sb + "_" + bid + e;
            TokenAt(r, |sb| + 1) && Upper(r[|sb| + 1..|sb| + 12]) == bid
  {
    var r := sb + "_" + bid + e;
    var at := |sb| + 1;
    assert r[at..at + 11] == bid;
    assert r[at..at + 5] == bid[..5] && r[at + 5..at + 11] == bid[5..];
    UpperOfBatchId(bid);
    UpperOfBatch();
  }

  /** Every stage that recovers the batch from a file name finds the batch the orchestrator
    * stamped into the name, provided the original stem held no batch token of its own. */
  lemma RenamedFileNamesItsBatch(b: string, e: string, bid: string)
    requires PlainStem(b) && (e == "" || IsExtension(e)) && IsBatchId(bid) && ExtractBatchId(b).None?
    ensures ExtractBatchId(RenameWithBatch(b + e, bid)) == Some(bid)
  {
    RenameOfPlain(b, e, bid);
    StandardStemOfPlain(b);
    StampedNameNamesItsBatch(StandardStem(b), b, e, bid);
  }

  lemma RenameOfPlain(b: string, e: string, bid: string)
    requires PlainStem(b) && (e == "" || IsExtension(e))
    ensures RenameWithBatch(b + e, bid) == StandardStem(b) + "_" + bid + e
  {
    SplitPlain(b, e);
  }

  lemma StampedNameNamesItsBatch(sb: string, b: string, e: string, bid: string)
    requires |sb| == |b| && (forall i :: 0 <= i < |b| ==> sb[i] == b[i] || sb[i] == '_')
    requires IsBatchId(bid) && ExtractBatchId(b).None?
    ensures ExtractBatchId(sb + "_" + bid + e) == Some(bid)
  {
    var r := sb + "_" + bid + e;
    assert r[..|sb|] == sb && r[|sb|] == '_';
    NoTokenInStampedStem(sb, b, r);
    TokenAtStamp(sb, bid, e);
    ExtractFirstToken(r, |sb| + 1);
  }

  lemma CanonFixes(r: string)
    requires forall i :: 0 <= i < |r| ==> r[i] != ' ' && r[i] != '-' && !IsAsciiUpper(r[i])
    ensures Canon(r) == r
  {
  }

  /** Canonicalising never turns a non-space character into a space. */
  lemma CanonKeepsNonSpace(t: string, i: nat)
    requires i < |t| && !IsSpace(t[i])
    ensures !IsSpace(Canon(t)[i])
  {
    var l := Lower(t);
    var u := ReplaceChar(l, ' ', '_');
    assert l[i] == LowerChar(t[i]);
    assert u[i] == if l[i] == ' ' then '_' else l[i];
    assert Canon(t)[i] == if u[i] == '-' then '_' else u[i];
  }

  /** A normalised column name neither starts nor ends with whitespace. */
  lemma NormalizeColumnEnds(s: Option<string>)
    ensures var r := NormalizeColumnName(s);
            |r| == 0 || (!IsSpace(r[0]) && !IsSpace(r[|r| - 1]))
  {
    if s.Some? {
      CanonKeepsEnds(Strip(s.value));
    }
  }

  lemma CanonKeepsEnds(t: string)
    requires |t| == 0 || (!IsSpace(t[0]) && !IsSpace(t[|t| - 1]))
    ensures var r := Canon(t);
            |r| == 0 || (!IsSpace(r[0]) && !IsSpace(r[|r| - 1]))
  {
    if |t| > 0 {
      CanonKeepsNonSpace(t, 0);
      CanonKeepsNonSpace(t, |t| - 1);
    }
  }

  /** A name already canonical and without surrounding whitespace is its own key. */
  lemma NormalizeColumnFixes(r: string)
    requires |r| == 0 || (!IsSpace(r[0]) && !IsSpace(r[|r| - 1]))
    requires forall i :: 0 <= i < |r| ==> r[i] != ' ' && r[i] != '-' && !IsAsciiUpper(r[i])
    ensures NormalizeColumnName(Some(r)) == r
  {
    StripNoop(r);
    CanonFixes(r);
  }

  /** The stage scripts' column normaliser is idempotent: a normalised name is its own key. */
  lemma NormalizeColumnIdempotent(s: Option<string>)
    ensures NormalizeColumnName(Some(NormalizeColumnName(s))) == NormalizeColumnName(s)
  {
    NormalizeColumnEnds(s);
    NormalizeColumnFixes(NormalizeColumnName(s));
  }

  lemma DropStampedToken(x: string, bid: string)
    requires IsBatchId(bid)
    ensures DropTrailingToken(x + "_" + bid) == x
  {
    var s := x + "_" + bid;
    TokenAtStamp(x, bid, "");
    assert s + "" == s;
    assert EndsWithToken(s);
    assert s[|x|] == '_' && s[..|x|] == x;
  }

  /** The converter's matching key ignores the batch stamp: a stamped name keys like its
    * stem, whatever batch stamped it. */
  lemma NormalizeForMatchIgnoresStamp(x: string, bid: string, e: string)
    requires IsBatchId(bid) && IsExtension(e) && NoChar(x, '/')
    ensures NormalizeForMatch(Some(x + "_" + bid + e)) == Lower(Strip(x))
  {
    var name := x + "_" + bid;
    BatchIdParts(bid);
    TokenNameSplit(x, bid[..5], bid[5..], e);
    assert x + "_" + bid[..5] + bid[5..] + e == x + "_" + bid + e;
    assert x + "_" + bid[..5] + bid[5..] == name;
    DropStampedToken(x, bid);
  }
}
