// Batch identifiers: the `BATCH` + six digits token, how the stages recover it from a file
// name, and how the orchestrator advances it (handlers/batch_processing.py,
// handlers/convert_to_parquet.py, scripts/load_to_bronze.py, scripts/validate_mapping.py,
// scripts/validate_row.py).
module BatchTokens {
  import opened Optional
  import opened PyStrings

  /** A canonical batch identifier: `BATCH` followed by exactly six ASCII digits. */
  predicate IsBatchId(t: string) {
    |t| == 11 && t[..5] == "BATCH" && AllDigits(t[5..])
  }

  /** The regular expression `BATCH\d{6}` (case-insensitive) matches at index `i`. */
  predicate TokenAt(s: string, i: int) {
    0 <= i && i + 11 <= |s| && Upper(s[i..i + 5]) == "BATCH" && AllDigits(s[i + 5..i + 11])
  }

  function FindToken(s: string, from: nat): (r: Option<nat>)
    ensures r.Some? ==> from <= r.value && TokenAt(s, r.value)
    ensures r.Some? ==> forall j :: from <= j < r.value ==> !TokenAt(s, j)
    ensures r.None? ==> forall j :: from <= j ==> !TokenAt(s, j)
    decreases |s| - from
  {
    if from + 11 > |s| then None
    else if TokenAt(s, from) then Some(from)
    else FindToken(s, from + 1)
  }

  /** `extract_batch_id`: the first case-insensitive match of `BATCH\d{6}`, upper-cased. */
  function ExtractBatchId(s: string): (r: Option<string>)
    ensures r.Some? <==> exists i :: TokenAt(s, i)
    ensures r.Some? ==> IsBatchId(r.value)
    ensures r.Some? ==> exists i :: TokenAt(s, i) && r.value == Upper(s[i..i + 11])
                                    && forall j :: 0 <= j < i ==> !TokenAt(s, j)
  {
    match FindToken(s, 0)
    case None => None
    case Some(i) =>
      var t := Upper(s[i..i + 11]);
      assert t[..5] == Upper(s[i..i + 5]);
      Some(t)
  }

  /** The part of an identifier kept by `increment_batch_id`: everything before its last six
    * characters, or `BATCH` when there is nothing before them. */
  function KeptPrefix(batchId: Option<string>): string
  {
    if batchId.Some? && |batchId.value| > 6 then batchId.value[..|batchId.value| - 6] else "BATCH"
  }

  /** The counter `increment_batch_id` reads: Python's `int()` of the last six characters,
    * 0 when it raises or when the identifier is shorter than six. */
  function CounterOf(batchId: Option<string>): int
  {
    if batchId.Some? && |batchId.value| >= 6 then
      match PyInt(batchId.value[|batchId.value| - 6..])
      case None => 0
      case Some(n) => n
    else 0
  }

  /** `increment_batch_id`: the kept prefix followed by the next counter value rendered
    * with `:06d`. */
  function IncrementBatchId(batchId: Option<string>): string
  {
    KeptPrefix(batchId) + Format06(CounterOf(batchId) + 1)
  }

  lemma KeptPrefixOfCanonical(p: string, d: string)
    requires |p| > 0 && |d| == 6
    ensures KeptPrefix(Some(p + d)) == p
  {
    var s := p + d;
    assert s[..|s| - 6] == p;
  }

  lemma CounterOfCanonical(p: string, d: string)
    requires |p| > 0 && |d| == 6 && AllDigits(d)
    ensures CounterOf(Some(p + d)) == DigitsValue(d)
  {
    var s := p + d;
    assert s[|s| - 6..] == d;
    PyIntOfDigits(d);
  }

  /** An identifier of the form P + six digits advances to P + the next six-digit number. */
  lemma IncrementCanonical(p: string, d: string)
    requires |p| > 0 && |d| == 6 && AllDigits(d)
    ensures IncrementBatchId(Some(p + d)) == p + Format06(DigitsValue(d) + 1)
  {
    CounterOfCanonical(p, d);
    IncrementFromCounter(p, d, DigitsValue(d));
  }

  lemma {:induction false} DigitsValueBound(d: string)
    requires AllDigits(d)
    ensures 0 <= DigitsValue(d) < Pow10(|d|)
    decreases |d|
  {
    if |d| > 0 { DigitsValueBound(d[..|d| - 1]); }
  }

  /** Below the millionth batch, advancing keeps the P + six digits shape and adds exactly
    * one to the number those digits denote. */
  lemma IncrementKeepsShape(p: string, d: string)
    requires |p| > 0 && |d| == 6 && AllDigits(d) && DigitsValue(d) + 1 < 1000000
    ensures var r := IncrementBatchId(Some(p + d));
            |r| == |p| + 6 && r[..|p|] == p && AllDigits(r[|p|..]) && DigitsValue(r[|p|..]) == DigitsValue(d) + 1
  {
    IncrementCanonical(p, d);
    DigitsValueBound(d);
    Format06Digits(DigitsValue(d) + 1);
    var r := IncrementBatchId(Some(p + d));
    assert r[|p|..] == Format06(DigitsValue(d) + 1);
  }

  /** Two successive increments of P + six digits add two. */
  lemma IncrementTwice(p: string, d: string)
    requires |p| > 0 && |d| == 6 && AllDigits(d) && DigitsValue(d) + 2 < 1000000
    ensures IncrementBatchId(Some(IncrementBatchId(Some(p + d)))) == p + Format06(DigitsValue(d) + 2)
  {
    IncrementKeepsShape(p, d);
    var r := IncrementBatchId(Some(p + d));
    assert r == p + r[|p|..];
    IncrementCanonical(p, r[|p|..]);
  }

  lemma Format06One()
    ensures Format06(1) == "000001"
  {
    assert DigitChar(1) == '1';
    assert ToDecimal(1) == "1";
    assert Repeat('0', 5) == "00000" by {
      assert Repeat('0', 1) == "0";
      assert Repeat('0', 2) == "00";
      assert Repeat('0', 3) == "000";
      assert Repeat('0', 4) == "0000";
    }
  }

  /** A client without a previous batch starts from `BATCH000000`, so its first batch is
    * `BATCH000001`. */
  lemma FirstBatchId()
    ensures IncrementBatchId(Some("BATCH000000")) == "BATCH000001"
  {
    BatchLiterals();
    ZeroCounter();
    CounterOfCanonical("BATCH", "000000");
    IncrementFromCounter("BATCH", "000000", 0);
    Format06One();
  }

  /** P + six characters advances to P + the rendering of the counter read from them, plus one. */
  lemma IncrementFromCounter(p: string, t: string, c: int)
    requires |p| > 0 && |t| == 6 && CounterOf(Some(p + t)) == c
    ensures IncrementBatchId(Some(p + t)) == p + Format06(c + 1)
  {
    KeptPrefixOfCanonical(p, t);
  }

  lemma BatchLiterals()
    ensures "BATCH000000" == "BATCH" + "000000"
    ensures "BATCH000001" == "BATCH" + "000001"
  {
  }

  lemma ZeroCounter()
    ensures AllDigits("000000") && DigitsValue("000000") == 0
  {
    LeadingZeros(6, "");
    assert Repeat('0', 6) + "" == "000000";
  }

  /** An absent or empty identifier also advances to `BATCH000001`. */
  lemma IncrementFromNothing()
    ensures IncrementBatchId(None) == "BATCH000001"
    ensures IncrementBatchId(Some("")) == "BATCH000001"
  {
    Format06One();
    BatchLiterals();
    assert KeptPrefix(None) == "BATCH" == KeptPrefix(Some(""));
    assert CounterOf(None) == 0 == CounterOf(Some(""));
  }

  /** A tail that Python's `int()` rejects counts as zero. */
  lemma IncrementNonNumericTail(p: string, t: string)
    requires |p| > 0 && |t| == 6 && PyInt(t).None?
    ensures IncrementBatchId(Some(p + t)) == p + "000001"
  {
    var s := p + t;
    assert s[|s| - 6..] == t;
    assert CounterOf(Some(s)) == 0;
    IncrementFromCounter(p, t, 0);
    Format06One();
  }
}
