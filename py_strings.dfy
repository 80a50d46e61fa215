// The Python `str` built-ins the pipeline's name handling relies on, stated over `seq<char>`.
// Case mapping covers ASCII letters only; whitespace is Python's `str.isspace` set.
module PyStrings {
  import opened Optional

  /** Python's `str.isspace` on one character. */
  predicate IsSpace(c: char) {
    c == ' ' || ('\t' <= c <= '\r') || ('\U{1C}' <= c <= '\U{1F}') || c == '\U{85}' || c == '\U{A0}'
    || c == '\U{1680}' || ('\U{2000}' <= c <= '\U{200A}') || c == '\U{2028}' || c == '\U{2029}'
    || c == '\U{202F}' || c == '\U{205F}' || c == '\U{3000}'
  }

  predicate IsAsciiUpper(c: char) { 'A' <= c <= 'Z' }

  predicate IsAsciiLower(c: char) { 'a' <= c <= 'z' }

  predicate IsAsciiDigit(c: char) { '0' <= c <= '9' }

  function LowerChar(c: char): (r: char)
    ensures !IsAsciiUpper(r)
    ensures IsAsciiDigit(r) <==> IsAsciiDigit(c)
  {
    if IsAsciiUpper(c) then (c as int + 32) as char else c
  }

  function UpperChar(c: char): (r: char)
    ensures !IsAsciiLower(r)
    ensures IsAsciiDigit(r) <==> IsAsciiDigit(c)
  {
    if IsAsciiLower(c) then (c as int - 32) as char else c
  }

  /** `s.lower()` */
  function Lower(s: string): (r: string)
    ensures |r| == |s| && forall i :: 0 <= i < |s| ==> r[i] == LowerChar(s[i])
  {
    seq(|s|, i requires 0 <= i < |s| => LowerChar(s[i]))
  }

  /** `s.upper()` */
  function Upper(s: string): (r: string)
    ensures |r| == |s| && forall i :: 0 <= i < |s| ==> r[i] == UpperChar(s[i])
  {
    seq(|s|, i requires 0 <= i < |s| => UpperChar(s[i]))
  }

  /** `s.rstrip()`: the longest prefix that does not end in whitespace. */
  function RStrip(s: string): (r: string)
    ensures |r| <= |s| && r == s[..|r|]
    ensures |r| == 0 || !IsSpace(r[|r| - 1])
    ensures forall i :: |r| <= i < |s| ==> IsSpace(s[i])
  {
    if |s| > 0 && IsSpace(s[|s| - 1]) then RStrip(s[..|s| - 1]) else s
  }

  /** `s.lstrip()`: the longest suffix that does not start with whitespace. */
  function LStrip(s: string): (r: string)
    ensures |r| <= |s| && r == s[|s| - |r|..]
    ensures |r| == 0 || !IsSpace(r[0])
    ensures forall i :: 0 <= i < |s| - |r| ==> IsSpace(s[i])
  {
    if |s| > 0 && IsSpace(s[0]) then LStrip(s[1..]) else s
  }

  /** `s.strip()` */
  function Strip(s: string): (r: string)
    ensures |r| == 0 || (!IsSpace(r[0]) && !IsSpace(r[|r| - 1]))
  {
    LStrip(RStrip(s))
  }

  /** `s.lstrip(c)` for a single character `c`. */
  function LStripChar(s: string, c: char): (r: string)
    ensures |r| <= |s| && r == s[|s| - |r|..]
    ensures |r| == 0 || r[0] != c
    ensures forall i :: 0 <= i < |s| - |r| ==> s[i] == c
  {
    if |s| > 0 && s[0] == c then LStripChar(s[1..], c) else s
  }

  /** `s.replace(a, b)` for single characters. */
  function ReplaceChar(s: string, a: char, b: char): (r: string)
    ensures |r| == |s| && forall i :: 0 <= i < |s| ==> r[i] == (if s[i] == a then b else s[i])
  {
    seq(|s|, i requires 0 <= i < |s| => if s[i] == a then b else s[i])
  }

  predicate StartsWith(s: string, p: string) { |p| <= |s| && s[..|p|] == p }

  predicate EndsWith(s: string, p: string) { |p| <= |s| && s[|s| - |p|..] == p }

  /** `t` occurs in `s` starting at index `i`. */
  predicate OccursAt(s: string, t: string, i: int) {
    0 <= i && i + |t| <= |s| && s[i..i + |t|] == t
  }

  /** `t in s` for strings. */
  predicate Contains(s: string, t: string) {
    exists i :: 0 <= i <= |s| && OccursAt(s, t, i)
  }

  /** `s.replace(pat, rep)`: every non-overlapping occurrence, scanned from the left. */
  function Replace(s: string, pat: string, rep: string): (r: string)
    requires |pat| > 0
    decreases |s|
  {
    if |s| < |pat| then s
    else if s[..|pat|] == pat then rep + Replace(s[|pat|..], pat, rep)
    else [s[0]] + Replace(s[1..], pat, rep)
  }

  /** `s.split(sep)[-1]`: the text after the last occurrence of `sep`, or all of `s`. The
    * search runs from the right, which agrees with Python's left-to-right split for a
    * separator that cannot overlap itself. */
  function AfterLast(s: string, sep: string): (r: string)
    requires |sep| > 0
    ensures |r| <= |s| && r == s[|s| - |r|..]
    decreases |s|
  {
    if |s| < |sep| then s
    else if EndsWith(s, sep) then ""
    else AfterLast(s[..|s| - 1], sep) + [s[|s| - 1]]
  }

  /** `s.rfind(c)`: the last index holding `c`, or -1. */
  function LastIndexOf(s: string, c: char): (r: int)
    ensures -1 <= r < |s|
    ensures r >= 0 ==> s[r] == c
    ensures forall i :: r < i < |s| ==> s[i] != c
  {
    if |s| == 0 then -1 else if s[|s| - 1] == c then |s| - 1 else LastIndexOf(s[..|s| - 1], c)
  }

  predicate HasNonDotBetween(p: string, lo: int, hi: int)
    requires -1 <= lo && hi <= |p|
  {
    exists k :: lo < k < hi && p[k] != '.'
  }

  /** POSIX `os.path.splitext(p)`: the extension starts at the last dot of the last path
    * component, unless every character before that dot in the component is a dot. */
  function SplitExt(p: string): (r: (string, string))
    ensures r.0 + r.1 == p
    ensures r.1 == "" || (r.1[0] == '.' && forall i :: 1 <= i < |r.1| ==> r.1[i] != '.' && r.1[i] != '/')
  {
    var sep := LastIndexOf(p, '/');
    var dot := LastIndexOf(p, '.');
    if dot > sep && HasNonDotBetween(p, sep, dot) then (p[..dot], p[dot..]) else (p, "")
  }

  predicate AllDigits(s: string) { forall i :: 0 <= i < |s| ==> IsAsciiDigit(s[i]) }

  /** `s.isdigit()` */
  predicate IsDigits(s: string) { |s| > 0 && AllDigits(s) }

  function DigitValue(c: char): int { c as int - '0' as int }

  function DigitChar(d: int): (c: char)
    requires 0 <= d < 10
    ensures IsAsciiDigit(c) && DigitValue(c) == d
  {
    ('0' as int + d) as char
  }

  /** The number an ASCII digit string denotes. */
  function DigitsValue(s: string): int
  {
    if |s| == 0 then 0 else DigitsValue(s[..|s| - 1]) * 10 + DigitValue(s[|s| - 1])
  }

  /** `str(n)` for a natural number. */
  function ToDecimal(n: nat): (r: string)
    ensures |r| > 0 && AllDigits(r) && DigitsValue(r) == n
    decreases n
  {
    if n < 10 then [DigitChar(n)] else ToDecimal(n / 10) + [DigitChar(n % 10)]
  }

  function Pow10(k: nat): (p: nat)
    ensures p >= 1
  {
    if k == 0 then 1 else 10 * Pow10(k - 1)
  }

  function Repeat(c: char, k: nat): (r: string)
    ensures |r| == k && forall i :: 0 <= i < k ==> r[i] == c
  {
    if k == 0 then "" else [c] + Repeat(c, k - 1)
  }

  function PadLeft(s: string, width: nat, c: char): (r: string)
    ensures |r| == if |s| >= width then |s| else width
    ensures forall i :: 0 <= i < |r| - |s| ==> r[i] == c
    ensures r[|r| - |s|..] == s
  {
    if |s| >= width then s else Repeat(c, width - |s|) + s
  }

  /** Python `f"{n:06d}"`: zero-padded to width six, the sign counting towards the width. */
  function Format06(n: int): string
  {
    if n >= 0 then PadLeft(ToDecimal(n), 6, '0') else "-" + PadLeft(ToDecimal(-n), 5, '0')
  }

  function RemoveUnderscores(s: string): (r: string)
    ensures |r| <= |s|
  {
    if |s| == 0 then "" else RemoveUnderscores(s[..|s| - 1]) + (if s[|s| - 1] == '_' then "" else [s[|s| - 1]])
  }

  /** Digits with single underscores between them, as Python's `int()` accepts. */
  predicate DigitGroups(b: string) {
    |b| > 0 && IsAsciiDigit(b[0]) && IsAsciiDigit(b[|b| - 1])
    && (forall i :: 0 <= i < |b| ==> IsAsciiDigit(b[i]) || b[i] == '_')
    && (forall i :: 0 <= i < |b| - 1 ==> b[i] == '_' ==> b[i + 1] != '_')
  }

  /** Python `int(s)` on a string, `None` where it raises `ValueError`. */
  function PyInt(s: string): Option<int>
  {
    var t := Strip(s);
    if |t| > 0 && (t[0] == '+' || t[0] == '-') then
      if DigitGroups(t[1..]) then
        var v := DigitsValue(RemoveUnderscores(t[1..]));
        Some(if t[0] == '-' then -v else v)
      else None
    else if DigitGroups(t) then Some(DigitsValue(RemoveUnderscores(t)))
    else None
  }

  /** `sep.join(parts)` */
  function Join(sep: string, parts: seq<string>): string
  {
    if |parts| == 0 then ""
    else if |parts| == 1 then parts[0]
    else Join(sep, parts[..|parts| - 1]) + sep + parts[|parts| - 1]
  }

  /** `s.split(c)` for a one-character separator: the pieces between the separators, empty
    * ones included, so there is always at least one. */
  function Split(s: string, c: char): (r: seq<string>)
    ensures |r| > 0
  {
    if |s| == 0 then [""]
    else
      var init := Split(s[..|s| - 1], c);
      if s[|s| - 1] == c then init + [""]
      else init[..|init| - 1] + [init[|init| - 1] + [s[|s| - 1]]]
  }

  /** Python's `<` on strings: code-point lexicographic order. */
  predicate StrLess(a: string, b: string)
    decreases |a|
  {
    if |a| == 0 then |b| > 0
    else if |b| == 0 then false
    else if a[0] != b[0] then a[0] < b[0]
    else StrLess(a[1..], b[1..])
  }

  // ---------------------------------------------------------------------------------------
  // Facts about the built-ins used by the pipeline's lemmas.

  lemma {:induction false} LeadingZero(s: string)
    ensures DigitsValue("0" + s) == DigitsValue(s)
    decreases |s|
  {
    if |s| > 0 {
      assert ("0" + s)[..|s|] == "0" + s[..|s| - 1];
      LeadingZero(s[..|s| - 1]);
    }
  }

  lemma {:induction false} LeadingZeros(k: nat, s: string)
    ensures DigitsValue(Repeat('0', k) + s) == DigitsValue(s)
    decreases k
  {
    if k > 0 {
      var t := Repeat('0', k - 1) + s;
      assert Repeat('0', k) + s == "0" + t;
      LeadingZero(t);
      LeadingZeros(k - 1, s);
      assert DigitsValue(Repeat('0', k) + s) == DigitsValue("0" + t) == DigitsValue(t);
    } else {
      assert Repeat('0', k) + s == s;
    }
  }

  lemma {:induction false} ToDecimalLength(n: nat, k: nat)
    requires k >= 1 && n < Pow10(k)
    ensures |ToDecimal(n)| <= k
    decreases n
  {
    if n >= 10 {
      assert k >= 2;
      ToDecimalLength(n / 10, k - 1);
    }
  }

  /** Six zero-padded digits for every number below a million; they denote that number. */
  lemma Format06Digits(n: int)
    requires 0 <= n < 1000000
    ensures |Format06(n)| == 6 && AllDigits(Format06(n)) && DigitsValue(Format06(n)) == n
  {
    assert Pow10(6) == 1000000;
    ToDecimalLength(n, 6);
    var d := ToDecimal(n);
    if |d| < 6 {
      assert Format06(n) == Repeat('0', 6 - |d|) + d;
      ZeroPadded(6 - |d|, d);
    }
  }

  /** Leading zeros keep a digit string a digit string denoting the same number. */
  lemma ZeroPadded(k: nat, d: string)
    requires AllDigits(d)
    ensures var r := Repeat('0', k) + d;
            |r| == k + |d| && AllDigits(r) && DigitsValue(r) == DigitsValue(d)
  {
    LeadingZeros(k, d);
    var r := Repeat('0', k) + d;
    forall i | 0 <= i < |r| ensures IsAsciiDigit(r[i]) {
      if i >= k { assert r[i] == d[i - k]; }
    }
  }

  lemma {:induction false} RemoveUnderscoresNoop(s: string)
    requires AllDigits(s)
    ensures RemoveUnderscores(s) == s
    decreases |s|
  {
    if |s| > 0 {
      RemoveUnderscoresNoop(s[..|s| - 1]);
      assert s == s[..|s| - 1] + [s[|s| - 1]];
    }
  }

  lemma StripNoop(s: string)
    requires |s| == 0 || (!IsSpace(s[0]) && !IsSpace(s[|s| - 1]))
    ensures Strip(s) == s
  {
  }

  /** `int()` of a non-empty ASCII digit string is the number it denotes. */
  lemma PyIntOfDigits(s: string)
    requires IsDigits(s)
    ensures PyInt(s) == Some(DigitsValue(s))
  {
    assert IsAsciiDigit(s[0]) && IsAsciiDigit(s[|s| - 1]);
    StripNoop(s);
    assert s[0] != '+' && s[0] != '-';
    assert DigitGroups(s);
    RemoveUnderscoresNoop(s);
  }

  /** Decimal rendering is injective, so distinct numbers give distinct names. */
  lemma ToDecimalInjective(m: nat, n: nat)
    requires ToDecimal(m) == ToDecimal(n)
    ensures m == n
  {
  }

  lemma {:induction false} StrLessIrreflexive(a: string)
    ensures !StrLess(a, a)
    decreases |a|
  {
    if |a| > 0 { StrLessIrreflexive(a[1..]); }
  }

  lemma {:induction false} StrLessTransitive(a: string, b: string, c: string)
    requires StrLess(a, b) && StrLess(b, c)
    ensures StrLess(a, c)
    decreases |a|
  {
    if |a| > 0 && |b| > 0 && |c| > 0 && a[0] == b[0] && b[0] == c[0] {
      StrLessTransitive(a[1..], b[1..], c[1..]);
    }
  }

  lemma {:induction false} StrLessTotal(a: string, b: string)
    requires a != b
    ensures StrLess(a, b) || StrLess(b, a)
    decreases |a|
  {
    if |a| > 0 && |b| > 0 && a[0] == b[0] {
      assert a[1..] != b[1..] by { assert a == [a[0]] + a[1..] && b == [b[0]] + b[1..]; }
      StrLessTotal(a[1..], b[1..]);
    }
  }

  lemma {:induction false} StrLessAsymmetric(a: string, b: string)
    requires StrLess(a, b)
    ensures !StrLess(b, a)
    decreases |a|
  {
    if |a| > 0 && |b| > 0 && a[0] == b[0] {
      StrLessAsymmetric(a[1..], b[1..]);
    }
  }

  /** An occurrence inside a prefix is an occurrence in the whole string. */
  lemma ContainsInPrefix(s: string, k: nat, t: string)
    requires k <= |s| && Contains(s[..k], t)
    ensures Contains(s, t)
  {
    var i :| 0 <= i <= k && OccursAt(s[..k], t, i);
    assert s[i..i + |t|] == t;
    assert OccursAt(s, t, i);
  }

  lemma ContainsAfterPrefix(p: string, s: string, t: string)
    requires Contains(s, t)
    ensures Contains(p + s, t)
  {
    var i :| 0 <= i <= |s| && OccursAt(s, t, i);
    assert (p + s)[|p| + i..|p| + i + |t|] == s[i..i + |t|];
    assert OccursAt(p + s, t, |p| + i);
  }

  lemma StartsWithConcat(p: string, s: string)
    ensures StartsWith(p + s, p)
  {
    assert (p + s)[..|p|] == p;
  }

  lemma EndsWithContains(s: string, t: string)
    requires EndsWith(s, t)
    ensures Contains(s, t)
  {
    assert OccursAt(s, t, |s| - |t|);
  }

  lemma {:induction false} ReplaceAbsent(s: string, pat: string, rep: string)
    requires |pat| > 0 && !Contains(s, pat)
    ensures Replace(s, pat, rep) == s
    decreases |s|
  {
    if |s| >= |pat| {
      assert !OccursAt(s, pat, 0);
      assert s[0..|pat|] == s[..|pat|];
      if Contains(s[1..], pat) {
        var i :| 0 <= i <= |s[1..]| && OccursAt(s[1..], pat, i);
        assert s[i + 1..i + 1 + |pat|] == pat;
        assert OccursAt(s, pat, i + 1);
      }
      ReplaceAbsent(s[1..], pat, rep);
    }
  }

  lemma LowerIdempotent(s: string)
    ensures Lower(Lower(s)) == Lower(s)
  {
  }

  lemma LowerConcat(a: string, b: string)
    ensures Lower(a + b) == Lower(a) + Lower(b)
  {
  }

  /** `c.join(s.split(c)) == s` */
  lemma {:induction false} JoinSplit(s: string, c: char)
    ensures Join([c], Split(s, c)) == s
  {
    if |s| > 0 {
      var init := Split(s[..|s| - 1], c);
      JoinSplit(s[..|s| - 1], c);
      var x := s[|s| - 1];
      if x == c {
        JoinNewPiece(init, [c]);
      } else {
        JoinExtendLast(init, [c], x);
      }
      assert s == s[..|s| - 1] + [x];
    }
  }

  lemma JoinNewPiece(parts: seq<string>, sep: string)
    requires |parts| > 0
    ensures Join(sep, parts + [""]) == Join(sep, parts) + sep
  {
    assert (parts + [""])[..|parts|] == parts;
  }

  lemma JoinExtendLast(parts: seq<string>, sep: string, x: char)
    requires |parts| > 0
    ensures Join(sep, parts[..|parts| - 1] + [parts[|parts| - 1] + [x]]) == Join(sep, parts) + [x]
  {
    var front := parts[..|parts| - 1];
    var r := front + [parts[|parts| - 1] + [x]];
    assert r[..|r| - 1] == front;
  }

  /** A last piece without the separator splits off on its own. */
  lemma {:induction false} SplitSnoc(p: string, c: char, d: string)
    requires forall i :: 0 <= i < |d| ==> d[i] != c
    ensures Split(p + [c] + d, c) == Split(p, c) + [d]
  {
    if |d| == 0 {
      assert (p + [c] + d)[..|p|] == p;
    } else {
      var d0 := d[..|d| - 1];
      SplitSnoc(p, c, d0);
      assert (p + [c] + d)[..|p + [c] + d| - 1] == p + [c] + d0;
      assert d0 + [d[|d| - 1]] == d;
    }
  }

  /** Replacing a pattern that ends the string, when no character before it can start the
    * pattern, swaps exactly that ending. */
  lemma {:induction false} ReplaceTail(d: string, pat: string, rep: string)
    requires |pat| > 0 && forall i :: 0 <= i < |d| ==> d[i] != pat[0]
    ensures Replace(d + pat, pat, rep) == d + rep
    decreases |d|
  {
    var s := d + pat;
    if d == [] {
      assert s[..|pat|] == pat && s[|pat|..] == [];
      assert Replace([], pat, rep) == [];
    } else {
      assert s[..|pat|][0] == d[0];
      ReplaceTail(d[1..], pat, rep);
      assert s[1..] == d[1..] + pat;
      assert [d[0]] + (d[1..] + rep) == d + rep;
    }
  }

  /** One character more that does not complete `sep` joins the text after it. */
  lemma AfterLastStep(s: string, sep: string)
    requires |sep| > 0 && |s| > 0 && !EndsWith(s, sep)
    ensures AfterLast(s, sep) == AfterLast(s[..|s| - 1], sep) + [s[|s| - 1]]
  {
    if |s| < |sep| {
      assert AfterLast(s[..|s| - 1], sep) == s[..|s| - 1];
      assert s == s[..|s| - 1] + [s[|s| - 1]];
    }
  }
}
