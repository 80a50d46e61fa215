// Where the silver and gold stages record which procedures they ran inside the batch
// file: the first run writes `<base>`, every later run the first free
// `<base>_rerun<N>`, so that no earlier record is ever overwritten.
module ProcedureKeys {
  import opened PyStrings
  import opened Json

  /** The key silver_clean_transform writes. */
  const TransformationKey := "transformation_procedure"
  /** The key gold_integration writes. */
  const IntegrationKey := "integration_procedure"

  /** `f"{base}_rerun{n}"` */
  function RerunKey(base: string, n: nat): string {
    base + "_rerun" + ToDecimal(n)
  }

  lemma RerunKeyInjective(base: string, m: nat, n: nat)
    requires RerunKey(base, m) == RerunKey(base, n)
    ensures m == n
  {
    var p := base + "_rerun";
    assert ToDecimal(m) == RerunKey(base, m)[|p|..];
    assert ToDecimal(n) == RerunKey(base, n)[|p|..];
    ToDecimalInjective(m, n);
  }

  lemma RerunKeyIsNotBase(base: string, n: nat)
    ensures RerunKey(base, n) != base
  {
    assert |RerunKey(base, n)| > |base|;
  }

  /** The rerun keys with numbers 1..m. */
  ghost function RerunKeys(base: string, m: nat): set<string> {
    set n | 1 <= n <= m :: RerunKey(base, n)
  }

  lemma {:induction false} RerunKeysCount(base: string, m: nat)
    ensures |RerunKeys(base, m)| == m
  {
    if m > 0 {
      RerunKeysCount(base, m - 1);
      assert RerunKeys(base, m) == RerunKeys(base, m - 1) + {RerunKey(base, m)};
      if RerunKey(base, m) in RerunKeys(base, m - 1) {
        var n :| 1 <= n <= m - 1 && RerunKey(base, n) == RerunKey(base, m);
        RerunKeyInjective(base, n, m);
      }
    } else {
      assert RerunKeys(base, 0) == {};
    }
  }

  /** A key set holding the rerun keys 1..m has at least m keys: the search below ends. */
  lemma FreeBound(keys: set<string>, base: string, m: nat)
    requires forall n :: 1 <= n <= m ==> RerunKey(base, n) in keys
    ensures m <= |keys|
  {
    var taken := RerunKeys(base, m);
    RerunKeysCount(base, m);
    assert taken <= keys;
    assert keys == taken + (keys - taken);
  }

  /** The smallest `N >= from` whose rerun key is free, all below it being taken. */
  function FreeIndex(keys: set<string>, base: string, from: nat): (n: nat)
    requires from >= 1
    requires forall j :: 1 <= j < from ==> RerunKey(base, j) in keys
    ensures n >= from && RerunKey(base, n) !in keys
    ensures forall j :: 1 <= j < n ==> RerunKey(base, j) in keys
    decreases |keys| + 1 - from
  {
    if RerunKey(base, from) !in keys then from
    else
      FreeBound(keys, base, from);
      FreeIndex(keys, base, from + 1)
  }

  /**
   * The key a run's procedure list is written under, given the keys already present:
   * the base key on the first run, otherwise `<base>_rerun<N>` for the least N >= 1 not
   * yet used. Either way the key is fresh, so no earlier record is overwritten.
   */
  function ProcedureKey(keys: set<string>, base: string): (k: string)
    ensures k !in keys
    ensures base !in keys ==> k == base
    ensures base in keys ==>
              exists n: nat ::
                && n >= 1
                && k == RerunKey(base, n)
                && (forall j :: 1 <= j < n ==> RerunKey(base, j) in keys)
  {
    if base !in keys then base else RerunKey(base, FreeIndex(keys, base, 1))
  }

  /**
   * Starting from a batch file without the base key, k successive runs record their
   * lists under the base key and then `_rerun1` .. `_rerun<k-1>`, in that order.
   */
  lemma {:induction false} SuccessiveRuns(keys: set<string>, base: string, k: nat)
    requires base !in keys
    requires forall n :: n >= 1 ==> RerunKey(base, n) !in keys
    ensures ProcedureKey(keys, base) == base
    ensures k >= 1 ==> ProcedureKey(keys + {base} + RerunKeys(base, k - 1), base) == RerunKey(base, k)
  {
    if k >= 1 {
      var after := keys + {base} + RerunKeys(base, k - 1);
      forall j | 1 <= j < k ensures RerunKey(base, j) in after {
        assert RerunKey(base, j) in RerunKeys(base, k - 1);
      }
      assert RerunKey(base, k) !in after by {
        if RerunKey(base, k) in RerunKeys(base, k - 1) {
          var n :| 1 <= n <= k - 1 && RerunKey(base, n) == RerunKey(base, k);
          RerunKeyInjective(base, n, k);
        }
        RerunKeyIsNotBase(base, k);
      }
      FreeIndexFinds(after, base, 1, k);
    }
  }

  lemma {:induction false} FreeIndexFinds(keys: set<string>, base: string, from: nat, k: nat)
    requires 1 <= from <= k
    requires forall j :: 1 <= j < k ==> RerunKey(base, j) in keys
    requires RerunKey(base, k) !in keys
    ensures FreeIndex(keys, base, from) == k
    decreases k - from
  {
    if from < k {
      FreeBound(keys, base, from);
      FreeIndexFinds(keys, base, from + 1, k);
    }
  }

  /** The batch file a stage keeps in its `incoming` folder, as a JSON object. */
  class BatchFile {
    var data: map<string, Value>

    constructor(data: map<string, Value>)
      ensures this.data == data
    {
      this.data := data;
    }

    /** Records the list of procedures a run executed under the next free key. */
    method RecordProcedures(base: string, procedures: seq<string>) returns (key: string)
      modifies this
      ensures key == ProcedureKey(old(data).Keys, base)
      ensures key !in old(data)
      ensures data == old(data)[key := Names(procedures)]
    {
      var d := data;
      var keys := d.Keys;
      if base !in keys {
        key := base;
      } else {
        var i: nat := 1;
        while RerunKey(base, i) in keys
          invariant i >= 1
          invariant forall j :: 1 <= j < i ==> RerunKey(base, j) in keys
          invariant FreeIndex(keys, base, i) == FreeIndex(keys, base, 1)
          decreases |keys| + 1 - i
        {
          FreeBound(keys, base, i);
          i := i + 1;
        }
        key := RerunKey(base, i);
      }
      data := d[key := Names(procedures)];
    }
  }
}
