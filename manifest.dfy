// The batch manifest ("batch_info") file: one JSON document per client and batch, naming the
// client and batch at its top level and holding one entry per physical file. The
// orchestrator merges file entries into it, the converter records the Parquet artifact in
// it, and the orchestrator polls it for that record (handlers/batch_processing.py).
module Manifest {
  import opened Optional
  import opened Json

  /** The decoded document. */
  datatype Document = Document(clientSchema: Value, clientId: Value, batchId: Value, files: seq<Entry>)

  /** What reading the file yields: no file, a file that does not decode to a JSON object,
    * or a document. */
  datatype Stored = Missing | Unreadable | Stored(doc: Document)

  const PhysicalKey := "physical_file_name"
  const ParquetKey := "parquet_name"

  /** The file-level keys an upsert may write. */
  const AllowedKeys: set<string> := {
    "physical_file_name", "logical_source_file", "source_system", "source_type",
    "target_schema", "target_table", "source_config", "parquet_name"
  }

  /** The skeleton the orchestrator's upsert starts from when it cannot read a document. */
  const NullSkeleton := Document(Null, Null, Null, [])

  /** `{k: v for k, v in new_entry.items() if k in allowed_keys}` */
  function CleanEntry(e: Entry): (c: Entry)
    ensures c.Keys <= AllowedKeys && c.Keys <= e.Keys
    ensures forall k :: k in c ==> c[k] == e[k]
    ensures forall k :: k in e && k in AllowedKeys ==> k in c
  {
    map k | k in e && k in AllowedKeys :: e[k]
  }

  /** `str(f.get("physical_file_name"))`: the key entries are matched on; a missing name
    * reads as the text "None". */
  function PhysKey(f: Entry): string { Text(Get(f, PhysicalKey)) }

  /** The index of the first entry whose key is `key`. */
  function FirstMatch(files: seq<Entry>, key: string, from: nat): (r: Option<nat>)
    requires from <= |files|
    ensures r.Some? ==> from <= r.value < |files| && PhysKey(files[r.value]) == key
    ensures r.Some? ==> forall j :: from <= j < r.value ==> PhysKey(files[j]) != key
    ensures r.None? ==> forall j :: from <= j < |files| ==> PhysKey(files[j]) != key
    decreases |files| - from
  {
    if from == |files| then None
    else if PhysKey(files[from]) == key then Some(from)
    else FirstMatch(files, key, from + 1)
  }

  /** The one key the merge leaves alone: an incoming `None` parquet name does not replace a
    * truthy one. */
  predicate Protected(f: Entry, clean: Entry, k: string)
    requires k in clean
  {
    k == ParquetKey && clean[k] == Null && Truthy(Get(f, ParquetKey))
  }

  /** `for k, v in clean_entry.items(): ... f[k] = v` on the matching entry. */
  function MergeInto(f: Entry, clean: Entry): (m: Entry)
    ensures m.Keys == f.Keys + clean.Keys
  {
    map k | k in f.Keys + clean.Keys :: if k in clean && !Protected(f, clean, k) then clean[k] else f[k]
  }

  /** The file list after merging one entry: the first entry with the same physical name
    * takes the entry's allowed keys, or the cleaned entry is appended. */
  function UpsertFiles(files: seq<Entry>, newEntry: Entry): seq<Entry>
  {
    var clean := CleanEntry(newEntry);
    match FirstMatch(files, PhysKey(clean), 0)
    case Some(i) => files[i := MergeInto(files[i], clean)]
    case None => files + [clean]
  }

  /** The document an upsert reads: the stored one, else `skeleton`. */
  function ReadOr(s: Stored, skeleton: Document): (d: Document)
    ensures s.Stored? ==> d == s.doc
    ensures !s.Stored? ==> d == skeleton
  {
    if s.Stored? then s.doc else skeleton
  }

  /** The document one successful upsert attempt writes. */
  function Upserted(s: Stored, skeleton: Document, newEntry: Entry): Document
  {
    var cur := ReadOr(s, skeleton);
    cur.(files := UpsertFiles(cur.files, newEntry))
  }

  /** No two entries share a physical file name. */
  predicate UniqueNames(files: seq<Entry>) {
    forall i, j :: 0 <= i < j < |files| ==> PhysKey(files[i]) != PhysKey(files[j])
  }

  /** The entry `wait_for_parquet_name` inspects: the first whose name equals `phys`. */
  function FirstNamed(files: seq<Entry>, phys: string, from: nat): (r: Option<nat>)
    requires from <= |files|
    ensures r.Some? ==> from <= r.value < |files| && Get(files[r.value], PhysicalKey) == Str(phys)
    ensures r.Some? ==> forall j :: from <= j < r.value ==> Get(files[j], PhysicalKey) != Str(phys)
    ensures r.None? ==> forall j :: from <= j < |files| ==> Get(files[j], PhysicalKey) != Str(phys)
    decreases |files| - from
  {
    if from == |files| then None
    else if Get(files[from], PhysicalKey) == Str(phys) then Some(from)
    else FirstNamed(files, phys, from + 1)
  }

  /** One poll of `wait_for_parquet_name` succeeds: the document decodes and the first entry
    * named `phys` carries a truthy parquet name. */
  predicate Published(s: Stored, phys: string) {
    s.Stored? &&
    match FirstNamed(s.doc.files, phys, 0)
    case None => false
    case Some(i) => Truthy(Get(s.doc.files[i], ParquetKey))
  }

  const MaxUpsertAttempts := 6

  /** The manifest file on disk. */
  class ManifestFile {
    var content: Stored

    constructor (initial: Stored)
      ensures content == initial
    {
      content := initial;
    }

    /** `upsert_file_entry_batch_info`: up to six attempts, each reading the file (a null
      * skeleton when it cannot), merging the entry and writing; `writes[i]` is whether
      * attempt `i`'s write succeeds. True once a write succeeds, false after six failures. */
    method UpsertFileEntry(newEntry: Entry, writes: seq<bool>) returns (ok: bool)
      modifies this
      ensures ok <==> exists i :: 0 <= i < MaxUpsertAttempts && i < |writes| && writes[i]
      ensures ok ==> content == Stored(Upserted(old(content), NullSkeleton, newEntry))
      ensures !ok ==> content == old(content)
    {
      ok := UpsertWith(NullSkeleton, newEntry, writes);
    }

    /** The same upsert with a skeleton that names the batch's client and batch, as the
      * converter's skeleton does: the manifest it creates identifies its batch. */
    method UpsertFileEntryForBatch(schema: string, clientId: Value, batchId: string, newEntry: Entry, writes: seq<bool>)
      returns (ok: bool)
      modifies this
      ensures ok <==> exists i :: 0 <= i < MaxUpsertAttempts && i < |writes| && writes[i]
      ensures ok ==> content == Stored(Upserted(old(content), Document(Str(schema), clientId, Str(batchId), []), newEntry))
      ensures !ok ==> content == old(content)
    {
      ok := UpsertWith(Document(Str(schema), clientId, Str(batchId), []), newEntry, writes);
    }

    method UpsertWith(skeleton: Document, newEntry: Entry, writes: seq<bool>) returns (ok: bool)
      modifies this
      ensures ok <==> exists i :: 0 <= i < MaxUpsertAttempts && i < |writes| && writes[i]
      ensures ok ==> content == Stored(Upserted(old(content), skeleton, newEntry))
      ensures !ok ==> content == old(content)
    {
      var attempt := 0;
      ok := false;
      while attempt < MaxUpsertAttempts
        invariant 0 <= attempt <= MaxUpsertAttempts
        invariant content == old(content)
        invariant forall j :: 0 <= j < attempt && j < |writes| ==> !writes[j]
      {
        var current := ReadOr(content, skeleton);
        var next := current.(files := UpsertFiles(current.files, newEntry));
        if attempt < |writes| && writes[attempt] {
          content := Stored(next);
          ok := true;
          return;
        }
        attempt := attempt + 1;
      }
    }
  }

  /** `wait_for_parquet_name`: poll the manifest until an entry for `phys` carries a parquet
    * name; `polls` are the successive readings before the deadline. */
  method WaitForParquetName(polls: seq<Stored>, phys: string) returns (found: bool)
    ensures found <==> exists i :: 0 <= i < |polls| && Published(polls[i], phys)
  {
    var i := 0;
    while i < |polls|
      invariant 0 <= i <= |polls|
      invariant forall j :: 0 <= j < i ==> !Published(polls[j], phys)
    {
      var snapshot := polls[i];
      if snapshot.Stored? {
        var files := snapshot.doc.files;
        var k := 0;
        while k < |files|
          invariant 0 <= k <= |files|
          invariant FirstNamed(files, phys, 0) == FirstNamed(files, phys, k)
        {
          if Get(files[k], PhysicalKey) == Str(phys) {
            if Truthy(Get(files[k], ParquetKey)) {
              return true;
            }
            break;
          }
          k := k + 1;
        }
      }
      i := i + 1;
    }
    return false;
  }

  /** Merging keeps the physical name an entry was matched on. */
  lemma MergeKeepsKey(f: Entry, clean: Entry)
    requires PhysKey(f) == PhysKey(clean)
    ensures PhysKey(MergeInto(f, clean)) == PhysKey(f)
  {
    var m := MergeInto(f, clean);
    if PhysicalKey in clean {
      assert !Protected(f, clean, PhysicalKey);
      assert m[PhysicalKey] == clean[PhysicalKey];
    } else if PhysicalKey in f {
      assert m[PhysicalKey] == f[PhysicalKey];
    } else {
      assert PhysicalKey !in m;
    }
  }

  /** After an upsert the entry's name is found, and it carries every allowed key of the new
    * entry, except a `None` parquet name over a recorded one; the other entries are unchanged
    * and the list grows by at most one. */
  lemma UpsertRecordsEntry(files: seq<Entry>, newEntry: Entry)
    ensures var r := UpsertFiles(files, newEntry);
            var clean := CleanEntry(newEntry);
            exists i :: 0 <= i < |r| && FirstMatch(r, PhysKey(clean), 0) == Some(i) &&
              (forall k :: k in clean && !Protected(r[i], clean, k) ==> k in r[i] && r[i][k] == clean[k]) &&
              (forall j :: 0 <= j < |files| && j != i ==> r[j] == files[j]) &&
              (|r| == |files| || (|r| == |files| + 1 && i == |files|))
  {
    var clean := CleanEntry(newEntry);
    var key := PhysKey(clean);
    var r := UpsertFiles(files, newEntry);
    match FirstMatch(files, key, 0)
    case Some(i) =>
      var m := MergeInto(files[i], clean);
      MergeKeepsKey(files[i], clean);
      FirstMatchUnchangedPrefix(files, r, key, i);
      forall k | k in clean && !Protected(m, clean, k)
        ensures k in m && m[k] == clean[k]
      {
      }
    case None =>
      FirstMatchUnchangedPrefix(files, r, key, |files|);
  }

  /** The first match is `i` when the entries before `i` are the old ones (none of which
    * matched) and entry `i` carries the key. */
  lemma FirstMatchUnchangedPrefix(files: seq<Entry>, r: seq<Entry>, key: string, i: nat)
    requires i < |r| && i <= |files|
    requires forall j :: 0 <= j < i ==> r[j] == files[j] && PhysKey(files[j]) != key
    requires PhysKey(r[i]) == key
    ensures FirstMatch(r, key, 0) == Some(i)
  {
    var m := FirstMatch(r, key, 0);
    assert m.Some? && m.value <= i;
  }

  /** An upsert whose entry brings no parquet name, or a `None` one, never loses a recorded
    * parquet name: whatever an entry held, it still holds. */
  lemma UpsertKeepsParquetName(files: seq<Entry>, newEntry: Entry, i: nat)
    requires i < |files| && Truthy(Get(files[i], ParquetKey))
    requires ParquetKey in newEntry ==> newEntry[ParquetKey] == Null
    ensures i < |UpsertFiles(files, newEntry)|
    ensures Get(UpsertFiles(files, newEntry)[i], ParquetKey) == Get(files[i], ParquetKey)
  {
    var clean := CleanEntry(newEntry);
    match FirstMatch(files, PhysKey(clean), 0)
    case Some(j) =>
      if j == i {
        var m := MergeInto(files[i], clean);
        if ParquetKey in clean {
          assert Protected(files[i], clean, ParquetKey);
        }
        assert m[ParquetKey] == files[i][ParquetKey];
      }
    case None =>
  }

  /** An upsert keeps the entries' physical names distinct. */
  lemma UpsertKeepsNamesUnique(files: seq<Entry>, newEntry: Entry)
    requires UniqueNames(files)
    ensures UniqueNames(UpsertFiles(files, newEntry))
  {
    var clean := CleanEntry(newEntry);
    var key := PhysKey(clean);
    var r := UpsertFiles(files, newEntry);
    match FirstMatch(files, key, 0)
    case Some(i) =>
      MergeKeepsKey(files[i], clean);
      assert forall j :: 0 <= j < |r| ==> PhysKey(r[j]) == PhysKey(files[j]);
    case None =>
      assert forall j :: 0 <= j < |files| ==> r[j] == files[j];
  }

  /** An upsert writes only allowed keys: an updated entry gains no other key and an
    * appended entry carries allowed keys only. */
  lemma UpsertWritesAllowedKeys(files: seq<Entry>, newEntry: Entry)
    ensures var r := UpsertFiles(files, newEntry);
            (forall j :: 0 <= j < |files| ==> r[j].Keys <= files[j].Keys + AllowedKeys) &&
            (|r| > |files| ==> r[|files|].Keys <= AllowedKeys)
  {
  }

  /** Merging the same entry twice changes nothing the first merge did not. */
  lemma MergeIdempotent(f: Entry, clean: Entry)
    ensures MergeInto(MergeInto(f, clean), clean) == MergeInto(f, clean)
  {
    var m := MergeInto(f, clean);
    var m2 := MergeInto(m, clean);
    forall k | k in m2.Keys
      ensures m2[k] == m[k]
    {
    }
  }

  /** Upserting the same entry twice leaves the list as one upsert does. */
  lemma UpsertIdempotent(files: seq<Entry>, newEntry: Entry)
    ensures UpsertFiles(UpsertFiles(files, newEntry), newEntry) == UpsertFiles(files, newEntry)
  {
    var clean := CleanEntry(newEntry);
    var key := PhysKey(clean);
    var r := UpsertFiles(files, newEntry);
    match FirstMatch(files, key, 0)
    case Some(i) =>
      MergeKeepsKey(files[i], clean);
      FirstMatchUnchangedPrefix(files, r, key, i);
      MergeIdempotent(files[i], clean);
    case None =>
      FirstMatchUnchangedPrefix(files, r, key, |files|);
      MergeIdempotent(map[], clean);
      assert MergeInto(clean, clean) == clean by {
        assert !(ParquetKey in clean && Protected(clean, clean, ParquetKey));
      }
  }
}
