/** Rebuilding the cache index from the bucket. */
module CacheRebuild {
  import opened CacheQuotaModel
  import opened Strings
  import opened Wrappers

  // ---------------------------------------------------------------- names

  const MANIFESTS := "/actions-cache-v2/"
  const ARCHIVES := "/actions-cache-v2/archives/"
  const LEGACY := "/npm/"
  const JSON := ".json"

  datatype Kind = ManifestObject | ArchiveObject | LegacyObject | OtherObject

  /** How the rebuild sorts an object by its name. */
  function KindOf(prefix: string, key: ObjectKey): Kind {
    if StartsWith(key, prefix + MANIFESTS) && EndsWith(key, JSON) then ManifestObject
    else if StartsWith(key, prefix + ARCHIVES) then ArchiveObject
    else if StartsWith(key, prefix + LEGACY) then LegacyObject
    else OtherObject
  }

  lemma {:induction false} StartsWithPrefix(prefix: string, middle: string, rest: string)
    ensures StartsWith(prefix + middle + rest, prefix + middle)
  {
    assert (prefix + middle + rest)[..|prefix + middle|] == prefix + middle;
  }

  lemma {:induction false} StartsOtherwise(prefix: string, middle: string, rest: string, other: string)
    requires |middle| > 1 && |other| > 1 && middle[1] != other[1]
    ensures !StartsWith(prefix + middle + rest, prefix + other)
  {
    assert (prefix + middle + rest)[|prefix| + 1] == middle[1];
    assert (prefix + other)[|prefix| + 1] == other[1];
  }

  lemma {:induction false} IsNoManifest(text: string)
    ensures !EndsWith(text + ".tar.zst", JSON) && EndsWith(text + ".json", JSON)
  {
    assert (text + ".tar.zst")[|text| + 7] == 't' && JSON[4] == 'n';
    assert (text + ".json")[|text|..] == JSON;
  }

  lemma {:induction false} ManifestNamesAreSorted(prefix: string, rest: string)
    ensures KindOf(prefix, prefix + "/actions-cache-v2/" + (rest + ".json")) == ManifestObject
  {
    StartsWithPrefix(prefix, MANIFESTS, rest + ".json");
    IsNoManifest(prefix + MANIFESTS + rest);
    assert prefix + MANIFESTS + (rest + ".json") == prefix + MANIFESTS + rest + ".json";
    hide StartsWith, EndsWith;
  }

  lemma {:induction false} ArchiveNamesAreSorted(prefix: string, rest: string)
    ensures KindOf(prefix, prefix + "/actions-cache-v2/archives/" + (rest + ".tar.zst")) == ArchiveObject
  {
    StartsWithPrefix(prefix, ARCHIVES, rest + ".tar.zst");
    IsNoManifest(prefix + ARCHIVES + rest);
    assert prefix + ARCHIVES + (rest + ".tar.zst") == prefix + ARCHIVES + rest + ".tar.zst";
    hide StartsWith, EndsWith;
  }

  lemma {:induction false} LegacyNamesAreSorted(prefix: string, rest: string)
    ensures KindOf(prefix, prefix + "/npm/" + (rest + ".tar.zst")) == LegacyObject
  {
    StartsWithPrefix(prefix, LEGACY, rest + ".tar.zst");
    StartsOtherwise(prefix, LEGACY, rest + ".tar.zst", MANIFESTS);
    StartsOtherwise(prefix, LEGACY, rest + ".tar.zst", ARCHIVES);
    hide StartsWith, EndsWith;
  }

  lemma {:induction false} StartsAfter(start: string, tail: string, more: string)
    ensures StartsWith(start + tail, start + more) <==> StartsWith(tail, more)
  {
    var text := start + tail;
    if |more| <= |tail| {
      assert text[..|start + more|] == start + tail[..|more|];
      assert (start + tail[..|more|])[|start|..] == tail[..|more|];
      assert (start + more)[|start|..] == more;
    }
  }

  /** Any other object beside the manifests and archives is left out. */
  lemma {:induction false} OtherNamesAreLeftOut(prefix: string, rest: string)
    requires !StartsWith(rest + ".tar.zst", "archives/")
    ensures KindOf(prefix, prefix + "/actions-cache-v2/" + (rest + ".tar.zst")) == OtherObject
  {
    hide StartsWith, EndsWith;
    var tail := rest + ".tar.zst";
    IsNoManifest(prefix + MANIFESTS + rest);
    assert prefix + MANIFESTS + tail == prefix + MANIFESTS + rest + ".tar.zst";
    StartsOtherwise(prefix, MANIFESTS, tail, LEGACY);
    StartsAfter(prefix + MANIFESTS, tail, "archives/");
    assert prefix + ARCHIVES == prefix + MANIFESTS + "archives/";
  }

  /** The names that uploads and commits give their objects are sorted as what they are. */
  lemma {:induction false} WrittenNamesAreSorted(prefix: string, rest: string)
    ensures KindOf(prefix, prefix + "/actions-cache-v2/" + (rest + ".json")) == ManifestObject
    ensures KindOf(prefix, prefix + "/actions-cache-v2/archives/" + (rest + ".tar.zst")) == ArchiveObject
    ensures KindOf(prefix, prefix + "/npm/" + (rest + ".tar.zst")) == LegacyObject
  {
    hide KindOf;
    ManifestNamesAreSorted(prefix, rest);
    ArchiveNamesAreSorted(prefix, rest);
    LegacyNamesAreSorted(prefix, rest);
  }

  // ---------------------------------------------------------------- the rebuilt index

  /** A manifest that gets an entry: it parses and names an archive that exists. */
  predicate ValidManifest(bucket: Bucket, prefix: string, key: ObjectKey) {
    && key in bucket
    && KindOf(prefix, key) == ManifestObject
    && bucket[key].manifest.Some?
    && StartsWith(bucket[key].manifest.value.objectKey, prefix + ARCHIVES)
    && bucket[key].manifest.value.objectKey in bucket
  }

  function ManifestEntry(bucket: Bucket, key: ObjectKey): Entry
    requires key in bucket && bucket[key].manifest.Some? && bucket[key].manifest.value.objectKey in bucket
  {
    var manifest := bucket[key].manifest.value;
    Entry(manifest.objectKey, Some(key), bucket[manifest.objectKey].size, manifest.createdAt)
  }

  function PlainEntry(bucket: Bucket, key: ObjectKey): Entry
    requires key in bucket
  {
    Entry(key, None, bucket[key].size, bucket[key].uploaded)
  }

  predicate Named(bucket: Bucket, prefix: string, archive: ObjectKey) {
    exists m :: m in bucket && ValidManifest(bucket, prefix, m) && bucket[m].manifest.value.objectKey == archive
  }

  /** What an entry of the rebuilt index stands for. */
  predicate Belongs(bucket: Bucket, prefix: string, e: EntryKey) {
    match e
    case Legacy(k) => k in bucket && KindOf(prefix, k) == LegacyObject
    case Action(m) => ValidManifest(bucket, prefix, m)
    case Pending(a) => a in bucket && KindOf(prefix, a) == ArchiveObject && !Named(bucket, prefix, a)
  }

  function EntryFor(bucket: Bucket, prefix: string, e: EntryKey): Entry
    requires Belongs(bucket, prefix, e)
  {
    if e.Action? then ManifestEntry(bucket, e.key) else PlainEntry(bucket, e.key)
  }

  ghost predicate IsIndex(entries: Entries, bucket: Bucket, prefix: string) {
    forall e :: (e in entries <==> Belongs(bucket, prefix, e)) && (e in entries ==> entries[e] == EntryFor(bucket, prefix, e))
  }

  ghost predicate IsCurrent(entries: Entries, bucket: Bucket, prefix: string, e: EntryKey) {
    Belongs(bucket, prefix, e) && e in entries && entries[e] == EntryFor(bucket, prefix, e)
  }

  /** What a rebuild leaves of the table it finds: every entry that belongs is current, and no other one is touched. */
  ghost predicate IsRebuilt(before: Entries, after: Entries, bucket: Bucket, prefix: string) {
    && (forall e :: Belongs(bucket, prefix, e) ==> IsCurrent(after, bucket, prefix, e))
    && (forall e :: !Belongs(bucket, prefix, e) ==> (e in after <==> e in before) && (e in before ==> after[e] == before[e]))
  }

  /**
   * A rebuild over a table that an interrupted one has filled in part gives the index of the bucket exactly when every
   * object that table has an entry for is still there.
   */
  lemma {:induction false} RebuiltIsIndexExactlyWhen(before: Entries, after: Entries, bucket: Bucket, prefix: string)
    requires IsRebuilt(before, after, bucket, prefix)
    ensures IsIndex(after, bucket, prefix) <==> forall e :: e in before ==> Belongs(bucket, prefix, e)
  {
    hide Belongs, EntryFor;
    assert forall e :: Belongs(bucket, prefix, e) ==> IsCurrent(after, bucket, prefix, e);
  }

  // ---------------------------------------------------------------- what it accounts for

  /** The objects the quota counts. */
  function Counted(bucket: Bucket, prefix: string): set<ObjectKey> {
    set k | k in bucket && (KindOf(prefix, k) == ArchiveObject || KindOf(prefix, k) == LegacyObject)
  }

  ghost predicate OnlyEntry(entries: Entries, k: ObjectKey, e: EntryKey) {
    && e in entries && entries[e].archiveKey == k
    && forall other :: other in entries && entries[other].archiveKey == k ==> other == e
  }

  ghost predicate CountedOnce(entries: Entries, k: ObjectKey) {
    exists e :: OnlyEntry(entries, k, e)
  }

  ghost predicate ManifestsNameArchives(bucket: Bucket, prefix: string) {
    forall m :: ValidManifest(bucket, prefix, m) ==> KindOf(prefix, bucket[m].manifest.value.objectKey) == ArchiveObject
  }

  ghost predicate ManifestsAreDistinct(bucket: Bucket, prefix: string) {
    forall m, n ::
      (ValidManifest(bucket, prefix, m) && ValidManifest(bucket, prefix, n)
       && bucket[m].manifest.value.objectKey == bucket[n].manifest.value.objectKey) ==>
        m == n
  }

  lemma {:induction false} EntryCountsItsObject(entries: Entries, bucket: Bucket, prefix: string, e: EntryKey)
    requires IsIndex(entries, bucket, prefix) && ManifestsNameArchives(bucket, prefix) && e in entries
    ensures entries[e].archiveKey in Counted(bucket, prefix)
    ensures entries[e].sizeBytes == bucket[entries[e].archiveKey].size
    ensures !e.Action? ==> entries[e].archiveKey == e.key
    ensures e.Pending? <==> KindOf(prefix, entries[e].archiveKey) == ArchiveObject && !Named(bucket, prefix, entries[e].archiveKey)
    ensures e.Legacy? <==> KindOf(prefix, entries[e].archiveKey) == LegacyObject
  {
    if e.Action? {
      assert ValidManifest(bucket, prefix, e.key);
    }
    hide KindOf;
  }

  lemma {:induction false} ObjectHasEntry(
      entries: Entries, bucket: Bucket, prefix: string, k: ObjectKey) returns (e: EntryKey)
    requires IsIndex(entries, bucket, prefix) && k in Counted(bucket, prefix)
    ensures e in entries && entries[e].archiveKey == k
  {
    hide KindOf;
    if KindOf(prefix, k) == LegacyObject {
      e := Legacy(k);
    } else if Named(bucket, prefix, k) {
      var m :| m in bucket && ValidManifest(bucket, prefix, m) && bucket[m].manifest.value.objectKey == k;
      e := Action(m);
    } else {
      e := Pending(k);
    }
    assert Belongs(bucket, prefix, e);
  }

  lemma {:induction false} DistinctMeansOnce(entries: Entries, bucket: Bucket, prefix: string, a: EntryKey, b: EntryKey)
    requires IsIndex(entries, bucket, prefix) && ManifestsNameArchives(bucket, prefix) && ManifestsAreDistinct(bucket, prefix)
    requires a in entries && b in entries && entries[a].archiveKey == entries[b].archiveKey
    ensures a == b
  {
    EntryCountsItsObject(entries, bucket, prefix, a);
    EntryCountsItsObject(entries, bucket, prefix, b);
    hide KindOf;
    assert a.Action? && b.Action? ==> ValidManifest(bucket, prefix, a.key) && ValidManifest(bucket, prefix, b.key);
  }

  /** The rebuilt index counts every archive and legacy object once, if and only if no archive has two manifests. */
  lemma {:induction false} RebuildCountsOnce(entries: Entries, bucket: Bucket, prefix: string)
    requires IsIndex(entries, bucket, prefix) && ManifestsNameArchives(bucket, prefix)
    ensures (forall k :: k in Counted(bucket, prefix) ==> CountedOnce(entries, k)) <==> ManifestsAreDistinct(bucket, prefix)
  {
    if ManifestsAreDistinct(bucket, prefix) {
      forall k | k in Counted(bucket, prefix)
        ensures CountedOnce(entries, k)
      {
        var e := ObjectHasEntry(entries, bucket, prefix, k);
        forall other | other in entries && entries[other].archiveKey == k
          ensures other == e
        {
          DistinctMeansOnce(entries, bucket, prefix, e, other);
        }
        assert OnlyEntry(entries, k, e);
      }
    } else {
      var m, n :| ValidManifest(bucket, prefix, m) && ValidManifest(bucket, prefix, n) && m != n
        && bucket[m].manifest.value.objectKey == bucket[n].manifest.value.objectKey;
      var k := bucket[m].manifest.value.objectKey;
      assert Belongs(bucket, prefix, Action(m)) && Belongs(bucket, prefix, Action(n));
      EntryCountsItsObject(entries, bucket, prefix, Action(m));
      assert entries[Action(m)].archiveKey == entries[Action(n)].archiveKey == k && Action(m) != Action(n);
      hide KindOf, ValidManifest, IsIndex;
      assert !CountedOnce(entries, k);
    }
  }

  // ---------------------------------------------------------------- totals

  ghost function SizeOf(bucket: Bucket, keys: set<ObjectKey>): nat
    requires keys <= bucket.Keys
    decreases |keys|
  {
    if keys == {} then 0
    else
      var k :| k in keys;
      bucket[k].size + SizeOf(bucket, keys - {k})
  }

  lemma {:induction false} SizeOfRemove(bucket: Bucket, keys: set<ObjectKey>, k: ObjectKey)
    requires keys <= bucket.Keys && k in keys
    ensures SizeOf(bucket, keys) == bucket[k].size + SizeOf(bucket, keys - {k})
    decreases |keys|
  {
    var x :| x in keys && SizeOf(bucket, keys) == bucket[x].size + SizeOf(bucket, keys - {x});
    if x != k {
      SizeOfRemove(bucket, keys - {x}, k);
      SizeOfRemove(bucket, keys - {k}, x);
      assert keys - {x} - {k} == keys - {k} - {x};
    }
  }

  /** One entry for each object, of that object's size: the totals agree. */
  lemma {:induction false} TotalsAgree(entries: Entries, bucket: Bucket, keys: set<ObjectKey>)
    requires keys <= bucket.Keys
    requires forall e :: e in entries ==> entries[e].archiveKey in keys && entries[e].sizeBytes == bucket[entries[e].archiveKey].size
    requires forall k :: k in keys ==> CountedOnce(entries, k)
    ensures TotalBytes(entries) == SizeOf(bucket, keys)
    decreases |entries|
  {
    if e :| e in entries {
      var k := entries[e].archiveKey;
      var rest := entries - {e};
      assert forall other :: other in rest ==> entries[other].archiveKey != k;
      forall x | x in keys - {k}
        ensures CountedOnce(rest, x)
      {
        var y :| OnlyEntry(entries, x, y);
        assert OnlyEntry(rest, x, y);
      }
      TotalsAgree(rest, bucket, keys - {k});
      TotalBytesRemove(entries, e);
      SizeOfRemove(bucket, keys, k);
    } else {
      assert keys == {};
    }
  }

  /** So its total is the size of all archives and legacy objects. */
  lemma {:induction false} RebuildTotals(entries: Entries, bucket: Bucket, prefix: string)
    requires IsIndex(entries, bucket, prefix) && ManifestsNameArchives(bucket, prefix) && ManifestsAreDistinct(bucket, prefix)
    ensures TotalBytes(entries) == SizeOf(bucket, Counted(bucket, prefix))
  {
    RebuildCountsOnce(entries, bucket, prefix);
    forall e | e in entries
      ensures entries[e].archiveKey in Counted(bucket, prefix) && entries[e].sizeBytes == bucket[entries[e].archiveKey].size
    {
      EntryCountsItsObject(entries, bucket, prefix, e);
    }
    TotalsAgree(entries, bucket, Counted(bucket, prefix));
  }
}
