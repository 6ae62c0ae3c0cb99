/** The age of an entry, by which it is evicted: a rebuild gives back the one it had. */
module CacheAges {
  import opened CacheCommits
  import opened CacheQuotaModel
  import opened CacheRebuild
  import opened Wrappers

  /** The object that an entry without a manifest is for. */
  predicate IsPlain(e: EntryKey) {
    e.Legacy? || e.Pending?
  }

  /** In an index of the bucket, an object without a manifest is as old as its upload, and counts with its size. */
  lemma {:induction false} PlainObjectsAgeFromUpload(entries: Entries, bucket: Bucket, prefix: string, e: EntryKey)
    requires IsIndex(entries, bucket, prefix) && e in entries && IsPlain(e)
    ensures e.key in bucket && entries[e] == Entry(e.key, None, bucket[e.key].size, bucket[e.key].uploaded)
  {
    assert Belongs(bucket, prefix, e);
    hide KindOf, Named;
  }

  /** A committed archive is as old as its manifest says, whenever either object was uploaded. */
  lemma {:induction false} CommittedArchivesAgeFromManifest(entries: Entries, bucket: Bucket, prefix: string, e: EntryKey)
    requires IsIndex(entries, bucket, prefix) && e in entries && e.Action?
    ensures e.key in bucket && bucket[e.key].manifest.Some?
    ensures var manifest := bucket[e.key].manifest.value;
      && manifest.objectKey in bucket
      && entries[e] == Entry(manifest.objectKey, Some(e.key), bucket[manifest.objectKey].size, manifest.createdAt)
  {
    assert Belongs(bucket, prefix, e);
    hide KindOf;
  }

  /** The text begins with the other. */
  predicate Begins(text: string, other: string) {
    |other| <= |text| && text[..|other|] == other
  }

  /** A manifest has an entry exactly when it can be read and names an object under the archives that is there. */
  lemma {:induction false} ManifestHasEntryExactlyWhen(entries: Entries, bucket: Bucket, prefix: string, key: ObjectKey)
    requires IsIndex(entries, bucket, prefix) && key in bucket && KindOf(prefix, key) == ManifestObject
    ensures Action(key) in entries <==>
      && bucket[key].manifest.Some?
      && Begins(bucket[key].manifest.value.objectKey, prefix + "/actions-cache-v2/archives/")
      && bucket[key].manifest.value.objectKey in bucket
  {
    hide KindOf;
    assert Action(key) in entries <==> Belongs(bucket, prefix, Action(key));
  }

  /** An archive is pending exactly when no such manifest names it, and every legacy object has an entry. */
  lemma {:induction false} OtherObjectsHaveEntries(entries: Entries, bucket: Bucket, prefix: string, key: ObjectKey)
    requires IsIndex(entries, bucket, prefix) && key in bucket
    ensures KindOf(prefix, key) == LegacyObject ==> Legacy(key) in entries
    ensures KindOf(prefix, key) == ArchiveObject ==>
      (Pending(key) in entries <==> forall m :: m in bucket && Action(m) in entries ==> entries[Action(m)].archiveKey != key)
  {
    hide KindOf, ValidManifest;
    assert Legacy(key) in entries <==> Belongs(bucket, prefix, Legacy(key));
    assert Pending(key) in entries <==> Belongs(bucket, prefix, Pending(key));
    forall m | m in bucket
      ensures Action(m) in entries <==> ValidManifest(bucket, prefix, m)
      ensures Action(m) in entries ==> entries[Action(m)] == EntryFor(bucket, prefix, Action(m))
    {
      assert Action(m) in entries <==> Belongs(bucket, prefix, Action(m));
    }
  }

  /** The time at which what an entry stands for came to be. */
  function Birth(bucket: Bucket, e: EntryKey): int
    requires e.key in bucket && (e.Action? ==> bucket[e.key].manifest.Some?)
  {
    if e.Action? then bucket[e.key].manifest.value.createdAt else bucket[e.key].uploaded
  }

  /** So of two entries of a rebuilt index the one that was uploaded, or committed, earlier is evicted earlier. */
  lemma {:induction false} EarlierIsOlder(entries: Entries, bucket: Bucket, prefix: string, a: EntryKey, b: EntryKey)
    requires IsIndex(entries, bucket, prefix) && a in entries && b in entries
    ensures a.key in bucket && (a.Action? ==> bucket[a.key].manifest.Some?)
    ensures b.key in bucket && (b.Action? ==> bucket[b.key].manifest.Some?)
    ensures Birth(bucket, a) < Birth(bucket, b) ==> Older(entries, a, b)
  {
    AgesFromBirth(entries, bucket, prefix, a);
    AgesFromBirth(entries, bucket, prefix, b);
  }

  lemma {:induction false} AgesFromBirth(entries: Entries, bucket: Bucket, prefix: string, e: EntryKey)
    requires IsIndex(entries, bucket, prefix) && e in entries
    ensures e.key in bucket && (e.Action? ==> bucket[e.key].manifest.Some?)
    ensures entries[e].createdAt == Birth(bucket, e)
  {
    if e.Action? {
      CommittedArchivesAgeFromManifest(entries, bucket, prefix, e);
    } else {
      PlainObjectsAgeFromUpload(entries, bucket, prefix, e);
    }
    hide IsIndex;
  }

  /** The entry that a commit inserts is the one a rebuild over its bucket makes, if its archive is there with its size. */
  lemma {:induction false} CommitComesBack(s: State, w: World, c: Commit, rebuilt: Entries)
    requires Possible(s, w, Finalize(c))
    requires Begins(c.archiveKey, w.prefix + "/actions-cache-v2/archives/")
    requires c.archiveKey in s.bucket && s.bucket[c.archiveKey].size == c.sizeBytes
    requires IsIndex(rebuilt, Inserted(s, c).bucket, w.prefix)
    ensures Action(c.manifestKey) in rebuilt
    ensures rebuilt[Action(c.manifestKey)] == Inserted(s, c).entries[Action(c.manifestKey)]
  {
    assert ValidManifest(Inserted(s, c).bucket, w.prefix, c.manifestKey);
    assert Belongs(Inserted(s, c).bucket, w.prefix, Action(c.manifestKey));
    hide KindOf;
  }

  /** The entry of a recorded legacy cache comes back from a rebuild exactly if it gave the object's size and upload time. */
  lemma {:induction false} RecordComesBackExactlyWhen(
      s: State, w: World, key: ObjectKey, sizeBytes: nat, createdAt: int, rebuilt: Entries)
    requires w.IsLegacy(key) && key in s.bucket && IsIndex(rebuilt, s.bucket, w.prefix)
    ensures Legacy(key) in rebuilt
    ensures rebuilt[Legacy(key)] == LegacyInserted(s, key, sizeBytes, createdAt).entries[Legacy(key)]
      <==> s.bucket[key].size == sizeBytes && s.bucket[key].uploaded == createdAt
  {
    assert Belongs(s.bucket, w.prefix, Legacy(key));
    hide KindOf, Named;
  }
}
