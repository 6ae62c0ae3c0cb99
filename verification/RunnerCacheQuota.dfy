/** The quota object: its index table and the bucket it manages, changed in place by one serialized operation at a time. */
module CacheQuota {
  import opened CacheCommits
  import opened CacheQuotaModel
  import opened CacheRebuild
  import opened Strings
  import opened Wrappers

  ghost predicate Listed(pages: seq<seq<ObjectKey>>, k: ObjectKey) {
    exists i :: 0 <= i < |pages| && k in pages[i]
  }

  /** The pages list exactly the managed objects, in any order and any number of times. */
  ghost predicate Lists(pages: seq<seq<ObjectKey>>, bucket: Bucket, prefix: string) {
    && (forall k :: Listed(pages, k) ==> k in bucket)
    && (forall k :: k in bucket && KindOf(prefix, k) != OtherObject ==> Listed(pages, k))
  }

  /** Every entry inserted or replaced is one the rebuild makes. */
  ghost predicate Fills(before: Entries, after: Entries, bucket: Bucket, prefix: string) {
    && (forall e :: e in before ==> e in after && (after[e] == before[e] || IsCurrent(after, bucket, prefix, e)))
    && (forall e :: e in after && e !in before ==> IsCurrent(after, bucket, prefix, e))
  }

  lemma {:induction false} FillsWithOneMore(before: Entries, entries: Entries, bucket: Bucket, prefix: string, e: EntryKey)
    requires Fills(before, entries, bucket, prefix) && Belongs(bucket, prefix, e)
    ensures var after := entries[e := EntryFor(bucket, prefix, e)];
      && Fills(before, after, bucket, prefix)
      && IsCurrent(after, bucket, prefix, e)
      && forall other :: IsCurrent(entries, bucket, prefix, other) ==> IsCurrent(after, bucket, prefix, other)
  {
    hide Belongs, EntryFor;
  }

  lemma {:induction false} FillsNothing(entries: Entries, bucket: Bucket, prefix: string)
    ensures Fills(entries, entries, bucket, prefix)
  {
  }

  class RunnerCacheQuota {
    const prefix: string
    const maximum: nat
    var entries: Entries
    var bucket: Bucket
    var ready: bool

    ghost function Snapshot(): State
      reads this
    {
      State(entries, bucket)
    }

    constructor (prefix: string, maximum: nat, bucket: Bucket)
      ensures this.prefix == prefix && this.maximum == maximum
      ensures Snapshot() == State(map[], bucket) && !ready
    {
      this.prefix, this.maximum, this.bucket := prefix, maximum, bucket;
      entries, ready := map[], false;
    }

    method ListObjects(pages: seq<seq<ObjectKey>>)
        returns (manifests: set<ObjectKey>, archives: set<ObjectKey>, legacyObjects: set<ObjectKey>)
      ensures forall k :: k in manifests <==> Listed(pages, k) && KindOf(prefix, k) == ManifestObject
      ensures forall k :: k in archives <==> Listed(pages, k) && KindOf(prefix, k) == ArchiveObject
      ensures forall k :: k in legacyObjects <==> Listed(pages, k) && KindOf(prefix, k) == LegacyObject
    {
      hide KindOf;
      manifests, archives, legacyObjects := {}, {}, {};
      for page := 0 to |pages|
        invariant forall k :: k in manifests <==> Listed(pages[..page], k) && KindOf(prefix, k) == ManifestObject
        invariant forall k :: k in archives <==> Listed(pages[..page], k) && KindOf(prefix, k) == ArchiveObject
        invariant forall k :: k in legacyObjects <==> Listed(pages[..page], k) && KindOf(prefix, k) == LegacyObject
      {
        var m, a, l := SortPage(pages[page]);
        manifests, archives, legacyObjects := manifests + m, archives + a, legacyObjects + l;
        ListedNext(pages, page);
      }
      assert pages[..|pages|] == pages;
    }

    method SortPage(page: seq<ObjectKey>)
        returns (manifests: set<ObjectKey>, archives: set<ObjectKey>, legacyObjects: set<ObjectKey>)
      ensures forall k :: k in manifests <==> k in page && KindOf(prefix, k) == ManifestObject
      ensures forall k :: k in archives <==> k in page && KindOf(prefix, k) == ArchiveObject
      ensures forall k :: k in legacyObjects <==> k in page && KindOf(prefix, k) == LegacyObject
    {
      hide KindOf;
      manifests, archives, legacyObjects := {}, {}, {};
      for n := 0 to |page|
        invariant forall k :: k in manifests <==> k in page[..n] && KindOf(prefix, k) == ManifestObject
        invariant forall k :: k in archives <==> k in page[..n] && KindOf(prefix, k) == ArchiveObject
        invariant forall k :: k in legacyObjects <==> k in page[..n] && KindOf(prefix, k) == LegacyObject
      {
        assert page[..n + 1] == page[..n] + [page[n]];
        match KindOf(prefix, page[n]) {
          case ManifestObject => manifests := manifests + {page[n]};
          case ArchiveObject => archives := archives + {page[n]};
          case LegacyObject => legacyObjects := legacyObjects + {page[n]};
          case OtherObject =>
        }
      }
      assert page[..|page|] == page;
    }

    /** Rebuilds the index from the listing, once, over whatever an interrupted rebuild has left in the table. */
    method EnsureIndex(pages: seq<seq<ObjectKey>>)
      requires !ready ==> Lists(pages, bucket, prefix)
      modifies this`entries, this`ready
      ensures ready
      ensures old(ready) ==> entries == old(entries)
      ensures !old(ready) ==> IsRebuilt(old(entries), entries, bucket, prefix)
    {
      if ready {
        return;
      }
      hide KindOf, StartsWith, EntryFor;
      var manifests, archives, legacyObjects := ListObjects(pages);
      InsertLegacyObjects(legacyObjects);
      var unnamed := InsertManifests(manifests, archives);
      InsertPendingArchives(unnamed);
      forall e | Belongs(bucket, prefix, e)
        ensures IsCurrent(entries, bucket, prefix, e)
      {
        hide Named;
        assert e.Action? ==> ValidManifest(bucket, prefix, e.key);
      }
      ready := true;
    }

    method InsertLegacyObjects(legacyObjects: set<ObjectKey>)
      requires forall k :: k in legacyObjects ==> k in bucket && KindOf(prefix, k) == LegacyObject
      modifies this`entries
      ensures Fills(old(entries), entries, bucket, prefix)
      ensures forall k :: k in legacyObjects ==> IsCurrent(entries, bucket, prefix, Legacy(k))
    {
      hide KindOf, Fills, IsCurrent;
      FillsNothing(entries, bucket, prefix);
      var rest := legacyObjects;
      while rest != {}
        invariant rest <= legacyObjects && Fills(old(entries), entries, bucket, prefix)
        invariant forall k :: k in legacyObjects - rest ==> IsCurrent(entries, bucket, prefix, Legacy(k))
        decreases |rest|
      {
        var k :| k in rest;
        rest := rest - {k};
        FillsWithOneMore(old(entries), entries, bucket, prefix, Legacy(k));
        entries := entries[Legacy(k) := PlainEntry(bucket, k)];
      }
    }

    method InsertPendingArchives(unnamed: set<ObjectKey>)
      requires forall k :: k in unnamed ==> k in bucket && KindOf(prefix, k) == ArchiveObject && !Named(bucket, prefix, k)
      modifies this`entries
      ensures Fills(old(entries), entries, bucket, prefix)
      ensures forall k :: k in unnamed ==> IsCurrent(entries, bucket, prefix, Pending(k))
    {
      hide KindOf, Named, Fills, IsCurrent;
      FillsNothing(entries, bucket, prefix);
      var rest := unnamed;
      while rest != {}
        invariant rest <= unnamed && Fills(old(entries), entries, bucket, prefix)
        invariant forall k :: k in unnamed - rest ==> IsCurrent(entries, bucket, prefix, Pending(k))
        decreases |rest|
      {
        var k :| k in rest;
        rest := rest - {k};
        FillsWithOneMore(old(entries), entries, bucket, prefix, Pending(k));
        entries := entries[Pending(k) := PlainEntry(bucket, k)];
      }
    }

    /** One manifest at a time; what it names is no longer a pending archive. */
    method InsertManifests(manifests: set<ObjectKey>, archives: set<ObjectKey>) returns (unnamed: set<ObjectKey>)
      requires forall k :: k in manifests <==> k in bucket && KindOf(prefix, k) == ManifestObject
      modifies this`entries
      ensures Fills(old(entries), entries, bucket, prefix)
      ensures forall k :: ValidManifest(bucket, prefix, k) ==> IsCurrent(entries, bucket, prefix, Action(k))
      ensures forall k :: k in unnamed <==> k in archives && !Named(bucket, prefix, k)
    {
      hide KindOf, StartsWith, Fills, IsCurrent;
      FillsNothing(entries, bucket, prefix);
      unnamed := archives;
      var rest := manifests;
      while rest != {}
        invariant rest <= manifests && Fills(old(entries), entries, bucket, prefix)
        invariant forall m :: m in manifests - rest && ValidManifest(bucket, prefix, m) ==>
          IsCurrent(entries, bucket, prefix, Action(m))
        invariant forall k :: k in unnamed <==> k in archives && !NamedIn(manifests - rest, k)
        decreases |rest|
      {
        var m :| m in rest;
        ghost var seen := manifests - rest;
        rest := rest - {m};
        assert manifests - rest == seen + {m};
        if bucket[m].manifest.None? || !StartsWith(bucket[m].manifest.value.objectKey, prefix + ARCHIVES)
          || bucket[m].manifest.value.objectKey !in bucket {
          continue;
        }
        FillsWithOneMore(old(entries), entries, bucket, prefix, Action(m));
        entries := entries[Action(m) := ManifestEntry(bucket, m)];
        unnamed := unnamed - {bucket[m].manifest.value.objectKey};
      }
      assert forall k :: Named(bucket, prefix, k) <==> NamedIn(manifests, k);
    }

    ghost predicate NamedIn(manifests: set<ObjectKey>, archive: ObjectKey)
      reads this
    {
      exists m :: m in manifests && ValidManifest(bucket, prefix, m) && bucket[m].manifest.value.objectKey == archive
    }

    // -------------------------------------------------------------- quota

    method SumBytes() returns (total: nat)
      ensures total == TotalBytes(entries)
    {
      total := 0;
      var rest := entries;
      while rest != map[]
        invariant total + TotalBytes(rest) == TotalBytes(entries)
        decreases |rest|
      {
        var e :| e in rest;
        TotalBytesRemove(rest, e);
        total := total + rest[e].sizeBytes;
        rest := rest - {e};
      }
    }

    method OldestEntry() returns (oldest: Option<EntryKey>)
      ensures oldest.None? <==> entries == map[]
      ensures oldest.Some? ==> IsOldest(entries, oldest.value)
    {
      oldest := None;
      var rest := entries.Keys;
      while rest != {}
        invariant rest <= entries.Keys
        invariant oldest.None? ==> rest == entries.Keys
        invariant oldest.Some? ==> oldest.value in entries.Keys - rest
        invariant oldest.Some? ==> forall e :: e in entries.Keys - rest && e != oldest.value ==> Older(entries, oldest.value, e)
        decreases |rest|
      {
        var e :| e in rest;
        if oldest.Some? {
          StillOldest(entries, entries.Keys - rest, oldest.value, e);
        }
        if oldest.None? || Older(entries, e, oldest.value) {
          oldest := Some(e);
        }
        rest := rest - {e};
      }
    }

    /** The running total is the sum over the index at every turn; what is evicted is the shortest run of oldest entries. */
    method EnforceQuota()
      modifies this`entries, this`bucket
      ensures Snapshot() == Evict(old(Snapshot()), maximum)
      ensures TotalBytes(entries) <= maximum
    {
      var total := SumBytes();
      while total > maximum
        invariant total == TotalBytes(entries)
        invariant Evict(Snapshot(), maximum) == Evict(old(Snapshot()), maximum)
        decreases |entries|
      {
        var oldest := OldestEntry();
        if oldest.None? {
          return;
        }
        var entry := entries[oldest.value];
        OldestIsUnique(entries, oldest.value, Oldest(entries));
        TotalBytesRemove(entries, oldest.value);
        bucket := bucket - entry.Objects();
        entries := entries - {oldest.value};
        total := total - entry.sizeBytes;
      }
    }

    method RecordLegacyCache(key: ObjectKey, sizeBytes: nat, createdAt: int) returns (retained: bool)
      requires ready
      modifies this`entries, this`bucket
      ensures Snapshot() == RecordLegacy(old(Snapshot()), key, sizeBytes, createdAt, maximum)
      ensures TotalBytes(entries) <= maximum
      ensures retained <==> Legacy(key) in entries
    {
      entries := entries[Legacy(key) := Entry(key, None, sizeBytes, createdAt)];
      EnforceQuota();
      retained := Legacy(key) in entries;
    }

    method CommitActionCache(c: Commit) returns (answer: Answer)
      requires ready && c.Sound()
      modifies this`entries, this`bucket
      ensures (Snapshot(), answer) == CommitAction(old(Snapshot()), c, maximum)
      ensures answer.Stored? && Snapshot() != old(Snapshot()) ==> TotalBytes(entries) <= maximum
    {
      if c.sizeBytes > maximum {
        bucket, entries := bucket - {c.archiveKey}, entries - {Pending(c.archiveKey)};
        return TooLarge;
      }
      if c.manifestKey in bucket {
        var existing := bucket[c.manifestKey].manifest;
        if existing.Some? && existing.value.objectKey == c.archiveKey {
          return Stored;
        }
        bucket, entries := bucket - {c.archiveKey}, entries - {Pending(c.archiveKey)};
        return AlreadyExists;
      }
      bucket := bucket[c.manifestKey := c.manifestObject];
      entries := entries - {Pending(c.archiveKey)};
      entries := entries[Action(c.manifestKey) := Entry(c.archiveKey, Some(c.manifestKey), c.sizeBytes, c.createdAt)];
      EnforceQuota();
      return Stored;
    }
  }

  lemma {:induction false} StillOldest(entries: Entries, seen: set<EntryKey>, oldest: EntryKey, e: EntryKey)
    requires seen <= entries.Keys && oldest in seen && e in entries && e !in seen
    requires forall x :: x in seen && x != oldest ==> Older(entries, oldest, x)
    ensures if Older(entries, e, oldest) then forall x :: x in seen ==> Older(entries, e, x) else Older(entries, oldest, e)
  {
    OlderIsStrictTotal(entries, oldest, e);
    forall x | x in seen && x != oldest && Older(entries, e, oldest)
      ensures Older(entries, e, x)
    {
      OlderIsTransitive(entries, e, oldest, x);
    }
  }

  lemma {:induction false} ListedNext(pages: seq<seq<ObjectKey>>, n: nat)
    requires n < |pages|
    ensures forall k :: Listed(pages[..n + 1], k) <==> Listed(pages[..n], k) || k in pages[n]
  {
    forall k
      ensures Listed(pages[..n + 1], k) <==> Listed(pages[..n], k) || k in pages[n]
    {
      assert pages[..n + 1] == pages[..n] + [pages[n]];
      if Listed(pages[..n + 1], k) {
        var i :| 0 <= i < n + 1 && k in pages[..n + 1][i];
        assert i < n ==> k in pages[..n][i];
      }
      if Listed(pages[..n], k) {
        var i :| 0 <= i < n && k in pages[..n][i];
        assert k in pages[..n + 1][i];
      }
      if k in pages[n] {
        assert k in pages[..n + 1][n];
      }
    }
  }
}
