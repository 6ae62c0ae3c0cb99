/** The cache index over one bucket: entries, their eviction order, and what each quota operation does to both. */
module CacheQuotaModel {
  import opened Wrappers

  type ObjectKey = string

  // ---------------------------------------------------------------- the order of names

  predicate Precedes(a: string, b: string) {
    if a == "" then b != ""
    else b != "" && (a[0] < b[0] || (a[0] == b[0] && Precedes(a[1..], b[1..])))
  }

  lemma {:induction false} PrecedesIsTotal(a: string, b: string)
    ensures a == b || Precedes(a, b) || Precedes(b, a)
  {
    if a != "" && b != "" && a[0] == b[0] {
      PrecedesIsTotal(a[1..], b[1..]);
      assert a == [a[0]] + a[1..] && b == [b[0]] + b[1..];
    }
  }

  lemma {:induction false} PrecedesIsTransitive(a: string, b: string, c: string)
    requires Precedes(a, b) && Precedes(b, c)
    ensures Precedes(a, c)
  {
    if a != "" && a[0] == b[0] == c[0] {
      PrecedesIsTransitive(a[1..], b[1..], c[1..]);
    }
  }

  lemma {:induction false} PrecedesIsStrict(a: string)
    ensures !Precedes(a, a)
  {
    if a != "" {
      PrecedesIsStrict(a[1..]);
    }
  }

  /** The name that ends first, or has the smaller character where the two first differ. */
  lemma {:induction false} PrecedesExactlyWhen(a: string, b: string)
    ensures Precedes(a, b) <==>
      exists n: nat :: n <= |a| && n < |b| && a[..n] == b[..n] && (n == |a| || a[n] < b[n])
  {
    if a != "" && b != "" && a[0] == b[0] {
      PrecedesExactlyWhen(a[1..], b[1..]);
      if n: nat :| n <= |a| && n < |b| && a[..n] == b[..n] && (n == |a| || a[n] < b[n]) {
        assert n > 0 && a[1..][..n - 1] == a[..n][1..] == b[..n][1..] == b[1..][..n - 1];
      }
      if n: nat :| n <= |a[1..]| && n < |b[1..]| && a[1..][..n] == b[1..][..n] && (n == |a[1..]| || a[1..][n] < b[1..][n]) {
        assert a[..n + 1] == [a[0]] + a[1..][..n] && b[..n + 1] == [b[0]] + b[1..][..n];
      }
    } else if b != "" {
      assert a[..0] == b[..0];
    }
  }

  // ---------------------------------------------------------------- entries and objects

  datatype EntryKey = Legacy(key: ObjectKey) | Action(key: ObjectKey) | Pending(key: ObjectKey) {
    /** The primary key as it is stored. */
    function Text(): string {
      match this
      case Legacy(k) => "legacy:" + k
      case Action(k) => "action:" + k
      case Pending(k) => "pending:" + k
    }
  }

  lemma {:induction false} TextIsInjective(a: EntryKey, b: EntryKey)
    requires a.Text() == b.Text()
    ensures a == b
  {
    assert a.Text()[0] == b.Text()[0];
    var n := if a.Pending? then 8 else 7;
    assert a.Text()[n..] == a.key && b.Text()[n..] == b.key;
  }

  datatype Entry = Entry(archiveKey: ObjectKey, manifestKey: Option<ObjectKey>, sizeBytes: nat, createdAt: int) {
    /** The objects an eviction of this entry deletes. */
    function Objects(): set<ObjectKey> {
      {archiveKey} + (if manifestKey.Some? then {manifestKey.value} else {})
    }
  }

  type Entries = map<EntryKey, Entry>

  datatype Manifest = Manifest(objectKey: ObjectKey, createdAt: int)

  /** `manifest` is what the object's body parses to, if it is a well-formed manifest. */
  datatype Object = Object(size: nat, uploaded: int, manifest: Option<Manifest>)

  type Bucket = map<ObjectKey, Object>

  datatype State = State(entries: Entries, bucket: Bucket)

  ghost function TotalBytes(entries: Entries): nat
    decreases |entries|
  {
    if entries == map[] then 0
    else
      var e :| e in entries;
      entries[e].sizeBytes + TotalBytes(entries - {e})
  }

  lemma {:induction false} TotalBytesRemove(entries: Entries, e: EntryKey)
    requires e in entries
    ensures TotalBytes(entries) == entries[e].sizeBytes + TotalBytes(entries - {e})
    decreases |entries|
  {
    var x :| x in entries && TotalBytes(entries) == entries[x].sizeBytes + TotalBytes(entries - {x});
    if x != e {
      TotalBytesRemove(entries - {x}, e);
      TotalBytesRemove(entries - {e}, x);
      assert entries - {x} - {e} == entries - {e} - {x};
    }
  }

  lemma {:induction false} TotalBytesSubset(small: Entries, large: Entries)
    requires forall e :: e in small ==> e in large && large[e] == small[e]
    ensures TotalBytes(small) <= TotalBytes(large)
    decreases |large|
  {
    if e :| e in large && e !in small {
      TotalBytesRemove(large, e);
      TotalBytesSubset(small, large - {e});
    } else {
      assert small == large;
    }
  }

  // ---------------------------------------------------------------- eviction

  /** `a` is evicted before `b`. */
  predicate Older(entries: Entries, a: EntryKey, b: EntryKey)
    requires a in entries && b in entries
  {
    entries[a].createdAt < entries[b].createdAt || (entries[a].createdAt == entries[b].createdAt && Precedes(a.Text(), b.Text()))
  }

  lemma {:induction false} OlderIsStrictTotal(entries: Entries, a: EntryKey, b: EntryKey)
    requires a in entries && b in entries
    ensures a != b ==> Older(entries, a, b) || Older(entries, b, a)
    ensures Older(entries, a, b) ==> !Older(entries, b, a) && a != b
  {
    if a.Text() == b.Text() {
      TextIsInjective(a, b);
    }
    PrecedesIsTotal(a.Text(), b.Text());
    PrecedesIsStrict(a.Text());
    if Precedes(a.Text(), b.Text()) && Precedes(b.Text(), a.Text()) {
      PrecedesIsTransitive(a.Text(), b.Text(), a.Text());
    }
  }

  lemma {:induction false} OlderIsTransitive(entries: Entries, a: EntryKey, b: EntryKey, c: EntryKey)
    requires a in entries && b in entries && c in entries && Older(entries, a, b) && Older(entries, b, c)
    ensures Older(entries, a, c)
  {
    if Precedes(a.Text(), b.Text()) && Precedes(b.Text(), c.Text()) {
      PrecedesIsTransitive(a.Text(), b.Text(), c.Text());
    }
  }

  ghost predicate IsOldest(entries: Entries, e: EntryKey) {
    e in entries && forall other :: other in entries && other != e ==> Older(entries, e, other)
  }

  lemma {:induction false} OldestExists(entries: Entries)
    requires entries != map[]
    ensures exists e :: IsOldest(entries, e)
    decreases |entries|
  {
    var x :| x in entries;
    var rest := entries - {x};
    if rest == map[] {
      assert forall other :: other in entries && other != x ==> other in rest;
      assert IsOldest(entries, x);
    } else {
      OldestExists(rest);
      var y :| IsOldest(rest, y);
      OldestOfTwo(entries, x, y);
    }
  }

  lemma {:induction false} OldestOfTwo(entries: Entries, x: EntryKey, y: EntryKey)
    requires x in entries && IsOldest(entries - {x}, y)
    ensures IsOldest(entries, x) || IsOldest(entries, y)
  {
    OlderIsStrictTotal(entries, x, y);
    forall other | other in entries && other != x && other != y
      ensures Older(entries, y, other)
      ensures Older(entries, x, y) ==> Older(entries, x, other)
    {
      assert Older(entries - {x}, y, other);
      if Older(entries, x, y) {
        OlderIsTransitive(entries, x, y, other);
      }
    }
  }

  lemma {:induction false} OldestIsUnique(entries: Entries, a: EntryKey, b: EntryKey)
    requires IsOldest(entries, a) && IsOldest(entries, b)
    ensures a == b
  {
    OlderIsStrictTotal(entries, a, b);
  }

  ghost function Oldest(entries: Entries): (e: EntryKey)
    requires entries != map[]
    ensures IsOldest(entries, e)
  {
    OldestExists(entries);
    var e :| IsOldest(entries, e);
    e
  }

  function WithoutEntry(s: State, e: EntryKey): State
    requires e in s.entries
  {
    State(s.entries - {e}, s.bucket - s.entries[e].Objects())
  }

  /** Evicts the oldest entry, with its objects, until the total is within the maximum. */
  ghost function Evict(s: State, maximum: nat): State
    decreases |s.entries|
  {
    if TotalBytes(s.entries) <= maximum || s.entries == map[] then s
    else Evict(WithoutEntry(s, Oldest(s.entries)), maximum)
  }

  /** What is left when a number of the oldest entries is gone. */
  ghost predicate IsSuffix(entries: Entries, kept: Entries) {
    && (forall e :: e in kept ==> e in entries && kept[e] == entries[e])
    && (forall gone, e :: gone in entries && gone !in kept && e in kept ==> Older(entries, gone, e))
  }

  lemma {:induction false} SuffixOfRest(entries: Entries, e: EntryKey, kept: Entries)
    requires IsOldest(entries, e) && IsSuffix(entries, kept)
    ensures kept == entries || IsSuffix(entries - {e}, kept)
  {
    if e in kept {
      forall x | x in entries
        ensures x in kept
      {
        if x != e && x !in kept {
          OlderIsStrictTotal(entries, x, e);
        }
      }
      assert kept == entries;
    }
  }

  lemma {:induction false} SuffixExtends(entries: Entries, e: EntryKey, kept: Entries)
    requires IsOldest(entries, e) && IsSuffix(entries - {e}, kept)
    ensures IsSuffix(entries, kept)
  {
    forall gone, x | gone in entries && gone !in kept && x in kept
      ensures Older(entries, gone, x)
    {
      if gone != e {
        assert Older(entries - {e}, gone, x);
      }
    }
  }

  /**
   * Eviction ends within the maximum, removes the oldest entries only, and stops as soon as it can: every way of
   * dropping some of the oldest entries that fits keeps no more.
   */
  lemma {:induction false} EvictKeepsLongestSuffix(s: State, maximum: nat)
    ensures var kept := Evict(s, maximum).entries;
      && TotalBytes(kept) <= maximum
      && IsSuffix(s.entries, kept)
      && forall other :: IsSuffix(s.entries, other) && TotalBytes(other) <= maximum ==> other.Keys <= kept.Keys
    decreases |s.entries|
  {
    var kept := Evict(s, maximum).entries;
    if TotalBytes(s.entries) > maximum && s.entries != map[] {
      var e := Oldest(s.entries);
      EvictKeepsLongestSuffix(WithoutEntry(s, e), maximum);
      SuffixExtends(s.entries, e, kept);
      forall other | IsSuffix(s.entries, other) && TotalBytes(other) <= maximum
        ensures other.Keys <= kept.Keys
      {
        SuffixOfRest(s.entries, e, other);
      }
    }
  }

  ghost function ObjectsOf(entries: Entries): set<ObjectKey> {
    set e, k | e in entries && k in entries[e].Objects() :: k
  }

  lemma {:induction false} ObjectsOfRemove(entries: Entries, e: EntryKey)
    requires e in entries
    ensures ObjectsOf(entries) == entries[e].Objects() + ObjectsOf(entries - {e})
  {
    forall k | k in ObjectsOf(entries)
      ensures k in entries[e].Objects() + ObjectsOf(entries - {e})
    {
      var x :| x in entries && k in entries[x].Objects();
      assert x == e || (x in entries - {e} && k in (entries - {e})[x].Objects());
    }
    hide Entry.Objects;
  }

  lemma {:induction false} DeleteTwice(bucket: Bucket, a: set<ObjectKey>, b: set<ObjectKey>)
    ensures bucket - a - b == bucket - (a + b)
  {
  }

  /** Eviction deletes exactly the objects of the evicted entries. */
  lemma {:induction false} EvictDeletesTheirObjects(s: State, maximum: nat)
    ensures var t := Evict(s, maximum); t.bucket == s.bucket - ObjectsOf(s.entries - t.entries.Keys)
    decreases |s.entries|
  {
    var t := Evict(s, maximum);
    hide IsOldest, ObjectsOf, Entry.Objects, TotalBytes;
    if TotalBytes(s.entries) > maximum && s.entries != map[] {
      var e := Oldest(s.entries);
      EvictedFirst(s, maximum);
      var next, gone := WithoutEntry(s, e), s.entries - t.entries.Keys;
      EvictDeletesTheirObjects(next, maximum);
      hide Evict;
      assert next.entries - t.entries.Keys == gone - {e};
      ObjectsOfRemove(gone, e);
      DeleteTwice(s.bucket, s.entries[e].Objects(), ObjectsOf(gone - {e}));
    } else {
      assert s.entries - t.entries.Keys == map[];
      NoObjects();
    }
  }

  lemma {:induction false} NoObjects()
    ensures ObjectsOf(map[]) == {}
  {
  }

  lemma {:induction false} EvictedFirst(s: State, maximum: nat)
    requires TotalBytes(s.entries) > maximum && s.entries != map[]
    ensures var e := Oldest(s.entries); e in s.entries && e !in Evict(s, maximum).entries
  {
    var next := WithoutEntry(s, Oldest(s.entries));
    EvictKeepsLongestSuffix(next, maximum);
    assert Oldest(s.entries) !in next.entries;
    hide IsOldest, Oldest;
  }
}
