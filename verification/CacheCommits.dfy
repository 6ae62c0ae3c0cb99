/** The quota operations on a finished index, and what becomes of the first archive committed under a manifest key. */
module CacheCommits {
  import opened CacheQuotaModel
  import opened CacheRebuild
  import opened Wrappers

  datatype Answer = Stored | AlreadyExists | TooLarge

  /** `manifestObject` is the manifest as it would be stored. */
  datatype Commit = Commit(manifestKey: ObjectKey, manifestObject: Object, archiveKey: ObjectKey, sizeBytes: nat, createdAt: int) {
    predicate Sound() {
      manifestObject.manifest == Some(Manifest(archiveKey, createdAt))
    }
  }

  /** The archive and its pending entry are dropped. */
  function Discard(s: State, archiveKey: ObjectKey): State {
    State(s.entries - {Pending(archiveKey)}, s.bucket - {archiveKey})
  }

  predicate Commits(s: State, manifestKey: ObjectKey, archiveKey: ObjectKey) {
    && manifestKey in s.bucket
    && s.bucket[manifestKey].manifest.Some?
    && s.bucket[manifestKey].manifest.value.objectKey == archiveKey
  }

  function Inserted(s: State, c: Commit): State {
    var entry := Entry(c.archiveKey, Some(c.manifestKey), c.sizeBytes, c.createdAt);
    State((s.entries - {Pending(c.archiveKey)})[Action(c.manifestKey) := entry], s.bucket[c.manifestKey := c.manifestObject])
  }

  ghost function CommitAction(s: State, c: Commit, maximum: nat): (State, Answer) {
    if c.sizeBytes > maximum then (Discard(s, c.archiveKey), TooLarge)
    else if c.manifestKey !in s.bucket then (Evict(Inserted(s, c), maximum), Stored)
    else if Commits(s, c.manifestKey, c.archiveKey) then (s, Stored)
    else (Discard(s, c.archiveKey), AlreadyExists)
  }

  function LegacyInserted(s: State, key: ObjectKey, sizeBytes: nat, createdAt: int): State {
    s.(entries := s.entries[Legacy(key) := Entry(key, None, sizeBytes, createdAt)])
  }

  ghost function RecordLegacy(s: State, key: ObjectKey, sizeBytes: nat, createdAt: int, maximum: nat): State {
    Evict(LegacyInserted(s, key, sizeBytes, createdAt), maximum)
  }

  // ---------------------------------------------------------------- uploads and names

  /** Every upload goes to an archive of its own, made for one manifest key, with one size. */
  datatype World = World(prefix: string, purpose: ObjectKey -> ObjectKey, sizeOf: ObjectKey -> nat) {
    predicate IsArchive(key: ObjectKey) {
      KindOf(prefix, key) == ArchiveObject
    }

    predicate IsManifest(key: ObjectKey) {
      KindOf(prefix, key) == ManifestObject
    }

    predicate IsLegacy(key: ObjectKey) {
      KindOf(prefix, key) == LegacyObject
    }
  }

  ghost predicate EntryOk(s: State, w: World, e: EntryKey)
    requires e in s.entries
  {
    var entry := s.entries[e];
    match e
    case Legacy(k) => entry.archiveKey == k && entry.manifestKey.None? && w.IsLegacy(k)
    case Pending(a) => entry.archiveKey == a && entry.manifestKey.None? && w.IsArchive(a)
    case Action(m) =>
      && entry.manifestKey == Some(m) && w.IsManifest(m) && w.IsArchive(entry.archiveKey)
      && w.purpose(entry.archiveKey) == m
      && Commits(s, m, entry.archiveKey)
      && w.sizeOf(entry.archiveKey) == entry.sizeBytes
      && Pending(entry.archiveKey) !in s.entries
  }

  ghost predicate QuotaOk(s: State, w: World) {
    forall e :: e in s.entries ==> EntryOk(s, w, e)
  }

  /** No two entries share an object. */
  lemma {:induction false} ObjectsAreDisjoint(s: State, w: World, a: EntryKey, b: EntryKey)
    requires QuotaOk(s, w) && a in s.entries && b in s.entries && a != b
    ensures s.entries[a].Objects() !! s.entries[b].Objects()
  {
    assert EntryOk(s, w, a) && EntryOk(s, w, b);
    hide KindOf, QuotaOk;
  }

  lemma {:induction false} WithoutEntryKeepsOk(s: State, w: World, gone: EntryKey)
    requires QuotaOk(s, w) && gone in s.entries
    ensures QuotaOk(WithoutEntry(s, gone), w)
  {
    var t := WithoutEntry(s, gone);
    forall e | e in t.entries
      ensures EntryOk(t, w, e)
    {
      ObjectsAreDisjoint(s, w, gone, e);
      assert EntryOk(s, w, e);
      hide KindOf, QuotaOk;
    }
  }

  /** The archive committed under a manifest key, while both are there. */
  ghost predicate Holds(s: State, m: ObjectKey, archive: ObjectKey) {
    Action(m) in s.entries && s.entries[Action(m)].archiveKey == archive && m in s.bucket && archive in s.bucket
  }

  /** A manifest whose archive is gone. */
  ghost predicate Dangles(s: State, m: ObjectKey, archive: ObjectKey) {
    Commits(s, m, archive) && archive !in s.bucket
  }

  /** Either the commit is untouched, or it is gone altogether. */
  ghost predicate KeptOrGone(s: State, t: State, m: ObjectKey, archive: ObjectKey)
    requires Holds(s, m, archive)
  {
    || (Holds(t, m, archive) && t.bucket[m] == s.bucket[m] && t.bucket[archive] == s.bucket[archive])
    || (Action(m) !in t.entries && m !in t.bucket && archive !in t.bucket)
  }

  lemma {:induction false} EvictKeepsOk(s: State, w: World, limit: nat)
    requires QuotaOk(s, w)
    ensures QuotaOk(Evict(s, limit), w)
    decreases |s.entries|
  {
    if TotalBytes(s.entries) > limit && s.entries != map[] {
      var e := Oldest(s.entries);
      WithoutEntryKeepsOk(s, w, e);
      EvictKeepsOk(WithoutEntry(s, e), w, limit);
    }
  }

  lemma {:induction false} EvictOnlyRemoves(s: State, limit: nat, k: ObjectKey)
    requires k !in s.bucket
    ensures k !in Evict(s, limit).bucket
    decreases |s.entries|
  {
    if TotalBytes(s.entries) > limit && s.entries != map[] {
      EvictOnlyRemoves(WithoutEntry(s, Oldest(s.entries)), limit, k);
    }
  }

  lemma {:induction false} EvictKeepsOrRemoves(
      s: State, w: World, limit: nat, m: ObjectKey, archive: ObjectKey)
    requires QuotaOk(s, w) && Holds(s, m, archive)
    ensures KeptOrGone(s, Evict(s, limit), m, archive)
    decreases |s.entries|
  {
    if TotalBytes(s.entries) > limit && s.entries != map[] {
      var e := Oldest(s.entries);
      var next := WithoutEntry(s, e);
      assert EntryOk(s, w, Action(m));
      if e == Action(m) {
        EvictOnlyRemoves(next, limit, m);
        EvictOnlyRemoves(next, limit, archive);
        EvictKeepsLongestSuffix(next, limit);
      } else {
        ObjectsAreDisjoint(s, w, e, Action(m));
        WithoutEntryKeepsOk(s, w, e);
        EvictKeepsOrRemoves(next, w, limit, m, archive);
      }
    }
  }

  // ---------------------------------------------------------------- steps

  datatype Event =
    | Upload(archive: ObjectKey, contents: Object)
    | PutLegacy(key: ObjectKey, contents: Object)
    | Finalize(commit: Commit)
    | Record(key: ObjectKey, sizeBytes: nat, createdAt: int)

  /**
   * Finalization is asked for with the size and the purpose that an archive was uploaded with. The caller has looked at
   * the archive, but it may have been evicted since.
   */
  ghost predicate Possible(s: State, w: World, e: Event) {
    match e
    case Upload(archive, _) => w.IsArchive(archive) && archive !in s.bucket
    case PutLegacy(key, _) => w.IsLegacy(key)
    case Finalize(c) =>
      && c.Sound() && w.IsManifest(c.manifestKey) && w.IsArchive(c.archiveKey) && w.purpose(c.archiveKey) == c.manifestKey
      && w.sizeOf(c.archiveKey) == c.sizeBytes
    case Record(key, _, _) => w.IsLegacy(key)
  }

  ghost function Step(s: State, e: Event, maximum: nat): State {
    match e
    case Upload(archive, contents) => s.(bucket := s.bucket[archive := contents])
    case PutLegacy(key, contents) => s.(bucket := s.bucket[key := contents])
    case Finalize(c) => CommitAction(s, c, maximum).0
    case Record(key, sizeBytes, createdAt) => RecordLegacy(s, key, sizeBytes, createdAt, maximum)
  }

  /** An archive belongs to no entry but its own pending one and that of the commit it has won. */
  lemma {:induction false} DiscardedIsUnused(s: State, w: World, c: Commit, e: EntryKey)
    requires QuotaOk(s, w) && Possible(s, w, Finalize(c)) && e in s.entries && e != Pending(c.archiveKey)
    ensures c.archiveKey in s.entries[e].Objects() ==> e == Action(c.manifestKey) && Commits(s, c.manifestKey, c.archiveKey)
  {
    assert EntryOk(s, w, e);
    hide KindOf, QuotaOk;
  }

  /** Discarding an archive touches no commit, unless it is the archive of one. */
  lemma {:induction false} DiscardKeeps(s: State, w: World, c: Commit)
    requires QuotaOk(s, w) && Possible(s, w, Finalize(c))
    ensures var t := Discard(s, c.archiveKey);
      QuotaOk(t, w) && forall m, a :: Holds(s, m, a) ==>
        if a == c.archiveKey then Commits(s, c.manifestKey, a) && m == c.manifestKey && Dangles(t, m, a)
        else Holds(t, m, a) && t.bucket[m] == s.bucket[m] && t.bucket[a] == s.bucket[a]
  {
    var t := Discard(s, c.archiveKey);
    forall e | e in t.entries
      ensures EntryOk(t, w, e)
    {
      assert EntryOk(s, w, e);
      hide KindOf, QuotaOk;
    }
    forall m, a | Holds(s, m, a)
      ensures if a == c.archiveKey then Commits(s, c.manifestKey, a) && m == c.manifestKey && Dangles(t, m, a)
              else Holds(t, m, a) && t.bucket[m] == s.bucket[m] && t.bucket[a] == s.bucket[a]
    {
      DiscardedIsUnused(s, w, c, Action(m));
      assert EntryOk(s, w, Action(m));
      hide KindOf, QuotaOk;
    }
  }

  lemma {:induction false} InsertKeeps(s: State, w: World, c: Commit)
    requires QuotaOk(s, w) && Possible(s, w, Finalize(c)) && c.manifestKey !in s.bucket
    ensures var t := Inserted(s, c);
      QuotaOk(t, w)
      && forall m, a :: Holds(s, m, a) ==> Holds(t, m, a) && t.bucket[m] == s.bucket[m] && t.bucket[a] == s.bucket[a]
  {
    var t := Inserted(s, c);
    forall e | e in t.entries
      ensures EntryOk(t, w, e)
    {
      if e != Action(c.manifestKey) {
        assert EntryOk(s, w, e);
      }
      hide KindOf, QuotaOk;
    }
  }

  lemma {:induction false} LegacyKeeps(s: State, w: World, key: ObjectKey, sizeBytes: nat, createdAt: int)
    requires QuotaOk(s, w) && w.IsLegacy(key)
    ensures QuotaOk(LegacyInserted(s, key, sizeBytes, createdAt), w)
  {
    var t := LegacyInserted(s, key, sizeBytes, createdAt);
    forall e | e in t.entries
      ensures EntryOk(t, w, e)
    {
      if e != Legacy(key) {
        assert EntryOk(s, w, e);
      }
      hide KindOf, QuotaOk;
    }
  }

  lemma {:induction false} PutKeeps(s: State, w: World, key: ObjectKey, contents: Object)
    requires QuotaOk(s, w) && (w.IsLegacy(key) || (w.IsArchive(key) && key !in s.bucket))
    ensures var t := s.(bucket := s.bucket[key := contents]);
      QuotaOk(t, w) && forall m, a :: Holds(s, m, a) ==> KeptOrGone(s, t, m, a)
  {
    var t := s.(bucket := s.bucket[key := contents]);
    forall e | e in t.entries
      ensures EntryOk(t, w, e)
    {
      assert EntryOk(s, w, e);
      hide KindOf, QuotaOk;
    }
    forall m, a | Holds(s, m, a)
      ensures KeptOrGone(s, t, m, a)
    {
      assert EntryOk(s, w, Action(m));
      hide KindOf, QuotaOk;
    }
  }

  /** The retry of the commit that an archive has won, while the archive is above the maximum. */
  predicate RetriesOversized(e: Event, maximum: nat, archive: ObjectKey) {
    e.Finalize? && e.commit.archiveKey == archive && e.commit.sizeBytes > maximum
  }

  lemma {:induction false} FinalizeKeeps(s: State, w: World, maximum: nat, c: Commit, m: ObjectKey, archive: ObjectKey)
    requires QuotaOk(s, w) && Possible(s, w, Finalize(c))
    ensures var t := CommitAction(s, c, maximum).0;
      && QuotaOk(t, w)
      && (Holds(s, m, archive) ==>
            if RetriesOversized(Finalize(c), maximum, archive) then Dangles(t, m, archive) else KeptOrGone(s, t, m, archive))
  {
    if c.sizeBytes > maximum || (c.manifestKey in s.bucket && !Commits(s, c.manifestKey, c.archiveKey)) {
      DiscardKeeps(s, w, c);
    } else if c.manifestKey !in s.bucket {
      InsertKeeps(s, w, c);
      EvictKeepsOk(Inserted(s, c), w, maximum);
      if Holds(s, m, archive) {
        EvictKeepsOrRemoves(Inserted(s, c), w, maximum, m, archive);
      }
    }
    hide Evict, QuotaOk;
  }

  lemma {:induction false} RecordKeeps(
      s: State, w: World, maximum: nat, key: ObjectKey, sizeBytes: nat, createdAt: int, m: ObjectKey, archive: ObjectKey)
    requires QuotaOk(s, w) && w.IsLegacy(key)
    ensures QuotaOk(RecordLegacy(s, key, sizeBytes, createdAt, maximum), w)
    ensures Holds(s, m, archive) ==> KeptOrGone(s, RecordLegacy(s, key, sizeBytes, createdAt, maximum), m, archive)
  {
    var t := LegacyInserted(s, key, sizeBytes, createdAt);
    LegacyKeeps(s, w, key, sizeBytes, createdAt);
    EvictKeepsOk(t, w, maximum);
    if Holds(s, m, archive) {
      EvictKeepsOrRemoves(t, w, maximum, m, archive);
    }
    hide Evict, QuotaOk;
  }

  /** A step keeps a commit, evicts it whole, or is a retry over the maximum and takes the archive from its manifest. */
  lemma {:induction false} StepKeepsCommits(
      s: State, w: World, maximum: nat, e: Event, m: ObjectKey, archive: ObjectKey)
    requires QuotaOk(s, w) && Possible(s, w, e)
    ensures var t := Step(s, e, maximum);
      && QuotaOk(t, w)
      && (Holds(s, m, archive) ==>
            if RetriesOversized(e, maximum, archive) then Dangles(t, m, archive) else KeptOrGone(s, t, m, archive))
  {
    match e
    case Upload(key, contents) => PutKeeps(s, w, key, contents);
    case PutLegacy(key, contents) => PutKeeps(s, w, key, contents);
    case Finalize(c) => FinalizeKeeps(s, w, maximum, c, m, archive);
    case Record(key, sizeBytes, createdAt) => RecordKeeps(s, w, maximum, key, sizeBytes, createdAt, m, archive);
  }

  // ---------------------------------------------------------------- runs

  /** The maximum is configured outside and may be another one at every call. */
  datatype Moment = Moment(event: Event, maximum: nat)

  datatype Run = Run(states: seq<State>, moments: seq<Moment>) {
    ghost predicate Valid(w: World) {
      && |states| == |moments| + 1
      && QuotaOk(states[0], w)
      && forall i :: 0 <= i < |moments| ==> Follows(w, i)
    }

    ghost predicate Follows(w: World, i: nat)
      requires i < |moments| && |states| == |moments| + 1
    {
      Possible(states[i], w, moments[i].event) && states[i + 1] == Step(states[i], moments[i].event, moments[i].maximum)
    }
  }

  lemma {:induction false} OkInRun(run: Run, w: World, n: nat)
    requires run.Valid(w) && n < |run.states|
    ensures QuotaOk(run.states[n], w)
  {
    if n > 0 {
      OkInRun(run, w, n - 1);
      assert run.Follows(w, n - 1);
      StepKeepsCommits(run.states[n - 1], w, run.moments[n - 1].maximum, run.moments[n - 1].event, "", "");
    }
  }

  /** The step to state `k` evicted the commit with its manifest and its archive. */
  ghost predicate EvictedAt(run: Run, k: nat, m: ObjectKey, archive: ObjectKey)
    requires 0 < k < |run.states|
  {
    && Holds(run.states[k - 1], m, archive)
    && Action(m) !in run.states[k].entries && m !in run.states[k].bucket && archive !in run.states[k].bucket
  }

  /** The step to state `k` was a retry over the maximum, which deleted the archive and left the manifest. */
  ghost predicate StrippedAt(run: Run, k: nat, m: ObjectKey, archive: ObjectKey)
    requires 0 < k < |run.states| && |run.states| == |run.moments| + 1
  {
    && Holds(run.states[k - 1], m, archive)
    && RetriesOversized(run.moments[k - 1].event, run.moments[k - 1].maximum, archive)
    && Dangles(run.states[k], m, archive)
  }

  /**
   * Once an archive has been committed under a manifest key, both objects stay as they are, whoever commits or
   * retries, until an eviction removes the two together or its own retry finds it above a maximum lowered since.
   */
  lemma {:induction false} FirstCommitStays(run: Run, w: World, i: nat, j: nat, m: ObjectKey, archive: ObjectKey)
    requires run.Valid(w) && i <= j < |run.states| && Holds(run.states[i], m, archive)
    ensures
      || (exists k :: i < k <= j && (EvictedAt(run, k, m, archive) || StrippedAt(run, k, m, archive)))
      || (&& Holds(run.states[j], m, archive)
          && run.states[j].bucket[m] == run.states[i].bucket[m]
          && run.states[j].bucket[archive] == run.states[i].bucket[archive])
  {
    if i < j {
      FirstCommitStays(run, w, i, j - 1, m, archive);
      OkInRun(run, w, j - 1);
      assert run.Follows(w, j - 1);
      var moment := run.moments[j - 1];
      StepKeepsCommits(run.states[j - 1], w, moment.maximum, moment.event, m, archive);
      hide Step, QuotaOk;
      if Holds(run.states[j - 1], m, archive) {
        if RetriesOversized(moment.event, moment.maximum, archive) {
          assert StrippedAt(run, j, m, archive);
        } else if !Holds(run.states[j], m, archive) {
          assert EvictedAt(run, j, m, archive);
        }
      }
    }
  }

  lemma {:induction false} EvictedEntryIsGone(s: State, w: World, limit: nat, m: ObjectKey)
    requires QuotaOk(s, w) && Action(m) in s.entries
    ensures var t, archive := Evict(s, limit), s.entries[Action(m)].archiveKey;
      if Action(m) in t.entries then
        t.entries[Action(m)] == s.entries[Action(m)] && Commits(t, m, archive) && (archive in t.bucket <==> archive in s.bucket)
      else
        m !in t.bucket && archive !in t.bucket
    decreases |s.entries|
  {
    if TotalBytes(s.entries) > limit && s.entries != map[] {
      var e := Oldest(s.entries);
      var next := WithoutEntry(s, e);
      assert EntryOk(s, w, Action(m));
      if e == Action(m) {
        EvictOnlyRemoves(next, limit, m);
        EvictOnlyRemoves(next, limit, s.entries[e].archiveKey);
        EvictKeepsLongestSuffix(next, limit);
      } else {
        ObjectsAreDisjoint(s, w, e, Action(m));
        WithoutEntryKeepsOk(s, w, e);
        EvictedEntryIsGone(next, w, limit, m);
      }
    } else {
      assert EntryOk(s, w, Action(m));
    }
  }

  /**
   * A stored commit is held afterwards, or gone altogether with its objects, exactly when its archive was still there;
   * otherwise it leaves a manifest without an archive, unless it was evicted at once.
   */
  lemma {:induction false} StoredCommitIsHeldExactlyWhenPresent(s: State, w: World, maximum: nat, c: Commit)
    requires QuotaOk(s, w) && Possible(s, w, Finalize(c)) && c.sizeBytes <= maximum && c.manifestKey !in s.bucket
    ensures var (t, answer) := CommitAction(s, c, maximum);
      && answer == Stored && TotalBytes(t.entries) <= maximum
      && (if Action(c.manifestKey) in t.entries then
            && (Holds(t, c.manifestKey, c.archiveKey) <==> c.archiveKey in s.bucket)
            && (Dangles(t, c.manifestKey, c.archiveKey) <==> c.archiveKey !in s.bucket)
          else
            c.manifestKey !in t.bucket && c.archiveKey !in t.bucket)
  {
    InsertKeeps(s, w, c);
    EvictedEntryIsGone(Inserted(s, c), w, maximum, c.manifestKey);
    EvictKeepsLongestSuffix(Inserted(s, c), maximum);
    hide KindOf, QuotaOk, Evict;
  }

  /** What a commit is answered, and what becomes of its archive: it is kept exactly when the answer is that it is stored. */
  lemma {:induction false} CommitAnswersExactly(s: State, c: Commit, maximum: nat)
    ensures var (t, answer) := CommitAction(s, c, maximum);
      var taken := c.manifestKey in s.bucket;
      var own := taken && s.bucket[c.manifestKey].manifest.Some?
        && s.bucket[c.manifestKey].manifest.value.objectKey == c.archiveKey;
      && (answer == TooLarge <==> maximum < c.sizeBytes)
      && (answer == Stored <==> c.sizeBytes <= maximum && (!taken || own))
      && (answer == AlreadyExists <==> c.sizeBytes <= maximum && taken && !own)
      && (answer != Stored ==> c.archiveKey !in t.bucket && Pending(c.archiveKey) !in t.entries)
      && (answer != Stored ==> t.bucket == s.bucket - {c.archiveKey} && t.entries == s.entries - {Pending(c.archiveKey)})
      && (answer == Stored && own ==> t == s)
  {
    hide Evict;
  }

  /** A manifest without its archive keeps its key taken: whoever saves under it loses the new archive. */
  lemma {:induction false} DanglingManifestBlocksItsKey(s: State, c: Commit, maximum: nat, archive: ObjectKey)
    requires Dangles(s, c.manifestKey, archive) && c.archiveKey != archive && c.sizeBytes <= maximum
    ensures var (t, answer) := CommitAction(s, c, maximum);
      && answer == AlreadyExists && c.archiveKey !in t.bucket
      && (Dangles(t, c.manifestKey, archive) <==> c.archiveKey != c.manifestKey)
  {
  }

  /** Retrying the winner is answered as stored and changes nothing, exactly when its archive is within the maximum. */
  lemma {:induction false} RetryIsHarmlessExactlyWithinMaximum(s: State, c: Commit, maximum: nat)
    requires Commits(s, c.manifestKey, c.archiveKey)
    ensures CommitAction(s, c, maximum) == (s, Stored) <==> c.sizeBytes <= maximum
  {
  }

  /** A loser's archive is deleted, and every commit stays as it is. */
  lemma {:induction false} LoserDeletesOnlyItsArchive(s: State, w: World, maximum: nat, c: Commit)
    requires QuotaOk(s, w) && Possible(s, w, Finalize(c)) && c.sizeBytes <= maximum
    requires c.manifestKey in s.bucket && !Commits(s, c.manifestKey, c.archiveKey)
    ensures var (t, answer) := CommitAction(s, c, maximum);
      && answer == AlreadyExists
      && t.bucket == s.bucket - {c.archiveKey}
      && t.entries == s.entries - {Pending(c.archiveKey)}
      && forall m, a :: Holds(s, m, a) ==> a != c.archiveKey && Holds(t, m, a)
  {
    DiscardKeeps(s, w, c);
  }

  // ---------------------------------------------------------------- an archive that is gone when it is committed

  /** Of two entries of one byte each, a maximum of one byte keeps the younger. */
  lemma {:induction false} OlderOfTwoGoes(s: State, older: EntryKey, younger: EntryKey)
    requires older != younger && s.entries.Keys == {older, younger}
    requires s.entries[older].sizeBytes == s.entries[younger].sizeBytes == 1
    requires s.entries[older].createdAt < s.entries[younger].createdAt
    ensures Evict(s, 1) == WithoutEntry(s, older)
  {
    var rest := s.entries - {older};
    assert rest.Keys == {younger} && rest - {younger} == map[];
    TotalBytesRemove(s.entries, older);
    TotalBytesRemove(rest, younger);
    assert IsOldest(s.entries, older);
    OldestIsUnique(s.entries, older, Oldest(s.entries));
  }

  lemma {:induction false} RecordEvictsPending(archive: ObjectKey, legacy: ObjectKey, uploaded: Object, saved: Object)
    requires archive != legacy
    ensures var s := State(map[Pending(archive) := Entry(archive, None, 1, 0)], map[archive := uploaded, legacy := saved]);
      RecordLegacy(s, legacy, 1, 1, 1) == State(map[Legacy(legacy) := Entry(legacy, None, 1, 1)], map[legacy := saved])
  {
    var s := State(map[Pending(archive) := Entry(archive, None, 1, 0)], map[archive := uploaded, legacy := saved]);
    var recorded := LegacyInserted(s, legacy, 1, 1);
    OlderOfTwoGoes(recorded, Pending(archive), Legacy(legacy));
    assert recorded.entries - {Pending(archive)} == map[Legacy(legacy) := Entry(legacy, None, 1, 1)];
    assert recorded.bucket - {archive} == map[legacy := saved];
    hide Evict;
  }

  lemma {:induction false} FinalizeEvictsLegacy(legacy: ObjectKey, saved: Object, c: Commit)
    requires c.sizeBytes == 1 && c.createdAt == 2 && c.manifestKey != legacy
    ensures var s := State(map[Legacy(legacy) := Entry(legacy, None, 1, 1)], map[legacy := saved]);
      CommitAction(s, c, 1).0 == State(map[Action(c.manifestKey) := Entry(c.archiveKey, Some(c.manifestKey), 1, 2)],
                                       map[c.manifestKey := c.manifestObject])
  {
    var s := State(map[Legacy(legacy) := Entry(legacy, None, 1, 1)], map[legacy := saved]);
    var inserted := Inserted(s, c);
    OlderOfTwoGoes(inserted, Legacy(legacy), Action(c.manifestKey));
    assert inserted.entries - {Legacy(legacy)} == map[Action(c.manifestKey) := Entry(c.archiveKey, Some(c.manifestKey), 1, 2)];
    assert inserted.bucket - {legacy} == map[c.manifestKey := c.manifestObject];
    hide Evict;
  }

  /**
   * The index has been rebuilt after the upload of `archive`, so it has a pending entry. A legacy cache is recorded
   * before its finalization and evicts it; the finalization then stores a manifest without an archive.
   */
  lemma {:induction false} CommitOfEvictedArchiveDangles(
      w: World, manifest: ObjectKey, archive: ObjectKey, legacy: ObjectKey, uploaded: Object, saved: Object, stored: Object)
    returns (run: Run)
    requires w.IsManifest(manifest) && w.IsArchive(archive) && w.IsLegacy(legacy)
    requires w.purpose(archive) == manifest && w.sizeOf(archive) == 1 && stored.manifest == Some(Manifest(archive, 2))
    ensures run.Valid(w) && |run.moments| == 2 && run.moments[0].maximum == run.moments[1].maximum == 1
    ensures run.states[0].entries == map[Pending(archive) := Entry(archive, None, 1, 0)] && archive in run.states[0].bucket
    ensures run.moments[1].event.Finalize? && run.moments[1].event.commit.archiveKey == archive
    ensures Dangles(run.states[2], manifest, archive)
  {
    var c := Commit(manifest, stored, archive, 1, 2);
    var s0 := State(map[Pending(archive) := Entry(archive, None, 1, 0)], map[archive := uploaded, legacy := saved]);
    hide Evict, CommitAction, RecordLegacy;
    RecordEvictsPending(archive, legacy, uploaded, saved);
    FinalizeEvictsLegacy(legacy, saved, c);
    var s1 := RecordLegacy(s0, legacy, 1, 1, 1);
    run := Run([s0, s1, CommitAction(s1, c, 1).0], [Moment(Record(legacy, 1, 1), 1), Moment(Finalize(c), 1)]);
    hide KindOf;
    assert QuotaOk(s0, w);
    assert run.Follows(w, 0) && run.Follows(w, 1);
  }

  // ---------------------------------------------------------------- after a rebuild

  /** Runs may start from a rebuilt index, if the bucket holds one archive for each manifest. */
  lemma {:induction false} RebuiltIndexIsOk(s: State, w: World)
    requires IsIndex(s.entries, s.bucket, w.prefix) && ManifestsNameArchives(s.bucket, w.prefix)
    requires forall m :: ValidManifest(s.bucket, w.prefix, m) ==>
      var archive := s.bucket[m].manifest.value.objectKey;
      w.purpose(archive) == m && w.sizeOf(archive) == s.bucket[archive].size
    ensures QuotaOk(s, w)
  {
    forall e | e in s.entries
      ensures EntryOk(s, w, e)
    {
      EntryCountsItsObject(s.entries, s.bucket, w.prefix, e);
      if e.Action? {
        assert ValidManifest(s.bucket, w.prefix, e.key);
        assert Named(s.bucket, w.prefix, s.entries[e].archiveKey);
      }
      hide KindOf;
    }
  }
}
