/** Failover safety: what every step of a lone coordinator keeps, and what whole runs therefore guarantee. */
module ReplicationSafety {
  import opened Wrappers
  import opened Operations
  import opened OutboxLog
  import opened RedisServer
  import opened NativeRecords
  import opened Publish
  import opened Remote
  import opened Stores
  import opened Replication

  // ---------- The invariant ----------

  /** An entry whose effect has not reached Redis. */
  ghost predicate Unpublished<S>(img: Image<S>, e: Entry) {
    !e.redisCommitted && !IsCommitted(img, e.key)
  }

  ghost predicate Clean<S>(tools: Tools<S>, img: Image<S>, s: S, scope: string) {
    RecordsOf(img, scope) == Project(tools, s, scope).records
  }

  ghost predicate Dirty<S>(img: Image<S>, pending: seq<Entry>, scope: string) {
    exists e :: e in pending && Unpublished(img, e) && Touches(e.operation, scope)
  }

  /** Dirty-scope coverage: a scope on which Redis and the active state differ is touched by an unpublished entry. */
  ghost predicate Covered<S>(tools: Tools<S>, img: Image<S>, pending: seq<Entry>, s: S) {
    forall scope :: Clean(tools, img, s, scope) || Dirty(img, pending, scope)
  }

  /** While the connection can still take effect, the coordinator knows the revision and every record Redis holds. */
  ghost predicate Wired<S>(w: World<S>) {
    w.link.Some? && w.link.value != DEAD ==>
      w.revision == w.img.revision && forall scope :: Lookup(w.cache, scope) == RecordsOf(w.img, scope)
  }

  ghost predicate Listed<S>(tools: Tools<S>, img: Image<S>, s: S) {
    forall scope :: RecordsOf(img, scope) != map[] ==> scope in AllScopes(tools, s)
  }

  /** The active store contains every entry that has not reached Redis, and the coordinator knows it. */
  ghost predicate HoldsLocal<S>(w: World<S>) {
    forall e :: e in w.pending && Unpublished(w.img, e) ==> w.usesLocal
  }

  ghost predicate Shape<S>(w: World<S>) {
    && DistinctKeys(w.pending)
    && (w.active.Some? <==> w.mode == RedisPrimary) && (w.link.Some? <==> w.mode == RedisPrimary)
    && (w.mode == SqliteFallback ==> AnyWith(w.pending, false))
    && (w.mode == RedisPrimary ==> HoldsLocal(w))
    && w.img.snapshot.Some?
  }

  /** Markers and committed entries have committed ledger records; no waiting entry is marked as a conflict. */
  ghost predicate Ledgered<S>(img: Image<S>, pending: seq<Entry>) {
    && (forall key :: key in img.markers ==> IsCommitted(img, key))
    && (forall e :: e in pending && e.redisCommitted ==> IsCommitted(img, e.key))
    && (forall e :: e in pending && !e.redisCommitted ==> !IsConflict(img, e.key))
  }

  /** Every key that occurs anywhere is one that was used before. */
  ghost predicate Known<S>(w: World<S>, used: set<string>) {
    && w.img.ledger.Keys <= used
    && forall e :: e in w.pending ==> e.key in used
  }

  /** Only mutations are ever queued, each under its own digest. */
  ghost predicate Mutations<S>(tools: Tools<S>, pending: seq<Entry>) {
    forall e :: e in pending ==> IsMutation(tools, e)
  }

  predicate IsMutation<S>(tools: Tools<S>, e: Entry) {
    tools.mutating(e.operation.name) && e.key == tools.key(e.operation)
  }

  ghost predicate Good<S>(tools: Tools<S>, w: World<S>, used: set<string>) {
    && Shape(w) && Wired(w) && Ledgered(w.img, w.pending) && Known(w, used) && Mutations(tools, w.pending)
    && Covered(tools, w.img, w.pending, ActiveStore(w)) && Listed(tools, w.img, ActiveStore(w))
  }

  /** What a reconciliation keeps: everything, and in particular the active state. */
  ghost predicate Keeps<S>(tools: Tools<S>, w: World<S>, t: World<S>, used: set<string>) {
    && Good(tools, t, used) && t.active == w.active && t.mode == RedisPrimary == w.mode
  }

  // ---------- Entries ----------

  lemma AnyWithIn(entries: seq<Entry>, committed: bool)
    ensures AnyWith(entries, committed) <==> exists e :: e in entries && e.redisCommitted == committed
  {
    if AnyWith(entries, committed) {
      var i :| 0 <= i < |entries| && entries[i].redisCommitted == committed;
      assert entries[i] in entries;
    }
  }

  lemma {:induction false} FilterIn(entries: seq<Entry>, committed: bool)
    ensures forall e :: e in Filter(entries, committed) <==> e in entries && e.redisCommitted == committed
    ensures DistinctKeys(entries) ==> DistinctKeys(Filter(entries, committed))
    ensures |Filter(entries, committed)| <= |entries|
  {
    if entries != [] {
      var rest := Filter(entries[1..], committed);
      FilterIn(entries[1..], committed);
      assert forall e :: e in entries <==> e == entries[0] || e in entries[1..];
      if DistinctKeys(entries) {
        assert DistinctKeys(entries[1..]);
        forall e | e in rest
          ensures e.key != entries[0].key
        {
          var i :| 0 <= i < |entries[1..]| && entries[1..][i] == e;
          assert entries[i + 1] == e;
        }
        assert forall i :: 0 <= i < |rest| ==> rest[i] in rest;
      }
    }
  }

  lemma PrefixIn(entries: seq<Entry>, n: nat)
    requires n <= |entries|
    ensures forall e :: e in entries[..n] ==> e in entries
    ensures DistinctKeys(entries) ==> DistinctKeys(entries[..n])
  {
  }

  lemma BatchIn(entries: seq<Entry>, committed: bool)
    ensures forall e :: e in Batch(entries, committed) ==> e in entries && e.redisCommitted == committed
    ensures DistinctKeys(entries) ==> DistinctKeys(Batch(entries, committed))
    ensures Batch(entries, committed) == [] <==> !AnyWith(entries, committed)
  {
    var all := Filter(entries, committed);
    FilterIn(entries, committed);
    AnyWithIn(entries, committed);
    if |all| > MAX_REPLAY_BATCH {
      PrefixIn(all, MAX_REPLAY_BATCH);
      assert all[0] in all;
    } else if all != [] {
      assert all[0] in all;
    }
  }

  lemma {:induction false} WithoutIn(entries: seq<Entry>, key: string)
    ensures forall e :: e in Without(entries, key) <==> e in entries && e.key != key
  {
    if entries != [] {
      WithoutIn(entries[1..], key);
      assert forall e :: e in entries <==> e == entries[0] || e in entries[1..];
    }
  }

  lemma MarkIn(entries: seq<Entry>, key: string)
    ensures forall e :: e in MarkCommitted(entries, key) <==>
      exists x :: x in entries && e == if x.key == key then x.(redisCommitted := true) else x
    ensures DistinctKeys(entries) ==> DistinctKeys(MarkCommitted(entries, key))
  {
    var marked := MarkCommitted(entries, key);
    forall e | e in marked
      ensures exists x :: x in entries && e == if x.key == key then x.(redisCommitted := true) else x
    {
      var i :| 0 <= i < |marked| && marked[i] == e;
      assert entries[i] in entries;
    }
    forall x | x in entries
      ensures (if x.key == key then x.(redisCommitted := true) else x) in marked
    {
      var i :| 0 <= i < |entries| && entries[i] == x;
      assert marked[i] in marked;
    }
  }

  ghost predicate HasEntryKey(entries: seq<Entry>, key: string) {
    exists e :: e in entries && e.key == key
  }

  lemma DistinctMeansSame(entries: seq<Entry>, a: Entry, b: Entry)
    requires DistinctKeys(entries) && a in entries && b in entries && a.key == b.key
    ensures a == b
  {
    var i :| 0 <= i < |entries| && entries[i] == a;
    var j :| 0 <= j < |entries| && entries[j] == b;
  }

  /** What the outbox operations may change. */
  ghost predicate OutboxOnly<S>(w: World<S>, t: World<S>) {
    t == w.(pending := t.pending, logBytes := t.logBytes, audit := t.audit, trace := t.trace)
  }

  /** Only the entries with these keys may be gone. */
  ghost predicate Drops<S>(w: World<S>, t: World<S>, keys: set<string>) {
    && OutboxOnly(w, t) && t.audit == w.audit && (DistinctKeys(w.pending) ==> DistinctKeys(t.pending))
    && (forall e :: e in t.pending ==> e in w.pending)
    && (forall e :: e in w.pending && e.key !in keys ==> e in t.pending)
  }

  lemma CompleteDrops<S>(tools: Tools<S>, w: World<S>, key: string)
    ensures var (t, r) := Complete(tools, w, key);
      Drops(w, t, {key}) && (r.Pass? ==> t.pending == Without(w.pending, key)) && (r.Fail? ==> r.error == OutboxFailed)
  {
    WithoutIn(w.pending, key);
    WithoutKeys(w.pending, key);
  }

  lemma KeysOfTail(entries: seq<Entry>)
    requires entries != []
    ensures KeysOf(entries) == {entries[0].key} + KeysOf(entries[1..])
  {
    forall k | k in KeysOf(entries)
      ensures k == entries[0].key || k in KeysOf(entries[1..])
    {
      var i :| 0 <= i < |entries| && entries[i].key == k;
      assert i > 0 ==> entries[1..][i - 1].key == k;
    }
    assert forall i :: 0 <= i < |entries[1..]| ==> entries[1..][i].key == entries[i + 1].key;
  }

  /** Completing a batch drops its entries, or the first of them when the log fills up. */
  lemma {:induction false} CompleteAllDrops<S>(tools: Tools<S>, w: World<S>, entries: seq<Entry>)
    ensures var (t, r) := CompleteAll(tools, w, entries);
      && Drops(w, t, KeysOf(entries)) && (r.Fail? ==> r.error == OutboxFailed)
      && (r.Pass? ==> forall e :: e in t.pending ==> e.key !in KeysOf(entries))
    decreases |entries|
  {
    if entries != [] {
      var (next, r) := Complete(tools, w, entries[0].key);
      CompleteDrops(tools, w, entries[0].key);
      WithoutIn(w.pending, entries[0].key);
      CompleteAllDrops(tools, next, entries[1..]);
      KeysOfTail(entries);
    }
  }

  lemma {:induction false} FindIn(entries: seq<Entry>, key: string)
    ensures Find(entries, key).Some? <==> exists e :: e in entries && e.key == key
    ensures Find(entries, key).Some? ==> Find(entries, key).value in entries && Find(entries, key).value.key == key
  {
    if entries != [] {
      FindIn(entries[1..], key);
      assert forall e :: e in entries <==> e == entries[0] || e in entries[1..];
    }
  }

  /** Marking touches nothing but the entry with the key. */
  lemma MarkShape<S>(tools: Tools<S>, w: World<S>, key: string)
    ensures var (t, r) := Mark(tools, w, key);
      && t == w.(pending := t.pending, logBytes := t.logBytes) && (r.Fail? ==> t == w && r.error == OutboxFailed)
      && (r.Pass? ==> t.pending == MarkCommitted(w.pending, key) && exists e :: e in w.pending && e.key == key)
  {
    FindIn(w.pending, key);
  }

  lemma AuditAndMarkShape<S>(tools: Tools<S>, w: World<S>, key: string, reason: string)
    ensures var (t, r) := AuditAndMark(tools, w, key, reason);
      && OutboxOnly(w, t) && (t.trace == w.trace || t.trace == w.trace + [Audited(key, reason)])
      && (r.Fail? ==> t.pending == w.pending && r.error == OutboxFailed)
      && (r.Pass? ==> t.pending == MarkCommitted(w.pending, key))
  {
    MarkShape(tools, Audit(tools, w, key, reason).0, key);
  }

  // ---------- Adapter calls ----------

  /** Reading leaves everything but the connection as it is. */
  lemma AskShape<S>(w: World<S>)
    ensures Ask(w).0 == w.(link := Ask(w).0.link) && (Ask(w).0.link.Some? <==> w.link.Some?)
    ensures Ask(w).0.link.Some? && Ask(w).0.link.value != DEAD ==> w.link.value != DEAD
  {
  }

  lemma {:induction false} AskTimesShape<S>(w: World<S>, n: nat)
    ensures AskTimes(w, n).0 == w.(link := AskTimes(w, n).0.link) && (AskTimes(w, n).0.link.Some? <==> w.link.Some?)
    ensures AskTimes(w, n).0.link.Some? && AskTimes(w, n).0.link.value != DEAD ==> w.link.value != DEAD
    decreases n
  {
    AskShape(w);
    if n > 0 && Ask(w).1 {
      AskTimesShape(Ask(w).0, n - 1);
    }
  }

  lemma AskKeeps<S>(tools: Tools<S>, w: World<S>, used: set<string>)
    requires Good(tools, w, used)
    ensures Good(tools, Ask(w).0, used) && Ask(w).0.active == w.active && Ask(w).0.mode == w.mode
  {
    AskShape(w);
  }

  // ---------- Mirroring ----------

  lemma {:induction false} MirrorReplayShape<S>(tools: Tools<S>, w: World<S>, entries: seq<Entry>)
    ensures var t := MirrorReplay(tools, w, entries).0; t == w.(store := t.store, trace := t.trace)
    decreases |entries|
  {
    if entries != [] {
      var e := entries[0];
      match tools.apply(w.store, e.operation)
      case Some(s) => MirrorReplayShape(tools, w.(store := s, trace := w.trace + [Replayed(e.key)]), entries[1..]);
      case None => MirrorReplayShape(tools, w.(trace := w.trace + [Contained(e.key)]), entries[1..]);
    }
  }

  /** Mirroring changes the standby and drops committed entries, nothing else. */
  lemma MirrorShape<S>(tools: Tools<S>, w: World<S>)
    requires DistinctKeys(w.pending)
    ensures var t := Mirror(tools, w).0;
      && t == w.(store := t.store, pending := t.pending, logBytes := t.logBytes, trace := t.trace)
      && DistinctKeys(t.pending)
      && (forall e :: e in t.pending ==> e in w.pending)
      && (forall e :: e in w.pending && !e.redisCommitted ==> e in t.pending)
  {
    var batch := Batch(w.pending, true);
    MirrorReplayShape(tools, w, batch);
    CompleteAllDrops(tools, MirrorReplay(tools, w, batch).0, batch);
    BatchIn(w.pending, true);
    forall e | e in w.pending && !e.redisCommitted
      ensures e.key !in KeysOf(batch)
    {
      if e.key in KeysOf(batch) {
        var i :| 0 <= i < |batch| && batch[i].key == e.key;
        assert batch[i] in batch;
        DistinctMeansSame(w.pending, batch[i], e);
      }
    }
  }

  /** Dropping or marking entries that are already published keeps the invariant. */
  lemma PendingKeeps<S>(tools: Tools<S>, w: World<S>, t: World<S>, used: set<string>)
    requires Good(tools, w, used) && w.mode == RedisPrimary
    requires t == w.(store := t.store, pending := t.pending, logBytes := t.logBytes, trace := t.trace, audit := t.audit)
    requires DistinctKeys(t.pending)
    requires forall e :: e in t.pending ==>
      || e in w.pending
      || (e.redisCommitted && IsCommitted(w.img, e.key) && e.key in used && IsMutation(tools, e))
    requires forall e :: e in w.pending && Unpublished(w.img, e) ==> e in t.pending
    ensures Keeps(tools, w, t, used)
  {
    forall scope
      ensures Clean(tools, t.img, ActiveStore(t), scope) || Dirty(t.img, t.pending, scope)
    {
      assert Clean(tools, w.img, ActiveStore(w), scope) || Dirty(w.img, w.pending, scope);
    }
  }

  lemma MirrorKeeps<S>(tools: Tools<S>, w: World<S>, used: set<string>)
    requires Good(tools, w, used) && w.mode == RedisPrimary
    ensures Keeps(tools, w, Mirror(tools, w).0, used)
  {
    MirrorShape(tools, w);
    PendingKeeps(tools, w, Mirror(tools, w).0, used);
  }

  /** Marking an entry whose ledger record is committed keeps the invariant. */
  lemma MarkedKeeps<S>(tools: Tools<S>, w: World<S>, t: World<S>, key: string, used: set<string>)
    requires Good(tools, w, used) && w.mode == RedisPrimary && IsCommitted(w.img, key) && key in used
    requires OutboxOnly(w, t) && (t.pending == w.pending || t.pending == MarkCommitted(w.pending, key))
    ensures Keeps(tools, w, t, used)
    ensures forall e :: e in w.pending && e.key != key ==> e in t.pending
  {
    MarkIn(w.pending, key);
    forall e | e in w.pending && e.key != key
      ensures e in t.pending
    {
      assert e == if e.key == key then e.(redisCommitted := true) else e;
    }
    PendingKeeps(tools, w, t, used);
  }

  // ---------- Scanning ----------

  /** Where a scan stands: `applied` are waiting, unpublished entries that the local image contains. */
  ghost predicate Scanned<S>(tools: Tools<S>, w: World<S>, sc: Scan<S>, used: set<string>) {
    && Keeps(tools, w, sc.world, used)
    && sc.rejected == [] && sc.local == KeysOf(sc.applied)
    && (forall e :: e in sc.applied ==> e in sc.world.pending && Unpublished(sc.world.img, e))
  }

  /** The part of a batch that is still to be scanned. */
  ghost predicate ToScan<S>(sc: Scan<S>, rest: seq<Entry>) {
    && (forall e :: e in rest ==> e in sc.world.pending && !e.redisCommitted)
    && DistinctKeys(rest)
    && forall a, b :: a in sc.applied && b in rest ==> a.key != b.key
  }

  lemma KeysOfAppend(entries: seq<Entry>, e: Entry)
    ensures KeysOf(entries + [e]) == KeysOf(entries) + {e.key}
  {
    assert forall i :: 0 <= i < |entries| ==> (entries + [e])[i] == entries[i];
    assert (entries + [e])[|entries|] == e;
  }

  lemma HeadDiffers(entries: seq<Entry>)
    requires entries != [] && DistinctKeys(entries)
    ensures forall e :: e in entries[1..] ==> e in entries && e.key != entries[0].key
    ensures DistinctKeys(entries[1..])
  {
  }

  lemma ScanHit<S>(tools: Tools<S>, w: World<S>, sc: Scan<S>, rest: seq<Entry>, reason: string, used: set<string>)
    requires Scanned(tools, w, sc, used) && rest != [] && ToScan(sc, rest) && IsCommitted(sc.world.img, rest[0].key)
    ensures var (t, r) := AuditAndMark(tools, sc.world, rest[0].key, reason);
      Scanned(tools, w, sc.(world := t), used) && (r.Pass? ==> ToScan(sc.(world := t), rest[1..]))
  {
    var key := rest[0].key;
    var (t, r) := AuditAndMark(tools, sc.world, key, reason);
    assert rest[0] in rest;
    AuditAndMarkShape(tools, sc.world, key, reason);
    MarkedKeeps(tools, sc.world, t, key, used);
    HeadDiffers(rest);
  }

  lemma ScanLocal<S>(tools: Tools<S>, w: World<S>, sc: Scan<S>, rest: seq<Entry>, used: set<string>)
    requires Scanned(tools, w, sc, used) && rest != [] && ToScan(sc, rest) && !IsCommitted(sc.world.img, rest[0].key)
    ensures var next := ScanReplay(tools, sc, rest[0]);
      next.1.Pass? && Scanned(tools, w, next.0, used) && ToScan(next.0, rest[1..])
  {
    assert rest[0] in rest;
    HeadDiffers(rest);
    KeysOfAppend(sc.applied, rest[0]);
  }

  lemma ScanMoves<S>(tools: Tools<S>, w: World<S>, sc: Scan<S>, rest: seq<Entry>, used: set<string>)
    requires Scanned(tools, w, sc, used) && ToScan(sc, rest)
    ensures var next := sc.(world := Ask(sc.world).0); Scanned(tools, w, next, used) && ToScan(next, rest)
  {
    AskShape(sc.world);
    AskKeeps(tools, sc.world, used);
  }

  lemma ScanOneKeeps<S>(tools: Tools<S>, w: World<S>, sc: Scan<S>, rest: seq<Entry>, used: set<string>)
    requires Scanned(tools, w, sc, used) && rest != [] && ToScan(sc, rest)
    ensures
      var (next, r) := ScanOne(tools, sc, rest[0]);
      Scanned(tools, w, next, used) && (r.Pass? ==> ToScan(next, rest[1..]))
  {
    var e := rest[0];
    ScanMoves(tools, w, sc, rest, used);
    var s1 := sc.(world := Ask(sc.world).0);
    if Ask(sc.world).1 {
      assert !IsConflict(s1.world.img, e.key);
      if IsCommitted(s1.world.img, e.key) {
        ScanHit(tools, w, s1, rest, "already_committed_in_redis_ledger", used);
      } else {
        ScanMoves(tools, w, s1, rest, used);
        if Ask(s1.world).1 {
          ScanLocal(tools, w, s1.(world := Ask(s1.world).0), rest, used);
        }
      }
    }
  }

  lemma {:induction false} ScanAllKeeps<S>(tools: Tools<S>, w: World<S>, sc: Scan<S>, rest: seq<Entry>,
                                           used: set<string>)
    requires Scanned(tools, w, sc, used) && ToScan(sc, rest)
    ensures Scanned(tools, w, ScanAll(tools, sc, rest).0, used)
    decreases |rest|
  {
    if rest != [] {
      ScanOneKeeps(tools, w, sc, rest, used);
      var (next, r) := ScanOne(tools, sc, rest[0]);
      if r.Pass? {
        ScanAllKeeps(tools, w, next, rest[1..], used);
      }
    }
  }

  // ---------- Publishing ----------

  /** What a publish of `scopes` for the operations `keys` does to the content, as far as the invariant cares. */
  ghost predicate Advances<S>(tools: Tools<S>, s: S, img: Image<S>, after: Image<S>, scopes: seq<string>,
                              keys: set<string>) {
    && after.snapshot.Some?
    && after.markers == img.markers + keys && after.ledger.Keys <= img.ledger.Keys + keys
    && (forall key :: IsCommitted(after, key) <==> IsCommitted(img, key) || key in keys)
    && (forall key :: IsConflict(after, key) ==> IsConflict(img, key))
    && (forall scope :: scope in scopes ==> Clean(tools, after, s, scope))
    && (forall scope :: scope !in scopes ==> RecordsOf(after, scope) == RecordsOf(img, scope))
  }

  lemma {:induction false} LedgerAfterKeys(ledger: map<string, LedgerRecord>, ops: seq<RedisOperation>, next: nat,
                                           total: nat)
    ensures var after := LedgerAfter(ledger, ops, next, total);
      && after.Keys <= ledger.Keys + OperationKeys(ops)
      && (forall key :: key in OperationKeys(ops) ==> key in after && after[key].status == Committed)
      && (forall key :: key !in OperationKeys(ops) && key in ledger ==> key in after && after[key] == ledger[key])
  {
    if ops != [] {
      var n := |ops| - 1;
      LedgerAfterKeys(ledger, ops[..n], next, total);
      assert OperationKeys(ops) == OperationKeys(ops[..n]) + {ops[n].key};
    }
  }

  lemma StampAdvances<S>(tools: Tools<S>, s: S, img: Image<S>, patched: Image<S>, counts: Publish.Counts,
                         ops: seq<RedisOperation>,
                         snapshot: Option<S>, scopes: seq<string>)
    requires patched.(records := img.records) == img && snapshot.Some?
    requires forall scope :: scope in scopes ==> Clean(tools, patched, s, scope)
    requires forall scope :: scope !in scopes ==> RecordsOf(patched, scope) == RecordsOf(img, scope)
    ensures Advances(tools, s, img, Stamped(patched, img.revision, counts, ops).(snapshot := snapshot), scopes,
                     OperationKeys(ops))
  {
    LedgerAfterKeys(img.ledger, ops, img.revision + 1, Total(counts));
  }

  lemma DeltasAdvance<S>(tools: Tools<S>, s: S, w: World<S>, scopes: seq<string>, ops: seq<RedisOperation>)
    requires forall scope :: Lookup(w.cache, scope) == RecordsOf(w.img, scope)
    requires w.img.snapshot.Some? && DistinctScopes(ProjectAll(tools, s, scopes))
    ensures Advances(tools, s, w.img,
                     Remote.PublishedDeltas(w.img, NativeDeltas(w.cache, ProjectAll(tools, s, scopes)), ops),
                     scopes, OperationKeys(ops))
  {
    var all := ProjectAll(tools, s, scopes);
    var deltas := NativeDeltas(w.cache, all);
    PatchAllShape(w.img, deltas);
    forall scope
      ensures scope in scopes ==> Clean(tools, PatchAll(w.img, deltas), s, scope)
      ensures scope !in scopes ==> RecordsOf(PatchAll(w.img, deltas), scope) == RecordsOf(w.img, scope)
    {
      PatchAllRecords(w.img, w.cache, all, scope);
      LookupProjected(tools, s, scopes, scope);
    }
    StampAdvances(tools, s, w.img, PatchAll(w.img, deltas), Remote.Counts(deltas), ops, w.img.snapshot, scopes);
    assert Remote.PublishedDeltas(w.img, deltas, ops).snapshot == w.img.snapshot;
    assert Remote.PublishedDeltas(w.img, deltas, ops).(snapshot := w.img.snapshot) ==
           Remote.PublishedDeltas(w.img, deltas, ops);
  }

  lemma WholeAdvances<S>(tools: Tools<S>, s: S, img: Image<S>, snapshot: S, scopes: seq<string>)
    requires DistinctScopes(ProjectAll(tools, s, scopes))
    ensures Advances(tools, s, img, Remote.PublishedWhole(img, snapshot, ProjectAll(tools, s, scopes)), scopes, {})
  {
    var all := ProjectAll(tools, s, scopes);
    ReplaceAllShape(img, all);
    forall scope
      ensures scope in scopes ==> Clean(tools, ReplaceAll(img, all), s, scope)
      ensures scope !in scopes ==> RecordsOf(ReplaceAll(img, all), scope) == RecordsOf(img, scope)
    {
      ReplaceAllRecords(img, all, scope);
      LookupProjected(tools, s, scopes, scope);
    }
    StampAdvances(tools, s, img, ReplaceAll(img, all), Remote.WholeCounts(all), [], Some(snapshot), scopes);
    assert OperationKeys([]) == {};
  }

  /** A publish that takes effect keeps the namespace's part of the invariant, as long as it covers the scopes of every
      entry whose key it commits. */
  lemma AdvanceKeeps<S(!new)>(tools: Tools<S>, w: World<S>, after: Image<S>, scopes: seq<string>, keys: set<string>,
                              used: set<string>)
    requires Lawful(tools) && Good(tools, w, used) && Advances(tools, ActiveStore(w), w.img, after, scopes, keys)
             && keys <= used
    requires forall e, scope :: e in w.pending && e.key in keys && Touches(e.operation, scope) ==> scope in scopes
    ensures Covered(tools, after, w.pending, ActiveStore(w)) && Listed(tools, after, ActiveStore(w))
    ensures Ledgered(after, w.pending) && after.ledger.Keys <= used && after.snapshot.Some?
  {
    var s := ActiveStore(w);
    forall scope
      ensures Clean(tools, after, s, scope) || Dirty(after, w.pending, scope)
    {
      assert Clean(tools, w.img, s, scope) || Dirty(w.img, w.pending, scope);
      if scope !in scopes && !Clean(tools, w.img, s, scope) {
        var e :| e in w.pending && Unpublished(w.img, e) && Touches(e.operation, scope);
        assert Unpublished(after, e);
      }
    }
  }

  /** The content of the namespace may be replaced when the invariant holds of the new content. */
  ghost predicate Fits<S>(tools: Tools<S>, w: World<S>, after: Image<S>, used: set<string>) {
    && Covered(tools, after, w.pending, ActiveStore(w)) && Listed(tools, after, ActiveStore(w))
    && Ledgered(after, w.pending) && after.ledger.Keys <= used && after.snapshot.Some?
    && (forall key :: IsCommitted(w.img, key) ==> IsCommitted(after, key))
  }

  /** A write that is lost keeps the invariant, whether or not it took effect. */
  lemma LostKeeps<S>(tools: Tools<S>, w: World<S>, after: Image<S>, used: set<string>)
    requires Good(tools, w, used) && w.mode == RedisPrimary && (w.link.value != DEAD ==> Fits(tools, w, after, used))
    ensures !Tell(w, after).1 ==> Keeps(tools, w, Tell(w, after).0, used)
  {
  }

  /** A write that is acknowledged keeps it once the coordinator remembers the new revision and records. */
  lemma ToldKeeps<S>(tools: Tools<S>, w: World<S>, after: Image<S>, t: World<S>, used: set<string>)
    requires Good(tools, w, used) && w.mode == RedisPrimary && Tell(w, after).1 && Fits(tools, w, after, used)
    requires t == Tell(w, after).0.(revision := after.revision, cache := t.cache, lastSnapshot := t.lastSnapshot,
                                    lastRemote := t.lastRemote, trace := t.trace)
    requires forall scope :: Lookup(t.cache, scope) == RecordsOf(after, scope)
    ensures Keeps(tools, w, t, used)
  {
  }

  /** A publish of what the entries touched keeps the invariant, commits all its keys when it is acknowledged, and is
      never refused for a foreign revision. */
  lemma PublishLocalKeeps<S(!new)>(tools: Tools<S>, w: World<S>, ops: seq<RedisOperation>, scopes: seq<string>,
                                   used: set<string>)
    requires Lawful(tools) && Good(tools, w, used) && w.mode == RedisPrimary && OperationKeys(ops) <= used
    requires forall e, scope :: e in w.pending && e.key in OperationKeys(ops) && Touches(e.operation, scope) ==>
             scope in scopes
    ensures var (t, r) := PublishLocal(tools, w, ops, ProjectAll(tools, ActiveStore(w), scopes));
      && Keeps(tools, w, t, used) && t.pending == w.pending && t.usesLocal == w.usesLocal
      && (r.Fail? ==> !r.error.Conflicted?)
      && (forall key :: IsCommitted(w.img, key) ==> IsCommitted(t.img, key))
      && (r.Pass? ==> forall key :: key in OperationKeys(ops) ==> IsCommitted(t.img, key))
  {
    var all := ProjectAll(tools, ActiveStore(w), scopes);
    var after := Remote.PublishedDeltas(w.img, NativeDeltas(w.cache, all), ops);
    var (t, r) := PublishLocal(tools, w, ops, all);
    AskShape(w);
    if DistinctScopes(all) {
      if w.link.value != DEAD {
        DeltasAdvance(tools, ActiveStore(w), w, scopes, ops);
        AdvanceKeeps(tools, w, after, scopes, OperationKeys(ops), used);
      }
      LostKeeps(tools, w, after, used);
      if r.Pass? {
        CacheFollows(tools, ActiveStore(w), w, after, scopes, OperationKeys(ops));
        ToldKeeps(tools, w, after, t, used);
      }
    }
  }

  lemma CacheFollows<S>(tools: Tools<S>, s: S, w: World<S>, after: Image<S>, scopes: seq<string>, keys: set<string>)
    requires DistinctScopes(ProjectAll(tools, s, scopes)) && Advances(tools, s, w.img, after, scopes, keys)
    requires forall scope :: Lookup(w.cache, scope) == RecordsOf(w.img, scope)
    ensures forall scope :: Lookup(ApplyCache(w.cache, ProjectAll(tools, s, scopes)), scope) == RecordsOf(after, scope)
  {
    forall scope
      ensures Lookup(ApplyCache(w.cache, ProjectAll(tools, s, scopes)), scope) == RecordsOf(after, scope)
    {
      ApplyCacheLookup(w.cache, ProjectAll(tools, s, scopes), scope);
      LookupProjected(tools, s, scopes, scope);
      assert scope in scopes ==> Clean(tools, after, s, scope);
    }
  }

  ghost predicate AllClean<S>(tools: Tools<S>, img: Image<S>, s: S) {
    forall scope :: Clean(tools, img, s, scope)
  }

  /** Publishing every scope whole leaves no scope dirty. */
  lemma EverythingIsClean<S(!new)>(tools: Tools<S>, img: Image<S>, s: S, after: Image<S>)
    requires Lawful(tools) && Listed(tools, img, s) && Advances(tools, s, img, after, AllScopes(tools, s), {})
    ensures AllClean(tools, after, s)
  {
    forall scope
      ensures Clean(tools, after, s, scope)
    {
      if scope !in AllScopes(tools, s) {
        assert Project(tools, s, scope).records == map[];
      }
    }
  }

  lemma WholeFits<S(!new)>(tools: Tools<S>, w: World<S>, after: Image<S>, used: set<string>)
    requires Lawful(tools) && Good(tools, w, used) && DistinctScopes(Everything(tools, ActiveStore(w)))
    requires after == Remote.PublishedWhole(w.img, ActiveStore(w), Everything(tools, ActiveStore(w)))
    ensures Fits(tools, w, after, used) && AllClean(tools, after, ActiveStore(w))
    ensures forall scope :: Lookup(Everything(tools, ActiveStore(w)), scope) == RecordsOf(after, scope)
  {
    var s := ActiveStore(w);
    WholeAdvances(tools, s, w.img, s, AllScopes(tools, s));
    AdvanceKeeps(tools, w, after, AllScopes(tools, s), {}, used);
    EverythingIsClean(tools, w.img, s, after);
    forall scope
      ensures Lookup(Everything(tools, s), scope) == RecordsOf(after, scope)
    {
      AllScopesCover(tools, s, scope);
      assert Clean(tools, after, s, scope);
    }
  }

  lemma CheckpointKeeps<S(!new)>(tools: Tools<S>, w: World<S>, used: set<string>)
    requires Lawful(tools) && Good(tools, w, used) && w.mode == RedisPrimary
    ensures var (t, r) := Checkpoint(tools, w);
      && Keeps(tools, w, t, used) && t.pending == w.pending && t.usesLocal == w.usesLocal
      && (forall key :: IsCommitted(w.img, key) ==> IsCommitted(t.img, key))
      && (r.Pass? ==> AllClean(tools, t.img, ActiveStore(w)))
  {
    var all := Everything(tools, ActiveStore(w));
    var after := Remote.PublishedWhole(w.img, ActiveStore(w), all);
    var (t, r) := Checkpoint(tools, w);
    AskShape(w);
    if DistinctScopes(all) {
      WholeFits(tools, w, after, used);
      LostKeeps(tools, w, after, used);
      if r.Pass? {
        ToldKeeps(tools, w, after, t, used);
      }
    }
  }

  // ---------- Reconciling ----------

  lemma {:induction false} SettleLocal<S>(tools: Tools<S>, w: World<S>, applied: seq<Entry>, local: set<string>)
    requires forall e :: e in applied ==> e.key in local
    ensures Settle(tools, w, applied, local) == CompleteAll(tools, w, applied)
    decreases |applied|
  {
    if applied != [] {
      assert applied[0] in applied;
      SettleLocal(tools, Complete(tools, w, applied[0].key).0, applied[1..], local);
    }
  }

  /** When every scope is clean, entries may be dropped. */
  lemma CleanDropKeeps<S>(tools: Tools<S>, w: World<S>, t: World<S>, keys: set<string>, used: set<string>)
    requires Good(tools, w, used) && w.mode == RedisPrimary && AllClean(tools, w.img, ActiveStore(w))
             && Drops(w, t, keys)
    ensures Keeps(tools, w, t, used)
  {
  }

  lemma FlagsKeep<S>(tools: Tools<S>, w: World<S>, used: set<string>, replay: bool)
    requires Good(tools, w, used) && w.mode == RedisPrimary
    ensures Keeps(tools, w, w.(usesLocal := AnyWith(w.pending, false), replayCommitted := replay), used)
  {
    AnyWithIn(w.pending, false);
  }

  lemma CompactKeeps<S>(tools: Tools<S>, w: World<S>, used: set<string>)
    requires Good(tools, w, used)
    ensures Good(tools, Compacted(tools, w), used)
  {
  }

  lemma FinishAppliedKeeps<S>(tools: Tools<S>, w: World<S>, sc: Scan<S>, used: set<string>)
    requires Keeps(tools, w, sc.world, used) && sc.local == KeysOf(sc.applied) && sc.rejected == []
    requires sc.applied != [] ==> AllClean(tools, sc.world.img, ActiveStore(sc.world))
    ensures Keeps(tools, w, Finish(tools, sc).0, used)
  {
    forall e | e in sc.applied
      ensures e.key in sc.local
    {
      var i :| 0 <= i < |sc.applied| && sc.applied[i] == e;
    }
    SettleLocal(tools, sc.world, sc.applied, sc.local);
    CompleteAllDrops(tools, sc.world, sc.applied);
    var (settled, r) := CompleteAll(tools, sc.world, sc.applied);
    if sc.applied != [] {
      CleanDropKeeps(tools, sc.world, settled, KeysOf(sc.applied), used);
    }
    if r.Pass? {
      CompactKeeps(tools, settled, used);
      MirrorKeeps(tools, Compacted(tools, settled), used);
      var t := Mirror(tools, Compacted(tools, settled)).0;
      FlagsKeep(tools, t, used, !AnyWith(t.pending, false) && AnyWith(t.pending, true));
    }
  }

  lemma ApplicableKeys(entries: seq<Entry>)
    ensures OperationKeys(OperationsFor(entries)) == KeysOf(entries)
  {
    forall k | k in KeysOf(entries)
      ensures k in OperationKeys(OperationsFor(entries))
    {
      var i :| 0 <= i < |entries| && entries[i].key == k;
      assert OperationsFor(entries)[i].key == k;
    }
  }

  /** The keys and scopes of what a scan applied are those of waiting entries. */
  lemma AppliedAreWaiting<S>(w: World<S>, applied: seq<Entry>, used: set<string>)
    requires DistinctKeys(w.pending) && Known(w, used) && forall e :: e in applied ==> e in w.pending
    ensures OperationKeys(OperationsFor(applied)) <= used
    ensures forall e, scope ::
              e in w.pending && e.key in OperationKeys(OperationsFor(applied)) && Touches(e.operation, scope) ==>
              scope in EntryScopes(applied)
  {
    ApplicableKeys(applied);
    forall k | k in KeysOf(applied)
      ensures k in used
    {
      var i :| 0 <= i < |applied| && applied[i].key == k;
      assert applied[i] in applied;
    }
    forall e, scope | e in w.pending && e.key in KeysOf(applied) && Touches(e.operation, scope)
      ensures scope in EntryScopes(applied)
    {
      var i :| 0 <= i < |applied| && applied[i].key == e.key;
      assert applied[i] in applied;
      DistinctMeansSame(w.pending, e, applied[i]);
      EntryScopesCover(applied, i, scope);
    }
  }

  /** Publishing and checkpointing what a scan applied. */
  lemma AppliedKeeps<S(!new)>(tools: Tools<S>, w: World<S>, sc: Scan<S>, used: set<string>)
    requires Lawful(tools) && Scanned(tools, w, sc, used)
    ensures var (t, r) := PublishApplied(tools, sc);
      && Keeps(tools, w, t.world, used) && t.applied == sc.applied && t.local == sc.local && t.rejected == []
      && t.world.pending == sc.world.pending && t.world.usesLocal == sc.world.usesLocal
  {
    if sc.applied != [] {
      AppliedAreWaiting(sc.world, sc.applied, used);
      PublishLocalKeeps(tools, sc.world, OperationsFor(sc.applied), EntryScopes(sc.applied), used);
    }
  }

  lemma CheckedKeeps<S(!new)>(tools: Tools<S>, w: World<S>, sc: Scan<S>, used: set<string>)
    requires Lawful(tools) && Keeps(tools, w, sc.world, used) && sc.local == KeysOf(sc.applied) && sc.rejected == []
    requires forall e :: e in sc.applied ==> e in sc.world.pending
    ensures var (t, r) := CheckpointLocal(tools, sc);
      Keeps(tools, w, t.world, used) && (r.Pass? ==> Keeps(tools, w, Finish(tools, t).0, used))
  {
    CheckpointKeeps(tools, sc.world, used);
    var (t, r) := CheckpointLocal(tools, sc);
    if sc.applied != [] {
      assert sc.applied[0].key in sc.local;
    }
    if r.Pass? {
      FinishAppliedKeeps(tools, w, t, used);
    }
  }

  lemma ReconcileBatchKeeps<S(!new)>(tools: Tools<S>, w: World<S>, used: set<string>)
    requires Lawful(tools) && Good(tools, w, used) && w.mode == RedisPrimary
    ensures Keeps(tools, w, ReconcileBatch(tools, w).0, used)
  {
    var start := Scan(w, [], {}, []);
    BatchIn(w.pending, false);
    ScanAllKeeps(tools, w, start, Batch(w.pending, false), used);
    var (scanned, r1) := ScanAll(tools, start, Batch(w.pending, false));
    if r1.Pass? {
      AppliedKeeps(tools, w, scanned, used);
      var (published, r2) := PublishApplied(tools, scanned);
      if r2.Pass? {
        CheckedKeeps(tools, w, published, used);
      }
    }
  }

  /** The guard of the failing branch: committed entries are about to be replayed into the active store. */
  predicate WouldReplay<S>(w: World<S>) {
    w.replayCommitted && AnyWith(w.pending, true)
  }

  /** And the first of them succeeds there. */
  predicate Reruns<S>(tools: Tools<S>, w: World<S>) {
    var batch := Batch(w.pending, true);
    w.replayCommitted && batch != [] && tools.apply(ActiveStore(w), batch[0].operation).Some?
  }

  /** Otherwise the replay changes nothing: there is none, or it stops at its first entry. */
  lemma NothingReplayed<S>(tools: Tools<S>, w: World<S>)
    requires !Reruns(tools, w)
    ensures var (t, r) := ReplayCommittedIntoActive(tools, w); t == w && (r.Pass? <==> !WouldReplay(w))
  {
    BatchIn(w.pending, true);
  }

  lemma ReconcileKeeps<S(!new)>(tools: Tools<S>, w: World<S>, used: set<string>)
    requires Lawful(tools) && Good(tools, w, used) && w.mode == RedisPrimary && !Reruns(tools, w)
    ensures Keeps(tools, w, Reconcile(tools, w).0, used)
  {
    NothingReplayed(tools, w);
    if !WouldReplay(w) {
      MirrorKeeps(tools, w, used);
      var (mirrored, r2) := Mirror(tools, w);
      if r2.Pass? && mirrored.pending == [] {
        FlagsKeep(tools, mirrored, used, false);
      } else if r2.Pass? {
        ReconcileBatchKeeps(tools, mirrored, used);
      }
    }
  }

  // ---------- Attaching and ticking ----------

  /** The same active state, and the invariant. */
  ghost predicate Preserves<S>(tools: Tools<S>, w: World<S>, t: World<S>, used: set<string>) {
    Good(tools, t, used) && ActiveStore(t) == ActiveStore(w)
  }

  lemma {:induction false} StoredLookup<S>(img: Image<S>, scopes: seq<string>, scope: string)
    ensures Lookup(StoredProjections(img, scopes), scope) == if scope in scopes then RecordsOf(img, scope) else map[]
  {
    if scopes != [] && scopes[0] != scope {
      assert StoredProjections(img, scopes)[1..] == StoredProjections(img, scopes[1..]);
      StoredLookup(img, scopes[1..], scope);
    }
  }

  /** A fallback coordinator that loses the new connection again is where it was; only the namespace may have moved. */
  lemma AdoptFails<S>(tools: Tools<S>, w: World<S>, t: World<S>, used: set<string>)
    requires Good(tools, w, used) && w.mode == SqliteFallback && Fits(tools, w, t.img, used)
    requires t == w.(img := t.img, revision := t.revision)
    ensures Preserves(tools, w, t, used)
  {
  }

  /** What a successful adoption establishes. */
  ghost predicate Adopted<S>(tools: Tools<S>, w: World<S>, t: World<S>, used: set<string>) {
    && t.active == Some(w.store) && t.link.Some? && t.pending == w.pending && t.mode == w.mode
    && Fits(tools, w, t.img, used)
    && t.revision == t.img.revision && forall scope :: Lookup(t.cache, scope) == RecordsOf(t.img, scope)
  }

  lemma AdoptKeeps<S(!new)>(tools: Tools<S>, w: World<S>, link: Link, used: set<string>)
    requires Lawful(tools) && Good(tools, w, used) && w.mode == SqliteFallback
    ensures var (t, r) := Adopt(tools, w.(link := Some(link)));
      && (r.Fail? ==> Preserves(tools, w, t.(link := None, active := w.active), used))
      && (r.Pass? ==> Adopted(tools, w, t, used))
  {
    var w0 := w.(link := Some(link));
    AskTimesShape(w0, 3);
    var read := AskTimes(w0, 3).0;
    if AskTimes(w0, 3).1 {
      AdoptSnapshotKeeps(tools, w, read, used);
    }
  }

  /** The schema is old: everything is published whole. */
  lemma RebuildKeeps<S(!new)>(tools: Tools<S>, w: World<S>, checked: World<S>, used: set<string>)
    requires Lawful(tools) && Good(tools, w, used) && w.mode == SqliteFallback
    requires checked == w.(link := checked.link) && checked.link.Some?
    ensures var all := Everything(tools, w.store);
      var (t, r) := PublishWhole(tools, checked, w.img.revision, w.store, all);
      && (r.Fail? ==> Preserves(tools, w, t.(link := None), used))
      && (r.Pass? ==> Adopted(tools, w, t.(revision := t.img.revision, active := Some(w.store), cache := all), used))
  {
    var all := Everything(tools, w.store);
    if DistinctScopes(all) {
      WholeFits(tools, w, Remote.PublishedWhole(w.img, w.store, all), used);
    }
    var (t, r) := PublishWhole(tools, checked, w.img.revision, w.store, all);
    if r.Fail? {
      SameFits(tools, w, used);
      AdoptFails(tools, w, t.(link := None), used);
    }
  }

  lemma SameFits<S>(tools: Tools<S>, w: World<S>, used: set<string>)
    requires Good(tools, w, used)
    ensures Fits(tools, w, w.img, used)
  {
  }

  /** The schema is current: the records are read back. */
  lemma ReadBackKeeps<S(!new)>(tools: Tools<S>, w: World<S>, checked: World<S>, used: set<string>)
    requires Lawful(tools) && Good(tools, w, used) && w.mode == SqliteFallback
    requires checked == w.(link := checked.link) && checked.link.Some?
    ensures var scopes := AllScopes(tools, w.store);
      var (t, r) := AskTimes(checked.(revision := w.img.revision), |scopes|);
      && (!r ==> Preserves(tools, w, t.(link := None), used))
      && (r ==> Adopted(tools, w, t.(active := Some(w.store), cache := StoredProjections(w.img, scopes)), used))
  {
    var scopes := AllScopes(tools, w.store);
    AskTimesShape(checked.(revision := w.img.revision), |scopes|);
    SameFits(tools, w, used);
    var (t, r) := AskTimes(checked.(revision := w.img.revision), |scopes|);
    if r {
      forall scope
        ensures Lookup(StoredProjections(w.img, scopes), scope) == RecordsOf(w.img, scope)
      {
        StoredLookup(w.img, scopes, scope);
      }
    } else {
      AdoptFails(tools, w, t.(link := None), used);
    }
  }

  lemma AdoptSnapshotKeeps<S(!new)>(tools: Tools<S>, w: World<S>, read: World<S>, used: set<string>)
    requires Lawful(tools) && Good(tools, w, used) && w.mode == SqliteFallback
    requires read == w.(link := read.link) && read.link.Some?
    ensures var (t, r) := AdoptSnapshot(tools, read, w.store);
      && (r.Fail? ==> Preserves(tools, w, t.(link := None, active := w.active), used))
      && (r.Pass? ==> Adopted(tools, w, t, used))
  {
    assert read.(store := w.store) == read;
    var (checked, ok) := Ask(read);
    AskShape(read);
    if !ok {
      assert checked.(link := None, active := w.active) == w;
    } else if w.img.schema < NATIVE_SCHEMA_VERSION {
      RebuildKeeps(tools, w, checked, used);
      assert w.active == None;
    } else {
      ReadBackKeeps(tools, w, checked, used);
      assert w.active == None;
    }
  }

  lemma AttachedIsGood<S>(tools: Tools<S>, w: World<S>, adopted: World<S>, used: set<string>)
    requires Good(tools, w, used) && w.mode == SqliteFallback && Adopted(tools, w, adopted, used)
    ensures Good(tools, Attached(w, adopted), used) && ActiveStore(Attached(w, adopted)) == ActiveStore(w)
    ensures Attached(w, adopted).usesLocal && !Attached(w, adopted).replayCommitted
  {
  }

  lemma AttachKeeps<S(!new)>(tools: Tools<S>, w: World<S>, link: Link, used: set<string>)
    requires Lawful(tools) && Good(tools, w, used) && w.mode == SqliteFallback
    ensures Preserves(tools, w, Attach(tools, w, link).0, used)
  {
    AdoptKeeps(tools, w, link, used);
    var (adopted, r) := Adopt(tools, w.(link := Some(link)));
    if r.Pass? {
      AttachedIsGood(tools, w, adopted, used);
      ReconcileKeeps(tools, Attached(w, adopted), used);
    }
  }

  /** A tick that would run committed operations on the active store a second time. */
  predicate DoubleApplies<S>(tools: Tools<S>, w: World<S>) {
    w.link.Some? && w.link.value.budget > 0 && Reruns(tools, w)
  }

  /** The revision on the server is the one this coordinator remembers. */
  function Seen<S>(w: World<S>): World<S> {
    Ask(w).0.(lastRemote := Some(w.img.revision))
  }

  /** A round of a connected coordinator that nobody overtook. */
  lemma TickIsRound<S>(tools: Tools<S>, w: World<S>, offered: Option<Link>)
    requires w.mode == RedisPrimary && w.link.Some? && (w.link.value != DEAD ==> w.revision == w.img.revision)
    ensures Tick(tools, w, offered) ==
            if Ask(w).1 then ReconcileRound(tools, Seen(w)) else (Ask(w).0, Fail(Unavailable))
    ensures Ask(w).1 ==> w.link.value.budget > 0
  {
    AskShape(w);
  }

  lemma SeenIsGood<S>(tools: Tools<S>, w: World<S>, used: set<string>)
    requires Good(tools, w, used) && w.link.Some?
    ensures Preserves(tools, w, Seen(w), used) && Seen(w).mode == w.mode && Preserves(tools, w, Ask(w).0, used)
  {
    AskKeeps(tools, w, used);
  }

  lemma RoundKeeps<S(!new)>(tools: Tools<S>, w: World<S>, used: set<string>)
    requires Lawful(tools) && Good(tools, w, used) && w.mode == RedisPrimary && !Reruns(tools, w)
    ensures Preserves(tools, w, ReconcileRound(tools, w).0, used)
  {
    ReconcileKeeps(tools, w, used);
    var (reconciled, r) := Reconcile(tools, w);
    if r.Pass? {
      CheckpointKeeps(tools, reconciled, used);
    }
  }

  lemma TickKeeps<S(!new)>(tools: Tools<S>, w: World<S>, offered: Option<Link>, used: set<string>)
    requires Lawful(tools) && Good(tools, w, used) && !DoubleApplies(tools, w)
    ensures Preserves(tools, w, Tick(tools, w, offered).0, used)
  {
    if w.link.None? {
      if offered.Some? {
        AttachKeeps(tools, w, offered.value, used);
      }
    } else {
      TickIsRound(tools, w, offered);
      SeenIsGood(tools, w, used);
      if Ask(w).1 {
        RoundKeeps(tools, Seen(w), used);
      }
    }
  }

  // ---------- Executing ----------

  lemma AppendIn(entries: seq<Entry>, e: Entry)
    requires DistinctKeys(entries) && forall x :: x in entries ==> x.key != e.key
    ensures !HasKey(entries, e.key) && DistinctKeys(entries + [e])
    ensures forall x :: x in Without(entries + [e], e.key) <==> x in entries
    ensures DistinctKeys(Without(entries + [e], e.key))
  {
    assert forall i :: 0 <= i < |entries| ==> entries[i] in entries;
    WithoutIn(entries + [e], e.key);
    WithoutKeys(entries + [e], e.key);
  }

  /** Same waiting entries, same invariant. */
  lemma SamePendingKeeps<S>(tools: Tools<S>, w: World<S>, t: World<S>, used: set<string>)
    requires Good(tools, w, used) && OutboxOnly(w, t) && DistinctKeys(t.pending)
    requires forall e :: e in t.pending <==> e in w.pending
    ensures Preserves(tools, w, t, used)
  {
    AnyWithIn(w.pending, false);
    AnyWithIn(t.pending, false);
    forall scope
      ensures Clean(tools, t.img, ActiveStore(t), scope) || Dirty(t.img, t.pending, scope)
    {
      assert Clean(tools, w.img, ActiveStore(w), scope) || Dirty(w.img, w.pending, scope);
    }
  }

  /** The scopes an executed mutation touches are covered by its own entry, the others as before. */
  lemma CoverageGrows<S(!new)>(tools: Tools<S>, img: Image<S>, pending: seq<Entry>, before: S, e: Entry, s: S)
    requires Lawful(tools) && Covered(tools, img, pending, before) && Listed(tools, img, before)
    requires tools.apply(before, e.operation) == Some(s) && Unpublished(img, e)
    ensures Covered(tools, img, pending + [e], s) && Listed(tools, img, s)
  {
    forall scope
      ensures Clean(tools, img, s, scope) || Dirty(img, pending + [e], scope)
    {
      assert Clean(tools, img, before, scope) || Dirty(img, pending, scope);
      if Touches(e.operation, scope) {
        assert e in pending + [e];
      } else {
        assert Project(tools, s, scope) == Project(tools, before, scope);
        assert forall x :: x in pending ==> x in pending + [e];
      }
    }
    forall scope | RecordsOf(img, scope) != map[]
      ensures scope in AllScopes(tools, s)
    {
      assert scope in AllScopes(tools, before);
    }
  }

  lemma QueueShape<S>(tools: Tools<S>, w: World<S>, e: Entry)
    requires !HasKey(w.pending, e.key)
    ensures var (t, r) := Queue(tools, w, e);
      && OutboxOnly(w, t) && t.audit == w.audit && (r.Fail? ==> t == w)
      && (r.Pass? ==> t.pending == w.pending + [e] && t.trace == w.trace + [Enqueued(e.key)])
  {
  }

  /** An executed mutation is covered by its own entry until it is published. */
  lemma DoneKeeps<S(!new)>(tools: Tools<S>, w: World<S>, queued: World<S>, op: Operation, s: S, used: set<string>)
    requires Lawful(tools) && Good(tools, w, used) && tools.mutating(op.name) && OutboxOnly(w, queued)
    requires tools.apply(ActiveStore(w), op) == Some(s) && tools.key(op) !in used
    requires queued.pending == w.pending + [Entry(tools.key(op), op, false)]
    ensures var done := WithActiveStore(queued.(usesLocal := true), s);
      Good(tools, done, used + {tools.key(op)}) && ActiveStore(done) == s
  {
    var e := Entry(tools.key(op), op, false);
    AppendIn(w.pending, e);
    assert AnyWith(w.pending + [e], false) by {
      assert (w.pending + [e])[|w.pending|] == e;
    }
    assert Unpublished(w.img, e);
    CoverageGrows(tools, w.img, w.pending, ActiveStore(w), e, s);
    LedgeredAppend(w.img, w.pending, e);
  }

  /** An entry whose tool failed may stay behind when the local image is published anyway. */
  lemma LeftKeeps<S>(tools: Tools<S>, w: World<S>, t: World<S>, e: Entry, used: set<string>)
    requires Good(tools, w, used) && OutboxOnly(w, t) && t.pending == w.pending + [e]
    requires IsMutation(tools, e) && !e.redisCommitted && e.key !in used
    requires w.mode == RedisPrimary ==> w.usesLocal
    ensures Good(tools, t, used + {e.key}) && ActiveStore(t) == ActiveStore(w)
  {
    AppendIn(w.pending, e);
    assert AnyWith(w.pending + [e], false) by {
      assert (w.pending + [e])[|w.pending|] == e;
    }
    LedgeredAppend(w.img, w.pending, e);
    forall scope
      ensures Clean(tools, t.img, ActiveStore(t), scope) || Dirty(t.img, t.pending, scope)
    {
      assert Clean(tools, w.img, ActiveStore(w), scope) || Dirty(w.img, w.pending, scope);
      assert forall x :: x in w.pending ==> x in t.pending;
    }
  }

  lemma LedgeredAppend<S>(img: Image<S>, pending: seq<Entry>, e: Entry)
    requires Ledgered(img, pending) && !e.redisCommitted && e.key !in img.ledger
    ensures Ledgered(img, pending + [e])
  {
    assert forall x :: x in pending + [e] ==> x in pending || x == e;
  }

  lemma FallbackKeeps<S>(tools: Tools<S>, w: World<S>, used: set<string>)
    requires Good(tools, w.(usesLocal := true), used) && w.mode == RedisPrimary && AnyWith(w.pending, false)
    ensures Preserves(tools, w, EnterFallback(w), used)
  {
  }

  lemma OperationScopesCover(op: Operation, scope: string)
    requires Touches(op, scope)
    ensures scope in OperationScopes(op)
  {
  }

  lemma SendIgnoresFlag<S>(w: World<S>, accepted: bool, after: Image<S>, cache: seq<Projection>, flag: bool)
    ensures var (t, r) := Send(w, accepted, after, cache);
      Send(w.(usesLocal := flag), accepted, after, cache) == (t.(usesLocal := flag), r)
  {
  }

  lemma PublishIgnoresFlag<S>(tools: Tools<S>, w: World<S>, ops: seq<RedisOperation>, projections: seq<Projection>,
                              flag: bool)
    ensures var (t, r) := PublishLocal(tools, w, ops, projections);
      && PublishLocal(tools, w.(usesLocal := flag), ops, projections) == (t.(usesLocal := flag), r)
      && t.usesLocal == w.usesLocal
  {
    var deltas := NativeDeltas(w.cache, projections);
    var accepted := DistinctScopes(projections) && tools.fits(deltas, ops);
    var after, cache := Remote.PublishedDeltas(w.img, deltas, ops), ApplyCache(w.cache, projections);
    assert PublishLocal(tools, w, ops, projections) == Send(w, accepted, after, cache);
    assert PublishLocal(tools, w.(usesLocal := flag), ops, projections) ==
           Send(w.(usesLocal := flag), accepted, after, cache);
    SendIgnoresFlag(w, accepted, after, cache, flag);
    SendIgnoresFlag(w, accepted, after, cache, w.usesLocal);
    assert w.(usesLocal := w.usesLocal) == w;
  }

  /** The scopes of an operation cover every entry that carries its key. */
  lemma OwnScopes(pending: seq<Entry>, e: Entry, ops: seq<RedisOperation>)
    requires DistinctKeys(pending) && e in pending && ops == [OperationFor(e.key, e.operation)]
    ensures OperationKeys(ops) == {e.key}
    ensures forall x, scope :: x in pending && x.key in OperationKeys(ops) && Touches(x.operation, scope) ==>
      scope in OperationScopes(e.operation)
  {
    assert OperationKeys(ops) == {e.key} by {
      assert ops[0].key == e.key;
    }
    forall x, scope | x in pending && x.key in OperationKeys(ops) && Touches(x.operation, scope)
      ensures scope in OperationScopes(e.operation)
    {
      DistinctMeansSame(pending, x, e);
      OperationScopesCover(e.operation, scope);
    }
  }

  lemma CommitPublishes<S(!new)>(tools: Tools<S>, done: World<S>, e: Entry, used: set<string>)
    requires Lawful(tools) && Good(tools, done.(usesLocal := true), used) && done.mode == RedisPrimary
    requires e in done.pending
    ensures var scopes := OperationScopes(e.operation);
      var (t, r) := PublishLocal(tools, done, [OperationFor(e.key, e.operation)],
                                 ProjectAll(tools, ActiveStore(done), scopes));
      && Keeps(tools, done, t.(usesLocal := true), used) && t.pending == done.pending && t.usesLocal == done.usesLocal
      && (forall key :: IsCommitted(done.img, key) ==> IsCommitted(t.img, key))
      && (r.Pass? ==> IsCommitted(t.img, e.key)) && (r.Fail? ==> !r.error.Conflicted?)
  {
    var local := done.(usesLocal := true);
    var ops := [OperationFor(e.key, e.operation)];
    OwnScopes(done.pending, e, ops);
    PublishLocalKeeps(tools, local, ops, OperationScopes(e.operation), used);
    PublishIgnoresFlag(tools, done, ops, ProjectAll(tools, ActiveStore(done), OperationScopes(e.operation)), true);
  }

  /** Publishing the operation just executed, and falling back when that fails. */
  lemma CommitKeeps<S(!new)>(tools: Tools<S>, w: World<S>, done: World<S>, op: Operation, used: set<string>)
    requires Lawful(tools) && Good(tools, done.(usesLocal := true), used) && done.mode == RedisPrimary
    requires Shape(w) && w.mode == RedisPrimary && done.usesLocal == w.usesLocal && done.img == w.img
    requires done.pending == w.pending + [Entry(tools.key(op), op, false)]
    ensures Preserves(tools, done, Commit(tools, done, tools.key(op), op, ActiveStore(done)).0, used)
  {
    var e := Entry(tools.key(op), op, false);
    var all := ProjectAll(tools, ActiveStore(done), OperationScopes(op));
    var (next, r) := PublishLocal(tools, done, [OperationFor(e.key, op)], all);
    assert done.pending[|w.pending|] == e;
    CommitPublishes(tools, done, e, used);
    if r.Fail? {
      FallbackKeeps(tools, next, used);
    } else {
      PublishedNeedsNothing(tools, w, next, e, used);
      CommittedKeeps(tools, next, e.key, used);
    }
    ConcludeKeeps(tools, next, e.key, r, used);
  }

  lemma ConcludeKeeps<S>(tools: Tools<S>, w: World<S>, key: string, r: Outcome<Problem>, used: set<string>)
    requires r.Fail? ==> Preserves(tools, w, EnterFallback(w), used)
    requires r.Pass? ==> var marked := Mark(tools, w, key).0;
      Preserves(tools, w, marked, used) && Preserves(tools, w, Mirror(tools, marked).0, used)
    ensures Preserves(tools, w, Conclude(tools, w, key, r).0, used)
  {
  }

  /** Once it is published the operation needs no further cover. */
  lemma PublishedNeedsNothing<S>(tools: Tools<S>, w: World<S>, next: World<S>, e: Entry, used: set<string>)
    requires Good(tools, next.(usesLocal := true), used) && next.mode == RedisPrimary && IsCommitted(next.img, e.key)
    requires Shape(w) && w.mode == RedisPrimary && next.pending == w.pending + [e] && next.usesLocal == w.usesLocal
    requires forall key :: IsCommitted(w.img, key) ==> IsCommitted(next.img, key)
    ensures Good(tools, next, used) && e.key in used
  {
    forall x | x in next.pending && Unpublished(next.img, x)
      ensures next.usesLocal
    {
      assert x in w.pending && Unpublished(w.img, x);
    }
    assert next.pending[|w.pending|] == e;
  }

  /** Marking a committed entry, or failing to, and mirroring it, or failing to, moves nothing that is served. */
  lemma CommittedKeeps<S>(tools: Tools<S>, next: World<S>, key: string, used: set<string>)
    requires Good(tools, next, used) && next.mode == RedisPrimary && IsCommitted(next.img, key) && key in used
    ensures var marked := Mark(tools, next, key).0;
      Keeps(tools, next, marked, used) && Keeps(tools, next, Mirror(tools, marked).0, used)
  {
    var marked := Mark(tools, next, key).0;
    MarkShape(tools, next, key);
    MarkedKeeps(tools, next, marked, key, used);
    MirrorKeeps(tools, marked, used);
  }

  // ---------- Which calls execute ----------

  /** The call is not turned away because the log is full. */
  predicate Admitted<S>(tools: Tools<S>, w: World<S>, op: Operation) {
    !tools.mutating(op.name) || Queue(tools, w, Entry(tools.key(op), op, false)).1.Pass?
  }

  /** A tool failed on a healthy coordinator and the log has room for the entry but none for taking it back. */
  predicate LeftBehind<S>(tools: Tools<S>, w: World<S>, op: Operation) {
    && tools.mutating(op.name) && tools.apply(ActiveStore(w), op).None?
    && w.mode == RedisPrimary && w.link.Some? && !w.usesLocal
    && Admitted(tools, w, op)
    && Complete(tools, Queue(tools, w, Entry(tools.key(op), op, false)).0, tools.key(op)).1.Fail?
  }

  lemma MutationKeeps<S(!new)>(tools: Tools<S>, w: World<S>, op: Operation, s: S, used: set<string>)
    requires Lawful(tools) && Good(tools, w, used) && tools.mutating(op.name) && tools.key(op) !in used
    requires tools.apply(ActiveStore(w), op) == Some(s) && Admitted(tools, w, op)
    ensures var t := Execute(tools, w, op).0; Good(tools, t, used + {tools.key(op)}) && ActiveStore(t) == s
  {
    var e := Entry(tools.key(op), op, false);
    AppendIn(w.pending, e);
    QueueShape(tools, w, e);
    var queued := Queue(tools, w, e).0;
    QueuedKeeps(tools, w, queued, op, s, used);
    var done := WithActiveStore(queued, s);
    assert Execute(tools, w, op).0 == if w.mode == RedisPrimary then Commit(tools, done, e.key, op, s).0 else done;
  }

  lemma QueuedKeeps<S(!new)>(tools: Tools<S>, w: World<S>, queued: World<S>, op: Operation, s: S, used: set<string>)
    requires Lawful(tools) && Good(tools, w, used) && tools.mutating(op.name) && tools.key(op) !in used
    requires tools.apply(ActiveStore(w), op) == Some(s) && OutboxOnly(w, queued)
    requires queued.pending == w.pending + [Entry(tools.key(op), op, false)]
    ensures var done := WithActiveStore(queued, s);
      var t := if w.mode == RedisPrimary then Commit(tools, done, tools.key(op), op, s).0 else done;
      Good(tools, t, used + {tools.key(op)}) && ActiveStore(t) == s
  {
    DoneKeeps(tools, w, queued, op, s, used);
    var done := WithActiveStore(queued, s);
    assert done.(usesLocal := true) == WithActiveStore(queued.(usesLocal := true), s);
    if w.mode == RedisPrimary {
      CommitKeeps(tools, w, done, op, used + {tools.key(op)});
    }
  }

  lemma TakeBackKeeps<S>(tools: Tools<S>, w: World<S>, op: Operation, used: set<string>)
    requires Good(tools, w, used) && tools.mutating(op.name) && tools.key(op) !in used
    requires tools.apply(ActiveStore(w), op).None? && Admitted(tools, w, op) && !LeftBehind(tools, w, op)
    ensures var t := Execute(tools, w, op).0;
      Good(tools, t, used + {tools.key(op)}) && ActiveStore(t) == ActiveStore(w)
  {
    var e := Entry(tools.key(op), op, false);
    AppendIn(w.pending, e);
    QueueShape(tools, w, e);
    var queued := Queue(tools, w, e).0;
    var failed := queued.(trace := queued.trace + [Failed(e.key)]);
    var (t, r) := Complete(tools, failed, e.key);
    CompleteDrops(tools, failed, e.key);
    assert Execute(tools, w, op).0 == if r.Fail? then t else Compacted(tools, t);
    if r.Fail? {
      LeftKeeps(tools, w, t, e, used);
    } else {
      SamePendingKeeps(tools, w, Compacted(tools, t), used);
    }
  }

  /** The keys a call brings into use. */
  function KeysUsed<S>(tools: Tools<S>, op: Operation): set<string> {
    if tools.mutating(op.name) then {tools.key(op)} else {}
  }

  /** Executing a tool keeps the invariant and moves the active state by exactly that tool; a call that the full log
      turns away moves nothing. */
  lemma ExecuteKeeps<S(!new)>(tools: Tools<S>, w: World<S>, op: Operation, used: set<string>)
    requires Lawful(tools) && Good(tools, w, used) && KeysUsed(tools, op) !! used && !LeftBehind(tools, w, op)
    ensures var t := Execute(tools, w, op).0;
      && Good(tools, t, used + KeysUsed(tools, op))
      && ActiveStore(t) == if Admitted(tools, w, op) then ApplyOne(tools, ActiveStore(w), op) else ActiveStore(w)
  {
    var t := Execute(tools, w, op).0;
    if !tools.mutating(op.name) {
      assert t == w && used + {} == used;
    } else if !Admitted(tools, w, op) {
      assert t == w;
    } else if tools.apply(ActiveStore(w), op).Some? {
      MutationKeeps(tools, w, op, tools.apply(ActiveStore(w), op).value, used);
    } else {
      TakeBackKeeps(tools, w, op, used);
    }
  }
}
