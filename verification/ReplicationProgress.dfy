/** Reconciliation drains the outbox: counted claims about every world, however Redis looks. */
module ReplicationProgress {
  import opened Wrappers
  import opened OutboxLog
  import opened RedisServer
  import opened NativeRecords
  import opened Publish
  import Remote
  import opened Stores
  import opened Replication
  import opened ReplicationSafety

  // ---------- Counting entries ----------

  function Tally(entries: seq<Entry>, committed: bool): nat {
    |Filter(entries, committed)|
  }

  function Min(a: int, b: int): int {
    if a <= b then a else b
  }

  lemma {:induction false} CountsAdd(entries: seq<Entry>)
    ensures |entries| == Tally(entries, true) + Tally(entries, false)
  {
    if entries != [] {
      CountsAdd(entries[1..]);
    }
  }

  lemma {:induction false} WithoutAbsent(entries: seq<Entry>, key: string)
    requires forall e :: e in entries ==> e.key != key
    ensures Without(entries, key) == entries
  {
    if entries != [] {
      assert entries[0] in entries;
      WithoutAbsent(entries[1..], key);
    }
  }

  /** Dropping an entry takes one off its own count. */
  lemma {:induction false} WithoutCount(entries: seq<Entry>, e: Entry, committed: bool)
    requires DistinctKeys(entries) && e in entries
    ensures Tally(Without(entries, e.key), committed) ==
            Tally(entries, committed) - if e.redisCommitted == committed then 1 else 0
  {
    if entries[0] == e {
      HeadDiffers(entries);
      WithoutAbsent(entries[1..], e.key);
    } else {
      HeadDiffers(entries);
      assert e in entries[1..];
      WithoutCount(entries[1..], e, committed);
      assert entries[0].key != e.key;
      assert ([entries[0]] + Without(entries[1..], e.key))[1..] == Without(entries[1..], e.key);
    }
  }

  lemma {:induction false} MarkAbsent(entries: seq<Entry>, key: string)
    requires forall e :: e in entries ==> e.key != key
    ensures MarkCommitted(entries, key) == entries
  {
    assert forall i :: 0 <= i < |entries| ==> entries[i] in entries;
  }

  /** Marking an uncommitted entry moves it from one count to the other. */
  lemma {:induction false} MarkCount(entries: seq<Entry>, e: Entry, committed: bool)
    requires DistinctKeys(entries) && e in entries && !e.redisCommitted
    ensures Tally(MarkCommitted(entries, e.key), committed) == Tally(entries, committed) + if committed then 1 else -1
  {
    HeadDiffers(entries);
    assert MarkCommitted(entries, e.key)[1..] == MarkCommitted(entries[1..], e.key);
    if entries[0] == e {
      MarkAbsent(entries[1..], e.key);
    } else {
      assert e in entries[1..];
      MarkCount(entries[1..], e, committed);
      assert entries[0].key != e.key;
    }
  }

  // ---------- Every stage of a reconciliation, counted ----------

  lemma {:induction false} CompleteAllCount<S>(tools: Tools<S>, w: World<S>, entries: seq<Entry>)
    requires DistinctKeys(w.pending) && DistinctKeys(entries)
    requires forall e :: e in entries ==> e in w.pending && e.redisCommitted
    requires CompleteAll(tools, w, entries).1.Pass?
    ensures var t := CompleteAll(tools, w, entries).0;
      |t.pending| == |w.pending| - |entries| && Tally(t.pending, false) == Tally(w.pending, false)
    decreases |entries|
  {
    if entries != [] {
      var e := entries[0];
      assert e in entries;
      WithoutCount(w.pending, e, true);
      WithoutCount(w.pending, e, false);
      CountsAdd(w.pending);
      CountsAdd(Without(w.pending, e.key));
      WithoutIn(w.pending, e.key);
      WithoutKeys(w.pending, e.key);
      HeadDiffers(entries);
      CompleteAllCount(tools, Complete(tools, w, e.key).0, entries[1..]);
    }
  }

  lemma BatchSize(entries: seq<Entry>, committed: bool)
    ensures |Batch(entries, committed)| == Min(MAX_REPLAY_BATCH, Tally(entries, committed))
  {
  }

  /** A mirror that succeeds removes a full batch of committed entries, or all of them. */
  lemma MirrorCount<S>(tools: Tools<S>, w: World<S>)
    requires DistinctKeys(w.pending) && Mirror(tools, w).1.Pass?
    ensures var t := Mirror(tools, w).0;
      && |t.pending| == |w.pending| - Min(64, Tally(w.pending, true))
      && Tally(t.pending, false) == Tally(w.pending, false) && DistinctKeys(t.pending)
  {
    var batch := Batch(w.pending, true);
    BatchIn(w.pending, true);
    BatchSize(w.pending, true);
    MirrorReplayShape(tools, w, batch);
    MirrorShape(tools, w);
    CompleteAllCount(tools, MirrorReplay(tools, w, batch).0, batch);
  }

  ghost predicate Waiting(pending: seq<Entry>, key: string) {
    exists e :: e in pending && e.key == key && !e.redisCommitted
  }

  ghost predicate DistinctRejections(rejected: seq<AuditRecord>) {
    forall i, j :: 0 <= i < j < |rejected| ==> rejected[i].key != rejected[j].key
  }

  /** The applied and the rejected entries are still waiting, and all are different. */
  ghost predicate Open(pending: seq<Entry>, applied: seq<Entry>, rejected: seq<AuditRecord>) {
    && DistinctKeys(pending) && DistinctKeys(applied) && DistinctRejections(rejected)
    && (forall e :: e in applied ==> e in pending && !e.redisCommitted)
    && (forall r :: r in rejected ==> Waiting(pending, r.key))
    && (forall e, r :: e in applied && r in rejected ==> e.key != r.key)
  }

  lemma RejectHead(rejected: seq<AuditRecord>)
    requires rejected != [] && DistinctRejections(rejected)
    ensures forall r :: r in rejected[1..] ==> r in rejected && r.key != rejected[0].key
    ensures DistinctRejections(rejected[1..])
  {
  }

  /** Dropping an entry leaves the others waiting. */
  lemma StillWaiting(pending: seq<Entry>, key: string, other: string)
    requires Waiting(pending, other) && other != key
    ensures Waiting(Without(pending, key), other) && Waiting(MarkCommitted(pending, key), other)
  {
    var e :| e in pending && e.key == other && !e.redisCommitted;
    WithoutIn(pending, key);
    MarkIn(pending, key);
    assert e in Without(pending, key) && e in MarkCommitted(pending, key);
  }

  lemma {:induction false} RejectCount<S>(tools: Tools<S>, w: World<S>, rejected: seq<AuditRecord>)
    requires Open(w.pending, [], rejected) && RejectAll(tools, w, rejected).1.Pass?
    ensures var t := RejectAll(tools, w, rejected).0;
      && |t.pending| == |w.pending| - |rejected| && Tally(t.pending, false) == Tally(w.pending, false) - |rejected|
      && DistinctKeys(t.pending)
    decreases |rejected|
  {
    if rejected != [] {
      var key := rejected[0].key;
      assert rejected[0] in rejected;
      var e :| e in w.pending && e.key == key && !e.redisCommitted;
      WithoutCount(w.pending, e, true);
      WithoutCount(w.pending, e, false);
      CountsAdd(w.pending);
      CountsAdd(Without(w.pending, key));
      WithoutKeys(w.pending, key);
      RejectHead(rejected);
      forall r | r in rejected[1..]
        ensures Waiting(Without(w.pending, key), r.key)
      {
        StillWaiting(w.pending, key, r.key);
      }
      RejectCount(tools, Reject(tools, w, rejected[0]).0, rejected[1..]);
    }
  }

  /** Settling one applied entry, either way, leaves the others open. */
  lemma OpenStep(pending: seq<Entry>, applied: seq<Entry>, rejected: seq<AuditRecord>)
    requires Open(pending, applied, rejected) && applied != []
    ensures Open(Without(pending, applied[0].key), applied[1..], rejected)
    ensures Open(MarkCommitted(pending, applied[0].key), applied[1..], rejected)
  {
    var e := applied[0];
    assert e in applied;
    WithoutKeys(pending, e.key);
    WithoutIn(pending, e.key);
    MarkIn(pending, e.key);
    HeadDiffers(applied);
    forall r | r in rejected
      ensures Waiting(Without(pending, e.key), r.key) && Waiting(MarkCommitted(pending, e.key), r.key)
    {
      StillWaiting(pending, e.key, r.key);
    }
  }

  lemma {:induction false} SettleCount<S>(tools: Tools<S>, w: World<S>, applied: seq<Entry>, local: set<string>,
                                          rejected: seq<AuditRecord>)
    requires Open(w.pending, applied, rejected) && Settle(tools, w, applied, local).1.Pass?
    ensures var t := Settle(tools, w, applied, local).0;
      && |t.pending| <= |w.pending| && Tally(t.pending, false) == Tally(w.pending, false) - |applied|
      && Open(t.pending, [], rejected)
    decreases |applied|
  {
    if applied != [] {
      var e := applied[0];
      assert e in applied;
      OpenStep(w.pending, applied, rejected);
      WithoutCount(w.pending, e, true);
      WithoutCount(w.pending, e, false);
      MarkCount(w.pending, e, false);
      CountsAdd(w.pending);
      CountsAdd(Without(w.pending, e.key));
      MarkShape(tools, w, e.key);
      var (next, r) := if e.key in local then Complete(tools, w, e.key) else Mark(tools, w, e.key);
      SettleCount(tools, next, applied[1..], local, rejected);
    }
  }

  /** Where a scan stands, counted: `done` entries looked at so far, of which the ones neither applied nor rejected have
      been marked as committed. */
  ghost predicate Counted<S>(sc: Scan<S>, rest: seq<Entry>, n: nat, open: nat, done: nat) {
    && Open(sc.world.pending, sc.applied, sc.rejected) && DistinctKeys(rest)
    && |sc.world.pending| == n && Tally(sc.world.pending, false) == open - (done - |sc.applied| - |sc.rejected|)
    && (forall e :: e in rest ==> e in sc.world.pending && !e.redisCommitted)
    && (forall e, x :: e in rest && x in sc.applied ==> e.key != x.key)
    && (forall e, r :: e in rest && r in sc.rejected ==> e.key != r.key)
  }

  lemma CountedMark<S>(sc: Scan<S>, rest: seq<Entry>, n: nat, open: nat, done: nat, next: Scan<S>)
    requires Counted(sc, rest, n, open, done) && rest != []
    requires next == sc.(world := next.world) && next.world.pending == MarkCommitted(sc.world.pending, rest[0].key)
    ensures Counted(next, rest[1..], n, open, done + 1)
  {
    var e := rest[0];
    assert e in rest;
    HeadDiffers(rest);
    MarkCount(sc.world.pending, e, false);
    MarkIn(sc.world.pending, e.key);
    forall r | r in sc.rejected
      ensures Waiting(next.world.pending, r.key)
    {
      StillWaiting(sc.world.pending, e.key, r.key);
    }
  }

  lemma CountedApply<S>(sc: Scan<S>, rest: seq<Entry>, n: nat, open: nat, done: nat, next: Scan<S>)
    requires Counted(sc, rest, n, open, done) && rest != []
    requires next.applied == sc.applied + [rest[0]] && next.rejected == sc.rejected
             && next.world.pending == sc.world.pending
    ensures Counted(next, rest[1..], n, open, done + 1)
  {
    HeadDiffers(rest);
    assert rest[0] in rest;
    assert forall e :: e in next.applied <==> e in sc.applied || e == rest[0];
  }

  lemma CountedReject<S>(sc: Scan<S>, rest: seq<Entry>, n: nat, open: nat, done: nat, next: Scan<S>, reason: string)
    requires Counted(sc, rest, n, open, done) && rest != []
    requires next.applied == sc.applied && next.rejected == sc.rejected + [AuditRecord(rest[0].key, reason)]
    requires next.world.pending == sc.world.pending
    ensures Counted(next, rest[1..], n, open, done + 1)
  {
    HeadDiffers(rest);
    assert rest[0] in rest;
    assert Waiting(next.world.pending, rest[0].key);
    assert forall r :: r in next.rejected <==> r in sc.rejected || r == AuditRecord(rest[0].key, reason);
    forall i, j | 0 <= i < j < |next.rejected|
      ensures next.rejected[i].key != next.rejected[j].key
    {
      assert sc.rejected[i] in sc.rejected;
    }
  }

  /** The calls that neither touch the outbox nor are seen by its observer. */
  ghost predicate SameOutbox<S>(w: World<S>, t: World<S>) {
    && t.pending == w.pending && t.logBytes == w.logBytes && t.audit == w.audit
    && t.trace == w.trace && t.replayCommitted == w.replayCommitted
  }

  /** The calls that move nothing but the connection, the namespace, and what the coordinator remembers of it. */
  ghost predicate RemoteOnly<S>(w: World<S>, t: World<S>) {
    t == w.(link := t.link, img := t.img, revision := t.revision, cache := t.cache, lastRemote := t.lastRemote)
  }

  lemma TellShape<S>(w: World<S>, after: Image<S>)
    ensures SameOutbox(w, Tell(w, after).0) && RemoteOnly(w, Tell(w, after).0)
  {
  }

  lemma ConflictShape<S>(w: World<S>, e: Entry, reason: string, revision: nat)
    ensures SameOutbox(w, RecordConflict(w, e, reason, revision).0)
  {
    AskShape(w);
    var op := OperationFor(e.key, e.operation);
    TellShape(w, WithLedger(w.img, e.key, LedgerRecord(op.name, op.scope, Conflict, revision, 0, Some(reason))));
  }

  lemma {:induction false} ConflictsShape<S>(w: World<S>, entries: seq<Entry>, reason: string, revision: nat)
    ensures SameOutbox(w, RecordConflicts(w, entries, reason, revision).0)
    decreases |entries|
  {
    if entries != [] {
      ConflictShape(w, entries[0], reason, revision);
      ConflictsShape(RecordConflict(w, entries[0], reason, revision).0, entries[1..], reason, revision);
    }
  }

  lemma SyncShape<S>(tools: Tools<S>, w: World<S>)
    ensures SameOutbox(w, SyncFromRedis(tools, w).0)
  {
    AskTimesShape(w, 3);
  }

  lemma WholeShape<S>(tools: Tools<S>, w: World<S>, expected: nat, snapshot: S, projections: seq<Projection>)
    ensures var t := PublishWhole(tools, w, expected, snapshot, projections).0; SameOutbox(w, t) && RemoteOnly(w, t)
  {
    AskShape(w);
    TellShape(w, Remote.PublishedWhole(w.img, snapshot, projections));
  }

  lemma CheckpointShape<S>(tools: Tools<S>, w: World<S>)
    ensures SameOutbox(w, Checkpoint(tools, w).0)
  {
    WholeShape(tools, w, w.revision, ActiveStore(w), Everything(tools, ActiveStore(w)));
  }

  lemma SendShape<S>(w: World<S>, accepted: bool, after: Image<S>, cache: seq<Projection>)
    ensures SameOutbox(w, Send(w, accepted, after, cache).0) && RemoteOnly(w, Send(w, accepted, after, cache).0)
  {
    AskShape(w);
    TellShape(w, after);
  }

  lemma PublishLocalShape<S>(tools: Tools<S>, w: World<S>, ops: seq<RedisOperation>, projections: seq<Projection>)
    ensures var t := PublishLocal(tools, w, ops, projections).0; SameOutbox(w, t) && RemoteOnly(w, t)
  {
    var deltas := NativeDeltas(w.cache, projections);
    var accepted := DistinctScopes(projections) && tools.fits(deltas, ops);
    var after, cache := Remote.PublishedDeltas(w.img, deltas, ops), ApplyCache(w.cache, projections);
    assert PublishLocal(tools, w, ops, projections) == Send(w, accepted, after, cache);
    SendShape(w, accepted, after, cache);
  }

  lemma AdoptSnapshotShape<S>(tools: Tools<S>, w: World<S>, image: S)
    ensures SameOutbox(w, AdoptSnapshot(tools, w, image).0)
  {
    AskShape(w.(store := image));
    var checked := Ask(w.(store := image)).0;
    WholeShape(tools, checked, w.img.revision, image, Everything(tools, image));
    AskTimesShape(checked.(revision := w.img.revision), |AllScopes(tools, image)|);
  }

  lemma AdoptShape<S>(tools: Tools<S>, w: World<S>)
    ensures SameOutbox(w, Adopt(tools, w).0)
  {
    AskTimesShape(w, 3);
    var read := AskTimes(w, 3).0;
    WholeShape(tools, read, 0, w.store, Everything(tools, w.store));
    if w.img.snapshot.Some? {
      AdoptSnapshotShape(tools, read, if Recovering(w) then w.store else w.img.snapshot.value);
    }
  }

  lemma ScanOneCount<S>(tools: Tools<S>, sc: Scan<S>, rest: seq<Entry>, n: nat, open: nat, done: nat)
    requires Counted(sc, rest, n, open, done) && rest != [] && ScanOne(tools, sc, rest[0]).1.Pass?
    ensures Counted(ScanOne(tools, sc, rest[0]).0, rest[1..], n, open, done + 1)
  {
    var e := rest[0];
    var next := ScanOne(tools, sc, e).0;
    AskShape(sc.world);
    var w1 := Ask(sc.world).0;
    AskShape(w1);
    AuditAndMarkShape(tools, w1, e.key, "already_committed_in_redis_ledger");
    AuditAndMarkShape(tools, Ask(w1).0, e.key, "already_committed_in_redis");
    if IsCommitted(w1.img, e.key) {
      CountedMark(sc, rest, n, open, done, next);
    } else if IsConflict(w1.img, e.key) {
      CountedReject(sc, rest, n, open, done, next, "redis_ledger_conflict");
    } else if e.key in w1.img.markers {
      CountedMark(sc, rest, n, open, done, next);
    } else {
      var w2 := Ask(w1).0;
      assert next == ScanReplay(tools, sc.(world := w2), e).0;
      ReplayCount(tools, sc.(world := w2), rest, n, open, done);
    }
  }

  lemma ReplayCount<S>(tools: Tools<S>, sc: Scan<S>, rest: seq<Entry>, n: nat, open: nat, done: nat)
    requires Counted(sc, rest, n, open, done) && rest != [] && ScanReplay(tools, sc, rest[0]).1.Pass?
    ensures Counted(ScanReplay(tools, sc, rest[0]).0, rest[1..], n, open, done + 1)
  {
    var e := rest[0];
    var next := ScanReplay(tools, sc, e).0;
    if sc.world.usesLocal || tools.apply(ActiveStore(sc.world), e.operation).Some? {
      CountedApply(sc, rest, n, open, done, next);
    } else {
      ConflictShape(sc.world, e, "redis_priority_replay_rejected", sc.world.revision);
      CountedReject(sc, rest, n, open, done, next, "redis_priority_replay_rejected");
    }
  }

  lemma {:induction false} ScanAllCount<S>(tools: Tools<S>, sc: Scan<S>, rest: seq<Entry>, n: nat, open: nat, done: nat)
    requires Counted(sc, rest, n, open, done) && ScanAll(tools, sc, rest).1.Pass?
    ensures Counted(ScanAll(tools, sc, rest).0, [], n, open, done + |rest|)
    decreases |rest|
  {
    if rest != [] {
      ScanOneCount(tools, sc, rest, n, open, done);
      ScanAllCount(tools, ScanOne(tools, sc, rest[0]).0, rest[1..], n, open, done + 1);
    }
  }

  // ---------- Draining ----------

  lemma {:induction false} AsRejectedOpen(pending: seq<Entry>, applied: seq<Entry>, rejected: seq<AuditRecord>,
                                          reason: string)
    requires Open(pending, applied, rejected)
    ensures Open(pending, [], rejected + AsRejected(applied, reason))
  {
    var all := rejected + AsRejected(applied, reason);
    forall i, j | 0 <= i < j < |all|
      ensures all[i].key != all[j].key
    {
      if i < |rejected| <= j {
        assert rejected[i] in rejected && applied[j - |rejected|] in applied;
      }
    }
    forall r | r in all
      ensures Waiting(pending, r.key)
    {
      if r !in rejected {
        var i :| 0 <= i < |applied| && AsRejected(applied, reason)[i] == r;
        assert applied[i] in applied;
      }
    }
  }

  /** Publishing what was applied settles nothing yet: applied entries stay applied, or all give way and
      are rejected. */
  lemma PublishAppliedCount<S>(tools: Tools<S>, sc: Scan<S>)
    requires Open(sc.world.pending, sc.applied, sc.rejected) && PublishApplied(tools, sc).1.Pass?
    ensures var t := PublishApplied(tools, sc).0;
      && t.world.pending == sc.world.pending && Open(t.world.pending, t.applied, t.rejected)
      && |t.applied| + |t.rejected| == |sc.applied| + |sc.rejected|
  {
    if sc.applied != [] {
      var projections := ProjectAll(tools, ActiveStore(sc.world), EntryScopes(sc.applied));
      var ops := OperationsFor(sc.applied);
      PublishLocalShape(tools, sc.world, ops, projections);
      var (next, r) := PublishLocal(tools, sc.world, ops, projections);
      if r.Fail? {
        var actual := r.error.actual;
        AsRejectedOpen(sc.world.pending, sc.applied, sc.rejected, "redis_priority_conflict");
        ConflictsShape(next, sc.applied, "redis_priority_conflict", actual);
        SyncShape(tools, RecordConflicts(next, sc.applied, "redis_priority_conflict", actual).0);
      }
    }
  }

  lemma FinishCount<S>(tools: Tools<S>, sc: Scan<S>)
    requires Open(sc.world.pending, sc.applied, sc.rejected) && Finish(tools, sc).1.Pass?
    ensures var t := Finish(tools, sc).0;
      var open := Tally(sc.world.pending, false) - |sc.applied| - |sc.rejected|;
      && Tally(t.pending, false) == open && DistinctKeys(t.pending)
      && (|t.pending| == open || |t.pending| <= |sc.world.pending| - MAX_REPLAY_BATCH)
  {
    SettleCount(tools, sc.world, sc.applied, sc.local, sc.rejected);
    var settled := Settle(tools, sc.world, sc.applied, sc.local).0;
    RejectCount(tools, settled, sc.rejected);
    var rejected := Compacted(tools, RejectAll(tools, settled, sc.rejected).0);
    MirrorCount(tools, rejected);
    CountsAdd(rejected.pending);
    CountsAdd(Mirror(tools, rejected).0.pending);
  }

  lemma BatchCount<S>(tools: Tools<S>, w: World<S>)
    requires DistinctKeys(w.pending) && ReconcileBatch(tools, w).1.Pass?
    ensures var t := ReconcileBatch(tools, w).0;
      var open := Tally(w.pending, false) - Min(MAX_REPLAY_BATCH, Tally(w.pending, false));
      DistinctKeys(t.pending) && Tally(t.pending, false) == open &&
      (|t.pending| == open || |t.pending| <= |w.pending| - MAX_REPLAY_BATCH)
  {
    var batch := Batch(w.pending, false);
    var start := Scan(w, [], {}, []);
    BatchIn(w.pending, false);
    BatchSize(w.pending, false);
    var open := Tally(w.pending, false);
    ScanAllCount(tools, start, batch, |w.pending|, open, 0);
    var scanned := ScanAll(tools, start, batch).0;
    PublishAppliedCount(tools, scanned);
    var published := PublishApplied(tools, scanned).0;
    CheckpointShape(tools, published.world);
    FinishCount(tools, CheckpointLocal(tools, published).0);
  }

  /** Reconciliation drains: whatever Redis holds and whatever mix of ledger hits, conflicts, rejections and publishes
      occurs, a call that succeeds removes a full batch of entries, or all of them. */
  lemma ReconcileDrains<S>(tools: Tools<S>, w: World<S>)
    requires DistinctKeys(w.pending) && Reconcile(tools, w).1.Pass?
    ensures var t := Reconcile(tools, w).0;
      |t.pending| <= |w.pending| - Min(64, |w.pending|) && DistinctKeys(t.pending)
  {
    var replayed := ReplayCommittedIntoActive(tools, w).0;
    assert replayed.pending == w.pending;
    MirrorCount(tools, replayed);
    CountsAdd(w.pending);
    var mirrored := Mirror(tools, replayed).0;
    CountsAdd(mirrored.pending);
    if mirrored.pending != [] {
      BatchCount(tools, mirrored);
    }
  }

  /** A successful call leads from one list of entries to the other. */
  ghost predicate Drains<S>(tools: Tools<S>, a: World<S>, b: World<S>) {
    Reconcile(tools, a).1.Pass? && b.pending == Reconcile(tools, a).0.pending
  }

  lemma DrainsOne<S>(tools: Tools<S>, a: World<S>, b: World<S>)
    requires DistinctKeys(a.pending) && Drains(tools, a, b)
    ensures DistinctKeys(b.pending) && |b.pending| <= |a.pending| - Min(64, |a.pending|)
  {
    ReconcileDrains(tools, a);
  }

  /** After k successful calls at most n - 64k of n entries are left, whatever happens to the rest of the world between
      the calls; so n entries are gone after ceil(n / 64) of them. */
  lemma {:induction false} DrainsInBatches<S>(tools: Tools<S>, worlds: seq<World<S>>)
    requires worlds != [] && DistinctKeys(worlds[0].pending)
    requires forall i :: 0 <= i < |worlds| - 1 ==> Drains(tools, worlds[i], worlds[i + 1])
    ensures var last := worlds[|worlds| - 1];
      && DistinctKeys(last.pending)
      && (last.pending == [] || |last.pending| + (|worlds| - 1) * 64 <= |worlds[0].pending|)
  {
    if |worlds| > 1 {
      var n := |worlds| - 2;
      var front := worlds[..n + 1];
      forall i | 0 <= i < |front| - 1
        ensures Drains(tools, front[i], front[i + 1])
      {
        assert Drains(tools, worlds[i], worlds[i + 1]);
      }
      DrainsInBatches(tools, front);
      DrainsOne(tools, worlds[n], worlds[n + 1]);
    }
  }

  lemma GoneAfterCeiling<S>(tools: Tools<S>, worlds: seq<World<S>>)
    requires worlds != [] && DistinctKeys(worlds[0].pending)
    requires forall i :: 0 <= i < |worlds| - 1 ==> Drains(tools, worlds[i], worlds[i + 1])
    requires |worlds| - 1 == (|worlds[0].pending| + 63) / 64
    ensures worlds[|worlds| - 1].pending == []
  {
    DrainsInBatches(tools, worlds);
  }
}
