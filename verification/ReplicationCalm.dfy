/** What a reconciliation leaves alone when nobody overtook the coordinator and nothing has to be
    replayed from the outbox. */
module ReplicationCalm {
  import opened Wrappers
  import opened OutboxLog
  import opened NativeRecords
  import opened Publish
  import Remote
  import opened Stores
  import opened Replication
  import opened ReplicationSafety

  /** A connected coordinator that nobody overtook and that does not replay uncommitted entries. */
  ghost predicate Calm<S>(w: World<S>) {
    && w.mode == RedisPrimary && w.active.Some? && w.link.Some? && DistinctKeys(w.pending)
    && (w.link.value != DEAD ==> w.revision == w.img.revision)
    && HoldsLocal(w)
  }

  /** The active store and the recovery flags are as they were. */
  ghost predicate Still<S>(w: World<S>, t: World<S>) {
    && t.active == w.active && t.mode == w.mode && t.usesLocal == w.usesLocal && t.replayCommitted == w.replayCommitted
    && t.link.Some? && (t.link.value != DEAD ==> w.link.Some? && w.link.value != DEAD && (t.revision == t.img.revision))
  }

  lemma MirrorStill<S>(tools: Tools<S>, w: World<S>)
    requires Calm(w)
    ensures Still(w, Mirror(tools, w).0) && Calm(Mirror(tools, w).0)
  {
    MirrorShape(tools, w);
  }

  /** Where nothing has to be replayed, only the connection and the outbox move. */
  ghost predicate ScanOnly<S>(w: World<S>, t: World<S>) {
    && OutboxOnly(w, t.(link := w.link))
    && (t.link.Some? <==> w.link.Some?)
    && (t.link.Some? && t.link.value != DEAD ==> w.link.value != DEAD)
  }

  lemma ScanOneStill<S>(tools: Tools<S>, sc: Scan<S>, e: Entry)
    requires sc.world.usesLocal || IsCommitted(sc.world.img, e.key)
    ensures ScanOnly(sc.world, ScanOne(tools, sc, e).0.world)
  {
    var w, t := sc.world, ScanOne(tools, sc, e).0.world;
    AskShape(w);
    var w1 := Ask(w).0;
    AskShape(w1);
    var w2 := Ask(w1).0;
    AuditAndMarkShape(tools, w1, e.key, "already_committed_in_redis_ledger");
    AuditAndMarkShape(tools, w2, e.key, "already_committed_in_redis");
    if Ask(w).1 && !IsCommitted(w1.img, e.key) && !IsConflict(w1.img, e.key) && Ask(w1).1 && e.key !in w2.img.markers {
      assert t == w2;
    }
  }

  lemma {:induction false} ScanAllStill<S>(tools: Tools<S>, sc: Scan<S>, entries: seq<Entry>)
    requires forall e :: e in entries ==> sc.world.usesLocal || IsCommitted(sc.world.img, e.key)
    ensures ScanOnly(sc.world, ScanAll(tools, sc, entries).0.world)
    decreases |entries|
  {
    if entries != [] {
      assert entries[0] in entries;
      ScanOneStill(tools, sc, entries[0]);
      var (next, r) := ScanOne(tools, sc, entries[0]);
      if r.Pass? {
        ScanAllStill(tools, next, entries[1..]);
      }
    }
  }

  lemma SendStill<S>(w: World<S>, accepted: bool, after: Image<S>, cache: seq<Projection>)
    requires w.link.Some? && (w.link.value != DEAD ==> w.revision == w.img.revision)
    ensures var (t, r) := Send(w, accepted, after, cache); Still(w, t) && (r.Fail? ==> !r.error.Conflicted?)
  {
  }

  lemma PublishAppliedStill<S>(tools: Tools<S>, sc: Scan<S>)
    requires sc.world.link.Some? && (sc.world.link.value != DEAD ==> sc.world.revision == sc.world.img.revision)
    ensures Still(sc.world, PublishApplied(tools, sc).0.world)
  {
    if sc.applied != [] {
      var projections := ProjectAll(tools, ActiveStore(sc.world), EntryScopes(sc.applied));
      var ops := OperationsFor(sc.applied);
      var deltas := NativeDeltas(sc.world.cache, projections);
      SendStill(sc.world, DistinctScopes(projections) && tools.fits(deltas, ops),
                Remote.PublishedDeltas(sc.world.img, deltas, ops), ApplyCache(sc.world.cache, projections));
    }
  }

  lemma WholeStill<S>(tools: Tools<S>, w: World<S>, snapshot: S, projections: seq<Projection>)
    requires w.link.Some? && (w.link.value != DEAD ==> w.revision == w.img.revision)
    ensures var (t, r) := PublishWhole(tools, w, w.revision, snapshot, projections);
      Still(w, t.(revision := if r.Pass? then t.img.revision else w.revision))
  {
    AskShape(w);
  }

  lemma CheckpointStill<S>(tools: Tools<S>, w: World<S>)
    requires w.link.Some? && (w.link.value != DEAD ==> w.revision == w.img.revision)
    ensures Still(w, Checkpoint(tools, w).0)
  {
    WholeStill(tools, w, ActiveStore(w), Everything(tools, ActiveStore(w)));
  }

  lemma {:induction false} SettleStill<S>(tools: Tools<S>, w: World<S>, applied: seq<Entry>, local: set<string>)
    ensures OutboxOnly(w, Settle(tools, w, applied, local).0)
    decreases |applied|
  {
    if applied != [] {
      var key := applied[0].key;
      MarkShape(tools, w, key);
      var (next, r) := if key in local then Complete(tools, w, key) else Mark(tools, w, key);
      if r.Pass? {
        SettleStill(tools, next, applied[1..], local);
      }
    }
  }

  lemma {:induction false} RejectStill<S>(tools: Tools<S>, w: World<S>, rejected: seq<AuditRecord>)
    ensures OutboxOnly(w, RejectAll(tools, w, rejected).0)
    decreases |rejected|
  {
    if rejected != [] {
      var (next, r) := Reject(tools, w, rejected[0]);
      if r.Pass? {
        RejectStill(tools, next, rejected[1..]);
      }
    }
  }

  /** A mirror moves the standby and the outbox, nothing else. */
  ghost predicate StandbyOnly<S>(w: World<S>, t: World<S>) {
    t == w.(store := t.store, pending := t.pending, logBytes := t.logBytes, trace := t.trace)
  }

  lemma MirrorOnly<S>(tools: Tools<S>, w: World<S>)
    ensures StandbyOnly(w, Mirror(tools, w).0)
  {
    var batch := Batch(w.pending, true);
    MirrorReplayShape(tools, w, batch);
    CompleteAllDrops(tools, MirrorReplay(tools, w, batch).0, batch);
  }

  lemma FinishStill<S>(tools: Tools<S>, sc: Scan<S>)
    ensures var (t, r) := Finish(tools, sc);
      && t.active == sc.world.active && t.mode == sc.world.mode && t.link == sc.world.link
      && t.revision == sc.world.revision && t.lastSnapshot == sc.world.lastSnapshot && t.img == sc.world.img
      && t.cache == sc.world.cache
      && (r.Fail? ==> t.replayCommitted == sc.world.replayCommitted)
      && (r.Pass? ==> (t.replayCommitted <==> !AnyWith(t.pending, false) && AnyWith(t.pending, true)))
  {
    SettleStill(tools, sc.world, sc.applied, sc.local);
    var settled := Settle(tools, sc.world, sc.applied, sc.local).0;
    RejectStill(tools, settled, sc.rejected);
    var rejected := RejectAll(tools, settled, sc.rejected).0;
    assert OutboxOnly(sc.world, rejected);
    MirrorOnly(tools, Compacted(tools, rejected));
  }

  ghost predicate Unmoved<S>(w: World<S>, t: World<S>) {
    && t.active == w.active && t.mode == w.mode && t.link.Some?
    && (t.link.value != DEAD ==> t.revision == t.img.revision)
  }

  /** How a reconciliation ends: it asks for a replay exactly when it leaves committed entries and no others. */
  ghost predicate Ends<S>(w: World<S>, t: World<S>, r: Outcome<Problem>) {
    && Unmoved(w, t)
    && (r.Fail? ==> t.replayCommitted == w.replayCommitted)
    && (r.Pass? ==> (t.replayCommitted <==> !AnyWith(t.pending, false) && AnyWith(t.pending, true)))
  }

  lemma CheckedStill<S>(tools: Tools<S>, sc: Scan<S>)
    requires sc.world.link.Some? && (sc.world.link.value != DEAD ==> sc.world.revision == sc.world.img.revision)
    ensures var (checked, r) := CheckpointLocal(tools, sc);
      var (t, end) := if r.Fail? then (checked.world, r) else Finish(tools, checked);
      Ends(sc.world, t, end)
  {
    CheckpointStill(tools, sc.world);
    FinishStill(tools, CheckpointLocal(tools, sc).0);
  }

  /** What is applied is published, checkpointed and settled without moving what is served. */
  lemma PublishScanStill<S>(tools: Tools<S>, sc: Scan<S>)
    requires sc.world.link.Some? && (sc.world.link.value != DEAD ==> sc.world.revision == sc.world.img.revision)
    ensures var (t, r) := PublishScan(tools, sc); Ends(sc.world, t, r)
  {
    PublishAppliedStill(tools, sc);
    var (published, r) := PublishApplied(tools, sc);
    if r.Pass? {
      CheckedStill(tools, published);
    }
  }

  /** A calm reconciliation moves the active store by nothing but the replay of committed entries, and asks for such a
      replay only when it ends with committed entries and no others. */
  lemma BatchStill<S>(tools: Tools<S>, w: World<S>)
    requires Calm(w)
    ensures var (t, r) := ReconcileBatch(tools, w); Ends(w, t, r)
  {
    var start := Scan(w, [], {}, []);
    BatchIn(w.pending, false);
    ScanAllStill(tools, start, Batch(w.pending, false));
    var (scanned, r) := ScanAll(tools, start, Batch(w.pending, false));
    if r.Pass? {
      PublishScanStill(tools, scanned);
    }
  }

  lemma ReconcileStill<S>(tools: Tools<S>, w: World<S>)
    requires Calm(w)
    ensures var (replayed, r0) := ReplayCommittedIntoActive(tools, w);
      var (t, r) := Reconcile(tools, w);
      && t.active == replayed.active && t.mode == w.mode && t.link.Some?
      && (t.link.value != DEAD ==> t.revision == t.img.revision)
      && (r.Fail? ==> t.replayCommitted == w.replayCommitted)
      && (r.Pass? ==> (t.replayCommitted <==> !AnyWith(t.pending, false) && AnyWith(t.pending, true)))
  {
    var (replayed, r0) := ReplayCommittedIntoActive(tools, w);
    assert Calm(replayed);
    MirrorStill(tools, replayed);
    var (mirrored, r) := Mirror(tools, replayed);
    if r0.Pass? && r.Pass? && mirrored.pending != [] {
      BatchStill(tools, mirrored);
    }
  }

  /** What follows a publish leaves the namespace and the replay flag alone. */
  lemma ConcludeShape<S>(tools: Tools<S>, w: World<S>, key: string, r: Outcome<Problem>)
    ensures var t := Conclude(tools, w, key, r).0; t.img == w.img && t.replayCommitted == w.replayCommitted
  {
    MarkShape(tools, w, key);
    MirrorOnly(tools, Mark(tools, w, key).0);
  }

  lemma TakeBackOnly<S>(tools: Tools<S>, w: World<S>, key: string)
    ensures OutboxOnly(w, TakeBack(tools, w, key).0)
  {
    CompleteDrops(tools, w.(trace := w.trace + [Failed(key)]), key);
  }
}
