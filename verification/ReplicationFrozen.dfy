/** A log that fills up under a healthy coordinator: between rounds nothing in it is worth compacting, so an entry that
    cannot be taken back leaves a coordinator that never moves its active store again. */
module ReplicationFrozen {
  import opened Wrappers
  import opened Operations
  import opened OutboxLog
  import opened RedisServer
  import opened Publish
  import opened Stores
  import opened Replication
  import opened ReplicationSafety
  import opened ReplicationProgress
  import opened ReplicationCalm
  import opened ReplicationRoom

  // ---------- Nothing to compact ----------

  /** A compaction would change nothing. */
  predicate Compact<S>(tools: Tools<S>, w: World<S>) {
    w.logBytes == EntryBytes(tools.size, w.pending)
  }

  /** On a healthy coordinator only committed entries leave something to compact. */
  ghost predicate Tidy<S>(tools: Tools<S>, w: World<S>) {
    w.mode == RedisPrimary && !w.usesLocal && !AnyWith(w.pending, true) ==> Compact(tools, w)
  }

  /** A mirror compacts, or leaves committed entries. */
  lemma MirrorTidies<S>(tools: Tools<S>, w: World<S>)
    requires DistinctKeys(w.pending)
    ensures var (t, r) := Mirror(tools, w); if r.Pass? then Compact(tools, t) else AnyWith(t.pending, true)
  {
    var batch := Batch(w.pending, true);
    BatchIn(w.pending, true);
    var (replayed, ok) := MirrorReplay(tools, w, batch);
    MirrorReplayShape(tools, w, batch);
    if ok {
      CompleteAllDrops(tools, replayed, batch);
      if CompleteAll(tools, replayed, batch).1.Fail? {
        RefusedMirrorSticks(tools, w);
        BatchIn(Mirror(tools, w).0.pending, true);
      }
    }
  }

  lemma MarkedIsCommitted(entries: seq<Entry>, key: string)
    requires exists e :: e in entries && e.key == key
    ensures AnyWith(MarkCommitted(entries, key), true)
  {
    var e :| e in entries && e.key == key;
    var i :| 0 <= i < |entries| && entries[i] == e;
    assert MarkCommitted(entries, key)[i].redisCommitted == true;
  }

  lemma StaysCommitted(entries: seq<Entry>, key: string)
    requires AnyWith(entries, true)
    ensures AnyWith(MarkCommitted(entries, key), true)
  {
    var i :| 0 <= i < |entries| && entries[i].redisCommitted == true;
    assert MarkCommitted(entries, key)[i].redisCommitted == true;
  }

  /** Marking what the ledger has either changes nothing in the log or leaves a committed entry. */
  ghost predicate MarkedOnly<S>(w: World<S>, t: World<S>) {
    SameLog(w, t) || AnyWith(t.pending, true)
  }

  lemma ScanHitTidies<S>(tools: Tools<S>, sc: Scan<S>, e: Entry)
    requires IsCommitted(sc.world.img, e.key)
    ensures var t := ScanOne(tools, sc, e).0;
      && MarkedOnly(sc.world, t.world) && t.applied == sc.applied && t.local == sc.local && t.rejected == sc.rejected
      && t.world.img == sc.world.img && t.world.usesLocal == sc.world.usesLocal
      && (AnyWith(sc.world.pending, true) ==> AnyWith(t.world.pending, true))
  {
    AskShape(sc.world);
    var (asked, ok) := Ask(sc.world);
    if ok {
      var reason := "already_committed_in_redis_ledger";
      var (t, r) := AuditAndMark(tools, asked, e.key, reason);
      AuditAndMarkShape(tools, asked, e.key, reason);
      AuditAndMarkLog(tools, asked, e.key, reason);
      if AnyWith(sc.world.pending, true) {
        StaysCommitted(sc.world.pending, e.key);
      }
    }
  }

  lemma AuditAndMarkLog<S>(tools: Tools<S>, w: World<S>, key: string, reason: string)
    ensures MarkedOnly(w, AuditAndMark(tools, w, key, reason).0)
  {
    var (audited, r) := Audit(tools, w, key, reason);
    MarkShape(tools, audited, key);
    if r.Pass? && Mark(tools, audited, key).1.Pass? {
      MarkedIsCommitted(w.pending, key);
    }
  }

  lemma {:induction false} ScanHitsTidy<S>(tools: Tools<S>, sc: Scan<S>, entries: seq<Entry>)
    requires forall e :: e in entries ==> IsCommitted(sc.world.img, e.key)
    ensures var t := ScanAll(tools, sc, entries).0;
      && MarkedOnly(sc.world, t.world) && t.applied == sc.applied && t.local == sc.local && t.rejected == sc.rejected
      && t.world.usesLocal == sc.world.usesLocal && (AnyWith(sc.world.pending, true) ==> AnyWith(t.world.pending, true))
    decreases |entries|
  {
    if entries != [] {
      assert entries[0] in entries;
      ScanHitTidies(tools, sc, entries[0]);
      var (next, r) := ScanOne(tools, sc, entries[0]);
      if r.Pass? {
        ScanHitsTidy(tools, next, entries[1..]);
      }
    }
  }

  /** A reconciliation that applied nothing, and one that applied local entries, ends compacted when it
      ends in order. */
  lemma FinishNothing<S>(tools: Tools<S>, w: World<S>)
    requires DistinctKeys(w.pending)
    ensures var (t, r) := Finish(tools, Scan(w, [], {}, [])); if r.Pass? then Compact(tools, t)
            else AnyWith(t.pending, true)
  {
    assert Settle(tools, w, [], {}) == (w, Pass) && RejectAll(tools, w, []) == (w, Pass);
    MirrorTidies(tools, Compacted(tools, w));
  }

  lemma FinishLocal<S>(tools: Tools<S>, sc: Scan<S>)
    requires DistinctKeys(sc.world.pending) && sc.local == KeysOf(sc.applied) && sc.rejected == []
    ensures var (t, r) := Finish(tools, sc); if r.Pass? then Compact(tools, t) else t.usesLocal == sc.world.usesLocal
  {
    forall e | e in sc.applied
      ensures e.key in sc.local
    {
      var i :| 0 <= i < |sc.applied| && sc.applied[i] == e;
    }
    SettleLocal(tools, sc.world, sc.applied, sc.local);
    CompleteAllDrops(tools, sc.world, sc.applied);
    var settled := CompleteAll(tools, sc.world, sc.applied).0;
    MirrorOnly(tools, Compacted(tools, settled));
    MirrorTidies(tools, Compacted(tools, settled));
  }

  lemma BatchOfHits<S>(tools: Tools<S>, w: World<S>)
    requires DistinctKeys(w.pending) && HoldsLocal(w) && !w.usesLocal && Compact(tools, w)
    ensures Tidy(tools, ReconcileBatch(tools, w).0)
  {
    var start, batch := Scan(w, [], {}, []), Batch(w.pending, false);
    BatchIn(w.pending, false);
    forall e | e in batch
      ensures IsCommitted(w.img, e.key)
    {
      assert !Unpublished(w.img, e);
    }
    ScanHitsTidy(tools, start, batch);
    ScanHitsDistinct(tools, start, batch);
    var (scanned, r) := ScanAll(tools, start, batch);
    if r.Pass? {
      assert PublishApplied(tools, scanned) == (scanned, Pass) && CheckpointLocal(tools, scanned) == (scanned, Pass);
      FinishNothing(tools, scanned.world);
    }
  }

  lemma {:induction false} ScanHitsDistinct<S>(tools: Tools<S>, sc: Scan<S>, entries: seq<Entry>)
    requires DistinctKeys(sc.world.pending) && forall e :: e in entries ==> IsCommitted(sc.world.img, e.key)
    ensures DistinctKeys(ScanAll(tools, sc, entries).0.world.pending)
    decreases |entries|
  {
    if entries != [] {
      assert entries[0] in entries;
      var e := entries[0];
      ScanHitTidies(tools, sc, e);
      AskShape(sc.world);
      AuditAndMarkShape(tools, Ask(sc.world).0, e.key, "already_committed_in_redis_ledger");
      MarkIn(sc.world.pending, e.key);
      var (next, r) := ScanOne(tools, sc, e);
      if r.Pass? {
        ScanHitsDistinct(tools, next, entries[1..]);
      }
    }
  }

  lemma LocalsTidy<S(!new)>(tools: Tools<S>, w: World<S>, sc: Scan<S>, used: set<string>)
    requires Lawful(tools) && Scanned(tools, w, sc, used) && sc.world.usesLocal
    ensures var (t, r) := PublishScan(tools, sc); if r.Pass? then Compact(tools, t) else t.usesLocal
  {
    AppliedKeeps(tools, w, sc, used);
    var (published, r) := PublishApplied(tools, sc);
    if r.Pass? {
      CheckpointKeeps(tools, published.world, used);
      FinishLocal(tools, CheckpointLocal(tools, published).0);
    }
  }

  lemma BatchOfLocals<S(!new)>(tools: Tools<S>, w: World<S>, used: set<string>)
    requires Lawful(tools) && Good(tools, w, used) && w.mode == RedisPrimary && w.usesLocal
    ensures var (t, r) := ReconcileBatch(tools, w); if r.Pass? then Compact(tools, t) else t.usesLocal
  {
    var start, batch := Scan(w, [], {}, []), Batch(w.pending, false);
    BatchIn(w.pending, false);
    ScanAllKeeps(tools, w, start, batch, used);
    ScanAllStill(tools, start, batch);
    var (scanned, r) := ScanAll(tools, start, batch);
    if r.Pass? {
      LocalsTidy(tools, w, scanned, used);
    }
  }

  lemma ReconcileTidies<S(!new)>(tools: Tools<S>, w: World<S>, used: set<string>)
    requires Lawful(tools) && Good(tools, w, used) && w.mode == RedisPrimary && Tidy(tools, w) && !Reruns(tools, w)
    ensures Tidy(tools, Reconcile(tools, w).0)
  {
    NothingReplayed(tools, w);
    if !WouldReplay(w) {
      MirrorKeeps(tools, w, used);
      MirrorTidies(tools, w);
      var (mirrored, r) := Mirror(tools, w);
      if r.Pass? && mirrored.pending != [] {
        if mirrored.usesLocal {
          BatchOfLocals(tools, mirrored, used);
        } else {
          BatchOfHits(tools, mirrored);
        }
      }
    }
  }

  lemma AttachTidies<S(!new)>(tools: Tools<S>, w: World<S>, link: Link, used: set<string>)
    requires Lawful(tools) && Good(tools, w, used) && w.mode == SqliteFallback
    ensures Tidy(tools, Attach(tools, w, link).0)
  {
    AdoptKeeps(tools, w, link, used);
    var (adopted, r) := Adopt(tools, w.(link := Some(link)));
    if r.Pass? {
      AttachedIsGood(tools, w, adopted, used);
      ReconcileTidies(tools, Attached(w, adopted), used);
    } else {
      AdoptShape(tools, w.(link := Some(link)));
    }
  }

  lemma RoundTidies<S(!new)>(tools: Tools<S>, w: World<S>, used: set<string>)
    requires Lawful(tools) && Good(tools, w, used) && w.mode == RedisPrimary && Tidy(tools, w) && !Reruns(tools, w)
    ensures Tidy(tools, ReconcileRound(tools, w).0)
  {
    ReconcileTidies(tools, w, used);
    ReconcileKeeps(tools, w, used);
    CheckpointTidies(tools, Reconcile(tools, w).0, used);
  }

  lemma TickTidies<S(!new)>(tools: Tools<S>, w: World<S>, offered: Option<Link>, used: set<string>)
    requires Lawful(tools) && Good(tools, w, used) && Tidy(tools, w) && !DoubleApplies(tools, w)
    ensures Tidy(tools, Tick(tools, w, offered).0)
  {
    if w.link.None? {
      if offered.Some? {
        AttachTidies(tools, w, offered.value, used);
      }
    } else {
      TickIsRound(tools, w, offered);
      SeenIsGood(tools, w, used);
      AskShape(w);
      if Ask(w).1 {
        RoundTidies(tools, Seen(w), used);
      }
    }
  }

  lemma CheckpointTidies<S(!new)>(tools: Tools<S>, w: World<S>, used: set<string>)
    requires Lawful(tools) && Good(tools, w, used) && w.mode == RedisPrimary && Tidy(tools, w)
    ensures Tidy(tools, CheckpointIfDue(tools, w).0)
  {
    CheckpointKeeps(tools, w, used);
    CheckpointShape(tools, w);
  }

  lemma QueueTidies<S>(tools: Tools<S>, w: World<S>, e: Entry)
    requires Tidy(tools, w) && !HasKey(w.pending, e.key) && !e.redisCommitted
    ensures Tidy(tools, Queue(tools, w, e).0)
  {
    QueueShape(tools, w, e);
    var (t, r) := Queue(tools, w, e);
    if r.Pass? {
      ClosingSplits(tools.size, w.pending, [e]);
      assert [e][1..] == [] && EntryBytes(tools.size, [e]) == tools.size(Event.Pending(e)) + 1;
      if AnyWith(w.pending, true) {
        var i :| 0 <= i < |w.pending| && w.pending[i].redisCommitted == true;
        assert t.pending[i].redisCommitted == true;
      }
    }
  }

  lemma ConcludeTidies<S>(tools: Tools<S>, w: World<S>, key: string, r: Outcome<Problem>)
    requires Tidy(tools, w) && DistinctKeys(w.pending)
    ensures Tidy(tools, Conclude(tools, w, key, r).0)
  {
    if r.Pass? {
      MarkShape(tools, w, key);
      var (marked, m) := Mark(tools, w, key);
      if m.Pass? {
        MarkedIsCommitted(w.pending, key);
        MarkIn(w.pending, key);
        MirrorTidies(tools, marked);
      }
    }
  }

  lemma CommitTidies<S>(tools: Tools<S>, w: World<S>, key: string, op: Operation, s: S)
    requires Tidy(tools, w) && DistinctKeys(w.pending)
    ensures Tidy(tools, Commit(tools, w, key, op, s).0)
  {
    var ops, all := [OperationFor(key, op)], ProjectAll(tools, s, OperationScopes(op));
    PublishLocalShape(tools, w, ops, all);
    var (next, r) := PublishLocal(tools, w, ops, all);
    ConcludeTidies(tools, next, key, r);
  }

  lemma TakeBackTidies<S>(tools: Tools<S>, w: World<S>, key: string)
    requires Tidy(tools, w)
    ensures Tidy(tools, TakeBack(tools, w, key).0)
  {
  }

  lemma MutateTidies<S>(tools: Tools<S>, w: World<S>, key: string, op: Operation)
    requires Tidy(tools, w) && DistinctKeys(w.pending) && !HasKey(w.pending, key)
    ensures Tidy(tools, Mutate(tools, w, key, op).0)
  {
    var e := Entry(key, op, false);
    QueueShape(tools, w, e);
    QueueTidies(tools, w, e);
    var queued := Queue(tools, w, e).0;
    match tools.apply(ActiveStore(w), op)
    case None => TakeBackTidies(tools, queued, key);
    case Some(s) => CommitTidies(tools, WithActiveStore(queued, s), key, op, s);
  }

  lemma ExecuteTidies<S>(tools: Tools<S>, w: World<S>, op: Operation)
    requires Tidy(tools, w) && DistinctKeys(w.pending)
    requires tools.mutating(op.name) ==> !HasKey(w.pending, tools.key(op))
    ensures Tidy(tools, Execute(tools, w, op).0)
  {
    var prepared := Prepare(w);
    assert Tidy(tools, prepared);
    if tools.mutating(op.name) {
      MutateTidies(tools, prepared, tools.key(op), op);
    }
  }

  // ---------- Frozen ----------

  /** The part of the invariant that does not say which entries are in the local image. */
  ghost predicate Sound<S>(tools: Tools<S>, w: World<S>, used: set<string>) {
    && Wired(w) && Known(w, used) && Mutations(tools, w.pending) && DistinctKeys(w.pending)
    && Covered(tools, w.img, w.pending, ActiveStore(w))
    && (forall key :: key in w.img.markers ==> IsCommitted(w.img, key))
    && (forall e :: e in w.pending && e.redisCommitted ==> IsCommitted(w.img, e.key))
  }

  lemma GoodIsSound<S>(tools: Tools<S>, w: World<S>, used: set<string>)
    requires Good(tools, w, used)
    ensures Sound(tools, w, used)
  {
  }

  /** The last entry fails on the active store, the others are committed in the ledger, and compacting makes no room. */
  ghost predicate Barred<S>(tools: Tools<S>, w: World<S>) {
    && Compact(tools, w) && w.pending != [] && !AnyWith(w.pending, true)
    && (forall i :: 0 <= i < |w.pending| - 1 ==> IsCommitted(w.img, w.pending[i].key))
    && tools.apply(ActiveStore(w), w.pending[|w.pending| - 1].operation).None?
  }

  /** A healthy coordinator whose log is full for good. */
  ghost predicate Frozen<S>(tools: Tools<S>, w: World<S>, used: set<string>) {
    && Sound(tools, w, used) && Full(tools, w) && !w.usesLocal
    && w.mode == RedisPrimary && w.active.Some? && w.link.Some?
    && (AnyWith(w.pending, true) || Barred(tools, w))
  }

  /** Only the connection, the standby, the audit file and conflict records have moved. */
  ghost predicate Idles<S>(w: World<S>, t: World<S>) {
    && t == w.(link := t.link, store := t.store, audit := t.audit, trace := t.trace, img := t.img,
               lastRemote := t.lastRemote)
    && t.link.Some? && w.link.Some? && (t.link.value != DEAD ==> w.link.value != DEAD)
    && t.img == w.img.(ledger := t.img.ledger) && t.img.ledger.Keys <= w.img.ledger.Keys + KeysOf(w.pending)
    && (forall key :: IsCommitted(w.img, key) <==> IsCommitted(t.img, key))
  }

  lemma IdlesThen<S>(a: World<S>, b: World<S>, c: World<S>)
    requires Idles(a, b) && Idles(b, c)
    ensures Idles(a, c)
  {
  }

  lemma IdlesKeeps<S>(tools: Tools<S>, w: World<S>, t: World<S>, used: set<string>)
    requires Frozen(tools, w, used) && Idles(w, t)
    ensures Frozen(tools, t, used)
  {
    forall k | k in KeysOf(w.pending)
      ensures k in used
    {
      var i :| 0 <= i < |w.pending| && w.pending[i].key == k;
      assert w.pending[i] in w.pending;
    }
    forall scope
      ensures Clean(tools, t.img, ActiveStore(t), scope) || Dirty(t.img, t.pending, scope)
    {
      assert Clean(tools, w.img, ActiveStore(w), scope) || Dirty(w.img, w.pending, scope);
      if !Clean(tools, w.img, ActiveStore(w), scope) {
        var e :| e in w.pending && Unpublished(w.img, e) && Touches(e.operation, scope);
        assert Unpublished(t.img, e);
      }
    }
  }

  lemma AskIdles<S>(w: World<S>)
    requires w.link.Some?
    ensures Idles(w, Ask(w).0)
  {
    AskShape(w);
  }

  /** An entry that the ledger has committed cannot be marked. */
  lemma FullHit<S>(tools: Tools<S>, sc: Scan<S>, e: Entry)
    requires Full(tools, sc.world) && Mutations(tools, sc.world.pending) && sc.world.link.Some?
    requires IsCommitted(sc.world.img, e.key)
    ensures var (t, r) := ScanOne(tools, sc, e); r.Fail? && Idles(sc.world, t.world)
  {
    AskIdles(sc.world);
    var (asked, ok) := Ask(sc.world);
    if ok {
      FullMark(tools, Audit(tools, asked, e.key, "already_committed_in_redis_ledger").0, e.key);
    }
  }

  /** A rejected entry cannot be completed. */
  lemma FullFinish<S>(tools: Tools<S>, w: World<S>, e: Entry, reason: string)
    requires Full(tools, w) && IsMutation(tools, e) && w.link.Some?
    ensures var (t, r) := Finish(tools, Scan(w, [], {}, [AuditRecord(e.key, reason)])); r.Fail? && Idles(w, t)
  {
    var record := AuditRecord(e.key, reason);
    var (audited, r) := Audit(tools, w, e.key, reason);
    FullComplete(tools, audited, e);
    assert Settle(tools, w, [], {}) == (w, Pass);
    assert RejectAll(tools, w, [record]) == (audited, Fail(OutboxFailed));
  }

  lemma ConflictIdles<S>(w: World<S>, e: Entry, reason: string)
    requires w.link.Some? && e in w.pending
    ensures Idles(w, RecordConflict(w, e, reason, w.revision).0)
  {
    assert e.key in KeysOf(w.pending) by {
      var i :| 0 <= i < |w.pending| && w.pending[i] == e;
    }
    if IsCommitted(w.img, e.key) {
      AskIdles(w);
    } else {
      var op := OperationFor(e.key, e.operation);
      TellConflictIdles(w, e.key, LedgerRecord(op.name, op.scope, Conflict, w.revision, 0, Some(reason)));
    }
  }

  lemma TellConflictIdles<S>(w: World<S>, key: string, record: LedgerRecord)
    requires w.link.Some? && key in KeysOf(w.pending) && record.status == Conflict && !IsCommitted(w.img, key)
    ensures Idles(w, Tell(w, WithLedger(w.img, key, record)).0)
  {
  }

  /** The entry that fails is rejected, or the connection breaks first. */
  lemma FailingScan<S>(tools: Tools<S>, w: World<S>, e: Entry)
    requires w.link.Some? && e in w.pending && !w.usesLocal && tools.apply(ActiveStore(w), e.operation).None?
    requires !IsCommitted(w.img, e.key) && e.key !in w.img.markers
    ensures var (t, r) := ScanOne(tools, Scan(w, [], {}, []), e);
      && Idles(w, t.world) && t.applied == [] && t.local == {}
      && (r.Pass? ==> exists reason :: t.rejected == [AuditRecord(e.key, reason)])
  {
    var sc := Scan(w, [], {}, []);
    AskIdles(w);
    var (w1, ok1) := Ask(w);
    if ok1 {
      if IsConflict(w1.img, e.key) {
        assert ScanOne(tools, sc, e).0.rejected == [AuditRecord(e.key, "redis_ledger_conflict")];
      } else {
        AskIdles(w1);
        var (w2, ok2) := Ask(w1);
        IdlesThen(w, w1, w2);
        if ok2 {
          ConflictIdles(w2, e, "redis_priority_replay_rejected");
          var (w3, ok3) := RecordConflict(w2, e, "redis_priority_replay_rejected", w2.revision);
          IdlesThen(w, w2, w3);
          assert ScanOne(tools, sc, e) == ScanReplay(tools, sc.(world := w2), e);
          assert ok3 ==> ScanOne(tools, sc, e).0.rejected == [AuditRecord(e.key, "redis_priority_replay_rejected")];
        }
      }
    }
  }

  lemma {:induction false} FilterUncommitted(entries: seq<Entry>)
    requires !AnyWith(entries, true)
    ensures Filter(entries, false) == entries && Filter(entries, true) == []
  {
    if entries != [] {
      assert entries[0].redisCommitted != true;
      forall i | 0 <= i < |entries[1..]|
        ensures entries[1..][i].redisCommitted != true
      {
        assert entries[i + 1].redisCommitted != true;
      }
      FilterUncommitted(entries[1..]);
    }
  }

  lemma BatchStops<S>(tools: Tools<S>, w: World<S>, batch: seq<Entry>)
    requires batch == Batch(w.pending, false) && batch != [] && ScanOne(tools, Scan(w, [], {}, []), batch[0]).1.Fail?
    ensures var (sc, r) := ScanOne(tools, Scan(w, [], {}, []), batch[0]); ReconcileBatch(tools, w) == (sc.world, r)
  {
  }

  lemma BatchRejects<S>(tools: Tools<S>, w: World<S>, e: Entry, record: AuditRecord)
    requires Batch(w.pending, false) == [e] && ScanOne(tools, Scan(w, [], {}, []), e).1.Pass?
    requires var sc := ScanOne(tools, Scan(w, [], {}, []), e).0; sc == Scan(sc.world, [], {}, [record])
    ensures ReconcileBatch(tools, w) == Finish(tools, ScanOne(tools, Scan(w, [], {}, []), e).0)
  {
    var start := Scan(w, [], {}, []);
    var sc := ScanOne(tools, start, e).0;
    assert ScanAll(tools, start, [e]) == (sc, Pass) by {
      assert [e][1..] == [] && ScanAll(tools, sc, []) == (sc, Pass);
    }
    assert PublishApplied(tools, sc) == (sc, Pass) && CheckpointLocal(tools, sc) == (sc, Pass);
  }

  lemma BarredBatch<S>(tools: Tools<S>, w: World<S>, used: set<string>)
    requires Frozen(tools, w, used) && Barred(tools, w)
    ensures var (t, r) := ReconcileBatch(tools, w); r.Fail? && Idles(w, t)
  {
    FilterUncommitted(w.pending);
    var start, batch := Scan(w, [], {}, []), Batch(w.pending, false);
    var e := w.pending[0];
    assert batch[0] == e && e in w.pending;
    if IsCommitted(w.img, e.key) {
      FullHit(tools, start, e);
      BatchStops(tools, w, batch);
    } else {
      assert batch == [e];
      FailingScan(tools, w, e);
      var (scanned, r) := ScanOne(tools, start, e);
      if r.Fail? {
        BatchStops(tools, w, batch);
      } else {
        var reason :| scanned.rejected == [AuditRecord(e.key, reason)];
        BatchRejects(tools, w, e, AuditRecord(e.key, reason));
        FullFinish(tools, scanned.world, e, reason);
        IdlesThen(w, scanned.world, Finish(tools, scanned).0);
      }
    }
  }

  lemma FrozenReconcile<S>(tools: Tools<S>, w: World<S>, used: set<string>)
    requires Frozen(tools, w, used) && !Reruns(tools, w)
    ensures var (t, r) := Reconcile(tools, w); r.Fail? && Idles(w, t)
  {
    NothingReplayed(tools, w);
    if !WouldReplay(w) {
      if AnyWith(w.pending, true) {
        JammedMirror(tools, w);
      } else {
        FilterUncommitted(w.pending);
        assert Batch(w.pending, true) == [];
        assert Mirror(tools, w) == (w, Pass);
        BarredBatch(tools, w, used);
      }
    }
  }

  /** Rounds of a frozen coordinator move nothing that is served. */
  lemma SeenIdles<S>(tools: Tools<S>, w: World<S>, used: set<string>)
    requires Frozen(tools, w, used)
    ensures Idles(w, Ask(w).0) && Idles(w, Seen(w)) && Frozen(tools, Ask(w).0, used) && Frozen(tools, Seen(w), used)
  {
    AskIdles(w);
    IdlesThen(w, Ask(w).0, Seen(w));
    IdlesKeeps(tools, w, Ask(w).0, used);
    IdlesKeeps(tools, w, Seen(w), used);
  }

  lemma FrozenTick<S>(tools: Tools<S>, w: World<S>, offered: Option<Link>, used: set<string>)
    requires Frozen(tools, w, used) && !DoubleApplies(tools, w)
    ensures var t := Tick(tools, w, offered).0; Idles(w, t) && Frozen(tools, t, used)
  {
    TickIsRound(tools, w, offered);
    SeenIdles(tools, w, used);
    if Ask(w).1 {
      FrozenReconcile(tools, Seen(w), used);
      IdlesThen(w, Seen(w), Reconcile(tools, Seen(w)).0);
      IdlesKeeps(tools, w, Reconcile(tools, Seen(w)).0, used);
    }
  }

  lemma NewKeyIsNotPending<S>(w: World<S>, used: set<string>, key: string)
    requires Known(w, used) && key !in used
    ensures !HasKey(w.pending, key)
  {
    assert forall i :: 0 <= i < |w.pending| ==> w.pending[i] in w.pending;
  }

  /** Its calls are turned away, unless they only read. */
  lemma FrozenExecute<S(!new)>(tools: Tools<S>, w: World<S>, op: Operation, used: set<string>)
    requires Lawful(tools) && Frozen(tools, w, used) && KeysUsed(tools, op) !! used
    ensures Execute(tools, w, op).0 == w && (tools.mutating(op.name) ==> !Admitted(tools, w, op))
  {
    if tools.mutating(op.name) {
      NewKeyIsNotPending(w, used, tools.key(op));
      FullQueue(tools, w, op);
    }
  }

  /** A failed call that cannot be taken back freezes the coordinator: either committed entries wait in a log that is
      full, or everything but this call is committed in the ledger and there is nothing to compact. */
  lemma LeftBehindFreezes<S>(tools: Tools<S>, w: World<S>, op: Operation, used: set<string>)
    requires Good(tools, w, used) && Tidy(tools, w) && ShortestCompleted(tools) && LeftBehind(tools, w, op)
    requires tools.key(op) !in used
    ensures var t := Execute(tools, w, op).0;
      Frozen(tools, t, used + {tools.key(op)}) && ActiveStore(t) == ActiveStore(w)
  {
    var e := Entry(tools.key(op), op, false);
    NewKeyIsNotPending(w, used, e.key);
    QueueShape(tools, w, e);
    QueueTidies(tools, w, e);
    var queued := Queue(tools, w, e).0;
    var t := Execute(tools, w, op).0;
    assert t == queued.(trace := queued.trace + [Failed(e.key)]);
    NoRoomIsFull(tools, t, op);
    LeftIsSound(tools, w, t, e, used);
    if !AnyWith(t.pending, true) {
      assert forall i :: 0 <= i < |w.pending| ==> w.pending[i] in w.pending && t.pending[i] == w.pending[i];
      forall i | 0 <= i < |t.pending| - 1
        ensures IsCommitted(t.img, t.pending[i].key)
      {
        assert t.pending[i].redisCommitted != true && !Unpublished(w.img, w.pending[i]);
      }
    }
  }

  lemma LeftIsSound<S>(tools: Tools<S>, w: World<S>, t: World<S>, e: Entry, used: set<string>)
    requires Good(tools, w, used) && OutboxOnly(w, t) && t.pending == w.pending + [e]
    requires IsMutation(tools, e) && !e.redisCommitted && e.key !in used
    ensures Sound(tools, t, used + {e.key})
  {
    AppendIn(w.pending, e);
    LedgeredAppend(w.img, w.pending, e);
    forall scope
      ensures Clean(tools, t.img, ActiveStore(t), scope) || Dirty(t.img, t.pending, scope)
    {
      assert Clean(tools, w.img, ActiveStore(w), scope) || Dirty(w.img, w.pending, scope);
      assert forall x :: x in w.pending ==> x in t.pending;
    }
  }
}
