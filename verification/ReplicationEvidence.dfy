/** Nothing leaves the outbox silently: every completed entry is preceded by the reason it may go, in every run and in
    every call that stops halfway, whatever the store, Redis and the connection do, and wherever the log or the audit
    file turns out to be full. */
module ReplicationEvidence {
  import opened Wrappers
  import opened Operations
  import opened OutboxLog
  import opened Stores
  import opened Replication
  import opened ReplicationSafety
  import opened ReplicationProgress
  import opened ReplicationRuns

  /** The reasons recorded when Redis wins over an entry; the other audit records are about entries that stay. */
  predicate IsRejection(reason: string) {
    reason in {"redis_ledger_conflict", "redis_priority_replay_rejected", "redis_priority_conflict"}
  }

  /** The reasons for which an entry may leave: the standby ran it or already had it, Redis acknowledged a publish of it
      while the local image contained it, it was audited as rejected, or its tool call failed. */
  predicate Evidences(o: Observation, key: string) {
    match o
    case Replayed(k) => k == key
    case Contained(k) => k == key
    case PublishedLocal(keys) => key in keys
    case Audited(k, reason) => k == key && IsRejection(reason)
    case Failed(k) => k == key
    case Enqueued(_) => false
    case Dropped(_) => false
  }

  /** Such a reason has been seen, and the key was not queued again since. */
  ghost predicate Seen(trace: seq<Observation>, key: string) {
    exists j :: 0 <= j < |trace| && Evidences(trace[j], key) && Enqueued(key) !in trace[j..]
  }

  ghost predicate Justified(trace: seq<Observation>) {
    forall i :: 0 <= i < |trace| && trace[i].Dropped? ==> Seen(trace[..i], trace[i].key)
  }

  /** Every entry that is gone has been dropped since, every new one was queued since, and nothing was dropped without a
      reason. */
  ghost predicate Accounts<S>(w: World<S>, t: World<S>) {
    && w.trace <= t.trace
    && (Justified(w.trace) ==> Justified(t.trace))
    && (forall e :: e in w.pending ==> HasEntryKey(t.pending, e.key) || Dropped(e.key) in t.trace[|w.trace|..])
    && (forall e :: e in t.pending ==> HasEntryKey(w.pending, e.key) || Enqueued(e.key) in t.trace[|w.trace|..])
  }

  /** The same for a stage that queues nothing. */
  ghost predicate Resolves<S>(w: World<S>, t: World<S>) {
    Accounts(w, t) && forall o :: o in t.trace[|w.trace|..] ==> !o.Enqueued?
  }

  lemma AccountsThen<S>(a: World<S>, b: World<S>, c: World<S>)
    requires Accounts(a, b) && Accounts(b, c)
    ensures Accounts(a, c)
    ensures c.trace[|a.trace|..] == b.trace[|a.trace|..] + c.trace[|b.trace|..]
  {
    assert c.trace[|a.trace|..] == b.trace[|a.trace|..] + c.trace[|b.trace|..];
    forall e | e in a.pending
      ensures HasEntryKey(c.pending, e.key) || Dropped(e.key) in c.trace[|a.trace|..]
    {
      if HasEntryKey(b.pending, e.key) {
        var x :| x in b.pending && x.key == e.key;
        assert HasEntryKey(c.pending, x.key) || Dropped(x.key) in c.trace[|b.trace|..];
      }
    }
    forall e | e in c.pending
      ensures HasEntryKey(a.pending, e.key) || Enqueued(e.key) in c.trace[|a.trace|..]
    {
      if HasEntryKey(b.pending, e.key) {
        var x :| x in b.pending && x.key == e.key;
        assert HasEntryKey(a.pending, x.key) || Enqueued(x.key) in b.trace[|a.trace|..];
      }
    }
  }

  lemma ResolvesThen<S>(a: World<S>, b: World<S>, c: World<S>)
    requires Resolves(a, b) && Resolves(b, c)
    ensures Resolves(a, c)
  {
    AccountsThen(a, b, c);
  }

  /** What was seen stays seen while nothing is queued. */
  lemma SeenThrough<S>(w: World<S>, t: World<S>, key: string)
    requires Resolves(w, t) && Seen(w.trace, key)
    ensures Seen(t.trace, key)
  {
    var j :| 0 <= j < |w.trace| && Evidences(w.trace[j], key) && Enqueued(key) !in w.trace[j..];
    assert t.trace[j] == w.trace[j] && t.trace[j..] == w.trace[j..] + t.trace[|w.trace|..];
  }

  lemma SeenLast(trace: seq<Observation>, o: Observation, key: string)
    requires Evidences(o, key)
    ensures Seen(trace + [o], key)
  {
    var j := |trace|;
    assert (trace + [o])[j] == o && (trace + [o])[j..] == [o];
  }

  /** A step that queues and drops nothing. */
  lemma ResolvesQuiet<S>(w: World<S>, t: World<S>, more: seq<Observation>)
    requires t.trace == w.trace + more && (forall o :: o in more ==> !o.Dropped? && !o.Enqueued?)
    requires forall k :: HasEntryKey(w.pending, k) <==> HasEntryKey(t.pending, k)
    ensures Resolves(w, t)
  {
    assert t.trace[|w.trace|..] == more;
    assert forall i :: |w.trace| <= i < |t.trace| ==> t.trace[i] in more;
    assert forall i :: 0 <= i < |w.trace| ==> t.trace[..i] == w.trace[..i];
  }

  lemma SameResolves<S>(w: World<S>, t: World<S>)
    requires t.pending == w.pending && t.trace == w.trace
    ensures Resolves(w, t)
  {
    ResolvesQuiet(w, t, []);
  }

  /** Completing one entry, the reason for which has been seen; a full log leaves it where it is. */
  lemma CompleteResolves<S>(tools: Tools<S>, w: World<S>, key: string)
    requires Seen(w.trace, key)
    ensures Resolves(w, Complete(tools, w, key).0)
  {
    var (t, r) := Complete(tools, w, key);
    if r.Fail? {
      SameResolves(w, t);
    } else {
      assert t.trace[|w.trace|..] == [Dropped(key)];
      WithoutIn(w.pending, key);
      forall i | 0 <= i < |t.trace| && t.trace[i].Dropped? && Justified(w.trace)
        ensures Seen(t.trace[..i], t.trace[i].key)
      {
        assert t.trace[..i] == w.trace[..i];
      }
      assert forall e :: e in w.pending && e.key != key ==> e in t.pending;
    }
  }

  lemma MarkedResolves<S>(w: World<S>, t: World<S>, key: string, more: seq<Observation>)
    requires t.pending == w.pending || t.pending == MarkCommitted(w.pending, key)
    requires t.trace == w.trace + more && (forall o :: o in more ==> !o.Dropped? && !o.Enqueued?)
    ensures Resolves(w, t)
  {
    MarkIn(w.pending, key);
    forall k
      ensures HasEntryKey(w.pending, k) <==> HasEntryKey(MarkCommitted(w.pending, key), k)
    {
      if HasEntryKey(w.pending, k) {
        var e :| e in w.pending && e.key == k;
        var x := if e.key == key then e.(redisCommitted := true) else e;
        assert x in MarkCommitted(w.pending, key);
      }
    }
    ResolvesQuiet(w, t, more);
  }

  // ---------- Stage by stage ----------

  lemma {:induction false} CompleteAllResolves<S>(tools: Tools<S>, w: World<S>, entries: seq<Entry>)
    requires forall e :: e in entries ==> Seen(w.trace, e.key)
    ensures Resolves(w, CompleteAll(tools, w, entries).0)
    decreases |entries|
  {
    SameResolves(w, w);
    if entries != [] {
      assert entries[0] in entries;
      var (next, r) := Complete(tools, w, entries[0].key);
      CompleteResolves(tools, w, entries[0].key);
      if r.Pass? {
        forall e | e in entries[1..]
          ensures Seen(next.trace, e.key)
        {
          SeenThrough(w, next, e.key);
        }
        CompleteAllResolves(tools, next, entries[1..]);
        ResolvesThen(w, next, CompleteAll(tools, next, entries[1..]).0);
      }
    }
  }

  lemma {:induction false} MirrorReplayResolves<S>(tools: Tools<S>, w: World<S>, entries: seq<Entry>)
    ensures var (t, ok) := MirrorReplay(tools, w, entries);
      Resolves(w, t) && (ok ==> forall e :: e in entries ==> Seen(t.trace, e.key))
    decreases |entries|
  {
    SameResolves(w, w);
    if entries != [] {
      var e := entries[0];
      var s := tools.apply(w.store, e.operation);
      if s.Some? || AlreadyContains(tools, w.store, e.operation) {
        var o := if s.Some? then Replayed(e.key) else Contained(e.key);
        var next := if s.Some? then w.(store := s.value, trace := w.trace + [o]) else w.(trace := w.trace + [o]);
        ResolvesQuiet(w, next, [o]);
        SeenLast(w.trace, o, e.key);
        MirrorReplayResolves(tools, next, entries[1..]);
        var t := MirrorReplay(tools, w, entries).0;
        ResolvesThen(w, next, t);
        SeenThrough(next, t, e.key);
        assert forall x :: x in entries <==> x == e || x in entries[1..];
      }
    }
  }

  lemma MirrorResolves<S>(tools: Tools<S>, w: World<S>)
    ensures Resolves(w, Mirror(tools, w).0)
  {
    var batch := Batch(w.pending, true);
    MirrorReplayResolves(tools, w, batch);
    var (replayed, ok) := MirrorReplay(tools, w, batch);
    if ok {
      CompleteAllResolves(tools, replayed, batch);
      var next := CompleteAll(tools, replayed, batch).0;
      ResolvesThen(w, replayed, next);
      SameResolves(next, Mirror(tools, w).0);
      ResolvesThen(w, next, Mirror(tools, w).0);
    }
  }

  ghost predicate Rejections(rejected: seq<AuditRecord>) {
    forall r :: r in rejected ==> IsRejection(r.reason)
  }

  lemma HitResolves<S>(tools: Tools<S>, w: World<S>, asked: World<S>, key: string, reason: string)
    requires asked.pending == w.pending && asked.trace == w.trace
    ensures Resolves(w, AuditAndMark(tools, asked, key, reason).0)
  {
    var t := AuditAndMark(tools, asked, key, reason).0;
    AuditAndMarkShape(tools, asked, key, reason);
    MarkedResolves(w, t, key, if t.trace == w.trace then [] else [Audited(key, reason)]);
  }

  lemma ScanReplayResolves<S>(tools: Tools<S>, sc: Scan<S>, e: Entry)
    requires Rejections(sc.rejected)
    ensures var t := ScanReplay(tools, sc, e).0; SameOutbox(sc.world, t.world) && Rejections(t.rejected)
  {
    ConflictShape(sc.world, e, "redis_priority_replay_rejected", sc.world.revision);
  }

  lemma ScanOneResolves<S>(tools: Tools<S>, sc: Scan<S>, e: Entry)
    requires Rejections(sc.rejected)
    ensures var t := ScanOne(tools, sc, e).0; Resolves(sc.world, t.world) && Rejections(t.rejected)
  {
    var w, t := sc.world, ScanOne(tools, sc, e).0.world;
    AskShape(w);
    var (w1, ok1) := Ask(w);
    AskShape(w1);
    var (w2, ok2) := Ask(w1);
    if ok1 && IsCommitted(w1.img, e.key) {
      HitResolves(tools, w, w1, e.key, "already_committed_in_redis_ledger");
    } else if ok1 && !IsConflict(w1.img, e.key) && ok2 && e.key in w2.img.markers {
      HitResolves(tools, w, w2, e.key, "already_committed_in_redis");
    } else {
      ScanReplayResolves(tools, sc.(world := w2), e);
      SameResolves(w, t);
    }
  }

  lemma {:induction false} ScanAllResolves<S>(tools: Tools<S>, sc: Scan<S>, entries: seq<Entry>)
    requires Rejections(sc.rejected)
    ensures var t := ScanAll(tools, sc, entries).0; Resolves(sc.world, t.world) && Rejections(t.rejected)
    decreases |entries|
  {
    if entries == [] {
      SameResolves(sc.world, sc.world);
    } else {
      ScanOneResolves(tools, sc, entries[0]);
      var (next, r) := ScanOne(tools, sc, entries[0]);
      if r.Pass? {
        ScanAllResolves(tools, next, entries[1..]);
        ResolvesThen(sc.world, next.world, ScanAll(tools, next, entries[1..]).0.world);
      }
    }
  }

  /** What is still applied after the publish, and was local, was carried by it as local. */
  ghost predicate Carried<S>(sc: Scan<S>) {
    forall e :: e in sc.applied && e.key in sc.local ==> Seen(sc.world.trace, e.key)
  }

  lemma PublishAppliedResolves<S>(tools: Tools<S>, sc: Scan<S>)
    requires Rejections(sc.rejected)
    ensures var (t, r) := PublishApplied(tools, sc);
      Resolves(sc.world, t.world) && (r.Pass? ==> Carried(t) && Rejections(t.rejected))
  {
    if sc.applied == [] {
      SameResolves(sc.world, sc.world);
    } else {
      var ops := OperationsFor(sc.applied);
      var projections := ProjectAll(tools, ActiveStore(sc.world), EntryScopes(sc.applied));
      PublishLocalShape(tools, sc.world, ops, projections);
      var (next, r) := PublishLocal(tools, sc.world, ops, projections);
      if r.Pass? {
        var o := PublishedLocal(KeysOf(sc.applied) * sc.local);
        ResolvesQuiet(sc.world, next.(trace := next.trace + [o]), [o]);
        forall e | e in sc.applied && e.key in sc.local
          ensures Seen(next.trace + [o], e.key)
        {
          var i :| 0 <= i < |sc.applied| && sc.applied[i] == e;
          SeenLast(next.trace, o, e.key);
        }
      } else if r.error.Conflicted? {
        GiveWayResolves(tools, sc.(world := next), r.error.actual);
        SameResolves(sc.world, PublishApplied(tools, sc).0.world);
      } else {
        SameResolves(sc.world, next);
      }
    }
  }

  lemma GiveWayResolves<S>(tools: Tools<S>, sc: Scan<S>, actual: nat)
    requires Rejections(sc.rejected)
    ensures var (t, r) := GiveWay(tools, sc, actual);
      SameOutbox(sc.world, t.world) && (r.Pass? ==> t.applied == [] && Rejections(t.rejected))
  {
    ConflictsShape(sc.world, sc.applied, "redis_priority_conflict", actual);
    var w1 := RecordConflicts(sc.world, sc.applied, "redis_priority_conflict", actual).0;
    SyncShape(tools, w1);
  }

  lemma {:induction false} SettleResolves<S>(tools: Tools<S>, w: World<S>, applied: seq<Entry>, local: set<string>)
    requires forall e :: e in applied && e.key in local ==> Seen(w.trace, e.key)
    ensures Resolves(w, Settle(tools, w, applied, local).0)
    decreases |applied|
  {
    SameResolves(w, w);
    if applied != [] {
      var key := applied[0].key;
      assert applied[0] in applied;
      var (next, r) := if key in local then Complete(tools, w, key) else Mark(tools, w, key);
      if key in local {
        CompleteResolves(tools, w, key);
      } else {
        MarkShape(tools, w, key);
        MarkedResolves(w, next, key, []);
      }
      if r.Pass? {
        forall e | e in applied[1..] && e.key in local
          ensures Seen(next.trace, e.key)
        {
          SeenThrough(w, next, e.key);
        }
        SettleResolves(tools, next, applied[1..], local);
        ResolvesThen(w, next, Settle(tools, next, applied[1..], local).0);
      }
    }
  }

  lemma RejectResolves<S>(tools: Tools<S>, w: World<S>, record: AuditRecord)
    requires IsRejection(record.reason)
    ensures Resolves(w, Reject(tools, w, record).0)
  {
    var (audited, r) := Audit(tools, w, record.key, record.reason);
    ResolvesQuiet(w, audited, if r.Pass? then [Audited(record.key, record.reason)] else []);
    if r.Pass? {
      SeenLast(w.trace, Audited(record.key, record.reason), record.key);
      CompleteResolves(tools, audited, record.key);
      ResolvesThen(w, audited, Complete(tools, audited, record.key).0);
    }
  }

  lemma {:induction false} RejectAllResolves<S>(tools: Tools<S>, w: World<S>, rejected: seq<AuditRecord>)
    requires Rejections(rejected)
    ensures Resolves(w, RejectAll(tools, w, rejected).0)
    decreases |rejected|
  {
    SameResolves(w, w);
    if rejected != [] {
      assert rejected[0] in rejected;
      RejectResolves(tools, w, rejected[0]);
      var (next, r) := Reject(tools, w, rejected[0]);
      if r.Pass? {
        RejectAllResolves(tools, next, rejected[1..]);
        ResolvesThen(w, next, RejectAll(tools, next, rejected[1..]).0);
      }
    }
  }

  lemma FinishResolves<S>(tools: Tools<S>, sc: Scan<S>)
    requires Carried(sc) && Rejections(sc.rejected)
    ensures Resolves(sc.world, Finish(tools, sc).0)
  {
    var (settled, r1) := Settle(tools, sc.world, sc.applied, sc.local);
    SettleResolves(tools, sc.world, sc.applied, sc.local);
    if r1.Pass? {
      var (rejected, r2) := RejectAll(tools, settled, sc.rejected);
      RejectAllResolves(tools, settled, sc.rejected);
      ResolvesThen(sc.world, settled, rejected);
      if r2.Pass? {
        var compacted := Compacted(tools, rejected);
        var mirrored := Mirror(tools, compacted).0;
        SameResolves(rejected, compacted);
        MirrorResolves(tools, compacted);
        SameResolves(mirrored, Finish(tools, sc).0);
        ResolvesThen(sc.world, rejected, compacted);
        ResolvesThen(sc.world, compacted, mirrored);
        ResolvesThen(sc.world, mirrored, Finish(tools, sc).0);
      }
    }
  }

  lemma ReconcileBatchResolves<S>(tools: Tools<S>, w: World<S>)
    ensures Resolves(w, ReconcileBatch(tools, w).0)
  {
    var start := Scan(w, [], {}, []);
    ScanAllResolves(tools, start, Batch(w.pending, false));
    var (scanned, r1) := ScanAll(tools, start, Batch(w.pending, false));
    if r1.Pass? {
      PublishAppliedResolves(tools, scanned);
      var (published, r2) := PublishApplied(tools, scanned);
      ResolvesThen(w, scanned.world, published.world);
      if r2.Pass? {
        CheckpointShape(tools, published.world);
        var (checked, r3) := CheckpointLocal(tools, published);
        SameResolves(published.world, checked.world);
        ResolvesThen(w, published.world, checked.world);
        if r3.Pass? {
          FinishResolves(tools, checked);
          ResolvesThen(w, checked.world, Finish(tools, checked).0);
        }
      }
    }
  }

  /** Every reconciliation, finished or stopped by a lost connection, a failed replay or a full file, accounts for what
      it removes. */
  lemma ReconcileAccounts<S>(tools: Tools<S>, w: World<S>)
    ensures Resolves(w, Reconcile(tools, w).0)
  {
    var (replayed, r1) := ReplayCommittedIntoActive(tools, w);
    SameResolves(w, replayed);
    if r1.Pass? {
      MirrorResolves(tools, replayed);
      var (mirrored, r2) := Mirror(tools, replayed);
      ResolvesThen(w, replayed, mirrored);
      if r2.Pass? && mirrored.pending != [] {
        ReconcileBatchResolves(tools, mirrored);
        ResolvesThen(w, mirrored, ReconcileBatch(tools, mirrored).0);
      } else if r2.Pass? {
        SameResolves(mirrored, Reconcile(tools, w).0);
        ResolvesThen(w, mirrored, Reconcile(tools, w).0);
      }
    }
  }

  lemma AttachResolves<S>(tools: Tools<S>, w: World<S>, link: Link)
    ensures Resolves(w, Attach(tools, w, link).0)
  {
    AdoptShape(tools, w.(link := Some(link)));
    var (adopted, r) := Adopt(tools, w.(link := Some(link)));
    if r.Fail? {
      SameResolves(w, Attach(tools, w, link).0);
    } else {
      var attached := Attached(w, adopted);
      SameResolves(w, attached);
      ReconcileAccounts(tools, attached);
      ResolvesThen(w, attached, Reconcile(tools, attached).0);
    }
  }

  lemma RoundResolves<S>(tools: Tools<S>, w: World<S>)
    ensures Resolves(w, ReconcileRound(tools, w).0)
  {
    ReconcileAccounts(tools, w);
    var (reconciled, r) := Reconcile(tools, w);
    if r.Pass? {
      CheckpointShape(tools, reconciled);
      SameResolves(reconciled, CheckpointIfDue(tools, reconciled).0);
      ResolvesThen(w, reconciled, CheckpointIfDue(tools, reconciled).0);
    }
  }

  lemma TickResolves<S>(tools: Tools<S>, w: World<S>, offered: Option<Link>)
    ensures Resolves(w, Tick(tools, w, offered).0)
  {
    SameResolves(w, w);
    if w.link.None? {
      if offered.Some? {
        AttachResolves(tools, w, offered.value);
      }
    } else if w.mode == RedisPrimary {
      AskShape(w);
      var asked := Ask(w).0;
      SyncShape(tools, asked.(lastRemote := Some(asked.img.revision)));
      SameResolves(w, asked);
      var (current, r) := Observe(tools, asked);
      SameResolves(w, current);
      if Ask(w).1 && r.Pass? {
        RoundResolves(tools, current);
        ResolvesThen(w, current, ReconcileRound(tools, current).0);
      }
    }
  }

  lemma ConcludeResolves<S>(tools: Tools<S>, w: World<S>, key: string, r: Outcome<Problem>)
    ensures Resolves(w, Conclude(tools, w, key, r).0)
  {
    if r.Pass? {
      var (marked, m) := Mark(tools, w, key);
      MarkShape(tools, w, key);
      MarkedResolves(w, marked, key, []);
      MirrorResolves(tools, marked);
      ResolvesThen(w, marked, Mirror(tools, marked).0);
    } else {
      SameResolves(w, EnterFallback(w));
    }
  }

  lemma CommitResolves<S>(tools: Tools<S>, w: World<S>, key: string, op: Operation, s: S)
    ensures Resolves(w, Commit(tools, w, key, op, s).0)
  {
    var ops, projections := [OperationFor(key, op)], ProjectAll(tools, s, OperationScopes(op));
    PublishLocalShape(tools, w, ops, projections);
    var (next, r) := PublishLocal(tools, w, ops, projections);
    SameResolves(w, next);
    ConcludeResolves(tools, next, key, r);
    ResolvesThen(w, next, Conclude(tools, next, key, r).0);
  }

  lemma TakeBackResolves<S>(tools: Tools<S>, w: World<S>, key: string)
    ensures Resolves(w, TakeBack(tools, w, key).0)
  {
    var failed := w.(trace := w.trace + [Failed(key)]);
    ResolvesQuiet(w, failed, [Failed(key)]);
    SeenLast(w.trace, Failed(key), key);
    CompleteResolves(tools, failed, key);
    var next := Complete(tools, failed, key).0;
    ResolvesThen(w, failed, next);
    SameResolves(next, TakeBack(tools, w, key).0);
    ResolvesThen(w, next, TakeBack(tools, w, key).0);
  }

  lemma QueueAccounts<S>(tools: Tools<S>, w: World<S>, e: Entry)
    ensures Accounts(w, Queue(tools, w, e).0)
  {
    var (t, r) := Queue(tools, w, e);
    if HasKey(w.pending, e.key) || r.Fail? {
      SameResolves(w, t);
    } else {
      assert t.trace[|w.trace|..] == [Enqueued(e.key)];
      assert forall i :: 0 <= i < |w.trace| ==> t.trace[..i] == w.trace[..i];
    }
  }

  lemma MutateAccounts<S>(tools: Tools<S>, w: World<S>, key: string, op: Operation)
    ensures Accounts(w, Mutate(tools, w, key, op).0)
  {
    var (queued, r) := Queue(tools, w, Entry(key, op, false));
    QueueAccounts(tools, w, Entry(key, op, false));
    if r.Pass? {
      match tools.apply(ActiveStore(w), op)
      case None =>
        TakeBackResolves(tools, queued, key);
        AccountsThen(w, queued, TakeBack(tools, queued, key).0);
      case Some(s) =>
        var done := WithActiveStore(queued, s);
        SameResolves(queued, done);
        AccountsThen(w, queued, done);
        if done.mode == RedisPrimary {
          CommitResolves(tools, done, key, op, s);
          AccountsThen(w, done, Commit(tools, done, key, op, s).0);
        }
    }
  }

  lemma ExecuteAccounts<S>(tools: Tools<S>, w: World<S>, op: Operation)
    ensures Accounts(w, Execute(tools, w, op).0)
  {
    var prepared := Prepare(w);
    SameResolves(w, prepared);
    if tools.mutating(op.name) {
      MutateAccounts(tools, prepared, tools.key(op), op);
      AccountsThen(w, prepared, Execute(tools, w, op).0);
    } else {
      SameResolves(w, Execute(tools, w, op).0);
    }
  }

  lemma NextAccounts<S>(tools: Tools<S>, w: World<S>, move: Move)
    ensures Accounts(w, Next(tools, w, move))
  {
    match move
    case Call(op) => ExecuteAccounts(tools, w, op);
    case Round(offered) => TickResolves(tools, w, offered);
    case Expire(_) => SameResolves(w, Next(tools, w, move));
  }

  /** Over every run from every world, whatever stops its calls halfway: every entry was queued, every entry that is no
      longer pending has a `Completed` event, and between the two stands a replay on the standby, a check that the
      standby contains it, a publish of a locally present entry, an audited rejection or a failed call for its key. */
  lemma {:induction false} NothingLeavesSilently<S>(tools: Tools<S>, w: World<S>, moves: seq<Move>)
    ensures Accounts(w, Ran(tools, w, moves))
  {
    if moves == [] {
      SameResolves(w, w);
    } else {
      var n := |moves| - 1;
      NothingLeavesSilently(tools, w, moves[..n]);
      NextAccounts(tools, Ran(tools, w, moves[..n]), moves[n]);
      AccountsThen(w, Ran(tools, w, moves[..n]), Ran(tools, w, moves));
    }
  }
}
