/** A coordinator that another one has overtaken, and what a coordinator knows about the revision on the server. */
module ReplicationForeign {
  import opened Wrappers
  import opened Operations
  import opened OutboxLog
  import opened NativeRecords
  import opened Publish
  import Remote
  import opened Stores
  import opened Replication
  import opened ReplicationSafety
  import opened ReplicationCalm
  import opened ReplicationRoom
  import opened ReplicationRuns
  import opened ReplicationVerdicts
  import opened ReplicationCheckpoint

  // ---------- The revision on the server ----------

  /** The remote revision that is reported is the one the coordinator works with. */
  ghost predicate Knows<S>(w: World<S>) {
    w.link.Some? ==> w.lastRemote == Some(w.revision)
  }

  /** What the coordinator believes about the server stays. */
  ghost predicate Believes<S>(w: World<S>, t: World<S>) {
    t.revision == w.revision && t.lastRemote == w.lastRemote && (t.link.Some? <==> w.link.Some?)
  }

  lemma SendKnows<S>(w: World<S>, accepted: bool, after: Image<S>, cache: seq<Projection>)
    ensures var (t, r) := Send(w, accepted, after, cache);
      (t.link.Some? <==> w.link.Some?) && (if r.Pass? then t.lastRemote == Some(t.revision) else Believes(w, t))
  {
  }

  lemma PublishKnows<S>(tools: Tools<S>, w: World<S>, ops: seq<RedisOperation>, projections: seq<Projection>)
    requires Knows(w)
    ensures Knows(PublishLocal(tools, w, ops, projections).0)
  {
    var deltas := NativeDeltas(w.cache, projections);
    SendKnows(w, DistinctScopes(projections) && tools.fits(deltas, ops), Remote.PublishedDeltas(w.img, deltas, ops),
              ApplyCache(w.cache, projections));
  }

  lemma {:induction false} ConflictsBelieve<S>(w: World<S>, entries: seq<Entry>, reason: string, revision: nat)
    ensures Believes(w, RecordConflicts(w, entries, reason, revision).0)
    decreases |entries|
  {
    if entries != [] {
      AskShape(w);
      ConflictsBelieve(RecordConflict(w, entries[0], reason, revision).0, entries[1..], reason, revision);
    }
  }

  lemma SyncKnows<S>(tools: Tools<S>, w: World<S>)
    ensures var (t, r) := SyncFromRedis(tools, w);
      (t.link.Some? <==> w.link.Some?) && (if r.Pass? then t.lastRemote == Some(t.revision) else Believes(w, t))
  {
    AskTimesShape(w, 3);
  }

  lemma CheckpointKnows<S>(tools: Tools<S>, w: World<S>)
    requires Knows(w)
    ensures Knows(Checkpoint(tools, w).0)
  {
    WholeCallIs(tools, w, w.revision, ActiveStore(w), Everything(tools, ActiveStore(w)));
    var t := PublishWhole(tools, w, w.revision, ActiveStore(w), Everything(tools, ActiveStore(w))).0;
    AskShape(w);
    assert t.link.Some? <==> w.link.Some?;
  }

  lemma {:induction false} ScanBelieves<S>(tools: Tools<S>, sc: Scan<S>, entries: seq<Entry>)
    ensures Believes(sc.world, ScanAll(tools, sc, entries).0.world)
    decreases |entries|
  {
    if entries != [] {
      ScanOneBelieves(tools, sc, entries[0]);
      var (next, r) := ScanOne(tools, sc, entries[0]);
      if r.Pass? {
        ScanBelieves(tools, next, entries[1..]);
      }
    }
  }

  lemma ScanOneBelieves<S>(tools: Tools<S>, sc: Scan<S>, e: Entry)
    ensures Believes(sc.world, ScanOne(tools, sc, e).0.world)
  {
    ScanOneIs(tools, sc, e);
    AskShape(sc.world);
    AskShape(Ask(sc.world).0);
    AuditAndMarkShape(tools, Ask(sc.world).0, e.key, "already_committed_in_redis_ledger");
    AuditAndMarkShape(tools, Ask(Ask(sc.world).0).0, e.key, "already_committed_in_redis");
    ReplayBelieves(tools, sc.(world := Ask(Ask(sc.world).0).0), e);
  }

  lemma ReplayBelieves<S>(tools: Tools<S>, sc: Scan<S>, e: Entry)
    ensures Believes(sc.world, ScanReplay(tools, sc, e).0.world)
  {
  }

  lemma PublishAppliedKnows<S>(tools: Tools<S>, sc: Scan<S>)
    requires Knows(sc.world)
    ensures Knows(PublishApplied(tools, sc).0.world)
  {
    var projections := ProjectAll(tools, ActiveStore(sc.world), EntryScopes(sc.applied));
    var ops := OperationsFor(sc.applied);
    PublishKnows(tools, sc.world, ops, projections);
    var (next, r) := PublishLocal(tools, sc.world, ops, projections);
    if r.Fail? && r.error.Conflicted? {
      ConflictsBelieve(next, sc.applied, "redis_priority_conflict", r.error.actual);
      SyncKnows(tools, RecordConflicts(next, sc.applied, "redis_priority_conflict", r.error.actual).0);
    }
  }

  lemma FinishBelieves<S>(tools: Tools<S>, sc: Scan<S>)
    ensures Believes(sc.world, Finish(tools, sc).0)
  {
    SettleStill(tools, sc.world, sc.applied, sc.local);
    var settled := Settle(tools, sc.world, sc.applied, sc.local).0;
    RejectStill(tools, settled, sc.rejected);
    MirrorOnly(tools, Compacted(tools, RejectAll(tools, settled, sc.rejected).0));
  }

  lemma ReconcileKnows<S>(tools: Tools<S>, w: World<S>)
    requires Knows(w)
    ensures Knows(Reconcile(tools, w).0)
  {
    var replayed := ReplayCommittedIntoActive(tools, w).0;
    MirrorOnly(tools, replayed);
    var mirrored := Mirror(tools, replayed).0;
    var start := Scan(mirrored, [], {}, []);
    ScanBelieves(tools, start, Batch(mirrored.pending, false));
    var (scanned, r) := ScanAll(tools, start, Batch(mirrored.pending, false));
    if r.Pass? {
      PublishScanKnows(tools, scanned);
    }
  }

  lemma PublishScanKnows<S>(tools: Tools<S>, sc: Scan<S>)
    requires Knows(sc.world)
    ensures Knows(PublishScan(tools, sc).0)
  {
    PublishAppliedKnows(tools, sc);
    var published := PublishApplied(tools, sc).0;
    CheckpointKnows(tools, published.world);
    FinishBelieves(tools, CheckpointLocal(tools, published).0);
  }

  lemma AttachKnows<S>(tools: Tools<S>, w: World<S>, link: Link)
    ensures Knows(Attach(tools, w, link).0)
  {
    var (adopted, r) := Adopt(tools, w.(link := Some(link)));
    if r.Pass? {
      ReconcileKnows(tools, Attached(w, adopted));
    }
  }

  lemma TickKnows<S>(tools: Tools<S>, w: World<S>, offered: Option<Link>)
    requires Knows(w)
    ensures var (t, r) := Tick(tools, w, offered);
      w.link.None? || r.Pass? || (Live(w) ==> w.revision == w.img.revision) ==> Knows(t)
  {
    if w.link.None? {
      if offered.Some? {
        AttachKnows(tools, w, offered.value);
      }
    } else if w.mode == RedisPrimary {
      AskShape(w);
      var asked := Ask(w).0;
      ObserveKnows(tools, asked);
      var (current, r) := Observe(tools, asked);
      if Ask(w).1 && r.Pass? {
        RoundKnows(tools, current);
      }
    }
  }

  lemma ObserveKnows<S>(tools: Tools<S>, w: World<S>)
    ensures var (t, r) := Observe(tools, w); r.Pass? ==> Knows(t)
  {
    SyncKnows(tools, w.(lastRemote := Some(w.img.revision)));
  }

  lemma RoundKnows<S>(tools: Tools<S>, w: World<S>)
    requires Knows(w)
    ensures Knows(ReconcileRound(tools, w).0)
  {
    ReconcileKnows(tools, w);
    CheckpointKnows(tools, Reconcile(tools, w).0);
  }

  lemma ExecuteKnows<S>(tools: Tools<S>, w: World<S>, op: Operation)
    requires Knows(w)
    ensures Knows(Execute(tools, w, op).0)
  {
    if tools.mutating(op.name) {
      MutateKnows(tools, Prepare(w), tools.key(op), op);
    }
  }

  lemma MutateKnows<S>(tools: Tools<S>, w: World<S>, key: string, op: Operation)
    requires Knows(w)
    ensures Knows(Mutate(tools, w, key, op).0)
  {
    var (queued, r) := Queue(tools, w, Entry(key, op, false));
    if r.Pass? {
      match tools.apply(ActiveStore(w), op)
      case None => TakeBackOnly(tools, queued, key);
      case Some(s) => CommitKnows(tools, WithActiveStore(queued, s), key, op, s);
    }
  }

  lemma CommitKnows<S>(tools: Tools<S>, w: World<S>, key: string, op: Operation, s: S)
    requires Knows(w)
    ensures Knows(Commit(tools, w, key, op, s).0)
  {
    var ops, projections := [OperationFor(key, op)], ProjectAll(tools, s, OperationScopes(op));
    PublishKnows(tools, w, ops, projections);
    var (next, r) := PublishLocal(tools, w, ops, projections);
    ConcludeKnows(tools, next, key, r);
  }

  lemma ConcludeKnows<S>(tools: Tools<S>, w: World<S>, key: string, r: Outcome<Problem>)
    requires Knows(w)
    ensures Knows(Conclude(tools, w, key, r).0)
  {
    MarkShape(tools, w, key);
    MirrorOnly(tools, Mark(tools, w, key).0);
  }

  /** Over every run: as long as the connection can take effect, the revision that is reported is the server's. */
  lemma {:induction false} RemoteIsKnown<S(!new)>(tools: Tools<S>, w: World<S>, moves: seq<Move>)
    requires Lawful(tools) && ShortestCompleted(tools) && Start(tools, w) && w.lastRemote == Some(w.revision)
    requires DistinctCalls(tools, moves, w.img.ledger.Keys) && NeverDoubleApplies(tools, w, moves)
    ensures var t := Ran(tools, w, moves); Knows(t) && (Live(t) ==> t.lastRemote == Some(t.img.revision))
  {
    RunIsSound(tools, w, moves);
    if moves != [] {
      var n := |moves| - 1;
      PrefixRuns(tools, w, moves, n, w.img.ledger.Keys);
      RemoteIsKnown(tools, w, moves[..n]);
      RunIsSound(tools, w, moves[..n]);
      NextKnows(tools, Ran(tools, w, moves[..n]), moves[n]);
    }
  }

  lemma NextKnows<S>(tools: Tools<S>, w: World<S>, move: Move)
    requires Knows(w) && Wired(w)
    ensures Knows(Next(tools, w, move))
  {
    match move
    case Call(op) => ExecuteKnows(tools, w, op);
    case Round(offered) => TickKnows(tools, w, offered);
    case Expire(_) =>
  }

  // ---------- Overtaken ----------

  /** The coordinator is where Redis is: it serves the stored snapshot, on which its cache and its standby are built. */
  ghost predicate Adopts<S>(tools: Tools<S>, w: World<S>, t: World<S>) {
    && t.img == w.img && t.active == t.img.snapshot == Some(t.store)
    && t.revision == t.lastSnapshot == t.img.revision && t.lastRemote == Some(t.img.revision)
    && t.pending == w.pending && t.audit == w.audit && t.logBytes == w.logBytes
    && forall scope :: t.img.snapshot.Some? ==>
         Lookup(t.cache, scope) == Project(tools, t.img.snapshot.value, scope).records
  }

  /** Before it reconciles, a round that finds a foreign revision takes over the stored snapshot, or fails; one that
      finds its own leaves everything alone. */
  lemma ForeignIsAdopted<S(!new)>(tools: Tools<S>, w: World<S>, offered: Option<Link>)
    requires Lawful(tools) && w.link.Some? && w.mode == RedisPrimary && Tick(tools, w, offered).1.Pass?
    ensures var looked := Looked(tools, w);
      && (w.img.revision != w.revision ==> Adopts(tools, w, looked))
      && (w.img.revision == w.revision ==> looked == w.(link := looked.link, lastRemote := Some(w.img.revision)))
  {
    AskShape(w);
    var seen := Ask(w).0.(lastRemote := Some(w.img.revision));
    AskTimesShape(seen, 3);
    if w.img.revision != w.revision {
      var snapshot := w.img.snapshot.value;
      forall scope
        ensures Lookup(Everything(tools, snapshot), scope) == Project(tools, snapshot, scope).records
      {
        AllScopesCover(tools, snapshot, scope);
      }
    }
  }

  /** So an overtaken coordinator with an empty outbox serves, after a round that succeeds, what is stored. */
  lemma OvertakenServesSnapshot<S(!new)>(tools: Tools<S>, w: World<S>, offered: Option<Link>)
    requires Lawful(tools) && w.link.Some? && w.mode == RedisPrimary && w.pending == []
    requires w.img.revision != w.revision && Tick(tools, w, offered).1.Pass?
    ensures var t := Tick(tools, w, offered).0;
      && t.active == w.img.snapshot == t.img.snapshot == Some(t.store) && t.img.revision == w.img.revision == t.revision
  {
    ForeignIsAdopted(tools, w, offered);
    var looked := Looked(tools, w);
    assert Batch(looked.pending, true) == [] && Batch(looked.pending, false) == [];
    ReconcileNothing(tools, looked);
    DueStores(tools, Reconcile(tools, looked).0);
  }

  lemma ReconcileNothing<S>(tools: Tools<S>, w: World<S>)
    requires w.pending == [] && w.active.Some?
    ensures var (t, r) := Reconcile(tools, w);
      r.Pass? ==> t == w.(usesLocal := false, replayCommitted := false, logBytes := t.logBytes)
  {
    assert Batch(w.pending, true) == [];
  }
}
