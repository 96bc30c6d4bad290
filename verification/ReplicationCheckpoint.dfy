/** The snapshot key: when it is written, whose image it holds, and how far behind the records it can be. */
module ReplicationCheckpoint {
  import opened Wrappers
  import opened Operations
  import opened OutboxLog
  import opened NativeRecords
  import opened Publish
  import Remote
  import opened Stores
  import opened Replication
  import opened ReplicationSafety
  import opened ReplicationProgress
  import opened ReplicationCalm
  import opened ReplicationFrozen
  import opened ReplicationRoom
  import opened ReplicationRuns
  import opened ReplicationVerdicts
  import opened ReplicationOverrun

  // ---------- One round ----------

  /** The world in which a round of a connected coordinator begins to reconcile. */
  function Looked<S>(tools: Tools<S>, w: World<S>): World<S> {
    Observe(tools, Ask(w).0).0
  }

  /** A round that succeeds leaves the snapshot fewer than 256 revisions behind. It writes it exactly when it would be
      further behind otherwise, and then it is the image that is served; otherwise reconciling was its last step. */
  lemma RoundCheckpoints<S>(tools: Tools<S>, w: World<S>, offered: Option<Link>)
    requires w.link.Some? && w.mode == RedisPrimary && Tick(tools, w, offered).1.Pass?
    ensures var t := Tick(tools, w, offered).0;
      var reconciled := Reconcile(tools, Looked(tools, w)).0;
      && t.revision - t.lastSnapshot < 256
      && (reconciled.mode == RedisPrimary && reconciled.revision - reconciled.lastSnapshot >= 256 ==>
            && t.img.snapshot == Some(ActiveStore(reconciled)) && ActiveStore(t) == ActiveStore(reconciled)
            && t.revision == t.lastSnapshot == t.img.revision == reconciled.img.revision + 1)
      && (reconciled.mode == RedisPrimary && reconciled.revision - reconciled.lastSnapshot < 256 ==> t == reconciled)
      && reconciled.mode == RedisPrimary
  {
    ReconcileMode(tools, Looked(tools, w));
    DueStores(tools, Reconcile(tools, Looked(tools, w)).0);
  }

  lemma DueStores<S>(tools: Tools<S>, w: World<S>)
    requires w.mode == RedisPrimary && CheckpointIfDue(tools, w).1.Pass?
    ensures var t := CheckpointIfDue(tools, w).0;
      if w.revision - w.lastSnapshot < 256 then t == w
      else
        && t.img.snapshot == Some(ActiveStore(w)) && ActiveStore(t) == ActiveStore(w)
        && t.revision == t.lastSnapshot == t.img.revision == w.img.revision + 1
  {
    CheckpointIs(tools, w);
    CheckpointStandby(tools, w);
  }

  lemma CheckpointStandby<S>(tools: Tools<S>, w: World<S>)
    ensures Checkpoint(tools, w).0.store == w.store
  {
    WholeCallIs(tools, w, w.revision, ActiveStore(w), Everything(tools, ActiveStore(w)));
  }

  lemma ReconcileMode<S>(tools: Tools<S>, w: World<S>)
    ensures Reconcile(tools, w).0.mode == w.mode
  {
    var replayed := ReplayCommittedIntoActive(tools, w).0;
    MirrorOnly(tools, replayed);
    var mirrored := Mirror(tools, replayed).0;
    var start := Scan(mirrored, [], {}, []);
    ScanKeepsActive(tools, start, Batch(mirrored.pending, false));
    PublishScanMode(tools, ScanAll(tools, start, Batch(mirrored.pending, false)).0);
  }

  lemma PublishScanMode<S>(tools: Tools<S>, sc: Scan<S>)
    ensures PublishScan(tools, sc).0.mode == sc.world.mode
  {
    PublishMode(tools, sc);
    var published := PublishApplied(tools, sc).0;
    CheckpointIs(tools, published.world);
    FinishStill(tools, CheckpointLocal(tools, published).0);
  }

  lemma PublishMode<S>(tools: Tools<S>, sc: Scan<S>)
    ensures PublishApplied(tools, sc).0.world.mode == sc.world.mode
  {
    var projections := ProjectAll(tools, ActiveStore(sc.world), EntryScopes(sc.applied));
    var ops := OperationsFor(sc.applied);
    PublishLocalShape(tools, sc.world, ops, projections);
    var (next, r) := PublishLocal(tools, sc.world, ops, projections);
    if r.Fail? && r.error.Conflicted? {
      ConflictsMode(next, sc.applied, "redis_priority_conflict", r.error.actual);
      AskTimesShape(RecordConflicts(next, sc.applied, "redis_priority_conflict", r.error.actual).0, 3);
    }
  }

  lemma {:induction false} ConflictsMode<S>(w: World<S>, entries: seq<Entry>, reason: string, revision: nat)
    ensures RecordConflicts(w, entries, reason, revision).0.mode == w.mode
    decreases |entries|
  {
    if entries != [] {
      AskShape(w);
      ConflictsMode(RecordConflict(w, entries[0], reason, revision).0, entries[1..], reason, revision);
    }
  }

  // ---------- Whose image is stored ----------

  /** The connection can still take effect. */
  predicate Live<S>(w: World<S>) {
    w.link.Some? && w.link.value != DEAD
  }

  /** A step that leaves the stored snapshot alone, or stores the image that is served; as long as the connection lives
      the coordinator knows when it did. */
  ghost predicate Anchors<S>(w: World<S>, t: World<S>) {
    || (t.img.snapshot == w.img.snapshot && t.lastSnapshot == w.lastSnapshot)
    || (t.img.snapshot == Some(ActiveStore(t)) && (Live(t) ==> t.lastSnapshot == t.revision))
  }

  lemma CheckpointAnchors<S>(tools: Tools<S>, w: World<S>)
    requires w.link.Some?
    ensures var (t, r) := Checkpoint(tools, w);
      Anchors(w, t) && t.active == w.active && t.store == w.store
  {
    WholeIs(w.img, ActiveStore(w), Everything(tools, ActiveStore(w)));
    AskShape(w);
  }

  /** Publishing and settling what a scan applied. */
  lemma PublishScanAnchors<S>(tools: Tools<S>, sc: Scan<S>)
    requires sc.world.active.Some? && sc.world.link.Some?
             && (Live(sc.world) ==> sc.world.revision == sc.world.img.revision)
    ensures Anchors(sc.world, PublishScan(tools, sc).0)
  {
    PublishAppliedStill(tools, sc);
    var (published, r) := PublishApplied(tools, sc);
    PublishedSnapshot(tools, sc);
    if r.Pass? {
      CheckpointAnchors(tools, published.world);
      FinishStill(tools, CheckpointLocal(tools, published).0);
    }
  }

  lemma PublishedSnapshot<S>(tools: Tools<S>, sc: Scan<S>)
    requires sc.world.link.Some? && (Live(sc.world) ==> sc.world.revision == sc.world.img.revision)
    ensures var t := PublishApplied(tools, sc).0.world;
      t.img.snapshot == sc.world.img.snapshot && t.lastSnapshot == sc.world.lastSnapshot
  {
    var projections := ProjectAll(tools, ActiveStore(sc.world), EntryScopes(sc.applied));
    var ops := OperationsFor(sc.applied);
    var total := PublishLocalIs(tools, sc.world, ops, projections);
    var deltas := NativeDeltas(sc.world.cache, projections);
    SendStill(sc.world, DistinctScopes(projections) && tools.fits(deltas, ops),
              Remote.PublishedDeltas(sc.world.img, deltas, ops), ApplyCache(sc.world.cache, projections));
  }

  lemma ReconcileAnchors<S>(tools: Tools<S>, w: World<S>)
    requires Calm(w) && !Reruns(tools, w)
    ensures Anchors(w, Reconcile(tools, w).0)
  {
    NothingReplayed(tools, w);
    MirrorOnly(tools, w);
    MirrorStill(tools, w);
    var mirrored := Mirror(tools, w).0;
    var start := Scan(mirrored, [], {}, []);
    BatchIn(mirrored.pending, false);
    ScanAllStill(tools, start, Batch(mirrored.pending, false));
    PublishScanAnchors(tools, ScanAll(tools, start, Batch(mirrored.pending, false)).0);
  }

  lemma RoundAnchors<S>(tools: Tools<S>, w: World<S>)
    requires Calm(w) && !Reruns(tools, w)
    ensures Anchors(w, ReconcileRound(tools, w).0)
  {
    ReconcileAnchors(tools, w);
    ReconcileStill(tools, w);
    CheckpointAnchors(tools, Reconcile(tools, w).0);
  }

  /** A connected round outside the replay branch. */
  lemma TickAnchors<S>(tools: Tools<S>, w: World<S>, offered: Option<Link>, used: set<string>)
    requires Good(tools, w, used) && w.link.Some? && !DoubleApplies(tools, w)
    ensures Anchors(w, Tick(tools, w, offered).0)
  {
    TickIsRound(tools, w, offered);
    SeenIsGood(tools, w, used);
    AskShape(w);
    if Ask(w).1 {
      RoundAnchors(tools, Seen(w));
    }
  }

  /** Adopting a namespace in fallback stores nothing, or the local image. */
  lemma AdoptStores<S>(tools: Tools<S>, w: World<S>)
    requires Recovering(w) && w.img.snapshot.Some?
    ensures var t := Adopt(tools, w).0;
      (t.img.snapshot == w.img.snapshot || t.img.snapshot == Some(w.store)) && t.store == w.store
  {
    AskTimesShape(w, 3);
    AdoptSnapshotStores(tools, AskTimes(w, 3).0, w.store);
  }

  lemma AdoptSnapshotStores<S>(tools: Tools<S>, w: World<S>, image: S)
    ensures var t := AdoptSnapshot(tools, w, image).0;
      (t.img.snapshot == w.img.snapshot || t.img.snapshot == Some(image)) && t.store == image
  {
    AskShape(w.(store := image));
    var checked := Ask(w.(store := image)).0;
    WholeIs(w.img, image, Everything(tools, image));
    WholeCallIs(tools, checked, w.img.revision, image, Everything(tools, image));
    AskTimesShape(checked.(revision := w.img.revision), |AllScopes(tools, image)|);
  }

  lemma AttachStores<S(!new)>(tools: Tools<S>, w: World<S>, link: Link, used: set<string>)
    requires Lawful(tools) && Good(tools, w, used) && w.mode == SqliteFallback
    ensures var t := Attach(tools, w, link).0;
      t.img.snapshot == w.img.snapshot || t.img.snapshot == Some(ActiveStore(t))
  {
    var w0 := w.(link := Some(link));
    AttachKeeps(tools, w, link, used);
    AdoptKeeps(tools, w, link, used);
    AdoptStores(tools, w0);
    var (adopted, r) := Adopt(tools, w0);
    if r.Pass? {
      var attached := Attached(w, adopted);
      AttachedIsGood(tools, w, adopted, used);
      ReconcileKeeps(tools, attached, used);
      ReconcileAnchors(tools, attached);
    }
  }

  /** The step stores nothing. */
  ghost predicate StoresNothing<S>(w: World<S>, t: World<S>) {
    t.img.snapshot == w.img.snapshot && t.lastSnapshot == w.lastSnapshot
  }

  lemma ExecuteStores<S>(tools: Tools<S>, w: World<S>, op: Operation)
    ensures StoresNothing(w, Execute(tools, w, op).0)
  {
    if tools.mutating(op.name) {
      MutateStores(tools, Prepare(w), tools.key(op), op);
    }
  }

  lemma MutateStores<S>(tools: Tools<S>, w: World<S>, key: string, op: Operation)
    ensures StoresNothing(w, Mutate(tools, w, key, op).0)
  {
    var (queued, r) := Queue(tools, w, Entry(key, op, false));
    assert StoresNothing(w, queued);
    if r.Pass? {
      match tools.apply(ActiveStore(w), op)
      case Some(s) =>
        assert StoresNothing(w, WithActiveStore(queued, s));
        CommitStores(tools, WithActiveStore(queued, s), key, op, s);
      case None => TakeBackOnly(tools, queued, key);
    }
  }

  lemma CommitStores<S>(tools: Tools<S>, w: World<S>, key: string, op: Operation, s: S)
    ensures StoresNothing(w, Commit(tools, w, key, op, s).0)
  {
    var ops, projections := [OperationFor(key, op)], ProjectAll(tools, s, OperationScopes(op));
    var total := PublishLocalIs(tools, w, ops, projections);
    var (next, r) := PublishLocal(tools, w, ops, projections);
    ConcludeStores(tools, next, key, r);
  }

  lemma ConcludeStores<S>(tools: Tools<S>, w: World<S>, key: string, r: Outcome<Problem>)
    ensures StoresNothing(w, Conclude(tools, w, key, r).0)
  {
    MarkShape(tools, w, key);
    MirrorOnly(tools, Mark(tools, w, key).0);
  }

  // ---------- Whole runs ----------

  lemma MoveStores<S(!new)>(tools: Tools<S>, w: World<S>, move: Move, used: set<string>)
    requires Lawful(tools) && Safe(tools, w, used) && (move.Round? ==> !DoubleApplies(tools, w))
    ensures var t := Next(tools, w, move);
      && (t.img.snapshot == w.img.snapshot || t.img.snapshot == Some(ActiveStore(t)))
      && ((move.Round? ==> w.link.Some?) ==> Anchors(w, t))
  {
    match move
    case Call(op) => ExecuteStores(tools, w, op);
    case Round(offered) =>
      if Frozen(tools, w, used) {
        FrozenTick(tools, w, offered, used);
      } else if w.link.Some? {
        TickAnchors(tools, w, offered, used);
      } else if offered.Some? {
        AttachStores(tools, w, offered.value, used);
      }
    case Expire(_) =>
  }

  /** The stored snapshot is the image served after the first `k` moves. */
  ghost predicate StoredAt<S>(tools: Tools<S>, w: World<S>, moves: seq<Move>, t: World<S>, k: nat) {
    k <= |moves| && t.img.snapshot == Some(Fold(tools, ActiveStore(w), Executed(tools, w, moves[..k])))
  }

  /** Over every run, whatever is lost and regained: the stored snapshot is the fold of the first operations that
      executed, so never anything that was not served. */
  lemma {:induction false} SnapshotWasServed<S(!new)>(tools: Tools<S>, w: World<S>, moves: seq<Move>) returns (k: nat)
    requires Lawful(tools) && ShortestCompleted(tools) && Start(tools, w) && w.img.snapshot == Some(ActiveStore(w))
    requires DistinctCalls(tools, moves, w.img.ledger.Keys) && NeverDoubleApplies(tools, w, moves)
    ensures StoredAt(tools, w, moves, Ran(tools, w, moves), k)
  {
    k := 0;
    if moves != [] {
      var n := |moves| - 1;
      var used := w.img.ledger.Keys;
      PrefixRuns(tools, w, moves, n, used);
      k := SnapshotWasServed(tools, w, moves[..n]);
      assert moves[..n][..k] == moves[..k];
      LastMoveStores(tools, w, moves, n);
      if Ran(tools, w, moves).img.snapshot != Ran(tools, w, moves[..n]).img.snapshot {
        k := |moves|;
      }
    }
  }

  lemma LastMoveStores<S(!new)>(tools: Tools<S>, w: World<S>, moves: seq<Move>, n: nat)
    requires Lawful(tools) && ShortestCompleted(tools) && Start(tools, w) && n == |moves| - 1
    requires DistinctCalls(tools, moves, w.img.ledger.Keys) && NeverDoubleApplies(tools, w, moves)
    ensures var s, t := Ran(tools, w, moves[..n]), Ran(tools, w, moves);
      && (t.img.snapshot == s.img.snapshot || StoredAt(tools, w, moves, t, |moves|))
      && ((moves[n].Round? ==> s.link.Some?) ==> Anchors(s, t))
      && (t.img.snapshot == Some(ActiveStore(t)) ==> StoredAt(tools, w, moves, t, |moves|))
  {
    var used := w.img.ledger.Keys;
    PrefixRuns(tools, w, moves, n, used);
    FailoverSafety(tools, w, moves[..n]);
    MoveStores(tools, Ran(tools, w, moves[..n]), moves[n], used + RunKeys(tools, moves[..n]));
    FailoverSafety(tools, w, moves);
    assert moves[..|moves|] == moves;
  }

  ghost predicate AlwaysLive<S>(tools: Tools<S>, w: World<S>, moves: seq<Move>) {
    forall k :: 0 <= k <= |moves| ==> Live(Ran(tools, w, moves[..k]))
  }

  /** The stored snapshot is the image served after the first `k` moves, when the revision was `lastSnapshot`. */
  ghost predicate AnchoredAt<S>(tools: Tools<S>, w: World<S>, moves: seq<Move>, t: World<S>, k: nat) {
    StoredAt(tools, w, moves, t, k) && Ran(tools, w, moves[..k]).revision == t.lastSnapshot
  }

  /** While the connection lives, it is the image that was served at revision `lastSnapshot`. */
  lemma {:induction false} SnapshotIsAnchored<S(!new)>(tools: Tools<S>, w: World<S>, moves: seq<Move>) returns (k: nat)
    requires Lawful(tools) && ShortestCompleted(tools) && Start(tools, w) && w.img.snapshot == Some(ActiveStore(w))
    requires DistinctCalls(tools, moves, w.img.ledger.Keys) && NeverDoubleApplies(tools, w, moves)
    requires w.lastSnapshot == w.revision && AlwaysLive(tools, w, moves)
    ensures AnchoredAt(tools, w, moves, Ran(tools, w, moves), k)
  {
    k := 0;
    if moves != [] {
      var n := |moves| - 1;
      PrefixRuns(tools, w, moves, n, w.img.ledger.Keys);
      LivePrefix(tools, w, moves, n);
      k := SnapshotIsAnchored(tools, w, moves[..n]);
      k := AnchoredStep(tools, w, moves, n, k);
    }
  }

  lemma AnchoredStep<S(!new)>(tools: Tools<S>, w: World<S>, moves: seq<Move>, n: nat, before: nat) returns (k: nat)
    requires Lawful(tools) && ShortestCompleted(tools) && Start(tools, w) && n == |moves| - 1
    requires DistinctCalls(tools, moves, w.img.ledger.Keys) && NeverDoubleApplies(tools, w, moves)
    requires Live(Ran(tools, w, moves[..n])) && Live(Ran(tools, w, moves))
    requires AnchoredAt(tools, w, moves[..n], Ran(tools, w, moves[..n]), before)
    ensures AnchoredAt(tools, w, moves, Ran(tools, w, moves), k)
  {
    k := before;
    assert moves[..n][..k] == moves[..k];
    LastMoveStores(tools, w, moves, n);
    var s, t := Ran(tools, w, moves[..n]), Ran(tools, w, moves);
    if t.img.snapshot != s.img.snapshot || t.lastSnapshot != s.lastSnapshot {
      k := |moves|;
      assert moves[..k] == moves;
    }
  }

  lemma LivePrefix<S>(tools: Tools<S>, w: World<S>, moves: seq<Move>, n: nat)
    requires n < |moves| && AlwaysLive(tools, w, moves)
    ensures AlwaysLive(tools, w, moves[..n]) && Live(Ran(tools, w, moves[..n])) && Live(Ran(tools, w, moves))
  {
    assert moves[..|moves|] == moves;
    forall k | 0 <= k <= n
      ensures Live(Ran(tools, w, moves[..n][..k]))
    {
      assert moves[..n][..k] == moves[..k];
    }
  }

  // ---------- Attaching ----------

  /** What a successful adoption reads when there is a snapshot of the current schema. */
  lemma AdoptReads<S>(tools: Tools<S>, w: World<S>)
    requires w.img.snapshot.Some? && w.img.schema >= NATIVE_SCHEMA_VERSION && Adopt(tools, w).1.Pass?
    ensures var t := Adopt(tools, w).0;
      var image := if Recovering(w) then w.store else w.img.snapshot.value;
      && t.img == w.img && t.revision == w.img.revision && t.active == Some(image) && t.store == image
      && t.pending == w.pending && t.audit == w.audit && t.link.Some?
      && t.cache == (if Recovering(w) then StoredProjections(w.img, AllScopes(tools, image))
                     else Everything(tools, image))
  {
    AskTimesShape(w, 3);
    var read := AskTimes(w, 3).0;
    var image := if Recovering(w) then w.store else w.img.snapshot.value;
    AdoptSnapshotReads(tools, read, image);
  }

  lemma AdoptSnapshotReads<S>(tools: Tools<S>, w: World<S>, image: S)
    requires w.img.schema >= NATIVE_SCHEMA_VERSION && AdoptSnapshot(tools, w, image).1.Pass?
    ensures var t := AdoptSnapshot(tools, w, image).0;
      && t.img == w.img && t.revision == w.img.revision && t.active == Some(image) && t.store == image
      && t.pending == w.pending && t.audit == w.audit && t.link.Some?
      && t.cache == (if Recovering(w) then StoredProjections(w.img, AllScopes(tools, image))
                     else Everything(tools, image))
  {
    AskShape(w.(store := image));
    var checked := Ask(w.(store := image)).0;
    AskTimesShape(checked.(revision := w.img.revision), |AllScopes(tools, image)|);
  }

  /** The namespace is silent about some entry of the batch. */
  predicate HasUndecided<S>(img: Image<S>, entries: seq<Entry>) {
    exists e :: e in entries && e.key !in img.ledger && e.key !in img.markers
  }

  /** Reconnecting with operations from the fallback: the coordinator always believes that the stored snapshot is
      current, and it is exactly when some entry of the batch is neither in the ledger nor marked; otherwise it stays as
      it was. */
  lemma ReattachStores<S(!new)>(tools: Tools<S>, w: World<S>, link: Link, used: set<string>)
    requires Lawful(tools) && Good(tools, w, used) && w.mode == SqliteFallback
    requires w.img.schema >= NATIVE_SCHEMA_VERSION && Attach(tools, w, link).1.Pass?
    ensures var t := Attach(tools, w, link).0;
      && t.lastSnapshot == t.revision == t.img.revision && ActiveStore(t) == ActiveStore(w)
      && t.img.snapshot ==
         if HasUndecided(w.img, Batch(w.pending, false)) then Some(ActiveStore(t)) else w.img.snapshot
  {
    var w0 := w.(link := Some(link));
    AttachKeeps(tools, w, link, used);
    AdoptKeeps(tools, w, link, used);
    AdoptReads(tools, w0);
    var attached := Attached(w, Adopt(tools, w0).0);
    AttachedIsGood(tools, w, Adopt(tools, w0).0, used);
    var all := Batch(w.pending, false);
    ReconcileDecides(tools, attached);
    SelectIn(w.img, all, Undecided);
    if HasUndecided(w.img, all) {
      var e :| e in all && e.key !in w.img.ledger && e.key !in w.img.markers;
      assert e in Select(w.img, all, Undecided);
    } else if Taken(tools, attached, all) != [] {
      assert Taken(tools, attached, all)[0] in Select(w.img, all, Undecided);
    }
  }

  lemma {:induction false} FoldFront<S>(tools: Tools<S>, s: S, ops: seq<Operation>)
    requires ops != []
    ensures Fold(tools, s, ops) == Fold(tools, ApplyOne(tools, s, ops[0]), ops[1..])
  {
    var n := |ops| - 1;
    if n > 0 {
      FoldFront(tools, s, ops[..n]);
      assert ops[..n][1..] == ops[1..][..n - 1] && ops[1..][n - 1] == ops[n];
    } else {
      assert ops[..0] == [] == ops[1..];
    }
  }

  lemma {:induction false} ReplayFolds<S>(tools: Tools<S>, s: S, entries: seq<Entry>)
    requires ReplayInto(tools, s, entries).1
    ensures ReplayInto(tools, s, entries).0 == Fold(tools, s, OperationsOf(entries))
    decreases |entries|
  {
    if entries != [] {
      var t := tools.apply(s, entries[0].operation).value;
      ReplayFolds(tools, t, entries[1..]);
      FoldFront(tools, s, OperationsOf(entries));
      assert OperationsOf(entries)[1..] == OperationsOf(entries[1..]);
    }
  }

  /** Attaching with nothing from the fallback: the stored snapshot is what is served, after the committed entries of
      one batch have been run on it when there are any, and the cache is read off the snapshot. */
  lemma AttachServesSnapshot<S(!new)>(tools: Tools<S>, w: World<S>, link: Link)
    requires DistinctKeys(w.pending) && !AnyWith(w.pending, false)
    requires Lawful(tools) && w.img.snapshot.Some? && w.img.schema >= NATIVE_SCHEMA_VERSION
    requires Attach(tools, w, link).1.Pass?
    ensures var t := Attach(tools, w, link).0;
      && (forall scope :: Lookup(t.cache, scope) == Project(tools, w.img.snapshot.value, scope).records)
      && t.mode == RedisPrimary && t.img.snapshot == w.img.snapshot && t.revision == t.img.revision == w.img.revision
      && ActiveStore(t) == Fold(tools, w.img.snapshot.value, OperationsOf(Batch(w.pending, true)))
  {
    var w0 := w.(link := Some(link));
    AdoptReads(tools, w0);
    var attached := Attached(w, Adopt(tools, w0).0);
    BatchIn(w.pending, false);
    BatchIn(w.pending, true);
    ReconcileMode(tools, attached);
    ReconcileDecides(tools, attached);
    ServedAfterReplay(tools, attached);
    NoneTaken(tools, Begun(tools, attached));
    forall scope
      ensures Lookup(attached.cache, scope) == Project(tools, w.img.snapshot.value, scope).records
    {
      AllScopesCover(tools, w.img.snapshot.value, scope);
    }
  }

  lemma NoneTaken<S>(tools: Tools<S>, w: World<S>)
    ensures Taken(tools, w, []) == [] && StateAfter(tools, w, []) == ActiveStore(w) && !Overtaken(tools, w, [])
  {
  }

  lemma ServedAfterReplay<S>(tools: Tools<S>, w: World<S>)
    requires w.active.Some? && Reconcile(tools, w).1.Pass? && (w.replayCommitted <==> AnyWith(w.pending, true))
    ensures ActiveStore(Begun(tools, w)) == Fold(tools, ActiveStore(w), OperationsOf(Batch(w.pending, true)))
  {
    BatchIn(w.pending, true);
    if w.replayCommitted {
      ReplayFolds(tools, ActiveStore(w), Batch(w.pending, true));
    } else {
      assert OperationsOf(Batch(w.pending, true)) == [];
    }
  }

  /** A write that takes effect although its acknowledgement is lost. */
  lemma LostCall<S>(tools: Tools<S>, w: World<S>, op: Operation, s: S)
    requires Start(tools, w) && w.link == Some(Link(0, true)) && Publishable(tools, op)
    requires tools.apply(ActiveStore(w), op) == Some(s)
    requires tools.size(Event.Pending(Entry(tools.key(op), op, false))) + 1 <= MAX_OUTBOX_BYTES
    ensures var t := Execute(tools, w, op).0;
      && t.mode == SqliteFallback && t.store == s && t.pending == [Entry(tools.key(op), op, false)]
      && IsCommitted(t.img, tools.key(op)) && t.img.snapshot == w.img.snapshot
      && t.img.revision == w.img.revision + 1 && t.img.schema == NATIVE_SCHEMA_VERSION
      && ActiveStore(t) == s && t.link.None?
  {
    var key := tools.key(op);
    var queued := Queue(tools, w, Entry(key, op, false)).0;
    var done := WithActiveStore(queued, s);
    var ops, projections := [OperationFor(key, op)], ProjectAll(tools, s, OperationScopes(op));
    TwoScopes(tools, s, op);
    var deltas := NativeDeltas(done.cache, projections);
    Remote.PatchAllShape(done.img, deltas);
    var after := Remote.PublishedDeltas(done.img, deltas, ops);
    LedgerAfterKeys(done.img.ledger, ops, done.img.revision + 1, Publish.Total(Remote.Counts(deltas)));
    assert ops[0].key in OperationKeys(ops);
    assert Send(done, true, after, ApplyCache(done.cache, projections)) ==
           (done.(link := Some(DEAD), img := after), Fail(Unavailable));
  }

  /** So a run in which the coordinator serves a write that the stored snapshot lacks, and believes the snapshot to be
      current: one write whose acknowledgement is lost, and a reconnect. */
  lemma LostWriteLeavesStale<S(!new)>(tools: Tools<S>, w: World<S>, op: Operation, s: S, link: Link)
    requires Lawful(tools) && ShortestCompleted(tools) && Start(tools, w) && w.img.snapshot == Some(ActiveStore(w))
    requires w.link == Some(Link(0, true)) && Publishable(tools, op) && tools.apply(ActiveStore(w), op) == Some(s)
    requires tools.size(Event.Pending(Entry(tools.key(op), op, false))) + 1 <= MAX_OUTBOX_BYTES
    requires tools.key(op) !in w.img.ledger
    requires Tick(tools, Execute(tools, w, op).0, Some(link)).1.Pass?
    ensures var t := Ran(tools, w, [Call(op), Round(Some(link))]);
      && ActiveStore(t) == s && t.img.snapshot == Some(ActiveStore(w)) && t.lastSnapshot == t.revision
  {
    LostCall(tools, w, op, s);
    LostCallKeeps(tools, w, op, s);
    StaleTick(tools, Execute(tools, w, op).0, Entry(tools.key(op), op, false), link,
              w.img.ledger.Keys + {tools.key(op)});
    RanLast(tools, w, [], Call(op));
    RanLast(tools, w, [Call(op)], Round(Some(link)));
    assert [] + [Call(op)] == [Call(op)] && [Call(op)] + [Round(Some(link))] == [Call(op), Round(Some(link))];
  }

  lemma LostCallKeeps<S(!new)>(tools: Tools<S>, w: World<S>, op: Operation, s: S)
    requires Lawful(tools) && Start(tools, w) && Publishable(tools, op) && tools.apply(ActiveStore(w), op) == Some(s)
    requires tools.key(op) !in w.img.ledger
    requires tools.size(Event.Pending(Entry(tools.key(op), op, false))) + 1 <= MAX_OUTBOX_BYTES
    ensures Good(tools, Execute(tools, w, op).0, w.img.ledger.Keys + {tools.key(op)})
  {
    StartIsGood(tools, w);
    ExecuteKeeps(tools, w, op, w.img.ledger.Keys);
  }

  lemma StaleTick<S(!new)>(tools: Tools<S>, w: World<S>, e: Entry, link: Link, used: set<string>)
    requires Lawful(tools) && Good(tools, w, used) && w.mode == SqliteFallback && w.link.None?
    requires w.pending == [e] && IsCommitted(w.img, e.key) && w.img.schema == NATIVE_SCHEMA_VERSION
    requires Tick(tools, w, Some(link)).1.Pass?
    ensures var t := Tick(tools, w, Some(link)).0;
      ActiveStore(t) == ActiveStore(w) && t.img.snapshot == w.img.snapshot && t.lastSnapshot == t.revision
  {
    ReattachStores(tools, w, link, used);
    BatchIn(w.pending, false);
  }
}
