/** The coordinator as the program has it: fields updated in place, an outbox file, a record cache, a connection. Each
    method is shown to be the step of `Replication` on the whole world, a full outbox or audit file included. */
module Coordinator {
  import opened Wrappers
  import opened Operations
  import opened OutboxLog
  import opened RedisServer
  import opened NativeRecords
  import opened Publish
  import Remote
  import opened Stores
  import opened R = Replication

  /** The content of the Redis namespace. */
  class Namespace<S> {
    var img: Image<S>

    constructor (img: Image<S>)
      ensures this.img == img
    {
      this.img := img;
    }
  }

  class CoordinatorInner<S> {
    const tools: Tools<S>
    const outbox: Outbox
    const server: Namespace<S>
    const native: NativeCache
    const background: bool
    var store: S
    var active: Option<S>
    var link: Option<Link>
    var mode: Mode
    var revision: nat
    var lastSnapshot: nat
    var lastRemote: Option<nat>
    var usesLocal: bool
    var replayCommitted: bool
    ghost var trace: seq<Observation>

    ghost predicate Valid()
      reads this, outbox
    {
      outbox.Valid() && outbox.size == tools.size && outbox.auditSize == tools.auditSize
    }

    /** The world as this coordinator leaves it. */
    ghost function View(): World<S>
      reads this, outbox, server, native
    {
      World(store, active, link, mode, revision, lastSnapshot, lastRemote, native.projections, background, usesLocal,
            replayCommitted, Replay(outbox.log), LogBytes(outbox.size, outbox.log), outbox.audit, trace, server.img)
    }

    constructor (tools: Tools<S>, outbox: Outbox, server: Namespace<S>, background: bool, store: S)
      requires outbox.Valid() && outbox.size == tools.size && outbox.auditSize == tools.auditSize
      ensures Valid() && this.tools == tools && this.outbox == outbox && this.server == server && fresh(native)
      ensures View() == World(store, None, None, SqliteFallback, 0, 0, None, [], background, false, false,
                              Replay(outbox.log), LogBytes(outbox.size, outbox.log), outbox.audit, [], server.img)
    {
      this.tools, this.outbox, this.server, this.background, this.store := tools, outbox, server, background, store;
      native := new NativeCache();
      active, link, mode := None, None, SqliteFallback;
      revision, lastSnapshot, lastRemote := 0, 0, None;
      usesLocal, replayCommitted, trace := false, false, [];
    }

    // ---------- Adapter calls ----------

    method AskRedis() returns (ok: bool)
      modifies this`link
      ensures (View(), ok) == Ask(old(View()))
    {
      match link
      case None => ok := false;
      case Some(l) =>
        ok := l.budget > 0;
        link := Some(if l.budget == 0 then DEAD else l.(budget := l.budget - 1));
    }

    method AskRedisTimes(n: nat) returns (ok: bool)
      modifies this`link
      ensures (View(), ok) == AskTimes(old(View()), n)
    {
      for i := 0 to n
        invariant AskTimes(old(View()), n) == AskTimes(View(), n - i)
      {
        ok := AskRedis();
        if !ok {
          return;
        }
      }
      ok := true;
    }

    method TellRedis(after: Image<S>) returns (ok: bool)
      modifies this`link, server
      ensures (View(), ok) == Tell(old(View()), after)
    {
      match link
      case None => ok := false;
      case Some(l) =>
        ok := l.budget > 0;
        if l.budget > 0 || l.effect {
          server.img := after;
        }
        link := Some(if l.budget == 0 then DEAD else l.(budget := l.budget - 1));
    }

    method RecordOperationConflict(entry: Entry, reason: string, actual: nat) returns (ok: bool)
      modifies this`link, server
      ensures (View(), ok) == RecordConflict(old(View()), entry, reason, actual)
    {
      if IsCommitted(server.img, entry.key) {
        ok := AskRedis();
      } else {
        var op := OperationFor(entry.key, entry.operation);
        ok := TellRedis(WithLedger(server.img, entry.key,
                                   LedgerRecord(op.name, op.scope, Conflict, actual, 0, Some(reason))));
      }
    }

    method PublishState(expected: nat, snapshot: S, projections: seq<Projection>) returns (r: Outcome<Problem>)
      modifies this`link, server
      ensures (View(), r) == PublishWhole(tools, old(View()), expected, snapshot, projections)
    {
      if !(DistinctScopes(projections) && tools.fitsWhole(projections)) {
        return Fail(Problem.Rejected);
      }
      if server.img.revision != expected {
        var ok := AskRedis();
        return Fail(if ok then Conflicted(server.img.revision) else Unavailable);
      }
      var ok := TellRedis(Remote.PublishedWhole(server.img, snapshot, projections));
      return if ok then Pass else Fail(Unavailable);
    }

    method PublishLocalDeltas(ops: seq<RedisOperation>, projections: seq<Projection>) returns (r: Outcome<Problem>)
      modifies this`link, this`revision, this`lastRemote, native, server
      ensures (View(), r) == PublishLocal(tools, old(View()), ops, projections)
    {
      var deltas := NativeDeltas(native.projections, projections);
      if !(DistinctScopes(projections) && tools.fits(deltas, ops)) {
        return Fail(Problem.Rejected);
      }
      if server.img.revision != revision {
        var ok := AskRedis();
        return Fail(if ok then Conflicted(server.img.revision) else Unavailable);
      }
      var ok := TellRedis(Remote.PublishedDeltas(server.img, deltas, ops));
      if !ok {
        return Fail(Unavailable);
      }
      RememberPublish(projections);
      return Pass;
    }

    method RememberPublish(projections: seq<Projection>)
      modifies this`revision, this`lastRemote, native
      ensures View() ==
              old(View()).(revision := server.img.revision, cache := ApplyCache(old(native.projections), projections),
                                     lastRemote := Some(server.img.revision))
    {
      revision := server.img.revision;
      native.Update(projections);
      lastRemote := Some(revision);
    }

    // ---------- Mirroring and replaying ----------

    function Serving(): S
      reads this
    {
      match active
      case Some(s) => s
      case None => store
    }

    method Serve(s: S)
      modifies this`store, this`active
      ensures View() == WithActiveStore(old(View()), s)
    {
      if active.Some? {
        active := Some(s);
      } else {
        store := s;
      }
    }

    method CompleteEntry(key: string) returns (r: Outcome<Problem>)
      requires Valid()
      modifies this`trace, outbox`log
      ensures Valid() && (View(), r) == Complete(tools, old(View()), key)
    {
      var done := outbox.Complete(key);
      if done.Fail? {
        return Fail(OutboxFailed);
      }
      trace := trace + [Dropped(key)];
      return Pass;
    }

    method CompactOutbox()
      requires Valid()
      modifies outbox`log
      ensures Valid() && View() == Compacted(tools, old(View()))
    {
      var remaining := outbox.PendingEntries();
      outbox.Compact(remaining);
    }

    method MirrorBatch(batch: seq<Entry>) returns (ok: bool)
      modifies this`store, this`trace
      ensures (View(), ok) == MirrorReplay(tools, old(View()), batch)
    {
      for i := 0 to |batch|
        invariant MirrorReplay(tools, old(View()), batch) == MirrorReplay(tools, View(), batch[i..])
      {
        var e := batch[i];
        match tools.apply(store, e.operation) {
          case Some(s) =>
            store := s;
            trace := trace + [Replayed(e.key)];
          case None =>
            if !AlreadyContains(tools, store, e.operation) {
              return false;
            }
            trace := trace + [Contained(e.key)];
        }
      }
      return true;
    }

    method CompleteBatch(batch: seq<Entry>) returns (r: Outcome<Problem>)
      requires Valid()
      modifies this`trace, outbox`log
      ensures Valid() && (View(), r) == CompleteAll(tools, old(View()), batch)
    {
      for i := 0 to |batch|
        invariant Valid()
        invariant CompleteAll(tools, old(View()), batch) == CompleteAll(tools, View(), batch[i..])
      {
        :- CompleteEntry(batch[i].key);
      }
      return Pass;
    }

    /** At most one batch of committed entries is run on the standby; only when all of it succeeded is it completed. */
    method MirrorCommittedOutbox() returns (r: Outcome<Problem>)
      requires Valid()
      modifies this`store, this`trace, outbox`log
      ensures Valid() && (View(), r) == Mirror(tools, old(View()))
    {
      var entries := outbox.PendingEntries();
      var batch := Batch(entries, true);
      var ok := MirrorBatch(batch);
      if !ok {
        return Fail(MirrorFailed);
      }
      :- CompleteBatch(batch);
      CompactOutbox();
      return Pass;
    }

    method ReplayCommitted() returns (r: Outcome<Problem>)
      requires Valid()
      modifies this`store, this`active
      ensures Valid() && (View(), r) == ReplayCommittedIntoActive(tools, old(View()))
    {
      if !replayCommitted {
        return Pass;
      }
      ghost var before := View();
      var entries := outbox.PendingEntries();
      var batch := Batch(entries, true);
      for i := 0 to |batch|
        invariant Valid() && View() == WithActiveStore(before, Serving())
        invariant ReplayInto(tools, ActiveStore(before), batch) == ReplayInto(tools, Serving(), batch[i..])
      {
        match tools.apply(Serving(), batch[i].operation) {
          case Some(s) => Serve(s);
          case None => return Fail(ReplayFailed);
        }
      }
      return Pass;
    }

    // ---------- Snapshots ----------

    method SyncFromRedisCurrent() returns (r: Outcome<Problem>)
      modifies this, native
      ensures (View(), r) == SyncFromRedis(tools, old(View()))
    {
      var ok := AskRedisTimes(3);
      if !ok {
        return Fail(Unavailable);
      }
      match server.img.snapshot
      case None => return Fail(SnapshotMissing);
      case Some(snapshot) =>
        store := snapshot;
        active := Some(snapshot);
        RememberImage(Everything(tools, snapshot));
        return Pass;
    }

    /** The namespace's revision is the one the local image stands for, and the cache holds its projections. */
    method RememberImage(projections: seq<Projection>)
      modifies this`revision, this`lastSnapshot, this`lastRemote, native
      ensures View() == old(View()).(revision := server.img.revision, lastSnapshot := server.img.revision,
                                     lastRemote := Some(server.img.revision), cache := projections)
    {
      native.projections := projections;
      revision := server.img.revision;
      lastSnapshot := revision;
      lastRemote := Some(revision);
    }

    method CheckpointSnapshot() returns (r: Outcome<Problem>)
      modifies this, native, server
      ensures (View(), r) == Checkpoint(tools, old(View()))
    {
      var snapshot := Serving();
      var projections := Everything(tools, snapshot);
      :- PublishState(revision, snapshot, projections);
      RememberImage(projections);
      return Pass;
    }

    method CheckpointSnapshotIfDue() returns (r: Outcome<Problem>)
      modifies this, native, server
      ensures (View(), r) == CheckpointIfDue(tools, old(View()))
    {
      if mode != RedisPrimary || revision - lastSnapshot < SNAPSHOT_CHECKPOINT_OPERATIONS {
        return Pass;
      }
      r := CheckpointSnapshot();
    }

    // ---------- Reconciliation ----------

    method AuditEntry(key: string, reason: string) returns (r: Outcome<Problem>)
      requires Valid()
      modifies this`trace, outbox`audit
      ensures Valid() && (View(), r) == R.Audit(tools, old(View()), key, reason)
    {
      var done := outbox.Audit(key, reason);
      if done.Fail? {
        return Fail(OutboxFailed);
      }
      trace := trace + [Audited(key, reason)];
      return Pass;
    }

    method MarkEntry(key: string) returns (r: Outcome<Problem>)
      requires Valid()
      modifies outbox`log
      ensures Valid() && (View(), r) == Mark(tools, old(View()), key)
    {
      var done := outbox.MarkRedisCommitted(key);
      return if done.Fail? then Fail(OutboxFailed) else Pass;
    }

    method AuditAndMarkEntry(key: string, reason: string) returns (r: Outcome<Problem>)
      requires Valid()
      modifies this`trace, outbox`log, outbox`audit
      ensures Valid() && (View(), r) == AuditAndMark(tools, old(View()), key, reason)
    {
      r := AuditEntry(key, reason);
      if r.Fail? {
        return;
      }
      r := MarkEntry(key);
    }

    /** The last resort of the scan: the entry is in the local image already, or it is run on the
        active store, or Redis wins. */
    method ReplayEntry(e: Entry, applied: seq<Entry>, local: set<string>, rejected: seq<AuditRecord>)
        returns (applied': seq<Entry>, local': set<string>, rejected': seq<AuditRecord>, r: Outcome<Problem>)
      modifies this`store, this`active, this`link, server
      ensures (Scan(View(), applied', local', rejected'), r) ==
              ScanReplay(tools, Scan(old(View()), applied, local, rejected), e)
    {
      applied', local', rejected', r := applied, local, rejected, Pass;
      if usesLocal {
        applied', local' := applied + [e], local + {e.key};
      } else {
        match tools.apply(Serving(), e.operation)
        case Some(s) =>
          Serve(s);
          applied' := applied + [e];
        case None =>
          var ok := RecordOperationConflict(e, "redis_priority_replay_rejected", revision);
          if ok {
            rejected' := rejected + [AuditRecord(e.key, "redis_priority_replay_rejected")];
          } else {
            r := Fail(Unavailable);
          }
      }
    }

    method ScanEntry(e: Entry, applied: seq<Entry>, local: set<string>, rejected: seq<AuditRecord>)
        returns (applied': seq<Entry>, local': set<string>, rejected': seq<AuditRecord>, r: Outcome<Problem>)
      requires Valid()
      modifies this, server, outbox`log, outbox`audit
      ensures Valid()
      ensures (Scan(View(), applied', local', rejected'), r) ==
              ScanOne(tools, Scan(old(View()), applied, local, rejected), e)
    {
      applied', local', rejected', r := applied, local, rejected, Pass;
      var ok := AskRedis();
      if !ok {
        return applied, local, rejected, Fail(Unavailable);
      }
      if IsCommitted(server.img, e.key) {
        r := AuditAndMarkEntry(e.key, "already_committed_in_redis_ledger");
        return;
      }
      if IsConflict(server.img, e.key) {
        return applied, local, rejected + [AuditRecord(e.key, "redis_ledger_conflict")], Pass;
      }
      ok := AskRedis();
      if !ok {
        return applied, local, rejected, Fail(Unavailable);
      }
      if e.key in server.img.markers {
        r := AuditAndMarkEntry(e.key, "already_committed_in_redis");
        return;
      }
      applied', local', rejected', r := ReplayEntry(e, applied, local, rejected);
    }

    method ScanPending() returns (applied: seq<Entry>, local: set<string>, rejected: seq<AuditRecord>,
                                  r: Outcome<Problem>)
      requires Valid()
      modifies this, server, outbox`log, outbox`audit
      ensures Valid()
      ensures (Scan(View(), applied, local, rejected), r) ==
              ScanAll(tools, Scan(old(View()), [], {}, []), Batch(old(View()).pending, false))
    {
      applied, local, rejected := [], {}, [];
      var entries := outbox.PendingEntries();
      var batch := Batch(entries, false);
      ghost var start := Scan(View(), [], {}, []);
      for i := 0 to |batch|
        invariant Valid()
        invariant ScanAll(tools, start, batch) == ScanAll(tools, Scan(View(), applied, local, rejected), batch[i..])
      {
        assert batch[i..][0] == batch[i] && batch[i..][1..] == batch[i + 1..];
        applied, local, rejected, r := ScanEntry(batch[i], applied, local, rejected);
        if r.Fail? {
          return;
        }
      }
      r := Pass;
    }

    method GiveWayToRedis(applied: seq<Entry>, local: set<string>, rejected: seq<AuditRecord>, actual: nat)
        returns (applied': seq<Entry>, rejected': seq<AuditRecord>, r: Outcome<Problem>)
      modifies this, native, server
      ensures (Scan(View(), applied', local, rejected'), r) ==
              GiveWay(tools, Scan(old(View()), applied, local, rejected), actual)
    {
      ghost var start := View();
      for i := 0 to |applied|
        invariant RecordConflicts(start, applied, "redis_priority_conflict", actual) ==
                  RecordConflicts(View(), applied[i..], "redis_priority_conflict", actual)
      {
        var ok := RecordOperationConflict(applied[i], "redis_priority_conflict", actual);
        if !ok {
          return applied, rejected, Fail(Unavailable);
        }
      }
      r := SyncFromRedisCurrent();
      if r.Fail? {
        return applied, rejected, r;
      }
      return [], rejected + AsRejected(applied, "redis_priority_conflict"), Pass;
    }

    method PublishScanned(applied: seq<Entry>, local: set<string>, rejected: seq<AuditRecord>)
        returns (applied': seq<Entry>, rejected': seq<AuditRecord>, r: Outcome<Problem>)
      modifies this, native, server
      ensures (Scan(View(), applied', local, rejected'), r) ==
              PublishApplied(tools, Scan(old(View()), applied, local, rejected))
    {
      applied', rejected', r := applied, rejected, Pass;
      if applied == [] {
        return;
      }
      var projections := ProjectAll(tools, Serving(), EntryScopes(applied));
      r := PublishLocalDeltas(OperationsFor(applied), projections);
      match r
      case Pass => trace := trace + [PublishedLocal(KeysOf(applied) * local)];
      case Fail(Conflicted(actual)) =>
        applied', rejected', r := GiveWayToRedis(applied, local, rejected, actual);
      case _ =>
    }

    method SettleApplied(applied: seq<Entry>, local: set<string>) returns (r: Outcome<Problem>)
      requires Valid()
      modifies this`trace, outbox`log
      ensures Valid() && (View(), r) == Settle(tools, old(View()), applied, local)
    {
      ghost var start := View();
      for i := 0 to |applied|
        invariant Valid()
        invariant Settle(tools, start, applied, local) == Settle(tools, View(), applied[i..], local)
      {
        assert applied[i..][0] == applied[i] && applied[i..][1..] == applied[i + 1..];
        if applied[i].key in local {
          :- CompleteEntry(applied[i].key);
        } else {
          :- MarkEntry(applied[i].key);
        }
      }
      return Pass;
    }

    method RejectEntry(key: string, reason: string) returns (r: Outcome<Problem>)
      requires Valid()
      modifies this`trace, outbox`log, outbox`audit
      ensures Valid() && (View(), r) == Reject(tools, old(View()), AuditRecord(key, reason))
    {
      var done := outbox.Reject(key, reason);
      if done == Fail(AuditFull) {
        return Fail(OutboxFailed);
      }
      trace := trace + [Audited(key, reason)];
      if done.Fail? {
        return Fail(OutboxFailed);
      }
      trace := trace + [Dropped(key)];
      return Pass;
    }

    method RejectEntries(rejected: seq<AuditRecord>) returns (r: Outcome<Problem>)
      requires Valid()
      modifies this`trace, outbox`log, outbox`audit
      ensures Valid() && (View(), r) == RejectAll(tools, old(View()), rejected)
    {
      ghost var start := View();
      for i := 0 to |rejected|
        invariant Valid()
        invariant RejectAll(tools, start, rejected) == RejectAll(tools, View(), rejected[i..])
      {
        :- RejectEntry(rejected[i].key, rejected[i].reason);
      }
      return Pass;
    }

    method FinishReconcile(applied: seq<Entry>, local: set<string>,
                           rejected: seq<AuditRecord>) returns (r: Outcome<Problem>)
      requires Valid()
      modifies this, outbox`log, outbox`audit
      ensures Valid() && (View(), r) == Finish(tools, Scan(old(View()), applied, local, rejected))
    {
      r := SettleApplied(applied, local);
      if r.Fail? {
        return;
      }
      :- RejectEntries(rejected);
      CompactOutbox();
      :- MirrorCommittedOutbox();
      UpdateRecoveryFlags();
      return Pass;
    }

    method UpdateRecoveryFlags()
      modifies this`usesLocal, this`replayCommitted
      ensures var open := AnyWith(View().pending, false);
        View() == old(View()).(usesLocal := open, replayCommitted := !open && AnyWith(View().pending, true))
    {
      var remaining := outbox.PendingEntries();
      usesLocal := AnyWith(remaining, false);
      replayCommitted := !usesLocal && AnyWith(remaining, true);
    }

    method ReconcileUncommitted() returns (r: Outcome<Problem>)
      requires Valid()
      modifies this, native, server, outbox`log, outbox`audit
      ensures Valid() && (View(), r) == ReconcileBatch(tools, old(View()))
    {
      var applied, local, rejected, scanned := ScanPending();
      if scanned.Fail? {
        return scanned;
      }
      applied, rejected, r := PublishScanned(applied, local, rejected);
      if r.Fail? {
        return;
      }
      if local != {} {
        :- CheckpointSnapshot();
      }
      r := FinishReconcile(applied, local, rejected);
    }

    method ReconcileOutbox() returns (r: Outcome<Problem>)
      requires Valid()
      modifies this, native, server, outbox`log, outbox`audit
      ensures Valid() && (View(), r) == Reconcile(tools, old(View()))
    {
      r := ReplayCommitted();
      if r.Fail? {
        return;
      }
      :- MirrorCommittedOutbox();
      var pending := outbox.PendingEntries();
      if pending == [] {
        replayCommitted := false;
        usesLocal := false;
        return Pass;
      }
      r := ReconcileUncommitted();
    }

    // ---------- Losing and regaining Redis ----------

    method EnterSqliteFallback()
      modifies this`store, this`active, this`link, this`mode
      ensures View() == EnterFallback(old(View()))
    {
      match active {
        case Some(s) =>
          store := s;
          active := None;
        case None =>
      }
      link := None;
      mode := SqliteFallback;
    }

    /** The new connection reads, repairs or initialises the namespace; `image` is what the active store will hold. */
    method AdoptStoredSnapshot(image: S, recovering: bool) returns (r: Outcome<Problem>)
      requires recovering == Recovering(View())
      modifies this, native, server
      ensures (View(), r) == AdoptSnapshot(tools, old(View()), image)
    {
      store := image;
      var ok := AskRedis();
      if !ok {
        return Fail(Unavailable);
      }
      if server.img.schema < NATIVE_SCHEMA_VERSION {
        var projections := Everything(tools, image);
        :- PublishState(server.img.revision, image, projections);
        AdoptImage(image, projections);
      } else if recovering {
        var scopes := AllScopes(tools, image);
        revision := server.img.revision;
        ok := AskRedisTimes(|scopes|);
        if !ok {
          return Fail(Unavailable);
        }
        AdoptImage(image, StoredProjections(server.img, scopes));
      } else {
        AdoptImage(image, Everything(tools, image));
      }
      return Pass;
    }

    method AdoptImage(image: S, projections: seq<Projection>)
      modifies this`revision, this`active, native
      ensures View() == old(View()).(revision := server.img.revision, active := Some(image), cache := projections)
    {
      revision := server.img.revision;
      active := Some(image);
      native.projections := projections;
    }

    method AdoptNamespace(recovering: bool) returns (r: Outcome<Problem>)
      requires recovering == Recovering(View())
      modifies this, native, server
      ensures (View(), r) == Adopt(tools, old(View()))
    {
      var ok := AskRedisTimes(3);
      if !ok {
        return Fail(Unavailable);
      }
      match server.img.snapshot
      case Some(snapshot) =>
        r := AdoptStoredSnapshot(if recovering then store else snapshot, recovering);
      case None =>
        var projections := Everything(tools, store);
        :- PublishState(0, store, projections);
        AdoptImage(store, projections);
        return Pass;
    }

    method PlanReconciliation() returns (recovering: bool, replay: bool)
      ensures recovering == Recovering(View())
      ensures replay == (!Recovering(View()) && AnyWith(View().pending, true))
    {
      var entries := outbox.PendingEntries();
      recovering := mode == SqliteFallback && AnyWith(entries, false);
      replay := !recovering && AnyWith(entries, true);
    }

    method AttachRedis(connection: Link) returns (r: Outcome<Problem>)
      requires Valid()
      modifies this, native, server, outbox`log, outbox`audit
      ensures Valid() && (View(), r) == Attach(tools, old(View()), connection)
    {
      var served := active;
      var recovering, replay := PlanReconciliation();
      link := Some(connection);
      r := AdoptNamespace(recovering);
      if r.Fail? {
        link := None;
        active := served;
        return;
      }
      BecomePrimary(recovering, replay);
      r := ReconcileOutbox();
    }

    method BecomePrimary(recovering: bool, replay: bool)
      modifies this
      ensures View() == old(View()).(store := ActiveStore(old(View())), mode := RedisPrimary,
                                     lastSnapshot := old(revision),
                                     lastRemote := Some(old(revision)), usesLocal := recovering,
                                     replayCommitted := replay)
    {
      store := Serving();
      mode := RedisPrimary;
      lastSnapshot := revision;
      lastRemote := Some(revision);
      usesLocal := recovering;
      replayCommitted := replay;
    }

    method ObserveRevision() returns (r: Outcome<Problem>)
      modifies this, native
      ensures (View(), r) == Observe(tools, old(View()))
    {
      lastRemote := Some(server.img.revision);
      if server.img.revision != revision {
        r := SyncFromRedisCurrent();
      } else {
        r := Pass;
      }
    }

    method WatcherTick(offered: Option<Link>) returns (r: Outcome<Problem>)
      requires Valid()
      modifies this, native, server, outbox`log, outbox`audit
      ensures Valid() && (View(), r) == Tick(tools, old(View()), offered)
    {
      if link.None? {
        if offered.None? {
          return Fail(Unavailable);
        }
        r := AttachRedis(offered.value);
      } else if mode == RedisPrimary {
        var ok := AskRedis();
        if !ok {
          return Fail(Unavailable);
        }
        :- ObserveRevision();
        :- ReconcileOutbox();
        r := CheckpointSnapshotIfDue();
      } else {
        r := Pass;
      }
    }

    // ---------- Executing a tool ----------

    method CommitOperation(key: string, op: Operation, s: S) returns (answer: Answer)
      requires Valid()
      modifies this, native, server, outbox`log
      ensures Valid() && (View(), answer) == Commit(tools, old(View()), key, op, s)
    {
      var r := PublishLocalDeltas([OperationFor(key, op)], ProjectAll(tools, s, OperationScopes(op)));
      answer := ConcludeOperation(key, r);
    }

    method ConcludeOperation(key: string, r: Outcome<Problem>) returns (answer: Answer)
      requires Valid()
      modifies this, native, server, outbox`log
      ensures Valid() && (View(), answer) == Conclude(tools, old(View()), key, r)
    {
      match r
      case Pass =>
        var marked := MarkEntry(key);
        if marked.Fail? {
          return NotRecorded;
        }
        if background {
          return Answered;
        }
        var mirrored := MirrorCommittedOutbox();
        match mirrored {
          case Pass => return Answered;
          case Fail(OutboxFailed) => return NotRecorded;
          case Fail(_) => return MirrorPending;
        }
      case Fail(Conflicted(_)) =>
        EnterSqliteFallback();
        return Queued;
      case Fail(_) =>
        EnterSqliteFallback();
        return Answered;
    }

    method TakeBackEntry(key: string) returns (answer: Answer)
      requires Valid()
      modifies this`trace, outbox`log
      ensures Valid() && (View(), answer) == TakeBack(tools, old(View()), key)
    {
      trace := trace + [Failed(key)];
      var completed := CompleteEntry(key);
      if completed.Fail? {
        return NotRecorded;
      }
      CompactOutbox();
      return ToolFailed;
    }

    method QueueEntry(entry: Entry) returns (r: Outcome<Problem>)
      requires Valid()
      modifies this`trace, outbox`log
      ensures Valid() && (View(), r) == Queue(tools, old(View()), entry)
    {
      ghost var known := HasKey(Replay(outbox.log), entry.key);
      var appended := outbox.AppendPending(entry);
      if appended.Fail? {
        return Fail(OutboxFailed);
      }
      trace := if known then trace else trace + [Enqueued(entry.key)];
      return Pass;
    }

    method RunMutation(key: string, op: Operation) returns (answer: Answer)
      requires Valid()
      modifies this, native, server, outbox`log
      ensures Valid() && (View(), answer) == Mutate(tools, old(View()), key, op)
    {
      var queued := QueueEntry(Entry(key, op, false));
      if queued.Fail? {
        return NotRecorded;
      }
      match tools.apply(Serving(), op)
      case None =>
        answer := TakeBackEntry(key);
      case Some(s) =>
        Serve(s);
        if mode == RedisPrimary {
          answer := CommitOperation(key, op, s);
        } else {
          answer := Answered;
        }
    }

    method ExecuteTool(op: Operation) returns (answer: Answer)
      requires Valid()
      modifies this, native, server, outbox`log
      ensures Valid() && (View(), answer) == Execute(tools, old(View()), op)
    {
      if mode == RedisPrimary && link.None? {
        EnterSqliteFallback();
      }
      if tools.mutating(op.name) {
        answer := RunMutation(tools.key(op), op);
      } else {
        match tools.apply(Serving(), op)
        case Some(s) =>
          Serve(s);
          answer := Answered;
        case None =>
          answer := ToolFailed;
      }
    }
  }
}
