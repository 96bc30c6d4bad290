/** Whole runs on an actual database: every content the coordinator model goes through is stored by the database that
    the adapter's transactions produce, key by key. */
module ReplicationDatabase {
  import opened Wrappers
  import opened Operations
  import opened OutboxLog
  import opened RedisServer
  import opened KeyLayout
  import opened NativeRecords
  import opened Publish
  import opened PublishCalls
  import opened Remote
  import opened Stores
  import opened Replication
  import opened ReplicationSafety
  import opened ReplicationRoom
  import opened ReplicationRuns
  import opened ReplicationCalm

  // ---------- The transactions of the adapter ----------

  /** One adapter transaction: what is published, and how it is listed on the wire. */
  datatype Transaction<S> =
    | Pointwise(deltas: seq<Delta>, wireDeltas: seq<WireDelta>, ops: seq<RedisOperation>)
    | WholeScopes(snapshot: S, projections: seq<Projection>, wires: seq<WireProjection>, stale: seq<Key>)
    | ConflictRecord(key: string, record: LedgerRecord)
    | MarkerExpiry(key: string)

  /** The commands it runs at EXEC on a namespace with this content. */
  function QueueOf<S>(img: Image<S>, tx: Transaction<S>): seq<Command<Key, S>> {
    match tx
    case Pointwise(_, wires, ops) => DeltaQueue(img.revision, wires, ops)
    case WholeScopes(snapshot, _, wires, stale) => StateQueue(img.revision, snapshot, wires, stale, [])
    case ConflictRecord(key, record) => [Set(OperationLedger(key), Ledger(record))]
    case MarkerExpiry(key) => [Del(OperationMarker(key))]
  }

  /** The content it leaves. */
  function ImageAfter<S>(img: Image<S>, tx: Transaction<S>): Image<S> {
    match tx
    case Pointwise(deltas, _, ops) => Remote.PublishedDeltas(img, deltas, ops)
    case WholeScopes(snapshot, projections, _, _) => Remote.PublishedWhole(img, snapshot, projections)
    case ConflictRecord(key, record) => WithLedger(img, key, record)
    case MarkerExpiry(key) => img.(markers := img.markers - {key})
  }

  /** The wire lists what is published; a whole publish also deletes what the indexes it replaces list. */
  ghost predicate WellListed<S>(img: Image<S>, tx: Transaction<S>) {
    match tx
    case Pointwise(deltas, wires, _) =>
      |wires| == |deltas| && forall i :: 0 <= i < |wires| ==> Lists(wires[i], deltas[i])
    case WholeScopes(_, projections, wires, stale) =>
      DistinctScopes(projections) && ListsProjections(wires, projections) && ListsIndexes(img, wires, stale)
    case ConflictRecord(_, _) => true
    case MarkerExpiry(_) => true
  }

  function Images<S>(img: Image<S>, txs: seq<Transaction<S>>): Image<S> {
    if txs == [] then img else ImageAfter(Images(img, txs[..|txs| - 1]), txs[|txs| - 1])
  }

  function Databases<S>(db: Db<Key, S>, img: Image<S>, txs: seq<Transaction<S>>): Db<Key, S> {
    if txs == [] then db
    else
      var n := |txs| - 1;
      Exec(Databases(db, img, txs[..n]), QueueOf(Images(img, txs[..n]), txs[n])).0
  }

  ghost predicate AllListed<S>(img: Image<S>, txs: seq<Transaction<S>>) {
    forall i :: 0 <= i < |txs| ==> WellListed(Images(img, txs[..i]), txs[i])
  }

  lemma ConflictTakes<S(!new)>(img: Image<S>, key: string, record: LedgerRecord)
    ensures Takes(img, [Set(OperationLedger(key), Ledger(record))], WithLedger(img, key, record))
  {
    SetTakes(img, Set(OperationLedger(key), Ledger(record)), WithLedger(img, key, record));
  }

  lemma ExpiryTakes<S>(db: Db<Key, S>, img: Image<S>, key: string)
    requires Represents(db, img)
    ensures Represents(Exec(db, [Del(OperationMarker(key))]).0, img.(markers := img.markers - {key}))
  {
    ExecOne(db, Del(OperationMarker(key)));
    var after := img.(markers := img.markers - {key});
    forall k | Replicated(k)
      ensures (k in db - {OperationMarker(key)} <==> Cell(after, k).Some?)
      ensures k in db - {OperationMarker(key)} ==> Cell(after, k) == Some(db[k])
    {
      assert k in db <==> Cell(img, k).Some?;
    }
  }

  lemma TransactionIsStored<S(!new)>(db: Db<Key, S>, img: Image<S>, tx: Transaction<S>)
    requires Represents(db, img) && WellListed(img, tx)
    ensures Represents(Exec(db, QueueOf(img, tx)).0, ImageAfter(img, tx))
  {
    match tx
    case Pointwise(deltas, wires, ops) => DeltaTransaction(db, img, deltas, wires, ops);
    case WholeScopes(snapshot, projections, wires, stale) =>
      WholeTransaction(db, img, snapshot, projections, wires, stale);
    case ConflictRecord(key, record) => ConflictTakes(img, key, record);
    case MarkerExpiry(key) => ExpiryTakes(db, img, key);
  }

  lemma ListedPrefix<S>(img: Image<S>, txs: seq<Transaction<S>>, n: nat)
    requires n < |txs| && AllListed(img, txs)
    ensures AllListed(img, txs[..n]) && WellListed(Images(img, txs[..n]), txs[n])
  {
    forall i | 0 <= i < n
      ensures WellListed(Images(img, txs[..n][..i]), txs[..n][i])
    {
      assert txs[..n][..i] == txs[..i];
    }
  }

  /** Executed one after the other on a database that stores the content, the queues keep storing it. */
  lemma {:induction false} TransactionsAreStored<S(!new)>(db: Db<Key, S>, img: Image<S>, txs: seq<Transaction<S>>)
    requires Represents(db, img) && AllListed(img, txs)
    ensures Represents(Databases(db, img, txs), Images(img, txs))
  {
    if txs != [] {
      var n := |txs| - 1;
      ListedPrefix(img, txs, n);
      TransactionsAreStored(db, img, txs[..n]);
      TransactionIsStored(Databases(db, img, txs[..n]), Images(img, txs[..n]), txs[n]);
    }
  }

  // ---------- Every content can be listed ----------

  lemma {:induction false} ListSet<T>(items: set<T>) returns (listed: seq<T>)
    ensures |listed| == |items| && forall x :: x in listed <==> x in items
    decreases items
  {
    if items == {} {
      listed := [];
    } else {
      var x :| x in items;
      var rest := ListSet(items - {x});
      listed := rest + [x];
    }
  }

  lemma {:induction false} ListRecords(records: Records) returns (listed: seq<EntityRecord>)
    ensures AsRecords(listed) == records && |listed| == |records|
    decreases |records|
  {
    if records == map[] {
      listed := [];
    } else {
      var id :| id in records;
      var rest := ListRecords(records - {id});
      assert |records - {id}| == |records| - 1 by {
        assert (records - {id}).Keys == records.Keys - {id} && |records.Keys| == |records|;
      }
      listed := rest + [EntityRecord(id, records[id])];
      assert listed[..|rest|] == rest;
      assert AsRecords(listed) == (records - {id})[id := records[id]] == records;
    }
  }

  lemma {:induction false} ListDeltas(deltas: seq<Delta>) returns (wires: seq<WireDelta>)
    ensures |wires| == |deltas| && forall i :: 0 <= i < |wires| ==> Lists(wires[i], deltas[i])
  {
    if deltas == [] {
      wires := [];
    } else {
      var n := |deltas| - 1;
      var front := ListDeltas(deltas[..n]);
      var upserts := ListRecords(deltas[n].upserts);
      var deletes := ListSet(deltas[n].deletes);
      assert AsIds(deletes) == deltas[n].deletes;
      wires := front + [WireDelta(deltas[n].scope, upserts, deletes, deltas[n].entityCount)];
    }
  }

  lemma {:induction false} ListProjections(projections: seq<Projection>) returns (wires: seq<WireProjection>)
    ensures ListsProjections(wires, projections)
  {
    if projections == [] {
      wires := [];
    } else {
      var n := |projections| - 1;
      var front := ListProjections(projections[..n]);
      var entities := ListRecords(projections[n].records);
      wires := front + [WireProjection(projections[n].scope, entities)];
    }
  }

  lemma ListStale<S>(img: Image<S>, wires: seq<WireProjection>) returns (stale: seq<Key>)
    ensures ListsIndexes(img, wires, stale)
  {
    var keys := set scope, id | scope in Scopes(wires) && id in RecordsOf(img, scope) :: NativeEntity(scope, id);
    stale := ListSet(keys);
    assert AsKeys(stale) == keys;
  }

  // ---------- Stage by stage ----------

  /** The transactions lead from one content to the other. */
  ghost predicate Leads<S>(a: Image<S>, txs: seq<Transaction<S>>, b: Image<S>) {
    AllListed(a, txs) && Images(a, txs) == b
  }

  lemma {:induction false} ImagesAppend<S>(a: Image<S>, x: seq<Transaction<S>>, y: seq<Transaction<S>>)
    ensures Images(a, x + y) == Images(Images(a, x), y)
  {
    if y == [] {
      assert x + y == x;
    } else {
      assert (x + y)[..|x + y| - 1] == x + y[..|y| - 1];
      ImagesAppend(a, x, y[..|y| - 1]);
    }
  }

  lemma LeadsThen<S>(a: Image<S>, x: seq<Transaction<S>>, b: Image<S>, y: seq<Transaction<S>>, c: Image<S>)
    requires Leads(a, x, b) && Leads(b, y, c)
    ensures Leads(a, x + y, c)
  {
    ImagesAppend(a, x, y);
    forall i | 0 <= i < |x + y|
      ensures WellListed(Images(a, (x + y)[..i]), (x + y)[i])
    {
      if i < |x| {
        assert (x + y)[..i] == x[..i];
      } else {
        assert (x + y)[..i] == x + y[..i - |x|];
        ImagesAppend(a, x, y[..i - |x|]);
      }
    }
  }

  lemma LeadsOne<S>(img: Image<S>, tx: Transaction<S>)
    requires WellListed(img, tx)
    ensures Leads(img, [tx], ImageAfter(img, tx)) && Leads(img, [], img)
  {
    assert [tx][..0] == [];
  }

  /** A call that writes makes its transaction happen, or does not. */
  lemma TellLeads<S>(w: World<S>, tx: Transaction<S>) returns (txs: seq<Transaction<S>>)
    requires WellListed(w.img, tx)
    ensures Leads(w.img, txs, Tell(w, ImageAfter(w.img, tx)).0.img)
  {
    LeadsOne(w.img, tx);
    txs := if Tell(w, ImageAfter(w.img, tx)).0.img == w.img then [] else [tx];
  }

  lemma ConflictLeads<S>(w: World<S>, e: Entry, reason: string, revision: nat) returns (txs: seq<Transaction<S>>)
    ensures Leads(w.img, txs, RecordConflict(w, e, reason, revision).0.img)
  {
    AskShape(w);
    var op := OperationFor(e.key, e.operation);
    var record := LedgerRecord(op.name, op.scope, Conflict, revision, 0, Some(reason));
    if IsCommitted(w.img, e.key) {
      txs := [];
    } else {
      txs := TellLeads(w, ConflictRecord(e.key, record));
    }
  }

  lemma {:induction false} ConflictsLead<S>(w: World<S>, entries: seq<Entry>, reason: string, revision: nat)
      returns (txs: seq<Transaction<S>>)
    ensures Leads(w.img, txs, RecordConflicts(w, entries, reason, revision).0.img)
    decreases |entries|
  {
    if entries == [] {
      txs := [];
    } else {
      txs := ConflictLeads(w, entries[0], reason, revision);
      var (next, ok) := RecordConflict(w, entries[0], reason, revision);
      if ok {
        var more := ConflictsLead(next, entries[1..], reason, revision);
        LeadsThen(w.img, txs, next.img, more, RecordConflicts(next, entries[1..], reason, revision).0.img);
        txs := txs + more;
      }
    }
  }

  lemma WholeLeads<S>(tools: Tools<S>, w: World<S>, expected: nat, snapshot: S, projections: seq<Projection>)
      returns (txs: seq<Transaction<S>>)
    ensures Leads(w.img, txs, PublishWhole(tools, w, expected, snapshot, projections).0.img)
  {
    AskShape(w);
    txs := [];
    if DistinctScopes(projections) && tools.fitsWhole(projections) && w.img.revision == expected {
      var wires := ListProjections(projections);
      var stale := ListStale(w.img, wires);
      txs := TellLeads(w, WholeScopes(snapshot, projections, wires, stale));
    }
  }

  lemma PublishLeads<S>(tools: Tools<S>, w: World<S>, ops: seq<RedisOperation>, projections: seq<Projection>)
      returns (txs: seq<Transaction<S>>)
    ensures Leads(w.img, txs, PublishLocal(tools, w, ops, projections).0.img)
  {
    AskShape(w);
    var deltas := NativeDeltas(w.cache, projections);
    txs := [];
    if DistinctScopes(projections) && tools.fits(deltas, ops) && w.img.revision == w.revision {
      var wires := ListDeltas(deltas);
      txs := TellLeads(w, Pointwise(deltas, wires, ops));
    }
  }

  lemma CheckpointLeads<S>(tools: Tools<S>, w: World<S>) returns (txs: seq<Transaction<S>>)
    ensures Leads(w.img, txs, Checkpoint(tools, w).0.img)
  {
    txs := WholeLeads(tools, w, w.revision, ActiveStore(w), Everything(tools, ActiveStore(w)));
  }

  lemma ScanReplayLeads<S>(tools: Tools<S>, sc: Scan<S>, e: Entry) returns (txs: seq<Transaction<S>>)
    ensures Leads(sc.world.img, txs, ScanReplay(tools, sc, e).0.world.img)
  {
    txs := [];
    if !sc.world.usesLocal && tools.apply(ActiveStore(sc.world), e.operation).None? {
      txs := ConflictLeads(sc.world, e, "redis_priority_replay_rejected", sc.world.revision);
    }
  }

  lemma ScanOneLeads<S>(tools: Tools<S>, sc: Scan<S>, e: Entry) returns (txs: seq<Transaction<S>>)
    ensures Leads(sc.world.img, txs, ScanOne(tools, sc, e).0.world.img)
  {
    AskShape(sc.world);
    var w1 := Ask(sc.world).0;
    AskShape(w1);
    var w2 := Ask(w1).0;
    AuditAndMarkShape(tools, w1, e.key, "already_committed_in_redis_ledger");
    AuditAndMarkShape(tools, w2, e.key, "already_committed_in_redis");
    txs := [];
    if ScanOne(tools, sc, e).0.world.img != sc.world.img {
      txs := ScanReplayLeads(tools, sc.(world := w2), e);
    }
  }

  lemma {:induction false} ScanAllLeads<S>(tools: Tools<S>, sc: Scan<S>, entries: seq<Entry>)
      returns (txs: seq<Transaction<S>>)
    ensures Leads(sc.world.img, txs, ScanAll(tools, sc, entries).0.world.img)
    decreases |entries|
  {
    if entries == [] {
      txs := [];
    } else {
      txs := ScanOneLeads(tools, sc, entries[0]);
      var (next, r) := ScanOne(tools, sc, entries[0]);
      if r.Pass? {
        var more := ScanAllLeads(tools, next, entries[1..]);
        LeadsThen(sc.world.img, txs, next.world.img, more, ScanAll(tools, next, entries[1..]).0.world.img);
        txs := txs + more;
      }
    }
  }

  lemma PublishAppliedLeads<S>(tools: Tools<S>, sc: Scan<S>) returns (txs: seq<Transaction<S>>)
    ensures Leads(sc.world.img, txs, PublishApplied(tools, sc).0.world.img)
  {
    txs := [];
    if sc.applied != [] {
      var ops := OperationsFor(sc.applied);
      var projections := ProjectAll(tools, ActiveStore(sc.world), EntryScopes(sc.applied));
      txs := PublishLeads(tools, sc.world, ops, projections);
      var (next, r) := PublishLocal(tools, sc.world, ops, projections);
      var more := AnswerLeads(tools, sc.(world := next), r);
      assert PublishApplied(tools, sc).0.world.img == Answered(tools, sc.(world := next), r);
      LeadsThen(sc.world.img, txs, next.img, more, Answered(tools, sc.(world := next), r));
      txs := txs + more;
    }
  }

  /** The content after the answer to a publish: Redis may have moved on. */
  function Answered<S>(tools: Tools<S>, sc: Scan<S>, r: Outcome<Problem>): Image<S> {
    if r.Fail? && r.error.Conflicted? then GiveWay(tools, sc, r.error.actual).0.world.img else sc.world.img
  }

  lemma AnswerLeads<S>(tools: Tools<S>, sc: Scan<S>, r: Outcome<Problem>) returns (txs: seq<Transaction<S>>)
    ensures Leads(sc.world.img, txs, Answered(tools, sc, r))
  {
    txs := [];
    if r.Fail? && r.error.Conflicted? {
      txs := GiveWayLeads(tools, sc, r.error.actual);
    }
  }

  lemma GiveWayLeads<S>(tools: Tools<S>, sc: Scan<S>, actual: nat) returns (txs: seq<Transaction<S>>)
    ensures Leads(sc.world.img, txs, GiveWay(tools, sc, actual).0.world.img)
  {
    txs := ConflictsLead(sc.world, sc.applied, "redis_priority_conflict", actual);
    AskTimesShape(RecordConflicts(sc.world, sc.applied, "redis_priority_conflict", actual).0, 3);
  }

  lemma BatchLeads<S>(tools: Tools<S>, w: World<S>) returns (txs: seq<Transaction<S>>)
    ensures Leads(w.img, txs, ReconcileBatch(tools, w).0.img)
  {
    var start, batch := Scan(w, [], {}, []), Batch(w.pending, false);
    txs := ScanAllLeads(tools, start, batch);
    var (scanned, r1) := ScanAll(tools, start, batch);
    if r1.Pass? {
      var publish := PublishAppliedLeads(tools, scanned);
      var (published, r2) := PublishApplied(tools, scanned);
      LeadsThen(w.img, txs, scanned.world.img, publish, published.world.img);
      txs := txs + publish;
      if r2.Pass? {
        var checkpoint: seq<Transaction<S>> := [];
        if published.local != {} {
          checkpoint := CheckpointLeads(tools, published.world);
        }
        var (checked, r3) := CheckpointLocal(tools, published);
        LeadsThen(w.img, txs, published.world.img, checkpoint, checked.world.img);
        txs := txs + checkpoint;
        FinishStill(tools, checked);
      }
    }
  }

  lemma ReconcileLeads<S>(tools: Tools<S>, w: World<S>) returns (txs: seq<Transaction<S>>)
    ensures Leads(w.img, txs, Reconcile(tools, w).0.img)
  {
    var (replayed, r1) := ReplayCommittedIntoActive(tools, w);
    MirrorOnly(tools, replayed);
    var (mirrored, r2) := Mirror(tools, replayed);
    txs := [];
    if r1.Pass? && r2.Pass? && mirrored.pending != [] {
      txs := BatchLeads(tools, mirrored);
    }
  }

  lemma AdoptLeads<S>(tools: Tools<S>, w: World<S>) returns (txs: seq<Transaction<S>>)
    ensures Leads(w.img, txs, Adopt(tools, w).0.img)
  {
    AskTimesShape(w, 3);
    var (read, ok) := AskTimes(w, 3);
    txs := [];
    if ok {
      match w.img.snapshot
      case Some(snapshot) =>
        txs := AdoptSnapshotLeads(tools, read, if Recovering(w) then w.store else snapshot);
      case None => txs := WholeLeads(tools, read, 0, w.store, Everything(tools, w.store));
    }
  }

  lemma AdoptSnapshotLeads<S>(tools: Tools<S>, w: World<S>, image: S) returns (txs: seq<Transaction<S>>)
    ensures Leads(w.img, txs, AdoptSnapshot(tools, w, image).0.img)
  {
    var (checked, ok) := Ask(w.(store := image));
    AskShape(w.(store := image));
    AskTimesShape(checked.(revision := w.img.revision), |AllScopes(tools, image)|);
    txs := [];
    if ok && w.img.schema < NATIVE_SCHEMA_VERSION {
      txs := WholeLeads(tools, checked, w.img.revision, image, Everything(tools, image));
    }
  }

  lemma AttachLeads<S>(tools: Tools<S>, w: World<S>, link: Link) returns (txs: seq<Transaction<S>>)
    ensures Leads(w.img, txs, Attach(tools, w, link).0.img)
  {
    txs := AdoptLeads(tools, w.(link := Some(link)));
    var (adopted, r) := Adopt(tools, w.(link := Some(link)));
    if r.Pass? {
      var attached := Attached(w, adopted);
      var more := ReconcileLeads(tools, attached);
      LeadsThen(w.img, txs, adopted.img, more, Reconcile(tools, attached).0.img);
      txs := txs + more;
    }
  }

  lemma ObserveOnlyReads<S>(tools: Tools<S>, w: World<S>)
    ensures Observe(tools, w).0.img == w.img
  {
    AskTimesShape(w.(lastRemote := Some(w.img.revision)), 3);
  }

  lemma TickLeads<S>(tools: Tools<S>, w: World<S>, offered: Option<Link>) returns (txs: seq<Transaction<S>>)
    ensures Leads(w.img, txs, Tick(tools, w, offered).0.img)
  {
    txs := [];
    if w.link.None? {
      if offered.Some? {
        txs := AttachLeads(tools, w, offered.value);
      }
    } else if w.mode == RedisPrimary {
      AskShape(w);
      var (asked, ok) := Ask(w);
      ObserveOnlyReads(tools, asked);
      var (current, r1) := Observe(tools, asked);
      if ok && r1.Pass? {
        txs := RoundLeads(tools, current);
      }
    }
  }

  lemma RoundLeads<S>(tools: Tools<S>, w: World<S>) returns (txs: seq<Transaction<S>>)
    ensures var (t, r) := Reconcile(tools, w);
      Leads(w.img, txs, if r.Fail? then t.img else CheckpointIfDue(tools, t).0.img)
  {
    txs := ReconcileLeads(tools, w);
    var (t, r) := Reconcile(tools, w);
    if r.Pass? {
      var more := CheckpointLeads(tools, t);
      LeadsThen(w.img, txs, t.img, more, Checkpoint(tools, t).0.img);
      txs := if CheckpointIfDue(tools, t).0 == t then txs else txs + more;
    }
  }

  lemma ExecuteLeads<S>(tools: Tools<S>, w: World<S>, op: Operation) returns (txs: seq<Transaction<S>>)
    ensures Leads(w.img, txs, Execute(tools, w, op).0.img)
  {
    txs := [];
    if tools.mutating(op.name) {
      txs := MutateLeads(tools, Prepare(w), tools.key(op), op);
    }
  }

  lemma QueueOnly<S>(tools: Tools<S>, w: World<S>, entry: Entry)
    ensures OutboxOnly(w, Queue(tools, w, entry).0)
  {
  }

  lemma MutateLeads<S>(tools: Tools<S>, w: World<S>, key: string, op: Operation) returns (txs: seq<Transaction<S>>)
    ensures Leads(w.img, txs, Mutate(tools, w, key, op).0.img)
  {
    QueueOnly(tools, w, Entry(key, op, false));
    var (queued, r) := Queue(tools, w, Entry(key, op, false));
    txs := [];
    if r.Pass? {
      match tools.apply(ActiveStore(w), op)
      case None => TakeBackOnly(tools, queued, key);
      case Some(s) =>
        if w.mode == RedisPrimary {
          txs := CommitLeads(tools, WithActiveStore(queued, s), key, op, s);
        }
    }
  }

  lemma CommitLeads<S>(tools: Tools<S>, w: World<S>, key: string, op: Operation, s: S)
      returns (txs: seq<Transaction<S>>)
    ensures Leads(w.img, txs, Commit(tools, w, key, op, s).0.img)
  {
    var ops, projections := [OperationFor(key, op)], ProjectAll(tools, s, OperationScopes(op));
    txs := PublishLeads(tools, w, ops, projections);
    var (next, r) := PublishLocal(tools, w, ops, projections);
    ConcludeShape(tools, next, key, r);
  }

  lemma NextLeads<S>(tools: Tools<S>, w: World<S>, move: Move) returns (txs: seq<Transaction<S>>)
    ensures Leads(w.img, txs, Next(tools, w, move).img)
  {
    match move
    case Call(op) => txs := ExecuteLeads(tools, w, op);
    case Round(offered) => txs := TickLeads(tools, w, offered);
    case Expire(key) =>
      LeadsOne(w.img, MarkerExpiry(key));
      txs := [MarkerExpiry(key)];
  }

  /** Every run is a list of adapter transactions. */
  lemma {:induction false} RunLeads<S>(tools: Tools<S>, w: World<S>, moves: seq<Move>)
      returns (txs: seq<Transaction<S>>)
    ensures Leads(w.img, txs, Ran(tools, w, moves).img)
  {
    if moves == [] {
      txs := [];
    } else {
      var n := |moves| - 1;
      var front := RunLeads(tools, w, moves[..n]);
      var last := NextLeads(tools, Ran(tools, w, moves[..n]), moves[n]);
      LeadsThen(w.img, front, Ran(tools, w, moves[..n]).img, last, Ran(tools, w, moves).img);
      txs := front + last;
    }
  }

  // ---------- The cache and the database ----------

  /** From any database that stores the first content, the transactions of a run lead to one whose keys are exactly
      those of the last content; and while the coordinator is connected, reading the index of any scope back from it, in
      whatever order, gives what the cache holds for the scope. */
  lemma CacheFollowsDatabase<S(!new)>(tools: Tools<S>, w: World<S>, moves: seq<Move>, db: Db<Key, S>)
      returns (txs: seq<Transaction<S>>)
    requires Lawful(tools) && ShortestCompleted(tools) && Start(tools, w) && Represents(db, w.img)
    requires DistinctCalls(tools, moves, w.img.ledger.Keys) && NeverDoubleApplies(tools, w, moves)
    ensures var t, after := Ran(tools, w, moves), Databases(db, w.img, txs);
      && Leads(w.img, txs, t.img) && Represents(after, t.img)
      && (t.link.Some? && t.link.value != DEAD ==>
            forall scope, members :: ListsIndex(after, scope, members) ==>
              Lookup(t.cache, scope) == Fetched(after, members))
  {
    txs := RunLeads(tools, w, moves);
    TransactionsAreStored(db, w.img, txs);
    var t, after := Ran(tools, w, moves), Databases(db, w.img, txs);
    if t.link.Some? && t.link.value != DEAD {
      forall scope, members | ListsIndex(after, scope, members)
        ensures Lookup(t.cache, scope) == Fetched(after, members)
      {
        CacheAgrees(tools, w, moves, after, scope, members);
      }
    }
  }
}
