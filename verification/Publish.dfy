/** The two publish transactions of the Redis adapter: the pointwise one and the one that replaces whole scopes. */
module Publish {
  import opened Wrappers
  import opened RedisServer
  import opened KeyLayout
  import opened NativeRecords

  const NATIVE_SCHEMA_VERSION: nat := 2
  const MARKER_TTL_SECONDS: nat := 7 * 24 * 60 * 60

  datatype RedisOperation = RedisOperation(key: string, name: string, scope: string)

  datatype EntityRecord = EntityRecord(id: EntityId, payload: string)

  /** A delta as it is listed for the wire, in whatever order its map and set are walked. */
  datatype WireDelta = WireDelta(scope: string, upserts: seq<EntityRecord>, deletes: seq<EntityId>, entityCount: nat)

  datatype WireProjection = WireProjection(scope: string, entities: seq<EntityRecord>)

  function AsRecords(entities: seq<EntityRecord>): Records {
    if entities == [] then map[]
    else AsRecords(entities[..|entities| - 1])[entities[|entities| - 1].id := entities[|entities| - 1].payload]
  }

  function AsIds(ids: seq<EntityId>): set<EntityId> {
    set i | 0 <= i < |ids| :: ids[i]
  }

  ghost predicate DistinctIds(entities: seq<EntityRecord>) {
    forall i, j :: 0 <= i < j < |entities| ==> entities[i].id != entities[j].id
  }

  ghost predicate Lists(w: WireDelta, d: Delta) {
    w.scope == d.scope && w.entityCount == d.entityCount && AsRecords(w.upserts) == d.upserts
      && AsIds(w.deletes) == d.deletes
  }

  ghost predicate ListsProjection(w: WireProjection, p: Projection) {
    w.scope == p.scope && AsRecords(w.entities) == p.records && |w.entities| == |p.records|
  }

  // ---------- The logical content of the database ----------

  /** What the keys of one namespace mean. The records of a scope are the union of its entity
      keys; its index is implied. */
  datatype Image<S> = Image(revision: nat, snapshot: Option<S>, schema: nat, records: map<string, Records>,
                            manifests: map<string, Manifest>, ledger: map<string, LedgerRecord>, markers: set<string>)

  function RecordsOf<S>(img: Image<S>, scope: string): Records {
    if scope in img.records then img.records[scope] else map[]
  }

  function IndexOf(scope: string, records: Records): set<Key> {
    set id | id in records :: NativeEntity(scope, id)
  }

  /** What each key holds when the namespace stores `img`: an index lists exactly the entity keys that exist. */
  function Cell<S>(img: Image<S>, key: Key): Option<Value<Key, S>> {
    match key
    case StateSnapshot => if img.snapshot.Some? then Some(Snapshot(img.snapshot.value)) else None
    case StateRevision => if img.revision == 0 then None else Some(Number(img.revision))
    case NativeSchema => if img.schema == 0 then None else Some(Number(img.schema))
    case OperationMarker(operation) => if operation in img.markers then Some(Marker) else None
    case OperationLedger(operation) => if operation in img.ledger then Some(Ledger(img.ledger[operation])) else None
    case NativeIndex(scope) =>
      if RecordsOf(img, scope) == map[] then None else Some(Members(IndexOf(scope, RecordsOf(img, scope))))
    case NativeManifest(scope) => if scope in img.manifests then Some(ManifestOf(img.manifests[scope])) else None
    case NativeEntity(scope, id) =>
      if id in RecordsOf(img, scope) then Some(Record(id, RecordsOf(img, scope)[id])) else None
    case _ => None
  }

  /** The database stores exactly the image: no dangling index member, no orphan entity, no stray key of
      the protocol. */
  ghost predicate Represents<S>(db: Db<Key, S>, img: Image<S>) {
    forall key :: Replicated(key) ==>
      (key in db <==> Cell(img, key).Some?) && (key in db ==> Cell(img, key) == Some(db[key]))
  }

  function WithRecords<S>(img: Image<S>, scope: string, records: Records): Image<S> {
    img.(records := img.records[scope := records])
  }

  function WithLedger<S>(img: Image<S>, key: string, record: LedgerRecord): Image<S> {
    img.(ledger := img.ledger[key := record])
  }

  function WithMarker<S>(img: Image<S>, key: string): Image<S> {
    img.(markers := img.markers + {key})
  }

  function WithManifest<S>(img: Image<S>, scope: string, manifest: Manifest): Image<S> {
    img.(manifests := img.manifests[scope := manifest])
  }

  // ---------- The command queues ----------

  /** The scopes of a publish, each with the number of records it has afterwards. */
  type Counts = seq<(string, nat)>

  function DeltaCounts(deltas: seq<WireDelta>): Counts {
    seq(|deltas|, i requires 0 <= i < |deltas| => (deltas[i].scope, deltas[i].entityCount))
  }

  function ProjectionCounts(projections: seq<WireProjection>): Counts {
    seq(|projections|, i requires 0 <= i < |projections| => (projections[i].scope, |projections[i].entities|))
  }

  function Total(counts: Counts): nat {
    if counts == [] then 0 else Total(counts[..|counts| - 1]) + counts[|counts| - 1].1
  }

  function CommittedRecord(op: RedisOperation, next: nat, total: nat): LedgerRecord {
    LedgerRecord(op.name, op.scope, Committed, next, total, None)
  }

  function DeleteCommands<S>(scope: string, ids: seq<EntityId>): seq<Command<Key, S>> {
    if ids == [] then []
    else
      var key := NativeEntity(scope, ids[|ids| - 1]);
      DeleteCommands(scope, ids[..|ids| - 1]) + [SRem(NativeIndex(scope), key), Del(key)]
  }

  function UpsertCommands<S>(scope: string, entities: seq<EntityRecord>): seq<Command<Key, S>> {
    if entities == [] then []
    else
      var entity := entities[|entities| - 1];
      var key := NativeEntity(scope, entity.id);
      UpsertCommands(scope, entities[..|entities| - 1]) +
      [Set(key, Record(entity.id, entity.payload)), SAdd(NativeIndex(scope), key)]
  }

  function DeltaCommands<S>(delta: WireDelta): seq<Command<Key, S>> {
    DeleteCommands(delta.scope, delta.deletes) + UpsertCommands(delta.scope, delta.upserts)
  }

  function DeltaBody<S>(deltas: seq<WireDelta>): seq<Command<Key, S>> {
    if deltas == [] then [] else DeltaBody(deltas[..|deltas| - 1]) + DeltaCommands(deltas[|deltas| - 1])
  }

  function LedgerCommand<S>(op: RedisOperation, next: nat, total: nat): Command<Key, S> {
    Set(OperationLedger(op.key), Ledger(CommittedRecord(op, next, total)))
  }

  function MarkerCommand<S>(op: RedisOperation): Command<Key, S> {
    SetExpiring(OperationMarker(op.key), Marker, MARKER_TTL_SECONDS)
  }

  function OperationBody<S>(ops: seq<RedisOperation>, next: nat, total: nat): seq<Command<Key, S>> {
    if ops == [] then []
    else
      var op := ops[|ops| - 1];
      OperationBody(ops[..|ops| - 1], next, total) + [LedgerCommand(op, next, total), MarkerCommand(op)]
  }

  function ManifestCommands<S>(counts: Counts, next: nat): seq<Command<Key, S>> {
    if counts == [] then []
    else
      var (scope, count) := counts[|counts| - 1];
      ManifestCommands(counts[..|counts| - 1], next) +
      [Set(NativeManifest(scope), ManifestOf(Manifest(NATIVE_SCHEMA_VERSION, next, count)))]
  }

  /** Everything `publish_native_deltas` queues between MULTI and EXEC. */
  function DeltaQueue<S>(expected: nat, deltas: seq<WireDelta>, ops: seq<RedisOperation>): seq<Command<Key, S>> {
    var counts := DeltaCounts(deltas);
    [Set(NativeSchema, Number(NATIVE_SCHEMA_VERSION)), Incr(StateRevision)] +
    (DeltaBody(deltas) + (OperationBody(ops, expected + 1, Total(counts)) + ManifestCommands(counts, expected + 1)))
  }

  function DelCommands<S>(keys: seq<Key>): seq<Command<Key, S>> {
    if keys == [] then [] else DelCommands(keys[..|keys| - 1]) + [Del(keys[|keys| - 1])]
  }

  function IndexKeys(projections: seq<WireProjection>): seq<Key> {
    seq(|projections|, i requires 0 <= i < |projections| => NativeIndex(projections[i].scope))
  }

  function ProjectionBody<S>(projections: seq<WireProjection>): seq<Command<Key, S>> {
    if projections == [] then []
    else
      var last := projections[|projections| - 1];
      ProjectionBody(projections[..|projections| - 1]) + UpsertCommands(last.scope, last.entities)
  }

  function LedgerCommands<S>(ops: seq<RedisOperation>, next: nat, total: nat): seq<Command<Key, S>> {
    if ops == [] then []
    else LedgerCommands(ops[..|ops| - 1], next, total) + [LedgerCommand(ops[|ops| - 1], next, total)]
  }

  function MarkerCommands<S>(ops: seq<RedisOperation>): seq<Command<Key, S>> {
    if ops == [] then [] else MarkerCommands(ops[..|ops| - 1]) + [MarkerCommand(ops[|ops| - 1])]
  }

  /** Everything `publish_state_with_projections` queues; `stale` are the index members read before MULTI. */
  function StateQueue<S>(expected: nat, snapshot: S, projections: seq<WireProjection>, stale: seq<Key>,
                         ops: seq<RedisOperation>): seq<Command<Key, S>> {
    var counts := ProjectionCounts(projections);
    [Set(StateSnapshot, Snapshot(snapshot)), Incr(StateRevision), Set(NativeSchema, Number(NATIVE_SCHEMA_VERSION))] +
    (DelCommands(stale) + (DelCommands(IndexKeys(projections)) + (ProjectionBody(projections) +
    (LedgerCommands(ops, expected + 1, Total(counts))
     + (MarkerCommands(ops) + ManifestCommands(counts, expected + 1))))))
  }

  // ---------- What single commands do to the image ----------

  /** Every reply is one that `into_success` and `into_integer_or_success` accept. */
  predicate NoneRefused(replies: seq<Reply>) {
    forall i :: 0 <= i < |replies| ==> !replies[i].Refused?
  }

  /** The keys of the fact commands are untouched. */
  ghost predicate SameFacts<S>(a: Db<Key, S>, b: Db<Key, S>) {
    forall key :: !Replicated(key) ==> (key in a <==> key in b) && (key in a ==> a[key] == b[key])
  }

  /** Running `cs` on a database that stores `img` makes it store `after`, no command is refused, and no key outside the
      protocol is touched. */
  ghost predicate Takes<S(!new)>(img: Image<S>, cs: seq<Command<Key, S>>, after: Image<S>) {
    forall db: Db<Key, S> :: Represents(db, img) ==>
      Represents(Exec(db, cs).0, after) && NoneRefused(Exec(db, cs).1) && SameFacts(db, Exec(db, cs).0)
  }

  lemma TakesThen<S(!new)>(a: Image<S>, x: seq<Command<Key, S>>, b: Image<S>, y: seq<Command<Key, S>>, c: Image<S>)
    requires Takes(a, x, b) && Takes(b, y, c)
    ensures Takes(a, x + y, c)
  {
    forall db: Db<Key, S> | Represents(db, a)
      ensures Represents(Exec(db, x + y).0, c) && NoneRefused(Exec(db, x + y).1)
      ensures SameFacts(db, Exec(db, x + y).0)
    {
      ExecAppend(db, x, y);
      assert Represents(Exec(db, x).0, b);
    }
  }

  lemma TakesNothing<S(!new)>(a: Image<S>)
    ensures Takes<S>(a, [], a)
  {
  }

  lemma SetTakes<S(!new)>(img: Image<S>, c: Command<Key, S>, after: Image<S>)
    requires c.Set? || c.SetExpiring?
    requires forall key :: Cell(after, key) == if key == c.key then Some(c.value) else Cell(img, key)
    ensures Takes(img, [c], after)
  {
    forall db: Db<Key, S> | Represents(db, img)
      ensures Represents(Exec(db, [c]).0, after) && NoneRefused(Exec(db, [c]).1)
      ensures SameFacts(db, Exec(db, [c]).0)
    {
      ExecOne(db, c);
      assert Cell(after, c.key) == Some(c.value);
    }
  }

  lemma IncrOne<S>(db: Db<Key, S>, img: Image<S>)
    requires Represents(db, img)
    ensures var (after, reply) := Step(db, Incr(StateRevision));
      && Represents(after, img.(revision := img.revision + 1)) && reply == Count(img.revision + 1)
      && SameFacts(db, after)
  {
    assert StateRevision in db <==> Cell(img, StateRevision).Some?;
  }

  lemma IncrTakes<S(!new)>(img: Image<S>)
    ensures Takes(img, [Incr(StateRevision)], img.(revision := img.revision + 1))
    ensures forall db: Db<Key, S> :: Represents(db, img) ==> Step(db, Incr(StateRevision)).1 == Count(img.revision + 1)
  {
    forall db: Db<Key, S> | Represents(db, img)
      ensures var (after, replies) := Exec(db, [Incr(StateRevision)]);
        Represents(after, img.(revision := img.revision + 1)) && NoneRefused(replies) && SameFacts(db, after)
      ensures Step(db, Incr(StateRevision)).1 == Count(img.revision + 1)
    {
      ExecOne(db, Incr(StateRevision));
      IncrOne(db, img);
    }
  }

  lemma ExecPair<S>(db: Db<Key, S>, a: Command<Key, S>, b: Command<Key, S>)
    ensures Exec(db, [a, b]) == (Step(Step(db, a).0, b).0, [Step(db, a).1, Step(Step(db, a).0, b).1])
  {
    ExecAppend(db, [a], [b]);
    ExecOne(db, a);
    ExecOne(Step(db, a).0, b);
    assert [a, b] == [a] + [b];
    assert [Step(db, a).1] + [Step(Step(db, a).0, b).1] == [Step(db, a).1, Step(Step(db, a).0, b).1];
  }

  lemma EmptyIndex(scope: string, records: Records)
    ensures records == map[] <==> IndexOf(scope, records) == {}
  {
    if IndexOf(scope, records) == {} {
      forall id
        ensures id !in records
      {
        assert NativeEntity(scope, id) !in IndexOf(scope, records);
      }
    }
  }

  /** Changing the records of one scope changes its index and its entity keys, and no other key. */
  lemma OtherCells<S>(img: Image<S>, scope: string, records: Records, key: Key)
    requires !(key.NativeIndex? && key.scope == scope) && !(key.NativeEntity? && key.scope == scope)
    ensures Cell(WithRecords(img, scope, records), key) == Cell(img, key)
  {
  }

  lemma DeletePair<S>(db: Db<Key, S>, img: Image<S>, scope: string, id: EntityId)
    requires Represents(db, img)
    ensures var index, key := NativeIndex(scope), NativeEntity(scope, id);
      var (db1, r1) := Step(db, SRem(index, key));
      var (db2, r2) := Step(db1, Del(key));
      Represents(db2, WithRecords(img, scope, RecordsOf(img, scope) - {id})) && !r1.Refused? && !r2.Refused?
  {
    var index, gone := NativeIndex(scope), NativeEntity(scope, id);
    var records := RecordsOf(img, scope);
    var after := WithRecords(img, scope, records - {id});
    assert index in db <==> Cell(img, index).Some?;
    var db2 := Step(Step(db, SRem(index, gone)).0, Del(gone)).0;
    assert IndexOf(scope, records - {id}) == IndexOf(scope, records) - {gone};
    EmptyIndex(scope, records);
    EmptyIndex(scope, records - {id});
    forall key | Replicated(key)
      ensures (key in db2 <==> Cell(after, key).Some?) && (key in db2 ==> Cell(after, key) == Some(db2[key]))
    {
      assert key in db <==> Cell(img, key).Some?;
      if key != index && !(key.NativeEntity? && key.scope == scope) {
        OtherCells(img, scope, records - {id}, key);
      }
    }
  }

  lemma UpsertPair<S>(db: Db<Key, S>, img: Image<S>, scope: string, id: EntityId, payload: string)
    requires Represents(db, img)
    ensures var index, key := NativeIndex(scope), NativeEntity(scope, id);
      var (db1, r1) := Step(db, Set(key, Record(id, payload)));
      var (db2, r2) := Step(db1, SAdd(index, key));
      Represents(db2, WithRecords(img, scope, RecordsOf(img, scope)[id := payload])) && !r1.Refused? && !r2.Refused?
  {
    var index, new_ := NativeIndex(scope), NativeEntity(scope, id);
    var records := RecordsOf(img, scope);
    var after := WithRecords(img, scope, records[id := payload]);
    assert index in db <==> Cell(img, index).Some?;
    var db2 := Step(Step(db, Set(new_, Record(id, payload))).0, SAdd(index, new_)).0;
    assert IndexOf(scope, records[id := payload]) == IndexOf(scope, records) + {new_};
    EmptyIndex(scope, records);
    assert records == map[] ==> IndexOf(scope, records) + {new_} == {new_};
    assert id in records[id := payload];
    forall key | Replicated(key)
      ensures (key in db2 <==> Cell(after, key).Some?) && (key in db2 ==> Cell(after, key) == Some(db2[key]))
    {
      assert key in db <==> Cell(img, key).Some?;
      if key != index && !(key.NativeEntity? && key.scope == scope) {
        OtherCells(img, scope, records[id := payload], key);
      }
    }
  }

  lemma DeletePairTakes<S(!new)>(img: Image<S>, scope: string, id: EntityId)
    ensures Takes(img, [SRem(NativeIndex(scope), NativeEntity(scope, id)), Del(NativeEntity(scope, id))],
                  WithRecords(img, scope, RecordsOf(img, scope) - {id}))
  {
    var a, b := SRem(NativeIndex(scope), NativeEntity(scope, id)), Del(NativeEntity(scope, id));
    var after := WithRecords(img, scope, RecordsOf(img, scope) - {id});
    forall db: Db<Key, S> | Represents(db, img)
      ensures Represents(Exec(db, [a, b]).0, after) && NoneRefused(Exec(db, [a, b]).1)
      ensures SameFacts(db, Exec(db, [a, b]).0)
    {
      ExecPair(db, a, b);
      DeletePair(db, img, scope, id);
    }
  }

  lemma UpsertPairTakes<S(!new)>(img: Image<S>, scope: string, id: EntityId, payload: string)
    ensures Takes(img,
                  [Set(NativeEntity(scope, id), Record(id, payload)),
                   SAdd(NativeIndex(scope), NativeEntity(scope, id))],
                  WithRecords(img, scope, RecordsOf(img, scope)[id := payload]))
  {
    var a, b := Set(NativeEntity(scope, id), Record(id, payload)), SAdd(NativeIndex(scope), NativeEntity(scope, id));
    var after := WithRecords(img, scope, RecordsOf(img, scope)[id := payload]);
    forall db: Db<Key, S> | Represents(db, img)
      ensures Represents(Exec(db, [a, b]).0, after) && NoneRefused(Exec(db, [a, b]).1)
      ensures SameFacts(db, Exec(db, [a, b]).0)
    {
      ExecPair(db, a, b);
      UpsertPair(db, img, scope, id, payload);
    }
  }

  // ---------- What the queues do to the image ----------

  function AfterDeletes<S>(img: Image<S>, scope: string, ids: seq<EntityId>): Image<S> {
    if ids == [] then img
    else
      var before := AfterDeletes(img, scope, ids[..|ids| - 1]);
      WithRecords(before, scope, RecordsOf(before, scope) - {ids[|ids| - 1]})
  }

  function AfterUpserts<S>(img: Image<S>, scope: string, entities: seq<EntityRecord>): Image<S> {
    if entities == [] then img
    else
      var before := AfterUpserts(img, scope, entities[..|entities| - 1]);
      var last := entities[|entities| - 1];
      WithRecords(before, scope, RecordsOf(before, scope)[last.id := last.payload])
  }

  function AfterDeltas<S>(img: Image<S>, deltas: seq<WireDelta>): Image<S> {
    if deltas == [] then img
    else
      var last := deltas[|deltas| - 1];
      AfterUpserts(AfterDeletes(AfterDeltas(img, deltas[..|deltas| - 1]), last.scope, last.deletes), last.scope,
                   last.upserts)
  }

  function AfterProjections<S>(img: Image<S>, projections: seq<WireProjection>): Image<S> {
    if projections == [] then img
    else
      var last := projections[|projections| - 1];
      AfterUpserts(AfterProjections(img, projections[..|projections| - 1]), last.scope, last.entities)
  }

  function LedgerAfter(ledger: map<string, LedgerRecord>, ops: seq<RedisOperation>, next: nat,
                       total: nat): map<string, LedgerRecord> {
    if ops == [] then ledger
    else
      var op := ops[|ops| - 1];
      LedgerAfter(ledger, ops[..|ops| - 1], next, total)[op.key := CommittedRecord(op, next, total)]
  }

  function OperationKeys(ops: seq<RedisOperation>): set<string> {
    set i | 0 <= i < |ops| :: ops[i].key
  }

  function ManifestsAfter(manifests: map<string, Manifest>, counts: Counts, next: nat): map<string, Manifest> {
    if counts == [] then manifests
    else
      var (scope, count) := counts[|counts| - 1];
      ManifestsAfter(manifests, counts[..|counts| - 1], next)[scope := Manifest(NATIVE_SCHEMA_VERSION, next, count)]
  }

  /** The part of a publish that both forms share: schema, revision, ledger, markers and manifests. */
  function Stamped<S>(img: Image<S>, expected: nat, counts: Counts, ops: seq<RedisOperation>): Image<S> {
    img.(revision := img.revision + 1, schema := NATIVE_SCHEMA_VERSION,
         ledger := LedgerAfter(img.ledger, ops, expected + 1, Total(counts)),
         markers := img.markers + OperationKeys(ops),
         manifests := ManifestsAfter(img.manifests, counts, expected + 1))
  }

  lemma {:induction false} AfterDeletesRecords<S>(img: Image<S>, scope: string, ids: seq<EntityId>, s: string)
    ensures RecordsOf(AfterDeletes(img, scope, ids), s) ==
            if s == scope then RecordsOf(img, s) - AsIds(ids) else RecordsOf(img, s)
    ensures AfterDeletes(img, scope, ids).(records := img.records) == img
  {
    if ids == [] {
      assert RecordsOf(img, s) - AsIds(ids) == RecordsOf(img, s);
    } else {
      var n := |ids| - 1;
      AfterDeletesRecords(img, scope, ids[..n], s);
      assert AsIds(ids) == AsIds(ids[..n]) + {ids[n]};
    }
  }

  lemma {:induction false} AfterUpsertsRecords<S>(img: Image<S>, scope: string, entities: seq<EntityRecord>, s: string)
    ensures RecordsOf(AfterUpserts(img, scope, entities), s) ==
            if s == scope then RecordsOf(img, s) + AsRecords(entities) else RecordsOf(img, s)
    ensures AfterUpserts(img, scope, entities).(records := img.records) == img
  {
    if entities == [] {
      assert RecordsOf(img, s) + AsRecords(entities) == RecordsOf(img, s);
    } else {
      var n := |entities| - 1;
      AfterUpsertsRecords(img, scope, entities[..n], s);
      AfterUpsertsRecords(img, scope, entities[..n], scope);
      PutAfterMerge(RecordsOf(img, scope), AsRecords(entities[..n]), entities[n].id, entities[n].payload);
    }
  }

  lemma PutAfterMerge<K, V>(a: map<K, V>, b: map<K, V>, key: K, value: V)
    ensures (a + b)[key := value] == a + b[key := value]
  {
  }

  lemma {:induction false} DeletesTake<S(!new)>(img: Image<S>, scope: string, ids: seq<EntityId>)
    ensures Takes(img, DeleteCommands(scope, ids), AfterDeletes(img, scope, ids))
  {
    if ids == [] {
      TakesNothing(img);
    } else {
      var n := |ids| - 1;
      var before := AfterDeletes(img, scope, ids[..n]);
      DeletesTake(img, scope, ids[..n]);
      DeletePairTakes(before, scope, ids[n]);
      TakesThen(img, DeleteCommands(scope, ids[..n]), before,
                [SRem(NativeIndex(scope), NativeEntity(scope, ids[n])), Del(NativeEntity(scope, ids[n]))],
                AfterDeletes(img, scope, ids));
    }
  }

  lemma {:induction false} UpsertsTake<S(!new)>(img: Image<S>, scope: string, entities: seq<EntityRecord>)
    ensures Takes(img, UpsertCommands(scope, entities), AfterUpserts(img, scope, entities))
  {
    if entities == [] {
      TakesNothing(img);
    } else {
      var n := |entities| - 1;
      var e := entities[n];
      var before := AfterUpserts(img, scope, entities[..n]);
      UpsertsTake(img, scope, entities[..n]);
      UpsertPairTakes(before, scope, e.id, e.payload);
      TakesThen(img, UpsertCommands(scope, entities[..n]), before,
                [Set(NativeEntity(scope, e.id), Record(e.id, e.payload)),
                 SAdd(NativeIndex(scope), NativeEntity(scope, e.id))],
                AfterUpserts(img, scope, entities));
    }
  }

  lemma {:induction false} DeltasTake<S(!new)>(img: Image<S>, deltas: seq<WireDelta>)
    ensures Takes(img, DeltaBody(deltas), AfterDeltas(img, deltas))
  {
    if deltas == [] {
      TakesNothing(img);
    } else {
      var n := |deltas| - 1;
      var d := deltas[n];
      var before := AfterDeltas(img, deltas[..n]);
      var middle := AfterDeletes(before, d.scope, d.deletes);
      DeltasTake(img, deltas[..n]);
      DeletesTake(before, d.scope, d.deletes);
      UpsertsTake(middle, d.scope, d.upserts);
      TakesThen(before, DeleteCommands(d.scope, d.deletes), middle, UpsertCommands(d.scope, d.upserts),
                AfterDeltas(img, deltas));
      TakesThen(img, DeltaBody(deltas[..n]), before, DeltaCommands(d), AfterDeltas(img, deltas));
    }
  }

  lemma {:induction false} ProjectionsTake<S(!new)>(img: Image<S>, projections: seq<WireProjection>)
    ensures Takes(img, ProjectionBody(projections), AfterProjections(img, projections))
  {
    if projections == [] {
      TakesNothing(img);
    } else {
      var n := |projections| - 1;
      var p := projections[n];
      var before := AfterProjections(img, projections[..n]);
      ProjectionsTake(img, projections[..n]);
      UpsertsTake(before, p.scope, p.entities);
      TakesThen(img, ProjectionBody(projections[..n]), before, UpsertCommands(p.scope, p.entities),
                AfterProjections(img, projections));
    }
  }

  lemma {:induction false} LedgersTake<S(!new)>(img: Image<S>, ops: seq<RedisOperation>, next: nat, total: nat)
    ensures Takes(img, LedgerCommands(ops, next, total), img.(ledger := LedgerAfter(img.ledger, ops, next, total)))
  {
    if ops == [] {
      TakesNothing(img);
    } else {
      var n := |ops| - 1;
      var before := img.(ledger := LedgerAfter(img.ledger, ops[..n], next, total));
      LedgersTake(img, ops[..n], next, total);
      SetTakes(before, LedgerCommand(ops[n], next, total),
               WithLedger(before, ops[n].key, CommittedRecord(ops[n], next, total)));
      TakesThen(img, LedgerCommands(ops[..n], next, total), before, [LedgerCommand(ops[n], next, total)],
                img.(ledger := LedgerAfter(img.ledger, ops, next, total)));
    }
  }

  lemma {:induction false} MarkersTake<S(!new)>(img: Image<S>, ops: seq<RedisOperation>)
    ensures Takes(img, MarkerCommands(ops), img.(markers := img.markers + OperationKeys(ops)))
  {
    if ops == [] {
      TakesNothing(img);
      assert img.markers + OperationKeys(ops) == img.markers;
    } else {
      var n := |ops| - 1;
      var before := img.(markers := img.markers + OperationKeys(ops[..n]));
      MarkersTake(img, ops[..n]);
      SetTakes(before, MarkerCommand(ops[n]), WithMarker(before, ops[n].key));
      assert OperationKeys(ops) == OperationKeys(ops[..n]) + {ops[n].key};
      assert WithMarker(before, ops[n].key) == img.(markers := img.markers + OperationKeys(ops));
      TakesThen(img, MarkerCommands(ops[..n]), before, [MarkerCommand(ops[n])],
                img.(markers := img.markers + OperationKeys(ops)));
    }
  }

  /** Interleaving ledgers and markers or listing them apart makes no difference. */
  /** One operation: its ledger record and its marker. */
  lemma OperationTakes<S(!new)>(before: Image<S>, op: RedisOperation, next: nat, total: nat)
    ensures Takes(before, [LedgerCommand(op, next, total), MarkerCommand(op)],
                  WithMarker(WithLedger(before, op.key, CommittedRecord(op, next, total)), op.key))
  {
    var middle := WithLedger(before, op.key, CommittedRecord(op, next, total));
    var after := WithMarker(middle, op.key);
    SetTakes(before, LedgerCommand(op, next, total), middle);
    SetTakes(middle, MarkerCommand(op), after);
    TakesThen(before, [LedgerCommand(op, next, total)], middle, [MarkerCommand(op)], after);
    assert [LedgerCommand<S>(op, next, total)] + [MarkerCommand(op)] ==
           [LedgerCommand(op, next, total), MarkerCommand(op)];
  }

  function AfterOperations<S>(img: Image<S>, ops: seq<RedisOperation>, next: nat, total: nat): Image<S> {
    img.(ledger := LedgerAfter(img.ledger, ops, next, total), markers := img.markers + OperationKeys(ops))
  }

  lemma AfterOneMore<S>(img: Image<S>, ops: seq<RedisOperation>, next: nat, total: nat)
    requires ops != []
    ensures var n := |ops| - 1;
      var before := AfterOperations(img, ops[..n], next, total);
      AfterOperations(img, ops, next, total) ==
      WithMarker(WithLedger(before, ops[n].key, CommittedRecord(ops[n], next, total)), ops[n].key)
  {
    var n := |ops| - 1;
    assert OperationKeys(ops) == OperationKeys(ops[..n]) + {ops[n].key};
    assert img.markers + OperationKeys(ops) == img.markers + OperationKeys(ops[..n]) + {ops[n].key};
  }

  lemma {:induction false} OperationsTake<S(!new)>(img: Image<S>, ops: seq<RedisOperation>, next: nat, total: nat)
    ensures Takes(img, OperationBody(ops, next, total), AfterOperations(img, ops, next, total))
  {
    if ops == [] {
      TakesNothing(img);
      assert img.markers + OperationKeys(ops) == img.markers;
    } else {
      var n := |ops| - 1;
      var before := AfterOperations(img, ops[..n], next, total);
      OperationsTake(img, ops[..n], next, total);
      OperationTakes(before, ops[n], next, total);
      AfterOneMore(img, ops, next, total);
      TakesThen(img, OperationBody(ops[..n], next, total), before,
                [LedgerCommand(ops[n], next, total), MarkerCommand(ops[n])], AfterOperations(img, ops, next, total));
    }
  }

  lemma {:induction false} ManifestsTake<S(!new)>(img: Image<S>, counts: Counts, next: nat)
    ensures Takes(img, ManifestCommands(counts, next), img.(manifests := ManifestsAfter(img.manifests, counts, next)))
  {
    if counts == [] {
      TakesNothing(img);
    } else {
      var n := |counts| - 1;
      var (scope, count) := counts[n];
      var manifest := Manifest(NATIVE_SCHEMA_VERSION, next, count);
      var before := img.(manifests := ManifestsAfter(img.manifests, counts[..n], next));
      ManifestsTake(img, counts[..n], next);
      SetTakes(before, Set(NativeManifest(scope), ManifestOf(manifest)), WithManifest(before, scope, manifest));
      TakesThen(img, ManifestCommands(counts[..n], next), before, [Set(NativeManifest(scope), ManifestOf(manifest))],
                img.(manifests := ManifestsAfter(img.manifests, counts, next)));
    }
  }

  lemma SchemaTakes<S(!new)>(img: Image<S>)
    ensures Takes(img, [Set(NativeSchema, Number(NATIVE_SCHEMA_VERSION))], img.(schema := NATIVE_SCHEMA_VERSION))
  {
    SetTakes(img, Set(NativeSchema, Number(NATIVE_SCHEMA_VERSION)), img.(schema := NATIVE_SCHEMA_VERSION));
  }

  /** The whole pointwise transaction, run on a database that stores `img`. */
  lemma DeltaQueueTakes<S(!new)>(img: Image<S>, expected: nat, deltas: seq<WireDelta>, ops: seq<RedisOperation>)
    ensures Takes(img, DeltaQueue(expected, deltas, ops),
                  Stamped(AfterDeltas(img, deltas), expected, DeltaCounts(deltas), ops))
  {
    var counts := DeltaCounts(deltas);
    var a := img.(schema := NATIVE_SCHEMA_VERSION);
    var b := a.(revision := a.revision + 1);
    var c := AfterDeltas(b, deltas);
    var d := c.(ledger := LedgerAfter(c.ledger, ops, expected + 1, Total(counts)),
                markers := c.markers + OperationKeys(ops));
    var e := d.(manifests := ManifestsAfter(d.manifests, counts, expected + 1));
    SchemaTakes(img);
    IncrTakes(a);
    TakesThen(img, [Set(NativeSchema, Number(NATIVE_SCHEMA_VERSION))], a, [Incr(StateRevision)], b);
    DeltasTake(b, deltas);
    OperationsTake(c, ops, expected + 1, Total(counts));
    ManifestsTake(d, counts, expected + 1);
    TakesThen(c, OperationBody(ops, expected + 1, Total(counts)), d, ManifestCommands(counts, expected + 1), e);
    TakesThen(b, DeltaBody(deltas), c,
              OperationBody(ops, expected + 1, Total(counts)) + ManifestCommands(counts, expected + 1), e);
    var header := [Set(NativeSchema, Number(NATIVE_SCHEMA_VERSION)), Incr(StateRevision)];
    assert header == [Set(NativeSchema, Number(NATIVE_SCHEMA_VERSION))] + [Incr(StateRevision)];
    TakesThen(img, header, b, DeltaBody(deltas) +
              (OperationBody(ops, expected + 1, Total(counts)) + ManifestCommands(counts, expected + 1)), e);
    AfterDeltasShape(img, b, deltas);
    assert e == Stamped(AfterDeltas(img, deltas), expected, counts, ops);
  }

  /** Deltas only touch the records, and touch them the same way whatever the rest of the image is. */
  lemma {:induction false} AfterDeltasShape<S>(img: Image<S>, other: Image<S>, deltas: seq<WireDelta>)
    requires img.records == other.records
    ensures AfterDeltas(other, deltas) == other.(records := AfterDeltas(img, deltas).records)
    ensures AfterDeltas(img, deltas).(records := img.records) == img
  {
    if deltas != [] {
      var n := |deltas| - 1;
      var d := deltas[n];
      AfterDeltasShape(img, other, deltas[..n]);
      var x, y := AfterDeltas(img, deltas[..n]), AfterDeltas(other, deltas[..n]);
      DeletesShape(x, y, d.scope, d.deletes);
      UpsertsShape(AfterDeletes(x, d.scope, d.deletes), AfterDeletes(y, d.scope, d.deletes), d.scope, d.upserts);
    }
  }

  lemma {:induction false} DeletesShape<S>(x: Image<S>, y: Image<S>, scope: string, ids: seq<EntityId>)
    requires x.records == y.records
    ensures AfterDeletes(y, scope, ids) == y.(records := AfterDeletes(x, scope, ids).records)
    ensures AfterDeletes(x, scope, ids).(records := x.records) == x
  {
    if ids != [] {
      DeletesShape(x, y, scope, ids[..|ids| - 1]);
    }
  }

  lemma {:induction false} UpsertsShape<S>(x: Image<S>, y: Image<S>, scope: string, entities: seq<EntityRecord>)
    requires x.records == y.records
    ensures AfterUpserts(y, scope, entities) == y.(records := AfterUpserts(x, scope, entities).records)
    ensures AfterUpserts(x, scope, entities).(records := x.records) == x
  {
    if entities != [] {
      UpsertsShape(x, y, scope, entities[..|entities| - 1]);
    }
  }

  // ---------- Replacing whole scopes ----------

  /** The image once every scope that is about to be replaced has lost its records. */
  function Cleared<S>(img: Image<S>, projections: seq<WireProjection>): Image<S> {
    img.(records := img.records - Scopes(projections))
  }

  function Scopes(projections: seq<WireProjection>): set<string> {
    set i | 0 <= i < |projections| :: projections[i].scope
  }

  function AsKeys(keys: seq<Key>): set<Key> {
    set i | 0 <= i < |keys| :: keys[i]
  }

  /** `stale` lists the members of the indexes of all scopes to be replaced, in whatever order they were read. */
  ghost predicate ListsIndexes<S>(img: Image<S>, projections: seq<WireProjection>, stale: seq<Key>) {
    forall key :: key in AsKeys(stale) <==>
      key.NativeEntity? && key.scope in Scopes(projections) && key.entity in RecordsOf(img, key.scope)
  }

  lemma MinusOneMore<K, V>(m: map<K, V>, keys: set<K>, key: K)
    ensures m - keys - {key} == m - (keys + {key})
  {
  }

  lemma ExecDel<S>(db: Db<Key, S>, commands: seq<Command<Key, S>>, key: Key)
    requires NoneRefused(Exec(db, commands).1)
    ensures Exec(db, commands + [Del(key)]).0 == Exec(db, commands).0 - {key}
    ensures NoneRefused(Exec(db, commands + [Del(key)]).1)
  {
    ExecAppend(db, commands, [Del(key)]);
    ExecOne(Exec(db, commands).0, Del(key));
  }

  lemma {:induction false} ExecDels<S>(db: Db<Key, S>, keys: seq<Key>)
    ensures Exec(db, DelCommands(keys)).0 == db - AsKeys(keys) && NoneRefused(Exec(db, DelCommands(keys)).1)
  {
    if keys == [] {
      assert db - AsKeys(keys) == db;
    } else {
      var n := |keys| - 1;
      ExecDels(db, keys[..n]);
      ExecDel(db, DelCommands(keys[..n]), keys[n]);
      assert AsKeys(keys) == AsKeys(keys[..n]) + {keys[n]};
      MinusOneMore(db, AsKeys(keys[..n]), keys[n]);
    }
  }

  lemma ClearedCell<S>(img: Image<S>, projections: seq<WireProjection>, stale: seq<Key>, key: Key)
    requires ListsIndexes(img, projections, stale)
    ensures Cell(Cleared(img, projections), key) ==
            if key in AsKeys(stale) || key in AsKeys(IndexKeys(projections)) then None else Cell(img, key)
  {
    IndexKeysAre(projections, key);
    assert key in AsKeys(stale) <==>
      key.NativeEntity? && key.scope in Scopes(projections) && key.entity in RecordsOf(img, key.scope);
  }

  /** Deleting the stale entities and then the indexes leaves a database without the replaced scopes; in between, the
      indexes dangle. */
  lemma ClearTakes<S(!new)>(img: Image<S>, projections: seq<WireProjection>, stale: seq<Key>)
    requires ListsIndexes(img, projections, stale)
    ensures Takes(img, DelCommands(stale) + DelCommands(IndexKeys(projections)), Cleared(img, projections))
  {
    forall db: Db<Key, S> | Represents(db, img)
      ensures Represents(Exec(db, DelCommands(stale) + DelCommands(IndexKeys(projections))).0,
                         Cleared(img, projections))
      ensures NoneRefused(Exec(db, DelCommands(stale) + DelCommands(IndexKeys(projections))).1)
      ensures SameFacts(db, Exec(db, DelCommands(stale) + DelCommands(IndexKeys(projections))).0)
    {
      ExecDels(db, stale);
      ExecDels(db - AsKeys(stale), IndexKeys(projections));
      ExecAppend(db, DelCommands(stale), DelCommands(IndexKeys(projections)));
      forall key
        ensures Cell(Cleared(img, projections), key) ==
                if key in AsKeys(stale) || key in AsKeys(IndexKeys(projections)) then None else Cell(img, key)
      {
        ClearedCell(img, projections, stale, key);
      }
    }
  }

  lemma IndexKeysAre(projections: seq<WireProjection>, key: Key)
    ensures key in AsKeys(IndexKeys(projections)) <==> key.NativeIndex? && key.scope in Scopes(projections)
  {
    if key.NativeIndex? && key.scope in Scopes(projections) {
      var i :| 0 <= i < |projections| && projections[i].scope == key.scope;
      assert IndexKeys(projections)[i] == key;
    }
  }

  lemma {:induction false} AfterProjectionsShape<S>(img: Image<S>, other: Image<S>, projections: seq<WireProjection>)
    requires img.records == other.records
    ensures AfterProjections(other, projections) == other.(records := AfterProjections(img, projections).records)
    ensures AfterProjections(img, projections).(records := img.records) == img
  {
    if projections != [] {
      var n := |projections| - 1;
      AfterProjectionsShape(img, other, projections[..n]);
      UpsertsShape(AfterProjections(img, projections[..n]), AfterProjections(other, projections[..n]),
                   projections[n].scope, projections[n].entities);
    }
  }

  function Replaced<S>(img: Image<S>, projections: seq<WireProjection>): Image<S> {
    AfterProjections(Cleared(img, projections), projections)
  }

  /** The whole-scope transaction, run on a database that stores `img` with the index members read beforehand. */
  lemma StateHeadTakes<S(!new)>(img: Image<S>, snapshot: S, c: Image<S>)
    requires c == img.(snapshot := Some(snapshot), revision := img.revision + 1, schema := NATIVE_SCHEMA_VERSION)
    ensures Takes(img, [Set(StateSnapshot, Snapshot(snapshot)), Incr(StateRevision),
                        Set(NativeSchema, Number(NATIVE_SCHEMA_VERSION))], c)
  {
    var a := img.(snapshot := Some(snapshot));
    var b := a.(revision := a.revision + 1);
    assert c == b.(schema := NATIVE_SCHEMA_VERSION);
    var setSnapshot, incr: Command<Key, S>, setSchema := Set(StateSnapshot, Snapshot(snapshot)), Incr(StateRevision),
      Set(NativeSchema, Number(NATIVE_SCHEMA_VERSION));
    SetTakes(img, setSnapshot, a);
    IncrTakes(a);
    SchemaTakes(b);
    TakesThen(img, [setSnapshot], a, [incr], b);
    TakesThen(img, [setSnapshot] + [incr], b, [setSchema], c);
    assert [setSnapshot] + [incr] + [setSchema] == [setSnapshot, incr, setSchema];
  }

  lemma StateQueueTakes<S(!new)>(img: Image<S>, expected: nat, snapshot: S, projections: seq<WireProjection>,
                                 stale: seq<Key>, ops: seq<RedisOperation>)
    requires ListsIndexes(img, projections, stale)
    ensures Takes(img, StateQueue(expected, snapshot, projections, stale, ops),
                  Stamped(Replaced(img, projections), expected, ProjectionCounts(projections),
                          ops).(snapshot := Some(snapshot)))
  {
    var counts := ProjectionCounts(projections);
    var a := img.(snapshot := Some(snapshot));
    var b := a.(revision := a.revision + 1);
    var c := b.(schema := NATIVE_SCHEMA_VERSION);
    var d := Cleared(c, projections);
    var e := AfterProjections(d, projections);
    var f := e.(ledger := LedgerAfter(e.ledger, ops, expected + 1, Total(counts)));
    var g := f.(markers := f.markers + OperationKeys(ops));
    var h := g.(manifests := ManifestsAfter(g.manifests, counts, expected + 1));
    var setSnapshot, incr: Command<Key, S>, setSchema := Set(StateSnapshot, Snapshot(snapshot)), Incr(StateRevision),
      Set(NativeSchema, Number(NATIVE_SCHEMA_VERSION));
    StateHeadTakes(img, snapshot, c);
    StateTailTakes(c, expected, projections, stale, ops);
    var tail := StateTail<S>(expected, projections, stale, ops);
    TakesThen(img, [setSnapshot, incr, setSchema], c, tail, h);
    AfterProjectionsShape(Cleared(img, projections), d, projections);
    assert h == Stamped(Replaced(img, projections), expected, counts, ops).(snapshot := Some(snapshot));
    assert StateQueue(expected, snapshot, projections, stale, ops) == [setSnapshot, incr, setSchema] + tail;
  }

  function StateTail<S>(expected: nat, projections: seq<WireProjection>, stale: seq<Key>,
                        ops: seq<RedisOperation>): seq<Command<Key, S>> {
    var counts := ProjectionCounts(projections);
    DelCommands(stale) + (DelCommands(IndexKeys(projections)) + (ProjectionBody(projections) +
    (LedgerCommands(ops, expected + 1, Total(counts))
     + (MarkerCommands(ops) + ManifestCommands(counts, expected + 1)))))
  }

  lemma StateTailTakes<S(!new)>(c: Image<S>, expected: nat, projections: seq<WireProjection>, stale: seq<Key>,
                                ops: seq<RedisOperation>)
    requires ListsIndexes(c, projections, stale)
    ensures var counts := ProjectionCounts(projections);
      var e := Replaced(c, projections);
      Takes(c, StateTail(expected, projections, stale, ops),
            e.(ledger := LedgerAfter(e.ledger, ops, expected + 1, Total(counts)),
               markers := e.markers + OperationKeys(ops),
               manifests := ManifestsAfter(e.manifests, counts, expected + 1)))
  {
    var counts := ProjectionCounts(projections);
    var d := Cleared(c, projections);
    var e := AfterProjections(d, projections);
    var f := e.(ledger := LedgerAfter(e.ledger, ops, expected + 1, Total(counts)));
    var g := f.(markers := f.markers + OperationKeys(ops));
    var h := g.(manifests := ManifestsAfter(g.manifests, counts, expected + 1));
    ClearTakes(c, projections, stale);
    ProjectionsTake(d, projections);
    LedgersTake(e, ops, expected + 1, Total(counts));
    MarkersTake(f, ops);
    ManifestsTake(g, counts, expected + 1);
    var manifests := ManifestCommands<S>(counts, expected + 1);
    var markers := MarkerCommands<S>(ops);
    var ledgers := LedgerCommands<S>(ops, expected + 1, Total(counts));
    var body := ProjectionBody<S>(projections);
    var dels, indexes := DelCommands<S>(stale), DelCommands<S>(IndexKeys(projections));
    TakesThen(f, markers, g, manifests, h);
    TakesThen(e, ledgers, f, markers + manifests, h);
    TakesThen(d, body, e, ledgers + (markers + manifests), h);
    TakesThen(c, dels + indexes, d, body + (ledgers + (markers + manifests)), h);
    assert dels + (indexes + (body + (ledgers + (markers + manifests)))) ==
           (dels + indexes) + (body + (ledgers + (markers + manifests)));
  }

  // ---------- The records after each form ----------

  ghost predicate ListsAll<S>(img: Image<S>, wires: seq<WireDelta>, current: seq<Projection>) {
    |wires| == |current| &&
    forall i :: 0 <= i < |current| ==> Lists(wires[i], NativeDelta(RecordsOf(img, current[i].scope), current[i]))
  }

  ghost predicate ListsProjections(wires: seq<WireProjection>, current: seq<Projection>) {
    |wires| == |current| && forall i :: 0 <= i < |current| ==> ListsProjection(wires[i], current[i])
  }

  lemma DeltaStep<S>(before: Image<S>, w: WireDelta, p: Projection, scope: string)
    requires Lists(w, NativeDelta(RecordsOf(before, p.scope), p))
    ensures RecordsOf(AfterUpserts(AfterDeletes(before, w.scope, w.deletes), w.scope, w.upserts), scope) ==
            if scope == p.scope then p.records else RecordsOf(before, scope)
  {
    AfterDeletesRecords(before, w.scope, w.deletes, scope);
    AfterUpsertsRecords(AfterDeletes(before, w.scope, w.deletes), w.scope, w.upserts, scope);
    DeltaPatches(RecordsOf(before, p.scope), p);
  }

  lemma {:induction false} DeltaRecords<S>(img: Image<S>, wires: seq<WireDelta>, current: seq<Projection>,
                                           scope: string)
    requires DistinctScopes(current) && ListsAll(img, wires, current)
    ensures RecordsOf(AfterDeltas(img, wires), scope) ==
            if HasScope(current, scope) then Lookup(current, scope) else RecordsOf(img, scope)
  {
    if current != [] {
      var n := |current| - 1;
      var p := current[n];
      var before := AfterDeltas(img, wires[..n]);
      DeltaRecords(img, wires[..n], current[..n], scope);
      DeltaRecords(img, wires[..n], current[..n], p.scope);
      LookupSplit(current, p.scope);
      LookupSplit(current, scope);
      assert Lists(wires[n], NativeDelta(RecordsOf(before, p.scope), p));
      DeltaStep(before, wires[n], p, scope);
    }
  }

  lemma LookupSplit(current: seq<Projection>, scope: string)
    requires current != [] && DistinctScopes(current)
    ensures var n := |current| - 1;
      HasScope(current, scope) == (HasScope(current[..n], scope) || current[n].scope == scope) &&
      (current[n].scope == scope ==> !HasScope(current[..n], scope)) &&
      Lookup(current, scope) == if current[n].scope == scope then current[n].records else Lookup(current[..n], scope)
  {
    var n := |current| - 1;
    LookupLast(current, scope);
    if current[n].scope == scope {
      assert current[n].scope == scope;
    } else if HasScope(current[..n], scope) {
      var i :| 0 <= i < n && current[..n][i].scope == scope;
      assert current[i].scope == scope;
    } else {
      LookupAbsent(current[..n], scope);
      assert forall i :: 0 <= i < n ==> current[i] == current[..n][i];
    }
  }

  lemma NothingPlus(records: Records)
    ensures map[] + records == records
  {
  }

  lemma ProjectionStep<S>(before: Image<S>, w: WireProjection, p: Projection, scope: string)
    requires ListsProjection(w, p) && RecordsOf(before, p.scope) == map[]
    ensures RecordsOf(AfterUpserts(before, w.scope, w.entities), scope) ==
            if scope == p.scope then p.records else RecordsOf(before, scope)
  {
    AfterUpsertsRecords(before, w.scope, w.entities, scope);
    NothingPlus(p.records);
  }

  lemma {:induction false} ProjectionRecords<S>(img: Image<S>, wires: seq<WireProjection>, current: seq<Projection>,
                                                scope: string)
    requires DistinctScopes(current) && ListsProjections(wires, current)
    requires forall i :: 0 <= i < |current| ==> RecordsOf(img, current[i].scope) == map[]
    ensures RecordsOf(AfterProjections(img, wires), scope) ==
            if HasScope(current, scope) then Lookup(current, scope) else RecordsOf(img, scope)
  {
    if current != [] {
      var n := |current| - 1;
      var p := current[n];
      ProjectionRecords(img, wires[..n], current[..n], scope);
      ProjectionRecords(img, wires[..n], current[..n], p.scope);
      LookupSplit(current, scope);
      LookupSplit(current, p.scope);
      ProjectionStep(AfterProjections(img, wires[..n]), wires[n], p, scope);
    }
  }

  lemma ReplacedRecords<S>(img: Image<S>, wires: seq<WireProjection>, current: seq<Projection>, scope: string)
    requires DistinctScopes(current) && ListsProjections(wires, current)
    ensures RecordsOf(Replaced(img, wires), scope) ==
            if HasScope(current, scope) then Lookup(current, scope) else RecordsOf(img, scope)
  {
    forall i | 0 <= i < |current|
      ensures RecordsOf(Cleared(img, wires), current[i].scope) == map[]
    {
      assert wires[i].scope in Scopes(wires);
    }
    ProjectionRecords(Cleared(img, wires), wires, current, scope);
    assert forall i :: 0 <= i < |current| ==> wires[i].scope == current[i].scope;
    assert scope in Scopes(wires) ==> HasScope(current, scope);
  }

  // ---------- The fast form refines the simple one ----------

  lemma CountsAgree<S>(img: Image<S>, wires: seq<WireDelta>, wholes: seq<WireProjection>, current: seq<Projection>)
    requires ListsAll(img, wires, current) && ListsProjections(wholes, current)
    ensures DeltaCounts(wires) == ProjectionCounts(wholes)
  {
  }

  /** Two databases agree on every key on which the images they store agree. */
  lemma CellsDetermine<S>(a: Db<Key, S>, x: Image<S>, b: Db<Key, S>, y: Image<S>)
    requires Represents(a, x) && Represents(b, y) && SameFacts(a, b)
    requires forall key :: key != StateSnapshot ==> Cell(x, key) == Cell(y, key)
    ensures a - {StateSnapshot} == b - {StateSnapshot}
  {
    forall key | key != StateSnapshot
      ensures (key in a <==> key in b) && (key in a ==> a[key] == b[key])
    {
      assert Cell(x, key) == Cell(y, key);
    }
  }

  /** Two images with the same records per scope and equal in everything else but the snapshot fill the same cells. */
  lemma CellsAgree<S>(x: Image<S>, y: Image<S>, key: Key)
    requires key != StateSnapshot && x.(records := y.records, snapshot := y.snapshot) == y
    requires key.NativeIndex? || key.NativeEntity? ==> RecordsOf(x, key.scope) == RecordsOf(y, key.scope)
    ensures Cell(x, key) == Cell(y, key)
  {
    match key
    case NativeIndex(scope) =>
    case NativeEntity(scope, id) =>
    case _ =>
  }

  lemma FormsShape<S>(img: Image<S>, wires: seq<WireDelta>, wholes: seq<WireProjection>)
    ensures AfterDeltas(img, wires).(records := img.records) == img
    ensures Replaced(img, wholes).(records := img.records) == img
  {
    AfterDeltasShape(img, img, wires);
    AfterProjectionsShape(Cleared(img, wholes), Cleared(img, wholes), wholes);
  }

  lemma FormsRecords<S>(img: Image<S>, current: seq<Projection>, wires: seq<WireDelta>, wholes: seq<WireProjection>,
                        scope: string)
    requires DistinctScopes(current) && ListsAll(img, wires, current) && ListsProjections(wholes, current)
    ensures RecordsOf(AfterDeltas(img, wires), scope) == RecordsOf(Replaced(img, wholes), scope)
  {
    DeltaRecords(img, wires, current, scope);
    ReplacedRecords(img, wholes, current, scope);
  }

  lemma FormsAgree<S>(img: Image<S>, counts: Counts, expected: nat, snapshot: S, current: seq<Projection>,
                      wires: seq<WireDelta>, wholes: seq<WireProjection>, ops: seq<RedisOperation>, key: Key)
    requires DistinctScopes(current) && key != StateSnapshot
    requires ListsAll(img, wires, current) && ListsProjections(wholes, current)
    ensures Cell(Stamped(AfterDeltas(img, wires), expected, counts, ops), key) ==
            Cell(Stamped(Replaced(img, wholes), expected, counts, ops).(snapshot := Some(snapshot)), key)
  {
    FormsShape(img, wires, wholes);
    if key.NativeIndex? || key.NativeEntity? {
      FormsRecords(img, current, wires, wholes, key.scope);
    }
    CellsAgree(Stamped(AfterDeltas(img, wires), expected, counts, ops),
               Stamped(Replaced(img, wholes), expected, counts, ops).(snapshot := Some(snapshot)), key);
  }

  /** Publishing only what changed leaves the same revision, schema, records, indexes, manifests, ledger and markers as
      publishing the current projections whole; only the snapshot key differs, and the pointwise form keeps it. */
  lemma PointwiseRefinesWhole<S(!new)>(db: Db<Key, S>, img: Image<S>, expected: nat, snapshot: S,
                                       current: seq<Projection>,
                                       wires: seq<WireDelta>, wholes: seq<WireProjection>, stale: seq<Key>,
                                       ops: seq<RedisOperation>)
    requires Represents(db, img) && DistinctScopes(current)
    requires ListsAll(img, wires, current) && ListsProjections(wholes, current) && ListsIndexes(img, wholes, stale)
    ensures var pointwise, whole :=
        Exec(db, DeltaQueue(expected, wires, ops)).0, Exec(db, StateQueue(expected, snapshot, wholes, stale, ops)).0;
      && pointwise - {StateSnapshot} == whole - {StateSnapshot}
      && (StateSnapshot in pointwise <==> StateSnapshot in db)
      && (StateSnapshot in db ==> pointwise[StateSnapshot] == db[StateSnapshot])
  {
    DeltaQueueTakes(img, expected, wires, ops);
    StateQueueTakes(img, expected, snapshot, wholes, stale, ops);
    CountsAgree(img, wires, wholes, current);
    var counts := DeltaCounts(wires);
    var x := Stamped(AfterDeltas(img, wires), expected, counts, ops);
    var y := Stamped(Replaced(img, wholes), expected, counts, ops).(snapshot := Some(snapshot));
    forall key | key != StateSnapshot
      ensures Cell(x, key) == Cell(y, key)
    {
      FormsAgree(img, counts, expected, snapshot, current, wires, wholes, ops, key);
    }
    CellsDetermine(Exec(db, DeltaQueue(expected, wires, ops)).0, x,
                   Exec(db, StateQueue(expected, snapshot, wholes, stale, ops)).0, y);
    AfterDeltasShape(img, img, wires);
    assert Cell(x, StateSnapshot) == Cell(img, StateSnapshot);
  }
}
