/** What a publish leaves in Redis, key by key: for each published scope its records, its index and its manifest, for
    each operation its ledger record and its marker, and everything else as it was. */
module PublishedKeys {
  import opened Wrappers
  import opened RedisServer
  import opened KeyLayout
  import opened NativeRecords
  import opened Publish
  import opened Remote

  function RecordCount(projections: seq<Projection>): nat {
    if projections == [] then 0
    else RecordCount(projections[..|projections| - 1]) + |projections[|projections| - 1].records|
  }

  ghost predicate DistinctOperations(ops: seq<RedisOperation>) {
    forall i, j :: 0 <= i < j < |ops| ==> ops[i].key != ops[j].key
  }

  predicate Holds<S(==)>(db: Db<Key, S>, key: Key, value: Value<Key, S>) {
    key in db && db[key] == value
  }

  /** The keys of a scope hold exactly the projection. */
  ghost predicate HoldsScope<S>(db: Db<Key, S>, p: Projection, revision: nat) {
    && Holds(db, NativeManifest(p.scope), ManifestOf(Manifest(2, revision, |p.records|)))
    && (forall id :: NativeEntity(p.scope, id) in db <==> id in p.records)
    && (forall id :: id in p.records ==> Holds(db, NativeEntity(p.scope, id), Record(id, p.records[id])))
    && (if p.records == map[] then NativeIndex(p.scope) !in db
        else Holds(db, NativeIndex(p.scope), Members(set id | id in p.records :: NativeEntity(p.scope, id))))
  }

  ghost predicate HoldsOperation<S>(db: Db<Key, S>, op: RedisOperation, revision: nat, total: nat) {
    && Holds(db, OperationLedger(op.key), Ledger(LedgerRecord(op.name, op.scope, Committed, revision, total, None)))
    && Holds(db, OperationMarker(op.key), Marker)
  }

  /** The key belongs to none of the scopes and operations, and is none of the keys of the state. */
  predicate IsOther(key: Key, projections: seq<Projection>, ops: seq<RedisOperation>) {
    match key
    case NativeEntity(scope, _) => !HasScope(projections, scope)
    case NativeIndex(scope) => !HasScope(projections, scope)
    case NativeManifest(scope) => !HasScope(projections, scope)
    case OperationLedger(operation) => operation !in OperationKeys(ops)
    case OperationMarker(operation) => operation !in OperationKeys(ops)
    case StateSnapshot => false
    case StateRevision => false
    case NativeSchema => false
    case _ => true
  }

  predicate Same<S(==)>(a: Db<Key, S>, b: Db<Key, S>, key: Key) {
    (key in a <==> key in b) && (key in a ==> a[key] == b[key])
  }

  // ---------- Stamps ----------

  lemma {:induction false} CommittedRecordOf(ledger: map<string, LedgerRecord>, ops: seq<RedisOperation>, next: nat,
                                             total: nat, i: nat)
    requires DistinctOperations(ops) && i < |ops|
    ensures var after := LedgerAfter(ledger, ops, next, total);
      ops[i].key in after && after[ops[i].key] == LedgerRecord(ops[i].name, ops[i].scope, Committed, next, total, None)
  {
    var n := |ops| - 1;
    if i < n {
      CommittedRecordOf(ledger, ops[..n], next, total, i);
    }
  }

  lemma {:induction false} OtherRecords(ledger: map<string, LedgerRecord>, ops: seq<RedisOperation>, next: nat,
                                        total: nat,
                                        key: string)
    requires key !in OperationKeys(ops)
    ensures var after := LedgerAfter(ledger, ops, next, total);
      (key in after <==> key in ledger) && (key in ledger ==> after[key] == ledger[key])
  {
    if ops != [] {
      var n := |ops| - 1;
      assert ops[n].key in OperationKeys(ops);
      assert OperationKeys(ops[..n]) <= OperationKeys(ops) by {
        assert forall j :: 0 <= j < n ==> ops[..n][j] == ops[j];
      }
      OtherRecords(ledger, ops[..n], next, total, key);
    }
  }

  ghost predicate DistinctCounts(counts: Publish.Counts) {
    forall i, j :: 0 <= i < j < |counts| ==> counts[i].0 != counts[j].0
  }

  lemma {:induction false} ManifestOfScope(manifests: map<string, Manifest>, counts: Publish.Counts, next: nat, i: nat)
    requires DistinctCounts(counts) && i < |counts|
    ensures var after := ManifestsAfter(manifests, counts, next);
      counts[i].0 in after && after[counts[i].0] == Manifest(2, next, counts[i].1)
  {
    var n := |counts| - 1;
    if i < n {
      ManifestOfScope(manifests, counts[..n], next, i);
    }
  }

  lemma {:induction false} OtherManifests(manifests: map<string, Manifest>, counts: Publish.Counts, next: nat,
                                          scope: string)
    requires forall i :: 0 <= i < |counts| ==> counts[i].0 != scope
    ensures var after := ManifestsAfter(manifests, counts, next);
      (scope in after <==> scope in manifests) && (scope in manifests ==> after[scope] == manifests[scope])
  {
    if counts != [] {
      OtherManifests(manifests, counts[..|counts| - 1], next, scope);
    }
  }

  lemma {:induction false} TotalIs(counts: Publish.Counts, projections: seq<Projection>)
    requires counts == WholeCounts(projections)
    ensures Publish.Total(counts) == RecordCount(projections)
  {
    if projections != [] {
      var n := |projections| - 1;
      assert counts[..n] == WholeCounts(projections[..n]);
      TotalIs(counts[..n], projections[..n]);
    }
  }

  // ---------- From the content to the keys ----------

  /** A content that a publish of the projections and operations leaves. */
  ghost predicate Carries<S>(img: Image<S>, after: Image<S>, projections: seq<Projection>, ops: seq<RedisOperation>) {
    && after.revision == img.revision + 1 && after.schema == 2
    && after.manifests == ManifestsAfter(img.manifests, WholeCounts(projections), img.revision + 1)
    && after.ledger == LedgerAfter(img.ledger, ops, img.revision + 1, RecordCount(projections))
    && after.markers == img.markers + OperationKeys(ops)
    && forall scope :: RecordsOf(after, scope) ==
         if HasScope(projections, scope) then Lookup(projections, scope) else RecordsOf(img, scope)
  }

  lemma ScopeIsHeld<S>(db: Db<Key, S>, img: Image<S>, after: Image<S>, projections: seq<Projection>,
                       ops: seq<RedisOperation>, i: nat)
    requires Represents(db, after) && Carries(img, after, projections, ops) && DistinctScopes(projections)
    requires i < |projections|
    ensures HoldsScope(db, projections[i], img.revision + 1)
  {
    var p := projections[i];
    LookupIs(projections, i);
    ManifestOfScope(img.manifests, WholeCounts(projections), img.revision + 1, i);
    assert Cell(after, NativeManifest(p.scope)) == Some(ManifestOf(Manifest(2, img.revision + 1, |p.records|)));
    assert RecordsOf(after, p.scope) == p.records;
    forall id
      ensures NativeEntity(p.scope, id) in db <==> id in p.records
      ensures id in p.records ==> Holds(db, NativeEntity(p.scope, id), Record(id, p.records[id]))
    {
      assert Cell(after, NativeEntity(p.scope, id)) == if id in p.records then Some(Record(id, p.records[id]))
             else None;
    }
    assert Cell(after, NativeIndex(p.scope)) ==
           if p.records == map[] then None else Some(Members(IndexOf(p.scope, p.records)));
  }

  lemma OperationIsHeld<S>(db: Db<Key, S>, img: Image<S>, after: Image<S>, projections: seq<Projection>,
                           ops: seq<RedisOperation>, i: nat)
    requires Represents(db, after) && Carries(img, after, projections, ops) && DistinctOperations(ops) && i < |ops|
    ensures HoldsOperation(db, ops[i], img.revision + 1, RecordCount(projections))
  {
    CommittedRecordOf(img.ledger, ops, img.revision + 1, RecordCount(projections), i);
    assert ops[i].key in OperationKeys(ops);
    assert Cell(after, OperationLedger(ops[i].key)).Some? && Cell(after, OperationMarker(ops[i].key)) == Some(Marker);
  }

  lemma OtherIsKept<S>(before: Db<Key, S>, db: Db<Key, S>, img: Image<S>, after: Image<S>, projections: seq<Projection>,
                       ops: seq<RedisOperation>, key: Key)
    requires Represents(before, img) && Represents(db, after) && SameFacts(before, db)
    requires Carries(img, after, projections, ops) && IsOther(key, projections, ops)
    ensures Same(before, db, key)
  {
    if key.NativeManifest? {
      OtherManifests(img.manifests, WholeCounts(projections), img.revision + 1, key.scope);
    } else if key.OperationLedger? {
      OtherRecords(img.ledger, ops, img.revision + 1, RecordCount(projections), key.operation);
    }
    if Replicated(key) {
      assert Cell(img, key) == Cell(after, key);
    }
  }

  /** Everything that a publish leaves. */
  ghost predicate Writes<S(!new)>(before: Db<Key, S>, after: Db<Key, S>, revision: nat, projections: seq<Projection>,
                            ops: seq<RedisOperation>) {
    && (forall i :: 0 <= i < |projections| ==> HoldsScope(after, projections[i], revision))
    && (forall i :: 0 <= i < |ops| ==> HoldsOperation(after, ops[i], revision, RecordCount(projections)))
    && Holds(after, StateRevision, Number(revision)) && Holds(after, NativeSchema, Number(2))
    && forall key :: IsOther(key, projections, ops) ==> Same(before, after, key)
  }

  lemma CarriedIsWritten<S(!new)>(before: Db<Key, S>, db: Db<Key, S>, img: Image<S>, after: Image<S>,
                                  projections: seq<Projection>,
                            ops: seq<RedisOperation>)
    requires Represents(before, img) && Represents(db, after) && SameFacts(before, db)
    requires Carries(img, after, projections, ops) && DistinctScopes(projections) && DistinctOperations(ops)
    ensures Writes(before, db, img.revision + 1, projections, ops)
  {
    forall i | 0 <= i < |projections|
      ensures HoldsScope(db, projections[i], img.revision + 1)
    {
      ScopeIsHeld(db, img, after, projections, ops, i);
    }
    forall i | 0 <= i < |ops|
      ensures HoldsOperation(db, ops[i], img.revision + 1, RecordCount(projections))
    {
      OperationIsHeld(db, img, after, projections, ops, i);
    }
    forall key | IsOther(key, projections, ops)
      ensures Same(before, db, key)
    {
      OtherIsKept(before, db, img, after, projections, ops, key);
    }
    assert Cell(after, StateRevision) == Some(Number(img.revision + 1)) && Cell(after, NativeSchema) == Some(Number(2));
  }

  lemma DeltasCarry<S>(img: Image<S>, cache: seq<Projection>, projections: seq<Projection>, ops: seq<RedisOperation>)
    requires DistinctScopes(projections)
    requires forall i :: 0 <= i < |projections| ==>
               Lookup(cache, projections[i].scope) == RecordsOf(img, projections[i].scope)
    ensures var after := PublishedDeltas(img, NativeDeltas(cache, projections), ops);
      Carries(img, after, projections, ops) && after.snapshot == img.snapshot
  {
    var deltas := NativeDeltas(cache, projections);
    var after := PublishedDeltas(img, deltas, ops);
    PatchAllShape(img, deltas);
    assert Remote.Counts(deltas) == WholeCounts(projections);
    TotalIs(Remote.Counts(deltas), projections);
    forall scope
      ensures RecordsOf(after, scope) ==
              if HasScope(projections, scope) then Lookup(projections, scope) else RecordsOf(img, scope)
    {
      DeltasCarryScope(img, cache, projections, ops, scope);
    }
  }

  lemma DeltasCarryScope<S>(img: Image<S>, cache: seq<Projection>, projections: seq<Projection>,
                            ops: seq<RedisOperation>, scope: string)
    requires DistinctScopes(projections)
    requires forall i :: 0 <= i < |projections| ==>
               Lookup(cache, projections[i].scope) == RecordsOf(img, projections[i].scope)
    ensures RecordsOf(PublishedDeltas(img, NativeDeltas(cache, projections), ops), scope) ==
            if HasScope(projections, scope) then Lookup(projections, scope) else RecordsOf(img, scope)
  {
    PatchAllRecords(img, cache, projections, scope);
  }

  lemma WholeCarries<S>(img: Image<S>, snapshot: S, projections: seq<Projection>)
    requires DistinctScopes(projections)
    ensures var after := PublishedWhole(img, snapshot, projections);
      Carries(img, after, projections, []) && after.snapshot == Some(snapshot)
  {
    var after := PublishedWhole(img, snapshot, projections);
    ReplaceAllShape(img, projections);
    TotalIs(WholeCounts(projections), projections);
    forall scope
      ensures RecordsOf(after, scope) ==
              if HasScope(projections, scope) then Lookup(projections, scope) else RecordsOf(img, scope)
    {
      ReplaceAllRecords(img, projections, scope);
      assert RecordsOf(after, scope) == RecordsOf(ReplaceAll(img, projections), scope);
    }
  }

  // ---------- Main results ----------

  /** The pointwise publish against a cache that agrees with Redis on the published scopes. */
  lemma DeltasWrite<S(!new)>(db: Db<Key, S>, img: Image<S>, cache: seq<Projection>, projections: seq<Projection>,
                             wires: seq<WireDelta>, ops: seq<RedisOperation>)
    requires Represents(db, img) && DistinctScopes(projections) && DistinctOperations(ops)
    requires forall i :: 0 <= i < |projections| ==>
               Lookup(cache, projections[i].scope) == RecordsOf(img, projections[i].scope)
    requires var deltas := NativeDeltas(cache, projections);
      |wires| == |deltas| && forall i :: 0 <= i < |wires| ==> Lists(wires[i], deltas[i])
    ensures var after := Exec(db, DeltaQueue(img.revision, wires, ops)).0;
      && Writes(db, after, img.revision + 1, projections, ops) && Same(db, after, StateSnapshot)
  {
    var deltas := NativeDeltas(cache, projections);
    var after := PublishedDeltas(img, deltas, ops);
    DeltaTransaction(db, img, deltas, wires, ops);
    DeltaQueueTakes(img, img.revision, wires, ops);
    DeltasCarry(img, cache, projections, ops);
    CarriedIsWritten(db, Exec(db, DeltaQueue(img.revision, wires, ops)).0, img, after, projections, ops);
    assert Cell(after, StateSnapshot) == Cell(img, StateSnapshot);
  }

  /** The whole-scope publish. */
  lemma WholeWrites<S(!new)>(db: Db<Key, S>, img: Image<S>, snapshot: S, projections: seq<Projection>,
                             wires: seq<WireProjection>, stale: seq<Key>)
    requires Represents(db, img) && DistinctScopes(projections)
    requires ListsProjections(wires, projections) && ListsIndexes(img, wires, stale)
    ensures var after := Exec(db, StateQueue(img.revision, snapshot, wires, stale, [])).0;
      && Writes(db, after, img.revision + 1, projections, []) && Holds(after, StateSnapshot, Snapshot(snapshot))
  {
    var after := PublishedWhole(img, snapshot, projections);
    WholeTransaction(db, img, snapshot, projections, wires, stale);
    StateQueueTakes(img, img.revision, snapshot, wires, stale, []);
    WholeCarries(img, snapshot, projections);
    CarriedIsWritten(db, Exec(db, StateQueue(img.revision, snapshot, wires, stale, [])).0, img, after, projections, []);
    assert Cell(after, StateSnapshot) == Some(Snapshot(snapshot));
  }

  /** Markers are set to expire after seven days. */
  lemma {:induction false} MarkersExpire<S>(ops: seq<RedisOperation>, next: nat, total: nat, i: nat)
    requires i < |ops|
    ensures SetExpiring(OperationMarker(ops[i].key), Marker, 604_800) in OperationBody<S>(ops, next, total)
    ensures SetExpiring(OperationMarker(ops[i].key), Marker, 604_800) in MarkerCommands<S>(ops)
  {
    var n := |ops| - 1;
    if i < n {
      MarkersExpire<S>(ops[..n], next, total, i);
    }
  }
}
