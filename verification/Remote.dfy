/** What a publish call does to the content of the namespace, stated on the content alone, and the fact that the queued
    transaction does exactly that. */
module Remote {
  import opened Wrappers
  import opened RedisServer
  import opened KeyLayout
  import opened NativeRecords
  import opened Publish

  function Counts(deltas: seq<Delta>): Publish.Counts {
    seq(|deltas|, i requires 0 <= i < |deltas| => (deltas[i].scope, deltas[i].entityCount))
  }

  function WholeCounts(projections: seq<Projection>): Publish.Counts {
    seq(|projections|, i requires 0 <= i < |projections| => (projections[i].scope, |projections[i].records|))
  }

  function PatchAll<S>(img: Image<S>, deltas: seq<Delta>): Image<S> {
    if deltas == [] then img
    else
      var before := PatchAll(img, deltas[..|deltas| - 1]);
      var last := deltas[|deltas| - 1];
      WithRecords(before, last.scope, Patch(RecordsOf(before, last.scope), last))
  }

  function ReplaceAll<S>(img: Image<S>, projections: seq<Projection>): Image<S> {
    if projections == [] then img
    else
      WithRecords(ReplaceAll(img, projections[..|projections| - 1]), projections[|projections| - 1].scope,
                  projections[|projections| - 1].records)
  }

  /** The namespace after a pointwise publish that took effect. */
  function PublishedDeltas<S>(img: Image<S>, deltas: seq<Delta>, ops: seq<RedisOperation>): Image<S> {
    Stamped(PatchAll(img, deltas), img.revision, Counts(deltas), ops)
  }

  /** The namespace after a whole-state publish that took effect. */
  function PublishedWhole<S>(img: Image<S>, snapshot: S, projections: seq<Projection>): Image<S> {
    Stamped(ReplaceAll(img, projections), img.revision, WholeCounts(projections), []).(snapshot := Some(snapshot))
  }

  lemma {:induction false} PatchAllShape<S>(img: Image<S>, deltas: seq<Delta>)
    ensures PatchAll(img, deltas).(records := img.records) == img
  {
    if deltas != [] {
      PatchAllShape(img, deltas[..|deltas| - 1]);
    }
  }

  lemma {:induction false} ReplaceAllShape<S>(img: Image<S>, projections: seq<Projection>)
    ensures ReplaceAll(img, projections).(records := img.records) == img
  {
    if projections != [] {
      ReplaceAllShape(img, projections[..|projections| - 1]);
    }
  }

  /** Replacing scopes sets exactly the listed ones. */
  lemma {:induction false} ReplaceAllRecords<S>(img: Image<S>, projections: seq<Projection>, scope: string)
    requires DistinctScopes(projections)
    ensures RecordsOf(ReplaceAll(img, projections), scope) ==
            if HasScope(projections, scope) then Lookup(projections, scope) else RecordsOf(img, scope)
  {
    if projections != [] {
      ReplaceAllRecords(img, projections[..|projections| - 1], scope);
      LookupSplit(projections, scope);
    }
  }

  lemma PatchStep<S>(before: Image<S>, previous: Records, p: Projection, scope: string)
    requires previous == RecordsOf(before, p.scope)
    ensures var d := NativeDelta(previous, p);
      RecordsOf(WithRecords(before, d.scope, Patch(RecordsOf(before, d.scope), d)), scope) ==
      if scope == p.scope then p.records else RecordsOf(before, scope)
  {
    DeltaPatches(previous, p);
  }

  /** Publishing the deltas against a cache that holds what the namespace holds sets exactly the listed scopes. */
  lemma {:induction false} PatchAllRecords<S>(img: Image<S>, cache: seq<Projection>, current: seq<Projection>,
                                              scope: string)
    requires DistinctScopes(current)
    requires forall i :: 0 <= i < |current| ==> Lookup(cache, current[i].scope) == RecordsOf(img, current[i].scope)
    ensures RecordsOf(PatchAll(img, NativeDeltas(cache, current)), scope) ==
            if HasScope(current, scope) then Lookup(current, scope) else RecordsOf(img, scope)
  {
    if current != [] {
      var front, p := current[..|current| - 1], current[|current| - 1];
      PatchAllRecords(img, cache, front, p.scope);
      PatchAllRecords(img, cache, front, scope);
      DeltasLast(cache, current);
      LookupSplit(current, p.scope);
      assert Lookup(cache, p.scope) == RecordsOf(PatchAll(img, NativeDeltas(cache, front)), p.scope);
      LastDelta(img, NativeDeltas(cache, front), Lookup(cache, p.scope), p, scope);
      LookupSplit(current, scope);
    }
  }

  lemma DeltasLast(cache: seq<Projection>, current: seq<Projection>)
    requires current != []
    ensures var n := |current| - 1;
      NativeDeltas(cache, current) ==
      NativeDeltas(cache, current[..n]) + [NativeDelta(Lookup(cache, current[n].scope), current[n])]
  {
  }

  /** One more delta against what the namespace holds sets one more scope. */
  lemma LastDelta<S>(img: Image<S>, deltas: seq<Delta>, previous: Records, p: Projection, scope: string)
    requires previous == RecordsOf(PatchAll(img, deltas), p.scope)
    ensures RecordsOf(PatchAll(img, deltas + [NativeDelta(previous, p)]), scope) ==
            if scope == p.scope then p.records else RecordsOf(PatchAll(img, deltas), scope)
  {
    PatchLast(img, deltas, NativeDelta(previous, p));
    PatchStep(PatchAll(img, deltas), previous, p, scope);
  }

  lemma PatchLast<S>(img: Image<S>, deltas: seq<Delta>, d: Delta)
    ensures var before := PatchAll(img, deltas);
      PatchAll(img, deltas + [d]) == WithRecords(before, d.scope, Patch(RecordsOf(before, d.scope), d))
  {
    assert (deltas + [d])[..|deltas|] == deltas;
  }

  /** Two images whose records agree scope by scope and that are otherwise equal are stored by the same databases. */
  lemma SameDatabases<S>(db: Db<Key, S>, x: Image<S>, y: Image<S>)
    requires Represents(db, x) && x.(records := y.records) == y
    requires forall scope :: RecordsOf(x, scope) == RecordsOf(y, scope)
    ensures Represents(db, y)
  {
    forall key
      ensures Cell(x, key) == Cell(y, key)
    {
    }
  }

  lemma {:induction false} PatchAllIsAfterDeltas<S>(img: Image<S>, deltas: seq<Delta>, wires: seq<WireDelta>,
                                                    scope: string)
    requires |wires| == |deltas| && forall i :: 0 <= i < |wires| ==> Lists(wires[i], deltas[i])
    ensures RecordsOf(AfterDeltas(img, wires), scope) == RecordsOf(PatchAll(img, deltas), scope)
  {
    if deltas != [] {
      var n := |deltas| - 1;
      var before := AfterDeltas(img, wires[..n]);
      PatchAllIsAfterDeltas(img, deltas[..n], wires[..n], scope);
      PatchAllIsAfterDeltas(img, deltas[..n], wires[..n], deltas[n].scope);
      AfterDeletesRecords(before, wires[n].scope, wires[n].deletes, scope);
      AfterUpsertsRecords(AfterDeletes(before, wires[n].scope, wires[n].deletes), wires[n].scope, wires[n].upserts,
                          scope);
    }
  }

  lemma DeltaImages<S>(img: Image<S>, deltas: seq<Delta>, wires: seq<WireDelta>, ops: seq<RedisOperation>)
    requires |wires| == |deltas| && forall i :: 0 <= i < |wires| ==> Lists(wires[i], deltas[i])
    ensures var x := Stamped(AfterDeltas(img, wires), img.revision, DeltaCounts(wires), ops);
      var y := PublishedDeltas(img, deltas, ops);
      x.(records := y.records) == y && forall scope :: RecordsOf(x, scope) == RecordsOf(y, scope)
  {
    assert DeltaCounts(wires) == Counts(deltas);
    AfterDeltasShape(img, img, wires);
    PatchAllShape(img, deltas);
    StampedAlike(AfterDeltas(img, wires), PatchAll(img, deltas), img.revision, Counts(deltas), ops);
    var x := Stamped(AfterDeltas(img, wires), img.revision, DeltaCounts(wires), ops);
    var y := PublishedDeltas(img, deltas, ops);
    forall scope
      ensures RecordsOf(x, scope) == RecordsOf(y, scope)
    {
      PatchAllIsAfterDeltas(img, deltas, wires, scope);
      assert RecordsOf(x, scope) == RecordsOf(AfterDeltas(img, wires), scope);
      assert RecordsOf(y, scope) == RecordsOf(PatchAll(img, deltas), scope);
    }
  }

  /** Stamps do not look at the records. */
  lemma StampedAlike<S>(a: Image<S>, b: Image<S>, expected: nat, counts: Publish.Counts, ops: seq<RedisOperation>)
    requires a.(records := b.records) == b
    ensures var x, y := Stamped(a, expected, counts, ops), Stamped(b, expected, counts, ops);
      x.(records := y.records) == y && x.records == a.records && y.records == b.records
  {
  }

  /** The pointwise transaction, however it lists the deltas, turns the namespace into `PublishedDeltas`. */
  lemma DeltaTransaction<S(!new)>(db: Db<Key, S>, img: Image<S>, deltas: seq<Delta>, wires: seq<WireDelta>,
                                  ops: seq<RedisOperation>)
    requires Represents(db, img)
    requires |wires| == |deltas| && forall i :: 0 <= i < |wires| ==> Lists(wires[i], deltas[i])
    ensures Represents(Exec(db, DeltaQueue(img.revision, wires, ops)).0, PublishedDeltas(img, deltas, ops))
  {
    DeltaQueueTakes(img, img.revision, wires, ops);
    DeltaImages(img, deltas, wires, ops);
    SameDatabases(Exec(db, DeltaQueue(img.revision, wires, ops)).0,
                  Stamped(AfterDeltas(img, wires), img.revision, DeltaCounts(wires), ops),
                    PublishedDeltas(img, deltas, ops));
  }

  /** The whole-state transaction turns the namespace into `PublishedWhole`. */
  lemma WholeTransaction<S(!new)>(db: Db<Key, S>, img: Image<S>, snapshot: S, projections: seq<Projection>,
                                  wires: seq<WireProjection>, stale: seq<Key>)
    requires Represents(db, img) && DistinctScopes(projections)
    requires ListsProjections(wires, projections) && ListsIndexes(img, wires, stale)
    ensures Represents(Exec(db, StateQueue(img.revision, snapshot, wires, stale, [])).0,
                       PublishedWhole(img, snapshot, projections))
  {
    StateQueueTakes(img, img.revision, snapshot, wires, stale, []);
    WholeImages(img, snapshot, projections, wires);
    SameDatabases(Exec(db, StateQueue(img.revision, snapshot, wires, stale, [])).0,
                  Stamped(Replaced(img, wires), img.revision, ProjectionCounts(wires), []).(snapshot := Some(snapshot)),
                  PublishedWhole(img, snapshot, projections));
  }

  lemma WholeImages<S>(img: Image<S>, snapshot: S, projections: seq<Projection>, wires: seq<WireProjection>)
    requires DistinctScopes(projections) && ListsProjections(wires, projections)
    ensures var x := Stamped(Replaced(img, wires), img.revision, ProjectionCounts(wires),
                             []).(snapshot := Some(snapshot));
      var y := PublishedWhole(img, snapshot, projections);
      x.(records := y.records) == y && forall scope :: RecordsOf(x, scope) == RecordsOf(y, scope)
  {
    assert ProjectionCounts(wires) == WholeCounts(projections);
    AfterProjectionsShape(Cleared(img, wires), Cleared(img, wires), wires);
    ReplaceAllShape(img, projections);
    var x := Stamped(Replaced(img, wires), img.revision, ProjectionCounts(wires), []).(snapshot := Some(snapshot));
    var y := PublishedWhole(img, snapshot, projections);
    assert x.(records := y.records) == y by {
      assert Replaced(img, wires) == img.(records := Replaced(img, wires).records);
      assert ReplaceAll(img, projections) == img.(records := ReplaceAll(img, projections).records);
    }
    forall scope
      ensures RecordsOf(x, scope) == RecordsOf(y, scope)
    {
      ReplacedRecords(img, wires, projections, scope);
      ReplaceAllRecords(img, projections, scope);
    }
  }
}
