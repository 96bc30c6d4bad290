/** The imperative side of the publish calls: validation, filling the command queue, consuming the replies of EXEC, and
    reading a scope's records back. */
module PublishCalls {
  import opened Wrappers
  import opened Texts
  import opened RedisServer
  import opened KeyLayout
  import opened NativeRecords
  import opened Publish

  const MAX_NATIVE_ENTITY_BYTES: nat := 256 * 1024
  const MAX_NATIVE_ENTITIES: nat := 4096
  const MAX_NATIVE_PROJECTION_BYTES: nat := 8 * 1024 * 1024

  datatype CallError = Invalid | Protocol

  // ---------- Queue length and reply alignment ----------

  function PairCount(deltas: seq<WireDelta>): nat {
    if deltas == [] then 0
    else PairCount(deltas[..|deltas| - 1]) + |deltas[|deltas| - 1].deletes| * 2 + |deltas[|deltas| - 1].upserts| * 2
  }

  function EntityCount(projections: seq<WireProjection>): nat {
    if projections == [] then 0
    else EntityCount(projections[..|projections| - 1]) + |projections[|projections| - 1].entities| * 2
  }

  /** The result count `publish_native_deltas` computes before it looks at the replies. */
  function DeltaResultCount(deltas: seq<WireDelta>, ops: seq<RedisOperation>): nat {
    2 + PairCount(deltas) + |ops| * 2 + |deltas|
  }

  lemma {:induction false} PairLengths<S>(scope: string, ids: seq<EntityId>, entities: seq<EntityRecord>)
    ensures |DeleteCommands<S>(scope, ids)| == |ids| * 2 && |UpsertCommands<S>(scope, entities)| == |entities| * 2
    decreases |ids| + |entities|
  {
    if ids != [] {
      PairLengths<S>(scope, ids[..|ids| - 1], entities);
    } else if entities != [] {
      PairLengths<S>(scope, ids, entities[..|entities| - 1]);
    }
  }

  lemma {:induction false} DeltaBodyLength<S>(deltas: seq<WireDelta>)
    ensures |DeltaBody<S>(deltas)| == PairCount(deltas)
  {
    if deltas != [] {
      var d := deltas[|deltas| - 1];
      DeltaBodyLength<S>(deltas[..|deltas| - 1]);
      PairLengths<S>(d.scope, d.deletes, d.upserts);
    }
  }

  lemma {:induction false} StampLengths<S>(ops: seq<RedisOperation>, counts: Counts, next: nat, total: nat)
    ensures |OperationBody<S>(ops, next, total)| == |ops| * 2 && |ManifestCommands<S>(counts, next)| == |counts|
    ensures |LedgerCommands<S>(ops, next, total)| == |ops| == |MarkerCommands<S>(ops)|
    decreases |ops| + |counts|
  {
    if ops != [] {
      StampLengths<S>(ops[..|ops| - 1], counts, next, total);
    } else if counts != [] {
      StampLengths<S>(ops, counts[..|counts| - 1], next, total);
    }
  }

  /** For every input, the computed result count is the number of queued commands, and INCR is the second of them. */
  lemma DeltaQueueAligned<S>(expected: nat, deltas: seq<WireDelta>, ops: seq<RedisOperation>)
    ensures |DeltaQueue<S>(expected, deltas, ops)| == DeltaResultCount(deltas, ops)
    ensures DeltaQueue<S>(expected, deltas, ops)[1] == Incr(StateRevision)
  {
    DeltaBodyLength<S>(deltas);
    StampLengths<S>(ops, DeltaCounts(deltas), expected + 1, Total(DeltaCounts(deltas)));
  }

  lemma {:induction false} ExecReplyAt<K, S>(db: Db<K, S>, cs: seq<Command<K, S>>, i: nat)
    requires i < |cs|
    ensures |Exec(db, cs).1| == |cs| && Exec(db, cs).1[i] == Step(Exec(db, cs[..i]).0, cs[i]).1
  {
    var n := |cs| - 1;
    ExecReplyCount(db, cs);
    ExecReplyCount(db, cs[..n]);
    if i < n {
      ExecReplyAt(db, cs[..n], i);
      assert cs[..n][..i] == cs[..i];
    }
  }

  /** On a database that stores an image, the second reply of either transaction is the INCR reply, and it is the next
      revision. */
  lemma RevisionReply<S(!new)>(db: Db<Key, S>, img: Image<S>, cs: seq<Command<Key, S>>, first: Command<Key, S>)
    requires Represents(db, img) && |cs| >= 2 && cs[0] == first && cs[1] == Incr(StateRevision)
    requires first.Set? && first.key != StateRevision
    ensures |Exec(db, cs).1| == |cs| && Exec(db, cs).1[1] == Count(img.revision + 1)
  {
    ExecReplyAt(db, cs, 1);
    assert cs[..1] == [first];
    ExecOne(db, first);
    assert StateRevision in db <==> Cell(img, StateRevision).Some?;
  }

  // ---------- Filling the queues ----------

  method QueueDelta<S>(d: WireDelta, queue: seq<Command<Key, S>>) returns (queued: seq<Command<Key, S>>)
    ensures queued == queue + DeltaCommands(d)
  {
    queued := queue;
    for j := 0 to |d.deletes|
      invariant queued == queue + DeleteCommands(d.scope, d.deletes[..j])
    {
      assert d.deletes[..j + 1][..j] == d.deletes[..j];
      var key := NativeEntity(d.scope, d.deletes[j]);
      queued := queued + [SRem(NativeIndex(d.scope), key), Del(key)];
    }
    assert d.deletes[..|d.deletes|] == d.deletes;
    queued := QueueUpserts(d.scope, d.upserts, queued);
  }

  method QueueUpserts<S>(scope: string, entities: seq<EntityRecord>, queue: seq<Command<Key, S>>)
      returns (queued: seq<Command<Key, S>>)
    ensures queued == queue + UpsertCommands(scope, entities)
  {
    queued := queue;
    for j := 0 to |entities|
      invariant queued == queue + UpsertCommands(scope, entities[..j])
    {
      assert entities[..j + 1][..j] == entities[..j];
      var key := NativeEntity(scope, entities[j].id);
      queued := queued + [Set(key, Record(entities[j].id, entities[j].payload)), SAdd(NativeIndex(scope), key)];
    }
    assert entities[..|entities|] == entities;
  }

  method QueueManifests<S>(counts: Counts, next: nat,
                           queue: seq<Command<Key, S>>) returns (queued: seq<Command<Key, S>>)
    ensures queued == queue + ManifestCommands(counts, next)
  {
    queued := queue;
    for i := 0 to |counts|
      invariant queued == queue + ManifestCommands(counts[..i], next)
    {
      assert counts[..i + 1][..i] == counts[..i];
      queued := queued
        + [Set(NativeManifest(counts[i].0), ManifestOf(Manifest(NATIVE_SCHEMA_VERSION, next, counts[i].1)))];
    }
    assert counts[..|counts|] == counts;
  }

  method QueueOperations<S>(ops: seq<RedisOperation>, next: nat, total: nat, queue: seq<Command<Key, S>>)
      returns (queued: seq<Command<Key, S>>)
    ensures queued == queue + OperationBody(ops, next, total)
  {
    queued := queue;
    for i := 0 to |ops|
      invariant queued == queue + OperationBody(ops[..i], next, total)
    {
      assert ops[..i + 1][..i] == ops[..i];
      queued := queued + [LedgerCommand(ops[i], next, total), MarkerCommand(ops[i])];
    }
    assert ops[..|ops|] == ops;
  }

  /** The queue of `publish_native_deltas`, pushed command by command. */
  method QueueDeltas<S>(expected: nat, deltas: seq<WireDelta>,
                        ops: seq<RedisOperation>) returns (queued: seq<Command<Key, S>>)
    ensures queued == DeltaQueue(expected, deltas, ops)
  {
    var counts := DeltaCounts(deltas);
    queued := [Set(NativeSchema, Number(NATIVE_SCHEMA_VERSION)), Incr(StateRevision)];
    ghost var header := queued;
    for i := 0 to |deltas|
      invariant queued == header + DeltaBody(deltas[..i])
    {
      assert deltas[..i + 1][..i] == deltas[..i];
      queued := QueueDelta(deltas[i], queued);
    }
    assert deltas[..|deltas|] == deltas;
    queued := QueueOperations(ops, expected + 1, Total(counts), queued);
    queued := QueueManifests(counts, expected + 1, queued);
  }

  /** The queue of `publish_state_with_projections`: all entities and indexes of the old image go
      before the new ones come. */
  method QueueState<S>(expected: nat, snapshot: S, projections: seq<WireProjection>, stale: seq<Key>,
                       ops: seq<RedisOperation>)
      returns (queued: seq<Command<Key, S>>)
    ensures queued == StateQueue(expected, snapshot, projections, stale, ops)
  {
    queued := [Set(StateSnapshot, Snapshot(snapshot)), Incr(StateRevision),
               Set(NativeSchema, Number(NATIVE_SCHEMA_VERSION))];
    ghost var header := queued;
    queued := QueueDels(stale, queued);
    queued := QueueDels(IndexKeys(projections), queued);
    queued := QueueProjections(projections, queued);
    var counts := ProjectionCounts(projections);
    queued := QueueLedgers(ops, expected + 1, Total(counts), queued);
    queued := QueueManifests(counts, expected + 1, queued);
    Associates(header, DelCommands(stale), DelCommands(IndexKeys(projections)), ProjectionBody(projections),
               LedgerCommands(ops, expected + 1, Total(counts)), MarkerCommands(ops),
                 ManifestCommands(counts, expected + 1));
  }

  lemma Associates<T>(a: seq<T>, b: seq<T>, c: seq<T>, d: seq<T>, e: seq<T>, f: seq<T>, g: seq<T>)
    ensures a + b + c + d + e + f + g == a + (b + (c + (d + (e + (f + g)))))
  {
  }

  method QueueProjections<S>(projections: seq<WireProjection>,
                             queue: seq<Command<Key, S>>) returns (queued: seq<Command<Key, S>>)
    ensures queued == queue + ProjectionBody(projections)
  {
    queued := queue;
    for i := 0 to |projections|
      invariant queued == queue + ProjectionBody(projections[..i])
    {
      assert projections[..i + 1][..i] == projections[..i];
      queued := QueueUpserts(projections[i].scope, projections[i].entities, queued);
    }
    assert projections[..|projections|] == projections;
  }

  method QueueDels<S>(keys: seq<Key>, queue: seq<Command<Key, S>>) returns (queued: seq<Command<Key, S>>)
    ensures queued == queue + DelCommands(keys)
  {
    queued := queue;
    for i := 0 to |keys|
      invariant queued == queue + DelCommands(keys[..i])
    {
      assert keys[..i + 1][..i] == keys[..i];
      queued := queued + [Del(keys[i])];
    }
    assert keys[..|keys|] == keys;
  }

  method QueueLedgers<S>(ops: seq<RedisOperation>, next: nat, total: nat, queue: seq<Command<Key, S>>)
      returns (queued: seq<Command<Key, S>>)
    ensures queued == queue + LedgerCommands(ops, next, total) + MarkerCommands(ops)
  {
    queued := queue;
    for i := 0 to |ops|
      invariant queued == queue + LedgerCommands(ops[..i], next, total)
    {
      assert ops[..i + 1][..i] == ops[..i];
      queued := queued + [LedgerCommand(ops[i], next, total)];
    }
    assert ops[..|ops|] == ops;
    ghost var before := queued;
    for i := 0 to |ops|
      invariant queued == before + MarkerCommands(ops[..i])
    {
      assert ops[..i + 1][..i] == ops[..i];
      queued := queued + [MarkerCommand(ops[i])];
    }
  }

  // ---------- Consuming the replies ----------

  /** `n` replies are taken from the front; each must be a success or an integer. */
  method TakeReplies(values: seq<Reply>, n: nat) returns (r: Result<seq<Reply>, CallError>)
    requires n <= |values|
    ensures r.Success? <==> NoneRefused(values[..n])
    ensures r.Success? ==> r.value == values[n..]
  {
    var rest := values;
    for i := 0 to n
      invariant rest == values[i..] && NoneRefused(values[..i])
    {
      assert values[..n][i] == values[i] == rest[0];
      if rest[0].Refused? {
        return Failure(Protocol);
      }
      rest := rest[1..];
    }
    return Success(rest);
  }

  lemma NoneRefusedSplit(values: seq<Reply>, n: nat)
    requires n <= |values|
    ensures NoneRefused(values) <==> NoneRefused(values[..n]) && NoneRefused(values[n..])
  {
    if NoneRefused(values[..n]) && NoneRefused(values[n..]) {
      forall i | 0 <= i < |values|
        ensures !values[i].Refused?
      {
        if i < n {
          assert values[..n][i] == values[i];
        } else {
          assert values[n..][i - n] == values[i];
        }
      }
    }
  }

  /** The tail of `publish_native_deltas`: one reply per queued command, in queue order; the second is the revision. */
  method ConsumeDeltaReplies(replies: seq<Reply>, deltas: seq<WireDelta>, ops: seq<RedisOperation>)
      returns (r: Result<nat, CallError>)
    ensures r.Success? <==> |replies| == DeltaResultCount(deltas, ops) && NoneRefused(replies) && replies[1].Count?
    ensures r.Success? ==> r.value == replies[1].n
  {
    if |replies| != DeltaResultCount(deltas, ops) {
      return Failure(Protocol);
    }
    NoneRefusedSplit(replies, 1);
    NoneRefusedSplit(replies[1..], 1);
    var values :- TakeReplies(replies, 1);
    if !values[0].Count? {
      return Failure(Protocol);
    }
    var revision := values[0].n;
    values := values[1..];
    ghost var rest := values;
    assert NoneRefused(replies) <==> NoneRefused(rest) by {
      assert replies[1..][..1] == [replies[1]];
    }
    var accepted := ConsumeRest(values, deltas, ops);
    return if accepted then Success(revision) else Failure(Protocol);
  }

  /** Everything behind the revision, in the order in which it was queued. */
  method ConsumeRest(replies: seq<Reply>, deltas: seq<WireDelta>, ops: seq<RedisOperation>) returns (accepted: bool)
    requires |replies| == PairCount(deltas) + |ops| * 2 + |deltas|
    ensures accepted <==> NoneRefused(replies)
  {
    var pairs := PairCount(deltas);
    RefusedWithin(replies, 0, pairs);
    assert replies[0..] == replies && replies[..|replies|] == replies;
    var taken := TakeDeltaReplies(replies, deltas);
    if taken.Success? {
      RefusedWithin(replies, pairs, |ops| * 2);
      taken := TakeReplies(taken.value, |ops| * 2);
    }
    if taken.Success? {
      RefusedWithin(replies, pairs + |ops| * 2, |deltas|);
      taken := TakeReplies(taken.value, |deltas|);
    }
    accepted := taken.Success?;
  }

  /** The replies to the removals and changes of every delta, delta by delta. */
  method TakeDeltaReplies(values: seq<Reply>, deltas: seq<WireDelta>) returns (r: Result<seq<Reply>, CallError>)
    requires PairCount(deltas) <= |values|
    ensures r.Success? <==> NoneRefused(values[..PairCount(deltas)])
    ensures r.Success? ==> r.value == values[PairCount(deltas)..]
  {
    var rest := values;
    ghost var taken := 0;
    for i := 0 to |deltas|
      invariant taken == PairCount(deltas[..i]) && taken <= |values|
      invariant rest == values[taken..] && NoneRefused(values[..taken])
    {
      assert deltas[..i + 1][..i] == deltas[..i];
      PairCountMonotone(deltas, i + 1);
      var n := |deltas[i].deletes| * 2 + |deltas[i].upserts| * 2;
      RefusedWithin(values[..PairCount(deltas)], taken, n);
      assert values[..PairCount(deltas)][taken..][..n] == rest[..n];
      assert values[..PairCount(deltas)][..taken] == values[..taken];
      assert values[..PairCount(deltas)][..taken + n] == values[..taken + n];
      rest :- TakeReplies(rest, n);
      taken := taken + n;
    }
    assert deltas[..|deltas|] == deltas;
    return Success(rest);
  }

  lemma RefusedWithin(rest: seq<Reply>, taken: nat, n: nat)
    requires taken + n <= |rest| && NoneRefused(rest[..taken])
    ensures NoneRefused(rest[taken..][..n]) <==> NoneRefused(rest[..taken + n])
    ensures !NoneRefused(rest[taken..][..n]) ==> !NoneRefused(rest)
    ensures rest[taken..][n..] == rest[taken + n..]
  {
    assert rest[..taken + n] == rest[..taken] + rest[taken..][..n];
    NoneRefusedSplit(rest[..taken + n], taken);
    NoneRefusedSplit(rest, taken + n);
  }

  lemma {:induction false} PairCountMonotone(deltas: seq<WireDelta>, i: nat)
    requires i <= |deltas|
    ensures PairCount(deltas[..i]) <= PairCount(deltas)
  {
    if i < |deltas| {
      PairCountMonotone(deltas[..|deltas| - 1], i);
      assert deltas[..|deltas| - 1][..i] == deltas[..i];
    } else {
      assert deltas[..i] == deltas;
    }
  }

  /** The whole exchange: whatever the deltas and operations, EXEC on a database that stores an image at revision
      `expected` is answered in such a way that the publish call returns `expected + 1`. */
  lemma DeltaExchange<S(!new)>(db: Db<Key, S>, img: Image<S>, deltas: seq<WireDelta>, ops: seq<RedisOperation>)
    requires Represents(db, img)
    ensures var (after, replies) := Exec(db, DeltaQueue(img.revision, deltas, ops));
      && |replies| == DeltaResultCount(deltas, ops) && NoneRefused(replies) && replies[1] == Count(img.revision + 1)
      && Represents(after, Stamped(AfterDeltas(img, deltas), img.revision, DeltaCounts(deltas), ops))
  {
    DeltaQueueAligned<S>(img.revision, deltas, ops);
    DeltaQueueTakes(img, img.revision, deltas, ops);
    RevisionReply(db, img, DeltaQueue(img.revision, deltas, ops), Set(NativeSchema, Number(NATIVE_SCHEMA_VERSION)));
  }

  function StateResultCount(projections: seq<WireProjection>, stale: seq<Key>, ops: seq<RedisOperation>): nat {
    3 + |stale| + |projections| + EntityCount(projections) + |ops| * 2 + |projections|
  }

  lemma {:induction false} StateBodyLength<S>(projections: seq<WireProjection>)
    ensures |ProjectionBody<S>(projections)| == EntityCount(projections)
  {
    if projections != [] {
      var p := projections[|projections| - 1];
      StateBodyLength<S>(projections[..|projections| - 1]);
      PairLengths<S>(p.scope, [], p.entities);
    }
  }

  lemma {:induction false} DelLength<S>(keys: seq<Key>)
    ensures |DelCommands<S>(keys)| == |keys|
  {
    if keys != [] {
      DelLength<S>(keys[..|keys| - 1]);
    }
  }

  /** For every input, the whole-scope form queues as many commands as it counts, and INCR is the second of them. */
  lemma StateQueueAligned<S>(expected: nat, snapshot: S, projections: seq<WireProjection>, stale: seq<Key>,
                             ops: seq<RedisOperation>)
    ensures var queue := StateQueue(expected, snapshot, projections, stale, ops);
      |queue| == StateResultCount(projections, stale, ops) && queue[1] == Incr(StateRevision)
  {
    var counts := ProjectionCounts(projections);
    StateBodyLength<S>(projections);
    DelLength<S>(stale);
    DelLength<S>(IndexKeys(projections));
    StampLengths<S>(ops, counts, expected + 1, Total(counts));
  }

  /** The same exchange for the whole-scope form. */
  lemma StateExchange<S(!new)>(db: Db<Key, S>, img: Image<S>, snapshot: S, projections: seq<WireProjection>,
                               stale: seq<Key>,
                               ops: seq<RedisOperation>)
    requires Represents(db, img) && ListsIndexes(img, projections, stale)
    ensures var (after, replies) := Exec(db, StateQueue(img.revision, snapshot, projections, stale, ops));
      && |replies| == StateResultCount(projections, stale, ops) && NoneRefused(replies)
      && replies[1] == Count(img.revision + 1)
      && Represents(after, Stamped(Replaced(img, projections), img.revision, ProjectionCounts(projections), ops)
                             .(snapshot := Some(snapshot)))
  {
    StateQueueAligned<S>(img.revision, snapshot, projections, stale, ops);
    StateQueueTakes(img, img.revision, snapshot, projections, stale, ops);
    RevisionReply(db, img, StateQueue(img.revision, snapshot, projections, stale, ops),
                  Set(StateSnapshot, Snapshot(snapshot)));
  }

  function Sum(groups: seq<nat>): nat {
    if groups == [] then 0 else groups[0] + Sum(groups[1..])
  }

  /** Groups of replies, taken one behind the other. */
  method TakeGroups(values: seq<Reply>, groups: seq<nat>) returns (accepted: bool)
    requires |values| == Sum(groups)
    ensures accepted <==> NoneRefused(values)
  {
    var rest := values;
    for i := 0 to |groups|
      invariant |rest| == Sum(groups[i..]) && (NoneRefused(values) <==> NoneRefused(rest))
    {
      assert groups[i..][0] == groups[i] && groups[i..][1..] == groups[i + 1..];
      NoneRefusedSplit(rest, groups[i]);
      var taken := TakeReplies(rest, groups[i]);
      if taken.Failure? {
        return false;
      }
      rest := taken.value;
    }
    return true;
  }

  /** The tail of `publish_state_with_projections`: snapshot, revision, schema, stale entities, indexes, new entities,
      ledger, markers, manifests. */
  method ConsumeStateReplies(replies: seq<Reply>, projections: seq<WireProjection>, stale: seq<Key>,
                             ops: seq<RedisOperation>)
      returns (r: Result<nat, CallError>)
    ensures r.Success? <==>
      |replies| == StateResultCount(projections, stale, ops) && NoneRefused(replies) && replies[1].Count?
    ensures r.Success? ==> r.value == replies[1].n
  {
    if |replies| != StateResultCount(projections, stale, ops) {
      return Failure(Protocol);
    }
    NoneRefusedSplit(replies, 1);
    NoneRefusedSplit(replies[1..], 1);
    var values :- TakeReplies(replies, 1);
    if !values[0].Count? {
      return Failure(Protocol);
    }
    assert NoneRefused(replies) <==> NoneRefused(values[1..]) by {
      assert replies[1..][..1] == [replies[1]];
    }
    var groups := [1, |stale|, |projections|, EntityCount(projections), |ops|, |ops|, |projections|];
    SevenGroups(groups);
    var accepted := TakeGroups(values[1..], groups);
    return if accepted then Success(values[0].n) else Failure(Protocol);
  }

  lemma SevenGroups(g: seq<nat>)
    requires |g| == 7
    ensures Sum(g) == g[0] + g[1] + g[2] + g[3] + g[4] + g[5] + g[6]
  {
    assert Sum(g) == g[0] + Sum(g[1..]);
    assert Sum(g[1..]) == g[1] + Sum(g[2..]) by { assert g[1..][1..] == g[2..]; }
    assert Sum(g[2..]) == g[2] + Sum(g[3..]) by { assert g[2..][1..] == g[3..]; }
    assert Sum(g[3..]) == g[3] + Sum(g[4..]) by { assert g[3..][1..] == g[4..]; }
    assert Sum(g[4..]) == g[4] + Sum(g[5..]) by { assert g[4..][1..] == g[5..]; }
    assert Sum(g[5..]) == g[5] + Sum(g[6..]) by { assert g[5..][1..] == g[6..]; }
    assert Sum(g[6..]) == g[6] by { assert g[6..][1..] == []; }
  }

  /** What a pipelined transaction is answered with: MULTI, each queued command, EXEC. */
  datatype Response = Accepted | Queued | Replies(replies: Option<seq<Reply>>) | ErrorResponse | OtherResponse

  /** `execute_batched_transaction`: the answer to EXEC, unless MULTI failed, a command was not queued, or EXEC was
      refused; an aborted EXEC is an answer. */
  method BatchedResult(responses: seq<Response>) returns (r: Result<Response, CallError>)
    ensures r.Success? <==>
      && |responses| >= 2 && responses[0].Accepted? && !responses[|responses| - 1].ErrorResponse?
      && forall i :: 1 <= i < |responses| - 1 ==> responses[i].Queued?
    ensures r.Success? ==> r.value == responses[|responses| - 1]
  {
    if |responses| < 2 || !responses[0].Accepted? {
      return Failure(Protocol);
    }
    var result := responses[|responses| - 1];
    for i := 1 to |responses| - 1
      invariant forall j :: 1 <= j < i ==> responses[j].Queued?
    {
      if !responses[i].Queued? {
        return Failure(Protocol);
      }
    }
    return if result.ErrorResponse? then Failure(Protocol) else Success(result);
  }

  // ---------- Validation ----------

  predicate ValidId(id: string) {
    !IsBlank(id) && Utf8Size(id) <= 256
  }

  predicate ValidEntityId(e: EntityId) {
    ValidKind(e.kind) && ValidId(e.id)
  }

  predicate ValidEntity(size: EntityRecord -> nat, e: EntityRecord) {
    ValidEntityId(e.id) && size(e) <= MAX_NATIVE_ENTITY_BYTES
  }

  predicate NamesScope(scope: string) {
    !IsBlank(scope)
  }

  function UpsertIds(d: WireDelta): seq<EntityId> {
    seq(|d.upserts|, i requires 0 <= i < |d.upserts| => d.upserts[i].id)
  }

  ghost predicate Distinct<T>(s: seq<T>) {
    forall i, j :: 0 <= i < j < |s| ==> s[i] != s[j]
  }

  function UpsertBytes(size: EntityRecord -> nat, entities: seq<EntityRecord>): nat {
    if entities == [] then 0 else UpsertBytes(size, entities[..|entities| - 1]) + size(entities[|entities| - 1])
  }

  function DeltaBytes(size: EntityRecord -> nat, deltas: seq<WireDelta>): nat {
    if deltas == [] then 0
    else DeltaBytes(size, deltas[..|deltas| - 1]) + UpsertBytes(size, deltas[|deltas| - 1].upserts)
  }

  ghost predicate DeltaAccepted(size: EntityRecord -> nat, d: WireDelta) {
    && NamesScope(d.scope)
    && (forall i :: 0 <= i < |d.upserts| ==> ValidEntity(size, d.upserts[i]))
    && (forall i :: 0 <= i < |d.deletes| ==> ValidEntityId(d.deletes[i]))
    && Distinct(UpsertIds(d) + d.deletes)
  }

  function ScopesOf(deltas: seq<WireDelta>): seq<string> {
    seq(|deltas|, i requires 0 <= i < |deltas| => deltas[i].scope)
  }

  ghost predicate DeltasAccepted(size: EntityRecord -> nat, deltas: seq<WireDelta>) {
    && Distinct(ScopesOf(deltas))
    && Total(DeltaCounts(deltas)) <= MAX_NATIVE_ENTITIES
    && DeltaBytes(size, deltas) <= MAX_NATIVE_PROJECTION_BYTES
    && EachAccepted(size, deltas)
  }

  ghost predicate EachAccepted(size: EntityRecord -> nat, deltas: seq<WireDelta>) {
    forall i :: 0 <= i < |deltas| ==> DeltaAccepted(size, deltas[i])
  }

  lemma EachAppend(size: EntityRecord -> nat, front: seq<WireDelta>, d: WireDelta)
    ensures EachAccepted(size, front + [d]) <==> EachAccepted(size, front) && DeltaAccepted(size, d)
  {
    var all := front + [d];
    assert all[|front|] == d;
    assert forall i :: 0 <= i < |front| ==> all[i] == front[i];
  }

  lemma {:induction false} UpsertBytesMonotone(size: EntityRecord -> nat, entities: seq<EntityRecord>, i: nat)
    requires i <= |entities|
    ensures UpsertBytes(size, entities[..i]) <= UpsertBytes(size, entities)
  {
    if i < |entities| {
      UpsertBytesMonotone(size, entities[..|entities| - 1], i);
      assert entities[..|entities| - 1][..i] == entities[..i];
    } else {
      assert entities[..i] == entities;
    }
  }

  /** Accepting one more delta means: the earlier ones were accepted, its scope is new, and its own checks and the
      running totals pass. */
  lemma AcceptOneMore(size: EntityRecord -> nat, front: seq<WireDelta>, d: WireDelta)
    ensures DeltasAccepted(size, front + [d]) <==>
      && DeltasAccepted(size, front) && DeltaAccepted(size, d) && d.scope !in ScopesOf(front)
      && Total(DeltaCounts(front)) + d.entityCount <= MAX_NATIVE_ENTITIES
      && DeltaBytes(size, front) + UpsertBytes(size, d.upserts) <= MAX_NATIVE_PROJECTION_BYTES
  {
    TotalsAppend(size, front, d);
    EachAppend(size, front, d);
    DistinctAppend(ScopesOf(front), d.scope);
  }

  lemma TotalsAppend(size: EntityRecord -> nat, front: seq<WireDelta>, d: WireDelta)
    ensures ScopesOf(front + [d]) == ScopesOf(front) + [d.scope]
    ensures Total(DeltaCounts(front + [d])) == Total(DeltaCounts(front)) + d.entityCount
    ensures DeltaBytes(size, front + [d]) == DeltaBytes(size, front) + UpsertBytes(size, d.upserts)
  {
    var all := front + [d];
    assert all[..|front|] == front;
    assert DeltaCounts(all)[..|front|] == DeltaCounts(front);
  }

  lemma {:induction false} AcceptedPrefix(size: EntityRecord -> nat, deltas: seq<WireDelta>, i: nat)
    requires i <= |deltas| && DeltasAccepted(size, deltas)
    ensures DeltasAccepted(size, deltas[..i])
  {
    if i < |deltas| {
      var n := |deltas| - 1;
      assert deltas == deltas[..n] + [deltas[n]];
      AcceptOneMore(size, deltas[..n], deltas[n]);
      AcceptedPrefix(size, deltas[..n], i);
      assert deltas[..n][..i] == deltas[..i];
    } else {
      assert deltas[..i] == deltas;
    }
  }

  /** The checks `publish_native_deltas` makes before it talks to Redis: it accepts exactly the well-formed deltas. */
  method ValidateDeltas(size: EntityRecord -> nat, deltas: seq<WireDelta>) returns (r: Outcome<CallError>)
    ensures r.Pass? <==> DeltasAccepted(size, deltas)
  {
    var totalEntities, bytes := 0, 0;
    var seenScopes: set<string> := {};
    for i := 0 to |deltas|
      invariant DeltasAccepted(size, deltas[..i])
      invariant totalEntities == Total(DeltaCounts(deltas[..i]))
      invariant bytes == DeltaBytes(size, deltas[..i])
      invariant forall s :: s in seenScopes <==> s in ScopesOf(deltas[..i])
    {
      var d := deltas[i];
      assert deltas[..i + 1] == deltas[..i] + [d];
      TotalsAppend(size, deltas[..i], d);
      var checked := ValidateNext(size, deltas[..i], d, seenScopes, totalEntities, bytes);
      if checked.Failure? {
        if DeltasAccepted(size, deltas) {
          AcceptedPrefix(size, deltas, i + 1);
        }
        return Fail(Invalid);
      }
      seenScopes := seenScopes + {d.scope};
      totalEntities := totalEntities + d.entityCount;
      bytes := checked.value;
    }
    assert deltas[..|deltas|] == deltas;
    return Pass;
  }

  /** One round of the validation loop. */
  method ValidateNext(size: EntityRecord -> nat, ghost front: seq<WireDelta>, d: WireDelta, seenScopes: set<string>,
                      totalEntities: nat, bytes: nat) returns (r: Result<nat, CallError>)
    requires DeltasAccepted(size, front) && (d.scope in seenScopes <==> d.scope in ScopesOf(front))
    requires totalEntities == Total(DeltaCounts(front)) && bytes == DeltaBytes(size, front)
    ensures r.Success? <==> DeltasAccepted(size, front + [d])
    ensures r.Success? ==> r.value == DeltaBytes(size, front + [d])
  {
    AcceptOneMore(size, front, d);
    TotalsAppend(size, front, d);
    if !NamesScope(d.scope) || d.scope in seenScopes || totalEntities + d.entityCount > MAX_NATIVE_ENTITIES {
      return Failure(Invalid);
    }
    r := ValidateDelta(size, d, bytes);
  }

  lemma AcceptedSplits(size: EntityRecord -> nat, d: WireDelta)
    ensures DeltaAccepted(size, d) <==>
      && NamesScope(d.scope) && UpsertsAccepted(size, d.upserts)
      && (forall i :: 0 <= i < |d.deletes| ==> ValidEntityId(d.deletes[i]))
      && Distinct(UpsertIds(d) + d.deletes)
  {
    if Distinct(UpsertIds(d) + d.deletes) {
      forall i, j | 0 <= i < j < |d.upserts|
        ensures d.upserts[i].id != d.upserts[j].id
      {
        assert (UpsertIds(d) + d.deletes)[i] != (UpsertIds(d) + d.deletes)[j];
      }
    }
  }

  lemma DistinctAppend<T>(s: seq<T>, x: T)
    ensures Distinct(s + [x]) <==> Distinct(s) && x !in s
  {
    var t := s + [x];
    if Distinct(t) {
      forall i, j | 0 <= i < j < |s|
        ensures s[i] != s[j]
      {
        assert t[i] != t[j];
      }
      forall i | 0 <= i < |s|
        ensures s[i] != x
      {
        assert t[i] != t[|s|];
      }
    }
  }

  lemma DistinctPrefix<T>(s: seq<T>, i: nat)
    requires i <= |s|
    ensures Distinct(s) ==> Distinct(s[..i])
  {
  }

  /** The entity checks of one delta: upserts first, then deletes, sharing one set of seen keys. */
  method ValidateDelta(size: EntityRecord -> nat, d: WireDelta, bytes: nat) returns (r: Result<nat, CallError>)
    ensures NamesScope(d.scope) && bytes <= MAX_NATIVE_PROJECTION_BYTES ==>
      (r.Success? <==> DeltaAccepted(size, d) && bytes + UpsertBytes(size, d.upserts) <= MAX_NATIVE_PROJECTION_BYTES)
    ensures r.Success? ==> r.value == bytes + UpsertBytes(size, d.upserts)
  {
    AcceptedSplits(size, d);
    var total :- ValidateUpserts(size, d.upserts, bytes);
    var ids := UpsertIds(d);
    var seen := set i | 0 <= i < |ids| :: ids[i];
    assert ids + d.deletes[..0] == ids;
    for i := 0 to |d.deletes|
      invariant forall id :: id in seen <==> id in ids + d.deletes[..i]
      invariant Distinct(ids + d.deletes[..i])
      invariant forall j :: 0 <= j < i ==> ValidEntityId(d.deletes[j])
    {
      assert ids + d.deletes[..i + 1] == ids + d.deletes[..i] + [d.deletes[i]];
      DistinctAppend(ids + d.deletes[..i], d.deletes[i]);
      if !ValidEntityId(d.deletes[i]) || d.deletes[i] in seen {
        DistinctPrefix(ids + d.deletes, |ids| + i + 1);
        assert (ids + d.deletes)[..|ids| + i + 1] == ids + d.deletes[..i + 1];
        return Failure(Invalid);
      }
      seen := seen + {d.deletes[i]};
    }
    assert d.deletes[..|d.deletes|] == d.deletes;
    return Success(total);
  }

  ghost predicate UpsertsAccepted(size: EntityRecord -> nat, entities: seq<EntityRecord>) {
    && (forall i :: 0 <= i < |entities| ==> ValidEntity(size, entities[i]))
    && DistinctIds(entities)
  }

  method ValidateUpserts(size: EntityRecord -> nat, entities: seq<EntityRecord>,
                         bytes: nat) returns (r: Result<nat, CallError>)
    ensures bytes <= MAX_NATIVE_PROJECTION_BYTES ==>
      (r.Success? <==>
       UpsertsAccepted(size, entities) && bytes + UpsertBytes(size, entities) <= MAX_NATIVE_PROJECTION_BYTES)
    ensures r.Success? ==> UpsertsAccepted(size, entities) && r.value == bytes + UpsertBytes(size, entities)
  {
    var total := bytes;
    var seen: set<EntityId> := {};
    for i := 0 to |entities|
      invariant total == bytes + UpsertBytes(size, entities[..i])
      invariant bytes <= MAX_NATIVE_PROJECTION_BYTES ==> total <= MAX_NATIVE_PROJECTION_BYTES
      invariant forall id :: id in seen <==> HasId(entities[..i], id)
      invariant UpsertsAccepted(size, entities[..i])
    {
      var e := entities[i];
      assert entities[..i + 1] == entities[..i] + [e] && entities[..i + 1][..i] == entities[..i];
      AcceptUpsert(size, entities[..i], e);
      if !ValidEntity(size, e) || e.id in seen {
        AcceptedUpsertsPrefix(size, entities, i + 1);
        return Failure(Invalid);
      }
      seen := seen + {e.id};
      UpsertBytesMonotone(size, entities, i + 1);
      total := total + size(e);
      if total > MAX_NATIVE_PROJECTION_BYTES {
        return Failure(Invalid);
      }
    }
    assert entities[..|entities|] == entities;
    return Success(total);
  }

  ghost predicate HasId(entities: seq<EntityRecord>, id: EntityId) {
    exists i :: 0 <= i < |entities| && entities[i].id == id
  }

  lemma AcceptUpsert(size: EntityRecord -> nat, front: seq<EntityRecord>, e: EntityRecord)
    ensures UpsertsAccepted(size, front + [e]) <==>
      UpsertsAccepted(size, front) && ValidEntity(size, e) && !HasId(front, e.id)
    ensures forall id :: HasId(front + [e], id) <==> HasId(front, id) || id == e.id
  {
    var all := front + [e];
    assert all[|front|] == e;
    assert forall i :: 0 <= i < |front| ==> all[i] == front[i];
  }

  lemma AcceptedUpsertsPrefix(size: EntityRecord -> nat, entities: seq<EntityRecord>, i: nat)
    requires i <= |entities|
    ensures UpsertsAccepted(size, entities) ==> UpsertsAccepted(size, entities[..i])
  {
  }

  predicate IsNameChar(c: char) {
    IsKindChar(c) || c == '/'
  }

  predicate ValidOperationName(name: string) {
    0 < |name| <= 128 && forall i :: 0 <= i < |name| ==> IsNameChar(name[i])
  }

  predicate ValidOperation(op: RedisOperation) {
    ValidOperationKey(op.key) && ValidOperationName(op.name)
  }

  function KeysInOrder(ops: seq<RedisOperation>): seq<string> {
    seq(|ops|, i requires 0 <= i < |ops| => ops[i].key)
  }

  /** The operation checks, the same for both forms of publish: digests as keys, plain names, and no key twice. */
  method ValidateOperations(ops: seq<RedisOperation>) returns (r: Outcome<CallError>)
    ensures r.Pass? <==> (forall i :: 0 <= i < |ops| ==> ValidOperation(ops[i])) && Distinct(KeysInOrder(ops))
  {
    for i := 0 to |ops|
      invariant forall j :: 0 <= j < i ==> ValidOperation(ops[j])
    {
      if !ValidOperation(ops[i]) {
        return Fail(Invalid);
      }
    }
    var seen: set<string> := {};
    for i := 0 to |ops|
      invariant forall k :: k in seen <==> k in KeysInOrder(ops)[..i]
      invariant Distinct(KeysInOrder(ops)[..i])
    {
      var keys := KeysInOrder(ops);
      assert keys[..i + 1] == keys[..i] + [ops[i].key];
      DistinctAppend(keys[..i], ops[i].key);
      if ops[i].key in seen {
        DistinctPrefix(keys, i + 1);
        return Fail(Invalid);
      }
      seen := seen + {ops[i].key};
    }
    assert KeysInOrder(ops)[..|ops|] == KeysInOrder(ops);
    return Pass;
  }

  /** The uniqueness checks never reject what `native_deltas` computes for distinct scopes: a walk over its map and its
      set lists every key once, and no key is both changed and removed. */
  lemma NativeDeltasAreUnique(cache: seq<Projection>, current: seq<Projection>, wires: seq<WireDelta>)
    requires DistinctScopes(current) && |wires| == |current|
    requires forall i :: 0 <= i < |wires| ==>
      Lists(wires[i], NativeDeltas(cache, current)[i]) && DistinctIds(wires[i].upserts) && Distinct(wires[i].deletes)
    ensures Distinct(ScopesOf(wires))
    ensures forall i :: 0 <= i < |wires| ==> Distinct(UpsertIds(wires[i]) + wires[i].deletes)
  {
    forall i, j | 0 <= i < j < |wires|
      ensures ScopesOf(wires)[i] != ScopesOf(wires)[j]
    {
      assert Lists(wires[i], NativeDeltas(cache, current)[i]) && Lists(wires[j], NativeDeltas(cache, current)[j]);
    }
    forall i | 0 <= i < |wires|
      ensures Distinct(UpsertIds(wires[i]) + wires[i].deletes)
    {
      var w, p := wires[i], current[i];
      DeltaPatches(Lookup(cache, p.scope), p);
      var d := NativeDelta(Lookup(cache, p.scope), p);
      forall a, b | 0 <= a < b < |UpsertIds(w) + w.deletes|
        ensures (UpsertIds(w) + w.deletes)[a] != (UpsertIds(w) + w.deletes)[b]
      {
        if a < |w.upserts| <= b {
          RecordsHold(w.upserts, a);
          assert w.deletes[b - |w.upserts|] in AsIds(w.deletes);
        }
      }
    }
  }

  lemma {:induction false} RecordsHold(entities: seq<EntityRecord>, i: nat)
    requires i < |entities|
    ensures entities[i].id in AsRecords(entities)
    ensures DistinctIds(entities) ==> AsRecords(entities)[entities[i].id] == entities[i].payload
  {
    var n := |entities| - 1;
    if i < n {
      assert DistinctIds(entities) ==> DistinctIds(entities[..n]);
      RecordsHold(entities[..n], i);
    }
  }

  // ---------- Reading a scope back ----------

  /** `native_entities`: one GET per member of the index, in whatever order SMEMBERS lists them; members without an
      entity key are skipped. */
  method NativeEntities<S>(db: Db<Key, S>, members: seq<Key>) returns (entities: seq<EntityRecord>)
    ensures AsRecords(entities) == Fetched(db, members)
  {
    entities := [];
    for i := 0 to |members|
      invariant AsRecords(entities) == Fetched(db, members[..i])
    {
      assert members[..i + 1][..i] == members[..i];
      if members[i] in db && db[members[i]].Record? {
        var entity := EntityRecord(db[members[i]].id, db[members[i]].payload);
        AsRecordsAppend(entities, entity);
        entities := entities + [entity];
      }
    }
    assert members[..|members|] == members;
  }

  lemma AsRecordsAppend(entities: seq<EntityRecord>, e: EntityRecord)
    ensures AsRecords(entities + [e]) == AsRecords(entities)[e.id := e.payload]
  {
    assert (entities + [e])[..|entities|] == entities;
  }

  function Fetched<S>(db: Db<Key, S>, members: seq<Key>): Records {
    if members == [] then map[]
    else
      var before := Fetched(db, members[..|members| - 1]);
      var key := members[|members| - 1];
      if key in db && db[key].Record? then before[db[key].id := db[key].payload] else before
  }

  lemma {:induction false} FetchedIs<S>(db: Db<Key, S>, img: Image<S>, scope: string, members: seq<Key>)
    requires Represents(db, img)
    requires forall i :: 0 <= i < |members| ==> members[i] in IndexOf(scope, RecordsOf(img, scope))
    ensures forall id :: id in Fetched(db, members) <==> NativeEntity(scope, id) in AsKeys(members)
    ensures forall id :: id in Fetched(db, members) ==>
      id in RecordsOf(img, scope) && Fetched(db, members)[id] == RecordsOf(img, scope)[id]
  {
    if members != [] {
      var n := |members| - 1;
      FetchedIs(db, img, scope, members[..n]);
      var key := members[n];
      assert key in db <==> Cell(img, key).Some?;
      assert AsKeys(members) == AsKeys(members[..n]) + {key};
    }
  }

  /** Reading back an index returns exactly the records of its scope. */
  lemma IndexFetches<S>(db: Db<Key, S>, img: Image<S>, scope: string, members: seq<Key>)
    requires Represents(db, img) && AsKeys(members) == IndexOf(scope, RecordsOf(img, scope))
    ensures Fetched(db, members) == RecordsOf(img, scope)
  {
    assert forall i :: 0 <= i < |members| ==> members[i] in AsKeys(members);
    FetchedIs(db, img, scope, members);
  }
}
