/** What the size limit of the log means for single steps: exactly when a mirror can finish, and that no step changes a
    log that is full while committed entries wait. */
module ReplicationRoom {
  import opened Wrappers
  import opened Operations
  import opened OutboxLog
  import opened Stores
  import opened Replication
  import opened ReplicationSafety
  import opened ReplicationProgress

  /** The bytes that completing the entries appends. */
  function ClosingBytes(size: Event -> nat, entries: seq<Entry>): nat {
    if entries == [] then 0 else size(Event.Completed(entries[0].key)) + 1 + ClosingBytes(size, entries[1..])
  }

  lemma {:induction false} ClosingSplits(size: Event -> nat, a: seq<Entry>, b: seq<Entry>)
    ensures ClosingBytes(size, a + b) == ClosingBytes(size, a) + ClosingBytes(size, b)
    ensures EntryBytes(size, a + b) == EntryBytes(size, a) + EntryBytes(size, b)
  {
    if a == [] {
      assert a + b == b;
    } else {
      assert (a + b)[1..] == a[1..] + b;
      ClosingSplits(size, a[1..], b);
    }
  }

  /** A batch can be completed exactly when all its events fit. */
  lemma {:induction false} CompletesIffRoom<S>(tools: Tools<S>, w: World<S>, entries: seq<Entry>)
    requires w.logBytes <= MAX_OUTBOX_BYTES
    ensures var (t, r) := CompleteAll(tools, w, entries);
      && (r.Pass? <==> w.logBytes + ClosingBytes(tools.size, entries) <= MAX_OUTBOX_BYTES)
      && (r.Pass? ==> t.logBytes == w.logBytes + ClosingBytes(tools.size, entries))
      && t.logBytes <= MAX_OUTBOX_BYTES
    decreases |entries|
  {
    if entries != [] {
      var (next, r) := Complete(tools, w, entries[0].key);
      if r.Pass? {
        CompletesIffRoom(tools, next, entries[1..]);
      }
    }
  }

  /** A mirror drains its batch exactly when the standby can run it and the log has room for its `Completed` events: the
      compaction that would make room comes only afterwards. */
  lemma MirrorDrainsIff<S>(tools: Tools<S>, w: World<S>)
    requires w.logBytes <= MAX_OUTBOX_BYTES
    ensures var batch := Batch(w.pending, true);
      Mirror(tools, w).1.Pass? <==>
      MirrorReplay(tools, w, batch).1 && w.logBytes + ClosingBytes(tools.size, batch) <= MAX_OUTBOX_BYTES
    ensures Mirror(tools, w).1.Pass? ==>
            Mirror(tools, w).0.logBytes == EntryBytes(tools.size, Mirror(tools, w).0.pending)
  {
    var batch := Batch(w.pending, true);
    var (replayed, ok) := MirrorReplay(tools, w, batch);
    MirrorReplayShape(tools, w, batch);
    assert replayed.logBytes == w.logBytes;
    CompletesIffRoom(tools, replayed, batch);
    assert Mirror(tools, w).1.Pass? <==> ok && CompleteAll(tools, replayed, batch).1.Pass?;
  }

  // ---------- A refused completion is final ----------

  /** The next entry to be completed has no room for its `Completed` event. */
  ghost predicate Stuck<S>(tools: Tools<S>, w: World<S>) {
    var batch := Batch(w.pending, true);
    batch != [] && w.logBytes + tools.size(Event.Completed(batch[0].key)) + 1 > MAX_OUTBOX_BYTES
  }

  lemma {:induction false} FilterWithoutFirst(entries: seq<Entry>, committed: bool)
    requires DistinctKeys(entries) && Filter(entries, committed) != []
    ensures Filter(Without(entries, Filter(entries, committed)[0].key), committed) == Filter(entries, committed)[1..]
  {
    var all := Filter(entries, committed);
    FilterIn(entries, committed);
    HeadDiffers(entries);
    if entries[0].redisCommitted == committed {
      WithoutAbsent(entries[1..], entries[0].key);
    } else {
      assert all[0] in entries[1..] by {
        FilterIn(entries[1..], committed);
        assert all[0] in Filter(entries[1..], committed);
      }
      FilterWithoutFirst(entries[1..], committed);
      var rest := Without(entries[1..], all[0].key);
      assert ([entries[0]] + rest)[1..] == rest;
    }
  }

  /** Completions that run out of room stop in front of the next entry of the batch. */
  lemma {:induction false} RefusedMeansStuck<S>(tools: Tools<S>, w: World<S>, entries: seq<Entry>)
    requires DistinctKeys(w.pending) && entries <= Filter(w.pending, true)
    requires CompleteAll(tools, w, entries).1.Fail?
    ensures Stuck(tools, CompleteAll(tools, w, entries).0)
    decreases |entries|
  {
    var key := entries[0].key;
    var all := Filter(w.pending, true);
    assert entries[0] == all[0];
    var (next, r) := Complete(tools, w, key);
    if r.Fail? {
      assert Batch(w.pending, true)[0] == all[0];
    } else {
      WithoutKeys(w.pending, key);
      FilterWithoutFirst(w.pending, true);
      assert entries[1..] <= all[1..];
      RefusedMeansStuck(tools, next, entries[1..]);
    }
  }

  /** A mirror that was refused a completion leaves a log in which the next one is refused as well. */
  lemma RefusedMirrorSticks<S>(tools: Tools<S>, w: World<S>)
    requires DistinctKeys(w.pending) && Mirror(tools, w).1 == Fail(OutboxFailed)
    ensures Stuck(tools, Mirror(tools, w).0)
  {
    var batch := Batch(w.pending, true);
    MirrorReplayShape(tools, w, batch);
    RefusedMeansStuck(tools, MirrorReplay(tools, w, batch).0, batch);
  }

  /** An event about an operation: entries and completions are keyed by the request digest. */
  ghost predicate EventFor<S>(tools: Tools<S>, event: Event) {
    match event
    case Pending(e) => e.key == tools.key(e.operation)
    case Completed(key) => exists op :: tools.key(op) == key
  }

  /** Digests have one length and a `Completed` event carries nothing else, so no event is shorter. */
  ghost predicate ShortestCompleted<S>(tools: Tools<S>) {
    forall event, op :: EventFor(tools, event) ==> tools.size(Event.Completed(tools.key(op))) <= tools.size(event)
  }

  /** No event at all fits. */
  ghost predicate Full<S>(tools: Tools<S>, w: World<S>) {
    forall event :: EventFor(tools, event) ==> w.logBytes + tools.size(event) + 1 > MAX_OUTBOX_BYTES
  }

  lemma NoRoomIsFull<S>(tools: Tools<S>, w: World<S>, op: Operation)
    requires ShortestCompleted(tools)
    requires w.logBytes + tools.size(Event.Completed(tools.key(op))) + 1 > MAX_OUTBOX_BYTES
    ensures Full(tools, w)
  {
  }

  lemma StuckIsFull<S>(tools: Tools<S>, w: World<S>)
    requires ShortestCompleted(tools) && Mutations(tools, w.pending) && Stuck(tools, w)
    ensures Full(tools, w) && AnyWith(w.pending, true)
  {
    var batch := Batch(w.pending, true);
    BatchIn(w.pending, true);
    assert batch[0] in batch;
    NoRoomIsFull(tools, w, batch[0].operation);
  }

  // ---------- A full log stays full ----------

  /** The log is what it was. */
  ghost predicate SameLog<S>(w: World<S>, t: World<S>) {
    t.pending == w.pending && t.logBytes == w.logBytes
  }

  ghost predicate Jammed<S>(tools: Tools<S>, w: World<S>) {
    Full(tools, w) && AnyWith(w.pending, true)
  }

  lemma FullComplete<S>(tools: Tools<S>, w: World<S>, e: Entry)
    requires Full(tools, w) && IsMutation(tools, e)
    ensures Complete(tools, w, e.key) == (w, Fail(OutboxFailed))
  {
    assert EventFor(tools, Event.Completed(tools.key(e.operation)));
  }

  lemma FullMark<S>(tools: Tools<S>, w: World<S>, key: string)
    requires Full(tools, w) && Mutations(tools, w.pending)
    ensures Mark(tools, w, key) == (w, Fail(OutboxFailed))
  {
    FindIn(w.pending, key);
    var found := Find(w.pending, key);
    if found.Some? {
      assert IsMutation(tools, found.value);
      assert EventFor(tools, Event.Pending(found.value.(redisCommitted := true)));
    }
  }

  lemma FullQueue<S>(tools: Tools<S>, w: World<S>, op: Operation)
    requires Full(tools, w) && !HasKey(w.pending, tools.key(op))
    ensures Queue(tools, w, Entry(tools.key(op), op, false)) == (w, Fail(OutboxFailed))
  {
    assert EventFor(tools, Event.Pending(Entry(tools.key(op), op, false)));
  }

  lemma JammedMirror<S>(tools: Tools<S>, w: World<S>)
    requires Jammed(tools, w) && Mutations(tools, w.pending)
    ensures var (t, r) := Mirror(tools, w); r.Fail? && t == w.(store := t.store, trace := t.trace)
  {
    var batch := Batch(w.pending, true);
    BatchIn(w.pending, true);
    assert batch[0] in batch;
    MirrorReplayShape(tools, w, batch);
    FullComplete(tools, MirrorReplay(tools, w, batch).0, batch[0]);
  }

  lemma JammedReconcile<S>(tools: Tools<S>, w: World<S>)
    requires Jammed(tools, w) && Mutations(tools, w.pending)
    ensures SameLog(w, Reconcile(tools, w).0) && Reconcile(tools, w).1.Fail?
  {
    JammedMirror(tools, ReplayCommittedIntoActive(tools, w).0);
  }

  lemma JammedTick<S>(tools: Tools<S>, w: World<S>, offered: Option<Link>)
    requires Jammed(tools, w) && Mutations(tools, w.pending)
    ensures SameLog(w, Tick(tools, w, offered).0)
  {
    if w.link.None? {
      if offered.Some? {
        JammedAttach(tools, w, offered.value);
      }
    } else if w.mode == RedisPrimary {
      AskShape(w);
      var asked := Ask(w).0;
      SyncShape(tools, asked.(lastRemote := Some(asked.img.revision)));
      JammedReconcile(tools, Observe(tools, asked).0);
    }
  }

  lemma JammedAttach<S>(tools: Tools<S>, w: World<S>, link: Link)
    requires Jammed(tools, w) && Mutations(tools, w.pending)
    ensures SameLog(w, Attach(tools, w, link).0)
  {
    AdoptShape(tools, w.(link := Some(link)));
    var (adopted, r) := Adopt(tools, w.(link := Some(link)));
    if r.Pass? {
      JammedReconcile(tools, Attached(w, adopted));
    }
  }

  lemma FullConclude<S>(tools: Tools<S>, w: World<S>, key: string, r: Outcome<Problem>)
    requires Full(tools, w) && Mutations(tools, w.pending)
    ensures SameLog(w, Conclude(tools, w, key, r).0)
  {
    FullMark(tools, w, key);
  }

  lemma FullCommit<S>(tools: Tools<S>, w: World<S>, key: string, op: Operation, s: S)
    requires Full(tools, w) && Mutations(tools, w.pending)
    ensures SameLog(w, Commit(tools, w, key, op, s).0)
  {
    var ops, projections := [OperationFor(key, op)], ProjectAll(tools, s, OperationScopes(op));
    PublishLocalShape(tools, w, ops, projections);
    var (next, r) := PublishLocal(tools, w, ops, projections);
    assert Full(tools, next);
    FullConclude(tools, next, key, r);
  }

  lemma FullTakeBack<S>(tools: Tools<S>, w: World<S>, op: Operation)
    requires Full(tools, w)
    ensures SameLog(w, TakeBack(tools, w, tools.key(op)).0)
  {
    assert EventFor(tools, Event.Completed(tools.key(op)));
  }

  lemma FullMutate<S>(tools: Tools<S>, w: World<S>, op: Operation)
    requires Full(tools, w) && Mutations(tools, w.pending)
    ensures var (t, answer) := Mutate(tools, w, tools.key(op), op);
      SameLog(w, t) && (!HasKey(w.pending, tools.key(op)) ==> answer == NotRecorded)
  {
    if !HasKey(w.pending, tools.key(op)) {
      FullQueue(tools, w, op);
    } else {
      match tools.apply(ActiveStore(w), op)
      case None => FullTakeBack(tools, w, op);
      case Some(s) => FullCommit(tools, WithActiveStore(w, s), tools.key(op), op, s);
    }
  }

  /** A full log turns every new mutation away and records nothing about the others. */
  lemma FullExecute<S>(tools: Tools<S>, w: World<S>, op: Operation)
    requires Full(tools, w) && Mutations(tools, w.pending)
    ensures var (t, answer) := Execute(tools, w, op);
      SameLog(w, t) && (tools.mutating(op.name) && !HasKey(w.pending, tools.key(op)) ==> answer == NotRecorded)
  {
    var prepared := Prepare(w);
    assert SameLog(w, prepared) && Full(tools, prepared);
    if tools.mutating(op.name) {
      FullMutate(tools, prepared, op);
      assert Execute(tools, w, op) == Mutate(tools, prepared, tools.key(op), op);
    }
  }
}
