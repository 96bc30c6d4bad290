/** What the caller of a tool is told, and what has become of the operation by then. */
module ReplicationAnswers {
  import opened Wrappers
  import opened Operations
  import opened OutboxLog
  import opened NativeRecords
  import opened Publish
  import Remote
  import opened Stores
  import opened Replication
  import opened ReplicationSafety
  import opened ReplicationProgress
  import opened ReplicationCalm
  import opened ReplicationRoom
  import opened ReplicationVerdicts

  /** The log has room for one more event behind this many bytes. */
  predicate Fits<S>(tools: Tools<S>, bytes: nat, event: Event) {
    bytes + tools.size(event) + 1 <= 8_388_608
  }

  function EntryOf<S>(tools: Tools<S>, op: Operation): Entry {
    Entry(tools.key(op), op, false)
  }

  /** The operation is in the outbox before the tool runs. */
  predicate IsQueued<S>(tools: Tools<S>, w: World<S>, op: Operation) {
    HasKey(w.pending, tools.key(op)) || Fits(tools, w.logBytes, Event.Pending(EntryOf(tools, op)))
  }

  function QueuedPending<S>(tools: Tools<S>, w: World<S>, op: Operation): seq<Entry> {
    if HasKey(w.pending, tools.key(op)) then w.pending else w.pending + [EntryOf(tools, op)]
  }

  function QueuedBytes<S>(tools: Tools<S>, w: World<S>, op: Operation): nat {
    if HasKey(w.pending, tools.key(op)) then w.logBytes
    else w.logBytes + tools.size(Event.Pending(EntryOf(tools, op))) + 1
  }

  predicate Succeeds<S>(tools: Tools<S>, w: World<S>, op: Operation) {
    tools.apply(ActiveStore(w), op).Some?
  }

  /** Redis is primary and there is a connection, dead or alive. */
  predicate Connected<S>(w: World<S>) {
    w.mode == RedisPrimary && w.link.Some?
  }

  /** The publish of the operation passes the adapter's own checks and reaches a living server. */
  predicate Reaches<S>(tools: Tools<S>, w: World<S>, op: Operation, s: S) {
    var projections := ProjectAll(tools, s, OperationScopes(op));
    && Connected(w) && w.link.value.budget > 0 && DistinctScopes(projections)
    && tools.fits(NativeDeltas(w.cache, projections), [OperationFor(tools.key(op), op)])
  }

  predicate Acknowledged<S>(tools: Tools<S>, w: World<S>, op: Operation, s: S) {
    Reaches(tools, w, op, s) && w.img.revision == w.revision
  }

  /** Another coordinator was faster. */
  predicate Overtakes<S>(tools: Tools<S>, w: World<S>, op: Operation, s: S) {
    Reaches(tools, w, op, s) && w.img.revision != w.revision
  }

  /** The event that marks the operation as committed, and the outbox and the length of its log behind it. */
  function MarkEvent<S>(tools: Tools<S>, w: World<S>, op: Operation): Event {
    match Find(QueuedPending(tools, w, op), tools.key(op))
    case Some(e) => Event.Pending(e.(redisCommitted := true))
    case None => Event.Pending(EntryOf(tools, op).(redisCommitted := true))
  }

  function MarkedPending<S>(tools: Tools<S>, w: World<S>, op: Operation): seq<Entry> {
    MarkCommitted(QueuedPending(tools, w, op), tools.key(op))
  }

  function MarkedBytes<S>(tools: Tools<S>, w: World<S>, op: Operation): nat {
    QueuedBytes(tools, w, op) + tools.size(MarkEvent(tools, w, op)) + 1
  }

  /** The standby can run the entries in order, or already contains what those that fail would create. */
  predicate StandbyRuns<S>(tools: Tools<S>, s: S, entries: seq<Entry>)
    decreases |entries|
  {
    entries == [] ||
    match tools.apply(s, entries[0].operation)
    case Some(t) => StandbyRuns(tools, t, entries[1..])
    case None => AlreadyContains(tools, s, entries[0].operation) && StandbyRuns(tools, s, entries[1..])
  }

  /** The answer to a mutation whose publish is acknowledged. */
  function Confirmed<S>(tools: Tools<S>, w: World<S>, op: Operation): Answer {
    var batch := Batch(MarkedPending(tools, w, op), true);
    if !Fits(tools, QueuedBytes(tools, w, op), MarkEvent(tools, w, op)) then NotRecorded
    else if w.background then Answered
    else if !StandbyRuns(tools, w.store, batch) then MirrorPending
    else if MarkedBytes(tools, w, op) + ClosingBytes(tools.size, batch) > 8_388_608 then NotRecorded
    else Answered
  }

  /** What the caller is told, as a table over what was there before the call. */
  function Told<S>(tools: Tools<S>, w: World<S>, op: Operation): Answer {
    if !tools.mutating(op.name) then (if Succeeds(tools, w, op) then Answered else ToolFailed)
    else if !IsQueued(tools, w, op) then NotRecorded
    else
      match tools.apply(ActiveStore(w), op)
      case None =>
        if Fits(tools, QueuedBytes(tools, w, op), Event.Completed(tools.key(op))) then ToolFailed else NotRecorded
      case Some(s) =>
        if Overtakes(tools, w, op, s) then Queued
        else if Acknowledged(tools, w, op, s) then Confirmed(tools, w, op)
        else Answered
  }

  // ---------- The publish ----------

  lemma PublishAnswers<S>(tools: Tools<S>, w: World<S>, op: Operation, s: S)
    requires w.mode == RedisPrimary && w.link.Some?
    ensures var (t, r) := PublishLocal(tools, w, [OperationFor(tools.key(op), op)],
                                       ProjectAll(tools, s, OperationScopes(op)));
      && RemoteOnly(w, t) && t.link.Some?
      && (r.Pass? <==> Acknowledged(tools, w, op, s))
      && (r.Fail? && r.error.Conflicted? <==> Overtakes(tools, w, op, s))
  {
    var projections := ProjectAll(tools, s, OperationScopes(op));
    var ops := [OperationFor(tools.key(op), op)];
    var deltas := NativeDeltas(w.cache, projections);
    PublishLocalShape(tools, w, ops, projections);
    SendAnswers(w, DistinctScopes(projections) && tools.fits(deltas, ops), Remote.PublishedDeltas(w.img, deltas, ops),
                ApplyCache(w.cache, projections));
  }

  lemma SendAnswers<S>(w: World<S>, accepted: bool, after: Image<S>, cache: seq<Projection>)
    requires w.link.Some?
    ensures var (t, r) := Send(w, accepted, after, cache);
      && t.link.Some?
      && (r.Pass? <==> accepted && w.link.value.budget > 0 && w.img.revision == w.revision)
      && (r.Fail? && r.error.Conflicted? <==> accepted && w.link.value.budget > 0 && w.img.revision != w.revision)
  {
  }

  // ---------- The answer ----------

  lemma {:induction false} StandbyIs<S>(tools: Tools<S>, w: World<S>, entries: seq<Entry>)
    ensures MirrorReplay(tools, w, entries).1 == StandbyRuns(tools, w.store, entries)
    decreases |entries|
  {
    if entries != [] {
      var e := entries[0];
      match tools.apply(w.store, e.operation)
      case Some(s) => StandbyIs(tools, w.(store := s, trace := w.trace + [Replayed(e.key)]), entries[1..]);
      case None => StandbyIs(tools, w.(trace := w.trace + [Contained(e.key)]), entries[1..]);
    }
  }

  lemma MirrorNowAnswers<S>(tools: Tools<S>, w: World<S>)
    requires w.logBytes <= MAX_OUTBOX_BYTES
    ensures var batch := Batch(w.pending, true);
      MirrorNow(tools, w).1 ==
      if !StandbyRuns(tools, w.store, batch) then MirrorPending
      else if w.logBytes + ClosingBytes(tools.size, batch) > MAX_OUTBOX_BYTES then NotRecorded
      else Answered
  {
    var batch := Batch(w.pending, true);
    MirrorDrainsIff(tools, w);
    StandbyIs(tools, w, batch);
    CompleteAllDrops(tools, MirrorReplay(tools, w, batch).0, batch);
  }

  /** The world in which the tool has run and its entry is queued. */
  ghost predicate Ready<S>(tools: Tools<S>, w: World<S>, op: Operation, s: S, done: World<S>) {
    && done == w.(active := done.active, store := done.store, pending := QueuedPending(tools, w, op),
                  logBytes := QueuedBytes(tools, w, op), trace := done.trace)
    && ActiveStore(done) == s && (w.active.Some? ==> done.store == w.store && done.active.Some?)
  }

  lemma QueueIs<S>(tools: Tools<S>, w: World<S>, op: Operation)
    ensures var (t, r) := Queue(tools, w, EntryOf(tools, op));
      && (r.Pass? <==> IsQueued(tools, w, op)) && (r.Fail? ==> t == w)
      && (r.Pass? ==>
          t == w.(pending := QueuedPending(tools, w, op), logBytes := QueuedBytes(tools, w, op), trace := t.trace))
      && (r.Pass? ==> HasKey(t.pending, tools.key(op)))
  {
    if !HasKey(w.pending, tools.key(op)) {
      assert QueuedPending(tools, w, op)[|w.pending|].key == tools.key(op);
    }
  }

  lemma {:induction false} FindHas(entries: seq<Entry>, key: string)
    ensures Find(entries, key).Some? <==> HasKey(entries, key)
  {
    if entries != [] {
      FindHas(entries[1..], key);
      HasKeySplit(entries);
    }
  }

  lemma ConfirmedAnswers<S>(tools: Tools<S>, w: World<S>, op: Operation, next: World<S>)
    requires HasKey(QueuedPending(tools, w, op), tools.key(op))
    requires next.pending == QueuedPending(tools, w, op) && next.logBytes == QueuedBytes(tools, w, op)
    requires next.background == w.background && next.store == w.store
    ensures Conclude(tools, next, tools.key(op), Pass).1 == Confirmed(tools, w, op)
  {
    FindHas(next.pending, tools.key(op));
    var (marked, m) := Mark(tools, next, tools.key(op));
    if m.Pass? && !w.background {
      MirrorNowAnswers(tools, marked);
    }
  }

  lemma CommitAnswers<S>(tools: Tools<S>, w: World<S>, op: Operation, s: S, done: World<S>)
    requires Ready(tools, w, op, s, done) && HasKey(done.pending, tools.key(op)) && Connected(w) && w.active.Some?
    ensures Commit(tools, done, tools.key(op), op, s).1 ==
            if Overtakes(tools, w, op, s) then Queued
            else if Acknowledged(tools, w, op, s) then Confirmed(tools, w, op)
            else Answered
  {
    PublishAnswers(tools, done, op, s);
    var (next, r) := PublishLocal(tools, done, [OperationFor(tools.key(op), op)],
                                  ProjectAll(tools, s, OperationScopes(op)));
    if r.Pass? {
      ConfirmedAnswers(tools, w, op, next);
    }
  }

  /** Every answer of every call, exactly. */
  lemma AnswerIsTold<S>(tools: Tools<S>, w: World<S>, op: Operation)
    requires w.active.Some? <==> w.mode == RedisPrimary
    ensures Execute(tools, w, op).1 == Told(tools, w, op)
  {
    var prepared := Prepare(w);
    assert ActiveStore(prepared) == ActiveStore(w);
    if tools.mutating(op.name) {
      QueueIs(tools, prepared, op);
      var (queued, r) := Queue(tools, prepared, EntryOf(tools, op));
      if r.Pass? && Succeeds(tools, w, op) {
        var s := tools.apply(ActiveStore(w), op).value;
        var done := WithActiveStore(queued, s);
        if Connected(w) {
          CommitAnswers(tools, w, op, s, done);
        }
      }
    }
  }

  // ---------- What has become of the operation ----------

  /** The tool was let run, and it succeeded. */
  predicate Ran<S>(tools: Tools<S>, w: World<S>, op: Operation) {
    (tools.mutating(op.name) ==> IsQueued(tools, w, op)) && Succeeds(tools, w, op)
  }

  /** Its effect is in Redis and the coordinator knows. */
  predicate Confirms<S>(tools: Tools<S>, w: World<S>, op: Operation) {
    && tools.mutating(op.name) && Ran(tools, w, op)
    && Acknowledged(tools, w, op, tools.apply(ActiveStore(w), op).value)
  }

  /** The outbox behind the call: a call that was confirmed leaves its entry marked, possibly mirrored already; one that
      failed takes the entry back when the log has room; any other leaves it waiting. */
  ghost predicate Leaves<S>(tools: Tools<S>, w: World<S>, op: Operation, t: World<S>) {
    if !tools.mutating(op.name) || !IsQueued(tools, w, op) then t.pending == w.pending
    else if !Succeeds(tools, w, op) then
      t.pending == if Fits(tools, QueuedBytes(tools, w, op), Event.Completed(tools.key(op)))
                   then Without(QueuedPending(tools, w, op), tools.key(op)) else QueuedPending(tools, w, op)
    else if !Confirms(tools, w, op) then t.pending == QueuedPending(tools, w, op)
    else
      && IsCommitted(t.img, tools.key(op))
      && (w.background || Told(tools, w, op) == MirrorPending ==>
            t.pending == if Fits(tools, QueuedBytes(tools, w, op), MarkEvent(tools, w, op))
                         then MarkedPending(tools, w, op) else QueuedPending(tools, w, op))
      && (!w.background && Told(tools, w, op) == Answered ==> t.pending == Mirrored(MarkedPending(tools, w, op)))
  }

  /** The mode behind the call: the coordinator falls back exactly when it has no connection or a publish was not
      acknowledged. */
  ghost predicate FallsBack<S>(tools: Tools<S>, w: World<S>, op: Operation, t: World<S>) {
    && (t.active.Some? <==> t.mode == RedisPrimary)
    && (t.mode == SqliteFallback <==>
          !Connected(w) || (tools.mutating(op.name) && Ran(tools, w, op) && !Confirms(tools, w, op)))
    && (t.mode == SqliteFallback && w.mode == RedisPrimary ==> t.link.None?)
  }

  /** The state served moves by the tool if it ran, and by nothing else. */
  function Served<S>(tools: Tools<S>, w: World<S>, op: Operation): S {
    if Ran(tools, w, op) then tools.apply(ActiveStore(w), op).value else ActiveStore(w)
  }

  /** What every call leaves behind. */
  lemma ExecuteLeaves<S>(tools: Tools<S>, w: World<S>, op: Operation)
    requires w.active.Some? <==> w.mode == RedisPrimary
    ensures var t := Execute(tools, w, op).0;
      ActiveStore(t) == Served(tools, w, op) && FallsBack(tools, w, op, t) && Leaves(tools, w, op, t)
  {
    var prepared := Prepare(w);
    assert ActiveStore(prepared) == ActiveStore(w);
    if tools.mutating(op.name) && IsQueued(tools, w, op) {
      QueueIs(tools, prepared, op);
      var queued := Queue(tools, prepared, EntryOf(tools, op)).0;
      match tools.apply(ActiveStore(w), op)
      case None => FailedLeaves(tools, w, op, queued);
      case Some(s) => SucceededLeaves(tools, w, op, s, queued);
    } else if tools.mutating(op.name) {
      QueueIs(tools, prepared, op);
    }
  }

  /** The entry is queued and nothing else has happened but falling back without a connection. */
  ghost predicate Waits<S>(tools: Tools<S>, w: World<S>, op: Operation, queued: World<S>) {
    && queued == Prepare(w).(pending := QueuedPending(tools, w, op), logBytes := QueuedBytes(tools, w, op),
                             trace := queued.trace)
    && HasKey(queued.pending, tools.key(op)) && (w.active.Some? <==> w.mode == RedisPrimary)
    && tools.mutating(op.name) && IsQueued(tools, w, op)
  }

  lemma FailedLeaves<S>(tools: Tools<S>, w: World<S>, op: Operation, queued: World<S>)
    requires Waits(tools, w, op, queued) && !Succeeds(tools, w, op)
    ensures var t := TakeBack(tools, queued, tools.key(op)).0;
      ActiveStore(t) == Served(tools, w, op) && FallsBack(tools, w, op, t) && Leaves(tools, w, op, t)
  {
    TakeBackLeaves(tools, queued, tools.key(op));
  }

  lemma SucceededLeaves<S>(tools: Tools<S>, w: World<S>, op: Operation, s: S, queued: World<S>)
    requires Waits(tools, w, op, queued) && tools.apply(ActiveStore(w), op) == Some(s)
    ensures var done := WithActiveStore(queued, s);
      var t := if done.mode == RedisPrimary then Commit(tools, done, tools.key(op), op, s).0 else done;
      ActiveStore(t) == Served(tools, w, op) && FallsBack(tools, w, op, t) && Leaves(tools, w, op, t)
  {
    if Connected(w) {
      CommitLeaves(tools, w, op, s, WithActiveStore(queued, s));
    }
  }

  lemma TakeBackLeaves<S>(tools: Tools<S>, w: World<S>, key: string)
    ensures var t := TakeBack(tools, w, key).0;
      && t == w.(pending := t.pending, logBytes := t.logBytes, trace := t.trace)
      && t.pending == if Fits(tools, w.logBytes, Event.Completed(key)) then Without(w.pending, key) else w.pending
  {
  }

  lemma CommitLeaves<S>(tools: Tools<S>, w: World<S>, op: Operation, s: S, done: World<S>)
    requires Ready(tools, w, op, s, done) && HasKey(done.pending, tools.key(op)) && Connected(w) && w.active.Some?
    requires tools.mutating(op.name) && IsQueued(tools, w, op) && tools.apply(ActiveStore(w), op) == Some(s)
    ensures var t := Commit(tools, done, tools.key(op), op, s).0;
      && ActiveStore(t) == s && (t.mode == SqliteFallback <==> !Acknowledged(tools, w, op, s))
      && (t.active.Some? <==> t.mode == RedisPrimary) && (t.mode == SqliteFallback ==> t.link.None?)
      && Leaves(tools, w, op, t)
  {
    PublishAnswers(tools, done, op, s);
    var ops, projections := [OperationFor(tools.key(op), op)], ProjectAll(tools, s, OperationScopes(op));
    var (next, r) := PublishLocal(tools, done, ops, projections);
    if r.Pass? {
      var total := PublishLocalIs(tools, done, ops, projections);
      LedgerAfterKeys(done.img.ledger, ops, done.img.revision + 1, total);
      assert ops[0].key in OperationKeys(ops);
      ConfirmedLeaves(tools, w, op, next);
      ConfirmedAnswers(tools, w, op, next);
    }
  }

  lemma ConfirmedLeaves<S>(tools: Tools<S>, w: World<S>, op: Operation, next: World<S>)
    requires HasKey(QueuedPending(tools, w, op), tools.key(op))
    requires next.pending == QueuedPending(tools, w, op) && next.logBytes == QueuedBytes(tools, w, op)
    requires next.background == w.background && next.store == w.store
    ensures var (t, a) := Conclude(tools, next, tools.key(op), Pass);
      && t == next.(store := t.store, pending := t.pending, logBytes := t.logBytes, trace := t.trace)
      && (w.background || a == MirrorPending ==>
            t.pending == if Fits(tools, QueuedBytes(tools, w, op), MarkEvent(tools, w, op))
                         then MarkedPending(tools, w, op) else QueuedPending(tools, w, op))
      && (!w.background && a == Answered ==> t.pending == Mirrored(MarkedPending(tools, w, op)))
  {
    FindHas(next.pending, tools.key(op));
    var (marked, m) := Mark(tools, next, tools.key(op));
    MirrorOnly(tools, marked);
    if m.Pass? && !w.background {
      var batch := Batch(marked.pending, true);
      MirrorReplayShape(tools, marked, batch);
      if Mirror(tools, marked).1.Pass? {
        MirrorRemoves(tools, marked);
      }
      CompleteAllDrops(tools, MirrorReplay(tools, marked, batch).0, batch);
    }
  }

  /** A failed call takes back whatever waits under its key: when an earlier call with the same arguments succeeded and
      its entry has not reached Redis yet, that entry is gone as well. */
  lemma FailedReissueForgets<S>(tools: Tools<S>, w: World<S>, op: Operation)
    requires (w.active.Some? <==> w.mode == RedisPrimary) && tools.mutating(op.name) && !Succeeds(tools, w, op)
    requires HasKey(w.pending, tools.key(op)) && Fits(tools, w.logBytes, Event.Completed(tools.key(op)))
    ensures var t := Execute(tools, w, op).0;
      && !HasKey(t.pending, tools.key(op)) && t.img == w.img && ActiveStore(t) == ActiveStore(w)
      && Execute(tools, w, op).1 == ToolFailed
  {
    ExecuteLeaves(tools, w, op);
    AnswerIsTold(tools, w, op);
    WithoutKeys(w.pending, tools.key(op));
  }
}
