/** The backlog that breaks failover safety, computed in full: n healthy writes followed by two watcher rounds run
    exactly the 129th to 192nd of them a second time. */
module ReplicationOverrun {
  import opened Wrappers
  import opened Operations
  import opened OutboxLog
  import opened NativeRecords
  import opened Publish
  import Remote
  import opened Stores
  import opened Replication
  import opened ReplicationSafety
  import opened ReplicationProgress
  import opened ReplicationRuns
  import opened ReplicationCalm
  import opened ReplicationBacklog
  import opened ReplicationRoom

  /** Every tool always succeeds. */
  ghost predicate Total<S(!new)>(tools: Tools<S>) {
    forall s: S, op: Operation :: tools.apply(s, op).Some?
  }

  /** A healthy coordinator on which only mirroring is outstanding. */
  ghost predicate Backlogged<S>(w: World<S>) {
    && Calm(w) && w.revision == w.img.revision && w.background && !AnyWith(w.pending, false)
  }

  /** The log has room to complete everything that is pending. */
  ghost predicate Roomy<S>(tools: Tools<S>, w: World<S>) {
    && EntryBytes(tools.size, w.pending) <= w.logBytes
    && w.logBytes + ClosingBytes(tools.size, w.pending) <= MAX_OUTBOX_BYTES
  }

  function Budget<S>(w: World<S>): nat {
    if w.link.Some? then w.link.value.budget else 0
  }

  function Head(entries: seq<Entry>): seq<Entry> {
    if |entries| <= MAX_REPLAY_BATCH then entries else entries[..MAX_REPLAY_BATCH]
  }

  function Tail(entries: seq<Entry>): seq<Entry> {
    if |entries| <= MAX_REPLAY_BATCH then [] else entries[MAX_REPLAY_BATCH..]
  }

  // ---------- One round on a backlog ----------

  lemma {:induction false} FilterAll(entries: seq<Entry>)
    requires !AnyWith(entries, false)
    ensures Filter(entries, true) == entries && Filter(entries, false) == []
  {
    if entries != [] {
      assert entries[0].redisCommitted != false;
      forall i | 0 <= i < |entries[1..]|
        ensures entries[1..][i].redisCommitted
      {
        assert entries[i + 1].redisCommitted != false;
      }
      FilterAll(entries[1..]);
    }
  }

  lemma {:induction false} CompletePrefix<S>(tools: Tools<S>, w: World<S>, k: nat)
    requires DistinctKeys(w.pending) && k <= |w.pending| && CompleteAll(tools, w, w.pending[..k]).1.Pass?
    ensures CompleteAll(tools, w, w.pending[..k]).0.pending == w.pending[k..]
    decreases k
  {
    if k > 0 {
      var p := w.pending;
      HeadDiffers(p);
      WithoutAbsent(p[1..], p[0].key);
      assert p[..k][1..] == p[1..][..k - 1] && p[1..][k - 1..] == p[k..];
      CompletePrefix(tools, Complete(tools, w, p[0].key).0, k - 1);
    }
  }

  lemma {:induction false} MirrorReplayTotal<S(!new)>(tools: Tools<S>, w: World<S>, entries: seq<Entry>)
    requires Total(tools)
    ensures MirrorReplay(tools, w, entries).1
    decreases |entries|
  {
    if entries != [] {
      var s := tools.apply(w.store, entries[0].operation).value;
      MirrorReplayTotal(tools, w.(store := s, trace := w.trace + [Replayed(entries[0].key)]), entries[1..]);
    }
  }

  /** There is room for every prefix of the backlog, and after the compaction for the rest. */
  lemma RoomForPrefix<S>(tools: Tools<S>, w: World<S>, k: nat)
    requires Roomy(tools, w) && k <= |w.pending|
    ensures CompleteAll(tools, w, w.pending[..k]).1.Pass?
    ensures EntryBytes(tools.size, w.pending[k..]) + ClosingBytes(tools.size, w.pending[k..]) <= MAX_OUTBOX_BYTES
  {
    assert w.pending == w.pending[..k] + w.pending[k..];
    ClosingSplits(tools.size, w.pending[..k], w.pending[k..]);
    CompletesIffRoom(tools, w, w.pending[..k]);
  }

  /** A mirror takes the first batch off the backlog. */
  lemma MirrorBacklog<S(!new)>(tools: Tools<S>, w: World<S>)
    requires Total(tools) && Backlogged(w) && Roomy(tools, w)
    ensures var (t, r) := Mirror(tools, w);
      && r.Pass? && t.pending == Tail(w.pending) && Backlogged(t) && Roomy(tools, t)
      && t == w.(store := t.store, pending := t.pending, logBytes := t.logBytes, trace := t.trace)
  {
    FilterAll(w.pending);
    var batch := Batch(w.pending, true);
    MirrorReplayTotal(tools, w, batch);
    MirrorReplayShape(tools, w, batch);
    MirrorShape(tools, w);
    var n := |batch|;
    assert batch == w.pending[..n];
    var replayed := MirrorReplay(tools, w, batch).0;
    RoomForPrefix(tools, replayed, n);
    CompletePrefix(tools, replayed, n);
  }

  /** With nothing uncommitted the middle of a reconciliation does nothing. */
  lemma BatchBacklog<S(!new)>(tools: Tools<S>, w: World<S>)
    requires Total(tools) && Backlogged(w) && Roomy(tools, w)
    ensures var (t, r) := ReconcileBatch(tools, w);
      && r.Pass? && t.pending == Tail(w.pending) && Backlogged(t) && Roomy(tools, t)
      && t.active == w.active && t.link == w.link && (t.replayCommitted <==> Tail(w.pending) != [])
  {
    FilterAll(w.pending);
    var start := Scan(w, [], {}, []);
    assert ScanAll(tools, start, []) == (start, Pass);
    assert PublishApplied(tools, start) == (start, Pass);
    assert CheckpointLocal(tools, start) == (start, Pass);
    assert Settle(tools, w, [], {}) == (w, Pass) && RejectAll(tools, w, []) == (w, Pass);
    var compacted := Compacted(tools, w);
    MirrorBacklog(tools, compacted);
    var t := Mirror(tools, compacted).0;
    assert t.pending != [] ==> t.pending[0].redisCommitted == true by {
      if t.pending != [] {
        assert t.pending[0].redisCommitted != false;
      }
    }
  }

  lemma {:induction false} ReplayIntoTotal<S(!new)>(tools: Tools<S>, s: S, entries: seq<Entry>)
    requires Total(tools)
    ensures ReplayInto(tools, s, entries).1
    decreases |entries|
  {
    if entries != [] {
      ReplayIntoTotal(tools, tools.apply(s, entries[0].operation).value, entries[1..]);
    }
  }

  /** What the active store holds after a round on a backlog. */
  function AfterRound<S>(tools: Tools<S>, w: World<S>): S {
    if w.replayCommitted then ReplayInto(tools, ActiveStore(w), Head(w.pending)).0 else ActiveStore(w)
  }

  lemma ReplayBacklog<S(!new)>(tools: Tools<S>, w: World<S>)
    requires Total(tools) && Backlogged(w) && Roomy(tools, w)
    ensures var (t, r) := ReplayCommittedIntoActive(tools, w);
      && r.Pass? && Backlogged(t) && Roomy(tools, t) && ActiveStore(t) == AfterRound(tools, w)
      && t.link == w.link && t.pending == w.pending
  {
    FilterAll(w.pending);
    ReplayIntoTotal(tools, ActiveStore(w), Head(w.pending));
  }

  lemma ReconcileBacklog<S(!new)>(tools: Tools<S>, w: World<S>)
    requires Total(tools) && Backlogged(w) && Roomy(tools, w)
    ensures var (t, r) := Reconcile(tools, w);
      && r.Pass? && t.pending == Tail(Tail(w.pending)) && Backlogged(t) && Roomy(tools, t)
      && ActiveStore(t) == AfterRound(tools, w) && t.link == w.link && (t.replayCommitted <==> t.pending != [])
  {
    ReplayBacklog(tools, w);
    var replayed := ReplayCommittedIntoActive(tools, w).0;
    MirrorBacklog(tools, replayed);
    var mirrored := Mirror(tools, replayed).0;
    if mirrored.pending != [] {
      BatchBacklog(tools, mirrored);
    }
  }

  lemma CheckpointBacklog<S>(tools: Tools<S>, w: World<S>)
    requires Backlogged(w) && Budget(w) >= 1
    ensures var t := CheckpointIfDue(tools, w).0;
      && Backlogged(t) && ActiveStore(t) == ActiveStore(w) && t.pending == w.pending
      && t.replayCommitted == w.replayCommitted
      && Budget(t) >= Budget(w) - 1 && t.logBytes == w.logBytes
  {
    CheckpointStill(tools, w);
    CheckpointShape(tools, w);
  }

  /** One round on a healthy connection: two batches are mirrored; if recovery believes it must, the first of them is
      run on the active store again; and it will believe so next time exactly when something is left. */
  lemma RoundOnBacklog<S(!new)>(tools: Tools<S>, w: World<S>, offered: Option<Link>)
    requires Total(tools) && Backlogged(w) && Roomy(tools, w) && Budget(w) >= 2
    ensures var t := Tick(tools, w, offered).0;
      && t.pending == Tail(Tail(w.pending)) && ActiveStore(t) == AfterRound(tools, w)
      && (t.replayCommitted <==> t.pending != []) && Backlogged(t) && Roomy(tools, t) && Budget(t) >= Budget(w) - 2
  {
    var asked := Ask(w).0;
    var seen := asked.(lastRemote := Some(asked.img.revision));
    assert Ask(w).1 && Observe(tools, asked) == (seen, Pass);
    assert Backlogged(seen) && AfterRound(tools, seen) == AfterRound(tools, w);
    ReconcileBacklog(tools, seen);
    CheckpointBacklog(tools, Reconcile(tools, seen).0);
  }

  // ---------- Building the backlog ----------

  function CommittedEntry<S>(tools: Tools<S>, op: Operation): Entry {
    Entry(tools.key(op), op, true)
  }

  /** The bytes of the two events that a healthy write leaves in the log. */
  function CallBytes<S>(tools: Tools<S>, op: Operation): nat {
    tools.size(Event.Pending(Entry(tools.key(op), op, false))) + 1
      + tools.size(Event.Pending(CommittedEntry(tools, op))) + 1
  }

  function WriteBytes<S>(tools: Tools<S>, ops: seq<Operation>): nat {
    if ops == [] then 0 else WriteBytes(tools, ops[..|ops| - 1]) + CallBytes(tools, ops[|ops| - 1])
  }

  function Backlog<S>(tools: Tools<S>, ops: seq<Operation>): seq<Entry> {
    seq(|ops|, i requires 0 <= i < |ops| => CommittedEntry(tools, ops[i]))
  }

  /** Publishes of such operations pass the adapter's own checks. */
  ghost predicate Publishable<S>(tools: Tools<S>, op: Operation) {
    && tools.mutating(op.name) && OperationWorkspace(op) != Some(SYSTEM_SCOPE)
    && (forall deltas, ops :: tools.fits(deltas, ops))
  }

  lemma MarkLast(entries: seq<Entry>, e: Entry)
    requires !AnyWith(entries, false) && forall x :: x in entries ==> x.key != e.key
    ensures MarkCommitted(entries + [e], e.key) == entries + [e.(redisCommitted := true)]
    ensures !AnyWith(entries + [e.(redisCommitted := true)], false)
  {
    assert forall i :: 0 <= i < |entries| ==> entries[i] in entries && entries[i].redisCommitted != false;
  }

  lemma TwoScopes<S>(tools: Tools<S>, s: S, op: Operation)
    requires OperationWorkspace(op) != Some(SYSTEM_SCOPE)
    ensures DistinctScopes(ProjectAll(tools, s, OperationScopes(op)))
  {
  }

  lemma SendHealthy<S>(w: World<S>, after: Image<S>, cache: seq<Projection>)
    requires w.revision == w.img.revision && Budget(w) >= 1
    ensures var (t, r) := Send(w, true, after, cache);
      && r.Pass? && t.active == w.active && t.mode == w.mode && t.pending == w.pending && t.usesLocal == w.usesLocal
      && t.logBytes == w.logBytes
      && t.replayCommitted == w.replayCommitted && t.background == w.background && t.revision == t.img.revision
      && t.link.Some? && Budget(t) == Budget(w) - 1
  {
  }

  lemma {:induction false} FindLast(entries: seq<Entry>, e: Entry)
    requires forall x :: x in entries ==> x.key != e.key
    ensures Find(entries + [e], e.key) == Some(e)
  {
    if entries != [] {
      assert entries[0] in entries;
      assert (entries + [e])[1..] == entries[1..] + [e];
      FindLast(entries[1..], e);
    }
  }

  lemma CommitOnBacklog<S(!new)>(tools: Tools<S>, done: World<S>, pending: seq<Entry>, op: Operation, s: S)
    requires Calm(done.(pending := pending)) && done.revision == done.img.revision && done.background
             && Budget(done) >= 1
    requires !AnyWith(pending, false) && done.pending == pending + [Entry(tools.key(op), op, false)]
    requires DistinctKeys(done.pending) && (forall e :: e in pending ==> e.key != tools.key(op))
             && Publishable(tools, op)
    requires done.logBytes + tools.size(Event.Pending(CommittedEntry(tools, op))) + 1 <= MAX_OUTBOX_BYTES
    ensures var t := Commit(tools, done, tools.key(op), op, s).0;
      && t.pending == pending + [CommittedEntry(tools, op)] && t.active == done.active
      && t.replayCommitted == done.replayCommitted && Backlogged(t) && Budget(t) >= Budget(done) - 1
      && t.logBytes == done.logBytes + tools.size(Event.Pending(CommittedEntry(tools, op))) + 1
  {
    var e := Entry(tools.key(op), op, false);
    var ops, all := [OperationFor(e.key, op)], ProjectAll(tools, s, OperationScopes(op));
    var deltas := NativeDeltas(done.cache, all);
    TwoScopes(tools, s, op);
    SendHealthy(done, Remote.PublishedDeltas(done.img, deltas, ops), ApplyCache(done.cache, all));
    FindLast(pending, e);
    MarkLast(pending, e);
    MarkIn(done.pending, e.key);
  }

  /** A healthy write is published and waits for the mirror. */
  lemma WriteOnBacklog<S(!new)>(tools: Tools<S>, w: World<S>, op: Operation)
    requires Total(tools) && Backlogged(w) && Budget(w) >= 1 && Publishable(tools, op)
    requires forall e :: e in w.pending ==> e.key != tools.key(op)
    requires w.logBytes + CallBytes(tools, op) <= MAX_OUTBOX_BYTES
    ensures var t := Execute(tools, w, op).0;
      && t.pending == w.pending + [CommittedEntry(tools, op)] && ActiveStore(t) == ApplyOne(tools, ActiveStore(w), op)
      && t.replayCommitted == w.replayCommitted && Backlogged(t) && Budget(t) >= Budget(w) - 1
      && t.logBytes == w.logBytes + CallBytes(tools, op)
  {
    var e := Entry(tools.key(op), op, false);
    var s := tools.apply(ActiveStore(w), op).value;
    AppendIn(w.pending, e);
    QueueShape(tools, w, e);
    var queued := Queue(tools, w, e).0;
    CommitOnBacklog(tools, WithActiveStore(queued, s), w.pending, op, s);
    assert Prepare(w) == w;
  }

  function Calls(ops: seq<Operation>): seq<Move> {
    seq(|ops|, i requires 0 <= i < |ops| => Call(ops[i]))
  }

  ghost predicate DistinctOps<S>(tools: Tools<S>, ops: seq<Operation>) {
    forall i, j :: 0 <= i < j < |ops| ==> tools.key(ops[i]) != tools.key(ops[j])
  }

  lemma FreshInBacklog<S>(tools: Tools<S>, ops: seq<Operation>, n: nat)
    requires n < |ops| && DistinctOps(tools, ops)
    ensures forall e :: e in Backlog(tools, ops[..n]) ==> e.key != tools.key(ops[n])
    ensures Backlog(tools, ops[..n + 1]) == Backlog(tools, ops[..n]) + [CommittedEntry(tools, ops[n])]
  {
    forall e | e in Backlog(tools, ops[..n])
      ensures e.key != tools.key(ops[n])
    {
      var i :| 0 <= i < n && Backlog(tools, ops[..n])[i] == e;
      assert tools.key(ops[i]) != tools.key(ops[n]);
    }
  }

  lemma RanLast<S>(tools: Tools<S>, w: World<S>, moves: seq<Move>, move: Move)
    ensures Ran(tools, w, moves + [move]) == Next(tools, Ran(tools, w, moves), move)
  {
    assert (moves + [move])[..|moves|] == moves;
  }

  lemma RanTwoRounds<S>(tools: Tools<S>, w: World<S>, moves: seq<Move>)
    ensures Ran(tools, w, moves + [Round(None), Round(None)]) ==
            Tick(tools, Tick(tools, Ran(tools, w, moves), None).0, None).0
  {
    assert moves + [Round(None), Round(None)] == moves + [Round(None)] + [Round(None)];
    RanLast(tools, w, moves, Round(None));
    RanLast(tools, w, moves + [Round(None)], Round(None));
  }

  /** What healthy writes leave behind. */
  ghost predicate Built<S>(tools: Tools<S>, w: World<S>, ops: seq<Operation>, t: World<S>) {
    && t.pending == Backlog(tools, ops) && ActiveStore(t) == Fold(tools, ActiveStore(w), ops)
    && !t.replayCommitted && Backlogged(t) && Budget(t) >= Budget(w) - |ops|
    && t.logBytes == w.logBytes + WriteBytes(tools, ops)
  }

  lemma BuildsOneMore<S(!new)>(tools: Tools<S>, w: World<S>, ops: seq<Operation>, before: World<S>, n: nat)
    requires Total(tools) && n < |ops| && Budget(w) >= |ops| && Built(tools, w, ops[..n], before)
    requires DistinctOps(tools, ops) && Publishable(tools, ops[n])
    requires w.logBytes + WriteBytes(tools, ops[..n + 1]) <= MAX_OUTBOX_BYTES
    ensures Built(tools, w, ops[..n + 1], Next(tools, before, Call(ops[n])))
  {
    FreshInBacklog(tools, ops, n);
    assert ops[..n + 1][..n] == ops[..n];
    WriteOnBacklog(tools, before, ops[n]);
  }

  lemma {:induction false} WriteBytesGrow<S>(tools: Tools<S>, ops: seq<Operation>, n: nat)
    requires n <= |ops|
    ensures WriteBytes(tools, ops[..n]) <= WriteBytes(tools, ops)
  {
    if n < |ops| {
      WriteBytesGrow(tools, ops[..|ops| - 1], n);
      assert ops[..|ops| - 1][..n] == ops[..n];
    } else {
      assert ops[..n] == ops;
    }
  }

  lemma {:induction false} WritesBuildBacklog<S(!new)>(tools: Tools<S>, w: World<S>, ops: seq<Operation>, n: nat)
    requires Total(tools) && Backlogged(w) && w.pending == [] && Budget(w) >= |ops| && !w.replayCommitted && n <= |ops|
    requires DistinctOps(tools, ops) && forall op :: op in ops ==> Publishable(tools, op)
    requires w.logBytes + WriteBytes(tools, ops) <= MAX_OUTBOX_BYTES
    ensures Built(tools, w, ops[..n], Ran(tools, w, Calls(ops[..n])))
  {
    if n > 0 {
      assert Calls(ops[..n]) == Calls(ops[..n - 1]) + [Call(ops[n - 1])];
      RanLast(tools, w, Calls(ops[..n - 1]), Call(ops[n - 1]));
      WritesBuildBacklog(tools, w, ops, n - 1);
      WriteBytesGrow(tools, ops, n);
      BuildsOneMore(tools, w, ops, Ran(tools, w, Calls(ops[..n - 1])), n - 1);
    }
  }

  /** What is pending takes no more of the log than the writes that left it there. */
  lemma {:induction false} BacklogFits<S>(tools: Tools<S>, ops: seq<Operation>)
    ensures EntryBytes(tools.size, Backlog(tools, ops)) <= WriteBytes(tools, ops)
  {
    if ops != [] {
      var n := |ops| - 1;
      var e := CommittedEntry(tools, ops[n]);
      BacklogFits(tools, ops[..n]);
      assert Backlog(tools, ops) == Backlog(tools, ops[..n]) + [e];
      ClosingSplits(tools.size, Backlog(tools, ops[..n]), [e]);
      assert [e][1..] == [] && EntryBytes(tools.size, [e]) == tools.size(Event.Pending(e)) + 1;
    }
  }

  // ---------- The overrun ----------

  lemma {:induction false} ReplayIsFold<S(!new)>(tools: Tools<S>, s: S, done: seq<Operation>, again: seq<Operation>)
    requires Total(tools)
    ensures ReplayInto(tools, Fold(tools, s, done), Backlog(tools, again)).0 == Fold(tools, s, done + again)
    decreases |again|
  {
    if again == [] {
      assert done + again == done;
    } else {
      var next := done + [again[0]];
      assert next[..|done|] == done;
      assert Backlog(tools, again)[1..] == Backlog(tools, again[1..]);
      ReplayIsFold(tools, s, next, again[1..]);
      assert next + again[1..] == done + again;
    }
  }

  /** The operations that the second round runs again. */
  function Overrun(ops: seq<Operation>): seq<Operation> {
    if |ops| <= 128 then []
    else if |ops| <= 192 then ops[128..]
    else ops[128..192]
  }

  lemma BacklogSlice<S>(tools: Tools<S>, ops: seq<Operation>, i: nat, j: nat)
    requires i <= j <= |ops|
    ensures Backlog(tools, ops)[i..j] == Backlog(tools, ops[i..j])
  {
  }

  lemma TailsOfBacklog<S>(tools: Tools<S>, ops: seq<Operation>)
    ensures var rest := Tail(Tail(Backlog(tools, ops)));
      && (rest != [] <==> |ops| > SAFE_DEPTH) && Head(rest) == Backlog(tools, Overrun(ops))
  {
    var all := Backlog(tools, ops);
    var rest := Tail(Tail(all));
    if |ops| > SAFE_DEPTH {
      var end := if |ops| <= SAFE_DEPTH + MAX_REPLAY_BATCH then |ops| else SAFE_DEPTH + MAX_REPLAY_BATCH;
      assert Tail(all) == all[MAX_REPLAY_BATCH..];
      assert rest == all[SAFE_DEPTH..];
      assert Head(rest) == all[SAFE_DEPTH..end];
      assert Overrun(ops) == ops[SAFE_DEPTH..end];
      BacklogSlice(tools, ops, SAFE_DEPTH, end);
    } else {
      assert rest == [];
    }
  }

  lemma TwoRoundsOverrun<S(!new)>(tools: Tools<S>, full: World<S>, start: S, ops: seq<Operation>)
    requires Total(tools) && Backlogged(full) && Roomy(tools, full) && Budget(full) >= 4 && !full.replayCommitted
    requires full.pending == Backlog(tools, ops) && ActiveStore(full) == Fold(tools, start, ops)
    ensures var once := Tick(tools, full, None).0;
      ActiveStore(Tick(tools, once, None).0) == Fold(tools, start, ops + Overrun(ops))
  {
    RoundOnBacklog(tools, full, None);
    var once := Tick(tools, full, None).0;
    RoundOnBacklog(tools, once, None);
    TailsOfBacklog(tools, ops);
    ReplayIsFold(tools, start, ops, Overrun(ops));
    assert ops + [] == ops;
  }

  lemma FullBacklog<S(!new)>(tools: Tools<S>, w: World<S>, ops: seq<Operation>)
    requires Total(tools) && Backlogged(w) && w.pending == [] && Budget(w) >= |ops| && !w.replayCommitted
    requires DistinctOps(tools, ops) && forall op :: op in ops ==> Publishable(tools, op)
    requires w.logBytes + WriteBytes(tools, ops) + ClosingBytes(tools.size, Backlog(tools, ops)) <= MAX_OUTBOX_BYTES
    ensures var t := Ran(tools, w, Calls(ops)); Built(tools, w, ops, t) && Roomy(tools, t)
  {
    WritesBuildBacklog(tools, w, ops, |ops|);
    assert ops[..|ops|] == ops;
    BacklogFits(tools, ops);
  }

  /** Failover safety fails for every backlog of more than 128 operations: n healthy writes and then two watcher rounds,
      on a connection that is never lost and with room in the log, leave the fold of the n operations followed by a
      second run of the 129th to 192nd. */
  lemma BacklogOverruns<S(!new)>(tools: Tools<S>, w: World<S>, ops: seq<Operation>)
    requires Total(tools) && Backlogged(w) && w.pending == [] && Budget(w) >= |ops| + 4 && !w.replayCommitted
    requires DistinctOps(tools, ops) && forall op :: op in ops ==> Publishable(tools, op)
    requires w.logBytes + WriteBytes(tools, ops) + ClosingBytes(tools.size, Backlog(tools, ops)) <= MAX_OUTBOX_BYTES
    ensures ActiveStore(Ran(tools, w, Calls(ops) + [Round(None), Round(None)])) ==
            Fold(tools, ActiveStore(w), ops + Overrun(ops))
    ensures Overrun(ops) == [] <==> |ops| <= 128
  {
    FullBacklog(tools, w, ops);
    TwoRoundsOverrun(tools, Ran(tools, w, Calls(ops)), ActiveStore(w), ops);
    RanTwoRounds(tools, w, Calls(ops));
  }

  // ---------- An instance ----------

  /** A store that only remembers what was run on it. */
  function LogTools(key: Operation -> string, size: Event -> nat,
                    auditSize: AuditRecord -> nat): Tools<seq<Operation>> {
    Tools((log, op) => Some(log + [op]), log => map[], (log, workspace) => map[], log => [], log => {}, log => {},
          name => true, key, (deltas, ops) => true, projections => true, size, auditSize)
  }

  /** It satisfies every hypothesis made about stores. */
  lemma LogToolsQualify(key: Operation -> string, size: Event -> nat, auditSize: AuditRecord -> nat)
    ensures var tools := LogTools(key, size, auditSize);
      Lawful(tools) && Accumulating(tools, log => |log|) && Total(tools)
  {
  }

  lemma {:induction false} FoldIsLog(tools: Tools<seq<Operation>>, log: seq<Operation>, ops: seq<Operation>)
    requires tools == LogTools(tools.key, tools.size, tools.auditSize)
    ensures Fold(tools, log, ops) == log + ops
  {
    if ops == [] {
      assert log + ops == log;
    } else {
      var n := |ops| - 1;
      FoldIsLog(tools, log, ops[..n]);
      assert log + ops == log + ops[..n] + [ops[n]];
    }
  }

  /** On it the overrun can be read off: the active store has run the operations and then some of them again. */
  lemma LogOverruns(tools: Tools<seq<Operation>>, w: World<seq<Operation>>, ops: seq<Operation>)
    requires tools == LogTools(tools.key, tools.size, tools.auditSize)
    requires Backlogged(w) && w.pending == [] && Budget(w) >= |ops| + 4 && !w.replayCommitted
    requires DistinctOps(tools, ops) && forall op :: op in ops ==> OperationWorkspace(op) != Some(SYSTEM_SCOPE)
    requires w.logBytes + WriteBytes(tools, ops) + ClosingBytes(tools.size, Backlog(tools, ops)) <= MAX_OUTBOX_BYTES
    ensures ActiveStore(Ran(tools, w, Calls(ops) + [Round(None), Round(None)])) == ActiveStore(w) + (ops + Overrun(ops))
  {
    LogToolsQualify(tools.key, tools.size, tools.auditSize);
    BacklogOverruns(tools, w, ops);
    FoldIsLog(tools, ActiveStore(w), ops + Overrun(ops));
  }
}
