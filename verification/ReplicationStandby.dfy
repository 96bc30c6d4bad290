/** While Redis stays reachable the standby is exactly the pending operations behind the active store. */
module ReplicationStandby {
  import opened Wrappers
  import opened Operations
  import opened OutboxLog
  import opened Stores
  import opened Replication
  import opened ReplicationSafety
  import opened ReplicationProgress
  import opened ReplicationFrozen
  import opened ReplicationRuns
  import opened ReplicationOverrun

  /** Running the pending operations on the standby, in order, succeeds and gives the active store. */
  ghost predicate Behind<S>(tools: Tools<S>, store: S, pending: seq<Entry>, active: S) {
    ReplayInto(tools, store, pending) == (active, true)
  }

  ghost predicate Follows<S>(tools: Tools<S>, w: World<S>) {
    && w.mode == RedisPrimary && w.active.Some? && !AnyWith(w.pending, false)
    && Behind(tools, w.store, w.pending, ActiveStore(w))
  }

  lemma {:induction false} ReplaySplits<S>(tools: Tools<S>, s: S, a: seq<Entry>, b: seq<Entry>)
    ensures ReplayInto(tools, s, a + b) ==
            if ReplayInto(tools, s, a).1 then ReplayInto(tools, ReplayInto(tools, s, a).0, b)
            else ReplayInto(tools, s, a)
    decreases |a|
  {
    if a == [] {
      assert a + b == b;
    } else if tools.apply(s, a[0].operation).Some? {
      assert (a + b)[1..] == a[1..] + b;
      ReplaySplits(tools, tools.apply(s, a[0].operation).value, a[1..], b);
    }
  }

  /** Marks are no concern of the replay. */
  lemma {:induction false} ReplayIgnoresMarks<S>(tools: Tools<S>, s: S, a: seq<Entry>, b: seq<Entry>)
    requires |a| == |b| && forall i :: 0 <= i < |a| ==> a[i].operation == b[i].operation
    ensures ReplayInto(tools, s, a) == ReplayInto(tools, s, b)
    decreases |a|
  {
    if a != [] && tools.apply(s, a[0].operation).Some? {
      ReplayIgnoresMarks(tools, tools.apply(s, a[0].operation).value, a[1..], b[1..]);
    }
  }

  /** A mirror on a standby that can run everything runs exactly the first batch. */
  lemma {:induction false} MirrorReplays<S>(tools: Tools<S>, w: World<S>, entries: seq<Entry>)
    requires ReplayInto(tools, w.store, entries).1
    ensures MirrorReplay(tools, w, entries).1
    ensures MirrorReplay(tools, w, entries).0.store == ReplayInto(tools, w.store, entries).0
    decreases |entries|
  {
    if entries != [] {
      var s := tools.apply(w.store, entries[0].operation).value;
      MirrorReplays(tools, w.(store := s, trace := w.trace + [Replayed(entries[0].key)]), entries[1..]);
    }
  }

  lemma PrefixBehind<S>(tools: Tools<S>, store: S, pending: seq<Entry>, active: S, n: nat)
    requires n <= |pending| && Behind(tools, store, pending, active)
    ensures ReplayInto(tools, store, pending[..n]).1
    ensures Behind(tools, ReplayInto(tools, store, pending[..n]).0, pending[n..], active)
  {
    assert pending == pending[..n] + pending[n..];
    ReplaySplits(tools, store, pending[..n], pending[n..]);
  }

  /** The mirror of a standby that follows stops for nothing but a full log. */
  lemma MirrorFollows<S>(tools: Tools<S>, w: World<S>)
    requires DistinctKeys(w.pending) && Follows(tools, w) && Mirror(tools, w).1 != Fail(OutboxFailed)
    ensures var (t, r) := Mirror(tools, w);
      && r.Pass? && Follows(tools, t) && t.pending == Tail(w.pending) && DistinctKeys(t.pending)
      && t == w.(store := t.store, pending := t.pending, logBytes := t.logBytes, trace := t.trace)
  {
    var n := FirstBatch(w.pending);
    var batch := w.pending[..n];
    PrefixBehind(tools, w.store, w.pending, ActiveStore(w), n);
    MirrorReplays(tools, w, batch);
    var replayed := MirrorReplay(tools, w, batch).0;
    MirrorReplayShape(tools, w, batch);
    CompleteAllDrops(tools, replayed, batch);
    CompletePrefix(tools, replayed, n);
    var t := CompleteAll(tools, replayed, batch).0;
    assert Mirror(tools, w) == (Compacted(tools, t), Pass);
    assert t.store == ReplayInto(tools, w.store, batch).0 && t.pending == w.pending[n..];
  }

  lemma FirstBatch(pending: seq<Entry>) returns (n: nat)
    requires !AnyWith(pending, false)
    ensures n <= |pending| && Batch(pending, true) == pending[..n] && Tail(pending) == pending[n..]
    ensures !AnyWith(pending[n..], false)
  {
    FilterAll(pending);
    n := |Batch(pending, true)|;
    assert forall i :: 0 <= i < |pending[n..]| ==> pending[n..][i] == pending[n + i];
  }

  lemma BatchFollows<S>(tools: Tools<S>, w: World<S>)
    requires DistinctKeys(w.pending) && Follows(tools, w) && ReconcileBatch(tools, w).1 != Fail(OutboxFailed)
    ensures Follows(tools, ReconcileBatch(tools, w).0)
  {
    FilterAll(w.pending);
    var start := Scan(w, [], {}, []);
    assert ScanAll(tools, start, []) == (start, Pass);
    assert PublishApplied(tools, start) == (start, Pass) && CheckpointLocal(tools, start) == (start, Pass);
    assert Settle(tools, w, [], {}) == (w, Pass) && RejectAll(tools, w, []) == (w, Pass);
    MirrorFollows(tools, Compacted(tools, w));
  }

  lemma ReconcileFollows<S>(tools: Tools<S>, w: World<S>)
    requires DistinctKeys(w.pending) && Follows(tools, w) && !Reruns(tools, w)
             && Reconcile(tools, w).1 != Fail(OutboxFailed)
    ensures Follows(tools, Reconcile(tools, w).0)
  {
    NothingReplayed(tools, w);
    if !WouldReplay(w) {
      MirrorFollows(tools, w);
      var mirrored := Mirror(tools, w).0;
      if mirrored.pending != [] {
        BatchFollows(tools, mirrored);
      }
    }
  }

  lemma SameFollows<S>(tools: Tools<S>, w: World<S>, t: World<S>)
    requires Follows(tools,
                     w) && t.store == w.store && t.pending == w.pending && t.active == w.active && t.mode == w.mode
    ensures Follows(tools, t)
  {
  }

  lemma CheckpointFollows<S>(tools: Tools<S>, w: World<S>)
    requires Follows(tools, w)
    ensures Follows(tools, CheckpointIfDue(tools, w).0)
  {
    var all := Everything(tools, ActiveStore(w));
    WholeShape(tools, w, w.revision, ActiveStore(w), all);
    SameFollows(tools, w, CheckpointIfDue(tools, w).0);
  }

  lemma TickFollows<S>(tools: Tools<S>, w: World<S>, offered: Option<Link>, used: set<string>)
    requires Good(tools, w, used) && Follows(tools, w) && !DoubleApplies(tools, w)
    requires Tick(tools, w, offered).1 != Fail(OutboxFailed)
    ensures Follows(tools, Tick(tools, w, offered).0)
  {
    TickIsRound(tools, w, offered);
    AskShape(w);
    SameFollows(tools, w, Ask(w).0);
    if Ask(w).1 {
      SameFollows(tools, w, Seen(w));
      ReconcileFollows(tools, Seen(w));
      CheckpointFollows(tools, Reconcile(tools, Seen(w)).0);
    }
  }

  lemma AppendedFollows<S>(tools: Tools<S>, store: S, pending: seq<Entry>, active: S, e: Entry, s: S)
    requires Behind(tools, store, pending, active) && tools.apply(active, e.operation) == Some(s)
    ensures Behind(tools, store, pending + [e], s)
  {
    ReplaySplits(tools, store, pending, [e]);
    assert [e][1..] == [];
  }

  /** A published mutation is the next thing the standby has to run. */
  lemma CommitFollows<S>(tools: Tools<S>, done: World<S>, pending: seq<Entry>, key: string, op: Operation, s: S)
    requires done.mode == RedisPrimary && done.active == Some(s) && done.pending == pending + [Entry(key, op, false)]
    requires DistinctKeys(done.pending) && !AnyWith(pending, false) && (forall e :: e in pending ==> e.key != key)
    requires Behind(tools, done.store, done.pending, s) && Commit(tools, done, key, op, s).1 != NotRecorded
    ensures var t := Commit(tools, done, key, op, s).0; t.mode == RedisPrimary ==> Follows(tools, t)
  {
    var ops, all := [OperationFor(key, op)], ProjectAll(tools, s, OperationScopes(op));
    PublishLocalShape(tools, done, ops, all);
    var (next, r) := PublishLocal(tools, done, ops, all);
    if r.Pass? {
      MarkedFollows(tools, next, pending, Entry(key, op, false), s);
    }
  }

  lemma MarkFollows<S>(tools: Tools<S>, w: World<S>, pending: seq<Entry>, e: Entry, s: S)
    requires w.mode == RedisPrimary && w.active == Some(s) && w.pending == pending + [e] && !e.redisCommitted
    requires DistinctKeys(w.pending) && !AnyWith(pending, false) && (forall x :: x in pending ==> x.key != e.key)
    requires Behind(tools, w.store, w.pending, s) && Mark(tools, w, e.key).1.Pass?
    ensures Follows(tools, Mark(tools, w, e.key).0) && DistinctKeys(Mark(tools, w, e.key).0.pending)
  {
    MarkShape(tools, w, e.key);
    MarkLast(pending, e);
    MarkIn(w.pending, e.key);
    LastMarkBehind(tools, w.store, pending, e, s);
  }

  lemma MarkedFollows<S>(tools: Tools<S>, w: World<S>, pending: seq<Entry>, e: Entry, s: S)
    requires w.mode == RedisPrimary && w.active == Some(s) && w.pending == pending + [e] && !e.redisCommitted
    requires DistinctKeys(w.pending) && !AnyWith(pending, false) && (forall x :: x in pending ==> x.key != e.key)
    requires Behind(tools, w.store, w.pending, s) && Mark(tools, w, e.key).1.Pass?
    ensures var marked := Mark(tools, w, e.key).0;
      Follows(tools, marked) && (Mirror(tools, marked).1 != Fail(OutboxFailed) ==>
                                 Follows(tools, Mirror(tools, marked).0))
  {
    MarkFollows(tools, w, pending, e, s);
    var marked := Mark(tools, w, e.key).0;
    if Mirror(tools, marked).1 != Fail(OutboxFailed) {
      MirrorFollows(tools, marked);
    }
  }

  lemma LastMarkBehind<S>(tools: Tools<S>, store: S, pending: seq<Entry>, e: Entry, s: S)
    requires Behind(tools, store, pending + [e], s)
    ensures Behind(tools, store, pending + [e.(redisCommitted := true)], s)
  {
    ReplayIgnoresMarks(tools, store, pending + [e], pending + [e.(redisCommitted := true)]);
  }

  lemma ExecuteFollows<S(!new)>(tools: Tools<S>, w: World<S>, op: Operation, used: set<string>)
    requires Lawful(tools) && Good(tools, w, used) && Follows(tools, w) && KeysUsed(tools, op) !! used
    requires Execute(tools, w, op).1 != NotRecorded
    ensures var t := Execute(tools, w, op).0; t.mode == RedisPrimary ==> Follows(tools, t)
  {
    if !tools.mutating(op.name) {
      assert Execute(tools, w, op).0 == w;
    } else {
      var e := Entry(tools.key(op), op, false);
      AppendIn(w.pending, e);
      QueueShape(tools, w, e);
      var queued := Queue(tools, w, e).0;
      match tools.apply(ActiveStore(w), op)
      case None =>
        WithoutLast(w.pending, e);
        CompleteDrops(tools, queued.(trace := queued.trace + [Failed(e.key)]), e.key);
        SameFollows(tools, w, Execute(tools, w, op).0);
      case Some(s) =>
        AppendedFollows(tools, w.store, w.pending, ActiveStore(w), e, s);
        CommitFollows(tools, WithActiveStore(queued, s), w.pending, e.key, op, s);
    }
  }

  lemma {:induction false} WithoutLast(entries: seq<Entry>, e: Entry)
    requires forall x :: x in entries ==> x.key != e.key
    ensures Without(entries + [e], e.key) == entries
  {
    if entries != [] {
      assert entries[0] in entries;
      assert (entries + [e])[1..] == entries[1..] + [e];
      WithoutLast(entries[1..], e);
    }
  }

  /** The outbox never refuses a record. */
  predicate Recorded<S>(tools: Tools<S>, w: World<S>, move: Move) {
    match move
    case Call(op) => Execute(tools, w, op).1 != NotRecorded
    case Round(offered) => Tick(tools, w, offered).1 != Fail(OutboxFailed)
    case Expire(_) => true
  }

  /** At every moment of the run Redis is primary, and no step is refused a record. */
  ghost predicate Healthy<S>(tools: Tools<S>, w: World<S>, moves: seq<Move>) {
    && (forall i :: 0 <= i <= |moves| ==> Ran(tools, w, moves[..i]).mode == RedisPrimary)
    && (forall i :: 0 <= i < |moves| ==> Recorded(tools, Ran(tools, w, moves[..i]), moves[i]))
  }

  /** As long as the coordinator never has to fall back and finds room in its log, whatever calls and rounds it sees,
      everything pending is committed and running it on the standby, in order, would give the active store; an empty
      outbox means an equal standby. */
  lemma {:induction false} StandbyFollows<S(!new)>(tools: Tools<S>, w: World<S>, moves: seq<Move>)
    requires Lawful(tools) && Start(tools, w) && w.store == ActiveStore(w)
    requires DistinctCalls(tools, moves, w.img.ledger.Keys)
    requires NeverDoubleApplies(tools, w, moves) && Healthy(tools, w, moves)
    ensures var t := Ran(tools, w, moves);
      Follows(tools, t) && (t.pending == [] ==> t.store == ActiveStore(t))
  {
    if moves != [] {
      var n := |moves| - 1;
      var used := w.img.ledger.Keys;
      PrefixRuns(tools, w, moves, n, used);
      PrefixHealthy(tools, w, moves, n);
      StandbyFollows(tools, w, moves[..n]);
      HealthyIsGood(tools, w, moves[..n]);
      assert moves[..|moves|] == moves;
      MoveFollows(tools, Ran(tools, w, moves[..n]), moves[n], used + RunKeys(tools, moves[..n]));
    }
  }

  lemma HealthyStep<S(!new)>(tools: Tools<S>, w: World<S>, moves: seq<Move>, n: nat, used: set<string>)
    requires Lawful(tools) && n == |moves| - 1 && Recorded(tools, Ran(tools, w, moves[..n]), moves[n])
    requires Good(tools, Ran(tools, w, moves[..n]), used + RunKeys(tools, moves[..n]))
             && Tidy(tools, Ran(tools, w, moves[..n]))
    requires MoveKeys(tools, moves[n]) !! used + RunKeys(tools, moves[..n])
    requires moves[n].Round? ==> !DoubleApplies(tools, Ran(tools, w, moves[..n]))
    ensures var t := Ran(tools, w, moves); Good(tools, t, used + RunKeys(tools, moves)) && Tidy(tools, t)
  {
    var before := Ran(tools, w, moves[..n]);
    if moves[n].Call? {
      RecordedIsTakenBack(tools, before, moves[n].op);
    }
    TidyMoveKeeps(tools, before, moves[n], used + RunKeys(tools, moves[..n]));
    assert used + RunKeys(tools, moves) == used + RunKeys(tools, moves[..n]) + MoveKeys(tools, moves[n]);
  }

  lemma {:induction false} HealthyIsGood<S(!new)>(tools: Tools<S>, w: World<S>, moves: seq<Move>)
    requires Lawful(tools) && Start(tools, w)
    requires DistinctCalls(tools, moves, w.img.ledger.Keys)
    requires NeverDoubleApplies(tools, w, moves) && Healthy(tools, w, moves)
    ensures var t := Ran(tools, w, moves); Good(tools, t, w.img.ledger.Keys + RunKeys(tools, moves)) && Tidy(tools, t)
  {
    var used := w.img.ledger.Keys;
    if moves == [] {
      StartIsGood(tools, w);
      assert used + {} == used;
    } else {
      var n := |moves| - 1;
      PrefixRuns(tools, w, moves, n, used);
      PrefixHealthy(tools, w, moves, n);
      HealthyIsGood(tools, w, moves[..n]);
      HealthyStep(tools, w, moves, n, used);
    }
  }

  lemma RecordedIsTakenBack<S>(tools: Tools<S>, w: World<S>, op: Operation)
    requires Execute(tools, w, op).1 != NotRecorded
    ensures !LeftBehind(tools, w, op)
  {
  }

  lemma PrefixHealthy<S>(tools: Tools<S>, w: World<S>, moves: seq<Move>, n: nat)
    requires n <= |moves| && Healthy(tools, w, moves)
    ensures Healthy(tools, w, moves[..n])
    ensures n < |moves| ==> Recorded(tools, Ran(tools, w, moves[..n]), moves[n])
  {
    forall i | 0 <= i <= n
      ensures Ran(tools, w, moves[..n][..i]).mode == RedisPrimary
      ensures i < n ==> Recorded(tools, Ran(tools, w, moves[..n][..i]), moves[..n][i])
    {
      assert moves[..n][..i] == moves[..i];
    }
  }

  lemma MoveFollows<S(!new)>(tools: Tools<S>, w: World<S>, move: Move, used: set<string>)
    requires Lawful(tools) && Good(tools, w, used) && Follows(tools, w) && MoveKeys(tools, move) !! used
    requires (move.Round? ==> !DoubleApplies(tools, w)) && Recorded(tools, w, move)
    ensures Next(tools, w, move).mode == RedisPrimary ==> Follows(tools, Next(tools, w, move))
  {
    match move
    case Call(op) => ExecuteFollows(tools, w, op, used);
    case Round(offered) => TickFollows(tools, w, offered, used);
    case Expire(_) => SameFollows(tools, w, Next(tools, w, move));
  }
}
