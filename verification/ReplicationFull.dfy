/** Runs that fill the log: a few large writes between two watcher rounds, and then no run ever changes it again. */
module ReplicationFull {
  import opened Wrappers
  import opened Operations
  import opened OutboxLog
  import opened Stores
  import opened Replication
  import opened ReplicationSafety
  import opened ReplicationCalm
  import opened ReplicationRoom
  import opened ReplicationRuns
  import opened ReplicationOverrun

  // ---------- A full log stays full ----------

  lemma JammedNext<S>(tools: Tools<S>, w: World<S>, move: Move)
    requires Jammed(tools, w) && Mutations(tools, w.pending)
    ensures SameLog(w, Next(tools, w, move))
  {
    match move
    case Call(op) => FullExecute(tools, w, op);
    case Round(offered) => JammedTick(tools, w, offered);
    case Expire(_) =>
  }

  /** The log is what it was, and a new mutation would be turned away. */
  ghost predicate Final<S>(tools: Tools<S>, w: World<S>, t: World<S>) {
    && SameLog(w, t)
    && forall op: Operation :: tools.mutating(op.name) && !HasKey(w.pending, tools.key(op)) ==>
         Execute(tools, t, op).1 == NotRecorded
  }

  /** A log without room for any event, with a committed entry in it, never changes again: no run of calls, rounds, lost
      and regained connections drains it, compacts it or records another mutation. */
  lemma {:induction false} FullLogIsFinal<S>(tools: Tools<S>, w: World<S>, moves: seq<Move>)
    requires Jammed(tools, w) && Mutations(tools, w.pending)
    ensures Final(tools, w, Ran(tools, w, moves))
  {
    if moves != [] {
      var n := |moves| - 1;
      FullLogIsFinal(tools, w, moves[..n]);
      JammedNext(tools, Ran(tools, w, moves[..n]), moves[n]);
    }
    var t := Ran(tools, w, moves);
    forall op: Operation | tools.mutating(op.name) && !HasKey(w.pending, tools.key(op))
      ensures Execute(tools, t, op).1 == NotRecorded
    {
      FullExecute(tools, t, op);
    }
  }

  lemma RefusedMirrorJams<S>(tools: Tools<S>, w: World<S>)
    requires ShortestCompleted(tools) && DistinctKeys(w.pending) && Mutations(tools, w.pending)
    requires Mirror(tools, w).1 == Fail(OutboxFailed)
    ensures Jammed(tools, Mirror(tools, w).0) && Mutations(tools, Mirror(tools, w).0.pending)
  {
    MirrorShape(tools, w);
    RefusedMirrorSticks(tools, w);
    StuckIsFull(tools, Mirror(tools, w).0);
  }

  /** So the first completion that a mirror is refused is the last event the outbox ever saw. */
  lemma RefusedMirrorIsFinal<S>(tools: Tools<S>, w: World<S>, moves: seq<Move>)
    requires ShortestCompleted(tools) && DistinctKeys(w.pending) && Mutations(tools, w.pending)
    requires Mirror(tools, w).1 == Fail(OutboxFailed)
    ensures var t := Mirror(tools, w).0; Final(tools, t, Ran(tools, t, moves))
  {
    RefusedMirrorJams(tools, w);
    FullLogIsFinal(tools, Mirror(tools, w).0, moves);
  }

  // ---------- Reaching it ----------

  lemma StartIsBacklogged<S>(tools: Tools<S>, w: World<S>)
    requires Start(tools, w) && w.background
    ensures Backlogged(w)
  {
  }

  /** A round on a backlog that the log has no room to complete. */
  lemma RoundJams<S(!new)>(tools: Tools<S>, w: World<S>)
    requires Total(tools) && ShortestCompleted(tools) && Backlogged(w) && Budget(w) >= 1 && !w.replayCommitted
    requires Mutations(tools, w.pending) && w.logBytes <= MAX_OUTBOX_BYTES
    requires w.logBytes + ClosingBytes(tools.size, Head(w.pending)) > MAX_OUTBOX_BYTES
    ensures var (t, r) := Tick(tools, w, None);
      r == Fail(OutboxFailed) && Jammed(tools, t) && Mutations(tools, t.pending) && ActiveStore(t) == ActiveStore(w)
  {
    var asked := Ask(w).0;
    var seen := asked.(lastRemote := Some(asked.img.revision));
    assert Ask(w).1 && Observe(tools, asked) == (seen, Pass);
    FilterAll(w.pending);
    assert Batch(seen.pending, true) == Head(w.pending);
    MirrorReplayTotal(tools, seen, Head(w.pending));
    MirrorDrainsIff(tools, seen);
    MirrorOnly(tools, seen);
    assert Reconcile(tools, seen) == Mirror(tools, seen);
    MirrorRefusal(tools, seen);
    RefusedMirrorJams(tools, seen);
  }

  lemma MirrorRefusal<S>(tools: Tools<S>, w: World<S>)
    requires MirrorReplay(tools, w, Batch(w.pending, true)).1 && Mirror(tools, w).1.Fail?
    ensures Mirror(tools, w).1 == Fail(OutboxFailed)
  {
    CompleteAllDrops(tools, MirrorReplay(tools, w, Batch(w.pending, true)).0, Batch(w.pending, true));
  }

  /** Healthy writes that fit the log but leave no room to complete their first batch, and one watcher round: after that
      no run changes the log, no new mutation is recorded, and what is served is still the fold of the writes. */
  lemma WritesFillLog<S(!new)>(tools: Tools<S>, w: World<S>, ops: seq<Operation>, moves: seq<Move>)
    requires Total(tools) && ShortestCompleted(tools) && Start(tools, w) && w.background && Budget(w) >= |ops| + 1
    requires DistinctOps(tools, ops) && forall op :: op in ops ==> Publishable(tools, op)
    requires WriteBytes(tools, ops) <= MAX_OUTBOX_BYTES
    requires WriteBytes(tools, ops) + ClosingBytes(tools.size, Head(Backlog(tools, ops))) > MAX_OUTBOX_BYTES
    ensures var filled := Ran(tools, w, Calls(ops));
      var (t, r) := Tick(tools, filled, None);
      && filled.pending == Backlog(tools, ops) && r == Fail(OutboxFailed) && Final(tools, t, Ran(tools, t, moves))
      && ActiveStore(t) == Fold(tools, ActiveStore(w), ops)
  {
    StartIsBacklogged(tools, w);
    WritesBuildBacklog(tools, w, ops, |ops|);
    assert ops[..|ops|] == ops;
    var filled := Ran(tools, w, Calls(ops));
    BacklogIsMutations(tools, ops);
    RoundJams(tools, filled);
    FullLogIsFinal(tools, Tick(tools, filled, None).0, moves);
  }

  lemma BacklogIsMutations<S>(tools: Tools<S>, ops: seq<Operation>)
    requires forall op :: op in ops ==> Publishable(tools, op)
    ensures Mutations(tools, Backlog(tools, ops))
  {
    forall e | e in Backlog(tools, ops)
      ensures IsMutation(tools, e)
    {
      var i :| 0 <= i < |ops| && Backlog(tools, ops)[i] == e;
      assert ops[i] in ops;
    }
  }

  /** Entries of 2 MiB, as a large argument makes them. */
  function LargeEntries(event: Event): nat {
    match event
    case Pending(_) => 2 * 1024 * 1024 - 2
    case Completed(_) => 100
  }

  lemma TwoLargeWritesBytes<S>(tools: Tools<S>, a: Operation, b: Operation)
    requires tools.size == LargeEntries
    ensures WriteBytes(tools, [a, b]) == 8 * 1024 * 1024 - 4
    ensures ClosingBytes(tools.size, Head(Backlog(tools, [a, b]))) == 202
  {
    var ops := [a, b];
    assert ops[..1] == [a] && [a][..0] == [];
    assert WriteBytes(tools, [a]) == CallBytes(tools, a);
    var all := Backlog(tools, ops);
    assert Head(all) == all && all[1..][1..] == [];
    assert ClosingBytes(tools.size, all[1..]) == 101;
  }

  lemma LargeToolsQualify(tools: Tools<seq<Operation>>, a: Operation, b: Operation)
    requires tools == LogTools(tools.key, LargeEntries, tools.auditSize) && tools.key(a) != tools.key(b)
    requires OperationWorkspace(a) != Some(SYSTEM_SCOPE) && OperationWorkspace(b) != Some(SYSTEM_SCOPE)
    ensures Total(tools) && ShortestCompleted(tools) && tools.size == LargeEntries && DistinctOps(tools, [a, b])
    ensures Publishable(tools, a) && Publishable(tools, b)
  {
  }

  /** Two such writes between two rounds are enough. */
  lemma TwoLargeWritesFillLog(tools: Tools<seq<Operation>>, w: World<seq<Operation>>, a: Operation, b: Operation,
                              moves: seq<Move>)
    requires tools == LogTools(tools.key, LargeEntries, tools.auditSize) && tools.key(a) != tools.key(b)
    requires OperationWorkspace(a) != Some(SYSTEM_SCOPE) && OperationWorkspace(b) != Some(SYSTEM_SCOPE)
    requires Start(tools, w) && w.background && Budget(w) >= 3
    ensures var (t, r) := Tick(tools, Ran(tools, w, [Call(a), Call(b)]), None);
      r == Fail(OutboxFailed) && Final(tools, t, Ran(tools, t, moves))
  {
    LargeToolsQualify(tools, a, b);
    TwoWritesFillLog(tools, w, a, b, moves);
  }

  lemma TwoWritesFillLog<S(!new)>(tools: Tools<S>, w: World<S>, a: Operation, b: Operation, moves: seq<Move>)
    requires Total(tools) && ShortestCompleted(tools) && tools.size == LargeEntries && DistinctOps(tools, [a, b])
    requires Publishable(tools, a) && Publishable(tools, b) && Start(tools, w) && w.background && Budget(w) >= 3
    ensures var (t, r) := Tick(tools, Ran(tools, w, [Call(a), Call(b)]), None);
      r == Fail(OutboxFailed) && Final(tools, t, Ran(tools, t, moves))
  {
    assert Calls([a, b]) == [Call(a), Call(b)];
    TwoLargeWritesBytes(tools, a, b);
    WritesFillLog(tools, w, [a, b], moves);
  }
}
