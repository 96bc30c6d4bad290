/** When failover safety holds: the replay of committed entries into the active store, the backlog that triggers it, and
    the outbox depth that rules it out. */
module ReplicationBacklog {
  import opened Wrappers
  import opened Operations
  import opened OutboxLog
  import opened Stores
  import opened Replication
  import opened ReplicationSafety
  import opened ReplicationProgress
  import opened ReplicationCalm
  import opened ReplicationRoom
  import opened ReplicationFrozen
  import opened ReplicationRuns

  // ---------- A shallow outbox is safe ----------

  const SAFE_DEPTH: nat := 128

  lemma NoneLeft(entries: seq<Entry>)
    requires |entries| == Tally(entries, false)
    ensures !AnyWith(entries, true)
  {
    CountsAdd(entries);
    FilterIn(entries, true);
    AnyWithIn(entries, true);
  }

  /** A reconciliation that starts with at most two batches pending does not ask for a replay. */
  lemma ShallowReconcile<S>(tools: Tools<S>, w: World<S>)
    requires Calm(w) && |w.pending| <= SAFE_DEPTH && !w.replayCommitted
    ensures !Reconcile(tools, w).0.replayCommitted
  {
    var (t, r) := Reconcile(tools, w);
    ReconcileStill(tools, w);
    if r.Pass? {
      MirrorCount(tools, w);
      CountsAdd(w.pending);
      var mirrored := Mirror(tools, w).0;
      CountsAdd(mirrored.pending);
      if mirrored.pending != [] {
        BatchCount(tools, mirrored);
        CountsAdd(t.pending);
        NoneLeft(t.pending);
      }
    }
  }

  lemma ShallowAttach<S(!new)>(tools: Tools<S>, w: World<S>, link: Link, used: set<string>)
    requires Lawful(tools) && Good(tools, w, used) && w.mode == SqliteFallback
    requires |w.pending| <= SAFE_DEPTH && !w.replayCommitted
    ensures !Attach(tools, w, link).0.replayCommitted
  {
    AdoptKeeps(tools, w, link, used);
    AdoptShape(tools, w.(link := Some(link)));
    var (adopted, r) := Adopt(tools, w.(link := Some(link)));
    if r.Pass? {
      AttachedIsGood(tools, w, adopted, used);
      ShallowReconcile(tools, Attached(w, adopted));
    }
  }

  lemma ShallowRound<S>(tools: Tools<S>, w: World<S>)
    requires Calm(w) && |w.pending| <= SAFE_DEPTH && !w.replayCommitted
    ensures !ReconcileRound(tools, w).0.replayCommitted
  {
    ShallowReconcile(tools, w);
    ReconcileStill(tools, w);
    CheckpointStill(tools, Reconcile(tools, w).0);
  }

  lemma ShallowTick<S(!new)>(tools: Tools<S>, w: World<S>, offered: Option<Link>, used: set<string>)
    requires Lawful(tools) && Good(tools, w, used) && |w.pending| <= SAFE_DEPTH && !w.replayCommitted
    ensures !Tick(tools, w, offered).0.replayCommitted
  {
    if w.link.None? {
      if offered.Some? {
        ShallowAttach(tools, w, offered.value, used);
      }
    } else {
      TickIsRound(tools, w, offered);
      AskShape(w);
      if Ask(w).1 {
        ShallowRound(tools, Seen(w));
      }
    }
  }

  lemma CommitFlags<S>(tools: Tools<S>, w: World<S>, key: string, op: Operation, s: S)
    ensures Commit(tools, w, key, op, s).0.replayCommitted == w.replayCommitted
  {
    var ops, projections := [OperationFor(key, op)], ProjectAll(tools, s, OperationScopes(op));
    PublishLocalShape(tools, w, ops, projections);
    var (next, r) := PublishLocal(tools, w, ops, projections);
    ConcludeShape(tools, next, key, r);
  }

  lemma ExecuteFlags<S>(tools: Tools<S>, w: World<S>, op: Operation)
    ensures Execute(tools, w, op).0.replayCommitted == w.replayCommitted
  {
    if tools.mutating(op.name) {
      MutateFlags(tools, Prepare(w), tools.key(op), op);
    }
  }

  lemma MutateFlags<S>(tools: Tools<S>, w: World<S>, key: string, op: Operation)
    ensures Mutate(tools, w, key, op).0.replayCommitted == w.replayCommitted
  {
    var queued := Queue(tools, w, Entry(key, op, false)).0;
    match tools.apply(ActiveStore(w), op)
    case Some(s) => CommitFlags(tools, WithActiveStore(queued, s), key, op, s);
    case None => TakeBackOnly(tools, queued, key);
  }

  /** No watcher round of the run begins with more than two batches pending. */
  ghost predicate Shallow<S>(tools: Tools<S>, w: World<S>, moves: seq<Move>) {
    forall i :: 0 <= i < |moves| && moves[i].Round? ==> |Ran(tools, w, moves[..i]).pending| <= SAFE_DEPTH
  }

  lemma {:induction false} ShallowRunsNeverReplay<S(!new)>(tools: Tools<S>, w: World<S>, moves: seq<Move>)
    requires Lawful(tools) && ShortestCompleted(tools) && Start(tools, w)
    requires DistinctCalls(tools, moves, w.img.ledger.Keys) && Shallow(tools, w, moves)
    ensures NeverDoubleApplies(tools, w, moves) && !Ran(tools, w, moves).replayCommitted
  {
    if moves != [] {
      var n := |moves| - 1;
      ShallowPrefix(tools, w, moves, n);
      CallsPrefix(tools, moves, n, w.img.ledger.Keys);
      ShallowRunsNeverReplay(tools, w, moves[..n]);
      ShallowStep(tools, w, moves, n);
    }
  }

  lemma ShallowStep<S(!new)>(tools: Tools<S>, w: World<S>, moves: seq<Move>, n: nat)
    requires Lawful(tools) && ShortestCompleted(tools) && Start(tools, w) && n == |moves| - 1
    requires DistinctCalls(tools, moves[..n], w.img.ledger.Keys) && Shallow(tools, w, moves)
    requires NeverDoubleApplies(tools, w, moves[..n]) && !Ran(tools, w, moves[..n]).replayCommitted
    ensures NeverDoubleApplies(tools, w, moves) && !Ran(tools, w, moves).replayCommitted
  {
    FailoverSafety(tools, w, moves[..n]);
    NeverExtends(tools, w, moves);
    ShallowMove(tools, Ran(tools, w, moves[..n]), moves[n], w.img.ledger.Keys + RunKeys(tools, moves[..n]));
  }

  /** A run whose watcher keeps up, with never more than 128 entries pending when a round begins, never double-applies;
      with `FailoverSafety`, its active state is the fold of its operations. */
  lemma ShallowRunsAreSafe<S(!new)>(tools: Tools<S>, w: World<S>, moves: seq<Move>)
    requires Lawful(tools) && ShortestCompleted(tools) && Start(tools, w)
    requires DistinctCalls(tools, moves, w.img.ledger.Keys) && Shallow(tools, w, moves)
    ensures NeverDoubleApplies(tools, w, moves) && !Ran(tools, w, moves).replayCommitted
    ensures ActiveStore(Ran(tools, w, moves)) == Fold(tools, ActiveStore(w), Executed(tools, w, moves))
  {
    ShallowRunsNeverReplay(tools, w, moves);
    FailoverSafety(tools, w, moves);
  }

  lemma ShallowMove<S(!new)>(tools: Tools<S>, w: World<S>, move: Move, used: set<string>)
    requires Lawful(tools) && Safe(tools, w, used) && !w.replayCommitted && (move.Round? ==> |w.pending| <= SAFE_DEPTH)
    ensures !Next(tools, w, move).replayCommitted
  {
    match move
    case Call(op) => ExecuteFlags(tools, w, op);
    case Round(offered) =>
      if Frozen(tools, w, used) {
        FrozenTick(tools, w, offered, used);
      } else {
        ShallowTick(tools, w, offered, used);
      }
    case Expire(_) =>
  }

  lemma ShallowPrefix<S>(tools: Tools<S>, w: World<S>, moves: seq<Move>, n: nat)
    requires n < |moves| && Shallow(tools, w, moves)
    ensures Shallow(tools, w, moves[..n]) && (moves[n].Round? ==> |Ran(tools, w, moves[..n]).pending| <= SAFE_DEPTH)
  {
    forall i | 0 <= i < n && moves[..n][i].Round?
      ensures |Ran(tools, w, moves[..n][..i]).pending| <= SAFE_DEPTH
    {
      assert moves[..n][..i] == moves[..i];
    }
  }

  lemma CallsPrefix<S>(tools: Tools<S>, moves: seq<Move>, n: nat, used: set<string>)
    requires n <= |moves| && DistinctCalls(tools, moves, used)
    ensures DistinctCalls(tools, moves[..n], used)
  {
    forall i | 0 <= i < n
      ensures MoveKeys(tools, moves[..n][i]) !! used + RunKeys(tools, moves[..n][..i])
    {
      assert moves[..n][..i] == moves[..i];
    }
  }

  lemma NeverExtends<S>(tools: Tools<S>, w: World<S>, moves: seq<Move>)
    requires moves != [] && NeverDoubleApplies(tools, w, moves[..|moves| - 1])
    ensures NeverDoubleApplies(tools, w, moves) <==>
      (moves[|moves| - 1].Round? ==> !DoubleApplies(tools, Ran(tools, w, moves[..|moves| - 1])))
  {
    var n := |moves| - 1;
    forall i | 0 <= i < n && moves[i].Round?
      ensures !DoubleApplies(tools, Ran(tools, w, moves[..i]))
    {
      NeverBefore(tools, w, moves, n, i);
    }
  }

  lemma NeverBefore<S>(tools: Tools<S>, w: World<S>, moves: seq<Move>, n: nat, i: nat)
    requires i < n <= |moves| && moves[i].Round? && NeverDoubleApplies(tools, w, moves[..n])
    ensures !DoubleApplies(tools, Ran(tools, w, moves[..i]))
  {
    assert moves[..n][..i] == moves[..i] && moves[..n][i] == moves[i];
  }

  // ---------- The guard is exact ----------

  /** A store on which every mutation that succeeds leaves more behind, as appends and counters do. */
  ghost predicate Accumulating<S(!new)>(tools: Tools<S>, weight: S -> nat) {
    forall s: S, op: Operation :: tools.mutating(op.name) && tools.apply(s, op).Some? ==>
      weight(tools.apply(s, op).value) > weight(s)
  }

  lemma {:induction false} ReplayGrows<S(!new)>(tools: Tools<S>, weight: S -> nat, s: S, entries: seq<Entry>)
    requires Accumulating(tools, weight) && Mutations(tools, entries)
    ensures var t := ReplayInto(tools, s, entries).0;
      && weight(t) >= weight(s)
      && (entries != [] && tools.apply(s, entries[0].operation).Some? ==> weight(t) > weight(s))
    decreases |entries|
  {
    if entries != [] && tools.apply(s, entries[0].operation).Some? {
      assert IsMutation(tools, entries[0]) by {
        assert entries[0] in entries;
      }
      ReplayGrows(tools, weight, tools.apply(s, entries[0].operation).value, entries[1..]);
    }
  }

  lemma RerunGrows<S(!new)>(tools: Tools<S>, weight: S -> nat, w: World<S>)
    requires Reruns(tools, w) && Mutations(tools, w.pending) && Accumulating(tools, weight)
    ensures weight(ActiveStore(ReplayCommittedIntoActive(tools, w).0)) > weight(ActiveStore(w))
  {
    BatchIn(w.pending, true);
    ReplayGrows(tools, weight, ActiveStore(w), Batch(w.pending, true));
  }

  lemma ReconcileGrows<S(!new)>(tools: Tools<S>, weight: S -> nat, w: World<S>)
    requires Calm(w) && Reruns(tools, w) && Mutations(tools, w.pending) && Accumulating(tools, weight)
    ensures weight(ActiveStore(Reconcile(tools, w).0)) > weight(ActiveStore(w))
  {
    RerunGrows(tools, weight, w);
    ReconcileStill(tools, w);
  }

  lemma JammedGrows<S(!new)>(tools: Tools<S>, weight: S -> nat, w: World<S>, used: set<string>)
    requires Frozen(tools, w, used) && Reruns(tools, w) && Accumulating(tools, weight)
    ensures var (t, r) := Reconcile(tools, w); r.Fail? && weight(ActiveStore(t)) > weight(ActiveStore(w))
  {
    RerunGrows(tools, weight, w);
    BatchIn(w.pending, true);
    var (replayed, r) := ReplayCommittedIntoActive(tools, w);
    if r.Pass? {
      JammedMirror(tools, replayed);
    }
  }

  lemma RoundGrows<S(!new)>(tools: Tools<S>, weight: S -> nat, w: World<S>, used: set<string>)
    requires Safe(tools, w, used) && w.mode == RedisPrimary && Reruns(tools, w) && Accumulating(tools, weight)
    ensures weight(ActiveStore(ReconcileRound(tools, w).0)) > weight(ActiveStore(w))
  {
    if Frozen(tools, w, used) {
      JammedGrows(tools, weight, w, used);
    } else {
      ReconcileGrows(tools, weight, w);
      ReconcileStill(tools, w);
      CheckpointStill(tools, Reconcile(tools, w).0);
    }
  }

  lemma SeenIsSafe<S>(tools: Tools<S>, w: World<S>, used: set<string>)
    requires Safe(tools, w, used) && w.link.Some?
    ensures Safe(tools, Seen(w), used)
  {
    if Frozen(tools, w, used) {
      SeenIdles(tools, w, used);
    } else {
      SeenIsGood(tools, w, used);
      AskShape(w);
    }
  }

  lemma TickGrows<S(!new)>(tools: Tools<S>, weight: S -> nat, w: World<S>, offered: Option<Link>, used: set<string>)
    requires Safe(tools, w, used) && DoubleApplies(tools, w) && Accumulating(tools, weight)
    ensures weight(ActiveStore(Tick(tools, w, offered).0)) > weight(ActiveStore(w))
  {
    SafeIsSound(tools, w, used);
    SeenIsSafe(tools, w, used);
    AskShape(w);
    TickIsRound(tools, w, offered);
    RoundGrows(tools, weight, Seen(w), used);
  }

  lemma {:induction false} FirstDoubleApply<S>(tools: Tools<S>, w: World<S>, moves: seq<Move>) returns (i: nat)
    requires !NeverDoubleApplies(tools, w, moves)
    ensures i < |moves| && moves[i].Round? && DoubleApplies(tools, Ran(tools, w, moves[..i]))
    ensures NeverDoubleApplies(tools, w, moves[..i])
  {
    var n := |moves| - 1;
    if NeverDoubleApplies(tools, w, moves[..n]) {
      NeverExtends(tools, w, moves);
      i := n;
    } else {
      i := FirstDoubleApply(tools, w, moves[..n]);
      assert moves[..n][..i] == moves[..i];
    }
  }

  /** Failover safety holds exactly when the guard of the replay never fires: on a store where mutations that succeed
      accumulate, every state of a run serves the fold of the operations executed so far if and only if no watcher round
      double-applies. */
  lemma FailoverSafetyIsExact<S(!new)>(tools: Tools<S>, weight: S -> nat, w: World<S>, moves: seq<Move>)
    requires Lawful(tools) && ShortestCompleted(tools) && Accumulating(tools, weight) && Start(tools, w)
    requires DistinctCalls(tools, moves, w.img.ledger.Keys)
    ensures NeverDoubleApplies(tools, w, moves) <==>
      forall k :: 0 <= k <= |moves| ==>
        ActiveStore(Ran(tools, w, moves[..k])) == Fold(tools, ActiveStore(w), Executed(tools, w, moves[..k]))
  {
    var used := w.img.ledger.Keys;
    if NeverDoubleApplies(tools, w, moves) {
      forall k | 0 <= k <= |moves|
        ensures ActiveStore(Ran(tools, w, moves[..k])) == Fold(tools, ActiveStore(w), Executed(tools, w, moves[..k]))
      {
        PrefixRuns(tools, w, moves, k, used);
        FailoverSafety(tools, w, moves[..k]);
      }
    } else {
      var i := FirstDoubleApply(tools, w, moves);
      CallsPrefix(tools, moves, i, used);
      FailoverSafety(tools, w, moves[..i]);
      TickGrows(tools, weight, Ran(tools, w, moves[..i]), moves[i].offered, used + RunKeys(tools, moves[..i]));
      RoundStep(tools, w, moves, i);
      assert 0 <= i + 1 <= |moves|;
    }
  }

  lemma RoundStep<S>(tools: Tools<S>, w: World<S>, moves: seq<Move>, i: nat)
    requires i < |moves| && moves[i].Round?
    ensures Ran(tools, w, moves[..i + 1]) == Tick(tools, Ran(tools, w, moves[..i]), moves[i].offered).0
    ensures Executed(tools, w, moves[..i + 1]) == Executed(tools, w, moves[..i])
  {
    var longer := moves[..i + 1];
    assert longer[..|longer| - 1] == moves[..i] && longer[|longer| - 1] == moves[i];
    assert Executed(tools, w, moves[..i]) + [] == Executed(tools, w, moves[..i]);
  }
}
