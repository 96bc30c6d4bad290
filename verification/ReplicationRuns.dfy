/** Whole runs of a lone coordinator: any mix of tool calls, watcher rounds, lost and regained connections, and markers
    that expire. */
module ReplicationRuns {
  import opened Wrappers
  import opened Operations
  import opened RedisServer
  import opened NativeRecords
  import opened KeyLayout
  import opened Publish
  import opened PublishCalls
  import Remote
  import opened Stores
  import opened Replication
  import opened ReplicationSafety
  import opened ReplicationRoom
  import opened ReplicationFrozen

  datatype Move = Call(op: Operation) | Round(offered: Option<Link>) | Expire(key: string)

  function Next<S>(tools: Tools<S>, w: World<S>, move: Move): World<S> {
    match move
    case Call(op) => Execute(tools, w, op).0
    case Round(offered) => Tick(tools, w, offered).0
    case Expire(key) => w.(img := w.img.(markers := w.img.markers - {key}))
  }

  function Ran<S>(tools: Tools<S>, w: World<S>, moves: seq<Move>): World<S> {
    if moves == [] then w else Next(tools, Ran(tools, w, moves[..|moves| - 1]), moves[|moves| - 1])
  }

  /** The mutations of a run that executed successfully, in order. */
  function Executed<S>(tools: Tools<S>, w: World<S>, moves: seq<Move>): seq<Operation> {
    if moves == [] then []
    else
      var front, last := moves[..|moves| - 1], moves[|moves| - 1];
      Executed(tools, w, front) +
      if last.Call? && Runs(tools, Ran(tools, w, front), last.op) then [last.op] else []
  }

  /** The mutation is queued, so it runs, and it succeeds. */
  predicate Runs<S>(tools: Tools<S>, w: World<S>, op: Operation) {
    tools.mutating(op.name) && Admitted(tools, w, op) && tools.apply(ActiveStore(w), op).Some?
  }

  function MoveKeys<S>(tools: Tools<S>, move: Move): set<string> {
    if move.Call? then KeysUsed(tools, move.op) else {}
  }

  function RunKeys<S>(tools: Tools<S>, moves: seq<Move>): set<string> {
    if moves == [] then {} else RunKeys(tools, moves[..|moves| - 1]) + MoveKeys(tools, moves[|moves| - 1])
  }

  /** No mutation of the run is issued twice, and none was issued before. */
  ghost predicate DistinctCalls<S>(tools: Tools<S>, moves: seq<Move>, used: set<string>) {
    forall i :: 0 <= i < |moves| ==> MoveKeys(tools, moves[i]) !! used + RunKeys(tools, moves[..i])
  }

  /** Just after a successful attach with an empty outbox: the log is compacted, and the active state, the cache and
      Redis agree. */
  ghost predicate Start<S>(tools: Tools<S>, w: World<S>) {
    && w.mode == RedisPrimary && w.active.Some? && w.link.Some?
    && w.pending == [] && w.logBytes == 0 && !w.replayCommitted
    && w.img.snapshot.Some? && (forall key :: key in w.img.markers ==> IsCommitted(w.img, key))
    && w.revision == w.img.revision && (forall scope :: Lookup(w.cache, scope) == RecordsOf(w.img, scope))
    && AllClean(tools, w.img, ActiveStore(w))
  }

  /** No watcher round of the run begins with committed entries that recovery believes it must replay. */
  ghost predicate NeverDoubleApplies<S>(tools: Tools<S>, w: World<S>, moves: seq<Move>) {
    forall i :: 0 <= i < |moves| && moves[i].Round? ==> !DoubleApplies(tools, Ran(tools, w, moves[..i]))
  }

  /** Either everything the invariant says holds, or the log is full for good. */
  ghost predicate Safe<S>(tools: Tools<S>, w: World<S>, used: set<string>) {
    (Good(tools, w, used) && Tidy(tools, w)) || Frozen(tools, w, used)
  }

  lemma StartIsGood<S(!new)>(tools: Tools<S>, w: World<S>)
    requires Lawful(tools) && Start(tools, w)
    ensures Good(tools, w, w.img.ledger.Keys) && Tidy(tools, w)
  {
    forall scope | RecordsOf(w.img, scope) != map[]
      ensures scope in AllScopes(tools, ActiveStore(w))
    {
      assert Clean(tools, w.img, ActiveStore(w), scope);
    }
    assert !AnyWith(w.pending, false);
  }

  lemma ExpireKeeps<S>(tools: Tools<S>, w: World<S>, key: string, used: set<string>)
    requires Good(tools, w, used)
    ensures Preserves(tools, w, Next(tools, w, Expire(key)), used)
  {
    ExpireCovers(tools, w, key);
  }

  lemma ExpireCovers<S>(tools: Tools<S>, w: World<S>, key: string)
    requires Covered(tools, w.img, w.pending, ActiveStore(w))
    ensures var t := Next(tools, w, Expire(key)); Covered(tools, t.img, t.pending, ActiveStore(t))
  {
    var t := Next(tools, w, Expire(key));
    forall scope
      ensures Clean(tools, t.img, ActiveStore(t), scope) || Dirty(t.img, t.pending, scope)
    {
      assert Clean(tools, w.img, ActiveStore(w), scope) || Dirty(w.img, w.pending, scope);
      if !Clean(tools, w.img, ActiveStore(w), scope) {
        var e :| e in w.pending && Unpublished(w.img, e) && Touches(e.operation, scope);
        assert Unpublished(t.img, e);
      }
    }
  }

  /** What a move does to the state that is served. */
  ghost predicate Serves<S>(tools: Tools<S>, w: World<S>, move: Move, t: World<S>) {
    ActiveStore(t) ==
    if move.Call? && Runs(tools, w, move.op) then ApplyOne(tools, ActiveStore(w), move.op) else ActiveStore(w)
  }

  /** A move that leaves nothing behind keeps the whole invariant. */
  lemma TidyMoveKeeps<S(!new)>(tools: Tools<S>, w: World<S>, move: Move, used: set<string>)
    requires Lawful(tools) && Good(tools, w, used) && Tidy(tools, w)
    requires MoveKeys(tools, move) !! used && (move.Round? ==> !DoubleApplies(tools, w))
    requires move.Call? ==> !LeftBehind(tools, w, move.op)
    ensures var t := Next(tools, w, move);
      Good(tools, t, used + MoveKeys(tools, move)) && Tidy(tools, t) && Serves(tools, w, move, t)
  {
    assert used + {} == used;
    match move
    case Call(op) =>
      ExecuteKeeps(tools, w, op, used);
      CallTidies(tools, w, op, used);
    case Round(offered) =>
      TickKeeps(tools, w, offered, used);
      TickTidies(tools, w, offered, used);
    case Expire(key) => ExpireKeeps(tools, w, key, used);
  }

  lemma CallTidies<S>(tools: Tools<S>, w: World<S>, op: Operation, used: set<string>)
    requires Good(tools, w, used) && Tidy(tools, w) && KeysUsed(tools, op) !! used
    ensures Tidy(tools, Execute(tools, w, op).0)
  {
    if tools.mutating(op.name) {
      NewKeyIsNotPending(w, used, tools.key(op));
    }
    ExecuteTidies(tools, w, op);
  }

  lemma FrozenMoveKeeps<S(!new)>(tools: Tools<S>, w: World<S>, move: Move, used: set<string>)
    requires Lawful(tools) && Frozen(tools, w, used)
    requires MoveKeys(tools, move) !! used && (move.Round? ==> !DoubleApplies(tools, w))
    ensures var t := Next(tools, w, move); Frozen(tools, t, used + MoveKeys(tools, move)) && Serves(tools, w, move, t)
  {
    assert used + {} == used;
    match move
    case Call(op) => FrozenExecute(tools, w, op, used);
    case Round(offered) => FrozenTick(tools, w, offered, used);
    case Expire(key) => ExpireCovers(tools, w, key);
  }

  lemma MoveKeeps<S(!new)>(tools: Tools<S>, w: World<S>, move: Move, used: set<string>)
    requires Lawful(tools) && ShortestCompleted(tools) && Safe(tools, w, used)
    requires MoveKeys(tools, move) !! used && (move.Round? ==> !DoubleApplies(tools, w))
    ensures var t := Next(tools, w, move); Safe(tools, t, used + MoveKeys(tools, move)) && Serves(tools, w, move, t)
  {
    if Frozen(tools, w, used) {
      FrozenMoveKeeps(tools, w, move, used);
    } else if move.Call? && LeftBehind(tools, w, move.op) {
      LeftBehindFreezes(tools, w, move.op, used);
    } else {
      TidyMoveKeeps(tools, w, move, used);
    }
  }

  lemma PrefixRuns<S>(tools: Tools<S>, w: World<S>, moves: seq<Move>, n: nat, used: set<string>)
    requires n <= |moves|
    requires DistinctCalls(tools, moves, used) && NeverDoubleApplies(tools, w, moves)
    ensures DistinctCalls(tools, moves[..n], used) && NeverDoubleApplies(tools, w, moves[..n])
    ensures n < |moves| ==> MoveKeys(tools, moves[n]) !! used + RunKeys(tools, moves[..n])
    ensures n < |moves| && moves[n].Round? ==> !DoubleApplies(tools, Ran(tools, w, moves[..n]))
  {
    var front := moves[..n];
    forall i | 0 <= i < n
      ensures MoveKeys(tools, front[i]) !! used + RunKeys(tools, front[..i])
      ensures front[i].Round? ==> !DoubleApplies(tools, Ran(tools, w, front[..i]))
    {
      assert front[..i] == moves[..i] && front[i] == moves[i];
    }
  }

  /** One more move of a run that has been safe so far. */
  lemma SafetyStep<S(!new)>(tools: Tools<S>, w: World<S>, moves: seq<Move>, n: nat, used: set<string>)
    requires Lawful(tools) && ShortestCompleted(tools) && n == |moves| - 1
    requires Safe(tools, Ran(tools, w, moves[..n]), used + RunKeys(tools, moves[..n]))
    requires MoveKeys(tools, moves[n]) !! used + RunKeys(tools, moves[..n])
    requires moves[n].Round? ==> !DoubleApplies(tools, Ran(tools, w, moves[..n]))
    requires ActiveStore(Ran(tools, w, moves[..n])) == Fold(tools, ActiveStore(w), Executed(tools, w, moves[..n]))
    ensures ActiveStore(Ran(tools, w, moves)) == Fold(tools, ActiveStore(w), Executed(tools, w, moves))
    ensures Safe(tools, Ran(tools, w, moves), used + RunKeys(tools, moves))
  {
    MoveKeeps(tools, Ran(tools, w, moves[..n]), moves[n], used + RunKeys(tools, moves[..n]));
    assert used + RunKeys(tools, moves) == used + RunKeys(tools, moves[..n]) + MoveKeys(tools, moves[n]);
    FoldStep(tools, w, moves, n);
  }

  /** Failover safety: however connections are lost and regained, and wherever the outbox or the audit
      file turns out to be full, the state served is the ordered fold of all operations that executed, as
      long as no round double-applies. */
  lemma {:induction false} FailoverSafety<S(!new)>(tools: Tools<S>, w: World<S>, moves: seq<Move>)
    requires Lawful(tools) && ShortestCompleted(tools) && Start(tools, w)
    requires DistinctCalls(tools, moves, w.img.ledger.Keys) && NeverDoubleApplies(tools, w, moves)
    ensures ActiveStore(Ran(tools, w, moves)) == Fold(tools, ActiveStore(w), Executed(tools, w, moves))
    ensures Safe(tools, Ran(tools, w, moves), w.img.ledger.Keys + RunKeys(tools, moves))
  {
    var used := w.img.ledger.Keys;
    if moves == [] {
      StartIsGood(tools, w);
      assert used + {} == used;
    } else {
      var n := |moves| - 1;
      PrefixRuns(tools, w, moves, n, used);
      FailoverSafety(tools, w, moves[..n]);
      SafetyStep(tools, w, moves, n, used);
    }
  }

  /** What the corollaries need holds in either case. */
  lemma SafeIsSound<S>(tools: Tools<S>, w: World<S>, used: set<string>)
    requires Safe(tools, w, used)
    ensures Sound(tools, w, used)
  {
    if Good(tools, w, used) {
      GoodIsSound(tools, w, used);
    }
  }

  lemma RunIsSound<S(!new)>(tools: Tools<S>, w: World<S>, moves: seq<Move>)
    requires Lawful(tools) && ShortestCompleted(tools) && Start(tools, w)
    requires DistinctCalls(tools, moves, w.img.ledger.Keys) && NeverDoubleApplies(tools, w, moves)
    ensures Sound(tools, Ran(tools, w, moves), w.img.ledger.Keys + RunKeys(tools, moves))
  {
    FailoverSafety(tools, w, moves);
    SafeIsSound(tools, Ran(tools, w, moves), w.img.ledger.Keys + RunKeys(tools, moves));
  }

  lemma FoldAppend<S>(tools: Tools<S>, s: S, ops: seq<Operation>, op: Operation)
    ensures Fold(tools, s, ops + [op]) == ApplyOne(tools, Fold(tools, s, ops), op)
  {
    assert (ops + [op])[..|ops|] == ops;
  }

  lemma FoldStep<S>(tools: Tools<S>, w: World<S>, moves: seq<Move>, n: nat)
    requires n == |moves| - 1
    ensures Fold(tools, ActiveStore(w), Executed(tools, w, moves)) ==
            var before := Fold(tools, ActiveStore(w), Executed(tools, w, moves[..n]));
            if moves[n].Call? && Runs(tools, Ran(tools, w, moves[..n]), moves[n].op)
            then ApplyOne(tools, before, moves[n].op) else before
  {
    var done := Executed(tools, w, moves[..n]);
    if moves[n].Call? && Runs(tools, Ran(tools, w, moves[..n]), moves[n].op) {
      assert Executed(tools, w, moves) == done + [moves[n].op];
      FoldAppend(tools, ActiveStore(w), done, moves[n].op);
    } else {
      assert Executed(tools, w, moves) == done + [] == done;
    }
  }

  /** In every state of such a run, a scope on which Redis and the active state differ is touched by an entry that is
      not committed; once none is left, Redis agrees on every scope. */
  lemma DirtyScopesAreCovered<S(!new)>(tools: Tools<S>, w: World<S>, moves: seq<Move>, scope: string)
    requires Lawful(tools) && ShortestCompleted(tools) && Start(tools, w)
    requires DistinctCalls(tools, moves, w.img.ledger.Keys) && NeverDoubleApplies(tools, w, moves)
    ensures var t := Ran(tools, w, moves);
      || RecordsOf(t.img, scope) == Project(tools, ActiveStore(t), scope).records
      || exists e :: e in t.pending && !e.redisCommitted && Touches(e.operation, scope)
    ensures var t := Ran(tools, w, moves);
      !AnyWith(t.pending, false) ==> RecordsOf(t.img, scope) == Project(tools, ActiveStore(t), scope).records
  {
    RunIsSound(tools, w, moves);
    var t := Ran(tools, w, moves);
    AnyWithIn(t.pending, false);
    assert Clean(tools, t.img, ActiveStore(t), scope) || Dirty(t.img, t.pending, scope);
  }

  /** `members` is some listing of the stored index of the scope. */
  ghost predicate ListsIndex<S>(db: Db<Key, S>, scope: string, members: seq<Key>) {
    AsKeys(members) ==
    if NativeIndex(scope) in db && db[NativeIndex(scope)].Members? then db[NativeIndex(scope)].keys else {}
  }

  lemma ReadsBack<S>(db: Db<Key, S>, img: Image<S>, scope: string, members: seq<Key>)
    requires Represents(db, img) && ListsIndex(db, scope, members)
    ensures Fetched(db, members) == RecordsOf(img, scope)
  {
    assert NativeIndex(scope) in db <==> Cell(img, NativeIndex(scope)).Some?;
    EmptyIndex(scope, RecordsOf(img, scope));
    IndexFetches(db, img, scope, members);
  }

  /** While connected, the coordinator knows the server's revision, and its cache of a scope is what `native_entities`
      would read back from any database that stores the namespace. */
  lemma CacheAgrees<S(!new)>(tools: Tools<S>, w: World<S>, moves: seq<Move>, db: Db<Key, S>, scope: string,
                             members: seq<Key>)
    requires Lawful(tools) && ShortestCompleted(tools) && Start(tools, w)
    requires DistinctCalls(tools, moves, w.img.ledger.Keys) && NeverDoubleApplies(tools, w, moves)
    requires var t := Ran(tools, w, moves); t.link.Some? && t.link.value != DEAD && Represents(db, t.img)
    requires ListsIndex(db, scope, members)
    ensures
      var t := Ran(tools, w, moves);
      Lookup(t.cache, scope) == Fetched(db, members) && t.revision == t.img.revision
  {
    RunIsSound(tools, w, moves);
    ReadsBack(db, Ran(tools, w, moves).img, scope, members);
  }

  /** Every entry marked as committed has a committed ledger record, and so has every marker. */
  lemma CommittedMeansLedger<S(!new)>(tools: Tools<S>, w: World<S>, moves: seq<Move>, key: string)
    requires Lawful(tools) && ShortestCompleted(tools) && Start(tools, w)
    requires DistinctCalls(tools, moves, w.img.ledger.Keys) && NeverDoubleApplies(tools, w, moves)
    requires var t := Ran(tools, w, moves);
      key in t.img.markers || exists e :: e in t.pending && e.key == key && e.redisCommitted
    ensures IsCommitted(Ran(tools, w, moves).img, key)
  {
    RunIsSound(tools, w, moves);
  }

  /** Attaching to an empty namespace is such a start. */
  lemma FirstAttachStarts<S(!new)>(tools: Tools<S>, w: World<S>, link: Link)
    requires Lawful(tools) && w.mode == SqliteFallback && w.pending == [] && link.budget >= 4
    requires w.img == Image(0, None, 0, map[], map[], map[], {})
    requires DistinctScopes(Everything(tools, w.store)) && tools.fitsWhole(Everything(tools, w.store))
    ensures var (t, r) := Attach(tools, w, link);
      && r.Pass? && Start(tools, t) && ActiveStore(t) == w.store == t.store
      && t.img.snapshot == Some(w.store) && t.lastSnapshot == t.revision
  {
    var t := PublishedStart(tools, w, link);
    assert Batch(t.pending, true) == [];
    assert t.pending == [];
    assert ReplayCommittedIntoActive(tools, t) == (t, Pass);
    assert Mirror(tools, t) == (Compacted(tools, t), Pass);
  }

  /** The world between adoption and the first reconciliation. */
  lemma PublishedStart<S(!new)>(tools: Tools<S>, w: World<S>, link: Link) returns (t: World<S>)
    requires Lawful(tools) && w.mode == SqliteFallback && w.pending == [] && link.budget >= 4
    requires w.img == Image(0, None, 0, map[], map[], map[], {})
    requires DistinctScopes(Everything(tools, w.store)) && tools.fitsWhole(Everything(tools, w.store))
    ensures Attach(tools, w, link) == Reconcile(tools, t) && ActiveStore(t) == w.store == t.store
    ensures Start(tools, t.(usesLocal := false, logBytes := 0)) && t.replayCommitted == false
    ensures t.img.snapshot == Some(w.store) && t.lastSnapshot == t.revision
  {
    var all := Everything(tools, w.store);
    var after := Remote.PublishedWhole(w.img, w.store, all);
    FirstImage(tools, w, after);
    var adopted := w.(link := Some(link.(budget := link.budget - 4)), img := after, revision := after.revision,
                      active := Some(w.store), cache := all);
    FirstAdopt(tools, w.(link := Some(link)), link, adopted);
    assert !Recovering(w) && !AnyWith(w.pending, true);
    t := Attached(w, adopted);
  }

  lemma FirstAdopt<S>(tools: Tools<S>, w: World<S>, link: Link, adopted: World<S>)
    requires w.link == Some(link) && link.budget >= 4 && w.img == Image(0, None, 0, map[], map[], map[], {})
    requires DistinctScopes(Everything(tools, w.store)) && tools.fitsWhole(Everything(tools, w.store))
    requires var after := Remote.PublishedWhole(w.img, w.store, Everything(tools, w.store));
      adopted == w.(link := Some(link.(budget := link.budget - 4)), img := after, revision := after.revision,
                    active := Some(w.store), cache := Everything(tools, w.store))
    ensures Adopt(tools, w) == (adopted, Pass)
  {
    ThreeReads(w, link);
    FirstPublish(tools, w.(link := Some(link.(budget := link.budget - 3))), w.store, Everything(tools, w.store));
  }

  lemma ThreeReads<S>(w: World<S>, link: Link)
    requires w.link == Some(link) && link.budget >= 3
    ensures AskTimes(w, 3) == (w.(link := Some(link.(budget := link.budget - 3))), true)
  {
    assert Ask(w) == (w.(link := Some(link.(budget := link.budget - 1))), true);
  }

  lemma FirstPublish<S>(tools: Tools<S>, w: World<S>, snapshot: S, all: seq<Projection>)
    requires w.img.revision == 0 && w.link.Some? && w.link.value.budget > 0
    requires DistinctScopes(all) && tools.fitsWhole(all)
    ensures PublishWhole(tools, w, 0, snapshot, all) ==
            (w.(link := Some(w.link.value.(budget := w.link.value.budget - 1)),
                img := Remote.PublishedWhole(w.img, snapshot, all)), Pass)
  {
  }

  lemma FirstImage<S(!new)>(tools: Tools<S>, w: World<S>, after: Image<S>)
    requires Lawful(tools) && w.img == Image(0, None, 0, map[], map[], map[], {})
    requires DistinctScopes(Everything(tools, w.store))
    requires after == Remote.PublishedWhole(w.img, w.store, Everything(tools, w.store))
    ensures AllClean(tools, after, w.store) && after.snapshot.Some?
    ensures forall key :: key in after.markers ==> IsCommitted(after, key)
    ensures forall scope :: Lookup(Everything(tools, w.store), scope) == RecordsOf(after, scope)
  {
    WholeAdvances(tools, w.store, w.img, w.store, AllScopes(tools, w.store));
    EverythingIsClean(tools, w.img, w.store, after);
    forall scope
      ensures Lookup(Everything(tools, w.store), scope) == RecordsOf(after, scope)
    {
      AllScopesCover(tools, w.store, scope);
      assert Clean(tools, after, w.store, scope);
    }
  }
}
