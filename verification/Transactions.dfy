/** Any number of coordinators sharing one Redis namespace, interleaved command by command: optimistic publishes,
    snapshot reads, conflict records, marker expiry and lost connections. */
module Transactions {
  import opened Wrappers
  import opened RedisServer
  import opened KeyLayout
  import opened Publish
  import opened PublishCalls

  type Client = nat

  /** One publish call. */
  datatype Job<S> =
    | Pointwise(expected: nat, deltas: seq<WireDelta>, ops: seq<RedisOperation>)
    | WholeState(expected: nat, snapshot: S, projections: seq<WireProjection>, ops: seq<RedisOperation>)

  /** How far a client's current call has come. */
  datatype Phase<S> =
    | Idle
    | Watched(job: Job<S>)
    | Checked(job: Job<S>, stale: seq<Key>, scopesRead: nat)
    | ReadStarted(attempt: nat)
    | RevisionRead(attempt: nat, before: nat)
    | SnapshotRead(attempt: nat, before: nat, snapshot: Option<S>)
    | ConflictChecked(op: RedisOperation, reason: string, revision: nat)

  /** A connection: its call, the keys it watches, and whether one of them was touched since. */
  datatype Conn<S> = Conn(phase: Phase<S>, watched: set<Key>, dirty: bool)

  /** A transaction that took effect; `delivered` tells whether the client saw the reply. */
  datatype Commit = Commit(client: Client, expected: nat, reply: nat, delivered: bool)

  /** The server, the connections, and what an observer of the whole run records: the image the database stores, the
      commits, the snapshot value at each revision, and the answers of the snapshot reads. */
  datatype System<S> = System(db: Db<Key, S>, conns: map<Client, Conn<S>>, img: Image<S>, base: nat,
                              commits: seq<Commit>,
                              snapshots: seq<Option<S>>, answers: seq<(nat, Option<S>)>)

  datatype Step<S> =
    | Watch(client: Client, job: Job<S>)
    | CheckRevision(client: Client)
    | ReadIndex(client: Client, members: seq<Key>)
    | Execute(client: Client, delivered: bool, disturbed: set<Client>)
    | Lose(client: Client)
    | StartRead(client: Client)
    | GetRevision(client: Client)
    | GetSnapshot(client: Client)
    | GetRevisionAgain(client: Client)
    | CheckConflict(client: Client, op: RedisOperation, reason: string, revision: nat)
    | WriteConflict(client: Client)
    | Expire(operation: string)

  function RevisionOf<S>(db: Db<Key, S>): nat {
    if StateRevision in db && db[StateRevision].Number? then db[StateRevision].n else 0
  }

  function SnapshotOf<S>(db: Db<Key, S>): Option<S> {
    if StateSnapshot in db && db[StateSnapshot].Snapshot? then Some(db[StateSnapshot].image) else None
  }

  function IndexMembers<S>(db: Db<Key, S>, scope: string): set<Key> {
    if NativeIndex(scope) in db && db[NativeIndex(scope)].Members? then db[NativeIndex(scope)].keys else {}
  }

  function JobScopes<S>(job: Job<S>): set<string> {
    match job
    case Pointwise(_, deltas, _) => set i | 0 <= i < |deltas| :: deltas[i].scope
    case WholeState(_, _, projections, _) => Scopes(projections)
  }

  function WatchKeys<S>(job: Job<S>): set<Key> {
    {StateRevision, NativeSchema} + (if job.WholeState? then {StateSnapshot} else {}) +
    set scope | scope in JobScopes(job) :: NativeIndex(scope)
  }

  function Queue<S>(job: Job<S>, stale: seq<Key>): seq<Command<Key, S>> {
    match job
    case Pointwise(expected, deltas, ops) => DeltaQueue(expected, deltas, ops)
    case WholeState(expected, snapshot, projections, ops) => StateQueue(expected, snapshot, projections, stale, ops)
  }

  /** The image after the transaction, when it ran on `img` and read every index it replaces. */
  function Published<S>(img: Image<S>, job: Job<S>): Image<S> {
    match job
    case Pointwise(expected, deltas, ops) => Stamped(AfterDeltas(img, deltas), expected, DeltaCounts(deltas), ops)
    case WholeState(expected, snapshot, projections, ops) =>
      Stamped(Replaced(img, projections), expected, ProjectionCounts(projections), ops).(snapshot := Some(snapshot))
  }

  function Disturb<S>(conns: map<Client, Conn<S>>, disturbed: set<Client>): map<Client, Conn<S>> {
    map c | c in conns :: if c in disturbed then conns[c].(dirty := true) else conns[c]
  }

  /** Every watcher of a key whose value the step changes is marked; Redis may mark more, never fewer. */
  ghost predicate Disturbs<S>(before: Db<Key, S>, after: Db<Key, S>, conns: map<Client, Conn<S>>,
                              disturbed: set<Client>) {
    forall c, key :: c in conns && key in conns[c].watched && Changed(before, after, key) ==> c in disturbed
  }

  ghost predicate Changed<S>(before: Db<Key, S>, after: Db<Key, S>, key: Key) {
    (key in before) != (key in after) || (key in before && key in after && before[key] != after[key])
  }

  /** A client that has not connected yet is idle. */
  function PhaseOf<S>(s: System<S>, client: Client): Phase<S> {
    if client in s.conns then s.conns[client].phase else Idle
  }

  function With<S>(s: System<S>, client: Client, conn: Conn<S>): System<S> {
    s.(conns := s.conns[client := conn])
  }

  function Free<S>(): Conn<S> {
    Conn(Idle, {}, false)
  }

  ghost predicate Enabled<S>(s: System<S>, step: Step<S>) {
    match step
    case Watch(c, _) => PhaseOf(s, c).Idle?
    case CheckRevision(c) => PhaseOf(s, c).Watched?
    case ReadIndex(c, members) =>
      var p := PhaseOf(s, c);
      && p.Checked? && p.job.WholeState? && p.scopesRead < |p.job.projections|
      && AsKeys(members) == IndexMembers(s.db, p.job.projections[p.scopesRead].scope)
    case Execute(c, _, disturbed) =>
      var p := PhaseOf(s, c);
      && p.Checked? && (p.job.WholeState? ==> p.scopesRead == |p.job.projections|)
      && Disturbs(s.db, Exec(s.db, Queue(p.job, p.stale)).0, s.conns, disturbed)
    case Lose(_) => true
    case StartRead(c) => PhaseOf(s, c).Idle?
    case GetRevision(c) => PhaseOf(s, c).ReadStarted?
    case GetSnapshot(c) => PhaseOf(s, c).RevisionRead?
    case GetRevisionAgain(c) => PhaseOf(s, c).SnapshotRead?
    case CheckConflict(c, _, _, _) => PhaseOf(s, c).Idle?
    case WriteConflict(c) => PhaseOf(s, c).ConflictChecked?
    case Expire(_) => true
  }

  function ConflictRecord(op: RedisOperation, reason: string, revision: nat): LedgerRecord {
    LedgerRecord(op.name, op.scope, Conflict, revision, 0, Some(reason))
  }

  /** The next system when a transaction runs. */
  function Ran<S>(s: System<S>, c: Client, delivered: bool, disturbed: set<Client>): System<S>
    requires c in s.conns && s.conns[c].phase.Checked?
  {
    var p := s.conns[c].phase;
    var (after, replies) := Exec(s.db, Queue(p.job, p.stale));
    var reply := if |replies| > 1 && replies[1].Count? then replies[1].n else 0;
    var img := Published(s.img, p.job);
    s.(db := after, img := img, conns := Disturb(s.conns, disturbed)[c := Free()],
       commits := s.commits + [Commit(c, p.job.expected, reply, delivered)],
       snapshots := s.snapshots + [img.snapshot])
  }

  ghost function After<S>(s: System<S>, step: Step<S>): System<S>
    requires Enabled(s, step)
  {
    match step
    case Watch(c, job) => With(s, c, Conn(Watched(job), WatchKeys(job), false))
    case CheckRevision(c) =>
      var conn := s.conns[c];
      if RevisionOf(s.db) == conn.phase.job.expected then With(s, c, conn.(phase := Checked(conn.phase.job, [], 0)))
      else With(s, c, Free())
    case ReadIndex(c, members) =>
      var conn := s.conns[c];
      var p := conn.phase;
      With(s, c, conn.(phase := Checked(p.job, p.stale + members, p.scopesRead + 1)))
    case Execute(c, delivered, disturbed) =>
      var conn := s.conns[c];
      if conn.dirty then With(s, c, Free()) else Ran(s, c, delivered, disturbed)
    case Lose(c) => With(s, c, Free())
    case StartRead(c) => With(s, c, Conn(ReadStarted(0), {}, false))
    case GetRevision(c) =>
      With(s, c, Conn(RevisionRead(s.conns[c].phase.attempt, RevisionOf(s.db)), {}, false))
    case GetSnapshot(c) =>
      var p := s.conns[c].phase;
      With(s, c, Conn(SnapshotRead(p.attempt, p.before, SnapshotOf(s.db)), {}, false))
    case GetRevisionAgain(c) =>
      var p := s.conns[c].phase;
      if RevisionOf(s.db) == p.before then With(s, c, Free()).(answers := s.answers + [(p.before, p.snapshot)])
      else if p.attempt == 0 then With(s, c, Conn(ReadStarted(1), {}, false))
      else With(s, c, Free())
    case CheckConflict(c, op, reason, revision) =>
      if op.key in s.img.ledger && s.img.ledger[op.key].status == Committed then s
      else With(s, c, Conn(ConflictChecked(op, reason, revision), {}, false))
    case WriteConflict(c) =>
      var p := s.conns[c].phase;
      var record := ConflictRecord(p.op, p.reason, p.revision);
      With(s, c, Free()).(db := s.db[OperationLedger(p.op.key) := Ledger(record)],
                          img := WithLedger(s.img, p.op.key, record))
    case Expire(operation) =>
      s.(db := s.db - {OperationMarker(operation)}, img := s.img.(markers := s.img.markers - {operation}))
  }

  // ---------- The invariant of every interleaving ----------

  /** What a client that passed the revision check still knows while its connection is clean. */
  ghost predicate Fresh<S>(db: Db<Key, S>, phase: Phase<S>)
    requires phase.Checked?
  {
    && RevisionOf(db) == phase.job.expected
    && (phase.job.WholeState? ==>
         phase.scopesRead <= |phase.job.projections| &&
         AsKeys(phase.stale) == StaleSet(db, phase.job.projections, phase.scopesRead))
  }

  /** The members of the first `n` indexes. */
  function StaleSet<S>(db: Db<Key, S>, projections: seq<WireProjection>, n: nat): set<Key>
    requires n <= |projections|
  {
    if n == 0 then {} else StaleSet(db, projections, n - 1) + IndexMembers(db, projections[n - 1].scope)
  }

  ghost predicate SnapshotWas<S>(s: System<S>, revision: nat, snapshot: Option<S>) {
    s.base <= revision < s.base + |s.snapshots| && s.snapshots[revision - s.base] == snapshot
  }

  ghost predicate ConnInv<S>(s: System<S>, conn: Conn<S>) {
    match conn.phase
    case Watched(job) => conn.watched == WatchKeys(job)
    case Checked(job, _, _) => conn.watched == WatchKeys(job) && (!conn.dirty ==> Fresh(s.db, conn.phase))
    case RevisionRead(_, before) => s.base <= before <= s.img.revision
    case SnapshotRead(_, before, snapshot) => exists r :: before <= r <= s.img.revision && SnapshotWas(s, r, snapshot)
    case _ => true
  }

  ghost predicate Inv<S>(s: System<S>) {
    && Represents(s.db, s.img)
    && s.img.revision == s.base + |s.commits|
    && |s.snapshots| == |s.commits| + 1
    && s.snapshots[|s.commits|] == s.img.snapshot
    && (forall i :: 0 <= i < |s.commits| ==>
        s.commits[i].expected == s.base + i && s.commits[i].reply == s.base + i + 1)
    && (forall i :: 0 <= i < |s.answers| ==> SnapshotWas(s, s.answers[i].0, s.answers[i].1))
    && (forall c :: c in s.conns ==> ConnInv(s, s.conns[c]))
  }

  // ---------- Each step keeps it ----------

  lemma ReadsImage<S>(db: Db<Key, S>, img: Image<S>)
    requires Represents(db, img)
    ensures RevisionOf(db) == img.revision && SnapshotOf(db) == img.snapshot
    ensures forall scope :: IndexMembers(db, scope) == IndexOf(scope, RecordsOf(img, scope))
  {
    assert StateRevision in db <==> Cell(img, StateRevision).Some?;
    assert StateSnapshot in db <==> Cell(img, StateSnapshot).Some?;
    forall scope
      ensures IndexMembers(db, scope) == IndexOf(scope, RecordsOf(img, scope))
    {
      assert NativeIndex(scope) in db <==> Cell(img, NativeIndex(scope)).Some?;
      EmptyIndex(scope, RecordsOf(img, scope));
    }
  }

  /** A clean connection's knowledge survives every step that does not disturb it. */
  lemma FreshSurvives<S>(before: Db<Key, S>, after: Db<Key, S>, phase: Phase<S>)
    requires phase.Checked? && Fresh(before, phase)
    requires forall key :: key in WatchKeys(phase.job) ==> !Changed(before, after, key)
    ensures Fresh(after, phase)
  {
    assert StateRevision in WatchKeys(phase.job);
    if phase.job.WholeState? {
      var projections := phase.job.projections;
      forall i | 0 <= i < |projections|
        ensures IndexMembers(before, projections[i].scope) == IndexMembers(after, projections[i].scope)
      {
        assert projections[i].scope in JobScopes(phase.job);
        assert NativeIndex(projections[i].scope) in WatchKeys(phase.job);
      }
      StaleSetSame(before, after, projections, phase.scopesRead);
    }
  }

  /** Clients that took no part in a step keep what they know. */
  lemma OthersKeep<S>(s: System<S>, t: System<S>, conn: Conn<S>)
    requires ConnInv(s, conn) && s.base == t.base && s.img.revision <= t.img.revision
    requires |s.snapshots| <= |t.snapshots| && s.snapshots == t.snapshots[..|s.snapshots|]
    requires !conn.dirty ==> forall key :: key in conn.watched ==> !Changed(s.db, t.db, key)
    ensures ConnInv(t, conn) && ConnInv(t, conn.(dirty := true))
  {
    match conn.phase
    case Checked(_, _, _) =>
      if !conn.dirty {
        FreshSurvives(s.db, t.db, conn.phase);
      }
    case SnapshotRead(_, before, snapshot) =>
      var r :| before <= r <= s.img.revision && SnapshotWas(s, r, snapshot);
      assert SnapshotWas(t, r, snapshot);
    case _ =>
  }

  lemma {:induction false} StaleSetSame<S>(a: Db<Key, S>, b: Db<Key, S>, projections: seq<WireProjection>, n: nat)
    requires n <= |projections|
    requires forall i :: 0 <= i < |projections| ==>
      IndexMembers(a, projections[i].scope) == IndexMembers(b, projections[i].scope)
    ensures StaleSet(a, projections, n) == StaleSet(b, projections, n)
  {
    if n > 0 {
      StaleSetSame(a, b, projections, n - 1);
    }
  }

  lemma AsKeysAppend(a: seq<Key>, b: seq<Key>)
    ensures AsKeys(a + b) == AsKeys(a) + AsKeys(b)
  {
    forall k | k in AsKeys(a) + AsKeys(b)
      ensures k in AsKeys(a + b)
    {
      if k in AsKeys(a) {
        var j :| 0 <= j < |a| && a[j] == k;
        assert (a + b)[j] == k;
      } else {
        var j :| 0 <= j < |b| && b[j] == k;
        assert (a + b)[|a| + j] == k;
      }
    }
  }

  lemma ScopesPrefix(projections: seq<WireProjection>, n: nat)
    requires 0 < n <= |projections|
    ensures Scopes(projections[..n]) == Scopes(projections[..n - 1]) + {projections[n - 1].scope}
  {
    assert forall i :: 0 <= i < n - 1 ==> projections[..n][i] == projections[..n - 1][i];
    assert projections[..n][n - 1] == projections[n - 1];
  }

  lemma {:induction false} StaleSetIs<S>(db: Db<Key, S>, img: Image<S>, projections: seq<WireProjection>, n: nat,
                                         key: Key)
    requires Represents(db, img) && n <= |projections|
    ensures key in StaleSet(db, projections, n) <==>
      key.NativeEntity? && key.scope in Scopes(projections[..n]) && key.entity in RecordsOf(img, key.scope)
  {
    if n > 0 {
      StaleSetIs(db, img, projections, n - 1, key);
      ScopesPrefix(projections, n);
      MembersAre(db, img, projections[n - 1].scope, key);
    }
  }

  lemma MembersAre<S>(db: Db<Key, S>, img: Image<S>, scope: string, key: Key)
    requires Represents(db, img)
    ensures key in IndexMembers(db, scope) <==>
            key.NativeEntity? && key.scope == scope && key.entity in RecordsOf(img, scope)
  {
    ReadsImage(db, img);
    assert IndexMembers(db, scope) == IndexOf(scope, RecordsOf(img, scope));
  }

  /** The members a whole-state publish collected under WATCH are, at EXEC, exactly the stale entity keys. */
  lemma StaleIsExact<S>(db: Db<Key, S>, img: Image<S>, projections: seq<WireProjection>, stale: seq<Key>)
    requires Represents(db, img) && AsKeys(stale) == StaleSet(db, projections, |projections|)
    ensures ListsIndexes(img, projections, stale)
  {
    assert projections[..|projections|] == projections;
    forall key
      ensures key in AsKeys(stale) <==>
        key.NativeEntity? && key.scope in Scopes(projections) && key.entity in RecordsOf(img, key.scope)
    {
      StaleSetIs(db, img, projections, |projections|, key);
    }
  }

  ghost predicate PublishesOn<S>(db: Db<Key, S>, img: Image<S>, job: Job<S>, stale: seq<Key>) {
    var (after, replies) := Exec(db, Queue(job, stale));
    && Represents(after, Published(img, job))
    && |replies| > 1 && replies[1] == Count(img.revision + 1)
    && Published(img, job).revision == img.revision + 1
  }

  lemma PointwisePublishes<S(!new)>(db: Db<Key, S>, img: Image<S>, job: Job<S>, stale: seq<Key>)
    requires Represents(db, img) && job.Pointwise? && job.expected == img.revision
    ensures PublishesOn(db, img, job, stale)
  {
    DeltaExchange(db, img, job.deltas, job.ops);
    AfterDeltasShape(img, img, job.deltas);
  }

  lemma WholePublishes<S(!new)>(db: Db<Key, S>, img: Image<S>, job: Job<S>, stale: seq<Key>)
    requires Represents(db, img) && job.WholeState? && job.expected == img.revision
    requires AsKeys(stale) == StaleSet(db, job.projections, |job.projections|)
    ensures PublishesOn(db, img, job, stale)
  {
    StaleIsExact(db, img, job.projections, stale);
    StateExchange(db, img, job.snapshot, job.projections, stale, job.ops);
    AfterProjectionsShape(Cleared(img, job.projections), Cleared(img, job.projections), job.projections);
  }

  /** A transaction that is not aborted runs at the revision its caller expected, replies with the next one, and stores
      exactly the published image. */
  lemma ExecutePublishes<S(!new)>(s: System<S>, conn: Conn<S>)
    requires Represents(s.db, s.img) && conn.phase.Checked? && !conn.dirty && Fresh(s.db, conn.phase)
    requires conn.phase.job.WholeState? ==> conn.phase.scopesRead == |conn.phase.job.projections|
    ensures s.img.revision == conn.phase.job.expected && PublishesOn(s.db, s.img, conn.phase.job, conn.phase.stale)
  {
    ReadsImage(s.db, s.img);
    if conn.phase.job.Pointwise? {
      PointwisePublishes(s.db, s.img, conn.phase.job, conn.phase.stale);
    } else {
      WholePublishes(s.db, s.img, conn.phase.job, conn.phase.stale);
    }
  }

  /** Steps that only move one client: nothing else can notice. */
  lemma QuietKeeps<S>(s: System<S>, t: System<S>, c: Client)
    requires Inv(s) && t.conns.Keys == s.conns.Keys + {c} && t == s.(conns := t.conns, answers := t.answers)
    requires forall o :: o in s.conns && o != c ==> t.conns[o] == s.conns[o]
    requires ConnInv(t, t.conns[c])
    requires t.answers == s.answers || exists a :: t.answers == s.answers + [a] && SnapshotWas(s, a.0, a.1)
    ensures Inv(t)
  {
    forall o | o in t.conns
      ensures ConnInv(t, t.conns[o])
    {
      if o != c {
        assert ConnInv(s, s.conns[o]);
        OthersKeep(s, t, s.conns[o]);
      }
    }
  }

  /** A step that changes the database keeps what the others know, when whoever watched a changed key was marked. */
  lemma OthersKeepAll<S>(s: System<S>, t: System<S>, c: Client, disturbed: set<Client>)
    requires Inv(s) && s.base == t.base && s.img.revision <= t.img.revision
    requires |s.snapshots| <= |t.snapshots| && s.snapshots == t.snapshots[..|s.snapshots|]
    requires Disturbs(s.db, t.db, s.conns, disturbed)
    requires t.conns.Keys <= s.conns.Keys + {c} && s.answers == t.answers
    requires forall o :: o in t.conns && o != c ==>
      t.conns[o] == if o in disturbed then s.conns[o].(dirty := true) else s.conns[o]
    requires c in t.conns ==> t.conns[c] == Free()
    ensures forall o :: o in t.conns ==> ConnInv(t, t.conns[o])
    ensures forall i :: 0 <= i < |t.answers| ==> SnapshotWas(t, t.answers[i].0, t.answers[i].1)
  {
    forall o | o in t.conns
      ensures ConnInv(t, t.conns[o])
    {
      if o != c {
        assert ConnInv(s, s.conns[o]);
        if o in disturbed {
          OthersKeep(s, t, s.conns[o].(dirty := true));
        } else {
          OthersKeep(s, t, s.conns[o]);
        }
      }
    }
    forall i | 0 <= i < |t.answers|
      ensures SnapshotWas(t, t.answers[i].0, t.answers[i].1)
    {
      assert SnapshotWas(s, s.answers[i].0, s.answers[i].1);
    }
  }

  lemma RanKeeps<S>(s: System<S>, t: System<S>, c: Client, delivered: bool, disturbed: set<Client>)
    requires Inv(s) && c in s.conns && s.conns[c].phase.Checked? && t == Ran(s, c, delivered, disturbed)
    requires s.img.revision == s.conns[c].phase.job.expected
    requires PublishesOn(s.db, s.img, s.conns[c].phase.job, s.conns[c].phase.stale)
    requires forall o :: o in t.conns ==> ConnInv(t, t.conns[o])
    requires forall i :: 0 <= i < |t.answers| ==> SnapshotWas(t, t.answers[i].0, t.answers[i].1)
    ensures Inv(t)
  {
  }

  lemma ExecuteKeeps<S(!new)>(s: System<S>, c: Client, delivered: bool, disturbed: set<Client>)
    requires Inv(s) && Enabled(s, Execute(c, delivered, disturbed))
    ensures Inv(After(s, Execute(c, delivered, disturbed)))
  {
    var t := After(s, Execute(c, delivered, disturbed));
    var conn := s.conns[c];
    assert ConnInv(s, conn);
    if conn.dirty {
      QuietKeeps(s, t, c);
    } else {
      ExecutePublishes(s, conn);
      assert t.snapshots[..|s.snapshots|] == s.snapshots;
      OthersKeepAll(s, t, c, disturbed);
      RanKeeps(s, t, c, delivered, disturbed);
    }
  }

  lemma ConflictKeeps<S>(s: System<S>, c: Client)
    requires Inv(s) && Enabled(s, WriteConflict(c))
    ensures Inv(After(s, WriteConflict(c)))
  {
    UnwatchedKeeps(s, After(s, WriteConflict(c)), c, OperationLedger(s.conns[c].phase.op.key));
  }

  lemma ExpireKeeps<S>(s: System<S>, operation: string)
    requires Inv(s)
    ensures Inv(After(s, Expire(operation)))
  {
    UnwatchedKeeps(s, After(s, Expire(operation)), 0, OperationMarker(operation));
  }

  /** Ledger records and markers are not among the watched keys. */
  lemma UnwatchedOne<S>(s: System<S>, t: System<S>, conn: Conn<S>, written: Key)
    requires ConnInv(s, conn) && (written.OperationLedger? || written.OperationMarker?)
    requires t == s.(db := t.db, img := t.img, conns := t.conns) && t.img.revision == s.img.revision
    requires forall key :: key != written ==> !Changed(s.db, t.db, key)
    ensures ConnInv(t, conn)
  {
    if conn.phase.Checked? {
      OthersKeep(s, t, conn);
    } else {
      OthersKeep(s, t, conn.(dirty := true));
    }
  }

  lemma UnwatchedKeeps<S>(s: System<S>, t: System<S>, c: Client, written: Key)
    requires Inv(s) && (written.OperationLedger? || written.OperationMarker?)
    requires t == s.(db := t.db, img := t.img, conns := t.conns)
    requires t.img.revision == s.img.revision && t.img.snapshot == s.img.snapshot && Represents(t.db, t.img)
    requires forall key :: key != written ==> !Changed(s.db, t.db, key)
    requires t.conns == s.conns[c := Free()] || t.conns == s.conns
    ensures Inv(t)
  {
    forall o | o in t.conns
      ensures ConnInv(t, t.conns[o])
    {
      if t.conns[o] != Free() {
        UnwatchedOne(s, t, s.conns[o], written);
      }
    }
    AnswersStay(s, t);
  }

  lemma AnswersStay<S>(s: System<S>, t: System<S>)
    requires Inv(s) && t == s.(db := t.db, img := t.img, conns := t.conns)
    ensures forall i :: 0 <= i < |t.answers| ==> SnapshotWas(t, t.answers[i].0, t.answers[i].1)
  {
    forall i | 0 <= i < |t.answers|
      ensures SnapshotWas(t, t.answers[i].0, t.answers[i].1)
    {
      assert SnapshotWas(s, s.answers[i].0, s.answers[i].1);
    }
  }

  lemma ReadIndexKeeps<S>(s: System<S>, c: Client, members: seq<Key>)
    requires Inv(s) && Enabled(s, ReadIndex(c, members))
    ensures Inv(After(s, ReadIndex(c, members)))
  {
    var t := After(s, ReadIndex(c, members));
    assert ConnInv(s, s.conns[c]);
    AsKeysAppend(s.conns[c].phase.stale, members);
    QuietKeeps(s, t, c);
  }

  lemma CheckRevisionKeeps<S>(s: System<S>, c: Client)
    requires Inv(s) && Enabled(s, CheckRevision(c))
    ensures Inv(After(s, CheckRevision(c)))
  {
    assert ConnInv(s, s.conns[c]);
    assert AsKeys([]) == {};
    QuietKeeps(s, After(s, CheckRevision(c)), c);
  }

  lemma ReadingKeeps<S>(s: System<S>, step: Step<S>)
    requires Inv(s) && Enabled(s, step) && (step.StartRead? || step.GetRevision? || step.GetSnapshot?)
    ensures Inv(After(s, step))
  {
    var c := step.client;
    var t := After(s, step);
    ReadsImage(s.db, s.img);
    assert !step.StartRead? ==> ConnInv(s, s.conns[c]);
    assert SnapshotWas(t, s.img.revision, s.img.snapshot);
    QuietKeeps(s, t, c);
  }

  lemma AnswerKeeps<S>(s: System<S>, c: Client)
    requires Inv(s) && Enabled(s, GetRevisionAgain(c))
    ensures Inv(After(s, GetRevisionAgain(c)))
  {
    var t := After(s, GetRevisionAgain(c));
    ReadsImage(s.db, s.img);
    assert ConnInv(s, s.conns[c]);
    if t.answers != s.answers {
      var p := s.conns[c].phase;
      var r :| p.before <= r <= s.img.revision && SnapshotWas(s, r, p.snapshot);
      assert t.answers == s.answers + [(p.before, p.snapshot)];
    }
    QuietKeeps(s, t, c);
  }

  /** Every step of every client keeps the invariant. */
  lemma StepKeeps<S(!new)>(s: System<S>, step: Step<S>)
    requires Inv(s) && Enabled(s, step)
    ensures Inv(After(s, step))
  {
    match step
    case Watch(c, _) => QuietKeeps(s, After(s, step), c);
    case CheckRevision(c) => CheckRevisionKeeps(s, c);
    case ReadIndex(c, members) => ReadIndexKeeps(s, c, members);
    case Execute(c, delivered, disturbed) => ExecuteKeeps(s, c, delivered, disturbed);
    case Lose(c) => QuietKeeps(s, After(s, step), c);
    case CheckConflict(c, op, _, _) =>
      if After(s, step) != s {
        QuietKeeps(s, After(s, step), c);
      }
    case WriteConflict(c) => ConflictKeeps(s, c);
    case Expire(operation) => ExpireKeeps(s, operation);
    case GetRevisionAgain(c) => AnswerKeeps(s, c);
    case _ => ReadingKeeps(s, step);
  }

  // ---------- Whole runs ----------

  /** Nobody is connected yet; the database stores some image. */
  ghost predicate Start<S>(s: System<S>) {
    && Represents(s.db, s.img) && s.base == s.img.revision && s.conns == map[]
    && s.commits == [] && s.snapshots == [s.img.snapshot] && s.answers == []
  }

  /** `trace[i + 1]` is the system after `steps[i]`, from a start. */
  ghost predicate Run<S>(steps: seq<Step<S>>, trace: seq<System<S>>) {
    && |trace| == |steps| + 1 && Start(trace[0])
    && forall i :: 0 <= i < |steps| ==> Enabled(trace[i], steps[i]) && trace[i + 1] == After(trace[i], steps[i])
  }

  lemma {:induction false} RunKeeps<S(!new)>(steps: seq<Step<S>>, trace: seq<System<S>>, i: nat)
    requires Run(steps, trace) && i <= |steps|
    ensures Inv(trace[i])
  {
    if i > 0 {
      RunKeeps(steps, trace, i - 1);
      StepKeeps(trace[i - 1], steps[i - 1]);
    }
  }

  /** Optimistic concurrency: whatever the interleaving, no two transactions that took effect expected the same
      revision, each was answered with the next one, and the revision counts them all. */
  lemma OptimisticConcurrency<S(!new)>(steps: seq<Step<S>>, trace: seq<System<S>>, k: nat)
    requires Run(steps, trace) && k <= |steps|
    ensures RevisionOf(trace[k].db) == trace[k].base + |trace[k].commits|
    ensures forall i :: 0 <= i < |trace[k].commits| ==> trace[k].commits[i].reply == trace[k].commits[i].expected + 1
    ensures forall i, j :: 0 <= i < j < |trace[k].commits| ==>
      trace[k].commits[i].expected < trace[k].commits[j].expected
  {
    RunKeeps(steps, trace, k);
    ReadsImage(trace[k].db, trace[k].img);
  }

  /** No orphan entity and no dangling index member at any moment, whoever interleaves with whom. */
  lemma IndexesAreExact<S(!new)>(steps: seq<Step<S>>, trace: seq<System<S>>, k: nat, scope: string)
    requires Run(steps, trace) && k <= |steps|
    ensures forall key :: key in IndexMembers(trace[k].db, scope) <==>
      key in trace[k].db && key.NativeEntity? && key.scope == scope
  {
    RunKeeps(steps, trace, k);
    var s := trace[k];
    ReadsImage(s.db, s.img);
    forall key
      ensures key in IndexMembers(s.db, scope) <==> key in s.db && key.NativeEntity? && key.scope == scope
    {
      assert Replicated(key) ==> (key in s.db <==> Cell(s.img, key).Some?);
    }
  }

  ghost predicate Grows<S>(s: System<S>, t: System<S>) {
    s.base == t.base && |s.snapshots| <= |t.snapshots| && t.snapshots[..|s.snapshots|] == s.snapshots
  }

  lemma SnapshotStep<S(!new)>(s: System<S>, step: Step<S>)
    requires Enabled(s, step)
    ensures Grows(s, After(s, step))
  {
  }

  lemma GrowsOn<S>(s: System<S>, t: System<S>, u: System<S>)
    requires Grows(s, t) && Grows(t, u)
    ensures Grows(s, u)
  {
    assert u.snapshots[..|s.snapshots|] == t.snapshots[..|s.snapshots|];
  }

  lemma {:induction false} GrowingTrace<S>(trace: seq<System<S>>, i: nat, j: nat)
    requires i <= j < |trace| && forall k :: 0 <= k < |trace| - 1 ==> Grows(trace[k], trace[k + 1])
    ensures Grows(trace[i], trace[j])
  {
    if i < j {
      GrowingTrace(trace, i, j - 1);
      assert Grows(trace[j - 1], trace[j - 1 + 1]);
      GrowsOn(trace[i], trace[j - 1], trace[j]);
    }
  }

  lemma SnapshotsGrow<S(!new)>(steps: seq<Step<S>>, trace: seq<System<S>>, i: nat, j: nat)
    requires Run(steps, trace) && i <= j <= |steps|
    ensures Grows(trace[i], trace[j])
  {
    forall k | 0 <= k < |steps|
      ensures Grows(trace[k], trace[k + 1])
    {
      SnapshotStep(trace[k], steps[k]);
    }
    GrowingTrace(trace, i, j);
  }

  lemma {:induction false} AnsweredAt<S(!new)>(steps: seq<Step<S>>, trace: seq<System<S>>, k: nat,
                                               a: nat) returns (at: nat)
    requires Run(steps, trace) && k <= |steps| && a < |trace[k].answers|
    ensures at <= k && RevisionOf(trace[at].db) == trace[k].answers[a].0
  {
    var before := trace[k - 1];
    if a < |before.answers| {
      at := AnsweredAt(steps, trace, k - 1, a);
    } else {
      AnswerStep(before, steps[k - 1], a);
      at := k - 1;
    }
  }

  /** A new answer is given at the revision of the moment. */
  lemma AnswerStep<S(!new)>(s: System<S>, step: Step<S>, a: nat)
    requires Enabled(s, step) && |s.answers| <= a < |After(s, step).answers|
    ensures RevisionOf(s.db) == After(s, step).answers[a].0
  {
  }

  /** The seqlock read: a reader that returns revision `r` with snapshot `x` did so because at some moment the revision
      was `r`, and at every moment the revision was `r` the snapshot key held `x`. */
  lemma SeqlockReads<S(!new)>(steps: seq<Step<S>>, trace: seq<System<S>>, k: nat, a: nat)
    requires Run(steps, trace) && k <= |steps| && a < |trace[k].answers|
    ensures var (r, x) := trace[k].answers[a];
      && (exists i :: 0 <= i <= k && RevisionOf(trace[i].db) == r)
      && (forall i :: 0 <= i <= |steps| && RevisionOf(trace[i].db) == r ==> SnapshotOf(trace[i].db) == x)
  {
    var (r, x) := trace[k].answers[a];
    var at := AnsweredAt(steps, trace, k, a);
    RunKeeps(steps, trace, k);
    assert SnapshotWas(trace[k], r, x);
    forall i | 0 <= i <= |steps| && RevisionOf(trace[i].db) == r
      ensures SnapshotOf(trace[i].db) == x
    {
      RunKeeps(steps, trace, i);
      ReadsImage(trace[i].db, trace[i].img);
      assert trace[i].snapshots[r - trace[i].base] == SnapshotOf(trace[i].db);
      if i <= k {
        SnapshotsGrow(steps, trace, i, k);
      } else {
        SnapshotsGrow(steps, trace, k, i);
      }
    }
  }

  // ---------- What a transaction stamps ----------

  lemma {:induction false} LedgerAfterIs(ledger: map<string, LedgerRecord>, ops: seq<RedisOperation>, next: nat,
                                         total: nat, key: string)
    ensures key in OperationKeys(ops) ==>
      var after := LedgerAfter(ledger, ops, next, total);
      key in after && after[key].status == Committed && after[key].revision == next && after[key].entityCount == total
    ensures key !in OperationKeys(ops) ==>
      var after := LedgerAfter(ledger, ops, next, total);
      (key in after <==> key in ledger) && (key in ledger ==> after[key] == ledger[key])
  {
    if ops != [] {
      var n := |ops| - 1;
      LedgerAfterIs(ledger, ops[..n], next, total, key);
      assert OperationKeys(ops) == OperationKeys(ops[..n]) + {ops[n].key};
    }
  }

  lemma {:induction false} ManifestsAfterIs(manifests: map<string, Manifest>, counts: Counts, next: nat, i: nat)
    requires i < |counts|
    ensures var after := ManifestsAfter(manifests, counts, next);
      counts[i].0 in after && after[counts[i].0].revision == next
  {
    var n := |counts| - 1;
    if i < n {
      ManifestsAfterIs(manifests, counts[..n], next, i);
    }
  }

  ghost predicate ManifestCarries<S>(db: Db<Key, S>, scope: string, revision: nat) {
    var key := NativeManifest(scope);
    key in db && db[key].ManifestOf? && db[key].manifest.revision == revision
  }

  ghost predicate LedgerCarries<S>(db: Db<Key, S>, operation: string, revision: nat) {
    var key := OperationLedger(operation);
    key in db && db[key].Ledger? && db[key].ledger.status == Committed && db[key].ledger.revision == revision
  }

  lemma CarriesManifest<S>(db: Db<Key, S>, img: Image<S>, job: Job<S>, scope: string)
    requires Represents(db, Published(img, job)) && scope in JobScopes(job)
    ensures ManifestCarries(db, scope, job.expected + 1)
  {
    var counts := if job.Pointwise? then DeltaCounts(job.deltas) else ProjectionCounts(job.projections);
    var i: nat :| i < |counts| && counts[i].0 == scope by {
      if job.Pointwise? {
        var i :| 0 <= i < |job.deltas| && job.deltas[i].scope == scope;
        assert counts[i].0 == scope;
      } else {
        var i :| 0 <= i < |job.projections| && job.projections[i].scope == scope;
        assert counts[i].0 == scope;
      }
    }
    JobStampsManifest(img, job, counts, i);
    assert Cell(Published(img, job), NativeManifest(scope)).Some?;
  }

  lemma CarriesLedger<S>(db: Db<Key, S>, img: Image<S>, job: Job<S>, operation: string)
    requires Represents(db, Published(img, job)) && operation in OperationKeys(job.ops)
    ensures LedgerCarries(db, operation, job.expected + 1)
  {
    JobStampsLedger(img, job, operation);
    assert Cell(Published(img, job), OperationLedger(operation)).Some?;
  }

  /** The INCR reply is the number that every manifest and every ledger record of the transaction carries. */
  lemma StampsAreTheReply<S(!new)>(s: System<S>, c: Client, delivered: bool, disturbed: set<Client>)
    requires Inv(s) && Enabled(s, Execute(c, delivered, disturbed)) && !s.conns[c].dirty
    ensures var job := s.conns[c].phase.job;
      var t := After(s, Execute(c, delivered, disturbed));
      var reply := t.commits[|t.commits| - 1].reply;
      && reply == job.expected + 1 == RevisionOf(t.db)
      && (forall scope :: scope in JobScopes(job) ==> ManifestCarries(t.db, scope, reply))
      && (forall operation :: operation in OperationKeys(job.ops) ==> LedgerCarries(t.db, operation, reply))
  {
    var job := s.conns[c].phase.job;
    var t := Ran(s, c, delivered, disturbed);
    assert ConnInv(s, s.conns[c]);
    ExecutePublishes(s, s.conns[c]);
    ReadsImage(t.db, t.img);
    forall scope | scope in JobScopes(job)
      ensures ManifestCarries(t.db, scope, job.expected + 1)
    {
      CarriesManifest(t.db, s.img, job, scope);
    }
    forall operation | operation in OperationKeys(job.ops)
      ensures LedgerCarries(t.db, operation, job.expected + 1)
    {
      CarriesLedger(t.db, s.img, job, operation);
    }
  }

  lemma JobStampsManifest<S>(img: Image<S>, job: Job<S>, counts: Counts, i: nat)
    requires counts == (if job.Pointwise? then DeltaCounts(job.deltas) else ProjectionCounts(job.projections))
             && i < |counts|
    ensures var after := Published(img, job).manifests;
      counts[i].0 in after && after[counts[i].0].revision == job.expected + 1
  {
    var before := if job.Pointwise? then AfterDeltas(img, job.deltas).manifests
      else Replaced(img, job.projections).manifests;
    ManifestsAfterIs(before, counts, job.expected + 1, i);
  }

  lemma JobStampsLedger<S>(img: Image<S>, job: Job<S>, key: string)
    ensures key in OperationKeys(job.ops) ==>
      var after := Published(img, job).ledger;
      key in after && after[key].status == Committed && after[key].revision == job.expected + 1
    ensures key !in OperationKeys(job.ops) ==>
      var after := Published(img, job).ledger;
      (key in after <==> key in img.ledger) && (key in img.ledger ==> after[key] == img.ledger[key])
    ensures Published(img, job).markers == img.markers + OperationKeys(job.ops)
  {
    if job.Pointwise? {
      AfterDeltasShape(img, img, job.deltas);
      LedgerAfterIs(img.ledger, job.ops, job.expected + 1, Total(DeltaCounts(job.deltas)), key);
    } else {
      AfterProjectionsShape(Cleared(img, job.projections), Cleared(img, job.projections), job.projections);
      LedgerAfterIs(img.ledger, job.ops, job.expected + 1, Total(ProjectionCounts(job.projections)), key);
    }
  }

  // ---------- The ledger ----------

  /** None, conflict, committed. */
  function Rank<S>(img: Image<S>, key: string): nat {
    if key !in img.ledger then 0 else if img.ledger[key].status == Conflict then 1 else 2
  }

  /** The one step that can take a ledger status back: a conflict record written although the operation committed after
      the writer looked. */
  ghost predicate LateConflict<S>(s: System<S>, step: Step<S>)
    requires Enabled(s, step)
  {
    step.WriteConflict? && Rank(s.img, s.conns[step.client].phase.op.key) == 2
  }

  /** A step that is not a late conflict write moves no status back, and keeps the committed ones. */
  lemma RankStep<S>(s: System<S>, step: Step<S>, key: string)
    requires Enabled(s, step) && !LateConflict(s, step)
    ensures Rank(s.img, key) <= Rank(After(s, step).img, key)
  {
    if step.Execute? && !s.conns[step.client].dirty {
      JobStampsLedger(s.img, s.conns[step.client].phase.job, key);
    }
  }

  /** A step keeps the order none, conflict, committed for every operation exactly when it is no late conflict. */
  lemma LedgerStep<S>(s: System<S>, step: Step<S>)
    requires Enabled(s, step)
    ensures !LateConflict(s, step) <==> forall key :: Rank(s.img, key) <= Rank(After(s, step).img, key)
    ensures forall key :: Rank(s.img, key) == 2 && !LateConflict(s, step) ==> Rank(After(s, step).img, key) == 2
  {
    var t := After(s, step);
    if LateConflict(s, step) {
      var key := s.conns[step.client].phase.op.key;
      assert Rank(t.img, key) == 1;
    } else {
      forall key
        ensures Rank(s.img, key) <= Rank(t.img, key)
      {
        RankStep(s, step, key);
      }
    }
  }

  /** Conflict calls are not interleaved: the write comes right after its own check. */
  ghost predicate SerialConflicts<S>(steps: seq<Step<S>>) {
    forall i :: 0 <= i < |steps| && steps[i].WriteConflict? ==>
      i > 0 && steps[i - 1].CheckConflict? && steps[i - 1].client == steps[i].client
  }

  lemma SerialIsNeverLate<S>(steps: seq<Step<S>>, trace: seq<System<S>>, i: nat)
    requires Run(steps, trace) && SerialConflicts(steps) && i < |steps|
    ensures !LateConflict(trace[i], steps[i])
  {
    if steps[i].WriteConflict? {
      assert trace[i] == After(trace[i - 1], steps[i - 1]);
    }
  }

  lemma RunMoves<S>(steps: seq<Step<S>>, trace: seq<System<S>>, i: nat)
    requires Run(steps, trace) && i < |steps|
    ensures Moves(trace[i], steps[i], trace[i + 1])
  {
  }

  /** When conflict calls are not interleaved with others, a status only moves from none to conflict to committed and
      never back, whatever the publishers do in between. */
  lemma LedgerMonotone<S>(steps: seq<Step<S>>, trace: seq<System<S>>, i: nat, j: nat, key: string)
    requires Run(steps, trace) && SerialConflicts(steps) && i <= j <= |steps|
    ensures Rank(trace[i].img, key) <= Rank(trace[j].img, key)
  {
    forall k | 0 <= k < |steps|
      ensures RanksRise(trace[k], trace[k + 1], key)
    {
      SerialStep(steps, trace, k, key);
    }
    RisingRanks(trace, i, j, key);
  }

  ghost predicate RanksRise<S>(s: System<S>, t: System<S>, key: string) {
    Rank(s.img, key) <= Rank(t.img, key)
  }

  lemma {:induction false} RisingRanks<S>(trace: seq<System<S>>, i: nat, j: nat, key: string)
    requires i <= j < |trace| && forall k :: 0 <= k < |trace| - 1 ==> RanksRise(trace[k], trace[k + 1], key)
    ensures RanksRise(trace[i], trace[j], key)
  {
    if i < j {
      RisingRanks(trace, i, j - 1, key);
      assert RanksRise(trace[j - 1], trace[j - 1 + 1], key);
    }
  }

  lemma SerialStep<S>(steps: seq<Step<S>>, trace: seq<System<S>>, i: nat, key: string)
    requires Run(steps, trace) && SerialConflicts(steps) && i < |steps|
    ensures RanksRise(trace[i], trace[i + 1], key)
  {
    SerialIsNeverLate(steps, trace, i);
    RunMoves(steps, trace, i);
    RankStep(trace[i], steps[i], key);
  }

  ghost predicate MarkersCommitted<S>(img: Image<S>) {
    forall key :: key in img.markers ==> Rank(img, key) == 2
  }

  /** A marker implies a committed ledger record, at every moment of such a run. */
  lemma {:induction false} MarkersImplyLedger<S>(steps: seq<Step<S>>, trace: seq<System<S>>, j: nat)
    requires Run(steps, trace) && SerialConflicts(steps) && j <= |steps| && MarkersCommitted(trace[0].img)
    ensures MarkersCommitted(trace[j].img)
  {
    if j > 0 {
      var s, step := trace[j - 1], steps[j - 1];
      MarkersImplyLedger(steps, trace, j - 1);
      SerialIsNeverLate(steps, trace, j - 1);
      LedgerStep(s, step);
      if step.Execute? && !s.conns[step.client].dirty {
        forall key | key in trace[j].img.markers
          ensures Rank(trace[j].img, key) == 2
        {
          JobStampsLedger(s.img, s.conns[step.client].phase.job, key);
        }
      }
    }
  }

  ghost predicate Moves<S>(s: System<S>, step: Step<S>, t: System<S>) {
    Enabled(s, step) && t == After(s, step)
  }

  function Nobody(): System<int> {
    System(map[], map[], Image(0, None, 0, map[], map[], map[], {}), 0, [], [None], [])
  }

  /** One client has looked the operation up and is about to record a conflict; another is about to commit it. */
  function Racing(op: RedisOperation, reason: string, publisher: Phase<int>): System<int>
    requires publisher.Watched? || publisher.Checked?
  {
    With(With(Nobody(), 0, Conn(ConflictChecked(op, reason, 0), {}, false)),
         1, Conn(publisher, WatchKeys(publisher.job), false))
  }

  lemma LeadUp(op: RedisOperation, reason: string)
      returns (checked: System<int>, watching: System<int>, ready: System<int>)
    ensures var job: Job<int> := Pointwise(0, [], [op]);
      && Start(Nobody())
      && Moves(Nobody(), CheckConflict(0, op, reason, 0), checked)
      && Moves(checked, Watch(1, job), watching)
      && Moves(watching, CheckRevision(1), ready)
      && ready == Racing(op, reason, Checked(job, [], 0))
  {
    var job: Job<int> := Pointwise(0, [], [op]);
    checked := With(Nobody(), 0, Conn(ConflictChecked(op, reason, 0), {}, false));
    watching := Racing(op, reason, Watched(job));
    ready := Racing(op, reason, Checked(job, [], 0));
  }

  lemma CommitThenConflict(op: RedisOperation, reason: string) returns (committed: System<int>, late: System<int>)
    ensures Moves(Racing(op, reason, Checked(Pointwise(0, [], [op]), [], 0)), Execute(1, true, {1}), committed)
    ensures Moves(committed, WriteConflict(0), late)
    ensures Rank(committed.img, op.key) == 2 && Rank(late.img, op.key) == 1
  {
    var job: Job<int> := Pointwise(0, [], [op]);
    var s := Racing(op, reason, Checked(job, [], 0));
    JobStampsLedger(s.img, job, op.key);
    assert op.key == job.ops[0].key;
    committed := After(s, Execute(1, true, {1}));
    late := After(committed, WriteConflict(0));
  }

  /** A run with one more move. */
  lemma Extended<S>(steps: seq<Step<S>>, trace: seq<System<S>>, step: Step<S>, t: System<S>)
      returns (steps': seq<Step<S>>, trace': seq<System<S>>)
    requires Run(steps, trace) && Moves(trace[|steps|], step, t)
    ensures Run(steps', trace') && |steps'| == |steps| + 1 && trace'[|steps'|] == t && trace'[|steps|] == trace[|steps|]
  {
    steps', trace' := steps + [step], trace + [t];
    forall i | 0 <= i < |steps'|
      ensures Moves(trace'[i], steps'[i], trace'[i + 1])
    {
      if i < |steps| {
        RunMoves(steps, trace, i);
      }
    }
  }

  /** Interleaved, the status can go back: one coordinator looks, another one commits, the first one writes. */
  lemma InterleavedConflictRegresses(op: RedisOperation, reason: string)
      returns (steps: seq<Step<int>>, trace: seq<System<int>>)
    ensures Run(steps, trace) && |steps| == 5
    ensures Rank(trace[4].img, op.key) == 2 && Rank(trace[5].img, op.key) == 1
  {
    var job: Job<int> := Pointwise(0, [], [op]);
    var checked, watching, ready := LeadUp(op, reason);
    var committed, late := CommitThenConflict(op, reason);
    steps, trace := Extended([], [Nobody()], CheckConflict(0, op, reason, 0), checked);
    steps, trace := Extended(steps, trace, Watch(1, job), watching);
    steps, trace := Extended(steps, trace, CheckRevision(1), ready);
    steps, trace := Extended(steps, trace, Execute(1, true, {1}), committed);
    steps, trace := Extended(steps, trace, WriteConflict(0), late);
  }
}
