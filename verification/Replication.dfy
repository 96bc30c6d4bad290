/** The coordinator as a state machine: every step as a function on the whole world, connections
    that fail-stop included. */
module Replication {
  import opened Wrappers
  import opened Operations
  import opened OutboxLog
  import opened RedisServer
  import opened NativeRecords
  import opened Publish
  import opened Remote
  import opened Stores

  const MAX_REPLAY_BATCH: nat := 64
  const SNAPSHOT_CHECKPOINT_OPERATIONS: nat := 256

  datatype Mode = RedisPrimary | SqliteFallback

  /** The fate of a connection: how many adapter calls it still serves, and whether a write it loses takes effect. */
  datatype Link = Link(budget: nat, effect: bool)

  /** What an observer of the outbox sees, in order: entries that are queued, what happens to them, and as `Dropped` the
      `Completed` events of the log. `PublishedLocal` is an acknowledged publish, with those of the operations it
      carried that the local image already contained. */
  datatype Observation =
    | Enqueued(key: string)
    | Replayed(key: string)
    | Contained(key: string)
    | PublishedLocal(keys: set<string>)
    | Audited(key: string, reason: string)
    | Failed(key: string)
    | Dropped(key: string)

  datatype Problem =
    | Unavailable
    | Rejected
    | Conflicted(actual: nat)
    | SnapshotMissing
    | MirrorFailed
    | ReplayFailed
    | OutboxFailed

  /** What the caller of a tool gets; `NotRecorded` is the error of an outbox append that was refused. */
  datatype Answer = Answered | ToolFailed | Queued | MirrorPending | NotRecorded

  /** The coordinator's fields, its outbox - entries, length of the log file, audit file - and the content of the Redis
      namespace. */
  datatype World<S> = World(
    store: S,
    active: Option<S>,
    link: Option<Link>,
    mode: Mode,
    revision: nat,
    lastSnapshot: nat,
    lastRemote: Option<nat>,
    cache: seq<Projection>,
    background: bool,
    usesLocal: bool,
    replayCommitted: bool,
    pending: seq<Entry>,
    logBytes: nat,
    audit: seq<AuditRecord>,
    trace: seq<Observation>,
    img: Image<S>)

  function ActiveStore<S>(w: World<S>): S {
    match w.active
    case Some(s) => s
    case None => w.store
  }

  function WithActiveStore<S>(w: World<S>, s: S): World<S> {
    if w.active.Some? then w.(active := Some(s)) else w.(store := s)
  }

  function Filter(entries: seq<Entry>, committed: bool): seq<Entry> {
    if entries == [] then []
    else (if entries[0].redisCommitted == committed then [entries[0]] else []) + Filter(entries[1..], committed)
  }

  /** At most one batch of the committed, or of the uncommitted, entries. */
  function Batch(entries: seq<Entry>, committed: bool): seq<Entry> {
    var all := Filter(entries, committed);
    if |all| <= MAX_REPLAY_BATCH then all else all[..MAX_REPLAY_BATCH]
  }

  function KeysOf(entries: seq<Entry>): set<string> {
    set i | 0 <= i < |entries| :: entries[i].key
  }

  predicate AnyWith(entries: seq<Entry>, committed: bool) {
    exists i :: 0 <= i < |entries| && entries[i].redisCommitted == committed
  }

  // ---------- Adapter calls ----------

  const DEAD: Link := Link(0, false)

  /** A call that only reads; `false` when the connection is gone. */
  function Ask<S>(w: World<S>): (World<S>, bool) {
    match w.link
    case None => (w, false)
    case Some(link) =>
      if link.budget == 0 then (w.(link := Some(DEAD)), false)
      else (w.(link := Some(link.(budget := link.budget - 1))), true)
  }

  function AskTimes<S>(w: World<S>, n: nat): (World<S>, bool)
    decreases n
  {
    if n == 0 then (w, true)
    else
      var (next, ok) := Ask(w);
      if ok then AskTimes(next, n - 1) else (next, false)
  }

  /** A call that writes: when it is lost, the write has taken effect or it has not. */
  function Tell<S>(w: World<S>, after: Image<S>): (World<S>, bool) {
    match w.link
    case None => (w, false)
    case Some(link) =>
      if link.budget == 0 then (w.(link := Some(DEAD), img := if link.effect then after else w.img), false)
      else (w.(link := Some(link.(budget := link.budget - 1)), img := after), true)
  }

  predicate IsCommitted<S>(img: Image<S>, key: string) {
    key in img.ledger && img.ledger[key].status == Committed
  }

  predicate IsConflict<S>(img: Image<S>, key: string) {
    key in img.ledger && img.ledger[key].status == Conflict
  }

  /** `record_operation_conflict`: a committed record is never overwritten. */
  function RecordConflict<S>(w: World<S>, entry: Entry, reason: string, revision: nat): (World<S>, bool) {
    if IsCommitted(w.img, entry.key) then Ask(w)
    else
      var op := OperationFor(entry.key, entry.operation);
      Tell(w, WithLedger(w.img, entry.key, LedgerRecord(op.name, op.scope, Conflict, revision, 0, Some(reason))))
  }

  function RecordConflicts<S>(w: World<S>, entries: seq<Entry>, reason: string, revision: nat): (World<S>, bool)
    decreases |entries|
  {
    if entries == [] then (w, true)
    else
      var (next, ok) := RecordConflict(w, entries[0], reason, revision);
      if ok then RecordConflicts(next, entries[1..], reason, revision) else (next, false)
  }

  /** `publish_state_with_projections`, without operations. */
  function PublishWhole<S>(tools: Tools<S>, w: World<S>, expected: nat, snapshot: S, projections: seq<Projection>)
      : (World<S>, Outcome<Problem>)
  {
    if !(DistinctScopes(projections) && tools.fitsWhole(projections)) then (w, Fail(Rejected))
    else if w.img.revision != expected then
      var (next, ok) := Ask(w);
      (next, Fail(if ok then Conflicted(w.img.revision) else Unavailable))
    else
      var (next, ok) := Tell(w, Remote.PublishedWhole(w.img, snapshot, projections));
      (next, if ok then Pass else Fail(Unavailable))
  }

  /** A publish that passed its own checks or did not; acknowledged, the coordinator remembers what it published. */
  function Send<S>(w: World<S>, accepted: bool, after: Image<S>, cache: seq<Projection>): (World<S>, Outcome<Problem>)
  {
    if !accepted then (w, Fail(Rejected))
    else if w.img.revision != w.revision then
      var (next, ok) := Ask(w);
      (next, Fail(if ok then Conflicted(w.img.revision) else Unavailable))
    else
      var (next, ok) := Tell(w, after);
      if ok then
        (next.(revision := after.revision, cache := cache, lastRemote := Some(after.revision)), Pass)
      else (next, Fail(Unavailable))
  }

  /** `publish_local_deltas`: only what differs from the cache goes on the wire. */
  function PublishLocal<S>(tools: Tools<S>, w: World<S>, ops: seq<RedisOperation>, projections: seq<Projection>)
      : (World<S>, Outcome<Problem>)
  {
    var deltas := NativeDeltas(w.cache, projections);
    Send(w, DistinctScopes(projections) && tools.fits(deltas, ops), Remote.PublishedDeltas(w.img, deltas, ops),
         ApplyCache(w.cache, projections))
  }

  // ---------- The outbox ----------

  /** Only appending checks the size of the log. */
  function Write<S>(tools: Tools<S>, w: World<S>, event: Event, pending: seq<Entry>): (World<S>, Outcome<Problem>) {
    var bytes := w.logBytes + tools.size(event) + 1;
    if bytes > MAX_OUTBOX_BYTES then (w, Fail(OutboxFailed)) else (w.(pending := pending, logBytes := bytes), Pass)
  }

  /** A key that is already waiting is not queued again. */
  function Queue<S>(tools: Tools<S>, w: World<S>, entry: Entry): (World<S>, Outcome<Problem>) {
    if HasKey(w.pending, entry.key) then (w, Pass)
    else
      var (next, r) := Write(tools, w, Event.Pending(entry), w.pending + [entry]);
      (if r.Pass? then next.(trace := w.trace + [Enqueued(entry.key)]) else next, r)
  }

  function Mark<S>(tools: Tools<S>, w: World<S>, key: string): (World<S>, Outcome<Problem>) {
    match Find(w.pending, key)
    case None => (w, Fail(OutboxFailed))
    case Some(e) => Write(tools, w, Event.Pending(e.(redisCommitted := true)), MarkCommitted(w.pending, key))
  }

  function Complete<S>(tools: Tools<S>, w: World<S>, key: string): (World<S>, Outcome<Problem>) {
    var (next, r) := Write(tools, w, Event.Completed(key), Without(w.pending, key));
    (if r.Pass? then next.(trace := w.trace + [Dropped(key)]) else next, r)
  }

  function CompleteAll<S>(tools: Tools<S>, w: World<S>, entries: seq<Entry>): (World<S>, Outcome<Problem>)
    decreases |entries|
  {
    if entries == [] then (w, Pass)
    else
      var (next, r) := Complete(tools, w, entries[0].key);
      if r.Fail? then (next, r) else CompleteAll(tools, next, entries[1..])
  }

  function Audit<S>(tools: Tools<S>, w: World<S>, key: string, reason: string): (World<S>, Outcome<Problem>) {
    var record := AuditRecord(key, reason);
    if !AuditFits(tools.auditSize, w.audit, record) then (w, Fail(OutboxFailed))
    else (w.(audit := w.audit + [record], trace := w.trace + [Audited(key, reason)]), Pass)
  }

  function AuditAndMark<S>(tools: Tools<S>, w: World<S>, key: string, reason: string): (World<S>, Outcome<Problem>) {
    var (next, r) := Audit(tools, w, key, reason);
    if r.Fail? then (next, r) else Mark(tools, next, key)
  }

  function Reject<S>(tools: Tools<S>, w: World<S>, record: AuditRecord): (World<S>, Outcome<Problem>) {
    var (next, r) := Audit(tools, w, record.key, record.reason);
    if r.Fail? then (next, r) else Complete(tools, next, record.key)
  }

  function RejectAll<S>(tools: Tools<S>, w: World<S>, rejected: seq<AuditRecord>): (World<S>, Outcome<Problem>)
    decreases |rejected|
  {
    if rejected == [] then (w, Pass)
    else
      var (next, r) := Reject(tools, w, rejected[0]);
      if r.Fail? then (next, r) else RejectAll(tools, next, rejected[1..])
  }

  function Compacted<S>(tools: Tools<S>, w: World<S>): World<S> {
    w.(logBytes := EntryBytes(tools.size, w.pending))
  }

  // ---------- Mirroring and replaying ----------

  /** Replay onto the standby store; stops at the first entry that fails and is not there already. */
  function MirrorReplay<S>(tools: Tools<S>, w: World<S>, entries: seq<Entry>): (World<S>, bool)
    decreases |entries|
  {
    if entries == [] then (w, true)
    else
      var e := entries[0];
      match tools.apply(w.store, e.operation)
      case Some(s) => MirrorReplay(tools, w.(store := s, trace := w.trace + [Replayed(e.key)]), entries[1..])
      case None =>
        if AlreadyContains(tools, w.store, e.operation) then
          MirrorReplay(tools, w.(trace := w.trace + [Contained(e.key)]), entries[1..])
        else (w, false)
  }

  function Mirror<S>(tools: Tools<S>, w: World<S>): (World<S>, Outcome<Problem>) {
    var batch := Batch(w.pending, true);
    var (replayed, ok) := MirrorReplay(tools, w, batch);
    if !ok then (replayed, Fail(MirrorFailed))
    else
      var (next, r) := CompleteAll(tools, replayed, batch);
      if r.Fail? then (next, r) else (Compacted(tools, next), Pass)
  }

  function ReplayInto<S>(tools: Tools<S>, s: S, entries: seq<Entry>): (S, bool)
    decreases |entries|
  {
    if entries == [] then (s, true)
    else
      match tools.apply(s, entries[0].operation)
      case Some(t) => ReplayInto(tools, t, entries[1..])
      case None => (s, false)
  }

  function ReplayCommittedIntoActive<S>(tools: Tools<S>, w: World<S>): (World<S>, Outcome<Problem>) {
    if !w.replayCommitted then (w, Pass)
    else
      var (s, ok) := ReplayInto(tools, ActiveStore(w), Batch(w.pending, true));
      (WithActiveStore(w, s), if ok then Pass else Fail(ReplayFailed))
  }

  // ---------- Snapshots ----------

  function Everything<S>(tools: Tools<S>, s: S): seq<Projection> {
    ProjectAll(tools, s, AllScopes(tools, s))
  }

  /** `read_consistent_state`, by a coordinator that is not interrupted: revision, snapshot, revision. */
  function SyncFromRedis<S>(tools: Tools<S>, w: World<S>): (World<S>, Outcome<Problem>) {
    var (next, ok) := AskTimes(w, 3);
    if !ok then (next, Fail(Unavailable))
    else
      match w.img.snapshot
      case None => (next, Fail(SnapshotMissing))
      case Some(snapshot) =>
        (next.(store := snapshot, active := Some(snapshot), cache := Everything(tools, snapshot),
               revision := w.img.revision, lastSnapshot := w.img.revision, lastRemote := Some(w.img.revision)), Pass)
  }

  function Checkpoint<S>(tools: Tools<S>, w: World<S>): (World<S>, Outcome<Problem>) {
    var snapshot := ActiveStore(w);
    var projections := Everything(tools, snapshot);
    var (next, r) := PublishWhole(tools, w, w.revision, snapshot, projections);
    if r.Fail? then (next, r)
    else
      (next.(revision := next.img.revision, lastSnapshot := next.img.revision, lastRemote := Some(next.img.revision),
             cache := projections), Pass)
  }

  function CheckpointIfDue<S>(tools: Tools<S>, w: World<S>): (World<S>, Outcome<Problem>) {
    if w.mode != RedisPrimary || w.revision - w.lastSnapshot < SNAPSHOT_CHECKPOINT_OPERATIONS then (w, Pass)
    else Checkpoint(tools, w)
  }

  // ---------- Reconciliation ----------

  /** The local variables of `reconcile_outbox` after its scan of the uncommitted entries. */
  datatype Scan<S> = Scan(world: World<S>, applied: seq<Entry>, local: set<string>, rejected: seq<AuditRecord>)

  function ScanOne<S>(tools: Tools<S>, sc: Scan<S>, e: Entry): (Scan<S>, Outcome<Problem>) {
    var (w1, ok1) := Ask(sc.world);
    if !ok1 then (sc.(world := w1), Fail(Unavailable))
    else if IsCommitted(w1.img, e.key) then
      var (w2, r) := AuditAndMark(tools, w1, e.key, "already_committed_in_redis_ledger");
      (sc.(world := w2), r)
    else if IsConflict(w1.img, e.key) then
      (sc.(world := w1, rejected := sc.rejected + [AuditRecord(e.key, "redis_ledger_conflict")]), Pass)
    else
      var (w2, ok2) := Ask(w1);
      if !ok2 then (sc.(world := w2), Fail(Unavailable))
      else if e.key in w2.img.markers then
        var (w3, r) := AuditAndMark(tools, w2, e.key, "already_committed_in_redis");
        (sc.(world := w3), r)
      else ScanReplay(tools, sc.(world := w2), e)
  }

  function ScanReplay<S>(tools: Tools<S>, sc: Scan<S>, e: Entry): (Scan<S>, Outcome<Problem>) {
    var w := sc.world;
    if w.usesLocal then (sc.(applied := sc.applied + [e], local := sc.local + {e.key}), Pass)
    else
      match tools.apply(ActiveStore(w), e.operation)
      case Some(s) => (sc.(world := WithActiveStore(w, s), applied := sc.applied + [e]), Pass)
      case None =>
        var (next, ok) := RecordConflict(w, e, "redis_priority_replay_rejected", w.revision);
        if !ok then (sc.(world := next), Fail(Unavailable))
        else (sc.(world := next, rejected := sc.rejected + [AuditRecord(e.key, "redis_priority_replay_rejected")]),
              Pass)
  }

  function ScanAll<S>(tools: Tools<S>, sc: Scan<S>, entries: seq<Entry>): (Scan<S>, Outcome<Problem>)
    decreases |entries|
  {
    if entries == [] then (sc, Pass)
    else
      var (next, r) := ScanOne(tools, sc, entries[0]);
      if r.Fail? then (next, r) else ScanAll(tools, next, entries[1..])
  }

  function AsRejected(entries: seq<Entry>, reason: string): seq<AuditRecord> {
    seq(|entries|, i requires 0 <= i < |entries| => AuditRecord(entries[i].key, reason))
  }

  /** Redis moved on: the applied entries are recorded as conflicts and the stored snapshot replaces the local state. */
  function GiveWay<S>(tools: Tools<S>, sc: Scan<S>, actual: nat): (Scan<S>, Outcome<Problem>) {
    var (w1, ok) := RecordConflicts(sc.world, sc.applied, "redis_priority_conflict", actual);
    if !ok then (sc.(world := w1), Fail(Unavailable))
    else
      var (w2, r) := SyncFromRedis(tools, w1);
      if r.Fail? then (sc.(world := w2), r)
      else (Scan(w2, [], sc.local, sc.rejected + AsRejected(sc.applied, "redis_priority_conflict")), Pass)
  }

  function PublishApplied<S>(tools: Tools<S>, sc: Scan<S>): (Scan<S>, Outcome<Problem>) {
    if sc.applied == [] then (sc, Pass)
    else
      var projections := ProjectAll(tools, ActiveStore(sc.world), EntryScopes(sc.applied));
      var (next, r) := PublishLocal(tools, sc.world, OperationsFor(sc.applied), projections);
      match r
      case Pass =>
        (sc.(world := next.(trace := next.trace + [PublishedLocal(KeysOf(sc.applied) * sc.local)])), Pass)
      case Fail(Conflicted(actual)) => GiveWay(tools, sc.(world := next), actual)
      case Fail(_) => (sc.(world := next), r)
  }

  function CheckpointLocal<S>(tools: Tools<S>, sc: Scan<S>): (Scan<S>, Outcome<Problem>) {
    if sc.local == {} then (sc, Pass)
    else
      var (next, r) := Checkpoint(tools, sc.world);
      (sc.(world := next), r)
  }

  /** Entries the local image already contained are done; the others wait for the mirror. */
  function Settle<S>(tools: Tools<S>, w: World<S>, applied: seq<Entry>,
                     local: set<string>): (World<S>, Outcome<Problem>)
    decreases |applied|
  {
    if applied == [] then (w, Pass)
    else
      var key := applied[0].key;
      var (next, r) := if key in local then Complete(tools, w, key) else Mark(tools, w, key);
      if r.Fail? then (next, r) else Settle(tools, next, applied[1..], local)
  }

  function Finish<S>(tools: Tools<S>, sc: Scan<S>): (World<S>, Outcome<Problem>) {
    var (settled, r1) := Settle(tools, sc.world, sc.applied, sc.local);
    if r1.Fail? then (settled, r1)
    else
      var (cleared, r2) := RejectAll(tools, settled, sc.rejected);
      if r2.Fail? then (cleared, r2)
      else
        var (w, r3) := Mirror(tools, Compacted(tools, cleared));
        if r3.Fail? then (w, r3)
        else
          var open := AnyWith(w.pending, false);
          (w.(usesLocal := open, replayCommitted := !open && AnyWith(w.pending, true)), Pass)
  }

  function ReconcileBatch<S>(tools: Tools<S>, w: World<S>): (World<S>, Outcome<Problem>) {
    var (scanned, r1) := ScanAll(tools, Scan(w, [], {}, []), Batch(w.pending, false));
    if r1.Fail? then (scanned.world, r1) else PublishScan(tools, scanned)
  }

  /** What the scan applied is published, checkpointed and settled. */
  function PublishScan<S>(tools: Tools<S>, sc: Scan<S>): (World<S>, Outcome<Problem>) {
    var (published, r1) := PublishApplied(tools, sc);
    if r1.Fail? then (published.world, r1)
    else
      var (checked, r2) := CheckpointLocal(tools, published);
      if r2.Fail? then (checked.world, r2) else Finish(tools, checked)
  }

  function Reconcile<S>(tools: Tools<S>, w: World<S>): (World<S>, Outcome<Problem>) {
    var (replayed, r1) := ReplayCommittedIntoActive(tools, w);
    if r1.Fail? then (replayed, r1)
    else
      var (mirrored, r2) := Mirror(tools, replayed);
      if r2.Fail? then (mirrored, r2)
      else if mirrored.pending == [] then (mirrored.(usesLocal := false, replayCommitted := false), Pass)
      else ReconcileBatch(tools, mirrored)
  }

  // ---------- Losing and regaining Redis ----------

  function EnterFallback<S>(w: World<S>): World<S> {
    w.(store := ActiveStore(w), active := None, link := None, mode := SqliteFallback)
  }

  predicate Recovering<S>(w: World<S>) {
    w.mode == SqliteFallback && AnyWith(w.pending, false)
  }

  /** `native_projections_from_redis`: what the namespace holds for the system scope and for every listed workspace. */
  function StoredProjections<S>(img: Image<S>, scopes: seq<string>): seq<Projection> {
    seq(|scopes|, i requires 0 <= i < |scopes| => Projection(scopes[i], RecordsOf(img, scopes[i])))
  }

  /** The part of `attach_redis` that talks to Redis: revision, both images and the cache, on the new connection. */
  function Adopt<S>(tools: Tools<S>, w: World<S>): (World<S>, Outcome<Problem>) {
    var (read, ok) := AskTimes(w, 3);
    if !ok then (read, Fail(Unavailable))
    else
      match w.img.snapshot
      case Some(snapshot) => AdoptSnapshot(tools, read, if Recovering(w) then w.store else snapshot)
      case None =>
        var (next, r) := PublishWhole(tools, read, 0, w.store, Everything(tools, w.store));
        if r.Fail? then (next, r)
        else (next.(revision := next.img.revision, active := Some(w.store), cache := Everything(tools, w.store)), Pass)
  }

  function AdoptSnapshot<S>(tools: Tools<S>, w: World<S>, image: S): (World<S>, Outcome<Problem>) {
    var (checked, ok) := Ask(w.(store := image));
    if !ok then (checked, Fail(Unavailable))
    else if w.img.schema < NATIVE_SCHEMA_VERSION then
      var (next, r) := PublishWhole(tools, checked, w.img.revision, image, Everything(tools, image));
      if r.Fail? then (next, r)
      else (next.(revision := next.img.revision, active := Some(image), cache := Everything(tools, image)), Pass)
    else if Recovering(w) then
      var scopes := AllScopes(tools, image);
      var (next, read) := AskTimes(checked.(revision := w.img.revision), |scopes|);
      if !read then (next, Fail(Unavailable))
      else (next.(active := Some(image), cache := StoredProjections(w.img, scopes)), Pass)
    else (checked.(revision := w.img.revision, active := Some(image), cache := Everything(tools, image)), Pass)
  }

  function Attach<S>(tools: Tools<S>, w: World<S>, link: Link): (World<S>, Outcome<Problem>) {
    var (adopted, r) := Adopt(tools, w.(link := Some(link)));
    if r.Fail? then (adopted.(link := None, active := w.active), r) else Reconcile(tools, Attached(w, adopted))
  }

  /** The adopted image is served, Redis is primary, and what was pending before decides how it will be reconciled. */
  function Attached<S>(before: World<S>, adopted: World<S>): World<S> {
    adopted.(store := ActiveStore(adopted), mode := RedisPrimary, lastSnapshot := adopted.revision,
             lastRemote := Some(adopted.revision), usesLocal := Recovering(before),
             replayCommitted := !Recovering(before) && AnyWith(before.pending, true))
  }

  /** One round of the watcher; `offered` is the connection a reconnect would get, if any. */
  function Tick<S>(tools: Tools<S>, w: World<S>, offered: Option<Link>): (World<S>, Outcome<Problem>) {
    if w.link.None? then
      match offered
      case Some(link) => Attach(tools, w, link)
      case None => (w, Fail(Unavailable))
    else if w.mode == RedisPrimary then
      var (asked, ok) := Ask(w);
      if !ok then (asked, Fail(Unavailable))
      else
        var (current, r1) := Observe(tools, asked);
        if r1.Fail? then (current, r1) else ReconcileRound(tools, current)
    else (w, Pass)
  }

  function ReconcileRound<S>(tools: Tools<S>, w: World<S>): (World<S>, Outcome<Problem>) {
    var (reconciled, r) := Reconcile(tools, w);
    if r.Fail? then (reconciled, r) else CheckpointIfDue(tools, reconciled)
  }

  /** The revision just read is remembered; a foreign one makes the coordinator adopt the stored snapshot. */
  function Observe<S>(tools: Tools<S>, w: World<S>): (World<S>, Outcome<Problem>) {
    var seen := w.(lastRemote := Some(w.img.revision));
    if w.img.revision != w.revision then SyncFromRedis(tools, seen) else (seen, Pass)
  }

  // ---------- Executing a tool ----------

  function Prepare<S>(w: World<S>): World<S> {
    if w.mode == RedisPrimary && w.link.None? then EnterFallback(w) else w
  }

  function Execute<S>(tools: Tools<S>, w: World<S>, op: Operation): (World<S>, Answer) {
    var prepared := Prepare(w);
    if tools.mutating(op.name) then Mutate(tools, prepared, tools.key(op), op)
    else
      match tools.apply(ActiveStore(prepared), op)
      case Some(s) => (WithActiveStore(prepared, s), Answered)
      case None => (prepared, ToolFailed)
  }

  /** The entry is durable before the tool runs; a failed tool takes it back. */
  function Mutate<S>(tools: Tools<S>, w: World<S>, key: string, op: Operation): (World<S>, Answer) {
    var (queued, r) := Queue(tools, w, Entry(key, op, false));
    if r.Fail? then (queued, NotRecorded)
    else
      match tools.apply(ActiveStore(w), op)
      case None => TakeBack(tools, queued, key)
      case Some(s) =>
        var done := WithActiveStore(queued, s);
        if done.mode == RedisPrimary then Commit(tools, done, key, op, s) else (done, Answered)
  }

  function TakeBack<S>(tools: Tools<S>, w: World<S>, key: string): (World<S>, Answer) {
    var (next, r) := Complete(tools, w.(trace := w.trace + [Failed(key)]), key);
    if r.Fail? then (next, NotRecorded) else (Compacted(tools, next), ToolFailed)
  }

  function Commit<S>(tools: Tools<S>, w: World<S>, key: string, op: Operation, s: S): (World<S>, Answer) {
    var (next, r) := PublishLocal(tools, w, [OperationFor(key, op)], ProjectAll(tools, s, OperationScopes(op)));
    Conclude(tools, next, key, r)
  }

  /** What follows the publish of an operation: its entry waits for the mirror, or the coordinator falls back. */
  function Conclude<S>(tools: Tools<S>, w: World<S>, key: string, r: Outcome<Problem>): (World<S>, Answer) {
    match r
    case Pass =>
      var (marked, m) := Mark(tools, w, key);
      if m.Fail? then (marked, NotRecorded)
      else if w.background then (marked, Answered)
      else MirrorNow(tools, marked)
    case Fail(Conflicted(_)) => (EnterFallback(w), Queued)
    case Fail(_) => (EnterFallback(w), Answered)
  }

  /** Without a watcher the standby follows at once. */
  function MirrorNow<S>(tools: Tools<S>, w: World<S>): (World<S>, Answer) {
    var (mirrored, r) := Mirror(tools, w);
    (mirrored, match r case Pass => Answered case Fail(OutboxFailed) => NotRecorded case Fail(_) => MirrorPending)
  }
}
