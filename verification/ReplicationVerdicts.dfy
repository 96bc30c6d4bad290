/** What a reconciliation decides about every entry it looks at, stated on the namespace, the store
    and the outbox as they were when it began: who is run, who is published, who is rejected and
    with which words, and who has left the outbox. */
module ReplicationVerdicts {
  import opened Wrappers
  import opened Operations
  import opened OutboxLog
  import opened RedisServer
  import opened NativeRecords
  import opened Publish
  import Remote
  import opened Stores
  import opened Replication
  import opened ReplicationSafety
  import opened ReplicationProgress
  import opened ReplicationCalm

  /** What the namespace says about an operation: its ledger record counts, and without one its marker. */
  datatype Verdict = Done | Disputed | Marked | Undecided

  function Judge<S>(img: Image<S>, key: string): Verdict {
    if key in img.ledger then (if img.ledger[key].status == Committed then Done else Disputed)
    else if key in img.markers then Marked
    else Undecided
  }

  /** The entries with one verdict, in order. */
  function Select<S>(img: Image<S>, entries: seq<Entry>, v: Verdict): seq<Entry> {
    if entries == [] then []
    else
      var n := |entries| - 1;
      Select(img, entries[..n], v) + if Judge(img, entries[n].key) == v then [entries[n]] else []
  }

  /** Running operations one after the other and skipping those that fail: the last state, and which of them ran. */
  function Play<S>(tools: Tools<S>, s: S, entries: seq<Entry>): (S, seq<Entry>) {
    if entries == [] then (s, [])
    else
      var n := |entries| - 1;
      var (t, ran) := Play(tools, s, entries[..n]);
      match tools.apply(t, entries[n].operation)
      case Some(u) => (u, ran + [entries[n]])
      case None => (t, ran)
  }

  /** The state served after the entries: those the namespace is silent about are run, unless the local image already
      contains them. */
  function StateAfter<S>(tools: Tools<S>, w: World<S>, entries: seq<Entry>): S {
    if w.usesLocal then ActiveStore(w) else Play(tools, ActiveStore(w), Select(w.img, entries, Undecided)).0
  }

  /** The entries to be published. */
  function Taken<S>(tools: Tools<S>, w: World<S>, entries: seq<Entry>): seq<Entry> {
    var open := Select(w.img, entries, Undecided);
    if w.usesLocal then open else Play(tools, ActiveStore(w), open).1
  }

  predicate FailsOn<S>(tools: Tools<S>, w: World<S>, before: seq<Entry>, e: Entry) {
    && Judge(w.img, e.key) == Undecided && !w.usesLocal
    && tools.apply(StateAfter(tools, w, before), e.operation).None?
  }

  /** The entries to be rejected, in order, with their reasons. */
  function Rejections<S>(tools: Tools<S>, w: World<S>, entries: seq<Entry>): seq<AuditRecord> {
    if entries == [] then []
    else
      var n := |entries| - 1;
      var e := entries[n];
      Rejections(tools, w, entries[..n]) +
      if Judge(w.img, e.key) == Disputed then [AuditRecord(e.key, "redis_ledger_conflict")]
      else if FailsOn(tools, w, entries[..n], e) then [AuditRecord(e.key, "redis_priority_replay_rejected")]
      else []
  }

  /** The audit notes about entries that Redis already has. */
  function Notes<S>(img: Image<S>, entries: seq<Entry>): seq<AuditRecord> {
    if entries == [] then []
    else
      var n := |entries| - 1;
      var key := entries[n].key;
      Notes(img, entries[..n]) +
      match Judge(img, key)
      case Done => [AuditRecord(key, "already_committed_in_redis_ledger")]
      case Marked => [AuditRecord(key, "already_committed_in_redis")]
      case _ => []
  }

  function KeysDone<S>(img: Image<S>, entries: seq<Entry>): set<string> {
    set i | 0 <= i < |entries| && Judge(img, entries[i].key) in {Done, Marked} :: entries[i].key
  }

  function ConflictRecord(e: Entry, reason: string, revision: nat): LedgerRecord {
    var op := OperationFor(e.key, e.operation);
    LedgerRecord(op.name, op.scope, Conflict, revision, 0, Some(reason))
  }

  /** The ledger once every entry that failed is recorded as a conflict. */
  function LedgerJudged<S>(tools: Tools<S>, w: World<S>, entries: seq<Entry>): map<string, LedgerRecord> {
    if entries == [] then w.img.ledger
    else
      var n := |entries| - 1;
      var e := entries[n];
      var before := LedgerJudged(tools, w, entries[..n]);
      if FailsOn(tools, w, entries[..n], e) then
        before[e.key := ConflictRecord(e, "redis_priority_replay_rejected", w.revision)]
      else before
  }

  // ---------- The outbox, by sets of keys ----------

  function Marking(entries: seq<Entry>, keys: set<string>): seq<Entry> {
    seq(|entries|, i requires 0 <= i < |entries| =>
      if entries[i].key in keys then entries[i].(redisCommitted := true) else entries[i])
  }

  function Removing(entries: seq<Entry>, keys: set<string>): seq<Entry> {
    if entries == [] then []
    else (if entries[0].key in keys then [] else [entries[0]]) + Removing(entries[1..], keys)
  }

  /** What a mirror leaves: the entries behind the first batch of committed ones, and the others. */
  function Mirrored(entries: seq<Entry>): seq<Entry> {
    Removing(entries, KeysOf(Batch(entries, true)))
  }

  lemma MarkingOne(entries: seq<Entry>, keys: set<string>, key: string)
    ensures MarkCommitted(Marking(entries, keys), key) == Marking(entries, keys + {key})
  {
  }

  lemma {:induction false} RemovingOne(entries: seq<Entry>, key: string)
    ensures Without(entries, key) == Removing(entries, {key})
  {
    if entries != [] {
      RemovingOne(entries[1..], key);
    }
  }

  lemma {:induction false} RemovingNone(entries: seq<Entry>)
    ensures Removing(entries, {}) == entries
  {
    if entries != [] {
      RemovingNone(entries[1..]);
    }
  }

  lemma {:induction false} RemovingBoth(entries: seq<Entry>, a: set<string>, b: set<string>)
    ensures Removing(Removing(entries, a), b) == Removing(entries, a + b)
  {
    if entries != [] {
      RemovingBoth(entries[1..], a, b);
      var rest := Removing(entries[1..], a);
      assert Removing(entries, a) == if entries[0].key in a then rest else [entries[0]] + rest;
      assert entries[0].key !in a ==> ([entries[0]] + rest)[1..] == rest;
    }
  }

  lemma {:induction false} CompleteAllRemoves<S>(tools: Tools<S>, w: World<S>, entries: seq<Entry>)
    requires CompleteAll(tools, w, entries).1.Pass?
    ensures CompleteAll(tools, w, entries).0.pending == Removing(w.pending, KeysOf(entries))
    decreases |entries|
  {
    if entries == [] {
      RemovingNone(w.pending);
      assert KeysOf(entries) == {};
    } else {
      var next := Complete(tools, w, entries[0].key).0;
      CompleteAllRemoves(tools, next, entries[1..]);
      RemovingOne(w.pending, entries[0].key);
      RemovingBoth(w.pending, {entries[0].key}, KeysOf(entries[1..]));
      KeysOfTail(entries);
    }
  }

  lemma MirrorRemoves<S>(tools: Tools<S>, w: World<S>)
    requires Mirror(tools, w).1.Pass?
    ensures Mirror(tools, w).0.pending == Mirrored(w.pending)
  {
    var batch := Batch(w.pending, true);
    MirrorReplayShape(tools, w, batch);
    CompleteAllRemoves(tools, MirrorReplay(tools, w, batch).0, batch);
  }

  /** Settling what was taken: all of it was local, or none. */
  lemma {:induction false} SettleSettles<S>(tools: Tools<S>, w: World<S>, taken: seq<Entry>, local: set<string>,
                                            all: bool)
    requires Settle(tools, w, taken, local).1.Pass? && forall i :: 0 <= i < |taken| ==> (taken[i].key in local <==> all)
    ensures var t := Settle(tools, w, taken, local).0;
      && OutboxOnly(w, t) && t.audit == w.audit
      && t.pending == if all then Removing(w.pending, KeysOf(taken)) else Marking(w.pending, KeysOf(taken))
    decreases |taken|
  {
    if taken == [] {
      RemovingNone(w.pending);
      assert KeysOf(taken) == {} && Marking(w.pending, {}) == w.pending;
    } else {
      var key, rest := taken[0].key, taken[1..];
      var next := if key in local then Complete(tools, w, key).0 else Mark(tools, w, key).0;
      SettleSettles(tools, next, rest, local, all);
      KeysOfTail(taken);
      if all {
        RemovingOne(w.pending, key);
        RemovingBoth(w.pending, {key}, KeysOf(rest));
      } else {
        assert Marking(MarkCommitted(w.pending, key), KeysOf(rest)) == Marking(w.pending, KeysOf(taken));
      }
    }
  }

  function RejectedKeys(rejected: seq<AuditRecord>): set<string> {
    set i | 0 <= i < |rejected| :: rejected[i].key
  }

  lemma RejectedTail(rejected: seq<AuditRecord>)
    requires rejected != []
    ensures RejectedKeys(rejected) == {rejected[0].key} + RejectedKeys(rejected[1..])
  {
    var rest := rejected[1..];
    assert forall i :: 0 <= i < |rest| ==> rest[i].key == rejected[i + 1].key;
    forall k | k in RejectedKeys(rejected)
      ensures k == rejected[0].key || k in RejectedKeys(rest)
    {
      var i :| 0 <= i < |rejected| && rejected[i].key == k;
      assert i > 0 ==> rest[i - 1].key == k;
    }
  }

  lemma {:induction false} RejectAllRejects<S>(tools: Tools<S>, w: World<S>, rejected: seq<AuditRecord>)
    requires RejectAll(tools, w, rejected).1.Pass?
    ensures var t := RejectAll(tools, w, rejected).0;
      && OutboxOnly(w, t) && t.audit == w.audit + rejected && t.pending == Removing(w.pending, RejectedKeys(rejected))
    decreases |rejected|
  {
    if rejected == [] {
      RemovingNone(w.pending);
      assert RejectedKeys(rejected) == {} && w.audit + [] == w.audit;
    } else {
      var next, key, rest := Reject(tools, w, rejected[0]).0, rejected[0].key, rejected[1..];
      RejectAllRejects(tools, next, rest);
      RemovingOne(w.pending, key);
      RemovingBoth(w.pending, {key}, RejectedKeys(rest));
      RejectedTail(rejected);
      assert w.audit + [rejected[0]] + rest == w.audit + rejected;
    }
  }

  // ---------- The scan ----------

  /** The ledger keeps every record it has, and new ones are only about undecided entries. */
  ghost predicate OnlyAdds<S>(a: Image<S>, b: Image<S>, entries: seq<Entry>) {
    && (forall key :: key in a.ledger ==> key in b.ledger && b.ledger[key] == a.ledger[key])
    && (forall key :: key in b.ledger && key !in a.ledger ==> key in KeysOf(entries) && key !in a.markers)
  }

  /** The state served is `s`, and the other one of the two stores is as it was. */
  ghost predicate Swapped<S>(w: World<S>, s: S, t: World<S>) {
    if w.active.Some? then t.active == Some(s) && t.store == w.store else t.active == None && t.store == s
  }

  /** The scan as it stands when it has looked at `seen`. */
  ghost predicate Decided<S>(tools: Tools<S>, w: World<S>, seen: seq<Entry>, sc: Scan<S>) {
    && sc.applied == Taken(tools, w, seen) && sc.rejected == Rejections(tools, w, seen)
    && sc.local == (if w.usesLocal then KeysOf(sc.applied) else {})
    && sc.world == w.(active := sc.world.active, store := sc.world.store, link := sc.world.link,
                      logBytes := sc.world.logBytes, trace := sc.world.trace, audit := sc.world.audit,
                      pending := sc.world.pending, img := sc.world.img)
    && Swapped(w, StateAfter(tools, w, seen), sc.world)
    && sc.world.audit == w.audit + Notes(w.img, seen)
    && sc.world.pending == Marking(w.pending, KeysDone(w.img, seen))
    && sc.world.img == w.img.(ledger := LedgerJudged(tools, w, seen))
  }

  lemma {:induction false} JudgedKeys<S>(tools: Tools<S>, w: World<S>, seen: seq<Entry>)
    ensures OnlyAdds(w.img, w.img.(ledger := LedgerJudged(tools, w, seen)), seen)
  {
    if seen != [] {
      var n := |seen| - 1;
      JudgedKeys(tools, w, seen[..n]);
      KeysOfLast(seen);
    }
  }

  lemma KeysOfLast(entries: seq<Entry>)
    requires entries != []
    ensures KeysOf(entries) == KeysOf(entries[..|entries| - 1]) + {entries[|entries| - 1].key}
    ensures DistinctKeys(entries) ==> entries[|entries| - 1].key !in KeysOf(entries[..|entries| - 1])
  {
    KeysOfAppend(entries[..|entries| - 1], entries[|entries| - 1]);
    assert entries[..|entries| - 1] + [entries[|entries| - 1]] == entries;
  }

  lemma KeysDoneLast<S>(img: Image<S>, entries: seq<Entry>)
    requires entries != []
    ensures var n := |entries| - 1;
      KeysDone(img, entries) ==
      KeysDone(img, entries[..n]) + if Judge(img, entries[n].key) in {Done, Marked} then {entries[n].key} else {}
  {
    var n := |entries| - 1;
    assert forall i :: 0 <= i < n ==> entries[..n][i] == entries[i];
  }

  /** The verdict on the next entry is still the one of the beginning. */
  lemma SameVerdict<S>(tools: Tools<S>, w: World<S>, seen: seq<Entry>, e: Entry)
    requires DistinctKeys(seen + [e])
    ensures Judge(w.img.(ledger := LedgerJudged(tools, w, seen)), e.key) == Judge(w.img, e.key)
  {
    var all := seen + [e];
    assert all[..|seen|] == seen && all[|seen|] == e;
    KeysOfLast(all);
    JudgedKeys(tools, w, seen);
  }

  lemma SelectLast<S>(img: Image<S>, seen: seq<Entry>, e: Entry, v: Verdict)
    ensures Select(img, seen + [e], v) == Select(img, seen, v) + if Judge(img, e.key) == v then [e] else []
  {
    assert (seen + [e])[..|seen|] == seen;
  }

  lemma PlayLast<S>(tools: Tools<S>, s: S, seen: seq<Entry>, e: Entry)
    ensures var (t, ran) := Play(tools, s, seen);
      Play(tools, s, seen + [e]) ==
      match tools.apply(t, e.operation) case Some(u) => (u, ran + [e]) case None => (t, ran)
  {
    assert (seen + [e])[..|seen|] == seen;
  }

  /** An entry that is known or fails leaves what is taken and what is served. */
  lemma StayLast<S>(tools: Tools<S>, w: World<S>, seen: seq<Entry>, e: Entry)
    requires Judge(w.img, e.key) != Undecided || FailsOn(tools, w, seen, e)
    ensures Taken(tools, w, seen + [e]) == Taken(tools, w, seen)
    ensures StateAfter(tools, w, seen + [e]) == StateAfter(tools, w, seen)
  {
    if Judge(w.img, e.key) == Undecided {
      SelectLast(w.img, seen, e, Undecided);
      PlayLast(tools, ActiveStore(w), Select(w.img, seen, Undecided), e);
    } else {
      SelectSame(w.img, seen, e);
    }
  }

  lemma SelectSame<S>(img: Image<S>, seen: seq<Entry>, e: Entry)
    requires Judge(img, e.key) != Undecided
    ensures Select(img, seen + [e], Undecided) == Select(img, seen, Undecided)
  {
    SelectLast(img, seen, e, Undecided);
    assert Select(img, seen, Undecided) + [] == Select(img, seen, Undecided);
  }

  lemma LedgerLast<S>(tools: Tools<S>, w: World<S>, seen: seq<Entry>, e: Entry)
    ensures LedgerJudged(tools, w, seen + [e]) ==
            if FailsOn(tools, w, seen, e) then
              LedgerJudged(tools, w, seen)[e.key := ConflictRecord(e, "redis_priority_replay_rejected", w.revision)]
            else LedgerJudged(tools, w, seen)
  {
    assert (seen + [e])[..|seen|] == seen;
  }

  /** What one more entry adds to everything that is decided. */
  lemma DecidedLast<S>(tools: Tools<S>, w: World<S>, seen: seq<Entry>, e: Entry)
    ensures var all, v := seen + [e], Judge(w.img, e.key);
      var fails := FailsOn(tools, w, seen, e);
      && (v != Undecided || fails ==>
            Taken(tools, w, all) == Taken(tools, w, seen) && StateAfter(tools, w, all) == StateAfter(tools, w, seen))
      && (v == Undecided && !fails ==> Taken(tools, w, all) == Taken(tools, w, seen) + [e])
      && (v == Undecided && w.usesLocal ==> StateAfter(tools, w, all) == StateAfter(tools, w, seen))
      && (v == Undecided && !w.usesLocal && !fails ==>
            Some(StateAfter(tools, w, all)) == tools.apply(StateAfter(tools, w, seen), e.operation))
      && LedgerJudged(tools, w, all) ==
         (if fails then
            LedgerJudged(tools, w, seen)[e.key := ConflictRecord(e, "redis_priority_replay_rejected", w.revision)]
          else LedgerJudged(tools, w, seen))
  {
    LedgerLast(tools, w, seen, e);
    if Judge(w.img, e.key) != Undecided || FailsOn(tools, w, seen, e) {
      StayLast(tools, w, seen, e);
    } else {
      SelectLast(w.img, seen, e, Undecided);
      PlayLast(tools, ActiveStore(w), Select(w.img, seen, Undecided), e);
    }
  }

  lemma NotedLast<S>(tools: Tools<S>, w: World<S>, seen: seq<Entry>, e: Entry)
    ensures Rejections(tools, w, seen + [e]) ==
            Rejections(tools, w, seen) +
            if Judge(w.img, e.key) == Disputed then [AuditRecord(e.key, "redis_ledger_conflict")]
            else if FailsOn(tools, w, seen, e) then [AuditRecord(e.key, "redis_priority_replay_rejected")]
            else []
    ensures Notes(w.img, seen + [e]) ==
            Notes(w.img, seen) +
            match Judge(w.img, e.key)
            case Done => [AuditRecord(e.key, "already_committed_in_redis_ledger")]
            case Marked => [AuditRecord(e.key, "already_committed_in_redis")]
            case _ => []
    ensures KeysDone(w.img, seen + [e]) ==
            KeysDone(w.img, seen) + if Judge(w.img, e.key) in {Done, Marked} then {e.key} else {}
  {
    assert (seen + [e])[..|seen|] == seen;
    KeysDoneLast(w.img, seen + [e]);
  }

  lemma DecidedHit<S>(tools: Tools<S>, w: World<S>, seen: seq<Entry>, e: Entry, sc: Scan<S>, next: Scan<S>)
    requires Decided(tools, w, seen, sc) && Judge(w.img, e.key) in {Done, Marked} && next == sc.(world := next.world)
    requires
      var note := if Judge(w.img, e.key) == Done then "already_committed_in_redis_ledger"
                  else "already_committed_in_redis";
      next.world == sc.world.(link := next.world.link, logBytes := next.world.logBytes, trace := next.world.trace,
                              audit := sc.world.audit + [AuditRecord(e.key, note)],
                              pending := MarkCommitted(sc.world.pending, e.key))
    ensures Decided(tools, w, seen + [e], next)
  {
    DecidedLast(tools, w, seen, e);
    NotedLast(tools, w, seen, e);
    MarkingOne(w.pending, KeysDone(w.img, seen), e.key);
  }

  lemma DecidedDisputed<S>(tools: Tools<S>, w: World<S>, seen: seq<Entry>, e: Entry, sc: Scan<S>, next: Scan<S>)
    requires Decided(tools, w, seen, sc) && Judge(w.img, e.key) == Disputed
    requires next == sc.(world := sc.world.(link := next.world.link),
                         rejected := sc.rejected + [AuditRecord(e.key, "redis_ledger_conflict")])
    ensures Decided(tools, w, seen + [e], next)
  {
    DecidedLast(tools, w, seen, e);
    NotedLast(tools, w, seen, e);
    assert Notes(w.img, seen) + [] == Notes(w.img, seen) && KeysDone(w.img, seen) + {} == KeysDone(w.img, seen);
  }

  lemma DecidedLocal<S>(tools: Tools<S>, w: World<S>, seen: seq<Entry>, e: Entry, sc: Scan<S>, next: Scan<S>)
    requires Decided(tools, w, seen, sc) && Judge(w.img, e.key) == Undecided && w.usesLocal
    requires next == Scan(sc.world.(link := next.world.link), sc.applied + [e], sc.local + {e.key}, sc.rejected)
    ensures Decided(tools, w, seen + [e], next)
  {
    TakenLast(tools, w, seen, e);
  }

  lemma DecidedRun<S>(tools: Tools<S>, w: World<S>, seen: seq<Entry>, e: Entry, sc: Scan<S>, next: Scan<S>, s: S)
    requires Decided(tools, w, seen, sc) && Judge(w.img, e.key) == Undecided && !w.usesLocal
    requires tools.apply(StateAfter(tools, w, seen), e.operation) == Some(s)
    requires next == Scan(next.world, sc.applied + [e], sc.local, sc.rejected) && Swapped(sc.world, s, next.world)
    requires next.world == sc.world.(active := next.world.active, store := next.world.store, link := next.world.link)
    ensures Decided(tools, w, seen + [e], next)
  {
    TakenLast(tools, w, seen, e);
  }

  /** A taken entry changes nothing but what is taken and what is served. */
  lemma TakenLast<S>(tools: Tools<S>, w: World<S>, seen: seq<Entry>, e: Entry)
    requires Judge(w.img, e.key) == Undecided && !FailsOn(tools, w, seen, e)
    ensures var all := seen + [e];
      && Taken(tools, w, all) == Taken(tools, w, seen) + [e] && Rejections(tools, w, all) == Rejections(tools, w, seen)
      && KeysOf(Taken(tools, w, all)) == KeysOf(Taken(tools, w, seen)) + {e.key}
      && LedgerJudged(tools, w, all) == LedgerJudged(tools, w, seen)
      && Notes(w.img, all) == Notes(w.img, seen) && KeysDone(w.img, all) == KeysDone(w.img, seen)
    ensures w.usesLocal ==> StateAfter(tools, w, seen + [e]) == StateAfter(tools, w, seen)
    ensures !w.usesLocal ==>
              Some(StateAfter(tools, w, seen + [e])) == tools.apply(StateAfter(tools, w, seen), e.operation)
  {
    DecidedLast(tools, w, seen, e);
    NotedLast(tools, w, seen, e);
    assert Notes(w.img, seen) + [] == Notes(w.img, seen) && KeysDone(w.img, seen) + {} == KeysDone(w.img, seen);
    assert Rejections(tools, w, seen) + [] == Rejections(tools, w, seen);
    KeysOfAppend(Taken(tools, w, seen), e);
  }

  lemma DecidedFailing<S>(tools: Tools<S>, w: World<S>, seen: seq<Entry>, e: Entry, sc: Scan<S>, next: Scan<S>)
    requires Decided(tools, w, seen, sc) && FailsOn(tools, w, seen, e)
    requires var record := ConflictRecord(e, "redis_priority_replay_rejected", w.revision);
      next == sc.(world := sc.world.(link := next.world.link,
                                     img := sc.world.img.(ledger := sc.world.img.ledger[e.key := record])),
                  rejected := sc.rejected + [AuditRecord(e.key, "redis_priority_replay_rejected")])
    ensures Decided(tools, w, seen + [e], next)
  {
    FailingLast(tools, w, seen, e);
  }

  /** A failing entry changes nothing but what is rejected and recorded. */
  lemma FailingLast<S>(tools: Tools<S>, w: World<S>, seen: seq<Entry>, e: Entry)
    requires FailsOn(tools, w, seen, e)
    ensures var all := seen + [e];
      && Taken(tools, w, all) == Taken(tools, w, seen) && StateAfter(tools, w, all) == StateAfter(tools, w, seen)
      && Rejections(tools, w, all) ==
         Rejections(tools, w, seen) + [AuditRecord(e.key, "redis_priority_replay_rejected")]
      && LedgerJudged(tools, w, all) ==
         LedgerJudged(tools, w, seen)[e.key := ConflictRecord(e, "redis_priority_replay_rejected", w.revision)]
      && Notes(w.img, all) == Notes(w.img, seen) && KeysDone(w.img, all) == KeysDone(w.img, seen)
  {
    StayLast(tools, w, seen, e);
    LedgerLast(tools, w, seen, e);
    NotedLast(tools, w, seen, e);
    assert Notes(w.img, seen) + [] == Notes(w.img, seen) && KeysDone(w.img, seen) + {} == KeysDone(w.img, seen);
  }

  lemma DecidedOpen<S>(tools: Tools<S>, w: World<S>, seen: seq<Entry>, e: Entry, sc: Scan<S>, next: Scan<S>,
                       read: World<S>)
    requires Decided(tools, w, seen, sc) && Judge(w.img, e.key) == Undecided
    requires read == sc.world.(link := read.link) && ScanReplay(tools, sc.(world := read), e) == (next, Pass)
    requires Judge(read.img, e.key) == Undecided
    ensures Decided(tools, w, seen + [e], next)
  {
    if w.usesLocal {
      DecidedLocal(tools, w, seen, e, sc, next);
    } else {
      match tools.apply(ActiveStore(read), e.operation)
      case Some(s) => DecidedRun(tools, w, seen, e, sc, next, s);
      case None => DecidedFailing(tools, w, seen, e, sc, next);
    }
  }

  /** The scan of one entry, by the verdict on it. */
  lemma ScanOneIs<S>(tools: Tools<S>, sc: Scan<S>, e: Entry)
    ensures var (w1, ok1) := Ask(sc.world);
      var (w2, ok2) := Ask(w1);
      && w1 == sc.world.(link := w1.link) && w2 == sc.world.(link := w2.link)
      && ScanOne(tools, sc, e) ==
         if !ok1 then (sc.(world := w1), Fail(Unavailable))
         else
           match Judge(sc.world.img, e.key)
           case Done => Noted(tools, sc, w1, e.key, "already_committed_in_redis_ledger")
           case Disputed =>
             (sc.(world := w1, rejected := sc.rejected + [AuditRecord(e.key, "redis_ledger_conflict")]), Pass)
           case Marked =>
             if !ok2 then (sc.(world := w2), Fail(Unavailable))
             else Noted(tools, sc, w2, e.key, "already_committed_in_redis")
           case Undecided =>
             if !ok2 then (sc.(world := w2), Fail(Unavailable)) else ScanReplay(tools, sc.(world := w2), e)
  {
    AskShape(sc.world);
    AskShape(Ask(sc.world).0);
  }

  function Noted<S>(tools: Tools<S>, sc: Scan<S>, w: World<S>, key: string, note: string): (Scan<S>, Outcome<Problem>) {
    var (t, r) := AuditAndMark(tools, w, key, note);
    (sc.(world := t), r)
  }

  lemma ScanOneDecides<S>(tools: Tools<S>, w: World<S>, seen: seq<Entry>, e: Entry, sc: Scan<S>)
    requires Decided(tools, w, seen, sc) && DistinctKeys(seen + [e]) && ScanOne(tools, sc, e).1.Pass?
    ensures Decided(tools, w, seen + [e], ScanOne(tools, sc, e).0)
  {
    SameVerdict(tools, w, seen, e);
    ScanOneIs(tools, sc, e);
    var w1 := Ask(sc.world).0;
    var w2 := Ask(w1).0;
    var next := ScanOne(tools, sc, e).0;
    match Judge(w.img, e.key)
    case Done =>
      AuditAndMarkShape(tools, w1, e.key, "already_committed_in_redis_ledger");
      DecidedHit(tools, w, seen, e, sc, next);
    case Marked =>
      AuditAndMarkShape(tools, w2, e.key, "already_committed_in_redis");
      DecidedHit(tools, w, seen, e, sc, next);
    case Disputed => DecidedDisputed(tools, w, seen, e, sc, next);
    case Undecided => DecidedOpen(tools, w, seen, e, sc, next, w2);
  }

  /** A scan that stops has run nothing but what was decided before. */
  lemma ScanOneStops<S>(tools: Tools<S>, w: World<S>, seen: seq<Entry>, e: Entry, sc: Scan<S>)
    requires Decided(tools, w, seen, sc) && DistinctKeys(seen + [e]) && ScanOne(tools, sc, e).1.Fail?
    ensures var t := ScanOne(tools, sc, e).0.world;
      ActiveStore(t) == StateAfter(tools, w, seen) && OnlyAdds(w.img, t.img, seen + [e])
  {
    StopLeaves(tools, sc, e);
    SameVerdict(tools, w, seen, e);
    JudgedKeys(tools, w, seen);
    KeysOfAppend(seen, e);
  }

  lemma StopLeaves<S>(tools: Tools<S>, sc: Scan<S>, e: Entry)
    requires ScanOne(tools, sc, e).1.Fail?
    ensures var t := ScanOne(tools, sc, e).0.world;
      && ActiveStore(t) == ActiveStore(sc.world) && t.img == sc.world.img.(ledger := t.img.ledger)
      && (t.img.ledger == sc.world.img.ledger ||
          (Judge(sc.world.img, e.key) == Undecided &&
           t.img.ledger ==
             sc.world.img.ledger[e.key := ConflictRecord(e, "redis_priority_replay_rejected", sc.world.revision)]))
  {
    ScanOneIs(tools, sc, e);
    var w1 := Ask(sc.world).0;
    var w2 := Ask(w1).0;
    match Judge(sc.world.img, e.key)
    case Done => AuditAndMarkShape(tools, w1, e.key, "already_committed_in_redis_ledger");
    case Marked => AuditAndMarkShape(tools, w2, e.key, "already_committed_in_redis");
    case Disputed =>
    case Undecided =>
      if Ask(sc.world).1 && Ask(w1).1 {
        ReplayStops(tools, sc.(world := w2), e);
      }
  }

  lemma ReplayStops<S>(tools: Tools<S>, sc: Scan<S>, e: Entry)
    requires Judge(sc.world.img, e.key) == Undecided && ScanReplay(tools, sc, e).1.Fail?
    ensures var t := ScanReplay(tools, sc, e).0.world;
      && ActiveStore(t) == ActiveStore(sc.world)
      && t.img == sc.world.img.(ledger := t.img.ledger)
      && (t.img.ledger == sc.world.img.ledger ||
          t.img.ledger ==
            sc.world.img.ledger[e.key := ConflictRecord(e, "redis_priority_replay_rejected", sc.world.revision)])
  {
  }

  /** Any scan: every entry is decided, or the first `n` are and the scan stops there. */
  lemma {:induction false} ScanAllDecides<S>(tools: Tools<S>, w: World<S>, all: seq<Entry>, k: nat, sc: Scan<S>)
      returns (n: nat)
    requires k <= |all| && Decided(tools, w, all[..k], sc) && DistinctKeys(all)
    ensures var (next, r) := ScanAll(tools, sc, all[k..]);
      && (r.Pass? ==> Decided(tools, w, all, next))
      && n <= |all| && ActiveStore(next.world) == StateAfter(tools, w, all[..n]) && OnlyAdds(w.img, next.world.img, all)
    decreases |all| - k
  {
    if k == |all| {
      assert all[..k] == all;
      JudgedKeys(tools, w, all);
      n := k;
    } else {
      assert all[..k + 1] == all[..k] + [all[k]] && all[k..][1..] == all[k + 1..];
      PrefixIn(all, k + 1);
      var (next, r) := ScanOne(tools, sc, all[k]);
      if r.Pass? {
        ScanOneDecides(tools, w, all[..k], all[k], sc);
        n := ScanAllDecides(tools, w, all, k + 1, next);
      } else {
        ScanOneStops(tools, w, all[..k], all[k], sc);
        PrefixKeys(all, k + 1);
        n := k;
      }
    }
  }

  lemma PrefixKeys(entries: seq<Entry>, n: nat)
    requires n <= |entries|
    ensures KeysOf(entries[..n]) <= KeysOf(entries)
  {
    assert forall i :: 0 <= i < n ==> entries[..n][i] == entries[i];
  }

  // ---------- Who is taken ----------

  lemma {:induction false} SelectIn<S>(img: Image<S>, entries: seq<Entry>, v: Verdict)
    ensures forall e :: e in Select(img, entries, v) <==> e in entries && Judge(img, e.key) == v
  {
    if entries != [] {
      var n := |entries| - 1;
      SelectIn(img, entries[..n], v);
      assert entries == entries[..n] + [entries[n]];
    }
  }

  lemma {:induction false} PlayIn<S>(tools: Tools<S>, s: S, entries: seq<Entry>)
    ensures forall e :: e in Play(tools, s, entries).1 ==> e in entries
    ensures Play(tools, s, entries).0 == Fold(tools, s, OperationsOf(Play(tools, s, entries).1))
  {
    if entries != [] {
      var n := |entries| - 1;
      PlayIn(tools, s, entries[..n]);
      var (t, ran) := Play(tools, s, entries[..n]);
      if tools.apply(t, entries[n].operation).Some? {
        assert OperationsOf(ran + [entries[n]])[..|ran|] == OperationsOf(ran);
      }
    }
  }

  function OperationsOf(entries: seq<Entry>): seq<Operation> {
    seq(|entries|, i requires 0 <= i < |entries| => entries[i].operation)
  }

  lemma TakenIn<S>(tools: Tools<S>, w: World<S>, entries: seq<Entry>)
    ensures forall e :: e in Taken(tools, w, entries) ==> e in entries && Judge(w.img, e.key) == Undecided
  {
    SelectIn(w.img, entries, Undecided);
    PlayIn(tools, ActiveStore(w), Select(w.img, entries, Undecided));
  }

  lemma KeyFrom(entries: seq<Entry>, key: string) returns (e: Entry)
    requires key in KeysOf(entries)
    ensures e in entries && e.key == key
  {
    var i :| 0 <= i < |entries| && entries[i].key == key;
    e := entries[i];
  }

  lemma KeyIn(entries: seq<Entry>, e: Entry)
    requires e in entries
    ensures e.key in KeysOf(entries)
  {
    var i :| 0 <= i < |entries| && entries[i] == e;
  }

  /** An entry of the batch is taken, or failed, or the namespace knew about it. */
  lemma {:induction false} Failed<S>(tools: Tools<S>, w: World<S>, entries: seq<Entry>, e: Entry)
    requires DistinctKeys(entries) && e in entries && Judge(w.img, e.key) == Undecided && e !in Taken(tools, w, entries)
    ensures var after := LedgerJudged(tools, w, entries);
      e.key in after && after[e.key] == ConflictRecord(e, "redis_priority_replay_rejected", w.revision)
    ensures AuditRecord(e.key, "redis_priority_replay_rejected") in Rejections(tools, w, entries)
  {
    var n := |entries| - 1;
    var last := entries[n];
    assert entries == entries[..n] + [last];
    DecidedLast(tools, w, entries[..n], last);
    NotedLast(tools, w, entries[..n], last);
    KeysOfLast(entries);
    if e != last {
      assert e in entries[..n];
      KeyIn(entries[..n], e);
      Failed(tools, w, entries[..n], e);
    }
  }

  lemma TakenKeys<S>(tools: Tools<S>, w: World<S>, entries: seq<Entry>)
    ensures KeysOf(Taken(tools, w, entries)) <= KeysOf(entries) && KeysOf(Taken(tools, w, entries)) !! w.img.ledger.Keys
  {
    TakenIn(tools, w, entries);
    forall key | key in KeysOf(Taken(tools, w, entries))
      ensures key in KeysOf(entries) && key !in w.img.ledger
    {
      var e := KeyFrom(Taken(tools, w, entries), key);
      KeyIn(entries, e);
    }
  }

  /** Taken entries are not recorded by the scan. */
  lemma {:induction false} NotFailed<S>(tools: Tools<S>, w: World<S>, entries: seq<Entry>)
    requires DistinctKeys(entries)
    ensures KeysOf(Taken(tools, w, entries)) !! LedgerJudged(tools, w, entries).Keys
  {
    TakenKeys(tools, w, entries);
    if entries != [] {
      var n := |entries| - 1;
      var front, last := entries[..n], entries[n];
      assert entries == front + [last];
      NotFailed(tools, w, front);
      TakenKeys(tools, w, front);
      DecidedLast(tools, w, front, last);
      KeysOfLast(entries);
      KeysOfAppend(Taken(tools, w, front), last);
      JudgedKeys(tools, w, front);
    }
  }

  lemma {:induction false} DisputedIsRejected<S>(tools: Tools<S>, w: World<S>, entries: seq<Entry>, e: Entry)
    requires e in entries && Judge(w.img, e.key) == Disputed
    ensures AuditRecord(e.key, "redis_ledger_conflict") in Rejections(tools, w, entries)
  {
    var n := |entries| - 1;
    var last := entries[n];
    assert entries == entries[..n] + [last];
    NotedLast(tools, w, entries[..n], last);
    if e != last {
      assert e in entries[..n];
      DisputedIsRejected(tools, w, entries[..n], e);
    }
  }

  // ---------- Publishing what was taken ----------

  predicate Overtaken<S>(tools: Tools<S>, w: World<S>, entries: seq<Entry>) {
    Taken(tools, w, entries) != [] && w.img.revision != w.revision
  }

  /** Some of the entries, or all of them, are recorded as conflicts, and nothing else changed. */
  ghost predicate Records<S>(a: Image<S>, b: Image<S>, entries: seq<Entry>, reason: string, revision: nat, all: bool) {
    && b == a.(ledger := b.ledger) && Extends(a.ledger, b.ledger, KeysOf(entries))
    && (all ==> forall e :: e in entries ==>
          e.key in b.ledger && b.ledger[e.key] == ConflictRecord(e, reason, revision))
  }

  lemma ConflictRecorded<S>(w: World<S>, e: Entry, reason: string, revision: nat)
    requires e.key !in w.img.ledger
    ensures var (t, ok) := RecordConflict(w, e, reason, revision);
      var after := w.img.(ledger := w.img.ledger[e.key := ConflictRecord(e, reason, revision)]);
      t == w.(link := t.link, img := t.img) && (t.img == after || (!ok && t.img == w.img))
  {
  }

  lemma RecordsMore<S>(a: Image<S>, entries: seq<Entry>, b: Image<S>, reason: string, revision: nat, all: bool)
    requires entries != [] && DistinctKeys(entries)
    requires entries[0].key !in a.ledger
    requires Records(a.(ledger := a.ledger[entries[0].key := ConflictRecord(entries[0], reason, revision)]), b,
                     entries[1..], reason,
                     revision, all)
    ensures Records(a, b, entries, reason, revision, all)
  {
    KeysOfTail(entries);
    assert forall x :: x in entries ==> x == entries[0] || x in entries[1..];
  }

  lemma {:induction false} ConflictsRecorded<S>(w: World<S>, entries: seq<Entry>, reason: string, revision: nat)
    requires DistinctKeys(entries) && forall e :: e in entries ==> e.key !in w.img.ledger
    ensures var (t, ok) := RecordConflicts(w, entries, reason, revision);
      t == w.(link := t.link, img := t.img) && Records(w.img, t.img, entries, reason, revision, ok)
    decreases |entries|
  {
    if entries != [] {
      assert entries[0] in entries;
      HeadDiffers(entries);
      KeyIn(entries, entries[0]);
      ConflictRecorded(w, entries[0], reason, revision);
      var (next, ok) := RecordConflict(w, entries[0], reason, revision);
      if ok {
        ConflictsRecorded(next, entries[1..], reason, revision);
        RecordsMore(w.img, entries, RecordConflicts(next, entries[1..], reason, revision).0.img, reason, revision,
                    RecordConflicts(next, entries[1..], reason, revision).1);
      }
    }
  }

  /** An acknowledged publish: one revision further, with a committed record for each operation. */
  ghost predicate Stamps<S>(a: Image<S>, b: Image<S>, ops: seq<RedisOperation>, total: nat) {
    b.revision == a.revision + 1 && b.snapshot == a.snapshot &&
    b.ledger == LedgerAfter(a.ledger, ops, a.revision + 1, total)
  }

  lemma PublishLocalIs<S>(tools: Tools<S>, w: World<S>, ops: seq<RedisOperation>, projections: seq<Projection>)
      returns (total: nat)
    ensures var (t, r) := PublishLocal(tools, w, ops, projections);
      && RemoteOnly(w, t) && SameOutbox(w, t) && (t.img == w.img || Stamps(w.img, t.img, ops, total))
      && (r.Pass? ==> Stamps(w.img, t.img, ops, total) && w.img.revision == w.revision && t.revision == t.img.revision)
      && (r.Fail? && r.error.Conflicted? ==>
            t.img == w.img && w.img.revision != w.revision && r.error.actual == w.img.revision)
  {
    var deltas := NativeDeltas(w.cache, projections);
    var after := Remote.PublishedDeltas(w.img, deltas, ops);
    total := Total(Remote.Counts(deltas));
    PublishLocalShape(tools, w, ops, projections);
    DeltasStamp(w.img, deltas, ops);
    SendIs(w, DistinctScopes(projections) && tools.fits(deltas, ops), after, ApplyCache(w.cache, projections));
  }

  lemma DeltasStamp<S>(img: Image<S>, deltas: seq<Delta>, ops: seq<RedisOperation>)
    ensures Stamps(img, Remote.PublishedDeltas(img, deltas, ops), ops, Total(Remote.Counts(deltas)))
  {
    Remote.PatchAllShape(img, deltas);
  }

  lemma SendIs<S>(w: World<S>, accepted: bool, after: Image<S>, cache: seq<Projection>)
    ensures var (t, r) := Send(w, accepted, after, cache);
      && (t.img == w.img || t.img == after)
      && (r.Pass? ==> t.img == after && w.img.revision == w.revision && t.revision == after.revision)
      && (r.Fail? && r.error.Conflicted? ==>
            t.img == w.img && w.img.revision != w.revision && r.error.actual == w.img.revision)
  {
  }

  lemma OperationsKeys(entries: seq<Entry>)
    ensures OperationKeys(OperationsFor(entries)) == KeysOf(entries)
  {
    assert forall i :: 0 <= i < |entries| ==> OperationsFor(entries)[i].key == entries[i].key;
    forall k | k in KeysOf(entries)
      ensures k in OperationKeys(OperationsFor(entries))
    {
      var i :| 0 <= i < |entries| && entries[i].key == k;
      assert OperationsFor(entries)[i].key == k;
    }
  }

  /** Records stay, and new ones are about these keys. */
  ghost predicate Extends(a: map<string, LedgerRecord>, b: map<string, LedgerRecord>, keys: set<string>) {
    && (forall key :: key in a ==> key in b && b[key] == a[key])
    && (forall key :: key in b && key !in a ==> key in keys)
  }

  lemma OnlyAddsMore<S>(a: Image<S>, b: Image<S>, after: Image<S>, all: seq<Entry>, more: seq<Entry>)
    requires OnlyAdds(a, b, all) && Extends(b.ledger, after.ledger, KeysOf(more)) && KeysOf(more) <= KeysOf(all)
    requires forall e :: e in more ==> e.key !in a.markers
    ensures OnlyAdds(a, after, all)
  {
    forall key | key in after.ledger && key !in a.ledger
      ensures key in KeysOf(all) && key !in a.markers
    {
      if key !in b.ledger {
        var e := KeyFrom(more, key);
      }
    }
  }

  lemma StampsAdd<S>(a: Image<S>, b: Image<S>, entries: seq<Entry>, total: nat)
    requires Stamps(a, b, OperationsFor(entries), total) && forall e :: e in entries ==> e.key !in a.ledger
    ensures Extends(a.ledger, b.ledger, KeysOf(entries))
  {
    var ops := OperationsFor(entries);
    LedgerAfterKeys(a.ledger, ops, a.revision + 1, total);
    OperationsKeys(entries);
    forall key | key in a.ledger
      ensures key !in KeysOf(entries)
    {
      if key in KeysOf(entries) {
        var e := KeyFrom(entries, key);
      }
    }
  }

  /** What the scan took was undecided, is all different, and has no ledger record yet. */
  lemma TakenIsNew<S>(tools: Tools<S>, w: World<S>, all: seq<Entry>)
    requires DistinctKeys(all)
    ensures var taken := Taken(tools, w, all);
      && DistinctKeys(taken) && KeysOf(taken) <= KeysOf(all)
      && (forall e :: e in taken ==> e.key !in LedgerJudged(tools, w, all) && e.key !in w.img.markers)
  {
    var taken := Taken(tools, w, all);
    TakenIn(tools, w, all);
    TakenDistinct(tools, w, all);
    NotFailed(tools, w, all);
    TakenKeys(tools, w, all);
    forall e | e in taken
      ensures e.key !in LedgerJudged(tools, w, all)
    {
      KeyIn(taken, e);
    }
  }

  lemma {:induction false} TakenDistinct<S>(tools: Tools<S>, w: World<S>, all: seq<Entry>)
    requires DistinctKeys(all)
    ensures DistinctKeys(Taken(tools, w, all))
  {
    if all != [] {
      var n := |all| - 1;
      TakenDistinct(tools, w, all[..n]);
      TakenKeys(tools, w, all[..n]);
      DecidedLast(tools, w, all[..n], all[n]);
      assert all == all[..n] + [all[n]];
      KeysOfLast(all);
      DistinctAppend(Taken(tools, w, all[..n]), all[n]);
    }
  }

  lemma DistinctAppend(entries: seq<Entry>, e: Entry)
    requires DistinctKeys(entries) && e.key !in KeysOf(entries)
    ensures DistinctKeys(entries + [e])
  {
  }

  /** What a publish of the scanned entries may do to the ledger and to the state served, however it ends. */
  lemma PublishAdds<S>(tools: Tools<S>, w: World<S>, all: seq<Entry>, sc: Scan<S>)
    requires Decided(tools, w, all, sc) && DistinctKeys(all) && w.active.Some?
    ensures var t := PublishApplied(tools, sc).0.world;
      && OnlyAdds(w.img, t.img, all) && t.active.Some?
      && (t.active == sc.world.active || t.active == w.img.snapshot)
  {
    JudgedKeys(tools, w, all);
    if sc.applied != [] {
      TakenIsNew(tools, w, all);
      var projections := ProjectAll(tools, ActiveStore(sc.world), EntryScopes(sc.applied));
      var ops := OperationsFor(sc.applied);
      var total := PublishLocalIs(tools, sc.world, ops, projections);
      var (next, r) := PublishLocal(tools, sc.world, ops, projections);
      SentAdds(w.img, sc.world.img, next.img, all, sc.applied, total);
      if r.Fail? && r.error.Conflicted? {
        GiveWayAdds(tools, sc.(world := next), r.error.actual);
        OnlyAddsMore(w.img, next.img, GiveWay(tools, sc.(world := next), r.error.actual).0.world.img, all, sc.applied);
      }
    }
  }

  lemma SentAdds<S>(a: Image<S>, before: Image<S>, after: Image<S>, all: seq<Entry>, taken: seq<Entry>, total: nat)
    requires OnlyAdds(a, before, all) && KeysOf(taken) <= KeysOf(all)
    requires forall e :: e in taken ==> e.key !in before.ledger && e.key !in a.markers
    requires after == before || Stamps(before, after, OperationsFor(taken), total)
    ensures OnlyAdds(a, after, all)
  {
    if after != before {
      StampsAdd(before, after, taken, total);
    }
    OnlyAddsMore(a, before, after, all, taken);
  }

  lemma GiveWayAdds<S>(tools: Tools<S>, sc: Scan<S>, actual: nat)
    requires DistinctKeys(sc.applied) && forall e :: e in sc.applied ==> e.key !in sc.world.img.ledger
    requires sc.world.active.Some?
    ensures var (next, r) := GiveWay(tools, sc, actual);
      var t := next.world;
      && Records(sc.world.img, t.img, sc.applied, "redis_priority_conflict", actual, r.Pass?)
      && t.pending == sc.world.pending && t.audit == sc.world.audit && t.usesLocal == sc.world.usesLocal
      && t.active.Some? && (t.active == sc.world.active || t.active == sc.world.img.snapshot)
      && (r.Pass? ==>
            && t.active == sc.world.img.snapshot && t.revision == t.img.revision == t.lastSnapshot
            && next == Scan(t, [], sc.local, sc.rejected + AsRejected(sc.applied, "redis_priority_conflict")))
  {
    ConflictsRecorded(sc.world, sc.applied, "redis_priority_conflict", actual);
    var w1 := RecordConflicts(sc.world, sc.applied, "redis_priority_conflict", actual).0;
    AskTimesShape(w1, 3);
  }

  // ---------- The whole reconciliation ----------

  /** The world once committed entries have been replayed, if recovery asks for it. */
  function Begun<S>(tools: Tools<S>, w: World<S>): World<S> {
    if w.replayCommitted then WithActiveStore(w, ReplayInto(tools, ActiveStore(w), Batch(w.pending, true)).0) else w
  }

  lemma {:induction false} RemovingCommitted(entries: seq<Entry>, keys: set<string>)
    requires forall e :: e in entries && e.key in keys ==> e.redisCommitted
    ensures Filter(Removing(entries, keys), false) == Filter(entries, false)
  {
    if entries != [] {
      RemovingCommitted(entries[1..], keys);
      var rest := Removing(entries[1..], keys);
      assert entries[0] in entries;
      assert Removing(entries, keys) == if entries[0].key in keys then rest else [entries[0]] + rest;
      assert ([entries[0]] + rest)[1..] == rest;
    }
  }

  lemma MirrorKeepsOpen(entries: seq<Entry>)
    requires DistinctKeys(entries)
    ensures Batch(Mirrored(entries), false) == Batch(entries, false)
    ensures Filter(Mirrored(entries), false) == Filter(entries, false)
  {
    var batch := Batch(entries, true);
    BatchIn(entries, true);
    forall e | e in entries && e.key in KeysOf(batch)
      ensures e.redisCommitted
    {
      var x := KeyFrom(batch, e.key);
      DistinctMeansSame(entries, x, e);
    }
    RemovingCommitted(entries, KeysOf(batch));
  }

  /** The decisions depend on the namespace, the state served, the revision and the recovery mode alone. */
  lemma {:induction false} SameDecisions<S>(tools: Tools<S>, a: World<S>, b: World<S>, entries: seq<Entry>)
    requires a.img == b.img && a.usesLocal == b.usesLocal && a.revision == b.revision
             && ActiveStore(a) == ActiveStore(b)
    ensures Taken(tools, a, entries) == Taken(tools, b, entries)
    ensures StateAfter(tools, a, entries) == StateAfter(tools, b, entries)
    ensures Rejections(tools, a, entries) == Rejections(tools, b, entries)
    ensures LedgerJudged(tools, a, entries) == LedgerJudged(tools, b, entries)
  {
    if entries != [] {
      SameDecisions(tools, a, b, entries[..|entries| - 1]);
    }
  }

  lemma NothingDecided<S>(tools: Tools<S>, w: World<S>)
    ensures Decided(tools, w, [], Scan(w, [], {}, []))
  {
    assert Marking(w.pending, {}) == w.pending && KeysDone(w.img, []) == {} && w.audit + [] == w.audit;
    assert KeysOf([]) == {};
  }

  lemma CheckpointIs<S>(tools: Tools<S>, w: World<S>)
    ensures var (t, r) := Checkpoint(tools, w);
      && SameOutbox(w, t) && t.active == w.active && t.usesLocal == w.usesLocal && t.mode == w.mode
      && t.img.ledger == w.img.ledger && t.img.markers == w.img.markers
      && (r.Pass? ==>
            && t.img.snapshot == Some(ActiveStore(w)) && w.img.revision == w.revision
            && t.revision == t.lastSnapshot == t.img.revision == w.img.revision + 1)
  {
    CheckpointShape(tools, w);
    var projections := Everything(tools, ActiveStore(w));
    WholeIs(w.img, ActiveStore(w), projections);
    WholeCallIs(tools, w, w.revision, ActiveStore(w), projections);
  }

  lemma WholeIs<S>(img: Image<S>, snapshot: S, projections: seq<Projection>)
    ensures var after := Remote.PublishedWhole(img, snapshot, projections);
      && after.ledger == img.ledger && after.markers == img.markers
      && after.snapshot == Some(snapshot) && after.revision == img.revision + 1
  {
    Remote.ReplaceAllShape(img, projections);
    assert OperationKeys([]) == {};
  }

  lemma WholeCallIs<S>(tools: Tools<S>, w: World<S>, expected: nat, snapshot: S, projections: seq<Projection>)
    ensures var (t, r) := PublishWhole(tools, w, expected, snapshot, projections);
      var after := Remote.PublishedWhole(w.img, snapshot, projections);
      && (t.img == w.img || t.img == after) && t == w.(link := t.link, img := t.img)
      && (r.Pass? ==> t.img == after && w.img.revision == expected)
  {
    AskShape(w);
  }

  /** Whatever the scan led to, the rest adds no ledger record but those of the publish. */
  lemma BatchAdds<S>(tools: Tools<S>, w: World<S>) returns (n: nat)
    requires DistinctKeys(w.pending) && w.active.Some?
    ensures var t := ReconcileBatch(tools, w).0;
      var all := Batch(w.pending, false);
      && OnlyAdds(w.img, t.img, all) && n <= |all| && t.active.Some?
      && (t.active == Some(StateAfter(tools, w, all[..n])) || t.active == w.img.snapshot)
  {
    var all := Batch(w.pending, false);
    BatchIn(w.pending, false);
    NothingDecided(tools, w);
    assert all[..0] == [] && all[0..] == all;
    n := ScanAllDecides(tools, w, all, 0, Scan(w, [], {}, []));
    ScanKeepsActive(tools, Scan(w, [], {}, []), all);
    var (sc, r) := ScanAll(tools, Scan(w, [], {}, []), all);
    if r.Pass? {
      n := |all|;
      assert all[..n] == all;
      ScannedAdds(tools, w, all, sc);
    }
  }

  lemma ScannedAdds<S>(tools: Tools<S>, w: World<S>, all: seq<Entry>, sc: Scan<S>)
    requires Decided(tools, w, all, sc) && DistinctKeys(all) && w.active.Some?
    ensures var t := PublishScan(tools, sc).0;
      && OnlyAdds(w.img, t.img, all) && t.active.Some?
      && (t.active == sc.world.active || t.active == w.img.snapshot)
  {
    PublishAdds(tools, w, all, sc);
    PublishedAdds(tools, sc);
  }

  lemma {:induction false} ScanKeepsActive<S>(tools: Tools<S>, sc: Scan<S>, entries: seq<Entry>)
    ensures var t := ScanAll(tools, sc, entries).0.world;
      t.mode == sc.world.mode && (sc.world.active.Some? ==> t.active.Some?)
    decreases |entries|
  {
    if entries != [] {
      ScanOneKeepsActive(tools, sc, entries[0]);
      var (next, r) := ScanOne(tools, sc, entries[0]);
      if r.Pass? {
        ScanKeepsActive(tools, next, entries[1..]);
      }
    }
  }

  lemma ScanOneKeepsActive<S>(tools: Tools<S>, sc: Scan<S>, e: Entry)
    ensures var t := ScanOne(tools, sc, e).0.world;
      t.mode == sc.world.mode && (sc.world.active.Some? ==> t.active.Some?)
  {
    ScanOneIs(tools, sc, e);
    var w1 := Ask(sc.world).0;
    var w2 := Ask(w1).0;
    AuditAndMarkShape(tools, w1, e.key, "already_committed_in_redis_ledger");
    AuditAndMarkShape(tools, w2, e.key, "already_committed_in_redis");
    ReplayKeepsActive(tools, sc.(world := w2), e);
  }

  lemma ReplayKeepsActive<S>(tools: Tools<S>, sc: Scan<S>, e: Entry)
    ensures var t := ScanReplay(tools, sc, e).0.world;
      t.mode == sc.world.mode && (sc.world.active.Some? ==> t.active.Some?)
  {
  }

  lemma PublishedAdds<S>(tools: Tools<S>, sc: Scan<S>)
    ensures var t := PublishScan(tools, sc).0;
      var p := PublishApplied(tools, sc).0.world;
      t.img.ledger == p.img.ledger && t.active == p.active
  {
    var p := PublishApplied(tools, sc).0;
    CheckpointIs(tools, p.world);
    FinishStill(tools, CheckpointLocal(tools, p).0);
  }

  /** However it ends, the state then served is the stored snapshot, or the earlier state with some entries of the batch
      run on it, in order, and the namespace knew nothing about any of those. */
  lemma ReconcileRunsOnly<S>(tools: Tools<S>, w: World<S>) returns (ran: seq<Entry>)
    requires DistinctKeys(w.pending) && w.active.Some?
    ensures var t := Reconcile(tools, w).0;
      && OnlyAdds(w.img, t.img, Batch(w.pending, false))
      && (forall e :: e in ran ==> e in Batch(w.pending, false) && Judge(w.img, e.key) == Undecided)
      && (t.active == w.img.snapshot ||
          t.active == Some(Fold(tools, ActiveStore(Begun(tools, w)), OperationsOf(ran))))
  {
    var begun := Begun(tools, w);
    ran := [];
    assert OperationsOf(ran) == [];
    assert ReplayCommittedIntoActive(tools, w).0 == begun;
    MirrorOnly(tools, begun);
    var (mirrored, r) := Mirror(tools, begun);
    if ReplayCommittedIntoActive(tools, w).1.Pass? && r.Pass? && mirrored.pending != [] {
      MirrorRemoves(tools, begun);
      MirrorKeepsOpen(w.pending);
      MirrorShape(tools, begun);
      var n := BatchAdds(tools, mirrored);
      var some := Batch(w.pending, false)[..n];
      SameDecisions(tools, mirrored, begun, some);
      if !w.usesLocal {
        ran := Taken(tools, begun, some);
        TakenIn(tools, begun, some);
        PlayIn(tools, ActiveStore(begun), Select(begun.img, some, Undecided));
      }
    }
  }

  // ---------- Reconciliations that succeed ----------

  /** The outbox once the entries that were taken are settled. */
  function Settled<S>(tools: Tools<S>, w: World<S>, all: seq<Entry>, pending: seq<Entry>): seq<Entry> {
    var known := Marking(pending, KeysDone(w.img, all));
    var keys := KeysOf(Taken(tools, w, all));
    if Overtaken(tools, w, all) then known
    else if w.usesLocal then Removing(known, keys)
    else Marking(known, keys)
  }

  /** Everything that is rejected: what the scan refused, and what had to give way to a foreign revision. */
  function AllRejected<S>(tools: Tools<S>, w: World<S>, all: seq<Entry>): seq<AuditRecord> {
    Rejections(tools, w, all) +
    if Overtaken(tools, w, all) then AsRejected(Taken(tools, w, all), "redis_priority_conflict") else []
  }

  /** The record that a decision leaves in the ledger, entry by entry. */
  ghost predicate Recorded<S>(tools: Tools<S>, w: World<S>, all: seq<Entry>, after: map<string, LedgerRecord>,
                              e: Entry) {
    match Judge(w.img, e.key)
    case Done => e.key in after && after[e.key] == w.img.ledger[e.key]
    case Disputed => e.key in after && after[e.key] == w.img.ledger[e.key]
    case Marked => e.key !in after
    case Undecided =>
      e.key in after &&
      if e !in Taken(tools, w, all) then after[e.key] == ConflictRecord(e, "redis_priority_replay_rejected", w.revision)
      else if w.img.revision != w.revision then
        after[e.key] == ConflictRecord(e, "redis_priority_conflict", w.img.revision)
      else
        var op := OperationFor(e.key, e.operation);
        after[e.key] == LedgerRecord(op.name, op.scope, Committed, w.img.revision + 1, after[e.key].entityCount, None)
  }

  /** How many revisions further a reconciliation takes the namespace: one for what it publishes, and one for the
      snapshot that follows when the local image was the source. */
  function Further<S>(tools: Tools<S>, w: World<S>, all: seq<Entry>): nat {
    if Taken(tools, w, all) == [] then 0
    else (if Overtaken(tools, w, all) then 0 else 1) + if w.usesLocal then 1 else 0
  }

  /** What a reconciliation that succeeds leaves, with `all` the batch it looked at and `pending` the outbox after its
      first mirror. */
  ghost predicate Outcome<S>(tools: Tools<S>, w: World<S>, all: seq<Entry>, pending: seq<Entry>, t: World<S>) {
    && t.active == (if Overtaken(tools, w, all) then w.img.snapshot else Some(StateAfter(tools, w, all)))
    && t.audit == w.audit + Notes(w.img, all) + AllRejected(tools, w, all)
    && t.pending == Mirrored(Removing(Settled(tools, w, all, pending), RejectedKeys(AllRejected(tools, w, all))))
    && OnlyAdds(w.img, t.img, all) && (forall e :: e in all ==> Recorded(tools, w, all, t.img.ledger, e))
    && t.img.revision == w.img.revision + Further(tools, w, all) && (Taken(tools, w, all) == [] ==> t.cache == w.cache)
    && t.revision == (if Taken(tools, w, all) == [] then w.revision else t.img.revision)
    && (if w.usesLocal && Taken(tools, w, all) != [] then t.img.snapshot == t.active && t.lastSnapshot == t.revision
        else t.img.snapshot == w.img.snapshot &&
             t.lastSnapshot == if Overtaken(tools, w, all) then t.revision else w.lastSnapshot)
  }

  lemma {:induction false} CommittedBy(ledger: map<string, LedgerRecord>, entries: seq<Entry>, next: nat, total: nat,
                                       e: Entry)
    requires DistinctKeys(entries) && e in entries
    ensures var after := LedgerAfter(ledger, OperationsFor(entries), next, total);
      var op := OperationFor(e.key, e.operation);
      e.key in after && after[e.key] == LedgerRecord(op.name, op.scope, Committed, next, total, None)
  {
    var n := |entries| - 1;
    assert OperationsFor(entries)[..n] == OperationsFor(entries[..n]);
    KeysOfLast(entries);
    if e != entries[n] {
      assert e in entries[..n];
      KeyIn(entries[..n], e);
      CommittedBy(ledger, entries[..n], next, total, e);
    }
  }

  /** What a publish of the scanned entries that succeeds leaves. */
  ghost predicate Published<S>(tools: Tools<S>, w: World<S>, all: seq<Entry>, sc: Scan<S>, p: Scan<S>) {
    && p.local == sc.local && p.world.pending == sc.world.pending && p.world.audit == sc.world.audit
    && p.world.usesLocal == sc.world.usesLocal
    && p.applied == (if Overtaken(tools, w, all) then [] else sc.applied)
    && p.rejected == AllRejected(tools, w, all) && p.world.active.Some?
    && p.world.active == (if Overtaken(tools, w, all) then w.img.snapshot else sc.world.active)
    && p.world.img.snapshot == w.img.snapshot
    && p.world.img.revision == w.img.revision +
                               (if sc.applied != [] && !Overtaken(tools, w, all) then 1 else 0)
    && p.world.revision == (if sc.applied == [] then w.revision else p.world.img.revision)
    && (sc.applied == [] ==> p.world.cache == w.cache)
    && p.world.lastSnapshot == (if Overtaken(tools, w, all) then p.world.revision else w.lastSnapshot)
    && (forall e :: e in all ==> Recorded(tools, w, all, p.world.img.ledger, e))
  }

  lemma PublishDecides<S>(tools: Tools<S>, w: World<S>, all: seq<Entry>, sc: Scan<S>)
    requires Decided(tools, w, all, sc) && DistinctKeys(all) && w.active.Some? && PublishApplied(tools, sc).1.Pass?
    ensures Published(tools, w, all, sc, PublishApplied(tools, sc).0)
  {
    var p := PublishApplied(tools, sc).0;
    JudgedKeys(tools, w, all);
    TakenIsNew(tools, w, all);
    if sc.applied == [] {
      assert AllRejected(tools, w, all) == Rejections(tools, w, all);
      RecordedByScan(tools, w, all, p.world.img.ledger);
    } else {
      var projections := ProjectAll(tools, ActiveStore(sc.world), EntryScopes(sc.applied));
      var ops := OperationsFor(sc.applied);
      var total := PublishLocalIs(tools, sc.world, ops, projections);
      var (next, r) := PublishLocal(tools, sc.world, ops, projections);
      if r.Pass? {
        assert AllRejected(tools, w, all) == Rejections(tools, w, all);
        StampedDecides(tools, w, all, sc.world.img, next.img, total);
      } else {
        GiveWayAdds(tools, sc.(world := next), r.error.actual);
        GivenWayDecides(tools, w, all, sc, p.world.img);
      }
    }
  }

  lemma RecordedByScan<S>(tools: Tools<S>, w: World<S>, all: seq<Entry>, after: map<string, LedgerRecord>)
    requires DistinctKeys(all) && after == LedgerJudged(tools, w, all)
    ensures forall e :: e in all && (Judge(w.img, e.key) == Undecided ==> e !in Taken(tools, w, all)) ==>
              Recorded(tools, w, all, after, e)
  {
    JudgedKeys(tools, w, all);
    forall e | e in all && (Judge(w.img, e.key) == Undecided ==> e !in Taken(tools, w, all))
      ensures Recorded(tools, w, all, after, e)
    {
      if Judge(w.img, e.key) == Undecided {
        Failed(tools, w, all, e);
      }
    }
  }

  lemma StampedDecides<S>(tools: Tools<S>, w: World<S>, all: seq<Entry>, before: Image<S>, img: Image<S>, total: nat)
    requires before.ledger == LedgerJudged(tools, w, all) && before.revision == w.img.revision == w.revision
    requires DistinctKeys(all) && Stamps(before, img, OperationsFor(Taken(tools, w, all)), total)
    ensures forall e :: e in all ==> Recorded(tools, w, all, img.ledger, e)
  {
    StampExtends(tools, w, all, before, img, total);
    var a, b := before.ledger, img.ledger;
    forall e | e in all
      ensures Recorded(tools, w, all, b, e)
    {
      StampedOne(tools, w, all, a, b, total, e);
    }
  }

  lemma StampExtends<S>(tools: Tools<S>, w: World<S>, all: seq<Entry>, before: Image<S>, img: Image<S>, total: nat)
    requires before.ledger == LedgerJudged(tools, w, all) && before.revision == w.img.revision
    requires DistinctKeys(all) && Stamps(before, img, OperationsFor(Taken(tools, w, all)), total)
    ensures DistinctKeys(Taken(tools, w, all))
    ensures Extends(before.ledger, img.ledger, KeysOf(Taken(tools, w, all)))
    ensures img.ledger == LedgerAfter(before.ledger, OperationsFor(Taken(tools, w, all)), w.img.revision + 1, total)
  {
    TakenIsNew(tools, w, all);
    StampsAdd(before, img, Taken(tools, w, all), total);
  }

  lemma StampedOne<S>(tools: Tools<S>, w: World<S>, all: seq<Entry>, before: map<string, LedgerRecord>,
                      after: map<string, LedgerRecord>, total: nat, e: Entry)
    requires DistinctKeys(all) && w.img.revision == w.revision && e in all && DistinctKeys(Taken(tools, w, all))
    requires before == LedgerJudged(tools, w, all) && Extends(before, after, KeysOf(Taken(tools, w, all)))
    requires after == LedgerAfter(before, OperationsFor(Taken(tools, w, all)), w.img.revision + 1, total)
    ensures Recorded(tools, w, all, after, e)
  {
    if e in Taken(tools, w, all) {
      StampedTaken(tools, w, all, before, total, e);
    } else {
      OthersStay(tools, w, all, before, after, e);
    }
  }

  lemma StampedTaken<S>(tools: Tools<S>, w: World<S>, all: seq<Entry>, before: map<string, LedgerRecord>, total: nat,
                        e: Entry)
    requires DistinctKeys(Taken(tools, w, all)) && w.img.revision == w.revision && e in Taken(tools, w, all)
    ensures Recorded(tools, w, all, LedgerAfter(before, OperationsFor(Taken(tools, w, all)), w.img.revision + 1, total),
                     e)
  {
    var taken := Taken(tools, w, all);
    TakenIn(tools, w, all);
    CommittedBy(before, taken, w.img.revision + 1, total, e);
    RecordedAsCommitted(tools, w, all, LedgerAfter(before, OperationsFor(taken), w.img.revision + 1, total), total, e);
  }

  lemma OthersStay<S>(tools: Tools<S>, w: World<S>, all: seq<Entry>, before: map<string, LedgerRecord>,
                      after: map<string, LedgerRecord>, e: Entry)
    requires DistinctKeys(all) && e in all && e !in Taken(tools, w, all)
    requires before == LedgerJudged(tools, w, all) && Extends(before, after, KeysOf(Taken(tools, w, all)))
    ensures Recorded(tools, w, all, after, e)
  {
    TakenIn(tools, w, all);
    RecordedByScan(tools, w, all, before);
    MarkedStaysOut(all, Taken(tools, w, all), e);
    RecordedStays(tools, w, all, before, after, e);
  }

  lemma RecordedAsCommitted<S>(tools: Tools<S>, w: World<S>, all: seq<Entry>, after: map<string, LedgerRecord>,
                               total: nat, e: Entry)
    requires e in Taken(tools, w, all) && w.img.revision == w.revision && Judge(w.img, e.key) == Undecided
    requires var op := OperationFor(e.key, e.operation);
      e.key in after && after[e.key] == LedgerRecord(op.name, op.scope, Committed, w.img.revision + 1, total, None)
    ensures Recorded(tools, w, all, after, e)
  {
  }

  lemma RecordedStays<S>(tools: Tools<S>, w: World<S>, all: seq<Entry>, a: map<string, LedgerRecord>,
                         b: map<string, LedgerRecord>, e: Entry)
    requires Recorded(tools, w, all, a, e)
    requires (e.key in a <==> e.key in b) && (e.key in a ==> a[e.key] == b[e.key])
    ensures Recorded(tools, w, all, b, e)
  {
  }

  /** Another entry of the batch has another key than the ones taken. */
  lemma MarkedStaysOut(all: seq<Entry>, taken: seq<Entry>, e: Entry)
    requires DistinctKeys(all) && e in all && e !in taken && forall x :: x in taken ==> x in all
    ensures e.key !in KeysOf(taken)
  {
    if e.key in KeysOf(taken) {
      var x := KeyFrom(taken, e.key);
      DistinctMeansSame(all, x, e);
    }
  }

  lemma GivenWayDecides<S>(tools: Tools<S>, w: World<S>, all: seq<Entry>, sc: Scan<S>, img: Image<S>)
    requires Decided(tools, w, all, sc) && DistinctKeys(all) && w.img.revision != w.revision
    requires Records(sc.world.img, img, sc.applied, "redis_priority_conflict", w.img.revision, true)
    ensures forall e :: e in all ==> Recorded(tools, w, all, img.ledger, e)
  {
    TakenIsNew(tools, w, all);
    RecordedByScan(tools, w, all, sc.world.img.ledger);
    JudgedKeys(tools, w, all);
    TakenIn(tools, w, all);
    forall e | e in all
      ensures Recorded(tools, w, all, img.ledger, e)
    {
      if e !in sc.applied {
        OthersStay(tools, w, all, sc.world.img.ledger, img.ledger, e);
      }
    }
  }

  lemma FinishDecides<S>(tools: Tools<S>, sc: Scan<S>, all: bool)
    requires Finish(tools, sc).1.Pass?
    requires forall i :: 0 <= i < |sc.applied| ==> (sc.applied[i].key in sc.local <==> all)
    ensures var t := Finish(tools, sc).0;
      var settled := if all then Removing(sc.world.pending, KeysOf(sc.applied))
                     else Marking(sc.world.pending, KeysOf(sc.applied));
      && t.audit == sc.world.audit + sc.rejected
      && t.pending == Mirrored(Removing(settled, RejectedKeys(sc.rejected)))
  {
    SettleSettles(tools, sc.world, sc.applied, sc.local, all);
    var settled := Settle(tools, sc.world, sc.applied, sc.local).0;
    RejectAllRejects(tools, settled, sc.rejected);
    var cleared := Compacted(tools, RejectAll(tools, settled, sc.rejected).0);
    MirrorRemoves(tools, cleared);
    MirrorOnly(tools, cleared);
  }

  /** The part of a reconciliation behind its first mirror, when it succeeds. */
  lemma BatchDecides<S>(tools: Tools<S>, w: World<S>)
    requires DistinctKeys(w.pending) && w.active.Some? && ReconcileBatch(tools, w).1.Pass?
    ensures Outcome(tools, w, Batch(w.pending, false), w.pending, ReconcileBatch(tools, w).0)
  {
    var all := Batch(w.pending, false);
    BatchIn(w.pending, false);
    NothingDecided(tools, w);
    assert all[..0] == [] && all[0..] == all;
    var n := ScanAllDecides(tools, w, all, 0, Scan(w, [], {}, []));
    var sc := ScanAll(tools, Scan(w, [], {}, []), all).0;
    PublishDecides(tools, w, all, sc);
    n := BatchAdds(tools, w);
    PublishedDecides(tools, w, all, sc, PublishApplied(tools, sc).0, ReconcileBatch(tools, w).0);
  }

  lemma PublishedDecides<S>(tools: Tools<S>, w: World<S>, all: seq<Entry>, sc: Scan<S>, p: Scan<S>, t: World<S>)
    requires Decided(tools, w, all, sc) && Published(tools, w, all, sc, p)
    requires CheckpointLocal(tools, p).1.Pass? && Finish(tools, CheckpointLocal(tools, p).0) == (t, Pass)
    requires OnlyAdds(w.img, t.img, all) && w.active.Some?
    ensures Outcome(tools, w, all, w.pending, t)
  {
    var checked := CheckpointLocal(tools, p).0;
    CheckpointIs(tools, p.world);
    FinishStill(tools, checked);
    LocalIsAll(tools, w, all, sc);
    FinishDecides(tools, checked, w.usesLocal && !Overtaken(tools, w, all));
    if Overtaken(tools, w, all) {
      assert Marking(checked.world.pending, KeysOf([])) == checked.world.pending;
    }
  }

  lemma LocalIsAll<S>(tools: Tools<S>, w: World<S>, all: seq<Entry>, sc: Scan<S>)
    requires Decided(tools, w, all, sc)
    ensures forall i :: 0 <= i < |sc.applied| ==> (sc.applied[i].key in sc.local <==> w.usesLocal)
    ensures sc.local == {} <==> !w.usesLocal || sc.applied == []
  {
    if sc.applied != [] {
      KeyIn(sc.applied, sc.applied[0]);
    }
  }

  /** A reconciliation that succeeds, in full: which entries of its batch were run, published, rejected,
      or known already; what the ledger, the audit file and the outbox say about each; and what is served
      and stored afterwards. */
  lemma ReconcileDecides<S>(tools: Tools<S>, w: World<S>)
    requires DistinctKeys(w.pending) && w.active.Some? && Reconcile(tools, w).1.Pass?
    ensures Outcome(tools, Begun(tools, w), Batch(w.pending, false), Mirrored(w.pending), Reconcile(tools, w).0)
  {
    var begun := Begun(tools, w);
    assert ReplayCommittedIntoActive(tools, w).0 == begun;
    MirrorOnly(tools, begun);
    MirrorRemoves(tools, begun);
    MirrorKeepsOpen(w.pending);
    MirrorShape(tools, begun);
    var mirrored := Mirror(tools, begun).0;
    var all := Batch(w.pending, false);
    if mirrored.pending == [] {
      NothingOpen(tools, begun, all, Reconcile(tools, w).0);
    } else {
      BatchDecides(tools, mirrored);
      SameOutcome(tools, mirrored, begun, all, Mirrored(w.pending), Reconcile(tools, w).0);
    }
  }

  lemma NothingOpen<S>(tools: Tools<S>, w: World<S>, all: seq<Entry>, t: World<S>)
    requires all == [] && w.active.Some? && t.pending == [] && t.audit == w.audit && t.img == w.img
             && t.active == w.active
    requires t.revision == w.revision && t.lastSnapshot == w.lastSnapshot && t.cache == w.cache
    ensures Outcome(tools, w, all, [], t)
  {
    assert Batch([], true) == [] && KeysOf([]) == {};
  }

  lemma SameOutcome<S>(tools: Tools<S>, a: World<S>, b: World<S>, all: seq<Entry>, pending: seq<Entry>, t: World<S>)
    requires a.img == b.img && a.usesLocal == b.usesLocal && a.revision == b.revision
             && ActiveStore(a) == ActiveStore(b)
    requires a.audit == b.audit && a.lastSnapshot == b.lastSnapshot && a.cache == b.cache
             && Outcome(tools, a, all, pending, t)
    ensures Outcome(tools, b, all, pending, t)
  {
    SameDecisions(tools, a, b, all);
    forall e | e in all
      ensures Recorded(tools, b, all, t.img.ledger, e)
    {
      assert Recorded(tools, a, all, t.img.ledger, e);
    }
  }

  lemma {:induction false} RemovedKeys(entries: seq<Entry>, keys: set<string>)
    ensures forall e :: e in Removing(entries, keys) <==> e in entries && e.key !in keys
  {
    if entries != [] {
      RemovedKeys(entries[1..], keys);
      assert entries == [entries[0]] + entries[1..];
    }
  }

  /** What is rejected is on file and out of the outbox. */
  lemma RejectedLeave<S>(tools: Tools<S>, w: World<S>, all: seq<Entry>, pending: seq<Entry>,
                         t: World<S>, record: AuditRecord)
    requires Outcome(tools, w, all, pending, t) && record in AllRejected(tools, w, all)
    ensures !HasKey(t.pending, record.key) && w.audit <= t.audit && record in t.audit[|w.audit|..]
  {
    var rejected, settled := AllRejected(tools, w, all), Settled(tools, w, all, pending);
    var i :| 0 <= i < |rejected| && rejected[i] == record;
    assert record.key in RejectedKeys(rejected);
    var left := Removing(settled, RejectedKeys(rejected));
    RemovedKeys(settled, RejectedKeys(rejected));
    RemovedKeys(left, KeysOf(Batch(left, true)));
    AuditTail(w.audit, Notes(w.img, all), rejected, t.audit, i);
  }

  lemma AuditTail(before: seq<AuditRecord>, notes: seq<AuditRecord>, rejected: seq<AuditRecord>,
                  after: seq<AuditRecord>, i: nat)
    requires after == before + notes + rejected && i < |rejected|
    ensures before <= after && rejected[i] in after[|before|..]
  {
    assert after[|before|..][|notes| + i] == rejected[i];
  }

  /** An entry that the ledger says is in conflict is neither published nor run (`ReconcileRunsOnly`): its record stays,
      and when it is in the batch of a reconciliation that succeeds it leaves the outbox with the reason on file. */
  lemma ConflictIsRejected<S>(tools: Tools<S>, w: World<S>, e: Entry)
    requires DistinctKeys(w.pending) && w.active.Some? && e in w.pending && !e.redisCommitted
    requires e.key in w.img.ledger && w.img.ledger[e.key].status == Conflict
    ensures var (t, r) := Reconcile(tools, w);
      && e.key in t.img.ledger && t.img.ledger[e.key] == w.img.ledger[e.key]
      && (r.Pass? && e in Batch(w.pending, false) ==>
            && !HasKey(t.pending, e.key) && w.audit <= t.audit
            && AuditRecord(e.key, "redis_ledger_conflict") in t.audit[|w.audit|..])
  {
    var ran := ReconcileRunsOnly(tools, w);
    var all := Batch(w.pending, false);
    if Reconcile(tools, w).1.Pass? && e in all {
      ReconcileDecides(tools, w);
      DisputedIsRejected(tools, Begun(tools, w), all, e);
      RejectedLeave(tools, Begun(tools, w), all, Mirrored(w.pending), Reconcile(tools, w).0,
                    AuditRecord(e.key, "redis_ledger_conflict"));
    }
  }
}
