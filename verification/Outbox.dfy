/** The durable outbox: an append-only event log whose meaning is a fold, and its compaction. */
module OutboxLog {
  import opened Wrappers
  import opened Operations

  const MAX_OUTBOX_BYTES: nat := 8 * 1024 * 1024
  const MAX_AUDIT_BYTES: nat := 1024 * 1024

  datatype Entry = Entry(key: string, operation: Operation, redisCommitted: bool)

  datatype Event = Pending(entry: Entry) | Completed(key: string)

  datatype AuditRecord = AuditRecord(key: string, reason: string)

  datatype OutboxError = LogFull | AuditFull | MissingEntry

  // ---------- Meaning of a log ----------

  predicate HasKey(entries: seq<Entry>, key: string) {
    exists i :: 0 <= i < |entries| && entries[i].key == key
  }

  ghost predicate DistinctKeys(entries: seq<Entry>) {
    forall i, j :: 0 <= i < j < |entries| ==> entries[i].key != entries[j].key
  }

  /** Replace the entry that carries the same key, or add the new one at the end. */
  function Upsert(entries: seq<Entry>, entry: Entry): seq<Entry> {
    if entries == [] then [entry]
    else if entries[0].key == entry.key then [entry] + entries[1..]
    else [entries[0]] + Upsert(entries[1..], entry)
  }

  lemma {:induction false} UpsertKeys(entries: seq<Entry>, entry: Entry)
    ensures forall k :: HasKey(Upsert(entries, entry), k) <==> HasKey(entries, k) || k == entry.key
  {
    var r := Upsert(entries, entry);
    HasKeySplit(r);
    if entries != [] {
      HasKeySplit(entries);
      if entries[0].key == entry.key {
        assert r[1..] == entries[1..];
      } else {
        UpsertKeys(entries[1..], entry);
        assert r[1..] == Upsert(entries[1..], entry);
      }
    }
  }

  lemma HasKeySplit(entries: seq<Entry>)
    requires entries != []
    ensures forall k :: HasKey(entries, k) <==> k == entries[0].key || HasKey(entries[1..], k)
  {
    forall k
      ensures HasKey(entries, k) <==> k == entries[0].key || HasKey(entries[1..], k)
    {
      if HasKey(entries[1..], k) {
        var i :| 0 <= i < |entries[1..]| && entries[1..][i].key == k;
        assert entries[i + 1].key == k;
      }
      if HasKey(entries, k) && k != entries[0].key {
        var i :| 0 <= i < |entries| && entries[i].key == k;
        assert entries[1..][i - 1].key == k;
      }
    }
  }

  /** Drop every entry that carries the key. */
  function Without(entries: seq<Entry>, key: string): (r: seq<Entry>)
  {
    if entries == [] then []
    else if entries[0].key == key then Without(entries[1..], key)
    else [entries[0]] + Without(entries[1..], key)
  }

  function Apply(entries: seq<Entry>, event: Event): seq<Entry> {
    match event
    case Pending(entry) => Upsert(entries, entry)
    case Completed(key) => Without(entries, key)
  }

  function ReplayOnto(entries: seq<Entry>, log: seq<Event>): seq<Entry> {
    if log == [] then entries
    else Apply(ReplayOnto(entries, log[..|log| - 1]), log[|log| - 1])
  }

  function Replay(log: seq<Event>): seq<Entry> {
    ReplayOnto([], log)
  }

  /** What compaction writes: one `Pending` event for each entry that is left. */
  function CompactLog(entries: seq<Entry>): seq<Event> {
    seq(|entries|, i requires 0 <= i < |entries| => Event.Pending(entries[i]))
  }

  // ---------- Facts about the fold ----------

  lemma {:induction false} ReplayOntoAppend(entries: seq<Entry>, log: seq<Event>, suffix: seq<Event>)
    ensures ReplayOnto(entries, log + suffix) == ReplayOnto(ReplayOnto(entries, log), suffix)
  {
    if suffix == [] {
      assert log + suffix == log;
    } else {
      var front := suffix[..|suffix| - 1];
      assert (log + suffix)[..|log + suffix| - 1] == log + front;
      ReplayOntoAppend(entries, log, front);
    }
  }

  lemma {:induction false} WithoutKeys(entries: seq<Entry>, key: string)
    ensures forall k :: HasKey(Without(entries, key), k) <==> HasKey(entries, k) && k != key
    ensures |Without(entries, key)| <= |entries|
    ensures DistinctKeys(entries) ==> DistinctKeys(Without(entries, key))
  {
    if entries != [] {
      var tail := Without(entries[1..], key);
      WithoutKeys(entries[1..], key);
      HasKeySplit(entries);
      if entries[0].key != key {
        var r := [entries[0]] + tail;
        assert r[1..] == tail;
        HasKeySplit(r);
        if DistinctKeys(entries) {
          assert DistinctKeys(entries[1..]);
          assert !HasKey(entries[1..], entries[0].key);
          assert forall j :: 0 < j < |r| ==> r[j] == tail[j - 1] && HasKey(tail, r[j].key);
        }
      } else {
        assert DistinctKeys(entries) ==> DistinctKeys(entries[1..]);
      }
    }
  }

  lemma {:induction false} UpsertDistinct(entries: seq<Entry>, entry: Entry)
    requires DistinctKeys(entries)
    ensures DistinctKeys(Upsert(entries, entry))
  {
    if entries != [] && entries[0].key != entry.key {
      assert DistinctKeys(entries[1..]);
      UpsertDistinct(entries[1..], entry);
      UpsertKeys(entries[1..], entry);
      var rest := Upsert(entries[1..], entry);
      assert !HasKey(entries[1..], entries[0].key);
      assert forall j :: 0 <= j < |rest| ==> HasKey(rest, rest[j].key);
    } else if entries != [] {
      assert forall j :: 0 < j < |entries| ==> entries[j].key != entries[0].key;
    }
  }

  /** No two pending entries ever share a key. */
  lemma {:induction false} ReplayDistinct(entries: seq<Entry>, log: seq<Event>)
    requires DistinctKeys(entries)
    ensures DistinctKeys(ReplayOnto(entries, log))
  {
    if log != [] {
      var before := ReplayOnto(entries, log[..|log| - 1]);
      ReplayDistinct(entries, log[..|log| - 1]);
      match log[|log| - 1]
      case Pending(entry) => UpsertDistinct(before, entry);
      case Completed(key) => WithoutKeys(before, key);
    }
  }

  lemma {:induction false} UpsertFresh(entries: seq<Entry>, entry: Entry)
    requires !HasKey(entries, entry.key)
    ensures Upsert(entries, entry) == entries + [entry]
  {
    if entries != [] {
      HasKeySplit(entries);
      UpsertFresh(entries[1..], entry);
    }
  }

  lemma {:induction false} CompactReplays(entries: seq<Entry>)
    requires DistinctKeys(entries)
    ensures Replay(CompactLog(entries)) == entries
  {
    if entries != [] {
      var n := |entries| - 1;
      CompactReplays(entries[..n]);
      assert CompactLog(entries)[..n] == CompactLog(entries[..n]);
      UpsertFresh(entries[..n], entries[n]);
    }
  }

  /** Compaction is unobservable, whatever is appended afterwards. */
  lemma CompactionUnobservable(log: seq<Event>, suffix: seq<Event>)
    ensures Replay(CompactLog(Replay(log)) + suffix) == Replay(log + suffix)
  {
    ReplayDistinct([], log);
    CompactReplays(Replay(log));
    ReplayOntoAppend([], log, suffix);
    ReplayOntoAppend([], CompactLog(Replay(log)), suffix);
  }

  /** The images of the log file a crash during `compact(pending())` can leave: the rename or the truncation
      either has happened or has not; the temporary file is never read. */
  ghost predicate CrashImage(before: seq<Event>, disk: seq<Event>) {
    disk == before || disk == CompactLog(Replay(before))
  }

  /** However often compaction crashes and restarts, nothing appended later can tell. */
  lemma {:induction false} CrashedCompactionsUnobservable(disks: seq<seq<Event>>, suffix: seq<Event>)
    requires |disks| > 0
    requires forall i :: 0 <= i < |disks| - 1 ==> CrashImage(disks[i], disks[i + 1])
    ensures Replay(disks[|disks| - 1] + suffix) == Replay(disks[0] + suffix)
  {
    if |disks| > 1 {
      var rest := disks[1..];
      forall i | 0 <= i < |rest| - 1
        ensures CrashImage(rest[i], rest[i + 1])
      {
        assert CrashImage(disks[i + 1], disks[i + 2]);
      }
      CrashedCompactionsUnobservable(rest, suffix);
      assert CrashImage(disks[0], disks[1]);
      CompactionUnobservable(disks[0], suffix);
    }
  }

  // ---------- Entry-level effect of each outbox operation ----------

  /** The first entry that carries the key. */
  function Find(entries: seq<Entry>, key: string): Option<Entry> {
    if entries == [] then None
    else if entries[0].key == key then Some(entries[0])
    else Find(entries[1..], key)
  }

  function MarkCommitted(entries: seq<Entry>, key: string): seq<Entry> {
    seq(|entries|, i requires 0 <= i < |entries| =>
      if entries[i].key == key then entries[i].(redisCommitted := true) else entries[i])
  }

  lemma {:induction false} UpsertMarks(entries: seq<Entry>, entry: Entry)
    requires DistinctKeys(entries)
    requires exists i :: 0 <= i < |entries| && entries[i] == entry
    ensures Upsert(entries, entry.(redisCommitted := true)) == MarkCommitted(entries, entry.key)
  {
    if entries[0] == entry {
      assert forall j :: 0 < j < |entries| ==> entries[j].key != entry.key;
    } else {
      var i :| 0 <= i < |entries| && entries[i] == entry;
      assert entries[1..][i - 1] == entry;
      assert DistinctKeys(entries[1..]);
      UpsertMarks(entries[1..], entry);
      assert entries[0].key != entry.key;
    }
  }

  // ---------- Size of the log ----------

  function LogBytes(size: Event -> nat, log: seq<Event>): nat {
    if log == [] then 0 else LogBytes(size, log[..|log| - 1]) + size(log[|log| - 1]) + 1
  }

  function EntryBytes(size: Event -> nat, entries: seq<Entry>): nat {
    if entries == [] then 0 else size(Event.Pending(entries[0])) + 1 + EntryBytes(size, entries[1..])
  }

  lemma {:induction false} LogBytesAppend(size: Event -> nat, a: seq<Event>, b: seq<Event>)
    ensures LogBytes(size, a + b) == LogBytes(size, a) + LogBytes(size, b)
  {
    if b == [] {
      assert a + b == a;
    } else {
      assert (a + b)[..|a + b| - 1] == a + b[..|b| - 1];
      LogBytesAppend(size, a, b[..|b| - 1]);
    }
  }

  lemma {:induction false} CompactBytes(size: Event -> nat, entries: seq<Entry>)
    ensures LogBytes(size, CompactLog(entries)) == EntryBytes(size, entries)
  {
    if entries != [] {
      var first := [Event.Pending(entries[0])];
      assert CompactLog(entries) == first + CompactLog(entries[1..]);
      LogBytesAppend(size, first, CompactLog(entries[1..]));
      CompactBytes(size, entries[1..]);
      assert first[..0] == [];
      assert LogBytes(size, first) == size(first[0]) + 1;
    }
  }

  lemma {:induction false} UpsertBytes(size: Event -> nat, entries: seq<Entry>, entry: Entry)
    ensures EntryBytes(size, Upsert(entries, entry)) <= EntryBytes(size, entries) + size(Event.Pending(entry)) + 1
  {
    if entries != [] {
      var r := Upsert(entries, entry);
      if entries[0].key == entry.key {
        assert r[1..] == entries[1..];
      } else {
        UpsertBytes(size, entries[1..], entry);
        assert r[1..] == Upsert(entries[1..], entry);
      }
    } else {
      assert Upsert(entries, entry)[1..] == [];
    }
  }

  lemma {:induction false} WithoutBytes(size: Event -> nat, entries: seq<Entry>, key: string)
    ensures EntryBytes(size, Without(entries, key)) <= EntryBytes(size, entries)
  {
    if entries != [] {
      WithoutBytes(size, entries[1..], key);
      if entries[0].key != key {
        assert Without(entries, key)[1..] == Without(entries[1..], key);
      }
    }
  }

  /** A compacted log is never longer than the log it replaces. */
  lemma {:induction false} CompactionShrinks(size: Event -> nat, log: seq<Event>)
    ensures LogBytes(size, CompactLog(Replay(log))) <= LogBytes(size, log)
  {
    CompactBytes(size, Replay(log));
    if log != [] {
      var front, last := log[..|log| - 1], log[|log| - 1];
      CompactionShrinks(size, front);
      CompactBytes(size, Replay(front));
      match last
      case Pending(entry) => UpsertBytes(size, Replay(front), entry);
      case Completed(key) => WithoutBytes(size, Replay(front), key);
    }
  }

  function AuditBytes(size: AuditRecord -> nat, audit: seq<AuditRecord>): nat {
    if audit == [] then 0 else AuditBytes(size, audit[..|audit| - 1]) + size(audit[|audit| - 1]) + 1
  }

  predicate AuditFits(size: AuditRecord -> nat, audit: seq<AuditRecord>, record: AuditRecord) {
    AuditBytes(size, audit) + size(record) + 1 <= MAX_AUDIT_BYTES
  }

  // ---------- Whole runs of the log file ----------

  datatype Act = Append(event: Event) | Compact

  predicate Fits(size: Event -> nat, log: seq<Event>, event: Event) {
    LogBytes(size, log) + size(event) + 1 <= MAX_OUTBOX_BYTES
  }

  function RunLog(size: Event -> nat, log: seq<Event>, acts: seq<Act>): seq<Event> {
    if acts == [] then log
    else
      var before := RunLog(size, log, acts[..|acts| - 1]);
      match acts[|acts| - 1]
      case Append(event) => if Fits(size, before, event) then before + [event] else before
      case Compact => CompactLog(Replay(before))
  }

  /** The appends of a run that were accepted, in order. */
  function AcceptedEvents(size: Event -> nat, log: seq<Event>, acts: seq<Act>): seq<Event> {
    if acts == [] then []
    else
      var front := acts[..|acts| - 1];
      match acts[|acts| - 1]
      case Append(event) =>
        AcceptedEvents(size, log, front) + if Fits(size, RunLog(size, log, front), event) then [event] else []
      case Compact => AcceptedEvents(size, log, front)
  }

  /** Only `append` checks the limit, yet no run of appends and compactions ever exceeds it, and the pending list
      of the compacted file is that of the file which was never compacted. */
  lemma {:induction false} RunStaysBoundedAndExact(size: Event -> nat, log: seq<Event>, acts: seq<Act>)
    requires LogBytes(size, log) <= MAX_OUTBOX_BYTES
    ensures LogBytes(size, RunLog(size, log, acts)) <= MAX_OUTBOX_BYTES
    ensures Replay(RunLog(size, log, acts)) == Replay(log + AcceptedEvents(size, log, acts))
  {
    if acts == [] {
      assert log + [] == log;
    } else {
      var front := acts[..|acts| - 1];
      RunStaysBoundedAndExact(size, log, front);
      var before := RunLog(size, log, front);
      match acts[|acts| - 1]
      case Append(event) =>
        if Fits(size, before, event) {
          assert (before + [event])[..|before|] == before;
          var accepted := AcceptedEvents(size, log, front);
          assert log + (accepted + [event]) == (log + accepted) + [event];
          assert ((log + accepted) + [event])[..|log + accepted|] == log + accepted;
        } else {
          assert AcceptedEvents(size, log, acts) == AcceptedEvents(size, log, front);
        }
      case Compact =>
        CompactionShrinks(size, before);
        ReplayDistinct([], before);
        CompactReplays(Replay(before));
    }
  }

  // ---------- The outbox object ----------

  class Outbox {
    const size: Event -> nat
    const auditSize: AuditRecord -> nat
    var log: seq<Event>
    var audit: seq<AuditRecord>

    ghost predicate Valid()
      reads this
    {
      LogBytes(size, log) <= MAX_OUTBOX_BYTES
    }

    constructor (size: Event -> nat, auditSize: AuditRecord -> nat)
      ensures Valid() && log == [] && audit == []
      ensures this.size == size && this.auditSize == auditSize
    {
      this.size, this.auditSize := size, auditSize;
      log, audit := [], [];
    }

    method PendingEntries() returns (entries: seq<Entry>)
      ensures entries == Replay(log) && DistinctKeys(entries)
    {
      entries := [];
      for i := 0 to |log|
        invariant entries == Replay(log[..i])
      {
        assert log[..i + 1][..i] == log[..i];
        match log[i] {
          case Pending(entry) => entries := Upsert(entries, entry);
          case Completed(key) => entries := Without(entries, key);
        }
      }
      assert log[..|log|] == log;
      ReplayDistinct([], log);
    }

    method Append(event: Event) returns (r: Outcome<OutboxError>)
      requires Valid()
      modifies this`log
      ensures Valid()
      ensures r.Pass? <==> Fits(size, old(log), event)
      ensures r.Pass? ==> log == old(log) + [event] && Replay(log) == Apply(old(Replay(log)), event)
      ensures r.Pass? ==> LogBytes(size, log) == LogBytes(size, old(log)) + size(event) + 1
      ensures r.Fail? ==> log == old(log) && r.error == LogFull
    {
      if LogBytes(size, log) + (size(event) + 1) > MAX_OUTBOX_BYTES {
        return Fail(LogFull);
      }
      assert (log + [event])[..|log|] == log;
      log := log + [event];
      return Pass;
    }

    method AppendPending(entry: Entry) returns (r: Outcome<OutboxError>)
      requires Valid()
      modifies this`log
      ensures Valid()
      ensures r.Pass? <==> HasKey(old(Replay(log)), entry.key) || Fits(size, old(log), Event.Pending(entry))
      ensures r.Fail? || HasKey(old(Replay(log)), entry.key) ==> log == old(log)
      ensures r.Pass? && !HasKey(old(Replay(log)), entry.key) ==>
        log == old(log) + [Event.Pending(entry)] && Replay(log) == old(Replay(log)) + [entry] &&
        LogBytes(size, log) == LogBytes(size, old(log)) + size(Event.Pending(entry)) + 1
    {
      var entries := PendingEntries();
      if exists i :: 0 <= i < |entries| && entries[i].key == entry.key {
        return Pass;
      }
      UpsertFresh(entries, entry);
      r := Append(Event.Pending(entry));
    }

    method MarkRedisCommitted(key: string) returns (r: Outcome<OutboxError>)
      requires Valid()
      modifies this`log
      ensures Valid()
      ensures var found := Find(old(Replay(log)), key);
        if found.None? then r == Fail(MissingEntry) && log == old(log)
        else
          var marked := Event.Pending(found.value.(redisCommitted := true));
          if !Fits(size, old(log), marked) then r == Fail(LogFull) && log == old(log)
          else
            && r.Pass? && Replay(log) == MarkCommitted(old(Replay(log)), key)
            && LogBytes(size, log) == LogBytes(size, old(log)) + size(marked) + 1
    {
      var entries := PendingEntries();
      for i := 0 to |entries|
        invariant log == old(log)
        invariant Find(entries, key) == Find(entries[i..], key)
      {
        if entries[i].key == key {
          UpsertMarks(entries, entries[i]);
          r := Append(Event.Pending(entries[i].(redisCommitted := true)));
          return;
        }
      }
      return Fail(MissingEntry);
    }

    method Complete(key: string) returns (r: Outcome<OutboxError>)
      requires Valid()
      modifies this`log
      ensures Valid()
      ensures r == if Fits(size, old(log), Event.Completed(key)) then Pass else Fail(LogFull)
      ensures r.Pass? ==>
        Replay(log) == Without(old(Replay(log)), key) &&
        LogBytes(size, log) == LogBytes(size, old(log)) + size(Event.Completed(key)) + 1
      ensures r.Fail? ==> log == old(log)
    {
      r := Append(Event.Completed(key));
    }

    method Audit(key: string, reason: string) returns (r: Outcome<OutboxError>)
      modifies this`audit
      ensures r == if AuditFits(auditSize, old(audit), AuditRecord(key, reason)) then Pass else Fail(AuditFull)
      ensures audit == if r.Pass? then old(audit) + [AuditRecord(key, reason)] else old(audit)
    {
      if AuditBytes(auditSize, audit) + (auditSize(AuditRecord(key, reason)) + 1) > MAX_AUDIT_BYTES {
        return Fail(AuditFull);
      }
      audit := audit + [AuditRecord(key, reason)];
      return Pass;
    }

    /** The audit record is durable before the entry disappears. */
    method Reject(key: string, reason: string) returns (r: Outcome<OutboxError>)
      requires Valid()
      modifies this`log, this`audit
      ensures Valid()
      ensures r == Fail(AuditFull) <==> !AuditFits(auditSize, old(audit), AuditRecord(key, reason))
      ensures audit == if r == Fail(AuditFull) then old(audit) else old(audit) + [AuditRecord(key, reason)]
      ensures r != Fail(AuditFull) ==> (r.Pass? <==> Fits(size, old(log), Event.Completed(key)))
      ensures r.Pass? ==>
        Replay(log) == Without(old(Replay(log)), key) &&
        LogBytes(size, log) == LogBytes(size, old(log)) + size(Event.Completed(key)) + 1
      ensures r.Fail? ==> log == old(log)
    {
      r := Audit(key, reason);
      if r.Fail? {
        return Fail(AuditFull);
      }
      r := Complete(key);
    }

    /** Rewrite the file through a temporary one; a rename installs it in one step. */
    method Compact(entries: seq<Entry>)
      requires Valid() && entries == Replay(log)
      modifies this`log
      ensures Valid() && log == CompactLog(entries) && Replay(log) == old(Replay(log))
      ensures LogBytes(size, log) == EntryBytes(size, entries)
    {
      ReplayDistinct([], log);
      CompactReplays(entries);
      CompactBytes(size, entries);
      CompactionShrinks(size, log);
      if entries == [] {
        log := [];
        return;
      }
      var temporary: seq<Event> := [];
      for i := 0 to |entries|
        invariant temporary == CompactLog(entries[..i])
        invariant log == old(log)
      {
        temporary := temporary + [Event.Pending(entries[i])];
      }
      assert entries[..|entries|] == entries;
      log := temporary;
    }
  }
}
