/** The Redis commands the adapter queues, as a map of typed values, and the fact that the choice of key names does not
    matter as long as distinct keys get distinct names. */
module RedisServer {
  import opened Wrappers

  datatype LedgerStatus = Committed | Conflict

  datatype LedgerRecord = LedgerRecord(name: string, scope: string, status: LedgerStatus, revision: nat,
                                       entityCount: nat,
                                       reason: Option<string>)

  datatype Manifest = Manifest(schemaVersion: nat, revision: nat, entityCount: nat)

  datatype EntityId = EntityId(kind: string, id: string)

  datatype Value<K, S> =
    | Number(n: nat)
    | Snapshot(image: S)
    | Members(keys: set<K>)
    | Record(id: EntityId, payload: string)
    | Ledger(ledger: LedgerRecord)
    | ManifestOf(manifest: Manifest)
    | Marker

  type Db<K, S> = map<K, Value<K, S>>

  datatype Command<K, S> =
    | Set(key: K, value: Value<K, S>)
    | SetExpiring(key: K, value: Value<K, S>, seconds: nat)
    | Incr(key: K)
    | Del(key: K)
    | SAdd(key: K, member: K)
    | SRem(key: K, member: K)

  datatype Reply = Ok | Count(n: nat) | Refused

  /** One command. A set that loses its last member disappears; a command on the wrong kind of value changes nothing. */
  function Step<K, S>(db: Db<K, S>, c: Command<K, S>): (Db<K, S>, Reply) {
    match c
    case Set(key, value) => (db[key := value], Ok)
    case SetExpiring(key, value, _) => (db[key := value], Ok)
    case Incr(key) =>
      if key !in db then (db[key := Number(1)], Count(1))
      else if db[key].Number? then (db[key := Number(db[key].n + 1)], Count(db[key].n + 1))
      else (db, Refused)
    case Del(key) => (db - {key}, Count(if key in db then 1 else 0))
    case SAdd(key, member) =>
      if key !in db then (db[key := Members({member})], Count(1))
      else if db[key].Members? then
        (db[key := Members(db[key].keys + {member})], Count(if member in db[key].keys then 0 else 1))
      else (db, Refused)
    case SRem(key, member) =>
      if key !in db then (db, Count(0))
      else if db[key].Members? then
        var left := db[key].keys - {member};
        (if left == {} then db - {key} else db[key := Members(left)], Count(if member in db[key].keys then 1 else 0))
      else (db, Refused)
  }

  /** The body of a transaction, run at EXEC: every command, in the order it was queued. */
  function Exec<K, S>(db: Db<K, S>, commands: seq<Command<K, S>>): (Db<K, S>, seq<Reply>) {
    if commands == [] then (db, [])
    else
      var (before, replies) := Exec(db, commands[..|commands| - 1]);
      var (after, reply) := Step(before, commands[|commands| - 1]);
      (after, replies + [reply])
  }

  lemma {:induction false} ExecAppend<K, S>(db: Db<K, S>, a: seq<Command<K, S>>, b: seq<Command<K, S>>)
    ensures Exec(db, a + b).0 == Exec(Exec(db, a).0, b).0
    ensures Exec(db, a + b).1 == Exec(db, a).1 + Exec(Exec(db, a).0, b).1
  {
    if b == [] {
      assert a + b == a;
    } else {
      var n := |b| - 1;
      assert (a + b)[..|a + b| - 1] == a + b[..n];
      ExecAppend(db, a, b[..n]);
    }
  }

  /** EXEC answers with exactly one reply per queued command. */
  lemma {:induction false} ExecReplyCount<K, S>(db: Db<K, S>, commands: seq<Command<K, S>>)
    ensures |Exec(db, commands).1| == |commands|
  {
    if commands != [] {
      ExecReplyCount(db, commands[..|commands| - 1]);
    }
  }

  lemma ExecOne<K, S>(db: Db<K, S>, c: Command<K, S>)
    ensures Exec(db, [c]) == (Step(db, c).0, [Step(db, c).1])
  {
    assert [c][..|[c]| - 1] == [];
    assert [] + [Step(db, c).1] == [Step(db, c).1];
  }

  // ---------- Key names ----------

  function RenameValue<J, K, S>(f: J -> K, v: Value<J, S>): Value<K, S> {
    match v
    case Number(n) => Number(n)
    case Snapshot(image) => Snapshot(image)
    case Members(keys) => Members(set k | k in keys :: f(k))
    case Record(id, payload) => Record(id, payload)
    case Ledger(ledger) => Ledger(ledger)
    case ManifestOf(manifest) => ManifestOf(manifest)
    case Marker => Marker
  }

  function RenameCommand<J, K, S>(f: J -> K, c: Command<J, S>): Command<K, S> {
    match c
    case Set(key, value) => Set(f(key), RenameValue(f, value))
    case SetExpiring(key, value, seconds) => SetExpiring(f(key), RenameValue(f, value), seconds)
    case Incr(key) => Incr(f(key))
    case Del(key) => Del(f(key))
    case SAdd(key, member) => SAdd(f(key), f(member))
    case SRem(key, member) => SRem(f(key), f(member))
  }

  function RenameCommands<J, K, S>(f: J -> K, cs: seq<Command<J, S>>): seq<Command<K, S>> {
    seq(|cs|, i requires 0 <= i < |cs| => RenameCommand(f, cs[i]))
  }

  ghost predicate InjectiveOn<J(!new), K>(f: J -> K, valid: J -> bool) {
    forall j, k :: valid(j) && valid(k) && f(j) == f(k) ==> j == k
  }

  ghost predicate ValidDb<J(!new), S>(valid: J -> bool, db: Db<J, S>) {
    forall k :: k in db ==> valid(k) && (db[k].Members? ==> forall m :: m in db[k].keys ==> valid(m))
  }

  ghost predicate ValidCommand<J(!new), S>(valid: J -> bool, c: Command<J, S>) {
    && valid(c.key)
    && (c.SAdd? || c.SRem? ==> valid(c.member))
    && (c.Set? || c.SetExpiring? ==> !c.value.Members?)
  }

  /** `named` is `db` with every key, and every member of an index, written as its name. */
  ghost predicate Named<J(!new), K(!new), S>(f: J -> K, db: Db<J, S>, named: Db<K, S>) {
    && (forall j :: j in db ==> f(j) in named && named[f(j)] == RenameValue(f, db[j]))
    && (forall k :: k in named ==> exists j :: j in db && f(j) == k)
  }

  lemma NamedPut<J(!new), K(!new), S>(f: J -> K, valid: J -> bool, db: Db<J, S>, named: Db<K, S>, key: J,
                                      value: Value<J, S>)
    requires InjectiveOn(f, valid) && ValidDb(valid, db) && Named(f, db, named) && valid(key)
    ensures Named(f, db[key := value], named[f(key) := RenameValue(f, value)])
  {
    var after, afterNamed := db[key := value], named[f(key) := RenameValue(f, value)];
    forall k | k in afterNamed
      ensures exists j :: j in after && f(j) == k
    {
      if k == f(key) {
        assert key in after;
      } else {
        var j :| j in db && f(j) == k;
        assert j in after;
      }
    }
  }

  lemma NamedDrop<J(!new), K(!new), S>(f: J -> K, valid: J -> bool, db: Db<J, S>, named: Db<K, S>, key: J)
    requires InjectiveOn(f, valid) && ValidDb(valid, db) && Named(f, db, named) && valid(key)
    ensures Named(f, db - {key}, named - {f(key)})
  {
    forall k | k in named - {f(key)}
      ensures exists j :: j in db - {key} && f(j) == k
    {
      var j :| j in db && f(j) == k;
      assert j in db - {key};
    }
  }

  lemma NamedMembers<J(!new), K>(f: J -> K, valid: J -> bool, keys: set<J>, member: J)
    requires InjectiveOn(f, valid) && valid(member) && forall k :: k in keys ==> valid(k)
    ensures var names := set k | k in keys :: f(k);
      && (member in keys <==> f(member) in names)
      && (set k | k in keys + {member} :: f(k)) == names + {f(member)}
      && (set k | k in keys - {member} :: f(k)) == names - {f(member)}
      && (keys - {member} == {} <==> names - {f(member)} == {})
  {
    var names := set k | k in keys :: f(k);
    assert (set k | k in keys - {member} :: f(k)) == names - {f(member)};
    assert forall k :: k in keys - {member} ==> f(k) in names - {f(member)};
  }

  lemma KeyIsNamed<J(!new), K(!new), S>(f: J -> K, valid: J -> bool, db: Db<J, S>, named: Db<K, S>, key: J)
    requires InjectiveOn(f, valid) && ValidDb(valid, db) && Named(f, db, named) && valid(key)
    ensures key in db <==> f(key) in named
  {
  }

  lemma NamedSAddNew<J(!new), K(!new), S>(f: J -> K, valid: J -> bool, db: Db<J, S>, named: Db<K, S>, key: J, member: J)
    requires InjectiveOn(f, valid) && ValidDb(valid, db) && valid(key) && valid(member) && Named(f, db, named)
    ensures Named(f, db[key := Members({member})], named[f(key) := Members({f(member)})])
    ensures ValidDb(valid, db[key := Members({member})])
  {
    NamedMembers(f, valid, {}, member);
    assert {} + {member} == {member};
    var value: Value<J, S> := Members({member});
    assert RenameValue(f, value) == Members({f(member)});
    NamedPut(f, valid, db, named, key, value);
  }

  lemma NamedSAddMore<J(!new), K(!new), S>(
      f: J -> K, valid: J -> bool, db: Db<J, S>, named: Db<K, S>, key: J, member: J)
    requires InjectiveOn(f, valid) && ValidDb(valid, db) && valid(key) && valid(member) && Named(f, db, named)
    requires key in db && db[key].Members? && f(key) in named && named[f(key)] == RenameValue(f, db[key])
    ensures var keys, names := db[key].keys, named[f(key)].keys;
      && Named(f, db[key := Members(keys + {member})], named[f(key) := Members(names + {f(member)})])
      && ValidDb(valid, db[key := Members(keys + {member})])
      && (member in keys <==> f(member) in names)
  {
    var keys := db[key].keys;
    NamedMembers(f, valid, keys, member);
    var value: Value<J, S> := Members(keys + {member});
    assert RenameValue(f, value) == Members(named[f(key)].keys + {f(member)});
    NamedPut(f, valid, db, named, key, value);
  }

  lemma NamedSAdd<J(!new), K(!new), S>(f: J -> K, valid: J -> bool, db: Db<J, S>, named: Db<K, S>, c: Command<J, S>)
    requires InjectiveOn(f, valid) && ValidDb(valid, db) && ValidCommand(valid, c) && Named(f, db, named)
    requires c.SAdd?
    ensures Named(f, Step(db, c).0, Step(named, RenameCommand(f, c)).0)
    ensures Step(db, c).1 == Step(named, RenameCommand(f, c)).1
    ensures ValidDb(valid, Step(db, c).0)
  {
    KeyIsNamed(f, valid, db, named, c.key);
    if c.key !in db {
      NamedSAddNew(f, valid, db, named, c.key, c.member);
    } else if db[c.key].Members? {
      NamedSAddMore(f, valid, db, named, c.key, c.member);
    }
  }

  lemma NamedSRem<J(!new), K(!new), S>(f: J -> K, valid: J -> bool, db: Db<J, S>, named: Db<K, S>, c: Command<J, S>)
    requires InjectiveOn(f, valid) && ValidDb(valid, db) && ValidCommand(valid, c) && Named(f, db, named)
    requires c.SRem?
    ensures Named(f, Step(db, c).0, Step(named, RenameCommand(f, c)).0)
    ensures Step(db, c).1 == Step(named, RenameCommand(f, c)).1
    ensures ValidDb(valid, Step(db, c).0)
  {
    KeyIsNamed(f, valid, db, named, c.key);
    if c.key in db && db[c.key].Members? {
      var keys := db[c.key].keys;
      NamedMembers(f, valid, keys, c.member);
      if keys - {c.member} == {} {
        NamedDrop(f, valid, db, named, c.key);
      } else {
        NamedPut(f, valid, db, named, c.key, Members(keys - {c.member}));
      }
    }
  }

  lemma NamedStep<J(!new), K(!new), S>(f: J -> K, valid: J -> bool, db: Db<J, S>, named: Db<K, S>, c: Command<J, S>)
    requires InjectiveOn(f, valid) && ValidDb(valid, db) && ValidCommand(valid, c) && Named(f, db, named)
    ensures Named(f, Step(db, c).0, Step(named, RenameCommand(f, c)).0)
    ensures Step(db, c).1 == Step(named, RenameCommand(f, c)).1
    ensures ValidDb(valid, Step(db, c).0)
  {
    match c
    case Set(key, value) => NamedPut(f, valid, db, named, key, value);
    case SetExpiring(key, value, _) => NamedPut(f, valid, db, named, key, value);
    case Incr(key) =>
      KeyIsNamed(f, valid, db, named, key);
      NamedPut(f, valid, db, named, key, Number(if key in db && db[key].Number? then db[key].n + 1 else 1));
    case Del(key) =>
      KeyIsNamed(f, valid, db, named, key);
      NamedDrop(f, valid, db, named, key);
    case SAdd(_, _) => NamedSAdd(f, valid, db, named, c);
    case SRem(_, _) => NamedSRem(f, valid, db, named, c);
  }

  /** With an injective key layout a transaction on the named keys answers and changes exactly what it
      does on the keys. */
  lemma {:induction false} NamesDoNotMatter<J(!new), K(!new), S>(
      f: J -> K, valid: J -> bool, db: Db<J, S>, named: Db<K, S>, cs: seq<Command<J, S>>)
    requires InjectiveOn(f, valid) && ValidDb(valid, db) && Named(f, db, named)
    requires forall i :: 0 <= i < |cs| ==> ValidCommand(valid, cs[i])
    ensures Named(f, Exec(db, cs).0, Exec(named, RenameCommands(f, cs)).0)
    ensures Exec(db, cs).1 == Exec(named, RenameCommands(f, cs)).1
    ensures ValidDb(valid, Exec(db, cs).0)
  {
    if cs != [] {
      var n := |cs| - 1;
      NamesDoNotMatter(f, valid, db, named, cs[..n]);
      assert RenameCommands(f, cs)[..n] == RenameCommands(f, cs[..n]);
      NamedStep(f, valid, Exec(db, cs[..n]).0, Exec(named, RenameCommands(f, cs[..n])).0, cs[n]);
    }
  }
}
