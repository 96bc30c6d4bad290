/** The Redis key layout: which keys exist, how they are written, and that no two of them are written alike. */
module KeyLayout {
  import opened RedisServer

  datatype Key =
    | StateSnapshot
    | StateRevision
    | NativeSchema
    | OperationMarker(operation: string)
    | OperationLedger(operation: string)
    | NativeIndex(scope: string)
    | NativeManifest(scope: string)
    | NativeEntity(scope: string, entity: EntityId)
    | NextFactId
    | WorkspaceFacts(scope: string)
    | Fact(scope: string, text: string)

  /** The keys of the replication protocol; the others belong to the fact commands of the
      adapter, which share the namespace. */
  predicate Replicated(key: Key) {
    !key.NextFactId? && !key.WorkspaceFacts? && !key.Fact?
  }

  const OPERATION_KEY_LENGTH: nat := 64

  predicate IsHexDigit(c: char) {
    '0' <= c <= '9' || 'a' <= c <= 'f' || 'A' <= c <= 'F'
  }

  /** `validate_operation_key`: a SHA-256 hex digest. */
  predicate ValidOperationKey(key: string) {
    |key| == OPERATION_KEY_LENGTH && forall i :: 0 <= i < |key| ==> IsHexDigit(key[i])
  }

  predicate IsKindChar(c: char) {
    'a' <= c <= 'z' || 'A' <= c <= 'Z' || '0' <= c <= '9' || c == '_' || c == '-'
  }

  /** The kind check of `validate_native_entity`. */
  predicate ValidKind(kind: string) {
    kind != "" && forall i :: 0 <= i < |kind| ==> IsKindChar(kind[i])
  }

  predicate ValidKey(key: Key) {
    match key
    case OperationMarker(operation) => ValidOperationKey(operation)
    case OperationLedger(operation) => ValidOperationKey(operation)
    case NativeEntity(scope, entity) => ValidKind(entity.kind)
    case _ => true
  }

  function Suffix(digest: string -> string, key: Key): string {
    match key
    case StateSnapshot => "state:snapshot"
    case StateRevision => "state:revision"
    case NativeSchema => "native:schema"
    case OperationMarker(operation) => "operation:" + operation
    case OperationLedger(operation) => "operation:ledger:" + operation
    case NativeIndex(scope) => "native:index:" + digest(scope)
    case NativeManifest(scope) => "native:manifest:" + digest(scope)
    case NativeEntity(scope, entity) =>
      "native:entity:" + (digest(scope) + ":" + (entity.kind + ":" + digest(entity.id)))
    case NextFactId => "next-fact-id"
    case WorkspaceFacts(scope) => "workspace:" + digest(scope)
    case Fact(scope, text) => "fact:" + (digest(scope) + ":" + digest(text))
  }

  function Render(namespace: string, digest: string -> string, key: Key): string {
    namespace + ":" + Suffix(digest, key)
  }

  /** What the layout needs of the digest: no collisions, and a text without the separator. */
  ghost predicate GoodDigest(digest: string -> string) {
    && (forall s, t :: digest(s) == digest(t) ==> s == t)
    && (forall s :: ':' !in digest(s))
  }

  lemma PrefixCancels(p: string, a: string, b: string)
    requires p + a == p + b
    ensures a == b
  {
    assert a == (p + a)[|p|..] == (p + b)[|p|..] == b;
  }

  /** A text without the separator is recovered from in front of the first separator. */
  lemma SplitsAtSeparator(a: string, x: string, b: string, y: string)
    requires ':' !in a && ':' !in b && a + ":" + x == b + ":" + y
    ensures a == b && x == y
  {
    var whole := a + ":" + x;
    assert whole[|a|] == ':' && whole[|b|] == ':';
    assert forall i :: 0 <= i < |a| ==> whole[i] == a[i] && a[i] in a;
    assert whole == b + ":" + y && forall i :: 0 <= i < |b| ==> whole[i] == b[i] && b[i] in b;
    assert a == whole[..|a|] == whole[..|b|] == b;
    assert x == whole[|a| + 1..] == y;
  }

  function Family(key: Key): nat {
    match key
    case StateSnapshot => 0
    case StateRevision => 1
    case NativeSchema => 2
    case OperationMarker(_) => 3
    case OperationLedger(_) => 4
    case NativeIndex(_) => 5
    case NativeManifest(_) => 6
    case NativeEntity(_, _) => 7
    case NextFactId => 8
    case WorkspaceFacts(_) => 9
    case Fact(_, _) => 10
  }

  /** The characters that tell the key families apart. */
  lemma FamilyOfSuffix(digest: string -> string, key: Key)
    requires ValidKey(key)
    ensures var s := Suffix(digest, key);
      && |s| > 5
      && Family(key) == (
        if s[0] == 's' then if s[6] == 's' then 0 else 1
        else if s[0] == 'o' then if |s| == 10 + OPERATION_KEY_LENGTH then 3 else 4
        else if s[0] == 'w' then 9 else if s[0] == 'f' then 10 else if s[1] == 'e' then 8
        else if s[7] == 's' then 2 else if s[7] == 'i' then 5 else if s[7] == 'm' then 6 else 7)
  {
  }

  /** No two valid keys, of whatever families, scopes, kinds and ids, share a name. */
  lemma RenderIsInjective(namespace: string, digest: string -> string, a: Key, b: Key)
    requires GoodDigest(digest) && ValidKey(a) && ValidKey(b)
    requires Render(namespace, digest, a) == Render(namespace, digest, b)
    ensures a == b
  {
    PrefixCancels(namespace + ":", Suffix(digest, a), Suffix(digest, b));
    FamilyOfSuffix(digest, a);
    FamilyOfSuffix(digest, b);
    match a
    case OperationMarker(operation) => PrefixCancels("operation:", operation, b.operation);
    case OperationLedger(operation) => PrefixCancels("operation:ledger:", operation, b.operation);
    case NativeIndex(scope) => PrefixCancels("native:index:", digest(scope), digest(b.scope));
    case NativeManifest(scope) => PrefixCancels("native:manifest:", digest(scope), digest(b.scope));
    case NativeEntity(scope, entity) =>
      var x, y := entity.kind + ":" + digest(entity.id), b.entity.kind + ":" + digest(b.entity.id);
      PrefixCancels("native:entity:", digest(scope) + ":" + x, digest(b.scope) + ":" + y);
      SplitsAtSeparator(digest(scope), x, digest(b.scope), y);
      SplitsAtSeparator(entity.kind, digest(entity.id), b.entity.kind, digest(b.entity.id));
    case WorkspaceFacts(scope) => PrefixCancels("workspace:", digest(scope), digest(b.scope));
    case Fact(scope, text) =>
      PrefixCancels("fact:", digest(scope) + ":" + digest(text), digest(b.scope) + ":" + digest(b.text));
      SplitsAtSeparator(digest(scope), digest(text), digest(b.scope), digest(b.text));
    case _ =>
  }

  /** Every transaction may therefore be reasoned about on keys instead of on their names. */
  lemma LayoutIsTransparent<S>(namespace: string, digest: string -> string, db: Db<Key, S>, named: Db<string, S>,
                               cs: seq<Command<Key, S>>)
    requires GoodDigest(digest)
    requires ValidDb(k => ValidKey(k), db) && Named(k => Render(namespace, digest, k), db, named)
    requires forall i :: 0 <= i < |cs| ==> ValidCommand(k => ValidKey(k), cs[i])
    ensures Exec(named, RenameCommands(k => Render(namespace, digest, k), cs)).1 == Exec(db, cs).1
    ensures Named(k => Render(namespace, digest, k), Exec(db, cs).0,
                  Exec(named, RenameCommands(k => Render(namespace, digest, k), cs)).0)
  {
    var f := (k: Key) => Render(namespace, digest, k);
    var valid := (k: Key) => ValidKey(k);
    forall a, b | valid(a) && valid(b) && f(a) == f(b)
      ensures a == b
    {
      RenderIsInjective(namespace, digest, a, b);
    }
    NamesDoNotMatter(f, valid, db, named, cs);
  }
}
