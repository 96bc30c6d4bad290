/** The local store as the coordinator sees it: a state on which tools run, and the native projections read off it. */
module Stores {
  import opened Wrappers
  import opened Operations
  import opened NativeRecords
  import opened Publish
  import opened OutboxLog

  const SYSTEM_SCOPE: string := "__system__"

  /** Everything the coordinator calls: the tools and the readers of the store, the classification of tool names, the
      request digest, the size and name limits of the publish calls, and the sizes of outbox events and audit records. A
      state is its own exact snapshot. */
  datatype Tools<!S> = Tools(
    apply: (S, Operation) -> Option<S>,
    databases: S -> Records,
    workspace: (S, string) -> Records,
    workspaceIds: S -> seq<string>,
    databaseNames: S -> set<string>,
    workspaceNames: S -> set<string>,
    mutating: string -> bool,
    key: Operation -> string,
    fits: (seq<Delta>, seq<RedisOperation>) -> bool,
    fitsWhole: seq<Projection> -> bool,
    size: Event -> nat,
    auditSize: AuditRecord -> nat)

  function Project<S>(tools: Tools<S>, s: S, scope: string): Projection {
    Projection(scope, if scope == SYSTEM_SCOPE then tools.databases(s) else tools.workspace(s, scope))
  }

  function ProjectAll<S>(tools: Tools<S>, s: S, scopes: seq<string>): seq<Projection> {
    seq(|scopes|, i requires 0 <= i < |scopes| => Project(tools, s, scopes[i]))
  }

  function OperationScopes(op: Operation): seq<string> {
    match OperationWorkspace(op)
    case Some(workspace) => [SYSTEM_SCOPE, workspace]
    case None => [SYSTEM_SCOPE]
  }

  /** The workspaces the entries name, each once. */
  function EntryWorkspaces(entries: seq<Entry>): seq<string> {
    if entries == [] then []
    else
      var before := EntryWorkspaces(entries[..|entries| - 1]);
      match OperationWorkspace(entries[|entries| - 1].operation)
      case Some(workspace) => if workspace in before then before else before + [workspace]
      case None => before
  }

  function EntryScopes(entries: seq<Entry>): seq<string> {
    [SYSTEM_SCOPE] + EntryWorkspaces(entries)
  }

  function AllScopes<S>(tools: Tools<S>, s: S): seq<string> {
    [SYSTEM_SCOPE] + tools.workspaceIds(s)
  }

  /** `standby_already_contains`: a failed replay is tolerated when what it would create is there. */
  function AlreadyContains<S>(tools: Tools<S>, s: S, op: Operation): bool {
    if op.name == "create_database" then
      match Get(op.arguments, "name")
      case Some(Text(name)) => name in tools.databaseNames(s)
      case _ => false
    else if op.name == "create_workspace" then
      match (if "id" in op.arguments then Get(op.arguments, "id") else Get(op.arguments, "workspace"))
      case Some(Text(name)) => name in tools.workspaceNames(s)
      case _ => false
    else false
  }

  function OperationFor(key: string, op: Operation): RedisOperation {
    RedisOperation(key, op.name, match OperationWorkspace(op) case Some(workspace) => workspace case None => "")
  }

  function OperationsFor(entries: seq<Entry>): seq<RedisOperation> {
    seq(|entries|, i requires 0 <= i < |entries| => OperationFor(entries[i].key, entries[i].operation))
  }

  // ---------- Hypotheses ----------

  predicate Touches(op: Operation, scope: string) {
    scope == SYSTEM_SCOPE || OperationWorkspace(op) == Some(scope)
  }

  /** What the replication protocol relies on: reading tools leave the store alone, a mutating one changes at most the
      projections of the system scope and of the workspace it names and never forgets a workspace, and only listed
      workspaces have records. */
  ghost predicate Lawful<S(!new)>(tools: Tools<S>) {
    && (forall s: S, op: Operation :: !tools.mutating(op.name) && tools.apply(s, op).Some? ==>
        tools.apply(s, op).value == s)
    && (forall s: S, op: Operation, scope: string :: tools.apply(s, op).Some? && !Touches(op, scope) ==>
         Project(tools, tools.apply(s, op).value, scope) == Project(tools, s, scope))
    && (forall s: S, op: Operation, scope: string :: tools.apply(s, op).Some? && scope in tools.workspaceIds(s) ==>
         scope in tools.workspaceIds(tools.apply(s, op).value))
    && (forall s: S, scope: string :: Project(tools, s, scope).records != map[] ==> scope in AllScopes(tools, s))
  }

  // ---------- Folding operations ----------

  function ApplyOne<S>(tools: Tools<S>, s: S, op: Operation): S {
    match tools.apply(s, op)
    case Some(t) => t
    case None => s
  }

  function Fold<S>(tools: Tools<S>, s: S, ops: seq<Operation>): S {
    if ops == [] then s else ApplyOne(tools, Fold(tools, s, ops[..|ops| - 1]), ops[|ops| - 1])
  }

  // ---------- Scopes and lookups ----------

  lemma {:induction false} LookupProjected<S>(tools: Tools<S>, s: S, scopes: seq<string>, scope: string)
    ensures HasScope(ProjectAll(tools, s, scopes), scope) <==> scope in scopes
    ensures scope in scopes ==> Lookup(ProjectAll(tools, s, scopes), scope) == Project(tools, s, scope).records
  {
    var all := ProjectAll(tools, s, scopes);
    if scopes != [] {
      assert all[1..] == ProjectAll(tools, s, scopes[1..]);
      if scopes[0] == scope {
        assert all[0].scope == scope;
      } else {
        LookupProjected(tools, s, scopes[1..], scope);
      }
    }
    if scope in scopes {
      var i :| 0 <= i < |scopes| && scopes[i] == scope;
      assert all[i].scope == scope;
    }
  }

  lemma {:induction false} EntryScopesCover(entries: seq<Entry>, i: nat, scope: string)
    requires i < |entries| && Touches(entries[i].operation, scope)
    ensures scope in EntryScopes(entries)
  {
    var n := |entries| - 1;
    if scope != SYSTEM_SCOPE {
      if i < n {
        EntryScopesCover(entries[..n], i, scope);
        assert scope in EntryWorkspaces(entries[..n]);
      }
      assert scope in EntryWorkspaces(entries);
    }
  }

  /** A projection of everything agrees with the store on every scope. */
  lemma AllScopesCover<S(!new)>(tools: Tools<S>, s: S, scope: string)
    requires Lawful(tools)
    ensures Lookup(ProjectAll(tools, s, AllScopes(tools, s)), scope) == Project(tools, s, scope).records
  {
    LookupProjected(tools, s, AllScopes(tools, s), scope);
    if scope !in AllScopes(tools, s) {
      LookupAbsent(ProjectAll(tools, s, AllScopes(tools, s)), scope);
    }
  }
}
