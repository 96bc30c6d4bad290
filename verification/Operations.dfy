/** Tool calls as the coordinator sees them: a name, JSON arguments, and the workspace they name. */
module Operations {
  import opened Wrappers
  import opened Texts

  /** A JSON argument: only string values are ever inspected by the coordinator. */
  datatype Argument = Text(text: string) | Json(raw: string)

  datatype Operation = Operation(name: string, arguments: map<string, Argument>)

  function NonBlankText(argument: Option<Argument>): Option<string> {
    match argument
    case Some(Text(text)) => if IsBlank(text) then None else Some(text)
    case _ => None
  }

  function Get(arguments: map<string, Argument>, name: string): Option<Argument> {
    if name in arguments then Some(arguments[name]) else None
  }

  /** The workspace an operation names. A present but unusable `workspace` argument hides `workspace_id`. */
  function OperationWorkspace(op: Operation): Option<string> {
    var named :=
      if "workspace" in op.arguments then Get(op.arguments, "workspace") else Get(op.arguments, "workspace_id");
    var workspace := NonBlankText(named);
    if workspace.Some? then workspace
    else if op.name in {"create_workspace", "archive_workspace", "reset_workspace"} then
      NonBlankText(Get(op.arguments, "id"))
    else None
  }
}
