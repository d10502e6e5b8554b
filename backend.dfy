/** The provider-independent output of an agent backend (src/backend/mod.rs).
    Tool inputs are JSON values, carried through as their serialised text. */
module Backend {
  import Wrappers

  /** A JSON value, kept as the text it was read from. */
  datatype Json = Json(raw: string)

  datatype AgentOutput =
    | Text(body: string)
    | ToolUse(id: string, name: string, input: Json)
    | ToolResult(id: string, output: string, isError: bool)
    | Result(text: Wrappers.Option<string>, isError: bool, sessionId: Wrappers.Option<string>)
    | Error(message: string)
    | System(sessionId: Wrappers.Option<string>)

  /** `AgentOutput::is_final`: the agent has finished its turn. */
  predicate IsFinal(o: AgentOutput)
    ensures IsFinal(o) ==> OutputText(o) == (if o.Result? then o.text else Wrappers.None)
  {
    match o
    case Result(_, _, _) => true
    case Error(_) => true
    case _ => false
  }

  /** `AgentOutput::text`. */
  function OutputText(o: AgentOutput): (t: Wrappers.Option<string>)
    ensures t.Some? ==> o.Text? || o.Result?
  {
    match o
    case Text(t) => Wrappers.Some(t)
    case Result(text, _, _) => text
    case _ => Wrappers.None
  }

  /** How the variants split: text comes from `Text` and from a `Result`
      carrying one; the turn ends at a `Result` or an `Error`, and an
      `Error` carries no text; tool traffic and system messages are neither. */
  lemma OutputClasses(o: AgentOutput)
    ensures IsFinal(o) <==> o.Result? || o.Error?
    ensures OutputText(o).Some? <==> o.Text? || (o.Result? && o.text.Some?)
    ensures o.Text? ==> OutputText(o) == Wrappers.Some(o.body) && !IsFinal(o)
    ensures o.Result? ==> OutputText(o) == o.text
    ensures o.Error? ==> IsFinal(o) && OutputText(o).None?
    ensures o.ToolUse? || o.ToolResult? || o.System? ==> !IsFinal(o) && OutputText(o).None?
  {
  }
}
