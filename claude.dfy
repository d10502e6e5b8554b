/** The stream-json protocol of the Claude backend and its conversion into
    `AgentOutput` (src/backend/claude.rs). The records hold the fields the
    conversion reads; a missing optional field is `None`, as serde's
    `default` gives it. */
module Claude {
  import opened Wrappers
  import Backend

  datatype SystemMessage = SystemMessage(sessionId: Option<string>)

  datatype ContentBlock =
    | Text(text: string)
    | ToolUse(id: string, name: string, input: Backend.Json)
    | Other

  datatype AssistantContent = AssistantContent(content: seq<ContentBlock>)
  datatype AssistantMessage = AssistantMessage(message: AssistantContent)
  datatype ToolUseMessage = ToolUseMessage(toolUseId: string, toolName: string, input: Backend.Json)
  datatype ToolResultMessage = ToolResultMessage(toolUseId: string, output: Option<string>, isError: Option<bool>)
  datatype ResultMessage = ResultMessage(isError: bool, result: Option<string>, sessionId: Option<string>)
  datatype ErrorMessage = ErrorMessage(error: Option<string>, message: Option<string>)

  /** One line of the backend's output stream; `Unknown` is any other `type`. */
  datatype ClaudeOutput =
    | System(system: SystemMessage)
    | Assistant(assistant: AssistantMessage)
    | ToolUseOutput(toolUse: ToolUseMessage)
    | ToolResultOutput(toolResult: ToolResultMessage)
    | Result(result: ResultMessage)
    | Error(error: ErrorMessage)
    | Unknown

  datatype UserMessage = UserMessage(role: string, content: string)

  datatype ClaudeInput = User(message: UserMessage)

  /** `ClaudeInput::user`. */
  function UserInput(content: string): (input: ClaudeInput)
    ensures input.User? && input.message.role == "user" && input.message.content == content
  {
    User(UserMessage("user", content))
  }

  /** The loop over an assistant message's blocks: the text of the first
      `Text` block, if there is one. */
  function FirstText(blocks: seq<ContentBlock>): (r: Option<string>)
    ensures r.None? <==> forall i :: 0 <= i < |blocks| ==> !blocks[i].Text?
    decreases |blocks|
  {
    if blocks == [] then None
    else if blocks[0].Text? then Some(blocks[0].text)
    else FirstText(blocks[1..])
  }

  /** The text found is that of a `Text` block with no `Text` block before it. */
  lemma {:induction false} FirstTextIsFirst(blocks: seq<ContentBlock>)
    requires FirstText(blocks).Some?
    decreases |blocks|
    ensures exists i :: (0 <= i < |blocks| && blocks[i] == Text(FirstText(blocks).value)
      && forall j :: 0 <= j < i ==> !blocks[j].Text?)
  {
    if blocks[0].Text? {
      assert blocks[0] == Text(FirstText(blocks).value);
    } else {
      FirstTextIsFirst(blocks[1..]);
      var i :| 0 <= i < |blocks[1..]| && blocks[1..][i] == Text(FirstText(blocks[1..]).value)
        && forall j :: 0 <= j < i ==> !blocks[1..][j].Text?;
      assert blocks[i + 1] == blocks[1..][i];
      forall j | 0 <= j < i + 1 ensures !blocks[j].Text? {
        if j > 0 { assert blocks[j] == blocks[1..][j - 1]; }
      }
    }
  }

  /** `convert_output`. */
  function ConvertOutput(output: ClaudeOutput): (r: Backend.AgentOutput)
    ensures r.System? <==> output.System?
    ensures r.Text? <==> output.Assistant? || output.Unknown?
    ensures r.ToolUse? <==> output.ToolUseOutput?
    ensures r.ToolResult? <==> output.ToolResultOutput?
    ensures r.Result? <==> output.Result?
    ensures r.Error? <==> output.Error?
  {
    match output
    case System(msg) => Backend.System(msg.sessionId)
    case Assistant(msg) => Backend.Text(FirstText(msg.message.content).GetOr(""))
    case ToolUseOutput(msg) => Backend.ToolUse(msg.toolUseId, msg.toolName, msg.input)
    case ToolResultOutput(msg) => Backend.ToolResult(msg.toolUseId, msg.output.GetOr(""), msg.isError.GetOr(false))
    case Result(msg) => Backend.Result(msg.result, msg.isError, msg.sessionId)
    case Error(msg) => Backend.Error(msg.error.Or(msg.message).GetOr(""))
    case Unknown => Backend.Text("")
  }

  /** An assistant message becomes the text of its first `Text` block, or the
      empty text when it has none. */
  lemma AssistantText(msg: AssistantMessage, i: nat)
    requires i < |msg.message.content| && msg.message.content[i].Text?
    requires forall j :: 0 <= j < i ==> !msg.message.content[j].Text?
    ensures ConvertOutput(Assistant(msg)) == Backend.Text(msg.message.content[i].text)
  {
    var blocks := msg.message.content;
    FirstTextIsFirst(blocks);
    var k :| 0 <= k < |blocks| && blocks[k] == Text(FirstText(blocks).value)
      && forall j :: 0 <= j < k ==> !blocks[j].Text?;
    assert k == i;
  }

  lemma AssistantWithoutText(msg: AssistantMessage)
    requires forall j :: 0 <= j < |msg.message.content| ==> !msg.message.content[j].Text?
    ensures ConvertOutput(Assistant(msg)) == Backend.Text("")
  {
  }

  /** The defaults the conversion applies: an unknown line is empty text; an
      error takes `error`, else `message`, else the empty string; a tool
      result without output has the empty output and one without an error
      flag is not an error; results and system messages keep their fields. */
  lemma ConversionDefaults(output: ClaudeOutput)
    ensures output.Unknown? ==> ConvertOutput(output) == Backend.Text("")
    ensures output.Error? ==> ConvertOutput(output) == Backend.Error(
      if output.error.error.Some? then output.error.error.value
      else if output.error.message.Some? then output.error.message.value
      else "")
    ensures output.ToolResultOutput? ==>
      var m := output.toolResult;
      ConvertOutput(output) == Backend.ToolResult(m.toolUseId,
        if m.output.Some? then m.output.value else "",
        m.isError == Some(true))
    ensures output.ToolUseOutput? ==>
      ConvertOutput(output) == Backend.ToolUse(output.toolUse.toolUseId, output.toolUse.toolName, output.toolUse.input)
    ensures output.Result? ==>
      ConvertOutput(output) == Backend.Result(output.result.result, output.result.isError, output.result.sessionId)
    ensures output.System? ==> ConvertOutput(output) == Backend.System(output.system.sessionId)
  {
  }

  /** A converted line ends the agent's turn exactly when it was a result or
      an error, and it carries text exactly when it was an assistant message,
      an unknown line, or a result with a result text. */
  lemma ConvertedFinality(output: ClaudeOutput)
    ensures Backend.IsFinal(ConvertOutput(output)) <==> output.Result? || output.Error?
    ensures Backend.OutputText(ConvertOutput(output)).Some? <==>
      output.Assistant? || output.Unknown? || (output.Result? && output.result.result.Some?)
  {
  }
}
