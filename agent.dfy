/** The agent output parser and prompt formatting of src/agent.rs.

    An agent's backend emits lines of text; `parse_agent_output` turns one
    line and the sender's id into a runtime command, a message to route, or
    nothing. Each message a parse creates takes its id from the caller
    (`Uuid::new_v4` is a random source). */
module AgentParser {
  import opened Wrappers
  import opened Primitives
  import opened Roles
  import opened Messages
  import RuntimeModel

  datatype ParsedOutput =
    | Message(msg: AgentMessage)
    | Command(cmd: RuntimeModel.RuntimeCommand)
    | NoOutput

  datatype AgentConfig = AgentConfig(agentId: AgentId, workingDir: string, systemPrompt: string)

  const CrewPrefix: string := "CREW:"
  const RelievePrefix: string := "RELIEVE:"
  const ApprovedPrefix: string := "APPROVED:"
  const CompletePrefix: string := "COMPLETE:"
  const BlockedPrefix: string := "BLOCKED:"
  const DeveloperPrefix: string := "developer-"

  // ---------------------------------------------------------------- runtime commands

  /** `parse_runtime_command`: `CREW:` from the manager with a remainder that
      reads as a `u8`, or `RELIEVE:` from the scorer. The count is passed on
      unclamped. */
  function ParseRuntimeCommand(from: AgentId, text: string): (r: Option<RuntimeModel.RuntimeCommand>)
    ensures r.Some? ==> !r.value.TaskUpdate?
    ensures r.Some? && r.value.SetCrewSize? <==>
      StartsWith(text, CrewPrefix) && from.role == Manager && ParseU8(Trim(text[|CrewPrefix|..])).Some?
    ensures r.Some? && r.value.SetCrewSize? ==> r.value.count == ParseU8(Trim(text[|CrewPrefix|..])).value
    ensures r.Some? && r.value.RelieveManager? <==>
      !StartsWith(text, CrewPrefix) && StartsWith(text, RelievePrefix) && from.role == Scorer
    ensures r.Some? && r.value.RelieveManager? ==> r.value.reason == Trim(text[|RelievePrefix|..])
  {
    match StripPrefix(text, CrewPrefix)
    case Some(rest) =>
      if from.role != Manager then None
      else (match ParseU8(Trim(rest))
            case Some(count) => Some(RuntimeModel.SetCrewSize(count))
            case None => None)
    case None =>
      match StripPrefix(text, RelievePrefix)
      case Some(rest) =>
        if from.role != Scorer then None
        else Some(RuntimeModel.RelieveManager(Trim(rest)))
      case None => None
  }

  // ---------------------------------------------------------------- approvals

  /** `parse_developer_target`: `developer-d` for a text starting with
      `developer-` and an ASCII digit d, `developer-0` otherwise. */
  function ParseDeveloperTarget(text: string): (target: AgentId)
    ensures target.role == Developer && target.index.Some? && target.index.value < 10
    ensures target.index.value != 0 ==>
      StartsWith(text, DeveloperPrefix) && |text| > |DeveloperPrefix|
      && DigitChar(target.index.value) == text[|DeveloperPrefix|]
  {
    match StripPrefix(text, DeveloperPrefix)
    case Some(rest) =>
      if |rest| > 0 && IsDigit(rest[0]) then NewDeveloper(DigitValue(rest[0])) else NewDeveloper(0)
    case None => NewDeveloper(0)
  }

  /** `parse_approved_message`: an approval from any sender becomes a task
      assignment for the developer it names, carrying the whole remainder. */
  function ParseApprovedMessage(from: AgentId, text: string, id: Uuid): (r: Option<AgentMessage>)
    ensures r.Some? <==> StartsWith(text, ApprovedPrefix)
    ensures r.Some? ==>
      var content := Trim(text[|ApprovedPrefix|..]);
      && r.value.from == from && r.value.kind == TaskAssignment
      && r.value.content == content && r.value.to == ParseDeveloperTarget(content)
  {
    match StripPrefix(text, ApprovedPrefix)
    case Some(rest) =>
      var content := Trim(rest);
      Some(New(id, from, ParseDeveloperTarget(content), TaskAssignment, content))
    case None => None
  }

  // ---------------------------------------------------------------- completions

  /** `parse_completion_message`: `COMPLETE:` and `BLOCKED:` become a message
      to the manager; no runtime command is produced. */
  function ParseCompletionMessage(from: AgentId, text: string, id: Uuid): (r: Option<ParsedOutput>)
    ensures r.Some? <==> StartsWith(text, CompletePrefix) || StartsWith(text, BlockedPrefix)
    ensures r.Some? ==> r.value.Message? && r.value.msg.from == from && r.value.msg.to == NewSingleton(Manager)
    ensures StartsWith(text, CompletePrefix) ==>
      r.value.msg.kind == TaskComplete && r.value.msg.content == Trim(text[|CompletePrefix|..])
    ensures !StartsWith(text, CompletePrefix) && StartsWith(text, BlockedPrefix) ==>
      r.value.msg.kind == TaskGiveUp && r.value.msg.content == Trim(text[|BlockedPrefix|..])
  {
    var parts :=
      match StripPrefix(text, CompletePrefix)
      case Some(rest) => Some((Trim(rest), TaskComplete))
      case None =>
        match StripPrefix(text, BlockedPrefix)
        case Some(rest) => Some((Trim(rest), TaskGiveUp))
        case None => None;
    match parts
    case Some(part) => Some(Message(New(id, from, NewSingleton(Manager), part.1, part.0)))
    case None => None
  }

  // ---------------------------------------------------------------- routing table

  /** A row of `ROUTES`: prefix, target role, message kind, required sender role. */
  datatype Route = Route(prefix: string, target: AgentRole, kind: MessageKind, requireFrom: Option<AgentRole>)

  /** `ROUTES`. */
  const Routes: seq<Route> := [
    Route("TASK:", Architect, TaskAssignment, None),
    Route("REJECTED:", Manager, ArchitectReview, None),
    Route("INTERRUPT:", Developer, Interrupt, Some(Architect))
  ]

  /** A route applies to a line when the line starts with its prefix and the
      sender has the role the route requires, if any. */
  predicate Applies(from: AgentId, text: string, route: Route) {
    StartsWith(text, route.prefix) && (route.requireFrom.None? || from.role == route.requireFrom.value)
  }

  /** The message a route produces: to the singleton of its target role, with
      the trimmed text after the prefix. */
  function RouteMessage(from: AgentId, text: string, id: Uuid, route: Route): (m: AgentMessage)
    requires StartsWith(text, route.prefix)
    ensures m.from == from && m.to == NewSingleton(route.target) && m.kind == route.kind
    ensures m.content == Trim(text[|route.prefix|..]) && m.id == id && m.taskId == None
  {
    New(id, from, NewSingleton(route.target), route.kind, Trim(text[|route.prefix|..]))
  }

  /** The loop of `parse_routed_message` over a table: the first row that applies. */
  function FirstRoute(from: AgentId, text: string, id: Uuid, routes: seq<Route>): (r: Option<AgentMessage>)
    ensures r.None? <==> forall i :: 0 <= i < |routes| ==> !Applies(from, text, routes[i])
    decreases |routes|
  {
    if routes == [] then None
    else if Applies(from, text, routes[0]) then Some(RouteMessage(from, text, id, routes[0]))
    else FirstRoute(from, text, id, routes[1..])
  }

  /** A routed message is that of the first row that applies. */
  lemma {:induction false} FirstRouteIsFirstMatch(from: AgentId, text: string, id: Uuid, routes: seq<Route>)
    requires FirstRoute(from, text, id, routes).Some?
    decreases |routes|
    ensures exists i :: (0 <= i < |routes| && Applies(from, text, routes[i])
      && (forall j :: 0 <= j < i ==> !Applies(from, text, routes[j]))
      && FirstRoute(from, text, id, routes).value == RouteMessage(from, text, id, routes[i]))
  {
    if Applies(from, text, routes[0]) {
      assert 0 < |routes| && Applies(from, text, routes[0]);
    } else {
      FirstRouteIsFirstMatch(from, text, id, routes[1..]);
      var i :| 0 <= i < |routes[1..]| && Applies(from, text, routes[1..][i])
        && (forall j :: 0 <= j < i ==> !Applies(from, text, routes[1..][j]))
        && FirstRoute(from, text, id, routes[1..]).value == RouteMessage(from, text, id, routes[1..][i]);
      assert routes[i + 1] == routes[1..][i];
      forall j | 0 <= j < i + 1 ensures !Applies(from, text, routes[j]) {
        if j > 0 { assert routes[j] == routes[1..][j - 1]; }
      }
    }
  }

  /** `parse_routed_message`: an interrupt can only come from the architect,
      and it is addressed to the developer role without a slot index. */
  function ParseRoutedMessage(from: AgentId, text: string, id: Uuid): (r: Option<AgentMessage>)
    ensures r.Some? ==> r.value.from == from && r.value.id == id && r.value.taskId == None
    ensures r.Some? && r.value.kind == Interrupt ==> from.role == Architect && r.value.to == NewSingleton(Developer)
  {
    var r := FirstRoute(from, text, id, Routes);
    if r.Some? then
      FirstRouteIsFirstMatch(from, text, id, Routes);
      r
    else r
  }

  /** The three rows of the table, each on its own: `TASK:` and `REJECTED:`
      from anyone, `INTERRUPT:` only from the architect. */
  lemma RoutedMessages(from: AgentId, text: string, id: Uuid)
    ensures StartsWith(text, "TASK:") ==>
      ParseRoutedMessage(from, text, id) == Some(New(id, from, NewSingleton(Architect), TaskAssignment, Trim(text[5..])))
    ensures StartsWith(text, "REJECTED:") ==>
      ParseRoutedMessage(from, text, id) == Some(New(id, from, NewSingleton(Manager), ArchitectReview, Trim(text[9..])))
    ensures StartsWith(text, "INTERRUPT:") && from.role == Architect ==>
      ParseRoutedMessage(from, text, id) == Some(New(id, from, NewSingleton(Developer), Interrupt, Trim(text[10..])))
    ensures StartsWith(text, "INTERRUPT:") && from.role != Architect ==> ParseRoutedMessage(from, text, id) == None
    ensures !StartsWith(text, "TASK:") && !StartsWith(text, "REJECTED:") && !StartsWith(text, "INTERRUPT:") ==>
      ParseRoutedMessage(from, text, id) == None
  {
    assert Routes[1..] == [Routes[1], Routes[2]];
    assert Routes[1..][1..] == [Routes[2]];
    assert [Routes[2]][1..] == [];
    NotBoth(text, "TASK:", "REJECTED:", 0);
    NotBoth(text, "TASK:", "INTERRUPT:", 0);
    NotBoth(text, "REJECTED:", "INTERRUPT:", 0);
  }

  // ---------------------------------------------------------------- the whole parser

  /** Every prefix the parser looks for. */
  const Prefixes: seq<string> := [CrewPrefix, RelievePrefix, ApprovedPrefix, CompletePrefix, BlockedPrefix,
                                  "TASK:", "REJECTED:", "INTERRUPT:"]

  /** Two strings that disagree somewhere within their common length cannot
      both begin the same line. */
  lemma NotBoth(text: string, p: string, q: string, k: nat)
    requires k < |p| && k < |q| && p[k] != q[k]
    ensures !(StartsWith(text, p) && StartsWith(text, q))
  {
  }

  /** No two prefixes can begin the same line, so the order in which the
      parser tries them never decides between two candidates. */
  lemma PrefixesExclusive(text: string)
    ensures forall i, j :: 0 <= i < j < |Prefixes| ==> !(StartsWith(text, Prefixes[i]) && StartsWith(text, Prefixes[j]))
  {
    NotBoth(text, CrewPrefix, RelievePrefix, 0);
    NotBoth(text, CrewPrefix, ApprovedPrefix, 0);
    NotBoth(text, CrewPrefix, CompletePrefix, 1);
    NotBoth(text, CrewPrefix, BlockedPrefix, 0);
    NotBoth(text, CrewPrefix, "TASK:", 0);
    NotBoth(text, CrewPrefix, "REJECTED:", 0);
    NotBoth(text, CrewPrefix, "INTERRUPT:", 0);
    NotBoth(text, RelievePrefix, ApprovedPrefix, 0);
    NotBoth(text, RelievePrefix, CompletePrefix, 0);
    NotBoth(text, RelievePrefix, BlockedPrefix, 0);
    NotBoth(text, RelievePrefix, "TASK:", 0);
    NotBoth(text, RelievePrefix, "REJECTED:", 2);
    NotBoth(text, RelievePrefix, "INTERRUPT:", 0);
    NotBoth(text, ApprovedPrefix, CompletePrefix, 0);
    NotBoth(text, ApprovedPrefix, BlockedPrefix, 0);
    NotBoth(text, ApprovedPrefix, "TASK:", 0);
    NotBoth(text, ApprovedPrefix, "REJECTED:", 0);
    NotBoth(text, ApprovedPrefix, "INTERRUPT:", 0);
    NotBoth(text, CompletePrefix, BlockedPrefix, 0);
    NotBoth(text, CompletePrefix, "TASK:", 0);
    NotBoth(text, CompletePrefix, "REJECTED:", 0);
    NotBoth(text, CompletePrefix, "INTERRUPT:", 0);
    NotBoth(text, BlockedPrefix, "TASK:", 0);
    NotBoth(text, BlockedPrefix, "REJECTED:", 0);
    NotBoth(text, BlockedPrefix, "INTERRUPT:", 0);
    NotBoth(text, "TASK:", "REJECTED:", 0);
    NotBoth(text, "TASK:", "INTERRUPT:", 0);
    NotBoth(text, "REJECTED:", "INTERRUPT:", 0);
  }

  /** `parse_agent_output`: trim, then try runtime commands, approvals,
      completions and the routing table, in that order. Only a manager can
      resize the crew, only a scorer relieve the manager, and every message
      is sent in the sender's name. */
  function ParseAgentOutput(from: AgentId, text: string, id: Uuid): (r: ParsedOutput)
    ensures r.Message? ==> r.msg.from == from && r.msg.id == id && r.msg.taskId == None
    ensures r.Command? ==>
      || (r.cmd.SetCrewSize? && from.role == Manager)
      || (r.cmd.RelieveManager? && from.role == Scorer)
    ensures r.Message? && r.msg.kind == Interrupt ==> from.role == Architect && r.msg.to == NewSingleton(Developer)
  {
    ParseTrimmed(from, Trim(text), id)
  }

  /** The parsers of `parse_agent_output`, tried in order on the trimmed line. */
  function ParseTrimmed(from: AgentId, t: string, id: Uuid): ParsedOutput {
    match ParseRuntimeCommand(from, t)
    case Some(cmd) => Command(cmd)
    case None =>
      match ParseApprovedMessage(from, t, id)
      case Some(msg) => Message(msg)
      case None =>
        match ParseCompletionMessage(from, t, id)
        case Some(parsed) => parsed
        case None =>
          match ParseRoutedMessage(from, t, id)
          case Some(msg) => Message(msg)
          case None => NoOutput
  }

  /** The line is trimmed before anything else: surrounding whitespace never
      changes the outcome. */
  lemma ParseIgnoresSurroundingWhitespace(from: AgentId, text: string, id: Uuid)
    ensures ParseAgentOutput(from, Trim(text), id) == ParseAgentOutput(from, text, id)
  {
    TrimIdempotent(text);
  }

  /** Leading whitespace of any length is ignored. */
  lemma ParseIgnoresLeadingWhitespace(from: AgentId, w: string, text: string, id: Uuid)
    requires forall i :: 0 <= i < |w| ==> IsWhitespace(w[i])
    ensures ParseAgentOutput(from, w + text, id) == ParseAgentOutput(from, text, id)
  {
    TrimAfterWhitespace(w, text);
  }

  /** The parsers after the runtime commands claim nothing when the line
      starts with none of their prefixes. */
  lemma LaterParsersSilent(from: AgentId, t: string, id: Uuid)
    requires !StartsWith(t, ApprovedPrefix) && !StartsWith(t, CompletePrefix) && !StartsWith(t, BlockedPrefix)
    requires !StartsWith(t, "TASK:") && !StartsWith(t, "REJECTED:") && !StartsWith(t, "INTERRUPT:")
    ensures ParseApprovedMessage(from, t, id).None?
    ensures ParseCompletionMessage(from, t, id).None?
    ensures ParseRoutedMessage(from, t, id).None?
  {
    RoutedMessages(from, t, id);
  }

  /** `CREW:` from the manager with a count that reads as a `u8` is a resize
      to that count; any other `CREW:` line yields nothing. */
  lemma CrewLine(from: AgentId, text: string, id: Uuid)
    requires StartsWith(Trim(text), CrewPrefix)
    ensures var t := Trim(text); var count := ParseU8(Trim(t[5..]));
      && (from.role == Manager && count.Some? ==>
            ParseAgentOutput(from, text, id) == Command(RuntimeModel.SetCrewSize(count.value)))
      && (from.role != Manager || count.None? ==> ParseAgentOutput(from, text, id) == NoOutput)
  {
    var t := Trim(text);
    NotBoth(t, CrewPrefix, ApprovedPrefix, 0);
    NotBoth(t, CrewPrefix, CompletePrefix, 1);
    NotBoth(t, CrewPrefix, BlockedPrefix, 0);
    NotBoth(t, CrewPrefix, "TASK:", 0);
    NotBoth(t, CrewPrefix, "REJECTED:", 0);
    NotBoth(t, CrewPrefix, "INTERRUPT:", 0);
    LaterParsersSilent(from, t, id);
  }

  /** `RELIEVE:` from the scorer relieves the manager with the trimmed reason;
      from anyone else it yields nothing. */
  lemma RelieveLine(from: AgentId, text: string, id: Uuid)
    requires StartsWith(Trim(text), RelievePrefix)
    ensures var t := Trim(text);
      && (from.role == Scorer ==>
            ParseAgentOutput(from, text, id) == Command(RuntimeModel.RelieveManager(Trim(t[8..]))))
      && (from.role != Scorer ==> ParseAgentOutput(from, text, id) == NoOutput)
  {
    var t := Trim(text);
    NotBoth(t, RelievePrefix, CrewPrefix, 0);
    NotBoth(t, RelievePrefix, ApprovedPrefix, 0);
    NotBoth(t, RelievePrefix, CompletePrefix, 0);
    NotBoth(t, RelievePrefix, BlockedPrefix, 0);
    NotBoth(t, RelievePrefix, "TASK:", 0);
    NotBoth(t, RelievePrefix, "REJECTED:", 2);
    NotBoth(t, RelievePrefix, "INTERRUPT:", 0);
    LaterParsersSilent(from, t, id);
  }

  /** `APPROVED:` from any sender is a task assignment to the developer it names. */
  lemma ApprovedLine(from: AgentId, text: string, id: Uuid)
    requires StartsWith(Trim(text), ApprovedPrefix)
    ensures var content := Trim(Trim(text)[9..]);
      ParseAgentOutput(from, text, id) == Message(New(id, from, ParseDeveloperTarget(content), TaskAssignment, content))
  {
    var t := Trim(text);
    NotBoth(t, ApprovedPrefix, CrewPrefix, 0);
    NotBoth(t, ApprovedPrefix, RelievePrefix, 0);
  }

  /** `COMPLETE:` and `BLOCKED:` are reported to the manager. */
  lemma CompletionLine(from: AgentId, text: string, id: Uuid)
    requires StartsWith(Trim(text), CompletePrefix) || StartsWith(Trim(text), BlockedPrefix)
    ensures var t := Trim(text);
      && (StartsWith(t, CompletePrefix) ==>
            ParseAgentOutput(from, text, id) == Message(New(id, from, NewSingleton(Manager), TaskComplete, Trim(t[9..]))))
      && (StartsWith(t, BlockedPrefix) ==>
            ParseAgentOutput(from, text, id) == Message(New(id, from, NewSingleton(Manager), TaskGiveUp, Trim(t[8..]))))
  {
    var t := Trim(text);
    NotBoth(t, CompletePrefix, CrewPrefix, 1);
    NotBoth(t, CompletePrefix, RelievePrefix, 0);
    NotBoth(t, CompletePrefix, ApprovedPrefix, 0);
    NotBoth(t, CompletePrefix, BlockedPrefix, 0);
    NotBoth(t, BlockedPrefix, CrewPrefix, 0);
    NotBoth(t, BlockedPrefix, RelievePrefix, 0);
    NotBoth(t, BlockedPrefix, ApprovedPrefix, 0);
  }

  /** The routing table applies to lines no earlier parser claims. */
  lemma RoutedLine(from: AgentId, text: string, id: Uuid)
    requires StartsWith(Trim(text), "TASK:") || StartsWith(Trim(text), "REJECTED:") || StartsWith(Trim(text), "INTERRUPT:")
    ensures var t := Trim(text);
      ParseAgentOutput(from, text, id) ==
        match ParseRoutedMessage(from, t, id)
        case Some(msg) => Message(msg)
        case None => NoOutput
  {
    var t := Trim(text);
    NotBoth(t, "TASK:", CrewPrefix, 0);
    NotBoth(t, "TASK:", RelievePrefix, 0);
    NotBoth(t, "TASK:", ApprovedPrefix, 0);
    NotBoth(t, "TASK:", CompletePrefix, 0);
    NotBoth(t, "TASK:", BlockedPrefix, 0);
    NotBoth(t, "REJECTED:", CrewPrefix, 0);
    NotBoth(t, "REJECTED:", RelievePrefix, 2);
    NotBoth(t, "REJECTED:", ApprovedPrefix, 0);
    NotBoth(t, "REJECTED:", CompletePrefix, 0);
    NotBoth(t, "REJECTED:", BlockedPrefix, 0);
    NotBoth(t, "INTERRUPT:", CrewPrefix, 0);
    NotBoth(t, "INTERRUPT:", RelievePrefix, 0);
    NotBoth(t, "INTERRUPT:", ApprovedPrefix, 0);
    NotBoth(t, "INTERRUPT:", CompletePrefix, 0);
    NotBoth(t, "INTERRUPT:", BlockedPrefix, 0);
  }

  /** A line with none of the prefixes yields nothing. */
  lemma UnknownLine(from: AgentId, text: string, id: Uuid)
    requires forall i :: 0 <= i < |Prefixes| ==> !StartsWith(Trim(text), Prefixes[i])
    ensures ParseAgentOutput(from, text, id) == NoOutput
  {
    var t := Trim(text);
    assert !StartsWith(t, Prefixes[0]) && !StartsWith(t, Prefixes[1]) && !StartsWith(t, Prefixes[2]);
    assert !StartsWith(t, Prefixes[3]) && !StartsWith(t, Prefixes[4]) && !StartsWith(t, Prefixes[5]);
    assert !StartsWith(t, Prefixes[6]) && !StartsWith(t, Prefixes[7]);
    LaterParsersSilent(from, t, id);
  }

  /** A manager's `CREW: n` is read back as a resize to n, for every `u8`. */
  lemma CrewRoundTrip(n: U8, id: Uuid)
    ensures ParseAgentOutput(NewSingleton(Manager), CrewPrefix + " " + NatToString(n), id)
         == Command(RuntimeModel.SetCrewSize(n))
  {
    CrewLineShape(NatToString(n));
    ParseU8RoundTrip(n);
    CrewLine(NewSingleton(Manager), CrewPrefix + " " + NatToString(n), id);
  }

  /** A `CREW: ` line with a count in digits is already trimmed, and its count
      trims to the digits. */
  lemma CrewLineShape(digits: string)
    requires |digits| > 0 && AllDigits(digits)
    ensures var line := CrewPrefix + " " + digits;
      Trim(line) == line && StartsWith(line, CrewPrefix) && Trim(line[5..]) == digits
  {
    assert IsDigit(digits[0]) && IsDigit(digits[|digits| - 1]);
    SpacedLine(CrewPrefix, digits);
  }

  /** A line made of a prefix, a space and a word, neither of which begins or
      ends with whitespace, is already trimmed, and what follows the prefix
      trims to the word. */
  lemma SpacedLine(prefix: string, word: string)
    requires |prefix| > 0 && !IsWhitespace(prefix[0])
    requires |word| > 0 && !IsWhitespace(word[0]) && !IsWhitespace(word[|word| - 1])
    ensures var line := prefix + " " + word;
      Trim(line) == line && StartsWith(line, prefix) && Trim(line[|prefix|..]) == word
  {
    var line := prefix + " " + word;
    assert line == prefix + (" " + word);
    assert line[0] == prefix[0];
    assert line[|line| - 1] == word[|word| - 1];
    TrimNoop(line);
    StartsConcat(prefix, " " + word);
    assert line[|prefix|..] == " " + word;
    TrimAfterWhitespace(" ", word);
    TrimNoop(word);
  }

  /** An approval naming `developer-` and a digit d targets developer d. */
  lemma DeveloperTargetNamed(text: string)
    requires StartsWith(text, DeveloperPrefix) && |text| > |DeveloperPrefix| && IsDigit(text[|DeveloperPrefix|])
    ensures ParseDeveloperTarget(text) == NewDeveloper(DigitValue(text[|DeveloperPrefix|]))
  {
    assert text[|DeveloperPrefix|..][0] == text[|DeveloperPrefix|];
  }

  /** Without `developer-` and a digit, the target is developer 0. */
  lemma DeveloperTargetDefault(text: string)
    requires !(StartsWith(text, DeveloperPrefix) && |text| > |DeveloperPrefix| && IsDigit(text[|DeveloperPrefix|]))
    ensures ParseDeveloperTarget(text) == NewDeveloper(0)
  {
    if StartsWith(text, DeveloperPrefix) {
      assert |text[|DeveloperPrefix|..]| == |text| - |DeveloperPrefix|;
      if |text| > |DeveloperPrefix| {
        assert text[|DeveloperPrefix|..][0] == text[|DeveloperPrefix|];
      }
    }
  }

  // ---------------------------------------------------------------- targets and the fleet

  /** An interrupt is addressed to `developer` without an index, an id no
      running agent has: every developer the runtime spawns has a slot index. */
  lemma InterruptTargetNotRunning(o: RuntimeModel.Orchestrator, from: AgentId, text: string, id: Uuid)
    requires RuntimeModel.Fleet(o)
    ensures var r := ParseAgentOutput(from, text, id);
      r.Message? && r.msg.kind == Interrupt ==> r.msg.to !in o.handles
  {
    RuntimeModel.DeveloperIdsMembership(NewSingleton(Developer), 0, o.state.developerCount);
  }

  /** An approval naming a developer slot beyond the current crew is
      addressed to that slot although no agent runs there: the parser does not
      check the target against the crew. */
  lemma ApprovalBeyondCrew(o: RuntimeModel.Orchestrator, from: AgentId, d: nat, id: Uuid)
    requires RuntimeModel.Fleet(o) && o.state.developerCount <= d < 10
    ensures var r := ParseAgentOutput(from, ApprovedPrefix + " " + (DeveloperPrefix + [DigitChar(d)]), id);
      r.Message? && r.msg.to == NewDeveloper(d) && r.msg.to !in o.handles
  {
    var target := DeveloperPrefix + [DigitChar(d)];
    assert target[..10] == DeveloperPrefix && target[10] == DigitChar(d);
    DeveloperTargetNamed(target);
    ApprovalAddressee(from, target, id);
    RuntimeModel.DeveloperIdsMembership(NewDeveloper(d), 0, o.state.developerCount);
  }

  /** `APPROVED: ` followed by a target is addressed by that target. */
  lemma ApprovalAddressee(from: AgentId, target: string, id: Uuid)
    requires |target| > 0 && IsLowerAscii(target[0]) && IsDigit(target[|target| - 1])
    ensures var r := ParseAgentOutput(from, ApprovedPrefix + " " + target, id);
      r.Message? && r.msg.to == ParseDeveloperTarget(target)
  {
    ApprovalLineShape(target);
    ApprovedLine(from, ApprovedPrefix + " " + target, id);
  }

  /** An `APPROVED: ` line naming a target that starts with a lower-case
      letter and ends with a digit is already trimmed, and so is its target. */
  lemma ApprovalLineShape(target: string)
    requires |target| > 0 && IsLowerAscii(target[0]) && IsDigit(target[|target| - 1])
    ensures var line := ApprovedPrefix + " " + target;
      Trim(line) == line && StartsWith(line, ApprovedPrefix) && Trim(line[9..]) == target
  {
    SpacedLine(ApprovedPrefix, target);
  }

  /** A runtime driven only by commands the parser produced never records a
      task: the parser emits no `TaskUpdate`, so the log stays empty and a
      replacement manager is always briefed that there is no history. */
  lemma ParsedCommandsLeaveLogEmpty(p: RuntimeModel.Prompts, cmds: seq<RuntimeModel.TimedCommand>)
    requires forall i :: 0 <= i < |cmds| ==>
      exists from: AgentId, text: string, id: Uuid :: ParseAgentOutput(from, text, id) == Command(cmds[i].cmd)
    ensures RuntimeModel.Orchestrate(p, cmds).state.taskLog == []
  {
    forall i | 0 <= i < |cmds| ensures !cmds[i].cmd.TaskUpdate? {
      var from: AgentId, text: string, id: Uuid :| ParseAgentOutput(from, text, id) == Command(cmds[i].cmd);
    }
    RuntimeModel.NoUpdatesNoRecords(cmds);
    RuntimeModel.OrchestrateInvariant(p, cmds);
  }

  // ---------------------------------------------------------------- prompts

  /** The context label of each message kind. */
  function ContextLabel(kind: MessageKind): (context: string)
    ensures |context| > 0
  {
    match kind
    case TaskAssignment => "NEW TASK"
    case TaskComplete => "TASK COMPLETE"
    case TaskGiveUp => "TASK BLOCKED"
    case Interrupt => "INTERRUPT"
    case ArchitectReview => "ARCHITECT REVIEW"
    case Info => "INFO"
    case Evaluation => "EVALUATION"
    case Observation => "OBSERVATION"
  }

  /** What follows the system prompt in a prompt. */
  function PromptBody(msg: AgentMessage): (body: string)
    ensures |body| == 2 + |ContextLabel(msg.kind)| + 6 + |IdDisplay(msg.from)| + 2 + |msg.content| + 11 + |TaskIdDebug(msg.taskId)|
  {
    "\n\n" + ContextLabel(msg.kind) + " from " + IdDisplay(msg.from) + ": " + msg.content
    + "\n\nTask ID: " + TaskIdDebug(msg.taskId)
  }

  /** `format_prompt_for_agent`: the system prompt, then the context label,
      the sender, the content and the task reference. */
  function FormatPromptForAgent(msg: AgentMessage, config: AgentConfig): (prompt: string)
    ensures StartsWith(prompt, config.systemPrompt)
    ensures |prompt| == |config.systemPrompt| + |PromptBody(msg)|
  {
    StartsConcat(config.systemPrompt, PromptBody(msg));
    config.systemPrompt + PromptBody(msg)
  }

  /** The positions of the parts of a prompt-shaped concatenation. */
  lemma PromptParts(sp: string, a: string, lab: string, b: string, sender: string, c: string,
                    content: string, d: string, task: string)
    ensures var prompt := sp + (a + lab + b + sender + c + content + d + task);
      && OccursAt(prompt, lab, |sp| + |a|)
      && OccursAt(prompt, sender, |sp| + |a| + |lab| + |b|)
      && OccursAt(prompt, content, |sp| + |a| + |lab| + |b| + |sender| + |c|)
      && OccursAt(prompt, task, |prompt| - |task|)
  {
    var body := a + lab + b + sender + c + content + d + task;
    var s1 := a + lab + b;
    var s2 := s1 + sender + c;
    var s3 := s2 + content + d;
    OccursInConcat(a, lab, b);
    OccursBefore(s1, sender, lab, |a|);
    OccursBefore(s1 + sender, c, lab, |a|);
    OccursBefore(s2, content, lab, |a|);
    OccursBefore(s2 + content, d, lab, |a|);
    OccursBefore(s3, task, lab, |a|);
    OccursAfter(sp, body, lab, |a|);
    OccursInConcat(s1, sender, c);
    OccursBefore(s2, content, sender, |s1|);
    OccursBefore(s2 + content, d, sender, |s1|);
    OccursBefore(s3, task, sender, |s1|);
    OccursAfter(sp, body, sender, |s1|);
    OccursInConcat(s2, content, d);
    OccursBefore(s3, task, content, |s2|);
    OccursAfter(sp, body, content, |s2|);
    OccursAtEnd(s3, task);
    OccursAfter(sp, body, task, |s3|);
  }

  /** The positions of the fixed texts between the parts of a prompt-shaped
      concatenation. */
  lemma PromptSeparators(sp: string, a: string, lab: string, b: string, sender: string, c: string,
                         content: string, d: string, task: string)
    ensures var prompt := sp + (a + lab + b + sender + c + content + d + task);
      && OccursAt(prompt, a, |sp|)
      && OccursAt(prompt, b, |sp| + |a| + |lab|)
      && OccursAt(prompt, c, |sp| + |a| + |lab| + |b| + |sender|)
      && OccursAt(prompt, d, |prompt| - |task| - |d|)
  {
    var body := a + lab + b + sender + c + content + d + task;
    var s1 := a + lab + b;
    var s2 := s1 + sender + c;
    var s3 := s2 + content + d;
    assert OccursAt(a, a, 0);
    OccursBefore(a, lab, a, 0);
    OccursBefore(a + lab, b, a, 0);
    OccursBefore(s1, sender, a, 0);
    OccursBefore(s1 + sender, c, a, 0);
    OccursBefore(s2, content, a, 0);
    OccursBefore(s2 + content, d, a, 0);
    OccursBefore(s3, task, a, 0);
    OccursAfter(sp, body, a, 0);
    OccursAtEnd(a + lab, b);
    OccursBefore(s1, sender, b, |a + lab|);
    OccursBefore(s1 + sender, c, b, |a + lab|);
    OccursBefore(s2, content, b, |a + lab|);
    OccursBefore(s2 + content, d, b, |a + lab|);
    OccursBefore(s3, task, b, |a + lab|);
    OccursAfter(sp, body, b, |a + lab|);
    OccursAtEnd(s1 + sender, c);
    OccursBefore(s2, content, c, |s1 + sender|);
    OccursBefore(s2 + content, d, c, |s1 + sender|);
    OccursBefore(s3, task, c, |s1 + sender|);
    OccursAfter(sp, body, c, |s1 + sender|);
    OccursAtEnd(s2 + content, d);
    OccursBefore(s3, task, d, |s2 + content|);
    OccursAfter(sp, body, d, |s2 + content|);
  }

  /** Where each part sits in a prompt: the label two characters after the
      system prompt, then the sender and the content, and the task reference
      at the very end. */
  lemma PromptLayout(msg: AgentMessage, config: AgentConfig)
    ensures var prompt, sp := FormatPromptForAgent(msg, config), config.systemPrompt;
      var lab, sender := ContextLabel(msg.kind), IdDisplay(msg.from);
      && OccursAt(prompt, lab, |sp| + 2)
      && OccursAt(prompt, sender, |sp| + 2 + |lab| + 6)
      && OccursAt(prompt, msg.content, |sp| + 2 + |lab| + 6 + |sender| + 2)
      && OccursAt(prompt, TaskIdDebug(msg.taskId), |prompt| - |TaskIdDebug(msg.taskId)|)
  {
    var lab, sender, task := ContextLabel(msg.kind), IdDisplay(msg.from), TaskIdDebug(msg.taskId);
    assert FormatPromptForAgent(msg, config)
      == config.systemPrompt + ("\n\n" + lab + " from " + sender + ": " + msg.content + "\n\nTask ID: " + task);
    PromptParts(config.systemPrompt, "\n\n", lab, " from ", sender, ": ", msg.content, "\n\nTask ID: ", task);
  }

  /** The fixed texts between the parts: a blank line after the system prompt,
      ` from ` after the label, `: ` after the sender, and a blank line and
      `Task ID: ` just before the task reference. */
  lemma PromptSeparatorLayout(msg: AgentMessage, config: AgentConfig)
    ensures var prompt, sp := FormatPromptForAgent(msg, config), config.systemPrompt;
      var lab, sender := ContextLabel(msg.kind), IdDisplay(msg.from);
      && OccursAt(prompt, "\n\n", |sp|)
      && OccursAt(prompt, " from ", |sp| + 2 + |lab|)
      && OccursAt(prompt, ": ", |sp| + 2 + |lab| + 6 + |sender|)
      && OccursAt(prompt, "\n\nTask ID: ", |prompt| - |TaskIdDebug(msg.taskId)| - 11)
  {
    var lab, sender, task := ContextLabel(msg.kind), IdDisplay(msg.from), TaskIdDebug(msg.taskId);
    assert FormatPromptForAgent(msg, config)
      == config.systemPrompt + ("\n\n" + lab + " from " + sender + ": " + msg.content + "\n\nTask ID: " + task);
    PromptSeparators(config.systemPrompt, "\n\n", lab, " from ", sender, ": ", msg.content, "\n\nTask ID: ", task);
  }

  /** Distinct kinds have distinct labels. */
  lemma ContextLabelInjective(a: MessageKind, b: MessageKind)
    requires ContextLabel(a) == ContextLabel(b)
    ensures a == b
  {
  }
}
