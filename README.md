# agent-orchestrator in Dafny

A model of the core of agent-orchestrator. The orchestrator runs a crew of AI
coding agents: one manager, one architect, one scorer, and one to three
developers. Each agent runs as an AI CLI backend in its own task. The agents
talk to each other by printing lines with a prefix. `CREW:` resizes the
developer crew. `RELIEVE:` replaces the manager. `APPROVED:`, `COMPLETE:`,
`BLOCKED:`, `TASK:`, `REJECTED:` and `INTERRUPT:` become messages addressed to
another agent. Messages travel over Unix sockets in length-prefixed frames.

The model has these parts:

- `primitives.dfy`, module `Primitives`: the behaviour of each Rust primitive
  the core relies on. These are `str::trim` (Unicode White_Space),
  `strip_prefix`/`starts_with`, `u8::from_str`, the decimal `Display` of
  integers, and lower-case hexadecimal bytes. `U8` and `U32` stand for the
  fixed-width integers.
- `wrappers.dfy`, module `Wrappers`: `Option` and `Result`.
- `roles.dfy`, module `Roles`: `AgentRole`, with its wire names and `Display`,
  and `AgentId`.
- `message.dfy`, module `Messages`: `AgentMessage`, `MessageKind`, and the
  `Debug` form of a UUID.
- `wire.dfy`, module `Wire`: the frame format as pure functions (`EncodeFrame`,
  `DecodeFrame`). Two classes drive it. `FrameWriter` accumulates the written
  bytes. `FrameReader` consumes a finite input stream.
- `runtime_model.dfy`, module `RuntimeModel`: the runtime as a state machine
  over values. One function per method of `OrchestratorRuntime`, and the
  lemmas about them.
- `runtime.dfy`, module `Runtime`: class `OrchestratorRuntime`. Its fields are
  updated in place, as in the source. Every method is proved to move the
  object's `Model()` exactly as the matching `RuntimeModel` function does, so
  the facts proved there (fleet invariant, cooldown, log order) hold of the
  object.
- `agent.dfy`, module `AgentParser`: the line parser (`parse_agent_output` and
  its helpers, the `ROUTES` table), and the prompt a message is turned into.
- `backend.dfy` and `claude.dfy`, modules `Backend` and `Claude`: the
  provider-independent `AgentOutput` and the conversion from the Claude CLI's
  stream-json records.

## Model

| member | source | states |
|---|---|---|
| Primitives.Trim | src/agent.rs:171 | the result is the slice of the input between its first and last non-whitespace character; everything removed is whitespace |
| Primitives.TrimIdempotent | src/agent.rs:171 | trimming twice is trimming once |
| Primitives.TrimAfterWhitespace | src/agent.rs:171 | any run of whitespace put in front of a string is removed by trimming |
| Primitives.StripPrefix | src/agent.rs:191 | succeeds exactly when the text starts with the prefix, and the text is then the prefix followed by the result |
| Primitives.NatToString | src/runtime.rs:261-268 | the decimal rendering is non-empty, all digits, and has no leading zero |
| Primitives.NatToStringValue | src/runtime.rs:261-268 | the decimal rendering of n reads back as n |
| Primitives.NatToStringInjective | src/runtime.rs:261-268 | distinct numbers render differently |
| Primitives.ParseU8 | src/agent.rs:195 | a successful parse needs a non-empty text |
| Primitives.ParseU8RoundTrip | src/agent.rs:195 | every u8 written in decimal, with or without `+`, parses back to itself |
| Primitives.ParseU8Sound | src/agent.rs:195 | a successful parse means the text is digits (after an optional `+`) whose value is the result |
| Primitives.DigitsValueAppend | src/agent.rs:195 | the value of two digit strings in a row is the first value shifted by the length of the second, plus the second value |
| Primitives.ZerosValue | src/agent.rs:195 | a run of zeros has value 0 |
| Primitives.ParseU8Padded | src/agent.rs:195 | any number of leading zeros before a u8 in decimal, with or without `+`, still parses to it |
| Primitives.ParseU8Overflow | src/agent.rs:195 | digits whose value is above 255, with or without `+`, are refused |
| Primitives.ParseU8Refuses | src/agent.rs:195 | the empty text, a lone `+` and any text starting with `-` are refused |
| Primitives.HexByte | src/transport/message.rs:23 | a byte prints as two lower-case hexadecimal digits, the high digit times 16 plus the low digit giving the byte |
| Primitives.HexByteInjective | src/transport/message.rs:23 | distinct bytes print differently |
| Primitives.HexBytes | src/transport/message.rs:23 | each byte i prints as the pair of characters at 2i and 2i+1 |
| Roles.AsStr | src/types/agent.rs:13-20 | every role name is at least six characters |
| Roles.AsStrInjective | src/types/agent.rs:13-20 | distinct roles have distinct names |
| Roles.RoleNamesLowercase | src/types/agent.rs:4 | role names are non-empty lower-case ASCII, as the serde renaming requires |
| Roles.RoleNameRoundTrip | src/types/agent.rs:3-10 | deserialising a role's name gives the role, and only its own name does |
| Roles.Fmt | src/types/agent.rs:32-36 | writing a role appends exactly its name to the output |
| Roles.NewSingleton | src/runtime.rs:130 | a singleton id has the role and no index |
| Roles.NewDeveloper | src/runtime.rs:135 | a developer id has the developer role and the index |
| Roles.IdDisplay | src/runtime.rs:276 | an id displays as its role name, and only an id without an index displays as the bare name |
| Roles.SocketName | src/main.rs:189 | a socket name is non-empty and contains no `/`, so it names a file inside the socket directory |
| Roles.DisplayLayout | src/runtime.rs:276 | an id displays as its role name, followed by a dash and the index when it has one |
| Roles.SocketNameInjective | src/main.rs:189 | distinct agent ids have distinct socket names |
| Roles.DeveloperDisplay | src/runtime.rs:196 | `developer-i` is the display of developer i |
| Messages.UuidDebug | src/transport/message.rs:23 | a UUID prints as 36 characters: its 4-2-2-2-6 byte groups in hexadecimal, with dashes at offsets 8, 13, 18 and 23 |
| Messages.Hyphenated | src/transport/message.rs:23 | the groups of an 8-4-4-4-12 hyphenated string sit at offsets 0, 9, 14, 19 and 24 |
| Messages.HexBytesInjective | src/transport/message.rs:23 | two byte strings of one length that print alike are equal |
| Messages.UuidDebugInjective | src/transport/message.rs:23 | distinct UUIDs print differently |
| Messages.GroupsEqual | src/transport/message.rs:23 | a 16-byte UUID is fixed by its five groups |
| Messages.TaskIdDebug | src/agent.rs:157 | no task id prints as the four characters `None`; a task id prints as `Some(`, the UUID, `)` |
| Messages.TaskIdDebugInjective | src/agent.rs:157 | distinct task ids (present or absent) print differently |
| Messages.New | src/transport/message.rs:27-36 | a new message carries the given id, sender, receiver, kind and content, and no task id |
| Messages.WithTask | src/transport/message.rs:38-41 | sets the task id and leaves every other field as it was |
| Wire.BeU32 | src/transport/message.rs:85-87 | the four bytes are the base-256 digits of the length, most significant first |
| Wire.FromBeU32 | src/transport/message.rs:98-100 | reading four bytes as a big-endian number gives the number whose encoding they are |
| Wire.BeU32RoundTrip | src/transport/message.rs:85-87 | big-endian encoding of a u32 decodes back to it |
| Wire.FromBeU32RoundTrip | src/transport/message.rs:98-100 | every 4-byte prefix re-encodes to itself |
| Wire.EncodeFrame | src/transport/message.rs:75-90 | refuses exactly the payloads over 16 MiB with `MessageTooLarge`; otherwise gives 4 + n bytes whose big-endian prefix is n and whose rest is the payload |
| Wire.DecodeFrame | src/transport/message.rs:93-110 | a decoded payload is the input after the 4-byte prefix, at most 16 MiB, and the bytes consumed fit in the input |
| Wire.FrameRoundTrip | src/transport/message.rs:72-110 | reading a written frame, whatever follows it, gives back the payload and consumes exactly the frame |
| Wire.DecodeThenEncode | src/transport/message.rs:72-110 | every frame that reads successfully is exactly what writing its payload produces |
| Wire.OversizeRefusedBeforeBody | src/transport/message.rs:102-104 | a prefix over the ceiling is refused on the prefix alone: no body byte affects the outcome |
| Wire.DecodeFrameFailures | src/transport/message.rs:98-107 | reading fails exactly when the stream ends inside the prefix, the length is over the ceiling, or the stream ends inside the body |
| Wire.FrameWriter.constructor | src/transport/message.rs:75 | a new writer has written nothing |
| Wire.FrameWriter.WriteAll | src/transport/message.rs:86-87 | appends the bytes to what was written |
| Wire.FrameWriter.WriteMessage | src/transport/message.rs:75-90 | succeeds iff the payload is at most 16 MiB; on success appends exactly the frame, on failure writes nothing |
| Wire.FrameReader.constructor | src/transport/message.rs:93 | a new reader has the whole stream ahead of it |
| Wire.FrameReader.ReadExact | src/transport/message.rs:98-100 | delivers n bytes iff n remain; otherwise the stream has been consumed |
| Wire.FrameReader.ReadMessage | src/transport/message.rs:93-110 | gives the result of `DecodeFrame` for the remaining bytes, and leaves the stream just after the frame (after the prefix on an oversized frame, at the end on a truncated one) |
| RuntimeModel.DeveloperIdsMembership | src/runtime.rs:194-213 | an id is in the slot range [from, to) iff it is developer i with from <= i < to |
| RuntimeModel.DeveloperIdsEmpty | src/runtime.rs:194-213 | an empty range holds no slot |
| RuntimeModel.DeveloperIdsExtend | src/runtime.rs:194-213 | one more step of the loop adds exactly slot `to` |
| RuntimeModel.DeveloperIdsSplit | src/runtime.rs:194-213 | adjacent ranges are disjoint and together make up the whole range |
| RuntimeModel.Clamp | src/runtime.rs:175 | the crew size is always in [1, 3]: a count in range is kept, 0 becomes 1, and a count above 3 becomes 3 |
| RuntimeModel.StatusDebug | src/runtime.rs:38-44 | every status prints as a non-empty name |
| RuntimeModel.StatusDebugInjective | src/runtime.rs:38-44 | distinct statuses print differently |
| RuntimeModel.New | src/runtime.rs:74-95 | a new runtime has one developer, an empty log, generation 0, no relief yet, and no handles |
| RuntimeModel.SpawnAgent | src/runtime.rs:143-171 | the id gets a handle with the next spawn number, the agent and the prompt; the runtime state is untouched |
| RuntimeModel.SpawnAgentFrame | src/runtime.rs:143-171 | the id is added to the keys, and every other id keeps its own handle |
| RuntimeModel.SpawnInitialAgents | src/runtime.rs:128-140 | four agents are spawned, developer-0 last with the developer prompt, and the state is untouched; `InitialFleet` gives the whole fleet |
| RuntimeModel.InitialFleet | src/runtime.rs:128-140 | after the initial spawn the handles are exactly manager, architect, scorer and developer-0, with a crew size of 1 |
| RuntimeModel.SpawnDevelopersEffect | src/runtime.rs:194-202 | `spawn_developers(from, to)` adds handles for exactly developer-from..developer-(to-1), leaves the other handles and the state alone, and each new handle runs its own agent with the developer prompt |
| RuntimeModel.SpawnDevelopers | src/runtime.rs:194-202 | one task is spawned per slot of the range and the state is untouched; `SpawnDevelopersEffect` gives the handles |
| RuntimeModel.KillDevelopers | src/runtime.rs:205-213 | exactly the handles of the slots in the range are removed; the state and the spawn count are untouched |
| RuntimeModel.KillDevelopersFrame | src/runtime.rs:205-213 | every handle left after the kill is the one the id had before |
| RuntimeModel.HandleCrewSize | src/runtime.rs:174-191 | the state afterwards is the old one with the crew size set to the clamped count; `CrewSizeDevelopers` and `CrewSizeFrame` give the handles |
| RuntimeModel.CrewSizeClamped | src/runtime.rs:174-191 | afterwards the crew size is the clamped count |
| RuntimeModel.CrewSizeSameIsNoop | src/runtime.rs:178-180 | a resize to the current size changes nothing |
| RuntimeModel.CrewSizeFrame | src/runtime.rs:174-191 | only developer handles and the crew size change: manager, architect, scorer, log, generation and last relief are untouched |
| RuntimeModel.CrewSizeDevelopers | src/runtime.rs:184-188 | growing spawns exactly the missing slots, fresh and in index order, and keeps every handle already present; shrinking removes exactly the slots from the new size up to the old one |
| RuntimeModel.CrewSizePreservesFleet | src/runtime.rs:174-213 | a resize keeps the fleet whole: the developers are exactly slots 0..size-1 |
| RuntimeModel.ReliefDuringCooldownIgnored | src/runtime.rs:217-225 | a relief less than 60 s after the previous one changes nothing |
| RuntimeModel.CooldownBoundary | src/runtime.rs:17 | the cooldown blocks exactly while fewer than 60 s have elapsed; with no previous relief it never blocks |
| RuntimeModel.AbortManager | src/runtime.rs:247-252 | the manager has no handle afterwards and every other id still has one; the state is untouched |
| RuntimeModel.AbortManagerFrame | src/runtime.rs:247-252 | every handle left after the abort is the one the id had before |
| RuntimeModel.HandleRelieveManager | src/runtime.rs:216-244 | during the cooldown nothing changes; otherwise the generation is incremented mod 2^32, the time recorded, and the manager gets a new handle |
| RuntimeModel.ReliefAccepted | src/runtime.rs:233-243 | an accepted relief increments the generation (mod 2^32), records the time, and spawns a manager whose prompt is the manager prompt, a blank line, and the briefing built on the updated state; nothing else changes |
| RuntimeModel.ReliefReplacesManager | src/runtime.rs:233-243 | the replacement manager runs in a new task, not the one it replaces |
| RuntimeModel.SecondReliefWithinCooldownIgnored | src/runtime.rs:216-235 | a second relief less than 60 s after an accepted one has no effect |
| RuntimeModel.ReliefPreservesFleet | src/runtime.rs:216-252 | relieving the manager keeps the fleet whole |
| RuntimeModel.HistoryLinesAppend | src/runtime.rs:273-279 | the history of two logs in a row is their histories in a row |
| RuntimeModel.HistoryLinesSnoc | src/runtime.rs:273-279 | one more record adds its one line at the end |
| RuntimeModel.HistoryLinesAt | src/runtime.rs:273-279 | the history is the lines before record i, then record i's line, then the lines after it |
| RuntimeModel.BriefingMentionsState | src/runtime.rs:255-268 | the briefing starts with the title and contains the reason, the generation and the crew size |
| RuntimeModel.BuildManagerBriefing | src/runtime.rs:255-283 | the briefing starts with its header (title, reason, generation, crew size) and continues past it |
| RuntimeModel.BriefingEmptyLog | src/runtime.rs:270-280 | with an empty log the briefing is the header followed by "No task history recorded."; otherwise it is the header, "### Task History" and the history lines |
| RuntimeModel.HistoryLinesInOrder | src/runtime.rs:273-279 | within the history, the line of an earlier record ends before the line of a later one starts |
| RuntimeModel.BriefingHistoryOffset | src/runtime.rs:273-279 | the history sits right after the header and the "### Task History" title |
| RuntimeModel.HistoryLineOccurs | src/runtime.rs:273-279 | the line of record i sits in the history right after the lines of the records before it |
| RuntimeModel.BriefingListsEveryRecord | src/runtime.rs:273-279 | every record of the log has its line in the briefing |
| RuntimeModel.BriefingKeepsLogOrder | src/runtime.rs:273-279 | these lines appear in log order, without overlapping |
| RuntimeModel.BriefingAfterTaskUpdate | src/runtime.rs:115-119 | a task update adds exactly its own line at the end of a non-empty history |
| RuntimeModel.TaskUpdateAppends | src/runtime.rs:109-119 | a task update appends one record at the end of the log and changes nothing else |
| RuntimeModel.ProcessCommand | src/runtime.rs:102-121 | a command appends its own record to the log if it is a task update and nothing otherwise; only a resize changes the crew size |
| RuntimeModel.ProcessCommandLog | src/runtime.rs:102-121 | each command adds its own record at the end of the log if it is a task update, and nothing otherwise |
| RuntimeModel.Run | src/runtime.rs:98-125 | the log afterwards is the old log followed by the records of the task updates, in order |
| RuntimeModel.RunLogAppendOnly | src/runtime.rs:98-125 | over any commands the log only grows: it ends as the old log followed by the records of the task updates, in order |
| RuntimeModel.NoUpdatesNoRecords | src/runtime.rs:109-119 | commands without task updates record nothing |
| RuntimeModel.RunPreservesFleet | src/runtime.rs:98-125 | every command keeps the fleet whole and every handle stored under the id it runs |
| RuntimeModel.Orchestrate | src/runtime.rs:98-125 | a runtime started afresh ends with a log of exactly the task updates it received |
| RuntimeModel.OrchestrateInvariant | src/runtime.rs:98-125 | whatever commands arrive, there is exactly one manager, architect and scorer, a crew of 1 to 3 developers holding slots 0..size-1, and a log equal to the task updates received |
| Runtime.OrchestratorRuntime.constructor | src/runtime.rs:74-95 | the new object is `RuntimeModel.New` with the given prompts |
| Runtime.OrchestratorRuntime.SpawnAgent | src/runtime.rs:143-171 | inserts a fresh handle for the id, replacing any previous one |
| Runtime.OrchestratorRuntime.SpawnInitialAgents | src/runtime.rs:128-140 | proved to reach `RuntimeModel.SpawnInitialAgents` (loop over the three singleton roles, then developer-0) |
| Runtime.OrchestratorRuntime.HandleCrewSize | src/runtime.rs:174-191 | proved to reach `RuntimeModel.HandleCrewSize` |
| Runtime.OrchestratorRuntime.SpawnDevelopers | src/runtime.rs:194-202 | proved to reach `RuntimeModel.SpawnDevelopers` (loop over the slots) |
| Runtime.OrchestratorRuntime.KillDevelopers | src/runtime.rs:205-213 | removes exactly the handles of slots from..to-1 (loop over the slots) |
| Runtime.OrchestratorRuntime.AbortManager | src/runtime.rs:247-252 | removes the manager's handle, if any |
| Runtime.OrchestratorRuntime.HandleRelieveManager | src/runtime.rs:216-244 | proved to reach `RuntimeModel.HandleRelieveManager` |
| Runtime.OrchestratorRuntime.BuildManagerBriefing | src/runtime.rs:255-283 | the string built line by line is the briefing `RuntimeModel.BuildManagerBriefing` describes, and the object is not changed |
| Runtime.OrchestratorRuntime.ProcessCommand | src/runtime.rs:102-121 | proved to reach `RuntimeModel.ProcessCommand` |
| Runtime.OrchestratorRuntime.Run | src/runtime.rs:98-125 | proved to reach the initial spawn followed by the command fold `RuntimeModel.Run` |
| Runtime.Orchestrate | src/runtime.rs:98-125 | the runtime after any commands keeps the fleet invariant and a log of exactly the task updates sent to it |
| AgentParser.ParseRuntimeCommand | src/agent.rs:190-206 | a resize iff a manager wrote `CREW:` with a remainder that reads as a u8, and the count is that value; a relief iff a scorer wrote `RELIEVE:`, and the reason is the trimmed rest; never a task update |
| AgentParser.ParseDeveloperTarget | src/agent.rs:222-230 | always a developer with an index below 10, taken from `developer-` and a digit |
| AgentParser.DeveloperTargetNamed | src/agent.rs:223-227 | `developer-` followed by digit d targets developer d |
| AgentParser.DeveloperTargetDefault | src/agent.rs:229 | without `developer-` and a digit, the target is developer-0 |
| AgentParser.ParseApprovedMessage | src/agent.rs:209-219 | a message iff the text starts with `APPROVED:`; it is a task assignment from the sender to the developer the trimmed content names, with that content |
| AgentParser.ParseCompletionMessage | src/agent.rs:233-253 | a message to the manager iff the text starts with `COMPLETE:` (TaskComplete) or `BLOCKED:` (TaskGiveUp), carrying the trimmed rest |
| AgentParser.RouteMessage | src/agent.rs:266-273 | the message goes to the singleton of the row's target role, with the row's kind and the trimmed rest |
| AgentParser.FirstRoute | src/agent.rs:257-274 | nothing iff no row applies (prefix matches and sender allowed) |
| AgentParser.FirstRouteIsFirstMatch | src/agent.rs:257-274 | a routed message is that of the first row that applies |
| AgentParser.ParseRoutedMessage | src/agent.rs:256-275 | a routed message comes from the sender with the given id; an interrupt only from the architect, to `developer` |
| AgentParser.RoutedMessages | src/agent.rs:163-167 | `TASK:` goes to the architect, `REJECTED:` to the manager, `INTERRUPT:` to the developer only from the architect, anything else to nobody |
| AgentParser.NotBoth | src/agent.rs:170-187 | two prefixes that differ within their common length cannot both begin a line |
| AgentParser.PrefixesExclusive | src/agent.rs:170-187 | no two recognised prefixes can begin the same line, so the order of the parsers matters only for precedence, never for meaning |
| AgentParser.ParseAgentOutput | src/agent.rs:170-187 | messages come from the sender with the given id and no task id; commands are either a resize from the manager or a relief from the scorer; an interrupt only comes from the architect |
| AgentParser.ParseIgnoresSurroundingWhitespace | src/agent.rs:171 | parsing a trimmed line gives the same as parsing the line |
| AgentParser.ParseIgnoresLeadingWhitespace | src/agent.rs:171 | leading whitespace of any length is ignored |
| AgentParser.LaterParsersSilent | src/agent.rs:174-186 | approvals, completions and routes claim nothing on a line with none of their prefixes |
| AgentParser.CrewLine | src/agent.rs:174-197 | a `CREW:` line is a resize from the manager when its count reads as a u8, and nothing otherwise |
| AgentParser.RelieveLine | src/agent.rs:198-203 | a `RELIEVE:` line is a relief with the trimmed reason from the scorer, and nothing from anyone else |
| AgentParser.ApprovedLine | src/agent.rs:178-179 | an `APPROVED:` line is a task assignment to the named developer, from any sender |
| AgentParser.CompletionLine | src/agent.rs:181-182 | `COMPLETE:` and `BLOCKED:` lines are reported to the manager with their kind |
| AgentParser.RoutedLine | src/agent.rs:184-186 | the other prefixes are routed through the table |
| AgentParser.UnknownLine | src/agent.rs:186 | a line with none of the prefixes yields nothing |
| AgentParser.CrewRoundTrip | src/agent.rs:190-197 | a manager's `CREW: n` reads back as a resize to n, for every u8 |
| AgentParser.CrewLineShape | src/agent.rs:191-195 | a `CREW: ` line with a digit count is already trimmed, and its count is those digits |
| AgentParser.InterruptTargetNotRunning | src/agent.rs:166 | an interrupt is addressed to `developer` with no index, which is never a running agent |
| AgentParser.ApprovalBeyondCrew | src/agent.rs:209-230 | an approval naming a slot at or above the crew size is still addressed to that developer, which has no handle |
| AgentParser.ApprovalAddressee | src/agent.rs:209-219 | `APPROVED: ` followed by a target is addressed by that target |
| AgentParser.ApprovalLineShape | src/agent.rs:209-211 | such a line is already trimmed and its content is the target |
| AgentParser.ParsedCommandsLeaveLogEmpty | src/agent.rs:190-206 | a runtime driven only by parsed commands never records a task, so every briefing reports no history |
| AgentParser.ContextLabel | src/agent.rs:145-154 | every kind has a non-empty label |
| AgentParser.ContextLabelInjective | src/agent.rs:145-154 | distinct kinds have distinct labels |
| AgentParser.PromptBody | src/agent.rs:156-159 | the body is as long as its fixed texts, the label, the sender, the content and the task id together; `PromptLayout` places each |
| AgentParser.FormatPromptForAgent | src/agent.rs:144-160 | the prompt starts with the system prompt and is as long as the system prompt and the message body together |
| AgentParser.PromptLayout | src/agent.rs:156-159 | the label, sender, content and task id sit at the offsets the format string gives them |
| AgentParser.PromptSeparators | src/agent.rs:156-159 | the fixed texts of a prompt-shaped concatenation sit between its parts |
| AgentParser.PromptSeparatorLayout | src/agent.rs:156-159 | a blank line follows the system prompt, ` from ` the label, `: ` the sender, and a blank line and `Task ID: ` come just before the task reference |
| Backend.IsFinal | src/backend/mod.rs:50-52 | a final output carries text only when it is a result with text |
| Backend.OutputText | src/backend/mod.rs:55-61 | only text and result outputs carry text |
| Backend.OutputClasses | src/backend/mod.rs:48-61 | `is_final` holds exactly for results and errors; `text` is present for text and for a result carrying one, and absent otherwise |
| Claude.UserInput | src/backend/claude.rs:198-205 | user input carries role `user` and the given content |
| Claude.FirstText | src/backend/claude.rs:152-160 | nothing iff no block is text |
| Claude.FirstTextIsFirst | src/backend/claude.rs:152-160 | the text found is that of the first text block |
| Claude.AssistantText | src/backend/claude.rs:152-160 | an assistant message becomes the text of its first text block |
| Claude.AssistantWithoutText | src/backend/claude.rs:152-160 | an assistant message without text becomes empty text |
| Claude.ConvertOutput | src/backend/claude.rs:147-181 | each record kind maps to its own output kind: system, tool use, tool result, result and error to their namesakes, assistant and unknown records to text |
| Claude.ConversionDefaults | src/backend/claude.rs:147-181 | each other record maps to its backend variant field by field; an unknown record becomes empty text; an error takes `error`, else `message`, else the empty string; a tool result defaults to empty output and no error |
| Claude.ConvertedFinality | src/backend/claude.rs:147-181 | a converted record ends the turn exactly when it was a result or an error |

## Left out

- Sockets, tokio tasks, channels and process spawning are left out. `Agent::new`, `Agent::run`, `accept_message` and `send_to_agent` (src/agent.rs:47-140 and 290-295) and `ClaudeBackend::spawn` (src/backend/claude.rs:65-143) only move data between them. src/transport/unix.rs and src/main.rs are not part of this model.
- JSON serialisation (serde) is left out. Frames carry the payload as opaque bytes, Claude records are taken as already decoded, and a tool input is kept as its text (`Backend.Json`). So the "Failed to parse message" error of `read_message` is not modelled.
- The four system prompts are compiled in from files that are not part of this model. They are the `Prompts` value given to the runtime.
- `Uuid::new_v4` draws randomness. The id is a parameter of every parsing function.
- `Instant::now` is not modelled. Each command carries the clock reading, in nanoseconds, at which the runtime handles it. `Instant::elapsed` is modelled as saturating at zero.
- Logging is left out: `tracing` calls, `log_scorer_output` (src/agent.rs:278-287) and the cooldown-remaining message.
- `AgentStatus` (src/types/agent.rs:38-45) is declared but never used, so it is not modelled.
- A JoinHandle's identity is modelled by a spawn number (`Handle.serial`). `abort` is modelled as removing the handle.
- `AgentId` is defined in a file that is not part of this model. It is modelled as a role and an optional `u8` index, shown as the role name followed by `-` and the index when there is one. Its socket name is that display.
- RuntimeModel.HandleRelieveManager: the `u32` generation counter is modelled with the wrap-around of release builds. A debug build would panic after 2^32 reliefs.
- Wire.EncodeFrame: `json.len() as u32` is modelled as truncation. It can never take effect, because of the 16 MiB ceiling.
- Wire.FrameWriter.WriteMessage: the I/O errors of `write_all` and `flush` (src/transport/message.rs:85-90) are not modelled; the writer never fails once the size check has passed.
- Runtime.OrchestratorRuntime.Run: `run` loops until the command channel closes. The model takes the commands received as a finite sequence.

## Behaviour worth noting

The model follows the code in each of these.

- Frames are refused above 16 MiB, the `MAX_MESSAGE_SIZE` of src/transport/message.rs:72.
- `parse_agent_output` returns `ParsedOutput::None` for a line none of its parsers claims (src/agent.rs:186); no error is reported.
- No parser ever produces a `TaskUpdate`: only src/agent.rs:190-206 builds runtime commands, and it builds `SetCrewSize` and `RelieveManager` only. The comment at src/agent.rs:250 notwithstanding, the task log therefore stays empty, and a relieved manager's briefing always reads "No task history recorded." (`AgentParser.ParsedCommandsLeaveLogEmpty`).
- `INTERRUPT:` is addressed to the indexless `developer` (src/agent.rs:166). Under the `AgentId` assumed here (every spawned developer has a slot index), that is never a running agent (`AgentParser.InterruptTargetNotRunning`).
- `APPROVED:` may name any of developer-0..9, whatever the crew size (src/agent.rs:222-230, `AgentParser.ApprovalBeyondCrew`).
- `kill_developers` stops developers in increasing index order (src/runtime.rs:205-213).
