/** The orchestrator runtime of src/runtime.rs as a state machine over values.

    `Orchestrator` is the runtime's state: the `RuntimeState` fields, the
    handle map keyed by agent id, and a count of the agent tasks spawned so
    far, which gives every `JoinHandle` its own identity. The functions below
    are the reference definitions the `OrchestratorRuntime` class is proved
    against; the lemmas state what the runtime promises about them. Time is
    an integer clock reading in nanoseconds. */
module RuntimeModel {
  import opened Wrappers
  import opened Primitives
  import opened Roles

  datatype TaskStatus = InProgress | Completed | Blocked

  /** `Debug` of a `TaskStatus`. */
  function StatusDebug(s: TaskStatus): (name: string)
    ensures |name| > 0
  {
    match s
    case InProgress => "InProgress"
    case Completed => "Completed"
    case Blocked => "Blocked"
  }

  /** Distinct statuses print differently. */
  lemma StatusDebugInjective(a: TaskStatus, b: TaskStatus)
    requires StatusDebug(a) == StatusDebug(b)
    ensures a == b
  {
  }

  datatype TaskRecord = TaskRecord(agent: AgentId, status: TaskStatus, summary: string)

  datatype RuntimeCommand =
    | SetCrewSize(count: U8)
    | RelieveManager(reason: string)
    | TaskUpdate(agent: AgentId, status: TaskStatus, summary: string)

  /** A command together with the clock reading at which the runtime handles it. */
  datatype TimedCommand = TimedCommand(cmd: RuntimeCommand, now: int)

  /** `RELIEVE_COOLDOWN`: 60 seconds, in nanoseconds. */
  const RelieveCooldown: nat := 60 * 1_000_000_000

  datatype RuntimeState = RuntimeState(
    developerCount: U8,
    taskLog: seq<TaskRecord>,
    managerGeneration: U32,
    lastRelieve: Option<int>)

  /** The `JoinHandle` of a spawned agent task: its spawn number, the agent it
      runs and the system prompt it was configured with. */
  datatype Handle = Handle(serial: nat, agent: AgentId, systemPrompt: string)

  datatype Orchestrator = Orchestrator(
    state: RuntimeState,
    handles: map<AgentId, Handle>,
    spawned: nat)

  /** The four `AgentRole::system_prompt` texts, which are opaque here. */
  datatype Prompts = Prompts(manager: string, architect: string, developer: string, scorer: string)

  function ManagerId(): AgentId { NewSingleton(Manager) }
  function ArchitectId(): AgentId { NewSingleton(Architect) }
  function ScorerId(): AgentId { NewSingleton(Scorer) }

  // ---------------------------------------------------------------- developer slots

  /** The ids `developer-from` .. `developer-(to-1)`. */
  function DeveloperIds(from: int, to: int): set<AgentId> {
    set i | from <= i < to && 0 <= i < 0x100 :: NewDeveloper(i)
  }

  lemma DeveloperIdsMembership(id: AgentId, from: int, to: int)
    ensures id in DeveloperIds(from, to) <==>
      id.role == Developer && id.index.Some? && from <= id.index.value < to
  {
    if id.role == Developer && id.index.Some? && from <= id.index.value < to {
      assert id == NewDeveloper(id.index.value);
    }
  }

  lemma DeveloperIdsEmpty(from: int, to: int)
    requires to <= from
    ensures DeveloperIds(from, to) == {}
  {
    forall id ensures id !in DeveloperIds(from, to) { DeveloperIdsMembership(id, from, to); }
  }

  lemma DeveloperIdsExtend(from: int, to: U8)
    requires from <= to
    ensures DeveloperIds(from, to + 1) == DeveloperIds(from, to) + {NewDeveloper(to)}
  {
    forall id | id in DeveloperIds(from, to + 1)
      ensures id in DeveloperIds(from, to) + {NewDeveloper(to)}
    {
      DeveloperIdsMembership(id, from, to + 1);
      DeveloperIdsMembership(id, from, to);
    }
  }

  lemma DeveloperIdsSplit(a: int, b: int, c: int)
    requires a <= b <= c
    ensures DeveloperIds(a, c) == DeveloperIds(a, b) + DeveloperIds(b, c)
    ensures DeveloperIds(a, b) !! DeveloperIds(b, c)
  {
    forall id ensures id in DeveloperIds(a, c) <==> id in DeveloperIds(a, b) + DeveloperIds(b, c) {
      DeveloperIdsMembership(id, a, c);
      DeveloperIdsMembership(id, a, b);
      DeveloperIdsMembership(id, b, c);
    }
    forall id | id in DeveloperIds(a, b) ensures id !in DeveloperIds(b, c) {
      DeveloperIdsMembership(id, a, b);
      DeveloperIdsMembership(id, b, c);
    }
  }

  /** `u8::clamp(1, 3)`. */
  function Clamp(count: U8): (c: U8)
    ensures 1 <= c <= 3
    ensures 1 <= count <= 3 ==> c == count
    ensures count < 1 ==> c == 1
    ensures count > 3 ==> c == 3
  {
    if count < 1 then 1 else if count > 3 then 3 else count
  }

  // ---------------------------------------------------------------- invariants

  /** Every handle is stored under the id of the agent it runs and was spawned
      before now; the crew size is within [1,3]. */
  ghost predicate ValidOrchestrator(o: Orchestrator) {
    && 1 <= o.state.developerCount <= 3
    && forall id :: id in o.handles ==> o.handles[id].agent == id && o.handles[id].serial < o.spawned
  }

  /** The running fleet: the manager, the architect, the scorer, and the
      developers `developer-0` .. `developer-(count-1)`, nothing else. */
  ghost predicate Fleet(o: Orchestrator) {
    o.handles.Keys == {ManagerId(), ArchitectId(), ScorerId()} + DeveloperIds(0, o.state.developerCount)
  }

  // ---------------------------------------------------------------- operations

  /** `OrchestratorRuntime::new`. */
  function New(): (o: Orchestrator)
    ensures o.state.developerCount == 1 && o.state.taskLog == []
    ensures o.state.managerGeneration == 0 && o.state.lastRelieve == None
    ensures o.handles == map[] && ValidOrchestrator(o)
  {
    Orchestrator(RuntimeState(1, [], 0, None), map[], 0)
  }

  /** `spawn_agent`: a new task runs the agent and its handle is inserted
      under the agent's id, replacing any handle stored there. */
  function SpawnAgent(o: Orchestrator, id: AgentId, systemPrompt: string): (r: Orchestrator)
    ensures id in r.handles && r.handles[id] == Handle(o.spawned, id, systemPrompt)
    ensures r.state == o.state && r.spawned == o.spawned + 1
  {
    o.(handles := o.handles[id := Handle(o.spawned, id, systemPrompt)], spawned := o.spawned + 1)
  }

  /** `AgentRole::system_prompt`. */
  function SystemPrompt(p: Prompts, role: AgentRole): string {
    match role
    case Manager => p.manager
    case Architect => p.architect
    case Developer => p.developer
    case Scorer => p.scorer
  }

  /** The singleton roles `spawn_initial_agents` starts, in order. */
  const InitialRoles: seq<AgentRole> := [Manager, Architect, Scorer]

  /** One singleton agent per role, spawned in the order of `roles`. */
  function SpawnSingletons(o: Orchestrator, roles: seq<AgentRole>, p: Prompts): (r: Orchestrator)
    decreases |roles|
    ensures r.state == o.state && r.spawned == o.spawned + |roles|
  {
    if roles == [] then o
    else
      var last := roles[|roles| - 1];
      SpawnAgent(SpawnSingletons(o, roles[..|roles| - 1], p), NewSingleton(last), SystemPrompt(p, last))
  }

  /** `spawn_initial_agents`: manager, architect, scorer, then `developer-0`. */
  function SpawnInitialAgents(o: Orchestrator, p: Prompts): (r: Orchestrator)
    ensures r.state == o.state && r.spawned == o.spawned + 4
    ensures NewDeveloper(0) in r.handles && r.handles[NewDeveloper(0)] == Handle(o.spawned + 3, NewDeveloper(0), p.developer)
  {
    SpawnAgent(SpawnSingletons(o, InitialRoles, p), NewDeveloper(0), p.developer)
  }

  /** `spawn_developers(from, to)`: spawns `developer-i` for i = from .. to-1, in that order. */
  function SpawnDevelopers(o: Orchestrator, from: U8, to: U8, prompt: string): (r: Orchestrator)
    decreases (to as int) - (from as int)
    ensures r.state == o.state
    ensures r.spawned == o.spawned + (if from < to then to - from else 0)
  {
    if from >= to then o
    else SpawnDevelopers(SpawnAgent(o, NewDeveloper(from), prompt), from + 1, to, prompt)
  }

  /** `kill_developers(from, to)`: removes the handles of `developer-from` ..
      `developer-(to-1)`; ids without a handle are skipped. */
  function KillDevelopers(o: Orchestrator, from: U8, to: U8): (r: Orchestrator)
    ensures r.handles.Keys == o.handles.Keys - DeveloperIds(from, to)
    ensures r.state == o.state && r.spawned == o.spawned
  {
    o.(handles := o.handles - DeveloperIds(from, to))
  }

  /** `handle_crew_size`. */
  function HandleCrewSize(o: Orchestrator, count: U8, prompt: string): (r: Orchestrator)
    ensures r.state == o.state.(developerCount := Clamp(count))
  {
    var c := Clamp(count);
    var current := o.state.developerCount;
    if c == current then o
    else
      var o1 := if c > current then SpawnDevelopers(o, current, c, prompt) else KillDevelopers(o, c, current);
      o1.(state := o1.state.(developerCount := c))
  }

  /** `Instant::elapsed`, which saturates at zero. */
  function Elapsed(since: int, now: int): nat {
    if now >= since then now - since else 0
  }

  /** A relief is refused while the previous one is less than 60 s old. */
  predicate CooldownBlocks(o: Orchestrator, now: int) {
    o.state.lastRelieve.Some? && Elapsed(o.state.lastRelieve.value, now) < RelieveCooldown
  }

  /** An inserted handle replaces only the one stored under its own id. */
  lemma SpawnAgentFrame(o: Orchestrator, id: AgentId, systemPrompt: string)
    ensures var r := SpawnAgent(o, id, systemPrompt);
      && r.handles.Keys == o.handles.Keys + {id}
      && forall k :: k in o.handles && k != id ==> r.handles[k] == o.handles[k]
  {
  }

  /** Stopping developers leaves every remaining handle as it was. */
  lemma KillDevelopersFrame(o: Orchestrator, from: U8, to: U8)
    ensures var r := KillDevelopers(o, from, to);
      forall k :: k in r.handles ==> k in o.handles && r.handles[k] == o.handles[k]
  {
  }

  /** `abort_manager`. */
  function AbortManager(o: Orchestrator): (r: Orchestrator)
    ensures ManagerId() !in r.handles && r.handles.Keys == o.handles.Keys - {ManagerId()}
    ensures r.state == o.state && r.spawned == o.spawned
  {
    o.(handles := o.handles - {ManagerId()})
  }

  /** Aborting the manager leaves every other handle as it was. */
  lemma AbortManagerFrame(o: Orchestrator)
    ensures var r := AbortManager(o);
      forall k :: k in r.handles ==> k in o.handles && r.handles[k] == o.handles[k]
  {
  }

  const BriefingTitle: string := "## State Briefing (you are replacing the previous manager)\n\n"
  const NoHistory: string := "No task history recorded.\n"
  const HistoryTitle: string := "### Task History\n"

  function ReasonLine(reason: string): string {
    "**Reason for replacement:** " + reason + "\n\n"
  }

  function GenerationLine(generation: nat): string {
    "**Manager generation:** " + NatToString(generation) + "\n"
  }

  function DevelopersLine(count: nat): string {
    "**Active developers:** " + NatToString(count) + "\n\n"
  }

  /** One line of the task history. */
  function RecordLine(r: TaskRecord): string {
    "- [" + IdDisplay(r.agent) + "] " + StatusDebug(r.status) + ": " + r.summary + "\n"
  }

  /** The lines of every record of a log, in log order. */
  function HistoryLines(log: seq<TaskRecord>): string {
    if log == [] then "" else RecordLine(log[0]) + HistoryLines(log[1..])
  }

  function BriefingHeader(reason: string, st: RuntimeState): string {
    BriefingTitle + ReasonLine(reason) + GenerationLine(st.managerGeneration) + DevelopersLine(st.developerCount)
  }

  /** `build_manager_briefing`. */
  function BuildManagerBriefing(reason: string, st: RuntimeState): (b: string)
    ensures |BriefingHeader(reason, st)| < |b| && b[..|BriefingHeader(reason, st)|] == BriefingHeader(reason, st)
  {
    BriefingHeader(reason, st)
    + if st.taskLog == [] then NoHistory else HistoryTitle + HistoryLines(st.taskLog)
  }

  /** `handle_relieve_manager`. The generation counter is a `u32`; its
      increment wraps around as in a release build. */
  function HandleRelieveManager(o: Orchestrator, reason: string, now: int, managerPrompt: string): (r: Orchestrator)
    ensures CooldownBlocks(o, now) ==> r == o
    ensures !CooldownBlocks(o, now) ==>
      && r.state == o.state.(managerGeneration := (o.state.managerGeneration + 1) % U32Modulus, lastRelieve := Some(now))
      && r.handles.Keys == o.handles.Keys + {ManagerId()}
      && r.handles[ManagerId()].serial == o.spawned
  {
    if CooldownBlocks(o, now) then o
    else
      var o1 := AbortManager(o);
      var o2 := o1.(state := o1.state.(
        managerGeneration := (o1.state.managerGeneration + 1) % U32Modulus,
        lastRelieve := Some(now)));
      var briefing := BuildManagerBriefing(reason, o2.state);
      SpawnAgent(o2, ManagerId(), managerPrompt + "\n\n" + briefing)
  }

  function Record(o: Orchestrator, agent: AgentId, status: TaskStatus, summary: string): Orchestrator {
    o.(state := o.state.(taskLog := o.state.taskLog + [TaskRecord(agent, status, summary)]))
  }

  /** One arm of the `match` in `run`. */
  function ProcessCommand(o: Orchestrator, cmd: RuntimeCommand, now: int, p: Prompts): (r: Orchestrator)
    ensures r.state.taskLog == o.state.taskLog + CommandRecords(cmd)
    ensures !cmd.SetCrewSize? ==> r.state.developerCount == o.state.developerCount
  {
    match cmd
    case SetCrewSize(count) => HandleCrewSize(o, count, p.developer)
    case RelieveManager(reason) => HandleRelieveManager(o, reason, now, p.manager)
    case TaskUpdate(agent, status, summary) => Record(o, agent, status, summary)
  }

  /** The command loop of `run`, over the commands received in order. */
  function Run(o: Orchestrator, cmds: seq<TimedCommand>, p: Prompts): (r: Orchestrator)
    decreases |cmds|
    ensures r.state.taskLog == o.state.taskLog + UpdateRecords(cmds)
  {
    if cmds == [] then
      assert o.state.taskLog + [] == o.state.taskLog;
      o
    else
      var o1 := ProcessCommand(o, cmds[0].cmd, cmds[0].now, p);
      AppendAssoc(o.state.taskLog, CommandRecords(cmds[0].cmd), UpdateRecords(cmds[1..]));
      Run(o1, cmds[1..], p)
  }

  lemma AppendAssoc<T>(a: seq<T>, b: seq<T>, c: seq<T>)
    ensures (a + b) + c == a + (b + c)
  {
  }

  /** `run` as a whole: a fresh runtime, the initial spawn, then the commands. */
  function Orchestrate(p: Prompts, cmds: seq<TimedCommand>): (r: Orchestrator)
    ensures r.state.taskLog == UpdateRecords(cmds)
  {
    Run(SpawnInitialAgents(New(), p), cmds, p)
  }

  /** The record a command adds to the log: one for a task update, none otherwise. */
  function CommandRecords(cmd: RuntimeCommand): seq<TaskRecord> {
    match cmd
    case TaskUpdate(agent, status, summary) => [TaskRecord(agent, status, summary)]
    case _ => []
  }

  /** The records the `TaskUpdate` commands of a sequence carry, in order. */
  function UpdateRecords(cmds: seq<TimedCommand>): seq<TaskRecord> {
    if cmds == [] then [] else CommandRecords(cmds[0].cmd) + UpdateRecords(cmds[1..])
  }

  // ---------------------------------------------------------------- start-up

  /** After the initial spawn, handles exist exactly for the manager, the
      architect, the scorer and `developer-0`, each with its role's prompt,
      and the state is that of a fresh runtime. */
  lemma InitialFleet(p: Prompts)
    ensures var o := SpawnInitialAgents(New(), p);
      && o.handles.Keys == {ManagerId(), ArchitectId(), ScorerId(), NewDeveloper(0)}
      && o.handles[ManagerId()].systemPrompt == p.manager
      && o.handles[ArchitectId()].systemPrompt == p.architect
      && o.handles[ScorerId()].systemPrompt == p.scorer
      && o.handles[NewDeveloper(0)].systemPrompt == p.developer
      && o.state == New().state
      && ValidOrchestrator(o) && Fleet(o)
  {
    var o0 := New();
    assert InitialRoles[..2] == [Manager, Architect];
    assert InitialRoles[..2][..1] == [Manager];
    assert [Manager][..0] == [];
    assert SpawnSingletons(o0, InitialRoles, p)
      == SpawnAgent(SpawnAgent(SpawnAgent(o0, ManagerId(), p.manager), ArchitectId(), p.architect), ScorerId(), p.scorer);
    DeveloperIdsExtend(0, 0);
    DeveloperIdsEmpty(0, 0);
  }

  // ---------------------------------------------------------------- crew size

  /** The effect of `spawn_developers(from, to)`: handles for exactly the
      developers `from` .. `to-1` are added, each a fresh task and numbered in
      increasing index order; every other handle and the state are untouched. */
  lemma {:induction false} SpawnDevelopersEffect(o: Orchestrator, from: U8, to: U8, prompt: string)
    requires from <= to
    decreases (to as int) - (from as int)
    ensures var r := SpawnDevelopers(o, from, to, prompt);
      && r.state == o.state
      && r.spawned == o.spawned + (to - from)
      && r.handles.Keys == o.handles.Keys + DeveloperIds(from, to)
      && (forall id :: id in o.handles && id !in DeveloperIds(from, to) ==> r.handles[id] == o.handles[id])
      && (forall i :: from <= i < to ==>
            r.handles[NewDeveloper(i)] == Handle(o.spawned + (i - from), NewDeveloper(i), prompt))
  {
    if from == to {
      DeveloperIdsEmpty(from, to);
    } else {
      var o1 := SpawnAgent(o, NewDeveloper(from), prompt);
      SpawnDevelopersEffect(o1, from + 1, to, prompt);
      DeveloperIdsSplit(from, from + 1, to);
      DeveloperIdsExtend(from, from);
      DeveloperIdsEmpty(from, from);
      DeveloperIdsMembership(NewDeveloper(from), from + 1, to);
    }
  }

  /** After `handle_crew_size(n)` the crew size is `clamp(n, 1, 3)`. */
  lemma CrewSizeClamped(o: Orchestrator, count: U8, prompt: string)
    ensures HandleCrewSize(o, count, prompt).state.developerCount == Clamp(count)
  {
  }

  /** A resize to the current size changes nothing. */
  lemma CrewSizeSameIsNoop(o: Orchestrator, count: U8, prompt: string)
    requires Clamp(count) == o.state.developerCount
    ensures HandleCrewSize(o, count, prompt) == o
  {
  }

  /** Resizing the crew touches only developer handles and the crew size:
      the manager, architect and scorer handles, the task log, the generation
      and the time of the last relief stay as they were. */
  lemma CrewSizeFrame(o: Orchestrator, count: U8, prompt: string)
    ensures var r := HandleCrewSize(o, count, prompt);
      && r.state.taskLog == o.state.taskLog
      && r.state.managerGeneration == o.state.managerGeneration
      && r.state.lastRelieve == o.state.lastRelieve
      && (forall id: AgentId :: id.role != Developer ==>
            (id in r.handles <==> id in o.handles) && (id in o.handles ==> r.handles[id] == o.handles[id]))
  {
    var c, current := Clamp(count), o.state.developerCount;
    if c > current {
      SpawnDevelopersEffect(o, current, c, prompt);
      forall id: AgentId | id.role != Developer ensures id !in DeveloperIds(current, c) {
        DeveloperIdsMembership(id, current, c);
      }
    } else if c < current {
      forall id: AgentId | id.role != Developer ensures id !in DeveloperIds(c, current) {
        DeveloperIdsMembership(id, c, current);
      }
    }
  }

  /** Growing the crew from c to k spawns `developer-c` .. `developer-(k-1)`,
      fresh and in increasing index order, and keeps every existing handle;
      shrinking it removes exactly `developer-k` .. `developer-(c-1)`. */
  lemma CrewSizeDevelopers(o: Orchestrator, count: U8, prompt: string)
    ensures var r, c, current := HandleCrewSize(o, count, prompt), Clamp(count), o.state.developerCount;
      && (c > current ==>
            && r.handles.Keys == o.handles.Keys + DeveloperIds(current, c)
            && r.spawned == o.spawned + (c - current)
            && (forall i :: current <= i < c ==>
                  r.handles[NewDeveloper(i)] == Handle(o.spawned + (i - current), NewDeveloper(i), prompt))
            && (forall id :: id in o.handles && id !in DeveloperIds(current, c) ==> r.handles[id] == o.handles[id]))
      && (c < current ==> r.handles == o.handles - DeveloperIds(c, current) && r.spawned == o.spawned)
  {
    var c, current := Clamp(count), o.state.developerCount;
    if c > current {
      SpawnDevelopersEffect(o, current, c, prompt);
    }
  }

  /** Resizing keeps the fleet whole: afterwards the developers are exactly
      `developer-0` .. `developer-(clamp(n)-1)`, beside the three singletons. */
  lemma CrewSizePreservesFleet(o: Orchestrator, count: U8, prompt: string)
    requires ValidOrchestrator(o) && Fleet(o)
    ensures ValidOrchestrator(HandleCrewSize(o, count, prompt))
    ensures Fleet(HandleCrewSize(o, count, prompt))
  {
    var r, c, current := HandleCrewSize(o, count, prompt), Clamp(count), o.state.developerCount;
    var core := {ManagerId(), ArchitectId(), ScorerId()};
    if c > current {
      SpawnDevelopersEffect(o, current, c, prompt);
      DeveloperIdsSplit(0, current, c);
      forall id | id in r.handles ensures r.handles[id].agent == id && r.handles[id].serial < r.spawned {
        DeveloperIdsMembership(id, current, c);
        if id in DeveloperIds(current, c) {
          assert id == NewDeveloper(id.index.value);
        }
      }
    } else if c < current {
      DeveloperIdsSplit(0, c, current);
      forall id | id in core ensures id !in DeveloperIds(c, current) {
        DeveloperIdsMembership(id, c, current);
      }
      assert r.handles.Keys == o.handles.Keys - DeveloperIds(c, current);
    }
  }

  // ---------------------------------------------------------------- manager relief

  /** A relief inside the cooldown changes nothing. */
  lemma ReliefDuringCooldownIgnored(o: Orchestrator, reason: string, now: int, managerPrompt: string)
    requires CooldownBlocks(o, now)
    ensures HandleRelieveManager(o, reason, now, managerPrompt) == o
  {
  }

  /** The cooldown is over once 60 s have elapsed: a relief exactly 60 s after
      the previous one is accepted, as is the first relief of all. */
  lemma CooldownBoundary(o: Orchestrator, now: int)
    ensures o.state.lastRelieve == None ==> !CooldownBlocks(o, now)
    ensures o.state.lastRelieve.Some? && now >= o.state.lastRelieve.value + RelieveCooldown ==> !CooldownBlocks(o, now)
    ensures o.state.lastRelieve.Some? && o.state.lastRelieve.value <= now < o.state.lastRelieve.value + RelieveCooldown ==> CooldownBlocks(o, now)
  {
  }

  /** An accepted relief bumps the generation by one (modulo 2^32), records
      the time, replaces the manager by a fresh task briefed with the new
      state, and leaves every other handle, the crew size and the log alone. */
  lemma ReliefAccepted(o: Orchestrator, reason: string, now: int, managerPrompt: string)
    requires !CooldownBlocks(o, now)
    ensures var r := HandleRelieveManager(o, reason, now, managerPrompt);
      && r.state.managerGeneration == (o.state.managerGeneration + 1) % U32Modulus
      && (o.state.managerGeneration < U32Modulus - 1 ==> r.state.managerGeneration == o.state.managerGeneration + 1)
      && r.state.lastRelieve == Some(now)
      && r.state.developerCount == o.state.developerCount
      && r.state.taskLog == o.state.taskLog
      && r.handles.Keys == o.handles.Keys + {ManagerId()}
      && r.handles[ManagerId()] == Handle(o.spawned, ManagerId(),
           managerPrompt + "\n\n" + BuildManagerBriefing(reason, r.state))
      && (forall id :: id in o.handles && id != ManagerId() ==> r.handles[id] == o.handles[id])
  {
  }

  /** The replacement manager is a new task: its handle differs from the one it replaces. */
  lemma ReliefReplacesManager(o: Orchestrator, reason: string, now: int, managerPrompt: string)
    requires ValidOrchestrator(o) && ManagerId() in o.handles && !CooldownBlocks(o, now)
    ensures var r := HandleRelieveManager(o, reason, now, managerPrompt);
      ManagerId() in r.handles && r.handles[ManagerId()] != o.handles[ManagerId()]
  {
    ReliefAccepted(o, reason, now, managerPrompt);
  }

  /** A second RELIEVE less than 60 s after an accepted one has no effect. */
  lemma SecondReliefWithinCooldownIgnored(o: Orchestrator, reason1: string, t1: int,
                                          reason2: string, t2: int, managerPrompt: string)
    requires !CooldownBlocks(o, t1)
    requires t1 <= t2 < t1 + RelieveCooldown
    ensures var r1 := HandleRelieveManager(o, reason1, t1, managerPrompt);
      HandleRelieveManager(r1, reason2, t2, managerPrompt) == r1
  {
    ReliefAccepted(o, reason1, t1, managerPrompt);
  }

  lemma ReliefPreservesFleet(o: Orchestrator, reason: string, now: int, managerPrompt: string)
    requires ValidOrchestrator(o) && Fleet(o)
    ensures ValidOrchestrator(HandleRelieveManager(o, reason, now, managerPrompt))
    ensures Fleet(HandleRelieveManager(o, reason, now, managerPrompt))
  {
    if !CooldownBlocks(o, now) {
      ReliefAccepted(o, reason, now, managerPrompt);
    }
  }

  // ---------------------------------------------------------------- briefing

  lemma {:induction false} HistoryLinesAppend(a: seq<TaskRecord>, b: seq<TaskRecord>)
    ensures HistoryLines(a + b) == HistoryLines(a) + HistoryLines(b)
  {
    if a == [] {
      assert a + b == b;
    } else {
      assert (a + b)[1..] == a[1..] + b;
      HistoryLinesAppend(a[1..], b);
    }
  }

  /** Adding a record to a log adds its line to the history. */
  lemma HistoryLinesSnoc(log: seq<TaskRecord>, k: nat)
    requires k < |log|
    ensures HistoryLines(log[..k + 1]) == HistoryLines(log[..k]) + RecordLine(log[k])
  {
    assert log[..k + 1] == log[..k] + [log[k]];
    HistoryLinesAppend(log[..k], [log[k]]);
    assert HistoryLines([log[k]]) == RecordLine(log[k]);
  }

  /** The history of a log is one line per record: those of the records
      before `i`, the line of record `i`, then those after it. */
  lemma HistoryLinesAt(log: seq<TaskRecord>, i: nat)
    requires i < |log|
    ensures HistoryLines(log) == HistoryLines(log[..i]) + RecordLine(log[i]) + HistoryLines(log[i + 1..])
  {
    assert log == log[..i] + log[i..];
    HistoryLinesAppend(log[..i], log[i..]);
    assert log[i..][1..] == log[i + 1..];
  }

  /** The briefing names the reason, the generation and the crew size. */
  lemma BriefingMentionsState(reason: string, st: RuntimeState)
    ensures var b := BuildManagerBriefing(reason, st);
      && Contains(b, ReasonLine(reason))
      && Contains(b, GenerationLine(st.managerGeneration))
      && Contains(b, DevelopersLine(st.developerCount))
  {
    var tail := if st.taskLog == [] then NoHistory else HistoryTitle + HistoryLines(st.taskLog);
    var t, rl, gl, dl := BriefingTitle, ReasonLine(reason), GenerationLine(st.managerGeneration), DevelopersLine(st.developerCount);
    OccursInConcat(t, rl, gl);
    OccursBefore(t + rl + gl, dl, rl, |t|);
    OccursBefore(t + rl + gl + dl, tail, rl, |t|);
    OccursInConcat(t + rl, gl, dl);
    OccursBefore(t + rl + gl + dl, tail, gl, |t + rl|);
    OccursInConcat(t + rl + gl, dl, tail);
  }

  /** An empty log is reported as such, and only an empty one. */
  lemma BriefingEmptyLog(reason: string, st: RuntimeState)
    ensures var b := BuildManagerBriefing(reason, st);
      && (st.taskLog == [] ==> b == BriefingHeader(reason, st) + NoHistory)
      && (st.taskLog != [] ==> b == BriefingHeader(reason, st) + HistoryTitle + HistoryLines(st.taskLog))
  {
  }

  /** Within the history, the line of record `i` starts after the lines of
      the records before it, and that of a later record `j` after it. */
  lemma HistoryLinesInOrder(log: seq<TaskRecord>, i: nat, j: nat)
    requires i < j < |log|
    ensures OccursAt(HistoryLines(log), RecordLine(log[i]), |HistoryLines(log[..i])|)
    ensures OccursAt(HistoryLines(log), RecordLine(log[j]), |HistoryLines(log[..j])|)
    ensures |HistoryLines(log[..i])| + |RecordLine(log[i])| <= |HistoryLines(log[..j])|
  {
    HistoryLineOccurs(log, i);
    HistoryLineOccurs(log, j);
    var pre := log[..j];
    assert pre[..i] == log[..i] && pre[i] == log[i];
    HistoryLinesAt(pre, i);
  }

  /** The history sits at a fixed offset in the briefing of a non-empty log. */
  lemma BriefingHistoryOffset(reason: string, st: RuntimeState, x: string, p: int)
    requires st.taskLog != [] && OccursAt(HistoryLines(st.taskLog), x, p)
    ensures OccursAt(BuildManagerBriefing(reason, st), x, |BriefingHeader(reason, st)| + |HistoryTitle| + p)
  {
    OccursAfter(HistoryTitle, HistoryLines(st.taskLog), x, p);
    OccursAfter(BriefingHeader(reason, st), HistoryTitle + HistoryLines(st.taskLog), x, |HistoryTitle| + p);
  }

  /** Where the line of record `i` starts in the briefing: after the
      header, the history title and the lines of the records before it. */
  function RecordLineStart(reason: string, st: RuntimeState, i: nat): nat
    requires i <= |st.taskLog|
  {
    |BriefingHeader(reason, st)| + |HistoryTitle| + |HistoryLines(st.taskLog[..i])|
  }

  /** Every record of the log has its line in the briefing. */
  lemma BriefingListsEveryRecord(reason: string, st: RuntimeState, i: nat)
    requires i < |st.taskLog|
    ensures OccursAt(BuildManagerBriefing(reason, st), RecordLine(st.taskLog[i]), RecordLineStart(reason, st, i))
  {
    HistoryLineOccurs(st.taskLog, i);
    BriefingHistoryOffset(reason, st, RecordLine(st.taskLog[i]), |HistoryLines(st.taskLog[..i])|);
  }

  /** The line of record `i` follows the lines of the records before it. */
  lemma HistoryLineOccurs(log: seq<TaskRecord>, i: nat)
    requires i < |log|
    ensures OccursAt(HistoryLines(log), RecordLine(log[i]), |HistoryLines(log[..i])|)
  {
    HistoryLinesAt(log, i);
    OccursInConcat(HistoryLines(log[..i]), RecordLine(log[i]), HistoryLines(log[i + 1..]));
  }

  /** The lines of two records appear in the order of the records in the log,
      without overlapping. */
  lemma BriefingKeepsLogOrder(reason: string, st: RuntimeState, i: nat, j: nat)
    requires i < j < |st.taskLog|
    ensures RecordLineStart(reason, st, i) + |RecordLine(st.taskLog[i])| <= RecordLineStart(reason, st, j)
  {
    HistoryLinesInOrder(st.taskLog, i, j);
  }

  /** A task update adds exactly its own line at the end of a non-empty history. */
  lemma BriefingAfterTaskUpdate(reason: string, st: RuntimeState, rec: TaskRecord)
    requires st.taskLog != []
    ensures BuildManagerBriefing(reason, st.(taskLog := st.taskLog + [rec]))
         == BuildManagerBriefing(reason, st) + RecordLine(rec)
  {
    var st2 := st.(taskLog := st.taskLog + [rec]);
    HistoryLinesAppend(st.taskLog, [rec]);
    assert HistoryLines([rec]) == RecordLine(rec);
    var h, t, l, r := BriefingHeader(reason, st), HistoryTitle, HistoryLines(st.taskLog), RecordLine(rec);
    assert BriefingHeader(reason, st2) == h;
    AppendRegroup(h, t, l, r);
  }

  /** Regrouping four strings appended in a row. */
  lemma AppendRegroup(h: string, t: string, l: string, r: string)
    ensures h + (t + (l + r)) == (h + (t + l)) + r
  {
  }

  // ---------------------------------------------------------------- task log and command loop

  /** A task update appends exactly one record at the end of the log and changes nothing else. */
  lemma TaskUpdateAppends(o: Orchestrator, agent: AgentId, status: TaskStatus, summary: string, now: int, p: Prompts)
    ensures var r := ProcessCommand(o, TaskUpdate(agent, status, summary), now, p);
      && r.state.taskLog == o.state.taskLog + [TaskRecord(agent, status, summary)]
      && r.state.developerCount == o.state.developerCount
      && r.state.managerGeneration == o.state.managerGeneration
      && r.state.lastRelieve == o.state.lastRelieve
      && r.handles == o.handles && r.spawned == o.spawned
  {
  }

  /** Each command adds its own records, if any, at the end of the log. */
  lemma ProcessCommandLog(o: Orchestrator, cmd: RuntimeCommand, now: int, p: Prompts)
    ensures ProcessCommand(o, cmd, now, p).state.taskLog == o.state.taskLog + CommandRecords(cmd)
  {
    match cmd
    case SetCrewSize(count) => CrewSizeFrame(o, count, p.developer);
    case RelieveManager(reason) =>
    case TaskUpdate(agent, status, summary) =>
  }

  /** Over any sequence of commands the log is only ever appended to: it ends
      as the old log followed by the records of the task updates, in order. */
  lemma {:induction false} RunLogAppendOnly(o: Orchestrator, cmds: seq<TimedCommand>, p: Prompts)
    ensures Run(o, cmds, p).state.taskLog == o.state.taskLog + UpdateRecords(cmds)
    decreases |cmds|
  {
    if cmds == [] {
      assert o.state.taskLog + [] == o.state.taskLog;
    } else {
      var o1 := ProcessCommand(o, cmds[0].cmd, cmds[0].now, p);
      ProcessCommandLog(o, cmds[0].cmd, cmds[0].now, p);
      RunLogAppendOnly(o1, cmds[1..], p);
      var log, c, rest := o.state.taskLog, CommandRecords(cmds[0].cmd), UpdateRecords(cmds[1..]);
      assert (log + c) + rest == log + (c + rest);
    }
  }

  /** Without task updates among the commands there is nothing to record. */
  lemma {:induction false} NoUpdatesNoRecords(cmds: seq<TimedCommand>)
    requires forall i :: 0 <= i < |cmds| ==> !cmds[i].cmd.TaskUpdate?
    ensures UpdateRecords(cmds) == []
    decreases |cmds|
  {
    if cmds != [] {
      assert forall i :: 0 <= i < |cmds[1..]| ==> cmds[1..][i] == cmds[i + 1];
      NoUpdatesNoRecords(cmds[1..]);
    }
  }

  /** Every command keeps the fleet whole and the crew size within [1,3]. */
  lemma {:induction false} RunPreservesFleet(o: Orchestrator, cmds: seq<TimedCommand>, p: Prompts)
    requires ValidOrchestrator(o) && Fleet(o)
    ensures ValidOrchestrator(Run(o, cmds, p)) && Fleet(Run(o, cmds, p))
    decreases |cmds|
  {
    if cmds != [] {
      var now := cmds[0].now;
      match cmds[0].cmd {
        case SetCrewSize(count) => CrewSizePreservesFleet(o, count, p.developer);
        case RelieveManager(reason) => ReliefPreservesFleet(o, reason, now, p.manager);
        case TaskUpdate(agent, status, summary) =>
      }
      RunPreservesFleet(ProcessCommand(o, cmds[0].cmd, now, p), cmds[1..], p);
    }
  }

  /** Whatever commands arrive, the runtime keeps exactly one manager,
      architect and scorer and between one and three developers in
      contiguous slots from 0, and its log holds exactly the updates sent. */
  lemma OrchestrateInvariant(p: Prompts, cmds: seq<TimedCommand>)
    ensures var o := Orchestrate(p, cmds);
      && 1 <= o.state.developerCount <= 3
      && o.handles.Keys == {ManagerId(), ArchitectId(), ScorerId()} + DeveloperIds(0, o.state.developerCount)
      && o.state.taskLog == UpdateRecords(cmds)
  {
    InitialFleet(p);
    RunPreservesFleet(SpawnInitialAgents(New(), p), cmds, p);
    RunLogAppendOnly(SpawnInitialAgents(New(), p), cmds, p);
  }
}
