/** `OrchestratorRuntime` of src/runtime.rs: the object whose methods update
    the runtime state and the handle map in place. Every method is proved to
    take the runtime from its old state to the one the corresponding function
    of `RuntimeModel` gives, so the properties proved there hold of it. */
module Runtime {
  import opened Wrappers
  import opened Primitives
  import opened Roles
  import opened RuntimeModel

  class OrchestratorRuntime {
    var state: RuntimeState
    var agentHandles: map<AgentId, Handle>
    /** The number of agent tasks spawned so far. */
    var spawned: nat
    /** The role prompts every spawn draws on. */
    const prompts: Prompts

    /** The runtime as a value. */
    function Model(): Orchestrator
      reads this
    {
      Orchestrator(state, agentHandles, spawned)
    }

    /** `OrchestratorRuntime::new`. */
    constructor (prompts: Prompts)
      ensures Model() == RuntimeModel.New()
      ensures this.prompts == prompts
    {
      state := RuntimeState(1, [], 0, None);
      agentHandles := map[];
      spawned := 0;
      this.prompts := prompts;
    }

    /** `spawn_agent`. */
    method SpawnAgent(id: AgentId, systemPrompt: string)
      modifies this
      ensures Model() == RuntimeModel.SpawnAgent(old(Model()), id, systemPrompt)
    {
      agentHandles := agentHandles[id := Handle(spawned, id, systemPrompt)];
      spawned := spawned + 1;
    }

    /** `spawn_initial_agents`. */
    method SpawnInitialAgents()
      modifies this
      ensures Model() == RuntimeModel.SpawnInitialAgents(old(Model()), prompts)
    {
      var roles := InitialRoles;
      for k := 0 to |roles|
        invariant Model() == SpawnSingletons(old(Model()), roles[..k], prompts)
      {
        assert roles[..k + 1][..k] == roles[..k];
        SpawnAgent(NewSingleton(roles[k]), SystemPrompt(prompts, roles[k]));
      }
      assert roles[..|roles|] == roles;
      SpawnAgent(NewDeveloper(0), prompts.developer);
    }

    /** `handle_crew_size`. */
    method HandleCrewSize(count: U8)
      modifies this
      ensures Model() == RuntimeModel.HandleCrewSize(old(Model()), count, prompts.developer)
    {
      var c := Clamp(count);
      var current := state.developerCount;
      if c == current {
        return;
      }
      if c > current {
        SpawnDevelopers(current, c);
      } else {
        KillDevelopers(c, current);
      }
      state := state.(developerCount := c);
    }

    /** `spawn_developers(from, to)`. */
    method SpawnDevelopers(from: U8, to: U8)
      modifies this
      ensures Model() == RuntimeModel.SpawnDevelopers(old(Model()), from, to, prompts.developer)
    {
      var i: U8 := from;
      while i < to
        invariant from <= i
        invariant RuntimeModel.SpawnDevelopers(Model(), i, to, prompts.developer)
               == RuntimeModel.SpawnDevelopers(old(Model()), from, to, prompts.developer)
        decreases (to as int) - (i as int)
      {
        SpawnAgent(NewDeveloper(i), prompts.developer);
        i := i + 1;
      }
    }

    /** `kill_developers(from, to)`: removes the handles in increasing index order. */
    method KillDevelopers(from: U8, to: U8)
      modifies this
      ensures Model() == RuntimeModel.KillDevelopers(old(Model()), from, to)
    {
      var i: int := from;
      DeveloperIdsEmpty(from, from);
      while i < to
        invariant from <= i && (i <= to || i == from)
        invariant agentHandles == old(agentHandles) - DeveloperIds(from, i)
        invariant state == old(state) && spawned == old(spawned)
        decreases (to as int) - (i as int)
      {
        DeveloperIdsExtend(from, i);
        agentHandles := agentHandles - {NewDeveloper(i)};
        i := i + 1;
      }
      if to < from {
        DeveloperIdsEmpty(from, to);
      }
      assert DeveloperIds(from, i) == DeveloperIds(from, to);
    }

    /** `abort_manager`. */
    method AbortManager()
      modifies this
      ensures Model() == RuntimeModel.AbortManager(old(Model()))
    {
      agentHandles := agentHandles - {ManagerId()};
    }

    /** `handle_relieve_manager`, handled at clock reading `now`. */
    method HandleRelieveManager(reason: string, now: int)
      modifies this
      ensures Model() == RuntimeModel.HandleRelieveManager(old(Model()), reason, now, prompts.manager)
    {
      if state.lastRelieve.Some? && Elapsed(state.lastRelieve.value, now) < RelieveCooldown {
        return;
      }
      AbortManager();
      state := state.(managerGeneration := (state.managerGeneration + 1) % U32Modulus, lastRelieve := Some(now));
      var briefing := BuildManagerBriefing(reason);
      SpawnAgent(ManagerId(), prompts.manager + "\n\n" + briefing);
    }

    /** `build_manager_briefing`: the header, then the history line by line. */
    method BuildManagerBriefing(reason: string) returns (briefing: string)
      ensures briefing == RuntimeModel.BuildManagerBriefing(reason, state)
    {
      briefing := BriefingTitle;
      briefing := briefing + ReasonLine(reason);
      briefing := briefing + GenerationLine(state.managerGeneration);
      briefing := briefing + DevelopersLine(state.developerCount);
      assert briefing == BriefingHeader(reason, state);
      var log := state.taskLog;
      if log == [] {
        briefing := briefing + NoHistory;
      } else {
        briefing := briefing + HistoryTitle;
        var history := "";
        for k := 0 to |log|
          invariant history == HistoryLines(log[..k])
        {
          HistoryLinesSnoc(log, k);
          history := history + RecordLine(log[k]);
        }
        assert log[..|log|] == log;
        briefing := briefing + history;
      }
    }

    /** One arm of the command loop of `run`. */
    method ProcessCommand(cmd: RuntimeCommand, now: int)
      modifies this
      ensures Model() == RuntimeModel.ProcessCommand(old(Model()), cmd, now, prompts)
    {
      match cmd
      case SetCrewSize(count) => HandleCrewSize(count);
      case RelieveManager(reason) => HandleRelieveManager(reason, now);
      case TaskUpdate(agent, status, summary) =>
        state := state.(taskLog := state.taskLog + [TaskRecord(agent, status, summary)]);
    }

    /** `run`: the initial spawn, then each command in the order received. */
    method Run(commands: seq<TimedCommand>)
      modifies this
      ensures Model() == RuntimeModel.Run(RuntimeModel.SpawnInitialAgents(old(Model()), prompts), commands, prompts)
    {
      SpawnInitialAgents();
      ghost var start := Model();
      for k := 0 to |commands|
        invariant RuntimeModel.Run(Model(), commands[k..], prompts) == RuntimeModel.Run(start, commands, prompts)
      {
        assert commands[k..][1..] == commands[k + 1..];
        ProcessCommand(commands[k].cmd, commands[k].now);
      }
    }
  }

  /** A runtime created and run over any commands keeps the invariant fleet
      and a log of exactly the task updates it was sent. */
  method Orchestrate(prompts: Prompts, commands: seq<TimedCommand>) returns (rt: OrchestratorRuntime)
    ensures rt.Model() == RuntimeModel.Orchestrate(prompts, commands)
    ensures Fleet(rt.Model()) && ValidOrchestrator(rt.Model())
    ensures rt.state.taskLog == UpdateRecords(commands)
  {
    rt := new OrchestratorRuntime(prompts);
    rt.Run(commands);
    OrchestrateInvariant(prompts, commands);
    InitialFleet(prompts);
    RunPreservesFleet(RuntimeModel.SpawnInitialAgents(RuntimeModel.New(), prompts), commands, prompts);
  }
}
