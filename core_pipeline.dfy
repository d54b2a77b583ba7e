/** The stage ladder's runner: each stage narrows the tools the agent is offered, hands it the
    stage's prompt and lets it work until it concludes; the stage's answer is kept under the
    stage's name. */
module CorePipeline {
  import opened Wrappers
  import opened Conversation
  import opened SeqUtil
  import AE = AgentExecution
  import Reg = ToolRegistry

  const StageIterations := 5
  const NotImplemented := "Subclasses must implement the execute method."

  /** The rule that replaces the agent's `_get_tools_definitions` for a stage: the named registry
      tools when a non-empty list is given, otherwise the agent's own tools and the whole registry. */
  function StageScope(registry: Reg.ToolRegistry, tools: Option<seq<string>>): (s: AE.Scope)
    ensures s.NamedTools? <==> tools.Some? && |tools.value| > 0
    ensures s.NamedTools? ==> s == AE.NamedTools(registry, tools.value)
    ensures s.OwnPlusRegistry? ==> s.reg == registry
  {
    if tools.Some? && |tools.value| > 0 then AE.NamedTools(registry, tools.value) else AE.OwnPlusRegistry(registry)
  }

  class BasePipeline {
    const agent: AE.AgentExecutor
    /** The global tool registry. */
    const registry: Reg.ToolRegistry
    /** `stages_results`: the answers by stage name, and the dict's key order. */
    var stagesResults: map<string, string>
    var stageOrder: seq<string>

    ghost predicate Valid()
      reads this, agent, agent.registry, registry, AE.ScopeObjects(agent.scope)
    {
      agent.Valid() && registry.Valid()
      && Distinct(stageOrder) && (forall n :: n in stagesResults <==> n in stageOrder)
    }

    constructor (agent: AE.AgentExecutor, registry: Reg.ToolRegistry)
      requires agent.Valid() && registry.Valid()
      ensures Valid()
      ensures this.agent == agent && this.registry == registry
      ensures stagesResults == map[] && stageOrder == []
    {
      this.agent := agent;
      this.registry := registry;
      stagesResults := map[];
      stageOrder := [];
    }

    /** `run_stage`: the stage's tool rule, one user message with the prompt, then the agent's loop
        on that history; the answer is stored under `name`, replacing an earlier one but keeping
        its place. An exception of the agent leaves the results as they were. */
    method RunStage(name: string, prompt: string, tools: Option<seq<string>>) returns (r: Result<string>)
      requires Valid()
      modifies this, agent
      ensures Valid()
      ensures agent.scope == StageScope(registry, tools)
      ensures tools.Some? && |tools.value| > 0 ==> agent.OfferedTools() == registry.GetDefinitionsByNames(tools.value)
      ensures !(tools.Some? && |tools.value| > 0) ==>
        agent.OfferedTools() == old(agent.toolsDefinitions) + registry.GetDefinitions(None)
      ensures (agent.State(), r) ==
        AE.Run(old(agent.ToolEnv()), agent.service, agent.OfferedTools(),
               AE.ExecState(old(agent.messages) + [UserMessage(prompt)], old(agent.requests), old(agent.invocations)),
               StageIterations)
      ensures r.Ok? ==> stagesResults == old(stagesResults)[name := r.value]
      ensures r.Ok? ==> stageOrder == if name in old(stagesResults) then old(stageOrder) else old(stageOrder) + [name]
      ensures r.Err? ==> stagesResults == old(stagesResults) && stageOrder == old(stageOrder)
      ensures agent.toolsRegistry == old(agent.toolsRegistry) && agent.toolsDefinitions == old(agent.toolsDefinitions)
    {
      agent.SetScope(StageScope(registry, tools));
      agent.AddUserMessage(prompt);
      r := agent.RunUntilComplete(StageIterations);
      if r.Ok? {
        Record(name, r.value);
      }
    }

    /** `self.stages_results[name] = result`: a new name goes to the end of the key order, a known
        one keeps its place. */
    method Record(name: string, answer: string)
      requires Valid()
      modifies this
      ensures Valid()
      ensures stagesResults == old(stagesResults)[name := answer]
      ensures stageOrder == if name in old(stagesResults) then old(stageOrder) else old(stageOrder) + [name]
    {
      if name !in stagesResults {
        stageOrder := stageOrder + [name];
      }
      stagesResults := stagesResults[name := answer];
    }

    /** `execute` of the base class: subclasses define the ladder. */
    method Execute() returns (r: Result<map<string, string>>)
      ensures r.Err? && r.error == NotImplemented
    {
      r := Err(NotImplemented);
    }
  }
}
