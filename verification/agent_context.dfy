/** The agent registry: four fixed agents seeded when storage holds none,
    a status update, the model connection guarded by an endpoint probe, and
    the effect that mirrors the registry into the "agents" slot. The probe's
    result is a parameter of the model. */
module AgentContext {
  import opened Wrappers
  import opened Types
  import opened Storage

  function IdleAgent(id: string, name: string): Agent {
    Agent(id, name, name, Idle, "", "")
  }

  /** The registry used when storage holds none. */
  const Seed: seq<Agent> := [
    IdleAgent("1", "Developer"),
    IdleAgent("2", "Researcher"),
    IdleAgent("3", "Tester"),
    IdleAgent("4", "Bug Fixer")
  ]

  /** The seed has four idle, unbound agents with ids "1".."4". */
  lemma SeedShape()
    ensures |Seed| == 4
    ensures Seed[0].id == "1" && Seed[1].id == "2" && Seed[2].id == "3" && Seed[3].id == "4"
    ensures Seed[0].name == "Developer" && Seed[1].name == "Researcher"
    ensures Seed[2].name == "Tester" && Seed[3].name == "Bug Fixer"
    ensures forall i | 0 <= i < |Seed| ::
      Seed[i].status == Idle && Seed[i].currentTask == "" && Seed[i].ollamaInstance == ""
  {
  }

  /** Sets `status` and `currentTask` of every agent whose id is `agentId`. */
  function UpdateAgentStatus(agents: seq<Agent>, agentId: string, status: AgentStatus, currentTask: string): (r: seq<Agent>)
    ensures |r| == |agents|
    ensures forall i | 0 <= i < |agents| && agents[i].id == agentId ::
      && r[i].status == status && r[i].currentTask == currentTask
      && r[i].id == agents[i].id && r[i].name == agents[i].name
      && r[i].role == agents[i].role && r[i].ollamaInstance == agents[i].ollamaInstance
    ensures forall i | 0 <= i < |agents| && agents[i].id != agentId :: r[i] == agents[i]
  {
    MapWhere(agents, (a: Agent) => a.id == agentId, (a: Agent) => a.(status := status, currentTask := currentTask))
  }

  /** An unknown id leaves the registry unchanged. */
  lemma UnknownAgentNoOp(agents: seq<Agent>, agentId: string, status: AgentStatus, currentTask: string)
    requires forall i | 0 <= i < |agents| :: agents[i].id != agentId
    ensures UpdateAgentStatus(agents, agentId, status, currentTask) == agents
  {
    MapWhereNoMatch(agents, (a: Agent) => a.id == agentId, (a: Agent) => a.(status := status, currentTask := currentTask));
  }

  /** What the probe request produced: a response with a status code, or an
      exception (unreachable endpoint, unknown model, non-2xx status). */
  datatype ProbeOutcome = Responded(status: int) | Threw

  /** The message of the error raised when the probe throws. */
  const ConnectFailure: string :=
    "Failed to connect to Ollama. Please make sure Ollama is running and the model is available."

  /** The registry after the call, and what the call returned or raised. */
  datatype Connection = Connection(agents: seq<Agent>, outcome: Result<bool, string>)

  /** Binds the agent to `modelName` when the probe answers 200 and returns
      true; returns false on any other status; rethrows a fixed error when
      the probe throws. Only the 200 case changes the registry. */
  function ConnectAgentToOllama(agents: seq<Agent>, agentId: string, modelName: string, probe: ProbeOutcome): (r: Connection)
    ensures |r.agents| == |agents|
    ensures r.outcome == Success(true) <==> probe == Responded(200)
    ensures r.outcome == Success(false) <==> probe.Responded? && probe.status != 200
    ensures r.outcome.Failure? <==> probe.Threw?
    ensures r.outcome.Failure? ==> r.outcome.error == ConnectFailure
    ensures probe != Responded(200) ==> r.agents == agents
    ensures probe == Responded(200) ==>
      forall i | 0 <= i < |agents| ::
        r.agents[i] == (if agents[i].id == agentId then agents[i].(ollamaInstance := modelName) else agents[i])
  {
    match probe
    case Threw => Connection(agents, Failure(ConnectFailure))
    case Responded(code) =>
      if code == 200 then
        Connection(MapWhere(agents, (a: Agent) => a.id == agentId, (a: Agent) => a.(ollamaInstance := modelName)), Success(true))
      else Connection(agents, Success(false))
  }

  /** Connecting agent "1" of the seed to "llama3:latest": bound on success,
      still unbound and reporting failure otherwise. */
  lemma ConnectScenario(probe: ProbeOutcome)
    ensures var c := ConnectAgentToOllama(Seed, "1", "llama3:latest", probe);
      if probe == Responded(200) then c.agents[0].ollamaInstance == "llama3:latest" && c.outcome == Success(true)
      else c.agents[0].ollamaInstance == "" && c.outcome != Success(true)
  {
  }

  /** The persistence effect: the slot always holds the current registry. */
  function Persist(store: Store, agents: seq<Agent>): (r: Store)
    ensures AgentsSlot in r && r[AgentsSlot] == StoredAgents(agents)
    ensures AgreeOutside(r, store, {AgentsSlot})
  {
    store[AgentsSlot := StoredAgents(agents)]
  }

  /** The initial load: the stored registry, or the seed when the slot is absent. */
  function Load(store: Store): (r: seq<Agent>)
    ensures AgentsSlot in store && store[AgentsSlot].StoredAgents? ==> r == store[AgentsSlot].agents
    ensures AgentsSlot !in store ==> r == Seed
  {
    if AgentsSlot in store && store[AgentsSlot].StoredAgents? then store[AgentsSlot].agents else Seed
  }

  lemma LoadAfterPersist(store: Store, agents: seq<Agent>)
    ensures Load(Persist(store, agents)) == agents
  {
  }

  datatype Provider = Provider(agents: seq<Agent>, store: Store)

  predicate Mirrored(p: Provider) {
    AgentsSlot in p.store && p.store[AgentsSlot] == StoredAgents(p.agents)
  }

  /** The calls the provider exposes; a connection carries its probe's outcome. */
  datatype Action =
    | UpdateStatusCall(agentId: string, status: AgentStatus, currentTask: string)
    | ConnectCall(agentId: string, modelName: string, probe: ProbeOutcome)

  function Mount(store: Store): (r: Provider)
    ensures Mirrored(r)
    ensures r.agents == Load(store)
    ensures AgreeOutside(r.store, store, {AgentsSlot})
  {
    var agents := Load(store);
    Provider(agents, Persist(store, agents))
  }

  /** One call followed by the effect; a connection that does not bind
      leaves the provider as it was. */
  function Dispatch(p: Provider, a: Action): (r: Provider)
    ensures |r.agents| == |p.agents|
    ensures AgreeOutside(r.store, p.store, {AgentsSlot})
    ensures a.UpdateStatusCall? ==> Mirrored(r)
    ensures a.UpdateStatusCall? ==> r.agents == UpdateAgentStatus(p.agents, a.agentId, a.status, a.currentTask)
    ensures a.ConnectCall? ==> r.agents == ConnectAgentToOllama(p.agents, a.agentId, a.modelName, a.probe).agents
    ensures a.ConnectCall? && a.probe != Responded(200) ==> r == p
    ensures a.ConnectCall? && a.probe == Responded(200) ==> Mirrored(r)
  {
    match a
    case UpdateStatusCall(id, s, t) =>
      var agents := UpdateAgentStatus(p.agents, id, s, t);
      Provider(agents, Persist(p.store, agents))
    case ConnectCall(id, model, probe) =>
      var c := ConnectAgentToOllama(p.agents, id, model, probe);
      if c.outcome == Success(true) then Provider(c.agents, Persist(p.store, c.agents)) else p
  }

  /** Every call keeps the slot mirroring the registry, and the registry
      never changes size. */
  lemma {:induction false} DispatchKeepsMirrored(p: Provider, actions: seq<Action>)
    requires Mirrored(p)
    ensures Mirrored(DispatchAll(p, actions))
    ensures |DispatchAll(p, actions).agents| == |p.agents|
    decreases |actions|
  {
    if actions != [] {
      DispatchKeepsMirrored(Dispatch(p, actions[0]), actions[1..]);
    }
  }

  function DispatchAll(p: Provider, actions: seq<Action>): Provider
    decreases |actions|
  {
    if actions == [] then p else DispatchAll(Dispatch(p, actions[0]), actions[1..])
  }
}
