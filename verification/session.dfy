/** The application as one state: the current project, the agent registry and
    the storage both providers write to. Project calls and agent calls touch
    disjoint slots, so their order does not matter. */
module Session {
  import opened Wrappers
  import opened Types
  import opened Storage
  import ProjectContext
  import AgentContext
  import Dashboard

  datatype App = App(project: Option<Project>, agents: seq<Agent>, store: Store)

  /** Both providers mounted on the same storage; no other slot is touched. */
  function Mount(store: Store): (r: App)
    ensures r.project == ProjectContext.Load(store)
    ensures r.agents == AgentContext.Load(store)
    ensures ProjectContext.Mirrored(ProjectContext.Provider(r.project, r.store))
    ensures AgentContext.Mirrored(AgentContext.Provider(r.agents, r.store))
    ensures AgreeOutside(r.store, store, {ProjectSlot, AgentsSlot})
  {
    var p := ProjectContext.Mount(store);
    var a := AgentContext.Mount(p.store);
    App(p.project, a.agents, a.store)
  }

  /** A project call on the application: the project becomes the call's
      result and the agent side is left alone. */
  function ProjectStep(app: App, action: ProjectContext.Action): (r: App)
    ensures r.project == ProjectContext.Apply(app.project, action)
    ensures r.project.Some? ==> ProjectContext.Mirrored(ProjectContext.Provider(r.project, r.store))
    ensures r.agents == app.agents
    ensures AgreeOutside(r.store, app.store, {ProjectSlot})
    ensures app.project.None? && !action.SetProject? ==> r == app
  {
    var p := ProjectContext.Dispatch(ProjectContext.Provider(app.project, app.store), action);
    App(p.project, app.agents, p.store)
  }

  /** An agent call on the application: the registry becomes the call's
      result and the project side is left alone. */
  function AgentStep(app: App, action: AgentContext.Action): (r: App)
    ensures action.UpdateStatusCall? ==>
      r.agents == AgentContext.UpdateAgentStatus(app.agents, action.agentId, action.status, action.currentTask)
    ensures action.ConnectCall? ==>
      r.agents == AgentContext.ConnectAgentToOllama(app.agents, action.agentId, action.modelName, action.probe).agents
    ensures r.project == app.project
    ensures AgreeOutside(r.store, app.store, {AgentsSlot})
    ensures action.UpdateStatusCall? || action.probe == AgentContext.Responded(200) ==>
      AgentContext.Mirrored(AgentContext.Provider(r.agents, r.store))
    ensures action.ConnectCall? && action.probe != AgentContext.Responded(200) ==> r == app
  {
    var a := AgentContext.Dispatch(AgentContext.Provider(app.agents, app.store), action);
    App(app.project, a.agents, a.store)
  }

  /** A project call and an agent call give the same application state in
      either order. */
  lemma StepsCommute(app: App, pa: ProjectContext.Action, aa: AgentContext.Action)
    ensures ProjectStep(AgentStep(app, aa), pa) == AgentStep(ProjectStep(app, pa), aa)
  {
  }

  /** Marking a task completed never lowers the completed count, and marking
      an existing top-level task completed makes the count positive. */
  lemma CompletingNeverLowersCount(project: Project, taskId: string)
    ensures var after := ProjectContext.UpdateTaskStatus(Some(project), taskId, Completed);
      Dashboard.CompletedCount(project.tasks) <= Dashboard.CompletedCount(after.value.tasks)
    ensures var after := ProjectContext.UpdateTaskStatus(Some(project), taskId, Completed);
      HasTopLevelId(project.tasks, taskId) ==> Dashboard.CompletedCount(after.value.tasks) > 0
  {
    var after := ProjectContext.UpdateTaskStatus(Some(project), taskId, Completed);
    Dashboard.CompletedCountMonotone(project.tasks, after.value.tasks);
  }

  /** Adding a task adds one to the completed count exactly when the new
      task is completed. */
  lemma AddingTaskCount(app: App, task: Task)
    requires app.project.Some?
    ensures var after := ProjectStep(app, ProjectContext.AddTaskCall(task));
      Dashboard.CompletedCount(after.project.value.tasks)
        == Dashboard.CompletedCount(app.project.value.tasks) + (if task.status == Completed then 1 else 0)
  {
    var after := ProjectStep(app, ProjectContext.AddTaskCall(task));
    assert after.project.value.tasks == app.project.value.tasks + [task];
    Dashboard.CompletedCountAppend(app.project.value.tasks, [task]);
  }

  /** Giving one seeded agent work makes exactly one agent active. */
  lemma OneWorkingAgent(store: Store)
    requires AgentsSlot !in store
    ensures var app := AgentStep(Mount(store), AgentContext.UpdateStatusCall("1", Working, "Set up project structure"));
      Dashboard.ActiveAgents(app.agents) == 1
  {
    var app := AgentStep(Mount(store), AgentContext.UpdateStatusCall("1", Working, "Set up project structure"));
    var agents := app.agents;
    assert agents[0].status == Working;
    assert agents[1..] == AgentContext.Seed[1..];
    assert Dashboard.ActiveAgents(agents[1..]) == 0;
  }
}
