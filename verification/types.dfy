/** The records of the application: tasks, projects and agents. The string
    unions of the source become closed enumerations, and each enumeration
    keeps the exact string the source stores, so that a value read back from
    a form control or from storage maps to exactly one variant. */
module Types {
  import opened Wrappers

  /** A task's progress: `'pending' | 'in-progress' | 'completed'`. */
  datatype TaskStatus = Pending | InProgress | Completed

  /** A task's urgency: `'low' | 'medium' | 'high'`. */
  datatype Priority = Low | Medium | High

  /** An agent's activity: `'idle' | 'working' | 'completed'`. */
  datatype AgentStatus = Idle | Working | Finished

  function TaskStatusCode(s: TaskStatus): string {
    match s
    case Pending => "pending"
    case InProgress => "in-progress"
    case Completed => "completed"
  }

  function PriorityCode(p: Priority): string {
    match p
    case Low => "low"
    case Medium => "medium"
    case High => "high"
  }

  function AgentStatusCode(s: AgentStatus): string {
    match s
    case Idle => "idle"
    case Working => "working"
    case Finished => "completed"
  }

  /** Reads a task status back from its string; any other string is rejected. */
  function ParseTaskStatus(code: string): (r: Option<TaskStatus>)
    ensures r.Some? ==> TaskStatusCode(r.value) == code
    ensures r.None? ==> code != "pending" && code != "in-progress" && code != "completed"
  {
    if code == "pending" then Some(Pending)
    else if code == "in-progress" then Some(InProgress)
    else if code == "completed" then Some(Completed)
    else None
  }

  function ParsePriority(code: string): (r: Option<Priority>)
    ensures r.Some? ==> PriorityCode(r.value) == code
    ensures r.None? ==> code != "low" && code != "medium" && code != "high"
  {
    if code == "low" then Some(Low)
    else if code == "medium" then Some(Medium)
    else if code == "high" then Some(High)
    else None
  }

  function ParseAgentStatus(code: string): (r: Option<AgentStatus>)
    ensures r.Some? ==> AgentStatusCode(r.value) == code
    ensures r.None? ==> code != "idle" && code != "working" && code != "completed"
  {
    if code == "idle" then Some(Idle)
    else if code == "working" then Some(Working)
    else if code == "completed" then Some(Finished)
    else None
  }

  /** Writing a status as its string and reading it back gives the same
      status, and a string parses to a status exactly when it is that
      status's string: the three strings are the only values a status takes. */
  lemma TaskStatusCodeRoundTrip(s: TaskStatus, code: string)
    ensures ParseTaskStatus(TaskStatusCode(s)) == Some(s)
    ensures ParseTaskStatus(code) == Some(s) <==> TaskStatusCode(s) == code
  {
  }

  lemma PriorityCodeRoundTrip(p: Priority, code: string)
    ensures ParsePriority(PriorityCode(p)) == Some(p)
    ensures ParsePriority(code) == Some(p) <==> PriorityCode(p) == code
  {
  }

  lemma AgentStatusCodeRoundTrip(s: AgentStatus, code: string)
    ensures ParseAgentStatus(AgentStatusCode(s)) == Some(s)
    ensures ParseAgentStatus(code) == Some(s) <==> AgentStatusCode(s) == code
  {
  }

  /** A task; `parentTaskId` and `subtasks` are optional, and subtasks are
      tasks themselves. */
  datatype Task = Task(
    id: string,
    description: string,
    assignedTo: string,
    status: TaskStatus,
    priority: Priority,
    submodule: string,
    parentTaskId: Option<string>,
    subtasks: Option<seq<Task>>)

  /** A project: header fields, the ordered top-level tasks and an ordered
      list of submodule labels. */
  datatype Project = Project(
    id: string,
    name: string,
    path: string,
    tasks: seq<Task>,
    submodules: seq<string>)

  /** A worker role, optionally bound to a model (`ollamaInstance`, "" when unbound). */
  datatype Agent = Agent(
    id: string,
    name: string,
    role: string,
    status: AgentStatus,
    currentTask: string,
    ollamaInstance: string)

  /** The subtasks of a task, treating a missing list as empty. */
  function SubtasksOf(t: Task): seq<Task> {
    match t.subtasks
    case None => []
    case Some(s) => s
  }

  predicate HasTopLevelId(tasks: seq<Task>, id: string) {
    exists i | 0 <= i < |tasks| :: tasks[i].id == id
  }
}
