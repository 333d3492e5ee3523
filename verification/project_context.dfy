/** The current-project state holder: an optional project, three task
    operations that rebuild it immutably, and the effect that mirrors it into
    the "currentProject" storage slot after every change. Only top-level tasks
    are ever matched by id. */
module ProjectContext {
  import opened Wrappers
  import opened Types
  import opened Storage

  /** `null` when no project exists. */
  type State = Option<Project>

  /** `p` and `q` have the same id, name, path and submodules. */
  predicate SameHeader(p: Project, q: Project) {
    p.id == q.id && p.name == q.name && p.path == q.path && p.submodules == q.submodules
  }

  /** Appends `task` to the top-level list; no-op without a project. */
  function AddTask(state: State, task: Task): (r: State)
    ensures r.Some? <==> state.Some?
    ensures state.Some? ==>
      && SameHeader(r.value, state.value)
      && |r.value.tasks| == |state.value.tasks| + 1
      && r.value.tasks[..|state.value.tasks|] == state.value.tasks
      && r.value.tasks[|state.value.tasks|] == task
  {
    match state
    case None => None
    case Some(p) => Some(p.(tasks := p.tasks + [task]))
  }

  /** Sets the status of every top-level task whose id is `taskId`. */
  function UpdateTaskStatus(state: State, taskId: string, status: TaskStatus): (r: State)
    ensures r.Some? <==> state.Some?
    ensures state.Some? ==>
      var before := state.value.tasks;
      var after := r.value.tasks;
      && SameHeader(r.value, state.value)
      && |after| == |before|
      && (forall i | 0 <= i < |before| :: after[i].(status := before[i].status) == before[i])
      && (forall i | 0 <= i < |before| ::
            after[i].status == (if before[i].id == taskId then status else before[i].status))
  {
    match state
    case None => None
    case Some(p) =>
      Some(p.(tasks := MapWhere(p.tasks, (t: Task) => t.id == taskId, (t: Task) => t.(status := status))))
  }

  /** Sets the priority of every top-level task whose id is `taskId`. */
  function UpdateTaskPriority(state: State, taskId: string, priority: Priority): (r: State)
    ensures r.Some? <==> state.Some?
    ensures state.Some? ==>
      var before := state.value.tasks;
      var after := r.value.tasks;
      && SameHeader(r.value, state.value)
      && |after| == |before|
      && (forall i | 0 <= i < |before| :: after[i].(priority := before[i].priority) == before[i])
      && (forall i | 0 <= i < |before| ::
            after[i].priority == (if before[i].id == taskId then priority else before[i].priority))
  {
    match state
    case None => None
    case Some(p) =>
      Some(p.(tasks := MapWhere(p.tasks, (t: Task) => t.id == taskId, (t: Task) => t.(priority := priority))))
  }

  /** With no project, every operation leaves the state empty. */
  lemma NoProjectNoOp(task: Task, taskId: string, status: TaskStatus, priority: Priority)
    ensures AddTask(None, task) == None
    ensures UpdateTaskStatus(None, taskId, status) == None
    ensures UpdateTaskPriority(None, taskId, priority) == None
  {
  }

  /** An id that no top-level task carries changes nothing, whether or not
      some subtask carries it. */
  lemma {:induction false} UnknownIdNoOp(state: State, taskId: string, status: TaskStatus, priority: Priority)
    requires state.Some? ==> !HasTopLevelId(state.value.tasks, taskId)
    ensures UpdateTaskStatus(state, taskId, status) == state
    ensures UpdateTaskPriority(state, taskId, priority) == state
  {
    if state.Some? {
      var p := state.value;
      MapWhereNoMatch(p.tasks, (t: Task) => t.id == taskId, (t: Task) => t.(status := status));
      MapWhereNoMatch(p.tasks, (t: Task) => t.id == taskId, (t: Task) => t.(priority := priority));
      assert p.(tasks := p.tasks) == p;
    }
  }

  /** A project whose only task "1" has one subtask "1.1". */
  function SubtaskExample(): Project {
    var sub := Task("1.1", "Subtask", "Developer", Pending, Low, "Setup", Some("1"), None);
    var top := Task("1", "Task", "Developer", Pending, High, "Setup", None, Some([sub]));
    Project("p", "demo", "/home/project/AI Coder System/demo", [top], ["Setup"])
  }

  /** Updating a subtask by its id has no effect: the subtask stays pending,
      although the task list offers a status control for it. */
  lemma SubtaskStatusUpdateIgnored()
    ensures var after := UpdateTaskStatus(Some(SubtaskExample()), "1.1", Completed);
      && after == Some(SubtaskExample())
      && SubtasksOf(after.value.tasks[0])[0].status == Pending
  {
    UnknownIdNoOp(Some(SubtaskExample()), "1.1", Completed, Low);
  }

  /** Applying the same status update twice is the same as applying it once. */
  lemma StatusUpdateIdempotent(state: State, taskId: string, status: TaskStatus)
    ensures var once := UpdateTaskStatus(state, taskId, status);
      UpdateTaskStatus(once, taskId, status) == once
  {
    var once := UpdateTaskStatus(state, taskId, status);
    if once.Some? {
      var twice := UpdateTaskStatus(once, taskId, status);
      assert twice.value.tasks == once.value.tasks;
    }
  }

  lemma PriorityUpdateIdempotent(state: State, taskId: string, priority: Priority)
    ensures var once := UpdateTaskPriority(state, taskId, priority);
      UpdateTaskPriority(once, taskId, priority) == once
  {
    var once := UpdateTaskPriority(state, taskId, priority);
    if once.Some? {
      var twice := UpdateTaskPriority(once, taskId, priority);
      assert twice.value.tasks == once.value.tasks;
    }
  }

  /** Status and priority updates touch different fields and commute. */
  lemma StatusPriorityCommute(state: State, id1: string, status: TaskStatus, id2: string, priority: Priority)
    ensures UpdateTaskPriority(UpdateTaskStatus(state, id1, status), id2, priority)
         == UpdateTaskStatus(UpdateTaskPriority(state, id2, priority), id1, status)
  {
    var a := UpdateTaskPriority(UpdateTaskStatus(state, id1, status), id2, priority);
    var b := UpdateTaskStatus(UpdateTaskPriority(state, id2, priority), id1, status);
    if state.Some? {
      assert a.value.tasks == b.value.tasks;
    }
  }

  /** The persistence effect: writes the project into its slot, or removes
      the slot when there is no project. Other slots are untouched. */
  function Persist(store: Store, state: State): (r: Store)
    ensures state.Some? ==> ProjectSlot in r && r[ProjectSlot] == StoredProject(state.value)
    ensures state.None? ==> ProjectSlot !in r
    ensures AgreeOutside(r, store, {ProjectSlot})
  {
    match state
    case None => store - {ProjectSlot}
    case Some(p) => store[ProjectSlot := StoredProject(p)]
  }

  /** The initial load: the stored project, or none when the slot is absent. */
  function Load(store: Store): (r: State)
    ensures r.Some? ==> ProjectSlot in store && store[ProjectSlot] == StoredProject(r.value)
    ensures ProjectSlot !in store ==> r.None?
    ensures ProjectSlot in store && store[ProjectSlot].StoredProject? ==> r == Some(store[ProjectSlot].project)
  {
    if ProjectSlot in store && store[ProjectSlot].StoredProject? then Some(store[ProjectSlot].project) else None
  }

  /** Reading the slot back after the effect yields the state that was saved. */
  lemma LoadAfterPersist(store: Store, state: State)
    ensures Load(Persist(store, state)) == state
  {
  }

  /** The provider: the React state together with the storage it mirrors. */
  datatype Provider = Provider(project: State, store: Store)

  /** The slot holds the project when there is one and is absent otherwise. */
  predicate Mirrored(p: Provider) {
    match p.project
    case None => ProjectSlot !in p.store
    case Some(proj) => ProjectSlot in p.store && p.store[ProjectSlot] == StoredProject(proj)
  }

  /** The calls the provider exposes. */
  datatype Action =
    | SetProject(newProject: Project)
    | AddTaskCall(task: Task)
    | UpdateStatusCall(taskId: string, status: TaskStatus)
    | UpdatePriorityCall(taskId: string, priority: Priority)

  function Apply(state: State, a: Action): State {
    match a
    case SetProject(p) => Some(p)
    case AddTaskCall(t) => AddTask(state, t)
    case UpdateStatusCall(id, s) => UpdateTaskStatus(state, id, s)
    case UpdatePriorityCall(id, pr) => UpdateTaskPriority(state, id, pr)
  }

  /** Mounting: the state is loaded from storage, then the effect runs once. */
  function Mount(store: Store): (r: Provider)
    ensures Mirrored(r)
    ensures r.project == Load(store)
    ensures AgreeOutside(r.store, store, {ProjectSlot})
  {
    var s := Load(store);
    Provider(s, Persist(store, s))
  }

  /** One call followed by the effect. Without a project, only `SetProject`
      changes the state; the others do not call the setter, so no effect runs. */
  function Dispatch(p: Provider, a: Action): (r: Provider)
    ensures r.project == Apply(p.project, a)
    ensures AgreeOutside(r.store, p.store, {ProjectSlot})
    ensures r.project.Some? ==> Mirrored(r)
    ensures p.project.None? && !a.SetProject? ==> r == p
  {
    if p.project.None? && !a.SetProject? then p
    else
      var s := Apply(p.project, a);
      Provider(s, Persist(p.store, s))
  }

  /** Every call keeps the slot mirroring the state. */
  lemma DispatchKeepsMirrored(p: Provider, a: Action)
    requires Mirrored(p)
    ensures Mirrored(Dispatch(p, a))
  {
  }
}
