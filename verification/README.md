# CoderAI3.0 project planner: a verified functional model

The repository is a project-planning assistant. A user names a project and picks
a template ("e-commerce", "ai" or "other"). The server answers with a checklist of
seven tasks. The user reviews the list and creates a project from it. After that,
the user tracks each task's status and priority, while four fixed agents
(Developer, Researcher, Tester, Bug Fixer) show what they are working on and
which local model they are bound to. The project and the agent registry are
mirrored into browser storage after every change.

This Dafny project models the logic under that user interface as pure functions
over immutable datatypes:

- `Types`: the `Task`, `Project` and `Agent` records. The string unions for task
  status, priority and agent status become closed enumerations. Each keeps its
  exact storage string, with a parser back from strings. `Task` is recursive:
  it has optional subtasks that are tasks themselves. The agent status
  `'completed'` is the variant `Finished`, so that it does not clash with the
  task status `Completed`.
- `TaskGenerator`: the server's catalog lookup. It returns three bootstrap tasks
  followed by four template tasks. Any unknown key falls back to "other".
- `ProjectContext`: the optional current project and the operations `addTask`,
  `updateTaskStatus`, `updateTaskPriority` and `setProject`. It also holds the
  effect that writes the "currentProject" storage slot or removes it.
- `AgentContext`: the four-agent seed, `updateAgentStatus`, and
  `connectAgentToOllama`. The outcome of the endpoint probe is a parameter.
  This module also holds the effect that writes the "agents" slot.
- `Storage`: storage as a map from slot names to typed snapshots.
- `Dashboard`: the completed/total count, the progress percentage as an exact
  `real`, and the number of active agents.
- `ProjectCreation`: the input guard, the four-way classification of transport
  errors, project construction and the review list's expansion toggle.
- `TaskList`: feedback drafts, the expansion toggle, and the ten-at-a-time
  pagination of the visible task slice.
- `Expansion`: the toggle of an expanded-id list, which both views share.
- `Session`: both providers on one store. Project calls and agent calls commute.
- `Wrappers` and `Decimal`: `Option`/`Result`, the id-matching list rebuild
  `MapWhere`, and decimal numerals. Numerals are used for task ids, for the
  millisecond project id and for the "Server error: <status>" message.

## Points where the code is looser than its own types and controls

The model follows what the code does in each case below:

- `Task` declares nested `subtasks` (src/types.ts:20), and the task list shows
  status and priority controls for subtasks (src/components/TaskList.tsx:121,
  130). The update operations, however, map only the top-level list
  (src/contexts/ProjectContext.tsx:29-31, 39-41). An update by an id that no
  top-level task carries therefore changes nothing, even when a subtask
  carries it (`ProjectContext.UnknownIdNoOp`,
  `ProjectContext.SubtaskStatusUpdateIgnored`). Generated tasks never carry
  subtasks (server.js:24-50), so this path only matters for stored or added
  projects.
- `connectAgentToOllama` is declared to return `void` (src/types.ts:34). The
  implementation returns `true` after a 200 response and `false` after any
  other response, and throws a fixed error when the probe throws
  (src/contexts/AgentContext.tsx:41-54). The model returns that outcome.
- Nothing in the code checks the relations that `parentTaskId` and `subtasks`
  suggest (src/types.ts:19-20): ids unique at every depth, non-empty subtask
  lists, a parent id naming the enclosing task. The model does not assume
  them either.
- `submodules` is an ordered array (src/types.ts:28) and is modelled as
  `seq<string>`, order and repetitions included.

## Model

| member | source | states |
|---|---|---|
| Types.ParseTaskStatus | src/types.ts:16 | a string reads as a task status only if it is one of "pending", "in-progress", "completed", and then exactly that status |
| Types.ParsePriority | src/types.ts:17 | a string reads as a priority only if it is "low", "medium" or "high", and then exactly that priority |
| Types.ParseAgentStatus | src/types.ts:7 | a string reads as an agent status only if it is "idle", "working" or "completed", and then exactly that status |
| Types.TaskStatusCodeRoundTrip | src/types.ts:16 | writing a task status as its string and reading it back gives the same status; a string parses to a status iff it is that status's string |
| Types.PriorityCodeRoundTrip | src/types.ts:17 | the same round trip and iff for priorities |
| Types.AgentStatusCodeRoundTrip | src/types.ts:7 | the same round trip and iff for agent statuses |
| Wrappers.MapWhere | src/contexts/ProjectContext.tsx:29-31 | rebuilding a list by id keeps its length and order, edits exactly the matching entries and leaves the others equal |
| Wrappers.MapWhereNoMatch | src/contexts/ProjectContext.tsx:29-31 | when no entry matches, the rebuilt list equals the original |
| TaskGenerator.GenerateTasks | server.js:23-52 | the result has exactly 7 tasks: the 3 common tasks followed by the template's 4 tasks; every task is pending with no subtasks and no parent |
| TaskGenerator.TemplateTasks | server.js:30-51 | the template part has 4 tasks with ids "4".."7"; "e-commerce" selects the e-commerce list, "ai" the AI list, and every other key the "other" list |
| TaskGenerator.GeneratedIdsArePositions | server.js:25-47 | the task at position i has id i+1 written in decimal ("1".."7") |
| TaskGenerator.GeneratedIdsDistinct | server.js:25-47 | ids are pairwise distinct within one generated list |
| TaskGenerator.UnknownTemplateFallsBack | server.js:51 | any template other than "e-commerce" or "ai" yields exactly the "other" list |
| TaskGenerator.NameIrrelevant | server.js:23-52 | the result does not depend on the project name |
| TaskGenerator.CommonTasksShape | server.js:24-28 | the first three tasks are the three bootstrap descriptions, assigned to Developer in submodule Setup, with priorities high, medium, high |
| TaskGenerator.ECommerceScenario | server.js:32 | for "e-commerce", task 4 has id "4", is "Design database schema", priority high, submodule Database |
| TaskGenerator.AiScenario | server.js:37-38 | for "ai", task 4 has id "4", is "Set up machine learning environment", priority high, submodule Setup |
| ProjectContext.AddTask | src/contexts/ProjectContext.tsx:20-25 | without a project nothing happens; otherwise the list grows by one, the old tasks are a prefix, the new task is last, and the id, name, path and submodules are unchanged |
| ProjectContext.UpdateTaskStatus | src/contexts/ProjectContext.tsx:27-35 | the length and order are kept; every field except status is kept; each top-level task with the given id gets the new status and the others keep theirs; the project header is unchanged; no-op without a project |
| ProjectContext.UpdateTaskPriority | src/contexts/ProjectContext.tsx:37-45 | the same as the status update, for the priority field |
| ProjectContext.NoProjectNoOp | src/contexts/ProjectContext.tsx:20-45 | with no current project, all three operations leave the state empty |
| ProjectContext.UnknownIdNoOp | src/contexts/ProjectContext.tsx:29-31 | an id carried by no top-level task leaves the project equal to what it was, whether or not a subtask carries that id |
| ProjectContext.SubtaskStatusUpdateIgnored | src/components/TaskList.tsx:121 | the status control of a subtask calls an update that matches only top-level ids, so the subtask keeps its status |
| ProjectContext.StatusUpdateIdempotent | src/contexts/ProjectContext.tsx:29-31 | applying the same status update twice equals applying it once |
| ProjectContext.PriorityUpdateIdempotent | src/contexts/ProjectContext.tsx:39-41 | applying the same priority update twice equals applying it once |
| ProjectContext.StatusPriorityCommute | src/contexts/ProjectContext.tsx:27-45 | a status update and a priority update commute |
| ProjectContext.Persist | src/contexts/ProjectContext.tsx:12-18 | the "currentProject" slot holds the project when there is one and is removed otherwise; no other slot changes |
| ProjectContext.Load | src/contexts/ProjectContext.tsx:6-9 | a project is loaded exactly when the "currentProject" slot holds one, and it is the stored project; an absent slot loads as no project |
| ProjectContext.LoadAfterPersist | src/contexts/ProjectContext.tsx:7-18 | loading after the effect gives back exactly the state that was saved |
| ProjectContext.Mount | src/contexts/ProjectContext.tsx:7-18 | after mounting, the state is what storage held and the slot mirrors it; only the project slot is touched |
| ProjectContext.Dispatch | src/contexts/ProjectContext.tsx:12-49 | each call yields the operation's result and touches only the project slot; a present project is mirrored in the slot; with no project, a call other than setting one changes neither state nor storage |
| ProjectContext.DispatchKeepsMirrored | src/contexts/ProjectContext.tsx:12-18 | if the slot mirrors the state before a call, it mirrors the state after it |
| AgentContext.SeedShape | src/contexts/AgentContext.tsx:10-18 | the seed has four agents with ids "1".."4", named Developer, Researcher, Tester, Bug Fixer, all idle with empty current task and no model |
| AgentContext.UpdateAgentStatus | src/contexts/AgentContext.tsx:24-30 | the length is kept; the matching agent gets the new status and current task, and keeps its id, name, role and model; every other agent is unchanged |
| AgentContext.UnknownAgentNoOp | src/contexts/AgentContext.tsx:26-28 | an unknown agent id leaves the registry unchanged |
| AgentContext.ConnectAgentToOllama | src/contexts/AgentContext.tsx:32-55 | returns true iff the probe answered 200 and then binds the matching agent's model; returns false iff another status came back; raises the fixed error iff the probe threw; only the 200 case changes the registry, and the length never changes |
| AgentContext.ConnectScenario | src/contexts/AgentContext.tsx:41-54 | connecting seed agent "1" to "llama3:latest" binds it on a 200 and otherwise leaves it unbound with no success reported |
| AgentContext.Persist | src/contexts/AgentContext.tsx:20-22 | the "agents" slot holds the current registry; no other slot changes |
| AgentContext.Load | src/contexts/AgentContext.tsx:10-18 | the stored registry is used when the slot exists, the seed otherwise |
| AgentContext.LoadAfterPersist | src/contexts/AgentContext.tsx:10-22 | loading after the effect gives back the saved registry |
| AgentContext.Mount | src/contexts/AgentContext.tsx:10-22 | after mounting, the registry is what storage held (or the seed) and the slot mirrors it |
| AgentContext.Dispatch | src/contexts/AgentContext.tsx:20-55 | a status update yields the updated registry; a connection yields the connection's registry, and one whose probe did not answer 200 changes neither registry nor storage; after a status update or a binding connection the slot mirrors the registry; every call keeps the registry's length and touches only the agents slot |
| AgentContext.DispatchKeepsMirrored | src/contexts/AgentContext.tsx:20-55 | over any sequence of calls the slot keeps mirroring the registry and the registry keeps its size |
| Dashboard.CompletedCount | src/components/Dashboard.tsx:15-16 | the count is at most the number of tasks; it equals that number iff every top-level task is completed, and is 0 iff none is |
| Dashboard.Progress | src/components/Dashboard.tsx:17 | 0 <= progress <= 100; it is 0 with no tasks; it is 100 iff there is a task and all top-level tasks are completed; it is 0 iff none is completed; with tasks it is the percentage of the completed count over the task count |
| Dashboard.Percent | src/components/Dashboard.tsx:17 | the percentage times the total equals 100 times the completed count; it lies in 0..100, is 100 iff all are completed and 0 iff none is |
| Dashboard.PercentMonotone | src/components/Dashboard.tsx:17 | for the same total, more completed tasks never give a lower percentage |
| Dashboard.ProgressMonotone | src/components/Dashboard.tsx:15-17 | if every completed task stays completed, the progress value does not drop |
| Dashboard.ActiveAgents | src/components/Dashboard.tsx:81 | the count is at most the number of agents; it is 0 iff all are idle, and equals the number of agents iff none is idle |
| Dashboard.ActiveAgentsAppend | src/components/Dashboard.tsx:81 | the active-agent count of a concatenation is the sum of the counts |
| Dashboard.ActiveAgentsSingle | src/components/Dashboard.tsx:81 | one agent counts as active exactly when its status is not idle |
| Dashboard.Summarize | src/components/Dashboard.tsx:11-17 | nothing is computed without a project; otherwise the completed figure is the completed count, the total is the number of tasks, the progress is the progress percentage, the active figure is the active-agent count, and the agent count is the number of agents |
| Dashboard.CompletedCountMonotone | src/components/Dashboard.tsx:15 | if every completed task stays completed, the completed count does not drop |
| Dashboard.CompletedCountAppend | src/components/Dashboard.tsx:15 | the completed count of a concatenation is the sum of the counts |
| Expansion.RemoveAll | src/components/ProjectCreation.tsx:74 | the id no longer occurs, every other id's membership is kept, and the length drops iff the id was present |
| Decimal.Decimal | src/components/ProjectCreation.tsx:60 | the numeral is a non-empty digit string that reads back, most significant digit first, as the number itself; it starts with '0' only for 0, and is one character long exactly for values below 10 |
| Decimal.DecimalOfValue | src/components/ProjectCreation.tsx:60 | a digit string without leading zeros is the numeral of the number it stands for |
| Decimal.DecimalInjective | src/components/ProjectCreation.tsx:60 | different numbers have different numerals |
| Expansion.RemoveAllAppend | src/components/ProjectCreation.tsx:74 | removal distributes over concatenation, so the remaining ids keep their order |
| Expansion.RemoveAbsent | src/components/ProjectCreation.tsx:74 | removing an absent id changes nothing |
| Expansion.Toggle | src/components/ProjectCreation.tsx:71-77 | the id is in the result iff it was not in the list; other ids keep their membership; an absent id is appended at the end after the unchanged list |
| Expansion.ToggleTwiceRestores | src/components/TaskList.tsx:38-40 | toggling an initially absent id twice restores the original list |
| ProjectCreation.Classify | src/components/ProjectCreation.tsx:25-36 | ECONNABORTED means timeout even when a response is present; otherwise a response means server error with its status; otherwise a sent request means no response; the unexpected case is exactly non-axios errors and axios errors with neither |
| ProjectCreation.Message | src/components/ProjectCreation.tsx:27-35 | a timeout shows "Request timed out. Please try again.", a server error "Server error: " followed by the status in decimal, a missing response "No response from server. Please check your network connection.", and anything else "An unexpected error occurred. Please try again."; the message is never empty |
| ProjectCreation.MessageInjective | src/components/ProjectCreation.tsx:27-35 | different failure kinds, and different server statuses, give different messages |
| ProjectCreation.RequestTasks | src/components/ProjectCreation.tsx:16-37 | a delivered response yields the generator's list for that name and template; a rejection yields its classified message |
| ProjectCreation.HandleGenerateTasks | src/components/ProjectCreation.tsx:39-56 | a missing name or template sets only the guard message; on success the review opens with the generated list and no error; on failure the message is shown and the list and review flag are kept |
| ProjectCreation.GuardSendsNothing | src/components/ProjectCreation.tsx:41-44 | with missing input the outcome does not depend on the transport, so no request is made |
| ProjectCreation.GenerateFromEmptyForm | src/components/ProjectCreation.tsx:9-14 | on the untouched form, generating only shows the guard message; no list is generated and the review stays closed |
| ProjectCreation.HandleCreateProject | src/components/ProjectCreation.tsx:58-69 | the project's id is the creation time in decimal, its name is the form's name, its path is the fixed root followed by the name, its tasks are exactly the generated list, its submodules are Setup, Frontend, Backend, Database; the review closes |
| ProjectCreation.ToggleTaskExpansion | src/components/ProjectCreation.tsx:71-77 | toggling flips the id's membership in the review's expanded list, keeps every other id's membership, appends an absent id at the end, and changes nothing else on the form |
| ProjectCreation.GenerateThenCreate | src/components/ProjectCreation.tsx:39-69 | generating then creating gives a project named as entered, holding the seven pending tasks of the chosen template |
| TaskList.Shown | src/components/TaskList.tsx:51 | the shown tasks are the first min(visibleTasks, length) top-level tasks, in order |
| TaskList.OffersLoadMore | src/components/TaskList.tsx:162 | the control is offered exactly when fewer tasks are shown than exist |
| TaskList.LoadMoreOfferedIffHidden | src/components/TaskList.tsx:162 | "Load More" is offered iff some task is hidden; otherwise all tasks are shown |
| TaskList.LoadMore | src/components/TaskList.tsx:44-46 | each press adds exactly 10 visible tasks and changes nothing else |
| TaskList.LoadMoreTimesCount | src/components/TaskList.tsx:9 | starting from 10, after k presses 10 * (k + 1) tasks may be shown |
| TaskList.LoadMoreExtends | src/components/TaskList.tsx:44-51 | a press only extends the shown prefix |
| TaskList.AllShownAfterEnoughPresses | src/components/TaskList.tsx:51-162 | after length / 10 presses every task is shown and the control disappears |
| TaskList.FeedbackChange | src/components/TaskList.tsx:26-28 | typing sets that task's draft and leaves every other task's draft and the rest of the view unchanged |
| TaskList.FeedbackSubmit | src/components/TaskList.tsx:30-34 | submitting resets only that task's draft to "" |
| TaskList.SubmitDiscardsDraft | src/components/TaskList.tsx:26-34 | typing then submitting leaves the same view as submitting alone |
| TaskList.FeedbackText | src/components/TaskList.tsx:145 | a task's box shows its stored draft, and "" when nothing was typed for it |
| TaskList.ToggleExpansion | src/components/TaskList.tsx:36-42 | toggling flips the id's membership in the expanded list, keeps every other id's membership, appends an absent id at the end, and changes nothing else in the view |
| TaskList.HasExpandControl | src/components/TaskList.tsx:87 | the expand control exists exactly when the task has at least one subtask |
| TaskList.ToggleFlipsSubtasks | src/components/TaskList.tsx:87-102 | the expand control exists only for tasks with non-empty subtasks; pressing it flips whether they are listed |
| Session.Mount | src/App.tsx:13-14 | both providers mounted on one store load their slots, leave both slots mirroring their state, and keep every other slot as it was |
| Session.ProjectStep | src/contexts/ProjectContext.tsx:12-45 | the project becomes the call's result and, when present, is mirrored in its slot; with no project, a call other than setting one changes nothing; the agents and every slot except the project slot are unchanged |
| Session.AgentStep | src/contexts/AgentContext.tsx:20-55 | the registry becomes the status update's or the connection's result; after a status update or a binding connection the agents slot mirrors the registry; a connection that does not bind changes nothing; the project and every slot except the agents slot are unchanged |
| Session.StepsCommute | src/contexts/ProjectContext.tsx:12-18 | a project call and an agent call give the same state in either order |
| Session.CompletingNeverLowersCount | src/components/Dashboard.tsx:15 | marking a task completed never lowers the completed count, and makes it positive when the id exists at top level |
| Session.AddingTaskCount | src/contexts/ProjectContext.tsx:22 | adding a task adds one to the completed count exactly when the new task is completed |
| Session.OneWorkingAgent | src/components/Dashboard.tsx:81 | from the seed, setting agent "1" to working makes exactly one agent active |

## Left out

- HTTP server setup: CORS, JSON body parsing, static files and the catch-all route (server.js:9-16, 56-66). These are transport plumbing; only the inner generator is modelled.
- Template keys that name members of `Object.prototype`, such as "constructor", in the lookup at server.js:51. In JavaScript they would not fall back to "other". The model treats every key other than "e-commerce" and "ai" as ordinary.
- The HTTP calls to the task endpoint and to the model endpoint. They become the `ProjectCreation.Transport` and `AgentContext.ProbeOutcome` parameters. The 10-second timeout, the request payloads and the fixed greeting prompt are not modelled. The HTTP client rejects non-2xx statuses by default, so in practice such a status reaches the model as `Threw`; `Responded` with a code other than 200 stands for another 2xx status.
- Browser storage and JSON serialization. Storage is a map of typed snapshots, and the source never validates what it parses. A slot holding a snapshot of the wrong kind loads as absent, whereas the source would parse whatever is there. An empty stored string is falsy in the source, so it loads like an absent slot: no project, or the seed agents (src/contexts/ProjectContext.tsx:9, src/contexts/AgentContext.tsx:12). The model has no raw strings in storage, so that case is the absent slot.
- The `as any` casts from form controls (src/components/TaskList.tsx:71, 80, 121, 130). The closed enumerations replace them, and the `Parse*` functions state which strings are accepted.
- `Date.now()`: the creation time is the parameter `now`. Numbers from 10^21 upward, which JavaScript prints in exponent form, are outside the decimal rendering; timestamps and HTTP statuses stay far below that.
- Floating-point rounding of the progress value, its `toFixed(0)` display and the CSS bar width. Progress is an exact rational.
- Logging, JSX rendering, icons and colour classes, the dashboard's message box, and `getStatusIcon`.
- src/components/AgentList.tsx: the per-agent "connecting" flags and the error banner around the asynchronous connect call. This is UI state.
- src/App.tsx beyond the nesting of the two providers.
- Concurrency between an in-flight probe and other calls. Calls are modelled as sequential; `Session.StepsCommute` shows that the order of a project call and an agent call does not matter.
- ProjectCreation.HandleGenerateTasks: a press and its response are one step on the form as it was at the press. In the source the error is cleared (src/components/ProjectCreation.tsx:40) before the request is awaited (:46); while it is pending the form can be edited and pressed again, and responses are applied in the order they arrive. The pending state and that race are not modelled, so `ProjectCreation.GenerateThenCreate` describes the two presses made one after the other.
