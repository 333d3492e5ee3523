/** The task list's view state: per-task feedback drafts, expanded task ids
    and the number of top-level tasks shown, which grows ten at a time. */
module TaskList {
  import opened Types
  import Expansion

  /** How many tasks are shown at first, and how many each "Load More" adds. */
  const PageSize: nat := 10

  datatype View = View(feedback: map<string, string>, expanded: seq<string>, visibleTasks: nat)

  const Initial: View := View(map[], [], PageSize)

  function Min(a: nat, b: nat): nat {
    if a <= b then a else b
  }

  /** The tasks rendered: the first `visibleTasks` top-level tasks, in order. */
  function Shown(tasks: seq<Task>, v: View): (r: seq<Task>)
    ensures |r| == Min(v.visibleTasks, |tasks|)
    ensures forall i | 0 <= i < |r| :: r[i] == tasks[i]
  {
    tasks[..Min(v.visibleTasks, |tasks|)]
  }

  /** The "Load More" control is shown while tasks remain hidden. */
  function OffersLoadMore(tasks: seq<Task>, v: View): (b: bool)
    ensures b <==> |Shown(tasks, v)| < |tasks|
  {
    v.visibleTasks < |tasks|
  }

  /** Load more is offered exactly when some task is not shown. */
  lemma LoadMoreOfferedIffHidden(tasks: seq<Task>, v: View)
    ensures OffersLoadMore(tasks, v) <==> |Shown(tasks, v)| < |tasks|
    ensures !OffersLoadMore(tasks, v) <==> Shown(tasks, v) == tasks
  {
  }

  function LoadMore(v: View): (r: View)
    ensures r.visibleTasks == v.visibleTasks + PageSize
    ensures r.feedback == v.feedback && r.expanded == v.expanded
  {
    v.(visibleTasks := v.visibleTasks + PageSize)
  }

  /** `k` presses of "Load More" from the initial view. */
  function LoadMoreTimes(k: nat): View {
    if k == 0 then Initial else LoadMore(LoadMoreTimes(k - 1))
  }

  /** After `k` presses, `10 * (k + 1)` tasks are allowed on screen. */
  lemma {:induction false} LoadMoreTimesCount(k: nat)
    ensures LoadMoreTimes(k).visibleTasks == PageSize * (k + 1)
  {
    if k > 0 {
      LoadMoreTimesCount(k - 1);
    }
  }

  /** Pressing "Load More" only extends what is shown. */
  lemma LoadMoreExtends(tasks: seq<Task>, v: View)
    ensures var before := Shown(tasks, v);
      var after := Shown(tasks, LoadMore(v));
      |before| <= |after| && after[..|before|] == before
  {
  }

  /** `|tasks| / 10` presses are enough to show every task, after which the
      control disappears. */
  lemma AllShownAfterEnoughPresses(tasks: seq<Task>, k: nat)
    requires k >= |tasks| / PageSize
    ensures Shown(tasks, LoadMoreTimes(k)) == tasks
    ensures !OffersLoadMore(tasks, LoadMoreTimes(k))
  {
    LoadMoreTimesCount(k);
    assert |tasks| < PageSize * (|tasks| / PageSize + 1);
  }

  /** The draft shown in a task's feedback box; a missing entry reads as "". */
  function FeedbackText(v: View, taskId: string): (r: string)
    ensures taskId !in v.feedback ==> r == ""
    ensures taskId in v.feedback ==> r == v.feedback[taskId]
  {
    if taskId in v.feedback then v.feedback[taskId] else ""
  }

  /** Typing into one task's feedback box. */
  function FeedbackChange(v: View, taskId: string, text: string): (r: View)
    ensures FeedbackText(r, taskId) == text
    ensures forall id | id != taskId :: FeedbackText(r, id) == FeedbackText(v, id)
    ensures r.expanded == v.expanded && r.visibleTasks == v.visibleTasks
  {
    v.(feedback := v.feedback[taskId := text])
  }

  /** Sending one task's feedback clears only that task's box. */
  function FeedbackSubmit(v: View, taskId: string): (r: View)
    ensures FeedbackText(r, taskId) == ""
    ensures forall id | id != taskId :: FeedbackText(r, id) == FeedbackText(v, id)
    ensures r.expanded == v.expanded && r.visibleTasks == v.visibleTasks
  {
    v.(feedback := v.feedback[taskId := ""])
  }

  /** A submit after typing leaves the same view as a submit alone. */
  lemma SubmitDiscardsDraft(v: View, taskId: string, text: string)
    ensures FeedbackSubmit(FeedbackChange(v, taskId, text), taskId) == FeedbackSubmit(v, taskId)
  {
  }

  function ToggleExpansion(v: View, taskId: string): (r: View)
    ensures taskId in r.expanded <==> taskId !in v.expanded
    ensures forall y | y != taskId :: y in r.expanded <==> y in v.expanded
    ensures taskId !in v.expanded ==> r.expanded == v.expanded + [taskId]
    ensures r.feedback == v.feedback && r.visibleTasks == v.visibleTasks
  {
    v.(expanded := Expansion.Toggle(v.expanded, taskId))
  }

  /** The expand control exists only for a task with a non-empty subtask list. */
  function HasExpandControl(t: Task): (b: bool)
    ensures b <==> |SubtasksOf(t)| > 0
  {
    t.subtasks.Some? && |t.subtasks.value| > 0
  }

  /** Subtasks are listed for an expandable task whose id is expanded. */
  predicate ShowsSubtasks(v: View, t: Task) {
    HasExpandControl(t) && t.id in v.expanded
  }

  /** Pressing a task's expand control flips whether its subtasks are listed;
      a task without subtasks never lists any. */
  lemma ToggleFlipsSubtasks(v: View, t: Task)
    ensures HasExpandControl(t) ==>
      (ShowsSubtasks(ToggleExpansion(v, t.id), t) <==> !ShowsSubtasks(v, t))
    ensures !HasExpandControl(t) ==> !ShowsSubtasks(v, t)
  {
  }
}
