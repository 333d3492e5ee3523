/** The dashboard's figures: completed over total top-level tasks, the
    progress percentage (exact rational arithmetic) and the number of agents
    that are not idle. Nothing is computed without a current project. */
module Dashboard {
  import opened Wrappers
  import opened Types

  /** The number of top-level tasks whose status is completed. */
  function CompletedCount(tasks: seq<Task>): (n: nat)
    ensures n <= |tasks|
    ensures n == |tasks| <==> forall i | 0 <= i < |tasks| :: tasks[i].status == Completed
    ensures n == 0 <==> forall i | 0 <= i < |tasks| :: tasks[i].status != Completed
  {
    if tasks == [] then 0
    else (if tasks[0].status == Completed then 1 else 0) + CompletedCount(tasks[1..])
  }

  /** Percentage of completed top-level tasks, 0 for an empty list. */
  function Progress(tasks: seq<Task>): (p: real)
    ensures 0.0 <= p <= 100.0
    ensures |tasks| == 0 ==> p == 0.0
    ensures p == 100.0 <==> |tasks| > 0 && forall i | 0 <= i < |tasks| :: tasks[i].status == Completed
    ensures p == 0.0 <==> forall i | 0 <= i < |tasks| :: tasks[i].status != Completed
    ensures |tasks| > 0 ==> p == Percent(CompletedCount(tasks), |tasks|)
  {
    var completed, total := CompletedCount(tasks), |tasks|;
    if total > 0 then Percent(completed, total) else 0.0
  }

  /** `completed / total * 100` in exact arithmetic. */
  function Percent(completed: nat, total: nat): (p: real)
    requires 0 < total && completed <= total
    ensures p * (total as real) == 100.0 * (completed as real)
    ensures 0.0 <= p <= 100.0
    ensures p == 100.0 <==> completed == total
    ensures p == 0.0 <==> completed == 0
  {
    var q := completed as real / total as real;
    var t := total as real;
    assert q * t == completed as real;
    assert (q * 100.0) * t == 100.0 * (q * t);
    var p := q * 100.0;
    MulCancel(0.0, p, t);
    MulCancel(p, 100.0, t);
    p
  }

  /** A positive factor can be cancelled from both sides of `<=`. */
  lemma CancelFactor(x: real, y: real, t: real, xt: real, yt: real)
    requires t > 0.0 && x * t == xt && y * t == yt && xt <= yt
    ensures x <= y
  {
    assert (y - x) * t >= 0.0;
  }

  /** Multiplying by a positive factor keeps order and equality. */
  lemma MulCancel(x: real, y: real, t: real)
    requires t > 0.0
    ensures x * t <= y * t <==> x <= y
    ensures x * t == y * t <==> x == y
  {
    assert y * t - x * t == (y - x) * t;
  }

  /** The number of agents whose status is not idle. */
  function ActiveAgents(agents: seq<Agent>): (n: nat)
    ensures n <= |agents|
    ensures n == 0 <==> forall i | 0 <= i < |agents| :: agents[i].status == Idle
    ensures n == |agents| <==> forall i | 0 <= i < |agents| :: agents[i].status != Idle
  {
    if agents == [] then 0
    else (if agents[0].status != Idle then 1 else 0) + ActiveAgents(agents[1..])
  }

  /** The figures displayed for a project. */
  datatype Summary = Summary(completed: nat, total: nat, progress: real, active: nat, agentCount: nat)

  /** The dashboard renders nothing without a project. */
  function Summarize(project: Option<Project>, agents: seq<Agent>): (r: Option<Summary>)
    ensures r.None? <==> project.None?
    ensures r.Some? ==>
      && r.value.completed <= r.value.total == |project.value.tasks|
      && 0.0 <= r.value.progress <= 100.0
      && r.value.active <= r.value.agentCount == |agents|
    ensures r.Some? ==>
      && r.value.completed == CompletedCount(project.value.tasks)
      && r.value.progress == Progress(project.value.tasks)
      && r.value.active == ActiveAgents(agents)
  {
    match project
    case None => None
    case Some(p) =>
      Some(Summary(CompletedCount(p.tasks), |p.tasks|, Progress(p.tasks), ActiveAgents(agents), |agents|))
  }

  /** If every task completed in `before` is completed in `after` (same
      length), `after` has at least as many completed tasks. */
  lemma {:induction false} CompletedCountMonotone(before: seq<Task>, after: seq<Task>)
    requires |before| == |after|
    requires forall i | 0 <= i < |before| :: before[i].status == Completed ==> after[i].status == Completed
    ensures CompletedCount(before) <= CompletedCount(after)
    decreases |before|
  {
    if before != [] {
      CompletedCountMonotone(before[1..], after[1..]);
    }
  }

  /** Counting is additive over concatenation. */
  lemma {:induction false} CompletedCountAppend(a: seq<Task>, b: seq<Task>)
    ensures CompletedCount(a + b) == CompletedCount(a) + CompletedCount(b)
    decreases |a|
  {
    if a != [] {
      assert (a + b)[1..] == a[1..] + b;
      CompletedCountAppend(a[1..], b);
    } else {
      assert a + b == b;
    }
  }

  /** Counting active agents is additive over concatenation; with the
      one-agent cases this pins the count to the number of non-idle agents. */
  lemma {:induction false} ActiveAgentsAppend(a: seq<Agent>, b: seq<Agent>)
    ensures ActiveAgents(a + b) == ActiveAgents(a) + ActiveAgents(b)
    decreases |a|
  {
    if a == [] {
      assert a + b == b;
    } else {
      assert (a + b)[1..] == a[1..] + b;
      ActiveAgentsAppend(a[1..], b);
    }
  }

  /** A single agent counts as active exactly when it is not idle. */
  lemma ActiveAgentsSingle(a: Agent)
    ensures ActiveAgents([a]) == (if a.status != Idle then 1 else 0)
  {
  }

  /** Progress never drops when no completed task becomes uncompleted. */
  lemma ProgressMonotone(before: seq<Task>, after: seq<Task>)
    requires |before| == |after|
    requires forall i | 0 <= i < |before| :: before[i].status == Completed ==> after[i].status == Completed
    ensures Progress(before) <= Progress(after)
  {
    CompletedCountMonotone(before, after);
    if |before| > 0 {
      PercentMonotone(CompletedCount(before), CompletedCount(after), |before|);
    }
  }

  /** More completed tasks out of the same total never give a lower percentage. */
  lemma PercentMonotone(c1: nat, c2: nat, total: nat)
    requires 0 < total && c1 <= c2 <= total
    ensures Percent(c1, total) <= Percent(c2, total)
  {
    var t := total as real;
    var p1, p2 := Percent(c1, total), Percent(c2, total);
    CancelFactor(p1, p2, t, 100.0 * (c1 as real), 100.0 * (c2 as real));
  }
}
