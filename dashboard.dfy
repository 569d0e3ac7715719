/** The `AgentDashboard` component's summary of a task: how many agents have
    completed, the overall progress, the header's status text, icon and
    colour, and when the execution timeline is shown. */
module Dashboard {
  import opened Wrappers
  import opened Protocol
  import opened ClientApp

  /** The number of entries whose status is completed. */
  function CountCompleted(agents: seq<AgentView>): (n: nat)
    ensures n <= |agents|
    ensures n == |agents| <==> forall i :: 0 <= i < |agents| ==> agents[i].status == Done
    ensures n == 0 <==> forall i :: 0 <= i < |agents| ==> agents[i].status != Done
  {
    if agents == [] then 0
    else
      var rest := CountCompleted(agents[..|agents| - 1]);
      assert forall i :: 0 <= i < |agents| - 1 ==> agents[..|agents| - 1][i] == agents[i];
      rest + (if agents[|agents| - 1].status == Done then 1 else 0)
  }

  /** `task?.agents` as a list, empty when the task or its list is missing. */
  function AgentsOf(task: Option<ClientTask>): seq<AgentView>
  {
    if task.Some? && task.value.agents.Some? then task.value.agents.value else []
  }

  /** `completedAgents`. */
  function CompletedAgents(task: Option<ClientTask>): nat
  {
    CountCompleted(AgentsOf(task))
  }

  /** `totalAgents`. */
  function TotalAgents(task: Option<ClientTask>): nat
  {
    |AgentsOf(task)|
  }

  /** `overallProgress`, computed exactly rather than in floating point. */
  function OverallProgress(task: Option<ClientTask>): real
  {
    var total := TotalAgents(task);
    if total > 0 then (CompletedAgents(task) as real / total as real) * 100.0 else 0.0
  }

  /** The completed count never exceeds the total. */
  lemma CompletedWithinTotal(task: Option<ClientTask>)
    ensures 0 <= CompletedAgents(task) <= TotalAgents(task)
  {
  }

  /** With no task, or a task without agents, both counts and the progress are 0. */
  lemma NothingToShow(task: Option<ClientTask>)
    requires task.None? || task.value.agents.None? || task.value.agents.value == []
    ensures TotalAgents(task) == 0 && CompletedAgents(task) == 0 && OverallProgress(task) == 0.0
  {
  }

  lemma RatioBounds(c: nat, t: nat)
    requires 0 < t && c <= t
    ensures 0.0 <= (c as real / t as real) * 100.0 <= 100.0
    ensures (c as real / t as real) * 100.0 == 100.0 <==> c == t
  {
    var q := c as real / t as real;
    assert q * t as real == c as real;
    if q * 100.0 == 100.0 {
      assert q == 1.0;
    }
  }

  /** The progress lies in [0, 100] and is 100 exactly when there are agents
      and every one of them has completed. */
  lemma ProgressRange(task: Option<ClientTask>)
    ensures 0.0 <= OverallProgress(task) <= 100.0
    ensures OverallProgress(task) == 100.0 <==>
              TotalAgents(task) > 0 && forall i :: 0 <= i < |AgentsOf(task)| ==> AgentsOf(task)[i].status == Done
  {
    if TotalAgents(task) > 0 {
      RatioBounds(CompletedAgents(task), TotalAgents(task));
    }
  }

  /** The status itself, as the header reads it from `task?.status`. */
  function StatusLabel(task: Option<ClientTask>): Option<string>
  {
    if task.Some? then Some(TaskStatusName(task.value.status)) else None
  }

  /** `getStatusText`. */
  function StatusText(status: Option<string>): string
  {
    if status == Some("planning") then "Planning execution..."
    else if status == Some("executing") then "Agents are working..."
    else if status == Some("aggregating") then "Combining results..."
    else if status == Some("completed") then "Task completed successfully!"
    else if status == Some("failed") then "Task failed"
    else "Processing..."
  }

  /** The five lifecycle statuses get five different texts, none of them the
      default, and anything else gets "Processing...". */
  lemma StatusTextsDistinct(s1: TaskStatus, s2: TaskStatus, other: Option<string>)
    requires forall s: TaskStatus :: other != Some(TaskStatusName(s))
    ensures StatusText(Some(TaskStatusName(s1))) == StatusText(Some(TaskStatusName(s2))) <==> s1 == s2
    ensures StatusText(Some(TaskStatusName(s1))) != "Processing..."
    ensures StatusText(other) == "Processing..."
  {
    assert other != Some("planning") by { assert TaskStatusName(Planning) == "planning"; }
    assert other != Some("executing") by { assert TaskStatusName(Executing) == "executing"; }
    assert other != Some("aggregating") by { assert TaskStatusName(Aggregating) == "aggregating"; }
    assert other != Some("completed") by { assert TaskStatusName(Completed) == "completed"; }
    assert other != Some("failed") by { assert TaskStatusName(Failed) == "failed"; }
  }

  /** The icons `getStatusIcon` chooses from. */
  datatype Icon = CheckCircle | SpinningClock | CrossCircle | IdleClock

  /** `getStatusIcon`: written for agent statuses (completed, running,
      failed), with a grey clock for everything else. */
  function StatusIcon(status: Option<string>): Icon
  {
    if status == Some("completed") then CheckCircle
    else if status == Some("running") then SpinningClock
    else if status == Some("failed") then CrossCircle
    else IdleClock
  }

  /** `getStatusColor`, on the same three cases. */
  function StatusColor(status: Option<string>): string
  {
    if status == Some("completed") then "text-green-600"
    else if status == Some("running") then "text-blue-600"
    else if status == Some("failed") then "text-red-600"
    else "text-gray-500"
  }

  /** In the header the icon and colour are applied to the task's lifecycle
      status, so planning, executing and aggregating all show the grey idle
      clock; only completed and failed get their own. */
  lemma HeaderIconFallsThrough(task: Option<ClientTask>)
    ensures var st := StatusLabel(task);
      (StatusIcon(st) == IdleClock && StatusColor(st) == "text-gray-500")
      <==> (task.None? || task.value.status in {Planning, Executing, Aggregating})
    ensures StatusIcon(StatusLabel(task)) != SpinningClock
  {
  }

  /** `task?.status === 'executing'`. */
  predicate ShowsTimeline(task: Option<ClientTask>)
  {
    StatusLabel(task) == Some("executing")
  }

  lemma TimelineOnlyWhileExecuting(task: Option<ClientTask>)
    ensures ShowsTimeline(task) <==> task.Some? && task.value.status == Executing
  {
  }
}
