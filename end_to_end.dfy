/** What the client shows after receiving everything the server emits for
    one submission, for every interleaving of the agents' updates: the
    dashboard reaches 100% with every agent completed while the task is
    still executing, and the result screen follows; a request that makes
    the handler throw ends on the dashboard with the error. */
module EndToEnd {
  import opened Wrappers
  import opened Protocol
  import opened Selection
  import opened AgentRuns
  import opened TaskServer
  import opened ClientApp
  import opened Dashboard

  /** The agent list after the client has merged a sequence of updates. */
  function FoldAgents(views: seq<AgentView>, evs: seq<Event>): (r: seq<AgentView>)
    ensures |r| == |views|
  {
    if evs == [] then views
    else
      var prior := FoldAgents(views, evs[..|evs| - 1]);
      var e := evs[|evs| - 1];
      if e.AgentUpdate? then MergeAgents(prior, e.agentType, e.agentStatus, e.progress, e.message) else prior
  }

  /** Over agent updates only, the client changes nothing but the agent list
      of its task. */
  lemma {:induction false} RunOverAgentUpdates(ui: Ui, t: ClientTask, views: seq<AgentView>, evs: seq<Event>)
    requires ui.currentTask == Some(t) && t.agents == Some(views)
    requires forall n :: 0 <= n < |evs| ==> evs[n].AgentUpdate?
    ensures Run(ui, evs) == ui.(currentTask := Some(t.(agents := Some(FoldAgents(views, evs)))))
    decreases |evs|
  {
    if evs != [] {
      RunOverAgentUpdates(ui, t, views, evs[..|evs| - 1]);
    }
  }

  /** Entry `i` keeps its kind and descriptor, and, once some update for its
      kind has arrived, holds the status, progress and message of the last one. */
  lemma {:induction false} FoldAgentsEntry(views: seq<AgentView>, evs: seq<Event>, i: nat)
    requires i < |views|
    ensures var r := FoldAgents(views, evs);
            var mine := OfAgent(evs, views[i].kind);
            && r[i].kind == views[i].kind && r[i].descriptor == views[i].descriptor
            && (mine == [] ==> r[i] == views[i])
            && (mine != [] ==>
                  var e := mine[|mine| - 1];
                  r[i].status == e.agentStatus && r[i].progress == e.progress && r[i].message == Some(e.message))
    decreases |evs|
  {
    if evs != [] {
      FoldAgentsEntry(views, evs[..|evs| - 1], i);
    }
  }

  /** The state once the opening events and the planning-complete update of
      a string request have arrived. */
  lemma AfterPlanning(ui: Ui, s: string, taskId: string, startTime: string, timestamp: string,
                      draws: map<AgentKind, seq<real>>, schedule: seq<nat>)
    ensures var exec := ExecutionEvents(s, taskId, timestamp, draws, schedule);
            var u := Run(ui, OpeningEvents(Text(s), taskId, startTime) + [exec[0]]);
            && u.currentTask.Some? && u.currentTask.value.status == Executing
            && u.currentTask.value.agents == Some(PendingViews(Selected(s)))
            && u.currentTask.value.request == Some(Text(s))
            && u.taskResult == None && u.error == None && u.agentReasons == SelectedReasons(s)
  {
    var exec := ExecutionEvents(s, taskId, timestamp, draws, schedule);
    var evs := OpeningEvents(Text(s), taskId, startTime) + [exec[0]];
    RunThree(ui, evs[0], evs[1], evs[2]);
    assert evs == [evs[0], evs[1], evs[2]];
  }

  lemma RunThree(ui: Ui, a: Event, b: Event, c: Event)
    ensures Run(ui, [a, b, c]) == Step(Step(Step(ui, a), b), c)
  {
    assert [a, b, c][..2] == [a, b];
    RunTwo(ui, a, b);
  }

  lemma RunTwo(ui: Ui, a: Event, b: Event)
    ensures Run(ui, [a, b]) == Step(Step(ui, a), b)
  {
    assert [a, b][..1] == [a];
    assert [a][..0] == [];
    assert Run(ui, [a]) == Step(ui, a);
  }

  /** Just before the aggregating update arrives, the dashboard shows every
      selected agent completed, the overall progress at 100 and the timeline
      (the task is still executing). */
  lemma AllAgentsCompleteOnDashboard(ui: Ui, s: string, taskId: string, startTime: string, timestamp: string,
                                     errorMessage: string, draws: map<AgentKind, seq<real>>, schedule: seq<nat>)
    ensures var t := SubmitTrace(Text(s), taskId, startTime, timestamp, errorMessage, draws, schedule);
            var u := Run(ui, t[..|t| - 2]);
            && |t| >= 5
            && ScreenOf(u) == DashboardScreen
            && CompletedAgents(u.currentTask) == TotalAgents(u.currentTask) == |Selected(s)|
            && OverallProgress(u.currentTask) == 100.0
            && ShowsTimeline(u.currentTask)
            && u.taskResult == None && u.error == None && u.agentReasons == SelectedReasons(s)
  {
    var agents := Selected(s);
    var runs := AgentRunsOf(taskId, agents, Subtask(s), draws);
    var mid := Interleave(runs, schedule);
    var t := SubmitTrace(Text(s), taskId, startTime, timestamp, errorMessage, draws, schedule);
    var exec := ExecutionEvents(s, taskId, timestamp, draws, schedule);
    var head := OpeningEvents(Text(s), taskId, startTime) + [exec[0]];
    TraceParts(s, taskId, startTime, timestamp, errorMessage, draws, schedule);
    AfterPlanning(ui, s, taskId, startTime, timestamp, draws, schedule);
    var u1 := Run(ui, head);
    RunAppend(ui, head, mid);
    RunsOwnedBySelection(taskId, s, draws);
    InterleaveOnlyAgents(agents, runs, schedule);
    var views := PendingViews(agents);
    RunOverAgentUpdates(u1, u1.currentTask.value, views, mid);
    var u := Run(ui, t[..|t| - 2]);
    var final := FoldAgents(views, mid);
    assert u.currentTask.value.agents == Some(final);
    forall i | 0 <= i < |final| ensures final[i].status == Done {
      AgentEndsDone(s, taskId, draws, schedule, i);
    }
    ProgressRange(u.currentTask);
  }

  /** After the whole trace of a string request the result screen shows the
      final result, the task is completed with every agent completed, and the
      reasons are the selection's. */
  lemma SuccessEndsOnResult(ui: Ui, s: string, taskId: string, startTime: string, timestamp: string,
                            errorMessage: string, draws: map<AgentKind, seq<real>>, schedule: seq<nat>)
    ensures var t := SubmitTrace(Text(s), taskId, startTime, timestamp, errorMessage, draws, schedule);
            var u := Run(ui, t);
            && ScreenOf(u) == ResultScreen
            && u.taskResult == Some(GenerateFinalResult(s, AgentResultsOf(Selected(s)), timestamp))
            && u.error == None
            && u.agentReasons == SelectedReasons(s)
            && u.currentTask.Some? && u.currentTask.value.status == Completed
            && OverallProgress(u.currentTask) == 100.0
  {
    var t := SubmitTrace(Text(s), taskId, startTime, timestamp, errorMessage, draws, schedule);
    var final := GenerateFinalResult(s, AgentResultsOf(Selected(s)), timestamp);
    AllAgentsCompleteOnDashboard(ui, s, taskId, startTime, timestamp, errorMessage, draws, schedule);
    var u2 := Run(ui, t[..|t| - 2]);
    TraceParts(s, taskId, startTime, timestamp, errorMessage, draws, schedule);
    assert t == t[..|t| - 2] + t[|t| - 2..];
    RunAppend(ui, t[..|t| - 2], [TaskUpdate(taskId, Aggregating, AggregatingMessage, None, None),
                                  TaskCompleted(taskId, final)]);
    RunTwo(u2, TaskUpdate(taskId, Aggregating, AggregatingMessage, None, None), TaskCompleted(taskId, final));
    FinishingSteps(u2, taskId, final);
    ProgressRange(u2.currentTask);
    ProgressRange(Run(ui, t).currentTask);
  }

  /** Once the interleaved updates are merged, each selected agent's entry
      holds the completed status of its last update. */
  lemma AgentEndsDone(s: string, taskId: string, draws: map<AgentKind, seq<real>>, schedule: seq<nat>, i: nat)
    requires i < |Selected(s)|
    ensures var runs := AgentRunsOf(taskId, Selected(s), Subtask(s), draws);
            FoldAgents(PendingViews(Selected(s)), Interleave(runs, schedule))[i].status == Done
  {
    var agents := Selected(s);
    var runs := AgentRunsOf(taskId, agents, Subtask(s), draws);
    SelectionHasNoDuplicates(s);
    RunsOwnedBySelection(taskId, s, draws);
    FoldAgentsEntry(PendingViews(agents), Interleave(runs, schedule), i);
    InterleaveProjects(agents, runs, schedule, i);
    var r := RunEvents(taskId, agents[i], Subtask(s), DrawsFor(draws, agents[i]));
    assert r[|r| - 1] == DoneEvent(taskId, agents[i]);
  }

  /** The aggregating update followed by the completion keeps the agents,
      the error and the reasons, and sets the result and the completed status. */
  lemma FinishingSteps(u: Ui, taskId: string, final: FinalResult)
    requires u.currentTask.Some?
    ensures var v := Step(Step(u, TaskUpdate(taskId, Aggregating, AggregatingMessage, None, None)),
                          TaskCompleted(taskId, final));
            && v.taskResult == Some(final) && v.error == u.error && v.agentReasons == u.agentReasons
            && v.currentTask.Some? && v.currentTask.value.status == Completed
            && AgentsOf(v.currentTask) == AgentsOf(u.currentTask)
  {
  }

  /** A request that is not a string: the client ends on the dashboard with
      the error, the task failed, and no agents. */
  lemma FailureEndsOnDashboard(ui: Ui, taskId: string, startTime: string, timestamp: string,
                               errorMessage: string, draws: map<AgentKind, seq<real>>, schedule: seq<nat>)
    ensures var u := Run(ui, SubmitTrace(NonText, taskId, startTime, timestamp, errorMessage, draws, schedule));
            && ScreenOf(u) == DashboardScreen
            && u.error == Some(errorMessage)
            && u.currentTask.Some? && u.currentTask.value.status == Failed
            && TotalAgents(u.currentTask) == 0 && OverallProgress(u.currentTask) == 0.0
            && StatusText(StatusLabel(u.currentTask)) == "Task failed"
  {
    var t := SubmitTrace(NonText, taskId, startTime, timestamp, errorMessage, draws, schedule);
    assert t == [t[0], t[1], t[2]];
    RunThree(ui, t[0], t[1], t[2]);
  }
}
