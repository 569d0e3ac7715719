/** The server's `submitTask` handler: it creates the task record, stores it
    in `activeTasks`, and drives it through planning, the agents' runs and
    aggregation to completion, or to failure from its `catch`. Everything
    the handler emits goes to the one submitting connection, modelled as the
    sequence `emitted`. */
module TaskServer {
  import opened Wrappers
  import opened Text
  import opened Protocol
  import opened Selection
  import opened AgentRuns

  const PlanningMessage: string := "Analyzing request and planning execution..."
  const AggregatingMessage: string := "Combining results from all agents..."
  const Insights: seq<string> := ["All agents completed successfully", "Results are ready for review"]
  const Recommendations: seq<string> := ["Review the findings", "Share with your team"]

  function ExecutingMessage(agentCount: nat): string
  {
    "Planning complete. " + NatToString(agentCount) + " agents will execute the task."
  }

  /** The subtask every agent is told to work on. */
  function Subtask(request: string): string
  {
    "Processing " + (if Contains(Lower(request), "financial") then "financial data" else "request data")
  }

  /** The entry the planning-complete update sends for each selected kind. */
  function PendingView(k: AgentKind): AgentView
  {
    AgentView(k, DescriptorOf(k), Pending, 0.0, None)
  }

  function PendingViews(agents: seq<AgentKind>): (views: seq<AgentView>)
    ensures |views| == |agents|
    ensures forall i :: 0 <= i < |agents| ==> views[i] == PendingView(agents[i])
  {
    seq(|agents|, i requires 0 <= i < |agents| => PendingView(agents[i]))
  }

  /** `generateFinalResult`: the request, the agents' results as given, and
      the fixed insights and recommendations. */
  function GenerateFinalResult(request: string, agentResults: seq<string>, timestamp: string): (r: FinalResult)
    ensures r.originalRequest == request && r.results == agentResults
    ensures |r.insights| == 2 && |r.recommendations| == 2
  {
    FinalResult(request, "Task completed: \"" + request + "\"", agentResults, Insights, Recommendations, timestamp)
  }

  /** The random draws of each kind's progress ticks (`Math.random()`, one
      per tick); a kind without an entry gets no tick before its time is up. */
  function DrawsFor(draws: map<AgentKind, seq<real>>, k: AgentKind): seq<real>
  {
    if k in draws then draws[k] else []
  }

  /** Each kind's draws are values of `Math.random()`, and there are no more
      of them than interval periods fit in the kind's execution time: the
      timeout that ends the run clears the interval. */
  predicate ValidDrawTable(draws: map<AgentKind, seq<real>>)
  {
    forall k :: k in draws ==> ValidDraws(draws[k]) && |draws[k]| <= ExecutionTime(k) / TickInterval
  }

  /** The event runs of the selected agents, in selection order. */
  function AgentRunsOf(taskId: string, agents: seq<AgentKind>, subtask: string,
                       draws: map<AgentKind, seq<real>>): (runs: seq<seq<Event>>)
    ensures |runs| == |agents|
  {
    seq(|agents|, i requires 0 <= i < |agents| => RunEvents(taskId, agents[i], subtask, DrawsFor(draws, agents[i])))
  }

  /** What `Promise.all` over the agents' promises resolves to. */
  function AgentResultsOf(agents: seq<AgentKind>): (results: seq<string>)
    ensures |results| == |agents|
  {
    seq(|agents|, i requires 0 <= i < |agents| => ResultText(agents[i]))
  }

  /** The two events every submission starts with. */
  function OpeningEvents(request: Payload, taskId: string, startTime: string): seq<Event>
  {
    [TaskCreated(taskId, TaskSnapshot(taskId, request, Planning, startTime)),
     TaskUpdate(taskId, Planning, PlanningMessage, None, None)]
  }

  /** Everything the handler emits for one submission. `errorMessage` is the
      engine's message for the `TypeError` that `toLowerCase` raises on a
      request that is not a string; `schedule` is the event loop's order of
      the agents' updates. */
  function SubmitTrace(request: Payload, taskId: string, startTime: string, timestamp: string,
                       errorMessage: string, draws: map<AgentKind, seq<real>>, schedule: seq<nat>): seq<Event>
  {
    match request
    case NonText =>
      OpeningEvents(request, taskId, startTime) + [TaskFailed(taskId, errorMessage)]
    case Text(s) =>
      OpeningEvents(request, taskId, startTime) + ExecutionEvents(s, taskId, timestamp, draws, schedule)
  }

  /** What follows the opening events for a string request. */
  function ExecutionEvents(s: string, taskId: string, timestamp: string,
                           draws: map<AgentKind, seq<real>>, schedule: seq<nat>): seq<Event>
  {
    [ExecutingUpdate(s, taskId)]
    + Interleave(AgentRunsOf(taskId, Selected(s), Subtask(s), draws), schedule)
    + ClosingEvents(s, taskId, timestamp)
  }

  /** The planning-complete update: the reasons and every selected agent pending. */
  function ExecutingUpdate(s: string, taskId: string): Event
  {
    var agents := Selected(s);
    TaskUpdate(taskId, Executing, ExecutingMessage(|agents|), Some(SelectedReasons(s)), Some(PendingViews(agents)))
  }

  /** The aggregating update and the completion with the final result. */
  function ClosingEvents(s: string, taskId: string, timestamp: string): seq<Event>
  {
    [TaskUpdate(taskId, Aggregating, AggregatingMessage, None, None),
     TaskCompleted(taskId, GenerateFinalResult(s, AgentResultsOf(Selected(s)), timestamp))]
  }

  /** The statuses written to the task record, in order. */
  function StatusLog(request: Payload): seq<TaskStatus>
  {
    if request.Text? then [Planning, Executing, Completed] else [Planning, Failed]
  }

  /** The record's legal status moves: planning to executing to completed,
      and planning to failed (only selection, inside the planning status,
      can throw). */
  predicate RecordMove(from: TaskStatus, to: TaskStatus)
  {
    match (from, to)
    case (Planning, Executing) => true
    case (Executing, Completed) => true
    case (Planning, Failed) => true
    case _ => false
  }

  predicate LegalHistory(log: seq<TaskStatus>)
  {
    |log| > 0 && log[0] == Planning &&
    forall i :: 0 < i < |log| ==> RecordMove(log[i - 1], log[i])
  }

  /** The task record. Its `agents`, `agentReasons`, `status`, `result`,
      `endTime` and `error` are written by the handler in place, after the
      record has been stored in `activeTasks`. */
  class Task {
    const id: string
    const request: Payload
    const startTime: string
    var status: TaskStatus
    var agents: seq<AgentKind>
    var agentReasons: Option<seq<string>>
    var result: Option<FinalResult>
    var endTime: Option<string>
    var error: Option<string>
    /** Every status the record has held, the current one last. */
    ghost var statusLog: seq<TaskStatus>

    /** The log is a legal history that ends in the current status. */
    ghost predicate Valid()
      reads this
    {
      LegalHistory(statusLog) && status == statusLog[|statusLog| - 1]
    }

    constructor (id: string, request: Payload, startTime: string)
      ensures this.id == id && this.request == request && this.startTime == startTime
      ensures Valid() && status == Planning && statusLog == [Planning]
      ensures agents == [] && agentReasons == None && result == None && endTime == None && error == None
    {
      this.id := id;
      this.request := request;
      this.startTime := startTime;
      status := Planning;
      agents := [];
      agentReasons := None;
      result := None;
      endTime := None;
      error := None;
      statusLog := [Planning];
    }

    /** The record as `taskCreated` serialises it. */
    function Snapshot(): (snap: TaskSnapshot)
      reads this
      ensures snap.id == id && snap.request == request && snap.status == status
    {
      TaskSnapshot(id, request, status, startTime)
    }

    /** `task.status = ...`, for a legal move. */
    method SetStatus(s: TaskStatus)
      requires Valid() && RecordMove(status, s)
      modifies this
      ensures Valid()
      ensures status == s && statusLog == old(statusLog) + [s]
      ensures agents == old(agents) && agentReasons == old(agentReasons)
      ensures result == old(result) && endTime == old(endTime) && error == old(error)
    {
      status := s;
      statusLog := statusLog + [s];
    }
  }

  /** `Promise.all(neededAgents.map(...))`: every selected agent is run, and
      the results are collected in selection order. The runs' events are
      returned per agent; the order in which they reach the connection is
      the schedule's, applied by `PlanAndExecute`. */
  method RunAllAgents(taskId: string, neededAgents: seq<AgentKind>, subtask: string,
                      draws: map<AgentKind, seq<real>>)
    returns (runs: seq<seq<Event>>, agentResults: seq<string>)
    ensures runs == AgentRunsOf(taskId, neededAgents, subtask, draws)
    ensures agentResults == AgentResultsOf(neededAgents)
  {
    runs, agentResults := [], [];
    for i := 0 to |neededAgents|
      invariant runs == AgentRunsOf(taskId, neededAgents, subtask, draws)[..i]
      invariant agentResults == AgentResultsOf(neededAgents)[..i]
    {
      var events, result := ExecuteAgentTask(taskId, neededAgents[i], subtask, DrawsFor(draws, neededAgents[i]));
      runs := runs + [events];
      agentResults := agentResults + [result];
    }
  }

  class Server {
    /** The process-wide map from task identifier to task record. */
    var activeTasks: map<string, Task>
    /** The events emitted on the submitting connection, in order. */
    var emitted: seq<Event>

    constructor ()
      ensures activeTasks == map[] && emitted == []
    {
      activeTasks := map[];
      emitted := [];
    }

    /** `socket.emit`. */
    method Emit(e: Event)
      modifies this`emitted
      ensures emitted == old(emitted) + [e]
    {
      emitted := emitted + [e];
    }

    /** The `submitTask` handler for one submission, from its first line to
        the end of its `try`/`catch`. Identifiers, clock readings, random
        draws and the interleaving of the agents' timers are inputs. */
    method SubmitTask(request: Payload, taskId: string, startTime: string, timestamp: string, endTime: string,
                      errorMessage: string, draws: map<AgentKind, seq<real>>, schedule: seq<nat>)
      returns (task: Task)
      modifies this
      ensures fresh(task)
      ensures activeTasks == old(activeTasks)[taskId := task]
      ensures emitted == old(emitted) + SubmitTrace(request, taskId, startTime, timestamp, errorMessage, draws, schedule)
      ensures task.id == taskId && task.request == request && task.startTime == startTime
      ensures task.Valid() && task.statusLog == StatusLog(request)
      ensures request.Text? ==>
                && task.agents == Selected(request.s)
                && task.agentReasons == Some(SelectedReasons(request.s))
                && task.result == Some(GenerateFinalResult(request.s, AgentResultsOf(task.agents), timestamp))
                && task.endTime == Some(endTime) && task.error == None
      ensures request.NonText? ==>
                && task.agents == [] && task.agentReasons == None && task.result == None
                && task.endTime == None && task.error == Some(errorMessage)
    {
      task := Open(request, taskId, startTime);
      ghost var opening := OpeningEvents(request, taskId, startTime);
      match request
      case NonText =>
        // `request.toLowerCase()` throws: the catch marks the record failed.
        Fail(task, errorMessage);
        assert emitted == old(emitted) + (opening + [TaskFailed(taskId, errorMessage)]);
      case Text(s) =>
        PlanAndExecute(task, s, timestamp, endTime, draws, schedule);
        assert emitted == old(emitted) + (opening + ExecutionEvents(s, taskId, timestamp, draws, schedule));
    }

    /** The record is created in the planning status, stored under its
        identifier, and announced with `taskCreated` and a planning update. */
    method Open(request: Payload, taskId: string, startTime: string) returns (task: Task)
      modifies this
      ensures fresh(task)
      ensures activeTasks == old(activeTasks)[taskId := task]
      ensures emitted == old(emitted) + OpeningEvents(request, taskId, startTime)
      ensures task.id == taskId && task.request == request && task.startTime == startTime
      ensures task.Valid() && task.status == Planning && task.statusLog == [Planning]
      ensures task.agents == [] && task.agentReasons == None && task.result == None
      ensures task.endTime == None && task.error == None
    {
      task := new Task(taskId, request, startTime);
      activeTasks := activeTasks[taskId := task];
      Emit(TaskCreated(taskId, task.Snapshot()));
      Emit(TaskUpdate(taskId, Planning, PlanningMessage, None, None));
    }

    /** The `catch` block: the record is marked failed with the error's
        message, which is also emitted. */
    method Fail(task: Task, errorMessage: string)
      requires task.Valid() && RecordMove(task.status, Failed)
      modifies this`emitted, task
      ensures task.Valid()
      ensures emitted == old(emitted) + [TaskFailed(task.id, errorMessage)]
      ensures task.status == Failed && task.statusLog == old(task.statusLog) + [Failed]
      ensures task.agents == old(task.agents) && task.agentReasons == old(task.agentReasons)
      ensures task.result == old(task.result) && task.endTime == old(task.endTime)
      ensures task.error == Some(errorMessage)
    {
      task.SetStatus(Failed);
      task.error := Some(errorMessage);
      Emit(TaskFailed(task.id, errorMessage));
    }

    /** The `try` block past its first emission, for a string request. */
    method PlanAndExecute(task: Task, s: string, timestamp: string, endTime: string,
                          draws: map<AgentKind, seq<real>>, schedule: seq<nat>)
      requires task.Valid() && task.request == Text(s) && task.status == Planning && task.statusLog == [Planning]
      requires task.agents == [] && task.agentReasons == None && task.result == None
      requires task.endTime == None && task.error == None
      modifies this`emitted, task
      ensures task.Valid()
      ensures emitted == old(emitted) + ExecutionEvents(s, task.id, timestamp, draws, schedule)
      ensures task.statusLog == StatusLog(task.request) && task.status == Completed
      ensures task.agents == Selected(s) && task.agentReasons == Some(SelectedReasons(s))
      ensures task.result == Some(GenerateFinalResult(s, AgentResultsOf(task.agents), timestamp))
      ensures task.endTime == Some(endTime) && task.error == None
    {
      ghost var before := emitted;
      Plan(task, s);
      var runs, agentResults := RunAllAgents(task.id, task.agents, Subtask(s), draws);
      var mid := Interleave(runs, schedule);
      emitted := emitted + mid;
      Aggregate(task, s, timestamp, endTime, agentResults);
      assert emitted == before + ([ExecutingUpdate(s, task.id)] + mid + ClosingEvents(s, task.id, timestamp));
    }

    /** Selection, the record's executing status and the planning-complete update. */
    method Plan(task: Task, s: string)
      requires task.Valid() && task.request == Text(s) && task.status == Planning && task.statusLog == [Planning]
      requires task.agents == [] && task.agentReasons == None && task.result == None
      requires task.endTime == None && task.error == None
      modifies this`emitted, task
      ensures task.Valid()
      ensures emitted == old(emitted) + [ExecutingUpdate(s, task.id)]
      ensures task.statusLog == [Planning, Executing] && task.status == Executing
      ensures task.agents == Selected(s) && task.agentReasons == Some(SelectedReasons(s))
      ensures task.result == None && task.endTime == None && task.error == None
    {
      var neededAgents, agentReasons := SelectAgents(s);
      task.agents := neededAgents;
      task.agentReasons := Some(agentReasons);
      task.SetStatus(Executing);
      Emit(TaskUpdate(task.id, Executing, ExecutingMessage(|neededAgents|), Some(agentReasons),
                      Some(PendingViews(neededAgents))));
    }

    /** The aggregating update, the final result stored on the record, and the completion. */
    method Aggregate(task: Task, s: string, timestamp: string, endTime: string, agentResults: seq<string>)
      requires task.Valid() && task.statusLog == [Planning, Executing] && task.status == Executing
      requires agentResults == AgentResultsOf(Selected(s))
      modifies this`emitted, task
      ensures task.Valid()
      ensures emitted == old(emitted) + ClosingEvents(s, task.id, timestamp)
      ensures task.statusLog == [Planning, Executing, Completed] && task.status == Completed
      ensures task.agents == old(task.agents) && task.agentReasons == old(task.agentReasons)
      ensures task.result == Some(GenerateFinalResult(s, agentResults, timestamp))
      ensures task.endTime == Some(endTime) && task.error == old(task.error)
    {
      Emit(TaskUpdate(task.id, Aggregating, AggregatingMessage, None, None));
      var finalResult := GenerateFinalResult(s, agentResults, timestamp);
      task.SetStatus(Completed);
      task.result := Some(finalResult);
      task.endTime := Some(endTime);
      Emit(TaskCompleted(task.id, finalResult));
    }
  }

  /** The record only moves planning, executing, completed, or planning,
      failed; `aggregating` is announced on the connection but never stored. */
  lemma StatusLogLegal(request: Payload)
    ensures LegalHistory(StatusLog(request))
    ensures Aggregating !in StatusLog(request)
    ensures StatusLog(request)[|StatusLog(request)| - 1] == (if request.Text? then Completed else Failed)
  {
  }

  /** The lifecycle announced on the connection: created and planning first;
      then either failed at once, or executing with every selected agent
      pending at 0, followed by agent updates only, then aggregating and
      completed. Every event names the submission's task. */
  lemma {:induction false} TraceShape(request: Payload, taskId: string, startTime: string, timestamp: string,
                                      errorMessage: string, draws: map<AgentKind, seq<real>>, schedule: seq<nat>)
    ensures var t := SubmitTrace(request, taskId, startTime, timestamp, errorMessage, draws, schedule);
      && |t| >= 3
      && t[0] == TaskCreated(taskId, TaskSnapshot(taskId, request, Planning, startTime))
      && t[1].TaskUpdate? && t[1].status == Planning
      && (request.NonText? ==> t == t[..2] + [TaskFailed(taskId, errorMessage)])
      && (request.Text? ==>
            && |t| >= 5
            && t[2].TaskUpdate? && t[2].status == Executing
            && t[2].agents == Some(PendingViews(Selected(request.s)))
            && t[2].agentReasons == Some(SelectedReasons(request.s))
            && (forall n :: 3 <= n < |t| - 2 ==>
                  t[n].AgentUpdate? && t[n].agentType in Selected(request.s) && t[n].taskId == taskId)
            && t[|t| - 2] == TaskUpdate(taskId, Aggregating, AggregatingMessage, None, None)
            && t[|t| - 1].TaskCompleted?)
  {
    var t := SubmitTrace(request, taskId, startTime, timestamp, errorMessage, draws, schedule);
    if request.Text? {
      var s := request.s;
      var agents := Selected(s);
      var runs := AgentRunsOf(taskId, agents, Subtask(s), draws);
      var head := OpeningEvents(Text(s), taskId, startTime) + [ExecutingUpdate(s, taskId)];
      var mid := Interleave(runs, schedule);
      var tail := ClosingEvents(s, taskId, timestamp);
      TraceParts(s, taskId, startTime, timestamp, errorMessage, draws, schedule);
      assert t[0] == head[0] && t[1] == head[1] && t[2] == head[2];
      assert t[|t| - 2] == tail[0] && t[|t| - 1] == tail[1];
      RunsOwnedBySelection(taskId, s, draws);
      InterleaveOnlyAgents(agents, runs, schedule);
      InterleaveKeepsTask(taskId, runs, schedule);
      forall n | 3 <= n < |t| - 2
        ensures t[n].AgentUpdate? && t[n].agentType in agents && t[n].taskId == taskId
      {
        assert t[n] == mid[n - 3];
      }
    }
  }

  lemma RunsOwnedBySelection(taskId: string, s: string, draws: map<AgentKind, seq<real>>)
    ensures RunsOwned(Selected(s), AgentRunsOf(taskId, Selected(s), Subtask(s), draws))
    ensures forall i, n :: 0 <= i < |Selected(s)| && 0 <= n < |AgentRunsOf(taskId, Selected(s), Subtask(s), draws)[i]| ==>
              AgentRunsOf(taskId, Selected(s), Subtask(s), draws)[i][n].taskId == taskId
  {
    var agents := Selected(s);
    var runs := AgentRunsOf(taskId, agents, Subtask(s), draws);
    forall i, n | 0 <= i < |runs| && 0 <= n < |runs[i]|
      ensures IsFor(runs[i][n], agents[i]) && runs[i][n].taskId == taskId
    {
      var d := DrawsFor(draws, agents[i]);
      assert runs[i] == RunEvents(taskId, agents[i], Subtask(s), d);
      if 0 < n < |runs[i]| - 1 {
        assert runs[i][n] == TickEvent(taskId, agents[i], Subtask(s), d[n - 1]);
      }
    }
  }

  lemma {:induction false} InterleaveKeepsTask(taskId: string, runs: seq<seq<Event>>, schedule: seq<nat>)
    requires forall i, n :: 0 <= i < |runs| && 0 <= n < |runs[i]| ==> runs[i][n].taskId == taskId
    ensures forall n :: 0 <= n < |Interleave(runs, schedule)| ==> Interleave(runs, schedule)[n].taskId == taskId
    decreases |schedule|
  {
    if schedule == [] {
      FlattenKeepsTask(taskId, runs);
    } else {
      var j := schedule[0];
      if j < |runs| && runs[j] != [] {
        var rest: seq<seq<Event>> := runs[j := runs[j][1..]];
        assert forall i, n :: 0 <= i < |rest| && 0 <= n < |rest[i]| ==> rest[i][n].taskId == taskId by {
          forall i, n | 0 <= i < |rest| && 0 <= n < |rest[i]| ensures rest[i][n].taskId == taskId {
            if i == j { assert rest[i][n] == runs[j][n + 1]; }
          }
        }
        InterleaveKeepsTask(taskId, rest, schedule[1..]);
      } else {
        InterleaveKeepsTask(taskId, runs, schedule[1..]);
      }
    }
  }

  lemma {:induction false} FlattenKeepsTask(taskId: string, runs: seq<seq<Event>>)
    requires forall i, n :: 0 <= i < |runs| && 0 <= n < |runs[i]| ==> runs[i][n].taskId == taskId
    ensures forall n :: 0 <= n < |Flatten(runs)| ==> Flatten(runs)[n].taskId == taskId
    decreases |runs|
  {
    if runs != [] {
      FlattenKeepsTask(taskId, runs[..|runs| - 1]);
    }
  }

  /** The trace of a string request cut into its three announcements, the
      interleaved agent updates and its two closing events. */
  lemma TraceParts(s: string, taskId: string, startTime: string, timestamp: string,
                   errorMessage: string, draws: map<AgentKind, seq<real>>, schedule: seq<nat>)
    ensures var t := SubmitTrace(Text(s), taskId, startTime, timestamp, errorMessage, draws, schedule);
            var head := OpeningEvents(Text(s), taskId, startTime) + [ExecutingUpdate(s, taskId)];
            var mid := Interleave(AgentRunsOf(taskId, Selected(s), Subtask(s), draws), schedule);
            var tail := ClosingEvents(s, taskId, timestamp);
            && |head| == 3 && |tail| == 2
            && |t| == |mid| + 5
            && t == head + mid + tail
            && t[..|t| - 2] == head + mid
            && t[3..|t| - 2] == mid
            && t[|t| - 2..] == tail
  {
    var t := SubmitTrace(Text(s), taskId, startTime, timestamp, errorMessage, draws, schedule);
    var head := OpeningEvents(Text(s), taskId, startTime) + [ExecutingUpdate(s, taskId)];
    var mid := Interleave(AgentRunsOf(taskId, Selected(s), Subtask(s), draws), schedule);
    var tail := ClosingEvents(s, taskId, timestamp);
    assert t == head + mid + tail;
  }

  /** Each selected agent's updates reach the connection complete and in
      order, between the executing and the aggregating announcements, and end
      with its completed update at 100: every agent has completed before the
      aggregate result is produced. */
  lemma EveryAgentCompletesBeforeAggregating(s: string, taskId: string, startTime: string, timestamp: string,
                                             errorMessage: string, draws: map<AgentKind, seq<real>>,
                                             schedule: seq<nat>, i: nat)
    requires i < |Selected(s)|
    ensures var t := SubmitTrace(Text(s), taskId, startTime, timestamp, errorMessage, draws, schedule);
            var k := Selected(s)[i];
            && |t| >= 5
            && OfAgent(t, k) == OfAgent(t[3..|t| - 2], k)
            && OfAgent(t, k) == RunEvents(taskId, k, Subtask(s), DrawsFor(draws, k))
            && OfAgent(t, k)[|OfAgent(t, k)| - 1] == AgentUpdate(taskId, k, Done, 100.0, ResultText(k))
  {
    var k := Selected(s)[i];
    var head := OpeningEvents(Text(s), taskId, startTime) + [ExecutingUpdate(s, taskId)];
    var mid := Interleave(AgentRunsOf(taskId, Selected(s), Subtask(s), draws), schedule);
    var tail := ClosingEvents(s, taskId, timestamp);
    TraceParts(s, taskId, startTime, timestamp, errorMessage, draws, schedule);
    ProjectionOfMiddle(head, mid, tail, k);
    SelectedAgentProjection(s, taskId, draws, schedule, i);
    var r := RunEvents(taskId, k, Subtask(s), DrawsFor(draws, k));
    assert r[|r| - 1] == DoneEvent(taskId, k);
  }

  /** On the connection, each selected agent's updates before its last one
      are running, with the start at 0 and every tick in [20, 50); with
      draws of `Math.random()` none of them is completed, and the agent ticks
      at most once per interval period of its execution time, so at most
      eight times. */
  lemma AgentRunsUntilDone(s: string, taskId: string, startTime: string, timestamp: string,
                           errorMessage: string, draws: map<AgentKind, seq<real>>, schedule: seq<nat>, i: nat)
    requires ValidDrawTable(draws)
    requires i < |Selected(s)|
    ensures var t := SubmitTrace(Text(s), taskId, startTime, timestamp, errorMessage, draws, schedule);
            var p := OfAgent(t, Selected(s)[i]);
            && |p| >= 2
            && p[0].agentStatus == Running && p[0].progress == 0.0
            && (forall n :: 0 < n < |p| - 1 ==> p[n].agentStatus == Running && 20.0 <= p[n].progress < 50.0)
            && (forall n :: 0 <= n < |p| - 1 ==> p[n].agentStatus != Done)
            && |p| - 2 <= ExecutionTime(Selected(s)[i]) / TickInterval
            && |p| <= 10
  {
    var k := Selected(s)[i];
    EveryAgentCompletesBeforeAggregating(s, taskId, startTime, timestamp, errorMessage, draws, schedule, i);
    assert ValidDraws(DrawsFor(draws, k)) && |DrawsFor(draws, k)| <= ExecutionTime(k) / TickInterval;
    RunShape(taskId, k, Subtask(s), DrawsFor(draws, k));
    ExecutionTimesDistinct(k, k);
  }

  /** Agent `i`'s updates in the interleaving are exactly its own run. */
  lemma SelectedAgentProjection(s: string, taskId: string, draws: map<AgentKind, seq<real>>, schedule: seq<nat>, i: nat)
    requires i < |Selected(s)|
    ensures var k := Selected(s)[i];
            OfAgent(Interleave(AgentRunsOf(taskId, Selected(s), Subtask(s), draws), schedule), k)
              == RunEvents(taskId, k, Subtask(s), DrawsFor(draws, k))
  {
    SelectionHasNoDuplicates(s);
    RunsOwnedBySelection(taskId, s, draws);
    InterleaveProjects(Selected(s), AgentRunsOf(taskId, Selected(s), Subtask(s), draws), schedule, i);
  }

  /** Framing events that are not agent updates leave a projection unchanged. */
  lemma ProjectionOfMiddle(head: seq<Event>, mid: seq<Event>, tail: seq<Event>, k: AgentKind)
    requires forall n :: 0 <= n < |head| ==> !head[n].AgentUpdate?
    requires forall n :: 0 <= n < |tail| ==> !tail[n].AgentUpdate?
    ensures OfAgent(head + mid + tail, k) == OfAgent(mid, k)
  {
    OfAgentAppend(head, mid, k);
    OfAgentAppend(head + mid, tail, k);
    NoAgentUpdates(head, k);
    NoAgentUpdates(tail, k);
  }

  lemma {:induction false} NoAgentUpdates(evs: seq<Event>, k: AgentKind)
    requires forall n :: 0 <= n < |evs| ==> !evs[n].AgentUpdate?
    ensures OfAgent(evs, k) == []
    decreases |evs|
  {
    if evs != [] {
      NoAgentUpdates(evs[..|evs| - 1], k);
    }
  }

  /** The final result lists one result per selected agent, in selection
      order, and echoes the request. */
  lemma FinalResultFollowsSelection(s: string, taskId: string, startTime: string, timestamp: string,
                                    errorMessage: string, draws: map<AgentKind, seq<real>>, schedule: seq<nat>)
    ensures var t := SubmitTrace(Text(s), taskId, startTime, timestamp, errorMessage, draws, schedule);
            var r := t[|t| - 1].result;
            && t[|t| - 1].TaskCompleted?
            && r.originalRequest == s
            && |r.results| == |Selected(s)|
            && (forall i :: 0 <= i < |r.results| ==> r.results[i] == ResultText(Selected(s)[i]))
            && |r.insights| == 2 && |r.recommendations| == 2
  {
  }

  /** No two entries of a final result are equal: the selection holds each
      kind at most once and the kinds' result texts differ. */
  lemma FinalResultsDistinct(s: string, timestamp: string)
    ensures var r := GenerateFinalResult(s, AgentResultsOf(Selected(s)), timestamp);
            forall i, j :: 0 <= i < j < |r.results| ==> r.results[i] != r.results[j]
  {
    SelectionHasNoDuplicates(s);
    ResultsDistinct(Selected(s));
  }

  /** Distinct kinds yield distinct result texts. */
  lemma ResultsDistinct(ks: seq<AgentKind>)
    requires NoDuplicates(ks)
    ensures forall i, j :: 0 <= i < j < |ks| ==> AgentResultsOf(ks)[i] != AgentResultsOf(ks)[j]
  {
    forall i, j | 0 <= i < j < |ks|
      ensures AgentResultsOf(ks)[i] != AgentResultsOf(ks)[j]
    {
      ResultTextsDistinct(ks[i], ks[j]);
    }
  }
}
