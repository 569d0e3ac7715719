# Multi-agent task solver, modelled in Dafny

The system is a small web application. A browser client sends a free-text
request to a Node server over a socket. The server picks a team of
simulated "agents" (PLANNER, RESEARCHER, ANALYST, WRITER, VISUALIZER) by
keyword rules. It runs them concurrently, each emitting progress updates
on a timer, then combines their results and reports completion. The
client folds the stream of events into four pieces of state and shows an
input screen, a live dashboard or the result screen.

This project models:

- **Agent selection** (`Selection`). It is an imperative `SelectAgents`
  that pushes onto two lists with the source's `includes` guards. The
  method is proved equal to a closed-form reference `Selected` /
  `SelectedReasons`, and the selection properties are lemmas about that
  reference.
- **One agent's run** (`AgentRuns`). `ExecuteAgentTask` is a loop over the
  progress ticks, proved against `RunEvents`. The event loop's
  interleaving of the concurrent runs is `Interleave`, driven by a
  schedule given as input.
- **The `submitTask` handler** (`TaskServer`). The task record is a class
  `Task` whose fields are written in place, with a ghost log of its
  statuses. `Server` holds the `activeTasks` map and the sequence of
  emitted events. `SubmitTask` is proved to emit exactly
  `SubmitTrace(...)`, and the lifecycle properties are lemmas about that
  trace.
- **The client** (`ClientApp`). The `App` class holds the four state
  cells (`currentTask`, `taskResult`, `error`, `agentReasons`) with one
  method per socket handler and user action. Each method is tied to a
  pure reducer `Step`, and the screen choice is `ScreenOf`.
- **The dashboard summary** (`Dashboard`): completed / total agents,
  overall progress, header status text, icon and colour, and when the
  execution timeline is shown.
- **End to end** (`EndToEnd`). The server's trace for one submission is
  fed to the client reducer, for every interleaving of the agents'
  updates. Before aggregation the dashboard shows every agent completed
  at 100%. The run ends on the result screen; on failure it ends on the
  dashboard with the error.

Things the environment decides are inputs:

- the task identifier (`uuidv4`);
- the clock readings (`new Date().toISOString()`);
- the random progress draws (`Math.random()`, one per tick, per kind);
- the error message of the thrown exception;
- the schedule that interleaves the agents' timers.

Notes where the behaviour is fixed by the code:

- Inside the handler's `try`, the only thing that can throw is
  `request.toLowerCase()`, when the submitted `request` is not a string.
  So a failed task is always one that failed during planning: created,
  planning, failed. `Payload = Text(s) | NonText` models this. No agent
  failure path exists in the code.
- A tick's progress is `min(95, random * 30 + 20)`. Since `Math.random()`
  is below 1, this lies in [20, 50), and the cap at 95 never binds
  (`AgentRuns.TickProgress`).
- The record's status never holds `aggregating`. That status is only
  announced on the connection (`TaskServer.StatusLogLegal`). Every write
  of the record's status goes through `TaskServer.Task.SetStatus`, which
  admits only legal moves and keeps `Task.Valid`: the ghost status log is
  a legal history that ends in the current status.
- The client never compares an event's `taskId` with its current task
  (`ClientApp.IgnoresTaskId`). After "new task", a late update of the
  previous task brings the dashboard back
  (`ClientApp.LateUpdateReopensDashboard`).
- The header's `getStatusIcon` / `getStatusColor` are written for agent
  statuses (`running`) but applied to the task's lifecycle status. So
  planning, executing and aggregating all show the grey idle clock
  (`Dashboard.HeaderIconFallsThrough`).

## Model

| member | source | states |
|---|---|---|
| Text.Lower | server/index.js:181 | the lower-cased request has the same length and each character is the ASCII lower case of the original one |
| Text.NatToString | server/index.js:236 | `${neededAgents.length}` is a non-empty digit string without leading zero that reads back as the count |
| Protocol.KindsDistinguishable | server/index.js:19-50 | wire names, descriptor names and icons each identify the agent kind one to one |
| Selection.SelectAgents | server/index.js:179-227 | the push-based selection with its `includes` and `length === 0` guards returns exactly the reference kinds and reasons |
| Selection.SelectionHasNoDuplicates | server/index.js:205-218 | no agent kind is selected twice |
| Selection.SelectionSize | server/index.js:179-227 | between one and five agents are selected |
| Selection.ReasonsAligned | server/index.js:187-226 | the reasons list has the agents list's length and reason i begins with the name of kind i and ": " |
| Selection.FallbackExactly | server/index.js:220-227 | the selection is PLANNER, RESEARCHER, WRITER exactly when none of the seven keywords occurs, and then the reasons are the fallback ones |
| Selection.VisualizerIff | server/index.js:195-204 | VISUALIZER is selected if and only if chart, visual or graph occurs in the lower-cased request |
| Selection.AnalysisFirst | server/index.js:183-194 | with summarize/analyze the selection starts with PLANNER, RESEARCHER, ANALYST, WRITER and their reasons, only VISUALIZER can follow, and the data rule adds nothing |
| Selection.DataWithoutAnalysis | server/index.js:205-218 | without summarize/analyze a financial/data request gets RESEARCHER then ANALYST after the optional VISUALIZER |
| Selection.HelloWorldExample | server/index.js:220-227 | "hello world" selects PLANNER, RESEARCHER, WRITER with three reasons |
| Selection.MakeAChartExample | server/index.js:195-204 | "make a chart" selects only VISUALIZER with its reason |
| Selection.AnalyzeFeedbackExample | server/index.js:181-194 | "ANALYZE: customer_feedback" is lower-cased first and selects the four analysis agents with the analysis reasons |
| AgentRuns.ExecutionTime | server/index.js:56-64 | every kind runs between 2000 and 4000 ms, a whole number of 500 ms tick periods |
| AgentRuns.ExecutionTimesDistinct | server/index.js:56-82 | the kinds' durations are pairwise different and span four to eight tick periods, which bounds each run's ticks (used by `TaskServer.AgentRunsUntilDone`) |
| AgentRuns.TickProgress | server/index.js:74 | a tick's progress for a draw in [0, 1) lies in [20, 50) and never exceeds 95 |
| AgentRuns.ResultTextsDistinct | server/index.js:86-125 | each kind's result headline is different from every other kind's, so the final result's entries are pairwise different (used by `TaskServer.FinalResultsDistinct`) |
| AgentRuns.ExecuteAgentTask | server/index.js:53-136 | the loop emits the start event, one running event per tick and the completed event, and returns the kind's result text |
| AgentRuns.RunShape | server/index.js:65-133 | a run is all updates of its own kind and task: running at 0 first, running ticks in [20, 50) in between, completed at 100 with the result text last and nowhere earlier |
| AgentRuns.InterleaveProjects | server/index.js:246-255 | for every schedule, the updates of agent i in the interleaved stream are exactly agent i's run, complete and in order |
| AgentRuns.InterleaveOnlyAgents | server/index.js:246-255 | the interleaved stream holds only agent updates of the selected kinds |
| TaskServer.PendingViews | server/index.js:238-243 | the planning-complete update lists one entry per selected kind, in order, with its descriptor, pending at 0 |
| TaskServer.GenerateFinalResult | server/index.js:137-151 | the final result echoes the request, carries the agents' results as given, and two insights and two recommendations |
| TaskServer.RunAllAgents | server/index.js:246-255 | every selected agent is run, each run is exactly its RunEvents, and the results are collected in selection order |
| TaskServer.Task.SetStatus | server/index.js:231 | only a legal move is made; the status is replaced, appended to the status log, the log stays a legal history ending in the status, and no other field of the record changes |
| TaskServer.Server.Open | server/index.js:158-176 | a fresh record in planning status is stored under its identifier, and taskCreated and the planning update are emitted |
| TaskServer.Server.Plan | server/index.js:179-244 | the record gets the selected agents and reasons and the executing status, and the planning-complete update is emitted |
| TaskServer.Server.Aggregate | server/index.js:257-273 | the aggregating update is emitted, the record is completed with the final result and end time, and the completion is emitted |
| TaskServer.Server.Fail | server/index.js:274-283 | the record is marked failed with the error message, and taskFailed is emitted |
| TaskServer.Server.PlanAndExecute | server/index.js:178-273 | for a string request the try block emits exactly the execution part of the trace, with the agents' updates in the schedule's order, and leaves the record completed |
| TaskServer.Server.SubmitTask | server/index.js:156-284 | the handler stores the new record in activeTasks, emits exactly SubmitTrace, and leaves the record completed with selection and result, or failed with the error; the record's status log is StatusLog(request) and ends in its status |
| TaskServer.StatusLogLegal | server/index.js:160-276 | the record moves planning, executing, completed or planning, failed; it never holds aggregating |
| TaskServer.TraceShape | server/index.js:156-284 | the trace opens with taskCreated and planning; a non-string request then fails; otherwise executing with the reasons and pending agents, agent updates of selected kinds for this task only, aggregating, completed |
| TaskServer.EveryAgentCompletesBeforeAggregating | server/index.js:246-261 | each selected agent's updates all lie between the executing and aggregating announcements, form its full run, and end with its completed update at 100 |
| TaskServer.AgentRunsUntilDone | server/index.js:65-82 | with draws of Math.random(), at most one per interval period of the kind's execution time, every update of an agent before its last is running (start at 0, ticks in [20, 50)), none is completed, and there are at most duration / 500 ticks, so at most ten updates |
| TaskServer.FinalResultFollowsSelection | server/index.js:265-273 | the completion carries the request and one result text per selected agent in selection order |
| TaskServer.FinalResultsDistinct | server/index.js:137-151 | no two entries of the final result's list are equal |
| ClientApp.FromSnapshot | client/src/App.js:29-33 | the client's task after taskCreated has the record's identifier, request and status and an empty agents list |
| ClientApp.MergeTaskUpdate | client/src/App.js:35-40 | a task update sets status, message and taskId, keeps the previous agents and reasons unless the event carries them, and keeps identity fields of a previous task |
| ClientApp.MergeAgents | client/src/App.js:50-60 | entries of the addressed kind take the update's status, progress and message; every other entry is unchanged; the length is kept |
| ClientApp.ApplyAgentUpdate | client/src/App.js:46-64 | a missing task stays missing; a task without agents gets an empty list; only the agents field changes |
| ClientApp.WithStatus | client/src/App.js:66-74 | completion and failure set the status on the previous task, or on a bare task when there was none |
| ClientApp.ScreenOf | client/src/App.js:124-165 | the screen is input, dashboard or result exactly when the corresponding render condition holds |
| ClientApp.ExactlyOneScreen | client/src/App.js:124-165 | in every state exactly one of the three render conditions holds |
| ClientApp.TaskCreatedResets | client/src/App.js:29-33 | taskCreated replaces the task, clears result and error, keeps the reasons, and shows the dashboard |
| ClientApp.TaskUpdateMerges | client/src/App.js:35-44 | a task update keeps the agents when it carries none, replaces the reasons only when it carries them, and leaves result and error alone |
| ClientApp.AgentUpdateIsLocal | client/src/App.js:46-64 | an agent update changes only the addressed kind's entries and leaves every other cell as it was |
| ClientApp.OutcomeEvents | client/src/App.js:66-74 | taskCompleted sets the result and the completed status and shows the result screen; taskFailed sets the error and the failed status |
| ClientApp.NewTaskShowsInput | client/src/App.js:92-96 | new task returns to the input screen but keeps the previous reasons |
| ClientApp.IgnoresTaskId | client/src/App.js:29-74 | an event for another task changes the cells as one for the current task would, up to the identifier a task update spreads in |
| ClientApp.LateUpdateReopensDashboard | client/src/App.js:35-40 | a task update arriving after new task brings back the dashboard, for a task with no request |
| ClientApp.App.OnTaskCreated | client/src/App.js:29-33 | the handler replaces the task and clears result and error |
| ClientApp.App.OnTaskUpdate | client/src/App.js:35-44 | the handler merges the update into the task and replaces the reasons only when given |
| ClientApp.App.OnAgentUpdate | client/src/App.js:46-64 | the handler applies the agent update to the task's agents only |
| ClientApp.App.OnTaskCompleted | client/src/App.js:66-69 | the handler stores the result and marks the task completed |
| ClientApp.App.OnTaskFailed | client/src/App.js:71-74 | the handler stores the error and marks the task failed |
| ClientApp.App.Receive | client/src/App.js:29-85 | dispatching an event to its handler moves the cells exactly as the reducer Step does |
| ClientApp.App.HandleSubmitTask | client/src/App.js:87-90 | the error is cleared and the request is appended to the sent requests |
| ClientApp.App.HandleNewTask | client/src/App.js:92-96 | task, result and error are cleared and the reasons kept |
| Dashboard.CountCompleted | client/src/components/AgentDashboard.js:59-60 | the completed count is at most the list length, equals it exactly when every agent is completed, and is 0 exactly when none is |
| Dashboard.CompletedWithinTotal | client/src/components/AgentDashboard.js:59-61 | completed agents never exceed total agents |
| Dashboard.NothingToShow | client/src/components/AgentDashboard.js:59-63 | with no task or no agents, both counts and the progress are 0 |
| Dashboard.ProgressRange | client/src/components/AgentDashboard.js:62-63 | overall progress lies in [0, 100] and is 100 exactly when there are agents and all are completed |
| Dashboard.StatusTextsDistinct | client/src/components/AgentDashboard.js:42-57 | the five lifecycle statuses have five different texts, none the default, and any other value reads "Processing..." |
| Dashboard.HeaderIconFallsThrough | client/src/components/AgentDashboard.js:93-96 | the header shows the grey idle clock exactly for no task or planning/executing/aggregating, and never the spinning clock |
| Dashboard.TimelineOnlyWhileExecuting | client/src/components/AgentDashboard.js:216 | the execution timeline is shown exactly while the task's status is executing |
| EndToEnd.AfterPlanning | server/index.js:169-244 | after created, planning and planning-complete the client shows the executing task with every selected agent pending and the selection's reasons |
| EndToEnd.AllAgentsCompleteOnDashboard | server/index.js:246-257 | just before aggregating, for every interleaving, the dashboard shows every selected agent completed, progress 100 and the timeline |
| EndToEnd.SuccessEndsOnResult | server/index.js:257-273 | after the whole trace of a string request the client shows the result screen with the final result, the task completed at 100% and the selection's reasons |
| EndToEnd.FailureEndsOnDashboard | server/index.js:274-283 | after the trace of a non-string request the client stays on the dashboard with the error, a failed task, no agents and "Task failed" |

## Left out

- The transport is left out: Express, the `/health` and `/api/agents` routes, socket.io, CORS, the `connect` / `disconnect` handlers and `isConnected`. Each submission's events are modelled as the sequence emitted on its own connection.
- The waits (1500 ms, the agents' durations, 1000 ms) and the timers are not modelled as time. The interleaving of concurrent runs is an input schedule (`AgentRuns.Interleave`).
- The number of ticks per run is the number of draws given. `TaskServer.ValidDrawTable` bounds it by the kind's duration over the 500 ms period, but does not pin it, because whether the interval or the timeout fires first at the same deadline, and how late timers fire, is left to the runtime.
- `Math.random()`, `uuidv4` and `new Date().toISOString()` are inputs. Progress values are exact reals, not IEEE doubles.
- AgentRuns.ResultText: is only each template's headline. The bullet lines with random counts are not modelled, and neither is the unreachable `default` case.
- AgentRuns.ExecutionTime: the `|| 2000` fallback is not modelled, because every kind has an entry.
- A `data` payload that is `null` or `undefined` is not modelled. Destructuring it throws before the task exists, outside the `try`.
- Lower-casing is ASCII only. Unicode case mapping is not modelled.
- `console.log` / `console.error` and the presentational components (TaskInput, TaskResult, AgentCard, Header, TaskProgress, animations) are not modelled.
- Several sockets submitting at once are not modelled, and neither is the process-wide `activeTasks` map shared between them. `Server` models one connection's handler runs one after another.
