/** The browser client's `App` component: four state cells (`currentTask`,
    `taskResult`, `error`, `agentReasons`) updated by one handler per server
    event and by the two user actions, and the choice of which of the three
    screens is shown. */
module ClientApp {
  import opened Wrappers
  import opened Protocol

  /** The client's view of the task: whatever the events spread into it.
      A field that no event has supplied is `None`. */
  datatype ClientTask = ClientTask(
    id: Option<string>,
    request: Option<Payload>,
    startTime: Option<string>,
    taskId: Option<string>,
    status: TaskStatus,
    message: Option<string>,
    agents: Option<seq<AgentView>>,
    agentReasons: Option<seq<string>>)

  /** The four state cells. */
  datatype Ui = Ui(
    currentTask: Option<ClientTask>,
    taskResult: Option<FinalResult>,
    error: Option<string>,
    agentReasons: seq<string>)

  const InitialUi: Ui := Ui(None, None, None, [])

  /** `taskCreated`: the serialised record, whose `agents` list is empty. */
  function FromSnapshot(task: TaskSnapshot): (t: ClientTask)
    ensures t.id == Some(task.id) && t.request == Some(task.request) && t.status == task.status
    ensures t.agents == Some([]) && t.agentReasons == None
  {
    ClientTask(Some(task.id), Some(task.request), Some(task.startTime), None, task.status, None, Some([]), None)
  }

  /** A task built by spreading into `null`: only the given status is set. */
  function BareTask(status: TaskStatus): ClientTask
  {
    ClientTask(None, None, None, None, status, None, None, None)
  }

  /** `{ ...prev, ...data, agents: data.agents || prev?.agents }`. The event's
      `agentReasons` is spread only when the event carries it. */
  function MergeTaskUpdate(prev: Option<ClientTask>, taskId: string, status: TaskStatus, message: string,
                           agentReasons: Option<seq<string>>, agents: Option<seq<AgentView>>): (t: ClientTask)
    ensures t.status == status && t.message == Some(message) && t.taskId == Some(taskId)
    ensures agents.Some? ==> t.agents == agents
    ensures agents.None? ==> t.agents == (if prev.Some? then prev.value.agents else None)
    ensures agentReasons.Some? ==> t.agentReasons == agentReasons
    ensures agentReasons.None? ==> t.agentReasons == (if prev.Some? then prev.value.agentReasons else None)
    ensures prev.Some? ==> t.id == prev.value.id && t.request == prev.value.request && t.startTime == prev.value.startTime
    ensures prev.None? ==> t.id == None && t.request == None && t.startTime == None
  {
    var base := prev.GetOr(BareTask(status));
    var keptAgents := if prev.Some? then prev.value.agents else None;
    base.(taskId := Some(taskId), status := status, message := Some(message),
          agents := if agents.Some? then agents else keptAgents,
          agentReasons := if agentReasons.Some? then agentReasons else base.agentReasons)
  }

  /** The entry of an agent that an update addresses. */
  function Updated(a: AgentView, status: AgentStatus, progress: real, message: string): AgentView
  {
    a.(status := status, progress := progress, message := Some(message))
  }

  /** `agents.map(agent => agent.type === agentType ? {...agent, status,
      progress, message} : agent)`: the entries of kind `agentType` take the
      update, every other entry stays as it was. */
  function MergeAgents(agents: seq<AgentView>, agentType: AgentKind, status: AgentStatus,
                       progress: real, message: string): (r: seq<AgentView>)
    ensures |r| == |agents|
    ensures forall i :: 0 <= i < |agents| ==>
              r[i] == if agents[i].kind == agentType then Updated(agents[i], status, progress, message) else agents[i]
  {
    if agents == [] then []
    else
      var a := agents[0];
      [if a.kind == agentType then Updated(a, status, progress, message) else a]
      + MergeAgents(agents[1..], agentType, status, progress, message)
  }

  /** The `agentUpdate` updater: a missing task stays missing, a task
      without an agent list gets an empty one, and only `agents` changes. */
  function ApplyAgentUpdate(prev: Option<ClientTask>, agentType: AgentKind, status: AgentStatus,
                            progress: real, message: string): (r: Option<ClientTask>)
    ensures prev.None? <==> r.None?
    ensures prev.Some? ==> r.value == prev.value.(agents := r.value.agents)
    ensures prev.Some? && prev.value.agents.None? ==> r.value.agents == Some([])
    ensures prev.Some? && prev.value.agents.Some? ==>
              r.value.agents == Some(MergeAgents(prev.value.agents.value, agentType, status, progress, message))
  {
    match prev
    case None => None
    case Some(t) =>
      Some(t.(agents := Some(MergeAgents(t.agents.GetOr([]), agentType, status, progress, message))))
  }

  /** `{ ...prev, status }` for `taskCompleted` and `taskFailed`. */
  function WithStatus(prev: Option<ClientTask>, status: TaskStatus): (t: ClientTask)
    ensures t.status == status
    ensures prev.Some? ==> t == prev.value.(status := status)
    ensures prev.None? ==> t == BareTask(status)
  {
    match prev
    case None => BareTask(status)
    case Some(p) => p.(status := status)
  }

  /** The effect of one event on the four cells. */
  function Step(ui: Ui, ev: Event): Ui
  {
    match ev
    case TaskCreated(_, task) =>
      ui.(currentTask := Some(FromSnapshot(task)), taskResult := None, error := None)
    case TaskUpdate(taskId, status, message, reasons, agents) =>
      ui.(currentTask := Some(MergeTaskUpdate(ui.currentTask, taskId, status, message, reasons, agents)),
          agentReasons := if reasons.Some? then reasons.value else ui.agentReasons)
    case AgentUpdate(_, agentType, status, progress, message) =>
      ui.(currentTask := ApplyAgentUpdate(ui.currentTask, agentType, status, progress, message))
    case TaskCompleted(_, result) =>
      ui.(taskResult := Some(result), currentTask := Some(WithStatus(ui.currentTask, Completed)))
    case TaskFailed(_, error) =>
      ui.(error := Some(error), currentTask := Some(WithStatus(ui.currentTask, Failed)))
  }

  /** The cells after a sequence of events. */
  function Run(ui: Ui, evs: seq<Event>): Ui
  {
    if evs == [] then ui else Step(Run(ui, evs[..|evs| - 1]), evs[|evs| - 1])
  }

  /** `handleNewTask`. */
  function NewTask(ui: Ui): Ui
  {
    ui.(currentTask := None, taskResult := None, error := None)
  }

  /** `handleSubmitTask` on the cells (the request itself goes to the server). */
  function Submitted(ui: Ui): Ui
  {
    ui.(error := None)
  }

  /** The three screens of the main area. */
  datatype Screen = InputScreen | DashboardScreen | ResultScreen

  /** The three render conditions, as written. */
  predicate ShowsInput(ui: Ui) { ui.currentTask.None? && ui.taskResult.None? }
  predicate ShowsDashboard(ui: Ui) { ui.currentTask.Some? && ui.taskResult.None? }
  predicate ShowsResult(ui: Ui) { ui.taskResult.Some? }

  /** The screen shown; the three conditions select exactly one. */
  function ScreenOf(ui: Ui): (sc: Screen)
    ensures sc == InputScreen <==> ShowsInput(ui)
    ensures sc == DashboardScreen <==> ShowsDashboard(ui)
    ensures sc == ResultScreen <==> ShowsResult(ui)
  {
    if ui.taskResult.Some? then ResultScreen
    else if ui.currentTask.Some? then DashboardScreen
    else InputScreen
  }

  /** For every state exactly one of the three screens is rendered. */
  lemma ExactlyOneScreen(ui: Ui)
    ensures ShowsInput(ui) || ShowsDashboard(ui) || ShowsResult(ui)
    ensures !(ShowsInput(ui) && ShowsDashboard(ui))
    ensures !(ShowsInput(ui) && ShowsResult(ui))
    ensures !(ShowsDashboard(ui) && ShowsResult(ui))
  {
  }

  lemma {:induction false} RunAppend(ui: Ui, a: seq<Event>, b: seq<Event>)
    ensures Run(ui, a + b) == Run(Run(ui, a), b)
    decreases |b|
  {
    if b == [] {
      assert a + b == a;
    } else {
      assert (a + b)[..|a + b| - 1] == a + b[..|b| - 1];
      RunAppend(ui, a, b[..|b| - 1]);
    }
  }

  /** `taskCreated` replaces the task and clears the result and the error. */
  lemma TaskCreatedResets(ui: Ui, taskId: string, task: TaskSnapshot)
    ensures var u := Step(ui, TaskCreated(taskId, task));
      && u.currentTask == Some(FromSnapshot(task)) && u.taskResult == None && u.error == None
      && u.agentReasons == ui.agentReasons && ScreenOf(u) == DashboardScreen
  {
  }

  /** `taskUpdate` keeps the previous agents when it carries none, and
      replaces the reasons only when it carries them. */
  lemma TaskUpdateMerges(ui: Ui, taskId: string, status: TaskStatus, message: string,
                         reasons: Option<seq<string>>, agents: Option<seq<AgentView>>)
    requires ui.currentTask.Some?
    ensures var u := Step(ui, TaskUpdate(taskId, status, message, reasons, agents));
      && u.currentTask.Some? && u.currentTask.value.status == status
      && (agents.None? ==> u.currentTask.value.agents == ui.currentTask.value.agents)
      && (agents.Some? ==> u.currentTask.value.agents == agents)
      && (reasons.None? ==> u.agentReasons == ui.agentReasons)
      && (reasons.Some? ==> u.agentReasons == reasons.value)
      && u.taskResult == ui.taskResult && u.error == ui.error
  {
  }

  /** `agentUpdate` changes the entries of the addressed kind only, keeps the
      list's length, leaves a missing task missing and every other cell as
      it was. */
  lemma AgentUpdateIsLocal(ui: Ui, taskId: string, agentType: AgentKind, status: AgentStatus,
                           progress: real, message: string, i: nat)
    ensures var u := Step(ui, AgentUpdate(taskId, agentType, status, progress, message));
      && (ui.currentTask.None? <==> u.currentTask.None?)
      && u.taskResult == ui.taskResult && u.error == ui.error && u.agentReasons == ui.agentReasons
      && (ui.currentTask.Some? && ui.currentTask.value.agents.Some? && i < |ui.currentTask.value.agents.value| ==>
            var before := ui.currentTask.value.agents.value;
            var after := u.currentTask.value.agents.value;
            && |after| == |before|
            && (before[i].kind != agentType ==> after[i] == before[i])
            && (before[i].kind == agentType ==>
                  after[i].status == status && after[i].progress == progress && after[i].message == Some(message)
                  && after[i].kind == before[i].kind && after[i].descriptor == before[i].descriptor))
  {
  }

  /** `taskCompleted` and `taskFailed` set the status and their own cell and
      leave every other field of the task as it was. */
  lemma OutcomeEvents(ui: Ui, taskId: string, result: FinalResult, error: string)
    requires ui.currentTask.Some?
    ensures var u := Step(ui, TaskCompleted(taskId, result));
      && u.taskResult == Some(result) && u.currentTask == Some(ui.currentTask.value.(status := Completed))
      && u.error == ui.error && ScreenOf(u) == ResultScreen
    ensures var u := Step(ui, TaskFailed(taskId, error));
      && u.error == Some(error) && u.currentTask == Some(ui.currentTask.value.(status := Failed))
      && u.taskResult == ui.taskResult
  {
  }

  /** `handleNewTask` brings back the input screen but keeps the reasons of
      the previous task. */
  lemma NewTaskShowsInput(ui: Ui)
    ensures ScreenOf(NewTask(ui)) == InputScreen
    ensures NewTask(ui).agentReasons == ui.agentReasons
  {
  }

  /** The same event, sent for the task `id`. */
  function Retargeted(ev: Event, id: string): (r: Event)
    ensures r.taskId == id
  {
    match ev
    case TaskCreated(_, task) => TaskCreated(id, task)
    case TaskUpdate(_, status, message, reasons, agents) => TaskUpdate(id, status, message, reasons, agents)
    case AgentUpdate(_, agentType, status, progress, message) => AgentUpdate(id, agentType, status, progress, message)
    case TaskCompleted(_, result) => TaskCompleted(id, result)
    case TaskFailed(_, error) => TaskFailed(id, error)
  }

  /** The client never filters on `taskId`: an event of another task changes
      the cells as one of the current task would, except that a task update
      spreads its own identifier into the task. */
  lemma IgnoresTaskId(ui: Ui, ev: Event, otherId: string)
    ensures !ev.TaskUpdate? ==> Step(ui, ev) == Step(ui, Retargeted(ev, otherId))
    ensures ev.TaskUpdate? ==>
              var u, v := Step(ui, ev), Step(ui, Retargeted(ev, otherId));
              && u.(currentTask := None) == v.(currentTask := None)
              && u.currentTask.value.(taskId := None) == v.currentTask.value.(taskId := None)
  {
  }

  /** A task update that arrives after `handleNewTask` (its task is still
      running on the server) brings the dashboard back, for a task that has
      no request. */
  lemma LateUpdateReopensDashboard(ui: Ui, taskId: string, status: TaskStatus, message: string)
    ensures var u := Step(NewTask(ui), TaskUpdate(taskId, status, message, None, None));
      && ScreenOf(u) == DashboardScreen && u.currentTask.value.request == None
  {
  }

  /** The component. Its state cells are fields; each handler is a method. */
  class App {
    var currentTask: Option<ClientTask>
    var taskResult: Option<FinalResult>
    var error: Option<string>
    var agentReasons: seq<string>
    /** The requests sent with `submitTask`, in order. */
    var submitted: seq<string>

    function State(): Ui
      reads this
    {
      Ui(currentTask, taskResult, error, agentReasons)
    }

    constructor ()
      ensures State() == InitialUi && submitted == []
    {
      currentTask, taskResult, error, agentReasons := None, None, None, [];
      submitted := [];
    }

    method OnTaskCreated(task: TaskSnapshot)
      modifies this
      ensures currentTask == Some(FromSnapshot(task)) && taskResult == None && error == None
      ensures agentReasons == old(agentReasons) && submitted == old(submitted)
    {
      currentTask := Some(FromSnapshot(task));
      taskResult := None;
      error := None;
    }

    method OnTaskUpdate(taskId: string, status: TaskStatus, message: string,
                        reasons: Option<seq<string>>, agents: Option<seq<AgentView>>)
      modifies this
      ensures currentTask == Some(MergeTaskUpdate(old(currentTask), taskId, status, message, reasons, agents))
      ensures agentReasons == if reasons.Some? then reasons.value else old(agentReasons)
      ensures taskResult == old(taskResult) && error == old(error) && submitted == old(submitted)
    {
      currentTask := Some(MergeTaskUpdate(currentTask, taskId, status, message, reasons, agents));
      if reasons.Some? {
        agentReasons := reasons.value;
      }
    }

    method OnAgentUpdate(agentType: AgentKind, status: AgentStatus, progress: real, message: string)
      modifies this
      ensures currentTask == ApplyAgentUpdate(old(currentTask), agentType, status, progress, message)
      ensures taskResult == old(taskResult) && error == old(error)
      ensures agentReasons == old(agentReasons) && submitted == old(submitted)
    {
      currentTask := ApplyAgentUpdate(currentTask, agentType, status, progress, message);
    }

    method OnTaskCompleted(result: FinalResult)
      modifies this
      ensures taskResult == Some(result) && currentTask == Some(WithStatus(old(currentTask), Completed))
      ensures error == old(error) && agentReasons == old(agentReasons) && submitted == old(submitted)
    {
      taskResult := Some(result);
      currentTask := Some(WithStatus(currentTask, Completed));
    }

    method OnTaskFailed(err: string)
      modifies this
      ensures error == Some(err) && currentTask == Some(WithStatus(old(currentTask), Failed))
      ensures taskResult == old(taskResult) && agentReasons == old(agentReasons) && submitted == old(submitted)
    {
      error := Some(err);
      currentTask := Some(WithStatus(currentTask, Failed));
    }

    /** The socket dispatching one event to its handler. */
    method Receive(ev: Event)
      modifies this
      ensures State() == Step(old(State()), ev) && submitted == old(submitted)
    {
      match ev
      case TaskCreated(_, task) => OnTaskCreated(task);
      case TaskUpdate(taskId, status, message, reasons, agents) => OnTaskUpdate(taskId, status, message, reasons, agents);
      case AgentUpdate(_, agentType, status, progress, message) => OnAgentUpdate(agentType, status, progress, message);
      case TaskCompleted(_, result) => OnTaskCompleted(result);
      case TaskFailed(_, err) => OnTaskFailed(err);
    }

    /** `handleSubmitTask`: the error is cleared before the request is sent. */
    method HandleSubmitTask(request: string)
      modifies this
      ensures State() == Submitted(old(State()))
      ensures submitted == old(submitted) + [request]
    {
      error := None;
      submitted := submitted + [request];
    }

    /** `handleNewTask`. */
    method HandleNewTask()
      modifies this
      ensures State() == NewTask(old(State())) && submitted == old(submitted)
    {
      currentTask, taskResult, error := None, None, None;
    }
  }
}
