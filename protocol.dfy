/** The vocabulary shared by the server and the browser client: the five
    agent kinds with their static descriptors, the lifecycle and agent
    statuses, and the events the server emits on a client's connection. */
module Protocol {
  import opened Wrappers

  /** The keys of the server's `AGENTS` table. */
  datatype AgentKind = Planner | Researcher | Analyst | Writer | Visualizer

  /** The key as it appears on the wire and in selection reasons. */
  function KindName(k: AgentKind): (r: string)
    ensures |r| > 0
  {
    match k
    case Planner => "PLANNER"
    case Researcher => "RESEARCHER"
    case Analyst => "ANALYST"
    case Writer => "WRITER"
    case Visualizer => "VISUALIZER"
  }

  /** One entry of the read-only `AGENTS` table. */
  datatype Descriptor = Descriptor(name: string, description: string, icon: string, color: string)

  function DescriptorOf(k: AgentKind): Descriptor
  {
    match k
    case Planner => Descriptor("Task Planner", "Breaks down complex tasks into subtasks", "P", "#3B82F6")
    case Researcher => Descriptor("Data Researcher", "Gathers and analyzes information", "R", "#10B981")
    case Analyst => Descriptor("Data Analyst", "Processes and analyzes data", "A", "#F59E0B")
    case Writer => Descriptor("Content Writer", "Creates summaries and reports", "W", "#8B5CF6")
    case Visualizer => Descriptor("Chart Creator", "Creates visualizations and charts", "V", "#EF4444")
  }

  /** Wire names identify kinds and descriptors tell them apart. */
  lemma KindsDistinguishable(k1: AgentKind, k2: AgentKind)
    ensures KindName(k1) == KindName(k2) <==> k1 == k2
    ensures DescriptorOf(k1).name == DescriptorOf(k2).name <==> k1 == k2
    ensures DescriptorOf(k1).icon == DescriptorOf(k2).icon <==> k1 == k2
  {
  }

  /** An agent list in which no kind occurs twice. */
  predicate NoDuplicates(ks: seq<AgentKind>)
  {
    forall i, j :: 0 <= i < j < |ks| ==> ks[i] != ks[j]
  }

  /** The task's lifecycle status. */
  datatype TaskStatus = Planning | Executing | Aggregating | Completed | Failed

  function TaskStatusName(s: TaskStatus): string
  {
    match s
    case Planning => "planning"
    case Executing => "executing"
    case Aggregating => "aggregating"
    case Completed => "completed"
    case Failed => "failed"
  }

  /** An agent's run state as the client displays it. */
  datatype AgentStatus = Pending | Running | Done | Crashed

  function AgentStatusName(s: AgentStatus): string
  {
    match s
    case Pending => "pending"
    case Running => "running"
    case Done => "completed"
    case Crashed => "failed"
  }

  /** The `request` field of a submission: a string, or any other value
      (`undefined`, a number, an object), on which `toLowerCase` throws. */
  datatype Payload = Text(s: string) | NonText

  /** One element of the `agents` list the server sends when planning is
      complete: the descriptor spread with the kind, a status and a progress;
      the client later adds the latest message. */
  datatype AgentView = AgentView(
    kind: AgentKind,
    descriptor: Descriptor,
    status: AgentStatus,
    progress: real,
    message: Option<string>)

  /** The object `generateFinalResult` builds. */
  datatype FinalResult = FinalResult(
    originalRequest: string,
    summary: string,
    results: seq<string>,
    insights: seq<string>,
    recommendations: seq<string>,
    timestamp: string)

  /** The task record as serialised into `taskCreated`, at the moment it is
      emitted (its `agents` list is still empty then). */
  datatype TaskSnapshot = TaskSnapshot(id: string, request: Payload, status: TaskStatus, startTime: string)

  /** The events the server emits to the submitting client. */
  datatype Event =
    | TaskCreated(taskId: string, task: TaskSnapshot)
    | TaskUpdate(taskId: string, status: TaskStatus, message: string,
                 agentReasons: Option<seq<string>>, agents: Option<seq<AgentView>>)
    | AgentUpdate(taskId: string, agentType: AgentKind, agentStatus: AgentStatus,
                  progress: real, message: string)
    | TaskCompleted(taskId: string, result: FinalResult)
    | TaskFailed(taskId: string, error: string)

  /** The event is an agent update for kind `k`. */
  predicate IsFor(e: Event, k: AgentKind)
  {
    e.AgentUpdate? && e.agentType == k
  }

  /** The updates of one agent in a trace, in trace order. */
  function OfAgent(evs: seq<Event>, k: AgentKind): (r: seq<Event>)
    ensures |r| <= |evs|
    ensures forall i :: 0 <= i < |r| ==> IsFor(r[i], k)
  {
    if evs == [] then []
    else
      var last := evs[|evs| - 1];
      OfAgent(evs[..|evs| - 1], k) + (if IsFor(last, k) then [last] else [])
  }

  lemma {:induction false} OfAgentAppend(a: seq<Event>, b: seq<Event>, k: AgentKind)
    ensures OfAgent(a + b, k) == OfAgent(a, k) + OfAgent(b, k)
    decreases |b|
  {
    if b != [] {
      assert (a + b)[..|a + b| - 1] == a + b[..|b| - 1];
      OfAgentAppend(a, b[..|b| - 1], k);
    } else {
      assert a + b == a;
    }
  }
}
