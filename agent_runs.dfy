/** One agent's simulated run (`executeAgentTask`): a running event at 0,
    one running event per interval tick with a random progress, and a single
    completed event at 100 carrying the kind's result text. The event loop
    interleaves the runs of the selected agents on the one connection; the
    interleaving is chosen by a schedule given as input. */
module AgentRuns {
  import opened Protocol

  /** The `executionTimes` table, in milliseconds. Its `|| 2000` default is
      never taken: every kind has an entry. */
  function ExecutionTime(k: AgentKind): (ms: nat)
    ensures 2000 <= ms <= 4000
    ensures ms % TickInterval == 0
  {
    match k
    case Planner => 2000
    case Researcher => 4000
    case Analyst => 3000
    case Writer => 2500
    case Visualizer => 3500
  }

  /** The `setInterval` period of the progress ticks, in milliseconds. */
  const TickInterval: nat := 500

  /** The kinds run for different times, at most eight ticks each. */
  lemma ExecutionTimesDistinct(k1: AgentKind, k2: AgentKind)
    ensures ExecutionTime(k1) == ExecutionTime(k2) <==> k1 == k2
    ensures 4 <= ExecutionTime(k1) / TickInterval <= 8
  {
  }

  /** `Math.min(95, draw * 30 + 20)` for a draw of `Math.random()`. */
  function TickProgress(draw: real): (p: real)
    ensures 0.0 <= draw < 1.0 ==> 20.0 <= p < 50.0
    ensures p <= 95.0
  {
    var raw := draw * 30.0 + 20.0;
    if raw < 95.0 then raw else 95.0
  }

  /** The first line of the kind's result template; the random counts in the
      lines that follow it are not modelled. */
  function ResultText(k: AgentKind): string
  {
    match k
    case Planner => "TASK BREAKDOWN COMPLETE"
    case Researcher => "RESEARCH COMPLETED"
    case Analyst => "ANALYSIS COMPLETED"
    case Writer => "CONTENT GENERATED"
    case Visualizer => "VISUALIZATION CREATED"
  }

  lemma ResultTextsDistinct(k1: AgentKind, k2: AgentKind)
    ensures ResultText(k1) == ResultText(k2) <==> k1 == k2
  {
  }

  function StartEvent(taskId: string, k: AgentKind): Event
  {
    AgentUpdate(taskId, k, Running, 0.0, "Starting " + DescriptorOf(k).name + "...")
  }

  function TickEvent(taskId: string, k: AgentKind, subtask: string, draw: real): Event
  {
    AgentUpdate(taskId, k, Running, TickProgress(draw), DescriptorOf(k).name + " is working on: " + subtask)
  }

  function DoneEvent(taskId: string, k: AgentKind): Event
  {
    AgentUpdate(taskId, k, Done, 100.0, ResultText(k))
  }

  function Ticks(taskId: string, k: AgentKind, subtask: string, draws: seq<real>): seq<Event>
  {
    seq(|draws|, i requires 0 <= i < |draws| => TickEvent(taskId, k, subtask, draws[i]))
  }

  /** Everything one run emits, given the random draws of its ticks. */
  function RunEvents(taskId: string, k: AgentKind, subtask: string, draws: seq<real>): seq<Event>
  {
    [StartEvent(taskId, k)] + Ticks(taskId, k, subtask, draws) + [DoneEvent(taskId, k)]
  }

  predicate ValidDraws(draws: seq<real>)
  {
    forall i :: 0 <= i < |draws| ==> 0.0 <= draws[i] < 1.0
  }

  /** The fixed shape of a run: it is made of updates for its own kind and
      task, it starts running at 0, its intermediate updates are running with
      a progress in [20, 50), and its last event, and only that one, is
      completed at 100 with the kind's result text. */
  lemma RunShape(taskId: string, k: AgentKind, subtask: string, draws: seq<real>)
    requires ValidDraws(draws)
    ensures var r := RunEvents(taskId, k, subtask, draws);
      && |r| == |draws| + 2
      && (forall i :: 0 <= i < |r| ==> IsFor(r[i], k) && r[i].taskId == taskId)
      && r[0].agentStatus == Running && r[0].progress == 0.0
      && (forall i :: 0 < i < |r| - 1 ==>
            r[i].agentStatus == Running && 20.0 <= r[i].progress < 50.0)
      && r[|r| - 1] == AgentUpdate(taskId, k, Done, 100.0, ResultText(k))
      && (forall i :: 0 <= i < |r| - 1 ==> r[i].agentStatus != Done)
  {
    var r := RunEvents(taskId, k, subtask, draws);
    forall i | 0 < i < |r| - 1
      ensures r[i] == TickEvent(taskId, k, subtask, draws[i - 1])
    {
    }
  }

  /** The simulator itself: the start event, one event per interval tick
      until the run's time is up, then the completed event; it returns the
      result text, as the promise it stands for resolves to it. */
  method ExecuteAgentTask(taskId: string, agentType: AgentKind, subtask: string, draws: seq<real>)
    returns (events: seq<Event>, result: string)
    ensures events == RunEvents(taskId, agentType, subtask, draws)
    ensures result == ResultText(agentType)
  {
    var agent := DescriptorOf(agentType);
    events := [AgentUpdate(taskId, agentType, Running, 0.0, "Starting " + agent.name + "...")];
    var tick := 0;
    while tick < |draws|
      invariant 0 <= tick <= |draws|
      invariant events == [StartEvent(taskId, agentType)] + Ticks(taskId, agentType, subtask, draws[..tick])
    {
      var progress := TickProgress(draws[tick]);
      events := events + [AgentUpdate(taskId, agentType, Running, progress, agent.name + " is working on: " + subtask)];
      tick := tick + 1;
    }
    assert draws[..tick] == draws;
    result := ResultText(agentType);
    events := events + [AgentUpdate(taskId, agentType, Done, 100.0, result)];
  }

  /** A sequence made only of updates for `k` is its own projection on `k`,
      and projects to nothing on any other kind. */
  lemma OfAgentOfRun(run: seq<Event>, k: AgentKind, other: AgentKind)
    requires forall i :: 0 <= i < |run| ==> IsFor(run[i], k)
    ensures OfAgent(run, k) == run
    ensures other != k ==> OfAgent(run, other) == []
  {
    OwnProjection(run, k);
    if other != k {
      ForeignProjection(run, k, other);
    }
  }

  lemma {:induction false} OwnProjection(run: seq<Event>, k: AgentKind)
    requires forall i :: 0 <= i < |run| ==> IsFor(run[i], k)
    ensures OfAgent(run, k) == run
    decreases |run|
  {
    if run != [] {
      var n := |run| - 1;
      var init := run[..n];
      assert forall i :: 0 <= i < |init| ==> IsFor(init[i], k) by {
        forall i | 0 <= i < |init| ensures IsFor(init[i], k) {
          assert init[i] == run[i];
        }
      }
      OwnProjection(init, k);
      assert IsFor(run[n], k);
      assert init + [run[n]] == run;
    }
  }

  lemma {:induction false} ForeignProjection(run: seq<Event>, k: AgentKind, other: AgentKind)
    requires forall i :: 0 <= i < |run| ==> IsFor(run[i], k)
    requires other != k
    ensures OfAgent(run, other) == []
    decreases |run|
  {
    if run != [] {
      var n := |run| - 1;
      var init := run[..n];
      assert forall i :: 0 <= i < |init| ==> IsFor(init[i], k) by {
        forall i | 0 <= i < |init| ensures IsFor(init[i], k) {
          assert init[i] == run[i];
        }
      }
      ForeignProjection(init, k, other);
      assert IsFor(run[n], k);
    }
  }

  /** The runs one after the other, in agent order. */
  function Flatten(runs: seq<seq<Event>>): seq<Event>
  {
    if runs == [] then [] else Flatten(runs[..|runs| - 1]) + runs[|runs| - 1]
  }

  /** The event loop's delivery of the runs: each schedule entry names the
      agent whose next event comes next (entries naming no agent, or one
      that has nothing left, deliver nothing); what the schedule leaves is
      delivered agent by agent. */
  function Interleave(runs: seq<seq<Event>>, schedule: seq<nat>): seq<Event>
    decreases |schedule|
  {
    if schedule == [] then Flatten(runs)
    else
      var j := schedule[0];
      if j < |runs| && runs[j] != [] then
        [runs[j][0]] + Interleave(runs[j := runs[j][1..]], schedule[1..])
      else Interleave(runs, schedule[1..])
  }

  /** Run `i` is made of updates for kind `i`. */
  predicate RunsOwned(kinds: seq<AgentKind>, runs: seq<seq<Event>>)
  {
    |runs| == |kinds| &&
    forall i, n :: 0 <= i < |runs| && 0 <= n < |runs[i]| ==> IsFor(runs[i][n], kinds[i])
  }

  lemma {:induction false} FlattenProjects(kinds: seq<AgentKind>, runs: seq<seq<Event>>, i: nat)
    requires RunsOwned(kinds, runs) && NoDuplicates(kinds) && i < |kinds|
    ensures OfAgent(Flatten(runs), kinds[i]) == runs[i]
    decreases |runs|
  {
    var n := |runs| - 1;
    var k := kinds[i];
    RunsOwnedPrefix(kinds, runs, n);
    OfAgentAppend(Flatten(runs[..n]), runs[n], k);
    assert forall m :: 0 <= m < |runs[n]| ==> IsFor(runs[n][m], kinds[n]);
    OfAgentOfRun(runs[n], kinds[n], k);
    if i < n {
      assert kinds[n] != k;
      assert NoDuplicates(kinds[..n]) by {
        forall a, b | 0 <= a < b < n ensures kinds[..n][a] != kinds[..n][b] {
          assert kinds[..n][a] == kinds[a] && kinds[..n][b] == kinds[b];
        }
      }
      FlattenProjects(kinds[..n], runs[..n], i);
      assert kinds[..n][i] == k && runs[..n][i] == runs[i];
    } else {
      assert k !in kinds[..n] by {
        forall a | 0 <= a < n ensures kinds[..n][a] != k {
          assert kinds[..n][a] == kinds[a];
        }
      }
      FlattenNotProjects(kinds[..n], runs[..n], k);
    }
  }

  /** Dropping the last runs keeps the ownership. */
  lemma RunsOwnedPrefix(kinds: seq<AgentKind>, runs: seq<seq<Event>>, n: nat)
    requires RunsOwned(kinds, runs) && n <= |runs|
    ensures RunsOwned(kinds[..n], runs[..n])
  {
    forall m, e | 0 <= m < n && 0 <= e < |runs[..n][m]| ensures IsFor(runs[..n][m][e], kinds[..n][m]) {
      assert runs[..n][m] == runs[m] && kinds[..n][m] == kinds[m];
    }
  }

  lemma {:induction false} FlattenNotProjects(kinds: seq<AgentKind>, runs: seq<seq<Event>>, k: AgentKind)
    requires RunsOwned(kinds, runs) && k !in kinds
    ensures OfAgent(Flatten(runs), k) == []
    decreases |runs|
  {
    if runs != [] {
      var n := |runs| - 1;
      RunsOwnedPrefix(kinds, runs, n);
      OfAgentAppend(Flatten(runs[..n]), runs[n], k);
      assert forall m :: 0 <= m < |runs[n]| ==> IsFor(runs[n][m], kinds[n]);
      OfAgentOfRun(runs[n], kinds[n], k);
      assert k !in kinds[..n] by {
        forall a | 0 <= a < n ensures kinds[..n][a] != k {
          assert kinds[..n][a] == kinds[a];
        }
      }
      FlattenNotProjects(kinds[..n], runs[..n], k);
    }
  }

  /** However the schedule interleaves the runs, the updates of each selected
      agent reach the connection complete and in their own order. */
  lemma {:induction false} InterleaveProjects(kinds: seq<AgentKind>, runs: seq<seq<Event>>, schedule: seq<nat>, i: nat)
    requires RunsOwned(kinds, runs) && NoDuplicates(kinds) && i < |kinds|
    ensures OfAgent(Interleave(runs, schedule), kinds[i]) == runs[i]
    decreases |schedule|
  {
    if schedule == [] {
      FlattenProjects(kinds, runs, i);
    } else {
      var j := schedule[0];
      if j < |runs| && runs[j] != [] {
        var rest := runs[j := runs[j][1..]];
        var x := runs[j][0];
        assert RunsOwned(kinds, rest) by {
          forall m, n | 0 <= m < |rest| && 0 <= n < |rest[m]| ensures IsFor(rest[m][n], kinds[m]) {
            if m == j { assert rest[m][n] == runs[j][n + 1]; }
          }
        }
        InterleaveProjects(kinds, rest, schedule[1..], i);
        OfAgentAppend([x], Interleave(rest, schedule[1..]), kinds[i]);
        assert OfAgent([x], kinds[i]) == if i == j then [x] else [] by {
          assert [x][..0] == [];
        }
        if i == j {
          assert [x] + runs[j][1..] == runs[j];
        }
      } else {
        InterleaveProjects(kinds, runs, schedule[1..], i);
      }
    }
  }

  /** The interleaving delivers agent updates of the selected kinds only. */
  lemma {:induction false} InterleaveOnlyAgents(kinds: seq<AgentKind>, runs: seq<seq<Event>>, schedule: seq<nat>)
    requires RunsOwned(kinds, runs)
    ensures forall n :: 0 <= n < |Interleave(runs, schedule)| ==>
              Interleave(runs, schedule)[n].AgentUpdate? && Interleave(runs, schedule)[n].agentType in kinds
    decreases |schedule|
  {
    if schedule == [] {
      FlattenOnlyAgents(kinds, runs);
    } else {
      var j := schedule[0];
      if j < |runs| && runs[j] != [] {
        var rest := runs[j := runs[j][1..]];
        assert RunsOwned(kinds, rest) by {
          forall m, n | 0 <= m < |rest| && 0 <= n < |rest[m]| ensures IsFor(rest[m][n], kinds[m]) {
            if m == j { assert rest[m][n] == runs[j][n + 1]; }
          }
        }
        InterleaveOnlyAgents(kinds, rest, schedule[1..]);
      } else {
        InterleaveOnlyAgents(kinds, runs, schedule[1..]);
      }
    }
  }

  lemma {:induction false} FlattenOnlyAgents(kinds: seq<AgentKind>, runs: seq<seq<Event>>)
    requires RunsOwned(kinds, runs)
    ensures forall n :: 0 <= n < |Flatten(runs)| ==>
              Flatten(runs)[n].AgentUpdate? && Flatten(runs)[n].agentType in kinds
    decreases |runs|
  {
    if runs != [] {
      var n := |runs| - 1;
      FlattenOnlyAgents(kinds[..n], runs[..n]);
      assert forall m :: 0 <= m < |runs[n]| ==> IsFor(runs[n][m], kinds[n]);
    }
  }
}
