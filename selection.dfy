/** Agent selection in the server's `submitTask` handler: four keyword rules
    over the lower-cased request, each appending agent kinds and their
    reason strings in lock-step, with membership checks in the third rule
    and a fallback when nothing matched. */
module Selection {
  import opened Text
  import opened Protocol

  /** The keyword families of the four rules. */
  predicate WantsAnalysis(lower: string)
  {
    Contains(lower, "summarize") || Contains(lower, "analyze")
  }

  predicate WantsVisuals(lower: string)
  {
    Contains(lower, "chart") || Contains(lower, "visual") || Contains(lower, "graph")
  }

  predicate WantsData(lower: string)
  {
    Contains(lower, "financial") || Contains(lower, "data")
  }

  /** Every reason string of the handler has the form "KIND: explanation". */
  function Reason(k: AgentKind, explanation: string): string
  {
    KindName(k) + ": " + explanation
  }

  const AnalysisAgents: seq<AgentKind> := [Planner, Researcher, Analyst, Writer]
  const AnalysisReasons: seq<string> := [
    Reason(Planner, "Breaking down complex analysis into manageable subtasks"),
    Reason(Researcher, "Gathering relevant data and information sources"),
    Reason(Analyst, "Processing and analyzing the collected data"),
    Reason(Writer, "Creating comprehensive summaries and insights")]
  const VisualReason: string := Reason(Visualizer, "Creating charts and visual representations of data")
  const DataResearcherReason: string := Reason(Researcher, "Gathering financial data and market information")
  const DataAnalystReason: string := Reason(Analyst, "Analyzing financial trends and data patterns")
  const FallbackAgents: seq<AgentKind> := [Planner, Researcher, Writer]
  const FallbackReasons: seq<string> := [
    Reason(Planner, "Organizing the general request into structured tasks"),
    Reason(Researcher, "Gathering relevant information for the request"),
    Reason(Writer, "Creating a comprehensive response and summary")]

  /** Reference definition of the selected kinds, with the membership checks
      of the third rule resolved: RESEARCHER and ANALYST are already present
      exactly when the first rule fired, and the list is empty before the
      fallback exactly when no rule fired. */
  function Selected(request: string): seq<AgentKind>
  {
    var lower := Lower(request);
    var a, v, d := WantsAnalysis(lower), WantsVisuals(lower), WantsData(lower);
    (if a then AnalysisAgents else [])
    + (if v then [Visualizer] else [])
    + (if d && !a then [Researcher, Analyst] else [])
    + (if !a && !v && !d then FallbackAgents else [])
  }

  /** Reference definition of the reasons, rule by rule like `Selected`. */
  function SelectedReasons(request: string): seq<string>
  {
    var lower := Lower(request);
    var a, v, d := WantsAnalysis(lower), WantsVisuals(lower), WantsData(lower);
    (if a then AnalysisReasons else [])
    + (if v then [VisualReason] else [])
    + (if d && !a then [DataResearcherReason, DataAnalystReason] else [])
    + (if !a && !v && !d then FallbackReasons else [])
  }

  /** The selection block as the handler runs it: two lists built by `push`,
      the third rule guarded by `includes` on the list built so far, and the
      fallback guarded by `length === 0`. */
  method SelectAgents(request: string) returns (neededAgents: seq<AgentKind>, agentReasons: seq<string>)
    ensures neededAgents == Selected(request)
    ensures agentReasons == SelectedReasons(request)
  {
    neededAgents, agentReasons := [], [];
    var requestLower := Lower(request);
    if Contains(requestLower, "summarize") || Contains(requestLower, "analyze") {
      neededAgents := neededAgents + [Planner, Researcher, Analyst, Writer];
      agentReasons := agentReasons + AnalysisReasons;
    }
    if Contains(requestLower, "chart") || Contains(requestLower, "visual") || Contains(requestLower, "graph") {
      neededAgents := neededAgents + [Visualizer];
      agentReasons := agentReasons + [VisualReason];
    }
    if Contains(requestLower, "financial") || Contains(requestLower, "data") {
      if Researcher !in neededAgents {
        neededAgents := neededAgents + [Researcher];
        agentReasons := agentReasons + [DataResearcherReason];
      }
      if Analyst !in neededAgents {
        neededAgents := neededAgents + [Analyst];
        agentReasons := agentReasons + [DataAnalystReason];
      }
    }
    if |neededAgents| == 0 {
      neededAgents := neededAgents + [Planner, Researcher, Writer];
      agentReasons := agentReasons + FallbackReasons;
    }
  }

  predicate StartsWith(s: string, prefix: string)
  {
    |prefix| <= |s| && s[..|prefix|] == prefix
  }

  /** No agent kind is selected twice. */
  lemma SelectionHasNoDuplicates(request: string)
    ensures NoDuplicates(Selected(request))
  {
  }

  /** Between one and five agents are selected. */
  lemma SelectionSize(request: string)
    ensures 1 <= |Selected(request)| <= 5
  {
  }

  /** Reason `i` belongs to agent `i`: the lists have equal length and every
      reason begins with the name of the kind at the same position. */
  lemma ReasonsAligned(request: string)
    ensures |SelectedReasons(request)| == |Selected(request)|
    ensures forall i :: 0 <= i < |Selected(request)| ==>
              StartsWith(SelectedReasons(request)[i], KindName(Selected(request)[i]) + ": ")
  {
    var lower := Lower(request);
    var a, v, d := WantsAnalysis(lower), WantsVisuals(lower), WantsData(lower);
    var ks1, ks2, ks3, ks4 := (if a then AnalysisAgents else []), (if v then [Visualizer] else []),
      (if d && !a then [Researcher, Analyst] else []), (if !a && !v && !d then FallbackAgents else []);
    var rs1, rs2, rs3, rs4 := (if a then AnalysisReasons else []), (if v then [VisualReason] else []),
      (if d && !a then [DataResearcherReason, DataAnalystReason] else []), (if !a && !v && !d then FallbackReasons else []);
    ReasonTablesAligned();
    AlignedAppend(ks1, rs1, ks2, rs2);
    AlignedAppend(ks1 + ks2, rs1 + rs2, ks3, rs3);
    AlignedAppend(ks1 + ks2 + ks3, rs1 + rs2 + rs3, ks4, rs4);
  }

  predicate Aligned(ks: seq<AgentKind>, rs: seq<string>)
  {
    |ks| == |rs| && forall i :: 0 <= i < |ks| ==> StartsWith(rs[i], KindName(ks[i]) + ": ")
  }

  lemma ReasonStartsWithKind(k: AgentKind, explanation: string)
    ensures StartsWith(Reason(k, explanation), KindName(k) + ": ")
  {
    assert (KindName(k) + ": " + explanation)[..|KindName(k) + ": "|] == KindName(k) + ": ";
  }

  lemma EveryReasonStartsWithKind()
    ensures forall k: AgentKind, e: string :: StartsWith(Reason(k, e), KindName(k) + ": ")
  {
    forall k: AgentKind, e: string ensures StartsWith(Reason(k, e), KindName(k) + ": ") {
      ReasonStartsWithKind(k, e);
    }
  }

  /** Each rule's reasons are written for that rule's kinds, in order. */
  lemma ReasonTablesAligned()
    ensures Aligned(AnalysisAgents, AnalysisReasons)
    ensures Aligned(FallbackAgents, FallbackReasons)
    ensures Aligned([Visualizer], [VisualReason])
    ensures Aligned([Researcher, Analyst], [DataResearcherReason, DataAnalystReason])
  {
    AnalysisTableAligned();
    FallbackTableAligned();
    EveryReasonStartsWithKind();
  }

  lemma AnalysisTableAligned()
    ensures Aligned(AnalysisAgents, AnalysisReasons)
  {
    EveryReasonStartsWithKind();
  }

  lemma FallbackTableAligned()
    ensures Aligned(FallbackAgents, FallbackReasons)
  {
    EveryReasonStartsWithKind();
  }

  lemma AlignedAppend(ks1: seq<AgentKind>, rs1: seq<string>, ks2: seq<AgentKind>, rs2: seq<string>)
    requires Aligned(ks1, rs1) && Aligned(ks2, rs2)
    ensures Aligned(ks1 + ks2, rs1 + rs2)
  {
    forall i | 0 <= i < |ks1 + ks2| ensures StartsWith((rs1 + rs2)[i], KindName((ks1 + ks2)[i]) + ": ") {
      if i < |ks1| {
        assert (ks1 + ks2)[i] == ks1[i] && (rs1 + rs2)[i] == rs1[i];
      } else {
        assert (ks1 + ks2)[i] == ks2[i - |ks1|] && (rs1 + rs2)[i] == rs2[i - |ks1|];
      }
    }
  }

  /** The fallback rule fires exactly when none of the seven keywords occurs,
      and only then is the selection PLANNER, RESEARCHER, WRITER. */
  lemma FallbackExactly(request: string)
    ensures var lower := Lower(request);
            Selected(request) == FallbackAgents
            <==> !WantsAnalysis(lower) && !WantsVisuals(lower) && !WantsData(lower)
    ensures Selected(request) == FallbackAgents ==> SelectedReasons(request) == FallbackReasons
  {
    var lower := Lower(request);
    var a, v, d := WantsAnalysis(lower), WantsVisuals(lower), WantsData(lower);
    var sel := Selected(request);
    if a {
      assert |sel| >= 4;
    } else if v {
      assert sel[0] == Visualizer;
    } else if d {
      assert sel == [Researcher, Analyst];
    }
  }

  /** VISUALIZER is selected if and only if chart, visual or graph occurs. */
  lemma VisualizerIff(request: string)
    ensures Visualizer in Selected(request) <==> WantsVisuals(Lower(request))
  {
  }

  /** When summarize or analyze occurs the selection starts with the four
      analysis agents in order, and the financial/data rule adds nothing. */
  lemma AnalysisFirst(request: string)
    requires WantsAnalysis(Lower(request))
    ensures Selected(request)[..4] == AnalysisAgents
    ensures Selected(request) == AnalysisAgents + (if WantsVisuals(Lower(request)) then [Visualizer] else [])
    ensures SelectedReasons(request)[..4] == AnalysisReasons
  {
  }

  /** Without summarize/analyze, a financial/data request gets RESEARCHER and
      ANALYST after the optional VISUALIZER. */
  lemma DataWithoutAnalysis(request: string)
    requires !WantsAnalysis(Lower(request)) && WantsData(Lower(request))
    ensures Selected(request) == (if WantsVisuals(Lower(request)) then [Visualizer] else []) + [Researcher, Analyst]
  {
  }

  lemma HelloWorldExample()
    ensures Selected("hello world") == [Planner, Researcher, Writer]
    ensures |SelectedReasons("hello world")| == 3
  {
    var lower := Lower("hello world");
    assert lower == "hello world";
    NotContainsByPrefix(lower, "summarize");
    NotContainsByPrefix(lower, "analyze");
    NotContainsByPrefix(lower, "chart");
    NotContainsByPrefix(lower, "visual");
    NotContainsByPrefix(lower, "graph");
    NotContainsByPrefix(lower, "financial");
    NotContainsByPrefix(lower, "data");
  }

  lemma MakeAChartExample()
    ensures Selected("make a chart") == [Visualizer]
    ensures SelectedReasons("make a chart") == [VisualReason]
  {
    var lower := Lower("make a chart");
    assert lower == "make a chart";
    assert OccursAt(lower, "chart", 7);
    NotContainsByPrefix(lower, "summarize");
    NotContainsByPrefix(lower, "analyze");
    NotContainsByPrefix(lower, "financial");
    NotContainsByPrefix(lower, "data");
  }

  lemma LowerFeedbackRequest()
    ensures Lower("ANALYZE: customer_feedback") == "analyze: customer_feedback"
  {
  }

  lemma FeedbackRequestWords()
    ensures WantsAnalysis("analyze: customer_feedback")
    ensures !WantsVisuals("analyze: customer_feedback")
  {
    var lower := "analyze: customer_feedback";
    assert OccursAt(lower, "analyze", 0);
    NotContainsByPrefix(lower, "chart");
    NotContainsByPrefix(lower, "visual");
    NotContainsByPrefix(lower, "graph");
  }

  lemma AnalyzeFeedbackExample()
    ensures Selected("ANALYZE: customer_feedback") == [Planner, Researcher, Analyst, Writer]
    ensures SelectedReasons("ANALYZE: customer_feedback") == AnalysisReasons
  {
    LowerFeedbackRequest();
    FeedbackRequestWords();
    AnalysisFirst("ANALYZE: customer_feedback");
  }
}
