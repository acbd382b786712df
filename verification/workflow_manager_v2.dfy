/**
 * The enhanced workflow manager (`app/services/workflow_manager_v2.py`),
 * which drives a record either from the tool-based agent's reply or from
 * the state-based agent's result. Which agent is configured shows in the
 * kind of reply the model is given.
 */
module WorkflowManagerV2 {
  import opened Base
  import opened Workflow
  import LanggraphAgent
  import WorkflowManager

  const SearchWords: seq<string> := ["search", "find urls", "look for"]
  const ScrapeWords: seq<string> := ["scrape", "extract", "get data"]

  /**
   * The intent step of `_process_with_tools_agent`: a search request moves
   * to URL collection; a scrape request moves to execution when URLs exist
   * and to URL collection otherwise. The move is made whatever the current
   * phase.
   */
  function KeywordRoute(w: WorkflowState, message: string, now: int): (r: WorkflowState)
    ensures r.pipelineId == w.pipelineId && r.urls == w.urls && r.version == w.version
    ensures ContainsAny(Lower(message), SearchWords) ==>
              r.phase == UrlCollection && |r.transitions| == |w.transitions| + 1
              && r.transitions[|w.transitions|].triggeredBy == "user"
    ensures !ContainsAny(Lower(message), SearchWords) && ContainsAny(Lower(message), ScrapeWords) ==>
              |r.transitions| == |w.transitions| + 1
              && (r.phase == Executing <==> |w.urls| > 0)
              && (|w.urls| == 0 ==> r.phase == UrlCollection && r.transitions[|w.transitions|].triggeredBy == "agent")
    ensures !ContainsAny(Lower(message), SearchWords) && !ContainsAny(Lower(message), ScrapeWords) ==> r == w
    ensures Valid(w) ==> Valid(r)
  {
    var lower := Lower(message);
    if ContainsAny(lower, SearchWords) then
      AddTransition(w, UrlCollection, "User requested URL search", "user", now)
    else if ContainsAny(lower, ScrapeWords) then
      if |w.urls| > 0 then AddTransition(w, Executing, "User requested data extraction", "user", now)
      else AddTransition(w, UrlCollection, "Need URLs before scraping", "agent", now)
    else w
  }

  /** A scrape request on a fresh record with URLs logs a jump the table forbids. */
  lemma ScrapeJumpsTable(w: WorkflowState, message: string, now: int)
    requires w.phase == Initial && |w.urls| > 0 && LegalLog(w)
    requires !ContainsAny(Lower(message), SearchWords) && ContainsAny(Lower(message), ScrapeWords)
    ensures KeywordRoute(w, message, now).phase == Executing
    ensures !LegalLog(KeywordRoute(w, message, now))
  {
    assert !CanTransition(Initial, Executing);
  }

  /** One search hit, as a dictionary with optional `url` and `description` keys. */
  datatype SearchHit = SearchHit(url: Option<string>, description: Option<string>)

  /**
   * A tool result of the tool-based agent: its payload parsed (`None` where
   * the JSON did not parse or was not a dictionary).
   */
  datatype ToolResult =
    | SearchScraperResult(hits: Option<seq<SearchHit>>)
    | SmartScraperResult(outcome: Option<(bool, string)>)
    | OtherToolResult

  datatype ToolsReply = ToolsReply(success: bool, response: string, error: Option<string>, toolResults: seq<ToolResult>)

  predicate FoundUrls(t: ToolResult)
  {
    t.SearchScraperResult? && t.hits.Some? && |t.hits.value| > 0
  }

  predicate Extracted(t: ToolResult)
  {
    t.SmartScraperResult? && t.outcome.Some? && t.outcome.value.0
  }

  function HitToUrl(h: SearchHit, now: int): UrlInfo
  {
    UrlInfo(h.url.GetOr(""), h.description.GetOr(""), "high", false, None, now, "agent")
  }

  datatype Applied = Applied(state: WorkflowState, requiresAction: bool)

  /** The effect of one tool result on the record. */
  function ApplyTool(w: WorkflowState, t: ToolResult, now: int): (r: Applied)
    ensures r.requiresAction <==> FoundUrls(t)
    ensures FoundUrls(t) ==>
              && r.state.phase == UrlValidation && |r.state.urls| == |t.hits.value|
              && (forall i :: 0 <= i < |t.hits.value| ==>
                    r.state.urls[i].url == t.hits.value[i].url.GetOr("") && r.state.urls[i].relevance == "high"
                    && !r.state.urls[i].validated)
              && r.state.executionResults == w.executionResults
    ensures Extracted(t) ==>
              r.state.phase == Completed && r.state.urls == w.urls
              && r.state.executionResults == w.executionResults + [t.outcome.value.1]
    ensures !FoundUrls(t) && !Extracted(t) ==> r.state == w
    ensures r.state.pipelineId == w.pipelineId && r.state.version == w.version
    ensures Valid(w) ==> Valid(r.state)
  {
    if FoundUrls(t) then
      var hits := t.hits.value;
      var w1 := w.(urls := seq(|hits|, i requires 0 <= i < |hits| => HitToUrl(hits[i], now)));
      assert Valid(w) ==> Valid(w1);
      Applied(AddTransition(w1, UrlValidation, "URLs found", "agent", now), true)
    else if Extracted(t) then
      var w1 := w.(executionResults := w.executionResults + [t.outcome.value.1]);
      assert Valid(w) ==> Valid(w1);
      Applied(AddTransition(w1, Completed, "Data extracted successfully", "agent", now), false)
    else Applied(w, false)
  }

  /** The data of the successful extractions among the results, in order. */
  function Extractions(ts: seq<ToolResult>): (r: seq<string>)
    ensures |r| <= |ts|
    decreases |ts|
  {
    if ts == [] then []
    else (if Extracted(ts[0]) then [ts[0].outcome.value.1] else []) + Extractions(ts[1..])
  }

  /** The tool results in order; action is required once any search found URLs. */
  function ApplyTools(w: WorkflowState, ts: seq<ToolResult>, now: int): (r: Applied)
    ensures r.requiresAction <==> exists i :: 0 <= i < |ts| && FoundUrls(ts[i])
    ensures (forall i :: 0 <= i < |ts| ==> !FoundUrls(ts[i])) ==> r.state.urls == w.urls
    ensures (forall i :: 0 <= i < |ts| ==> !FoundUrls(ts[i]) && !Extracted(ts[i])) ==> r.state == w
    ensures r.state.executionResults == w.executionResults + Extractions(ts)
    ensures r.state.pipelineId == w.pipelineId && r.state.version == w.version
    ensures Valid(w) ==> Valid(r.state)
    decreases |ts|
  {
    if ts == [] then Applied(w, false)
    else
      var a := ApplyTool(w, ts[0], now);
      var b := ApplyTools(a.state, ts[1..], now);
      ToolsTail(ts);
      Applied(b.state, a.requiresAction || b.requiresAction)
  }

  /** Applying one more result is applying it to the record the earlier results left. */
  lemma {:induction false} ApplyToolsSnoc(w: WorkflowState, ts: seq<ToolResult>, t: ToolResult, now: int)
    ensures ApplyTools(w, ts + [t], now).state == ApplyTool(ApplyTools(w, ts, now).state, t, now).state
    ensures ApplyTools(w, ts + [t], now).requiresAction
            == (ApplyTools(w, ts, now).requiresAction || ApplyTool(ApplyTools(w, ts, now).state, t, now).requiresAction)
    decreases |ts|
  {
    if ts == [] {
      assert [] + [t] == [t] && [t][1..] == [];
    } else {
      assert (ts + [t])[0] == ts[0] && (ts + [t])[1..] == ts[1..] + [t];
      ApplyToolsSnoc(ApplyTool(w, ts[0], now).state, ts[1..], t, now);
    }
  }

  /** How the facts `ApplyTools` states about all the results split into the first and the rest. */
  lemma ToolsTail(ts: seq<ToolResult>)
    requires ts != []
    ensures (exists i :: 0 <= i < |ts| && FoundUrls(ts[i])) <==> FoundUrls(ts[0]) || exists i :: 0 <= i < |ts[1..]| && FoundUrls(ts[1..][i])
    ensures (forall i :: 0 <= i < |ts| ==> !FoundUrls(ts[i])) ==> forall i :: 0 <= i < |ts[1..]| ==> !FoundUrls(ts[1..][i])
    ensures (forall i :: 0 <= i < |ts| ==> !FoundUrls(ts[i]) && !Extracted(ts[i])) ==>
            forall i :: 0 <= i < |ts[1..]| ==> !FoundUrls(ts[1..][i]) && !Extracted(ts[1..][i])
  {
    assert (exists i :: 0 <= i < |ts| && FoundUrls(ts[i])) <==> FoundUrls(ts[0]) || exists i :: 0 <= i < |ts[1..]| && FoundUrls(ts[1..][i]) by {
      if exists i :: 0 <= i < |ts| && FoundUrls(ts[i]) {
        var i :| 0 <= i < |ts| && FoundUrls(ts[i]);
        if i > 0 { assert FoundUrls(ts[1..][i - 1]); }
      }
      if exists i :: 0 <= i < |ts[1..]| && FoundUrls(ts[1..][i]) {
        var i :| 0 <= i < |ts[1..]| && FoundUrls(ts[1..][i]);
        assert FoundUrls(ts[i + 1]);
      }
    }
    assert (forall i :: 0 <= i < |ts| ==> !FoundUrls(ts[i])) ==> forall i :: 0 <= i < |ts[1..]| ==> !FoundUrls(ts[1..][i]) by {
      if forall i :: 0 <= i < |ts| ==> !FoundUrls(ts[i]) {
        forall i | 0 <= i < |ts[1..]| ensures !FoundUrls(ts[1..][i]) { assert ts[1..][i] == ts[i + 1]; }
      }
    }
    assert (forall i :: 0 <= i < |ts| ==> !FoundUrls(ts[i]) && !Extracted(ts[i])) ==>
           forall i :: 0 <= i < |ts[1..]| ==> !FoundUrls(ts[1..][i]) && !Extracted(ts[1..][i]) by {
      if forall i :: 0 <= i < |ts| ==> !FoundUrls(ts[i]) && !Extracted(ts[i]) {
        forall i | 0 <= i < |ts[1..]| ensures !FoundUrls(ts[1..][i]) && !Extracted(ts[1..][i]) { assert ts[1..][i] == ts[i + 1]; }
      }
    }
  }

  /** The reply sent back: a snapshot of the record, the agent's text and whether the user must act. */
  datatype Reply = Reply(state: WorkflowState, response: string, requiresAction: bool)

  /** The record the manager keeps after a message, and the reply it sends. */
  datatype Processed = Processed(stored: WorkflowState, reply: Reply)

  /**
   * `_process_with_tools_agent`: the intent step, then on success the tool
   * results, and on failure a move to `Error` naming the agent's error. On
   * success the reply's snapshot is taken before the tool results are
   * applied, so it shows the record after the intent step only, while the
   * kept record carries the tools' effects.
   */
  function ProcessWithToolsAgent(w: WorkflowState, message: string, reply: ToolsReply, now: int): (r: Processed)
    ensures r.reply.response == reply.response
    ensures r.reply.requiresAction <==> reply.success && exists i :: 0 <= i < |reply.toolResults| && FoundUrls(reply.toolResults[i])
    ensures reply.success ==>
              var snapshot := KeywordRoute(w, message, now).(updatedAt := now);
              && r.reply.state == snapshot
              && r.stored == ApplyTools(snapshot, reply.toolResults, now).state
    ensures !reply.success ==>
              var routed := KeywordRoute(w, message, now);
              && r.stored == r.reply.state
              && r.stored.phase == Error && |r.stored.transitions| == |routed.transitions| + 1
              && r.stored.transitions[|routed.transitions|].reason == "Agent error: " + reply.error.GetOr("Unknown")
    ensures r.stored.pipelineId == w.pipelineId && r.stored.version == w.version
    ensures Valid(w) ==> Valid(r.stored) && Valid(r.reply.state)
  {
    var routed := KeywordRoute(w, message, now);
    if reply.success then
      var snapshot := routed.(updatedAt := now);
      assert Valid(routed) ==> Valid(snapshot);
      var a := ApplyTools(snapshot, reply.toolResults, now);
      Processed(a.state, Reply(snapshot, reply.response, a.requiresAction))
    else
      var failed := AddTransition(routed, Error, "Agent error: " + reply.error.GetOr("Unknown"), "agent", now);
      Processed(failed, Reply(failed, reply.response, false))
  }

  /** A search hit in the tools' results changes the kept record, while the reply still shows the record before it. */
  lemma SearchHitNotInReply(w: WorkflowState, message: string, hit: SearchHit, now: int)
    requires !ContainsAny(Lower(message), SearchWords) && !ContainsAny(Lower(message), ScrapeWords)
    requires |w.urls| == 0
    ensures var r := ProcessWithToolsAgent(w, message, ToolsReply(true, "", None, [SearchScraperResult(Some([hit]))]), now);
            && |r.stored.urls| == 1 && r.stored.phase == UrlValidation
            && |r.reply.state.urls| == 0 && r.reply.state.phase == w.phase
  {
    var ts := [SearchScraperResult(Some([hit]))];
    assert ts[1..] == [];
  }

  /**
   * `_process_with_state_agent`: the state-based agent's result is merged as
   * the v1 manager merges it, without the error records, and action is
   * required when the agent asked for approval.
   */
  function ProcessWithStateAgent(w: WorkflowState, res: LanggraphAgent.AgentResult, requiresApproval: bool, now: int)
    : (r: Reply)
    ensures r.state.phase == res.phase && r.response == res.response
    ensures r.requiresAction == requiresApproval
    ensures |r.state.transitions| == |w.transitions| + (if res.phase != w.phase then 1 else 0)
    ensures r.state.pipelineId == w.pipelineId && r.state.version == w.version
    ensures Valid(w) ==> Valid(r.state)
  {
    Reply(WorkflowManager.MergeAgentResult(w, res, now), res.response, requiresApproval)
  }

  /** Unlike the v1 manager, the v2 state path keeps the log legal whenever the agent's move is legal. */
  lemma StatePathKeepsLegalLog(w: WorkflowState, res: LanggraphAgent.AgentResult, requiresApproval: bool, now: int)
    requires LegalLog(w) && (res.phase == w.phase || CanTransition(w.phase, res.phase))
    ensures LegalLog(ProcessWithStateAgent(w, res, requiresApproval, now).state)
  {
  }

  /** The reply of whichever agent is configured. */
  datatype AgentReply =
    | FromToolsAgent(tools: ToolsReply)
    | FromStateAgent(result: LanggraphAgent.AgentResult, requiresApproval: bool)

  predicate AllValid(workflows: map<string, WorkflowState>)
  {
    forall p :: p in workflows ==> Valid(workflows[p])
  }

  datatype Outcome = Outcome(workflows: map<string, WorkflowState>, reply: Reply)

  /** The record a message works on: the stored one, or a fresh one created by the user. */
  function Current(workflows: map<string, WorkflowState>, pipelineId: string, user: string, now: int): (w: WorkflowState)
    ensures pipelineId in workflows ==> w == workflows[pipelineId]
    ensures pipelineId !in workflows ==> w.phase == Initial && w.pipelineId == pipelineId && w.urls == []
    ensures AllValid(workflows) ==> Valid(w)
  {
    if pipelineId in workflows then workflows[pipelineId] else NewWorkflow(pipelineId, user, now)
  }

  /** The configured agent's reply applied to the record a message works on. */
  function Drive(w: WorkflowState, message: string, reply: AgentReply, now: int): (r: Processed)
    ensures reply.FromStateAgent? || !reply.tools.success ==> r.stored == r.reply.state
    ensures reply.FromToolsAgent? && reply.tools.success ==>
              && r.reply.state == KeywordRoute(w, message, now).(updatedAt := now)
              && r.stored == ApplyTools(r.reply.state, reply.tools.toolResults, now).state
    ensures Valid(w) ==> Valid(r.stored)
  {
    match reply
    case FromToolsAgent(t) => ProcessWithToolsAgent(w, message, t, now)
    case FromStateAgent(res, ra) =>
      var rep := ProcessWithStateAgent(w, res, ra, now);
      Processed(rep.state, rep)
  }

  /**
   * `process_message`: get or create the record, then let the configured
   * agent's reply drive it. The state path replies with the record it
   * keeps; the tools path, on success, replies with the record before the
   * tool results, which the kept record then carries.
   */
  function ProcessMessage(workflows: map<string, WorkflowState>, pipelineId: string, message: string, user: string,
                          reply: AgentReply, now: int): (r: Outcome)
    ensures r.workflows.Keys == workflows.Keys + {pipelineId}
    ensures reply.FromStateAgent? || !reply.tools.success ==> r.workflows[pipelineId] == r.reply.state
    ensures reply.FromToolsAgent? && reply.tools.success ==>
              && r.reply.state == KeywordRoute(Current(workflows, pipelineId, user, now), message, now).(updatedAt := now)
              && r.workflows[pipelineId] == ApplyTools(r.reply.state, reply.tools.toolResults, now).state
    ensures forall p :: p in workflows && p != pipelineId ==> r.workflows[p] == workflows[p]
    ensures AllValid(workflows) ==> AllValid(r.workflows)
  {
    var w := Current(workflows, pipelineId, user, now);
    var out := Drive(w, message, reply, now);
    assert AllValid(workflows) ==> AllValid(workflows[pipelineId := out.stored]) by {
      if AllValid(workflows) { StoreKeepsAllValid(workflows, pipelineId, out.stored); }
    }
    Outcome(workflows[pipelineId := out.stored], out.reply)
  }

  lemma StoreKeepsAllValid(workflows: map<string, WorkflowState>, pipelineId: string, w: WorkflowState)
    requires AllValid(workflows) && Valid(w)
    ensures AllValid(workflows[pipelineId := w])
  {
  }
}
