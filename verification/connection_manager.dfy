/**
 * The first websocket manager (`scrapecraft-repo/backend/app/services/websocket.py`):
 * a list of sockets per pipeline, a state per pipeline created with the
 * first connection and kept after the last one leaves, a broadcast to
 * every listed socket, and the message dispatch that hands chat, state
 * requests and approvals to the v1 workflow manager.
 */
module ConnectionManager {
  import opened Base
  import opened Workflow
  import LanggraphAgent
  import WorkflowManager

  /** An open websocket, by identity. */
  type Socket = nat

  datatype LegacyState = LegacyState(urls: seq<string>, schema: Schema, generatedCode: string, status: string)

  const InitialState := LegacyState([], map[], "", "connected")

  datatype Registry = Registry(active: map<string, seq<Socket>>, states: map<string, LegacyState>)

  /** Python's `KeyError`, `ValueError`, ... by name. */
  datatype Raised = KeyError | ValueError(message: string)

  /**
   * Every pipeline with sockets has a state; `connect` creates both and
   * `disconnect` deletes only the socket list.
   */
  predicate Wf(r: Registry)
  {
    && (forall p :: p in r.active ==> p in r.states)
    && (forall p :: p in r.active ==> |r.active[p]| > 0)
  }

  datatype Connected = Connected(registry: Registry, greeting: LegacyState)

  /**
   * `connect`: a pipeline without a socket list gets an empty one and a
   * fresh state (replacing any state kept from earlier); the socket is
   * appended and greeted with the pipeline's state, whose lookup raises
   * for a listed pipeline without one.
   */
  function Connect(r: Registry, pipelineId: string, ws: Socket): (c: Result<Connected, Raised>)
    ensures c.Err? <==> pipelineId in r.active && pipelineId !in r.states
    ensures c.Ok? ==>
              var r' := c.value.registry;
              && r'.active.Keys == r.active.Keys + {pipelineId}
              && r'.active[pipelineId] == (if pipelineId in r.active then r.active[pipelineId] else []) + [ws]
              && (forall p :: p in r.active && p != pipelineId ==> r'.active[p] == r.active[p])
              && (pipelineId !in r.active ==> r'.states == r.states[pipelineId := InitialState])
              && (pipelineId in r.active ==> r'.states == r.states)
              && pipelineId in r'.states && c.value.greeting == r'.states[pipelineId]
  {
    if pipelineId in r.active then
      if pipelineId !in r.states then Err(KeyError)
      else Ok(Connected(r.(active := r.active[pipelineId := r.active[pipelineId] + [ws]]), r.states[pipelineId]))
    else
      Ok(Connected(Registry(r.active[pipelineId := [ws]], r.states[pipelineId := InitialState]), InitialState))
  }

  /** On a well-formed registry `connect` never raises, and the registry stays well formed. */
  lemma ConnectKeepsWf(r: Registry, pipelineId: string, ws: Socket)
    requires Wf(r)
    ensures Connect(r, pipelineId, ws).Ok?
    ensures Wf(Connect(r, pipelineId, ws).value.registry)
  {
  }

  /**
   * `disconnect`: for a listed pipeline the first listing of the socket is
   * removed (`list.remove` raises `ValueError` when there is none) and an
   * emptied list is deleted. The state is kept.
   */
  function Disconnect(r: Registry, pipelineId: string, ws: Socket): (d: Result<Registry, Raised>)
    ensures d.Err? <==> pipelineId in r.active && ws !in r.active[pipelineId]
    ensures d.Ok? ==> d.value.states == r.states
    ensures pipelineId !in r.active ==> d == Ok(r)
    ensures d.Ok? && pipelineId in r.active ==>
              && (pipelineId in d.value.active <==> |r.active[pipelineId]| > 1)
              && ws in r.active[pipelineId]
              && (pipelineId in d.value.active ==>
                    && (var i := IndexOf(r.active[pipelineId], ws);
                        d.value.active[pipelineId] == r.active[pipelineId][..i] + r.active[pipelineId][i + 1..])
                    && |d.value.active[pipelineId]| + 1 == |r.active[pipelineId]|
                    && multiset(d.value.active[pipelineId]) + multiset{ws} == multiset(r.active[pipelineId]))
              && d.value.active.Keys <= r.active.Keys
              && (forall p :: p in r.active && p != pipelineId ==> p in d.value.active && d.value.active[p] == r.active[p])
  {
    if pipelineId !in r.active then Ok(r)
    else
      match RemoveFirst(r.active[pipelineId], ws)
      case None => Err(ValueError("list.remove(x): x not in list"))
      case Some(rest) =>
        if |rest| == 0 then Ok(r.(active := r.active - {pipelineId}))
        else Ok(r.(active := r.active[pipelineId := rest]))
  }

  lemma DisconnectKeepsWf(r: Registry, pipelineId: string, ws: Socket)
    requires Wf(r) && Disconnect(r, pipelineId, ws).Ok?
    ensures Wf(Disconnect(r, pipelineId, ws).value)
  {
  }

  /**
   * The last socket leaving deletes the list but not the state; a
   * reconnect then finds no list and overwrites the state with a fresh
   * initial state.
   */
  lemma StateOutlivesConnections(r: Registry, pipelineId: string, ws: Socket)
    requires Wf(r) && pipelineId in r.active && r.active[pipelineId] == [ws]
    ensures var d := Disconnect(r, pipelineId, ws);
            && d.Ok? && pipelineId !in d.value.active && d.value.states[pipelineId] == r.states[pipelineId]
            && Connect(d.value, pipelineId, ws).Ok?
            && Connect(d.value, pipelineId, ws).value.greeting == InitialState
            && Connect(d.value, pipelineId, ws).value.registry.states[pipelineId] == InitialState
  {
    assert [ws][0] == ws;
  }

  /** The sockets of `xs` whose sends do not raise, in list order. */
  function Reachable(xs: seq<Socket>, down: set<Socket>): (ys: seq<Socket>)
    ensures forall x :: x in ys <==> x in xs && x !in down
    ensures |ys| <= |xs|
  {
    if xs == [] then []
    else (if xs[0] in down then [] else [xs[0]]) + Reachable(xs[1..], down)
  }

  /**
   * `broadcast`: every listed socket is sent the message; sends that raise
   * are gathered, never propagated, so the others still receive it. An
   * unlisted pipeline gets nothing.
   */
  function Broadcast(r: Registry, pipelineId: string, down: set<Socket>): (to: seq<Socket>)
    ensures pipelineId !in r.active ==> to == []
    ensures forall x :: x in to <==> pipelineId in r.active && x in r.active[pipelineId] && x !in down
  {
    if pipelineId in r.active then Reachable(r.active[pipelineId], down) else []
  }

  /** With every socket up, each listing of a socket is one send. */
  lemma {:induction false} BroadcastReachesEveryListing(xs: seq<Socket>)
    ensures Reachable(xs, {}) == xs
  {
    if xs != [] {
      BroadcastReachesEveryListing(xs[1..]);
      assert xs == [xs[0]] + xs[1..];
    }
  }

  // ---------------------------------------------------------------------
  // Dispatch
  // ---------------------------------------------------------------------

  /** An incoming message: its `type`, `user` and `approved` keys, `None` where absent. */
  datatype Request = Request(msgType: Option<string>, user: Option<string>, approvalId: string, approved: Option<bool>)

  datatype Response =
    | ChatResponse(response: string, workflow: WorkflowState, requiresAction: bool)
    | WorkflowStateResponse(workflow: WorkflowState)
    | ApprovalProcessed(workflow: WorkflowState)
    | Pong
    | ErrorResponse(message: string)

  datatype Dispatched = Dispatched(manager: WorkflowManager.Manager, response: Response)

  /**
   * `process_message`. A missing type reads as "chat" and a missing user as
   * "user". Chat goes through the manager with the agent's result `res`;
   * a state request returns the pipeline's workflow, creating it first when
   * there is none; an approval is decided by the manager, whose `ValueError`
   * for an unknown pipeline propagates; "ping" gets "pong"; any other type
   * an error naming it.
   */
  function ProcessMessage(m: WorkflowManager.Manager, pipelineId: string, req: Request,
                          res: LanggraphAgent.AgentResult, now: int): (d: Result<Dispatched, Raised>)
    ensures var t := req.msgType.GetOr("chat");
            && (t == "ping" ==> d == Ok(Dispatched(m, Pong)))
            && (t !in {"chat", "state_request", "approval", "ping"} ==>
                  d == Ok(Dispatched(m, ErrorResponse("Unknown message type: " + t))))
            && (d.Err? <==> t == "approval" && pipelineId !in m.workflows)
    ensures req.msgType.GetOr("chat") == "state_request" ==>
              && d.Ok? && d.value.response.WorkflowStateResponse?
              && d.value.manager.workflows.Keys == m.workflows.Keys + {pipelineId}
              && d.value.response.workflow == d.value.manager.workflows[pipelineId]
              && (pipelineId in m.workflows ==> d.value.manager == m)
              && (pipelineId !in m.workflows ==>
                    d.value.response.workflow == NewWorkflow(pipelineId, req.user.GetOr("user"), now))
    ensures req.msgType.GetOr("chat") == "chat" ==>
              && d.Ok? && d.value.response.ChatResponse?
              && d.value.response.response == res.response
              && pipelineId in d.value.manager.workflows
              && d.value.response.workflow == d.value.manager.workflows[pipelineId]
              && d.value.response.workflow.phase == res.phase
              && WorkflowManager.SameContent(d.value.response.workflow,
                   WorkflowManager.MergeContent(WorkflowManager.GetOrCreate(m, pipelineId, req.user.GetOr("user"), now).workflows[pipelineId], res, now))
              && d.value.manager.workflows.Keys == m.workflows.Keys + {pipelineId}
              && (forall p :: p in m.workflows && p != pipelineId ==> d.value.manager.workflows[p] == m.workflows[p])
    ensures req.msgType.GetOr("chat") == "approval" ==>
              var a := WorkflowManager.ApproveAction(m, pipelineId, req.approvalId, req.approved.GetOr(false), req.user.GetOr("user"), now);
              && (a.Err? ==> d == Err(ValueError(a.error)))
              && (a.Ok? ==> d == Ok(Dispatched(a.value, ApprovalProcessed(a.value.workflows[pipelineId]))))
    ensures req.msgType.GetOr("chat") == "approval" && d.Ok? ==>
              pipelineId in d.value.manager.workflows
              && d.value.response == ApprovalProcessed(d.value.manager.workflows[pipelineId])
    ensures d.Ok? && WorkflowManager.ManagerValid(m) ==> WorkflowManager.ManagerValid(d.value.manager)
  {
    var t := req.msgType.GetOr("chat");
    var user := req.user.GetOr("user");
    if t == "chat" then
      var out := WorkflowManager.ProcessMessage(m, pipelineId, user, res, now);
      Ok(Dispatched(out.manager, ChatResponse(out.response, out.manager.workflows[pipelineId], out.requiresAction)))
    else if t == "state_request" then
      if pipelineId in m.workflows then Ok(Dispatched(m, WorkflowStateResponse(m.workflows[pipelineId])))
      else
        var m' := WorkflowManager.CreateWorkflow(m, pipelineId, user, now);
        Ok(Dispatched(m', WorkflowStateResponse(m'.workflows[pipelineId])))
    else if t == "approval" then
      match WorkflowManager.ApproveAction(m, pipelineId, req.approvalId, req.approved.GetOr(false), user, now)
      case Err(msg) => Err(ValueError(msg))
      case Ok(m') => Ok(Dispatched(m', ApprovalProcessed(m'.workflows[pipelineId])))
    else if t == "ping" then Ok(Dispatched(m, Pong))
    else Ok(Dispatched(m, ErrorResponse("Unknown message type: " + t)))
  }
}
