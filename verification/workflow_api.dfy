/**
 * The workflow HTTP endpoints (`app/api/workflow.py`) over the v1 manager:
 * lookups answer 404 for an unknown pipeline, a manual transition is the
 * one mutator that consults the transition table, and the phase options
 * list the table's row for the current phase in declaration order.
 */
module WorkflowApi {
  import opened Base
  import opened Workflow
  import opened WorkflowManager

  /** The `detail` of an `HTTPException`. */
  datatype Detail = Text(text: string) | CannotTransition(from: Phase, to: Phase)

  datatype HttpError = HttpError(status: nat, detail: Detail)

  const WorkflowNotFound := HttpError(404, Text("Workflow not found"))

  /** `GET /workflow/{id}`. */
  function GetWorkflowEndpoint(m: Manager, pipelineId: string): (r: Result<WorkflowState, HttpError>)
    ensures r.Err? <==> pipelineId !in m.workflows
    ensures r.Err? ==> r.error == WorkflowNotFound
    ensures r.Ok? ==> r.value == m.workflows[pipelineId]
  {
    match GetWorkflow(m, pipelineId)
    case None => Err(WorkflowNotFound)
    case Some(w) => Ok(w)
  }

  /** The manager's `ValueError` becomes a 404 carrying its message. */
  function AsNotFound(r: Result<Manager, string>): (e: Result<Manager, HttpError>)
    ensures e.Ok? <==> r.Ok?
    ensures e.Ok? ==> e.value == r.value
    ensures e.Err? ==> e.error == HttpError(404, Text(r.error))
  {
    match r
    case Ok(v) => Ok(v)
    case Err(msg) => Err(HttpError(404, Text(msg)))
  }

  /** `POST /workflow/{id}/urls`, edited by `"user"`. */
  function UpdateUrlsEndpoint(m: Manager, pipelineId: string, urls: seq<UrlInput>, now: int)
    : (r: Result<Manager, HttpError>)
    ensures r.Err? <==> pipelineId !in m.workflows
    ensures r.Err? ==> r.error == HttpError(404, Text(NotFound(pipelineId)))
    ensures r.Ok? ==> r.value.workflows == m.workflows[pipelineId := EditUrls(m.workflows[pipelineId], urls, "user", now)]
  {
    AsNotFound(UpdateUrls(m, pipelineId, urls, "user", now))
  }

  /** `POST /workflow/{id}/schema`, edited by `"user"`. */
  function UpdateSchemaEndpoint(m: Manager, pipelineId: string, fields: seq<FieldInput>, now: int)
    : (r: Result<Manager, HttpError>)
    ensures r.Err? <==> pipelineId !in m.workflows
    ensures r.Err? ==> r.error == HttpError(404, Text(NotFound(pipelineId)))
    ensures r.Ok? ==> r.value.workflows == m.workflows[pipelineId := EditSchema(m.workflows[pipelineId], fields, "user", now)]
  {
    AsNotFound(UpdateSchema(m, pipelineId, fields, "user", now))
  }

  /** `POST /workflow/{id}/approve`, decided by `"user"`. */
  function ApproveEndpoint(m: Manager, pipelineId: string, approvalId: string, approved: bool, now: int)
    : (r: Result<Manager, HttpError>)
    ensures r.Err? <==> pipelineId !in m.workflows
    ensures r.Err? ==> r.error == HttpError(404, Text(NotFound(pipelineId)))
    ensures r.Ok? ==> r.value.workflows
                      == m.workflows[pipelineId := Decide(m.workflows[pipelineId], approvalId, approved, "user", now)]
  {
    AsNotFound(ApproveAction(m, pipelineId, approvalId, approved, "user", now))
  }

  /**
   * `POST /workflow/{id}/transition`: 404 for an unknown pipeline, 400 for a
   * move the table does not allow, otherwise the move is made by `"user"`
   * with the given reason, an empty or missing one read as "Manual transition".
   */
  function ManualTransition(m: Manager, pipelineId: string, target: Phase, reason: Option<string>, now: int)
    : (r: Result<Manager, HttpError>)
    ensures r.Err? <==> pipelineId !in m.workflows || !CanTransition(m.workflows[pipelineId].phase, target)
    ensures pipelineId !in m.workflows ==> r == Err(WorkflowNotFound)
    ensures pipelineId in m.workflows && r.Err? ==>
              r.error == HttpError(400, CannotTransition(m.workflows[pipelineId].phase, target))
    ensures r.Ok? ==> r.value.workflows.Keys == m.workflows.Keys
    ensures r.Ok? ==>
              var w := m.workflows[pipelineId];
              var w' := r.value.workflows[pipelineId];
              && w'.phase == target && |w'.transitions| == |w.transitions| + 1
              && w'.transitions[|w.transitions|].reason
                 == (if reason.Some? && reason.value != "" then reason.value else "Manual transition")
              && w'.transitions[|w.transitions|].triggeredBy == "user"
              && w'.transitions[..|w.transitions|] == w.transitions
              && w' == w.(phase := target, transitions := w'.transitions, updatedAt := now, lastModifiedBy := "user")
    ensures r.Ok? ==>
              && r.value.callbacks == m.callbacks
              && forall p :: p in m.workflows && p != pipelineId ==> r.value.workflows[p] == m.workflows[p]
    ensures r.Ok? && ManagerValid(m) ==> ManagerValid(r.value)
  {
    if pipelineId !in m.workflows then Err(WorkflowNotFound)
    else
      var w := m.workflows[pipelineId];
      if !CanTransition(w.phase, target) then Err(HttpError(400, CannotTransition(w.phase, target)))
      else Ok(MoveByUser(m, pipelineId, target, if reason.Some? && reason.value != "" then reason.value else "Manual transition", now))
  }

  /** The allowed move of the transition endpoint, recorded by `"user"` with the reason given. */
  function MoveByUser(m: Manager, pipelineId: string, target: Phase, why: string, now: int): (m': Manager)
    requires pipelineId in m.workflows
    ensures m'.workflows.Keys == m.workflows.Keys && m'.callbacks == m.callbacks
    ensures var w, w' := m.workflows[pipelineId], m'.workflows[pipelineId];
            && w'.phase == target && |w'.transitions| == |w.transitions| + 1
            && w'.transitions[|w.transitions|].reason == why
            && w'.transitions[|w.transitions|].triggeredBy == "user"
            && w'.transitions[..|w.transitions|] == w.transitions
            && w' == w.(phase := target, transitions := w'.transitions, updatedAt := now, lastModifiedBy := "user")
    ensures forall p :: p in m.workflows && p != pipelineId ==> m'.workflows[p] == m.workflows[p]
    ensures ManagerValid(m) && CanTransition(m.workflows[pipelineId].phase, target) ==> ManagerValid(m')
  {
    var w := m.workflows[pipelineId];
    var w' := AddTransition(w, target, why, "user", now);
    var m' := Replace(m, pipelineId, w');
    assert ManagerValid(m) && CanTransition(w.phase, target) ==> ManagerValid(m') by {
      if ManagerValid(m) && CanTransition(w.phase, target) { ReplaceKeepsValid(m, pipelineId, w'); }
    }
    assert m'.workflows[pipelineId] == w' && m'.callbacks == m.callbacks;
    m'
  }

  /** Moves made through the endpoint keep a legal log legal. */
  lemma ManualTransitionKeepsLegalLog(m: Manager, pipelineId: string, target: Phase, reason: Option<string>, now: int)
    requires pipelineId in m.workflows && LegalLog(m.workflows[pipelineId])
    requires ManualTransition(m, pipelineId, target, reason, now).Ok?
    ensures LegalLog(ManualTransition(m, pipelineId, target, reason, now).value.workflows[pipelineId])
  {
  }

  datatype History = History(transitions: seq<TransitionRecord>, modifications: seq<Modification>,
                             approvals: seq<ApprovalRequest>)

  /** `GET /workflow/{id}/history`. */
  function HistoryEndpoint(m: Manager, pipelineId: string): (r: Result<History, HttpError>)
    ensures r.Err? <==> pipelineId !in m.workflows
    ensures r.Err? ==> r.error == WorkflowNotFound
    ensures r.Ok? ==> r.value.transitions == m.workflows[pipelineId].transitions
                      && r.value.modifications == m.workflows[pipelineId].modifications
                      && r.value.approvals == m.workflows[pipelineId].approvalHistory
  {
    if pipelineId !in m.workflows then Err(WorkflowNotFound)
    else
      var w := m.workflows[pipelineId];
      Ok(History(w.transitions, w.modifications, w.approvalHistory))
  }

  /**
   * The filter of `GET /workflow/{id}/phase-options`: the phases the table
   * allows from `current`, in declaration order.
   */
  method AllowedPhases(current: Phase) returns (allowed: seq<Phase>)
    ensures forall q :: q in allowed <==> CanTransition(current, q)
    ensures NoDup(allowed)
    ensures forall i, j :: 0 <= i < j < |allowed| ==> Rank(allowed[i]) < Rank(allowed[j])
    ensures |allowed| == |Successors(current)|
  {
    allowed := InDeclarationOrder(Successors(current));
    RankedFilter(current, allowed);
  }

  /** The phases of `row`, walking the declaration order. */
  method InDeclarationOrder(row: seq<Phase>) returns (allowed: seq<Phase>)
    ensures forall q :: q in allowed <==> q in AllPhases && q in row
    ensures forall i, j :: 0 <= i < j < |allowed| ==> Rank(allowed[i]) < Rank(allowed[j])
  {
    allowed := [];
    var k := 0;
    while k < |AllPhases|
      invariant 0 <= k <= |AllPhases|
      invariant forall q :: q in allowed <==> q in AllPhases[..k] && q in row
      invariant forall i, j :: 0 <= i < j < |allowed| ==> Rank(allowed[i]) < Rank(allowed[j])
      invariant forall i :: 0 <= i < |allowed| ==> Rank(allowed[i]) < k
    {
      var q := AllPhases[k];
      assert AllPhases[..k + 1] == AllPhases[..k] + [q];
      if q in row {
        allowed := allowed + [q];
      }
      k := k + 1;
    }
    assert AllPhases[..k] == AllPhases;
  }

  /** A rank-ordered list holding exactly the allowed successors is duplicate-free and as long as the table's row. */
  lemma RankedFilter(current: Phase, allowed: seq<Phase>)
    requires forall q :: q in allowed <==> q in AllPhases && CanTransition(current, q)
    requires forall i, j :: 0 <= i < j < |allowed| ==> Rank(allowed[i]) < Rank(allowed[j])
    ensures NoDup(allowed)
    ensures forall q :: q in allowed <==> CanTransition(current, q)
    ensures |allowed| == |Successors(current)|
  {
    assert NoDup(allowed) by {
      forall i, j | 0 <= i < j < |allowed| ensures allowed[i] != allowed[j] {
        assert Rank(allowed[i]) < Rank(allowed[j]);
      }
    }
    forall q ensures q in allowed <==> q in Successors(current) {
      assert AllPhases[Rank(q)] == q;
    }
    SameElementsSameSize(allowed, Successors(current));
  }

  /** Two duplicate-free lists with the same elements have the same length. */
  lemma SameElementsSameSize(a: seq<Phase>, b: seq<Phase>)
    requires NoDup(a) && NoDup(b) && forall x :: x in a <==> x in b
    ensures |a| == |b|
  {
    var sa := set x | x in a;
    var sb := set x | x in b;
    assert sa == sb;
    DistinctCard(a);
    DistinctCard(b);
  }

  lemma {:induction false} DistinctCard(a: seq<Phase>)
    requires NoDup(a)
    ensures |set x | x in a| == |a|
  {
    if a != [] {
      var rest := a[1..];
      assert NoDup(rest) by {
        forall i, j | 0 <= i < j < |rest| ensures rest[i] != rest[j] { assert rest[i] == a[i + 1] && rest[j] == a[j + 1]; }
      }
      DistinctCard(rest);
      assert a[0] !in rest by {
        forall i | 0 <= i < |rest| ensures rest[i] != a[0] { assert rest[i] == a[i + 1]; }
      }
      assert (set x | x in a) == (set x | x in rest) + {a[0]};
    }
  }

  datatype PhaseOptions = PhaseOptions(current: Phase, allowed: seq<Phase>, all: seq<Phase>)

  /** `GET /workflow/{id}/phase-options`. */
  method PhaseOptionsEndpoint(m: Manager, pipelineId: string) returns (r: Result<PhaseOptions, HttpError>)
    ensures r.Err? <==> pipelineId !in m.workflows
    ensures r.Err? ==> r.error == WorkflowNotFound
    ensures r.Ok? ==> r.value.current == m.workflows[pipelineId].phase && r.value.all == AllPhases
                      && forall q :: q in r.value.allowed <==> CanTransition(r.value.current, q)
  {
    if pipelineId !in m.workflows {
      return Err(WorkflowNotFound);
    }
    var w := m.workflows[pipelineId];
    var allowed := AllowedPhases(w.phase);
    return Ok(PhaseOptions(w.phase, allowed, AllPhases));
  }
}
