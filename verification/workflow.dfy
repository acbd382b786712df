/**
 * The workflow record of a pipeline (`app/models/workflow.py`): the ten
 * phases, the table of allowed phase changes, the progress weights, and the
 * record's own mutators. The mutators are pure functions from the old record
 * to the new one; timestamps and generated ids are parameters.
 */
module Workflow {
  import opened Base

  datatype Phase =
    | Initial | UrlCollection | UrlValidation | SchemaDefinition | SchemaValidation
    | CodeGeneration | ReadyToExecute | Executing | Completed | Error

  /** The phases in declaration order, the order `list(WorkflowPhase)` yields. */
  const AllPhases: seq<Phase> :=
    [Initial, UrlCollection, UrlValidation, SchemaDefinition, SchemaValidation,
     CodeGeneration, ReadyToExecute, Executing, Completed, Error]

  /** Position of a phase in declaration order. */
  function Rank(p: Phase): (k: nat)
    ensures k < |AllPhases| && AllPhases[k] == p
  {
    match p
    case Initial => 0
    case UrlCollection => 1
    case UrlValidation => 2
    case SchemaDefinition => 3
    case SchemaValidation => 4
    case CodeGeneration => 5
    case ReadyToExecute => 6
    case Executing => 7
    case Completed => 8
    case Error => 9
  }

  /** The allowed targets of each phase, in the order the table lists them. */
  function Successors(p: Phase): (r: seq<Phase>)
    ensures p !in r
    ensures NoDup(r)
    ensures Initial in r <==> p == Completed || p == Error
    ensures Error in r <==> p != Initial && p != Completed && p != Error
    ensures p == Initial || p == Completed || p == Error ==> |r| == 1
  {
    match p
    case Initial => [UrlCollection]
    case UrlCollection => [UrlValidation, Error]
    case UrlValidation => [SchemaDefinition, UrlCollection, Error]
    case SchemaDefinition => [SchemaValidation, Error]
    case SchemaValidation => [CodeGeneration, SchemaDefinition, Error]
    case CodeGeneration => [ReadyToExecute, Error]
    case ReadyToExecute => [Executing, CodeGeneration, Error]
    case Executing => [Completed, Error]
    case Completed => [Initial]
    case Error => [Initial]
  }

  /** `can_transition_to`. */
  predicate CanTransition(from: Phase, to: Phase)
  {
    to in Successors(from)
  }

  /**
   * Every allowed move either advances one step along the main chain, steps
   * back one step from a validation or ready phase, fails into `Error`, or
   * restarts from a terminal phase.
   */
  lemma TransitionShape(from: Phase, to: Phase)
    requires CanTransition(from, to)
    ensures || (to != Error && Rank(to) == Rank(from) + 1)
            || (Rank(to) + 1 == Rank(from) && from in {UrlValidation, SchemaValidation, ReadyToExecute})
            || (to == Error && from != Initial)
            || (to == Initial && (from == Completed || from == Error))
  {
  }

  /** `get_phase_progress`. */
  function Progress(p: Phase): (r: real)
    ensures p == Error <==> r < 0.0
    ensures p == Error ==> r == -1.0
    ensures p != Error ==> 0.0 <= r <= 1.0
    ensures r == 0.0 <==> p == Initial
    ensures r == 1.0 <==> p == Completed
  {
    match p
    case Initial => 0.0
    case UrlCollection => 0.15
    case UrlValidation => 0.25
    case SchemaDefinition => 0.40
    case SchemaValidation => 0.50
    case CodeGeneration => 0.70
    case ReadyToExecute => 0.85
    case Executing => 0.90
    case Completed => 1.0
    case Error => -1.0
  }

  /** The `phase_weights` table of `get_phase_progress`. */
  const PhaseWeights: map<Phase, real> := map[
    Initial := 0.0, UrlCollection := 0.15, UrlValidation := 0.25, SchemaDefinition := 0.40,
    SchemaValidation := 0.50, CodeGeneration := 0.70, ReadyToExecute := 0.85, Executing := 0.90,
    Completed := 1.0, Error := -1.0]

  /** Progress is the phase's weight in the table, and the table's 0.0 default is never needed. */
  lemma ProgressIsTableLookup(p: Phase)
    ensures p in PhaseWeights && Progress(p) == PhaseWeights[p]
  {
  }

  /** Progress grows strictly along the declaration order of the non-error phases. */
  lemma ProgressIncreasesAlongChain(p: Phase, q: Phase)
    requires p != Error && q != Error
    ensures Rank(p) < Rank(q) <==> Progress(p) < Progress(q)
  {
  }

  // ---------------------------------------------------------------------
  // Records
  // ---------------------------------------------------------------------

  datatype TransitionRecord = TransitionRecord(
    fromPhase: Phase, toPhase: Phase, reason: string, triggeredBy: string, at: int)

  datatype UrlInfo = UrlInfo(
    url: string, description: string, relevance: string, validated: bool,
    validationReason: Option<string>, addedAt: int, addedBy: string)

  datatype SchemaField = SchemaField(
    name: string, fieldType: string, description: string, required: bool, example: Option<string>)

  datatype ApprovalStatus = Pending | Approved | Rejected | Expired

  datatype ApprovalRequest = ApprovalRequest(
    id: string, phase: Phase, action: string, data: string,
    createdAt: int, expiresAt: Option<int>, status: ApprovalStatus)

  /** A URL as a client submits it; absent keys are `None`. */
  datatype UrlInput = UrlInput(
    url: string, description: Option<string>, relevance: Option<string>, validated: Option<bool>)

  /** A schema field as a client submits it; absent keys are `None`. */
  datatype FieldInput = FieldInput(
    name: string, fieldType: string, description: Option<string>,
    required: Option<bool>, example: Option<string>)

  /** The old and new values a user modification records. */
  datatype ModValue =
    | UrlRecords(urls: seq<UrlInfo>)
    | UrlInputs(inputs: seq<UrlInput>)
    | FieldRecords(fields: seq<SchemaField>)
    | FieldInputs(fieldInputs: seq<FieldInput>)

  datatype Modification = Modification(
    field: string, oldValue: ModValue, newValue: ModValue, at: int, user: string)

  datatype WorkflowState = WorkflowState(
    pipelineId: string,
    phase: Phase,
    urls: seq<UrlInfo>,
    urlsValidated: bool,
    schemaFields: seq<SchemaField>,
    schemaValidated: bool,
    generatedCode: string,
    codeValidated: bool,
    executionResults: seq<string>,
    executionStatus: Option<string>,
    pendingApprovals: seq<ApprovalRequest>,
    approvalHistory: seq<ApprovalRequest>,
    transitions: seq<TransitionRecord>,
    modifications: seq<Modification>,
    createdAt: int,
    updatedAt: int,
    createdBy: string,
    lastModifiedBy: string,
    version: int)

  // ---------------------------------------------------------------------
  // Invariants of a workflow record
  // ---------------------------------------------------------------------

  /**
   * The phase only changes through a recorded transition: the log starts at
   * `Initial`, each record starts where the previous one ended, and the last
   * one ends at the current phase.
   */
  predicate Chained(w: WorkflowState)
  {
    var t := w.transitions;
    (|t| == 0 ==> w.phase == Initial)
    && (|t| > 0 ==> t[0].fromPhase == Initial && t[|t| - 1].toPhase == w.phase)
    && forall i :: 1 <= i < |t| ==> t[i - 1].toPhase == t[i].fromPhase
  }

  /** Every recorded transition is one the table allows. */
  predicate LegalLog(w: WorkflowState)
  {
    forall i :: 0 <= i < |w.transitions| ==> CanTransition(w.transitions[i].fromPhase, w.transitions[i].toPhase)
  }

  /** The version counts the user modifications on top of the initial 1. */
  predicate VersionCounts(w: WorkflowState)
  {
    w.version == 1 + |w.modifications|
  }

  predicate UniqueIds(s: seq<ApprovalRequest>)
  {
    forall i, j :: 0 <= i < j < |s| ==> s[i].id != s[j].id
  }

  /** Approval ids are never reused, and only pending requests sit in the pending list. */
  predicate ApprovalsWf(w: WorkflowState)
  {
    UniqueIds(w.pendingApprovals + w.approvalHistory)
    && forall i :: 0 <= i < |w.pendingApprovals| ==> w.pendingApprovals[i].status == Pending
  }

  predicate IsPending(w: WorkflowState, id: string)
  {
    exists i :: 0 <= i < |w.pendingApprovals| && w.pendingApprovals[i].id == id
  }

  predicate KnownApproval(w: WorkflowState, id: string)
  {
    exists a :: a in w.pendingApprovals + w.approvalHistory && a.id == id
  }

  predicate Valid(w: WorkflowState)
  {
    Chained(w) && VersionCounts(w) && ApprovalsWf(w)
  }

  // ---------------------------------------------------------------------
  // Mutators
  // ---------------------------------------------------------------------

  /** `WorkflowState(pipeline_id=..., created_by=user)`. */
  function NewWorkflow(pipelineId: string, user: string, now: int): (w: WorkflowState)
    ensures w.pipelineId == pipelineId && w.phase == Initial && w.createdBy == user
    ensures w.version == 1 && w.transitions == [] && w.pendingApprovals == []
    ensures Valid(w) && LegalLog(w)
  {
    WorkflowState(pipelineId, Initial, [], false, [], false, "", false, [], None,
                  [], [], [], [], now, now, user, "system", 1)
  }

  /**
   * `add_transition`: records the move from the current phase and makes it;
   * the table is not consulted.
   */
  function AddTransition(w: WorkflowState, to: Phase, reason: string, actor: string, now: int): (r: WorkflowState)
    ensures r.phase == to && r.lastModifiedBy == actor && r.pipelineId == w.pipelineId
    ensures |r.transitions| == |w.transitions| + 1 && r.transitions[..|w.transitions|] == w.transitions
    ensures r.transitions[|w.transitions|].fromPhase == w.phase
    ensures r.transitions[|w.transitions|].toPhase == to
    ensures r.transitions[|w.transitions|].reason == reason && r.transitions[|w.transitions|].triggeredBy == actor
    ensures r == w.(phase := to, transitions := r.transitions, updatedAt := now, lastModifiedBy := actor)
    ensures r.version == w.version && r.modifications == w.modifications
    ensures r.urls == w.urls && r.schemaFields == w.schemaFields && r.generatedCode == w.generatedCode
    ensures r.pendingApprovals == w.pendingApprovals && r.approvalHistory == w.approvalHistory
    ensures Valid(w) ==> Valid(r)
    ensures LegalLog(w) ==> (LegalLog(r) <==> CanTransition(w.phase, to))
  {
    var t := w.transitions + [TransitionRecord(w.phase, to, reason, actor, now)];
    var r := w.(phase := to, transitions := t, updatedAt := now, lastModifiedBy := actor);
    assert Chained(w) ==> Chained(r) by {
      if Chained(w) {
        forall i | 1 <= i < |t| ensures t[i - 1].toPhase == t[i].fromPhase {
          if i < |w.transitions| {
            assert t[i - 1] == w.transitions[i - 1] && t[i] == w.transitions[i];
          }
        }
      }
    }
    assert LegalLog(w) ==> (LegalLog(r) <==> CanTransition(w.phase, to)) by {
      if LegalLog(w) {
        assert forall i :: 0 <= i < |w.transitions| ==> t[i] == w.transitions[i];
        assert t[|t| - 1].fromPhase == w.phase && t[|t| - 1].toPhase == to;
      }
    }
    r
  }

  /** `add_user_modification`: one more recorded edit, one more version. */
  function AddUserModification(w: WorkflowState, field: string, oldValue: ModValue, newValue: ModValue,
                               user: string, now: int): (r: WorkflowState)
    ensures r.version == w.version + 1 && r.lastModifiedBy == user && r.pipelineId == w.pipelineId
    ensures |r.modifications| == |w.modifications| + 1 && r.modifications[..|w.modifications|] == w.modifications
    ensures r.modifications[|w.modifications|] == Modification(field, oldValue, newValue, now, user)
    ensures r.phase == w.phase && r.transitions == w.transitions
    ensures r.pendingApprovals == w.pendingApprovals && r.approvalHistory == w.approvalHistory
    ensures Valid(w) ==> Valid(r)
    ensures LegalLog(w) ==> LegalLog(r)
  {
    var mods := w.modifications + [Modification(field, oldValue, newValue, now, user)];
    assert mods[..|w.modifications|] == w.modifications;
    w.(modifications := mods, updatedAt := now, lastModifiedBy := user, version := w.version + 1)
  }

  datatype ApprovalCreated = ApprovalCreated(state: WorkflowState, approval: ApprovalRequest)

  /** `create_approval_request`: a pending request for the current phase, under the given fresh id. */
  function CreateApprovalRequest(w: WorkflowState, id: string, action: string, data: string, now: int)
    : (r: ApprovalCreated)
    ensures r.approval.id == id && r.approval.phase == w.phase && r.approval.status == Pending
    ensures r.state.pendingApprovals == w.pendingApprovals + [r.approval]
    ensures r.state.approvalHistory == w.approvalHistory
    ensures r.state.phase == w.phase && r.state.transitions == w.transitions && r.state.version == w.version
    ensures r.state.pipelineId == w.pipelineId
    ensures IsPending(r.state, id)
    ensures Valid(w) && !KnownApproval(w, id) ==> Valid(r.state)
  {
    var a := ApprovalRequest(id, w.phase, action, data, now, None, Pending);
    var r := w.(pendingApprovals := w.pendingApprovals + [a]);
    assert r.pendingApprovals[|w.pendingApprovals|] == a;
    assert Valid(w) && !KnownApproval(w, id) ==> Valid(r) by {
      if Valid(w) && !KnownApproval(w, id) {
        InsertFreshId(w.pendingApprovals, w.approvalHistory, a);
        assert r.pendingApprovals + r.approvalHistory == w.pendingApprovals + [a] + w.approvalHistory;
      }
    }
    ApprovalCreated(r, a)
  }

  /** A request whose id no other carries can be placed anywhere without reusing an id. */
  lemma InsertFreshId(p: seq<ApprovalRequest>, h: seq<ApprovalRequest>, a: ApprovalRequest)
    requires UniqueIds(p + h)
    requires forall x :: x in p + h ==> x.id != a.id
    ensures UniqueIds(p + [a] + h)
  {
    var before := p + h;
    var after := p + [a] + h;
    var k := |p|;
    forall i, j | 0 <= i < j < |after| ensures after[i].id != after[j].id {
      if i == k || j == k {
        var o := if i == k then j else i;
        assert after[o] in before by {
          if o < k { assert after[o] == before[o]; } else { assert after[o] == before[o - 1]; }
        }
      } else {
        var i' := if i < k then i else i - 1;
        var j' := if j < k then j else j - 1;
        assert after[i] == before[i'] && after[j] == before[j'];
      }
    }
  }

  /** Index of the first pending request with the id. */
  function FindPending(s: seq<ApprovalRequest>, id: string): (r: Option<nat>)
    ensures r.None? <==> forall k :: 0 <= k < |s| ==> s[k].id != id
    ensures r.Some? ==> r.value < |s| && s[r.value].id == id
    ensures r.Some? ==> forall k :: 0 <= k < r.value ==> s[k].id != id
  {
    if |s| == 0 then None
    else if s[0].id == id then Some(0)
    else
      match FindPending(s[1..], id)
      case None => None
      case Some(k) => Some(k + 1)
  }

  /**
   * `process_approval`: the first pending request with the id gets the status
   * and moves to the history; an unknown id changes nothing.
   */
  function ProcessApproval(w: WorkflowState, id: string, status: ApprovalStatus, user: string): (r: WorkflowState)
    ensures !IsPending(w, id) ==> r == w
    ensures IsPending(w, id) ==>
              && |r.pendingApprovals| + 1 == |w.pendingApprovals|
              && |r.approvalHistory| == |w.approvalHistory| + 1
              && r.approvalHistory[..|w.approvalHistory|] == w.approvalHistory
              && r.approvalHistory[|w.approvalHistory|].id == id
              && r.approvalHistory[|w.approvalHistory|].status == status
              && r.lastModifiedBy == user
    ensures FindPending(w.pendingApprovals, id).Some? ==>
              var p, i := w.pendingApprovals, FindPending(w.pendingApprovals, id).value;
              r == w.(pendingApprovals := p[..i] + p[i + 1..],
                      approvalHistory := w.approvalHistory + [p[i].(status := status)],
                      lastModifiedBy := user)
    ensures r.phase == w.phase && r.transitions == w.transitions && r.version == w.version
    ensures r.modifications == w.modifications && r.urls == w.urls && r.schemaFields == w.schemaFields
    ensures r.pipelineId == w.pipelineId
    ensures Valid(w) && status != Pending ==> Valid(r) && !IsPending(r, id)
  {
    match FindPending(w.pendingApprovals, id)
    case None => w
    case Some(i) =>
      var p := w.pendingApprovals;
      var moved := p[i].(status := status);
      var r := w.(pendingApprovals := p[..i] + p[i + 1..],
                  approvalHistory := w.approvalHistory + [moved],
                  lastModifiedBy := user);
      assert r.approvalHistory[..|w.approvalHistory|] == w.approvalHistory;
      assert Valid(w) && status != Pending ==> Valid(r) && !IsPending(r, id) by {
        if Valid(w) && status != Pending {
          ProcessKeepsApprovalsWf(w, i, status, r);
        }
      }
      r
  }

  lemma ProcessKeepsApprovalsWf(w: WorkflowState, i: nat, status: ApprovalStatus, r: WorkflowState)
    requires Valid(w) && status != Pending && i < |w.pendingApprovals|
    requires r == w.(pendingApprovals := w.pendingApprovals[..i] + w.pendingApprovals[i + 1..],
                     approvalHistory := w.approvalHistory + [w.pendingApprovals[i].(status := status)],
                     lastModifiedBy := r.lastModifiedBy)
    ensures Valid(r)
    ensures forall k :: 0 <= k < |r.pendingApprovals| ==> r.pendingApprovals[k].id != w.pendingApprovals[i].id
  {
    var p := w.pendingApprovals;
    var h := w.approvalHistory;
    var before := p + h;
    var after := r.pendingApprovals + r.approvalHistory;
    // Each position of `after` comes from a distinct position of `before`.
    var src := (k: int) requires 0 <= k < |after| =>
      if k < i then k else if k < |p| - 1 then k + 1 else if k < |after| - 1 then k + 1 else i;
    forall k | 0 <= k < |after| ensures 0 <= src(k) < |before| && after[k].id == before[src(k)].id {
      if k < i {
        assert after[k] == p[k];
      } else if k < |p| - 1 {
        assert after[k] == p[k + 1];
      } else if k < |after| - 1 {
        assert after[k] == h[k - (|p| - 1)];
        assert before[k + 1] == h[k + 1 - |p|];
      } else {
        assert after[k] == p[i].(status := status);
      }
    }
    forall a, b | 0 <= a < b < |after| ensures after[a].id != after[b].id {
      assert src(a) != src(b);
    }
    forall k | 0 <= k < |r.pendingApprovals| ensures r.pendingApprovals[k].status == Pending {
      if k < i { assert r.pendingApprovals[k] == p[k]; } else { assert r.pendingApprovals[k] == p[k + 1]; }
    }
    forall k | 0 <= k < |r.pendingApprovals| ensures r.pendingApprovals[k].id != p[i].id {
      assert after[k] == r.pendingApprovals[k];
      assert src(k) != i && before[i] == p[i];
      assert before[src(k)].id != before[i].id;
    }
  }

  /** A request is settled once: processing the same id a second time changes nothing. */
  lemma {:induction false} ProcessApprovalSettlesOnce(w: WorkflowState, id: string, s1: ApprovalStatus,
                                                      s2: ApprovalStatus, u1: string, u2: string)
    requires Valid(w) && s1 != Pending
    ensures var once := ProcessApproval(w, id, s1, u1);
            ProcessApproval(once, id, s2, u2) == once
  {
    var once := ProcessApproval(w, id, s1, u1);
    assert !IsPending(once, id);
  }
}
