/**
 * The workflow manager (`app/services/workflow_manager.py`): the table of
 * workflow records by pipeline id, the manual edits, approvals and their
 * waiting callbacks, and how an agent reply is folded into a record.
 * Broadcasting the updated record is a side effect the model leaves out.
 */
module WorkflowManager {
  import opened Base
  import opened Workflow
  import LanggraphAgent

  /**
   * `workflows` by pipeline id; `callbacks` holds the approval events
   * someone is waiting on, by `pipeline:approval` key, with whether the
   * event has been set.
   */
  datatype Manager = Manager(workflows: map<string, WorkflowState>, callbacks: map<string, bool>)

  const EmptyManager := Manager(map[], map[])

  function CallbackKey(pipelineId: string, approvalId: string): string
  {
    pipelineId + ":" + approvalId
  }

  function NotFound(pipelineId: string): string
  {
    "Workflow not found for pipeline " + pipelineId
  }

  /** Every stored record is well formed and filed under its own pipeline id. */
  predicate ManagerValid(m: Manager)
  {
    forall p :: p in m.workflows ==> Valid(m.workflows[p]) && m.workflows[p].pipelineId == p
  }

  /** `get_workflow`. */
  function GetWorkflow(m: Manager, pipelineId: string): (r: Option<WorkflowState>)
    ensures r.Some? <==> pipelineId in m.workflows
    ensures r.Some? ==> r.value == m.workflows[pipelineId]
  {
    if pipelineId in m.workflows then Some(m.workflows[pipelineId]) else None
  }

  /** `create_workflow`: a fresh record replaces any existing one. */
  function CreateWorkflow(m: Manager, pipelineId: string, user: string, now: int): (r: Manager)
    ensures r.workflows.Keys == m.workflows.Keys + {pipelineId}
    ensures r.workflows[pipelineId].phase == Initial && r.workflows[pipelineId].createdBy == user
    ensures r.workflows[pipelineId].transitions == [] && r.workflows[pipelineId].version == 1
    ensures forall p :: p in m.workflows && p != pipelineId ==> r.workflows[p] == m.workflows[p]
    ensures r.callbacks == m.callbacks
    ensures ManagerValid(m) ==> ManagerValid(r)
  {
    m.(workflows := m.workflows[pipelineId := NewWorkflow(pipelineId, user, now)])
  }

  /** The record for the pipeline, created for `user` when there is none. */
  function GetOrCreate(m: Manager, pipelineId: string, user: string, now: int): (r: Manager)
    ensures pipelineId in r.workflows && r.workflows.Keys == m.workflows.Keys + {pipelineId}
    ensures pipelineId in m.workflows ==> r == m
    ensures ManagerValid(m) ==> ManagerValid(r)
  {
    if pipelineId in m.workflows then m else CreateWorkflow(m, pipelineId, user, now)
  }

  function Replace(m: Manager, pipelineId: string, w: WorkflowState): Manager
  {
    m.(workflows := m.workflows[pipelineId := w])
  }

  // ---------------------------------------------------------------------
  // Manual edits
  // ---------------------------------------------------------------------

  function UrlFromInput(u: UrlInput, user: string, now: int): UrlInfo
  {
    UrlInfo(u.url, u.description.GetOr(""), u.relevance.GetOr("medium"), u.validated.GetOr(false),
            None, now, user)
  }

  function FieldFromInput(f: FieldInput): SchemaField
  {
    SchemaField(f.name, f.fieldType, f.description.GetOr(""), f.required.GetOr(true), f.example)
  }

  /** The URL records built from the input, in order. */
  function UrlInfos(urls: seq<UrlInput>, user: string, now: int): (r: seq<UrlInfo>)
    ensures |r| == |urls| && forall i :: 0 <= i < |urls| ==> r[i] == UrlFromInput(urls[i], user, now)
  {
    seq(|urls|, i requires 0 <= i < |urls| => UrlFromInput(urls[i], user, now))
  }

  /** The schema fields built from the input, in order. */
  function FieldInfos(fields: seq<FieldInput>): (r: seq<SchemaField>)
    ensures |r| == |fields| && forall i :: 0 <= i < |fields| ==> r[i] == FieldFromInput(fields[i])
  {
    seq(|fields|, i requires 0 <= i < |fields| => FieldFromInput(fields[i]))
  }

  /** Replacing one record by a well-formed one filed under the same id keeps the table well formed. */
  lemma ReplaceKeepsValid(m: Manager, pipelineId: string, w: WorkflowState)
    requires ManagerValid(m) && Valid(w) && w.pipelineId == pipelineId
    ensures ManagerValid(Replace(m, pipelineId, w))
  {
  }

  /**
   * The record side of `update_urls`: the URL list is replaced, the edit is
   * recorded (one version step), and a record in URL collection moves on to
   * validation.
   */
  function EditUrls(w: WorkflowState, urls: seq<UrlInput>, user: string, now: int): (r: WorkflowState)
    ensures r.pipelineId == w.pipelineId
    ensures |r.urls| == |urls|
    ensures forall i :: 0 <= i < |urls| ==>
              && r.urls[i].url == urls[i].url && r.urls[i].addedBy == user
              && r.urls[i].description == urls[i].description.GetOr("")
              && r.urls[i].relevance == urls[i].relevance.GetOr("medium")
              && r.urls[i].validated == urls[i].validated.GetOr(false)
    ensures r.version == w.version + 1
    ensures r.modifications == w.modifications + [Modification("urls", UrlRecords(w.urls), UrlInputs(urls), now, user)]
    ensures w.phase == UrlCollection ==> r.phase == UrlValidation && |r.transitions| == |w.transitions| + 1
    ensures w.phase != UrlCollection ==> r.phase == w.phase && r.transitions == w.transitions
    ensures Valid(w) ==> Valid(r)
    ensures LegalLog(w) ==> LegalLog(r)
  {
    var w0 := w.(urls := UrlInfos(urls, user, now));
    ContentOnlyKeepsValid(w, w0);
    var w1 := AddUserModification(w0, "urls", UrlRecords(w.urls), UrlInputs(urls), user, now);
    assert w1.modifications == w.modifications + [Modification("urls", UrlRecords(w.urls), UrlInputs(urls), now, user)];
    if w.phase == UrlCollection then AddTransition(w1, UrlValidation, "URLs manually updated", user, now)
    else w1
  }

  /** `update_urls`: the edit above, on a known pipeline. */
  function UpdateUrls(m: Manager, pipelineId: string, urls: seq<UrlInput>, user: string, now: int)
    : (r: Result<Manager, string>)
    ensures r.Err? <==> pipelineId !in m.workflows
    ensures r.Err? ==> r.error == NotFound(pipelineId)
    ensures r.Ok? ==> r.value.workflows == m.workflows[pipelineId := EditUrls(m.workflows[pipelineId], urls, user, now)]
                      && r.value.callbacks == m.callbacks
    ensures r.Ok? && ManagerValid(m) ==> ManagerValid(r.value)
  {
    if pipelineId !in m.workflows then Err(NotFound(pipelineId))
    else
      var w := EditUrls(m.workflows[pipelineId], urls, user, now);
      assert ManagerValid(m) ==> ManagerValid(Replace(m, pipelineId, w)) by {
        if ManagerValid(m) { ReplaceKeepsValid(m, pipelineId, w); }
      }
      Ok(Replace(m, pipelineId, w))
  }

  /**
   * The record side of `update_schema`: the field list is replaced and
   * recorded; a record in schema definition or validation is marked
   * validated and moved to code generation.
   */
  function EditSchema(w: WorkflowState, fields: seq<FieldInput>, user: string, now: int): (r: WorkflowState)
    ensures r.pipelineId == w.pipelineId
    ensures |r.schemaFields| == |fields|
    ensures forall i :: 0 <= i < |fields| ==>
              && r.schemaFields[i].name == fields[i].name && r.schemaFields[i].fieldType == fields[i].fieldType
              && r.schemaFields[i].description == fields[i].description.GetOr("")
              && r.schemaFields[i].required == fields[i].required.GetOr(true)
    ensures r.version == w.version + 1
    ensures r.modifications == w.modifications
                               + [Modification("schema_fields", FieldRecords(w.schemaFields), FieldInputs(fields), now, user)]
    ensures w.phase in {SchemaDefinition, SchemaValidation} ==>
              r.phase == CodeGeneration && r.schemaValidated && |r.transitions| == |w.transitions| + 1
    ensures w.phase !in {SchemaDefinition, SchemaValidation} ==>
              r.phase == w.phase && r.transitions == w.transitions && r.schemaValidated == w.schemaValidated
    ensures Valid(w) ==> Valid(r)
  {
    var w0 := w.(schemaFields := FieldInfos(fields));
    ContentOnlyKeepsValid(w, w0);
    var w1 := AddUserModification(w0, "schema_fields", FieldRecords(w.schemaFields), FieldInputs(fields), user, now);
    assert w1.modifications == w.modifications
                               + [Modification("schema_fields", FieldRecords(w.schemaFields), FieldInputs(fields), now, user)];
    if w.phase in {SchemaDefinition, SchemaValidation} then
      var w2 := w1.(schemaValidated := true);
      ContentOnlyKeepsValid(w1, w2);
      AddTransition(w2, CodeGeneration, "Schema manually updated", user, now)
    else w1
  }

  /** `update_schema`: the edit above, on a known pipeline. */
  function UpdateSchema(m: Manager, pipelineId: string, fields: seq<FieldInput>, user: string, now: int)
    : (r: Result<Manager, string>)
    ensures r.Err? <==> pipelineId !in m.workflows
    ensures r.Err? ==> r.error == NotFound(pipelineId)
    ensures r.Ok? ==> r.value.workflows == m.workflows[pipelineId := EditSchema(m.workflows[pipelineId], fields, user, now)]
                      && r.value.callbacks == m.callbacks
    ensures r.Ok? && ManagerValid(m) ==> ManagerValid(r.value)
  {
    if pipelineId !in m.workflows then Err(NotFound(pipelineId))
    else
      var w := EditSchema(m.workflows[pipelineId], fields, user, now);
      assert ManagerValid(m) ==> ManagerValid(Replace(m, pipelineId, w)) by {
        if ManagerValid(m) { ReplaceKeepsValid(m, pipelineId, w); }
      }
      Ok(Replace(m, pipelineId, w))
  }

  /**
   * A manual schema edit made during schema definition records a jump to
   * code generation that the transition table does not allow.
   */
  lemma UpdateSchemaSkipsValidation(w: WorkflowState, fields: seq<FieldInput>, user: string, now: int)
    requires w.phase == SchemaDefinition
    ensures var r := EditSchema(w, fields, user, now);
            var t := r.transitions[|r.transitions| - 1];
            t.fromPhase == SchemaDefinition && t.toPhase == CodeGeneration && !CanTransition(t.fromPhase, t.toPhase)
            && !LegalLog(r)
  {
    var r := EditSchema(w, fields, user, now);
    assert !CanTransition(SchemaDefinition, CodeGeneration);
    assert r.transitions[|r.transitions| - 1].fromPhase == SchemaDefinition;
  }

  // ---------------------------------------------------------------------
  // Approvals
  // ---------------------------------------------------------------------

  /** `_get_next_phase`: the main chain's next step; none after completion or an error. */
  function NextPhase(p: Phase): (r: Option<Phase>)
    ensures r.None? <==> p == Completed || p == Error
    ensures r.Some? ==> CanTransition(p, r.value) && r.value != Error && Rank(r.value) == Rank(p) + 1
  {
    match p
    case Initial => Some(UrlCollection)
    case UrlCollection => Some(UrlValidation)
    case UrlValidation => Some(SchemaDefinition)
    case SchemaDefinition => Some(SchemaValidation)
    case SchemaValidation => Some(CodeGeneration)
    case CodeGeneration => Some(ReadyToExecute)
    case ReadyToExecute => Some(Executing)
    case Executing => Some(Completed)
    case _ => None
  }

  /** Following the next phase from `Initial` walks the whole chain and stops at `Completed`. */
  lemma NextPhaseWalksChain()
    ensures NextPhase(Initial) == Some(UrlCollection)
    ensures forall p :: NextPhase(p).Some? ==> NextPhase(p).value != Initial
    ensures forall p :: p != Error && p != Completed ==> exists q :: NextPhase(p) == Some(q)
  {
    forall p | p != Error && p != Completed ensures exists q :: NextPhase(p) == Some(q) {
      assert NextPhase(p) == Some(NextPhase(p).value);
    }
  }

  /**
   * The record side of `approve_action`: the approval is settled, then an
   * approval advances one phase along the chain, and a rejection during URL
   * validation returns to URL collection. The phase moves even when the id
   * was not pending.
   */
  function Decide(w: WorkflowState, approvalId: string, approved: bool, user: string, now: int): (r: WorkflowState)
    ensures r.pipelineId == w.pipelineId && r.version == w.version
    ensures approved && NextPhase(w.phase).Some? ==>
              r.phase == NextPhase(w.phase).value && |r.transitions| == |w.transitions| + 1
              && r.transitions[|w.transitions|].reason == "Approved by " + user
    ensures !approved && w.phase == UrlValidation ==>
              r.phase == UrlCollection && |r.transitions| == |w.transitions| + 1
    ensures (approved && NextPhase(w.phase).None?) || (!approved && w.phase != UrlValidation) ==>
              r.phase == w.phase && r.transitions == w.transitions
    ensures IsPending(w, approvalId) ==>
              |r.approvalHistory| == |w.approvalHistory| + 1
              && r.approvalHistory[..|w.approvalHistory|] == w.approvalHistory
              && r.approvalHistory[|w.approvalHistory|].id == approvalId
              && r.approvalHistory[|w.approvalHistory|].status == (if approved then Approved else Rejected)
    ensures !IsPending(w, approvalId) ==> r.approvalHistory == w.approvalHistory
    ensures Valid(w) ==> Valid(r) && !IsPending(r, approvalId)
    ensures LegalLog(w) ==> LegalLog(r)
  {
    var w1 := ProcessApproval(w, approvalId, if approved then Approved else Rejected, user);
    assert LegalLog(w) ==> LegalLog(w1);
    if approved then
      match NextPhase(w1.phase)
      case Some(next) => AddTransition(w1, next, "Approved by " + user, user, now)
      case None => w1
    else if w1.phase == UrlValidation then
      AddTransition(w1, UrlCollection, "Rejected by " + user + ", collecting new URLs", user, now)
    else w1
  }

  /** `approve_action`: the decision above on a known pipeline, and a waiter for it woken. */
  function ApproveAction(m: Manager, pipelineId: string, approvalId: string, approved: bool, user: string, now: int)
    : (r: Result<Manager, string>)
    ensures r.Err? <==> pipelineId !in m.workflows
    ensures r.Err? ==> r.error == NotFound(pipelineId)
    ensures r.Ok? ==>
              && r.value.workflows == m.workflows[pipelineId := Decide(m.workflows[pipelineId], approvalId, approved, user, now)]
              && r.value.callbacks.Keys == m.callbacks.Keys
              && (forall k :: k in m.callbacks && k != CallbackKey(pipelineId, approvalId) ==>
                                r.value.callbacks[k] == m.callbacks[k])
              && (CallbackKey(pipelineId, approvalId) in m.callbacks ==> r.value.callbacks[CallbackKey(pipelineId, approvalId)])
    ensures r.Ok? && ManagerValid(m) ==> ManagerValid(r.value)
  {
    if pipelineId !in m.workflows then Err(NotFound(pipelineId))
    else
      var w := Decide(m.workflows[pipelineId], approvalId, approved, user, now);
      var key := CallbackKey(pipelineId, approvalId);
      var callbacks := if key in m.callbacks then m.callbacks[key := true] else m.callbacks;
      assert ManagerValid(m) ==> ManagerValid(Replace(m, pipelineId, w)) by {
        if ManagerValid(m) { ReplaceKeepsValid(m, pipelineId, w); }
      }
      Ok(Replace(m, pipelineId, w).(callbacks := callbacks))
  }

  datatype ApprovalWait = ApprovalWait(manager: Manager, approval: ApprovalRequest)

  /**
   * The first half of `request_approval`: a pending request under a fresh
   * id and an unset event for it.
   */
  function RequestApproval(m: Manager, pipelineId: string, approvalId: string, action: string, data: string, now: int)
    : (r: ApprovalWait)
    requires pipelineId in m.workflows
    ensures r.manager.workflows.Keys == m.workflows.Keys
    ensures r.approval.id == approvalId && r.approval.status == Pending
    ensures r.approval.phase == m.workflows[pipelineId].phase
    ensures IsPending(r.manager.workflows[pipelineId], approvalId)
    ensures CallbackKey(pipelineId, approvalId) in r.manager.callbacks
    ensures !r.manager.callbacks[CallbackKey(pipelineId, approvalId)]
    ensures ManagerValid(m) && !KnownApproval(m.workflows[pipelineId], approvalId) ==> ManagerValid(r.manager)
  {
    var created := CreateApprovalRequest(m.workflows[pipelineId], approvalId, action, data, now);
    ApprovalWait(Manager(m.workflows[pipelineId := created.state],
                         m.callbacks[CallbackKey(pipelineId, approvalId) := false]),
                 created.approval)
  }

  /** The first history record with the id, as the waiter's loop finds it. */
  function FirstRecord(h: seq<ApprovalRequest>, id: string): (r: Option<ApprovalRequest>)
    ensures r.Some? ==> r.value in h && r.value.id == id
    ensures r.None? <==> forall k :: 0 <= k < |h| ==> h[k].id != id
  {
    var r := FirstWith(h, RecordId, id);
    assert r.None? <==> forall k :: 0 <= k < |h| ==> RecordId(h[k]) != id;
    r
  }

  function RecordId(a: ApprovalRequest): string { a.id }

  datatype ApprovalOutcome = ApprovalOutcome(manager: Manager, approved: bool)

  /**
   * The second half of `request_approval`, when the waiter resumes: after
   * the event was set, the answer is whether the first history record for
   * the id says approved; after the timeout, the request is expired and the
   * answer is no. The event is dropped either way.
   */
  function ResumeApproval(m: Manager, pipelineId: string, approvalId: string): (r: ApprovalOutcome)
    requires pipelineId in m.workflows && CallbackKey(pipelineId, approvalId) in m.callbacks
    ensures var key := CallbackKey(pipelineId, approvalId);
            && r.manager.callbacks == m.callbacks - {key}
            && r.manager.workflows.Keys == m.workflows.Keys
            && (r.approved <==> m.callbacks[key]
                                && FirstRecord(m.workflows[pipelineId].approvalHistory, approvalId).Some?
                                && FirstRecord(m.workflows[pipelineId].approvalHistory, approvalId).value.status == Approved)
            && (m.callbacks[key] ==> r.manager.workflows == m.workflows)
            && (!m.callbacks[key] ==>
                  r.manager.workflows == m.workflows[pipelineId := ProcessApproval(m.workflows[pipelineId], approvalId, Expired, "system")])
            && (ManagerValid(m) ==> ManagerValid(r.manager))
  {
    var key := CallbackKey(pipelineId, approvalId);
    var w := m.workflows[pipelineId];
    if m.callbacks[key] then
      var rec := FirstRecord(w.approvalHistory, approvalId);
      ApprovalOutcome(m.(callbacks := m.callbacks - {key}), rec.Some? && rec.value.status == Approved)
    else
      ApprovalOutcome(Manager(m.workflows[pipelineId := ProcessApproval(w, approvalId, Expired, "system")],
                              m.callbacks - {key}),
                      false)
  }

  /** An approval given while the requester waits is what the requester sees. */
  lemma ApprovalReachesWaiter(m: Manager, pipelineId: string, approvalId: string, action: string, data: string,
                              user: string, now: int)
    requires ManagerValid(m) && pipelineId in m.workflows
    requires !KnownApproval(m.workflows[pipelineId], approvalId)
    ensures var waiting := RequestApproval(m, pipelineId, approvalId, action, data, now).manager;
            var answered := ApproveAction(waiting, pipelineId, approvalId, true, user, now).value;
            ResumeApproval(answered, pipelineId, approvalId).approved
  {
    var waiting := RequestApproval(m, pipelineId, approvalId, action, data, now).manager;
    var w := waiting.workflows[pipelineId];
    var answered := ApproveAction(waiting, pipelineId, approvalId, true, user, now).value;
    var h := answered.workflows[pipelineId].approvalHistory;
    var n := |w.approvalHistory|;
    assert n < |h| && FirstRecord(h, approvalId) == Some(h[n]) && h[n].status == Approved by {
      assert w.approvalHistory == m.workflows[pipelineId].approvalHistory;
      assert RecordId(h[n]) == approvalId && h[n].status == Approved;
      forall k | 0 <= k < n ensures RecordId(h[k]) != approvalId {
        assert h[k] == h[..n][k] == w.approvalHistory[k];
        assert w.approvalHistory[k] in m.workflows[pipelineId].pendingApprovals + m.workflows[pipelineId].approvalHistory;
      }
      FirstWithAt(h, RecordId, approvalId, n);
    }
    assert answered.callbacks[CallbackKey(pipelineId, approvalId)];
  }

  // ---------------------------------------------------------------------
  // Folding an agent reply into the record
  // ---------------------------------------------------------------------

  function UrlFromAgent(u: LanggraphAgent.AgentUrl, now: int): UrlInfo
  {
    UrlInfo(u.url, u.description, u.relevance, u.validated, u.validationReason, now, "agent")
  }

  function FieldFromPair(p: (string, string)): SchemaField
  {
    SchemaField(p.0, p.1, "Field for " + p.0, true, None)
  }

  predicate AllValidated(urls: seq<UrlInfo>)
  {
    forall i :: 0 <= i < |urls| ==> urls[i].validated
  }

  /** `r` differs from `w` at most in its content: URLs, schema, code and results. */
  predicate ContentOnly(w: WorkflowState, r: WorkflowState)
  {
    && r.pipelineId == w.pipelineId && r.phase == w.phase && r.transitions == w.transitions
    && r.version == w.version && r.modifications == w.modifications
    && r.pendingApprovals == w.pendingApprovals && r.approvalHistory == w.approvalHistory
  }

  /** The fields an agent result can fill: URLs, schema, code and results, with their flags. */
  predicate SameContent(a: WorkflowState, b: WorkflowState)
  {
    && a.urls == b.urls && a.urlsValidated == b.urlsValidated
    && a.schemaFields == b.schemaFields && a.schemaValidated == b.schemaValidated
    && a.generatedCode == b.generatedCode && a.codeValidated == b.codeValidated
    && a.executionResults == b.executionResults
  }

  lemma ContentOnlyKeepsValid(w: WorkflowState, r: WorkflowState)
    requires ContentOnly(w, r)
    ensures Valid(w) ==> Valid(r)
    ensures LegalLog(w) ==> LegalLog(r)
  {
  }

  /** Each non-empty part of the reply replaces the matching part of the record. */
  function MergeContent(w: WorkflowState, res: LanggraphAgent.AgentResult, now: int): (r: WorkflowState)
    ensures ContentOnly(w, r)
    ensures |res.urls| > 0 ==> |r.urls| == |res.urls| && (r.urlsValidated <==> AllValidated(r.urls))
                               && forall i :: 0 <= i < |res.urls| ==>
                                    r.urls[i].url == res.urls[i].url && r.urls[i].addedBy == "agent"
    ensures |res.urls| == 0 ==> r.urls == w.urls && r.urlsValidated == w.urlsValidated
    ensures |res.schema| > 0 ==> |r.schemaFields| == |res.schema| && r.schemaValidated
                                 && forall i :: 0 <= i < |res.schema| ==>
                                      r.schemaFields[i].name == res.schema[i].0 && r.schemaFields[i].fieldType == res.schema[i].1
    ensures |res.schema| == 0 ==> r.schemaFields == w.schemaFields && r.schemaValidated == w.schemaValidated
    ensures |res.code| > 0 ==> r.generatedCode == res.code && !r.codeValidated
    ensures |res.code| == 0 ==> r.generatedCode == w.generatedCode && r.codeValidated == w.codeValidated
    ensures r.executionResults == (if |res.results| > 0 then res.results else w.executionResults)
  {
    var w2 := if |res.urls| > 0 then
                var infos := seq(|res.urls|, i requires 0 <= i < |res.urls| => UrlFromAgent(res.urls[i], now));
                w.(urls := infos, urlsValidated := AllValidated(infos))
              else w;
    var w3 := if |res.schema| > 0 then
                w2.(schemaFields := seq(|res.schema|, i requires 0 <= i < |res.schema| => FieldFromPair(res.schema[i])),
                    schemaValidated := true)
              else w2;
    var w4 := if |res.code| > 0 then w3.(generatedCode := res.code, codeValidated := false) else w3;
    if |res.results| > 0 then w4.(executionResults := res.results) else w4
  }

  /**
   * The part of `_update_workflow_from_result` both managers share: a phase
   * change is recorded as an agent transition, then the content is merged.
   */
  function MergeAgentResult(w: WorkflowState, res: LanggraphAgent.AgentResult, now: int): (r: WorkflowState)
    ensures r.phase == res.phase && r.pipelineId == w.pipelineId
    ensures res.phase != w.phase ==> |r.transitions| == |w.transitions| + 1
                                     && r.transitions[..|w.transitions|] == w.transitions
                                     && r.transitions[|w.transitions|].fromPhase == w.phase
                                     && r.transitions[|w.transitions|].triggeredBy == "agent"
    ensures res.phase == w.phase ==> r.transitions == w.transitions
    ensures r.version == w.version && r.modifications == w.modifications
    ensures r.pendingApprovals == w.pendingApprovals && r.approvalHistory == w.approvalHistory
    ensures Valid(w) ==> Valid(r)
    ensures LegalLog(w) ==> (LegalLog(r) <==> res.phase == w.phase || CanTransition(w.phase, res.phase))
    ensures SameContent(r, MergeContent(w, res, now))
  {
    var w1 := if res.phase != w.phase then AddTransition(w, res.phase, "Agent processing", "agent", now) else w;
    var r := MergeContent(w1, res, now);
    ContentOnlyKeepsValid(w1, r);
    assert LegalLog(r) <==> LegalLog(w1);
    r
  }

  function ErrorRecord(p: Phase, e: string, now: int): TransitionRecord
  {
    TransitionRecord(p, p, "Error: " + e, "agent", now)
  }

  /** One error record per error, in order. */
  function ErrorRecords(p: Phase, errors: seq<string>, now: int): (rs: seq<TransitionRecord>)
    ensures |rs| == |errors|
    ensures forall i :: 0 <= i < |errors| ==> rs[i] == ErrorRecord(p, errors[i], now)
  {
    seq(|errors|, i requires 0 <= i < |errors| => ErrorRecord(p, errors[i], now))
  }

  /** Self-transitions on the current phase extend a chained log to a chained log. */
  lemma SelfLoopsKeepChained(w: WorkflowState, extra: seq<TransitionRecord>)
    requires Chained(w)
    requires forall i :: 0 <= i < |extra| ==> extra[i].fromPhase == w.phase && extra[i].toPhase == w.phase
    ensures Chained(w.(transitions := w.transitions + extra))
  {
    var n := |w.transitions|;
    var t := w.transitions + extra;
    forall i | 1 <= i < |t| ensures t[i - 1].toPhase == t[i].fromPhase {
      if i < n { assert t[i - 1] == w.transitions[i - 1] && t[i] == w.transitions[i]; }
      else if i == n { assert t[i - 1] == w.transitions[n - 1] && t[i] == extra[0]; }
      else { assert t[i - 1] == extra[i - 1 - n] && t[i] == extra[i - n]; }
    }
    if |t| > 0 && n == 0 { assert t[0] == extra[0]; }
    if |extra| > 0 { assert t[|t| - 1] == extra[|extra| - 1]; }
  }

  /** The v1 error loop: one self-transition per reported error, without changing the phase. */
  function AppendErrorRecords(w: WorkflowState, errors: seq<string>, now: int): (r: WorkflowState)
    ensures r.phase == w.phase
    ensures |r.transitions| == |w.transitions| + |errors| && r.transitions[..|w.transitions|] == w.transitions
    ensures forall i :: 0 <= i < |errors| ==> r.transitions[|w.transitions| + i] == ErrorRecord(w.phase, errors[i], now)
    ensures r == w.(transitions := r.transitions)
    ensures Chained(w) ==> Chained(r)
  {
    var extra := ErrorRecords(w.phase, errors, now);
    assert Chained(w) ==> Chained(w.(transitions := w.transitions + extra)) by {
      if Chained(w) { SelfLoopsKeepChained(w, extra); }
    }
    w.(transitions := w.transitions + extra)
  }

  /** `_update_workflow_from_result` of the v1 manager. */
  function UpdateFromResult(w: WorkflowState, res: LanggraphAgent.AgentResult, now: int): (r: WorkflowState)
    ensures r.phase == res.phase
    ensures |r.transitions| == |w.transitions| + (if res.phase != w.phase then 1 else 0) + |res.errors|
    ensures r.version == w.version && r.modifications == w.modifications
    ensures Valid(w) ==> Valid(r)
    ensures SameContent(r, MergeContent(w, res, now))
  {
    AppendErrorRecords(MergeAgentResult(w, res, now), res.errors, now)
  }

  /** A reported error leaves a transition record the table never allows. */
  lemma ErrorsBreakLegalLog(w: WorkflowState, res: LanggraphAgent.AgentResult, now: int)
    requires |res.errors| > 0
    ensures !LegalLog(UpdateFromResult(w, res, now))
  {
    var m := MergeAgentResult(w, res, now);
    var r := AppendErrorRecords(m, res.errors, now);
    assert r.transitions[|m.transitions|] == ErrorRecord(m.phase, res.errors[0], now);
    assert !CanTransition(m.phase, m.phase);
  }

  datatype ChatOutcome = ChatOutcome(manager: Manager, response: string, requiresAction: bool)

  /**
   * `process_message`: the record (created for `user` if needed) absorbs the
   * agent's reply; action is required while approvals are pending.
   */
  function ProcessMessage(m: Manager, pipelineId: string, user: string, res: LanggraphAgent.AgentResult, now: int)
    : (r: ChatOutcome)
    ensures pipelineId in r.manager.workflows
    ensures r.manager.workflows.Keys == m.workflows.Keys + {pipelineId}
    ensures r.manager.workflows[pipelineId].phase == res.phase
    ensures r.requiresAction <==> |r.manager.workflows[pipelineId].pendingApprovals| > 0
    ensures r.response == res.response
    ensures SameContent(r.manager.workflows[pipelineId],
                        MergeContent(GetOrCreate(m, pipelineId, user, now).workflows[pipelineId], res, now))
    ensures forall p :: p in m.workflows && p != pipelineId ==> r.manager.workflows[p] == m.workflows[p]
    ensures r.manager.callbacks == m.callbacks
    ensures ManagerValid(m) ==> ManagerValid(r.manager)
  {
    var m1 := GetOrCreate(m, pipelineId, user, now);
    var w := UpdateFromResult(m1.workflows[pipelineId], res, now);
    ChatOutcome(Replace(m1, pipelineId, w), res.response, |w.pendingApprovals| > 0)
  }

  // ---------------------------------------------------------------------
  // Summary
  // ---------------------------------------------------------------------

  datatype Summary = Summary(
    pipelineId: string, phase: Phase, progress: real, urlsCount: nat, schemaFieldsCount: nat,
    hasCode: bool, pendingApprovals: nat, canExecute: bool)

  /** `get_workflow_summary`. */
  function GetSummary(m: Manager, pipelineId: string): (r: Result<Summary, string>)
    ensures r.Err? <==> pipelineId !in m.workflows
    ensures r.Err? ==> r.error == "Workflow not found"
    ensures r.Ok? ==>
              var w := m.workflows[pipelineId];
              && r.value.phase == w.phase && r.value.urlsCount == |w.urls|
              && r.value.schemaFieldsCount == |w.schemaFields| && r.value.pendingApprovals == |w.pendingApprovals|
              && (r.value.hasCode <==> w.generatedCode != "")
              && (r.value.canExecute <==> w.phase == ReadyToExecute)
              && r.value.progress == Progress(w.phase)
              && (r.value.canExecute ==> r.value.progress == 0.85)
              && (r.value.progress < 0.0 <==> w.phase == Error)
  {
    if pipelineId !in m.workflows then Err("Workflow not found")
    else
      var w := m.workflows[pipelineId];
      Ok(Summary(pipelineId, w.phase, Progress(w.phase), |w.urls|, |w.schemaFields|, w.generatedCode != "",
                 |w.pendingApprovals|, w.phase == ReadyToExecute))
  }
}
