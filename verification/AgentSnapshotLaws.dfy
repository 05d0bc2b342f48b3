/** The snapshot as others may read it: the texts of its enumerations, which field is where, and what an old or partial
    one means. */
module AgentSnapshotLaws {
  import opened Prelude
  import opened AgentModels
  import opened AgentSnapshot

  /** Every phase is written as its own name. */
  lemma PhaseTexts()
    ensures PhaseText(Phase.CREATED) == "CREATED" && PhaseText(UNDERSTANDING) == "UNDERSTANDING"
    ensures PhaseText(RESEARCHING) == "RESEARCHING" && PhaseText(PLANNING) == "PLANNING"
    ensures PhaseText(Phase.WAITING_FOR_AUTHORIZATION) == "WAITING_FOR_AUTHORIZATION"
    ensures PhaseText(Phase.WAITING_FOR_APPROVAL) == "WAITING_FOR_APPROVAL" && PhaseText(PREPARING) == "PREPARING"
    ensures PhaseText(EXECUTING) == "EXECUTING" && PhaseText(OBSERVING) == "OBSERVING"
    ensures PhaseText(ANALYZING) == "ANALYZING" && PhaseText(Phase.VERIFYING) == "VERIFYING"
    ensures PhaseText(RECOVERING) == "RECOVERING" && PhaseText(PAUSED) == "PAUSED"
    ensures PhaseText(Phase.CANCELLED) == "CANCELLED" && PhaseText(Phase.COMPLETED) == "COMPLETED"
    ensures PhaseText(Phase.FAILED) == "FAILED" && PhaseText(Phase.BLOCKED) == "BLOCKED"
  {
  }

  /** So is every other constant. */
  lemma EnumerationTexts()
    ensures ApprovalText(NOT_REQUIRED) == "NOT_REQUIRED" && ApprovalText(ApprovalState.PENDING) == "PENDING"
    ensures ApprovalText(APPROVED) == "APPROVED" && ApprovalText(REJECTED) == "REJECTED"
    ensures CancellationText(NONE) == "NONE" && CancellationText(REQUESTED) == "REQUESTED"
    ensures CancellationText(CancellationState.CANCELLED) == "CANCELLED"
    ensures StatusText(SubtaskStatus.PENDING) == "PENDING" && StatusText(IN_PROGRESS) == "IN_PROGRESS"
    ensures StatusText(SubtaskStatus.COMPLETED) == "COMPLETED" && StatusText(SubtaskStatus.BLOCKED) == "BLOCKED"
    ensures StatusText(SubtaskStatus.FAILED) == "FAILED"
    ensures KindText(FACT) == "FACT" && KindText(OBSERVATION) == "OBSERVATION" && KindText(ASSUMPTION) == "ASSUMPTION"
    ensures KindText(EvidenceKind.UNKNOWN) == "UNKNOWN" && KindText(FINDING) == "FINDING"
    ensures KindText(VERIFIED_FINDING) == "VERIFIED_FINDING"
  {
  }

  lemma ActionTexts()
    ensures ActionText(DISCOVER_TARGET) == "DISCOVER_TARGET" && ActionText(CHECK_ENVIRONMENT) == "CHECK_ENVIRONMENT"
    ensures ActionText(RESEARCH_TOOL) == "RESEARCH_TOOL" && ActionText(INSTALL_TOOL) == "INSTALL_TOOL"
    ensures ActionText(RUN_DIAGNOSTIC) == "RUN_DIAGNOSTIC" && ActionText(COLLECT_INFORMATION) == "COLLECT_INFORMATION"
    ensures ActionText(ANALYZE_OUTPUT) == "ANALYZE_OUTPUT" && ActionText(VERIFY_FINDING) == "VERIFY_FINDING"
    ensures ActionText(GENERATE_REPORT) == "GENERATE_REPORT" && ActionText(ASK_USER) == "ASK_USER"
    ensures ActionText(WAIT_FOR_APPROVAL) == "WAIT_FOR_APPROVAL" && ActionText(COMPLETE_TASK) == "COMPLETE_TASK"
  {
  }

  /** The record has exactly this entry under the key. */
  predicate Holds(j: Json, k: Key, value: Json) {
    Item(j, k, None) == Some(value)
  }

  /** Who the task is. */
  lemma IdentityFields(t: Task)
    ensures var j, h := Snapshot(t), t.header;
            && Holds(j, Id, JId(h.id)) && Holds(j, Objective, JText(h.objective))
            && Holds(j, UserRequest, JText(h.userRequest)) && Holds(j, ExecutionState, JText(h.executionState))
            && Holds(j, AuthorizationStatus, JText(h.authorizationStatus))
  {
    hide Snapshot, Item;
    TaskItems(t);
  }

  /** What it is about. */
  lemma TargetFields(t: Task)
    ensures var j, h := Snapshot(t), t.header;
            && Holds(j, TargetKey, if h.target.Some? then JText(h.target.value) else JNull)
            && Holds(j, TargetType, if h.targetType.Some? then JText(h.targetType.value) else JNull)
            && Holds(j, TargetId, if h.targetId.Some? then JId(h.targetId.value) else JNull)
            && Holds(j, CurrentSubtaskId, if h.currentSubtaskId.Some? then JId(h.currentSubtaskId.value) else JNull)
  {
    hide Snapshot, Item;
    TaskItems(t);
  }

  /** When. */
  lemma TimeFields(t: Task)
    ensures var j, h := Snapshot(t), t.header;
            && Holds(j, CreatedAt, JTime(h.createdAt)) && Holds(j, UpdatedAt, JTime(t.updatedAt))
            && Holds(j, StartedAt, if h.startedAt.Some? then JTime(h.startedAt.value) else JNull)
            && Holds(j, CompletedAt, if t.completedAt.Some? then JTime(t.completedAt.value) else JNull)
  {
    hide Snapshot, Item;
    TaskItems(t);
  }

  /** What was found. */
  lemma EvidenceFields(t: Task)
    ensures var j := Snapshot(t);
            && Holds(j, Observations, JList(EncodeAll(t.observations, EvidenceToJson)))
            && Holds(j, Findings, JList(EncodeAll(t.findings, EvidenceToJson)))
            && Holds(j, EvidenceKey, JList(EncodeAll(t.evidence, EvidenceToJson)))
  {
    hide Snapshot, Item, EncodeAll;
    TaskItems(t);
  }

  /** What was done, and what went wrong. */
  lemma HistoryFields(t: Task)
    ensures var j, h := Snapshot(t), t.header;
            && Holds(j, Actions, JList(EncodeAll(t.actions, ActionToJson)))
            && Holds(j, Errors, JList(EncodeAll(t.errors, ErrorToJson)))
            && Holds(j, RecoveryAttempts, JList(EncodeAll(t.recoveryAttempts, RecoveryToJson)))
            && Holds(j, Subtasks, JList(EncodeAll(h.subtasks, SubtaskToJson)))
  {
    hide Snapshot, Item, EncodeAll;
    TaskItems(t);
  }

  /** The lists of texts. */
  lemma TextFields(t: Task)
    ensures var j, h := Snapshot(t), t.header;
            && Holds(j, Outputs, Texts(t.outputs)) && Holds(j, SelectedTools, Texts(t.selectedTools))
            && Holds(j, Unknowns, Texts(t.unknowns)) && Holds(j, Scope, Texts(h.scope))
            && Holds(j, Assumptions, Texts(h.assumptions))
  {
    hide Snapshot, Item, Texts;
    TaskItems(t);
  }

  /** Where it stands. */
  lemma StateFields(t: Task)
    ensures var j := Snapshot(t);
            && Holds(j, PhaseKey, JText(PhaseText(t.phase)))
            && Holds(j, ApprovalStateKey, JText(ApprovalText(t.approvalState)))
            && Holds(j, CancellationStateKey, JText(CancellationText(t.cancellationState)))
            && Holds(j, PendingActionId, if t.pendingActionId.Some? then JId(t.pendingActionId.value) else JNull)
  {
    hide Snapshot, Item, PhaseText, ApprovalText, CancellationText;
    TaskItems(t);
  }

  /** What it asks and says. */
  lemma MessageFields(t: Task)
    ensures var j := Snapshot(t);
            && Holds(j, ClarificationQuestion,
                     if t.clarificationQuestion.Some? then JText(t.clarificationQuestion.value) else JNull)
            && Holds(j, NextAction, if t.nextAction.Some? then JText(t.nextAction.value) else JNull)
            && Holds(j, LastErrorSignature, if t.lastErrorSignature.Some? then JText(t.lastErrorSignature.value)
                     else JNull)
  {
    hide Snapshot, Item;
    TaskItems(t);
  }

  /** Its counts. */
  lemma CountFields(t: Task)
    ensures var j := Snapshot(t);
            && Holds(j, ConfidenceKey, JNumber(t.confidence)) && Holds(j, ActionCount, JInt(t.actionCount))
            && Holds(j, ModelCallCount, JInt(t.modelCallCount))
            && Holds(j, InstallationCount, JInt(t.installationCount))
  {
    hide Snapshot, Item;
    TaskItems(t);
  }

  /** The tables. */
  lemma TableFields(t: Task)
    ensures var j := Snapshot(t);
            && Holds(j, ToolCapabilities, TextListsJson(t.toolCapabilities))
            && Holds(j, InstallationState, TextMapJson(t.installationState))
            && Holds(j, VerificationResults, VerdictsJson(t.verificationResults))
            && Holds(j, RetryCountByAction, IntMapJson(t.retryCountByAction))
  {
    hide Snapshot, Item, TextListsJson, TextMapJson, VerdictsJson, IntMapJson;
    TaskItems(t);
  }

  // --- Partial snapshots -------------------------------------------------------------------------------------------

  /** The smallest snapshot that can be read: identity, objective, phase and two times. */
  function Minimal(id: Uuid, objective: string, phase: Phase, createdAt: Time, updatedAt: Time): Json {
    JRecord(map[Id := JId(id), Objective := JText(objective), PhaseKey := JText(PhaseText(phase)),
                CreatedAt := JTime(createdAt), UpdatedAt := JTime(updatedAt)])
  }

  /** It is read as a task of which nothing else is known. */
  lemma MinimalReads(id: Uuid, objective: string, phase: Phase, createdAt: Time, updatedAt: Time)
    ensures FromSnapshot(Minimal(id, objective, phase, createdAt, updatedAt)) ==
            Some(Task(Header(id, objective, "", None, None, "UNKNOWN", None, [], None, [], "idle", [], createdAt, None),
                      phase, [], map[], map[], [], [], [], [], [], [], [], map[], 0.0, [], None, NOT_REQUIRED, None,
                      NONE,
                      None, 0, 0, 0, map[], None, updatedAt, None))
  {
    hide Minimal, HeaderFromJson, HistoryFromJson, TextAt, OptTextAt, IdAt, OptIdAt, OptTimeAt, TimeAt, NumberAt, IntAt,
         BoolAt, JsonAt, PhaseAt, ActionTypeAt, KindAt, StatusAt, ApprovalAt, CancellationAt, ListAt, TextsAt, FieldsAt,
         TextListsAt, TextMapAt, IntMapAt, VerdictsAt;
    var j := Minimal(id, objective, phase, createdAt, updatedAt);
    MinimalHeader(id, objective, phase, createdAt, updatedAt);
    MinimalHistory(id, objective, phase, createdAt, updatedAt);
    MinimalItems(id, objective, phase, createdAt, updatedAt);
    PresentRead(j, phase, updatedAt);
    AbsentLists(j);
    AbsentStates(j);
    AbsentNumbers(j);
    AbsentTexts(j);
  }

  /** What an item of a minimal snapshot is. */
  ghost predicate IsMinimal(j: Json, phase: Phase, updatedAt: Time) {
    && Item(j, PhaseKey, None) == Some(JText(PhaseText(phase))) && Item(j, UpdatedAt, None) == Some(JTime(updatedAt))
    && Lacks(j)
  }

  ghost predicate Lacks(j: Json) {
    forall k, default ::
      k !in {Id, Objective, PhaseKey, CreatedAt, UpdatedAt} ==> Item(j, k, default) == default
  }

  lemma MinimalItems(id: Uuid, objective: string, phase: Phase, createdAt: Time, updatedAt: Time)
    ensures IsMinimal(Minimal(id, objective, phase, createdAt, updatedAt), phase, updatedAt)
  {
    hide PhaseText;
  }

  lemma PresentRead(j: Json, phase: Phase, updatedAt: Time)
    requires IsMinimal(j, phase, updatedAt)
    ensures PhaseAt(j, PhaseKey) == Some(phase) && TimeAt(j, UpdatedAt) == Some(updatedAt)
  {
    hide PhaseText, ParsePhase, Item;
    PhaseRoundTrip(phase);
  }

  lemma AbsentLists(j: Json)
    requires Lacks(j)
    ensures TextsAt(j, SelectedTools) == TextsAt(j, Outputs) == TextsAt(j, Unknowns) == Some([])
    ensures TextListsAt(j, ToolCapabilities) == Some(map[]) && TextMapAt(j, InstallationState) == Some(map[])
    ensures VerdictsAt(j, VerificationResults) == Some(map[]) && IntMapAt(j, RetryCountByAction) == Some(map[])
  {
    hide Item;
  }

  lemma AbsentStates(j: Json)
    requires Lacks(j)
    ensures ApprovalAt(j, ApprovalStateKey) == Some(NOT_REQUIRED)
        && CancellationAt(j, CancellationStateKey) == Some(NONE)
    ensures OptIdAt(j, PendingActionId) == Some(None) && OptTimeAt(j, CompletedAt) == Some(None)
  {
    hide Item;
  }

  lemma AbsentNumbers(j: Json)
    requires Lacks(j)
    ensures NumberAt(j, ConfidenceKey, 0.0) == Some(0.0) && IntAt(j, ActionCount, 0) == Some(0)
    ensures IntAt(j, ModelCallCount, 0) == Some(0) && IntAt(j, InstallationCount, 0) == Some(0)
  {
    hide Item;
  }

  lemma AbsentTexts(j: Json)
    requires Lacks(j)
    ensures OptTextAt(j, NextAction) == OptTextAt(j, ClarificationQuestion) == OptTextAt(j, LastErrorSignature) ==
        Some(None)
  {
    hide Item;
  }

  lemma MinimalHeader(id: Uuid, objective: string, phase: Phase, createdAt: Time, updatedAt: Time)
    ensures HeaderFromJson(Minimal(id, objective, phase, createdAt, updatedAt)) ==
            Some(Header(id, objective, "", None, None, "UNKNOWN", None, [], None, [], "idle", [], createdAt, None))
  {
    hide PhaseText;
  }

  lemma MinimalHistory(id: Uuid, objective: string, phase: Phase, createdAt: Time, updatedAt: Time)
    ensures HistoryFromJson(Minimal(id, objective, phase, createdAt, updatedAt)) ==
        Some(History([], [], [], [], [], []))
  {
    hide PhaseText;
  }
}
